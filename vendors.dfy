/** The vendor record and its recompute-and-snapshot operation. The
    purchase-order table is read, never written; the history table gains
    one row per recomputation. */
module Vendors {
  import opened Wrappers
  import opened PurchaseOrders
  import opened VendorMetrics
  import opened History

  class Vendor {
    const id: nat
    var name: string
    var contactDetails: string
    var address: string
    var vendorCode: string
    var onTimeDeliveryRate: Option<real>
    var qualityRatingAvg: Option<real>
    var averageResponseTime: Option<real>
    var fulfillmentRate: Option<real>

    constructor (id: nat, name: string, contactDetails: string, address: string, vendorCode: string, initial: Metrics)
      ensures this.id == id && this.name == name && this.contactDetails == contactDetails
      ensures this.address == address && this.vendorCode == vendorCode
      ensures CurrentMetrics() == initial
    {
      this.id := id;
      this.name := name;
      this.contactDetails := contactDetails;
      this.address := address;
      this.vendorCode := vendorCode;
      onTimeDeliveryRate := initial.onTimeDeliveryRate;
      qualityRatingAvg := initial.qualityRatingAvg;
      averageResponseTime := initial.averageResponseTime;
      fulfillmentRate := initial.fulfillmentRate;
    }

    /** The four stored metric fields. */
    function CurrentMetrics(): Metrics
      reads this
    {
      Metrics(onTimeDeliveryRate, qualityRatingAvg, averageResponseTime, fulfillmentRate)
    }

    /** Each updater writes one field, from the order table alone: none
        reads another metric, so the order of the four calls is immaterial. */
    method UpdateOnTimeDeliveryRate(orders: seq<PurchaseOrder>)
      modifies this`onTimeDeliveryRate
      ensures CurrentMetrics() == old(CurrentMetrics()).(onTimeDeliveryRate := OnTimeDeliveryRate(OrdersOf(orders, id)))
    {
      onTimeDeliveryRate := OnTimeDeliveryRate(OrdersOf(orders, id));
    }

    method UpdateQualityRatingAvg(orders: seq<PurchaseOrder>)
      modifies this`qualityRatingAvg
      ensures CurrentMetrics() == old(CurrentMetrics()).(qualityRatingAvg := QualityRatingAvg(OrdersOf(orders, id)))
    {
      qualityRatingAvg := QualityRatingAvg(OrdersOf(orders, id));
    }

    method UpdateAverageResponseTime(orders: seq<PurchaseOrder>)
      modifies this`averageResponseTime
      ensures CurrentMetrics() == old(CurrentMetrics()).(averageResponseTime := AverageResponseTime(OrdersOf(orders, id)))
    {
      averageResponseTime := AverageResponseTime(OrdersOf(orders, id));
    }

    method UpdateFulfillmentRate(orders: seq<PurchaseOrder>)
      modifies this`fulfillmentRate
      ensures CurrentMetrics() == old(CurrentMetrics()).(fulfillmentRate := FulfillmentRate(OrdersOf(orders, id)))
    {
      fulfillmentRate := FulfillmentRate(OrdersOf(orders, id));
    }

    /** Recomputes all four metrics from this vendor's orders and appends
        exactly one snapshot holding the new values, stamped `now`. The
        profile fields and every earlier snapshot stay as they were. */
    method UpdatePerformanceMetrics(orders: seq<PurchaseOrder>, history: HistoryStore, now: Timestamp)
      modifies this`onTimeDeliveryRate, this`qualityRatingAvg, this`averageResponseTime, this`fulfillmentRate
      modifies history
      ensures CurrentMetrics() == ComputeMetrics(OrdersOf(orders, id))
      ensures history.records == old(history.records) + [HistoricalPerformance(id, now, CurrentMetrics())]
      ensures name == old(name) && contactDetails == old(contactDetails)
      ensures address == old(address) && vendorCode == old(vendorCode)
    {
      ghost var pos := OrdersOf(orders, id);
      UpdateOnTimeDeliveryRate(orders);
      UpdateQualityRatingAvg(orders);
      UpdateAverageResponseTime(orders);
      UpdateFulfillmentRate(orders);
      assert CurrentMetrics() == ComputeMetrics(pos);
      history.Create(id, now, CurrentMetrics());
    }
  }
}
