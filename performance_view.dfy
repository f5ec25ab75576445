/** The vendor performance endpoint: recompute the vendor's metrics
    (appending a snapshot), then answer with the SQL average of each
    metric over all of that vendor's snapshots. */
module PerformanceView {
  import opened Wrappers
  import opened Aggregates
  import opened PurchaseOrders
  import opened VendorMetrics
  import opened History
  import opened Vendors

  datatype PerformanceReport = PerformanceReport(vendor: nat, averages: Metrics)

  /** The endpoint's outcome: not found for an unknown vendor id. */
  datatype Response = NotFound | Ok(report: PerformanceReport)

  /** One metric column of the snapshot table. */
  function Column(snaps: seq<HistoricalPerformance>, field: Metrics -> Option<real>): (col: seq<Option<real>>)
    ensures |col| == |snaps|
    ensures forall i :: 0 <= i < |snaps| ==> col[i] == field(snaps[i].metrics)
  {
    seq(|snaps|, i requires 0 <= i < |snaps| => field(snaps[i].metrics))
  }

  /** `aggregate(Avg(...))` of each metric column. A field is `None` exactly
      when that metric is `None` in every snapshot. */
  function AverageMetrics(snaps: seq<HistoricalPerformance>): (avg: Metrics)
    ensures avg.onTimeDeliveryRate.None? <==>
            forall i :: 0 <= i < |snaps| ==> snaps[i].metrics.onTimeDeliveryRate.None?
    ensures avg.qualityRatingAvg.None? <==>
            forall i :: 0 <= i < |snaps| ==> snaps[i].metrics.qualityRatingAvg.None?
    ensures avg.averageResponseTime.None? <==>
            forall i :: 0 <= i < |snaps| ==> snaps[i].metrics.averageResponseTime.None?
    ensures avg.fulfillmentRate.None? <==>
            forall i :: 0 <= i < |snaps| ==> snaps[i].metrics.fulfillmentRate.None?
  {
    Metrics(
      SqlAvg(Column(snaps, (m: Metrics) => m.onTimeDeliveryRate)),
      SqlAvg(Column(snaps, (m: Metrics) => m.qualityRatingAvg)),
      SqlAvg(Column(snaps, (m: Metrics) => m.averageResponseTime)),
      SqlAvg(Column(snaps, (m: Metrics) => m.fulfillmentRate)))
  }

  /** Snapshots written by recomputation carry an on-time rate of 1.0 or
      none (see `OnTimeRateIsOneWhenDefined`), so their average is 1.0 or
      none as well. */
  lemma AveragedOnTimeRateIsOne(snaps: seq<HistoricalPerformance>)
    requires forall i :: 0 <= i < |snaps| ==>
               snaps[i].metrics.onTimeDeliveryRate == None || snaps[i].metrics.onTimeDeliveryRate == Some(1.0)
    ensures AverageMetrics(snaps).onTimeDeliveryRate == None ||
            AverageMetrics(snaps).onTimeDeliveryRate == Some(1.0)
  {
    SqlAvgBounds(Column(snaps, (m: Metrics) => m.onTimeDeliveryRate), 1.0, 1.0);
  }

  /** Fulfillment rates in [0, 1] average to a value in [0, 1]. */
  lemma AveragedFulfillmentRateIsFraction(snaps: seq<HistoricalPerformance>)
    requires forall i :: 0 <= i < |snaps| && snaps[i].metrics.fulfillmentRate.Some? ==>
               0.0 <= snaps[i].metrics.fulfillmentRate.value <= 1.0
    ensures AverageMetrics(snaps).fulfillmentRate.Some? ==>
            0.0 <= AverageMetrics(snaps).fulfillmentRate.value <= 1.0
  {
    SqlAvgBounds(Column(snaps, (m: Metrics) => m.fulfillmentRate), 0.0, 1.0);
  }

  /** Snapshots of other vendors never reach a vendor's averages. */
  lemma AveragesIgnoreOtherVendors(records: seq<HistoricalPerformance>, r: HistoricalPerformance, vendorId: nat)
    requires r.vendor != vendorId
    ensures AverageMetrics(ForVendor(records + [r], vendorId)) == AverageMetrics(ForVendor(records, vendorId))
  {
    ForVendorAppend(records, r, vendorId);
    assert ForVendor(records, vendorId) + [] == ForVendor(records, vendorId);
  }

  /** `vendor_performance`: an unknown id answers not found and changes
      nothing; otherwise the vendor is recomputed (one new snapshot, whose
      values are the vendor's new metrics, and no change to its profile)
      and the answer averages every snapshot of that vendor, the new one
      included. */
  method VendorPerformance(vendorId: nat, vendors: map<nat, Vendor>, orders: seq<PurchaseOrder>,
                           history: HistoryStore, now: Timestamp)
    returns (response: Response)
    requires forall k :: k in vendors ==> vendors[k].id == k
    modifies if vendorId in vendors then {vendors[vendorId]} else {}, history
    ensures vendorId !in vendors ==> response == NotFound && history.records == old(history.records)
    ensures vendorId in vendors ==>
              var vendor := vendors[vendorId];
              var snaps := ForVendor(history.records, vendorId);
              && vendor.CurrentMetrics() == ComputeMetrics(OrdersOf(orders, vendorId))
              && history.records == old(history.records) + [HistoricalPerformance(vendorId, now, vendor.CurrentMetrics())]
              && |snaps| == |ForVendor(old(history.records), vendorId)| + 1
              && snaps[|snaps| - 1].metrics == vendor.CurrentMetrics()
              && response == Ok(PerformanceReport(vendorId, AverageMetrics(snaps)))
    ensures vendorId in vendors ==>
              var vendor := vendors[vendorId];
              && vendor.name == old(vendor.name) && vendor.contactDetails == old(vendor.contactDetails)
              && vendor.address == old(vendor.address) && vendor.vendorCode == old(vendor.vendorCode)
  {
    if vendorId !in vendors {
      return NotFound;
    }
    var vendor := vendors[vendorId];
    vendor.UpdatePerformanceMetrics(orders, history, now);
    ForVendorAppend(old(history.records), HistoricalPerformance(vendorId, now, vendor.CurrentMetrics()), vendorId);
    var performances := ForVendor(history.records, vendorId);
    if |performances| > 0 {
      response := Ok(PerformanceReport(vendor.id, AverageMetrics(performances)));
    } else {
      assert false;
    }
  }
}
