/** Historical performance records: an append-only table of metric
    snapshots, one row per recomputation, each naming its vendor. */
module History {
  import opened Aggregates
  import opened PurchaseOrders
  import opened VendorMetrics

  datatype HistoricalPerformance = HistoricalPerformance(vendor: nat, date: Timestamp, metrics: Metrics)

  function OfVendor(vendorId: nat): HistoricalPerformance -> bool
  {
    (r: HistoricalPerformance) => r.vendor == vendorId
  }

  /** The snapshots of one vendor (`filter(vendor=...)`), in table order. */
  function ForVendor(records: seq<HistoricalPerformance>, vendorId: nat): seq<HistoricalPerformance>
  {
    Filter(records, OfVendor(vendorId))
  }

  /** A vendor's snapshot list holds every snapshot naming that vendor,
      and no other. */
  lemma ForVendorMembership(records: seq<HistoricalPerformance>, vendorId: nat)
    ensures |ForVendor(records, vendorId)| == Count(records, OfVendor(vendorId)) <= |records|
    ensures forall k :: 0 <= k < |ForVendor(records, vendorId)| ==>
              ForVendor(records, vendorId)[k].vendor == vendorId && ForVendor(records, vendorId)[k] in records
    ensures forall i :: 0 <= i < |records| && records[i].vendor == vendorId ==> records[i] in ForVendor(records, vendorId)
  {
    FilterMembership(records, OfVendor(vendorId));
  }

  /** Appending a record extends a vendor's snapshot list by that record
      exactly when the record is the vendor's. */
  lemma ForVendorAppend(records: seq<HistoricalPerformance>, r: HistoricalPerformance, vendorId: nat)
    ensures ForVendor(records + [r], vendorId) ==
            ForVendor(records, vendorId) + (if r.vendor == vendorId then [r] else [])
  {
    FilterAppend(records, [r], OfVendor(vendorId));
    assert [r][1..] == [];
  }

  /** The history table. Rows are only ever added. */
  class HistoryStore {
    var records: seq<HistoricalPerformance>

    constructor ()
      ensures records == []
    {
      records := [];
    }

    /** `HistoricalPerformance.objects.create(...)`. */
    method Create(vendor: nat, date: Timestamp, metrics: Metrics)
      modifies this
      ensures records == old(records) + [HistoricalPerformance(vendor, date, metrics)]
    {
      records := records + [HistoricalPerformance(vendor, date, metrics)];
    }
  }
}
