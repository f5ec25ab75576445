/** The purchase-order record and the predicates the metric queries
    filter on. Timestamps are whole seconds. */
module PurchaseOrders {
  import opened Wrappers
  import opened Aggregates

  type Timestamp = int

  datatype PurchaseOrder = PurchaseOrder(
    id: nat,
    poNumber: string,
    vendor: nat,
    orderDate: Timestamp,
    deliveryDate: Timestamp,
    quantity: int,
    status: string,
    qualityRating: Option<real>,
    issueDate: Option<Timestamp>,
    acknowledgmentDate: Option<Timestamp>)

  /** The only status value the queries match: exact and case-sensitive. */
  const Completed: string := "completed"

  predicate IsCompleted(po: PurchaseOrder)
  {
    po.status == Completed
  }

  predicate IsAcknowledged(po: PurchaseOrder)
  {
    po.acknowledgmentDate.Some?
  }

  function BelongsTo(vendorId: nat): PurchaseOrder -> bool
  {
    (po: PurchaseOrder) => po.vendor == vendorId
  }

  /** A vendor's reverse relation `purchaseorder_set`: the orders whose
      foreign key names the vendor, in table order. */
  function OrdersOf(table: seq<PurchaseOrder>, vendorId: nat): seq<PurchaseOrder>
  {
    Filter(table, BelongsTo(vendorId))
  }

  /** The order set holds exactly the vendor's orders of the table. */
  lemma OrdersOfMembership(table: seq<PurchaseOrder>, vendorId: nat)
    ensures forall k :: 0 <= k < |OrdersOf(table, vendorId)| ==>
              OrdersOf(table, vendorId)[k] in table && OrdersOf(table, vendorId)[k].vendor == vendorId
    ensures forall i :: 0 <= i < |table| && table[i].vendor == vendorId ==> table[i] in OrdersOf(table, vendorId)
  {
    FilterMembership(table, BelongsTo(vendorId));
  }

  /** Adding an order of another vendor to the table leaves a vendor's
      order set as it was. */
  lemma OrdersOfIgnoresOtherVendors(table: seq<PurchaseOrder>, po: PurchaseOrder, vendorId: nat)
    requires po.vendor != vendorId
    ensures OrdersOf(table + [po], vendorId) == OrdersOf(table, vendorId)
  {
    FilterAppend(table, [po], BelongsTo(vendorId));
    assert Filter([po], BelongsTo(vendorId)) == [];
  }
}
