/** The purchase order's own response-time recalculation. Unlike the
    vendor-wide metric it skips the order itself, measures from the order
    date rather than the issue date, yields 0 rather than `None` when no
    order contributes, and writes the vendor's response time only. */
module OrderResponseTime {
  import opened Wrappers
  import opened Aggregates
  import opened PurchaseOrders
  import opened VendorMetrics
  import opened Vendors

  /** The queryset filter: same vendor, acknowledged, and not the order
      recalculating (`exclude(id=...)`). */
  predicate Contributes(self: PurchaseOrder, po: PurchaseOrder)
  {
    po.vendor == self.vendor && IsAcknowledged(po) && po.id != self.id
  }

  function ContributesTo(self: PurchaseOrder): PurchaseOrder -> bool
  {
    (po: PurchaseOrder) => Contributes(self, po)
  }

  /** The contributing orders of the whole table, in table order. */
  function AcknowledgedOthers(table: seq<PurchaseOrder>, self: PurchaseOrder): seq<PurchaseOrder>
  {
    Filter(table, ContributesTo(self))
  }

  /** Exactly the acknowledged orders of the same vendor contribute, and
      the recalculating order never does. */
  lemma AcknowledgedOthersAreContributors(table: seq<PurchaseOrder>, self: PurchaseOrder)
    ensures forall k :: 0 <= k < |AcknowledgedOthers(table, self)| ==>
              var po := AcknowledgedOthers(table, self)[k];
              po.vendor == self.vendor && IsAcknowledged(po) && po.id != self.id && po in table
    ensures forall i :: 0 <= i < |table| && Contributes(self, table[i]) ==> table[i] in AcknowledgedOthers(table, self)
    ensures AcknowledgedOthers(table, self) == [] <==> forall i :: 0 <= i < |table| ==> !Contributes(self, table[i])
  {
    FilterMembership(table, ContributesTo(self));
  }

  /** One order's response time: acknowledgment minus order date. */
  function Duration(po: PurchaseOrder): int
    requires IsAcknowledged(po)
  {
    po.acknowledgmentDate.value - po.orderDate
  }

  ghost predicate AllAcknowledged(acked: seq<PurchaseOrder>)
  {
    forall k :: 0 <= k < |acked| ==> IsAcknowledged(acked[k])
  }

  /** Sum of the durations, accumulated front to back. */
  function TotalDuration(acked: seq<PurchaseOrder>): int
    requires AllAcknowledged(acked)
  {
    if acked == [] then 0
    else TotalDuration(acked[..|acked| - 1]) + Duration(acked[|acked| - 1])
  }

  /** Every duration lies in [lo, hi], so the total lies between |acked|
      copies of each bound. */
  lemma {:induction false} TotalDurationBounds(acked: seq<PurchaseOrder>, lo: int, hi: int)
    requires AllAcknowledged(acked)
    requires forall k :: 0 <= k < |acked| ==> lo <= Duration(acked[k]) <= hi
    ensures lo * |acked| <= TotalDuration(acked) <= hi * |acked|
  {
    if acked != [] {
      var init := acked[..|acked| - 1];
      assert forall k :: 0 <= k < |init| ==> init[k] == acked[k];
      TotalDurationBounds(init, lo, hi);
    }
  }

  /** The accumulation loop over the queryset. */
  method SumDurations(acked: seq<PurchaseOrder>) returns (total: int)
    requires AllAcknowledged(acked)
    ensures total == TotalDuration(acked)
  {
    total := 0;
    for i := 0 to |acked|
      invariant total == TotalDuration(acked[..i])
    {
      assert acked[..i + 1][..i] == acked[..i];
      total := total + Duration(acked[i]);
    }
    assert acked[..|acked|] == acked;
  }

  /** The value written to the vendor: the mean duration of the
      contributing orders, or 0 when there are none. */
  function AverageSeconds(table: seq<PurchaseOrder>, self: PurchaseOrder): real
  {
    var acked := AcknowledgedOthers(table, self);
    if |acked| > 0 then TotalDuration(acked) as real / |acked| as real else 0.0
  }

  /** With no contributing order the result is 0, never `None`. */
  lemma NoContributorsGivesZero(table: seq<PurchaseOrder>, self: PurchaseOrder)
    requires forall i :: 0 <= i < |table| ==> !Contributes(self, table[i])
    ensures AverageSeconds(table, self) == 0.0
  {
    AcknowledgedOthersAreContributors(table, self);
  }

  lemma ContributorDurationsBounded(table: seq<PurchaseOrder>, self: PurchaseOrder, lo: int, hi: int)
    requires forall i :: 0 <= i < |table| && Contributes(self, table[i]) ==> lo <= Duration(table[i]) <= hi
    ensures AllAcknowledged(AcknowledgedOthers(table, self))
    ensures forall k :: 0 <= k < |AcknowledgedOthers(table, self)| ==>
              lo <= Duration(AcknowledgedOthers(table, self)[k]) <= hi
  {
    AcknowledgedOthersAreContributors(table, self);
    var acked := AcknowledgedOthers(table, self);
    forall k | 0 <= k < |acked|
      ensures lo <= Duration(acked[k]) <= hi
    {
      assert acked[k] in table;
    }
  }

  /** When some order contributes, the average lies within any bounds of
      the contributing durations. Bounds that also contain 0 hold in every
      case, since no contributor gives 0; with `lo == 0` the average is
      non-negative when no order was acknowledged before it was placed. */
  lemma AverageWithinDurations(table: seq<PurchaseOrder>, self: PurchaseOrder, lo: int, hi: int)
    requires forall i :: 0 <= i < |table| && Contributes(self, table[i]) ==> lo <= Duration(table[i]) <= hi
    ensures AcknowledgedOthers(table, self) != [] ==> lo as real <= AverageSeconds(table, self) <= hi as real
    ensures lo <= 0 <= hi ==> lo as real <= AverageSeconds(table, self) <= hi as real
  {
    ContributorDurationsBounded(table, self, lo, hi);
    var acked := AcknowledgedOthers(table, self);
    if |acked| > 0 {
      TotalDurationBounds(acked, lo, hi);
      IntQuotientBounds(TotalDuration(acked), |acked|, lo, hi);
    }
  }

  lemma AcknowledgedOthersSkip(a: seq<PurchaseOrder>, po: PurchaseOrder, b: seq<PurchaseOrder>, self: PurchaseOrder)
    requires !Contributes(self, po)
    ensures AcknowledgedOthers(a + [po] + b, self) == AcknowledgedOthers(a + b, self)
  {
    var p := ContributesTo(self);
    assert Filter([po], p) == [] by {
      assert [po][1..] == [];
    }
    calc {
      AcknowledgedOthers(a + [po] + b, self);
    == { FilterAppend(a + [po], b, p); }
      Filter(a + [po], p) + Filter(b, p);
    == { FilterAppend(a, [po], p); }
      Filter(a, p) + Filter([po], p) + Filter(b, p);
    ==
      Filter(a, p) + Filter(b, p);
    == { FilterAppend(a, b, p); }
      AcknowledgedOthers(a + b, self);
    }
  }

  /** An order that does not contribute (another vendor's, unacknowledged,
      or the recalculating order itself) changes nothing, wherever it
      stands in the table. */
  lemma NonContributingOrderIgnored(a: seq<PurchaseOrder>, po: PurchaseOrder, b: seq<PurchaseOrder>, self: PurchaseOrder)
    requires !Contributes(self, po)
    ensures AverageSeconds(a + [po] + b, self) == AverageSeconds(a + b, self)
  {
    AcknowledgedOthersSkip(a, po, b, self);
  }

  /** With the recalculating order and one other acknowledged order of the
      same vendor, the result is that order's acknowledgment minus its
      order date; its issue date plays no part. */
  lemma SingleContributingOrder(self: PurchaseOrder, po: PurchaseOrder)
    requires Contributes(self, po)
    ensures AverageSeconds([self, po], self) == Duration(po) as real
  {
    var p := ContributesTo(self);
    assert [self, po] == [self] + [po];
    FilterAppend([self], [po], p);
    assert Filter([self], p) == [] by {
      assert [self][1..] == [];
    }
    assert Filter([po], p) == [po] by {
      assert [po][1..] == [];
    }
    assert AcknowledgedOthers([self, po], self) == [po];
    assert TotalDuration([po]) == Duration(po) by {
      assert [po][..0] == [];
    }
  }

  /** `PurchaseOrder.recalculate_average_response_time`: overwrites the
      vendor's response time, and nothing else, with `AverageSeconds`. */
  method RecalculateAverageResponseTime(self: PurchaseOrder, table: seq<PurchaseOrder>, vendor: Vendor)
    requires vendor.id == self.vendor
    modifies vendor`averageResponseTime
    ensures vendor.CurrentMetrics() ==
            old(vendor.CurrentMetrics()).(averageResponseTime := Some(AverageSeconds(table, self)))
  {
    var acked := AcknowledgedOthers(table, self);
    AcknowledgedOthersAreContributors(table, self);
    var total := SumDurations(acked);
    var average: real;
    if |acked| > 0 {
      average := total as real / |acked| as real;
    } else {
      average := 0.0;
    }
    vendor.averageResponseTime := Some(average);
  }
}
