/** The four vendor performance metrics, each computed from the vendor's
    purchase orders (`purchaseorder_set`). A metric is `None` when no order
    qualifies for it; the two rates are fractions in [0, 1]. */
module VendorMetrics {
  import opened Wrappers
  import opened Aggregates
  import opened PurchaseOrders

  datatype Metrics = Metrics(
    onTimeDeliveryRate: Option<real>,
    qualityRatingAvg: Option<real>,
    averageResponseTime: Option<real>,
    fulfillmentRate: Option<real>)

  // ---------------------------------------------------------------------
  // On-time delivery rate
  // ---------------------------------------------------------------------

  /** The on-time filter: a completed order whose delivery date is at or
      before its own delivery date (the query compares the field with
      itself). */
  predicate DeliveredOnTime(po: PurchaseOrder)
  {
    IsCompleted(po) && po.deliveryDate <= po.deliveryDate
  }

  function OnTimeDeliveryRate(pos: seq<PurchaseOrder>): (r: Option<real>)
    ensures r.None? <==> forall i :: 0 <= i < |pos| ==> !IsCompleted(pos[i])
  {
    var completed := Count(pos, IsCompleted);
    if completed > 0 then Some(Count(pos, DeliveredOnTime) as real / completed as real) else None
  }

  /** Every completed order passes the on-time filter. */
  lemma {:induction false} OnTimeCountIsCompletedCount(pos: seq<PurchaseOrder>)
    ensures Count(pos, DeliveredOnTime) == Count(pos, IsCompleted)
  {
    if pos != [] {
      OnTimeCountIsCompletedCount(pos[1..]);
    }
  }

  /** Whenever the on-time rate is defined (some order is completed) it is
      exactly 1.0. */
  lemma OnTimeRateIsOneWhenDefined(pos: seq<PurchaseOrder>)
    ensures OnTimeDeliveryRate(pos) == None || OnTimeDeliveryRate(pos) == Some(1.0)
  {
    var completed := Count(pos, IsCompleted);
    if completed > 0 {
      calc {
        OnTimeDeliveryRate(pos);
      ==
        Some(Count(pos, DeliveredOnTime) as real / completed as real);
      == { OnTimeCountIsCompletedCount(pos); }
        Some(completed as real / completed as real);
      == { CountRatio(completed, completed); }
        Some(1.0);
      }
    }
  }

  // ---------------------------------------------------------------------
  // Quality rating average
  // ---------------------------------------------------------------------

  predicate IsRatedCompleted(po: PurchaseOrder)
  {
    IsCompleted(po) && po.qualityRating.Some?
  }

  /** The ratings of the completed, rated orders, in order. */
  function Ratings(pos: seq<PurchaseOrder>): (rs: seq<real>)
    ensures |rs| == Count(pos, IsRatedCompleted)
  {
    if pos == [] then []
    else (if IsRatedCompleted(pos[0]) then [pos[0].qualityRating.value] else []) + Ratings(pos[1..])
  }

  /** `x` is the rating of some completed, rated order of `pos`. */
  ghost predicate IsRatingOf(pos: seq<PurchaseOrder>, x: real)
  {
    exists i :: 0 <= i < |pos| && IsRatedCompleted(pos[i]) && pos[i].qualityRating == Some(x)
  }

  /** The ratings are exactly those of the completed, rated orders: each
      comes from such an order, and each such order contributes its own. */
  lemma {:induction false} RatingsAreThoseOfRatedCompletedOrders(pos: seq<PurchaseOrder>)
    ensures forall k :: 0 <= k < |Ratings(pos)| ==> IsRatingOf(pos, Ratings(pos)[k])
    ensures forall i :: 0 <= i < |pos| && IsRatedCompleted(pos[i]) ==> pos[i].qualityRating.value in Ratings(pos)
  {
    if pos != [] {
      var tail := pos[1..];
      RatingsAreThoseOfRatedCompletedOrders(tail);
      assert forall i :: 1 <= i < |pos| ==> pos[i] == tail[i - 1];
      var head := if IsRatedCompleted(pos[0]) then [pos[0].qualityRating.value] else [];
      var rs := Ratings(pos);
      assert rs == head + Ratings(tail);
      forall k | 0 <= k < |rs|
        ensures IsRatingOf(pos, rs[k])
      {
        if k < |head| {
          assert IsRatedCompleted(pos[0]) && pos[0].qualityRating == Some(rs[k]);
        } else {
          assert IsRatingOf(tail, Ratings(tail)[k - |head|]);
          var j :| 0 <= j < |tail| && IsRatedCompleted(tail[j])
                   && tail[j].qualityRating == Some(Ratings(tail)[k - |head|]);
          assert pos[j + 1] == tail[j];
        }
      }
    }
  }

  /** The completed orders rated exactly `x`. */
  function RatedAs(x: real): PurchaseOrder -> bool
  {
    (po: PurchaseOrder) => IsRatedCompleted(po) && po.qualityRating == Some(x)
  }

  /** Each rating value enters the average as many times as there are
      completed orders rated with it: one entry per order, not per value. */
  lemma {:induction false} RatingMultiplicity(pos: seq<PurchaseOrder>, x: real)
    ensures multiset(Ratings(pos))[x] == Count(pos, RatedAs(x))
  {
    if pos != [] {
      RatingMultiplicity(pos[1..], x);
      var head := if IsRatedCompleted(pos[0]) then [pos[0].qualityRating.value] else [];
      assert Ratings(pos) == head + Ratings(pos[1..]);
      assert multiset(Ratings(pos)) == multiset(head) + multiset(Ratings(pos[1..]));
    }
  }

  function QualityRatingAvg(pos: seq<PurchaseOrder>): (r: Option<real>)
    ensures r.None? <==> forall i :: 0 <= i < |pos| ==> !IsRatedCompleted(pos[i])
  {
    if Count(pos, IsRatedCompleted) > 0 then Some(Mean(Ratings(pos))) else None
  }

  /** The average lies between any bounds of the ratings that enter it,
      in particular between their minimum and maximum. */
  lemma QualityWithinRatings(pos: seq<PurchaseOrder>, lo: real, hi: real)
    requires forall i :: 0 <= i < |pos| && IsRatedCompleted(pos[i]) ==>
               lo <= pos[i].qualityRating.value <= hi
    ensures QualityRatingAvg(pos).Some? ==> lo <= QualityRatingAvg(pos).value <= hi
  {
    var rs := Ratings(pos);
    RatingsAreThoseOfRatedCompletedOrders(pos);
    if |rs| > 0 {
      forall k | 0 <= k < |rs|
        ensures lo <= rs[k] <= hi
      {
        assert IsRatingOf(pos, rs[k]);
      }
      MeanBounds(rs, lo, hi);
    }
  }

  lemma {:induction false} RatingsAppend(a: seq<PurchaseOrder>, b: seq<PurchaseOrder>)
    ensures Ratings(a + b) == Ratings(a) + Ratings(b)
  {
    if a == [] {
      assert a + b == b;
    } else {
      assert (a + b)[1..] == a[1..] + b;
      RatingsAppend(a[1..], b);
    }
  }

  /** An order that is not completed, or has no rating, enters neither the
      numerator nor the divisor of the quality average, wherever it stands. */
  lemma QualityIgnoresUnratedOrders(a: seq<PurchaseOrder>, po: PurchaseOrder, b: seq<PurchaseOrder>)
    requires !IsRatedCompleted(po)
    ensures QualityRatingAvg(a + [po] + b) == QualityRatingAvg(a + b)
  {
    assert Ratings([po]) == [] by {
      assert [po][1..] == [];
    }
    calc {
      Ratings(a + [po] + b);
    == { RatingsAppend(a + [po], b); }
      Ratings(a + [po]) + Ratings(b);
    == { RatingsAppend(a, [po]); }
      Ratings(a) + Ratings([po]) + Ratings(b);
    ==
      Ratings(a) + Ratings(b);
    == { RatingsAppend(a, b); }
      Ratings(a + b);
    }
    calc {
      Count(a + [po] + b, IsRatedCompleted);
    == { CountAppend(a + [po], b, IsRatedCompleted); }
      Count(a + [po], IsRatedCompleted) + Count(b, IsRatedCompleted);
    == { CountAppend(a, [po], IsRatedCompleted); CountSingleton(po, IsRatedCompleted); }
      Count(a, IsRatedCompleted) + Count(b, IsRatedCompleted);
    == { CountAppend(a, b, IsRatedCompleted); }
      Count(a + b, IsRatedCompleted);
    }
  }

  // ---------------------------------------------------------------------
  // Average response time
  // ---------------------------------------------------------------------

  /** Orders whose response time can be measured: both dates present. */
  predicate HasResponseTime(po: PurchaseOrder)
  {
    po.issueDate.Some? && po.acknowledgmentDate.Some?
  }

  predicate AcknowledgedAfterIssue(po: PurchaseOrder)
  {
    HasResponseTime(po) ==> po.issueDate.value <= po.acknowledgmentDate.value
  }

  /** Sum, in seconds, of acknowledgment minus issue date over the orders
      that have both dates. */
  function ResponseTotal(pos: seq<PurchaseOrder>): (total: int)
    ensures (forall i :: 0 <= i < |pos| ==> AcknowledgedAfterIssue(pos[i])) ==> total >= 0
  {
    if pos == [] then 0
    else
      var rest := ResponseTotal(pos[1..]);
      assert forall i :: 1 <= i < |pos| ==> pos[i] == pos[1..][i - 1];
      var po := pos[0];
      (if HasResponseTime(po) then po.acknowledgmentDate.value - po.issueDate.value else 0) + rest
  }

  /** The divisor is the number of acknowledged orders, including those
      without an issue date, which add nothing to the numerator. */
  function AverageResponseTime(pos: seq<PurchaseOrder>): (r: Option<real>)
    ensures r.None? <==> forall i :: 0 <= i < |pos| ==> !IsAcknowledged(pos[i])
    ensures r.Some? && (forall i :: 0 <= i < |pos| ==> AcknowledgedAfterIssue(pos[i])) ==> r.value >= 0.0
  {
    var acknowledged := Count(pos, IsAcknowledged);
    if acknowledged > 0 then Some(ResponseTotal(pos) as real / acknowledged as real) else None
  }

  lemma {:induction false} ResponseTotalAppend(a: seq<PurchaseOrder>, b: seq<PurchaseOrder>)
    ensures ResponseTotal(a + b) == ResponseTotal(a) + ResponseTotal(b)
  {
    if a == [] {
      assert a + b == b;
    } else {
      assert (a + b)[1..] == a[1..] + b;
      ResponseTotalAppend(a[1..], b);
    }
  }

  /** An acknowledged order without an issue date adds nothing to the total
      but one to the divisor. */
  lemma MissingIssueDateStillCounted(pos: seq<PurchaseOrder>, po: PurchaseOrder)
    requires IsAcknowledged(po) && po.issueDate.None?
    ensures AverageResponseTime(pos + [po]) ==
            Some(ResponseTotal(pos) as real / (Count(pos, IsAcknowledged) + 1) as real)
  {
    assert ResponseTotal([po]) == 0 by {
      assert [po][1..] == [];
    }
    ResponseTotalAppend(pos, [po]);
    CountAppend(pos, [po], IsAcknowledged);
    CountSingleton(po, IsAcknowledged);
    var n := Count(pos + [po], IsAcknowledged);
    assert n == Count(pos, IsAcknowledged) + 1;
    assert ResponseTotal(pos + [po]) == ResponseTotal(pos);
  }

  /** One order acknowledged `d` seconds after issue: the average is `d`. */
  lemma SingleAcknowledgedOrder(po: PurchaseOrder)
    requires HasResponseTime(po)
    ensures AverageResponseTime([po]) ==
            Some((po.acknowledgmentDate.value - po.issueDate.value) as real)
  {
    assert [po][1..] == [];
    CountSingleton(po, IsAcknowledged);
    assert ResponseTotal([po]) == po.acknowledgmentDate.value - po.issueDate.value;
  }

  // ---------------------------------------------------------------------
  // Fulfillment rate
  // ---------------------------------------------------------------------

  predicate IsFulfilled(po: PurchaseOrder)
  {
    IsCompleted(po) && IsAcknowledged(po)
  }

  function FulfillmentRate(pos: seq<PurchaseOrder>): (r: Option<real>)
    ensures r.None? <==> pos == []
    ensures r.Some? ==> 0.0 <= r.value <= 1.0
  {
    if |pos| > 0 then
      CountRatio(Count(pos, IsFulfilled), |pos|);
      Some(Count(pos, IsFulfilled) as real / |pos| as real)
    else None
  }

  // ---------------------------------------------------------------------
  // All four together
  // ---------------------------------------------------------------------

  function ComputeMetrics(pos: seq<PurchaseOrder>): Metrics
  {
    Metrics(OnTimeDeliveryRate(pos), QualityRatingAvg(pos), AverageResponseTime(pos), FulfillmentRate(pos))
  }

  /** A vendor without orders has no metric at all. */
  lemma NoOrdersNoMetrics()
    ensures ComputeMetrics([]) == Metrics(None, None, None, None)
  {
  }

  /** The status match is exact: an order whose status is anything but
      "completed" (for instance "Completed") adds one to the fulfillment
      divisor and nothing to any numerator. */
  lemma StatusMatchIsExact(pos: seq<PurchaseOrder>, po: PurchaseOrder)
    requires !IsCompleted(po)
    ensures OnTimeDeliveryRate(pos + [po]) == OnTimeDeliveryRate(pos)
    ensures QualityRatingAvg(pos + [po]) == QualityRatingAvg(pos)
    ensures FulfillmentRate(pos + [po]) == Some(Count(pos, IsFulfilled) as real / (|pos| + 1) as real)
  {
    CountAppend(pos, [po], IsCompleted);
    CountSingleton(po, IsCompleted);
    CountAppend(pos, [po], DeliveredOnTime);
    CountSingleton(po, DeliveredOnTime);
    assert OnTimeDeliveryRate(pos + [po]) == OnTimeDeliveryRate(pos);
    QualityIgnoresUnratedOrders(pos, po, []);
    assert pos + [po] + [] == pos + [po];
    assert pos + [] == pos;
    CountAppend(pos, [po], IsFulfilled);
    CountSingleton(po, IsFulfilled);
  }

  /** Orders of other vendors in the table never reach a vendor's metrics. */
  lemma MetricsIgnoreOtherVendors(table: seq<PurchaseOrder>, po: PurchaseOrder, vendorId: nat)
    requires po.vendor != vendorId
    ensures ComputeMetrics(OrdersOf(table + [po], vendorId)) == ComputeMetrics(OrdersOf(table, vendorId))
  {
    OrdersOfIgnoresOtherVendors(table, po, vendorId);
  }

  /** The order of the purchase-order update scenario: status "Completed"
      (capitalised), acknowledged ten days after issue. */
  const ScenarioOrder := PurchaseOrder(
    1, "PO123", 1,
    1672574400,   // 2023-01-01T12:00:00Z
    1673352000,   // 2023-01-10T12:00:00Z
    5, "Completed", None,
    Some(1672920000),   // 2023-01-05T12:00:00Z
    Some(1673784000))   // 2023-01-15T12:00:00Z

  /** With that order alone, only the response time and the fulfillment
      rate are defined, and the order is not counted as fulfilled. */
  lemma CapitalisedCompletedScenario()
    ensures ComputeMetrics([ScenarioOrder]) == Metrics(None, None, Some(864000.0), Some(0.0))
  {
    var po := ScenarioOrder;
    assert !IsCompleted(po) by {
      assert po.status[0] != Completed[0];
    }
    CountSingleton(po, IsCompleted);
    CountSingleton(po, IsRatedCompleted);
    CountSingleton(po, IsFulfilled);
    SingleAcknowledgedOrder(po);
  }

  /** A completed order rated 4.0 but never acknowledged, beside a pending
      order: the on-time rate is 1.0, the quality average 4.0, the response
      time undefined, and the fulfillment rate 0.0, since the completed
      order lacks an acknowledgment. */
  lemma CompletedAndPendingScenario(delivered: Timestamp)
    ensures var completed := PurchaseOrder(1, "PO1", 1, 0, delivered, 1, Completed, Some(4.0), Some(0), None);
            var pending := PurchaseOrder(2, "PO2", 1, 0, delivered, 1, "pending", None, Some(0), None);
            ComputeMetrics([completed, pending]) == Metrics(Some(1.0), Some(4.0), None, Some(0.0))
  {
    var completed := PurchaseOrder(1, "PO1", 1, 0, delivered, 1, Completed, Some(4.0), Some(0), None);
    var pending := PurchaseOrder(2, "PO2", 1, 0, delivered, 1, "pending", None, Some(0), None);
    var pos := [completed, pending];
    assert pos == [completed] + [pending];
    assert !IsCompleted(pending) by {
      assert pending.status[0] != Completed[0];
    }
    OnTimeRateIsOneWhenDefined(pos);
    assert IsCompleted(pos[0]);
    assert Ratings(pos) == [4.0] by {
      RatingsAppend([completed], [pending]);
      assert [completed][1..] == [] && [pending][1..] == [];
    }
    assert Mean([4.0]) == 4.0 by {
      assert [4.0][1..] == [];
    }
    CountAppend([completed], [pending], IsRatedCompleted);
    CountSingleton(completed, IsRatedCompleted);
    CountSingleton(pending, IsRatedCompleted);
    CountAppend([completed], [pending], IsFulfilled);
    CountSingleton(completed, IsFulfilled);
    CountSingleton(pending, IsFulfilled);
  }
}
