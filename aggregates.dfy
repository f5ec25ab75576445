/** The query operations the metrics are built from: a queryset's
    `filter()` and `count()`, and SQL `AVG` over a column, which skips
    NULL entries. */
module Aggregates {
  import opened Wrappers

  /** Number of elements of `s` that satisfy `p`. */
  function Count<T>(s: seq<T>, p: T -> bool): (n: nat)
    ensures n <= |s|
    ensures n == 0 <==> forall i :: 0 <= i < |s| ==> !p(s[i])
  {
    if s == [] then 0
    else
      var rest := Count(s[1..], p);
      assert forall i :: 1 <= i < |s| ==> s[i] == s[1..][i - 1];
      (if p(s[0]) then 1 else 0) + rest
  }

  /** The elements of `s` that satisfy `p`, in their original order. */
  function Filter<T(==)>(s: seq<T>, p: T -> bool): (r: seq<T>)
    ensures |r| == Count(s, p)
    ensures forall i :: 0 <= i < |r| ==> p(r[i])
  {
    if s == [] then [] else (if p(s[0]) then [s[0]] else []) + Filter(s[1..], p)
  }

  /** The filtered sequence holds the elements that satisfy `p`, and no
      other. */
  lemma {:induction false} FilterMembership<T>(s: seq<T>, p: T -> bool)
    ensures forall i :: 0 <= i < |Filter(s, p)| ==> Filter(s, p)[i] in s
    ensures forall i :: 0 <= i < |s| && p(s[i]) ==> s[i] in Filter(s, p)
  {
    if s != [] {
      FilterMembership(s[1..], p);
      assert forall i :: 1 <= i < |s| ==> s[i] == s[1..][i - 1];
      var head := if p(s[0]) then [s[0]] else [];
      assert Filter(s, p) == head + Filter(s[1..], p);
    }
  }

  lemma {:induction false} CountAppend<T>(a: seq<T>, b: seq<T>, p: T -> bool)
    ensures Count(a + b, p) == Count(a, p) + Count(b, p)
  {
    if a == [] {
      assert a + b == b;
    } else {
      assert (a + b)[1..] == a[1..] + b;
      CountAppend(a[1..], b, p);
    }
  }

  lemma CountSingleton<T>(x: T, p: T -> bool)
    ensures Count([x], p) == if p(x) then 1 else 0
  {
  }

  lemma {:induction false} FilterAppend<T>(a: seq<T>, b: seq<T>, p: T -> bool)
    ensures Filter(a + b, p) == Filter(a, p) + Filter(b, p)
  {
    if a == [] {
      assert a + b == b;
    } else {
      assert (a + b)[1..] == a[1..] + b;
      FilterAppend(a[1..], b, p);
    }
  }

  function Sum(s: seq<real>): real
  {
    if s == [] then 0.0 else s[0] + Sum(s[1..])
  }

  /** Every element lies in [lo, hi], so the sum lies between |s| copies of each bound. */
  lemma {:induction false} SumBounds(s: seq<real>, lo: real, hi: real)
    requires forall i :: 0 <= i < |s| ==> lo <= s[i] <= hi
    ensures lo * |s| as real <= Sum(s) <= hi * |s| as real
  {
    if s != [] {
      SumBounds(s[1..], lo, hi);
    }
  }

  /** Arithmetic mean of a non-empty column. */
  function Mean(s: seq<real>): real
    requires |s| > 0
  {
    Sum(s) / |s| as real
  }

  /** A mean lies between any lower and upper bound of its entries, in
      particular between their minimum and maximum. */
  lemma MeanBounds(s: seq<real>, lo: real, hi: real)
    requires |s| > 0
    requires forall i :: 0 <= i < |s| ==> lo <= s[i] <= hi
    ensures lo <= Mean(s) <= hi
  {
    SumBounds(s, lo, hi);
    QuotientBounds(Sum(s), |s| as real, lo, hi);
  }

  /** A count divided by a larger, non-zero count is a fraction in [0, 1],
      and exactly 1 when the two counts agree. */
  lemma CountRatio(part: nat, whole: nat)
    requires part <= whole && whole > 0
    ensures 0.0 <= part as real / whole as real <= 1.0
    ensures part == whole ==> part as real / whole as real == 1.0
  {
  }

  /** A total bounded by `n` copies of `lo` and of `hi` has its share per
      item bounded by `lo` and `hi`. */
  lemma QuotientBounds(total: real, n: real, lo: real, hi: real)
    requires n > 0.0 && lo * n <= total <= hi * n
    ensures lo <= total / n <= hi
  {
  }

  /** The same for a whole number of seconds shared among `n` orders. */
  lemma IntQuotientBounds(total: int, n: nat, lo: int, hi: int)
    requires n > 0 && lo * n <= total <= hi * n
    ensures lo as real <= total as real / n as real <= hi as real
  {
  }

  /** The non-NULL entries of a nullable column, in order. */
  function NonNull(column: seq<Option<real>>): (vs: seq<real>)
    ensures |vs| <= |column|
    ensures vs == [] <==> forall i :: 0 <= i < |column| ==> column[i].None?
    ensures forall x :: x in vs <==> Some(x) in column
  {
    if column == [] then []
    else
      assert forall i :: 1 <= i < |column| ==> column[i] == column[1..][i - 1];
      assert forall x :: Some(x) in column <==> Some(x) == column[0] || Some(x) in column[1..];
      (if column[0].Some? then [column[0].value] else []) + NonNull(column[1..])
  }

  lemma {:induction false} NonNullAppend(a: seq<Option<real>>, b: seq<Option<real>>)
    ensures NonNull(a + b) == NonNull(a) + NonNull(b)
  {
    if a == [] {
      assert a + b == b;
    } else {
      assert (a + b)[1..] == a[1..] + b;
      NonNullAppend(a[1..], b);
    }
  }

  /** SQL `AVG` over a nullable column: the mean of the non-NULL entries,
      or NULL when there are none. */
  function SqlAvg(column: seq<Option<real>>): (r: Option<real>)
    ensures r.None? <==> forall i :: 0 <= i < |column| ==> column[i].None?
  {
    var vs := NonNull(column);
    if vs == [] then None else Some(Mean(vs))
  }

  /** A NULL entry, wherever it stands, neither adds to the numerator nor
      to the divisor of `AVG`. */
  lemma SqlAvgSkipsNull(a: seq<Option<real>>, b: seq<Option<real>>)
    ensures SqlAvg(a + [None] + b) == SqlAvg(a + b)
  {
    var noNull: seq<Option<real>> := [None];
    calc {
      NonNull(a + noNull + b);
    == { NonNullAppend(a + noNull, b); }
      NonNull(a + noNull) + NonNull(b);
    == { NonNullAppend(a, noNull); }
      NonNull(a) + NonNull(noNull) + NonNull(b);
    == { assert NonNull(noNull) == []; }
      NonNull(a) + NonNull(b);
    == { NonNullAppend(a, b); }
      NonNull(a + b);
    }
  }

  /** The average lies within any bounds of the non-NULL entries. */
  lemma SqlAvgBounds(column: seq<Option<real>>, lo: real, hi: real)
    requires forall i :: 0 <= i < |column| && column[i].Some? ==> lo <= column[i].value <= hi
    ensures SqlAvg(column).Some? ==> lo <= SqlAvg(column).value <= hi
  {
    var vs := NonNull(column);
    if vs != [] {
      forall i | 0 <= i < |vs|
        ensures lo <= vs[i] <= hi
      {
        assert vs[i] in vs;
        var j :| 0 <= j < |column| && column[j] == Some(vs[i]);
      }
      MeanBounds(vs, lo, hi);
    }
  }
}
