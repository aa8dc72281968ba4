/** Column statistics as pandas computes them: `mode()[0]`, `mean()`, `max()`. */
module Stats {
  import opened Wrappers

  /** `m` is a most frequent value of `s`, and the smallest of those. */
  ghost predicate IsSmallestMode(s: seq<int>, m: int) {
    && m in s
    && (forall x :: x in s ==> multiset(s)[x] <= multiset(s)[m])
    && (forall x :: x in s && multiset(s)[x] == multiset(s)[m] ==> m <= x)
  }

  /**
   * `Series.mode()[0]` on the present values `s`: pandas returns the modes
   * sorted, so the first one is the smallest value of greatest frequency.
   * `None` stands for the empty mode list, where indexing with 0 fails.
   */
  function Mode(s: seq<int>): (r: Option<int>)
    ensures r.None? <==> |s| == 0
    ensures r.Some? ==> IsSmallestMode(s, r.value)
  {
    if |s| == 0 then None else Some(ModeAmong(s, s))
  }

  /** The candidate of `pool` that is most frequent in `s`, the smallest one on ties. */
  function ModeAmong(s: seq<int>, pool: seq<int>): (r: int)
    requires |pool| > 0
    ensures r in pool
    ensures forall x :: x in pool ==>
              multiset(s)[x] < multiset(s)[r] || (multiset(s)[x] == multiset(s)[r] && r <= x)
  {
    if |pool| == 1 then pool[0]
    else
      var best := ModeAmong(s, pool[1..]);
      var c, b := multiset(s)[pool[0]], multiset(s)[best];
      assert forall x :: x in pool ==> x == pool[0] || x in pool[1..];
      if c > b || (c == b && pool[0] < best) then pool[0] else best
  }

  function Sum(s: seq<real>): real {
    if s == [] then 0.0 else Sum(s[..|s| - 1]) + s[|s| - 1]
  }

  /** `mean()` of the present values `s`; NaN (`None`) when there are none. */
  function Mean(s: seq<real>): (r: Option<real>)
    ensures r.None? <==> |s| == 0
    ensures r.Some? ==> r.value * (|s| as real) == Sum(s)
  {
    if |s| == 0 then None else Some(Sum(s) / (|s| as real))
  }

  /** `max()` of `s`; missing when `s` is empty. */
  function Max(s: seq<real>): (r: Option<real>)
    ensures r.None? <==> |s| == 0
    ensures r.Some? ==> r.value in s && forall x :: x in s ==> x <= r.value
  {
    if |s| == 0 then None
    else if |s| == 1 then Some(s[0])
    else
      var m := Max(s[1..]).value;
      assert forall x :: x in s ==> x == s[0] || x in s[1..];
      Some(if s[0] > m then s[0] else m)
  }

  lemma {:induction false} SumWithin(s: seq<real>, lo: real, hi: real)
    requires forall x :: x in s ==> lo <= x <= hi
    ensures (|s| as real) * lo <= Sum(s) <= (|s| as real) * hi
  {
    if s != [] {
      var init := s[..|s| - 1];
      assert forall x :: x in init ==> x in s;
      SumWithin(init, lo, hi);
      assert s[|s| - 1] in s;
    }
  }

  /** A mean lies between any lower and upper bound of the values averaged. */
  lemma MeanWithin(s: seq<real>, lo: real, hi: real)
    requires |s| > 0
    requires forall x :: x in s ==> lo <= x <= hi
    ensures lo <= Mean(s).value <= hi
  {
    SumWithin(s, lo, hi);
    var n := |s| as real;
    var m := Mean(s).value;
    assert lo * n <= m * n <= hi * n;
  }

  /** The mean of positive values is positive and at most their maximum. */
  lemma MeanOfPositives(s: seq<real>)
    requires |s| > 0
    requires forall i :: 0 <= i < |s| ==> s[i] > 0.0
    ensures 0.0 < Mean(s).value <= Max(s).value
  {
    var m := Max(s).value;
    assert forall x :: x in s ==> 0.0 <= x <= m by {
      forall x | x in s ensures 0.0 <= x <= m {
        var k :| 0 <= k < |s| && s[k] == x;
      }
    }
    MeanWithin(s, 0.0, m);
    SumPositive(s);
    NonPositiveProduct(Mean(s).value, |s| as real);
  }

  lemma NonPositiveProduct(a: real, n: real)
    requires n > 0.0
    ensures a <= 0.0 ==> a * n <= 0.0
  {
  }

  lemma {:induction false} SumPositive(s: seq<real>)
    requires |s| > 0
    requires forall i :: 0 <= i < |s| ==> s[i] > 0.0
    ensures Sum(s) > 0.0
  {
    if |s| > 1 {
      SumPositive(s[..|s| - 1]);
    }
  }
}
