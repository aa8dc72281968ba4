/** Boolean-mask selection over sequences, as pandas and numpy do it. */
module Sequences {
  import opened Wrappers

  function Last<T>(s: seq<T>): T
    requires |s| > 0
  {
    s[|s| - 1]
  }

  function Init<T>(s: seq<T>): seq<T>
    requires |s| > 0
  {
    s[..|s| - 1]
  }

  /** The elements of `s` for which `p` holds, in their original order. */
  function Filter<T(!new)>(s: seq<T>, p: T -> bool): (r: seq<T>)
    ensures |r| <= |s|
    ensures forall x :: x in r <==> x in s && p(x)
    ensures |s| > 0 && p(Last(s)) ==> |r| > 0 && Last(r) == Last(s)
  {
    if s == [] then [] else Filter(Init(s), p) + (if p(Last(s)) then [Last(s)] else [])
  }

  /** The present values of `s`, in their original order (numpy `a[~isnan(a)]`). */
  function Present<T(!new)>(s: seq<Option<T>>): (r: seq<T>)
    ensures |r| <= |s|
    ensures forall x :: x in r <==> Some(x) in s
    ensures (forall i :: 0 <= i < |s| ==> s[i].Some?) ==>
              |r| == |s| && forall i :: 0 <= i < |s| ==> r[i] == s[i].value
  {
    if s == [] then []
    else
      var r := Present(Init(s)) + (if Last(s).Some? then [Last(s).value] else []);
      assert forall x :: Some(x) in s <==> Some(x) in Init(s) || Some(x) == Last(s) by {
        assert s == Init(s) + [Last(s)];
      }
      r
  }

  /** Each value occurs among the present values as often as it is present: repeats are kept. */
  lemma PresentCounts<T(!new)>(s: seq<Option<T>>)
    ensures forall x :: multiset(Present(s))[x] == multiset(s)[Some(x)]
  {
    forall x ensures multiset(Present(s))[x] == multiset(s)[Some(x)] {
      PresentCountOf(s, x);
    }
  }

  lemma {:induction false} PresentCountOf<T(!new)>(s: seq<Option<T>>, x: T)
    ensures multiset(Present(s))[x] == multiset(s)[Some(x)]
  {
    if s != [] {
      var front, y := Init(s), Last(s);
      assert s == front + [y];
      PresentCountOf(front, x);
      PresentAppend(front, [y]);
      PresentOne(y);
      assert multiset(Present(front + [y])) == multiset(Present(front)) + multiset(Present([y]));
      assert multiset(front + [y]) == multiset(front) + multiset([y]);
    }
  }

  lemma PresentOne<T(!new)>(x: Option<T>)
    ensures Present([x]) == if x.Some? then [x.value] else []
  {
    assert Init([x]) == [];
  }

  lemma FilterOne<T(!new)>(x: T, p: T -> bool)
    ensures Filter([x], p) == if p(x) then [x] else []
  {
    assert Init([x]) == [];
  }

  /** Selecting among the present values of one more element. */
  lemma FilterPresentSnoc<T(!new)>(s: seq<Option<T>>, x: Option<T>, p: T -> bool)
    ensures Filter(Present(s + [x]), p) == Filter(Present(s), p) + (if x.Some? && p(x.value) then [x.value] else [])
  {
    PresentAppend(s, [x]);
    PresentOne(x);
    var tail := if x.Some? then [x.value] else [];
    FilterAppend(Present(s), tail, p);
    if x.Some? {
      FilterOne(x.value, p);
    }
  }

  /** Selecting among the present values of a prefix one element longer. */
  lemma FilterPresentTake<T(!new)>(s: seq<Option<T>>, n: int, p: T -> bool)
    requires 0 < n <= |s|
    ensures Filter(Present(s[..n]), p) ==
              Filter(Present(s[..n - 1]), p) + (if s[n - 1].Some? && p(s[n - 1].value) then [s[n - 1].value] else [])
  {
    assert s[..n] == s[..n - 1] + [s[n - 1]];
    FilterPresentSnoc(s[..n - 1], s[n - 1], p);
  }

  /** The present values of a concatenation are those of each part, in turn. */
  lemma {:induction false} PresentAppend<T(!new)>(a: seq<Option<T>>, b: seq<Option<T>>)
    ensures Present(a + b) == Present(a) + Present(b)
  {
    if b != [] {
      assert Init(a + b) == a + Init(b);
      assert Last(a + b) == Last(b);
      PresentAppend(a, Init(b));
    } else {
      assert a + b == a;
    }
  }

  /** Every element is related by `rel` to every later element. */
  predicate Ordered<T>(s: seq<T>, rel: (T, T) -> bool) {
    forall i, j :: 0 <= i < j < |s| ==> rel(s[i], s[j])
  }

  lemma {:induction false} FilterKeepsOrder<T(!new)>(s: seq<T>, p: T -> bool, rel: (T, T) -> bool)
    requires Ordered(s, rel)
    ensures Ordered(Filter(s, p), rel)
  {
    if s != [] {
      var front := Filter(Init(s), p);
      FilterKeepsOrder(Init(s), p, rel);
      if p(Last(s)) {
        var r := Filter(s, p);
        assert r == front + [Last(s)];
        forall i, j | 0 <= i < j < |r| ensures rel(r[i], r[j]) {
          if j == |r| - 1 {
            assert r[i] in Init(s);
            var k :| 0 <= k < |s| - 1 && s[k] == r[i];
          }
        }
      }
    }
  }

  lemma {:induction false} FilterAll<T(!new)>(s: seq<T>, p: T -> bool)
    requires forall x :: x in s ==> p(x)
    ensures Filter(s, p) == s
  {
    if s != [] {
      FilterAll(Init(s), p);
      assert s == Init(s) + [Last(s)];
    }
  }

  lemma {:induction false} FilterNone<T(!new)>(s: seq<T>, p: T -> bool)
    requires forall x :: x in s ==> !p(x)
    ensures Filter(s, p) == []
  {
    if s != [] {
      FilterNone(Init(s), p);
      assert Last(s) in s;
    }
  }

  lemma {:induction false} FilterAppend<T(!new)>(a: seq<T>, b: seq<T>, p: T -> bool)
    ensures Filter(a + b, p) == Filter(a, p) + Filter(b, p)
  {
    if b != [] {
      assert Init(a + b) == a + Init(b);
      assert Last(a + b) == Last(b);
      FilterAppend(a, Init(b), p);
    } else {
      assert a + b == a;
    }
  }

  /** Selecting with two disjoint masks splits the selection with their union. */
  lemma {:induction false} FilterSplit<T(!new)>(s: seq<T>, either: T -> bool, p: T -> bool, q: T -> bool)
    requires forall x :: either(x) == (p(x) || q(x))
    requires forall x :: !(p(x) && q(x))
    ensures multiset(Filter(s, either)) == multiset(Filter(s, p)) + multiset(Filter(s, q))
  {
    if s != [] {
      FilterSplit(Init(s), either, p, q);
    }
  }

  /**
   * Applies `f` to the elements of `xs` in order and stops at the first
   * failure, as a loop does when one of its steps raises.
   */
  function Collect<A, B, E>(xs: seq<A>, f: A -> Result<B, E>): (r: Result<seq<B>, E>)
    ensures r.Ok? <==> forall i :: 0 <= i < |xs| ==> f(xs[i]).Ok?
    ensures r.Ok? ==> |r.value| == |xs| && forall i :: 0 <= i < |xs| ==> r.value[i] == f(xs[i]).value
    ensures r.Err? ==> exists i :: 0 <= i < |xs| && f(xs[i]) == Err(r.error) && forall j :: 0 <= j < i ==> f(xs[j]).Ok?
  {
    if xs == [] then Ok([])
    else
      match Collect(Init(xs), f)
      case Err(e) => Err(e)
      case Ok(front) =>
        match f(Last(xs))
        case Err(e) => Err(e)
        case Ok(y) => Ok(front + [y])
  }

  /** Taking one more element of `ys` after `xs`. */
  lemma AppendNext<T>(xs: seq<T>, ys: seq<T>, i: int)
    requires 0 <= i < |ys|
    ensures (xs + ys[..i]) + [ys[i]] == xs + ys[..i + 1]
  {
    assert ys[..i + 1] == ys[..i] + [ys[i]];
  }

  /** Cutting `ys` at `k` and appending both parts after `xs` gives back `xs + ys`. */
  lemma AppendCut<T>(xs: seq<T>, ys: seq<T>, k: int)
    requires 0 <= k <= |ys|
    ensures (xs + ys[..k]) + ys[k..] == xs + ys
  {
    assert ys == ys[..k] + ys[k..];
  }

  /** One more step: the failure of the prefix, else that of the step, else the extended results. */
  lemma CollectSnoc<A, B, E>(xs: seq<A>, x: A, f: A -> Result<B, E>)
    ensures Collect(xs + [x], f) ==
              match Collect(xs, f)
              case Err(e) => Err(e)
              case Ok(front) => (match f(x) case Err(e) => Err(e) case Ok(y) => Ok(front + [y]))
  {
    assert Init(xs + [x]) == xs;
  }

  /** A successful step after a successful prefix extends its results. */
  lemma CollectStepOk<A, B, E>(xs: seq<A>, ys: seq<A>, i: int, f: A -> Result<B, E>, acc: seq<B>, y: B)
    requires 0 <= i < |ys|
    requires Collect(xs + ys[..i], f) == Ok(acc) && f(ys[i]) == Ok(y)
    ensures Collect(xs + ys[..i + 1], f) == Ok(acc + [y])
  {
    CollectSnoc(xs + ys[..i], ys[i], f);
    AppendNext(xs, ys, i);
  }

  /** A failing step after a successful prefix decides the whole sequence. */
  lemma CollectStepErr<A, B, E>(xs: seq<A>, ys: seq<A>, i: int, f: A -> Result<B, E>, acc: seq<B>, e: E)
    requires 0 <= i < |ys|
    requires Collect(xs + ys[..i], f) == Ok(acc) && f(ys[i]) == Err(e)
    ensures Collect(xs + ys, f) == Err(e)
  {
    CollectSnoc(xs + ys[..i], ys[i], f);
    AppendNext(xs, ys, i);
    CollectPrefixErr(xs + ys[..i + 1], ys[i + 1..], f);
    AppendCut(xs, ys, i + 1);
  }

  /** Once a prefix fails, nothing after it is looked at. */
  lemma {:induction false} CollectPrefixErr<A, B, E>(xs: seq<A>, ys: seq<A>, f: A -> Result<B, E>)
    requires Collect(xs, f).Err?
    ensures Collect(xs + ys, f) == Collect(xs, f)
  {
    if ys != [] {
      CollectPrefixErr(xs, Init(ys), f);
      assert xs + ys == (xs + Init(ys)) + [Last(ys)];
      CollectSnoc(xs + Init(ys), Last(ys), f);
    } else {
      assert xs + ys == xs;
    }
  }

  /** Collecting one more element of a prefix of `xs`. */
  lemma CollectNext<A, B, E>(xs: seq<A>, i: int, f: A -> Result<B, E>)
    requires 0 <= i < |xs|
    ensures Collect(xs[..i + 1], f) ==
              match Collect(xs[..i], f)
              case Err(e) => Err(e)
              case Ok(front) => (match f(xs[i]) case Err(e) => Err(e) case Ok(y) => Ok(front + [y]))
  {
    assert xs[..i + 1] == xs[..i] + [xs[i]];
    CollectSnoc(xs[..i], xs[i], f);
  }

  /** A failing prefix decides the whole sequence. */
  lemma CollectTakeErr<A, B, E>(xs: seq<A>, i: int, f: A -> Result<B, E>)
    requires 0 <= i <= |xs| && Collect(xs[..i], f).Err?
    ensures Collect(xs, f) == Collect(xs[..i], f)
  {
    assert xs[..i] + xs[i..] == xs;
    CollectPrefixErr(xs[..i], xs[i..], f);
  }

  /** With no value missing, the present values are all the values. */
  lemma PresentAllSome<T(!new)>(s: seq<Option<T>>)
    requires forall i :: 0 <= i < |s| ==> s[i].Some?
    ensures |Present(s)| == |s|
    ensures forall i :: 0 <= i < |s| ==> Present(s)[i] == s[i].value
  {
  }

  /** Collecting succeeds exactly when every step does. */
  lemma CollectOkAll<A, B, E>(xs: seq<A>, f: A -> Result<B, E>)
    ensures Collect(xs, f).Ok? <==> forall x :: x in xs ==> f(x).Ok?
  {
    if !Collect(xs, f).Ok? {
      var i :| 0 <= i < |xs| && f(xs[i]).Err?;
      assert xs[i] in xs;
    }
  }
}
