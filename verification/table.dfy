/**
 * The row loop of `Sample.get_sample`: targets grouped by wagon in the
 * order of `groupby('wagnum')`, one output row per (wagon, date) entry with
 * its eleven features and its two labels.
 */
module Table {
  import opened Wrappers
  import opened Sequences
  import opened Features

  /** One row of the target table: a wagon, an observation date and its label day. */
  datatype TargetEntry = TargetEntry(wagon: int, month: int, day: int)

  /** One output row before the static join: wagnum, date, eleven features, target_month, target_day. */
  datatype Row = Row(wagon: int, date: int, features: FeatureVector, targetMonth: int, targetDay: int)

  predicate StrictlyAscending(ks: seq<int>) {
    forall i, j :: 0 <= i < j < |ks| ==> ks[i] < ks[j]
  }

  /** Adds `w` to an ascending key list unless it is already there. */
  function InsertKey(ks: seq<int>, w: int): (r: seq<int>)
    requires StrictlyAscending(ks)
    ensures StrictlyAscending(r)
    ensures forall x :: x in r <==> x in ks || x == w
  {
    if ks == [] then [w]
    else if w < ks[0] then [w] + ks
    else if w == ks[0] then ks
    else
      AscendingTail(ks);
      var rest := InsertKey(ks[1..], w);
      ConsAscending(ks[0], rest);
      [ks[0]] + rest
  }

  /** The tail of an ascending key list is ascending and above its head. */
  lemma AscendingTail(ks: seq<int>)
    requires StrictlyAscending(ks) && ks != []
    ensures StrictlyAscending(ks[1..])
    ensures forall x :: x in ks <==> x == ks[0] || x in ks[1..]
    ensures forall x :: x in ks[1..] ==> ks[0] < x
  {
    assert ks == [ks[0]] + ks[1..];
    forall x | x in ks[1..] ensures ks[0] < x {
      var k :| 0 <= k < |ks[1..]| && ks[1..][k] == x;
      assert ks[0] < ks[k + 1];
    }
  }

  /** A key below every key of an ascending list extends it in order. */
  lemma ConsAscending(k: int, rest: seq<int>)
    requires StrictlyAscending(rest)
    requires forall x :: x in rest ==> k < x
    ensures StrictlyAscending([k] + rest)
  {
    var r := [k] + rest;
    forall i, j | 0 <= i < j < |r| ensures r[i] < r[j] {
      assert r[j] == rest[j - 1] && rest[j - 1] in rest;
      if i > 0 {
        assert r[i] == rest[i - 1];
      }
    }
  }

  /** The `groupby('wagnum')` index: each wagon of the targets once, in ascending order. */
  function WagonKeys(t: seq<TargetEntry>): (ks: seq<int>)
    ensures StrictlyAscending(ks)
    ensures forall e :: e in t ==> e.wagon in ks
    ensures forall w :: w in ks ==> exists e :: e in t && e.wagon == w
  {
    if t == [] then []
    else
      assert t == Init(t) + [Last(t)];
      InsertKey(WagonKeys(Init(t)), Last(t).wagon)
  }

  function OfWagon(w: int): TargetEntry -> bool {
    (e: TargetEntry) => e.wagon == w
  }

  /** `row['month']` and `row['day']` of one group: the entries of wagon `w`, in their original order. */
  function EntriesOf(t: seq<TargetEntry>, w: int): seq<TargetEntry> {
    Filter(t, OfWagon(w))
  }

  /** The entries visited by the nested loop: group after group, in key order. */
  function Grouped(t: seq<TargetEntry>, ks: seq<int>): seq<TargetEntry>
  {
    if ks == [] then [] else Grouped(t, Init(ks)) + EntriesOf(t, Last(ks))
  }

  lemma {:induction false} GroupedAppend(t: seq<TargetEntry>, a: seq<int>, b: seq<int>)
    ensures Grouped(t, a + b) == Grouped(t, a) + Grouped(t, b)
  {
    if b == [] {
      assert a + b == a;
    } else {
      var front := Init(b);
      assert Init(a + b) == a + front;
      assert Last(a + b) == Last(b);
      GroupedAppend(t, a, front);
      var g := EntriesOf(t, Last(b));
      assert Grouped(t, a + b) == Grouped(t, a + front) + g;
      assert Grouped(t, b) == Grouped(t, front) + g;
      assert (Grouped(t, a) + Grouped(t, front)) + g == Grouped(t, a) + (Grouped(t, front) + g);
    }
  }

  /** The groups before key `gi`, its own group, and the groups after it. */
  lemma GroupedAround(t: seq<TargetEntry>, ks: seq<int>, gi: int)
    requires 0 <= gi < |ks|
    ensures Grouped(t, ks) == (Grouped(t, ks[..gi]) + EntriesOf(t, ks[gi])) + Grouped(t, ks[gi + 1..])
  {
    var left, right := ks[..gi + 1], ks[gi + 1..];
    assert left + right == ks;
    GroupedAppend(t, left, right);
    GroupedNext(t, ks, gi);
  }

  /** The keys up to `gi` group the entries up to the previous key, then wagon `ks[gi]`'s. */
  lemma GroupedNext(t: seq<TargetEntry>, ks: seq<int>, gi: int)
    requires 0 <= gi < |ks|
    ensures Grouped(t, ks[..gi + 1]) == Grouped(t, ks[..gi]) + EntriesOf(t, ks[gi])
  {
    assert Init(ks[..gi + 1]) == ks[..gi];
  }

  /** The grouped entries are the targets whose wagon is among the keys. */
  lemma {:induction false} GroupedMembers(t: seq<TargetEntry>, ks: seq<int>)
    ensures forall e :: e in Grouped(t, ks) <==> e in t && e.wagon in ks
  {
    if ks != [] {
      GroupedMembers(t, Init(ks));
      assert ks == Init(ks) + [Last(ks)];
    }
  }

  function InKeys(ks: seq<int>): TargetEntry -> bool {
    (e: TargetEntry) => e.wagon in ks
  }

  lemma {:induction false} GroupedMultiset(t: seq<TargetEntry>, ks: seq<int>)
    requires StrictlyAscending(ks)
    ensures multiset(Grouped(t, ks)) == multiset(Filter(t, InKeys(ks)))
  {
    if ks == [] {
      FilterNone(t, InKeys(ks));
    } else {
      GroupedMultiset(t, Init(ks));
      assert ks == Init(ks) + [Last(ks)];
      FilterSplit(t, InKeys(ks), InKeys(Init(ks)), OfWagon(Last(ks)));
    }
  }

  /** The nested loop visits every target entry exactly once. */
  lemma GroupedPermutation(t: seq<TargetEntry>)
    ensures multiset(Grouped(t, WagonKeys(t))) == multiset(t)
    ensures |Grouped(t, WagonKeys(t))| == |t|
  {
    var ks := WagonKeys(t);
    GroupedMultiset(t, ks);
    FilterAll(t, InKeys(ks));
    assert |multiset(Grouped(t, ks))| == |multiset(t)|;
  }

  /** Within the grouped entries, each wagon's entries appear exactly as in the targets, in their original order. */
  lemma {:induction false} GroupedEntries(t: seq<TargetEntry>, ks: seq<int>, w: int)
    requires StrictlyAscending(ks) && w in ks
    ensures EntriesOf(Grouped(t, ks), w) == EntriesOf(t, w)
  {
    var front, group := Grouped(t, Init(ks)), EntriesOf(t, Last(ks));
    FilterAppend(front, group, OfWagon(w));
    if w == Last(ks) {
      NoEarlierGroup(t, ks);
      FilterAll(group, OfWagon(w));
    } else {
      assert w in Init(ks) by {
        assert ks == Init(ks) + [Last(ks)];
      }
      GroupedEntries(t, Init(ks), w);
      FilterNone(group, OfWagon(w));
    }
  }

  /** The groups before the last key hold no entry of the last key's wagon. */
  lemma NoEarlierGroup(t: seq<TargetEntry>, ks: seq<int>)
    requires StrictlyAscending(ks) && ks != []
    ensures EntriesOf(Grouped(t, Init(ks)), Last(ks)) == []
  {
    var front := Grouped(t, Init(ks));
    GroupedMembers(t, Init(ks));
    forall e | e in front ensures !OfWagon(Last(ks))(e) {
      var k :| 0 <= k < |Init(ks)| && Init(ks)[k] == e.wagon;
      assert ks[k] < ks[|ks| - 1];
    }
    FilterNone(front, OfWagon(Last(ks)));
  }

  function WagonNotAfter(a: TargetEntry, b: TargetEntry): bool {
    a.wagon <= b.wagon
  }

  /** Groups come in ascending wagon order. */
  lemma {:induction false} GroupedAscending(t: seq<TargetEntry>, ks: seq<int>)
    requires StrictlyAscending(ks)
    ensures Ordered(Grouped(t, ks), WagonNotAfter)
  {
    if ks != [] {
      var front, group := Grouped(t, Init(ks)), EntriesOf(t, Last(ks));
      GroupedAscending(t, Init(ks));
      GroupedMembers(t, Init(ks));
      var g := front + group;
      forall i, j | 0 <= i < j < |g| ensures WagonNotAfter(g[i], g[j]) {
        if j >= |front| {
          assert g[j] in group;
          if i < |front| {
            assert g[i] in front;
            var k :| 0 <= k < |Init(ks)| && Init(ks)[k] == g[i].wagon;
            assert ks[k] < ks[|ks| - 1];
          } else {
            assert g[i] in group;
          }
        } else {
          assert g[i] == front[i] && g[j] == front[j];
        }
      }
    }
  }

  function DislokOf(w: int): Disposition -> bool {
    (d: Disposition) => d.wagon == w
  }

  function RepairOf(w: int): Repair -> bool {
    (x: Repair) => x.wagon == w
  }

  /** `dislok[dislok['wagnum'] == wagnum]` */
  function WagonDislok(dislok: seq<Disposition>, w: int): seq<Disposition> {
    Filter(dislok, DislokOf(w))
  }

  /** `tr_rem[tr_rem['wagnum'] == wagnum]` */
  function WagonRepairs(repairs: seq<Repair>, w: int): seq<Repair> {
    Filter(repairs, RepairOf(w))
  }

  function SameWagonBefore(a: Disposition, b: Disposition): bool {
    a.wagon == b.wagon ==> a.planDate < b.planDate
  }

  /** Each wagon's disposition records are sorted by plan date, with no two on one day. */
  predicate HistorySorted(dislok: seq<Disposition>) {
    Ordered(dislok, SameWagonBefore)
  }

  lemma WagonDislokIncreasing(dislok: seq<Disposition>, w: int)
    requires HistorySorted(dislok)
    ensures PlanDatesIncreasing(WagonDislok(dislok, w))
  {
    var h := WagonDislok(dislok, w);
    FilterKeepsOrder(dislok, DislokOf(w), SameWagonBefore);
    forall i, j | 0 <= i < j < |h| ensures PlanBefore(h[i], h[j]) {
      assert h[i] in h && h[j] in h;
      assert SameWagonBefore(h[i], h[j]);
    }
  }

  /** `get_features(month, wagon_dislok, wagon_tr_rem)` for one target entry. */
  function EntryFeatures(e: TargetEntry, dislok: seq<Disposition>, repairs: seq<Repair>): Result<FeatureVector, Failure>
    requires HistorySorted(dislok)
  {
    WagonDislokIncreasing(dislok, e.wagon);
    ExtractFeatures(e.month, WagonDislok(dislok, e.wagon), WagonRepairs(repairs, e.wagon))
  }

  /**
   * An entry gets eleven missing values exactly when its wagon has no record
   * before its date, and can only fail on the fr_id mode.
   */
  lemma EntryFeaturesCases(e: TargetEntry, dislok: seq<Disposition>, repairs: seq<Repair>)
    requires HistorySorted(dislok)
    ensures EntryFeatures(e, dislok, repairs) == Ok(AllMissing) <==>
              forall x :: x in dislok && x.wagon == e.wagon ==> x.planDate >= e.month
    ensures EntryFeatures(e, dislok, repairs).Err? ==> EntryFeatures(e, dislok, repairs).error == EmptyMode("fr_id")
  {
    var h := WagonDislok(dislok, e.wagon);
    assert forall x :: x in h <==> x in dislok && x.wagon == e.wagon;
  }

  /**
   * The row of one target entry: the entry's wagon and date, its features
   * from the wagon's own histories, and the labels -1, -1 in prediction
   * mode, otherwise the entry's month and day.
   */
  function RowFor(e: TargetEntry, dislok: seq<Disposition>, repairs: seq<Repair>, pred: bool): (r: Result<Row, Failure>)
    requires HistorySorted(dislok)
    ensures r.Err? <==> EntryFeatures(e, dislok, repairs).Err?
    ensures r.Err? ==> r.error == EntryFeatures(e, dislok, repairs).error
    ensures r.Ok? ==> r.value.wagon == e.wagon && r.value.date == e.month
    ensures r.Ok? ==> r.value.features == EntryFeatures(e, dislok, repairs).value
    ensures r.Ok? && pred ==> r.value.targetMonth == -1 && r.value.targetDay == -1
    ensures r.Ok? && !pred ==> r.value.targetMonth == e.month && r.value.targetDay == e.day
  {
    match EntryFeatures(e, dislok, repairs)
    case Err(err) => Err(err)
    case Ok(f) =>
      if pred then Ok(Row(e.wagon, e.month, f, -1, -1))
      else Ok(Row(e.wagon, e.month, f, e.month, e.day))
  }

  function RowStep(dislok: seq<Disposition>, repairs: seq<Repair>, pred: bool): TargetEntry -> Result<Row, Failure>
    requires HistorySorted(dislok)
  {
    (e: TargetEntry) => RowFor(e, dislok, repairs, pred)
  }

  /** One step of the row loop, computed from the histories of the entry's wagon `w`. */
  lemma RowStepAt(dislok: seq<Disposition>, repairs: seq<Repair>, pred: bool, e: TargetEntry, w: int)
    requires HistorySorted(dislok) && e.wagon == w
    ensures PlanDatesIncreasing(WagonDislok(dislok, w))
    ensures RowStep(dislok, repairs, pred)(e) ==
              match ExtractFeatures(e.month, WagonDislok(dislok, w), WagonRepairs(repairs, w))
              case Err(x) => Err(x)
              case Ok(f) => Ok(if pred then Row(w, e.month, f, -1, -1) else Row(w, e.month, f, e.month, e.day))
  {
    WagonDislokIncreasing(dislok, w);
  }

  /** The rows of the nested loop, or the first failure of `get_features`. */
  function Rows(t: seq<TargetEntry>, dislok: seq<Disposition>, repairs: seq<Repair>, pred: bool): (r: Result<seq<Row>, Failure>)
    requires HistorySorted(dislok)
    ensures r.Ok? ==> |r.value| == |t|
  {
    GroupedPermutation(t);
    Collect(Grouped(t, WagonKeys(t)), RowStep(dislok, repairs, pred))
  }

  /** Assembling the rows fails only where `get_features` does: on an all-missing fr_id window. */
  lemma RowsError(t: seq<TargetEntry>, dislok: seq<Disposition>, repairs: seq<Repair>, pred: bool)
    requires HistorySorted(dislok)
    requires Rows(t, dislok, repairs, pred).Err?
    ensures Rows(t, dislok, repairs, pred).error == EmptyMode("fr_id")
  {
    var g := Grouped(t, WagonKeys(t));
    var step := RowStep(dislok, repairs, pred);
    var k :| 0 <= k < |g| && step(g[k]) == Err(Rows(t, dislok, repairs, pred).error);
    assert RowFor(g[k], dislok, repairs, pred).Err?;
  }

  /** The rows are built exactly when `get_features` succeeds for every target entry. */
  lemma RowsSucceed(t: seq<TargetEntry>, dislok: seq<Disposition>, repairs: seq<Repair>, pred: bool)
    requires HistorySorted(dislok)
    ensures Rows(t, dislok, repairs, pred).Ok? <==> forall e :: e in t ==> EntryFeatures(e, dislok, repairs).Ok?
  {
    var g := Grouped(t, WagonKeys(t));
    var step := RowStep(dislok, repairs, pred);
    CollectOkAll(g, step);
    GroupedSameMembers(t);
    StepOk(dislok, repairs, pred);
  }

  lemma StepOk(dislok: seq<Disposition>, repairs: seq<Repair>, pred: bool)
    requires HistorySorted(dislok)
    ensures forall e :: RowStep(dislok, repairs, pred)(e).Ok? <==> EntryFeatures(e, dislok, repairs).Ok?
  {
  }

  /** The grouped order holds exactly the target entries. */
  lemma GroupedSameMembers(t: seq<TargetEntry>)
    ensures forall e :: e in Grouped(t, WagonKeys(t)) <==> e in t
  {
    GroupedMembers(t, WagonKeys(t));
  }
}
