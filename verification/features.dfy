/**
 * The per-observation feature extractor (`Sample.get_features`): from one
 * wagon's disposition and repair histories and a target date, the eleven
 * time-dependent features of that (wagon, date) observation.
 * Dates are day numbers, so a pandas `(a - b).days` is `a - b`.
 */
module Features {
  import opened Wrappers
  import opened Sequences
  import opened Stats

  /** Look-back, in days, kept when the latest record is recent. */
  const WindowDays: int := 180
  /** Days since the last repair reported when no repair precedes the date. */
  const NoRepairDays: int := 1000000

  /** One disposition (inspection / repair planning) record of a wagon. */
  datatype Disposition = Disposition(
    wagon: int,
    planDate: int,
    dateKap: Option<int>,
    dateDep: Option<int>,
    datePlRem: Option<int>,
    ostProb: Option<real>,
    isLoad: Option<int>,
    frId: Option<int>)

  /** One executed repair of a wagon. */
  datatype Repair = Repair(wagon: int, remMonth: int)

  /** The eleven time-dependent features, in the order of the output columns. */
  datatype FeatureVector = FeatureVector(
    daysSinceKapRep: Option<int>,
    daysSinceDepRep: Option<int>,
    daysToPlanRep: Option<int>,
    ostProb: Option<real>,
    isLoad: Option<int>,
    rateMax: Option<real>,
    rateMean: Option<real>,  // the column is named probeg_changes_min, yet holds the mean
    lastFr: Option<int>,
    mostFreqFr: Option<int>,
    numRem: Option<int>,
    daysSinceLastRepair: Option<int>)

  const AllMissing: FeatureVector :=
    FeatureVector(None, None, None, None, None, None, None, None, None, None, None)

  /** Why building the sample fails: a dict lookup miss, or `mode()[0]` of no values. */
  datatype Failure = UnknownWagon(wagon: int) | EmptyMode(column: string)

  function PlanBefore(a: Disposition, b: Disposition): bool {
    a.planDate < b.planDate
  }

  /** The history is sorted by plan date, with no two records on one day. */
  predicate PlanDatesIncreasing(h: seq<Disposition>) {
    Ordered(h, PlanBefore)
  }

  /** Records planned strictly before `date` (sample.py line 19). */
  function RecordsBefore(h: seq<Disposition>, date: int): seq<Disposition> {
    Filter(h, (x: Disposition) => x.planDate < date)
  }

  /** Repairs strictly before `date` (sample.py line 20). */
  function RepairsBefore(h: seq<Repair>, date: int): seq<Repair> {
    Filter(h, (x: Repair) => x.remMonth < date)
  }

  /**
   * The 180-day rule: when the last record is less than 180 days old, only
   * records after `date - 180` are kept; otherwise all of them.
   */
  function Window(records: seq<Disposition>, date: int): (w: seq<Disposition>)
    requires |records| > 0
    ensures |w| > 0 && Last(w) == Last(records)
    ensures forall x :: x in w <==>
              x in records && (date - Last(records).planDate < WindowDays ==> x.planDate > date - WindowDays)
  {
    if date - Last(records).planDate < WindowDays then
      Filter(records, (x: Disposition) => x.planDate > date - WindowDays)
    else
      records
  }

  lemma PlanDatesAt(h: seq<Disposition>, i: int, j: int)
    requires PlanDatesIncreasing(h)
    requires 0 <= i < j < |h|
    ensures h[i].planDate < h[j].planDate
  {
    assert PlanBefore(h[i], h[j]);
  }

  lemma RecordsBeforeIncreasing(h: seq<Disposition>, date: int)
    requires PlanDatesIncreasing(h)
    ensures PlanDatesIncreasing(RecordsBefore(h, date))
  {
    FilterKeepsOrder(h, (x: Disposition) => x.planDate < date, PlanBefore);
  }

  lemma WindowIncreasing(records: seq<Disposition>, date: int)
    requires |records| > 0 && PlanDatesIncreasing(records)
    ensures PlanDatesIncreasing(Window(records, date))
  {
    if date - Last(records).planDate < WindowDays {
      FilterKeepsOrder(records, (x: Disposition) => x.planDate > date - WindowDays, PlanBefore);
    }
  }

  /** pandas `ost_prob.diff(-1).values[:-1]`: each record's value minus the next one's. */
  function OstDiffs(w: seq<Disposition>): seq<Option<real>>
    requires |w| > 0
  {
    seq(|w| - 1, i requires 0 <= i < |w| - 1 =>
      if w[i].ostProb.Some? && w[i + 1].ostProb.Some?
      then Some(w[i].ostProb.value - w[i + 1].ostProb.value)
      else None)
  }

  /** pandas `plan_date.diff()[1:]` in days: the gap from each record to the next. */
  function PlanGaps(w: seq<Disposition>): seq<int>
    requires |w| > 0
  {
    seq(|w| - 1, i requires 0 <= i < |w| - 1 => w[i + 1].planDate - w[i].planDate)
  }

  /** The present diffs that are strictly positive, in chronological order. */
  function PositiveDiffs(w: seq<Disposition>): (d: seq<real>)
    requires |w| > 0
    ensures |d| < |w|
    ensures forall x :: x in d ==> x > 0.0
  {
    Filter(Present(OstDiffs(w)), IsPositive)
  }

  function IsPositive(x: real): bool {
    x > 0.0
  }

  /** A diff spread over a gap of `gap` days: the per-day change. */
  function Rate(diff: real, gap: int): (r: real)
    requires gap > 0
    ensures diff > 0.0 ==> r > 0.0
  {
    QuotientPositive(diff, gap as real);
    diff / (gap as real)
  }

  /** Spreading the rate back over its gap gives the diff. */
  lemma RateSpreads(diff: real, gap: int)
    requires gap > 0
    ensures Rate(diff, gap) * (gap as real) == diff
  {
    QuotientPositive(diff, gap as real);
  }

  lemma QuotientPositive(a: real, b: real)
    requires b > 0.0
    ensures (a / b) * b == a
    ensures a > 0.0 ==> a / b > 0.0
  {
  }

  /**
   * The mileage rates. The positive-diff mask is recomputed on the diffs it
   * already selected, where it is all true, so the i-th positive diff is
   * divided by the i-th plan-date gap of the window, not by its own gap.
   */
  function Rates(w: seq<Disposition>): (r: seq<real>)
    requires |w| > 0 && PlanDatesIncreasing(w)
    ensures |r| == |PositiveDiffs(w)|
    ensures forall i :: 0 <= i < |r| ==> r[i] > 0.0
  {
    var d := PositiveDiffs(w);
    var g := PlanGaps(w);
    GapsPositive(w);
    assert forall i :: 0 <= i < |d| ==> d[i] > 0.0 by {
      forall i | 0 <= i < |d| ensures d[i] > 0.0 {
        assert d[i] in d;
      }
    }
    seq(|d|, i requires 0 <= i < |d| => Rate(d[i], g[i]))
  }

  /** Rate i pairs the i-th positive diff with the i-th plan-date gap of the window. */
  lemma RatesPairing(w: seq<Disposition>, i: int)
    requires |w| > 0 && PlanDatesIncreasing(w)
    requires 0 <= i < |Rates(w)|
    ensures w[i].planDate < w[i + 1].planDate
    ensures Rates(w)[i] == Rate(PositiveDiffs(w)[i], w[i + 1].planDate - w[i].planDate)
  {
    RatesAt(w, i);
    PlanGapAt(w, i);
    SameGapSameRate(PositiveDiffs(w)[i], PlanGaps(w)[i], w[i + 1].planDate - w[i].planDate);
  }

  lemma SameGapSameRate(diff: real, g: int, h: int)
    requires g > 0 && g == h
    ensures Rate(diff, g) == Rate(diff, h)
  {
  }

  /** Rates unfolded at one index, stated with the window's gap sequence. */
  lemma RatesAt(w: seq<Disposition>, i: int)
    requires |w| > 0 && PlanDatesIncreasing(w)
    requires 0 <= i < |Rates(w)|
    ensures i < |w| - 1 && PlanGaps(w)[i] > 0
    ensures Rates(w)[i] == Rate(PositiveDiffs(w)[i], PlanGaps(w)[i])
  {
    GapsPositive(w);
  }

  /** Gap `i` of the window, read off its two records. */
  lemma PlanGapAt(w: seq<Disposition>, i: int)
    requires |w| > 0 && PlanDatesIncreasing(w) && 0 <= i < |w| - 1
    ensures PlanGaps(w)[i] == w[i + 1].planDate - w[i].planDate > 0
  {
    assert PlanBefore(w[i], w[i + 1]);
  }

  /** On a sorted window every gap is positive. */
  lemma GapsPositive(w: seq<Disposition>)
    requires |w| > 0 && PlanDatesIncreasing(w)
    ensures forall i :: 0 <= i < |w| - 1 ==> PlanGaps(w)[i] > 0
  {
    forall i | 0 <= i < |w| - 1 ensures PlanGaps(w)[i] > 0 {
      assert PlanBefore(w[i], w[i + 1]);
    }
  }

  /** `(date - d).days`, missing when `d` is missing. */
  function Since(d: Option<int>, date: int): (r: Option<int>)
  {
    match d
    case Some(day) => Some(date - day)
    case None => None
  }

  /** `(d - date).days`, missing when `d` is missing. */
  function Until(d: Option<int>, date: int): (r: Option<int>)
  {
    match d
    case Some(day) => Some(day - date)
    case None => None
  }

  function FrIds(w: seq<Disposition>): seq<Option<int>> {
    seq(|w|, i requires 0 <= i < |w| => w[i].frId)
  }

  /** The (possibly narrowed) records the features are computed from. */
  function Relevant(dislok: seq<Disposition>, date: int): seq<Disposition>
    requires RecordsBefore(dislok, date) != []
  {
    Window(RecordsBefore(dislok, date), date)
  }

  /**
   * `get_features(date, wagon_dislok, wagon_tr_rem)`: eleven missing values
   * when no record precedes `date`, otherwise the features of the last
   * record, of the window and of the repairs before `date`. The only failure
   * is `mode()[0]` over a window whose fr_id values are all missing.
   */
  function ExtractFeatures(date: int, dislok: seq<Disposition>, repairs: seq<Repair>): (r: Result<FeatureVector, Failure>)
    requires PlanDatesIncreasing(dislok)
    ensures r == Ok(AllMissing) <==> forall x :: x in dislok ==> x.planDate >= date
    ensures r.Err? <==> RecordsBefore(dislok, date) != [] && Present(FrIds(Relevant(dislok, date))) == []
    ensures r.Err? ==> r.error == EmptyMode("fr_id")
  {
    var records := RecordsBefore(dislok, date);
    if |records| == 0 then Ok(AllMissing)
    else
      var lastRow := Last(records);
      var relevant := Window(records, date);
      match Mode(Present(FrIds(relevant)))
      case None => Err(EmptyMode("fr_id"))
      case Some(mostFreq) =>
        RecordsBeforeIncreasing(dislok, date);
        WindowIncreasing(records, date);
        var rates := Rates(relevant);
        var repairsBefore := RepairsBefore(repairs, date);
        var sinceRepair := if |repairsBefore| > 0 then date - Last(repairsBefore).remMonth else NoRepairDays;
        Ok(FeatureVector(
          daysSinceKapRep := Since(Last(relevant).dateKap, date),
          daysSinceDepRep := Since(Last(relevant).dateDep, date),
          daysToPlanRep := Until(lastRow.datePlRem, date),
          ostProb := lastRow.ostProb,
          isLoad := lastRow.isLoad,
          rateMax := Max(rates),
          rateMean := Mean(rates),
          lastFr := lastRow.frId,
          mostFreqFr := Some(mostFreq),
          numRem := Some(|repairsBefore|),
          daysSinceLastRepair := Some(sinceRepair)))
  }

  function RepairNotAfter(a: Repair, b: Repair): bool {
    a.remMonth <= b.remMonth
  }

  /** The repair history is sorted by date. */
  predicate RepairDatesIncreasing(h: seq<Repair>) {
    Ordered(h, RepairNotAfter)
  }

  /** `rec` is the latest record of `dislok` planned before `date`. */
  ghost predicate IsLatestBefore(dislok: seq<Disposition>, date: int, rec: Disposition) {
    && rec in dislok
    && rec.planDate < date
    && forall x :: x in dislok && x.planDate < date ==> x.planDate <= rec.planDate
  }

  /** `rp` is a latest repair of `repairs` before `date`. */
  ghost predicate IsLatestRepairBefore(repairs: seq<Repair>, date: int, rp: Repair) {
    && rp in repairs
    && rp.remMonth < date
    && forall x :: x in repairs && x.remMonth < date ==> x.remMonth <= rp.remMonth
  }

  /** On a sorted history `iloc[-1]` of the records before `date` is the latest one, and the only latest one. */
  lemma LastRecordIsLatest(dislok: seq<Disposition>, date: int)
    requires PlanDatesIncreasing(dislok)
    requires RecordsBefore(dislok, date) != []
    ensures IsLatestBefore(dislok, date, Last(RecordsBefore(dislok, date)))
    ensures forall rec :: IsLatestBefore(dislok, date, rec) ==> rec == Last(RecordsBefore(dislok, date))
  {
    var records := RecordsBefore(dislok, date);
    var last := Last(records);
    RecordsBeforeIncreasing(dislok, date);
    assert last in records;
    forall x | x in dislok && x.planDate < date ensures x.planDate <= last.planDate {
      assert x in records;
      var k :| 0 <= k < |records| && records[k] == x;
      if k < |records| - 1 {
        assert PlanBefore(records[k], records[|records| - 1]);
      }
    }
    forall rec | IsLatestBefore(dislok, date, rec) ensures rec == last {
      assert rec in records;
      var k :| 0 <= k < |records| && records[k] == rec;
    }
  }

  /** The window holds the records before `date`, cut at `date - 180` when the latest one is recent. */
  lemma WindowContents(dislok: seq<Disposition>, date: int, latest: Disposition)
    requires PlanDatesIncreasing(dislok)
    requires IsLatestBefore(dislok, date, latest)
    ensures RecordsBefore(dislok, date) != []
    ensures Last(Relevant(dislok, date)) == latest
    ensures forall x :: x in Relevant(dislok, date) <==>
              && x in dislok
              && x.planDate < date
              && (date - latest.planDate < WindowDays ==> x.planDate > date - WindowDays)
  {
    assert latest in RecordsBefore(dislok, date);
    LastRecordIsLatest(dislok, date);
  }

  /** The last-record features are those of the latest record before `date`: the window never loses it. */
  lemma ExtractLastRecord(date: int, dislok: seq<Disposition>, repairs: seq<Repair>, latest: Disposition)
    requires PlanDatesIncreasing(dislok)
    requires IsLatestBefore(dislok, date, latest)
    requires ExtractFeatures(date, dislok, repairs).Ok?
    ensures var f := ExtractFeatures(date, dislok, repairs).value;
            && f.daysSinceKapRep == Since(latest.dateKap, date)
            && f.daysSinceDepRep == Since(latest.dateDep, date)
            && f.daysToPlanRep == Until(latest.datePlRem, date)
            && f.ostProb == latest.ostProb
            && f.isLoad == latest.isLoad
            && f.lastFr == latest.frId
  {
    WindowContents(dislok, date, latest);
  }

  /** most_freq_fr is the smallest of the most frequent present fr_id values of the window. */
  lemma ExtractMostFrequent(date: int, dislok: seq<Disposition>, repairs: seq<Repair>)
    requires PlanDatesIncreasing(dislok)
    requires RecordsBefore(dislok, date) != []
    requires ExtractFeatures(date, dislok, repairs).Ok?
    ensures var f := ExtractFeatures(date, dislok, repairs).value;
            f.mostFreqFr.Some? && IsSmallestMode(Present(FrIds(Relevant(dislok, date))), f.mostFreqFr.value)
  {
  }

  /** The two rate features are the maximum and the mean of the window's rates. */
  lemma ExtractRates(date: int, dislok: seq<Disposition>, repairs: seq<Repair>)
    requires PlanDatesIncreasing(dislok)
    requires RecordsBefore(dislok, date) != []
    requires ExtractFeatures(date, dislok, repairs).Ok?
    ensures PlanDatesIncreasing(Relevant(dislok, date))
    ensures var f := ExtractFeatures(date, dislok, repairs).value;
            var rates := Rates(Relevant(dislok, date));
            && f.rateMax == Max(rates)
            && f.rateMean == Mean(rates)
            && (f.rateMax.None? <==> PositiveDiffs(Relevant(dislok, date)) == [])
            && (f.rateMean.None? <==> PositiveDiffs(Relevant(dislok, date)) == [])
  {
    RecordsBeforeIncreasing(dislok, date);
    WindowIncreasing(RecordsBefore(dislok, date), date);
  }

  /** Both rate features are present together, positive, and the mean never exceeds the maximum. */
  lemma RateFeaturesBounds(date: int, dislok: seq<Disposition>, repairs: seq<Repair>)
    requires PlanDatesIncreasing(dislok)
    requires RecordsBefore(dislok, date) != []
    requires ExtractFeatures(date, dislok, repairs).Ok?
    ensures var f := ExtractFeatures(date, dislok, repairs).value;
            && (f.rateMax.Some? <==> f.rateMean.Some?)
            && (f.rateMax.Some? ==> 0.0 < f.rateMean.value <= f.rateMax.value)
  {
    ExtractRates(date, dislok, repairs);
    var rates := Rates(Relevant(dislok, date));
    if |rates| > 0 {
      MeanOfPositives(rates);
    }
  }

  /** With a single record before `date` its values are the features and no rate exists. */
  lemma ExtractSingleRecord(date: int, dislok: seq<Disposition>, repairs: seq<Repair>, rec: Disposition)
    requires PlanDatesIncreasing(dislok)
    requires rec in dislok && rec.planDate < date
    requires forall x :: x in dislok && x.planDate < date ==> x == rec
    ensures ExtractFeatures(date, dislok, repairs).Ok? <==> rec.frId.Some?
    ensures ExtractFeatures(date, dislok, repairs).Ok? ==>
              var f := ExtractFeatures(date, dislok, repairs).value;
              && f.daysToPlanRep == Until(rec.datePlRem, date)
              && f.mostFreqFr == rec.frId
              && f.rateMax.None?
              && f.rateMean.None?
  {
    var records := RecordsBefore(dislok, date);
    RecordsBeforeIncreasing(dislok, date);
    assert rec in records;
    forall i | 0 <= i < |records| ensures records[i] == rec {
      assert records[i] in records;
    }
    if |records| >= 2 {
      PlanDatesAt(records, 0, 1);
    }
    assert records == [rec];
    var w := Relevant(dislok, date);
    assert w == [rec];
    assert FrIds(w) == [rec.frId];
    assert Present(FrIds(w)) == Present([]) + (if rec.frId.Some? then [rec.frId.value] else []);
    assert |OstDiffs(w)| == 0;
  }

  /** num_rem counts the repairs before `date`; days_since_last_trem uses the last one, or 1000000. */
  lemma ExtractRepairRecency(date: int, dislok: seq<Disposition>, repairs: seq<Repair>)
    requires PlanDatesIncreasing(dislok)
    requires RecordsBefore(dislok, date) != []
    requires ExtractFeatures(date, dislok, repairs).Ok?
    ensures var f := ExtractFeatures(date, dislok, repairs).value;
            var before := RepairsBefore(repairs, date);
            && f.numRem == Some(|before|)
            && (forall x :: x in before <==> x in repairs && x.remMonth < date)
            && (before == [] ==> f.daysSinceLastRepair == Some(NoRepairDays))
            && (before != [] ==> f.daysSinceLastRepair == Some(date - Last(before).remMonth))
  {
  }

  /** On a sorted repair history the last repair before `date` is a latest one. */
  lemma LastRepairIsLatest(repairs: seq<Repair>, date: int, latest: Repair)
    requires RepairDatesIncreasing(repairs)
    requires IsLatestRepairBefore(repairs, date, latest)
    ensures RepairsBefore(repairs, date) != []
    ensures Last(RepairsBefore(repairs, date)).remMonth == latest.remMonth
  {
    var before := RepairsBefore(repairs, date);
    assert latest in before;
    FilterKeepsOrder(repairs, (x: Repair) => x.remMonth < date, RepairNotAfter);
    var k :| 0 <= k < |before| && before[k] == latest;
    if k < |before| - 1 {
      assert RepairNotAfter(before[k], before[|before| - 1]);
    }
    assert Last(before) in before;
  }

  /** Both values at `i` and `i + 1` are present and the value drops from one to the next. */
  predicate OstDropsAt(w: seq<Disposition>, i: int)
    requires 0 <= i < |w| - 1
  {
    w[i].ostProb.Some? && w[i + 1].ostProb.Some? && w[i].ostProb.value > w[i + 1].ostProb.value
  }

  /** The indices below `n` at which the value drops, in ascending order. */
  function DropIndices(w: seq<Disposition>, n: int): (idx: seq<int>)
    requires 0 <= n < |w|
    ensures forall k :: 0 <= k < |idx| ==> 0 <= idx[k] < n && OstDropsAt(w, idx[k])
    ensures forall k, l :: 0 <= k < l < |idx| ==> idx[k] < idx[l]
    ensures forall i :: 0 <= i < n && OstDropsAt(w, i) ==> i in idx
  {
    if n == 0 then []
    else DropIndices(w, n - 1) + (if OstDropsAt(w, n - 1) then [n - 1] else [])
  }

  /**
   * The kept diffs are exactly the drops, one per step at which the value
   * drops, in chronological order: diff k is the drop at the k-th such step.
   */
  lemma PositiveDiffsAtDrops(w: seq<Disposition>)
    requires |w| > 0
    ensures PositiveDiffs(w) == DropsBelow(w, |w| - 1)
    ensures DropsMatch(w, DropsBelow(w, |w| - 1), DropIndices(w, |w| - 1))
  {
    var diffs := OstDiffs(w);
    assert diffs[..|w| - 1] == diffs;
    KeptDiffsAreDrops(w, |w| - 1);
    DropsAtIndices(w, |w| - 1);
  }

  /** The drops at the steps below `n`, read off the records directly. */
  function DropsBelow(w: seq<Disposition>, n: int): seq<real>
    requires 0 <= n < |w|
  {
    if n == 0 then []
    else DropsBelow(w, n - 1) + (if OstDropsAt(w, n - 1) then [w[n - 1].ostProb.value - w[n].ostProb.value] else [])
  }

  /** Diff `k` of `d` is the drop at index `idx[k]`, for every `k`. */
  predicate DropsMatch(w: seq<Disposition>, d: seq<real>, idx: seq<int>) {
    && |d| == |idx|
    && forall k :: 0 <= k < |d| ==>
         && 0 <= idx[k] < |w| - 1
         && w[idx[k]].ostProb.Some? && w[idx[k] + 1].ostProb.Some?
         && d[k] == w[idx[k]].ostProb.value - w[idx[k] + 1].ostProb.value
  }

  lemma {:induction false} DropsAtIndices(w: seq<Disposition>, n: int)
    requires 0 <= n < |w|
    ensures DropsMatch(w, DropsBelow(w, n), DropIndices(w, n))
  {
    if n > 0 {
      DropsAtIndices(w, n - 1);
      if OstDropsAt(w, n - 1) {
        DropsMatchSnoc(w, DropsBelow(w, n - 1), DropIndices(w, n - 1), n - 1);
      } else {
        assert DropsBelow(w, n) == DropsBelow(w, n - 1);
        assert DropIndices(w, n) == DropIndices(w, n - 1);
      }
    }
  }

  lemma {:induction false} KeptDiffsAreDrops(w: seq<Disposition>, n: int)
    requires 0 <= n < |w|
    ensures Filter(Present(OstDiffs(w)[..n]), IsPositive) == DropsBelow(w, n)
  {
    if n == 0 {
      assert OstDiffs(w)[..0] == [];
    } else {
      KeptDiffsAreDrops(w, n - 1);
      PositiveDiffsStep(w, n);
    }
  }

  lemma DropsMatchSnoc(w: seq<Disposition>, d: seq<real>, idx: seq<int>, i: int)
    requires DropsMatch(w, d, idx)
    requires 0 <= i < |w| - 1 && OstDropsAt(w, i)
    ensures DropsMatch(w, d + [w[i].ostProb.value - w[i + 1].ostProb.value], idx + [i])
  {
  }

  /** Taking one more diff adds its value exactly when the value drops there. */
  lemma PositiveDiffsStep(w: seq<Disposition>, n: int)
    requires 0 < n < |w|
    ensures Filter(Present(OstDiffs(w)[..n]), IsPositive) ==
              Filter(Present(OstDiffs(w)[..n - 1]), IsPositive) +
              (if OstDropsAt(w, n - 1) then [w[n - 1].ostProb.value - w[n].ostProb.value] else [])
  {
    FilterPresentTake(OstDiffs(w), n, IsPositive);
    DiffBefore(w, n);
  }

  /** The diff ending at record `n` is kept exactly when the value drops there, and is that drop. */
  lemma DiffBefore(w: seq<Disposition>, n: int)
    requires 0 < n < |w|
    ensures var x := OstDiffs(w)[n - 1];
            (if x.Some? && IsPositive(x.value) then [x.value] else []) ==
            (if OstDropsAt(w, n - 1) then [w[n - 1].ostProb.value - w[n].ostProb.value] else [])
  {
  }

  /** When the value drops at every step, every diff survives, in order. */
  lemma AllDiffsPositive(w: seq<Disposition>)
    requires |w| > 0
    requires forall i :: 0 <= i < |w| - 1 ==> OstDropsAt(w, i)
    ensures |PositiveDiffs(w)| == |w| - 1
    ensures forall i :: 0 <= i < |w| - 1 ==>
              OstDropsAt(w, i) && PositiveDiffs(w)[i] == w[i].ostProb.value - w[i + 1].ostProb.value
  {
    var present := Present(OstDiffs(w));
    DropsPresent(w);
    forall x | x in present ensures IsPositive(x) {
      var k :| 0 <= k < |present| && present[k] == x;
    }
    FilterAll(present, IsPositive);
  }

  /** When the value drops at every step, every diff is present and positive. */
  lemma DropsPresent(w: seq<Disposition>)
    requires |w| > 0
    requires forall i :: 0 <= i < |w| - 1 ==> OstDropsAt(w, i)
    ensures |Present(OstDiffs(w))| == |w| - 1
    ensures forall i :: 0 <= i < |w| - 1 ==>
              OstDropsAt(w, i) && Present(OstDiffs(w))[i] == w[i].ostProb.value - w[i + 1].ostProb.value &&
              Present(OstDiffs(w))[i] > 0.0
  {
    var diffs := OstDiffs(w);
    forall i | 0 <= i < |diffs| ensures diffs[i].Some? {
      DiffAt(w, i);
    }
    PresentAllSome(diffs);
    forall i | 0 <= i < |w| - 1
      ensures OstDropsAt(w, i) && Present(diffs)[i] == w[i].ostProb.value - w[i + 1].ostProb.value
      ensures Present(diffs)[i] > 0.0
    {
      DiffAt(w, i);
    }
  }

  lemma DiffAt(w: seq<Disposition>, i: int)
    requires |w| > 0 && 0 <= i < |w| - 1 && OstDropsAt(w, i)
    ensures OstDiffs(w)[i] == Some(w[i].ostProb.value - w[i + 1].ostProb.value)
  {
  }

  /** When every adjacent diff is present and positive, each rate uses its own gap. */
  lemma RatesOwnGaps(w: seq<Disposition>)
    requires |w| > 0 && PlanDatesIncreasing(w)
    requires forall i :: 0 <= i < |w| - 1 ==> OstDropsAt(w, i)
    ensures |Rates(w)| == |w| - 1
    ensures forall i :: 0 <= i < |w| - 1 ==>
              OstDropsAt(w, i) &&
              w[i].planDate < w[i + 1].planDate &&
              Rates(w)[i] == Rate(w[i].ostProb.value - w[i + 1].ostProb.value, w[i + 1].planDate - w[i].planDate)
  {
    AllDiffsPositive(w);
    forall i | 0 <= i < |w| - 1
      ensures OstDropsAt(w, i)
      ensures w[i].planDate < w[i + 1].planDate
      ensures Rates(w)[i] == Rate(w[i].ostProb.value - w[i + 1].ostProb.value, w[i + 1].planDate - w[i].planDate)
    {
      RatesPairing(w, i);
    }
  }
}
