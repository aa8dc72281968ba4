/** Worked observations for the feature extractor, one wagon each. */
module FeatureExamples {
  import opened Wrappers
  import opened Sequences
  import opened Stats
  import opened Features

  function Rec(planDate: int, ost: real): Disposition {
    Disposition(1, planDate, None, None, None, Some(ost), Some(0), Some(7))
  }

  function TenDayHistory(): seq<Disposition> {
    [Rec(0, 100.0), Rec(10, 80.0), Rec(20, 80.0), Rec(30, 50.0)]
  }

  lemma TenDayIncreasing()
    ensures PlanDatesIncreasing(TenDayHistory())
  {
    var h := TenDayHistory();
    assert forall i, j :: 0 <= i < j < |h| ==> PlanBefore(h[i], h[j]);
  }

  lemma TenDayDiffs()
    ensures OstDiffs(TenDayHistory()) == [Some(20.0), Some(0.0), Some(30.0)]
  {
  }

  lemma KeepPositive()
    ensures Filter(Present([Some(20.0), Some(0.0), Some(30.0)]), IsPositive) == [20.0, 30.0]
  {
    PresentThree();
    FilterThree();
  }

  lemma PresentThree()
    ensures Present([Some(20.0), Some(0.0), Some(30.0)]) == [20.0, 0.0, 30.0]
  {
    var diffs := [Some(20.0), Some(0.0), Some(30.0)];
    var present := Present(diffs);
    assert |present| == 3 && present[0] == 20.0 && present[1] == 0.0 && present[2] == 30.0;
  }

  lemma FilterThree()
    ensures Filter([20.0, 0.0, 30.0], IsPositive) == [20.0, 30.0]
  {
    assert Init([20.0, 0.0, 30.0]) == [20.0, 0.0] && Last([20.0, 0.0, 30.0]) == 30.0;
    assert Init([20.0, 0.0]) == [20.0] && Last([20.0, 0.0]) == 0.0;
    assert Init([20.0]) == [] && Last([20.0]) == 20.0;
    assert Filter([20.0], IsPositive) == [20.0];
    assert Filter([20.0, 0.0], IsPositive) == [20.0];
  }

  lemma TenDayPositive()
    ensures PositiveDiffs(TenDayHistory()) == [20.0, 30.0]
  {
    TenDayDiffs();
    KeepPositive();
  }

  lemma TenDayRates()
    ensures PlanDatesIncreasing(TenDayHistory())
    ensures Rates(TenDayHistory()) == [2.0, 3.0]
  {
    var h := TenDayHistory();
    TenDayIncreasing();
    TenDayPositive();
    TenDayRateAt(0);
    TenDayRateAt(1);
    assert Rate(20.0, 10) == 20.0 / 10.0 == 2.0;
    assert Rate(30.0, 10) == 30.0 / 10.0 == 3.0;
  }

  /** Rate `i` of the ten-day history spreads the i-th drop over ten days. */
  lemma TenDayRateAt(i: int)
    requires 0 <= i < 2
    ensures PlanDatesIncreasing(TenDayHistory())
    ensures |Rates(TenDayHistory())| == |PositiveDiffs(TenDayHistory())|
    ensures i < |Rates(TenDayHistory())| ==> Rates(TenDayHistory())[i] == Rate(PositiveDiffs(TenDayHistory())[i], 10)
  {
    var h := TenDayHistory();
    TenDayIncreasing();
    if i < |Rates(h)| {
      RatesPairing(h, i);
      assert h[i + 1].planDate - h[i].planDate == 10;
    }
  }

  lemma TenDayWindow()
    ensures RecordsBefore(TenDayHistory(), 40) == TenDayHistory()
    ensures Relevant(TenDayHistory(), 40) == TenDayHistory()
  {
    var h := TenDayHistory();
    FilterAll(h, (x: Disposition) => x.planDate < 40);
    FilterAll(h, (x: Disposition) => x.planDate > 40 - WindowDays);
  }

  lemma TenDayMode()
    ensures Mode(Present(FrIds(TenDayHistory()))) == Some(7)
  {
    var frs := FrIds(TenDayHistory());
    assert |frs| == 4 && forall i :: 0 <= i < 4 ==> frs[i] == Some(7);
    var present := Present(frs);
    assert |present| == 4 && forall i :: 0 <= i < 4 ==> present[i] == 7;
    assert present[0] in present;
  }

  lemma TenDayOk()
    ensures PlanDatesIncreasing(TenDayHistory())
    ensures RecordsBefore(TenDayHistory(), 40) == TenDayHistory()
    ensures Relevant(TenDayHistory(), 40) == TenDayHistory()
    ensures ExtractFeatures(40, TenDayHistory(), []).Ok?
  {
    var h := TenDayHistory();
    TenDayIncreasing();
    TenDayWindow();
    assert Mode(Present(FrIds(h))) == Some(7) by {
      TenDayMode();
    }
  }

  lemma TenDayLastFields()
    ensures PlanDatesIncreasing(TenDayHistory())
    ensures var f := ExtractFeatures(40, TenDayHistory(), []).value;
            && ExtractFeatures(40, TenDayHistory(), []).Ok?
            && f.daysSinceKapRep == None && f.daysSinceDepRep == None && f.daysToPlanRep == None
            && f.ostProb == Some(50.0) && f.isLoad == Some(0) && f.lastFr == Some(7)
  {
    var h := TenDayHistory();
    TenDayOk();
    LastRecordIsLatest(h, 40);
    assert Last(h) == Rec(30, 50.0);
    ExtractLastRecord(40, h, [], Rec(30, 50.0));
  }

  lemma TenDayRateFields()
    ensures PlanDatesIncreasing(TenDayHistory())
    ensures var f := ExtractFeatures(40, TenDayHistory(), []).value;
            && ExtractFeatures(40, TenDayHistory(), []).Ok?
            && f.rateMax == Some(3.0) && f.rateMean == Some(2.5)
  {
    var h := TenDayHistory();
    TenDayOk();
    ExtractRates(40, h, []);
    TenDayRates();
    TwoRates();
  }

  lemma TwoRates()
    ensures Max([2.0, 3.0]) == Some(3.0)
    ensures Mean([2.0, 3.0]) == Some(2.5)
  {
    assert Sum([2.0, 3.0]) == 5.0 by {
      assert [2.0, 3.0][..1] == [2.0];
      assert [2.0][..0] == [];
    }
  }

  lemma TenDayCountFields()
    ensures PlanDatesIncreasing(TenDayHistory())
    ensures var f := ExtractFeatures(40, TenDayHistory(), []).value;
            && ExtractFeatures(40, TenDayHistory(), []).Ok?
            && f.mostFreqFr == Some(7) && f.numRem == Some(0) && f.daysSinceLastRepair == Some(NoRepairDays)
  {
    var h := TenDayHistory();
    TenDayOk();
    TenDayMode();
    ExtractMostFrequent(40, h, []);
    ExtractRepairRecency(40, h, []);
    assert RepairsBefore([], 40) == [];
  }

  /**
   * ost_prob 100, 80, 80, 50 ten days apart, observed on day 40: the diffs
   * 20, 0, 30 keep 20 and 30, the rates are 2 and 3 per day, so the maximum
   * is 3 and the mean 2.5; with no repair the sentinel is reported.
   */
  lemma TenDaySpacing()
    ensures PlanDatesIncreasing(TenDayHistory())
    ensures ExtractFeatures(40, TenDayHistory(), []) == Ok(FeatureVector(
              None, None, None, Some(50.0), Some(0), Some(3.0), Some(2.5),
              Some(7), Some(7), Some(0), Some(NoRepairDays)))
  {
    TenDayLastFields();
    TenDayRateFields();
    TenDayCountFields();
  }

  /**
   * ost_prob 100, 100, 80 on days 0, 5 and 15: the only positive diff, 20,
   * lies between days 5 and 15, yet it is divided by the first gap, 5 days,
   * giving 4 per day where its own gap would give 2.
   */
  lemma BorrowedGap()
    ensures var w := BorrowedHistory();
            && PlanDatesIncreasing(w)
            && PositiveDiffs(w) == [w[1].ostProb.value - w[2].ostProb.value]
            && Rates(w) == [4.0]
            && Rate(w[1].ostProb.value - w[2].ostProb.value, w[2].planDate - w[1].planDate) == 2.0
  {
    BorrowedIncreasing();
    BorrowedPositive();
    BorrowedRates();
    assert Rate(20.0, 10) == 20.0 / 10.0 == 2.0;
  }

  lemma BorrowedRates()
    ensures PlanDatesIncreasing(BorrowedHistory())
    ensures Rates(BorrowedHistory()) == [4.0]
  {
    BorrowedIncreasing();
    BorrowedPositive();
    BorrowedRateAt();
    assert Rate(20.0, 5) == 20.0 / 5.0 == 4.0;
  }

  lemma BorrowedRateAt()
    ensures PlanDatesIncreasing(BorrowedHistory())
    ensures |Rates(BorrowedHistory())| == |PositiveDiffs(BorrowedHistory())|
    ensures 0 < |Rates(BorrowedHistory())| ==> Rates(BorrowedHistory())[0] == Rate(PositiveDiffs(BorrowedHistory())[0], 5)
  {
    var w := BorrowedHistory();
    BorrowedIncreasing();
    if 0 < |Rates(w)| {
      RatesPairing(w, 0);
      assert w[1].planDate - w[0].planDate == 5;
    }
  }

  function BorrowedHistory(): seq<Disposition> {
    [Rec(0, 100.0), Rec(5, 100.0), Rec(15, 80.0)]
  }

  lemma BorrowedIncreasing()
    ensures PlanDatesIncreasing(BorrowedHistory())
  {
    var w := BorrowedHistory();
    assert forall i, j :: 0 <= i < j < |w| ==> PlanBefore(w[i], w[j]);
  }

  lemma BorrowedPositive()
    ensures PositiveDiffs(BorrowedHistory()) == [20.0]
  {
    var diffs := OstDiffs(BorrowedHistory());
    assert diffs == [Some(0.0), Some(20.0)];
    assert Init(diffs) == [Some(0.0)];
    PresentOne(Some(0.0));
    assert Present(diffs) == [0.0, 20.0];
    assert Init([0.0, 20.0]) == [0.0];
    FilterOne(0.0, IsPositive);
  }
}
