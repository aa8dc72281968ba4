/**
 * The tail of `Sample.get_sample`: the assembled rows joined with their
 * static attributes, then every missing feature cell filled from its
 * column over the whole batch (`fillna`).
 */
module Imputation {
  import opened Wrappers
  import opened Sequences
  import opened Stats
  import opened Features
  import opened Params
  import opened Table

  /** A row after the static join, before imputation. */
  datatype JoinedRow = JoinedRow(row: Row, attrs: StaticAttrs)

  /** One output row in column order. After imputation only a mean column can still be missing. */
  datatype OutRow = OutRow(
    wagon: int,
    date: int,
    daysSinceKapRep: Option<real>,
    daysSinceDepRep: Option<real>,
    daysToPlanRep: Option<real>,
    ostProb: Option<real>,
    isLoad: int,
    rateMax: Option<real>,
    rateMean: Option<real>,
    lastFr: int,
    mostFreqFr: int,
    numRem: int,
    daysSinceLastRepair: int,
    targetMonth: int,
    targetDay: int,
    attrs: StaticAttrs)

  /** The six columns filled with their mean. */
  datatype MeanColumn = KapRep | DepRep | PlanRep | OstProb | RateMax | RateMean

  /** The three columns filled with their smallest mode, in the order they are filled. */
  datatype ModeColumn = IsLoad | LastFr | MostFreqFr

  /** A day count read as a number of the float column it becomes once it holds a mean. */
  function AsReal(d: Option<int>): Option<real> {
    match d
    case Some(x) => Some(x as real)
    case None => None
  }

  function MeanCell(f: FeatureVector, c: MeanColumn): Option<real> {
    match c
    case KapRep => AsReal(f.daysSinceKapRep)
    case DepRep => AsReal(f.daysSinceDepRep)
    case PlanRep => AsReal(f.daysToPlanRep)
    case OstProb => f.ostProb
    case RateMax => f.rateMax
    case RateMean => f.rateMean
  }

  function ModeCell(f: FeatureVector, c: ModeColumn): Option<int> {
    match c
    case IsLoad => f.isLoad
    case LastFr => f.lastFr
    case MostFreqFr => f.mostFreqFr
  }

  function MeanOut(o: OutRow, c: MeanColumn): Option<real> {
    match c
    case KapRep => o.daysSinceKapRep
    case DepRep => o.daysSinceDepRep
    case PlanRep => o.daysToPlanRep
    case OstProb => o.ostProb
    case RateMax => o.rateMax
    case RateMean => o.rateMean
  }

  function ModeOut(o: OutRow, c: ModeColumn): int {
    match c
    case IsLoad => o.isLoad
    case LastFr => o.lastFr
    case MostFreqFr => o.mostFreqFr
  }

  /** `df[c]` for a mean column. */
  function MeanValues(rows: seq<JoinedRow>, c: MeanColumn): (col: seq<Option<real>>)
    ensures |col| == |rows|
  {
    seq(|rows|, i requires 0 <= i < |rows| => MeanCell(rows[i].row.features, c))
  }

  /** `df[c]` for a mode column. */
  function ModeValues(rows: seq<JoinedRow>, c: ModeColumn): (col: seq<Option<int>>)
    ensures |col| == |rows|
  {
    seq(|rows|, i requires 0 <= i < |rows| => ModeCell(rows[i].row.features, c))
  }

  /** `column.mean()`: the mean of the present values, itself missing for an all-missing column. */
  function ColumnMean(rows: seq<JoinedRow>, c: MeanColumn): (m: Option<real>)
    ensures m.None? <==> forall j :: 0 <= j < |rows| ==> MeanCell(rows[j].row.features, c).None?
  {
    var col := MeanValues(rows, c);
    var present := Present(col);
    assert forall j :: 0 <= j < |rows| ==> col[j] == MeanCell(rows[j].row.features, c);
    assert present == [] <==> forall j :: 0 <= j < |col| ==> col[j].None? by {
      if present != [] {
        assert present[0] in present;
      }
    }
    Mean(present)
  }

  /** `column.mode()[0]`: the smallest most frequent present value, missing when none is present. */
  function ColumnMode(rows: seq<JoinedRow>, c: ModeColumn): (m: Option<int>)
    ensures m.None? <==> Present(ModeValues(rows, c)) == []
    ensures m.Some? ==> IsSmallestMode(Present(ModeValues(rows, c)), m.value)
  {
    Mode(Present(ModeValues(rows, c)))
  }

  /** The values the `fillna` calls put into missing cells. */
  datatype Fills = Fills(
    kapRep: Option<real>,
    depRep: Option<real>,
    planRep: Option<real>,
    ostProb: Option<real>,
    rateMax: Option<real>,
    rateMean: Option<real>,
    isLoad: int,
    lastFr: int,
    mostFreqFr: int)

  function MeanFill(v: Fills, c: MeanColumn): Option<real> {
    match c
    case KapRep => v.kapRep
    case DepRep => v.depRep
    case PlanRep => v.planRep
    case OstProb => v.ostProb
    case RateMax => v.rateMax
    case RateMean => v.rateMean
  }

  function ModeFill(v: Fills, c: ModeColumn): int {
    match c
    case IsLoad => v.isLoad
    case LastFr => v.lastFr
    case MostFreqFr => v.mostFreqFr
  }

  /** `fillna(v)` on one cell. */
  function OrElse(cell: Option<real>, v: Option<real>): Option<real> {
    if cell.Some? then cell else v
  }

  function FillRow(r: JoinedRow, v: Fills): (o: OutRow)
    ensures SameKeys(r, o)
  {
    var f := r.row.features;
    OutRow(
      wagon := r.row.wagon,
      date := r.row.date,
      daysSinceKapRep := OrElse(MeanCell(f, KapRep), v.kapRep),
      daysSinceDepRep := OrElse(MeanCell(f, DepRep), v.depRep),
      daysToPlanRep := OrElse(MeanCell(f, PlanRep), v.planRep),
      ostProb := OrElse(MeanCell(f, OstProb), v.ostProb),
      isLoad := f.isLoad.GetOr(v.isLoad),
      rateMax := OrElse(MeanCell(f, RateMax), v.rateMax),
      rateMean := OrElse(MeanCell(f, RateMean), v.rateMean),
      lastFr := f.lastFr.GetOr(v.lastFr),
      mostFreqFr := f.mostFreqFr.GetOr(v.mostFreqFr),
      numRem := f.numRem.GetOr(0),
      daysSinceLastRepair := f.daysSinceLastRepair.GetOr(NoRepairDays),
      targetMonth := r.row.targetMonth,
      targetDay := r.row.targetDay,
      attrs := r.attrs)
  }

  /** Column by column, a filled row keeps its present cells and takes the fill value elsewhere. */
  lemma FillRowCells(r: JoinedRow, v: Fills)
    ensures forall c :: MeanOut(FillRow(r, v), c) == OrElse(MeanCell(r.row.features, c), MeanFill(v, c))
    ensures forall c :: ModeOut(FillRow(r, v), c) == ModeCell(r.row.features, c).GetOr(ModeFill(v, c))
  {
    var o := FillRow(r, v);
    forall c ensures MeanOut(o, c) == OrElse(MeanCell(r.row.features, c), MeanFill(v, c)) {
      match c
      case KapRep =>
      case DepRep =>
      case PlanRep =>
      case OstProb =>
      case RateMax =>
      case RateMean =>
    }
    forall c ensures ModeOut(o, c) == ModeCell(r.row.features, c).GetOr(ModeFill(v, c)) {
      match c
      case IsLoad =>
      case LastFr =>
      case MostFreqFr =>
    }
  }

  /** The join and label columns pass through imputation untouched. */
  predicate SameKeys(r: JoinedRow, o: OutRow) {
    && o.wagon == r.row.wagon
    && o.date == r.row.date
    && o.targetMonth == r.row.targetMonth
    && o.targetDay == r.row.targetDay
    && o.attrs == r.attrs
  }

  /** The fill values of a batch whose three mode columns each have a present value. */
  function BatchFills(rows: seq<JoinedRow>): Fills
    requires forall c :: ColumnMode(rows, c).Some?
  {
    Fills(
      ColumnMean(rows, KapRep), ColumnMean(rows, DepRep), ColumnMean(rows, PlanRep),
      ColumnMean(rows, OstProb), ColumnMean(rows, RateMax), ColumnMean(rows, RateMean),
      ColumnMode(rows, IsLoad).value, ColumnMode(rows, LastFr).value, ColumnMode(rows, MostFreqFr).value)
  }

  /** Each fill value is its column's mean, or its column's smallest mode. */
  lemma BatchFillsColumns(rows: seq<JoinedRow>)
    requires forall c :: ColumnMode(rows, c).Some?
    ensures forall c :: MeanFill(BatchFills(rows), c) == ColumnMean(rows, c)
    ensures forall c :: ModeFill(BatchFills(rows), c) == ColumnMode(rows, c).value
  {
    var v := BatchFills(rows);
    forall c ensures MeanFill(v, c) == ColumnMean(rows, c) {
      match c
      case KapRep =>
      case DepRep =>
      case PlanRep =>
      case OstProb =>
      case RateMax =>
      case RateMean =>
    }
    forall c ensures ModeFill(v, c) == ColumnMode(rows, c).value {
      match c
      case IsLoad =>
      case LastFr =>
      case MostFreqFr =>
    }
  }

  lemma ModesPresent(rows: seq<JoinedRow>)
    requires ColumnMode(rows, IsLoad).Some? && ColumnMode(rows, LastFr).Some? && ColumnMode(rows, MostFreqFr).Some?
    ensures forall c :: ColumnMode(rows, c).Some?
  {
    forall c ensures ColumnMode(rows, c).Some? {
      match c
      case IsLoad =>
      case LastFr =>
      case MostFreqFr =>
    }
  }

  /**
   * The eleven `fillna` calls. `mode()[0]` of a column with no present
   * value raises, and the mode columns are filled in the order isload,
   * last_fr, most_freq_fr, so the first such column names the failure.
   */
  function Impute(rows: seq<JoinedRow>): (r: Result<seq<OutRow>, Failure>)
    ensures r.Err? <==> ColumnMode(rows, IsLoad).None? || ColumnMode(rows, LastFr).None? || ColumnMode(rows, MostFreqFr).None?
    ensures r.Err? ==> r.error.EmptyMode?
    ensures r.Ok? ==> |r.value| == |rows| && forall i :: 0 <= i < |rows| ==> SameKeys(rows[i], r.value[i])
  {
    if ColumnMode(rows, IsLoad).None? then Err(EmptyMode("isload"))
    else if ColumnMode(rows, LastFr).None? then Err(EmptyMode("last_fr"))
    else if ColumnMode(rows, MostFreqFr).None? then Err(EmptyMode("most_freq_fr"))
    else
      ModesPresent(rows);
      Ok(FillAll(rows, BatchFills(rows)))
  }

  /** The failure names the first mode column, in fill order, with no present value. */
  lemma ImputeFailure(rows: seq<JoinedRow>)
    ensures ColumnMode(rows, IsLoad).None? ==> Impute(rows) == Err(EmptyMode("isload"))
    ensures ColumnMode(rows, IsLoad).Some? && ColumnMode(rows, LastFr).None? ==> Impute(rows) == Err(EmptyMode("last_fr"))
    ensures ColumnMode(rows, IsLoad).Some? && ColumnMode(rows, LastFr).Some? && ColumnMode(rows, MostFreqFr).None? ==>
              Impute(rows) == Err(EmptyMode("most_freq_fr"))
  {
  }

  /** Every row filled with the same values. */
  function FillAll(rows: seq<JoinedRow>, v: Fills): (r: seq<OutRow>)
    ensures |r| == |rows|
    ensures forall i :: 0 <= i < |rows| ==> r[i] == FillRow(rows[i], v) && SameKeys(rows[i], r[i])
  {
    seq(|rows|, i requires 0 <= i < |rows| => FillRow(rows[i], v))
  }

  lemma ImputeAt(rows: seq<JoinedRow>, i: int)
    requires Impute(rows).Ok? && 0 <= i < |rows|
    ensures forall c :: ColumnMode(rows, c).Some?
    ensures Impute(rows).value[i] == FillRow(rows[i], BatchFills(rows))
  {
    ModesPresent(rows);
  }

  /** Imputation never changes a present cell. */
  lemma ImputeKeepsPresent(rows: seq<JoinedRow>, i: int)
    requires Impute(rows).Ok? && 0 <= i < |rows|
    ensures var f, o := rows[i].row.features, Impute(rows).value[i];
            && (forall c :: MeanCell(f, c).Some? ==> MeanOut(o, c) == MeanCell(f, c))
            && (forall c :: ModeCell(f, c).Some? ==> ModeOut(o, c) == ModeCell(f, c).value)
            && (f.numRem.Some? ==> o.numRem == f.numRem.value)
            && (f.daysSinceLastRepair.Some? ==> o.daysSinceLastRepair == f.daysSinceLastRepair.value)
  {
    ImputeAt(rows, i);
    FillRowCells(rows[i], BatchFills(rows));
    BatchFillsColumns(rows);
  }

  /**
   * A missing cell of a mean column takes the mean of the column's present
   * values over the whole batch, and stays missing only when the whole
   * column is missing.
   */
  lemma ImputeFillsMean(rows: seq<JoinedRow>, i: int, c: MeanColumn)
    requires Impute(rows).Ok? && 0 <= i < |rows|
    requires MeanCell(rows[i].row.features, c).None?
    ensures MeanOut(Impute(rows).value[i], c) == Mean(Present(MeanValues(rows, c)))
    ensures MeanOut(Impute(rows).value[i], c).None? <==>
              forall j :: 0 <= j < |rows| ==> MeanCell(rows[j].row.features, c).None?
  {
    ImputeAt(rows, i);
    FillRowCells(rows[i], BatchFills(rows));
    BatchFillsColumns(rows);
  }

  /** An imputed mean lies between any bounds of the column's present values. */
  lemma ImputedMeanWithin(rows: seq<JoinedRow>, i: int, c: MeanColumn, lo: real, hi: real)
    requires Impute(rows).Ok? && 0 <= i < |rows|
    requires MeanCell(rows[i].row.features, c).None?
    requires forall x :: Some(x) in MeanValues(rows, c) ==> lo <= x <= hi
    ensures var v := MeanOut(Impute(rows).value[i], c);
            v.Some? ==> lo <= v.value <= hi
  {
    ImputeFillsMean(rows, i, c);
    var present := Present(MeanValues(rows, c));
    if present != [] {
      MeanWithin(present, lo, hi);
    }
  }

  /** A missing cell of a mode column takes the smallest most frequent present value of that column. */
  lemma ImputeFillsMode(rows: seq<JoinedRow>, i: int, c: ModeColumn)
    requires Impute(rows).Ok? && 0 <= i < |rows|
    requires ModeCell(rows[i].row.features, c).None?
    ensures IsSmallestMode(Present(ModeValues(rows, c)), ModeOut(Impute(rows).value[i], c))
  {
    ImputeAt(rows, i);
    FillRowCells(rows[i], BatchFills(rows));
    BatchFillsColumns(rows);
  }

  /** A missing num_rem becomes 0 and a missing days_since_last_trem becomes 1000000. */
  lemma ImputeSentinels(rows: seq<JoinedRow>, i: int)
    requires Impute(rows).Ok? && 0 <= i < |rows|
    ensures rows[i].row.features.numRem.None? ==> Impute(rows).value[i].numRem == 0
    ensures rows[i].row.features.daysSinceLastRepair.None? ==>
              Impute(rows).value[i].daysSinceLastRepair == NoRepairDays
  {
    ImputeAt(rows, i);
  }
}
