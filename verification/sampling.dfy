/**
 * `Sample`: the static dictionaries built once from the parameter table,
 * and `get_sample`, which turns a batch of (wagon, date) targets into the
 * imputed feature table.
 */
module Sampling {
  import opened Wrappers
  import opened Sequences
  import opened Features
  import opened Params
  import opened Table
  import opened Imputation

  /** The static join of one row: its wagon's six attributes, or the `KeyError` of an unknown wagon. */
  function JoinRow(params: seq<WagonParams>, r: Row): (j: Result<JoinedRow, Failure>)
    ensures j.Err? <==> forall p :: p in params ==> p.wagon != r.wagon
    ensures j.Err? ==> j.error == UnknownWagon(r.wagon)
    ensures j.Ok? ==> j.value.row == r && j.value.attrs == AttrsFor(params, r.wagon).value
  {
    match AttrsFor(params, r.wagon)
    case Err(e) => Err(e)
    case Ok(a) => Ok(JoinedRow(r, a))
  }

  function JoinStep(params: seq<WagonParams>): Row -> Result<JoinedRow, Failure> {
    (r: Row) => JoinRow(params, r)
  }

  /**
   * `get_sample(target, dislok, tr_rem, pred)` against the parameter table
   * `params`: the rows in grouped order, joined, then imputed. The first
   * failure wins: a `get_features` failure, then an unknown wagon, then an
   * empty mode column.
   */
  function SampleTable(params: seq<WagonParams>, target: seq<TargetEntry>, dislok: seq<Disposition>,
                       repairs: seq<Repair>, pred: bool): (r: Result<seq<OutRow>, Failure>)
    requires HistorySorted(dislok)
    ensures r.Ok? ==> |r.value| == |target|
  {
    match Rows(target, dislok, repairs, pred)
    case Err(e) => Err(e)
    case Ok(rows) =>
      match Collect(rows, JoinStep(params))
      case Err(e) => Err(e)
      case Ok(joined) => Impute(joined)
  }

  /** The k-th row of a successful join is the k-th row with its wagon's attributes. */
  lemma JoinedAt(params: seq<WagonParams>, rows: seq<Row>, k: int)
    requires Collect(rows, JoinStep(params)).Ok? && 0 <= k < |rows|
    ensures AttrsFor(params, rows[k].wagon).Ok?
    ensures Collect(rows, JoinStep(params)).value[k] == JoinedRow(rows[k], AttrsFor(params, rows[k].wagon).value)
  {
    assert JoinStep(params)(rows[k]).Ok?;
  }

  /** An unknown-wagon failure names a wagon of the targets that the parameter table lacks. */
  lemma SampleTableUnknownWagon(params: seq<WagonParams>, target: seq<TargetEntry>, dislok: seq<Disposition>,
                                repairs: seq<Repair>, pred: bool)
    requires HistorySorted(dislok)
    requires SampleTable(params, target, dislok, repairs, pred).Err?
    requires SampleTable(params, target, dislok, repairs, pred).error.UnknownWagon?
    ensures var w := SampleTable(params, target, dislok, repairs, pred).error.wagon;
            && (exists e :: e in target && e.wagon == w)
            && forall p :: p in params ==> p.wagon != w
  {
    var r := SampleTable(params, target, dislok, repairs, pred);
    var rowsR := Rows(target, dislok, repairs, pred);
    if rowsR.Err? {
      RowsError(target, dislok, repairs, pred);
    } else {
      var rows := rowsR.value;
      var joinedR := Collect(rows, JoinStep(params));
      if joinedR.Err? {
        var k :| 0 <= k < |rows| && JoinStep(params)(rows[k]) == Err(joinedR.error);
        RowsFromEntries(target, dislok, repairs, pred, k);
        assert Grouped(target, WagonKeys(target))[k] in target;
      }
    }
  }

  /** The k-th assembled row belongs to the k-th entry of the grouped order, a target entry. */
  lemma RowsFromEntries(target: seq<TargetEntry>, dislok: seq<Disposition>, repairs: seq<Repair>, pred: bool, k: int)
    requires HistorySorted(dislok)
    requires Rows(target, dislok, repairs, pred).Ok? && 0 <= k < |target|
    ensures var e := Grouped(target, WagonKeys(target))[k];
            && e in target
            && Rows(target, dislok, repairs, pred).value[k] == RowFor(e, dislok, repairs, pred).value
  {
    var g := Grouped(target, WagonKeys(target));
    GroupedPermutation(target);
    assert g[k] in multiset(g);
  }

  /**
   * Row k of the table is the k-th entry of the grouped order: a target
   * entry whose features were computed, with its wagon and date and the
   * labels `pred` chooses.
   */
  lemma SampleTableRow(params: seq<WagonParams>, target: seq<TargetEntry>, dislok: seq<Disposition>,
                       repairs: seq<Repair>, pred: bool, k: int)
    requires HistorySorted(dislok)
    requires SampleTable(params, target, dislok, repairs, pred).Ok? && 0 <= k < |target|
    ensures var e, o := Grouped(target, WagonKeys(target))[k], SampleTable(params, target, dislok, repairs, pred).value[k];
            && e in target
            && EntryFeatures(e, dislok, repairs).Ok?
            && o.wagon == e.wagon && o.date == e.month
            && (pred ==> o.targetMonth == -1 && o.targetDay == -1)
            && (!pred ==> o.targetMonth == e.month && o.targetDay == e.day)
  {
    SampleTableParts(params, target, dislok, repairs, pred);
    var rows := Rows(target, dislok, repairs, pred).value;
    var joined := Collect(rows, JoinStep(params)).value;
    RowsFromEntries(target, dislok, repairs, pred, k);
    JoinedAt(params, rows, k);
    assert SameKeys(joined[k], SampleTable(params, target, dislok, repairs, pred).value[k]);
  }

  /** Row k carries the static attributes of its wagon's last parameter row. */
  lemma SampleTableRowAttrs(params: seq<WagonParams>, target: seq<TargetEntry>, dislok: seq<Disposition>,
                            repairs: seq<Repair>, pred: bool, k: int)
    requires HistorySorted(dislok)
    requires SampleTable(params, target, dislok, repairs, pred).Ok? && 0 <= k < |target|
    ensures AttrsFor(params, Grouped(target, WagonKeys(target))[k].wagon) ==
              Ok(SampleTable(params, target, dislok, repairs, pred).value[k].attrs)
  {
    SampleTableParts(params, target, dislok, repairs, pred);
    var rows := Rows(target, dislok, repairs, pred).value;
    var joined := Collect(rows, JoinStep(params)).value;
    RowsFromEntries(target, dislok, repairs, pred, k);
    JoinedAt(params, rows, k);
    assert SameKeys(joined[k], SampleTable(params, target, dislok, repairs, pred).value[k]);
  }

  /** Every feature that `get_features` produced for row k is in the table as it was. */
  lemma SampleTableRowFeatures(params: seq<WagonParams>, target: seq<TargetEntry>, dislok: seq<Disposition>,
                               repairs: seq<Repair>, pred: bool, k: int)
    requires HistorySorted(dislok)
    requires SampleTable(params, target, dislok, repairs, pred).Ok? && 0 <= k < |target|
    ensures var e := Grouped(target, WagonKeys(target))[k];
            EntryFeatures(e, dislok, repairs).Ok? &&
            var f, o := EntryFeatures(e, dislok, repairs).value, SampleTable(params, target, dislok, repairs, pred).value[k];
            && (forall c :: MeanCell(f, c).Some? ==> MeanOut(o, c) == MeanCell(f, c))
            && (forall c :: ModeCell(f, c).Some? ==> ModeOut(o, c) == ModeCell(f, c).value)
            && (f.numRem.Some? ==> o.numRem == f.numRem.value)
            && (f.daysSinceLastRepair.Some? ==> o.daysSinceLastRepair == f.daysSinceLastRepair.value)
  {
    SampleTableParts(params, target, dislok, repairs, pred);
    var rows := Rows(target, dislok, repairs, pred).value;
    var joined := Collect(rows, JoinStep(params)).value;
    RowsFromEntries(target, dislok, repairs, pred, k);
    JoinedAt(params, rows, k);
    ImputeKeepsPresent(joined, k);
  }

  /** A table that is built passed every stage: the rows, the join and the imputation. */
  lemma SampleTableParts(params: seq<WagonParams>, target: seq<TargetEntry>, dislok: seq<Disposition>,
                         repairs: seq<Repair>, pred: bool)
    requires HistorySorted(dislok)
    requires SampleTable(params, target, dislok, repairs, pred).Ok?
    ensures Rows(target, dislok, repairs, pred).Ok?
    ensures Collect(Rows(target, dislok, repairs, pred).value, JoinStep(params)).Ok?
    ensures SampleTable(params, target, dislok, repairs, pred) ==
              Impute(Collect(Rows(target, dislok, repairs, pred).value, JoinStep(params)).value)
  {
  }

  /** With no targets the table is empty, and `mode()[0]` of the empty isload column raises. */
  lemma SampleTableNoTargets(params: seq<WagonParams>, dislok: seq<Disposition>, repairs: seq<Repair>, pred: bool)
    requires HistorySorted(dislok)
    ensures SampleTable(params, [], dislok, repairs, pred) == Err(EmptyMode("isload"))
  {
    assert Rows([], dislok, repairs, pred) == Ok([]);
    assert Collect([], JoinStep(params)) == Ok([]);
    assert ColumnMode([], IsLoad).None?;
    ImputeFailure([]);
  }

  /**
   * The nested loop of `get_sample`: for each wagon of the targets in
   * ascending order, for each of its dates in order, the features of that
   * date and its labels; the first `get_features` failure raises.
   */
  method AssembleRows(target: seq<TargetEntry>, dislok: seq<Disposition>, repairs: seq<Repair>, pred: bool)
    returns (r: Result<seq<Row>, Failure>)
    requires HistorySorted(dislok)
    ensures r == Rows(target, dislok, repairs, pred)
  {
    var keys := WagonKeys(target);
    ghost var step := RowStep(dislok, repairs, pred);
    var rows: seq<Row> := [];
    var gi := 0;
    while gi < |keys|
      invariant 0 <= gi <= |keys|
      invariant Collect(Grouped(target, keys[..gi]), step) == Ok(rows)
    {
      var w := keys[gi];
      var group := EntriesOf(target, w);
      ghost var done := Grouped(target, keys[..gi]);
      var out := AssembleGroup(done, group, w, dislok, repairs, pred, rows);
      GroupedAround(target, keys, gi);
      GroupedNext(target, keys, gi);
      if out.Err? {
        CollectPrefixErr(done + group, Grouped(target, keys[gi + 1..]), step);
        return out;
      }
      rows := out.value;
      gi := gi + 1;
    }
    assert keys[..gi] == keys;
    r := Ok(rows);
  }

  /**
   * The inner loop of `get_sample` for one wagon: its histories are sliced
   * once, then each of its dates gives one row, after the rows built so far.
   */
  method AssembleGroup(ghost done: seq<TargetEntry>, group: seq<TargetEntry>, w: int,
                       dislok: seq<Disposition>, repairs: seq<Repair>, pred: bool, rows: seq<Row>)
    returns (r: Result<seq<Row>, Failure>)
    requires HistorySorted(dislok)
    requires forall e :: e in group ==> e.wagon == w
    requires Collect(done, RowStep(dislok, repairs, pred)) == Ok(rows)
    ensures r == Collect(done + group, RowStep(dislok, repairs, pred))
  {
    ghost var step := RowStep(dislok, repairs, pred);
    var wagonDislok := WagonDislok(dislok, w);
    var wagonRepairs := WagonRepairs(repairs, w);
    WagonDislokIncreasing(dislok, w);
    var acc := rows;
    assert done + group[..0] == done;
    var i := 0;
    while i < |group|
      invariant 0 <= i <= |group|
      invariant Collect(done + group[..i], step) == Ok(acc)
    {
      var e := group[i];
      assert e in group;
      var features := ExtractFeatures(e.month, wagonDislok, wagonRepairs);
      RowStepAt(dislok, repairs, pred, e, w);
      if features.Err? {
        CollectStepErr(done, group, i, step, acc, features.error);
        return Err(features.error);
      }
      var row := if pred then Row(w, e.month, features.value, -1, -1)
                 else Row(w, e.month, features.value, e.month, e.day);
      CollectStepOk(done, group, i, step, acc, row);
      acc := acc + [row];
      i := i + 1;
    }
    assert group[..i] == group;
    r := Ok(acc);
  }

  class Sample {
    /** The parameter table the dictionaries were built from. */
    ghost const params: seq<WagonParams>
    const rodIds: map<int, int>
    const gruz: map<int, real>
    const tara: map<int, real>
    const volumes: map<int, real>
    const kuzovFlags: map<int, int>
    const normaKm: map<int, int>

    ghost predicate Valid() {
      && rodIds == Index(params, RodIdOf)
      && gruz == Index(params, GruzOf)
      && tara == Index(params, TaraOf)
      && volumes == Index(params, VolumeOf)
      && kuzovFlags == Index(params, KuzovFlagOf)
      && normaKm == Index(params, NormaKmOf)
    }

    /** `__init__` on the rows of the parameter table. */
    constructor (table: seq<WagonParams>)
      ensures params == table && Valid()
    {
      var rod: map<int, int> := map[];
      var gr: map<int, real> := map[];
      var ta: map<int, real> := map[];
      var vol: map<int, real> := map[];
      var kuz: map<int, int> := map[];
      var nkm: map<int, int> := map[];
      var i := 0;
      while i < |table|
        invariant 0 <= i <= |table|
        invariant rod == Index(table[..i], RodIdOf)
        invariant gr == Index(table[..i], GruzOf)
        invariant ta == Index(table[..i], TaraOf)
        invariant vol == Index(table[..i], VolumeOf)
        invariant kuz == Index(table[..i], KuzovFlagOf)
        invariant nkm == Index(table[..i], NormaKmOf)
      {
        var p := table[i];
        assert Init(table[..i + 1]) == table[..i] && Last(table[..i + 1]) == p;
        rod := rod[p.wagon := p.rodId];
        gr := gr[p.wagon := p.gruz];
        ta := ta[p.wagon := p.tara];
        vol := vol[p.wagon := p.volume];
        kuz := kuz[p.wagon := KuzovFlag(p.kuzov)];
        nkm := nkm[p.wagon := p.normaKm];
        i := i + 1;
      }
      assert table[..i] == table;
      params := table;
      rodIds, gruz, tara, volumes, kuzovFlags, normaKm := rod, gr, ta, vol, kuz, nkm;
    }

    /** The six `self.wag_to_*[wagnum]` lookups of one row. */
    function Lookup(w: int): (r: Result<StaticAttrs, Failure>)
      requires Valid()
      ensures r == AttrsFor(params, w)
    {
      IndexLastWrite(params, RodIdOf, w);
      IndexLastWrite(params, GruzOf, w);
      IndexLastWrite(params, TaraOf, w);
      IndexLastWrite(params, VolumeOf, w);
      IndexLastWrite(params, KuzovFlagOf, w);
      IndexLastWrite(params, NormaKmOf, w);
      if w in rodIds then
        Ok(StaticAttrs(rodIds[w], gruz[w], tara[w], volumes[w], kuzovFlags[w], normaKm[w]))
      else
        Err(UnknownWagon(w))
    }

    /** The static join: the six lookups for every row, in row order; the first unknown wagon raises. */
    method JoinStatic(rows: seq<Row>) returns (r: Result<seq<JoinedRow>, Failure>)
      requires Valid()
      ensures r == Collect(rows, JoinStep(params))
    {
      var joined: seq<JoinedRow> := [];
      var k := 0;
      while k < |rows|
        invariant 0 <= k <= |rows|
        invariant Collect(rows[..k], JoinStep(params)) == Ok(joined)
      {
        var attrs := Lookup(rows[k].wagon);
        CollectNext(rows, k, JoinStep(params));
        if attrs.Err? {
          CollectTakeErr(rows, k + 1, JoinStep(params));
          return Err(attrs.error);
        }
        joined := joined + [JoinedRow(rows[k], attrs.value)];
        k := k + 1;
      }
      assert rows[..k] == rows;
      r := Ok(joined);
    }

    /**
     * `get_sample`: the rows of every (wagon, date) target, the static join,
     * then the imputation.
     */
    method GetSample(target: seq<TargetEntry>, dislok: seq<Disposition>, repairs: seq<Repair>, pred: bool)
      returns (r: Result<seq<OutRow>, Failure>)
      requires Valid() && HistorySorted(dislok)
      ensures r == SampleTable(params, target, dislok, repairs, pred)
    {
      var rows := AssembleRows(target, dislok, repairs, pred);
      if rows.Err? {
        return Err(rows.error);
      }
      var joined := JoinStatic(rows.value);
      if joined.Err? {
        return Err(joined.error);
      }
      r := Impute(joined.value);
    }
  }
}
