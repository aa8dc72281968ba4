/**
 * The static parameter table behind `Sample.__init__`: one row of fixed
 * attributes per wagon, and the wagon-keyed dictionaries built from it.
 */
module Params {
  import opened Wrappers
  import opened Sequences
  import opened Features

  /** One row of the wagon parameter table. */
  datatype WagonParams = WagonParams(
    wagon: int,
    rodId: int,
    gruz: real,
    tara: real,
    volume: real,
    kuzov: int,
    normaKm: int)

  /** The six static columns joined onto every output row of a wagon. */
  datatype StaticAttrs = StaticAttrs(
    rodId: int,
    gruz: real,
    tara: real,
    volume: real,
    kuzovFlag: int,
    normaKm: int)

  /** `(kuzov == 2) + 0`: the body-type flag. */
  function KuzovFlag(kuzov: int): (f: int)
    ensures f == 0 || f == 1
    ensures f == 1 <==> kuzov == 2
  {
    if kuzov == 2 then 1 else 0
  }

  function RodIdOf(p: WagonParams): int { p.rodId }
  function GruzOf(p: WagonParams): real { p.gruz }
  function TaraOf(p: WagonParams): real { p.tara }
  function VolumeOf(p: WagonParams): real { p.volume }
  function KuzovFlagOf(p: WagonParams): int { KuzovFlag(p.kuzov) }
  function NormaKmOf(p: WagonParams): int { p.normaKm }

  /** `dict(zip(wagnum, column))`: a key per wagon of the table, later rows overwriting earlier ones. */
  function Index<V>(params: seq<WagonParams>, attr: WagonParams -> V): (m: map<int, V>)
    ensures m.Keys == set p | p in params :: p.wagon
  {
    if params == [] then map[]
    else
      assert params == Init(params) + [Last(params)];
      Index(Init(params), attr)[Last(params).wagon := attr(Last(params))]
  }

  /** The last row of the table for wagon `w`, if there is one. */
  function LastFor(params: seq<WagonParams>, w: int): (r: Option<WagonParams>)
    ensures r.None? <==> forall p :: p in params ==> p.wagon != w
    ensures r.Some? ==> r.value.wagon == w
    ensures r.Some? ==> exists i :: 0 <= i < |params| && params[i] == r.value &&
                          forall j :: i < j < |params| ==> params[j].wagon != w
  {
    if params == [] then None
    else if Last(params).wagon == w then Some(Last(params))
    else
      assert params == Init(params) + [Last(params)];
      LastFor(Init(params), w)
  }

  /** Building a dictionary from pairs keeps, for each wagon, the value of its last row. */
  lemma {:induction false} IndexLastWrite<V>(params: seq<WagonParams>, attr: WagonParams -> V, w: int)
    ensures w in Index(params, attr) <==> LastFor(params, w).Some?
    ensures w in Index(params, attr) ==> Index(params, attr)[w] == attr(LastFor(params, w).value)
  {
    if params != [] && Last(params).wagon != w {
      IndexLastWrite(Init(params), attr, w);
    }
  }

  function Attrs(p: WagonParams): StaticAttrs {
    StaticAttrs(RodIdOf(p), GruzOf(p), TaraOf(p), VolumeOf(p), KuzovFlagOf(p), NormaKmOf(p))
  }

  /**
   * The six static attributes of wagon `w` as the dictionaries give them:
   * those of its last row, and a `KeyError` for a wagon the table lacks.
   */
  function AttrsFor(params: seq<WagonParams>, w: int): (r: Result<StaticAttrs, Failure>)
    ensures r.Err? <==> forall p :: p in params ==> p.wagon != w
    ensures r.Err? ==> r.error == UnknownWagon(w)
    ensures r.Ok? ==> exists i :: 0 <= i < |params| && params[i].wagon == w && r.value == Attrs(params[i]) &&
                        forall j :: i < j < |params| ==> params[j].wagon != w
    ensures r.Ok? ==> (r.value.kuzovFlag == 1 <==> LastFor(params, w).value.kuzov == 2)
  {
    match LastFor(params, w)
    case None => Err(UnknownWagon(w))
    case Some(p) => Ok(Attrs(p))
  }
}
