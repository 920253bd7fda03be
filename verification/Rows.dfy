/** The rows of the model picker and the identity by which a row survives a refresh
    (crates/workshop-auth/src/lib.rs).  Titles, badges and colours are not modelled; `hay` is the
    lower-case text a typed filter is matched against. */
module Rows {
  import opened Text

  datatype Rail = Claude | Codex | Cursor

  datatype EngineModel =
    EngineModel(ref: string, name: string, variants: seq<string>, effort: Option<string>, chat: bool)

  datatype RowKind =
    | Catalog(key: string, provider: string, locked: bool)
    | Connect(provider: string)
    | Engine(model: EngineModel)
    | Effort(model: EngineModel)
    | RailModel(rail: Rail, key: string)
    | Vendor(rail: Rail)
    | ApiKeys
    | Xai

  datatype Row = Row(kind: RowKind, group: string, hay: string, chat: bool)

  datatype RowId =
    | CatalogId(key: string)
    | ConnectId(provider: string)
    | EngineId(ref: string, effort: Option<string>)
    | RailId(rail: Rail, key: string)
    | VendorId(rail: Rail)
    | ApiKeysId
    | XaiId

  /** Connect, vendor and fixed rows always count as chat rows. */
  predicate IsChat(r: Row) {
    r.kind.Catalog? || r.kind.Engine? || r.kind.Effort? ==> r.chat
  }

  function Id(r: Row): RowId {
    match r.kind
    case Catalog(key, _, _) => CatalogId(key)
    case Connect(p) => ConnectId(p)
    case Engine(m) => EngineId(m.ref, None)
    case Effort(m) => EngineId(m.ref, m.effort)
    case RailModel(rail, key) => RailId(rail, key)
    case Vendor(rail) => VendorId(rail)
    case ApiKeys => ApiKeysId
    case Xai => XaiId
  }

  function Ids(rows: seq<Row>): set<RowId> {
    set r | r in rows :: Id(r)
  }

  /** Position of the first row with this id. */
  function Position(rows: seq<Row>, id: RowId): (r: Option<nat>)
    ensures r.Some? ==> r.value < |rows| && Id(rows[r.value]) == id
                        && forall i :: 0 <= i < r.value ==> Id(rows[i]) != id
    ensures r.Some? <==> id in Ids(rows)
  {
    if rows == [] then None
    else
      assert rows == [rows[0]] + rows[1..];
      if Id(rows[0]) == id then Some(0)
      else match Position(rows[1..], id) case None => None case Some(i) => Some(i + 1)
  }

  predicate DistinctIds(rows: seq<Row>) {
    forall i, j :: 0 <= i < j < |rows| ==> Id(rows[i]) != Id(rows[j])
  }

  /** The rows of one group stand together. */
  predicate Contiguous(rows: seq<Row>) {
    forall i, j, k :: 0 <= i < j < k < |rows| && rows[i].group == rows[k].group ==>
      rows[j].group == rows[i].group
  }
}
