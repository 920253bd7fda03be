/** Building the rows of a snapshot (crates/workshop-auth/src/lib.rs, `models_rows_with_pool`).
    What a catalog holds and which providers are connected are inputs. */
module PickerRows {
  import opened Text
  import opened Rows
  import opened Seqs
  import RowMerge

  const POOL_GROUP := "Community pool"
  const ENGINE_GROUP := "OpenCode"
  const SUBSCRIPTIONS := "Subscriptions"
  const HIDDEN_PROVIDER := "kilo"

  datatype Model = Model(key: string, provider: string, name: string, chat: bool)

  datatype ProviderGroup = ProviderGroup(
    id: string, name: string, local: bool, models: seq<Model>, locked: nat, connectable: bool)

  datatype Sources = Sources(
    pool: Option<seq<Model>>, engine: seq<EngineModel>, groups: seq<ProviderGroup>, connected: set<string>)

  const BigPickle := EngineModel("opencode/big-pickle", "Big Pickle", [], None, true)

  /** The text a typed filter is matched against: the title and the provider column. */
  function Hay(title: string, provider: string): string {
    Lower(title + " " + provider)
  }

  function RailName(rail: Rail): string {
    match rail case Claude => "Claude" case Codex => "Codex" case Cursor => "Cursor"
  }

  function CatalogRow(m: Model, group: string): Row {
    Row(Catalog(m.key, m.provider, false), group, Hay(m.name, group), m.chat)
  }

  function EngineRow(m: EngineModel): Row {
    Row(Engine(m.(effort := None)), ENGINE_GROUP, Hay(m.name, ENGINE_GROUP), m.chat)
  }

  function ConnectRow(g: ProviderGroup): Row {
    var action := if g.id == "openrouter" || g.id == "opencode" then "Sign in" else "API key";
    Row(Connect(g.id), g.name, Hay(g.name + " \U{2014} " + action, g.name), true)
  }

  function VendorRow(rail: Rail): Row {
    Row(Vendor(rail), SUBSCRIPTIONS, Hay(RailName(rail), ""), true)
  }

  const ApiKeysRow := Row(ApiKeys, SUBSCRIPTIONS, Hay("API keys", ""), true)

  const XaiRow := Row(Xai, SUBSCRIPTIONS, Hay("xAI", ""), true)

  function CatalogRows(models: seq<Model>, group: string): (r: seq<Row>)
    ensures forall i :: 0 <= i < |r| ==> r[i].kind.Catalog? && r[i].group == group
  {
    if models == [] then [] else [CatalogRow(models[0], group)] + CatalogRows(models[1..], group)
  }

  function EngineRows(models: seq<EngineModel>): (r: seq<Row>)
    ensures forall i :: 0 <= i < |r| ==> r[i].kind.Engine? && r[i].group == ENGINE_GROUP
  {
    if models == [] then [] else [EngineRow(models[0])] + EngineRows(models[1..])
  }

  /** A provider has rows of its own when it is not hidden, is local or connected, and has models. */
  predicate Listed(g: ProviderGroup, connected: set<string>) {
    g.id != HIDDEN_PROVIDER && g.models != [] && (g.local || g.id in connected)
  }

  /** A provider can be connected from the sub-menu while it has something to unlock. */
  predicate Connectable(g: ProviderGroup, connected: set<string>) {
    g.id != HIDDEN_PROVIDER && g.connectable && (Listed(g, connected) ==> g.locked > 0)
  }

  function ListedRows(groups: seq<ProviderGroup>, connected: set<string>): (r: seq<Row>)
    ensures forall i :: 0 <= i < |r| ==> r[i].kind.Catalog? && exists g :: g in groups && g.name == r[i].group
  {
    if groups == [] then []
    else
      (if Listed(groups[0], connected) then CatalogRows(groups[0].models, groups[0].name) else [])
      + ListedRows(groups[1..], connected)
  }

  function ConnectRows(groups: seq<ProviderGroup>, connected: set<string>): (r: seq<Row>)
    ensures forall i :: 0 <= i < |r| ==> r[i].kind.Connect?
  {
    if groups == [] then []
    else
      (if Connectable(groups[0], connected) then [ConnectRow(groups[0])] else [])
      + ConnectRows(groups[1..], connected)
  }

  function Pool(s: Sources): (r: seq<Row>)
    ensures forall i :: 0 <= i < |r| ==> r[i].kind.Catalog? && r[i].group == POOL_GROUP
  {
    if s.pool.Some? then CatalogRows(s.pool.value, POOL_GROUP) else []
  }

  function OpenCode(s: Sources): (r: seq<Row>)
    ensures forall i :: 0 <= i < |r| ==> r[i].kind.Engine? && r[i].group == ENGINE_GROUP
    ensures r != []
  {
    EngineRows(if s.engine == [] then [BigPickle] else s.engine)
  }

  function Vendors(): (r: seq<Row>)
    ensures forall i :: 0 <= i < |r| ==> r[i].kind.Vendor? && r[i].group == SUBSCRIPTIONS
  {
    [VendorRow(Claude), VendorRow(Codex), VendorRow(Cursor)]
  }

  function Connects(s: Sources): (r: seq<Row>)
    ensures forall i :: 0 <= i < |r| ==> r[i].kind.Connect?
  {
    ConnectRows(s.groups, s.connected)
  }

  function ApiKeysRows(s: Sources): (r: seq<Row>)
    ensures forall i :: 0 <= i < |r| ==> r[i] == ApiKeysRow
    ensures r == [] <==> Connects(s) == []
  {
    if Connects(s) == [] then [] else [ApiKeysRow]
  }

  function Head(s: Sources): seq<Row> {
    Pool(s) + OpenCode(s) + ListedRows(s.groups, s.connected) + Vendors() + ApiKeysRows(s)
  }

  /** All rows, the providers to connect between `API keys` and xAI. */
  function AllRows(s: Sources): seq<Row> {
    Head(s) + Connects(s) + [XaiRow]
  }

  /** The rows of the list itself. */
  function ListRows(s: Sources): seq<Row> {
    Head(s) + [XaiRow]
  }

  lemma {:induction false} ListedConcat(a: seq<ProviderGroup>, b: seq<ProviderGroup>, connected: set<string>)
    ensures ListedRows(a + b, connected) == ListedRows(a, connected) + ListedRows(b, connected)
  {
    if a == [] {
      assert a + b == b;
    } else {
      assert (a + b)[1..] == a[1..] + b;
      ListedConcat(a[1..], b, connected);
    }
  }

  lemma {:induction false} ConnectConcat(a: seq<ProviderGroup>, b: seq<ProviderGroup>, connected: set<string>)
    ensures ConnectRows(a + b, connected) == ConnectRows(a, connected) + ConnectRows(b, connected)
  {
    if a == [] {
      assert a + b == b;
    } else {
      assert (a + b)[1..] == a[1..] + b;
      ConnectConcat(a[1..], b, connected);
    }
  }

  lemma {:induction false} CatalogConcat(a: seq<Model>, b: seq<Model>, group: string)
    ensures CatalogRows(a + b, group) == CatalogRows(a, group) + CatalogRows(b, group)
  {
    if a == [] {
      assert a + b == b;
    } else {
      assert (a + b)[1..] == a[1..] + b;
      CatalogConcat(a[1..], b, group);
    }
  }

  lemma {:induction false} EngineConcat(a: seq<EngineModel>, b: seq<EngineModel>)
    ensures EngineRows(a + b) == EngineRows(a) + EngineRows(b)
  {
    if a == [] {
      assert a + b == b;
    } else {
      assert (a + b)[1..] == a[1..] + b;
      EngineConcat(a[1..], b);
    }
  }

  method AddModels(rows: seq<Row>, models: seq<Model>, group: string) returns (out: seq<Row>)
    ensures out == rows + CatalogRows(models, group)
  {
    out := rows;
    var i := 0;
    assert models[..0] == [];
    while i < |models|
      invariant 0 <= i <= |models|
      invariant out == rows + CatalogRows(models[..i], group)
    {
      Snoc(models, i);
      CatalogConcat(models[..i], [models[i]], group);
      out := out + [CatalogRow(models[i], group)];
      i := i + 1;
    }
    assert models[..i] == models;
  }

  method AddEngine(rows: seq<Row>, models: seq<EngineModel>) returns (out: seq<Row>)
    ensures out == rows + EngineRows(models)
  {
    out := rows;
    var i := 0;
    assert models[..0] == [];
    while i < |models|
      invariant 0 <= i <= |models|
      invariant out == rows + EngineRows(models[..i])
    {
      Snoc(models, i);
      EngineConcat(models[..i], [models[i]]);
      out := out + [EngineRow(models[i])];
      i := i + 1;
    }
    assert models[..i] == models;
  }

  /** One provider: its models into the list, or a row that connects it, or both. */
  method AddProvider(rows: seq<Row>, connects: seq<Row>, g: ProviderGroup, connected: set<string>)
    returns (rows': seq<Row>, connects': seq<Row>)
    ensures rows' == rows + if Listed(g, connected) then CatalogRows(g.models, g.name) else []
    ensures connects' == connects + if Connectable(g, connected) then [ConnectRow(g)] else []
  {
    rows', connects' := rows, connects;
    if g.id == HIDDEN_PROVIDER { return; }
    var listed := g.local || g.id in connected;
    if g.models == [] || !listed {
      if g.connectable { connects' := connects' + [ConnectRow(g)]; }
      return;
    }
    rows' := AddModels(rows, g.models, g.name);
    if g.locked > 0 && g.connectable { connects' := connects' + [ConnectRow(g)]; }
  }

  lemma OneProvider(before: seq<Row>, groups: seq<ProviderGroup>, i: nat, connected: set<string>)
    requires i < |groups|
    ensures var g := groups[i];
      before + ListedRows(groups[..i + 1], connected) == before + ListedRows(groups[..i], connected)
        + if Listed(g, connected) then CatalogRows(g.models, g.name) else []
    ensures ConnectRows(groups[..i + 1], connected) == ConnectRows(groups[..i], connected)
      + if Connectable(groups[i], connected) then [ConnectRow(groups[i])] else []
  {
    Snoc(groups, i);
    ListedConcat(groups[..i], [groups[i]], connected);
    ConnectConcat(groups[..i], [groups[i]], connected);
  }

  method AddProviders(before: seq<Row>, groups: seq<ProviderGroup>, connected: set<string>)
    returns (rows: seq<Row>, connects: seq<Row>)
    ensures rows == before + ListedRows(groups, connected) && connects == ConnectRows(groups, connected)
  {
    rows, connects := before, [];
    var i := 0;
    assert groups[..0] == [];
    while i < |groups|
      invariant 0 <= i <= |groups|
      invariant rows == before + ListedRows(groups[..i], connected)
      invariant connects == ConnectRows(groups[..i], connected)
    {
      OneProvider(before, groups, i, connected);
      rows, connects := AddProvider(rows, connects, groups[i], connected);
      i := i + 1;
    }
    assert groups[..i] == groups;
  }

  /** The models of the pool, if it is listed, and of the engine. */
  method AddFront(s: Sources) returns (rows: seq<Row>)
    ensures rows == Pool(s) + OpenCode(s)
  {
    rows := [];
    if s.pool.Some? { rows := AddModels(rows, s.pool.value, POOL_GROUP); }
    assert rows == Pool(s);
    var engine := if s.engine == [] then [BigPickle] else s.engine;
    rows := AddEngine(rows, engine);
  }

  /** The fixed rows, with the providers to connect between `API keys` and xAI. */
  method AddFixed(before: seq<Row>, connects: seq<Row>) returns (rows: seq<Row>)
    ensures rows == before + Vendors() + (if connects == [] then [] else [ApiKeysRow]) + connects + [XaiRow]
  {
    rows := before + [VendorRow(Claude), VendorRow(Codex), VendorRow(Cursor)];
    if connects != [] {
      rows := rows + [ApiKeysRow];
      rows := rows + connects;
    }
    rows := rows + [XaiRow];
  }

  method ModelsRows(s: Sources) returns (rows: seq<Row>)
    ensures rows == AllRows(s)
  {
    var front := AddFront(s);
    var listed, connects := AddProviders(front, s.groups, s.connected);
    rows := AddFixed(listed, connects);
  }

  // ------------------------------------------------------- what the rows are like

  /** What the catalog promises: no id twice, and one group, with a name of its own, a provider. */
  ghost predicate WellFormed(s: Sources) {
    && DistinctIds(Pool(s) + ListedRows(s.groups, s.connected))
    && DistinctIds(OpenCode(s))
    && (forall i, j :: 0 <= i < j < |s.groups| ==> s.groups[i].name != s.groups[j].name)
    && forall i :: 0 <= i < |s.groups| ==> s.groups[i].name !in [POOL_GROUP, ENGINE_GROUP, SUBSCRIPTIONS]
  }

  /** What a new picker is built from: no pool, no engine catalog and nobody connected yet, but the
      providers that can be connected. */
  ghost predicate Unloaded(s: Sources) {
    WellFormed(s) && s.pool.None? && s.engine == [] && s.connected == {}
  }

  function WithoutConnects(rows: seq<Row>): (r: seq<Row>)
    ensures forall i :: 0 <= i < |r| ==> !r[i].kind.Connect?
  {
    if rows == [] then [] else (if rows[0].kind.Connect? then [] else [rows[0]]) + WithoutConnects(rows[1..])
  }

  function OnlyConnects(rows: seq<Row>): (r: seq<Row>)
    ensures forall i :: 0 <= i < |r| ==> r[i].kind.Connect?
  {
    if rows == [] then [] else (if rows[0].kind.Connect? then [rows[0]] else []) + OnlyConnects(rows[1..])
  }

  lemma {:induction false} PartsConcat(a: seq<Row>, b: seq<Row>)
    ensures WithoutConnects(a + b) == WithoutConnects(a) + WithoutConnects(b)
    ensures OnlyConnects(a + b) == OnlyConnects(a) + OnlyConnects(b)
  {
    if a == [] {
      assert a + b == b;
    } else {
      assert (a + b)[1..] == a[1..] + b;
      PartsConcat(a[1..], b);
    }
  }

  lemma {:induction false} NoConnects(a: seq<Row>)
    requires forall i :: 0 <= i < |a| ==> !a[i].kind.Connect?
    ensures WithoutConnects(a) == a && OnlyConnects(a) == []
  {
    if a != [] { NoConnects(a[1..]); }
  }

  lemma {:induction false} AllConnects(a: seq<Row>)
    requires forall i :: 0 <= i < |a| ==> a[i].kind.Connect?
    ensures WithoutConnects(a) == [] && OnlyConnects(a) == a
  {
    if a != [] { AllConnects(a[1..]); }
  }

  /** Splitting off the connect rows gives back the list and the sub-menu, each in order. */
  lemma SplitRows(s: Sources)
    ensures WithoutConnects(AllRows(s)) == ListRows(s) && OnlyConnects(AllRows(s)) == Connects(s)
  {
    SplitAround(Head(s), Connects(s), XaiRow);
  }

  lemma SplitAround(a: seq<Row>, b: seq<Row>, c: Row)
    requires (forall i :: 0 <= i < |a| ==> !a[i].kind.Connect?) && !c.kind.Connect?
    requires forall i :: 0 <= i < |b| ==> b[i].kind.Connect?
    ensures WithoutConnects(a + b + [c]) == a + [c] && OnlyConnects(a + b + [c]) == b
  {
    assert WithoutConnects(a) == a && OnlyConnects(a) == [] by { NoConnects(a); }
    assert WithoutConnects(b) == [] && OnlyConnects(b) == b by { AllConnects(b); }
    assert WithoutConnects([c]) == [c] && OnlyConnects([c]) == [] by { NoConnects([c]); }
    PartsConcat(a, b);
    PartsConcat(a + b, [c]);
  }

  lemma DistinctParts(a: seq<Row>, b: seq<Row>)
    requires DistinctIds(a + b)
    ensures DistinctIds(a) && DistinctIds(b)
    ensures forall i, j :: 0 <= i < |a| && 0 <= j < |b| ==> Id(a[i]) != Id(b[j])
  {
    var all := a + b;
    assert forall i :: 0 <= i < |a| ==> a[i] == all[i];
    assert forall j :: 0 <= j < |b| ==> b[j] == all[|a| + j];
  }

  lemma DistinctConcat(a: seq<Row>, b: seq<Row>)
    requires DistinctIds(a) && DistinctIds(b)
    requires forall i, j :: 0 <= i < |a| && 0 <= j < |b| ==> Id(a[i]) != Id(b[j])
    ensures DistinctIds(a + b)
  {
  }

  /** The fixed rows at the end of the list. */
  function Tail(s: Sources): seq<Row> {
    Vendors() + ApiKeysRows(s) + [XaiRow]
  }

  lemma ListLaid(s: Sources)
    ensures ListRows(s) == Pool(s) + (OpenCode(s) + (ListedRows(s.groups, s.connected) + Tail(s)))
  {
    var p, o, l, v, k := Pool(s), OpenCode(s), ListedRows(s.groups, s.connected), Vendors(), ApiKeysRows(s);
    Shift(p, o, l, v + k + [XaiRow]);
    Regroup(p + o + l, v, k);
    Regroup(p + o + l, v + k, [XaiRow]);
  }

  lemma Shift(a: seq<Row>, b: seq<Row>, c: seq<Row>, d: seq<Row>)
    ensures a + b + c + d == a + (b + (c + d))
  {
    Regroup(a, b, c);
    Regroup(a, b + c, d);
    Regroup(b, c, d);
  }

  /** No id occurs twice in the list. */
  lemma ListDistinct(s: Sources)
    requires WellFormed(s)
    ensures DistinctIds(ListRows(s))
  {
    var p, o, l, t := Pool(s), OpenCode(s), ListedRows(s.groups, s.connected), Tail(s);
    assert DistinctIds(p) && DistinctIds(l) && forall i, j :: 0 <= i < |p| && 0 <= j < |l| ==> Id(p[i]) != Id(l[j]) by {
      DistinctParts(p, l);
    }
    TailDistinct(s);
    FourDistinct(p, o, l, t);
    ListLaid(s);
  }

  lemma FourDistinct(p: seq<Row>, o: seq<Row>, l: seq<Row>, t: seq<Row>)
    requires DistinctIds(p) && DistinctIds(o) && DistinctIds(l) && DistinctIds(t)
    requires forall i, j :: 0 <= i < |p| && 0 <= j < |l| ==> Id(p[i]) != Id(l[j])
    requires (forall r :: r in p || r in l ==> r.kind.Catalog?) && (forall r :: r in o ==> r.kind.Engine?)
    requires forall r :: r in t ==> !r.kind.Catalog? && !r.kind.Engine? && !r.kind.Effort?
    ensures DistinctIds(p + (o + (l + t)))
  {
    DistinctConcat(l, t);
    DistinctConcat(o, l + t);
    DistinctConcat(p, o + (l + t));
  }

  lemma TailDistinct(s: Sources)
    ensures DistinctIds(Tail(s))
    ensures forall i :: 0 <= i < |Tail(s)| ==> !Tail(s)[i].kind.Catalog? && !Tail(s)[i].kind.Engine?
    ensures forall i :: 0 <= i < |Tail(s)| ==> Tail(s)[i].group == SUBSCRIPTIONS && !Tail(s)[i].kind.Effort?
                                               && !Tail(s)[i].kind.RailModel?
  {
    assert Vendors() == [VendorRow(Claude), VendorRow(Codex), VendorRow(Cursor)];
    assert ApiKeysRows(s) in {[], [ApiKeysRow]};
  }

  lemma {:induction false} GroupsTogether(groups: seq<ProviderGroup>, connected: set<string>, t: seq<Row>)
    requires forall i, j :: 0 <= i < j < |groups| ==> groups[i].name != groups[j].name
    requires forall i :: 0 <= i < |groups| ==> groups[i].name != SUBSCRIPTIONS
    requires forall r :: r in t ==> r.group == SUBSCRIPTIONS
    ensures Contiguous(ListedRows(groups, connected) + t)
  {
    if groups == [] {
      assert [] + t == t;
      OneGroup(t);
    } else {
      var g, rest := groups[0], ListedRows(groups[1..], connected);
      var mine := if Listed(g, connected) then CatalogRows(g.models, g.name) else [];
      assert Contiguous(rest + t) by { GroupsTogether(groups[1..], connected, t); }
      OtherNames(groups[1..], connected, g.name);
      assert forall r :: r in rest + t ==> r.group != g.name;
      Regroup(mine, rest, t);
      RowMerge.ContiguousConcat(mine, rest + t, g.name);
    }
  }

  lemma OneGroup(t: seq<Row>)
    requires forall r :: r in t ==> r.group == SUBSCRIPTIONS
    ensures Contiguous(t)
  {
  }

  lemma OtherNames(groups: seq<ProviderGroup>, connected: set<string>, name: string)
    requires forall i :: 0 <= i < |groups| ==> groups[i].name != name
    ensures forall r :: r in ListedRows(groups, connected) ==> r.group != name
  {
  }

  /** The rows of each group stand together. */
  lemma ListContiguous(s: Sources)
    requires WellFormed(s)
    ensures Contiguous(ListRows(s))
  {
    var p, o, l, t := Pool(s), OpenCode(s), ListedRows(s.groups, s.connected), Tail(s);
    GroupsTogether(s.groups, s.connected, t);
    RowMerge.ContiguousConcat(o, l + t, ENGINE_GROUP);
    RowMerge.ContiguousConcat(p, o + (l + t), POOL_GROUP);
    ListLaid(s);
  }

  /** A vendor row comes before any xAI row. */
  predicate VendorLeads(rows: seq<Row>) {
    exists v :: 0 <= v < |rows| && rows[v].kind.Vendor? && forall j :: 0 <= j < v ==> !rows[j].kind.Xai?
  }

  /** Every vendor is listed whatever the sources hold, xAI is last and only there, and there is an
      `API keys` row exactly when there is a provider to connect. */
  lemma FixedRows(s: Sources)
    ensures VendorLeads(ListRows(s))
    ensures forall rail :: VendorRow(rail) in ListRows(s)
    ensures forall i :: 0 <= i < |ListRows(s)| ==> (ListRows(s)[i].kind.Xai? <==> i == |ListRows(s)| - 1)
    ensures ApiKeysRow in ListRows(s) <==> Connects(s) != []
  {
    var front := Pool(s) + OpenCode(s) + ListedRows(s.groups, s.connected);
    EndOfList(front, ApiKeysRows(s));
    assert ApiKeysRows(s) in {[], [ApiKeysRow]};
  }

  lemma EndOfList(front: seq<Row>, keys: seq<Row>)
    requires forall i :: 0 <= i < |front| ==> front[i].kind.Catalog? || front[i].kind.Engine?
    requires keys in {[], [ApiKeysRow]}
    ensures var rows := front + Vendors() + keys + [XaiRow];
      && VendorLeads(rows) && (forall rail :: VendorRow(rail) in rows)
      && (forall i :: 0 <= i < |rows| ==> (rows[i].kind.Xai? <==> i == |rows| - 1))
      && (ApiKeysRow in rows <==> keys != [])
  {
    var rows, n := front + Vendors() + keys + [XaiRow], |front|;
    assert rows[n] == VendorRow(Claude) && rows[n + 1] == VendorRow(Codex) && rows[n + 2] == VendorRow(Cursor);
    assert forall j :: 0 <= j < n ==> rows[j] == front[j];
    assert keys != [] ==> rows[n + 3] == ApiKeysRow;
  }
}
