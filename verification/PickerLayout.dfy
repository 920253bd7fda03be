/** Which rows a snapshot has and in what order, told of the catalog. */
module PickerLayout {
  import opened Text
  import opened Rows
  import opened PickerRows

  /** The row shows this model. */
  predicate ShowsModel(r: Row, m: Model, group: string) {
    r.kind == Catalog(m.key, m.provider, false) && r.group == group && r.chat == m.chat
    && r.hay == Lower(m.name + " " + group)
  }

  lemma {:induction false} CatalogRowsAt(models: seq<Model>, group: string)
    ensures var rows := CatalogRows(models, group);
      |rows| == |models| && forall i :: 0 <= i < |models| ==> ShowsModel(rows[i], models[i], group)
  {
    if models != [] {
      CatalogRowsAt(models[1..], group);
      assert forall i :: 1 <= i < |models| ==> models[i] == models[1..][i - 1];
    }
  }

  predicate ShowsEngine(r: Row, m: EngineModel) {
    r.kind == Engine(m.(effort := None)) && r.group == "OpenCode" && r.chat == m.chat
    && r.hay == Lower(m.name + " " + "OpenCode")
  }

  lemma {:induction false} EngineRowsAt(models: seq<EngineModel>)
    ensures var rows := EngineRows(models);
      |rows| == |models| && forall i :: 0 <= i < |models| ==> ShowsEngine(rows[i], models[i])
  {
    if models != [] {
      EngineRowsAt(models[1..]);
      assert forall i :: 1 <= i < |models| ==> models[i] == models[1..][i - 1];
    }
  }

  function PoolModels(s: Sources): seq<Model> { if s.pool.Some? then s.pool.value else [] }

  /** The engine's models, or the one the program ships with. */
  function EngineModels(s: Sources): seq<EngineModel> {
    if s.engine == [] then [EngineModel("opencode/big-pickle", "Big Pickle", [], None, true)] else s.engine
  }

  function Fixed(s: Sources): seq<RowKind> {
    [Vendor(Claude), Vendor(Codex), Vendor(Cursor)] + (if Connects(s) == [] then [] else [ApiKeys]) + [Xai]
  }

  /** The models are shown in this order from row `at` on. */
  predicate ShowsAll(rows: seq<Row>, at: nat, models: seq<Model>, group: string) {
    at + |models| <= |rows| && forall i :: 0 <= i < |models| ==> ShowsModel(rows[at + i], models[i], group)
  }

  predicate ShowsEngines(rows: seq<Row>, at: nat, models: seq<EngineModel>) {
    at + |models| <= |rows| && forall i :: 0 <= i < |models| ==> ShowsEngine(rows[at + i], models[i])
  }

  predicate HasKinds(rows: seq<Row>, at: nat, kinds: seq<RowKind>) {
    at + |kinds| <= |rows| && forall i :: 0 <= i < |kinds| ==> rows[at + i].kind == kinds[i]
  }

  /** The list, from the top: the pool's models, OpenCode's, those of the listed providers, and the fixed rows:
      the vendors, `API keys` if there is a provider to connect, and xAI. */
  lemma ListOrder(s: Sources)
    ensures var rows, p, e, n := ListRows(s), |PoolModels(s)|, |EngineModels(s)|, |ListedRows(s.groups, s.connected)|;
      && |rows| == p + e + n + |Fixed(s)|
      && ShowsAll(rows, 0, PoolModels(s), "Community pool") && ShowsEngines(rows, p, EngineModels(s))
      && rows[p + e..p + e + n] == ListedRows(s.groups, s.connected) && HasKinds(rows, p + e + n, Fixed(s))
  {
    PoolAt(s);
    OpenCodeAt(s);
    FixedAt(s);
    assert ListRows(s) == Pool(s) + (OpenCode(s) + (ListedRows(s.groups, s.connected) + Tail(s))) by { ListLaid(s); }
    Assembled(Pool(s), OpenCode(s), ListedRows(s.groups, s.connected), Tail(s), ListRows(s), PoolModels(s),
              EngineModels(s), Fixed(s));
  }

  lemma Assembled(
    a: seq<Row>, b: seq<Row>, c: seq<Row>, d: seq<Row>, all: seq<Row>, pool: seq<Model>, code: seq<EngineModel>,
    fixed: seq<RowKind>)
    requires all == a + (b + (c + d)) && |a| == |pool| && |b| == |code| && |d| == |fixed|
    requires ShowsAll(a, 0, pool, "Community pool") && ShowsEngines(b, 0, code) && HasKinds(d, 0, fixed)
    ensures |all| == |a| + |b| + |c| + |d|
    ensures ShowsAll(all, 0, pool, "Community pool") && ShowsEngines(all, |a|, code)
    ensures all[|a| + |b|..|a| + |b| + |c|] == c && HasKinds(all, |a| + |b| + |c|, fixed)
  {
    assert forall i :: 0 <= i < |a| ==> all[i] == a[i];
    assert forall i :: 0 <= i < |b| ==> all[|a| + i] == b[i];
    assert forall i :: 0 <= i < |d| ==> all[|a| + |b| + |c| + i] == d[i];
  }

  lemma PoolAt(s: Sources)
    ensures ShowsAll(Pool(s), 0, PoolModels(s), "Community pool") && |Pool(s)| == |PoolModels(s)|
  {
    if s.pool.Some? { CatalogRowsAt(s.pool.value, "Community pool"); }
  }

  lemma OpenCodeAt(s: Sources)
    ensures ShowsEngines(OpenCode(s), 0, EngineModels(s)) && |OpenCode(s)| == |EngineModels(s)|
  {
    EngineRowsAt(EngineModels(s));
  }

  lemma FixedAt(s: Sources)
    ensures |Tail(s)| == |Fixed(s)| && HasKinds(Tail(s), 0, Fixed(s))
  {
    assert Vendors() == [VendorRow(Claude), VendorRow(Codex), VendorRow(Cursor)];
  }

  /** A provider whose models are listed: not hidden, and on this machine or connected. */
  predicate Open(g: ProviderGroup, connected: set<string>) {
    g.id != "kilo" && (g.local || g.id in connected)
  }

  /** The row shows a model of an open provider. */
  predicate ShownBy(r: Row, g: ProviderGroup, connected: set<string>) {
    Open(g, connected) && exists i :: 0 <= i < |g.models| && ShowsModel(r, g.models[i], g.name)
  }

  lemma ProviderRows(g: ProviderGroup, connected: set<string>, r: Row)
    ensures r in (if Listed(g, connected) then CatalogRows(g.models, g.name) else []) ==> ShownBy(r, g, connected)
    ensures Open(g, connected) ==> forall i :: 0 <= i < |g.models| ==>
      Listed(g, connected) && i < |CatalogRows(g.models, g.name)|
      && ShowsModel(CatalogRows(g.models, g.name)[i], g.models[i], g.name)
  {
    CatalogRowsAt(g.models, g.name);
  }

  /** Every row of the list's third part is a model of an open provider... */
  lemma {:induction false} ListedFrom(groups: seq<ProviderGroup>, connected: set<string>, r: Row)
    requires r in ListedRows(groups, connected)
    ensures exists k :: 0 <= k < |groups| && ShownBy(r, groups[k], connected)
  {
    ProviderRows(groups[0], connected, r);
    if r in ListedRows(groups[1..], connected) {
      ListedFrom(groups[1..], connected, r);
      var k :| 0 <= k < |groups[1..]| && ShownBy(r, groups[1..][k], connected);
      assert groups[k + 1] == groups[1..][k];
    }
  }

  /** ... and every model of one is there, in the provider's order, after those of the providers before it. */
  lemma ListedAt(groups: seq<ProviderGroup>, connected: set<string>, k: nat)
    requires k < |groups| && Open(groups[k], connected)
    ensures var rows, before := ListedRows(groups, connected), ListedRows(groups[..k], connected);
      before <= rows && ShowsAll(rows, |before|, groups[k].models, groups[k].name)
  {
    var g := groups[k];
    var before, mine, rest :=
      ListedRows(groups[..k], connected), ListedRows([g], connected), ListedRows(groups[k + 1..], connected);
    assert ListedRows(groups, connected) == before + (mine + rest) by {
      assert groups == groups[..k] + ([g] + groups[k + 1..]);
      ListedConcat(groups[..k], [g] + groups[k + 1..], connected);
      ListedConcat([g], groups[k + 1..], connected);
    }
    OneListed(g, connected);
    ShownBetween(before, mine, rest, g.models, g.name);
  }

  lemma ShownBetween(a: seq<Row>, b: seq<Row>, c: seq<Row>, models: seq<Model>, group: string)
    requires ShowsAll(b, 0, models, group)
    ensures ShowsAll(a + (b + c), |a|, models, group)
  {
    assert forall i :: 0 <= i < |b| ==> (a + (b + c))[|a| + i] == b[i];
  }

  lemma OneListed(g: ProviderGroup, connected: set<string>)
    requires Open(g, connected)
    ensures ShowsAll(ListedRows([g], connected), 0, g.models, g.name)
  {
    CatalogRowsAt(g.models, g.name);
    assert ListedRows([g], connected) == (if Listed(g, connected) then CatalogRows(g.models, g.name) else []) + [];
  }

  /** The provider has something that connecting it would unlock: all of its models, or some. */
  predicate HasMore(g: ProviderGroup, connected: set<string>) {
    g.id != "kilo" && g.connectable && (g.models == [] || !Open(g, connected) || g.locked > 0)
  }

  /** The providers to connect are those with something to unlock, each with its row. */
  lemma {:induction false} ConnectIff(groups: seq<ProviderGroup>, connected: set<string>, provider: string)
    ensures (exists r :: r in ConnectRows(groups, connected) && r.kind == Connect(provider)) <==>
      exists k :: 0 <= k < |groups| && groups[k].id == provider && HasMore(groups[k], connected)
  {
    if groups != [] {
      var rest := ConnectRows(groups[1..], connected);
      ConnectIff(groups[1..], connected, provider);
      assert forall k :: 1 <= k < |groups| ==> groups[k] == groups[1..][k - 1];
      assert Connectable(groups[0], connected) <==> HasMore(groups[0], connected);
      if Connectable(groups[0], connected) && groups[0].id == provider {
        assert ConnectRow(groups[0]) in ConnectRows(groups, connected);
      }
      assert forall r :: r in rest ==> r in ConnectRows(groups, connected);
    }
  }
}
