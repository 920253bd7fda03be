/** Where a snapshot leaves the highlight.  It is documented never to land on the xAI row by itself; with
    a filter typed at the top level it can, and this says exactly when. */
module PickerLanding {
  import opened Text
  import opened Rows
  import opened Picker
  import opened PickerRuns
  import opened PickerKeys
  import PickerRows
  import RowMerge

  predicate OnXai(s: State) {
    Selected(s).Some? && Selected(s).value.kind.Xai?
  }

  /** Among these rows xAI matches the filter, and nothing listed before it does. */
  ghost predicate XaiFirst(s: State, rows: seq<Row>) {
    exists v :: 0 <= v < |rows| && rows[v].kind.Xai? && Matches(s.filter, rows[v])
                && forall j :: 0 <= j < v ==> NothingUnder(s, rows[j])
  }

  ghost predicate NothingUnder(s: State, list: Row) {
    forall row :: LivesUnder(s, list, row) ==> !Matches(s.filter, row)
  }

  /** Whether a snapshot that makes `t` of `s` puts the highlight on xAI.  First the vendor section asked
      for, then the active connection, both only on a first load; then the highlighted row; then the top. */
  ghost predicate LandsOnXai(s: State, t: State) {
    && t.submenu.None?
    && if s.loading && t.focusSubscriptions && FirstVendor(Visible(t)).Some? then false
       else if s.loading && !t.focusSubscriptions && ActiveIndex(t).Some? then t.active == Some(XaiId)
       else if SelectedId(s).Some? && SelectedId(s).value in Ids(Visible(t)) then SelectedId(s) == Some(XaiId)
       else XaiFirst(t, t.rows)
  }

  // ------------------------------------------------------------ the row on top

  lemma {:induction false} FirstShown(s: State, rows: seq<Row>)
    requires PickerRows.VendorLeads(rows)
    ensures TopRows(s, rows) != [] && !TopRows(s, rows)[0].kind.Xai?
  {
    if !rows[0].kind.Vendor? {
      Later(rows);
      if !ShownByDefault(s, rows[0]) { FirstShown(s, rows[1..]); }
    }
  }

  lemma XaiFirstTail(s: State, row: Row, rest: seq<Row>)
    requires XaiFirst(s, [row] + rest) && !(row.kind.Xai? && Matches(s.filter, row))
    ensures NothingUnder(s, row) && XaiFirst(s, rest)
  {
    var rows := [row] + rest;
    var v :| 0 <= v < |rows| && rows[v].kind.Xai? && Matches(s.filter, rows[v])
             && forall j :: 0 <= j < v ==> NothingUnder(s, rows[j]);
    assert v > 0 && rows[0] == row && NothingUnder(s, rows[0]);
    assert rest[v - 1] == rows[v];
    forall j | 0 <= j < v - 1 ensures NothingUnder(s, rest[j]) { assert rest[j] == rows[j + 1]; }
  }

  lemma XaiFirstOver(s: State, row: Row, rest: seq<Row>)
    requires NothingUnder(s, row) && XaiFirst(s, rest)
    ensures XaiFirst(s, [row] + rest)
  {
    var rows := [row] + rest;
    var v :| 0 <= v < |rest| && rest[v].kind.Xai? && Matches(s.filter, rest[v])
             && forall j :: 0 <= j < v ==> NothingUnder(s, rest[j]);
    assert rows[v + 1] == rest[v];
    forall j | 0 <= j < v + 1 ensures NothingUnder(s, rows[j]) { assert j > 0 ==> rows[j] == rest[j - 1]; }
  }

  lemma XaiFirstCons(s: State, row: Row, rest: seq<Row>)
    ensures XaiFirst(s, [row] + rest) <==>
      (row.kind.Xai? && Matches(s.filter, row)) || (NothingUnder(s, row) && XaiFirst(s, rest))
  {
    if row.kind.Xai? && Matches(s.filter, row) {
      assert ([row] + rest)[0] == row;
    } else if XaiFirst(s, [row] + rest) {
      XaiFirstTail(s, row, rest);
    } else if NothingUnder(s, row) && XaiFirst(s, rest) {
      XaiFirstOver(s, row, rest);
    }
  }

  /** The visible rows a listed row contributes: none of them is xAI unless the row is. */
  lemma PieceOnXai(s: State, row: Row)
    requires AllConnects(s.connectRows) && ListKind(row) && ShownByDefault(s, row)
    ensures var piece := Matching(s.filter, [row] + Children(s, row));
      && (piece == [] <==> NothingUnder(s, row))
      && (piece != [] ==> (piece[0].kind.Xai? <==> row.kind.Xai? && Matches(s.filter, row)))
  {
    var all := [row] + Children(s, row);
    var piece := Matching(s.filter, all);
    forall r: Row ensures r in piece <==> LivesUnder(s, row, r) && Matches(s.filter, r) {
      MatchingIff(s.filter, all, r);
    }
    if piece != [] { assert piece[0] in piece; }
    assert row.kind.Xai? ==> Children(s, row) == [];
  }

  lemma HiddenUnder(s: State, row: Row)
    requires !ShownByDefault(s, row)
    ensures NothingUnder(s, row) && !row.kind.Xai?
  {
  }

  lemma {:induction false} FlatFirst(s: State, rows: seq<Row>)
    requires AllConnects(s.connectRows) && forall i :: 0 <= i < |rows| ==> ListKind(rows[i])
    ensures FlatRows(s, rows) != [] && FlatRows(s, rows)[0].kind.Xai? <==> XaiFirst(s, rows)
  {
    if rows != [] {
      var row, rest := rows[0], FlatRows(s, rows[1..]);
      FlatFirst(s, rows[1..]);
      assert rows == [row] + rows[1..];
      XaiFirstCons(s, row, rows[1..]);
      if ShownByDefault(s, row) {
        PieceOnXai(s, row);
        assert FlatRows(s, rows) == Matching(s.filter, [row] + Children(s, row)) + rest;
      } else {
        HiddenUnder(s, row);
        assert FlatRows(s, rows) == [] + rest;
      }
    }
  }

  lemma NotFirstUnfiltered(s: State)
    requires ListOk(s.rows) && !Filtered(s)
    ensures !XaiFirst(s, s.rows)
  {
    var v :| 0 <= v < |s.rows| && s.rows[v].kind.Vendor? && forall j :: 0 <= j < v ==> !s.rows[j].kind.Xai?;
    assert !NothingUnder(s, s.rows[v]) by {
      assert LivesUnder(s, s.rows[v], s.rows[v]) && Matches(s.filter, s.rows[v]);
    }
  }

  /** At the top level xAI is the first visible row exactly when it matches and nothing before it does. */
  lemma TopIsXai(s: State)
    requires Good(s) && s.submenu.None?
    ensures Visible(s) != [] && Visible(s)[0].kind.Xai? <==> XaiFirst(s, s.rows)
  {
    VisibleIs(s);
    if Filtered(s) {
      FlatFirst(s, s.rows);
    } else {
      FirstShown(s, s.rows);
      NotFirstUnfiltered(s);
    }
  }

  // ------------------------------------------------------- each way of selecting

  lemma IsXai(row: Row)
    ensures Id(row) == XaiId <==> row.kind.Xai?
  {
  }

  lemma ByIdOnXai(t: State, id: RowId)
    requires id in Ids(Visible(t))
    ensures OnXai(SelectId(t, Some(id))) <==> id == XaiId
  {
    SelectsId(t, id);
    IsXai(Selected(SelectId(t, Some(id))).value);
  }

  lemma ByTopOnXai(t: State, id: Option<RowId>)
    requires Good(t) && t.submenu.None? && (id.Some? ==> id.value !in Ids(Visible(t)))
    ensures OnXai(SelectId(t, id)) <==> XaiFirst(t, t.rows)
  {
    SameView(t, SelectId(t, id));
    TopIsXai(t);
  }

  lemma ActiveIsXai(t: State)
    requires ActiveIndex(t).Some?
    ensures Visible(t)[ActiveIndex(t).value].kind.Xai? <==> t.active == Some(XaiId)
  {
    var row := Visible(t)[ActiveIndex(t).value];
    assert Id(row) == t.active.value || IsActive(t, row);
    ActiveRowIsXai(t, row);
  }

  lemma ActiveRowIsXai(t: State, row: Row)
    requires t.active.Some? && (Id(row) == t.active.value || IsActive(t, row))
    ensures row.kind.Xai? <==> t.active == Some(XaiId)
  {
  }

  lemma ByActiveOnXai(t: State)
    requires ActiveIndex(t).Some?
    ensures OnXai(SelectActive(t)) <==> t.active == Some(XaiId)
  {
    SameView(t, SelectActive(t));
    ActiveIsXai(t);
  }

  lemma ByVendorOnXai(u: State)
    ensures if FirstVendor(Visible(u)).Some? then !OnXai(SelectFirstVendor(u)) else SelectFirstVendor(u) == u
  {
    SameView(u, SelectFirstVendor(u));
  }

  lemma ClampOnXai(s: State)
    requires SelectionOk(s)
    ensures OnXai(Clamp(s)) <==> OnXai(s)
  {
    SameView(s, Clamp(s));
  }

  lemma ReselectedOnXai(t: State, prev: Option<RowId>, firstLoad: bool)
    requires Good(t) && t.submenu.None?
    ensures OnXai(Reselect(t, prev, firstLoad)) <==>
      if firstLoad && !t.focusSubscriptions && ActiveIndex(t).Some? then t.active == Some(XaiId)
      else if prev.Some? && prev.value in Ids(Visible(t)) then prev == Some(XaiId)
      else XaiFirst(t, t.rows)
    ensures SelectionOk(Reselect(t, prev, firstLoad))
  {
    SameView(t, Reselect(t, prev, firstLoad));
    if firstLoad && !t.focusSubscriptions && ActiveIndex(t).Some? {
      ByActiveOnXai(t);
    } else if prev.Some? && prev.value in Ids(Visible(t)) {
      ByIdOnXai(t, prev.value);
    } else {
      ByTopOnXai(t, prev);
    }
  }

  lemma ClosedOnXai(t: State)
    requires Good(t) && t.submenu.Some?
    ensures !OnXai(CloseSubmenu(t))
  {
    var u := t.(submenu := None, filter := "", parent := None);
    if t.parent.value in Ids(Visible(u)) {
      ByIdOnXai(u, t.parent.value);
    } else {
      ByTopOnXai(u, t.parent);
      NotFirstUnfiltered(u);
    }
  }

  /** No sub-menu lists xAI. */
  lemma InsideOnXai(u: State)
    requires Good(u) && u.submenu.Some?
    ensures !OnXai(u)
  {
    if Selected(u).Some? { VisibleFrom(u, Selected(u).value); }
  }

  lemma SettledInside(t: State, prev: Option<RowId>, firstLoad: bool)
    requires Good(t) && t.submenu.Some?
    ensures !OnXai(Settled(t, prev, firstLoad))
  {
    var closes := Visible(t) == [];
    var u := if closes then CloseSubmenu(t) else Reselect(t, prev, firstLoad);
    var v := if firstLoad && u.focusSubscriptions then SelectFirstVendor(u) else u;
    if closes {
      CloseOk(t);
      ClosedOnXai(t);
    } else {
      ReselectKeeps(t, prev, firstLoad);
      ReselectStays(t, prev, firstLoad);
      InsideOnXai(u);
    }
    ByVendorOnXai(u);
    VendorSelectionOk(u);
    ClampOnXai(v);
  }

  lemma ReselectStays(t: State, prev: Option<RowId>, firstLoad: bool)
    ensures SelectionOk(Reselect(t, prev, firstLoad)) && Reselect(t, prev, firstLoad).submenu == t.submenu
  {
    SameView(t, Reselect(t, prev, firstLoad));
  }

  lemma VendorSelectionOk(u: State)
    requires SelectionOk(u)
    ensures SelectionOk(SelectFirstVendor(u))
  {
    SameView(u, SelectFirstVendor(u));
  }

  lemma Stages(t: State, prev: Option<RowId>, firstLoad: bool)
    requires t.submenu.None?
    ensures var u := Reselect(t, prev, firstLoad);
      && Visible(u) == Visible(t) && u.focusSubscriptions == t.focusSubscriptions
      && Settled(t, prev, firstLoad) == Clamp(if firstLoad && t.focusSubscriptions then SelectFirstVendor(u) else u)
  {
    SameView(t, Reselect(t, prev, firstLoad));
  }

  lemma SettledOutside(s: State, t: State)
    requires Good(t) && t.submenu.None?
    ensures OnXai(Settled(t, SelectedId(s), s.loading)) <==> LandsOnXai(s, t)
  {
    var u := Reselect(t, SelectedId(s), s.loading);
    Stages(t, SelectedId(s), s.loading);
    ReselectedOnXai(t, SelectedId(s), s.loading);
    ByVendorOnXai(u);
    VendorSelectionOk(u);
    ClampOnXai(if s.loading && t.focusSubscriptions then SelectFirstVendor(u) else u);
  }

  lemma LoadedGood(s: State, sources: Option<PickerRows.Sources>, rails: seq<RailState>)
    requires Good(s) && (sources.Some? ==> PickerRows.WellFormed(sources.value))
    ensures var t := Loaded(s, RowsOf(sources), rails);
      && Good(t) && t.submenu == s.submenu && t.filter == s.filter && t.active == s.active
      && t.focusSubscriptions == s.focusSubscriptions
  {
    if sources.Some? { LoadKeepsRows(s, sources.value); }
  }

  lemma ArmingAside(u: State)
    ensures OnXai(u.(armed := false)) <==> OnXai(u)
  {
    SameView(u, u.(armed := false));
  }

  /** Exactly when a snapshot leaves the highlight on xAI. */
  lemma SnapshotOntoXaiIff(s: State, sources: Option<PickerRows.Sources>, rails: seq<RailState>)
    requires Good(s) && (sources.Some? ==> PickerRows.WellFormed(sources.value))
    ensures OnXai(Snapshot(s, RowsOf(sources), rails)) <==> LandsOnXai(s, Loaded(s, RowsOf(sources), rails))
  {
    var t := Loaded(s, RowsOf(sources), rails);
    LoadedGood(s, sources, rails);
    ArmingAside(Settled(t, SelectedId(s), s.loading));
    if t.submenu.Some? { SettledInside(t, SelectedId(s), s.loading); } else { SettledOutside(s, t); }
  }

  /** So with no filter at the top level it does only if the highlight was there, or if xAI is the active
      connection and this is the first load. */
  lemma SnapshotOntoXai(s: State, sources: Option<PickerRows.Sources>, rails: seq<RailState>)
    requires Good(s) && (s.submenu.Some? || !Filtered(s))
    requires sources.Some? ==> PickerRows.WellFormed(sources.value)
    requires OnXai(Snapshot(s, RowsOf(sources), rails))
    ensures OnXai(s) || (s.loading && s.active == Some(XaiId))
  {
    var t := Loaded(s, RowsOf(sources), rails);
    SnapshotOntoXaiIff(s, sources, rails);
    LoadedGood(s, sources, rails);
    NotFirstUnfiltered(t);
    if SelectedId(s) == Some(XaiId) { IsXai(Selected(s).value); }
  }

  // ------------------------------------------------------------- a run in which it does

  lemma {:induction false} LowerAt(s: string, i: nat)
    requires i < |s|
    ensures |Lower(s)| == |s|
    ensures Lower(s)[i] == if 'A' <= s[i] <= 'Z' then s[i] + 32 as char else s[i]
  {
    if i > 0 { LowerAt(s[1..], i - 1); } else { LowerLength(s); }
  }

  lemma {:induction false} LowerLength(s: string)
    ensures |Lower(s)| == |s|
  {
    if s != [] { LowerLength(s[1..]); }
  }

  lemma {:induction false} ContainsXa(hay: string)
    ensures Contains(hay, "xa") <==> exists i :: 0 <= i < |hay| - 1 && hay[i] == 'x' && hay[i + 1] == 'a'
  {
    if hay != [] {
      ContainsXa(hay[1..]);
      assert "xa" <= hay <==> |hay| > 1 && hay[0] == 'x' && hay[1] == 'a';
      if i :| 0 <= i < |hay| - 1 && hay[i] == 'x' && hay[i + 1] == 'a' {
        if i > 0 { assert hay[1..][i - 1] == 'x' && hay[1..][i] == 'a'; }
      }
      if i :| 0 <= i < |hay[1..]| - 1 && hay[1..][i] == 'x' && hay[1..][i + 1] == 'a' {
        assert hay[i + 1] == 'x' && hay[i + 2] == 'a';
      }
    }
  }

  predicate Is(c: char, lower: char, upper: char) { c == lower || c == upper }

  predicate HasXa(s: string) {
    exists i :: 0 <= i < |s| - 1 && Is(s[i], 'x', 'X') && Is(s[i + 1], 'a', 'A')
  }

  lemma LowerHasXa(s: string)
    ensures Contains(Lower(s), "xa") <==> HasXa(s)
  {
    LowerLength(s);
    ContainsXa(Lower(s));
    forall i | 0 <= i < |s|
      ensures (Lower(s)[i] == 'x' <==> Is(s[i], 'x', 'X')) && (Lower(s)[i] == 'a' <==> Is(s[i], 'a', 'A'))
    {
      LowerAt(s, i);
    }
  }

  /** With `xa` typed a row is matched on its title and its provider. */
  lemma MatchesXa(row: Row, title: string, provider: string)
    requires row.hay == PickerRows.Hay(title, provider)
    ensures Matches("xa", row) <==> HasXa(title + " " + provider)
  {
    XaIsOneWord();
    LowerHasXa(title + " " + provider);
    assert ["xa"][1..] == [];
    assert ContainsAll(row.hay, ["xa"]) <==> Contains(row.hay, "xa");
  }

  lemma XaIsOneWord()
    ensures Lower(Trim("xa")) == "xa" && Words("xa") == ["xa"]
  {
    TrimmedAlready("xa");
    assert "xa"[1..] == "a" && "a"[1..] == "" && "" + ['x'] == "x" && "x" + ['a'] == "xa";
    assert Words("xa") == Words("a", "x") == Words("", "xa");
    assert Lower("a") == ['a'] + Lower("");
    assert Lower("xa") == ['x'] + Lower("a");
  }

  lemma VendorXa(rail: Rail)
    ensures !Matches("xa", PickerRows.VendorRow(rail))
  {
    MatchesXa(PickerRows.VendorRow(rail), PickerRows.RailName(rail), "");
  }

  lemma ApiKeysXa()
    ensures !Matches("xa", PickerRows.ApiKeysRow)
  {
    MatchesXa(PickerRows.ApiKeysRow, "API keys", "");
  }

  lemma XaiXa()
    ensures Matches("xa", PickerRows.XaiRow)
  {
    MatchesXa(PickerRows.XaiRow, "xAI", "");
    var t := "xAI" + " " + "";
    assert Is(t[0], 'x', 'X') && Is(t[1], 'a', 'A');
  }

  /** No model and no provider to connect is called anything with `xa`. */
  ghost predicate QuietSources(src: PickerRows.Sources) {
    && (forall r :: r in PickerRows.Pool(src) || r in PickerRows.OpenCode(src) ==> !Matches("xa", r))
    && (forall r :: r in PickerRows.ListedRows(src.groups, src.connected) ==> !Matches("xa", r))
    && (forall r :: r in PickerRows.Connects(src) ==> !Matches("xa", r))
  }

  lemma VendorRowsXa(row: Row)
    requires row in PickerRows.Vendors()
    ensures !Matches("xa", row) && row.kind.Vendor?
  {
    VendorXa(Claude);
    VendorXa(Codex);
    VendorXa(Cursor);
  }

  lemma ListedRow(src: PickerRows.Sources, row: Row)
    requires row in PickerRows.ListRows(src)
    ensures row in PickerRows.Pool(src) || row in PickerRows.OpenCode(src) || row == PickerRows.ApiKeysRow
            || row in PickerRows.ListedRows(src.groups, src.connected) || row in PickerRows.Vendors()
            || row == PickerRows.XaiRow
  {
  }

  lemma OnlyXaiMatches(src: PickerRows.Sources, row: Row)
    requires QuietSources(src) && row in PickerRows.ListRows(src)
    ensures Matches("xa", row) <==> row.kind.Xai?
  {
    ListedRow(src, row);
    ApiKeysXa();
    XaiXa();
    if row in PickerRows.Vendors() { VendorRowsXa(row); }
  }

  lemma QuietRows(src: PickerRows.Sources)
    requires QuietSources(src)
    ensures forall r :: r in PickerRows.ListRows(src) ==> (Matches("xa", r) <==> r.kind.Xai?)
  {
    forall r | r in PickerRows.ListRows(src) ensures Matches("xa", r) <==> r.kind.Xai? { OnlyXaiMatches(src, r); }
  }

  /** At the top level, with everything but xAI and some vendor's models filtered out. */
  ghost predicate OnlyModels(s: State) {
    && Good(s) && s.submenu.None? && Filtered(s) && s.selected == 0 && !s.loading
    && (forall r :: r in s.rows ==> (Matches(s.filter, r) <==> r.kind.Xai?))
    && (forall r :: r in s.connectRows ==> !Matches(s.filter, r))
  }

  lemma MatchedKind(s: State, row: Row)
    requires OnlyModels(s) && row in Visible(s)
    ensures row.kind.Xai? || row.kind.RailModel?
  {
    FilterFinds(s, row);
    var i :| 0 <= i < |s.rows| && LivesUnder(s, s.rows[i], row);
    assert s.rows[i] in s.rows && ListKind(s.rows[i]);
  }

  /** While a vendor listed before xAI has a model that matches, a model is highlighted. */
  lemma ModelHighlighted(s: State, v: nat, model: Row)
    requires OnlyModels(s) && v < |s.rows| && s.rows[v].kind.Vendor? && model in Children(s, s.rows[v])
    requires Matches(s.filter, model) && forall j :: 0 <= j <= v ==> !s.rows[j].kind.Xai?
    ensures Selected(s).Some? && Selected(s).value.kind.RailModel?
  {
    assert LivesUnder(s, s.rows[v], model);
    FilterFinds(s, model);
    MatchedKind(s, Visible(s)[0]);
    assert !NothingUnder(s, s.rows[v]);
    assert !XaiFirst(s, s.rows);
    TopIsXai(s);
  }

  /** The rows a snapshot leaves all come from it, if it has any. */
  lemma LoadedFrom(s: State, sources: Option<PickerRows.Sources>, row: Row)
    requires Good(s) && !s.loading && (sources.Some? ==> PickerRows.WellFormed(sources.value))
    requires row in SetRows(s, RowsOf(sources)).rows
    ensures if sources.Some? then row in PickerRows.ListRows(sources.value) else row in s.rows
  {
    if sources.Some? {
      var src := sources.value;
      PickerRows.SplitRows(src);
      assert PickerRows.AllRows(src)[|PickerRows.AllRows(src)| - 1] == PickerRows.XaiRow;
      RowMerge.MergeContent(s.rows, PickerRows.ListRows(src), row);
    }
  }

  /** Of the rows of a snapshot, too, only xAI matches the filter. */
  ghost predicate OnlyXaiIn(filter: string, sources: Option<PickerRows.Sources>) {
    sources.Some? ==>
      && (forall r :: r in PickerRows.ListRows(sources.value) ==> (Matches(filter, r) <==> r.kind.Xai?))
      && (forall r :: r in PickerRows.Connects(sources.value) ==> !Matches(filter, r))
  }

  lemma StillOnlyXai(s: State, sources: Option<PickerRows.Sources>, rails: seq<RailState>)
    requires OnlyModels(s) && OnlyXaiIn(s.filter, sources)
    requires sources.Some? ==> PickerRows.WellFormed(sources.value)
    ensures var t := Loaded(s, RowsOf(sources), rails);
      && (forall r :: r in t.rows ==> (Matches(s.filter, r) <==> r.kind.Xai?))
      && (forall r :: r in t.connectRows ==> !Matches(s.filter, r))
  {
    if sources.Some? { LoadKeepsRows(s, sources.value); }
    forall r | r in SetRows(s, RowsOf(sources)).rows ensures Matches(s.filter, r) <==> r.kind.Xai? {
      LoadedFrom(s, sources, r);
    }
  }

  /** When that vendor's models go, because it was signed out or its list could not be read, the highlight
      falls on xAI. */
  lemma ModelsGone(s: State, sources: Option<PickerRows.Sources>, rails: seq<RailState>)
    requires OnlyModels(s) && Selected(s).Some? && Selected(s).value.kind.RailModel?
    requires OnlyXaiIn(s.filter, sources) && (sources.Some? ==> PickerRows.WellFormed(sources.value))
    requires rails != [] && forall rail :: VendorRows(rails, rail) == []
    ensures OnXai(Next(s, Load(sources, rails)))
  {
    var t := Loaded(s, RowsOf(sources), rails);
    LoadedGood(s, sources, rails);
    StillOnlyXai(s, sources, rails);
    GoneFrom(s, t);
    SnapshotOntoXaiIff(s, sources, rails);
  }

  lemma GoneFrom(s: State, t: State)
    requires OnlyModels(s) && Selected(s).Some? && Selected(s).value.kind.RailModel?
    requires Good(t) && t.submenu.None? && t.filter == s.filter && forall rail :: VendorRows(t.rails, rail) == []
    requires forall r :: r in t.rows ==> (Matches(t.filter, r) <==> r.kind.Xai?)
    requires forall r :: r in t.connectRows ==> !Matches(t.filter, r)
    ensures LandsOnXai(s, t)
  {
    forall r | r in Visible(t) ensures Id(r) != Id(Selected(s).value) { NoModelsLeft(t, r); }
    OnlyXaiLeft(t);
  }

  lemma NoModelsLeft(t: State, row: Row)
    requires Good(t) && t.submenu.None? && Filtered(t) && row in Visible(t)
    requires forall rail :: VendorRows(t.rails, rail) == []
    ensures !row.kind.RailModel?
  {
    FilterFinds(t, row);
    var i :| 0 <= i < |t.rows| && LivesUnder(t, t.rows[i], row);
    assert ListKind(t.rows[i]);
  }

  lemma OnlyXaiLeft(t: State)
    requires Good(t) && (forall rail :: VendorRows(t.rails, rail) == [])
    requires forall r :: r in t.rows ==> (Matches(t.filter, r) <==> r.kind.Xai?)
    requires forall r :: r in t.connectRows ==> !Matches(t.filter, r)
    ensures XaiFirst(t, t.rows)
  {
    var v := Position(t.rows, XaiId).value;
    IsXai(t.rows[v]);
    forall j | 0 <= j < v ensures NothingUnder(t, t.rows[j]) {
      IsXai(t.rows[j]);
      assert t.rows[j] in t.rows;
    }
  }

  /** A first load of `one` finds `ready`, the user types `xa`, a later load of `two` finds `gone`. */
  function SigningOut(
    one: PickerRows.Sources, ready: seq<RailState>, two: PickerRows.Sources, gone: seq<RailState>): seq<Event>
  {
    [Load(Some(one), ready), Key(Typed('x'), false), Key(Typed('a'), false), Load(Some(two), gone)]
  }

  lemma SettledElse(t: State, prev: Option<RowId>, firstLoad: bool)
    requires t.submenu.None?
    ensures var u := Settled(t, prev, firstLoad);
      && u.submenu.None? && u.loading == t.loading && u.active == t.active && u.filter == t.filter
      && u.keyEntry == t.keyEntry && u.rows == t.rows && u.connectRows == t.connectRows && u.rails == t.rails
  {
    assert SameElse(t, Settled(t, prev, firstLoad)) by {
      Stages(t, prev, firstLoad);
      var u := Reselect(t, prev, firstLoad);
      ReselectSame(t, prev, firstLoad);
      VendorSame(u);
      ClampSame(if firstLoad && t.focusSubscriptions then SelectFirstVendor(u) else u);
    }
  }

  /** Nothing but the selection differs. */
  predicate SameElse(t: State, u: State) {
    u == t.(selected := u.selected)
  }

  lemma ReselectSame(t: State, prev: Option<RowId>, firstLoad: bool)
    ensures SameElse(t, Reselect(t, prev, firstLoad))
  {
  }

  lemma VendorSame(t: State)
    ensures SameElse(t, SelectFirstVendor(t))
  {
  }

  lemma ClampSame(t: State)
    ensures SameElse(t, Clamp(t))
  {
  }

  lemma FreshElse(src: PickerRows.Sources, s: State)
    requires s == Fresh(src, None)
    ensures s.submenu.None? && s.loading && s.active.None? && s.filter == "" && s.keyEntry.None?
  {
  }

  lemma FirstLoad(src: PickerRows.Sources, s: State, t: State, one: PickerRows.Sources, ready: seq<RailState>)
    requires s == Fresh(src, None) && t == Next(s, Load(Some(one), ready)) && ready != []
    ensures t.rows == PickerRows.ListRows(one) && t.connectRows == PickerRows.Connects(one) && t.rails == ready
    ensures t.submenu.None? && !t.loading && t.active.None? && t.filter == "" && t.keyEntry.None?
  {
    FreshElse(src, s);
    PickerRows.SplitRows(one);
    assert PickerRows.AllRows(one)[|PickerRows.AllRows(one)| - 1] == PickerRows.XaiRow;
    SettledElse(Loaded(s, PickerRows.AllRows(one), ready), SelectedId(s), s.loading);
  }

  lemma TypedXa(s1: State, s2: State, s3: State)
    requires s1.keyEntry.None? && s1.filter == ""
    requires s2 == Next(s1, Key(Typed('x'), false)) && s3 == Next(s2, Key(Typed('a'), false))
    ensures s3 == s1.(filter := "xa", selected := 0, armed := false)
  {
    assert "" + ['x'] == "x" && "x" + ['a'] == "xa";
  }

  lemma AfterLoad(src: PickerRows.Sources, one: PickerRows.Sources, ready: seq<RailState>, states: seq<State>,
                  events: seq<Event>)
    requires IsRun(src, None, states, events) && ready != [] && events != [] && events[0] == Load(Some(one), ready)
    ensures var s := states[1];
      && s.rows == PickerRows.ListRows(one) && s.connectRows == PickerRows.Connects(one) && s.rails == ready
      && s.submenu.None? && !s.loading && s.active.None? && s.filter == "" && s.keyEntry.None?
  {
    assert StateAt(src, None, states, events, 0) && StateAt(src, None, states, events, 1);
    FirstLoad(src, states[0], states[1], one, ready);
  }

  lemma WhileTyping(src: PickerRows.Sources, states: seq<State>, events: seq<Event>)
    requires IsRun(src, None, states, events) && |events| > 2 && states[1].keyEntry.None? && states[1].filter == ""
    requires events[1] == Key(Typed('x'), false) && events[2] == Key(Typed('a'), false)
    ensures states[3] == states[1].(filter := "xa", selected := 0, armed := false)
  {
    assert StateAt(src, None, states, events, 2) && StateAt(src, None, states, events, 3);
    TypedXa(states[1], states[2], states[3]);
  }

  lemma QuietState(s: State, one: PickerRows.Sources)
    requires Good(s) && QuietSources(one) && s.rows == PickerRows.ListRows(one)
    requires s.connectRows == PickerRows.Connects(one)
    requires s.submenu.None? && s.filter == "xa" && s.selected == 0 && !s.loading
    ensures OnlyModels(s)
  {
    TrimmedAlready("xa");
    QuietRows(one);
  }

  lemma ClaudeLeads(src: PickerRows.Sources) returns (v: nat)
    ensures var rows := PickerRows.ListRows(src);
      v < |rows| && rows[v] == PickerRows.VendorRow(Claude) && forall j :: 0 <= j <= v ==> !rows[j].kind.Xai?
  {
    var rows := PickerRows.ListRows(src);
    PickerRows.FixedRows(src);
    assert PickerRows.VendorRow(Claude) in rows;
    v :| 0 <= v < |rows| && rows[v] == PickerRows.VendorRow(Claude);
  }

  lemma ClaudeHighlighted(s: State, one: PickerRows.Sources, model: Row)
    requires OnlyModels(s) && s.rows == PickerRows.ListRows(one)
    requires model in VendorRows(s.rails, Claude) && Matches(s.filter, model)
    ensures Selected(s).Some? && Selected(s).value.kind.RailModel?
  {
    var v := ClaudeLeads(one);
    ModelHighlighted(s, v, model);
  }

  lemma AfterTyping(
    src: PickerRows.Sources, one: PickerRows.Sources, ready: seq<RailState>, model: Row, states: seq<State>,
    events: seq<Event>)
    requires IsRun(src, None, states, events) && |events| > 2 && events[0] == Load(Some(one), ready)
    requires events[1] == Key(Typed('x'), false) && events[2] == Key(Typed('a'), false)
    requires QuietSources(one) && model in VendorRows(ready, Claude) && Matches("xa", model) && Good(states[3])
    ensures var s := states[3];
      && OnlyModels(s) && s.filter == "xa" && s.active.None? && !s.loading
      && Selected(s).Some? && Selected(s).value.kind.RailModel?
  {
    AfterLoad(src, one, ready, states, events);
    WhileTyping(src, states, events);
    QuietState(states[3], one);
    ClaudeHighlighted(states[3], one, model);
  }

  lemma GoodTyping(
    src: PickerRows.Sources, one: PickerRows.Sources, ready: seq<RailState>, two: PickerRows.Sources,
    gone: seq<RailState>, states: seq<State>)
    requires IsRun(src, None, states, SigningOut(one, ready, two, gone))
    requires PickerRows.WellFormed(one) && PickerRows.WellFormed(two)
    ensures Good(states[3])
  {
    SelectionAlwaysOk(src, None, states, SigningOut(one, ready, two, gone), 3);
  }

  /** From any new picker, with loads as the host makes them: Claude turns out to be signed in and to offer a
      model that matches `xa`; typing `xa` highlights a model; once no vendor has models any more the
      highlight is on xAI, which nobody chose and which is not the active connection. */
  lemma FilterLandsOnXai(
    src: PickerRows.Sources, one: PickerRows.Sources, ready: seq<RailState>, two: PickerRows.Sources,
    gone: seq<RailState>, model: Row, states: seq<State>)
    requires IsRun(src, None, states, SigningOut(one, ready, two, gone))
    requires PickerRows.WellFormed(one) && PickerRows.WellFormed(two) && QuietSources(one) && QuietSources(two)
    requires model in VendorRows(ready, Claude) && Matches("xa", model)
    requires gone != [] && forall rail :: VendorRows(gone, rail) == []
    ensures Selected(states[3]).Some? && Selected(states[3]).value.kind.RailModel?
    ensures states[3].active.None? && !states[3].loading && OnXai(states[4])
  {
    var events := SigningOut(one, ready, two, gone);
    GoodTyping(src, one, ready, two, gone, states);
    AfterTyping(src, one, ready, model, states, events);
    QuietRows(two);
    assert StateAt(src, None, states, events, 4);
    ModelsGone(states[3], Some(two), gone);
  }
}
