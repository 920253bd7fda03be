/** Runs of the picker: keys, snapshots, changes of focus and key prompts in any order. */
module PickerRuns {
  import opened Text
  import opened Rows
  import opened Picker
  import opened Seqs
  import PickerRows
  import RowMerge

  datatype Event =
    | Key(input: Input, late: bool)
    | Load(sources: Option<PickerRows.Sources>, rails: seq<RailState>)
    | Refocus(focus: Focus)
    | Prompt(provider: string)
    | Reload    // the host starts loading again: a refresh, a saved key, a finished login

  /** Snapshots carry no rows, or those of a well-formed catalog. */
  ghost predicate Legal(e: Event) {
    e.Load? && e.sources.Some? ==> PickerRows.WellFormed(e.sources.value)
  }

  function RowsOf(sources: Option<PickerRows.Sources>): seq<Row> {
    match sources case None => [] case Some(s) => PickerRows.AllRows(s)
  }

  function Step(s: State, e: Event): (State, Outcome) {
    match e
    case Key(input, late) => Handled(s, input, late)
    case Load(sources, rails) => (Snapshot(s, RowsOf(sources), rails), Changed)
    case Refocus(focus) => (Focused(s, focus), Changed)
    case Prompt(provider) => (s.(keyEntry := Some(KeyEntry(provider, ""))), Changed)
    case Reload => (s.(loading := true), Changed)
  }

  function Next(s: State, e: Event): State { Step(s, e).0 }

  /** The state before the `i`-th event. */
  ghost predicate StateAt(
    src: PickerRows.Sources, active: Option<RowId>, states: seq<State>, events: seq<Event>, i: nat)
    requires i <= |events| < |states|
  {
    if i == 0 then PickerRows.Unloaded(src) && states[0] == Fresh(src, active)
    else states[i] == Next(states[i - 1], events[i - 1])
  }

  /** The states a new picker goes through. */
  ghost predicate IsRun(src: PickerRows.Sources, active: Option<RowId>, states: seq<State>, events: seq<Event>) {
    |states| == |events| + 1 && forall i: nat :: i <= |events| ==> StateAt(src, active, states, events, i)
  }

  // -------------------------------------------------------- what every run keeps

  predicate ListKind(r: Row) {
    r.kind.Catalog? || r.kind.Engine? || r.kind.Vendor? || r.kind.ApiKeys? || r.kind.Xai?
  }

  predicate ListOk(rows: seq<Row>) {
    && DistinctIds(rows)
    && PickerRows.VendorLeads(rows)
    && XaiId in Ids(rows)
    && forall i :: 0 <= i < |rows| ==> ListKind(rows[i])
  }

  /** The selection is the first row or a visible one. */
  predicate SelectionOk(s: State) {
    s.selected == 0 || s.selected < |Visible(s)|
  }

  predicate OpensSomething(id: RowId) { id.EngineId? || id.VendorId? || id.ApiKeysId? }

  predicate AllConnects(rows: seq<Row>) {
    forall i :: 0 <= i < |rows| ==> rows[i].kind.Connect?
  }

  /** An open sub-menu was opened from a row that opens something. */
  predicate ParentOk(s: State) {
    s.submenu.Some? ==> s.parent.Some? && OpensSomething(s.parent.value)
  }

  predicate Good(s: State) {
    ListOk(s.rows) && AllConnects(s.connectRows) && ParentOk(s)
  }

  /** The rows stay, and so does what `ParentOk` says. */
  predicate Keeps(s: State, t: State) {
    && t.rows == s.rows && t.connectRows == s.connectRows && t.rails == s.rails && t.active == s.active
    && (ParentOk(s) ==> ParentOk(t))
  }

  lemma ListRowsOk(src: PickerRows.Sources)
    requires PickerRows.WellFormed(src)
    ensures ListOk(PickerRows.ListRows(src))
  {
    var rows := PickerRows.ListRows(src);
    assert DistinctIds(rows) by { PickerRows.ListDistinct(src); }
    assert PickerRows.VendorLeads(rows) by { PickerRows.FixedRows(src); }
    assert XaiId in Ids(rows) by { assert Id(rows[|rows| - 1]) == XaiId; }
    assert forall i :: 0 <= i < |rows| ==> ListKind(rows[i]) by { ListKinds(PickerRows.Head(src), src); }
  }

  lemma ListKinds(head: seq<Row>, src: PickerRows.Sources)
    requires head == PickerRows.Head(src)
    ensures forall i :: 0 <= i < |head + [PickerRows.XaiRow]| ==> ListKind((head + [PickerRows.XaiRow])[i])
  {
  }

  lemma {:induction false} SurvivorsLead(shown: seq<Row>, latest: seq<Row>)
    requires PickerRows.VendorLeads(shown) && forall rail :: VendorId(rail) in Ids(latest)
    ensures PickerRows.VendorLeads(RowMerge.Survivors(shown, latest))
  {
    var rest := shown[1..];
    var at := Position(latest, Id(shown[0]));
    if shown[0].kind.Vendor? {
      assert at.Some?;
      assert RowMerge.Survivors(shown, latest)[0].kind.Vendor?;
    } else {
      Later(shown);
      SurvivorsLead(rest, latest);
      if at.Some? { Leading(latest[at.value], RowMerge.Survivors(rest, latest)); }
    }
  }

  lemma Later(shown: seq<Row>)
    requires PickerRows.VendorLeads(shown) && !shown[0].kind.Vendor?
    ensures PickerRows.VendorLeads(shown[1..]) && !shown[0].kind.Xai?
  {
    var v :| 0 <= v < |shown| && shown[v].kind.Vendor? && forall j :: 0 <= j < v ==> !shown[j].kind.Xai?;
    assert shown[1..][v - 1] == shown[v];
  }

  lemma Leading(row: Row, rows: seq<Row>)
    requires PickerRows.VendorLeads(rows) && !row.kind.Xai?
    ensures PickerRows.VendorLeads([row] + rows)
  {
    var v :| 0 <= v < |rows| && rows[v].kind.Vendor? && forall j :: 0 <= j < v ==> !rows[j].kind.Xai?;
    assert ([row] + rows)[v + 1] == rows[v];
  }

  lemma InsertLeads(rows: seq<Row>, row: Row)
    requires PickerRows.VendorLeads(rows) && !row.kind.Xai?
    ensures PickerRows.VendorLeads(RowMerge.Insert(rows, row))
  {
    var v :| 0 <= v < |rows| && rows[v].kind.Vendor? && forall j :: 0 <= j < v ==> !rows[j].kind.Xai?;
    var out, at := RowMerge.Insert(rows, row), RowMerge.LastOfGroup(rows, row.group);
    assert out[if at.Some? && at.value < v then v + 1 else v] == rows[v];
  }

  lemma {:induction false} InsertAllLeads(rows: seq<Row>, more: seq<Row>)
    requires PickerRows.VendorLeads(rows) && forall r :: r in more ==> !r.kind.Xai?
    ensures PickerRows.VendorLeads(RowMerge.InsertAll(rows, more))
    decreases |more|
  {
    if more != [] {
      InsertLeads(rows, more[0]);
      InsertAllLeads(RowMerge.Insert(rows, more[0]), more[1..]);
    }
  }

  lemma MergeOk(shown: seq<Row>, latest: seq<Row>)
    requires ListOk(shown) && ListOk(latest) && forall rail :: VendorId(rail) in Ids(latest)
    ensures ListOk(RowMerge.Merge(shown, latest))
  {
    var kept, out := RowMerge.Survivors(shown, latest), RowMerge.Merge(shown, latest);
    assert DistinctIds(out) && XaiId in Ids(out) by { RowMerge.MergeIds(shown, latest); }
    forall i | 0 <= i < |out| ensures ListKind(out[i]) { RowMerge.MergeContent(shown, latest, out[i]); }
    MergeLeads(shown, latest);
  }

  lemma MergeLeads(shown: seq<Row>, latest: seq<Row>)
    requires PickerRows.VendorLeads(shown) && XaiId in Ids(shown) && XaiId in Ids(latest)
    requires forall rail :: VendorId(rail) in Ids(latest)
    ensures PickerRows.VendorLeads(RowMerge.Merge(shown, latest))
  {
    var kept := RowMerge.Survivors(shown, latest);
    var news := RowMerge.News(Ids(kept), latest);
    SurvivorsLead(shown, latest);
    forall r | r in news ensures !r.kind.Xai? { Listed(news, r); }
    InsertAllLeads(kept, news);
  }

  lemma VendorListed(rows: seq<Row>, rail: Rail)
    requires PickerRows.VendorRow(rail) in rows
    ensures VendorId(rail) in Ids(rows)
  {
    Listed(rows, PickerRows.VendorRow(rail));
  }

  lemma Listed(rows: seq<Row>, row: Row)
    requires row in rows
    ensures Id(row) in Ids(rows)
  {
  }

  /** A snapshot's rows leave a well-formed list, whether they replace what was shown or merge into it. */
  lemma LoadKeepsRows(s: State, src: PickerRows.Sources)
    requires PickerRows.WellFormed(src) && (s.loading || ListOk(s.rows))
    ensures ListOk(SetRows(s, PickerRows.AllRows(src)).rows)
    ensures SetRows(s, PickerRows.AllRows(src)).connectRows == PickerRows.Connects(src)
  {
    var list := PickerRows.ListRows(src);
    PickerRows.SplitRows(src);
    assert PickerRows.AllRows(src)[|PickerRows.AllRows(src)| - 1] == PickerRows.XaiRow;
    ListRowsOk(src);
    if !s.loading {
      assert forall rail :: PickerRows.VendorRow(rail) in list by { PickerRows.FixedRows(src); }
      forall rail ensures VendorId(rail) in Ids(list) { VendorListed(list, rail); }
      MergeOk(s.rows, list);
    }
  }

  // ----------------------------------------------------------- what is visible

  lemma {:induction false} SameTop(s: State, t: State, rows: seq<Row>)
    requires SameList(s, t)
    ensures TopRows(s, rows) == TopRows(t, rows)
  {
    if rows != [] { SameTop(s, t, rows[1..]); }
  }

  lemma {:induction false} SameFlat(s: State, t: State, rows: seq<Row>)
    requires SameList(s, t)
    ensures FlatRows(s, rows) == FlatRows(t, rows)
  {
    if rows != [] { SameFlat(s, t, rows[1..]); }
  }

  lemma VisibleIs(s: State)
    ensures Visible(s) == RowsShown(s)
  {
    SameTop(s, Plain(s), s.rows);
    SameFlat(s, Plain(s), s.rows);
  }

  // ------------------------------------------------------------------ selection

  lemma {:induction false} TopRowsHas(s: State, rows: seq<Row>, row: Row)
    requires row in rows && ShownByDefault(s, row)
    ensures row in TopRows(s, rows)
  {
    if row == rows[0] {
      assert TopRows(s, rows)[0] == row;
    } else {
      TopRowsHas(s, rows[1..], row);
    }
  }

  /** Where a row of the unfiltered list comes from. */
  lemma {:induction false} TopRowsFrom(s: State, rows: seq<Row>, row: Row)
    requires row in TopRows(s, rows)
    ensures row.kind.RailModel? || (row in rows && ShownByDefault(s, row))
  {
    if row in TopRows(s, rows[1..]) { TopRowsFrom(s, rows[1..], row); }
  }

  lemma {:induction false} FlatRowsFrom(s: State, rows: seq<Row>, row: Row)
    requires row in FlatRows(s, rows)
    requires AllConnects(s.connectRows)
    ensures row.kind.RailModel? || row.kind.Connect? || (row in rows && ShownByDefault(s, row))
  {
    if row in FlatRows(s, rows[1..]) {
      FlatRowsFrom(s, rows[1..], row);
    } else {
      assert row in Matching(s.filter, [rows[0]] + Children(s, rows[0]));
    }
  }

  /** Only rows of the list can open anything, and only the list shows the xAI row. */
  lemma VisibleFrom(s: State, row: Row)
    requires Good(s) && row in Visible(s)
    ensures row.kind.RailModel? || row.kind.Connect? || (row.kind.Effort? && s.submenu.Some?)
            || (s.submenu.None? && row in s.rows && ShownByDefault(s, row))
  {
    VisibleIs(s);
    if s.submenu.None? {
      if Filtered(s) { FlatRowsFrom(s, s.rows, row); } else { TopRowsFrom(s, s.rows, row); }
    }
  }

  lemma VendorVisible(s: State)
    requires ListOk(s.rows) && s.submenu.None? && s.filter == ""
    ensures FirstVendor(Visible(s)).Some?
  {
    VisibleIs(s);
    var v :| 0 <= v < |s.rows| && s.rows[v].kind.Vendor?;
    TopRowsHas(s, s.rows, s.rows[v]);
  }

  lemma {:induction false} StartsBound(rows: seq<Row>, grouped: bool, current: Option<string>, n: nat, i: nat)
    requires i in Starts(Lines(rows, grouped, current), n, false)
    ensures n <= i < n + |rows|
  {
    var lines := Lines(rows, grouped, current);
    if rows != [] {
      if grouped && !rows[0].kind.RailModel? && current != Some(rows[0].group) {
        var rest := Lines(rows[1..], grouped, Some(rows[0].group));
        assert lines[1..] == [Item(rows[0])] + rest && lines[1..][1..] == rest;
        if i != n { StartsBound(rows[1..], grouped, Some(rows[0].group), n + 1, i); }
      } else {
        assert lines[1..] == Lines(rows[1..], grouped, current);
        StartsBound(rows[1..], grouped, current, n + 1, i);
      }
    }
  }

  lemma JumpOk(s: State, forward: bool)
    requires SelectionOk(s)
    ensures SelectionOk(JumpSection(s, forward)) && Visible(JumpSection(s, forward)) == Visible(s)
  {
    var t := TabTarget(s, forward);
    if t.Some? { StartsBound(Visible(s), !Filtered(s) && s.submenu.None?, None, 0, t.value); }
    SameView(s, JumpSection(s, forward));
  }

  /** What is visible does not depend on the highlight, the armed flag or the prompt. */
  predicate SameList(s: State, t: State) {
    t == s.(selected := t.selected, armed := t.armed, keyEntry := t.keyEntry, parent := t.parent, loading := t.loading,
            focusSubscriptions := t.focusSubscriptions)
  }

  lemma SameView(s: State, t: State)
    requires SameList(s, t)
    ensures Visible(s) == Visible(t)
  {
    assert Plain(s) == Plain(t);
  }

  lemma SelectActiveOk(s: State)
    requires SelectionOk(s)
    ensures SelectionOk(SelectActive(s))
  {
    SameView(s, SelectActive(s));
  }

  lemma SelectIdOk(s: State, id: Option<RowId>)
    ensures SelectionOk(SelectId(s, id))
  {
    SameView(s, SelectId(s, id));
  }

  lemma SelectFirstVendorOk(s: State)
    requires FirstVendor(Visible(s)).Some?
    ensures SelectionOk(SelectFirstVendor(s))
  {
    SameView(s, SelectFirstVendor(s));
  }

  lemma ClampOk(s: State)
    ensures SelectionOk(Clamp(s))
  {
    SameView(s, Clamp(s));
  }

  lemma MovedOk(s: State, input: Input)
    requires SelectionOk(s)
    ensures SelectionOk(s.(selected := Moved(s, input), armed := false))
  {
    SameView(s, s.(selected := Moved(s, input), armed := false));
  }

  lemma DisarmedOk(s: State, armed: bool)
    requires SelectionOk(s)
    ensures SelectionOk(s.(armed := armed))
  {
    SameView(s, s.(armed := armed));
  }

  lemma FocusedOk(s: State, focus: Focus)
    requires ListOk(s.rows)
    ensures Keeps(s, Focused(s, focus)) && SelectionOk(Focused(s, focus))
  {
    var t := s.(submenu := None, parent := None, armed := false);
    match focus
    case Models(filter) => SelectActiveOk(t.(focusSubscriptions := false, filter := filter, selected := 0));
    case Subscriptions =>
      VendorVisible(t.(focusSubscriptions := true, filter := ""));
      SelectFirstVendorOk(t.(focusSubscriptions := true, filter := ""));
  }

  lemma OpenOk(s: State, from: Row, submenu: Submenu)
    requires OpensSomething(Id(from))
    ensures Keeps(s, OpenSubmenu(s, from, submenu)) && SelectionOk(OpenSubmenu(s, from, submenu))
  {
    SelectActiveOk(s.(parent := Some(Id(from)), submenu := Some(submenu), filter := "", armed := false, selected := 0));
  }

  lemma VendorOk(s: State, row: Row, rail: Rail, late: bool)
    requires row.kind == Vendor(rail) && SelectionOk(s)
    ensures Keeps(s, EnteredVendor(s, row, rail, late).0) && SelectionOk(EnteredVendor(s, row, rail, late).0)
  {
    OpenOk(s, row, OfVendor(rail));
  }

  lemma EnteredOk(s: State, row: Row, late: bool)
    requires SelectionOk(s)
    ensures Keeps(s, Entered(s, row, late).0) && SelectionOk(Entered(s, row, late).0)
  {
    match row.kind
    case Xai => DisarmedOk(s, true);
    case Engine(m) => OpenOk(s, row, OfEffort(m));
    case ApiKeys => OpenOk(s, row, OfApiKeys);
    case Vendor(rail) => VendorOk(s, row, rail, late);
    case _ =>
  }

  lemma CloseOk(s: State)
    ensures Keeps(s, CloseSubmenu(s)) && SelectionOk(CloseSubmenu(s))
  {
    SelectIdOk(s.(submenu := None, filter := "", parent := None), s.parent);
  }

  lemma BackOk(s: State)
    requires SelectionOk(s)
    ensures Keeps(s, BackedOut(s).0) && SelectionOk(BackedOut(s).0)
  {
    if s.filter != "" {
      SelectActiveOk(s.(filter := "", selected := 0));
    } else if s.armed {
      DisarmedOk(s, false);
    } else if s.submenu.Some? {
      CloseOk(s);
    }
  }

  lemma LeftOk(s: State)
    requires SelectionOk(s)
    ensures var t := (if s.submenu.Some? then CloseSubmenu(s) else s).(armed := false); Keeps(s, t) && SelectionOk(t)
  {
    if s.submenu.Some? { CloseOk(s); }
    DisarmedOk(if s.submenu.Some? then CloseSubmenu(s) else s, false);
  }

  lemma EnterOk(s: State, openOnly: bool, late: bool)
    requires SelectionOk(s)
    ensures Keeps(s, EnteredSelected(s, openOnly, late).0) && SelectionOk(EnteredSelected(s, openOnly, late).0)
  {
    if Selected(s).Some? { EnteredOk(s, Selected(s).value, late); }
  }

  lemma EntryOk(s: State, input: Input, late: bool)
    requires SelectionOk(s) && s.keyEntry.Some?
    ensures Keeps(s, Handled(s, input, late).0) && SelectionOk(Handled(s, input, late).0)
  {
    var entry := Entry(s.keyEntry.value, input).0;
    assert Handled(s, input, late).0 == s.(keyEntry := entry);
    SameView(s, s.(keyEntry := entry));
  }

  lemma ToggleOk(s: State)
    ensures Keeps(s, Toggled(s)) && SelectionOk(Toggled(s))
  {
    SelectIdOk(s.(showAll := !s.showAll), SelectedId(s));
  }

  lemma EditOk(s: State, input: Input, late: bool)
    requires SelectionOk(s) && s.keyEntry.None?
    requires input.Typed? || input.Backspace? || input.Refresh? || input.Paste?
    ensures Keeps(s, Handled(s, input, late).0) && SelectionOk(Handled(s, input, late).0)
  {
  }

  lemma KeyOk(s: State, input: Input, late: bool)
    requires SelectionOk(s)
    ensures Keeps(s, Handled(s, input, late).0) && SelectionOk(Handled(s, input, late).0)
  {
    if s.keyEntry.Some? {
      EntryOk(s, input, late);
    } else {
      match input
      case Typed(_) => EditOk(s, input, late);
      case Backspace => EditOk(s, input, late);
      case Refresh => EditOk(s, input, late);
      case Paste(_) => EditOk(s, input, late);
      case ToggleShowAll => ToggleOk(s);
      case NextSection => JumpOk(s, true);
      case PrevSection => JumpOk(s, false);
      case Left => LeftOk(s);
      case Back => BackOk(s);
      case Open => EnterOk(s, true, late);
      case Enter => EnterOk(s, false, late);
      case _ => MovedOk(s, input);
    }
  }

  lemma ReselectKeeps(t: State, prev: Option<RowId>, firstLoad: bool)
    ensures Keeps(t, Reselect(t, prev, firstLoad))
  {
  }

  lemma FirstVendorKeeps(t: State)
    ensures Keeps(t, SelectFirstVendor(t))
  {
  }

  lemma ClampKeeps(t: State)
    ensures Keeps(t, Clamp(t)) && SelectionOk(Clamp(t))
  {
    ClampOk(t);
  }

  lemma SettledOk(t: State, prev: Option<RowId>, firstLoad: bool)
    ensures Keeps(t, Settled(t, prev, firstLoad)) && SelectionOk(Settled(t, prev, firstLoad))
  {
    var closes := t.submenu.Some? && Visible(t) == [];
    var u := if closes then CloseSubmenu(t) else Reselect(t, prev, firstLoad);
    if closes { CloseOk(t); } else { ReselectKeeps(t, prev, firstLoad); }
    var v := if firstLoad && u.focusSubscriptions then SelectFirstVendor(u) else u;
    FirstVendorKeeps(u);
    ClampKeeps(v);
  }

  lemma LoadOk(s: State, sources: Option<PickerRows.Sources>, rails: seq<RailState>)
    requires Good(s) && (sources.Some? ==> PickerRows.WellFormed(sources.value))
    ensures Good(Snapshot(s, RowsOf(sources), rails)) && SelectionOk(Snapshot(s, RowsOf(sources), rails))
  {
    if sources.Some? { LoadKeepsRows(s, sources.value); }
    var t := Loaded(s, RowsOf(sources), rails);
    SettledOk(t, SelectedId(s), s.loading);
    DisarmedOk(Settled(t, SelectedId(s), s.loading), false);
  }

  lemma StepOk(s: State, e: Event)
    requires Good(s) && SelectionOk(s) && Legal(e)
    ensures Good(Next(s, e)) && SelectionOk(Next(s, e))
  {
    match e
    case Key(input, late) => KeyOk(s, input, late);
    case Load(sources, rails) => LoadOk(s, sources, rails);
    case Refocus(focus) => FocusedOk(s, focus);
    case Prompt(_) => SameView(s, Next(s, e));
    case Reload => SameView(s, Next(s, e));
  }

  lemma FreshOk(src: PickerRows.Sources, active: Option<RowId>)
    requires PickerRows.WellFormed(src)
    ensures Good(Fresh(src, active)) && SelectionOk(Fresh(src, active))
  {
    LoadKeepsRows(Unfilled, src);
    var s := SetRows(Unfilled, PickerRows.AllRows(src));
    SelectActiveOk(s.(active := active));
  }

  /** A new picker lists the seed, the vendors, `API keys` if there is a provider to connect, and xAI; those
      providers are in its sub-menu from the start. */
  lemma FreshRows(src: PickerRows.Sources, active: Option<RowId>)
    ensures Fresh(src, active).rows == PickerRows.ListRows(src)
    ensures Fresh(src, active).connectRows == PickerRows.Connects(src)
  {
    PickerRows.SplitRows(src);
    assert PickerRows.AllRows(src)[|PickerRows.AllRows(src)| - 1] == PickerRows.XaiRow;
  }

  lemma StartOk(src: PickerRows.Sources, active: Option<RowId>, states: seq<State>, events: seq<Event>)
    requires IsRun(src, active, states, events)
    ensures Good(states[0]) && SelectionOk(states[0])
  {
    assert StateAt(src, active, states, events, 0);
    FreshOk(src, active);
  }

  lemma GoodNext(src: PickerRows.Sources, active: Option<RowId>, states: seq<State>, events: seq<Event>, n: nat)
    requires IsRun(src, active, states, events) && n < |events| && forall e :: e in events ==> Legal(e)
    requires Good(states[n]) && SelectionOk(states[n])
    ensures Good(states[n + 1]) && SelectionOk(states[n + 1])
  {
    assert StateAt(src, active, states, events, n + 1);
    StepOk(states[n], events[n]);
  }

  /** In every run of a new picker the selection is the first row or a visible one. */
  lemma {:induction false} SelectionAlwaysOk(
    src: PickerRows.Sources, active: Option<RowId>, states: seq<State>, events: seq<Event>, n: nat)
    requires IsRun(src, active, states, events) && n <= |events| && forall e :: e in events ==> Legal(e)
    ensures Good(states[n]) && SelectionOk(states[n])
  {
    if n == 0 {
      StartOk(src, active, states, events);
    } else {
      SelectionAlwaysOk(src, active, states, events, n - 1);
      GoodNext(src, active, states, events, n - 1);
    }
  }

  // ------------------------------------------------------- the picker itself, run

  /** One event, on the picker. */
  method Feed(picker: PickerState, e: Event) returns (out: Outcome)
    modifies picker
    ensures (picker.Now(), out) == Step(old(picker.Now()), e)
  {
    out := Changed;
    match e {
      case Key(input, late) => out := picker.Handle(input, late);
      case Load(None, rails) => picker.ApplySnapshot([], rails);
      case Load(Some(sources), rails) =>
        var rows := PickerRows.ModelsRows(sources);
        picker.ApplySnapshot(rows, rails);
      case Refocus(focus) => picker.SetFocus(focus);
      case Prompt(provider) => picker.BeginKeyEntry(provider);
      case Reload => picker.StartLoading();
    }
  }

  lemma SameState(
    src: PickerRows.Sources, active: Option<RowId>, states: seq<State>, events: seq<Event>, t: State, e: Event, i: nat)
    requires i <= |events| < |states| && StateAt(src, active, states, events, i)
    ensures StateAt(src, active, states + [t], events + [e], i)
  {
  }

  lemma LastState(
    src: PickerRows.Sources, active: Option<RowId>, states: seq<State>, events: seq<Event>, t: State, e: Event)
    requires |states| == |events| + 1 && t == Next(states[|events|], e)
    ensures StateAt(src, active, states + [t], events + [e], |events| + 1)
  {
  }

  lemma RunOn(
    src: PickerRows.Sources, active: Option<RowId>, states: seq<State>, events: seq<Event>, t: State, e: Event)
    requires IsRun(src, active, states, events) && t == Next(states[|events|], e)
    ensures IsRun(src, active, states + [t], events + [e])
  {
    forall i: nat | i <= |events| + 1 ensures StateAt(src, active, states + [t], events + [e], i) {
      if i <= |events| {
        SameState(src, active, states, events, t, e, i);
      } else {
        LastState(src, active, states, events, t, e);
      }
    }
  }

  /** The outcome of the `i`-th event. */
  predicate SaysAt(states: seq<State>, events: seq<Event>, outs: seq<Outcome>, i: nat)
    requires i < |events| && i < |states| && i < |outs|
  {
    outs[i] == Step(states[i], events[i]).1
  }

  lemma SaidBefore(
    states: seq<State>, events: seq<Event>, outs: seq<Outcome>, t: State, out: Outcome, i: nat)
    requires i < |events| && i < |states| && i < |outs| && SaysAt(states, events, outs, i)
    ensures SaysAt(states + [t], events, outs + [out], i)
  {
  }

  lemma SaysNow(states: seq<State>, events: seq<Event>, outs: seq<Outcome>, t: State, out: Outcome)
    requires |outs| < |events| && |states| == |outs| + 1
    requires (t, out) == Step(states[|outs|], events[|outs|])
    ensures SaysAt(states + [t], events, outs + [out], |outs|)
  {
  }

  /** Each outcome so far is that of its event. */
  predicate Said(states: seq<State>, events: seq<Event>, outs: seq<Outcome>)
    requires |outs| <= |events| && |outs| <= |states|
  {
    forall i: nat :: i < |outs| ==> SaysAt(states, events, outs, i)
  }

  lemma SaidOn(states: seq<State>, events: seq<Event>, outs: seq<Outcome>, t: State, out: Outcome)
    requires |outs| < |events| && |states| == |outs| + 1 && Said(states, events, outs)
    requires (t, out) == Step(states[|outs|], events[|outs|])
    ensures Said(states + [t], events, outs + [out])
  {
    forall i: nat | i < |outs| + 1 ensures SaysAt(states + [t], events, outs + [out], i) {
      if i < |outs| {
        SaidBefore(states, events, outs, t, out, i);
      } else {
        SaysNow(states, events, outs, t, out);
      }
    }
  }

  /** A new picker fed any events goes through the states of a run: what is proved of runs is true of it. */
  method Play(src: PickerRows.Sources, active: Option<RowId>, events: seq<Event>)
    returns (picker: PickerState, outs: seq<Outcome>, ghost states: seq<State>)
    requires PickerRows.Unloaded(src)
    ensures IsRun(src, active, states, events) && picker.Now() == states[|events|] && |outs| == |events|
    ensures Said(states, events, outs)
  {
    picker := new PickerState(src, active);
    states, outs := [picker.Now()], [];
    assert events[..0] == [] && StateAt(src, active, states, [], 0);
    while |outs| < |events|
      invariant |outs| <= |events| && |states| == |outs| + 1 && fresh(picker)
      invariant IsRun(src, active, states, events[..|outs|]) && picker.Now() == states[|outs|]
      invariant Said(states, events, outs)
    {
      var n := |outs|;
      var out := Feed(picker, events[n]);
      ghost var t := picker.Now();
      assert IsRun(src, active, states + [t], events[..n + 1]) by {
        Snoc(events, n);
        RunOn(src, active, states, events[..n], t, events[n]);
      }
      assert Said(states + [t], events, outs + [out]) by { SaidOn(states, events, outs, t, out); }
      states, outs := states + [t], outs + [out];
    }
    assert events[..|outs|] == events;
  }
}
