/** The model picker as a state machine (crates/workshop-auth/src/lib.rs, `PickerState`): what is
    visible, what a key, a snapshot or a change of focus does.  Drawing is not modelled; whether the
    first load is overdue is an input. */
module Picker {
  import opened Text
  import opened Rows
  import PickerRows
  import RowMerge

  const PAGE_STEP := 10

  datatype Pill = Detecting | Ready | SignIn | Install

  datatype RailModelRef = RailModelRef(key: string, display: string)

  datatype RailState = RailState(
    rail: Rail, pill: Pill, installed: bool, models: seq<RailModelRef>, failed: bool, showConnect: bool)

  datatype Submenu = OfVendor(rail: Rail) | OfEffort(model: EngineModel) | OfApiKeys

  datatype KeyEntry = KeyEntry(provider: string, buffer: string)

  datatype Input =
    | Up | Down | Home | End | PageUp | PageDown | NextSection | PrevSection | Open | Left | Enter | Back
    | Typed(c: char) | Backspace | Paste(text: string) | Refresh | ToggleShowAll

  datatype Outcome =
    | Changed
    | Close
    | StartOptionalXaiLogin
    | SelectCatalog(key: string)
    | ConnectProvider(provider: string)
    | SaveKey(provider: string, key: string)
    | SelectEngine(model: EngineModel)
    | RailConnect(rail: Rail)
    | RailInstall(rail: Rail)
    | SelectRailModel(rail: Rail, key: string)
    | RefreshLists
    | RetryRailModels

  datatype Focus = Models(filter: string) | Subscriptions

  datatype State = State(
    rows: seq<Row>, connectRows: seq<Row>, rails: seq<RailState>, submenu: Option<Submenu>, selected: nat,
    parent: Option<RowId>, armed: bool, loading: bool, keyEntry: Option<KeyEntry>, active: Option<RowId>,
    filter: string, showAll: bool, focusSubscriptions: bool)

  // ------------------------------------------------------------ what is visible

  function RailOf(rails: seq<RailState>, rail: Rail): (r: Option<RailState>)
    ensures r.Some? ==> r.value in rails && r.value.rail == rail
  {
    if rails == [] then None else if rails[0].rail == rail then Some(rails[0]) else RailOf(rails[1..], rail)
  }

  function ModelRows(rail: Rail, models: seq<RailModelRef>): (r: seq<Row>)
    ensures |r| == |models| && forall i :: 0 <= i < |r| ==> r[i].kind.RailModel? && r[i].kind.rail == rail
  {
    if models == [] then []
    else
      var name := PickerRows.RailName(rail);
      [Row(RailModel(rail, models[0].key), name, PickerRows.Hay(models[0].display, name), true)]
      + ModelRows(rail, models[1..])
  }

  /** The models of a vendor that is signed in. */
  function VendorRows(rails: seq<RailState>, rail: Rail): (r: seq<Row>)
    ensures forall i :: 0 <= i < |r| ==> r[i].kind.RailModel? && r[i].kind.rail == rail
  {
    match RailOf(rails, rail)
    case Some(state) => if state.pill == Ready then ModelRows(rail, state.models) else []
    case None => []
  }

  function EffortRow(model: EngineModel, level: Option<string>): Row {
    var title := match level case Some(v) => v case None => "Default";
    Row(Effort(model.(effort := level)), PickerRows.ENGINE_GROUP,
        PickerRows.Hay(title, PickerRows.ENGINE_GROUP), model.chat)
  }

  function EffortRows(model: EngineModel): (r: seq<Row>)
    ensures forall i :: 0 <= i < |r| ==> r[i].kind.Effort?
  {
    [EffortRow(model, None)]
    + seq(|model.variants|, i requires 0 <= i < |model.variants| => EffortRow(model, Some(model.variants[i])))
  }

  function SubmenuRows(s: State, submenu: Submenu): seq<Row> {
    match submenu
    case OfVendor(rail) => VendorRows(s.rails, rail)
    case OfEffort(model) => EffortRows(model)
    case OfApiKeys => s.connectRows
  }

  predicate IsExpandable(s: State, row: Row) {
    match row.kind
    case Engine(m) => m.variants != []
    case Vendor(rail) =>
      (match RailOf(s.rails, rail)
       case Some(state) => state.pill == Ready && state.models != []
       case None => false)
    case ApiKeys => true
    case _ => false
  }

  predicate Matches(filter: string, row: Row) {
    var f := Lower(Trim(filter));
    f == "" || ContainsAll(row.hay, Words(f))
  }

  /** Whether `row` is, or holds, the active connection. */
  predicate IsActive(s: State, row: Row) {
    match s.active
    case None => false
    case Some(id) =>
      match row.kind
      case Engine(m) => id.EngineId? && id.ref == m.ref
      case Vendor(rail) => id.RailId? && id.rail == rail
      case _ => id == Id(row)
  }

  predicate ShownByDefault(s: State, row: Row) {
    s.showAll || IsActive(s, row) || IsChat(row)
  }

  predicate Filtered(s: State) { Trim(s.filter) != "" }

  /** The list without a filter: a signed-in vendor is followed by its models. */
  function TopRows(s: State, rows: seq<Row>): seq<Row> {
    if rows == [] then []
    else
      (if !ShownByDefault(s, rows[0]) then []
       else if rows[0].kind.Vendor? then [rows[0]] + VendorRows(s.rails, rows[0].kind.rail)
       else [rows[0]])
      + TopRows(s, rows[1..])
  }

  function Matching(filter: string, rows: seq<Row>): (r: seq<Row>)
    ensures forall i :: 0 <= i < |r| ==> r[i] in rows && Matches(filter, r[i])
  {
    if rows == [] then []
    else (if Matches(filter, rows[0]) then [rows[0]] else []) + Matching(filter, rows[1..])
  }

  function Children(s: State, row: Row): seq<Row> {
    match row.kind
    case Vendor(rail) => VendorRows(s.rails, rail)
    case ApiKeys => s.connectRows
    case _ => []
  }

  /** The list with a filter: everything that matches, wherever it lives. */
  function FlatRows(s: State, rows: seq<Row>): seq<Row> {
    if rows == [] then []
    else
      (if ShownByDefault(s, rows[0]) then Matching(s.filter, [rows[0]] + Children(s, rows[0])) else [])
      + FlatRows(s, rows[1..])
  }

  /** The state as far as it decides what is visible: neither the highlight, nor the armed flag, nor a key
      prompt, nor where a load stands has a say in that. */
  function Plain(s: State): State {
    s.(selected := 0, parent := None, armed := false, loading := false, keyEntry := None, focusSubscriptions := false)
  }

  function RowsShown(s: State): seq<Row> {
    match s.submenu
    case Some(submenu) => Matching(s.filter, SubmenuRows(s, submenu))
    case None => if Filtered(s) then FlatRows(s, s.rows) else TopRows(s, s.rows)
  }

  function Visible(s: State): seq<Row> { RowsShown(Plain(s)) }

  function Selected(s: State): Option<Row> {
    if s.selected < |Visible(s)| then Some(Visible(s)[s.selected]) else None
  }

  datatype Line = Header(group: string) | Item(row: Row)

  /** The lines drawn: a header whenever the group changes, but not for a vendor's own models. */
  function Lines(rows: seq<Row>, grouped: bool, current: Option<string>): seq<Line> {
    if rows == [] then []
    else if grouped && !rows[0].kind.RailModel? && current != Some(rows[0].group) then
      [Header(rows[0].group), Item(rows[0])] + Lines(rows[1..], grouped, Some(rows[0].group))
    else [Item(rows[0])] + Lines(rows[1..], grouped, current)
  }

  function ModelsLines(s: State): seq<Line> {
    Lines(Visible(s), !Filtered(s) && s.submenu.None?, None)
  }

  /** Counting the rows under `lines`, the first of which is row number `n`: those right after a header. */
  function Starts(lines: seq<Line>, n: nat, afterHeader: bool): seq<nat> {
    if lines == [] then []
    else match lines[0]
      case Header(_) => Starts(lines[1..], n, true)
      case Item(_) => (if afterHeader then [n] else []) + Starts(lines[1..], n + 1, false)
  }

  function SectionStarts(s: State): seq<nat> { Starts(ModelsLines(s), 0, false) }

  function FirstAbove(starts: seq<nat>, at: nat): (r: Option<nat>)
    ensures r.Some? ==> r.value in starts && r.value > at
    ensures r.None? ==> forall x :: x in starts ==> x <= at
  {
    if starts == [] then None
    else
      assert starts == [starts[0]] + starts[1..];
      if starts[0] > at then Some(starts[0]) else FirstAbove(starts[1..], at)
  }

  function LastBelow(starts: seq<nat>, at: nat): (r: Option<nat>)
    ensures r.Some? ==> r.value in starts && r.value < at
    ensures r.None? ==> forall x :: x in starts ==> x >= at
  {
    if starts == [] then None
    else
      var last := |starts| - 1;
      assert starts == starts[..last] + [starts[last]];
      if starts[last] < at then Some(starts[last]) else LastBelow(starts[..last], at)
  }

  function FirstVendor(rows: seq<Row>): (r: Option<nat>)
    ensures r.Some? ==> r.value < |rows| && rows[r.value].kind.Vendor?
    ensures r.None? ==> forall i :: 0 <= i < |rows| ==> !rows[i].kind.Vendor?
  {
    if rows == [] then None
    else if rows[0].kind.Vendor? then Some(0)
    else match FirstVendor(rows[1..]) case Some(i) => Some(i + 1) case None => None
  }

  function FirstActive(s: State, rows: seq<Row>): (r: Option<nat>)
    ensures r.Some? ==> r.value < |rows| && IsActive(s, rows[r.value])
  {
    if rows == [] then None
    else if IsActive(s, rows[0]) then Some(0)
    else match FirstActive(s, rows[1..]) case Some(i) => Some(i + 1) case None => None
  }

  /** The active model's own row if it is visible, else the row that holds it. */
  function ActiveIndex(s: State): (r: Option<nat>)
    ensures r.Some? ==> r.value < |Visible(s)|
  {
    match s.active
    case None => None
    case Some(id) =>
      match Position(Visible(s), id)
      case Some(i) => Some(i)
      case None => FirstActive(s, Visible(s))
  }

  // ------------------------------------------------------------ what moves it

  function SelectActive(s: State): State {
    match ActiveIndex(s) case Some(i) => s.(selected := i) case None => s
  }

  function SelectFirstVendor(s: State): State {
    match FirstVendor(Visible(s)) case Some(i) => s.(selected := i) case None => s
  }

  /** Select the first visible row with this id, or the first row. */
  function SelectId(s: State, id: Option<RowId>): State {
    match id
    case None => s.(selected := 0)
    case Some(id) =>
      match Position(Visible(s), id) case Some(i) => s.(selected := i) case None => s.(selected := 0)
  }

  function SelectedId(s: State): Option<RowId> {
    match Selected(s) case Some(row) => Some(Id(row)) case None => None
  }

  function OpenSubmenu(s: State, from: Row, submenu: Submenu): State {
    SelectActive(s.(parent := Some(Id(from)), submenu := Some(submenu), filter := "", armed := false, selected := 0))
  }

  function CloseSubmenu(s: State): State {
    SelectId(s.(submenu := None, filter := "", parent := None), s.parent)
  }

  /** A snapshot without rows leaves the list alone; one that lands on a list already shown is merged. */
  function SetRows(s: State, all: seq<Row>): State {
    if all == [] then s
    else
      var list := PickerRows.WithoutConnects(all);
      s.(rows := if s.loading || s.rows == [] then list else RowMerge.Merge(s.rows, list),
         connectRows := PickerRows.OnlyConnects(all))
  }

  function Clamp(s: State): State {
    s.(selected := if s.selected > Last(s) then Last(s) else s.selected)
  }

  function Reselect(s: State, prev: Option<RowId>, firstLoad: bool): State {
    if firstLoad && !s.focusSubscriptions && ActiveIndex(s).Some? then SelectActive(s) else SelectId(s, prev)
  }

  /** The new rows and rails, before the selection is settled. */
  function Loaded(s: State, all: seq<Row>, rails: seq<RailState>): State {
    SetRows(s, all).(rails := if rails == [] then s.rails else rails, loading := false)
  }

  function Snapshot(s: State, all: seq<Row>, rails: seq<RailState>): State {
    Settled(Loaded(s, all, rails), SelectedId(s), s.loading).(armed := false)
  }

  /** The selection over the new rows.  A sub-menu whose list went away falls back to the list. */
  function Settled(t: State, prev: Option<RowId>, firstLoad: bool): State {
    var u := if t.submenu.Some? && Visible(t) == [] then CloseSubmenu(t) else Reselect(t, prev, firstLoad);
    Clamp(if firstLoad && u.focusSubscriptions then SelectFirstVendor(u) else u)
  }

  function Focused(s: State, focus: Focus): State {
    var t := s.(submenu := None, parent := None, armed := false);
    match focus
    case Models(filter) => SelectActive(t.(focusSubscriptions := false, filter := filter, selected := 0))
    case Subscriptions => SelectFirstVendor(t.(focusSubscriptions := true, filter := ""))
  }

  function TabTarget(s: State, forward: bool): Option<nat> {
    if forward then FirstAbove(SectionStarts(s), s.selected) else LastBelow(SectionStarts(s), s.selected)
  }

  function JumpSection(s: State, forward: bool): State {
    match TabTarget(s, forward) case Some(i) => s.(selected := i, armed := false) case None => s
  }

  function Entered(s: State, row: Row, late: bool): (State, Outcome) {
    match row.kind
    case Xai => if s.armed then (s, StartOptionalXaiLogin) else (s.(armed := true), Changed)
    case Engine(m) => if m.variants == [] then (s, SelectEngine(m)) else (OpenSubmenu(s, row, OfEffort(m)), Changed)
    case ApiKeys => (OpenSubmenu(s, row, OfApiKeys), Changed)
    case Vendor(rail) => EnteredVendor(s, row, rail, late)
    case _ => (s, Picked(row.kind))
  }

  /** Rows that open nothing. */
  function Picked(kind: RowKind): Outcome {
    match kind
    case Catalog(key, provider, locked) => if locked then ConnectProvider(provider) else SelectCatalog(key)
    case Connect(provider) => ConnectProvider(provider)
    case Effort(m) => SelectEngine(m)
    case RailModel(rail, key) => SelectRailModel(rail, key)
    case _ => Changed
  }

  function EnteredVendor(s: State, row: Row, rail: Rail, late: bool): (State, Outcome) {
    match RailOf(s.rails, rail)
    case None => (s, Changed)
    case Some(state) =>
      if state.pill == Detecting && s.loading && late then (s, RefreshLists)
      else if !state.installed && state.pill == Install then (s, RailInstall(rail))
      else if state.pill == Ready && state.models != [] then (OpenSubmenu(s, row, OfVendor(rail)), Changed)
      else if state.failed then (s, RetryRailModels)
      else if state.showConnect then (s, RailConnect(rail))
      else (s, Changed)
  }

  /** A key while a key-entry prompt is open: the prompt takes everything. */
  function Entry(entry: KeyEntry, input: Input): (Option<KeyEntry>, Outcome) {
    match input
    case Typed(c) => (Some(if IsControl(c) then entry else entry.(buffer := entry.buffer + [c])), Changed)
    case Paste(text) => (Some(entry.(buffer := entry.buffer + Trim(text))), Changed)
    case Backspace => (Some(entry.(buffer := DropLast(entry.buffer))), Changed)
    case Enter =>
      var key := Trim(entry.buffer);
      if key == "" then (Some(entry), Changed) else (None, SaveKey(entry.provider, key))
    case Back => (None, Changed)
    case _ => (Some(entry), Changed)
  }

  function DropLast(s: string): string {
    if s == "" then s else s[..|s| - 1]
  }

  function Last(s: State): nat {
    if Visible(s) == [] then 0 else |Visible(s)| - 1
  }

  /** Where an arrow, Home, End or a page key moves the highlight. */
  function Moved(s: State, input: Input): nat {
    match input
    case Up => if s.selected > 0 then s.selected - 1 else 0
    case Down => if s.selected + 1 < |Visible(s)| then s.selected + 1 else s.selected
    case Home => 0
    case End => Last(s)
    case PageUp => if s.selected > PAGE_STEP then s.selected - PAGE_STEP else 0
    case PageDown => if s.selected + PAGE_STEP < Last(s) then s.selected + PAGE_STEP else Last(s)
    case _ => s.selected
  }

  function MovedTo(s: State, input: Input): State {
    s.(selected := Moved(s, input), armed := false)
  }

  function Toggled(s: State): State {
    SelectId(s.(showAll := !s.showAll), SelectedId(s))
  }

  /** Enter on the highlighted row, or `Open` on one that opens. */
  function EnteredSelected(s: State, openOnly: bool, late: bool): (State, Outcome) {
    match Selected(s)
    case Some(row) => if !openOnly || IsExpandable(s, row) then Entered(s, row, late) else (s, Changed)
    case None => (s, Changed)
  }

  function BackedOut(s: State): (State, Outcome) {
    if s.filter != "" then (SelectActive(s.(filter := "", selected := 0)), Changed)
    else if s.armed then (s.(armed := false), Changed)
    else if s.submenu.Some? then (CloseSubmenu(s), Changed)
    else (s, Close)
  }

  /** A key with a prompt open. */
  function Prompted(s: State, input: Input): (State, Outcome)
    requires s.keyEntry.Some?
  {
    var (entry, out) := Entry(s.keyEntry.value, input);
    (s.(keyEntry := entry), out)
  }

  function Filtering(s: State, c: char): State {
    if IsControl(c) then s else s.(filter := s.filter + [c], selected := 0, armed := false)
  }

  function Erased(s: State): State {
    s.(filter := DropLast(s.filter), selected := 0)
  }

  function LeftOf(s: State): State {
    (if s.submenu.Some? then CloseSubmenu(s) else s).(armed := false)
  }

  function Handled(s: State, input: Input, late: bool): (State, Outcome) {
    if s.keyEntry.Some? then Prompted(s, input)
    else match input
      case Refresh => (s, RefreshLists)
      case Typed(c) => (Filtering(s, c), Changed)
      case Backspace => (Erased(s), Changed)
      case ToggleShowAll => (Toggled(s), Changed)
      case Paste(_) => (s, Changed)
      case NextSection => (JumpSection(s, true), Changed)
      case PrevSection => (JumpSection(s, false), Changed)
      case Left => (LeftOf(s), Changed)
      case Open => EnteredSelected(s, true, late)
      case Back => BackedOut(s)
      case Enter => EnteredSelected(s, false, late)
      case _ => (MovedTo(s, input), Changed)
  }

  const DetectingRails := [
    RailState(Claude, Detecting, false, [], false, false), RailState(Codex, Detecting, false, [], false, false),
    RailState(Cursor, Detecting, false, [], false, false)]

  const Unfilled := State([], [], DetectingRails, None, 0, None, false, true, None, None, "", false, false)

  /** Before any loader ran: the seed row, the vendors (detecting), the providers to connect and xAI. */
  function Fresh(src: PickerRows.Sources, active: Option<RowId>): State {
    var s := SetRows(Unfilled, PickerRows.AllRows(src));
    if active.None? then s else SelectActive(s.(active := active))
  }

  /** The picker itself. */
  class PickerState {
    var rows: seq<Row>
    var connectRows: seq<Row>
    var rails: seq<RailState>
    var submenu: Option<Submenu>
    var selected: nat
    var parent: Option<RowId>
    var armed: bool
    var loading: bool
    var keyEntry: Option<KeyEntry>
    var active: Option<RowId>
    var filter: string
    var showAll: bool
    var focusSubscriptions: bool

    function Now(): State
      reads this
    {
      State(rows, connectRows, rails, submenu, selected, parent, armed, loading, keyEntry, active, filter,
            showAll, focusSubscriptions)
    }

    constructor (src: PickerRows.Sources, active: Option<RowId>)
      ensures Now() == Fresh(src, active)
    {
      rows, connectRows, submenu, selected, parent := [], [], None, 0, None;
      armed, loading, keyEntry, this.active, filter := false, true, None, None, "";
      showAll, focusSubscriptions := false, false;
      rails := DetectingRails;
      new;
      var seed := PickerRows.ModelsRows(src);
      TakeRows(seed);
      if active.Some? {
        this.active := active;
        MarkActive();
      }
    }

    method MarkActive()
      modifies this`selected
      ensures Now() == SelectActive(old(Now()))
    {
      var at := ActiveIndex(Now());
      if at.Some? { selected := at.value; }
    }

    method MarkFirstVendor()
      modifies this`selected
      ensures Now() == SelectFirstVendor(old(Now()))
    {
      var at := FirstVendor(Visible(Now()));
      if at.Some? { selected := at.value; }
    }

    method MarkId(id: Option<RowId>)
      modifies this`selected
      ensures Now() == SelectId(old(Now()), id)
    {
      var at := if id.Some? then Position(Visible(Now()), id.value) else None;
      selected := if at.Some? then at.value else 0;
    }

    method TakeRows(all: seq<Row>)
      modifies this`rows, this`connectRows
      ensures Now() == SetRows(old(Now()), all)
    {
      if all == [] { return; }
      var list := PickerRows.WithoutConnects(all);
      if loading || rows == [] {
        rows := list;
      } else {
        rows := RowMerge.StableMerge(rows, list);
      }
      connectRows := PickerRows.OnlyConnects(all);
    }

    method EnterSubmenu(from: Row, submenu: Submenu)
      modifies this
      ensures Now() == OpenSubmenu(old(Now()), from, submenu)
    {
      parent := Some(Id(from));
      this.submenu := Some(submenu);
      filter, armed, selected := "", false, 0;
      MarkActive();
    }

    method LeaveSubmenu()
      modifies this
      ensures Now() == CloseSubmenu(old(Now()))
    {
      submenu, filter := None, "";
      var id := parent;
      parent := None;
      MarkId(id);
    }

    /** A finished load or refresh. */
    method ApplySnapshot(all: seq<Row>, rails: seq<RailState>)
      modifies this
      ensures Now() == Snapshot(old(Now()), all, rails)
    {
      var firstLoad, prev := loading, SelectedId(Now());
      TakeSnapshot(all, rails);
      Settle(prev, firstLoad);
      armed := false;
    }

    method TakeSnapshot(all: seq<Row>, rails: seq<RailState>)
      modifies this
      ensures Now() == Loaded(old(Now()), all, rails)
    {
      TakeRows(all);
      if rails != [] { this.rails := rails; }
      loading := false;
    }

    method Settle(prev: Option<RowId>, firstLoad: bool)
      modifies this
      ensures Now() == Settled(old(Now()), prev, firstLoad)
    {
      if submenu.Some? && Visible(Now()) == [] {
        LeaveSubmenu();
      } else {
        Keep(prev, firstLoad);
      }
      if firstLoad && focusSubscriptions { MarkFirstVendor(); }
      Limit();
    }

    method Keep(prev: Option<RowId>, firstLoad: bool)
      modifies this`selected
      ensures Now() == Reselect(old(Now()), prev, firstLoad)
    {
      var at := ActiveIndex(Now());
      if firstLoad && !focusSubscriptions && at.Some? {
        selected := at.value;
      } else {
        MarkId(prev);
      }
    }

    method Limit()
      modifies this`selected
      ensures Now() == Clamp(old(Now()))
    {
      if selected > Last(Now()) { selected := Last(Now()); }
    }

    method SetFocus(focus: Focus)
      modifies this
      ensures Now() == Focused(old(Now()), focus)
    {
      submenu, parent, armed := None, None, false;
      match focus {
        case Models(text) =>
          focusSubscriptions, filter, selected := false, text, 0;
          assert Now() == old(Now()).(submenu := None, parent := None, armed := false, focusSubscriptions := false,
                                      filter := text, selected := 0);
          MarkActive();
        case Subscriptions =>
          focusSubscriptions, filter := true, "";
          assert Now() == old(Now()).(submenu := None, parent := None, armed := false, focusSubscriptions := true,
                                      filter := "");
          MarkFirstVendor();
      }
    }

    method Jump(forward: bool)
      modifies this`selected, this`armed
      ensures Now() == JumpSection(old(Now()), forward)
    {
      var starts := SectionStarts(Now());
      var target := if forward then FirstAbove(starts, selected) else LastBelow(starts, selected);
      if target.Some? { selected, armed := target.value, false; }
    }

    method EnterRow(row: Row, late: bool) returns (out: Outcome)
      modifies this
      ensures (Now(), out) == Entered(old(Now()), row, late)
    {
      out := Changed;
      match row.kind {
        case Xai =>
          if armed { out := StartOptionalXaiLogin; } else { armed := true; }
        case Engine(m) =>
          if m.variants == [] { out := SelectEngine(m); } else { EnterSubmenu(row, OfEffort(m)); }
        case ApiKeys => EnterSubmenu(row, OfApiKeys);
        case Vendor(rail) => out := EnterVendor(row, rail, late);
        case _ => out := Picked(row.kind);
      }
    }

    method EnterVendor(row: Row, rail: Rail, late: bool) returns (out: Outcome)
      modifies this
      ensures (Now(), out) == EnteredVendor(old(Now()), row, rail, late)
    {
      out := Changed;
      var state := RailOf(rails, rail);
      if state.None? { return; }
      if state.value.pill == Detecting && loading && late {
        out := RefreshLists;
      } else if !state.value.installed && state.value.pill == Install {
        out := RailInstall(rail);
      } else if state.value.pill == Ready && state.value.models != [] {
        EnterSubmenu(row, OfVendor(rail));
      } else if state.value.failed {
        out := RetryRailModels;
      } else if state.value.showConnect {
        out := RailConnect(rail);
      }
    }

    method HandleEntry(input: Input) returns (out: Outcome)
      requires keyEntry.Some?
      modifies this`keyEntry
      ensures (keyEntry, out) == Entry(old(keyEntry.value), input)
    {
      out := Changed;
      var entry := keyEntry.value;
      match input {
        case Typed(c) =>
          if !IsControl(c) { keyEntry := Some(entry.(buffer := entry.buffer + [c])); }
        case Paste(text) =>
          var pasted := Trim(text);
          keyEntry := Some(entry.(buffer := entry.buffer + pasted));
        case Backspace => keyEntry := Some(entry.(buffer := DropLast(entry.buffer)));
        case Enter =>
          var key := Trim(entry.buffer);
          if key != "" {
            keyEntry := None;
            out := SaveKey(entry.provider, key);
          }
        case Back => keyEntry := None;
        case _ =>
      }
    }

    /** A key press. */
    method Handle(input: Input, late: bool) returns (out: Outcome)
      modifies this
      ensures (Now(), out) == Handled(old(Now()), input, late)
    {
      if keyEntry.Some? {
        out := HandleEntry(input);
        return;
      }
      out := Changed;
      match input {
        case Refresh => out := RefreshLists;
        case Typed(c) =>
          if !IsControl(c) { filter, selected, armed := filter + [c], 0, false; }
        case Backspace => filter, selected := DropLast(filter), 0;
        case ToggleShowAll => Toggle();
        case Paste(_) =>
        case NextSection => Jump(true);
        case PrevSection => Jump(false);
        case Left =>
          if submenu.Some? { LeaveSubmenu(); }
          armed := false;
        case Open => out := EnterSelected(true, late);
        case Back => out := GoBack();
        case Enter => out := EnterSelected(false, late);
        case _ =>
          Move(input);
          armed := false;
      }
    }

    method Toggle()
      modifies this
      ensures Now() == Toggled(old(Now()))
    {
      var keep := SelectedId(Now());
      showAll := !showAll;
      MarkId(keep);
    }

    method EnterSelected(openOnly: bool, late: bool) returns (out: Outcome)
      modifies this
      ensures (Now(), out) == EnteredSelected(old(Now()), openOnly, late)
    {
      out := Changed;
      var row := Selected(Now());
      if row.Some? && (!openOnly || IsExpandable(Now(), row.value)) { out := EnterRow(row.value, late); }
    }

    method GoBack() returns (out: Outcome)
      modifies this
      ensures (Now(), out) == BackedOut(old(Now()))
    {
      out := Changed;
      if filter != "" {
        filter, selected := "", 0;
        MarkActive();
      } else if armed {
        armed := false;
      } else if submenu.Some? {
        LeaveSubmenu();
      } else {
        out := Close;
      }
    }

    method Move(input: Input)
      modifies this`selected
      ensures Now() == old(Now()).(selected := Moved(old(Now()), input))
    {
      match input {
        case Up => if selected > 0 { selected := selected - 1; }
        case Down => if selected + 1 < |Visible(Now())| { selected := selected + 1; }
        case Home => selected := 0;
        case End => selected := Last(Now());
        case PageUp => selected := if selected > PAGE_STEP then selected - PAGE_STEP else 0;
        case PageDown =>
          selected := if selected + PAGE_STEP < Last(Now()) then selected + PAGE_STEP else Last(Now());
        case _ =>
      }
    }

    /** The host starts loading again, so that the next snapshot counts as a first one. */
    method StartLoading()
      modifies this`loading
      ensures Now() == old(Now()).(loading := true)
    {
      loading := true;
    }

    /** The host opens the prompt for a provider's key. */
    method BeginKeyEntry(provider: string)
      modifies this`keyEntry
      ensures Now() == old(Now()).(keyEntry := Some(KeyEntry(provider, "")))
    {
      keyEntry := Some(KeyEntry(provider, ""));
    }
  }
}
