/** What the picker promises over a whole run: coming back from a sub-menu, and what it takes to
    start the optional xAI login. */
module PickerJourneys {
  import opened Text
  import opened Rows
  import opened Picker
  import opened PickerRuns
  import PickerRows

  // ---------------------------------------------------------------- the xAI row

  /** Enter reaches the xAI row. */
  predicate HitsXai(s: State, e: Event) {
    && e.Key? && e.input.Enter? && s.keyEntry.None?
    && Selected(s).Some? && Selected(s).value.kind.Xai?
  }

  predicate OnExpandable(s: State) {
    Selected(s).Some? && IsExpandable(s, Selected(s).value)
  }

  /** An arrow, Home, End, a page key, Left, a filter character, a section jump that moves, a sub-menu
      opening, Esc with no filter to clear, a snapshot or a change of focus. */
  predicate Disarms(s: State, e: Event) {
    match e
    case Load(_, _) => true
    case Refocus(_) => true
    case Prompt(_) => false
    case Reload => false
    case Key(input, _) =>
      s.keyEntry.None? &&
      match input
      case Typed(c) => !IsControl(c)
      case NextSection => TabTarget(s, true).Some?
      case PrevSection => TabTarget(s, false).Some?
      case Open => OnExpandable(s)
      case Enter => OnExpandable(s)
      case Back => s.filter == ""
      case Backspace => false
      case Paste(_) => false
      case Refresh => false
      case ToggleShowAll => false
      case _ => true
  }

  lemma EnteredArmed(s: State, row: Row, late: bool)
    ensures Entered(s, row, late).0.armed <==> row.kind.Xai? || (s.armed && !IsExpandable(s, row))
    ensures Entered(s, row, late).1 == StartOptionalXaiLogin <==> row.kind.Xai? && s.armed
  {
  }

  lemma EnterSelectedArmed(s: State, openOnly: bool, late: bool)
    ensures var (t, out) := EnteredSelected(s, openOnly, late);
      var xai := !openOnly && Selected(s).Some? && Selected(s).value.kind.Xai?;
      && (t.armed <==> xai || (s.armed && !OnExpandable(s)))
      && (out == StartOptionalXaiLogin <==> xai && s.armed)
  {
    if Selected(s).Some? { EnteredArmed(s, Selected(s).value, late); }
  }

  lemma SelectingKeepsArmed(s: State, id: Option<RowId>)
    ensures SelectActive(s).armed == s.armed && SelectId(s, id).armed == s.armed
  {
  }

  lemma KeyArmed(s: State, input: Input, late: bool)
    requires s.keyEntry.None?
    ensures var (t, out) := Handled(s, input, late);
      && (t.armed <==> HitsXai(s, Key(input, late)) || (s.armed && !Disarms(s, Key(input, late))))
      && (out == StartOptionalXaiLogin <==> HitsXai(s, Key(input, late)) && s.armed)
  {
    if input.Open? || input.Enter? {
      EnterSelectedArmed(s, input.Open?, late);
    } else if input.Back? {
      BackArmed(s, late);
    } else if input.ToggleShowAll? {
      ToggleArmed(s, late);
    } else {
      OtherKeysArmed(s, input, late);
    }
  }

  lemma BackArmed(s: State, late: bool)
    requires s.keyEntry.None?
    ensures Handled(s, Back, late).0.armed <==> s.armed && !Disarms(s, Key(Back, late))
    ensures Handled(s, Back, late).1 != StartOptionalXaiLogin
  {
    SelectingKeepsArmed(s.(filter := "", selected := 0), None);
    SelectingKeepsArmed(s.(submenu := None, filter := "", parent := None), s.parent);
  }

  lemma ToggleArmed(s: State, late: bool)
    requires s.keyEntry.None?
    ensures Handled(s, ToggleShowAll, late).0.armed <==> s.armed
    ensures Handled(s, ToggleShowAll, late).1 != StartOptionalXaiLogin
  {
    assert Handled(s, ToggleShowAll, late) == (Toggled(s), Changed);
    assert Toggled(s).armed == s.armed by {
      SelectingKeepsArmed(s.(showAll := !s.showAll), SelectedId(s));
    }
  }

  lemma OtherKeysArmed(s: State, input: Input, late: bool)
    requires s.keyEntry.None? && !input.Open? && !input.Enter? && !input.Back? && !input.ToggleShowAll?
    ensures Handled(s, input, late).0.armed <==> s.armed && !Disarms(s, Key(input, late))
    ensures Handled(s, input, late).1 != StartOptionalXaiLogin
  {
  }

  lemma FocusDisarms(s: State, focus: Focus)
    ensures !Focused(s, focus).armed
  {
  }

  lemma StepArmed(s: State, e: Event)
    ensures Next(s, e).armed <==> HitsXai(s, e) || (s.armed && !Disarms(s, e))
    ensures Step(s, e).1 == StartOptionalXaiLogin <==> HitsXai(s, e) && s.armed
  {
    match e
    case Key(input, late) => if s.keyEntry.None? { KeyArmed(s, input, late); }
    case Refocus(focus) => FocusDisarms(s, focus);
    case _ =>
  }

  /** There is a hit before `n` with no off after it. */
  predicate Latched(hits: seq<bool>, offs: seq<bool>, n: nat)
    requires n <= |hits| == |offs|
  {
    exists m :: 0 <= m < n && hits[m] && forall k :: m < k < n ==> !offs[k]
  }

  predicate LatchAt(flag: seq<bool>, hits: seq<bool>, offs: seq<bool>, i: nat)
    requires i < |hits| && i < |offs| && i + 1 < |flag|
  {
    flag[i + 1] == (hits[i] || (flag[i] && !offs[i]))
  }

  /** A flag that starts cleared, is set at a hit and is cleared at an off that is no hit. */
  predicate LatchOk(flag: seq<bool>, hits: seq<bool>, offs: seq<bool>) {
    && |flag| == |hits| + 1 == |offs| + 1 && !flag[0]
    && forall i: nat :: i < |hits| ==> LatchAt(flag, hits, offs, i)
  }

  /** A flag set at a hit, cleared at an off, set exactly when there is a hit with no off after it. */
  lemma {:induction false} Latch(flag: seq<bool>, hits: seq<bool>, offs: seq<bool>, n: nat)
    requires LatchOk(flag, hits, offs) && n < |flag|
    ensures flag[n] <==> Latched(hits, offs, n)
  {
    if n > 0 {
      assert LatchAt(flag, hits, offs, n - 1);
      Latch(flag, hits, offs, n - 1);
      if flag[n - 1] && !offs[n - 1] {
        var m :| 0 <= m < n - 1 && hits[m] && forall k :: m < k < n - 1 ==> !offs[k];
        assert hits[m] && forall k :: m < k < n ==> !offs[k];
      }
    }
  }

  lemma FreshUnarmed(src: PickerRows.Sources, active: Option<RowId>)
    ensures !Fresh(src, active).armed
  {
  }

  function Armings(states: seq<State>): seq<bool> {
    seq(|states|, i requires 0 <= i < |states| => states[i].armed)
  }

  function Hits(states: seq<State>, events: seq<Event>): seq<bool>
    requires |events| <= |states|
  {
    seq(|events|, i requires 0 <= i < |events| => HitsXai(states[i], events[i]))
  }

  function Offs(states: seq<State>, events: seq<Event>): seq<bool>
    requires |events| <= |states|
  {
    seq(|events|, i requires 0 <= i < |events| => Disarms(states[i], events[i]))
  }

  /** Some earlier Enter reached the xAI row and nothing has disarmed it since. */
  predicate Acknowledged(states: seq<State>, events: seq<Event>, n: nat)
    requires n <= |events| <= |states|
  {
    Latched(Hits(states, events), Offs(states, events), n)
  }

  lemma ArmedNext(src: PickerRows.Sources, active: Option<RowId>, states: seq<State>, events: seq<Event>, i: nat)
    requires IsRun(src, active, states, events) && i < |events|
    ensures LatchAt(Armings(states), Hits(states, events), Offs(states, events), i)
  {
    assert StateAt(src, active, states, events, i + 1);
    StepArmed(states[i], events[i]);
  }

  lemma StartsUnarmed(src: PickerRows.Sources, active: Option<RowId>, states: seq<State>, events: seq<Event>)
    requires IsRun(src, active, states, events)
    ensures !states[0].armed
  {
    assert StateAt(src, active, states, events, 0);
    FreshUnarmed(src, active);
  }

  lemma ArmingsLatch(src: PickerRows.Sources, active: Option<RowId>, states: seq<State>, events: seq<Event>)
    requires IsRun(src, active, states, events)
    ensures LatchOk(Armings(states), Hits(states, events), Offs(states, events))
  {
    assert !Armings(states)[0] by { StartsUnarmed(src, active, states, events); }
    forall i: nat | i < |events| ensures LatchAt(Armings(states), Hits(states, events), Offs(states, events), i) {
      ArmedNext(src, active, states, events, i);
    }
  }

  lemma ArmedIff(
    src: PickerRows.Sources, active: Option<RowId>, states: seq<State>, events: seq<Event>, n: nat)
    requires IsRun(src, active, states, events) && n <= |events|
    ensures states[n].armed <==> Acknowledged(states, events, n)
  {
    ArmingsLatch(src, active, states, events);
    Latch(Armings(states), Hits(states, events), Offs(states, events), n);
  }

  /** Over every run, the login starts exactly at an Enter on the xAI row that follows another Enter on
      it with nothing that disarms it in between. */
  lemma LoginTakesTwoEnters(
    src: PickerRows.Sources, active: Option<RowId>, states: seq<State>, events: seq<Event>, n: nat)
    requires IsRun(src, active, states, events) && n < |events|
    ensures Step(states[n], events[n]).1 == StartOptionalXaiLogin <==>
      HitsXai(states[n], events[n]) && Acknowledged(states, events, n)
  {
    ArmedIff(src, active, states, events, n);
    StepArmed(states[n], events[n]);
  }

  // ------------------------------------------------------------- the sub-menus

  /** In a sub-menu opened from `row`. */
  predicate InsideOf(s: State, row: Row) {
    && s.submenu.Some? && s.parent == Some(Id(row)) && OpensSomething(Id(row))
    && row in s.rows && ShownByDefault(s, row)
  }

  /** Neither a snapshot, nor a change of focus, nor a show-all toggle. */
  predicate Quiet(e: Event) {
    e.Prompt? || e.Reload? || (e.Key? && !e.input.ToggleShowAll?)
  }

  lemma SameId(rows: seq<Row>, a: Row, b: Row)
    requires DistinctIds(rows) && a in rows && b in rows && Id(a) == Id(b)
    ensures a == b
  {
  }

  lemma ClosingReturns(s: State, row: Row)
    requires Good(s) && InsideOf(s, row)
    ensures CloseSubmenu(s).submenu.None? && Selected(CloseSubmenu(s)) == Some(row)
  {
    var t := s.(submenu := None, filter := "", parent := None);
    FoundByParent(t, row);
    var i := Position(Visible(t), Id(row)).value;
    SameView(t, t.(selected := i));
  }

  lemma FoundByParent(t: State, row: Row)
    requires ListOk(t.rows) && t.submenu.None? && t.filter == ""
    requires row in t.rows && ShownByDefault(t, row) && OpensSomething(Id(row))
    ensures var at := Position(Visible(t), Id(row)); at.Some? && Visible(t)[at.value] == row
  {
    VisibleIs(t);
    TopRowsHas(t, t.rows, row);
    Listed(Visible(t), row);
    var found := Visible(t)[Position(Visible(t), Id(row)).value];
    TopRowsFrom(t, t.rows, found);
    SameId(t.rows, found, row);
  }

  lemma ClosesOnlyBack(s: State, row: Row)
    requires Good(s) && InsideOf(s, row)
    ensures var t := BackedOut(s).0;
      if t.submenu.Some? then InsideOf(t, row) else Selected(t) == Some(row)
  {
    if s.filter == "" && !s.armed { ClosingReturns(s, row); }
  }

  lemma LeftReturns(s: State, row: Row)
    requires Good(s) && InsideOf(s, row)
    ensures var t := CloseSubmenu(s).(armed := false); t.submenu.None? && Selected(t) == Some(row)
  {
    ClosingReturns(s, row);
    SameView(CloseSubmenu(s), CloseSubmenu(s).(armed := false));
  }

  /** Nothing listed in a sub-menu opens another one. */
  lemma EnterStaysInside(s: State, openOnly: bool, late: bool)
    requires Good(s) && s.submenu.Some?
    ensures var t := EnteredSelected(s, openOnly, late).0;
      t == s
  {
    if Selected(s).Some? { VisibleFrom(s, Selected(s).value); }
  }

  lemma KeyStaysOrReturns(s: State, input: Input, late: bool, row: Row)
    requires Good(s) && InsideOf(s, row) && !input.ToggleShowAll?
    ensures var t := Handled(s, input, late).0;
      if t.submenu.Some? then InsideOf(t, row) else Selected(t) == Some(row)
  {
    if s.keyEntry.Some? {
      EntryStaysInside(s, input, late, row);
    } else if input.Left? {
      LeftReturns(s, row);
    } else if input.Back? {
      ClosesOnlyBack(s, row);
    } else if input.Open? || input.Enter? {
      EnterStaysInside(s, input.Open?, late);
    } else {
      OtherKeysStayInside(s, input, late, row);
    }
  }

  lemma EntryStaysInside(s: State, input: Input, late: bool, row: Row)
    requires InsideOf(s, row) && s.keyEntry.Some?
    ensures InsideOf(Handled(s, input, late).0, row)
  {
  }

  lemma OtherKeysStayInside(s: State, input: Input, late: bool, row: Row)
    requires InsideOf(s, row) && s.keyEntry.None? && !input.ToggleShowAll?
    requires !input.Left? && !input.Back? && !input.Open? && !input.Enter?
    ensures InsideOf(Handled(s, input, late).0, row)
  {
  }

  lemma OpenedFrom(s: State, row: Row, submenu: Submenu)
    requires row in s.rows && ShownByDefault(s, row) && OpensSomething(Id(row))
    ensures InsideOf(OpenSubmenu(s, row, submenu), row)
  {
    var t := s.(parent := Some(Id(row)), submenu := Some(submenu), filter := "", armed := false, selected := 0);
    assert InsideOf(t, row);
    SelectingKeepsInside(t, row);
  }

  lemma SelectingKeepsInside(t: State, row: Row)
    requires InsideOf(t, row)
    ensures InsideOf(SelectActive(t), row)
  {
  }

  lemma EnteredFrom(s: State, row: Row, late: bool)
    requires Good(s) && s.submenu.None? && row in Visible(s)
    ensures var t := Entered(s, row, late).0; t.submenu.Some? ==> InsideOf(t, row)
  {
    VisibleFrom(s, row);
    match row.kind
    case Engine(m) => OpenedFrom(s, row, OfEffort(m));
    case ApiKeys => OpenedFrom(s, row, OfApiKeys);
    case Vendor(rail) => OpenedFrom(s, row, OfVendor(rail));
    case _ =>
  }

  lemma EnterSelectedFrom(s: State, openOnly: bool, late: bool)
    requires Good(s) && s.submenu.None?
    ensures var t := EnteredSelected(s, openOnly, late).0;
      t.submenu.Some? ==> Selected(s).Some? && InsideOf(t, Selected(s).value)
  {
    if Selected(s).Some? { EnteredFrom(s, Selected(s).value, late); }
  }

  lemma OpeningIsInside(s: State, e: Event)
    requires Good(s) && s.submenu.None? && Next(s, e).submenu.Some?
    ensures Selected(s).Some? && InsideOf(Next(s, e), Selected(s).value)
  {
    match e
    case Key(input, late) => KeyOpens(s, input, late);
    case Load(sources, rails) => LoadOpensNothing(s, RowsOf(sources), rails);
    case Refocus(focus) => FocusOpensNothing(s, focus);
    case Prompt(_) =>
    case Reload =>
  }

  lemma SelectingOpensNothing(s: State, id: Option<RowId>)
    ensures SelectActive(s).submenu == s.submenu && SelectId(s, id).submenu == s.submenu
    ensures SelectFirstVendor(s).submenu == s.submenu && Clamp(s).submenu == s.submenu
  {
  }

  lemma LoadOpensNothing(s: State, all: seq<Row>, rails: seq<RailState>)
    requires s.submenu.None?
    ensures Snapshot(s, all, rails).submenu.None?
  {
    SettledOpensNothing(Loaded(s, all, rails), SelectedId(s), s.loading);
  }

  lemma SettledOpensNothing(t: State, prev: Option<RowId>, firstLoad: bool)
    requires t.submenu.None?
    ensures Settled(t, prev, firstLoad).submenu.None?
  {
    SelectingOpensNothing(t, prev);
    SelectingOpensNothing(Reselect(t, prev, firstLoad), prev);
  }

  lemma FocusOpensNothing(s: State, focus: Focus)
    ensures Focused(s, focus).submenu.None?
  {
  }

  lemma KeyOpens(s: State, input: Input, late: bool)
    requires Good(s) && s.submenu.None? && Handled(s, input, late).0.submenu.Some?
    ensures Selected(s).Some? && InsideOf(Handled(s, input, late).0, Selected(s).value)
  {
    if input.Open? || input.Enter? {
      EnterSelectedFrom(s, input.Open?, late);
    } else {
      OtherKeysOpenNothing(s, input, late);
    }
  }

  lemma OtherKeysOpenNothing(s: State, input: Input, late: bool)
    requires s.submenu.None? && !input.Open? && !input.Enter?
    ensures Handled(s, input, late).0.submenu.None?
  {
    if s.keyEntry.None? {
      if input.ToggleShowAll? {
        SelectingOpensNothing(s.(showAll := !s.showAll), SelectedId(s));
      } else if !input.Back? {
        OrdinaryKeysOpenNothing(s, input, late);
      }
    }
  }

  lemma OrdinaryKeysOpenNothing(s: State, input: Input, late: bool)
    requires s.submenu.None? && s.keyEntry.None?
    requires !input.ToggleShowAll? && !input.Back? && !input.Open? && !input.Enter?
    ensures Handled(s, input, late).0.submenu.None?
  {
  }

  lemma QuietStep(s: State, e: Event, row: Row)
    requires Good(s) && InsideOf(s, row) && Quiet(e)
    ensures var t := Next(s, e); if t.submenu.Some? then InsideOf(t, row) else Selected(t) == Some(row)
  {
    if e.Key? { KeyStaysOrReturns(s, e.input, e.late, row); }
  }

  lemma {:induction false} StaysInside(
    src: PickerRows.Sources, active: Option<RowId>, states: seq<State>, events: seq<Event>, n: nat, m: nat, row: Row)
    requires IsRun(src, active, states, events) && n <= m < |events| && forall e :: e in events ==> Legal(e)
    requires InsideOf(states[n], row)
    requires forall k :: n <= k <= m ==> states[k].submenu.Some? && Quiet(events[k])
    ensures InsideOf(states[m], row)
  {
    if n < m {
      StaysInside(src, active, states, events, n, m - 1, row);
      StaysAt(src, active, states, events, m - 1, row);
    }
  }

  lemma StaysAt(
    src: PickerRows.Sources, active: Option<RowId>, states: seq<State>, events: seq<Event>, k: nat, row: Row)
    requires IsRun(src, active, states, events) && k < |events| && forall e :: e in events ==> Legal(e)
    requires InsideOf(states[k], row) && Quiet(events[k]) && states[k + 1].submenu.Some?
    ensures InsideOf(states[k + 1], row)
  {
    SelectionAlwaysOk(src, active, states, events, k);
    assert StateAt(src, active, states, events, k + 1);
    QuietStep(states[k], events[k], row);
  }

  lemma OpenedAt(src: PickerRows.Sources, active: Option<RowId>, states: seq<State>, events: seq<Event>, n: nat)
    requires IsRun(src, active, states, events) && n < |events| && forall e :: e in events ==> Legal(e)
    requires states[n].submenu.None? && states[n + 1].submenu.Some?
    ensures Selected(states[n]).Some? && InsideOf(states[n + 1], Selected(states[n]).value)
  {
    SelectionAlwaysOk(src, active, states, events, n);
    assert StateAt(src, active, states, events, n + 1);
    OpeningIsInside(states[n], events[n]);
  }

  lemma LeftAt(src: PickerRows.Sources, active: Option<RowId>, states: seq<State>, events: seq<Event>, m: nat, row: Row)
    requires IsRun(src, active, states, events) && m < |events| && forall e :: e in events ==> Legal(e)
    requires InsideOf(states[m], row) && Quiet(events[m]) && states[m + 1].submenu.None?
    ensures Selected(states[m + 1]) == Some(row)
  {
    SelectionAlwaysOk(src, active, states, events, m);
    assert StateAt(src, active, states, events, m + 1);
    QuietStep(states[m], events[m], row);
  }

  lemma LeavesLater(
    src: PickerRows.Sources, active: Option<RowId>, states: seq<State>, events: seq<Event>, n: nat, m: nat, row: Row)
    requires IsRun(src, active, states, events) && n <= m < |events| && forall e :: e in events ==> Legal(e)
    requires InsideOf(states[n], row) && states[m + 1].submenu.None?
    requires forall k :: n <= k <= m ==> states[k].submenu.Some? && Quiet(events[k])
    ensures Selected(states[m + 1]) == Some(row)
  {
    StaysInside(src, active, states, events, n, m, row);
    LeftAt(src, active, states, events, m, row);
  }

  /** Leaving a sub-menu, with no snapshot, change of focus or show-all toggle since it was opened,
      lands on the row it was opened from. */
  lemma LeavingReturns(
    src: PickerRows.Sources, active: Option<RowId>, states: seq<State>, events: seq<Event>, n: nat, m: nat)
    requires IsRun(src, active, states, events) && n < m < |events| && forall e :: e in events ==> Legal(e)
    requires states[n].submenu.None? && states[m + 1].submenu.None?
    requires forall k :: n < k <= m ==> states[k].submenu.Some? && Quiet(events[k])
    ensures Selected(states[n]).Some? && Selected(states[m + 1]) == Selected(states[n])
  {
    OpenedAt(src, active, states, events, n);
    LeavesLater(src, active, states, events, n + 1, m, Selected(states[n]).value);
  }
}
