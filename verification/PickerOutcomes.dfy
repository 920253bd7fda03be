/** What each key press means: every outcome comes from exactly the row, or the key, that stands for it; which
    rows open which sub-menu; what is shown there; and how Esc leads out. */
module PickerOutcomes {
  import opened Text
  import opened Rows
  import opened Picker
  import opened PickerRuns
  import PickerRows
  import PickerKeys

  /** Enter is pressed on a row, and no prompt takes it. */
  predicate Enters(s: State, e: Event) {
    e.Key? && e.input.Enter? && s.keyEntry.None? && Selected(s).Some?
  }

  /** Enter on a vendor's row whose state is known. */
  predicate EntersVendor(s: State, e: Event, rail: Rail) {
    Enters(s, e) && Selected(s).value.kind == Vendor(rail) && RailOf(s.rails, rail).Some?
  }

  /** The vendor is signed in and has models: its row opens them. */
  predicate HasModels(s: State, rail: Rail) {
    RailOf(s.rails, rail).Some? && RailOf(s.rails, rail).value.pill == Ready && RailOf(s.rails, rail).value.models != []
  }

  /** The vendor's row neither retries an overdue load, nor installs, nor opens its models. */
  predicate IsIdle(s: State, rail: Rail, late: bool)
    requires RailOf(s.rails, rail).Some?
  {
    var state := RailOf(s.rails, rail).value;
    && !(state.pill == Detecting && s.loading && late)
    && !(state.pill == Install && !state.installed)
    && !(state.pill == Ready && state.models != [])
  }

  /** A catalog model is chosen by Enter on its row, exactly if it is not locked. */
  lemma SelectsCatalogIff(s: State, e: Event, key: string)
    ensures Step(s, e).1 == SelectCatalog(key) <==>
      Enters(s, e) && Selected(s).value.kind.Catalog? && Selected(s).value.kind.key == key
      && !Selected(s).value.kind.locked
  {
    WhatEnterSays(s, e);
  }

  /** A provider is connected by Enter on its own row, or on a locked model of it. */
  lemma ConnectsIff(s: State, e: Event, provider: string)
    ensures Step(s, e).1 == ConnectProvider(provider) <==>
      Enters(s, e)
      && (var kind := Selected(s).value.kind;
          kind == Connect(provider) || (kind.Catalog? && kind.provider == provider && kind.locked))
  {
    WhatEnterSays(s, e);
  }

  /** An OpenCode model is chosen by Enter on a row without levels, or on one of its levels. */
  lemma SelectsEngineIff(s: State, e: Event, m: EngineModel)
    ensures Step(s, e).1 == SelectEngine(m) <==>
      Enters(s, e)
      && (var kind := Selected(s).value.kind; kind == Effort(m) || (kind == Engine(m) && m.variants == []))
  {
    WhatEnterSays(s, e);
  }

  /** A vendor's model is chosen by Enter on it. */
  lemma SelectsRailModelIff(s: State, e: Event, rail: Rail, key: string)
    ensures Step(s, e).1 == SelectRailModel(rail, key) <==>
      Enters(s, e) && Selected(s).value.kind == RailModel(rail, key)
  {
    WhatEnterSays(s, e);
  }

  /** The rows of vendors: one that is not installed is installed; one that has nothing else to do asks again
      for models it failed to get, or else connects. */
  lemma InstallsIff(s: State, e: Event, rail: Rail)
    ensures Step(s, e).1 == RailInstall(rail) <==>
      EntersVendor(s, e, rail) && RailOf(s.rails, rail).value.pill == Install && !RailOf(s.rails, rail).value.installed
  {
    WhatEnterSays(s, e);
  }

  lemma RailConnectsIff(s: State, e: Event, rail: Rail)
    ensures Step(s, e).1 == RailConnect(rail) <==>
      EntersVendor(s, e, rail) && IsIdle(s, rail, e.late) && !RailOf(s.rails, rail).value.failed
      && RailOf(s.rails, rail).value.showConnect
  {
    WhatEnterSays(s, e);
  }

  lemma RetriesIff(s: State, e: Event)
    ensures Step(s, e).1 == RetryRailModels <==>
      Enters(s, e) && Selected(s).value.kind.Vendor?
      && (var rail := Selected(s).value.kind.rail;
          RailOf(s.rails, rail).Some? && IsIdle(s, rail, e.late) && RailOf(s.rails, rail).value.failed)
  {
    WhatEnterSays(s, e);
  }

  /** The lists are loaded again on the refresh key, and on Enter on a vendor that a load has kept us
      waiting for. */
  lemma RefreshesIff(s: State, e: Event)
    ensures Step(s, e).1 == RefreshLists <==>
      || (e.Key? && e.input.Refresh? && s.keyEntry.None?)
      || (Enters(s, e) && Selected(s).value.kind.Vendor?
          && (var rail := Selected(s).value.kind.rail;
              RailOf(s.rails, rail).Some? && RailOf(s.rails, rail).value.pill == Detecting && s.loading && e.late))
  {
    if Enters(s, e) {
      WhatEnterSays(s, e);
    } else {
      WhatKeysSay(s, e);
    }
  }

  /** The picker closes on Esc with nothing left to undo. */
  lemma ClosesIff(s: State, e: Event)
    ensures Step(s, e).1 == Close <==>
      e.Key? && e.input.Back? && s.keyEntry.None? && s.filter == "" && !s.armed && s.submenu.None?
  {
    if Enters(s, e) {
      WhatEnterSays(s, e);
      EnterNeverCloses(s, Selected(s).value, e.late);
    } else {
      WhatKeysSay(s, e);
    }
  }

  /** A key is saved on Enter in a prompt that is not blank, trimmed. */
  lemma SavesIff(s: State, e: Event, provider: string, key: string)
    ensures Step(s, e).1 == SaveKey(provider, key) <==>
      e.Key? && e.input.Enter? && s.keyEntry.Some? && s.keyEntry.value.provider == provider
      && key != "" && key == Trim(s.keyEntry.value.buffer)
  {
    if Enters(s, e) {
      WhatEnterSays(s, e);
      EnterNeverCloses(s, Selected(s).value, e.late);
    } else {
      WhatKeysSay(s, e);
    }
  }

  /** What Enter on a row says... */
  lemma WhatEnterSays(s: State, e: Event)
    ensures if Enters(s, e) then Step(s, e).1 == Entered(s, Selected(s).value, e.late).1
            else var out := Step(s, e).1; out.Changed? || out.Close? || out.RefreshLists? || out.SaveKey?
  {
    if Enters(s, e) {
      EnterKeys(s, e);
    } else {
      WhatKeysSay(s, e);
    }
  }

  /** ... and what anything else does. */
  lemma WhatKeysSay(s: State, e: Event)
    requires !Enters(s, e)
    ensures Step(s, e).1 ==
      if e.Key? && s.keyEntry.Some? then Entry(s.keyEntry.value, e.input).1
      else if e.Key? && e.input.Refresh? then RefreshLists
      else if e.Key? && e.input.Back? && s.filter == "" && !s.armed && s.submenu.None? then Close
      else Changed
  {
    if e.Key? && s.keyEntry.None? {
      if e.input.Enter? || e.input.Open? {
        EnterKeys(s, e);
        OpenSaysNothing(s, e.late);
      } else {
        OtherKeysSay(s, e.input, e.late);
      }
    }
  }

  lemma OpenSaysNothing(s: State, late: bool)
    ensures EnteredSelected(s, true, late).1 == Changed
  {
    if Selected(s).Some? && IsExpandable(s, Selected(s).value) { ExpandableSaysNothing(s, Selected(s).value, late); }
  }

  lemma OtherKeysSay(s: State, input: Input, late: bool)
    requires s.keyEntry.None? && !input.Enter? && !input.Open?
    ensures Handled(s, input, late).1 ==
      if input.Refresh? then RefreshLists
      else if input.Back? && s.filter == "" && !s.armed && s.submenu.None? then Close
      else Changed
  {
  }

  lemma EnterNeverCloses(s: State, row: Row, late: bool)
    ensures var out := Entered(s, row, late).1; !out.Close? && !out.SaveKey?
  {
  }

  lemma ExpandableSaysNothing(s: State, row: Row, late: bool)
    requires IsExpandable(s, row)
    ensures Entered(s, row, late).1 == Changed
  {
  }

  // --------------------------------------------------------------- the sub-menus

  /** The sub-menu a row stands for. */
  function Behind(s: State, row: Row): Option<Submenu> {
    if row.kind.Engine? && row.kind.model.variants != [] then Some(OfEffort(row.kind.model))
    else if row.kind.ApiKeys? then Some(OfApiKeys)
    else if row.kind.Vendor? && HasModels(s, row.kind.rail) then Some(OfVendor(row.kind.rail))
    else None
  }

  /** A press of Enter or of the open key that opens a sub-menu. */
  predicate Opens(s: State, e: Event) {
    && e.Key? && (e.input.Enter? || e.input.Open?) && s.keyEntry.None?
    && Selected(s).Some? && Behind(s, Selected(s).value).Some?
  }

  /** A press of Left, or of Esc with nothing else to undo. */
  predicate Leaves(s: State, e: Event) {
    e.Key? && s.keyEntry.None? && (e.input.Left? || (e.input.Back? && s.filter == "" && !s.armed))
  }

  /** A key opens the sub-menu behind the highlighted row, with that row to come back to and an empty filter;
      or leaves the one that is open; or does neither. */
  lemma SubmenuAfter(s: State, e: Event)
    requires e.Key?
    ensures var t := Next(s, e);
      t.submenu == (if Opens(s, e) then Behind(s, Selected(s).value) else if Leaves(s, e) then None else s.submenu)
    ensures Opens(s, e) ==> Next(s, e).parent == Some(Id(Selected(s).value)) && Next(s, e).filter == ""
  {
    if s.keyEntry.None? {
      if e.input.Enter? || e.input.Open? {
        SubmenuAfterEnter(s, e.input.Open?, e.late);
      } else if e.input.Back? {
        BackLeaves(s);
      } else {
        OtherKeysStay(s, e.input, e.late);
      }
    }
  }

  lemma SubmenuAfterEnter(s: State, openOnly: bool, late: bool)
    ensures var t := EnteredSelected(s, openOnly, late).0;
      if Selected(s).Some? && Behind(s, Selected(s).value).Some? then
        && t.submenu == Behind(s, Selected(s).value) && t.parent == Some(Id(Selected(s).value)) && t.filter == ""
      else t.submenu == s.submenu
  {
    if Selected(s).Some? {
      var row := Selected(s).value;
      ExpandableIff(s, row);
      if Behind(s, row).Some? {
        OpensBehind(s, row, late);
        OpenedOn(s, row, Behind(s, row).value);
      } else {
        StaysShut(s, row, late);
      }
    }
  }

  lemma ExpandableIff(s: State, row: Row)
    ensures IsExpandable(s, row) <==> Behind(s, row).Some?
  {
  }

  lemma OpensBehind(s: State, row: Row, late: bool)
    requires Behind(s, row).Some?
    ensures Entered(s, row, late) == (OpenSubmenu(s, row, Behind(s, row).value), Changed)
  {
  }

  lemma StaysShut(s: State, row: Row, late: bool)
    requires Behind(s, row).None?
    ensures Entered(s, row, late).0.submenu == s.submenu
  {
  }

  lemma {:induction false} SameActive(s: State, t: State, rows: seq<Row>)
    requires s.active == t.active
    ensures FirstActive(s, rows) == FirstActive(t, rows)
  {
    if rows != [] { SameActive(s, t, rows[1..]); }
  }

  lemma OpenedOn(s: State, row: Row, submenu: Submenu)
    ensures var t := OpenSubmenu(s, row, submenu);
      && t.submenu == Some(submenu) && t.parent == Some(Id(row)) && t.filter == "" && !t.armed
      && t.selected == (if ActiveIndex(t).Some? then ActiveIndex(t).value else 0)
  {
    var u := s.(parent := Some(Id(row)), submenu := Some(submenu), filter := "", armed := false, selected := 0);
    OnlyTheHighlight(u);
    SelectedActive(u);
  }

  lemma OnlyTheHighlight(u: State)
    ensures var t := SelectActive(u);
      t.submenu == u.submenu && t.parent == u.parent && t.filter == u.filter && t.armed == u.armed
  {
  }

  lemma SelectedActive(u: State)
    requires u.selected == 0
    ensures var t := SelectActive(u); t.selected == if ActiveIndex(t).Some? then ActiveIndex(t).value else 0
  {
    SameView(u, SelectActive(u));
    SameActive(u, SelectActive(u), Visible(u));
  }

  lemma BackLeaves(s: State)
    ensures BackedOut(s).0.submenu == if s.filter == "" && !s.armed then None else s.submenu
  {
  }

  lemma OtherKeysStay(s: State, input: Input, late: bool)
    requires s.keyEntry.None? && !input.Enter? && !input.Open? && !input.Back?
    ensures Handled(s, input, late).0.submenu == if input.Left? then None else s.submenu
  {
    if input.ToggleShowAll? { assert Handled(s, input, late).0 == Toggled(s); }
  }

  /** A sub-menu opens on the active connection's row if it is there, otherwise on the first. */
  lemma OpensOnActive(s: State, e: Event)
    requires Opens(s, e)
    ensures var t := Next(s, e);
      t.selected == (if ActiveIndex(t).Some? then ActiveIndex(t).value else 0) && !t.armed
  {
    NextOpens(s, e);
    OpenedOn(s, Selected(s).value, Behind(s, Selected(s).value).value);
  }

  // ------------------------------------------------------- what a sub-menu shows

  lemma {:induction false} UnfilteredAll(rows: seq<Row>)
    ensures Matching("", rows) == rows
  {
    if rows != [] {
      UnfilteredAll(rows[1..]);
      assert Matches("", rows[0]);
    }
  }

  /** The row stands for the model at this level, and is found by the level's name. */
  predicate ShowsLevel(r: Row, m: EngineModel, level: Option<string>, title: string) {
    r.kind == Effort(m.(effort := level)) && r.hay == Lower(title + " " + "OpenCode")
  }

  /** The row stands for the vendor's model, and is found by its name and the vendor's. */
  predicate ShowsRailModel(r: Row, rail: Rail, m: RailModelRef) {
    r.kind == RailModel(rail, m.key)
    && r.hay == Lower(m.display + " "
                      + match rail case Claude => "Claude" case Codex => "Codex" case Cursor => "Cursor")
  }

  /** The levels of an OpenCode model: the default and then each level, in the model's order, as the model
      with that level. */
  lemma EffortsShown(s: State, m: EngineModel)
    requires s.submenu == Some(OfEffort(m)) && s.filter == ""
    ensures |Visible(s)| == 1 + |m.variants| && ShowsLevel(Visible(s)[0], m, None, "Default")
    ensures forall i :: 0 <= i < |m.variants| ==>
      ShowsLevel(Visible(s)[i + 1], m, Some(m.variants[i]), m.variants[i])
  {
    UnfilteredAll(EffortRows(m));
  }

  /** The models of a vendor: all of them, in the order it named them, once it is signed in. */
  lemma VendorShown(s: State, rail: Rail)
    requires s.submenu == Some(OfVendor(rail)) && s.filter == "" && RailOf(s.rails, rail).Some?
    ensures var state := RailOf(s.rails, rail).value;
      if state.pill != Ready then Visible(s) == []
      else |Visible(s)| == |state.models|
           && forall i :: 0 <= i < |state.models| ==> ShowsRailModel(Visible(s)[i], rail, state.models[i])
  {
    UnfilteredAll(VendorRows(s.rails, rail));
    ModelKinds(rail, RailOf(s.rails, rail).value.models);
  }

  lemma {:induction false} ModelKinds(rail: Rail, models: seq<RailModelRef>)
    ensures forall i :: 0 <= i < |models| ==> ShowsRailModel(ModelRows(rail, models)[i], rail, models[i])
  {
    if models != [] {
      ModelKinds(rail, models[1..]);
      assert forall i :: 1 <= i < |models| ==> models[i] == models[1..][i - 1];
    }
  }

  /** The providers to connect, all of them. */
  lemma ApiKeysShown(s: State)
    requires s.submenu == Some(OfApiKeys) && s.filter == ""
    ensures Visible(s) == s.connectRows
  {
    UnfilteredAll(s.connectRows);
  }

  /** In a sub-menu with a filter: its rows that match. */
  lemma SubmenuFinds(s: State, row: Row)
    requires s.submenu.Some?
    ensures row in Visible(s) <==> row in SubmenuRows(s, s.submenu.value) && Matches(s.filter, row)
  {
    PickerKeys.MatchingIff(s.filter, SubmenuRows(s, s.submenu.value), row);
  }

  /** The list without a filter shows its own rows, except hidden ones, and under each vendor its models. */
  lemma {:induction false} TopRowsIff(s: State, rows: seq<Row>, row: Row)
    ensures row in TopRows(s, rows) <==>
      exists i :: 0 <= i < |rows| && ShownByDefault(s, rows[i])
                  && (row == rows[i] || (rows[i].kind.Vendor? && row in VendorRows(s.rails, rows[i].kind.rail)))
  {
    if rows != [] {
      TopRowsIff(s, rows[1..], row);
      assert forall i :: 1 <= i < |rows| ==> rows[i] == rows[1..][i - 1];
    }
  }

  /** A matching row is found wherever it lives: in the list, among the models of a signed-in vendor, or among
      the providers to connect. */
  lemma FilterReaches(s: State, row: Row, holder: Row)
    requires s.submenu.None? && Filtered(s) && Matches(s.filter, row) && holder in s.rows
    requires || (row == holder && ShownByDefault(s, row))
             || (holder.kind.ApiKeys? && row in s.connectRows)
             || (holder.kind.Vendor? && row in VendorRows(s.rails, holder.kind.rail))
    ensures row in Visible(s)
  {
    var i :| 0 <= i < |s.rows| && s.rows[i] == holder;
    assert PickerKeys.LivesUnder(s, s.rows[i], row);
    PickerKeys.FilterFinds(s, row);
  }

  /** With one of a model's levels in use, its levels open on that one. */
  lemma OpensOnLevelInUse(s: State, e: Event, m: EngineModel, level: string)
    requires Opens(s, e) && Selected(s).value.kind == Engine(m) && level in m.variants
    requires s.active == Some(EngineId(m.ref, Some(level)))
    ensures Selected(Next(s, e)).Some? && Selected(Next(s, e)).value.kind == Effort(m.(effort := Some(level)))
  {
    var row := Selected(s).value;
    NextOpens(s, e);
    OpenedOn(s, row, OfEffort(m));
    OpenedActive(s, row, OfEffort(m));
    LevelSelected(OpenSubmenu(s, row, OfEffort(m)), m, level);
  }

  lemma NextOpens(s: State, e: Event)
    requires Opens(s, e)
    ensures Next(s, e) == OpenSubmenu(s, Selected(s).value, Behind(s, Selected(s).value).value)
  {
    EnterKeys(s, e);
    EnteredOpens(s, e.input.Open?, e.late);
  }

  lemma EnteredOpens(s: State, openOnly: bool, late: bool)
    requires Selected(s).Some? && Behind(s, Selected(s).value).Some?
    ensures EnteredSelected(s, openOnly, late).0 ==
      OpenSubmenu(s, Selected(s).value, Behind(s, Selected(s).value).value)
  {
    ExpandableIff(s, Selected(s).value);
    OpensBehind(s, Selected(s).value, late);
  }

  lemma EnterKeys(s: State, e: Event)
    requires e.Key? && (e.input.Enter? || e.input.Open?) && s.keyEntry.None?
    ensures Step(s, e) == EnteredSelected(s, e.input.Open?, e.late)
  {
    if e.input.Enter? { EnterKey(s, e.late); } else { OpenKey(s, e.late); }
  }

  lemma EnterKey(s: State, late: bool)
    requires s.keyEntry.None?
    ensures Handled(s, Enter, late) == EnteredSelected(s, false, late)
  {
  }

  lemma OpenKey(s: State, late: bool)
    requires s.keyEntry.None?
    ensures Handled(s, Input.Open, late) == EnteredSelected(s, true, late)
  {
  }

  lemma OpenedActive(s: State, row: Row, submenu: Submenu)
    ensures OpenSubmenu(s, row, submenu).active == s.active
  {
  }

  lemma LevelSelected(t: State, m: EngineModel, level: string)
    requires t.submenu == Some(OfEffort(m)) && t.filter == "" && level in m.variants
    requires t.active == Some(EngineId(m.ref, Some(level)))
    requires t.selected == if ActiveIndex(t).Some? then ActiveIndex(t).value else 0
    ensures Selected(t).Some? && Selected(t).value.kind == Effort(m.(effort := Some(level)))
  {
    EffortsShown(t, m);
    LevelFound(Visible(t), m, level);
  }

  lemma LevelFound(rows: seq<Row>, m: EngineModel, level: string)
    requires |rows| == 1 + |m.variants| && rows[0].kind == Effort(m.(effort := None)) && level in m.variants
    requires forall i :: 0 <= i < |m.variants| ==> rows[i + 1].kind == Effort(m.(effort := Some(m.variants[i])))
    ensures var at := Position(rows, EngineId(m.ref, Some(level)));
      at.Some? && rows[at.value].kind == Effort(m.(effort := Some(level)))
  {
    var i :| 0 <= i < |m.variants| && m.variants[i] == level;
    assert rows[i + 1] in rows && Id(rows[i + 1]) == EngineId(m.ref, Some(level));
    var at := Position(rows, EngineId(m.ref, Some(level)));
    assert at.value > 0 ==> rows[at.value - 1 + 1].kind == Effort(m.(effort := Some(m.variants[at.value - 1])));
  }
}
