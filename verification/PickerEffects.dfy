/** What loads and the plain keys do to the picker, told of what is on screen: which rows are there after a
    load and in what order, what typing and erasing come to, and how Esc leads out. */
module PickerEffects {
  import opened Text
  import opened Rows
  import opened Picker
  import opened PickerRuns
  import PickerRows
  import RowMerge
  import RowOrder
  import TextLaws

  // ----------------------------------------------------------------------- loads

  /** What a load leaves of the state apart from the highlight: the filter, the prompt and the choice to show
      all stay; the connect rows and, if there are any, the rails are the new ones; it counts as loaded. */
  lemma LoadTakes(s: State, src: PickerRows.Sources, rails: seq<RailState>)
    requires PickerRows.WellFormed(src)
    ensures var t := Next(s, Load(Some(src), rails));
      && t.rows == (if s.loading || s.rows == [] then PickerRows.ListRows(src)
                    else RowMerge.Merge(s.rows, PickerRows.ListRows(src)))
      && t.connectRows == PickerRows.Connects(src) && t.rails == (if rails == [] then s.rails else rails)
      && !t.loading && !t.armed && t.keyEntry == s.keyEntry && t.showAll == s.showAll && t.active == s.active
  {
    PickerRows.SplitRows(src);
    assert PickerRows.AllRows(src)[|PickerRows.AllRows(src)| - 1] == PickerRows.XaiRow;
    SettledTakes(Loaded(s, PickerRows.AllRows(src), rails), SelectedId(s), s.loading);
  }

  lemma SettledTakes(t: State, prev: Option<RowId>, firstLoad: bool)
    ensures Elsewise(t, Settled(t, prev, firstLoad))
  {
    var u := if t.submenu.Some? && Visible(t) == [] then CloseSubmenu(t) else Reselect(t, prev, firstLoad);
    assert Elsewise(t, u) by { ReselectTakes(t, prev, firstLoad); CloseTakes(t); }
    var v := if firstLoad && u.focusSubscriptions then SelectFirstVendor(u) else u;
    assert Elsewise(u, v);
    assert Elsewise(v, Clamp(v));
  }

  /** They differ at most in the highlight and in the sub-menu that is open. */
  predicate Elsewise(s: State, t: State) {
    t == s.(selected := t.selected, submenu := t.submenu, parent := t.parent, filter := t.filter)
  }

  lemma ReselectTakes(t: State, prev: Option<RowId>, firstLoad: bool)
    ensures Elsewise(t, Reselect(t, prev, firstLoad))
  {
  }

  lemma CloseTakes(t: State)
    ensures Elsewise(t, CloseSubmenu(t))
  {
  }

  /** What is in both lists is in the same order in both. */
  ghost predicate SameOrder(rows: seq<Row>, other: seq<Row>) {
    forall a, b | a in Ids(rows) * Ids(other) && b in Ids(rows) * Ids(other) && a != b ::
      RowOrder.Before(other, a, b) <==> RowOrder.Before(rows, a, b)
  }

  /** After a load the list has exactly the rows of the snapshot, each as the snapshot has it; a load that
      counts as a first one puts them in the snapshot's order, and any other leaves what stays on screen in
      the order it had. */
  lemma LoadShows(s: State, src: PickerRows.Sources, rails: seq<RailState>)
    requires PickerRows.WellFormed(src) && DistinctIds(s.rows)
    ensures var rows, latest := Next(s, Load(Some(src), rails)).rows, PickerRows.ListRows(src);
      && Ids(rows) == Ids(latest) && DistinctIds(rows) && (forall r :: r in rows ==> r in latest)
      && (s.loading ==> rows == latest)
      && (!s.loading ==> SameOrder(s.rows, rows))
  {
    var rows, latest := Next(s, Load(Some(src), rails)).rows, PickerRows.ListRows(src);
    LoadTakes(s, src, rails);
    PickerRows.ListDistinct(src);
    if s.loading || s.rows == [] {
      assert rows == latest;
    } else {
      RowMerge.MergeIds(s.rows, latest);
      forall r | r in rows ensures r in latest { RowMerge.MergeContent(s.rows, latest, r); }
      forall a, b | a in Ids(s.rows) * Ids(rows) && b in Ids(s.rows) * Ids(rows) && a != b
        ensures RowOrder.Before(rows, a, b) <==> RowOrder.Before(s.rows, a, b)
      {
        RowOrder.OrderStays(s.rows, latest, a, b);
      }
    }
  }

  /** A load without rows leaves the list alone. */
  lemma EmptyLoad(s: State, rails: seq<RailState>)
    ensures Next(s, Load(None, rails)).rows == s.rows && Next(s, Load(None, rails)).connectRows == s.connectRows
  {
    SettledTakes(Loaded(s, [], rails), SelectedId(s), s.loading);
  }

  // ------------------------------------------------------------------- the keys

  function Typing(s: State, text: string): State
    decreases |text|
  {
    if text == "" then s else Handled(Typing(s, text[..|text| - 1]), Typed(text[|text| - 1]), false).0
  }

  function Erasing(s: State, n: nat): State {
    if n == 0 then s else Handled(Erasing(s, n - 1), Backspace, false).0
  }

  predicate Printable(text: string) { forall i :: 0 <= i < |text| ==> !IsControl(text[i]) }

  /** Typing appends to the filter and goes to the top... */
  lemma {:induction false} TypingAppends(s: State, text: string)
    requires s.keyEntry.None? && text != "" && Printable(text)
    ensures Typing(s, text) == s.(filter := s.filter + text, selected := 0, armed := false)
    decreases |text|
  {
    var front := text[..|text| - 1];
    if front != "" { TypingAppends(s, front); }
    assert s.filter + front + [text[|text| - 1]] == s.filter + text;
    if front == "" { assert s.filter + front == s.filter; }
  }

  /** ... and as many erasures take it back. */
  lemma {:induction false} ErasingUndoes(s: State, t: State, text: string)
    requires s.keyEntry.None? && text != "" && t == s.(filter := s.filter + text, selected := 0, armed := false)
    ensures Erasing(t, |text|) == s.(selected := 0, armed := false)
  {
    ErasedTo(s, text, |text|);
    assert (s.filter + text)[..|s.filter|] == s.filter;
  }

  lemma {:induction false} ErasedTo(s: State, text: string, n: nat)
    requires s.keyEntry.None? && n <= |text|
    ensures var t := s.(filter := s.filter + text, selected := 0, armed := false);
      Erasing(t, n) == t.(filter := t.filter[..|t.filter| - n])
  {
    var t := s.(filter := s.filter + text, selected := 0, armed := false);
    if n == 0 {
      assert t.filter[..|t.filter|] == t.filter;
    } else {
      ErasedTo(s, text, n - 1);
      var f := t.filter[..|t.filter| - (n - 1)];
      assert f[..|f| - 1] == t.filter[..|t.filter| - n];
    }
  }

  /** A row matches exactly if every word of the filter stands somewhere in its text, in lower case. */
  lemma MatchesIff(filter: string, row: Row)
    ensures Matches(filter, row) <==> TextLaws.AllStand(row.hay, Words(Lower(Trim(filter))))
  {
    var words := Words(Lower(Trim(filter)));
    assert Lower(Trim(filter)) == "" ==> words == [];
    TextLaws.AllStandIff(row.hay, words);
  }

  predicate IsArrow(input: Input) {
    input.Up? || input.Down? || input.Home? || input.End? || input.PageUp? || input.PageDown?
  }

  /** An arrow, Home, End or a page key does nothing but move the highlight and disarm... */
  lemma ArrowKeys(s: State, input: Input, late: bool)
    requires s.keyEntry.None? && IsArrow(input)
    ensures Handled(s, input, late) == (MovedTo(s, input), Changed)
    ensures var t := MovedTo(s, input); t == s.(selected := t.selected, armed := false)
  {
  }

  /** ... an arrow to the neighbouring row, if there is one... */
  lemma ArrowGoes(s: State)
    requires SelectionOk(s)
    ensures var t := MovedTo(s, Down);
      if s.selected + 1 < |Visible(s)| then Selected(t) == Some(Visible(s)[s.selected + 1])
      else t.selected == s.selected
    ensures var t := MovedTo(s, Up);
      if s.selected > 0 then Selected(t) == Some(Visible(s)[s.selected - 1]) else t.selected == 0
  {
    SameView(s, MovedTo(s, Down));
    SameView(s, MovedTo(s, Up));
  }

  /** ... from where the other arrow goes back. */
  lemma ArrowsUndo(s: State)
    requires SelectionOk(s)
    ensures s.selected + 1 < |Visible(s)| ==> MovedTo(MovedTo(s, Down), Up) == s.(armed := false)
    ensures s.selected > 0 ==> MovedTo(MovedTo(s, Up), Down) == s.(armed := false)
  {
    SameView(s, MovedTo(s, Up));
  }

  /** How many presses of Esc it takes to close the picker. */
  function EscsToClose(s: State): nat {
    (if s.filter != "" then 1 else 0) + (if s.armed then 1 else 0) + (if s.submenu.Some? then 1 else 0) + 1
  }

  function Escaping(s: State, n: nat): (State, Outcome) {
    if n == 0 then (s, Changed) else Handled(Escaping(s, n - 1).0, Back, false)
  }

  /** Esc undoes one thing: the filter, the armed row, the sub-menu, in this order; then it closes. */
  lemma EscOnce(s: State)
    requires s.keyEntry.None?
    ensures var (t, out) := Handled(s, Back, false);
      && t.keyEntry.None? && (out == Close <==> EscsToClose(s) == 1) && (out != Close ==> out == Changed)
      && (out != Close ==> EscsToClose(t) == EscsToClose(s) - 1)
      && (s.filter != "" ==> t.filter == "" && t.armed == s.armed && t.submenu == s.submenu)
      && (s.filter == "" && s.armed ==> t == s.(armed := false))
      && (out == Close ==> t == s)
  {
    assert Handled(s, Back, false) == BackedOut(s);
    BackedTo(s);
  }

  lemma BackedTo(s: State)
    ensures BackedOut(s) ==
      if s.filter != "" then (SelectActive(s.(filter := "", selected := 0)), Changed)
      else if s.armed then (s.(armed := false), Changed)
      else if s.submenu.Some? then (CloseSubmenu(s), Changed)
      else (s, Close)
    ensures var t := SelectActive(s.(filter := "", selected := 0));
      t.filter == "" && t.armed == s.armed && t.submenu == s.submenu && t.keyEntry == s.keyEntry
    ensures var t := CloseSubmenu(s);
      t.filter == "" && t.armed == s.armed && t.submenu == None && t.keyEntry == s.keyEntry
  {
    Clearing(s);
    Closing(s);
  }

  lemma Clearing(s: State)
    ensures var t := SelectActive(s.(filter := "", selected := 0));
      t.filter == "" && t.armed == s.armed && t.submenu == s.submenu && t.keyEntry == s.keyEntry
  {
  }

  lemma Closing(s: State)
    ensures var t := CloseSubmenu(s);
      t.filter == "" && t.armed == s.armed && t.submenu == None && t.keyEntry == s.keyEntry
  {
  }

  /** From any state without a prompt, that many presses of Esc close the picker, and no fewer: at most four. */
  lemma {:induction false} EscapeCloses(s: State, n: nat)
    requires s.keyEntry.None? && 0 < n <= EscsToClose(s)
    ensures EscsToClose(s) <= 4
    ensures Escaping(s, n).1 == Close <==> n == EscsToClose(s)
    ensures n < EscsToClose(s) ==>
      Escaping(s, n).0.keyEntry.None? && EscsToClose(Escaping(s, n).0) == EscsToClose(s) - n
  {
    if n == 1 {
      assert Escaping(s, 0).0 == s;
      EscOnce(s);
    } else {
      EscapeCloses(s, n - 1);
      EscOnce(Escaping(s, n - 1).0);
    }
  }

  /** Hidden by default are exactly the models that are not for chat and not the active one. */
  lemma HiddenIff(s: State, row: Row)
    ensures !ShownByDefault(s, row) <==>
      && !s.showAll && !IsActive(s, row) && !row.chat
      && (row.kind.Catalog? || row.kind.Engine? || row.kind.Effort?)
  {
  }

  /** With all of them shown the list hides nothing... */
  lemma ToggleShows(s: State, late: bool)
    requires s.keyEntry.None? && s.submenu.None? && !Filtered(s) && !s.showAll
    ensures forall r :: r in s.rows ==> r in Visible(Handled(s, ToggleShowAll, late).0)
  {
    assert Handled(s, ToggleShowAll, late).0 == Toggled(s);
    ToggledTo(s);
    AllShown(Toggled(s));
  }

  /** ... and the key that shows them hides them again. */
  lemma ToggleTwice(s: State, late: bool)
    requires s.keyEntry.None?
    ensures Visible(Handled(Handled(s, ToggleShowAll, late).0, ToggleShowAll, late).0) == Visible(s)
  {
    assert Handled(s, ToggleShowAll, late).0 == Toggled(s);
    ToggledTo(s);
    ToggledBack(s, Toggled(s), late);
  }

  lemma ToggledBack(s: State, t: State, late: bool)
    requires s.keyEntry.None? && t == s.(showAll := !s.showAll, selected := t.selected)
    ensures Visible(Handled(t, ToggleShowAll, late).0) == Visible(s)
  {
    assert Handled(t, ToggleShowAll, late).0 == Toggled(t);
    ToggledTo(t);
    SameView(s, Toggled(t));
  }

  lemma ToggledTo(s: State)
    ensures Toggled(s) == s.(showAll := !s.showAll, selected := Toggled(s).selected)
  {
  }

  lemma AllShown(t: State)
    requires t.submenu.None? && !Filtered(t) && t.showAll
    ensures forall r :: r in t.rows ==> r in Visible(t)
  {
    VisibleIs(t);
    forall r | r in t.rows ensures r in Visible(t) { TopRowsHas(t, t.rows, r); }
  }

  // ------------------------------------------------------------------ the prompt

  /** The prompt with this text in it. */
  predicate PromptHolds(s: State, provider: string, text: string) {
    s.keyEntry == Some(KeyEntry(provider, text))
  }

  /** Typing into a prompt appends; nothing but the prompt changes... */
  lemma {:induction false} PromptTyping(s: State, provider: string, before: string, text: string)
    requires PromptHolds(s, provider, before) && Printable(text)
    ensures Typing(s, text) == s.(keyEntry := Some(KeyEntry(provider, before + text)))
    decreases |text|
  {
    if text == "" {
      assert before + text == before;
    } else {
      var front := text[..|text| - 1];
      PromptTyping(s, provider, before, front);
      assert (before + front) + [text[|text| - 1]] == before + text;
    }
  }

  /** ... a paste appends what is left of it without blanks at its ends; an erasure takes the last character;
      Esc closes the prompt, and no other key does anything. */
  lemma PromptKeys(s: State, provider: string, text: string, c: char, pasted: string, late: bool)
    requires PromptHolds(s, provider, text + [c])
    ensures Handled(s, Backspace, late) == (s.(keyEntry := Some(KeyEntry(provider, text))), Changed)
    ensures Handled(s, Paste(pasted), late).0 == s.(keyEntry := Some(KeyEntry(provider, text + [c] + Trim(pasted))))
    ensures Handled(s, Back, late) == (s.(keyEntry := None), Changed)
  {
    assert (text + [c])[..|text|] == text;
  }

  lemma PromptIgnores(s: State, input: Input, late: bool)
    requires s.keyEntry.Some?
    requires !input.Typed? && !input.Paste? && !input.Backspace? && !input.Enter? && !input.Back?
    ensures Handled(s, input, late) == (s, Changed)
  {
  }

  /** A key typed into a new prompt and entered is saved for its provider, trimmed, unless it is blank; then
      the prompt stays. */
  lemma PromptSaves(s: State, provider: string, key: string, late: bool)
    requires Printable(key)
    ensures var t := Typing(Next(s, Prompt(provider)), key);
      Handled(t, Enter, late) ==
        if Trim(key) == "" then (t, Changed) else (t.(keyEntry := None), SaveKey(provider, Trim(key)))
  {
    PromptTyping(Next(s, Prompt(provider)), provider, "", key);
    assert "" + key == key;
  }

  // ------------------------------------------------------- the active connection

  /** Marked as active: the connection's own row; the row of an OpenCode model at whatever level it runs; the
      row of a vendor one of whose models it is. */
  lemma ActiveIff(s: State, row: Row)
    ensures IsActive(s, row) <==>
      && s.active.Some?
      && (var id := s.active.value;
          if row.kind.Engine? then exists level :: id == EngineId(row.kind.model.ref, level)
          else if row.kind.Vendor? then exists key :: id == RailId(row.kind.rail, key)
          else id == Id(row))
  {
    if s.active.Some? {
      var id := s.active.value;
      if id.EngineId? { assert id == EngineId(id.ref, id.effort); }
      if id.RailId? { assert id == RailId(id.rail, id.key); }
    }
  }

  lemma {:induction false} FirstActiveIs(s: State, rows: seq<Row>)
    ensures var at := FirstActive(s, rows);
      && (at.Some? ==> forall i :: 0 <= i < at.value ==> !IsActive(s, rows[i]))
      && (at.None? ==> forall i :: 0 <= i < |rows| ==> !IsActive(s, rows[i]))
  {
    if rows != [] { FirstActiveIs(s, rows[1..]); }
  }

  /** The active connection's own row if it is visible, else the first row that holds it, else the top. */
  predicate OnActive(s: State) {
    if s.active.Some? && s.active.value in Ids(Visible(s)) then
      s.selected < |Visible(s)| && Id(Visible(s)[s.selected]) == s.active.value
    else if exists i :: 0 <= i < |Visible(s)| && IsActive(s, Visible(s)[i]) then
      s.selected < |Visible(s)| && IsActive(s, Visible(s)[s.selected])
      && forall i :: 0 <= i < s.selected ==> !IsActive(s, Visible(s)[i])
    else s.selected == 0
  }

  lemma GoesToActive(u: State)
    requires u.selected == 0
    ensures OnActive(SelectActive(u))
  {
    var t := SelectActive(u);
    SameView(u, t);
    FirstActiveIs(t, Visible(t));
    SameFirst(u, t, Visible(t));
  }

  lemma {:induction false} SameFirst(s: State, t: State, rows: seq<Row>)
    requires s.active == t.active
    ensures FirstActive(s, rows) == FirstActive(t, rows)
  {
    if rows != [] { SameFirst(s, t, rows[1..]); }
  }

  /** A change of focus to the models takes the filter it is given, leaves any sub-menu and goes to the active
      connection. */
  lemma FocusOnModels(s: State, filter: string)
    ensures var t := Next(s, Refocus(Models(filter)));
      && t.filter == filter && t.submenu.None? && !t.focusSubscriptions && !t.armed && t.rows == s.rows
      && t.active == s.active && OnActive(t)
  {
    var u := s.(submenu := None, parent := None, armed := false, focusSubscriptions := false, filter := filter,
                selected := 0);
    assert Next(s, Refocus(Models(filter))) == SelectActive(u);
    GoesToActive(u);
  }
}
