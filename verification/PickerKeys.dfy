/** What single keys, snapshots and changes of focus promise: moving, finding, and keeping the highlight. */
module PickerKeys {
  import opened Text
  import opened Rows
  import opened Picker
  import opened PickerRuns
  import PickerRows

  // --------------------------------------------------------------------- moving

  /** The same key, `n` times over. */
  function Pressed(s: State, input: Input, n: nat): State {
    if n == 0 then s else Handled(Pressed(s, input, n - 1), input, false).0
  }

  lemma DownOnce(s: State, t: State)
    requires SameList(s, t) && t.keyEntry.None?
    ensures Handled(t, Down, false).0 ==
      t.(selected := if t.selected + 1 < |Visible(s)| then t.selected + 1 else t.selected, armed := false)
  {
    SameView(s, t);
  }

  lemma {:induction false} DownMoves(s: State, n: nat)
    requires s.keyEntry.None? && SelectionOk(s)
    ensures Pressed(s, Down, n) ==
      s.(selected := if s.selected + n < |Visible(s)| then s.selected + n else Last(s),
         armed := s.armed && n == 0)
  {
    if n > 0 {
      DownMoves(s, n - 1);
      DownOnce(s, Pressed(s, Down, n - 1));
    }
  }

  lemma {:induction false} UpMoves(s: State, n: nat)
    requires s.keyEntry.None?
    ensures Pressed(s, Up, n) ==
      s.(selected := if s.selected > n then s.selected - n else 0, armed := s.armed && n == 0)
  {
    if n > 0 { UpMoves(s, n - 1); }
  }

  /** PageDown goes where ten Downs go... */
  lemma PageDownMoves(s: State, ten: nat)
    requires s.keyEntry.None? && SelectionOk(s) && ten == PAGE_STEP
    ensures Handled(s, PageDown, false).0 == Pressed(s, Down, ten)
  {
    DownMoves(s, ten);
  }

  /** ... End where enough of them go... */
  lemma EndMoves(s: State, n: nat)
    requires s.keyEntry.None? && SelectionOk(s) && n > 0 && n >= |Visible(s)|
    ensures Handled(s, End, false).0 == Pressed(s, Down, n)
  {
    DownMoves(s, n);
  }

  /** ... and so PageUp and Home with Ups. */
  lemma PagesUp(s: State, ten: nat, n: nat)
    requires s.keyEntry.None? && SelectionOk(s) && ten == PAGE_STEP && n > 0 && n >= |Visible(s)|
    ensures Handled(s, PageUp, false).0 == Pressed(s, Up, ten)
    ensures Handled(s, Home, false).0 == Pressed(s, Up, n)
  {
    UpMoves(s, ten);
    UpMoves(s, n);
  }

  // -------------------------------------------------------------- the key prompt

  /** While a prompt is open it takes every key: nothing else changes, and all that can come out is the
      prompt's provider with a key that is not blank and has no blanks at its ends. */
  lemma PromptTakesAll(s: State, input: Input, late: bool)
    requires s.keyEntry.Some?
    ensures var (t, out) := Handled(s, input, late);
      && t == s.(keyEntry := t.keyEntry)
      && (t.keyEntry.Some? ==> t.keyEntry.value.provider == s.keyEntry.value.provider)
      && (out == Changed
          || (out.SaveKey? && out.provider == s.keyEntry.value.provider && t.keyEntry.None? && input.Enter?
              && out.key != "" && !IsSpace(out.key[0]) && !IsSpace(out.key[|out.key| - 1])))
  {
    if input.Enter? { TrimFacts(s.keyEntry.value.buffer); }
  }

  // -------------------------------------------------------------------- finding

  lemma {:induction false} MatchingIff(filter: string, rows: seq<Row>, row: Row)
    ensures row in Matching(filter, rows) <==> row in rows && Matches(filter, row)
  {
    if rows != [] {
      MatchingIff(filter, rows[1..], row);
      assert rows == [rows[0]] + rows[1..];
    }
  }

  /** The row lives in the list or directly under one of its rows. */
  predicate LivesUnder(s: State, list: Row, row: Row) {
    ShownByDefault(s, list) && (row == list || row in Children(s, list))
  }

  lemma {:induction false} FlatRowsIff(s: State, rows: seq<Row>, row: Row)
    ensures row in FlatRows(s, rows) <==>
      Matches(s.filter, row) && exists i :: 0 <= i < |rows| && LivesUnder(s, rows[i], row)
  {
    if rows != [] {
      FlatRowsIff(s, rows[1..], row);
      MatchingIff(s.filter, [rows[0]] + Children(s, rows[0]), row);
      assert forall i :: 1 <= i < |rows| ==> rows[i] == rows[1..][i - 1];
      assert (exists i :: 0 <= i < |rows| && LivesUnder(s, rows[i], row))
        <==> LivesUnder(s, rows[0], row) || exists i :: 0 <= i < |rows[1..]| && LivesUnder(s, rows[1..][i], row);
    }
  }

  /** With a filter typed a row is visible exactly if it matches, wherever it lives: in the list, among the
      models of a signed-in vendor, or among the providers to connect. */
  lemma FilterFinds(s: State, row: Row)
    requires s.submenu.None? && Filtered(s)
    ensures row in Visible(s) <==>
      Matches(s.filter, row) && exists i :: 0 <= i < |s.rows| && LivesUnder(s, s.rows[i], row)
  {
    VisibleIs(s);
    FlatRowsIff(s, s.rows, row);
  }

  // ------------------------------------------------------- keeping the highlight

  lemma SelectsId(s: State, id: RowId)
    requires id in Ids(Visible(s))
    ensures SelectedId(SelectId(s, Some(id))) == Some(id)
  {
    SameView(s, SelectId(s, Some(id)));
  }

  /** Showing or hiding the non-chat models keeps the highlighted row if it stays visible. */
  lemma ToggleKeepsHighlight(s: State)
    requires SelectedId(s).Some? && SelectedId(s).value in Ids(Visible(s.(showAll := !s.showAll)))
    ensures SelectedId(Toggled(s)) == SelectedId(s)
  {
    SelectsId(s.(showAll := !s.showAll), SelectedId(s).value);
  }

  /** On a load that counts as a first one the highlight goes to the vendors, if that was asked for and one
      is visible, or to the active connection's row, if it is visible. */
  predicate GoesElsewhere(t: State, firstLoad: bool) {
    firstLoad && (if t.focusSubscriptions then FirstVendor(Visible(t)).Some? else ActiveIndex(t).Some?)
  }

  lemma SettledKeeps(t: State, id: RowId, firstLoad: bool)
    requires id in Ids(Visible(t)) && !GoesElsewhere(t, firstLoad)
    ensures SelectedId(Settled(t, Some(id), firstLoad)) == Some(id)
  {
    var u := SelectId(t, Some(id));
    SelectsId(t, id);
    SameView(t, u);
    assert Visible(t) != [];
    assert Reselect(t, Some(id), firstLoad) == u;
    assert Clamp(u) == u;
  }

  /** A snapshot keeps the highlighted row if its id is still visible, unless it counts as a first load that
      sends the highlight elsewhere. */
  lemma SnapshotKeepsHighlight(s: State, all: seq<Row>, rails: seq<RailState>)
    requires SelectedId(s).Some? && !GoesElsewhere(Loaded(s, all, rails), s.loading)
    requires SelectedId(s).value in Ids(Visible(Loaded(s, all, rails)))
    ensures SelectedId(Snapshot(s, all, rails)) == SelectedId(s)
  {
    var t := Settled(Loaded(s, all, rails), SelectedId(s), s.loading);
    SettledKeeps(Loaded(s, all, rails), SelectedId(s).value, s.loading);
    SameView(t, t.(armed := false));
  }

  /** And then it goes to the first visible vendor, or to the active connection. */
  lemma SettledGoes(t: State, prev: Option<RowId>)
    requires t.submenu.None? && GoesElsewhere(t, true)
    ensures var u := Settled(t, prev, true);
      && Selected(u).Some?
      && (if t.focusSubscriptions then Selected(u).value.kind.Vendor?
          else Id(Selected(u).value) == t.active.value || IsActive(t, Selected(u).value))
  {
    var v := Reselect(t, prev, true);
    SameView(t, v);
    if t.focusSubscriptions {
      var w := SelectFirstVendor(v);
      SameView(v, w);
      assert Clamp(w) == w;
    } else {
      assert Clamp(v) == v;
    }
  }

  /** `/auth` lands on the first vendor row. */
  lemma FocusLandsOnVendor(s: State)
    requires Good(s)
    ensures var t := Focused(s, Subscriptions);
      && Selected(t).Some? && Selected(t).value.kind.Vendor? && t.submenu.None?
      && forall i :: 0 <= i < t.selected ==> !Visible(t)[i].kind.Vendor?
  {
    var u := s.(submenu := None, parent := None, armed := false, focusSubscriptions := true, filter := "");
    VendorVisible(u);
    SameView(u, SelectFirstVendor(u));
    FirstVendorIsFirst(Visible(u));
  }

  lemma {:induction false} FirstVendorIsFirst(rows: seq<Row>)
    ensures var at := FirstVendor(rows);
      at.Some? ==> forall i :: 0 <= i < at.value ==> !rows[i].kind.Vendor?
  {
    if rows != [] && !rows[0].kind.Vendor? { FirstVendorIsFirst(rows[1..]); }
  }
}
