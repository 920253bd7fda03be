/** The sections of the picker's list: each group has one header however often the list is refreshed,
    and Tab goes from one section's first row to the next. */
module PickerSections {
  import opened Text
  import opened Rows
  import opened Picker
  import opened PickerRuns
  import PickerRows
  import RowMerge

  predicate Inline(r: Row) { r.kind.RailModel? }

  /** The rows of one group stand together, a vendor's own models aside. */
  predicate Together(rows: seq<Row>) {
    forall i, j, k :: 0 <= i < j < k < |rows|
                      && !Inline(rows[i]) && !Inline(rows[j]) && !Inline(rows[k]) && rows[i].group == rows[k].group
                      ==> rows[j].group == rows[i].group
  }

  /** The first row of its section. */
  predicate StartsSection(rows: seq<Row>, i: nat) {
    && i < |rows| && !Inline(rows[i])
    && forall j :: 0 <= j < i ==> Inline(rows[j]) || rows[j].group != rows[i].group
  }

  function Headers(lines: seq<Line>): seq<string> {
    if lines == [] then []
    else (if lines[0].Header? then [lines[0].group] else []) + Headers(lines[1..])
  }

  /** The last row before `k` that is not a vendor's own model. */
  function RowBefore(rows: seq<Row>, k: nat): (r: Option<nat>)
    requires k <= |rows|
    ensures r.Some? ==> r.value < k && !Inline(rows[r.value])
    ensures forall j :: (if r.Some? then r.value + 1 else 0) <= j < k ==> Inline(rows[j])
  {
    if k == 0 then None else if Inline(rows[k - 1]) then RowBefore(rows, k - 1) else Some(k - 1)
  }

  /** The group whose header the rows before `k` are under. */
  function GroupBefore(rows: seq<Row>, k: nat): Option<string>
    requires k <= |rows|
  {
    match RowBefore(rows, k) case Some(j) => Some(rows[j].group) case None => None
  }

  /** A header is drawn exactly above the rows that start a section. */
  lemma HeaderIff(rows: seq<Row>, k: nat)
    requires Together(rows) && k < |rows|
    ensures !Inline(rows[k]) && GroupBefore(rows, k) != Some(rows[k].group) <==> StartsSection(rows, k)
  {
    var before := RowBefore(rows, k);
    if before.Some? && !Inline(rows[k]) && rows[before.value].group != rows[k].group {
      forall i | 0 <= i < k && !Inline(rows[i]) ensures rows[i].group != rows[k].group {
        BetweenSame(rows, i, before.value, k);
      }
    }
  }

  lemma BetweenSame(rows: seq<Row>, i: nat, j: nat, k: nat)
    requires Together(rows) && i <= j < k < |rows|
    requires !Inline(rows[i]) && !Inline(rows[j]) && !Inline(rows[k])
    ensures rows[i].group == rows[k].group ==> rows[j].group == rows[k].group
  {
  }

  function LinesFrom(rows: seq<Row>, k: nat): seq<Line>
    requires k <= |rows|
  {
    Lines(rows[k..], true, GroupBefore(rows, k))
  }

  lemma LinesStep(rows: seq<Row>, k: nat)
    requires k < |rows|
    ensures LinesFrom(rows, k)
      == (if !Inline(rows[k]) && GroupBefore(rows, k) != Some(rows[k].group) then [Header(rows[k].group)] else [])
         + [Item(rows[k])] + LinesFrom(rows, k + 1)
  {
    assert rows[k..][1..] == rows[k + 1..];
  }

  lemma StartsStep(row: Row, rest: seq<Line>, k: nat, header: bool)
    ensures Starts((if header then [Header(row.group)] else []) + [Item(row)] + rest, k, false)
      == (if header then [k] else []) + Starts(rest, k + 1, false)
    ensures Headers((if header then [Header(row.group)] else []) + [Item(row)] + rest)
      == (if header then [row.group] else []) + Headers(rest)
  {
    var item := [Item(row)] + rest;
    assert item[1..] == rest;
    if header {
      var all := [Header(row.group)] + item;
      assert all == [Header(row.group)] + [Item(row)] + rest;
      assert all[1..] == item;
    } else {
      assert [] + [Item(row)] + rest == item;
    }
  }

  lemma {:induction false} StartsExactly(rows: seq<Row>, k: nat, i: nat)
    requires Together(rows) && k <= |rows|
    ensures i in Starts(LinesFrom(rows, k), k, false) <==> k <= i && StartsSection(rows, i)
    decreases |rows| - k
  {
    if k < |rows| {
      StartsExactly(rows, k + 1, i);
      HeaderIff(rows, k);
      LinesStep(rows, k);
      StartsStep(rows[k], LinesFrom(rows, k + 1), k, StartsSection(rows, k));
    }
  }

  predicate Ascending(s: seq<nat>) {
    forall i, j :: 0 <= i < j < |s| ==> s[i] < s[j]
  }

  lemma AscendCons(k: nat, rest: seq<nat>)
    requires Ascending(rest) && forall i :: i in rest ==> k < i
    ensures Ascending([k] + rest) && [] + rest == rest
  {
    forall j | 0 < j < |[k] + rest| ensures k < ([k] + rest)[j] { assert rest[j - 1] in rest; }
  }

  lemma {:induction false} StartsAscend(rows: seq<Row>, k: nat)
    requires Together(rows) && k <= |rows|
    ensures Ascending(Starts(LinesFrom(rows, k), k, false))
    decreases |rows| - k
  {
    if k < |rows| {
      StartsAscend(rows, k + 1);
      var rest := Starts(LinesFrom(rows, k + 1), k + 1, false);
      forall i | i in rest ensures k < i { StartsExactly(rows, k + 1, i); }
      AscendCons(k, rest);
      HeaderIff(rows, k);
      LinesStep(rows, k);
      StartsStep(rows[k], LinesFrom(rows, k + 1), k, StartsSection(rows, k));
    }
  }

  predicate NoRepeats(s: seq<string>) {
    forall i, j :: 0 <= i < j < |s| ==> s[i] != s[j]
  }

  lemma {:induction false} HeadersDiffer(rows: seq<Row>, k: nat)
    requires Together(rows) && k <= |rows|
    ensures NoRepeats(Headers(LinesFrom(rows, k)))
    ensures forall h :: h in Headers(LinesFrom(rows, k)) ==>
      forall j :: 0 <= j < k ==> Inline(rows[j]) || rows[j].group != h
    decreases |rows| - k
  {
    if k < |rows| {
      HeadersDiffer(rows, k + 1);
      HeaderIff(rows, k);
      LinesStep(rows, k);
      StartsStep(rows[k], LinesFrom(rows, k + 1), k, StartsSection(rows, k));
      if StartsSection(rows, k) {
        assert rows[k].group !in Headers(LinesFrom(rows, k + 1));
      }
    }
  }

  // --------------------------------------- the visible rows keep the list's sections

  /** Where each visible row of the unfiltered list comes from. */
  lemma {:induction false} TopEmbed(s: State, rows: seq<Row>) returns (at: seq<nat>)
    requires forall i :: 0 <= i < |rows| ==> !Inline(rows[i])
    ensures var top := TopRows(s, rows);
      && |at| == |top|
      && (forall i :: 0 <= i < |at| ==> at[i] < |rows| && (Inline(top[i]) || top[i] == rows[at[i]]))
      && (forall i, j :: 0 <= i < j < |at| ==> at[i] <= at[j] && (Inline(top[j]) || at[i] < at[j]))
  {
    at := [];
    if rows != [] {
      var rest := TopEmbed(s, rows[1..]);
      var shift := seq(|rest|, i requires 0 <= i < |rest| => rest[i] + 1);
      var n := |TopRows(s, rows)| - |rest|;
      at := seq(n, i => 0) + shift;
    }
  }

  lemma TopTogether(s: State, rows: seq<Row>)
    requires Contiguous(rows) && forall i :: 0 <= i < |rows| ==> !Inline(rows[i])
    ensures Together(TopRows(s, rows))
  {
    var at := TopEmbed(s, rows);
    var top := TopRows(s, rows);
    forall i, j, k | 0 <= i < j < k < |top| && !Inline(top[i]) && !Inline(top[j]) && !Inline(top[k])
                     && top[i].group == top[k].group
      ensures top[j].group == top[i].group
    {
      assert at[i] < at[j] < at[k] && rows[at[i]].group == rows[at[k]].group;
    }
  }

  // ------------------------------------------------------------------- over runs

  /** A row's group never changes. */
  ghost predicate Homed(rows: seq<Row>, home: RowId -> string) {
    forall i :: 0 <= i < |rows| ==> rows[i].group == home(Id(rows[i]))
  }

  ghost predicate LegalAt(e: Event, home: RowId -> string) {
    Legal(e) && (e.Load? && e.sources.Some? ==> Homed(PickerRows.ListRows(e.sources.value), home))
  }

  ghost predicate Sectioned(s: State, home: RowId -> string) {
    Contiguous(s.rows) && Homed(s.rows, home)
  }

  lemma LoadSectioned(s: State, src: PickerRows.Sources, home: RowId -> string)
    requires PickerRows.WellFormed(src) && Homed(PickerRows.ListRows(src), home)
    requires s.loading || Sectioned(s, home)
    ensures Sectioned(SetRows(s, PickerRows.AllRows(src)), home)
  {
    var list := PickerRows.ListRows(src);
    PickerRows.SplitRows(src);
    PickerRows.ListContiguous(src);
    assert PickerRows.AllRows(src)[|PickerRows.AllRows(src)| - 1] == PickerRows.XaiRow;
    if !s.loading { MergeSectioned(s.rows, list, home); }
  }

  lemma MergeSectioned(shown: seq<Row>, latest: seq<Row>, home: RowId -> string)
    requires Contiguous(shown) && Homed(shown, home) && Homed(latest, home)
    ensures Contiguous(RowMerge.Merge(shown, latest)) && Homed(RowMerge.Merge(shown, latest), home)
  {
    var out := RowMerge.Merge(shown, latest);
    assert Contiguous(out) by {
      assert RowMerge.SameGroups(shown, latest);
      RowMerge.MergeContiguous(shown, latest);
    }
    forall i | 0 <= i < |out| ensures out[i].group == home(Id(out[i])) {
      RowMerge.MergeContent(shown, latest, out[i]);
    }
  }

  lemma StepSectioned(s: State, e: Event, home: RowId -> string)
    requires Good(s) && SelectionOk(s) && LegalAt(e, home) && Sectioned(s, home)
    ensures Sectioned(Next(s, e), home)
  {
    match e
    case Key(input, late) => KeyOk(s, input, late);
    case Load(sources, rails) =>
      if sources.Some? { LoadSectioned(s, sources.value, home); }
      SettledOk(Loaded(s, RowsOf(sources), rails), SelectedId(s), s.loading);
    case Refocus(focus) => FocusedOk(s, focus);
    case Prompt(_) =>
    case Reload =>
  }

  lemma FreshSectioned(
    src: PickerRows.Sources, active: Option<RowId>, states: seq<State>, events: seq<Event>, home: RowId -> string)
    requires IsRun(src, active, states, events) && Homed(PickerRows.ListRows(src), home)
    ensures Sectioned(states[0], home)
  {
    assert StateAt(src, active, states, events, 0);
    LoadSectioned(Unfilled, src, home);
  }

  lemma SectionedNext(
    src: PickerRows.Sources, active: Option<RowId>, states: seq<State>, events: seq<Event>, n: nat,
    home: RowId -> string)
    requires IsRun(src, active, states, events) && n < |events| && forall e :: e in events ==> LegalAt(e, home)
    requires Sectioned(states[n], home)
    ensures Sectioned(states[n + 1], home)
  {
    SelectionAlwaysOk(src, active, states, events, n);
    assert StateAt(src, active, states, events, n + 1);
    StepSectioned(states[n], events[n], home);
  }

  lemma {:induction false} AlwaysSectioned(
    src: PickerRows.Sources, active: Option<RowId>, states: seq<State>, events: seq<Event>, n: nat,
    home: RowId -> string)
    requires IsRun(src, active, states, events) && n <= |events|
    requires Homed(PickerRows.ListRows(src), home)
    requires forall e :: e in events ==> LegalAt(e, home)
    ensures Sectioned(states[n], home)
  {
    if n == 0 {
      FreshSectioned(src, active, states, events, home);
    } else {
      AlwaysSectioned(src, active, states, events, n - 1, home);
      SectionedNext(src, active, states, events, n - 1, home);
    }
  }

  /** With groups a function of the id, no header is ever drawn twice, over any run of keys, snapshots
      and changes of focus. */
  lemma HeadersNeverRepeat(
    src: PickerRows.Sources, active: Option<RowId>, states: seq<State>, events: seq<Event>, n: nat,
    home: RowId -> string)
    requires IsRun(src, active, states, events) && n <= |events|
    requires Homed(PickerRows.ListRows(src), home)
    requires forall e :: e in events ==> LegalAt(e, home)
    ensures NoRepeats(Headers(ModelsLines(states[n])))
  {
    AlwaysSectioned(src, active, states, events, n, home);
    SelectionAlwaysOk(src, active, states, events, n);
    HeadersOnce(states[n]);
  }

  predicate AtTop(s: State) { s.submenu.None? && !Filtered(s) }

  lemma HeadersOnce(s: State)
    requires Good(s) && Contiguous(s.rows)
    ensures NoRepeats(Headers(ModelsLines(s)))
  {
    var rows := Visible(s);
    if AtTop(s) {
      VisibleIs(s);
      TopTogether(s, s.rows);
      assert rows[0..] == rows;
      HeadersDiffer(rows, 0);
    } else {
      Ungrouped(rows, 0);
    }
  }

  lemma {:induction false} Ungrouped(rows: seq<Row>, n: nat)
    ensures Headers(Lines(rows, false, None)) == [] && Starts(Lines(rows, false, None), n, false) == []
  {
    if rows != [] {
      Ungrouped(rows[1..], n + 1);
      assert Lines(rows, false, None)[1..] == Lines(rows[1..], false, None);
    }
  }

  /** Tab goes to the next row that starts a section, Shift+Tab to the one before, and there is none in
      a sub-menu or a filtered list. */
  lemma TabTargets(s: State, forward: bool)
    requires Good(s) && Contiguous(s.rows)
    ensures var t := TabTarget(s, forward);
      var stops := (i: nat) => AtTop(s) && StartsSection(Visible(s), i)
                               && if forward then i > s.selected else i < s.selected;
      && (t.Some? ==> stops(t.value))
      && (t.Some? ==> forall i: nat :: stops(i) ==> if forward then t.value <= i else i <= t.value)
      && (t.None? ==> forall i: nat :: !stops(i))
  {
    var rows, starts := Visible(s), SectionStarts(s);
    if AtTop(s) {
      VisibleIs(s);
      TopTogether(s, s.rows);
      assert rows[0..] == rows;
      forall i: nat ensures i in starts <==> StartsSection(rows, i) { StartsExactly(rows, 0, i); }
      StartsAscend(rows, 0);
    } else {
      Ungrouped(rows, 0);
    }
    if forward { FirstAboveLeast(starts, s.selected); } else { LastBelowGreatest(starts, s.selected); }
  }

  lemma {:induction false} FirstAboveLeast(starts: seq<nat>, at: nat)
    requires Ascending(starts)
    ensures var t := FirstAbove(starts, at); t.Some? ==> forall i :: i in starts && i > at ==> t.value <= i
  {
    if starts != [] {
      assert forall i :: i in starts ==> i == starts[0] || i in starts[1..];
      FirstAboveLeast(starts[1..], at);
    }
  }

  lemma {:induction false} LastBelowGreatest(starts: seq<nat>, at: nat)
    requires Ascending(starts)
    ensures var t := LastBelow(starts, at); t.Some? ==> forall i :: i in starts && i < at ==> i <= t.value
  {
    if starts != [] {
      var n := |starts| - 1;
      assert Ascending(starts[..n]);
      LastBelowGreatest(starts[..n], at);
      forall i | i in starts ensures i <= starts[n] && (i == starts[n] || i in starts[..n]) {
        var k :| 0 <= k < |starts| && starts[k] == i;
        assert k < n ==> starts[..n][k] == i;
      }
    }
  }
}
