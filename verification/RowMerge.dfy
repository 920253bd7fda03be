/** Merging a refreshed list of rows into the one on screen (crates/workshop-auth/src/lib.rs,
    `stable_merge`), measured against stable grouping. */
module RowMerge {
  import opened Text
  import opened Rows
  import opened Seqs

  function OfGroup(rows: seq<Row>, g: string): (r: seq<Row>)
    ensures |r| <= |rows| && forall i :: 0 <= i < |r| ==> r[i].group == g
  {
    if rows == [] then [] else (if rows[0].group == g then [rows[0]] else []) + OfGroup(rows[1..], g)
  }

  function NotOfGroup(rows: seq<Row>, g: string): (r: seq<Row>)
    ensures |r| <= |rows| && forall i :: 0 <= i < |r| ==> r[i].group != g
  {
    if rows == [] then [] else (if rows[0].group == g then [] else [rows[0]]) + NotOfGroup(rows[1..], g)
  }

  /** Rows sorted into groups, groups in order of first appearance, each in its given order. */
  function Grouped(rows: seq<Row>): seq<Row>
    decreases |rows|
  {
    if rows == [] then []
    else OfGroup(rows, rows[0].group) + Grouped(NotOfGroup(rows[1..], rows[0].group))
  }

  /** Position of the last row of a group. */
  function LastOfGroup(rows: seq<Row>, g: string): (r: Option<nat>)
    ensures r.Some? ==> r.value < |rows| && rows[r.value].group == g
                        && forall i :: r.value < i < |rows| ==> rows[i].group != g
    ensures r.None? ==> forall i :: 0 <= i < |rows| ==> rows[i].group != g
  {
    if rows == [] then None
    else if rows[|rows| - 1].group == g then Some(|rows| - 1)
    else LastOfGroup(rows[..|rows| - 1], g)
  }

  /** A new row goes after the last row of its group, or at the end. */
  function Insert(rows: seq<Row>, row: Row): seq<Row> {
    match LastOfGroup(rows, row.group)
    case Some(i) => rows[..i + 1] + [row] + rows[i + 1..]
    case None => rows + [row]
  }

  function InsertAll(rows: seq<Row>, more: seq<Row>): seq<Row>
    decreases |more|
  {
    if more == [] then rows else InsertAll(Insert(rows, more[0]), more[1..])
  }

  /** The shown rows that are still there, in shown order, with their latest content. */
  function Survivors(shown: seq<Row>, latest: seq<Row>): (r: seq<Row>)
    ensures Ids(r) == Ids(shown) * Ids(latest)
  {
    if shown == [] then []
    else
      var rest := Survivors(shown[1..], latest);
      assert shown == [shown[0]] + shown[1..];
      match Position(latest, Id(shown[0]))
      case Some(i) => assert Ids([latest[i]] + rest) == {Id(latest[i])} + Ids(rest); [latest[i]] + rest
      case None => rest
  }

  /** The latest rows that are not shown yet: the first of each id, in their own order. */
  function News(taken: set<RowId>, latest: seq<Row>): (r: seq<Row>)
    ensures Ids(r) == Ids(latest) - taken && DistinctIds(r)
    decreases |latest|
  {
    if latest == [] then []
    else
      assert latest == [latest[0]] + latest[1..];
      if Id(latest[0]) in taken then News(taken, latest[1..])
      else
        var r := News(taken + {Id(latest[0])}, latest[1..]);
        assert Ids([latest[0]] + r) == {Id(latest[0])} + Ids(r);
        [latest[0]] + r
  }

  function Merge(shown: seq<Row>, latest: seq<Row>): seq<Row> {
    var kept := Survivors(shown, latest);
    InsertAll(kept, News(Ids(kept), latest))
  }

  lemma InsertIds(rows: seq<Row>, row: Row)
    ensures Ids(Insert(rows, row)) == Ids(rows) + {Id(row)}
  {
    var at := LastOfGroup(rows, row.group);
    if at.Some? {
      assert rows == rows[..at.value + 1] + rows[at.value + 1..];
    }
  }

  /** One more fresh row in the second loop. */
  lemma NewsStep(out: seq<Row>, latest: seq<Row>, i: nat)
    requires i < |latest|
    ensures var next := if Id(latest[i]) in Ids(out) then out else Insert(out, latest[i]);
      InsertAll(out, News(Ids(out), latest[i..])) == InsertAll(next, News(Ids(next), latest[i + 1..]))
  {
    assert latest[i..][1..] == latest[i + 1..];
    if Id(latest[i]) !in Ids(out) {
      InsertIds(out, latest[i]);
      var later := News(Ids(out) + {Id(latest[i])}, latest[i + 1..]);
      assert ([latest[i]] + later)[1..] == later;
    }
  }

  lemma SurvivorStep(out: seq<Row>, shown: seq<Row>, latest: seq<Row>, i: nat)
    requires i < |shown|
    ensures var at := Position(latest, Id(shown[i]));
      out + Survivors(shown[i..], latest)
        == (if at.Some? then out + [latest[at.value]] else out) + Survivors(shown[i + 1..], latest)
  {
    assert shown[i..][1..] == shown[i + 1..];
  }

  /** The body of the second loop: a row with a new id joins its group. */
  method AddRow(rows: seq<Row>, row: Row) returns (out: seq<Row>)
    ensures out == if Id(row) in Ids(rows) then rows else Insert(rows, row)
  {
    out := rows;
    if Position(rows, Id(row)).None? {
      var after := LastOfGroup(rows, row.group);
      match after {
        case Some(i) => out := rows[..i + 1] + [row] + rows[i + 1..];
        case None => out := rows + [row];
      }
    }
  }

  method StableMerge(shown: seq<Row>, latest: seq<Row>) returns (out: seq<Row>)
    ensures out == Merge(shown, latest)
  {
    out := [];
    var i := 0;
    assert shown[0..] == shown;
    while i < |shown|
      invariant 0 <= i <= |shown|
      invariant out + Survivors(shown[i..], latest) == Survivors(shown, latest)
    {
      SurvivorStep(out, shown, latest, i);
      var at := Position(latest, Id(shown[i]));
      if at.Some? { out := out + [latest[at.value]]; }
      i := i + 1;
    }
    assert out == Survivors(shown, latest);
    i := 0;
    assert latest[0..] == latest;
    while i < |latest|
      invariant 0 <= i <= |latest|
      invariant InsertAll(out, News(Ids(out), latest[i..])) == Merge(shown, latest)
    {
      NewsStep(out, latest, i);
      out := AddRow(out, latest[i]);
      i := i + 1;
    }
  }

  // ------------------------------------------------- what the merge is made of

  lemma InsertDistinct(rows: seq<Row>, row: Row)
    requires DistinctIds(rows) && Id(row) !in Ids(rows)
    ensures DistinctIds(Insert(rows, row))
  {
  }

  lemma {:induction false} InsertAllIds(rows: seq<Row>, more: seq<Row>)
    requires DistinctIds(rows) && DistinctIds(more) && Ids(rows) !! Ids(more)
    ensures Ids(InsertAll(rows, more)) == Ids(rows) + Ids(more) && DistinctIds(InsertAll(rows, more))
    decreases |more|
  {
    if more != [] {
      assert more == [more[0]] + more[1..];
      InsertIds(rows, more[0]);
      InsertDistinct(rows, more[0]);
      assert Id(more[0]) !in Ids(more[1..]);
      InsertAllIds(Insert(rows, more[0]), more[1..]);
    }
  }

  lemma DistinctCons(row: Row, rows: seq<Row>)
    ensures DistinctIds([row] + rows) <==> DistinctIds(rows) && Id(row) !in Ids(rows)
  {
    var all := [row] + rows;
    if DistinctIds(all) {
      forall i, j | 0 <= i < j < |rows| ensures Id(rows[i]) != Id(rows[j]) {
        assert rows[i] == all[i + 1] && rows[j] == all[j + 1];
      }
      forall i | 0 <= i < |rows| ensures Id(row) != Id(rows[i]) {
        assert Id(all[0]) != Id(all[i + 1]);
      }
    }
  }

  lemma {:induction false} SurvivorsDistinct(shown: seq<Row>, latest: seq<Row>)
    requires DistinctIds(shown)
    ensures DistinctIds(Survivors(shown, latest))
  {
    if shown != [] {
      assert shown == [shown[0]] + shown[1..];
      DistinctCons(shown[0], shown[1..]);
      SurvivorsDistinct(shown[1..], latest);
      var at := Position(latest, Id(shown[0]));
      if at.Some? { DistinctCons(latest[at.value], Survivors(shown[1..], latest)); }
    }
  }

  /** The merged list has exactly the ids of the latest one, each once. */
  lemma MergeIds(shown: seq<Row>, latest: seq<Row>)
    requires DistinctIds(shown)
    ensures Ids(Merge(shown, latest)) == Ids(latest) && DistinctIds(Merge(shown, latest))
  {
    SurvivorsDistinct(shown, latest);
    var kept := Survivors(shown, latest);
    InsertAllIds(kept, News(Ids(kept), latest));
  }

  /** Every row of the merged list is the latest row of its id: nothing stale stays on screen. */
  lemma MergeContent(shown: seq<Row>, latest: seq<Row>, row: Row)
    requires row in Merge(shown, latest)
    ensures Position(latest, Id(row)).Some? && latest[Position(latest, Id(row)).value] == row
  {
    var kept := Survivors(shown, latest);
    InsertAllMembers(kept, News(Ids(kept), latest));
    if row in kept { SurvivorContent(shown, latest, row); } else { NewsContent(Ids(kept), latest, row); }
  }

  lemma {:induction false} InsertAllMembers(rows: seq<Row>, more: seq<Row>)
    ensures forall r :: r in InsertAll(rows, more) <==> r in rows || r in more
    decreases |more|
  {
    if more != [] {
      assert more == [more[0]] + more[1..];
      InsertMembers(rows, more[0]);
      InsertAllMembers(Insert(rows, more[0]), more[1..]);
    }
  }

  lemma InsertMembers(rows: seq<Row>, row: Row)
    ensures forall r :: r in Insert(rows, row) <==> r in rows || r == row
  {
    var at := LastOfGroup(rows, row.group);
    if at.Some? { assert rows == rows[..at.value + 1] + rows[at.value + 1..]; }
  }

  lemma {:induction false} SurvivorContent(shown: seq<Row>, latest: seq<Row>, row: Row)
    requires row in Survivors(shown, latest)
    ensures Position(latest, Id(row)).Some? && latest[Position(latest, Id(row)).value] == row
  {
    var at := Position(latest, Id(shown[0]));
    if at.None? || row != latest[at.value] { SurvivorContent(shown[1..], latest, row); }
  }

  lemma {:induction false} NewsContent(taken: set<RowId>, latest: seq<Row>, row: Row)
    requires row in News(taken, latest)
    ensures Position(latest, Id(row)).Some? && latest[Position(latest, Id(row)).value] == row
    decreases |latest|
  {
    if Id(latest[0]) in taken {
      assert Id(row) !in taken by { assert Id(row) in Ids(News(taken, latest)); }
      NewsContent(taken, latest[1..], row);
    } else if row != latest[0] {
      var later := News(taken + {Id(latest[0])}, latest[1..]);
      assert row in later && Id(row) in Ids(later);
      NewsContent(taken + {Id(latest[0])}, latest[1..], row);
    }
  }

  // ---------------------------------------------------------- stable grouping

  lemma {:induction false} OfGroupConcat(a: seq<Row>, b: seq<Row>, g: string)
    ensures OfGroup(a + b, g) == OfGroup(a, g) + OfGroup(b, g)
  {
    if a == [] {
      assert a + b == b;
    } else {
      assert (a + b)[1..] == a[1..] + b;
      OfGroupConcat(a[1..], b, g);
    }
  }

  lemma {:induction false} NotOfGroupConcat(a: seq<Row>, b: seq<Row>, g: string)
    ensures NotOfGroup(a + b, g) == NotOfGroup(a, g) + NotOfGroup(b, g)
  {
    if a == [] {
      assert a + b == b;
    } else {
      assert (a + b)[1..] == a[1..] + b;
      NotOfGroupConcat(a[1..], b, g);
    }
  }

  lemma OfGroupPure(a: seq<Row>, g: string)
    requires forall i :: 0 <= i < |a| ==> a[i].group == g
    ensures OfGroup(a, g) == a && NotOfGroup(a, g) == []
  {
  }

  lemma OfGroupNone(a: seq<Row>, g: string)
    requires forall i :: 0 <= i < |a| ==> a[i].group != g
    ensures OfGroup(a, g) == [] && NotOfGroup(a, g) == a
  {
  }

  /** Inserting into the grouped rows is grouping with one more row at the end. */
  lemma {:induction false} GroupedInsert(rows: seq<Row>, row: Row)
    ensures Grouped(rows + [row]) == Insert(Grouped(rows), row)
    decreases |rows|
  {
    if rows == [] {
      assert rows + [row] == [row];
      assert OfGroup([row], row.group) == [row];
      assert NotOfGroup([row][1..], row.group) == [];
    } else {
      var g, rest := rows[0].group, NotOfGroup(rows[1..], rows[0].group);
      var mine := OfGroup(rows, g);
      assert (rows + [row])[1..] == rows[1..] + [row];
      OfGroupConcat(rows, [row], g);
      NotOfGroupConcat(rows[1..], [row], g);
      if row.group == g {
        OfGroupPure([row], g);
        GroupedMembers(rest);
        SplitMembers(rows[1..], g);
        assert rest + [] == rest;
        InsertBetween(mine, Grouped(rest), row);
      } else {
        OfGroupNone([row], g);
        assert mine + [] == mine;
        GroupedInsert(rest, row);
        InsertAfter(mine, Grouped(rest), row);
      }
    }
  }

  lemma {:induction false} LastIs(rows: seq<Row>, i: nat, g: string)
    requires i < |rows| && rows[i].group == g
    requires forall k :: i < k < |rows| ==> rows[k].group != g
    ensures LastOfGroup(rows, g) == Some(i)
  {
  }

  lemma InsertBetween(a: seq<Row>, b: seq<Row>, row: Row)
    requires a != [] && a[|a| - 1].group == row.group && forall r :: r in b ==> r.group != row.group
    ensures Insert(a + b, row) == a + [row] + b
  {
    assert forall k :: |a| <= k < |a + b| ==> (a + b)[k] in b;
    LastIs(a + b, |a| - 1, row.group);
    assert (a + b)[..|a|] == a && (a + b)[|a|..] == b;
  }

  lemma InsertAfter(a: seq<Row>, b: seq<Row>, row: Row)
    requires forall i :: 0 <= i < |a| ==> a[i].group != row.group
    ensures Insert(a + b, row) == a + Insert(b, row)
  {
    var at := LastOfGroup(b, row.group);
    if at.Some? {
      LastIs(a + b, |a| + at.value, row.group);
    } else {
      assert forall k :: 0 <= k < |a + b| ==> (a + b)[k].group != row.group;
      assert a + b + [row] == a + (b + [row]);
    }
  }

  lemma {:induction false} GroupedMember(rows: seq<Row>, r: Row)
    ensures r in Grouped(rows) <==> r in rows
    decreases |rows|
  {
    if rows != [] {
      var g := rows[0].group;
      assert r in NotOfGroup(rows[1..], g) <==> r in rows[1..] && r.group != g by { SplitMembers(rows[1..], g); }
      assert r in OfGroup(rows, g) <==> r in rows && r.group == g by { SplitMembers(rows, g); }
      assert r in Grouped(NotOfGroup(rows[1..], g)) <==> r in NotOfGroup(rows[1..], g) by {
        GroupedMember(NotOfGroup(rows[1..], g), r);
      }
      GroupedIs(rows, r);
    }
  }

  lemma GroupedIs(rows: seq<Row>, r: Row)
    requires rows != []
    ensures var g := rows[0].group;
      r in Grouped(rows) <==> r in OfGroup(rows, g) || r in Grouped(NotOfGroup(rows[1..], g))
    ensures r in rows <==> r == rows[0] || r in rows[1..]
  {
    assert rows == [rows[0]] + rows[1..];
  }

  lemma GroupedMembers(rows: seq<Row>)
    ensures forall r :: r in Grouped(rows) <==> r in rows
  {
    forall r ensures r in Grouped(rows) <==> r in rows { GroupedMember(rows, r); }
  }

  lemma {:induction false} SplitMembers(rows: seq<Row>, g: string)
    ensures forall r :: r in OfGroup(rows, g) <==> r in rows && r.group == g
    ensures forall r :: r in NotOfGroup(rows, g) <==> r in rows && r.group != g
  {
    if rows != [] {
      SplitMembers(rows[1..], g);
      assert rows == [rows[0]] + rows[1..];
    }
  }

  lemma {:induction false} GroupedInsertAll(rows: seq<Row>, more: seq<Row>)
    ensures InsertAll(Grouped(rows), more) == Grouped(rows + more)
    decreases |more|
  {
    if more == [] {
      assert rows + more == rows;
    } else {
      var with := rows + [more[0]];
      assert with + more[1..] == rows + more;
      assert Insert(Grouped(rows), more[0]) == Grouped(with) by { GroupedInsert(rows, more[0]); }
      GroupedInsertAll(with, more[1..]);
    }
  }

  /** Grouping puts the rows of each group together... */
  lemma {:induction false} GroupedContiguous(rows: seq<Row>)
    ensures Contiguous(Grouped(rows))
    decreases |rows|
  {
    if rows != [] {
      var g, rest := rows[0].group, NotOfGroup(rows[1..], rows[0].group);
      GroupedContiguous(rest);
      GroupedMembers(rest);
      SplitMembers(rows[1..], g);
      ContiguousConcat(OfGroup(rows, g), Grouped(rest), g);
    }
  }

  lemma ContiguousConcat(a: seq<Row>, b: seq<Row>, g: string)
    requires (forall r :: r in a ==> r.group == g) && (forall r :: r in b ==> r.group != g)
    requires Contiguous(b)
    ensures Contiguous(a + b)
  {
    var s := a + b;
    forall i, j, k | 0 <= i < j < k < |s| && s[i].group == s[k].group
      ensures s[j].group == s[i].group
    {
      assert k < |a| ==> s[j] in a && s[i] in a;
      assert k >= |a| ==> s[k] in b;
      assert i < |a| ==> s[i] in a;
      assert i >= |a| ==> s[i] == b[i - |a|] && s[j] == b[j - |a|] && s[k] == b[k - |a|];
    }
  }

  /** ... keeps the order within each group... */
  lemma {:induction false} GroupedStable(rows: seq<Row>, g: string)
    ensures OfGroup(Grouped(rows), g) == OfGroup(rows, g)
    decreases |rows|
  {
    if rows != [] {
      var h := rows[0].group;
      var mine, rest := OfGroup(rows, h), NotOfGroup(rows[1..], h);
      OfGroupConcat(mine, Grouped(rest), g);
      GroupedStable(rest, g);
      if g == h {
        OfGroupPure(mine, g);
        OfGroupNone(rest, g);
      } else {
        OfGroupNone(mine, g);
        OfGroupOfNot(rows[1..], h, g);
      }
    }
  }

  lemma OfGroupOfNot(rows: seq<Row>, h: string, g: string)
    requires g != h
    ensures OfGroup(NotOfGroup(rows, h), g) == OfGroup(rows, g)
  {
    if rows != [] {
      var first := if rows[0].group == h then [] else [rows[0]];
      OfGroupConcat(first, NotOfGroup(rows[1..], h), g);
      OfGroupOfNot(rows[1..], h, g);
    }
  }

  /** ... and leaves a list alone whose groups already stand together. */
  lemma {:induction false} GroupedIdentity(rows: seq<Row>)
    requires Contiguous(rows)
    ensures Grouped(rows) == rows
    decreases |rows|
  {
    if rows != [] {
      var g := rows[0].group;
      var n := Lead(rows, g);
      forall i | n <= i < |rows| ensures rows[i].group != g { LeadEnds(rows, i); }
      CutAt(rows, n);
      HeadOfGroup(rows[..n], rows[n..], g);
      assert Grouped(rows[n..]) == rows[n..] by {
        ContiguousTail(rows, n);
        GroupedIdentity(rows[n..]);
      }
    }
  }

  lemma ContiguousTail(rows: seq<Row>, n: nat)
    requires Contiguous(rows) && n <= |rows|
    ensures Contiguous(rows[n..])
  {
    var b := rows[n..];
    forall i, j, k | 0 <= i < j < k < |b| && b[i].group == b[k].group ensures b[j].group == b[i].group {
      assert b[i] == rows[n + i] && b[j] == rows[n + j] && b[k] == rows[n + k];
    }
  }

  lemma CutAt(rows: seq<Row>, n: nat)
    requires 0 < n <= |rows|
    ensures rows[..n] + rows[n..] == rows && rows[..n] != []
  {
  }

  lemma PartsOf(a: seq<Row>, b: seq<Row>, g: string)
    requires forall i :: 0 <= i < |a| ==> a[i].group == g
    requires forall i :: 0 <= i < |b| ==> b[i].group != g
    ensures OfGroup(a + b, g) == a && NotOfGroup(a + b, g) == b
  {
    OfGroupConcat(a, b, g);
    NotOfGroupConcat(a, b, g);
    OfGroupPure(a, g);
    OfGroupNone(b, g);
    assert a + [] == a && [] + b == b;
  }

  lemma HeadOfGroup(a: seq<Row>, b: seq<Row>, g: string)
    requires a != [] && forall i :: 0 <= i < |a| ==> a[i].group == g
    requires forall i :: 0 <= i < |b| ==> b[i].group != g
    ensures OfGroup(a + b, g) == a && NotOfGroup((a + b)[1..], g) == b
  {
    PartsOf(a, b, g);
    assert (a + b)[1..] == a[1..] + b;
    PartsOf(a[1..], b, g);
  }

  lemma LeadEnds(rows: seq<Row>, i: nat)
    requires Contiguous(rows) && rows != [] && Lead(rows, rows[0].group) <= i < |rows|
    ensures rows[i].group != rows[0].group
  {
    var n := Lead(rows, rows[0].group);
    assert rows[n].group != rows[0].group && 0 < n <= i;
    if n < i { GroupOver(rows, n, i); }
  }

  lemma GroupOver(rows: seq<Row>, n: nat, i: nat)
    requires Contiguous(rows) && 0 < n < i < |rows| && rows[n].group != rows[0].group
    ensures rows[i].group != rows[0].group
  {
  }

  /** How many rows at the front belong to `g`. */
  function Lead(rows: seq<Row>, g: string): (n: nat)
    ensures n <= |rows| && (forall i :: 0 <= i < n ==> rows[i].group == g)
    ensures n < |rows| ==> rows[n].group != g
    ensures rows != [] && rows[0].group == g ==> n > 0
  {
    if rows == [] || rows[0].group != g then 0 else 1 + Lead(rows[1..], g)
  }

  // ------------------------------------------------------------- the theorems

  /** With the groups of the surviving rows together, the merge is the stable grouping of the
      surviving rows followed by the new ones: survivors keep their order, a new row comes after the
      shown rows of its group, in fresh order, and a new group comes after all shown groups. */
  lemma MergeIsGrouping(shown: seq<Row>, latest: seq<Row>)
    requires Contiguous(Survivors(shown, latest))
    ensures var kept := Survivors(shown, latest);
      Merge(shown, latest) == Grouped(kept + News(Ids(kept), latest))
    ensures Contiguous(Merge(shown, latest))
  {
    var kept := Survivors(shown, latest);
    GroupedIdentity(kept);
    GroupedInsertAll(kept, News(Ids(kept), latest));
    GroupedContiguous(kept + News(Ids(kept), latest));
  }

  lemma PerGroupGlue(rows: seq<Row>, row: Row, rest: seq<Row>, more: seq<Row>, g: string)
    requires more == [row] + rest
    ensures OfGroup(Insert(rows, row), g) + OfGroup(rest, g) == OfGroup(rows, g) + OfGroup(more, g)
  {
    var a, b, c := OfGroup(rows, g), OfGroup([row], g), OfGroup(rest, g);
    assert OfGroup(Insert(rows, row), g) == a + b by { InsertPerGroup(rows, row, g); }
    assert OfGroup(more, g) == b + c by { OfGroupConcat([row], rest, g); }
    Regroup(a, b, c);
  }

  /** Whatever the groups look like, each group's rows are its surviving rows and then its new ones. */
  lemma {:induction false} InsertAllPerGroup(rows: seq<Row>, more: seq<Row>, g: string)
    ensures OfGroup(InsertAll(rows, more), g) == OfGroup(rows, g) + OfGroup(more, g)
    decreases |more|
  {
    if more == [] {
      assert OfGroup(rows, g) + [] == OfGroup(rows, g);
    } else {
      InsertAllPerGroup(Insert(rows, more[0]), more[1..], g);
      PerGroupGlue(rows, more[0], more[1..], more, g);
    }
  }

  lemma InsertPerGroup(rows: seq<Row>, row: Row, g: string)
    ensures OfGroup(Insert(rows, row), g) == OfGroup(rows, g) + OfGroup([row], g)
  {
    var at := LastOfGroup(rows, row.group);
    if at.Some? {
      var a, b := rows[..at.value + 1], rows[at.value + 1..];
      assert rows == a + b;
      OfGroupConcat(a, b, g);
      OfGroupConcat(a, [row], g);
      OfGroupConcat(a + [row], b, g);
      if g == row.group { OfGroupNone(b, g); } else { OfGroupNone([row], g); }
      assert OfGroup(a, g) + [] == OfGroup(a, g);
    } else {
      OfGroupConcat(rows, [row], g);
    }
  }

  /** A group is a function of the id, in two lists at once. */
  predicate SameGroups(shown: seq<Row>, latest: seq<Row>) {
    forall i, j :: 0 <= i < |shown| && 0 <= j < |latest| && Id(shown[i]) == Id(latest[j]) ==>
      shown[i].group == latest[j].group
  }

  /** The survivors sit in the same groups in the same order as the shown rows they replace. */
  lemma {:induction false} SurvivorsEmbed(shown: seq<Row>, latest: seq<Row>) returns (at: seq<nat>)
    requires SameGroups(shown, latest)
    ensures var kept := Survivors(shown, latest);
      && |at| == |kept| && (forall i :: 0 <= i < |at| ==>
            at[i] < |shown| && Id(shown[at[i]]) == Id(kept[i]) && shown[at[i]].group == kept[i].group)
      && (forall i, j :: 0 <= i < j < |at| ==> at[i] < at[j])
  {
    at := [];
    if shown != [] {
      var rest := SurvivorsEmbed(shown[1..], latest);
      var tail := seq(|rest|, i requires 0 <= i < |rest| => rest[i] + 1);
      var found := Position(latest, Id(shown[0]));
      at := if found.Some? then [0] + tail else tail;
    }
  }

  /** Groups that stood together on screen still do after a refresh. */
  lemma MergeContiguous(shown: seq<Row>, latest: seq<Row>)
    requires Contiguous(shown) && SameGroups(shown, latest)
    ensures Contiguous(Survivors(shown, latest)) && Contiguous(Merge(shown, latest))
  {
    var at := SurvivorsEmbed(shown, latest);
    var kept := Survivors(shown, latest);
    forall i, j, k | 0 <= i < j < k < |kept| && kept[i].group == kept[k].group
      ensures kept[j].group == kept[i].group
    {
      assert shown[at[i]].group == shown[at[k]].group;
    }
    MergeIsGrouping(shown, latest);
  }
}
