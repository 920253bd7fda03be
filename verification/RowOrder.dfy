/** A refresh never changes the order of what stays on screen, and what the picker shows after a load. */
module RowOrder {
  import opened Text
  import opened Rows
  import opened RowMerge

  ghost predicate Before(rows: seq<Row>, a: RowId, b: RowId) {
    exists i, j :: 0 <= i < j < |rows| && Id(rows[i]) == a && Id(rows[j]) == b
  }

  lemma BeforeIn(rows: seq<Row>, i: nat, j: nat)
    requires i < j < |rows|
    ensures Before(rows, Id(rows[i]), Id(rows[j]))
  {
  }

  lemma SurvivorAt(shown: seq<Row>, latest: seq<Row>, id: RowId) returns (at: nat)
    requires id in Ids(shown) && id in Ids(latest)
    ensures at < |Survivors(shown, latest)| && Id(Survivors(shown, latest)[at]) == id
  {
    assert id in Ids(Survivors(shown, latest));
    at := Position(Survivors(shown, latest), id).value;
  }

  lemma BeforeMore(head: seq<Row>, rows: seq<Row>, a: RowId, b: RowId)
    requires Before(rows, a, b)
    ensures Before(head + rows, a, b)
  {
    var i, j :| 0 <= i < j < |rows| && Id(rows[i]) == a && Id(rows[j]) == b;
    BeforeIn(head + rows, |head| + i, |head| + j);
  }

  lemma BeforeTail(rows: seq<Row>, a: RowId, b: RowId)
    requires Before(rows, a, b)
    ensures rows != [] && ((Id(rows[0]) == a && b in Ids(rows[1..])) || Before(rows[1..], a, b))
  {
    var i, j :| 0 <= i < j < |rows| && Id(rows[i]) == a && Id(rows[j]) == b;
    assert rows[1..][j - 1] == rows[j];
    if i > 0 { BeforeIn(rows[1..], i - 1, j - 1); }
  }

  /** The first row, if it is still there, comes before the others. */
  lemma SurvivorsSplit(shown: seq<Row>, latest: seq<Row>) returns (head: seq<Row>)
    requires shown != []
    ensures Survivors(shown, latest) == head + Survivors(shown[1..], latest)
    ensures Id(shown[0]) in Ids(latest) ==> |head| == 1 && Id(head[0]) == Id(shown[0])
  {
    var at := Position(latest, Id(shown[0]));
    head := if at.Some? then [latest[at.value]] else [];
  }

  lemma {:induction false} SurvivorsBefore(shown: seq<Row>, latest: seq<Row>, a: RowId, b: RowId)
    requires Before(shown, a, b) && a in Ids(latest) && b in Ids(latest)
    ensures Before(Survivors(shown, latest), a, b)
  {
    BeforeTail(shown, a, b);
    var head := SurvivorsSplit(shown, latest);
    var rest := Survivors(shown[1..], latest);
    if Before(shown[1..], a, b) {
      SurvivorsBefore(shown[1..], latest, a, b);
      BeforeMore(head, rest, a, b);
    } else {
      var at := SurvivorAt(shown[1..], latest, b);
      BeforeIn(head + rest, 0, 1 + at);
    }
  }

  lemma InsertedAt(front: seq<Row>, row: Row, back: seq<Row>, i: nat, j: nat)
    requires i < j < |front + back|
    ensures Before(front + [row] + back, Id((front + back)[i]), Id((front + back)[j]))
  {
    var out, n := front + [row] + back, |front|;
    BeforeIn(out, if i < n then i else i + 1, if j < n then j else j + 1);
  }

  lemma InsertBefore(rows: seq<Row>, row: Row, a: RowId, b: RowId)
    requires Before(rows, a, b)
    ensures Before(Insert(rows, row), a, b)
  {
    var i, j :| 0 <= i < j < |rows| && Id(rows[i]) == a && Id(rows[j]) == b;
    var at := LastOfGroup(rows, row.group);
    var n := if at.Some? then at.value + 1 else |rows|;
    assert rows == rows[..n] + rows[n..];
    assert Insert(rows, row) == rows[..n] + [row] + rows[n..];
    InsertedAt(rows[..n], row, rows[n..], i, j);
  }

  lemma {:induction false} InsertAllBefore(rows: seq<Row>, more: seq<Row>, a: RowId, b: RowId)
    requires Before(rows, a, b)
    ensures Before(InsertAll(rows, more), a, b)
    decreases |more|
  {
    if more != [] {
      InsertBefore(rows, more[0], a, b);
      InsertAllBefore(Insert(rows, more[0]), more[1..], a, b);
    }
  }

  lemma MergeBefore(shown: seq<Row>, latest: seq<Row>, a: RowId, b: RowId)
    requires Before(shown, a, b) && a in Ids(latest) && b in Ids(latest)
    ensures Before(Merge(shown, latest), a, b)
  {
    SurvivorsBefore(shown, latest, a, b);
    var kept := Survivors(shown, latest);
    InsertAllBefore(kept, News(Ids(kept), latest), a, b);
  }

  lemma NotBoth(rows: seq<Row>, a: RowId, b: RowId)
    requires DistinctIds(rows) && Before(rows, a, b)
    ensures !Before(rows, b, a)
  {
  }

  lemma OneOrder(rows: seq<Row>, a: RowId, b: RowId)
    requires a in Ids(rows) && b in Ids(rows) && a != b
    ensures Before(rows, a, b) || Before(rows, b, a)
  {
    var i, j := Position(rows, a).value, Position(rows, b).value;
    if i < j { BeforeIn(rows, i, j); } else { BeforeIn(rows, j, i); }
  }

  /** Two rows that a refresh leaves on screen are in the order in which they were, whatever groups they are
      of and wherever the refresh has them. */
  lemma OrderStays(shown: seq<Row>, latest: seq<Row>, a: RowId, b: RowId)
    requires DistinctIds(shown) && a in Ids(shown) && b in Ids(shown) && a in Ids(latest) && b in Ids(latest) && a != b
    ensures Before(Merge(shown, latest), a, b) <==> Before(shown, a, b)
  {
    MergeIds(shown, latest);
    if Before(shown, a, b) {
      MergeBefore(shown, latest, a, b);
    } else {
      OneOrder(shown, a, b);
      MergeBefore(shown, latest, b, a);
      NotBoth(Merge(shown, latest), b, a);
    }
  }
}
