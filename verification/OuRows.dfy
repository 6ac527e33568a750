/** The rows of an OU rollup: depth-first, the most expensive sibling first, nothing for subtrees
    that add up to zero. */
module OuRows {
  import opened Text
  import opened Hierarchy

  datatype Row = Row(ouId: string, ouName: string, depth: nat, amount: real)

  // -------------------------------------------------------------- descending

  type Amounts = map<string, real>

  /** Insert before the first strictly smaller amount: a stable descending sort. */
  function InsertDescending(id: string, ids: seq<string>, amounts: Amounts): seq<string>
    requires id in amounts && forall x :: x in ids ==> x in amounts
  {
    if ids == [] then [id]
    else
      var last := ids[|ids| - 1];
      if amounts[last] >= amounts[id] then ids + [id]
      else InsertDescending(id, ids[..|ids| - 1], amounts) + [last]
  }

  /** sort.SliceStable by amount, largest first. */
  function SortDescending(ids: seq<string>, amounts: Amounts): (sorted: seq<string>)
    requires forall x :: x in ids ==> x in amounts
    ensures multiset(sorted) == multiset(ids)
  {
    if ids == [] then []
    else
      var front := ids[..|ids| - 1];
      var id := ids[|ids| - 1];
      assert ids == front + [id];
      var rest := SortDescending(front, amounts);
      assert forall x :: x in rest ==> x in multiset(front);
      InsertKeepsElements(id, rest, amounts);
      InsertDescending(id, rest, amounts)
  }

  lemma {:induction false} InsertKeepsElements(id: string, ids: seq<string>, amounts: Amounts)
    requires id in amounts && forall x :: x in ids ==> x in amounts
    ensures multiset(InsertDescending(id, ids, amounts)) == multiset(ids) + multiset{id}
  {
    if ids != [] {
      var last := ids[|ids| - 1];
      assert ids == ids[..|ids| - 1] + [last];
      InsertKeepsElements(id, ids[..|ids| - 1], amounts);
    }
  }

  ghost predicate Descending(ids: seq<string>, amounts: Amounts)
    requires forall x :: x in ids ==> x in amounts
  {
    forall i, j :: 0 <= i < j < |ids| ==> amounts[ids[i]] >= amounts[ids[j]]
  }

  lemma {:induction false} InsertIsDescending(id: string, ids: seq<string>, amounts: Amounts)
    requires id in amounts && (forall x :: x in ids ==> x in amounts) && Descending(ids, amounts)
    ensures forall x :: x in InsertDescending(id, ids, amounts) ==> x in ids || x == id
    ensures Descending(InsertDescending(id, ids, amounts), amounts)
  {
    if ids != [] {
      var front := ids[..|ids| - 1];
      InsertIsDescending(id, front, amounts);
      var last := ids[|ids| - 1];
      forall x | x in front
        ensures amounts[x] >= amounts[last]
      {
        var i :| 0 <= i < |front| && front[i] == x;
        assert ids[i] == x;
      }
    }
  }

  lemma {:induction false} SortIsDescending(ids: seq<string>, amounts: Amounts)
    requires forall x :: x in ids ==> x in amounts
    ensures forall x :: x in SortDescending(ids, amounts) <==> x in ids
    ensures Descending(SortDescending(ids, amounts), amounts)
  {
    var sorted := SortDescending(ids, amounts);
    assert forall x :: x in sorted <==> x in multiset(sorted);
    assert forall x :: x in ids <==> x in multiset(ids);
    if ids != [] {
      SortIsDescending(ids[..|ids| - 1], amounts);
      InsertIsDescending(ids[|ids| - 1], SortDescending(ids[..|ids| - 1], amounts), amounts);
    }
  }

  /** The IDs with one particular amount, in order. */
  ghost function WithAmount(ids: seq<string>, amounts: Amounts, amount: real): seq<string>
    requires forall x :: x in ids ==> x in amounts
  {
    if ids == [] then []
    else
      var last := ids[|ids| - 1];
      WithAmount(ids[..|ids| - 1], amounts, amount) + if amounts[last] == amount then [last] else []
  }

  lemma {:induction false} InsertAfterTies(id: string, ids: seq<string>, amounts: Amounts, amount: real)
    requires id in amounts && forall x :: x in ids ==> x in amounts
    ensures forall x :: x in InsertDescending(id, ids, amounts) ==> x in amounts
    ensures WithAmount(InsertDescending(id, ids, amounts), amounts, amount)
         == WithAmount(ids, amounts, amount) + if amounts[id] == amount then [id] else []
  {
    if ids != [] {
      var front, last := ids[..|ids| - 1], ids[|ids| - 1];
      if amounts[last] >= amounts[id] {
        assert (ids + [id])[..|ids|] == ids;
      } else {
        InsertAfterTies(id, front, amounts, amount);
        var r := InsertDescending(id, front, amounts);
        assert (r + [last])[..|r|] == r;
      }
    }
  }

  /** The sort is stable: OUs with equal amounts stay in hierarchy order. */
  lemma {:induction false} SortKeepsTies(ids: seq<string>, amounts: Amounts, amount: real)
    requires forall x :: x in ids ==> x in amounts
    ensures forall x :: x in SortDescending(ids, amounts) ==> x in amounts
    ensures WithAmount(SortDescending(ids, amounts), amounts, amount) == WithAmount(ids, amounts, amount)
  {
    SortIsDescending(ids, amounts);
    if ids != [] {
      SortKeepsTies(ids[..|ids| - 1], amounts, amount);
      InsertAfterTies(ids[|ids| - 1], SortDescending(ids[..|ids| - 1], amounts), amounts, amount);
    }
  }

  // -------------------------------------------------------------------- rows

  /** Every node has an amount, and amounts are keyed by nodes only. */
  ghost predicate Complete(h: seq<Node>, amounts: Amounts) {
    WellFormed(h) && forall id :: id in amounts <==> Has(h, id)
  }

  function RowOf(n: Node, amount: real): Row {
    Row(n.id, if Trim(n.name) == "" then n.id else Trim(n.name), n.depth, amount)
  }

  lemma KidsAreLater(h: seq<Node>, id: string)
    requires WellFormed(h) && Has(h, id)
    ensures forall k :: k in Kids(h, id) ==> Has(h, k) && Pos(h, k) > Pos(h, id)
    ensures CleanId(id)
  {
    assert CleanId(h[Pos(h, id)].id);
    forall k | k in Kids(h, id)
      ensures Has(h, k) && Pos(h, k) > Pos(h, id)
    {
      KidsOf(h, id, k);
      ParentIsEarlier(h, k);
    }
  }

  ghost predicate AtOrAfter(h: seq<Node>, ids: seq<string>, floor: nat) {
    floor <= |h| && forall id :: id in ids ==> Has(h, id) && Pos(h, id) >= floor
  }

  lemma SortedKidsAreLater(h: seq<Node>, amounts: Amounts, id: string)
    requires Complete(h, amounts) && Has(h, id)
    ensures forall k :: k in Kids(h, id) ==> k in amounts
    ensures AtOrAfter(h, SortDescending(Kids(h, id), amounts), Pos(h, id) + 1)
  {
    KidsAreLater(h, id);
    SortIsDescending(Kids(h, id), amounts);
  }

  /** The children of an OU, most expensive first. */
  ghost function SortedKids(h: seq<Node>, amounts: Amounts, id: string): (ids: seq<string>)
    requires Complete(h, amounts) && Has(h, id)
    ensures AtOrAfter(h, ids, Pos(h, id) + 1)
  {
    SortedKidsAreLater(h, amounts, id);
    SortDescending(Kids(h, id), amounts)
  }

  /** The rows of a subtree: the OU, then its children's subtrees, most expensive first;
      nothing at all for a subtree that adds up to zero. */
  ghost function Rows(h: seq<Node>, amounts: Amounts, id: string): seq<Row>
    requires Complete(h, amounts) && Has(h, id)
    decreases |h| - Pos(h, id), 0
  {
    if amounts[id] == 0.0 then []
    else [RowOf(NodeOf(h, id), amounts[id])] + RowsOfAll(h, amounts, SortedKids(h, amounts, id), Pos(h, id) + 1)
  }

  ghost function RowsOfAll(h: seq<Node>, amounts: Amounts, ids: seq<string>, floor: nat): seq<Row>
    requires Complete(h, amounts) && AtOrAfter(h, ids, floor)
    decreases |h| - floor, 1 + |ids|
  {
    if ids == [] then []
    else RowsOfAll(h, amounts, ids[..|ids| - 1], floor) + Rows(h, amounts, ids[|ids| - 1])
  }

  ghost function TreeRows(h: seq<Node>, amounts: Amounts): seq<Row>
    requires Complete(h, amounts)
  {
    RootsAreNodes(h, amounts);
    RowsOfAll(h, amounts, SortDescending(Kids(h, ""), amounts), 0)
  }

  lemma RootsAreNodes(h: seq<Node>, amounts: Amounts)
    requires Complete(h, amounts)
    ensures forall k :: k in Kids(h, "") ==> k in amounts
    ensures AtOrAfter(h, SortDescending(Kids(h, ""), amounts), 0)
  {
    forall k | k in Kids(h, "")
      ensures k in amounts && Has(h, k)
    {
      KidsOf(h, "", k);
    }
    SortIsDescending(Kids(h, ""), amounts);
  }

  // ----------------------------------------------------- what the rows show

  /** An OU is listed if its own amount and those of all OUs between it and a are not zero. */
  ghost predicate ShownUnder(h: seq<Node>, amounts: Amounts, id: string, a: string)
    requires Complete(h, amounts) && Has(h, id)
    decreases Pos(h, id)
  {
    amounts[id] != 0.0
    && (id == a || (ParentOf(h, id) != "" && (ParentIsEarlier(h, id); ShownUnder(h, amounts, ParentOf(h, id), a))))
  }

  lemma {:induction false} ShownIsUnder(h: seq<Node>, amounts: Amounts, id: string, a: string)
    requires Complete(h, amounts) && Has(h, id) && ShownUnder(h, amounts, id, a)
    ensures Under(h, id, a) && Has(h, a) && amounts[a] != 0.0
    decreases Pos(h, id)
  {
    if id != a {
      ParentIsEarlier(h, id);
      ShownIsUnder(h, amounts, ParentOf(h, id), a);
    }
  }

  /** Shown below a: shown below the child of a towards it. */
  lemma {:induction false} ShownThroughChild(h: seq<Node>, amounts: Amounts, id: string, a: string)
    requires Complete(h, amounts) && Has(h, id) && Has(h, a) && id != a
    ensures ShownUnder(h, amounts, id, a) <==>
              amounts[a] != 0.0 && exists c :: c in Kids(h, a) && ShownUnder(h, amounts, id, c)
    decreases Pos(h, id)
  {
    KidsAreLater(h, a);
    if ParentOf(h, id) == "" {
      forall c | c in Kids(h, a) && ShownUnder(h, amounts, id, c)
        ensures false
      {
        KidsOf(h, a, c);
      }
    } else {
      var p := ParentOf(h, id);
      ParentIsEarlier(h, id);
      if p == a {
        KidsOf(h, a, id);
        if amounts[a] != 0.0 && amounts[id] != 0.0 {
          assert ShownUnder(h, amounts, id, id);
        }
        assert ShownUnder(h, amounts, p, a) <==> amounts[a] != 0.0;
      } else {
        ShownThroughChild(h, amounts, p, a);
        forall c | c in Kids(h, a)
          ensures ShownUnder(h, amounts, id, c) <==> amounts[id] != 0.0 && ShownUnder(h, amounts, p, c)
        {
          if id == c {
            KidsOf(h, a, c);
          }
        }
      }
    }
  }

  ghost predicate Lists(rows: seq<Row>, id: string) {
    exists i :: 0 <= i < |rows| && rows[i].ouId == id
  }

  ghost predicate ShownUnderAny(h: seq<Node>, amounts: Amounts, id: string, ids: seq<string>)
    requires Complete(h, amounts) && Has(h, id)
  {
    exists c :: c in ids && ShownUnder(h, amounts, id, c)
  }

  lemma ListsAppend(a: seq<Row>, b: seq<Row>, id: string)
    ensures Lists(a + b, id) <==> Lists(a, id) || Lists(b, id)
  {
    if Lists(a, id) {
      var i :| 0 <= i < |a| && a[i].ouId == id;
      assert (a + b)[i].ouId == id;
    }
    if Lists(b, id) {
      var i :| 0 <= i < |b| && b[i].ouId == id;
      assert (a + b)[|a| + i].ouId == id;
    }
  }

  lemma SnocOf(ids: seq<string>)
    requires ids != []
    ensures ids == ids[..|ids| - 1] + [ids[|ids| - 1]]
  {
  }

  lemma NothingShown(h: seq<Node>, amounts: Amounts, id: string)
    requires Complete(h, amounts) && Has(h, id)
    ensures !ShownUnderAny(h, amounts, id, []) && !Lists([], id)
  {
  }

  lemma ShownUnderAnySnoc(h: seq<Node>, amounts: Amounts, id: string, ids: seq<string>, last: string)
    requires Complete(h, amounts) && Has(h, id)
    ensures ShownUnderAny(h, amounts, id, ids + [last])
            <==> ShownUnderAny(h, amounts, id, ids) || ShownUnder(h, amounts, id, last)
  {
    hide ShownUnder;
    assert forall c :: c in ids + [last] <==> c in ids || c == last;
  }

  lemma ShownUnderKids(h: seq<Node>, amounts: Amounts, id: string, a: string)
    requires Complete(h, amounts) && Has(h, a) && Has(h, id) && amounts[a] != 0.0 && id != a
    ensures ShownUnder(h, amounts, id, a) <==> ShownUnderAny(h, amounts, id, SortedKids(h, amounts, a))
  {
    hide WellFormed, Has, ShownUnder;
    KidsAreLater(h, a);
    SortedKidsAreLater(h, amounts, a);
    SortIsDescending(Kids(h, a), amounts);
    assert forall c :: c in SortedKids(h, amounts, a) <==> c in Kids(h, a);
    ShownThroughChild(h, amounts, id, a);
  }

  lemma HeadLists(row: Row, id: string)
    ensures Lists([row], id) <==> row.ouId == id
  {
    assert [row][0] == row;
  }

  lemma {:induction false} RowsList(h: seq<Node>, amounts: Amounts, a: string, id: string)
    requires Complete(h, amounts) && Has(h, a) && Has(h, id)
    ensures Lists(Rows(h, amounts, a), id) <==> ShownUnder(h, amounts, id, a)
    decreases |h| - Pos(h, a), 0
  {
    hide WellFormed, Has, SortedKids, RowsOfAll, Lists, ShownUnderAny;
    if amounts[a] == 0.0 {
      NothingShown(h, amounts, id);
      if ShownUnder(h, amounts, id, a) {
        ShownIsUnder(h, amounts, id, a);
      }
    } else {
      var kids := SortedKids(h, amounts, a);
      RowsOfAllList(h, amounts, kids, Pos(h, a) + 1, id);
      var head := RowOf(NodeOf(h, a), amounts[a]);
      ListsAppend([head], RowsOfAll(h, amounts, kids, Pos(h, a) + 1), id);
      HeadLists(head, id);
      if id != a {
        ShownUnderKids(h, amounts, id, a);
      }
    }
  }

  lemma {:induction false} RowsOfAllList(h: seq<Node>, amounts: Amounts, ids: seq<string>, floor: nat, id: string)
    requires Complete(h, amounts) && AtOrAfter(h, ids, floor) && Has(h, id)
    ensures Lists(RowsOfAll(h, amounts, ids, floor), id) <==> ShownUnderAny(h, amounts, id, ids)
    decreases |h| - floor, 1 + |ids|
  {
    hide Rows, ShownUnder, ShownUnderAny, Lists;
    if ids == [] {
      NothingShown(h, amounts, id);
    } else {
      var front := ids[..|ids| - 1];
      var last := ids[|ids| - 1];
      SnocOf(ids);
      RowsOfAllList(h, amounts, front, floor, id);
      RowsList(h, amounts, last, id);
      ListsAppend(RowsOfAll(h, amounts, front, floor), Rows(h, amounts, last), id);
      ShownUnderAnySnoc(h, amounts, id, front, last);
    }
  }

  // ---------------------------------------------------------- order of rows

  ghost predicate RowsAreNodes(h: seq<Node>, amounts: Amounts, rows: seq<Row>)
    requires Complete(h, amounts)
  {
    forall i :: 0 <= i < |rows| ==>
      && Has(h, rows[i].ouId) && amounts[rows[i].ouId] != 0.0
      && rows[i] == RowOf(NodeOf(h, rows[i].ouId), amounts[rows[i].ouId])
  }

  lemma {:induction false} RowsAreOfNodes(h: seq<Node>, amounts: Amounts, a: string)
    requires Complete(h, amounts) && Has(h, a)
    ensures RowsAreNodes(h, amounts, Rows(h, amounts, a))
    decreases |h| - Pos(h, a), 0
  {
    hide WellFormed, Has, SortedKids, RowsOfAll;
    if amounts[a] != 0.0 {
      AllRowsAreOfNodes(h, amounts, SortedKids(h, amounts, a), Pos(h, a) + 1);
    }
  }

  lemma {:induction false} AllRowsAreOfNodes(h: seq<Node>, amounts: Amounts, ids: seq<string>, floor: nat)
    requires Complete(h, amounts) && AtOrAfter(h, ids, floor)
    ensures RowsAreNodes(h, amounts, RowsOfAll(h, amounts, ids, floor))
    decreases |h| - floor, 1 + |ids|
  {
    hide Rows;
    if ids != [] {
      AllRowsAreOfNodes(h, amounts, ids[..|ids| - 1], floor);
      RowsAreOfNodes(h, amounts, ids[|ids| - 1]);
    }
  }

  /** All rows of a subtree are under its top. */
  lemma RowsAreUnder(h: seq<Node>, amounts: Amounts, a: string, i: nat)
    requires Complete(h, amounts) && Has(h, a) && i < |Rows(h, amounts, a)|
    ensures var id := Rows(h, amounts, a)[i].ouId;
      Has(h, id) && Under(h, id, a) && NodeOf(h, id).depth >= NodeOf(h, a).depth
  {
    hide Rows;
    RowsAreOfNodes(h, amounts, a);
    var id := Rows(h, amounts, a)[i].ouId;
    RowsList(h, amounts, a, id);
    assert Lists(Rows(h, amounts, a), id);
    ShownIsUnder(h, amounts, id, a);
    UnderIsUpwards(h, id, a);
  }

  lemma AllRowsAreUnder(h: seq<Node>, amounts: Amounts, ids: seq<string>, floor: nat, i: nat)
    requires Complete(h, amounts) && AtOrAfter(h, ids, floor) && i < |RowsOfAll(h, amounts, ids, floor)|
    ensures var id := RowsOfAll(h, amounts, ids, floor)[i].ouId;
      Has(h, id) && exists c :: c in ids && Under(h, id, c)
  {
    hide Rows, RowsOfAll;
    AllRowsAreOfNodes(h, amounts, ids, floor);
    var id := RowsOfAll(h, amounts, ids, floor)[i].ouId;
    RowsOfAllList(h, amounts, ids, floor, id);
    assert Lists(RowsOfAll(h, amounts, ids, floor), id);
    var c :| c in ids && ShownUnder(h, amounts, id, c);
    ShownIsUnder(h, amounts, id, c);
  }

  /** Lists of siblings: the children of one node, or the roots. */
  ghost predicate Siblings(h: seq<Node>, ids: seq<string>, parent: string) {
    && (forall id :: id in ids ==> Has(h, id) && ParentOf(h, id) == parent)
    && (forall i, j :: 0 <= i < j < |ids| ==> ids[i] != ids[j])
  }

  lemma SiblingsHaveOneDepth(h: seq<Node>, parent: string, x: string, y: string)
    requires WellFormed(h) && Has(h, x) && Has(h, y) && ParentOf(h, x) == parent && ParentOf(h, y) == parent
    ensures NodeOf(h, x).depth == NodeOf(h, y).depth
  {
    if parent == "" {
      RootIsAtDepthZero(h, x);
      RootIsAtDepthZero(h, y);
    } else {
      ParentIsEarlier(h, x);
      ParentIsEarlier(h, y);
    }
  }

  lemma SortedKidsAreSiblings(h: seq<Node>, amounts: Amounts, parent: string)
    requires Complete(h, amounts) && forall k :: k in Kids(h, parent) ==> k in amounts
    ensures Siblings(h, SortDescending(Kids(h, parent), amounts), parent)
  {
    var kids := Kids(h, parent);
    SortIsDescending(kids, amounts);
    forall id | id in kids
      ensures Has(h, id) && ParentOf(h, id) == parent
    {
      KidsOf(h, parent, id);
    }
    KidsAreDistinct(h, parent);
    SortKeepsDistinct(kids, SortDescending(kids, amounts));
  }

  lemma SortKeepsDistinct(a: seq<string>, b: seq<string>)
    requires multiset(a) == multiset(b) && forall i, j :: 0 <= i < j < |a| ==> a[i] != a[j]
    ensures forall i, j :: 0 <= i < j < |b| ==> b[i] != b[j]
  {
    forall i, j | 0 <= i < j < |b|
      ensures b[i] != b[j]
    {
      DistinctOccursOnce(a, b[i]);
      var front, back := b[..j], b[j..];
      assert b == front + back;
      assert multiset(b)[b[i]] == multiset(front)[b[i]] + multiset(back)[b[i]];
      assert front[i] in front;
      assert back[0] in back;
    }
  }

  lemma {:induction false} DistinctOccursOnce(a: seq<string>, x: string)
    requires forall i, j :: 0 <= i < j < |a| ==> a[i] != a[j]
    ensures multiset(a)[x] <= 1
  {
    if a != [] {
      var front := a[..|a| - 1];
      assert a == front + [a[|a| - 1]];
      DistinctOccursOnce(front, x);
      if x == a[|a| - 1] {
        assert x !in front;
      }
    }
  }

  /** The row's parent is listed before it, and everything listed in between is deeper. */
  ghost predicate ParentPrecedes(h: seq<Node>, rows: seq<Row>, j: nat)
    requires j < |rows| && Has(h, rows[j].ouId)
  {
    exists q :: 0 <= q < j && rows[q].ouId == ParentOf(h, rows[j].ouId)
                && forall m :: q < m <= j ==> rows[m].depth > rows[q].depth
  }

  ghost predicate PreOrder(h: seq<Node>, rows: seq<Row>, parent: string) {
    forall j :: 0 <= j < |rows| ==>
      Has(h, rows[j].ouId) && (ParentOf(h, rows[j].ouId) == parent || ParentPrecedes(h, rows, j))
  }

  ghost predicate SiblingsDescend(h: seq<Node>, rows: seq<Row>) {
    forall i, j | 0 <= i < j < |rows| && Has(h, rows[i].ouId) && Has(h, rows[j].ouId)
                  && ParentOf(h, rows[i].ouId) == ParentOf(h, rows[j].ouId) :: rows[i].amount >= rows[j].amount
  }

  lemma ShiftParentPrecedes(h: seq<Node>, a: seq<Row>, b: seq<Row>, j: nat)
    requires j < |b| && Has(h, b[j].ouId) && ParentPrecedes(h, b, j)
    ensures (a + b)[|a| + j] == b[j] && ParentPrecedes(h, a + b, |a| + j)
  {
    var q :| 0 <= q < j && b[q].ouId == ParentOf(h, b[j].ouId) && forall m :: q < m <= j ==> b[m].depth > b[q].depth;
    var rows := a + b;
    assert rows[|a| + q] == b[q];
    forall m | |a| + q < m <= |a| + j
      ensures rows[m].depth > rows[|a| + q].depth
    {
      assert rows[m] == b[m - |a|];
    }
  }

  lemma AppendPreOrder(h: seq<Node>, a: seq<Row>, b: seq<Row>, parent: string)
    requires PreOrder(h, a, parent) && PreOrder(h, b, parent)
    ensures PreOrder(h, a + b, parent)
  {
    forall j | 0 <= j < |a + b|
      ensures Has(h, (a + b)[j].ouId)
      ensures ParentOf(h, (a + b)[j].ouId) == parent || ParentPrecedes(h, a + b, j)
    {
      if j < |a| {
        assert (a + b)[j] == a[j];
        if ParentOf(h, a[j].ouId) != parent {
          var q :| 0 <= q < j && a[q].ouId == ParentOf(h, a[j].ouId)
              && forall m :: q < m <= j ==> a[m].depth > a[q].depth;
          assert (a + b)[q] == a[q];
        }
      } else {
        assert (a + b)[j] == b[j - |a|];
        if ParentOf(h, b[j - |a|].ouId) != parent {
          ShiftParentPrecedes(h, a, b, j - |a|);
        }
      }
    }
  }

  /** The sorted children are siblings, in descending order. */
  lemma SortedKidsFacts(h: seq<Node>, amounts: Amounts, a: string)
    requires Complete(h, amounts) && Has(h, a)
    ensures a != "" && Siblings(h, SortedKids(h, amounts, a), a)
    ensures forall k :: k in SortedKids(h, amounts, a) ==> k in amounts
    ensures Descending(SortedKids(h, amounts, a), amounts)
  {
    hide WellFormed, Has, Siblings, Descending;
    KidsAreLater(h, a);
    SortedKidsAreLater(h, amounts, a);
    SortedKidsAreSiblings(h, amounts, a);
    SortIsDescending(Kids(h, a), amounts);
  }

  lemma HeadTops(h: seq<Node>, amounts: Amounts, a: string, rest: seq<Row>)
    requires Complete(h, amounts) && Has(h, a) && DeeperRows(h, a, rest)
    ensures Topped(h, [RowOf(NodeOf(h, a), amounts[a])] + rest, a, rest)
  {
    hide WellFormed, Has, DeeperRows;
    var head := RowOf(NodeOf(h, a), amounts[a]);
    assert ([head] + rest)[0] == head;
  }

  /** A non-empty subtree's rows: its top, then rows that are all deeper. */
  lemma RowsUnfold(h: seq<Node>, amounts: Amounts, a: string)
    requires Complete(h, amounts) && Has(h, a) && amounts[a] != 0.0
    ensures Topped(h, Rows(h, amounts, a), a, RowsOfAll(h, amounts, SortedKids(h, amounts, a), Pos(h, a) + 1))
  {
    hide WellFormed, Has, Siblings, Descending, RowsOfAll, SortedKids, DeeperRows, Topped;
    SortedKidsFacts(h, amounts, a);
    AllDeeper(h, amounts, SortedKids(h, amounts, a), a);
    HeadTops(h, amounts, a, RowsOfAll(h, amounts, SortedKids(h, amounts, a), Pos(h, a) + 1));
  }

  ghost predicate DeeperRows(h: seq<Node>, a: string, rest: seq<Row>)
    requires Has(h, a)
  {
    forall i :: 0 <= i < |rest| ==>
      Has(h, rest[i].ouId) && rest[i].depth > NodeOf(h, a).depth && rest[i].depth == NodeOf(h, rest[i].ouId).depth
  }

  lemma AllDeeper(h: seq<Node>, amounts: Amounts, kids: seq<string>, a: string)
    requires Complete(h, amounts) && Has(h, a) && a != "" && Siblings(h, kids, a) && AtOrAfter(h, kids, Pos(h, a) + 1)
    ensures DeeperRows(h, a, RowsOfAll(h, amounts, kids, Pos(h, a) + 1))
  {
    hide RowsOfAll, Siblings, AtOrAfter, WellFormed;
    var rest := RowsOfAll(h, amounts, kids, Pos(h, a) + 1);
    AllRowsAreOfNodes(h, amounts, kids, Pos(h, a) + 1);
    forall i | 0 <= i < |rest|
      ensures rest[i].depth > NodeOf(h, a).depth
    {
      DeeperThan(h, amounts, kids, a, i);
    }
  }

  ghost predicate Topped(h: seq<Node>, rows: seq<Row>, a: string, rest: seq<Row>)
    requires Has(h, a)
  {
    && rows != [] && rows == [rows[0]] + rest
    && rows[0].ouId == a && rows[0].depth == NodeOf(h, a).depth
    && DeeperRows(h, a, rest)
  }

  lemma ToppedPreOrder(h: seq<Node>, rows: seq<Row>, a: string, rest: seq<Row>)
    requires Has(h, a) && Topped(h, rows, a, rest) && PreOrder(h, rest, a)
    ensures PreOrder(h, rows, ParentOf(h, a))
  {
    forall j | 0 < j < |rows|
      ensures Has(h, rows[j].ouId) && ParentPrecedes(h, rows, j)
    {
      assert rows[j] == rest[j - 1];
      if ParentOf(h, rest[j - 1].ouId) == a {
        assert forall m :: 0 < m <= j ==> rows[m] == rest[m - 1];
      } else {
        ShiftParentPrecedes(h, [rows[0]], rest, j - 1);
      }
    }
  }

  lemma DeeperIsNoSibling(h: seq<Node>, a: string, rest: seq<Row>, i: nat)
    requires WellFormed(h) && Has(h, a) && DeeperRows(h, a, rest) && i < |rest|
    ensures Has(h, rest[i].ouId) && ParentOf(h, rest[i].ouId) != ParentOf(h, a)
  {
    hide WellFormed, Has;
    if ParentOf(h, rest[i].ouId) == ParentOf(h, a) {
      SiblingsHaveOneDepth(h, ParentOf(h, a), rest[i].ouId, a);
    }
  }

  lemma ToppedDescends(h: seq<Node>, rows: seq<Row>, a: string, rest: seq<Row>)
    requires WellFormed(h) && Has(h, a) && Topped(h, rows, a, rest) && SiblingsDescend(h, rest)
    ensures SiblingsDescend(h, rows)
  {
    hide WellFormed, Has, DeeperRows, NodeOf, ParentOf;
    forall j | 0 < j < |rows|
      ensures rows[j] == rest[j - 1] && Has(h, rows[j].ouId) && ParentOf(h, rows[j].ouId) != ParentOf(h, a)
    {
      DeeperIsNoSibling(h, a, rest, j - 1);
    }
  }

  lemma {:induction false} RowsArePreOrder(h: seq<Node>, amounts: Amounts, a: string)
    requires Complete(h, amounts) && Has(h, a)
    ensures PreOrder(h, Rows(h, amounts, a), ParentOf(h, a))
    decreases |h| - Pos(h, a), 0
  {
    hide PreOrder, Topped, Siblings, RowsOfAll, SortedKids, WellFormed, Has, Descending;
    if amounts[a] == 0.0 {
      NoRowsInOrder(h, ParentOf(h, a));
    } else {
      RowsUnfold(h, amounts, a);
      SortedKidsFacts(h, amounts, a);
      var kids := SortedKids(h, amounts, a);
      AllRowsArePreOrder(h, amounts, kids, Pos(h, a) + 1, a);
      ToppedPreOrder(h, Rows(h, amounts, a), a, RowsOfAll(h, amounts, kids, Pos(h, a) + 1));
    }
  }

  lemma NoRowsInOrder(h: seq<Node>, parent: string)
    ensures PreOrder(h, [], parent) && SiblingsDescend(h, [])
  {
  }

  lemma DeeperThan(h: seq<Node>, amounts: Amounts, kids: seq<string>, a: string, i: nat)
    requires Complete(h, amounts) && Has(h, a) && a != "" && Siblings(h, kids, a) && AtOrAfter(h, kids, Pos(h, a) + 1)
    requires i < |RowsOfAll(h, amounts, kids, Pos(h, a) + 1)|
    ensures var row := RowsOfAll(h, amounts, kids, Pos(h, a) + 1)[i];
      Has(h, row.ouId) && row.depth > NodeOf(h, a).depth
  {
    hide RowsOfAll, WellFormed, Has;
    AllRowsAreUnder(h, amounts, kids, Pos(h, a) + 1, i);
    AllRowsAreOfNodes(h, amounts, kids, Pos(h, a) + 1);
    var id := RowsOfAll(h, amounts, kids, Pos(h, a) + 1)[i].ouId;
    var c :| c in kids && Under(h, id, c);
    UnderIsUpwards(h, id, c);
    ParentIsEarlier(h, c);
  }

  lemma {:induction false} AllRowsArePreOrder(h: seq<Node>, amounts: Amounts, ids: seq<string>, floor: nat,
                                              parent: string)
    requires Complete(h, amounts) && AtOrAfter(h, ids, floor) && Siblings(h, ids, parent)
    ensures PreOrder(h, RowsOfAll(h, amounts, ids, floor), parent)
    decreases |h| - floor, 1 + |ids|
  {
    hide Rows;
    if ids != [] {
      var front := ids[..|ids| - 1];
      AllRowsArePreOrder(h, amounts, front, floor, parent);
      RowsArePreOrder(h, amounts, ids[|ids| - 1]);
      AppendPreOrder(h, RowsOfAll(h, amounts, front, floor), Rows(h, amounts, ids[|ids| - 1]), parent);
    }
  }

  /** Rows of different siblings' subtrees have the same parent only if they are those siblings. */
  lemma CousinsDiffer(h: seq<Node>, parent: string, x: string, y: string, u: string, v: string)
    requires WellFormed(h) && Has(h, x) && Has(h, y) && Has(h, u) && Has(h, v) && x != y
    requires ParentOf(h, x) == parent && ParentOf(h, y) == parent
    requires Under(h, u, x) && Under(h, v, y) && ParentOf(h, u) == ParentOf(h, v)
    ensures u == x && v == y
  {
    SiblingsHaveOneDepth(h, parent, x, y);
    SiblingsHaveOneDepth(h, ParentOf(h, u), u, v);
    UnderIsUpwards(h, u, x);
    UnderIsUpwards(h, v, y);
    if u != x || v != y {
      var r := ParentOf(h, u);
      assert u != x && v != y;
      ParentIsEarlier(h, u);
      OneAncestorPerDepth(h, r, x, y);
    }
  }

  lemma {:induction false} RowsDescend(h: seq<Node>, amounts: Amounts, a: string)
    requires Complete(h, amounts) && Has(h, a)
    ensures SiblingsDescend(h, Rows(h, amounts, a))
    decreases |h| - Pos(h, a), 0
  {
    hide SiblingsDescend, Topped, Siblings, RowsOfAll, SortedKids, WellFormed, Has, Descending;
    if amounts[a] == 0.0 {
      NoRowsInOrder(h, ParentOf(h, a));
    } else {
      RowsUnfold(h, amounts, a);
      SortedKidsFacts(h, amounts, a);
      var kids := SortedKids(h, amounts, a);
      AllRowsDescend(h, amounts, kids, Pos(h, a) + 1, a);
      ToppedDescends(h, Rows(h, amounts, a), a, RowsOfAll(h, amounts, kids, Pos(h, a) + 1));
    }
  }

  lemma AppendDescends(h: seq<Node>, a: seq<Row>, b: seq<Row>)
    requires SiblingsDescend(h, a) && SiblingsDescend(h, b)
    requires forall i, j | 0 <= i < |a| && 0 <= j < |b| && Has(h, a[i].ouId) && Has(h, b[j].ouId)
                           && ParentOf(h, a[i].ouId) == ParentOf(h, b[j].ouId) :: a[i].amount >= b[j].amount
    ensures SiblingsDescend(h, a + b)
  {
  }

  lemma {:induction false} AllRowsDescend(h: seq<Node>, amounts: Amounts, ids: seq<string>, floor: nat, parent: string)
    requires Complete(h, amounts) && AtOrAfter(h, ids, floor) && Siblings(h, ids, parent)
    requires (forall x :: x in ids ==> x in amounts) && Descending(ids, amounts)
    ensures SiblingsDescend(h, RowsOfAll(h, amounts, ids, floor))
    decreases |h| - floor, 1 + |ids|
  {
    hide Rows, SiblingsDescend;
    if ids == [] {
      NoRowsInOrder(h, parent);
    } else {
      var front := ids[..|ids| - 1];
      AllRowsDescend(h, amounts, front, floor, parent);
      RowsDescend(h, amounts, ids[|ids| - 1]);
      var a, b := RowsOfAll(h, amounts, front, floor), Rows(h, amounts, ids[|ids| - 1]);
      forall i, j | 0 <= i < |a| && 0 <= j < |b| && Has(h, a[i].ouId) && Has(h, b[j].ouId)
                    && ParentOf(h, a[i].ouId) == ParentOf(h, b[j].ouId)
        ensures a[i].amount >= b[j].amount
      {
        AcrossSubtrees(h, amounts, ids, floor, parent, i, j);
      }
      AppendDescends(h, a, b);
    }
  }

  lemma AcrossSubtrees(h: seq<Node>, amounts: Amounts, ids: seq<string>, floor: nat, parent: string, i: nat, j: nat)
    requires Complete(h, amounts) && AtOrAfter(h, ids, floor) && Siblings(h, ids, parent) && ids != []
    requires (forall x :: x in ids ==> x in amounts) && Descending(ids, amounts)
    requires i < |RowsOfAll(h, amounts, ids[..|ids| - 1], floor)| && j < |Rows(h, amounts, ids[|ids| - 1])|
    requires
      var u := RowsOfAll(h, amounts, ids[..|ids| - 1], floor)[i].ouId;
      var v := Rows(h, amounts, ids[|ids| - 1])[j].ouId;
      Has(h, u) && Has(h, v) && ParentOf(h, u) == ParentOf(h, v)
    ensures RowsOfAll(h, amounts, ids[..|ids| - 1], floor)[i].amount >= Rows(h, amounts, ids[|ids| - 1])[j].amount
  {
    hide Rows, RowsOfAll, WellFormed, Has;
    var front, last := ids[..|ids| - 1], ids[|ids| - 1];
    AllRowsAreUnder(h, amounts, front, floor, i);
    RowsAreUnder(h, amounts, last, j);
    AllRowsAreOfNodes(h, amounts, front, floor);
    RowsAreOfNodes(h, amounts, last);
    var u, v := RowsOfAll(h, amounts, front, floor)[i].ouId, Rows(h, amounts, last)[j].ouId;
    var x :| x in front && Under(h, u, x);
    var p :| 0 <= p < |front| && front[p] == x;
    assert ids[p] == x;
    CousinsDiffer(h, parent, x, last, u, v);
  }

  // ------------------------------------------------------------- no repeats

  ghost predicate DistinctRows(rows: seq<Row>) {
    forall i, j :: 0 <= i < j < |rows| ==> rows[i].ouId != rows[j].ouId
  }

  lemma ToppedDistinct(h: seq<Node>, rows: seq<Row>, a: string, rest: seq<Row>)
    requires Has(h, a) && Topped(h, rows, a, rest) && DistinctRows(rest)
    ensures DistinctRows(rows)
  {
    forall j | 0 < j < |rows|
      ensures rows[j] == rest[j - 1] && rows[j].ouId != a
    {
    }
  }

  lemma {:induction false} RowsAreDistinct(h: seq<Node>, amounts: Amounts, a: string)
    requires Complete(h, amounts) && Has(h, a)
    ensures DistinctRows(Rows(h, amounts, a))
    decreases |h| - Pos(h, a), 0
  {
    hide DistinctRows, Topped, Siblings, RowsOfAll, SortedKids, WellFormed, Has, Descending;
    if amounts[a] == 0.0 {
      NoRowsDistinct();
    } else {
      RowsUnfold(h, amounts, a);
      SortedKidsFacts(h, amounts, a);
      var kids := SortedKids(h, amounts, a);
      AllRowsAreDistinct(h, amounts, kids, Pos(h, a) + 1, a);
      ToppedDistinct(h, Rows(h, amounts, a), a, RowsOfAll(h, amounts, kids, Pos(h, a) + 1));
    }
  }

  lemma NoRowsDistinct()
    ensures DistinctRows([])
  {
  }

  lemma {:induction false} AllRowsAreDistinct(h: seq<Node>, amounts: Amounts, ids: seq<string>, floor: nat,
                                              parent: string)
    requires Complete(h, amounts) && AtOrAfter(h, ids, floor) && Siblings(h, ids, parent)
    ensures DistinctRows(RowsOfAll(h, amounts, ids, floor))
    decreases |h| - floor, 1 + |ids|
  {
    hide Rows, Under, ShownUnder;
    if ids != [] {
      var front := ids[..|ids| - 1];
      var last := ids[|ids| - 1];
      AllRowsAreDistinct(h, amounts, front, floor, parent);
      RowsAreDistinct(h, amounts, last);
      var a, b := RowsOfAll(h, amounts, front, floor), Rows(h, amounts, last);
      forall i, j | 0 <= i < |a| && 0 <= j < |b|
        ensures a[i].ouId != b[j].ouId
      {
        AllRowsAreUnder(h, amounts, front, floor, i);
        RowsAreUnder(h, amounts, last, j);
        if a[i].ouId == b[j].ouId {
          var x :| x in front && Under(h, a[i].ouId, x);
          SiblingsHaveOneDepth(h, parent, x, last);
          OneAncestorPerDepth(h, a[i].ouId, x, last);
        }
      }
    }
  }

  // --------------------------------------------------------- sums over rows

  /** The amounts of the rows at one depth. */
  ghost function DepthSum(rows: seq<Row>, depth: nat): real {
    if rows == [] then 0.0
    else
      var last := rows[|rows| - 1];
      DepthSum(rows[..|rows| - 1], depth) + if last.depth == depth then last.amount else 0.0
  }

  lemma {:induction false} DepthSumAppend(a: seq<Row>, b: seq<Row>, depth: nat)
    ensures DepthSum(a + b, depth) == DepthSum(a, depth) + DepthSum(b, depth)
    decreases |b|
  {
    if b == [] {
      assert a + b == a;
    } else {
      assert (a + b)[..|a + b| - 1] == a + b[..|b| - 1];
      DepthSumAppend(a, b[..|b| - 1], depth);
    }
  }

  lemma {:induction false} DeeperRowsAddNothing(rows: seq<Row>, depth: nat)
    requires forall i :: 0 <= i < |rows| ==> rows[i].depth > depth
    ensures DepthSum(rows, depth) == 0.0
  {
    if rows != [] {
      DeeperRowsAddNothing(rows[..|rows| - 1], depth);
    }
  }

  lemma ToppedDepthSum(h: seq<Node>, rows: seq<Row>, a: string, rest: seq<Row>)
    requires Has(h, a) && Topped(h, rows, a, rest)
    ensures DepthSum(rows, NodeOf(h, a).depth) == rows[0].amount
  {
    hide Has, NodeOf;
    var depth := NodeOf(h, a).depth;
    DeeperRowsAddNothing(rest, depth);
    DepthSumAppend([rows[0]], rest, depth);
    assert [rows[0]][..0] == [];
  }

  lemma RowsDepthSum(h: seq<Node>, amounts: Amounts, a: string)
    requires Complete(h, amounts) && Has(h, a)
    ensures DepthSum(Rows(h, amounts, a), NodeOf(h, a).depth) == amounts[a]
  {
    hide WellFormed, Has, SortedKids, RowsOfAll;
    if amounts[a] != 0.0 {
      RowsUnfold(h, amounts, a);
      ToppedDepthSum(h, Rows(h, amounts, a), a, RowsOfAll(h, amounts, SortedKids(h, amounts, a), Pos(h, a) + 1));
    }
  }

  ghost function SumAmounts(ids: seq<string>, amounts: Amounts): real
    requires forall x :: x in ids ==> x in amounts
  {
    if ids == [] then 0.0 else SumAmounts(ids[..|ids| - 1], amounts) + amounts[ids[|ids| - 1]]
  }

  lemma {:induction false} AllRowsDepthSum(h: seq<Node>, amounts: Amounts, ids: seq<string>, floor: nat)
    requires Complete(h, amounts) && AtOrAfter(h, ids, floor)
    requires forall id :: id in ids ==> NodeOf(h, id).depth == 0
    ensures DepthSum(RowsOfAll(h, amounts, ids, floor), 0) == SumAmounts(ids, amounts)
    decreases |ids|
  {
    hide Rows;
    if ids != [] {
      AllRowsDepthSum(h, amounts, ids[..|ids| - 1], floor);
      RowsDepthSum(h, amounts, ids[|ids| - 1]);
      DepthSumAppend(RowsOfAll(h, amounts, ids[..|ids| - 1], floor), Rows(h, amounts, ids[|ids| - 1]), 0);
    }
  }

  lemma {:induction false} InsertAddsAmount(id: string, ids: seq<string>, amounts: Amounts)
    requires id in amounts && forall x :: x in ids ==> x in amounts
    ensures forall x :: x in InsertDescending(id, ids, amounts) ==> x in amounts
    ensures SumAmounts(InsertDescending(id, ids, amounts), amounts) == SumAmounts(ids, amounts) + amounts[id]
  {
    if ids != [] {
      var last := ids[|ids| - 1];
      InsertAddsAmount(id, ids[..|ids| - 1], amounts);
      if amounts[last] >= amounts[id] {
        assert (ids + [id])[..|ids|] == ids;
      } else {
        var r := InsertDescending(id, ids[..|ids| - 1], amounts);
        assert (r + [last])[..|r|] == r;
      }
    }
  }

  lemma {:induction false} SortKeepsSum(ids: seq<string>, amounts: Amounts)
    requires forall x :: x in ids ==> x in amounts
    ensures forall x :: x in SortDescending(ids, amounts) ==> x in amounts
    ensures SumAmounts(SortDescending(ids, amounts), amounts) == SumAmounts(ids, amounts)
  {
    SortIsDescending(ids, amounts);
    if ids != [] {
      SortKeepsSum(ids[..|ids| - 1], amounts);
      InsertAddsAmount(ids[|ids| - 1], SortDescending(ids[..|ids| - 1], amounts), amounts);
    }
  }

  /** The rows at depth zero add up to the amounts of the roots. */
  lemma RootRowsSum(h: seq<Node>, amounts: Amounts)
    requires Complete(h, amounts)
    ensures forall k :: k in Kids(h, "") ==> k in amounts
    ensures DepthSum(TreeRows(h, amounts), 0) == SumAmounts(Kids(h, ""), amounts)
  {
    hide Rows, RowsOfAll;
    RootsAreNodes(h, amounts);
    var roots := SortDescending(Kids(h, ""), amounts);
    SortIsDescending(Kids(h, ""), amounts);
    forall id | id in roots
      ensures Has(h, id) && NodeOf(h, id).depth == 0
    {
      KidsOf(h, "", id);
      RootIsAtDepthZero(h, id);
    }
    AllRowsDepthSum(h, amounts, roots, 0);
    SortKeepsSum(Kids(h, ""), amounts);
  }
}
