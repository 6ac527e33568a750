/** OU hierarchies as lists of nodes that name their parents, and the ancestor relation on
    them. A list is well formed if IDs are distinct and every parent comes before its children. */
module Hierarchy {
  import opened Text

  datatype Node = Node(id: string, name: string, parentId: string, depth: nat)

  predicate Has(h: seq<Node>, id: string) {
    exists i :: 0 <= i < |h| && h[i].id == id
  }

  /** IDs as the walk reports them: trimmed and not blank. */
  predicate CleanId(id: string) {
    id != "" && Trimmed(id)
  }

  ghost predicate ParentBefore(h: seq<Node>, i: nat)
    requires i < |h|
  {
    exists j :: 0 <= j < i && h[j].id == h[i].parentId && h[i].depth == h[j].depth + 1
  }

  ghost predicate WellFormed(h: seq<Node>) {
    && (forall i :: 0 <= i < |h| ==> CleanId(h[i].id))
    && (forall i, j :: 0 <= i < j < |h| ==> h[i].id != h[j].id)
    && (forall i :: 0 <= i < |h| ==> if h[i].parentId == "" then h[i].depth == 0 else ParentBefore(h, i))
  }

  function Pos(h: seq<Node>, id: string): (i: nat)
    requires Has(h, id)
    ensures i < |h| && h[i].id == id
  {
    if h[0].id == id then 0
    else
      assert Has(h[1..], id) by {
        var i :| 0 <= i < |h| && h[i].id == id;
        assert h[1..][i - 1].id == id;
      }
      Pos(h[1..], id) + 1
  }

  function NodeOf(h: seq<Node>, id: string): (n: Node)
    requires Has(h, id)
    ensures n in h && n.id == id
  {
    h[Pos(h, id)]
  }

  function ParentOf(h: seq<Node>, id: string): string
    requires Has(h, id)
  {
    NodeOf(h, id).parentId
  }

  lemma PosIsUnique(h: seq<Node>, i: nat)
    requires WellFormed(h) && i < |h|
    ensures Has(h, h[i].id) && Pos(h, h[i].id) == i && NodeOf(h, h[i].id) == h[i]
  {
    var p := Pos(h, h[i].id);
    assert h[p].id == h[i].id;
  }

  lemma ParentIsEarlier(h: seq<Node>, id: string)
    requires WellFormed(h) && Has(h, id) && ParentOf(h, id) != ""
    ensures Has(h, ParentOf(h, id)) && Pos(h, ParentOf(h, id)) < Pos(h, id)
    ensures NodeOf(h, id).depth == NodeOf(h, ParentOf(h, id)).depth + 1
  {
    var i := Pos(h, id);
    assert ParentBefore(h, i);
    var j :| 0 <= j < i && h[j].id == h[i].parentId && h[i].depth == h[j].depth + 1;
    PosIsUnique(h, j);
  }

  /** Following parents from b reaches a; every node is under itself. */
  ghost predicate Under(h: seq<Node>, b: string, a: string)
    requires WellFormed(h) && Has(h, b)
    decreases Pos(h, b)
  {
    b == a || (ParentOf(h, b) != "" && (ParentIsEarlier(h, b); Under(h, ParentOf(h, b), a)))
  }

  lemma {:induction false} UnderIsUpwards(h: seq<Node>, b: string, a: string)
    requires WellFormed(h) && Has(h, b) && Under(h, b, a)
    ensures Has(h, a) && Pos(h, a) <= Pos(h, b)
    ensures NodeOf(h, a).depth <= NodeOf(h, b).depth
    ensures a != b ==> Pos(h, a) < Pos(h, b) && NodeOf(h, a).depth < NodeOf(h, b).depth
    decreases Pos(h, b)
  {
    if a != b {
      ParentIsEarlier(h, b);
      UnderIsUpwards(h, ParentOf(h, b), a);
    }
  }

  /** Each node has exactly one ancestor at each depth up to its own. */
  lemma {:induction false} OneAncestorPerDepth(h: seq<Node>, b: string, x: string, y: string)
    requires WellFormed(h) && Has(h, b) && Under(h, b, x) && Under(h, b, y)
    requires Has(h, x) && Has(h, y) && NodeOf(h, x).depth == NodeOf(h, y).depth
    ensures x == y
    decreases Pos(h, b)
  {
    if x == b {
      UnderIsUpwards(h, b, y);
    } else if y == b {
      UnderIsUpwards(h, b, x);
    } else {
      ParentIsEarlier(h, b);
      OneAncestorPerDepth(h, ParentOf(h, b), x, y);
    }
  }

  lemma {:induction false} HasRoot(h: seq<Node>, b: string) returns (root: string)
    requires WellFormed(h) && Has(h, b)
    ensures Under(h, b, root) && Has(h, root) && ParentOf(h, root) == ""
    decreases Pos(h, b)
  {
    if ParentOf(h, b) == "" {
      root := b;
    } else {
      ParentIsEarlier(h, b);
      root := HasRoot(h, ParentOf(h, b));
    }
  }

  lemma RootIsAtDepthZero(h: seq<Node>, id: string)
    requires WellFormed(h) && Has(h, id)
    ensures ParentOf(h, id) == "" <==> NodeOf(h, id).depth == 0
  {
    if ParentOf(h, id) != "" {
      ParentIsEarlier(h, id);
    } else {
      PosIsUnique(h, Pos(h, id));
    }
  }

  // ------------------------------------------------------------- child lists

  /** The IDs of the nodes with a given parent, in list order; the roots have parent "". */
  function Kids(h: seq<Node>, parent: string): (ids: seq<string>) {
    if h == [] then []
    else
      var last := h[|h| - 1];
      Kids(h[..|h| - 1], parent) + if last.parentId == parent then [last.id] else []
  }

  lemma {:induction false} KidsAreChildren(h: seq<Node>, parent: string)
    ensures forall id :: id in Kids(h, parent) <==> exists i :: 0 <= i < |h| && h[i].id == id && h[i].parentId == parent
  {
    if h != [] {
      var front := h[..|h| - 1];
      KidsAreChildren(front, parent);
      forall id | id in Kids(front, parent)
        ensures exists i :: 0 <= i < |h| && h[i].id == id && h[i].parentId == parent
      {
        var i :| 0 <= i < |front| && front[i].id == id && front[i].parentId == parent;
        assert h[i] == front[i];
      }
      forall i | 0 <= i < |h| && h[i].parentId == parent
        ensures h[i].id in Kids(h, parent)
      {
        if i < |front| {
          assert front[i] == h[i];
        }
      }
    }
  }

  lemma {:induction false} KidsAreDistinct(h: seq<Node>, parent: string)
    requires forall i, j :: 0 <= i < j < |h| ==> h[i].id != h[j].id
    ensures forall i, j :: 0 <= i < j < |Kids(h, parent)| ==> Kids(h, parent)[i] != Kids(h, parent)[j]
  {
    if h != [] {
      var front := h[..|h| - 1];
      KidsAreDistinct(front, parent);
      KidsAreChildren(front, parent);
      forall i | 0 <= i < |front|
        ensures front[i].id != h[|h| - 1].id
      {
        assert front[i] == h[i];
      }
      assert h[|h| - 1].id !in Kids(front, parent);
    }
  }

  /** A node under a, but not a itself, is under exactly one child of a. */
  lemma {:induction false} ChildTowards(h: seq<Node>, b: string, a: string) returns (c: string)
    requires WellFormed(h) && Has(h, b) && Under(h, b, a) && a != b
    ensures Has(h, c) && ParentOf(h, c) == a && Under(h, b, c)
    decreases Pos(h, b)
  {
    ParentIsEarlier(h, b);
    if ParentOf(h, b) == a {
      c := b;
    } else {
      c := ChildTowards(h, ParentOf(h, b), a);
    }
  }

  lemma {:induction false} UnderParent(h: seq<Node>, b: string, c: string)
    requires WellFormed(h) && Has(h, b) && Has(h, c) && Under(h, b, c) && ParentOf(h, c) != ""
    ensures Under(h, b, ParentOf(h, c)) && ParentOf(h, c) != b
    decreases Pos(h, b)
  {
    ParentIsEarlier(h, c);
    UnderIsUpwards(h, b, c);
    if b != c {
      ParentIsEarlier(h, b);
      UnderParent(h, ParentOf(h, b), c);
    }
  }

  lemma KidsOf(h: seq<Node>, parent: string, id: string)
    requires WellFormed(h)
    ensures id in Kids(h, parent) <==> Has(h, id) && ParentOf(h, id) == parent
  {
    KidsAreChildren(h, parent);
    if Has(h, id) {
      PosIsUnique(h, Pos(h, id));
    }
    if id in Kids(h, parent) {
      var i :| 0 <= i < |h| && h[i].id == id && h[i].parentId == parent;
      PosIsUnique(h, i);
    }
  }
}
