/** The depth-first walk produces a well-formed hierarchy in which "under" means "in the subtree",
    so the rollup of a walk charges each OU with exactly the accounts held in its subtree. */
module OrgWalk {
  import opened Text
  import opened Wrappers
  import opened Hierarchy
  import opened OuTotals
  import opened OrgTree

  // ----------------------------------------------------------- well-formedness

  /** Each node has the given parent and depth, or follows its parent one level deeper. */
  ghost predicate Nested(nodes: seq<Node>, parentId: string, depth: nat) {
    forall i :: 0 <= i < |nodes| ==>
        (nodes[i].parentId == parentId && nodes[i].depth == depth) || ParentBefore(nodes, i)
  }

  lemma ParentBeforeShifts(a: seq<Node>, b: seq<Node>, i: nat)
    requires i < |b| && ParentBefore(b, i)
    ensures ParentBefore(a + b, |a| + i)
  {
    var j :| 0 <= j < i && b[j].id == b[i].parentId && b[i].depth == b[j].depth + 1;
    assert (a + b)[|a| + j] == b[j] && (a + b)[|a| + i] == b[i];
  }

  lemma ParentBeforeStays(a: seq<Node>, b: seq<Node>, i: nat)
    requires i < |a| && ParentBefore(a, i)
    ensures ParentBefore(a + b, i)
  {
    var j :| 0 <= j < i && a[j].id == a[i].parentId && a[i].depth == a[j].depth + 1;
    assert (a + b)[j] == a[j] && (a + b)[i] == a[i];
  }

  lemma AppendNested(a: seq<Node>, b: seq<Node>, parentId: string, depth: nat)
    requires Nested(a, parentId, depth) && Nested(b, parentId, depth)
    ensures Nested(a + b, parentId, depth)
  {
    hide ParentBefore;
    forall i | 0 <= i < |a + b|
      ensures ((a + b)[i].parentId == parentId && (a + b)[i].depth == depth) || ParentBefore(a + b, i)
    {
      if i < |a| {
        assert (a + b)[i] == a[i];
        if ParentBefore(a, i) {
          ParentBeforeStays(a, b, i);
        }
      } else {
        assert (a + b)[i] == b[i - |a|];
        if ParentBefore(b, i - |a|) {
          ParentBeforeShifts(a, b, i - |a|);
        }
      }
    }
  }

  lemma TopNested(top: Node, rest: seq<Node>)
    requires Nested(rest, top.id, top.depth + 1)
    ensures Nested([top] + rest, top.parentId, top.depth)
  {
    hide ParentBefore;
    forall i | 0 < i < |rest| + 1
      ensures ParentBefore([top] + rest, i)
    {
      if rest[i - 1].parentId == top.id && rest[i - 1].depth == top.depth + 1 {
        TopIsParent(top, rest, i - 1);
      } else {
        ParentBeforeShifts([top], rest, i - 1);
      }
    }
  }

  lemma TopIsParent(top: Node, rest: seq<Node>, i: nat)
    requires i < |rest| && rest[i].parentId == top.id && rest[i].depth == top.depth + 1
    ensures ParentBefore([top] + rest, i + 1)
  {
    assert ([top] + rest)[0] == top && ([top] + rest)[i + 1] == rest[i];
  }

  lemma {:induction false} WalkIsNested(ou: Ou, parentId: string, depth: nat)
    ensures Nested(WalkNodes(ou, parentId, depth), parentId, depth)
    decreases ou, 0
  {
    WalkAllIsNested(ou.children, ou.id, depth + 1);
    TopNested(Node(ou.id, NameOf(ou), parentId, depth), WalkAll(ou.children, ou.id, depth + 1));
  }

  lemma {:induction false} WalkAllIsNested(ous: seq<Ou>, parentId: string, depth: nat)
    ensures Nested(WalkAll(ous, parentId, depth), parentId, depth)
    decreases ous, 1, |ous|
  {
    hide Nested, WalkNodes;
    if ous == [] {
      NothingIsNested(parentId, depth);
    } else {
      WalkAllIsNested(ous[..|ous| - 1], parentId, depth);
      WalkIsNested(ous[|ous| - 1], parentId, depth);
      AppendNested(WalkAll(ous[..|ous| - 1], parentId, depth), WalkNodes(ous[|ous| - 1], parentId, depth), parentId,
                   depth);
    }
  }

  lemma NothingIsNested(parentId: string, depth: nat)
    ensures Nested([], parentId, depth)
  {
  }

  /** The walks of one or several trees with proper IDs make a well-formed hierarchy. */
  lemma WalkIsWellFormed(ous: seq<Ou>)
    requires ProperIds(IdsAll(ous))
    ensures WellFormed(WalkAll(ous, "", 0))
  {
    hide ParentBefore, WalkAll, IdsAll;
    var h := WalkAll(ous, "", 0);
    WalkAllNamesIds(ous, "", 0);
    WalkAllIsNested(ous, "", 0);
    forall i | 0 <= i < |h|
      ensures CleanId(h[i].id)
      ensures if h[i].parentId == "" then h[i].depth == 0 else ParentBefore(h, i)
    {
      assert h[i].id == IdsAll(ous)[i];
      if ParentBefore(h, i) {
        ParentIsClean(h, i, IdsAll(ous));
      }
    }
  }

  lemma ParentIsClean(h: seq<Node>, i: nat, ids: seq<string>)
    requires i < |h| && ParentBefore(h, i) && ProperIds(ids)
    requires |h| == |ids| && forall k :: 0 <= k < |ids| ==> h[k].id == ids[k]
    ensures h[i].parentId != ""
  {
    var j :| 0 <= j < i && h[j].id == h[i].parentId && h[i].depth == h[j].depth + 1;
    assert ids[j] in ids;
  }

  lemma OneWalk(root: Ou)
    ensures WalkAll([root], "", 0) == WalkNodes(root, "", 0) && IdsAll([root]) == Ids(root)
    ensures HoldingsAll([root]) == Holdings(root)
  {
    hide WalkNodes, Ids, Holdings;
    assert [root][..0] == [];
  }

  // ---------------------------------------------------------------- subtrees

  /** s is one of the OUs, or further down. */
  predicate Sub(s: Ou, ous: seq<Ou>) {
    ous != [] && (Sub(s, ous[..|ous| - 1]) || Within(s, ous[|ous| - 1]))
  }

  predicate Within(s: Ou, ou: Ou) {
    s == ou || Sub(s, ou.children)
  }

  lemma {:induction false} WithinIds(s: Ou, ou: Ou)
    requires Within(s, ou)
    ensures forall id :: id in Ids(s) ==> id in Ids(ou)
    decreases ou, 0
  {
    if s != ou {
      SubIds(s, ou.children);
    }
  }

  lemma {:induction false} SubIds(s: Ou, ous: seq<Ou>)
    requires Sub(s, ous)
    ensures forall id :: id in Ids(s) ==> id in IdsAll(ous)
    decreases ous, 1, |ous|
  {
    hide Ids, Within;
    if Sub(s, ous[..|ous| - 1]) {
      SubIds(s, ous[..|ous| - 1]);
    } else {
      WithinIds(s, ous[|ous| - 1]);
    }
  }

  lemma {:induction false} FindWithin(ou: Ou, id: string) returns (s: Ou)
    requires id in Ids(ou)
    ensures Within(s, ou) && s.id == id
    decreases ou, 0
  {
    if id == ou.id {
      s := ou;
    } else {
      s := FindSub(ou.children, id);
    }
  }

  lemma {:induction false} FindSub(ous: seq<Ou>, id: string) returns (s: Ou)
    requires id in IdsAll(ous)
    ensures Sub(s, ous) && s.id == id
    decreases ous, 1, |ous|
  {
    hide Ids, Within;
    if id in IdsAll(ous[..|ous| - 1]) {
      s := FindSub(ous[..|ous| - 1], id);
    } else {
      s := FindWithin(ous[|ous| - 1], id);
    }
  }

  lemma DistinctParts(a: seq<string>, b: seq<string>)
    requires DistinctIds(a + b)
    ensures DistinctIds(a) && DistinctIds(b) && forall x :: x in a ==> x !in b
  {
    var all := a + b;
    forall i, j | 0 <= i < j < |a|
      ensures a[i] != a[j]
    {
      assert all[i] == a[i] && all[j] == a[j];
    }
    forall i, j | 0 <= i < j < |b|
      ensures b[i] != b[j]
    {
      assert all[|a| + i] == b[i] && all[|a| + j] == b[j];
    }
    forall i, j | 0 <= i < |a| && 0 <= j < |b|
      ensures a[i] != b[j]
    {
      assert all[i] == a[i] && all[|a| + j] == b[j];
    }
  }

  lemma OwnIds(ou: Ou)
    ensures ou.id in Ids(ou) && forall id :: id in IdsAll(ou.children) ==> id in Ids(ou)
  {
    assert Ids(ou)[0] == ou.id;
  }

  /** With distinct IDs there is one OU per ID. */
  lemma {:induction false} WithinIsUnique(s: Ou, t: Ou, ou: Ou)
    requires DistinctIds(Ids(ou)) && Within(s, ou) && Within(t, ou) && s.id == t.id
    ensures s == t
    decreases ou, 0
  {
    hide DistinctIds, IdsAll;
    OwnIds(s);
    OwnIds(t);
    DistinctParts([ou.id], IdsAll(ou.children));
    if s == ou && t != ou {
      SubIds(t, ou.children);
    } else if s != ou && t == ou {
      SubIds(s, ou.children);
    } else if s != ou && t != ou {
      SubIsUnique(s, t, ou.children);
    }
  }

  lemma {:induction false} SubIsUnique(s: Ou, t: Ou, ous: seq<Ou>)
    requires DistinctIds(IdsAll(ous)) && Sub(s, ous) && Sub(t, ous) && s.id == t.id
    ensures s == t
    decreases ous, 1, |ous|
  {
    hide DistinctIds, Ids, Within;
    OwnIds(s);
    OwnIds(t);
    var front, last := ous[..|ous| - 1], ous[|ous| - 1];
    DistinctParts(IdsAll(front), Ids(last));
    if Sub(s, front) && Sub(t, front) {
      SubIsUnique(s, t, front);
    } else if !Sub(s, front) && !Sub(t, front) {
      WithinIsUnique(s, t, last);
    } else if Sub(s, front) {
      SubIds(s, front);
      WithinIds(t, last);
    } else {
      SubIds(t, front);
      WithinIds(s, last);
    }
  }

  lemma {:induction false} SubIsTransitive(s: Ou, t: Ou, ous: seq<Ou>)
    requires Sub(s, t.children) && Sub(t, ous)
    ensures Sub(s, ous)
    decreases ous, |ous|
  {
    var last := ous[|ous| - 1];
    if Sub(t, ous[..|ous| - 1]) {
      SubIsTransitive(s, t, ous[..|ous| - 1]);
    } else if t != last {
      SubIsTransitive(s, t, last.children);
    }
  }

  lemma {:induction false} ChildIsSub(ous: seq<Ou>, c: Ou)
    requires c in ous
    ensures Sub(c, ous)
  {
    if c != ous[|ous| - 1] {
      assert c in ous[..|ous| - 1];
      ChildIsSub(ous[..|ous| - 1], c);
    }
  }

  // ---------------------------------------------------------- parents in a walk

  ghost predicate HasChild(nodes: seq<Node>, id: string, parentId: string) {
    exists i :: 0 <= i < |nodes| && nodes[i].id == id && nodes[i].parentId == parentId
  }

  lemma HasChildAppend(a: seq<Node>, b: seq<Node>, id: string, parentId: string)
    ensures HasChild(a, id, parentId) || HasChild(b, id, parentId) ==> HasChild(a + b, id, parentId)
  {
    if HasChild(a, id, parentId) {
      var i :| 0 <= i < |a| && a[i].id == id && a[i].parentId == parentId;
      assert (a + b)[i] == a[i];
    }
    if HasChild(b, id, parentId) {
      var i :| 0 <= i < |b| && b[i].id == id && b[i].parentId == parentId;
      assert (a + b)[|a| + i] == b[i];
    }
  }

  lemma {:induction false} TopsHaveParent(ous: seq<Ou>, c: Ou, parentId: string, depth: nat)
    requires c in ous
    ensures HasChild(WalkAll(ous, parentId, depth), c.id, parentId)
  {
    var front, last := ous[..|ous| - 1], ous[|ous| - 1];
    HasChildAppend(WalkAll(front, parentId, depth), WalkNodes(last, parentId, depth), c.id, parentId);
    if c == last {
      assert WalkNodes(last, parentId, depth)[0].id == c.id;
    } else {
      assert c in front;
      TopsHaveParent(front, c, parentId, depth);
    }
  }

  lemma {:induction false} ChildrenHaveParent(ous: seq<Ou>, s: Ou, c: Ou, parentId: string, depth: nat)
    requires Sub(s, ous) && c in s.children
    ensures HasChild(WalkAll(ous, parentId, depth), c.id, s.id)
    decreases ous, |ous|
  {
    hide HasChild;
    var front, last := ous[..|ous| - 1], ous[|ous| - 1];
    HasChildAppend(WalkAll(front, parentId, depth), WalkNodes(last, parentId, depth), c.id, s.id);
    if Sub(s, front) {
      ChildrenHaveParent(front, s, c, parentId, depth);
    } else {
      HasChildAppend([Node(last.id, NameOf(last), parentId, depth)], WalkAll(last.children, last.id, depth + 1), c.id,
                     s.id);
      if s == last {
        TopsHaveParent(last.children, c, last.id, depth + 1);
      } else {
        ChildrenHaveParent(last.children, s, c, last.id, depth + 1);
      }
    }
  }

  lemma ParentInWalk(h: seq<Node>, id: string, parentId: string)
    requires WellFormed(h) && HasChild(h, id, parentId)
    ensures Has(h, id) && ParentOf(h, id) == parentId
  {
    var i :| 0 <= i < |h| && h[i].id == id && h[i].parentId == parentId;
    PosIsUnique(h, i);
  }

  /** s is so many levels below the given OUs. */
  ghost predicate AtDepth(s: Ou, ous: seq<Ou>, depth: nat) {
    if depth == 0 then s in ous else exists c :: c in ous && AtDepth(s, c.children, depth - 1)
  }

  lemma {:induction false} NodeShowsOu(ous: seq<Ou>, parentId: string, depth: nat, i: nat) returns (s: Ou)
    requires i < |WalkAll(ous, parentId, depth)|
    ensures var n := WalkAll(ous, parentId, depth)[i];
      && n.depth >= depth && Sub(s, ous) && AtDepth(s, ous, n.depth - depth)
      && n.id == s.id && n.name == if s.name == "" then s.id else s.name
    decreases ous
  {
    hide Sub, AtDepth;
    var last, front := ous[|ous| - 1], ous[..|ous| - 1];
    var before := WalkAll(front, parentId, depth);
    if i < |before| {
      s := NodeShowsOu(front, parentId, depth, i);
      assert Sub(s, ous) by { SubOfMore(s, ous, front); }
      DepthOfMore(s, ous, front, before[i].depth - depth);
    } else if i == |before| {
      s := last;
      ChildIsSub(ous, last);
      assert AtDepth(s, ous, 0) by { AtTop(s, ous); }
    } else {
      s := NodeShowsOu(last.children, last.id, depth + 1, i - |before| - 1);
      var n := WalkAll(last.children, last.id, depth + 1)[i - |before| - 1];
      SubOfLast(s, ous);
      DepthBelow(s, ous, last, n.depth - depth - 1);
    }
  }

  lemma SubOfMore(s: Ou, ous: seq<Ou>, front: seq<Ou>)
    requires ous != [] && front == ous[..|ous| - 1] && Sub(s, front)
    ensures Sub(s, ous)
  {
  }

  lemma SubOfLast(s: Ou, ous: seq<Ou>)
    requires ous != [] && Sub(s, ous[|ous| - 1].children)
    ensures Sub(s, ous)
  {
  }

  lemma DepthOfMore(s: Ou, ous: seq<Ou>, front: seq<Ou>, depth: nat)
    requires ous != [] && front == ous[..|ous| - 1] && AtDepth(s, front, depth)
    ensures AtDepth(s, ous, depth)
  {
  }

  lemma AtTop(s: Ou, ous: seq<Ou>)
    ensures AtDepth(s, ous, 0) <==> s in ous
  {
  }

  lemma DepthBelow(s: Ou, ous: seq<Ou>, c: Ou, depth: nat)
    requires c in ous && AtDepth(s, c.children, depth)
    ensures AtDepth(s, ous, depth + 1)
  {
  }

  lemma WalkHasIds(ous: seq<Ou>, id: string)
    ensures Has(WalkAll(ous, "", 0), id) <==> id in IdsAll(ous)
  {
    WalkAllNamesIds(ous, "", 0);
    var h := WalkAll(ous, "", 0);
    if id in IdsAll(ous) {
      var i :| 0 <= i < |IdsAll(ous)| && IdsAll(ous)[i] == id;
      assert h[i].id == id;
    }
    if Has(h, id) {
      var i :| 0 <= i < |h| && h[i].id == id;
      assert IdsAll(ous)[i] == id;
    }
  }

  // ------------------------------------------------------- under means within

  lemma {:induction false} ChildHolding(ous: seq<Ou>, id: string) returns (c: Ou)
    requires id in IdsAll(ous)
    ensures c in ous && id in Ids(c)
  {
    if id in Ids(ous[|ous| - 1]) {
      c := ous[|ous| - 1];
    } else {
      c := ChildHolding(ous[..|ous| - 1], id);
    }
  }

  lemma {:induction false} WithinIsUnder(ous: seq<Ou>, s: Ou, b: string)
    requires ProperIds(IdsAll(ous)) && Sub(s, ous) && b in Ids(s)
    ensures WellFormed(WalkAll(ous, "", 0)) && Has(WalkAll(ous, "", 0), b) && Under(WalkAll(ous, "", 0), b, s.id)
    decreases s
  {
    hide WellFormed, Has, WalkAll, ProperIds, Sub, CleanId;
    WalkIsWellFormed(ous);
    SubIds(s, ous);
    WalkHasIds(ous, b);
    var h := WalkAll(ous, "", 0);
    if b != s.id {
      var c := ChildHolding(s.children, b);
      ChildIsSub(s.children, c);
      SubIsTransitive(c, s, ous);
      WithinIsUnder(ous, c, b);
      ChildrenHaveParent(ous, s, c, "", 0);
      ParentInWalk(h, c.id, s.id);
      SIsNotBlank(ous, s);
      UnderParent(h, b, c.id);
    }
  }

  lemma SIsNotBlank(ous: seq<Ou>, s: Ou)
    requires ProperIds(IdsAll(ous)) && Sub(s, ous)
    ensures CleanId(s.id) && s.id in IdsAll(ous)
  {
    SubIds(s, ous);
    assert s.id == Ids(s)[0];
  }

  lemma {:induction false} ParentHolding(ous: seq<Ou>, id: string) returns (isTop: bool, u: Ou, c: Ou)
    requires id in IdsAll(ous)
    ensures isTop ==> c in ous
    ensures !isTop ==> Sub(u, ous) && c in u.children
    ensures c.id == id
    decreases ous, |ous|
  {
    var front, last := ous[..|ous| - 1], ous[|ous| - 1];
    if id in IdsAll(front) {
      isTop, u, c := ParentHolding(front, id);
    } else if id == last.id {
      isTop, u, c := true, last, last;
    } else {
      isTop, u, c := ParentHolding(last.children, id);
      if isTop {
        isTop, u := false, last;
      }
    }
  }

  lemma {:induction false} UnderIsWithin(ous: seq<Ou>, s: Ou, b: string)
    requires ProperIds(IdsAll(ous)) && Sub(s, ous) && WellFormed(WalkAll(ous, "", 0))
    requires Has(WalkAll(ous, "", 0), b) && Under(WalkAll(ous, "", 0), b, s.id)
    ensures b in Ids(s)
    decreases Pos(WalkAll(ous, "", 0), b)
  {
    hide WellFormed, Has, WalkAll, Sub, CleanId, DistinctIds;
    var h := WalkAll(ous, "", 0);
    if b != s.id {
      ParentIsEarlier(h, b);
      var p := ParentOf(h, b);
      UnderIsWithin(ous, s, p);
      WalkHasIds(ous, b);
      var isTop, u, c := ParentHolding(ous, b);
      if isTop {
        TopsHaveParent(ous, c, "", 0);
        ParentInWalk(h, b, "");
        assert false;
      } else {
        ChildrenHaveParent(ous, u, c, "", 0);
        ParentInWalk(h, b, u.id);
        ChildOfMember(ous, s, u, c);
      }
    }
  }

  lemma ChildOfMember(ous: seq<Ou>, s: Ou, u: Ou, c: Ou)
    requires DistinctIds(IdsAll(ous)) && Sub(s, ous) && Sub(u, ous) && c in u.children && u.id in Ids(s)
    ensures c.id in Ids(s)
  {
    hide DistinctIds, IdsAll, Ids;
    var v := FindWithin(s, u.id);
    if v != s {
      SubIsTransitive(v, s, ous);
    }
    SubIsUnique(u, v, ous);
    WithinIds(v, s);
    ChildIsSub(v.children, c);
    SubIds(c, v.children);
    OwnIds(c);
    OwnIds(v);
  }

  /** In the hierarchy of a walk, the nodes under an OU are exactly the OUs of its subtree. */
  lemma UnderMeansWithin(ous: seq<Ou>, s: Ou, b: string)
    requires ProperIds(IdsAll(ous)) && Sub(s, ous)
    ensures WellFormed(WalkAll(ous, "", 0))
    ensures b in Ids(s) <==> Has(WalkAll(ous, "", 0), b) && Under(WalkAll(ous, "", 0), b, s.id)
  {
    hide WellFormed, Has, WalkAll, ProperIds, Sub;
    WalkIsWellFormed(ous);
    if b in Ids(s) {
      WithinIsUnder(ous, s, b);
    }
    if Has(WalkAll(ous, "", 0), b) && Under(WalkAll(ous, "", 0), b, s.id) {
      UnderIsWithin(ous, s, b);
    }
  }

  // --------------------------------------------------------- accounts of a subtree

  lemma {:induction false} WithinHoldings(s: Ou, ou: Ou, x: Holding)
    requires Within(s, ou) && x in Holdings(s)
    ensures x in Holdings(ou)
    decreases ou, 0
  {
    if s != ou {
      SubHoldings(s, ou.children, x);
    }
  }

  lemma {:induction false} SubHoldings(s: Ou, ous: seq<Ou>, x: Holding)
    requires Sub(s, ous) && x in Holdings(s)
    ensures x in HoldingsAll(ous)
    decreases ous, 1, |ous|
  {
    hide Holdings, Within;
    if Sub(s, ous[..|ous| - 1]) {
      SubHoldings(s, ous[..|ous| - 1], x);
    } else {
      WithinHoldings(s, ous[|ous| - 1], x);
    }
  }

  /** The accounts directly in an OU. */
  function Direct(ou: Ou): seq<Holding> {
    HoldingsOf(Listed(ou.accounts, ALL_STATES), Bucket(ou.id, NameOf(ou)))
  }

  lemma DirectNamesOu(ou: Ou)
    ensures forall x :: x in Direct(ou) ==> x.ou == Bucket(ou.id, NameOf(ou)) && x in Holdings(ou)
  {
    hide Listed;
  }

  lemma {:induction false} HolderWithin(ou: Ou, x: Holding) returns (u: Ou)
    requires x in Holdings(ou)
    ensures Within(u, ou) && x in Direct(u)
    decreases ou, 0
  {
    hide Listed, HoldingsOf, HoldingsAll;
    if x in Direct(ou) {
      u := ou;
    } else {
      u := HolderSub(ou.children, x);
    }
  }

  lemma {:induction false} HolderSub(ous: seq<Ou>, x: Holding) returns (u: Ou)
    requires x in HoldingsAll(ous)
    ensures Sub(u, ous) && x in Direct(u)
    decreases ous, 1, |ous|
  {
    hide Holdings, Within, Direct;
    if x in HoldingsAll(ous[..|ous| - 1]) {
      u := HolderSub(ous[..|ous| - 1], x);
    } else {
      u := HolderWithin(ous[|ous| - 1], x);
    }
  }

  /** An account is listed directly in an OU, in whatever state, if it has a name. */
  ghost predicate IsIn(account: string, u: Ou) {
    exists k :: 0 <= k < |u.accounts| && Trim(u.accounts[k].id) == account && !Blank(u.accounts[k].name)
  }

  lemma {:induction false} ListedMeans(accounts: seq<Account>, id: string)
    ensures (exists k :: 0 <= k < |Listed(accounts, ALL_STATES)| && Listed(accounts, ALL_STATES)[k].id == id)
            <==> exists k :: 0 <= k < |accounts| && Trim(accounts[k].id) == id && !Blank(accounts[k].name)
  {
    hide Trim, Blank;
    if accounts != [] {
      var front, last := accounts[..|accounts| - 1], accounts[|accounts| - 1];
      ListedMeans(front, id);
      TrimMeans(last.name);
      var before, listed := Listed(front, ALL_STATES), Listed(accounts, ALL_STATES);
      if k :| 0 <= k < |before| && before[k].id == id {
        assert listed[k].id == id;
      }
      if k :| 0 <= k < |front| && Trim(front[k].id) == id && !Blank(front[k].name) {
        assert accounts[k] == front[k];
      }
      if k :| 0 <= k < |accounts| && Trim(accounts[k].id) == id && !Blank(accounts[k].name) && k == |accounts| - 1 {
        assert listed[|listed| - 1].id == id;
      }
      if k :| 0 <= k < |accounts| && Trim(accounts[k].id) == id && !Blank(accounts[k].name) && k < |accounts| - 1 {
        assert front[k] == accounts[k];
      }
    }
  }

  lemma DirectMeans(u: Ou, x: Holding)
    ensures x in Direct(u) <==> IsIn(x.account, u) && x.ou == Bucket(u.id, if u.name == "" then u.id else u.name)
  {
    hide Listed;
    ListedMeans(u.accounts, x.account);
    var members := Listed(u.accounts, ALL_STATES);
    if k :| 0 <= k < |members| && members[k].id == x.account {
      assert Direct(u)[k] == Holding(members[k].id, Bucket(u.id, NameOf(u)));
    }
  }

  /** What the walk of an OU holds: each account that is listed in an OU of its subtree, with that OU. */
  lemma HeldMeans(ou: Ou, x: Holding)
    ensures x in Holdings(ou)
            <==> exists u: Ou :: Within(u, ou) && IsIn(x.account, u)
                                 && x.ou == Bucket(u.id, if u.name == "" then u.id else u.name)
  {
    hide Within, IsIn, Direct, Holdings;
    if x in Holdings(ou) {
      var u := HolderWithin(ou, x);
      DirectMeans(u, x);
    }
    if u: Ou :| Within(u, ou) && IsIn(x.account, u) && x.ou == Bucket(u.id, if u.name == "" then u.id else u.name) {
      DirectMeans(u, x);
      DirectNamesOu(u);
      WithinHoldings(u, ou, x);
    }
  }

  /** An account is held in a subtree exactly if its OU is in that subtree. */
  lemma HeldWhereOuIs(ous: seq<Ou>, s: Ou, x: Holding)
    requires DistinctIds(IdsAll(ous)) && Sub(s, ous) && x in HoldingsAll(ous)
    ensures x.ou.id in IdsAll(ous)
    ensures x in Holdings(s) <==> x.ou.id in Ids(s)
  {
    hide DistinctIds, IdsAll, Ids, Holdings, Direct;
    var u := HolderSub(ous, x);
    DirectNamesOu(u);
    OwnIds(u);
    SubIds(u, ous);
    if x in Holdings(s) {
      var v := HolderWithin(s, x);
      DirectNamesOu(v);
      OwnIds(v);
      WithinIds(v, s);
    }
    if x.ou.id in Ids(s) {
      var v := FindWithin(s, x.ou.id);
      if v != s {
        SubIsTransitive(v, s, ous);
      }
      SubIsUnique(u, v, ous);
      WithinHoldings(v, s, x);
    }
  }

  // -------------------------------------------------- rolling up along a walk

  /** The parent map reports only accounts that the walks found, where they found them. */
  ghost predicate Reports(ous: seq<Ou>, parents: Parents) {
    forall a :: a in parents ==> Holding(a, parents[a]) in HoldingsAll(ous)
  }

  lemma {:induction false} FoundIsReported(found: seq<Holding>, wanted: set<string>, a: string)
    ensures a in ParentsFrom(found, wanted) ==> Holding(a, ParentsFrom(found, wanted)[a]) in found
    ensures a in ParentsFrom(found, wanted) <==> a in wanted && exists x :: x in found && x.account == a
  {
    if found != [] {
      FoundIsReported(found[..|found| - 1], wanted, a);
      var last := found[|found| - 1];
      if a in wanted && (exists x :: x in found && x.account == a) && last.account != a {
        var x :| x in found && x.account == a;
        assert x in found[..|found| - 1];
      }
      assert last in found;
    }
  }

  /** The walk's own parent map, and any merge of those of several payers, reports what was found. */
  lemma WalkReports(ous: seq<Ou>, found: seq<Holding>, wanted: set<string>)
    requires forall x :: x in found ==> x in HoldingsAll(ous)
    ensures Reports(ous, ParentsFrom(found, wanted))
  {
    hide HoldingsAll;
    forall a | a in ParentsFrom(found, wanted)
      ensures Holding(a, ParentsFrom(found, wanted)[a]) in HoldingsAll(ous)
    {
      FoundIsReported(found, wanted, a);
    }
  }

  lemma MergeReports(ous: seq<Ou>, a: Parents, b: Parents)
    requires Reports(ous, a) && Reports(ous, b)
    ensures Reports(ous, a + b)
  {
  }

  /** The cost of the accounts held in a subtree of the organization. */
  ghost function CostWithin(items: seq<CostItem>, parents: Parents, s: Ou): real {
    if items == [] then 0.0
    else
      var last := items[|items| - 1];
      CostWithin(items[..|items| - 1], parents, s) + if HeldIn(last, parents, s) then last.amount else 0.0
  }

  ghost predicate HeldIn(item: CostItem, parents: Parents, s: Ou) {
    Trim(item.account) in parents && Holding(Trim(item.account), parents[Trim(item.account)]) in Holdings(s)
  }

  /** The cost of accounts that no walk found. */
  ghost function CostElsewhere(items: seq<CostItem>, parents: Parents): real {
    if items == [] then 0.0
    else
      var last := items[|items| - 1];
      CostElsewhere(items[..|items| - 1], parents) + if Trim(last.account) !in parents then last.amount else 0.0
  }

  lemma HomeInWalk(ous: seq<Ou>, parents: Parents, item: CostItem)
    requires ProperIds(IdsAll(ous)) && Reports(ous, parents)
    ensures HomeOf(item, parents, WalkAll(ous, "", 0))
         == if Trim(item.account) in parents then Some(parents[Trim(item.account)].id) else None
  {
    hide WalkAll, IdsAll, HoldingsAll, DistinctIds, Has, Trim;
    var account := Trim(item.account);
    if account in parents {
      var x := Holding(account, parents[account]);
      var u := HolderSub(ous, x);
      HeldWhereOuIs(ous, u, x);
      WalkHasIds(ous, x.ou.id);
      TrimIsProjection(x.ou.id);
    }
  }

  lemma InSubtreeMeansHeld(ous: seq<Ou>, parents: Parents, item: CostItem, s: Ou)
    requires ProperIds(IdsAll(ous)) && Reports(ous, parents) && Sub(s, ous)
    ensures WellFormed(WalkAll(ous, "", 0))
    ensures InSubtree(item, parents, WalkAll(ous, "", 0), s.id) <==> HeldIn(item, parents, s)
  {
    hide WellFormed, Has, WalkAll, IdsAll, HoldingsAll, Holdings, DistinctIds, HomeOf, Trim, CleanId, Sub;
    HomeInWalk(ous, parents, item);
    WalkIsWellFormed(ous);
    var account := Trim(item.account);
    if account in parents {
      UnderMeansWithin(ous, s, parents[account].id);
      HeldWhereOuIs(ous, s, Holding(account, parents[account]));
      WalkHasIds(ous, parents[account].id);
    }
  }

  /** Producer and consumer together: over the hierarchy of a walk, the total of an OU is the cost of
      the accounts held in its subtree. */
  lemma {:induction false} TotalIsCostWithin(items: seq<CostItem>, ous: seq<Ou>, parents: Parents, s: Ou)
    requires ProperIds(IdsAll(ous)) && Reports(ous, parents) && Sub(s, ous)
    ensures WellFormed(WalkAll(ous, "", 0))
    ensures TotalOf(items, parents, WalkAll(ous, "", 0), s.id) == CostWithin(items, parents, s)
  {
    hide WellFormed, WalkAll, IdsAll, Reports, ProperIds, Sub, HeldIn, InSubtree;
    WalkIsWellFormed(ous);
    if items != [] {
      TotalIsCostWithin(items[..|items| - 1], ous, parents, s);
      InSubtreeMeansHeld(ous, parents, items[|items| - 1], s);
    }
  }

  /** Only accounts that no walk found are unknown: no cost is lost between walk and rollup. */
  lemma {:induction false} UnknownIsElsewhere(items: seq<CostItem>, ous: seq<Ou>, parents: Parents)
    requires ProperIds(IdsAll(ous)) && Reports(ous, parents)
    ensures UnknownOf(items, parents, WalkAll(ous, "", 0)) == CostElsewhere(items, parents)
  {
    hide WalkAll, IdsAll, Reports, ProperIds, HomeOf;
    if items != [] {
      UnknownIsElsewhere(items[..|items| - 1], ous, parents);
      HomeInWalk(ous, parents, items[|items| - 1]);
    }
  }
}
