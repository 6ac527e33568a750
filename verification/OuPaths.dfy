/** The path of an account's OU, as labels from the root down. */
module OuPaths {
  import opened Text
  import opened Hierarchy
  import opened OuTotals
  import opened OuRollup

  function Label(n: Node): string {
    if Trim(n.name) == "" then n.id else Trim(n.name)
  }

  /** The labels of an OU and its ancestors, the root's first. */
  ghost function PathLabels(h: seq<Node>, id: string): seq<string>
    requires WellFormed(h) && Has(h, id)
    decreases Pos(h, id)
  {
    if ParentOf(h, id) == "" then [Label(NodeOf(h, id))]
    else
      ParentIsEarlier(h, id);
      PathLabels(h, ParentOf(h, id)) + [Label(NodeOf(h, id))]
  }

  /** One label for each level down to the OU. */
  lemma {:induction false} PathHasOneLabelPerLevel(h: seq<Node>, id: string)
    requires WellFormed(h) && Has(h, id)
    ensures |PathLabels(h, id)| == NodeOf(h, id).depth + 1
    decreases Pos(h, id)
  {
    RootIsAtDepthZero(h, id);
    if ParentOf(h, id) != "" {
      ParentIsEarlier(h, id);
      PathHasOneLabelPerLevel(h, ParentOf(h, id));
    }
  }

  /** At each depth it has the name of the OU's ancestor there, or for a blank one its ID. */
  lemma {:induction false} PathShowsAncestors(h: seq<Node>, id: string, a: string)
    requires WellFormed(h) && Has(h, id) && Has(h, a) && Under(h, id, a)
    ensures var n := NodeOf(h, a);
      n.depth < |PathLabels(h, id)| && PathLabels(h, id)[n.depth] == if Blank(n.name) then a else Trim(n.name)
    decreases Pos(h, id)
  {
    PathHasOneLabelPerLevel(h, id);
    TrimMeans(NodeOf(h, a).name);
    if id != a {
      ParentIsEarlier(h, id);
      PathShowsAncestors(h, ParentOf(h, id), a);
    }
  }

  function Reversed(xs: seq<string>): (r: seq<string>)
    ensures |r| == |xs| && forall i :: 0 <= i < |xs| ==> r[i] == xs[|xs| - 1 - i]
  {
    if xs == [] then [] else Reversed(xs[1..]) + [xs[0]]
  }

  lemma {:induction false} ReversedSnoc(xs: seq<string>, x: string)
    ensures Reversed(xs + [x]) == [x] + Reversed(xs)
  {
    if xs != [] {
      assert (xs + [x])[1..] == xs[1..] + [x];
      ReversedSnoc(xs[1..], x);
    }
  }

  /** Going up from an OU: the labels so far, deepest first, complete its path. */
  ghost predicate Climbed(h: seq<Node>, start: string, id: string, parts: seq<string>)
    requires WellFormed(h) && Has(h, start)
  {
    if id == "" then Reversed(parts) == PathLabels(h, start)
    else Has(h, id) && PathLabels(h, start) == PathLabels(h, id) + Reversed(parts)
  }

  lemma ClimbStep(h: seq<Node>, start: string, id: string, parts: seq<string>)
    requires WellFormed(h) && Has(h, start) && id != "" && Climbed(h, start, id, parts)
    ensures ParentOf(h, id) != "" ==> Has(h, ParentOf(h, id)) && Pos(h, ParentOf(h, id)) < Pos(h, id)
    ensures Climbed(h, start, ParentOf(h, id), parts + [Label(NodeOf(h, id))])
  {
    hide WellFormed, Has, Reversed, Label;
    ReversedSnoc(parts, Label(NodeOf(h, id)));
    if ParentOf(h, id) != "" {
      ParentIsEarlier(h, id);
    }
  }

  /** The IDs visited are below the next one. */
  ghost predicate Below(h: seq<Node>, seen: set<string>, id: string)
    requires WellFormed(h)
  {
    id != "" ==> Has(h, id) && forall x :: x in seen ==> Has(h, x) && Pos(h, x) > Pos(h, id)
  }

  lemma BelowParent(h: seq<Node>, seen: set<string>, id: string)
    requires WellFormed(h) && id != "" && Below(h, seen, id)
    ensures id !in seen && Below(h, seen + {id}, ParentOf(h, id))
  {
    hide WellFormed, Has;
    if ParentOf(h, id) != "" {
      ParentIsEarlier(h, id);
    }
  }

  lemma ClimbStart(h: seq<Node>, start: string)
    requires WellFormed(h) && Has(h, start) && start != ""
    ensures Climbed(h, start, start, []) && Below(h, {}, start)
  {
    assert PathLabels(h, start) == PathLabels(h, start) + [];
  }

  lemma ParentTrims(h: seq<Node>, id: string)
    requires WellFormed(h) && Has(h, id)
    ensures Trim(NodeOf(h, id).parentId) == ParentOf(h, id)
  {
    hide WellFormed, Has, Trim;
    ParentIsTrimmed(h, Pos(h, id));
  }

  /** One level up. */
  lemma Climb(h: seq<Node>, byId: map<string, Node>, start: string, id: string, parts: seq<string>, seen: set<string>)
    requires WellFormed(h) && NodesIndexed(h, byId) && Has(h, start) && id != ""
    requires Climbed(h, start, id, parts) && Below(h, seen, id)
    ensures id !in seen && id in byId
    ensures Climbed(h, start, Trim(byId[id].parentId), parts + [Label(byId[id])])
    ensures Below(h, seen + {id}, Trim(byId[id].parentId))
  {
    hide WellFormed, Has, Trim, NodesIndexed, PathLabels, Label;
    NodeById(h, byId, id);
    ClimbStep(h, start, id, parts);
    BelowParent(h, seen, id);
    ParentTrims(h, id);
  }

  lemma ClimbEnds(h: seq<Node>, start: string, parts: seq<string>)
    requires WellFormed(h) && Has(h, start) && Climbed(h, start, "", parts)
    ensures Reversed(parts) == PathLabels(h, start)
  {
  }

  lemma {:induction false} ReversedOne(x: string)
    ensures Reversed([x]) == [x]
  {
    assert [x][1..] == [];
  }

  /** formatOUPath, before the labels are joined. A loop in the parents ends at the first repeat. */
  method FormatOuPath(bucket: Bucket, byId: map<string, Node>, ghost h: seq<Node>) returns (parts: seq<string>)
    ensures Trim(bucket.id) == "" ==> parts == [Trim(bucket.name)]
    ensures Trim(bucket.id) != "" && Trim(bucket.id) !in byId ==>
              parts == [if Trim(bucket.name) != "" then Trim(bucket.name) else Trim(bucket.id)]
    ensures WellFormed(h) && NodesIndexed(h, byId) && Trim(bucket.id) != "" && Trim(bucket.id) in byId ==>
              Has(h, Trim(bucket.id)) && parts == PathLabels(h, Trim(bucket.id))
  {
    hide WellFormed, Has, Trim, NodesIndexed, Reversed, Climbed, Below, PathLabels, Label;
    var start := Trim(bucket.id);
    if start == "" {
      return [Trim(bucket.name)];
    }
    ghost var ok := WellFormed(h) && NodesIndexed(h, byId) && start in byId;
    if ok {
      KnownById(h, byId, start);
      ClimbStart(h, start);
    }
    var id := start;
    parts := [];
    var seen: set<string> := {};
    while id != ""
      invariant seen <= byId.Keys
      invariant start !in byId ==> id == start && parts == [] && seen == {}
      invariant ok ==> Has(h, start) && Climbed(h, start, id, parts) && Below(h, seen, id)
      decreases |byId.Keys - seen|
    {
      if ok {
        Climb(h, byId, start, id, parts, seen);
      }
      if id in seen {
        break;
      }
      if id !in byId {
        var name := if id == start && Trim(bucket.name) != "" then Trim(bucket.name) else id;
        parts := parts + [name];
        ReversedOne(name);
        break;
      }
      seen := seen + {id};
      var n := byId[id];
      parts := parts + [Label(n)];
      id := Trim(n.parentId);
    }
    if ok {
      ClimbEnds(h, start, parts);
    }
    parts := Reversed(parts);
  }
}
