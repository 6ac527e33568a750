/** The OU tree of an organization, and the depth-first walk that lists its nodes and maps each
    wanted account to its parent OU. The hierarchy it reports is always well formed. */
module OrgTree {
  import opened Text
  import opened Hierarchy
  import opened OuTotals

  datatype Account = Account(id: string, name: string, state: string)

  /** An OU with its accounts and its child OUs, each in listing order. */
  datatype Ou = Ou(id: string, name: string, accounts: seq<Account>, children: seq<Ou>)

  // ------------------------------------------------------------- listing

  datatype ListOptions = ListOptions(maxDepth: int, depthGiven: bool, directOnly: bool, state: string,
                                     includeClosed: bool, allStates: bool)

  const ALL_STATES := ListOptions(0, false, false, "", false, true)

  predicate StateMatches(state: string, opts: ListOptions) {
    opts.allStates
    || if Trim(opts.state) != "" then state == Trim(opts.state)
       else state == "ACTIVE" || (opts.includeClosed && state in {"SUSPENDED", "PENDING_CLOSURE", "CLOSED"})
  }

  datatype Member = Member(id: string, name: string)

  /** The accounts directly in an OU, as listed: right state, named, IDs trimmed. */
  function Listed(accounts: seq<Account>, opts: ListOptions): seq<Member> {
    if accounts == [] then []
    else
      var last := accounts[|accounts| - 1];
      Listed(accounts[..|accounts| - 1], opts)
        + if StateMatches(last.state, opts) && Trim(last.name) != "" then [Member(Trim(last.id), Trim(last.name))]
            else []
  }

  function NameOf(ou: Ou): string {
    if ou.name == "" then ou.id else ou.name
  }

  // ---------------------------------------------------------- what a walk reports

  function Ids(ou: Ou): seq<string> {
    [ou.id] + IdsAll(ou.children)
  }

  function IdsAll(ous: seq<Ou>): seq<string> {
    if ous == [] then [] else IdsAll(ous[..|ous| - 1]) + Ids(ous[|ous| - 1])
  }

  function WalkNodes(ou: Ou, parentId: string, depth: nat): seq<Node> {
    [Node(ou.id, NameOf(ou), parentId, depth)] + WalkAll(ou.children, ou.id, depth + 1)
  }

  function WalkAll(ous: seq<Ou>, parentId: string, depth: nat): seq<Node> {
    if ous == [] then []
    else WalkAll(ous[..|ous| - 1], parentId, depth) + WalkNodes(ous[|ous| - 1], parentId, depth)
  }

  /** An account and the OU it is directly in. */
  datatype Holding = Holding(account: string, ou: Bucket)

  function HoldingsOf(members: seq<Member>, ou: Bucket): seq<Holding> {
    seq(|members|, i requires 0 <= i < |members| => Holding(members[i].id, ou))
  }

  function Holdings(ou: Ou): seq<Holding> {
    HoldingsOf(Listed(ou.accounts, ALL_STATES), Bucket(ou.id, NameOf(ou))) + HoldingsAll(ou.children)
  }

  function HoldingsAll(ous: seq<Ou>): seq<Holding> {
    if ous == [] then [] else HoldingsAll(ous[..|ous| - 1]) + Holdings(ous[|ous| - 1])
  }

  /** The parent map of the wanted accounts; an account found again is overwritten. */
  function ParentsFrom(found: seq<Holding>, wanted: set<string>): Parents {
    if found == [] then map[]
    else
      var m := ParentsFrom(found[..|found| - 1], wanted);
      var last := found[|found| - 1];
      if last.account in wanted then m[last.account := last.ou] else m
  }

  // ------------------------------------------------------------------ the walk

  /** The hierarchy and parent map that the recursive walk appends to. */
  class Walker {
    const wanted: set<string>
    var hierarchy: seq<Node>
    var parents: Parents
    ghost var found: seq<Holding>

    constructor (wanted: set<string>)
      ensures this.wanted == wanted && hierarchy == [] && parents == map[] && found == []
    {
      this.wanted, hierarchy, parents, found := wanted, [], map[], [];
    }

    method Walk(ou: Ou, name: string, parentId: string, depth: nat)
      requires name == NameOf(ou) && parents == ParentsFrom(found, wanted)
      modifies this
      ensures hierarchy == old(hierarchy) + WalkNodes(ou, parentId, depth)
      ensures found == old(found) + Holdings(ou) && parents == ParentsFrom(found, wanted)
      decreases ou
    {
      hide Listed, ParentsFrom, WalkNodes, WalkAll, Holdings, HoldingsAll, HoldingsOf, NameOf;
      ghost var node := Node(ou.id, name, parentId, depth);
      hierarchy := hierarchy + [Node(ou.id, name, parentId, depth)];
      var bucket := Bucket(ou.id, name);
      var direct := Listed(ou.accounts, ALL_STATES);
      NoHoldingsYet(direct, bucket);
      for i := 0 to |direct|
        invariant hierarchy == old(hierarchy) + [node]
        invariant found == old(found) + HoldingsOf(direct, bucket)[..i] && i <= |HoldingsOf(direct, bucket)|
        invariant parents == ParentsFrom(found, wanted)
      {
        ghost var holding := Holding(direct[i].id, bucket);
        HoldingStep(direct, bucket, i);
        ParentsStep(found, holding, wanted);
        if direct[i].id in wanted {
          parents := parents[direct[i].id := bucket];
        }
        found := found + [holding];
      }
      ghost var above, before := hierarchy, found;
      NoChildrenYet(ou.children, ou.id, depth + 1);
      for k := 0 to |ou.children|
        invariant hierarchy == above + WalkAll(ou.children[..k], ou.id, depth + 1)
        invariant found == before + HoldingsAll(ou.children[..k])
        invariant parents == ParentsFrom(found, wanted)
      {
        ChildStep(ou.children, ou.id, depth + 1, k);
        ChildName(ou.children[k]);
        var child := ou.children[k];
        Walk(child, if child.name == "" then child.id else child.name, ou.id, depth + 1);
      }
      WalkParts(old(hierarchy), old(found), ou, parentId, depth);
    }
  }

  lemma NoHoldingsYet(members: seq<Member>, ou: Bucket)
    ensures |HoldingsOf(members, ou)| == |members| && HoldingsOf(members, ou)[..0] == []
    ensures HoldingsOf(members, ou)[..|members|] == HoldingsOf(members, ou)
  {
  }

  lemma NoChildrenYet(ous: seq<Ou>, parentId: string, depth: nat)
    ensures WalkAll(ous[..0], parentId, depth) == [] && HoldingsAll(ous[..0]) == [] && ous[..|ous|] == ous
  {
  }

  lemma ChildName(ou: Ou)
    ensures NameOf(ou) == if ou.name == "" then ou.id else ou.name
  {
  }

  lemma WalkParts(above: seq<Node>, before: seq<Holding>, ou: Ou, parentId: string, depth: nat)
    ensures above + [Node(ou.id, NameOf(ou), parentId, depth)] + WalkAll(ou.children, ou.id, depth + 1)
         == above + WalkNodes(ou, parentId, depth)
    ensures before + HoldingsOf(Listed(ou.accounts, ALL_STATES), Bucket(ou.id, NameOf(ou))) + HoldingsAll(ou.children)
         == before + Holdings(ou)
  {
    hide WalkAll, HoldingsAll, HoldingsOf, Listed;
  }

  lemma HoldingStep(members: seq<Member>, ou: Bucket, i: nat)
    requires i < |members|
    ensures HoldingsOf(members, ou)[..i + 1] == HoldingsOf(members, ou)[..i] + [Holding(members[i].id, ou)]
  {
  }

  lemma ParentsStep(found: seq<Holding>, holding: Holding, wanted: set<string>)
    ensures ParentsFrom(found + [holding], wanted)
         == if holding.account in wanted then ParentsFrom(found, wanted)[holding.account := holding.ou]
             else ParentsFrom(found, wanted)
  {
    assert (found + [holding])[..|found|] == found;
  }

  lemma ChildStep(ous: seq<Ou>, parentId: string, depth: nat, k: nat)
    requires k < |ous|
    ensures WalkAll(ous[..k + 1], parentId, depth)
            == WalkAll(ous[..k], parentId, depth) + WalkNodes(ous[k], parentId, depth)
    ensures HoldingsAll(ous[..k + 1]) == HoldingsAll(ous[..k]) + Holdings(ous[k])
  {
    hide WalkNodes, Holdings;
    assert ous[..k + 1][..k] == ous[..k];
  }

  /** BuildOUAccountMapping: the parents of the wanted accounts, and the hierarchy below a root. */
  method BuildOuAccountMapping(root: Ou, accountIds: seq<string>) returns (parents: Parents, hierarchy: seq<Node>)
    ensures hierarchy == WalkNodes(root, "", 0)
    ensures parents == ParentsFrom(Holdings(root), Wanted(accountIds))
  {
    var wanted: set<string> := {};
    for i := 0 to |accountIds|
      invariant wanted == Wanted(accountIds[..i])
    {
      assert accountIds[..i + 1] == accountIds[..i] + [accountIds[i]];
      var id := Trim(accountIds[i]);
      if id != "" {
        wanted := wanted + {id};
      }
    }
    assert accountIds[..|accountIds|] == accountIds;
    var walker := new Walker(wanted);
    walker.Walk(root, NameOf(root), "", 0);
    parents, hierarchy := walker.parents, walker.hierarchy;
    assert walker.found == Holdings(root);
  }

  function Wanted(accountIds: seq<string>): set<string> {
    set id | id in accountIds && Trim(id) != "" :: Trim(id)
  }

  // ------------------------------------------------------ well-formed hierarchies

  predicate DistinctIds(ids: seq<string>) {
    forall i, j :: 0 <= i < j < |ids| ==> ids[i] != ids[j]
  }

  /** What Organizations guarantees of OU IDs: none blank, none twice. */
  predicate ProperIds(ids: seq<string>) {
    DistinctIds(ids) && forall id :: id in ids ==> CleanId(id)
  }

  lemma {:induction false} WalkNamesIds(ou: Ou, parentId: string, depth: nat)
    ensures |WalkNodes(ou, parentId, depth)| == |Ids(ou)|
    ensures forall i :: 0 <= i < |Ids(ou)| ==> WalkNodes(ou, parentId, depth)[i].id == Ids(ou)[i]
    decreases ou, 0
  {
    WalkAllNamesIds(ou.children, ou.id, depth + 1);
  }

  lemma {:induction false} WalkAllNamesIds(ous: seq<Ou>, parentId: string, depth: nat)
    ensures |WalkAll(ous, parentId, depth)| == |IdsAll(ous)|
    ensures forall i :: 0 <= i < |IdsAll(ous)| ==> WalkAll(ous, parentId, depth)[i].id == IdsAll(ous)[i]
    decreases ous, 1, |ous|
  {
    if ous != [] {
      WalkAllNamesIds(ous[..|ous| - 1], parentId, depth);
      WalkNamesIds(ous[|ous| - 1], parentId, depth);
    }
  }
}
