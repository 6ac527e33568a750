/** From the OU walks of all payers to the rows of the cost rollup. */
module OrgRollup {
  import opened Text
  import opened Hierarchy
  import opened OuTotals
  import opened OuRows
  import opened OuRollup
  import opened OrgTree
  import opened OrgWalk

  /** A payer's selection root, and the account IDs wanted from it. */
  datatype Payer = Payer(root: Ou, accountIds: seq<string>)

  function Roots(payers: seq<Payer>): seq<Ou> {
    if payers == [] then [] else Roots(payers[..|payers| - 1]) + [payers[|payers| - 1].root]
  }

  function MergedParents(payers: seq<Payer>): Parents {
    if payers == [] then map[]
    else
      var last := payers[|payers| - 1];
      MergedParents(payers[..|payers| - 1]) + ParentsFrom(Holdings(last.root), Wanted(last.accountIds))
  }

  /** resolveAccountOUBuckets: one walk per payer, hierarchies one after the other, maps merged. */
  method ResolveAccountOuBuckets(payers: seq<Payer>) returns (parents: Parents, nodes: seq<Node>)
    ensures nodes == WalkAll(Roots(payers), "", 0)
    ensures parents == MergedParents(payers)
  {
    hide WalkNodes, WalkAll, Holdings, ParentsFrom, Wanted;
    parents, nodes := map[], [];
    NothingResolved(payers);
    for i := 0 to |payers|
      invariant nodes == WalkAll(Roots(payers[..i]), "", 0)
      invariant parents == MergedParents(payers[..i])
    {
      PayerStep(payers, i);
      var mapped, hierarchy := BuildOuAccountMapping(payers[i].root, payers[i].accountIds);
      parents := parents + mapped;
      nodes := nodes + hierarchy;
    }
  }

  lemma NothingResolved(payers: seq<Payer>)
    ensures WalkAll(Roots(payers[..0]), "", 0) == [] && MergedParents(payers[..0]) == map[]
    ensures payers[..|payers|] == payers
  {
  }

  lemma PayerStep(payers: seq<Payer>, i: nat)
    requires i < |payers|
    ensures WalkAll(Roots(payers[..i + 1]), "", 0)
            == WalkAll(Roots(payers[..i]), "", 0) + WalkNodes(payers[i].root, "", 0)
    ensures MergedParents(payers[..i + 1])
         == MergedParents(payers[..i]) + ParentsFrom(Holdings(payers[i].root), Wanted(payers[i].accountIds))
    ensures HoldingsAll(Roots(payers[..i + 1])) == HoldingsAll(Roots(payers[..i])) + Holdings(payers[i].root)
  {
    hide WalkNodes, Holdings, ParentsFrom, Wanted;
    assert payers[..i + 1][..i] == payers[..i];
    var roots := Roots(payers[..i]);
    assert (roots + [payers[i].root])[..|roots|] == roots;
  }

  /** The merged map reports accounts only where some walk found them. */
  lemma {:induction false} MergedReports(payers: seq<Payer>)
    ensures Reports(Roots(payers), MergedParents(payers))
  {
    hide Holdings, HoldingsAll, ParentsFrom, Wanted;
    if payers != [] {
      var front, last := payers[..|payers| - 1], payers[|payers| - 1];
      MergedReports(front);
      assert payers[..|payers|] == payers;
      PayerStep(payers, |payers| - 1);
      WalkReports(Roots(payers), Holdings(last.root), Wanted(last.accountIds));
      MergeReports(Roots(payers), MergedParents(front), ParentsFrom(Holdings(last.root), Wanted(last.accountIds)));
    }
  }

  /** A payer that the account is wanted from has it in this OU, or in one further down. */
  ghost predicate Finds(p: Payer, account: string, u: Ou) {
    && account != "" && (exists k :: 0 <= k < |p.accountIds| && Trim(p.accountIds[k]) == account)
    && Within(u, p.root) && IsIn(account, u)
  }

  function BucketOf(u: Ou): Bucket {
    Bucket(u.id, if u.name == "" then u.id else u.name)
  }

  ghost predicate FindsIn(p: Payer, account: string, bucket: Bucket) {
    exists u: Ou :: Finds(p, account, u) && bucket == BucketOf(u)
  }

  ghost predicate IsFound(p: Payer, account: string) {
    exists u: Ou :: Finds(p, account, u)
  }

  lemma ParentsMean(p: Payer, account: string)
    ensures var parents := ParentsFrom(Holdings(p.root), Wanted(p.accountIds));
      && (account in parents <==> IsFound(p, account))
      && (account in parents ==> FindsIn(p, account, parents[account]))
  {
    hide Within, IsIn, Trim, Holdings, ParentsFrom;
    var found, wanted := Holdings(p.root), Wanted(p.accountIds);
    FoundIsReported(found, wanted, account);
    assert account in wanted
           <==> account != "" && exists k :: 0 <= k < |p.accountIds| && Trim(p.accountIds[k]) == account by {
      WantedMeans(p.accountIds, account);
    }
    if account in ParentsFrom(found, wanted) {
      var bucket := ParentsFrom(found, wanted)[account];
      HeldMeans(p.root, Holding(account, bucket));
      var u: Ou :| Within(u, p.root) && IsIn(account, u) && bucket == BucketOf(u);
      assert Finds(p, account, u);
    }
    if u: Ou :| Finds(p, account, u) {
      var x := Holding(account, BucketOf(u));
      HeldMeans(p.root, x);
      assert x in found && x.account == account;
    }
  }

  lemma WantedMeans(accountIds: seq<string>, account: string)
    ensures account in Wanted(accountIds)
            <==> account != "" && exists k :: 0 <= k < |accountIds| && Trim(accountIds[k]) == account
  {
    hide Trim;
    if k :| 0 <= k < |accountIds| && Trim(accountIds[k]) == account {
      assert accountIds[k] in accountIds;
    }
  }

  /** The merged map has just the accounts that some payer's walk finds, each with an OU in which the last of these
      payers has it. */
  lemma {:induction false} MergedMeans(payers: seq<Payer>, account: string, i: nat)
    ensures account in MergedParents(payers) <==> exists p :: p in payers && IsFound(p, account)
    ensures i < |payers| && IsFound(payers[i], account)
            && (forall j :: i < j < |payers| ==> !IsFound(payers[j], account)) ==>
              account in MergedParents(payers) && FindsIn(payers[i], account, MergedParents(payers)[account])
  {
    hide ParentsFrom, Holdings, Wanted, FindsIn, IsFound;
    if payers != [] {
      var front, last := payers[..|payers| - 1], payers[|payers| - 1];
      MergedMeans(front, account, i);
      ParentsMean(last, account);
      assert payers == front + [last];
    }
  }

  /** The whole pipeline: walk every payer, merge, roll up. Nothing is lost, every row of an OU shows
      the cost of the accounts held in its subtree, and the unknown row shows the rest. */
  method RollupOrganization(breakdown: seq<CostItem>, payers: seq<Payer>) returns (rows: seq<Row>, nodes: seq<Node>)
    requires ProperIds(IdsAll(Roots(payers)))
    ensures nodes == WalkAll(Roots(payers), "", 0) && WellFormed(nodes)
    ensures DepthSum(rows, 0) == Sum(breakdown)
    ensures rows == if breakdown == [] then [] else
                      TreeRows(nodes, Totals(breakdown, MergedParents(payers), nodes))
                      + (if CostElsewhere(breakdown, MergedParents(payers)) == 0.0 then []
                         else [Row("unknown", "(unknown)", 0, CostElsewhere(breakdown, MergedParents(payers)))])
    ensures forall s: Ou :: Sub(s, Roots(payers)) ==>
              TotalOf(breakdown, MergedParents(payers), nodes, s.id) == CostWithin(breakdown, MergedParents(payers), s)
  {
    hide WalkAll, WellFormed, Sub, IdsAll, Roots, MergedParents, ProperIds, Reports, TotalOf, CostWithin, CostElsewhere,
      TreeRows, Totals, DepthSum;
    ghost var roots := Roots(payers);
    WalkIsWellFormed(roots);
    MergedReports(payers);
    var parents;
    parents, nodes := ResolveAccountOuBuckets(payers);
    rows := RollupByOuTree(breakdown, parents, nodes);
    UnknownIsElsewhere(breakdown, roots, parents);
    forall s: Ou | Sub(s, roots)
      ensures TotalOf(breakdown, parents, nodes, s.id) == CostWithin(breakdown, parents, s)
    {
      TotalIsCostWithin(breakdown, roots, parents, s);
    }
  }
}
