/** From the organization's OUs and the ledgers to the OU rows of a fetched cost report. */
module FetchedRows {
  import opened Text
  import opened Wrappers
  import opened Charges
  import opened OuTotals
  import opened OuRows
  import opened OuRollup
  import opened OrgTree
  import opened OrgWalk
  import Hierarchy
  import CostFetch
  import OrgRollup

  /** Items in the form in which the rollup takes them. */
  function Costs(items: seq<Item>): seq<CostItem> {
    CostFetch.AccountCosts(items)
  }

  // ------------------------------------- only the charge of an account matters

  ghost predicate AccountHeldIn(account: string, parents: Parents, s: Ou) {
    HeldIn(CostItem(account, 0.0), parents, s)
  }

  /** The items of the accounts that satisfy a condition. */
  ghost function Picked(items: seq<Item>, pick: string -> bool): seq<Item> {
    if items == [] then []
    else
      var last := items[|items| - 1];
      Picked(items[..|items| - 1], pick) + if pick(last.key) then [last] else []
  }

  lemma PickedStep(items: seq<Item>, pick: string -> bool, key: string)
    requires items != []
    ensures var front, last := items[..|items| - 1], items[|items| - 1];
      && KeySum(Picked(items, pick), key)
         == KeySum(Picked(front, pick), key) + (if pick(last.key) && last.key == key then last.amount else 0.0)
      && SumAll(Picked(items, pick)) == SumAll(Picked(front, pick)) + (if pick(last.key) then last.amount else 0.0)
  {
    hide KeySum, SumAll;
    var front, last := items[..|items| - 1], items[|items| - 1];
    OneItem(Picked(front, pick), last, key);
    assert Picked(front, pick) + [] == Picked(front, pick);
  }

  lemma {:induction false} PickedCharges(items: seq<Item>, pick: string -> bool, key: string)
    ensures KeySum(Picked(items, pick), key) == if pick(key) then KeySum(items, key) else 0.0
  {
    hide KeySum, Picked;
    if items == [] {
      NothingPicked(pick, key);
    } else {
      PickedCharges(items[..|items| - 1], pick, key);
      PickedStep(items, pick, key);
      LastCharge(items, key);
    }
  }

  lemma NothingPicked(pick: string -> bool, key: string)
    ensures Picked([], pick) == [] && KeySum([], key) == 0.0 && SumAll([]) == 0.0
  {
  }

  /** Lists that charge every account alike charge the accounts of any selection alike. */
  lemma SamePicked(a: seq<Item>, b: seq<Item>, pick: string -> bool)
    requires SameCharges(a, b)
    ensures SumAll(Picked(a, pick)) == SumAll(Picked(b, pick))
  {
    hide KeySum, SumAll, Picked;
    forall key
      ensures KeySum(Picked(a, pick), key) == KeySum(Picked(b, pick), key)
    {
      PickedCharges(a, pick, key);
      PickedCharges(b, pick, key);
    }
    SameChargesSameSum(Picked(a, pick), Picked(b, pick));
  }

  lemma LastCost(items: seq<Item>)
    requires items != []
    ensures Costs(items) == Costs(items[..|items| - 1]) + [CostItem(items[|items| - 1].key, items[|items| - 1].amount)]
    ensures Costs(items)[..|Costs(items)| - 1] == Costs(items[..|items| - 1])
  {
  }

  lemma {:induction false} WithinIsPicked(items: seq<Item>, parents: Parents, s: Ou, pick: string -> bool)
    requires forall account :: pick(account) <==> AccountHeldIn(account, parents, s)
    ensures CostWithin(Costs(items), parents, s) == SumAll(Picked(items, pick))
  {
    hide SumAll, Picked, Costs, Holdings, Trim;
    if items == [] {
      NothingPicked(pick, "");
      NoCosts();
    } else {
      WithinIsPicked(items[..|items| - 1], parents, s, pick);
      LastCost(items);
      PickedStep(items, pick, "");
      assert pick(items[|items| - 1].key) <==> AccountHeldIn(items[|items| - 1].key, parents, s);
    }
  }

  lemma NoCosts()
    ensures Costs([]) == []
  {
  }

  lemma {:induction false} ElsewhereIsPicked(items: seq<Item>, parents: Parents, pick: string -> bool)
    requires forall account :: pick(account) <==> Trim(account) !in parents
    ensures CostElsewhere(Costs(items), parents) == SumAll(Picked(items, pick))
  {
    hide SumAll, Picked, Costs, Trim;
    if items == [] {
      NothingPicked(pick, "");
      NoCosts();
    } else {
      ElsewhereIsPicked(items[..|items| - 1], parents, pick);
      LastCost(items);
      PickedStep(items, pick, "");
    }
  }

  lemma SameWithin(a: seq<Item>, b: seq<Item>, parents: Parents, s: Ou)
    requires SameCharges(a, b)
    ensures CostWithin(Costs(a), parents, s) == CostWithin(Costs(b), parents, s)
  {
    hide SameCharges, CostWithin, AccountHeldIn, Costs;
    var pick: string -> bool := account => AccountHeldIn(account, parents, s);
    WithinIsPicked(a, parents, s, pick);
    WithinIsPicked(b, parents, s, pick);
    SamePicked(a, b, pick);
  }

  lemma SameElsewhere(a: seq<Item>, b: seq<Item>, parents: Parents)
    requires SameCharges(a, b)
    ensures CostElsewhere(Costs(a), parents) == CostElsewhere(Costs(b), parents)
  {
    hide SameCharges, CostElsewhere, Trim, Costs;
    var pick: string -> bool := account => Trim(account) !in parents;
    ElsewhereIsPicked(a, parents, pick);
    ElsewhereIsPicked(b, parents, pick);
    SamePicked(a, b, pick);
  }

  // ------------------------------------------------------- the fetched rows

  /** The OU data of a walk of the organization, as the OU resolution provides it. */
  ghost predicate OfWalk(data: CostFetch.OuData, roots: seq<Ou>) {
    && roots != [] && ProperIds(IdsAll(roots)) && data.hierarchy == WalkAll(roots, "", 0)
    && Reports(roots, data.buckets)
  }

  /** That is what resolving the OUs of all payers yields. */
  lemma ResolvedIsOfWalk(payers: seq<OrgRollup.Payer>)
    requires payers != [] && ProperIds(IdsAll(OrgRollup.Roots(payers)))
    ensures OfWalk(CostFetch.OuData(OrgRollup.MergedParents(payers), WalkAll(OrgRollup.Roots(payers), "", 0)),
                   OrgRollup.Roots(payers))
  {
    hide WalkAll, IdsAll, ProperIds, OrgRollup.MergedParents, Reports;
    OrgRollup.MergedReports(payers);
  }

  /** A row shows an OU by its name, or for a blank one by its ID, at its depth, with what the accounts held in its
      subtree cost. */
  ghost predicate ShowsOu(row: Row, roots: seq<Ou>, items: seq<Item>, parents: Parents) {
    exists s: Ou ::
      && Sub(s, roots) && AtDepth(s, roots, row.depth) && row.ouId == s.id
      && row.ouName == (if Blank(s.name) then s.id else Trim(s.name))
      && row.amount == CostWithin(Costs(items), parents, s) != 0.0
  }

  lemma WalkIsNotEmpty(roots: seq<Ou>)
    requires roots != []
    ensures WalkAll(roots, "", 0) != []
  {
  }

  lemma NamedOu(roots: seq<Ou>, id: string) returns (s: Ou)
    requires ProperIds(IdsAll(roots)) && Hierarchy.Has(WalkAll(roots, "", 0), id)
    ensures var n := Hierarchy.NodeOf(WalkAll(roots, "", 0), id);
      && Sub(s, roots) && AtDepth(s, roots, n.depth) && s.id == id
      && (if Blank(n.name) then id else Trim(n.name)) == if Blank(s.name) then id else Trim(s.name)
  {
    hide WalkAll, IdsAll, Sub, AtDepth, Trim, Blank;
    var h := WalkAll(roots, "", 0);
    s := NodeShowsOu(roots, "", 0, Hierarchy.Pos(h, id));
    SubIds(s, roots);
    OwnIds(s);
    NoNameIsBlank();
    TrimIsProjection(id);
  }

  lemma NoNameIsBlank()
    ensures Blank("")
  {
  }

  lemma TreeRowShowsOu(accounts: seq<Item>, items: seq<Item>, data: CostFetch.OuData, roots: seq<Ou>, i: nat)
    requires OfWalk(data, roots) && SameCharges(accounts, items) && Hierarchy.WellFormed(data.hierarchy)
    requires i < |TreeRows(data.hierarchy, Totals(Costs(accounts), data.buckets, data.hierarchy))|
    ensures ShowsOu(RollupRows(Costs(accounts), data.buckets, data.hierarchy)[i], roots, items, data.buckets)
  {
    hide WalkAll, IdsAll, Sub, AtDepth, Hierarchy.Has, Hierarchy.WellFormed, SameCharges, CostWithin, Costs, TotalOf,
      TreeRows, Totals, Reports, ProperIds, Blank, Trim;
    var row := RollupRows(Costs(accounts), data.buckets, data.hierarchy)[i];
    RollupShowsTotals(Costs(accounts), data.buckets, data.hierarchy, i);
    var s := NamedOu(roots, row.ouId);
    TotalIsCostWithin(Costs(accounts), roots, data.buckets, s);
    SameWithin(accounts, items, data.buckets, s);
  }

  /** In a report by OU, every row shows an OU with the cost of the accounts held in its subtree, except
      for a last one with the cost of the accounts that no walk found. */
  lemma FetchedRowsShowSubtrees(r: CostFetch.CostResult, items: seq<Item>, data: CostFetch.OuData, roots: seq<Ou>,
                                i: nat)
    requires OfWalk(data, roots) && CostFetch.Reports(r, CostFetch.ByOu, items, data) && i < |r.ouRows|
    ensures ShowsOu(r.ouRows[i], roots, items, data.buckets)
            || (i == |r.ouRows| - 1
                && r.ouRows[i] == Row("unknown", "(unknown)", 0, CostElsewhere(Costs(items), data.buckets)))
  {
    hide WalkAll, ShowsOu, SameCharges, Compact, CostElsewhere, Hierarchy.WellFormed, TreeRows, Totals, UnknownOf,
      DepthSum, SumAll, ProperIds, Reports;
    WalkIsNotEmpty(roots);
    var accounts :| Compact(accounts) && SameCharges(accounts, items) && CostFetch.IsOuRollup(r.ouRows, accounts, data);
    var tree := TreeRows(data.hierarchy, Totals(Costs(accounts), data.buckets, data.hierarchy));
    if i < |tree| {
      TreeRowShowsOu(accounts, items, data, roots, i);
    } else {
      UnknownIsElsewhere(Costs(accounts), roots, data.buckets);
      SameElsewhere(accounts, items, data.buckets);
    }
  }

  lemma CompactAmount(accounts: seq<Item>, items: seq<Item>, i: nat)
    requires Compact(accounts) && SameCharges(accounts, items) && i < |accounts|
    ensures accounts[i].amount == KeySum(items, accounts[i].key)
  {
    hide KeySum, Compact;
    RowCharges(accounts, i);
  }

  lemma {:induction false} CostAt(items: seq<Item>, i: nat)
    requires i < |items|
    ensures |Costs(items)| == |items| && Costs(items)[i].amount == items[i].amount
  {
    LastCost(items);
    if |items| == 1 {
      NoCosts();
    } else {
      CostAt(items[..|items| - 1], if i < |items| - 1 then i else 0);
    }
  }

  lemma ListsInFront(tree: seq<Row>, unknown: seq<Row>, id: string)
    requires forall i :: 0 <= i < |unknown| ==> unknown[i].ouId != id
    ensures Lists(tree + unknown, id) <==> Lists(tree, id)
  {
    var rows := tree + unknown;
    if Lists(tree, id) {
      var i :| 0 <= i < |tree| && tree[i].ouId == id;
      assert rows[i].ouId == id;
    }
  }

  /** When no account has a negative cost, exactly the OUs whose subtree costs something have a row. */
  lemma FetchedRowsListSpenders(r: CostFetch.CostResult, items: seq<Item>, data: CostFetch.OuData, roots: seq<Ou>,
                                s: Ou)
    requires OfWalk(data, roots) && CostFetch.Reports(r, CostFetch.ByOu, items, data) && Sub(s, roots)
    requires s.id != "unknown"
    requires forall account :: KeySum(items, account) >= 0.0
    ensures Lists(r.ouRows, s.id) <==> CostWithin(Costs(items), data.buckets, s) != 0.0
  {
    hide WalkAll, Lists, KeySum, Compact, CostWithin, CostFetch.AccountCosts, TotalOf, Hierarchy.WellFormed,
      Hierarchy.Has, TreeRows, Totals, UnknownOf, DepthSum, SumAll,
      ProperIds, Reports, IdsAll, Ids, Sub;
    WalkIsNotEmpty(roots);
    var accounts :| Compact(accounts) && SameCharges(accounts, items) && CostFetch.IsOuRollup(r.ouRows, accounts, data);
    SameWithin(accounts, items, data.buckets, s);
    TotalIsCostWithin(Costs(accounts), roots, data.buckets, s);
    if accounts == [] {
      NothingWithin(data.buckets, s);
    } else {
      CostAt(accounts, 0);
      forall i | 0 <= i < |accounts|
        ensures Costs(accounts)[i].amount >= 0.0
      {
        CostAt(accounts, i);
        CompactAmount(accounts, items, i);
      }
      SubIds(s, roots);
      OwnIds(s);
      WalkHasIds(roots, s.id);
      RollupListsSpenders(Costs(accounts), data.buckets, data.hierarchy, s.id);
      ListsInFront(TreeRows(data.hierarchy, Totals(Costs(accounts), data.buckets, data.hierarchy)),
                   UnknownRows(UnknownOf(Costs(accounts), data.buckets, data.hierarchy)), s.id);
    }
  }

  lemma NothingWithin(parents: Parents, s: Ou)
    ensures CostWithin(Costs([]), parents, s) == 0.0 && !Lists([], s.id)
  {
  }

  // ----------------------------------------------------- without a hierarchy

  /** An account's cost is recorded under the OU that the map gives for it, or as unknown. */
  predicate RecordedUnder(account: string, buckets: Parents, ou: string) {
    if Trim(account) in buckets && Trim(buckets[Trim(account)].id) != "" then Trim(buckets[Trim(account)].id) == ou
    else ou == "unknown"
  }

  function CostUnder(items: seq<Item>, buckets: Parents, ou: string): real {
    if items == [] then 0.0
    else
      var last := items[|items| - 1];
      CostUnder(items[..|items| - 1], buckets, ou) + if RecordedUnder(last.key, buckets, ou) then last.amount else 0.0
  }

  lemma BucketMeans(account: string, buckets: Parents, ou: string)
    ensures Trim(CostFetch.BucketOf(account, buckets).id) == ou <==> RecordedUnder(account, buckets, ou)
  {
    TrimIsProjection("unknown");
  }

  lemma {:induction false} UnderMeans(items: seq<Item>, buckets: Parents, ou: string)
    ensures KeySum(CostFetch.ByBucket(items, buckets), ou) == CostUnder(items, buckets, ou)
  {
    hide KeySum, RecordedUnder, CostFetch.BucketOf, Trim;
    if items == [] {
      SingleCharge(Item("", 0.0), ou);
    } else {
      var front, last := items[..|items| - 1], items[|items| - 1];
      UnderMeans(front, buckets, ou);
      BucketMeans(last.key, buckets, ou);
      OneItem(CostFetch.ByBucket(front, buckets), Item(Trim(CostFetch.BucketOf(last.key, buckets).id), last.amount),
              ou);
    }
  }

  /** Without a hierarchy each row has what is recorded under its OU, and every OU with a cost has a row. */
  lemma FlatRowsShowOus(rows: seq<Row>, ranked: seq<Item>, items: seq<Item>, buckets: Parents, i: nat, ou: string)
    requires CostFetch.FlatRows(rows, ranked, items, buckets)
    requires Compact(ranked) && SameCharges(ranked, CostFetch.ByBucket(items, buckets))
    ensures i < |rows| ==> rows[i].amount == CostUnder(items, buckets, Trim(rows[i].ouId)) != 0.0
    ensures CostUnder(items, buckets, ou) != 0.0 ==> exists k :: 0 <= k < |rows| && Trim(rows[k].ouId) == ou
  {
    hide KeySum, CostUnder, CostFetch.ByBucket, CostFetch.BucketOf, Trim;
    forall k | 0 <= k < |rows|
      ensures Trim(rows[k].ouId) == ranked[k].key
    {
    }
    UnderMeans(items, buckets, ou);
    if i < |rows| {
      RowCharges(ranked, i);
      UnderMeans(items, buckets, ranked[i].key);
    }
    if KeySum(ranked, ou) != 0.0 {
      ChargedHasRow(ranked, ou);
    }
  }

  lemma {:induction false} ChargedHasRow(rows: seq<Item>, key: string)
    requires KeySum(rows, key) != 0.0
    ensures exists k :: 0 <= k < |rows| && rows[k].key == key
  {
    if rows[|rows| - 1].key != key {
      ChargedHasRow(rows[..|rows| - 1], key);
      var k :| 0 <= k < |rows[..|rows| - 1]| && rows[..|rows| - 1][k].key == key;
      assert rows[k].key == key;
    }
  }
}
