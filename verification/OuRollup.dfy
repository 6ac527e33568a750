/** The OU tree rollup: amounts recorded per OU, subtree totals computed recursively with a memo,
    siblings sorted by amount, rows emitted depth first, and a last row for what no OU accounts for. */
module OuRollup {
  import opened Text
  import opened Wrappers
  import opened Hierarchy
  import opened OuTotals
  import opened OuRows

  const UNKNOWN_ID := "unknown"
  const UNKNOWN_NAME := "(unknown)"

  // ------------------------------------------------------------ the result

  /** The subtree total of every OU. */
  ghost function Totals(items: seq<CostItem>, parents: Parents, h: seq<Node>): (totals: Amounts)
    requires WellFormed(h)
    ensures Complete(h, totals)
    ensures forall id :: id in totals ==> totals[id] == TotalOf(items, parents, h, id)
  {
    var ids := set n | n in h :: n.id;
    assert forall id :: id in ids <==> Has(h, id);
    map id | id in ids :: TotalOf(items, parents, h, id)
  }

  function UnknownRows(amount: real): seq<Row> {
    if amount == 0.0 then [] else [Row(UNKNOWN_ID, UNKNOWN_NAME, 0, amount)]
  }

  ghost function RollupRows(items: seq<CostItem>, parents: Parents, h: seq<Node>): seq<Row>
    requires WellFormed(h)
  {
    TreeRows(h, Totals(items, parents, h)) + UnknownRows(UnknownOf(items, parents, h))
  }

  lemma {:induction false} SumOfTotals(items: seq<CostItem>, parents: Parents, h: seq<Node>, ids: seq<string>)
    requires WellFormed(h) && forall id :: id in ids ==> id in Totals(items, parents, h)
    ensures SumAmounts(ids, Totals(items, parents, h)) == SumTotals(items, parents, h, ids)
  {
    hide WellFormed, Has, TotalOf;
    if ids != [] {
      SumOfTotals(items, parents, h, ids[..|ids| - 1]);
    }
  }

  /** Conservation: the rows at depth zero, the unknown row included, add up to the input. */
  lemma RollupConserves(items: seq<CostItem>, parents: Parents, h: seq<Node>)
    requires WellFormed(h)
    ensures DepthSum(RollupRows(items, parents, h), 0) == Sum(items)
  {
    hide WellFormed, Has, TreeRows, TotalOf;
    var totals := Totals(items, parents, h);
    RootRowsSum(h, totals);
    SumOfTotals(items, parents, h, Kids(h, ""));
    RootsAndUnknownConserve(items, parents, h);
    var unknown := UnknownRows(UnknownOf(items, parents, h));
    DepthSumAppend(TreeRows(h, totals), unknown, 0);
    if unknown != [] {
      assert unknown[..0] == [];
    }
  }

  /** Every row of an OU shows its depth and name, or for a blank one its ID, and the total of the accounts whose
      parent chain passes through it. */
  lemma RollupShowsTotals(items: seq<CostItem>, parents: Parents, h: seq<Node>, i: nat)
    requires WellFormed(h) && i < |TreeRows(h, Totals(items, parents, h))|
    ensures var row := RollupRows(items, parents, h)[i];
      && Has(h, row.ouId) && row.amount == TotalOf(items, parents, h, row.ouId) != 0.0
      && row.depth == NodeOf(h, row.ouId).depth
      && row.ouName == if Blank(NodeOf(h, row.ouId).name) then row.ouId else Trim(NodeOf(h, row.ouId).name)
  {
    hide WellFormed, Has, TotalOf, RowsOfAll;
    var totals := Totals(items, parents, h);
    RootsAreNodes(h, totals);
    AllRowsAreOfNodes(h, totals, SortDescending(Kids(h, ""), totals), 0);
    assert RollupRows(items, parents, h)[i] == TreeRows(h, totals)[i];
    TrimMeans(NodeOf(h, RollupRows(items, parents, h)[i].ouId).name);
  }

  /** After the rows of OUs comes at most one, with what belongs to no OU of the hierarchy, if that is not zero. */
  lemma UnknownRowIsLast(items: seq<CostItem>, parents: Parents, h: seq<Node>)
    requires WellFormed(h)
    ensures var n := |TreeRows(h, Totals(items, parents, h))|;
      RollupRows(items, parents, h)[n..]
      == if UnknownOf(items, parents, h) == 0.0 then []
         else [Row("unknown", "(unknown)", 0, UnknownOf(items, parents, h))]
  {
    hide WellFormed, TreeRows, Totals, UnknownOf;
  }

  /** Depth-first order: each row is a root's, or its parent is above it with only deeper rows in
      between; siblings come in descending order, and no OU is listed twice. */
  lemma RollupIsOrdered(items: seq<CostItem>, parents: Parents, h: seq<Node>)
    requires WellFormed(h)
    ensures var rows := TreeRows(h, Totals(items, parents, h));
      PreOrder(h, rows, "") && SiblingsDescend(h, rows) && DistinctRows(rows)
  {
    hide WellFormed, Has, TotalOf, RowsOfAll, PreOrder, SiblingsDescend, DistinctRows, Siblings, Descending;
    var totals := Totals(items, parents, h);
    RootsAreNodes(h, totals);
    SortedKidsAreSiblings(h, totals, "");
    SortIsDescending(Kids(h, ""), totals);
    var roots := SortDescending(Kids(h, ""), totals);
    AllRowsArePreOrder(h, totals, roots, 0, "");
    AllRowsDescend(h, totals, roots, 0, "");
    AllRowsAreDistinct(h, totals, roots, 0, "");
  }

  // ------------------------------------------------------ which OUs are listed

  lemma {:induction false} NoTotalWithoutItems(items: seq<CostItem>, parents: Parents, h: seq<Node>, id: string)
    requires WellFormed(h) && Has(h, id) && forall i :: 0 <= i < |items| ==> items[i].amount >= 0.0
    ensures TotalOf(items, parents, h, id) >= 0.0
    ensures ParentOf(h, id) != "" ==> TotalOf(items, parents, h, id) <= TotalOf(items, parents, h, ParentOf(h, id))
  {
    hide WellFormed, Has, HomeOf;
    if items != [] {
      var front, last := items[..|items| - 1], items[|items| - 1];
      NoTotalWithoutItems(front, parents, h, id);
      if InSubtree(last, parents, h, id) && ParentOf(h, id) != "" {
        HomeIsKnown(last, parents, h);
        UnderParent(h, HomeOf(last, parents, h).value, id);
      }
    }
  }

  lemma {:induction false} ShownFromRoot(items: seq<CostItem>, parents: Parents, h: seq<Node>, id: string)
    returns (root: string)
    requires WellFormed(h) && Has(h, id) && forall i :: 0 <= i < |items| ==> items[i].amount >= 0.0
    requires TotalOf(items, parents, h, id) != 0.0
    ensures root in Kids(h, "") && ShownUnder(h, Totals(items, parents, h), id, root)
    decreases Pos(h, id)
  {
    hide WellFormed, Has, TotalOf;
    if ParentOf(h, id) == "" {
      KidsOf(h, "", id);
      root := id;
    } else {
      ParentIsEarlier(h, id);
      NoTotalWithoutItems(items, parents, h, id);
      root := ShownFromRoot(items, parents, h, ParentOf(h, id));
    }
  }

  /** When no amount is negative, exactly the OUs with a non-zero total are listed. */
  lemma RollupListsSpenders(items: seq<CostItem>, parents: Parents, h: seq<Node>, id: string)
    requires WellFormed(h) && Has(h, id) && forall i :: 0 <= i < |items| ==> items[i].amount >= 0.0
    ensures Lists(TreeRows(h, Totals(items, parents, h)), id) <==> TotalOf(items, parents, h, id) != 0.0
  {
    hide WellFormed, Has, TotalOf, RowsOfAll, Lists;
    var totals := Totals(items, parents, h);
    RootsAreNodes(h, totals);
    var roots := SortDescending(Kids(h, ""), totals);
    SortIsDescending(Kids(h, ""), totals);
    RowsOfAllList(h, totals, roots, 0, id);
    if TotalOf(items, parents, h, id) != 0.0 {
      var root := ShownFromRoot(items, parents, h, id);
    }
  }

  // ---------------------------------------------------- what the loops add up

  /** The cost recorded under an OU, whether or not the hierarchy has it. */
  ghost function RecordedUnder(items: seq<CostItem>, parents: Parents, id: string): real {
    if items == [] then 0.0
    else
      var last := items[|items| - 1];
      RecordedUnder(items[..|items| - 1], parents, id)
          + if RecordedOu(last, parents) == Some(id) then last.amount else 0.0
  }

  /** The cost recorded under no OU, or under one of those in a set. */
  ghost function RecordedOutside(items: seq<CostItem>, parents: Parents, removed: set<string>): real {
    if items == [] then 0.0
    else
      var last := items[|items| - 1];
      var ou := RecordedOu(last, parents);
      RecordedOutside(items[..|items| - 1], parents, removed)
          + if ou.None? || ou.value in removed then last.amount else 0.0
  }

  lemma {:induction false} RemoveOne(items: seq<CostItem>, parents: Parents, removed: set<string>, id: string)
    requires id !in removed
    ensures RecordedOutside(items, parents, removed + {id})
            == RecordedOutside(items, parents, removed) + RecordedUnder(items, parents, id)
  {
    if items != [] {
      RemoveOne(items[..|items| - 1], parents, removed, id);
    }
  }

  ghost predicate RecordedIn(items: seq<CostItem>, parents: Parents, ids: set<string>) {
    forall i :: 0 <= i < |items| ==> RecordedOu(items[i], parents).Some? ==> RecordedOu(items[i], parents).value in ids
  }

  /** Of the IDs looked at so far, exactly those that the hierarchy lacks are removed. */
  ghost predicate Sifted(h: seq<Node>, ids: set<string>, pending: set<string>, removed: set<string>) {
    forall id :: id in removed <==> id in ids && id !in pending && !Has(h, id)
  }

  lemma NothingSifted(h: seq<Node>, recorded: Amounts)
    ensures Sifted(h, recorded.Keys, recorded.Keys, {}) && recorded - {} == recorded
  {
  }

  lemma SiftStep(items: seq<CostItem>, parents: Parents, h: seq<Node>, recorded: Amounts, pending: set<string>,
                 removed: set<string>, id: string)
    requires Records(items, parents, recorded)
    requires Sifted(h, recorded.Keys, pending, removed) && id in pending && pending <= recorded.Keys
    ensures Sifted(h, recorded.Keys, pending - {id}, if Has(h, id) then removed else removed + {id})
    ensures id in recorded - removed && (recorded - removed) - {id} == recorded - (removed + {id})
    ensures RecordedOutside(items, parents, removed + {id})
            == RecordedOutside(items, parents, removed) + (recorded - removed)[id]
  {
    hide Has, RecordedUnder, RecordedOutside, RecordedIn;
    RemoveOne(items, parents, removed, id);
  }

  lemma {:induction false} AllRemoved(items: seq<CostItem>, parents: Parents, h: seq<Node>, ids: set<string>,
                                      removed: set<string>)
    requires RecordedIn(items, parents, ids) && Sifted(h, ids, {}, removed)
    ensures RecordedOutside(items, parents, removed) == UnknownOf(items, parents, h)
  {
    if items != [] {
      AllRemoved(items[..|items| - 1], parents, h, ids, removed);
    }
  }

  lemma {:induction false} RecordedIsDirect(items: seq<CostItem>, parents: Parents, h: seq<Node>, id: string)
    requires Has(h, id)
    ensures RecordedUnder(items, parents, id) == DirectOf(items, parents, h, id)
  {
    if items != [] {
      RecordedIsDirect(items[..|items| - 1], parents, h, id);
    }
  }

  /** An amount for each OU that some item names. */
  ghost predicate Records(done: seq<CostItem>, parents: Parents, direct: Amounts) {
    && RecordedIn(done, parents, direct.Keys)
    && (forall id :: RecordedUnder(done, parents, id) == if id in direct then direct[id] else 0.0)
  }

  lemma NothingRecorded(parents: Parents)
    ensures Records([], parents, map[]) && RecordedOutside([], parents, {}) == 0.0
  {
  }

  lemma RecordStep(items: seq<CostItem>, parents: Parents, direct: Amounts, i: nat)
    requires i < |items| && Records(items[..i], parents, direct)
    ensures match RecordedOu(items[i], parents)
            case None =>
              && Records(items[..i + 1], parents, direct)
              && RecordedOutside(items[..i + 1], parents, {})
                  == RecordedOutside(items[..i], parents, {}) + items[i].amount
            case Some(ou) =>
              && Records(items[..i + 1], parents,
                         direct[ou := (if ou in direct then direct[ou] else 0.0) + items[i].amount])
              && RecordedOutside(items[..i + 1], parents, {}) == RecordedOutside(items[..i], parents, {})
  {
    hide RecordedOu;
    assert items[..i + 1][..i] == items[..i];
    assert forall k :: 0 <= k < i ==> items[..i + 1][k] == items[..i][k];
  }

  lemma KeptIsDirect(items: seq<CostItem>, parents: Parents, h: seq<Node>, recorded: Amounts, removed: set<string>)
    requires Records(items, parents, recorded) && Sifted(h, recorded.Keys, {}, removed)
    ensures forall id :: Has(h, id) ==>
              DirectOf(items, parents, h, id) == if id in recorded - removed then (recorded - removed)[id] else 0.0
  {
    hide Has, RecordedUnder, DirectOf;
    forall id | Has(h, id)
      ensures DirectOf(items, parents, h, id) == if id in recorded - removed then (recorded - removed)[id] else 0.0
    {
      RecordedIsDirect(items, parents, h, id);
    }
  }

  // ---------------------------------------------------- the indexed hierarchy

  ghost predicate NodesIndexed(done: seq<Node>, byId: map<string, Node>) {
    && (forall id :: id in byId <==> Has(done, id))
    && (forall n :: n in done ==> n.id in byId && byId[n.id] == n)
  }

  ghost predicate KidsIndexed(done: seq<Node>, children: map<string, seq<string>>, roots: seq<string>) {
    && roots == Kids(done, "")
    && (forall p :: p != "" ==> Kids(done, p) == if p in children then children[p] else [])
    && "" !in children
  }

  lemma NothingIndexed()
    ensures NodesIndexed([], map[]) && KidsIndexed([], map[], [])
  {
  }

  lemma PrefixStep(h: seq<Node>, i: nat)
    requires i < |h|
    ensures h[..i + 1] == h[..i] + [h[i]]
  {
  }

  lemma NewId(h: seq<Node>, i: nat, id: string)
    requires WellFormed(h) && i < |h| && Has(h[..i], id)
    ensures id != h[i].id
  {
    var j :| 0 <= j < i && h[..i][j].id == id;
    assert h[j].id == id;
  }

  lemma NodesIndexedStep(h: seq<Node>, i: nat, byId: map<string, Node>)
    requires WellFormed(h) && i < |h| && NodesIndexed(h[..i], byId)
    ensures NodesIndexed(h[..i] + [h[i]], byId[h[i].id := h[i]])
  {
    hide WellFormed, Has;
    var done, n := h[..i], h[i];
    var updated := byId[n.id := n];
    forall id
      ensures id in updated <==> Has(done + [n], id)
    {
      HasSnoc(done, n, id);
    }
    forall m | m in done + [n]
      ensures m.id in updated && updated[m.id] == m
    {
      if m in done {
        NewId(h, i, m.id);
      }
    }
  }

  lemma KidsSnoc(done: seq<Node>, n: Node, p: string)
    ensures Kids(done + [n], p) == Kids(done, p) + if n.parentId == p then [n.id] else []
  {
    assert (done + [n])[..|done|] == done;
  }

  lemma KidsIndexedStep(done: seq<Node>, n: Node, children: map<string, seq<string>>, roots: seq<string>)
    requires KidsIndexed(done, children, roots)
    ensures n.parentId == "" ==> KidsIndexed(done + [n], children, roots + [n.id])
    ensures n.parentId != "" ==>
              var siblings := if n.parentId in children then children[n.parentId] else [];
              KidsIndexed(done + [n], children[n.parentId := siblings + [n.id]], roots)
  {
    hide Kids;
    KidsSnoc(done, n, "");
    forall p
      ensures Kids(done + [n], p) == Kids(done, p) + if n.parentId == p then [n.id] else []
    {
      KidsSnoc(done, n, p);
    }
  }

  lemma ParentIsTrimmed(h: seq<Node>, i: nat)
    requires WellFormed(h) && i < |h|
    ensures Trim(h[i].parentId) == h[i].parentId
  {
    hide Trim, Trimmed;
    if h[i].parentId != "" {
      assert ParentBefore(h, i);
      TrimIsProjection(h[i].parentId);
    } else {
      TrimOfNothing();
    }
  }

  lemma TrimOfNothing()
    ensures Trim("") == ""
  {
  }

  lemma HasSnoc(h: seq<Node>, n: Node, id: string)
    ensures Has(h + [n], id) <==> Has(h, id) || id == n.id
  {
    if Has(h, id) {
      var i :| 0 <= i < |h| && h[i].id == id;
      assert (h + [n])[i].id == id;
    }
    if id == n.id {
      assert (h + [n])[|h|].id == id;
    }
  }

  ghost predicate AllIn(ids: seq<string>, amounts: Amounts) {
    forall id :: id in ids ==> id in amounts
  }

  lemma ChildrenAreNodes(h: seq<Node>, amounts: Amounts, children: map<string, seq<string>>, roots: seq<string>)
    requires Complete(h, amounts) && KidsIndexed(h, children, roots)
    ensures forall p :: p in children ==> AllIn(children[p], amounts)
  {
    hide WellFormed, Has, Kids;
    forall p, k | p in children && k in children[p]
      ensures k in amounts
    {
      KidsOf(h, p, k);
    }
  }

  lemma IndexedRoots(h: seq<Node>, children: map<string, seq<string>>, roots: seq<string>)
    requires KidsIndexed(h, children, roots)
    ensures roots == Kids(h, "")
  {
    hide Kids;
  }

  lemma SortedListsServe(h: seq<Node>, amounts: Amounts, unsorted: map<string, seq<string>>,
                         children: map<string, seq<string>>, roots: seq<string>)
    requires Complete(h, amounts) && KidsIndexed(h, unsorted, roots) && children.Keys == unsorted.Keys
    requires forall p :: p in unsorted ==>
              AllIn(unsorted[p], amounts) && children[p] == SortDescending(unsorted[p], amounts)
    ensures forall id :: Has(h, id) ==> SortedKids(h, amounts, id) == if id in children then children[id] else []
  {
    hide WellFormed, Has, Kids;
    forall id | Has(h, id)
      ensures SortedKids(h, amounts, id) == if id in children then children[id] else []
    {
      KidsAreLater(h, id);
      SortedKidsAreLater(h, amounts, id);
    }
  }

  lemma KnownById(h: seq<Node>, byId: map<string, Node>, id: string)
    requires NodesIndexed(h, byId)
    ensures id in byId <==> Has(h, id)
  {
    hide Has;
  }

  /** What the recursion over the tree needs: direct amounts and child lists. */
  ghost predicate Ready(items: seq<CostItem>, parents: Parents, h: seq<Node>, direct: Amounts,
                        children: map<string, seq<string>>) {
    && WellFormed(h)
    && (forall id :: Has(h, id) ==> DirectOf(items, parents, h, id) == if id in direct then direct[id] else 0.0)
    && (forall p :: p != "" ==> Kids(h, p) == if p in children then children[p] else [])
  }

  lemma AllSifted(items: seq<CostItem>, parents: Parents, h: seq<Node>, recorded: Amounts, removed: set<string>,
                  children: map<string, seq<string>>, roots: seq<string>)
    requires WellFormed(h) && KidsIndexed(h, children, roots)
    requires Records(items, parents, recorded) && Sifted(h, recorded.Keys, {}, removed)
    ensures RecordedOutside(items, parents, removed) == UnknownOf(items, parents, h)
    ensures Ready(items, parents, h, recorded - removed, children)
  {
    hide WellFormed, Has, Kids, RecordedUnder, RecordedOutside, RecordedIn, UnknownOf, DirectOf, Sifted;
    AllRemoved(items, parents, h, recorded.Keys, removed);
    KeptIsDirect(items, parents, h, recorded, removed);
  }

  lemma NodeById(h: seq<Node>, byId: map<string, Node>, id: string)
    requires NodesIndexed(h, byId) && Has(h, id)
    ensures id in byId && byId[id] == NodeOf(h, id)
  {
    hide Has;
  }

  // ------------------------------------------------------ one step of each loop

  lemma SumTotalsStep(items: seq<CostItem>, parents: Parents, h: seq<Node>, ids: seq<string>, k: nat)
    requires WellFormed(h) && k < |ids|
    ensures SumTotals(items, parents, h, ids[..k + 1])
            == SumTotals(items, parents, h, ids[..k]) + TotalOf(items, parents, h, ids[k])
  {
    hide WellFormed, TotalOf;
    assert ids[..k + 1][..k] == ids[..k];
  }

  lemma NoIds(items: seq<CostItem>, parents: Parents, h: seq<Node>, ids: seq<string>)
    requires WellFormed(h)
    ensures SumTotals(items, parents, h, ids[..0]) == 0.0 && ids[..|ids|] == ids
  {
  }

  lemma RowsOfAllStep(h: seq<Node>, amounts: Amounts, ids: seq<string>, floor: nat, k: nat)
    requires Complete(h, amounts) && AtOrAfter(h, ids, floor) && k < |ids|
    ensures AtOrAfter(h, ids[..k], floor) && AtOrAfter(h, ids[..k + 1], floor) && Has(h, ids[k])
    ensures Pos(h, ids[k]) >= floor
    ensures RowsOfAll(h, amounts, ids[..k + 1], floor)
            == RowsOfAll(h, amounts, ids[..k], floor) + Rows(h, amounts, ids[k])
  {
    hide WellFormed, Has, Rows;
    assert ids[..k + 1][..k] == ids[..k];
  }

  lemma RowsEquation(h: seq<Node>, amounts: Amounts, id: string)
    requires Complete(h, amounts) && Has(h, id)
    ensures id in amounts
    ensures amounts[id] == 0.0 ==> Rows(h, amounts, id) == []
    ensures amounts[id] != 0.0 ==>
              Rows(h, amounts, id)
                  == [RowOf(NodeOf(h, id), amounts[id])]
                  + RowsOfAll(h, amounts, SortedKids(h, amounts, id), Pos(h, id) + 1)
  {
    hide WellFormed, Has, RowsOfAll, SortedKids;
  }

  lemma NoRowsYet(h: seq<Node>, amounts: Amounts, ids: seq<string>, floor: nat)
    requires Complete(h, amounts) && AtOrAfter(h, ids, floor)
    ensures AtOrAfter(h, ids[..0], floor) && RowsOfAll(h, amounts, ids[..0], floor) == []
    ensures ids[..|ids|] == ids
  {
    hide WellFormed, Has, Rows;
  }

  lemma TotalsAreUnique(items: seq<CostItem>, parents: Parents, h: seq<Node>, amounts: Amounts)
    requires WellFormed(h) && forall i :: 0 <= i < |h| ==> h[i].id in amounts
    requires forall id :: id in amounts ==> Has(h, id) && amounts[id] == TotalOf(items, parents, h, id)
    ensures amounts == Totals(items, parents, h)
  {
    hide WellFormed, TotalOf;
    var totals := Totals(items, parents, h);
    forall id
      ensures id in amounts <==> id in totals
    {
      if Has(h, id) {
        assert h[Pos(h, id)].id in amounts;
      }
    }
  }

  // ------------------------------------------------------------ the algorithm

  /** The variables that the rollup's closures share. */
  class Rollup {
    ghost const items: seq<CostItem>
    ghost const parents: Parents
    ghost const h: seq<Node>
    var direct: Amounts
    var unknownAmount: real
    var byId: map<string, Node>
    var children: map<string, seq<string>>
    var roots: seq<string>
    var subtree: Amounts
    var out: seq<Row>

    constructor (ghost items: seq<CostItem>, ghost parents: Parents, ghost h: seq<Node>)
      ensures this.items == items && this.parents == parents && this.h == h
      ensures direct == map[] && unknownAmount == 0.0 && byId == map[] && children == map[] && roots == []
      ensures subtree == map[] && out == []
    {
      this.items, this.parents, this.h := items, parents, h;
      direct, unknownAmount, byId, children, roots, subtree, out := map[], 0.0, map[], map[], [], map[], [];
    }

    method Attribute(breakdown: seq<CostItem>, parentMap: Parents)
      requires breakdown == items && parentMap == parents && direct == map[] && unknownAmount == 0.0
      modifies this`direct, this`unknownAmount
      ensures Records(items, parents, direct)
      ensures unknownAmount == RecordedOutside(items, parents, {})
    {
      hide Records, RecordedOutside, Trim;
      NothingRecorded(parents);
      assert items[..0] == [];
      for i := 0 to |breakdown|
        invariant Records(items[..i], parents, direct)
        invariant unknownAmount == RecordedOutside(items[..i], parents, {})
      {
        RecordStep(items, parents, direct, i);
        var item := breakdown[i];
        var account := Trim(item.account);
        if account !in parentMap || Trim(parentMap[account].id) == "" {
          unknownAmount := unknownAmount + item.amount;
        } else {
          var ou := Trim(parentMap[account].id);
          direct := direct[ou := (if ou in direct then direct[ou] else 0.0) + item.amount];
        }
      }
      assert items[..|items|] == items;
    }

    ghost predicate Indexed()
      reads this`byId, this`children, this`roots
    {
      NodesIndexed(h, byId) && KidsIndexed(h, children, roots)
    }

    method Index(hierarchy: seq<Node>)
      requires hierarchy == h && WellFormed(h) && byId == map[] && children == map[] && roots == []
      modifies this`byId, this`children, this`roots
      ensures Indexed()
    {
      hide WellFormed, Has, Trim, Kids, NodesIndexed, KidsIndexed;
      NothingIndexed();
      assert h[..0] == [];
      for i := 0 to |hierarchy|
        invariant NodesIndexed(h[..i], byId) && KidsIndexed(h[..i], children, roots)
      {
        var n := hierarchy[i];
        PrefixStep(h, i);
        NodesIndexedStep(h, i, byId);
        KidsIndexedStep(h[..i], n, children, roots);
        ParentIsTrimmed(h, i);
        byId := byId[n.id := n];
        var pid := Trim(n.parentId);
        if pid == "" {
          roots := roots + [n.id];
        } else {
          children := children[pid := (if pid in children then children[pid] else []) + [n.id]];
        }
      }
      assert h[..|h|] == h;
    }

    /** Cost of OUs that the hierarchy does not have goes to the unknown row, in any order. */
    method FoldMissing()
      requires WellFormed(h) && Records(items, parents, direct) && Indexed()
      requires unknownAmount == RecordedOutside(items, parents, {})
      modifies this`direct, this`unknownAmount
      ensures unknownAmount == UnknownOf(items, parents, h) && Ready(items, parents, h, direct, children)
    {
      hide WellFormed, NodesIndexed, KidsIndexed, Records, RecordedOutside, UnknownOf, Sifted, Ready;
      NothingSifted(h, direct);
      ghost var all := direct;
      ghost var removed: set<string> := {};
      var keys := direct.Keys;
      while keys != {}
        invariant keys <= all.Keys && direct == all - removed
        invariant Sifted(h, all.Keys, keys, removed)
        invariant unknownAmount == RecordedOutside(items, parents, removed)
        decreases |keys|
      {
        var ouId :| ouId in keys;
        SiftStep(items, parents, h, all, keys, removed, ouId);
        KnownById(h, byId, ouId);
        keys := keys - {ouId};
        if ouId !in byId {
          unknownAmount := unknownAmount + direct[ouId];
          direct := direct - {ouId};
          removed := removed + {ouId};
        }
      }
      AllSifted(items, parents, h, all, removed, children, roots);
    }

    /** Memoised totals are right, whatever has been computed so far. */
    ghost predicate MemoIsSound()
      requires WellFormed(h)
      reads this`subtree
    {
      forall id :: id in subtree ==> Has(h, id) && subtree[id] == TotalOf(items, parents, h, id)
    }

    method Compute(id: string) returns (sum: real)
      requires Ready(items, parents, h, direct, children) && MemoIsSound() && Has(h, id)
      modifies this`subtree
      ensures MemoIsSound() && old(subtree).Keys <= subtree.Keys && id in subtree
      ensures sum == TotalOf(items, parents, h, id)
      decreases |h| - Pos(h, id)
    {
      hide WellFormed, Has, Kids, TotalOf, DirectOf, SumTotals;
      if id in subtree {
        return subtree[id];
      }
      KidsAreLater(h, id);
      sum := if id in direct then direct[id] else 0.0;
      var kids := if id in children then children[id] else [];
      NoIds(items, parents, h, kids);
      for k := 0 to |kids|
        invariant MemoIsSound() && old(subtree).Keys <= subtree.Keys
        invariant sum == DirectOf(items, parents, h, id) + SumTotals(items, parents, h, kids[..k])
      {
        SumTotalsStep(items, parents, h, kids, k);
        var child := Compute(kids[k]);
        sum := sum + child;
      }
      assert kids[..|kids|] == kids;
      TotalSplits(items, parents, h, id);
      subtree := subtree[id := sum];
    }

    method ComputeAll(hierarchy: seq<Node>)
      requires hierarchy == h && Ready(items, parents, h, direct, children) && subtree == map[]
      modifies this`subtree
      ensures Complete(h, subtree) && subtree == Totals(items, parents, h)
    {
      hide WellFormed, Kids, TotalOf, DirectOf, Totals;
      for i := 0 to |hierarchy|
        invariant MemoIsSound()
        invariant forall j :: 0 <= j < i ==> h[j].id in subtree
      {
        var total := Compute(hierarchy[i].id);
      }
      TotalsAreUnique(items, parents, h, subtree);
    }

    ghost predicate SortedChildren()
      requires Complete(h, subtree)
      reads this`children, this`subtree
    {
      forall id :: Has(h, id) ==> SortedKids(h, subtree, id) == if id in children then children[id] else []
    }

    ghost predicate SortedRoots()
      requires Complete(h, subtree)
      reads this`roots, this`subtree
    {
      AllIn(Kids(h, ""), subtree) && roots == SortDescending(Kids(h, ""), subtree)
    }

    /** Child lists are sorted one by one, in any order. */
    method SortSiblings()
      requires Complete(h, subtree) && Indexed()
      modifies this`children, this`roots
      ensures SortedChildren() && SortedRoots() && NodesIndexed(h, byId)
    {
      hide WellFormed, Has, Kids, KidsIndexed, Complete, SortDescending, NodesIndexed;
      ghost var unsorted := children;
      ChildrenAreNodes(h, subtree, children, roots);
      var pids := children.Keys;
      while pids != {}
        invariant pids <= children.Keys == unsorted.Keys && roots == old(roots)
        invariant forall p :: p in pids ==> children[p] == unsorted[p]
        invariant forall p :: p in unsorted && p !in pids ==> children[p] == SortDescending(unsorted[p], subtree)
        decreases |pids|
      {
        var pid :| pid in pids;
        pids := pids - {pid};
        assert AllIn(children[pid], subtree);
        children := children[pid := SortDescending(children[pid], subtree)];
      }
      RootsAreNodes(h, subtree);
      IndexedRoots(h, unsorted, roots);
      roots := SortDescending(roots, subtree);
      SortedListsServe(h, subtree, unsorted, children, old(roots));
    }

    method Emit(id: string)
      requires Complete(h, subtree) && SortedChildren() && NodesIndexed(h, byId) && Has(h, id)
      modifies this`out
      ensures out == old(out) + Rows(h, subtree, id)
      decreases |h| - Pos(h, id)
    {
      hide WellFormed, Has, Complete, Rows, RowsOfAll, AtOrAfter, SortedKids, SortedChildren, Trim, NodesIndexed;
      RowsEquation(h, subtree, id);
      var amount := subtree[id];
      if amount == 0.0 {
        return;
      }
      NodeById(h, byId, id);
      var n := byId[id];
      var name := Trim(n.name);
      if name == "" {
        name := n.id;
      }
      out := out + [Row(n.id, name, n.depth, amount)];
      KidsToEmit(id);
      var kids := if id in children then children[id] else [];
      ghost var floor := Pos(h, id) + 1;
      ghost var above := out;
      NoRowsYet(h, subtree, kids, floor);
      for k := 0 to |kids|
        invariant AtOrAfter(h, kids[..k], floor)
        invariant out == above + RowsOfAll(h, subtree, kids[..k], floor)
      {
        RowsOfAllStep(h, subtree, kids, floor, k);
        Emit(kids[k]);
      }
    }

    lemma KidsToEmit(id: string)
      requires Complete(h, subtree) && SortedChildren() && Has(h, id)
      ensures SortedKids(h, subtree, id) == if id in children then children[id] else []
    {
      hide WellFormed, Has, SortedKids;
    }

    method EmitAll()
      requires Complete(h, subtree) && SortedChildren() && SortedRoots() && NodesIndexed(h, byId) && out == []
      modifies this`out
      ensures out == TreeRows(h, subtree)
    {
      hide WellFormed, Has, RowsOfAll, Rows, NodesIndexed, SortedChildren;
      RootsAreNodes(h, subtree);
      NoRowsYet(h, subtree, roots, 0);
      for k := 0 to |roots|
        invariant AtOrAfter(h, roots[..k], 0)
        invariant out == RowsOfAll(h, subtree, roots[..k], 0)
      {
        RowsOfAllStep(h, subtree, roots, 0, k);
        Emit(roots[k]);
      }
    }
  }

  /** RollupBreakdownByOUTree. */
  method RollupByOuTree(breakdown: seq<CostItem>, parents: Parents, hierarchy: seq<Node>) returns (rows: seq<Row>)
    requires WellFormed(hierarchy)
    ensures rows == if breakdown == [] then [] else RollupRows(breakdown, parents, hierarchy)
    ensures DepthSum(rows, 0) == Sum(breakdown)
  {
    hide WellFormed, Has, Complete, Kids, TreeRows, Totals, UnknownOf, RecordedUnder, RecordedOutside, Records,
      Rollup.Indexed, Ready, Rollup.SortedChildren, Rollup.SortedRoots, NodesIndexed;
    if breakdown == [] {
      return [];
    }
    var r := new Rollup(breakdown, parents, hierarchy);
    r.Attribute(breakdown, parents);
    r.Index(hierarchy);
    r.FoldMissing();
    r.ComputeAll(hierarchy);
    r.SortSiblings();
    r.EmitAll();
    rows := r.out;
    if r.unknownAmount != 0.0 {
      rows := rows + [Row(UNKNOWN_ID, UNKNOWN_NAME, 0, r.unknownAmount)];
    }
    RollupConserves(breakdown, parents, hierarchy);
  }
}
