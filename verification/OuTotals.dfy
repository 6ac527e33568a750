/** What the cost of an account contributes to each OU of a hierarchy, and why subtree totals
    split into the children's totals and add up to the input. */
module OuTotals {
  import opened Text
  import opened Wrappers
  import opened Hierarchy

  datatype CostItem = CostItem(account: string, amount: real)
  datatype Bucket = Bucket(id: string, name: string)
  type Parents = map<string, Bucket>

  function Sum(items: seq<CostItem>): real {
    if items == [] then 0.0 else Sum(items[..|items| - 1]) + items[|items| - 1].amount
  }

  // ------------------------------------------------------- what is attributed

  /** The OU an account's cost is recorded under, if its parent map names one. */
  function RecordedOu(item: CostItem, parents: Parents): Option<string> {
    var account := Trim(item.account);
    if account in parents && Trim(parents[account].id) != "" then Some(Trim(parents[account].id)) else None
  }

  /** The OU of the hierarchy that an item belongs to directly. */
  function HomeOf(item: CostItem, parents: Parents, h: seq<Node>): Option<string> {
    var ou := RecordedOu(item, parents);
    if ou.Some? && Has(h, ou.value) then ou else None
  }

  /** That is the OU of the hierarchy whose ID the parent map gives, both IDs trimmed. */
  lemma HomeMeans(item: CostItem, parents: Parents, h: seq<Node>, id: string)
    requires WellFormed(h)
    ensures HomeOf(item, parents, h) == Some(id)
            <==> Trim(item.account) in parents && Trim(parents[Trim(item.account)].id) == id && Has(h, id)
  {
    hide Trim;
    if Has(h, id) {
      var i :| 0 <= i < |h| && h[i].id == id;
    }
  }

  ghost predicate InSubtree(item: CostItem, parents: Parents, h: seq<Node>, id: string)
    requires WellFormed(h)
  {
    var home := HomeOf(item, parents, h);
    home.Some? && Under(h, home.value, id)
  }

  /** The cost of all items whose chain of parents passes through an OU. */
  ghost function TotalOf(items: seq<CostItem>, parents: Parents, h: seq<Node>, id: string): real
    requires WellFormed(h)
  {
    if items == [] then 0.0
    else
      var last := items[|items| - 1];
      TotalOf(items[..|items| - 1], parents, h, id) + if InSubtree(last, parents, h, id) then last.amount else 0.0
  }

  ghost function DirectOf(items: seq<CostItem>, parents: Parents, h: seq<Node>, id: string): real {
    if items == [] then 0.0
    else
      var last := items[|items| - 1];
      DirectOf(items[..|items| - 1], parents, h, id) + if HomeOf(last, parents, h) == Some(id) then last.amount else 0.0
  }

  ghost function UnknownOf(items: seq<CostItem>, parents: Parents, h: seq<Node>): real {
    if items == [] then 0.0
    else
      var last := items[|items| - 1];
      UnknownOf(items[..|items| - 1], parents, h) + if HomeOf(last, parents, h).None? then last.amount else 0.0
  }

  ghost function SumTotals(items: seq<CostItem>, parents: Parents, h: seq<Node>, ids: seq<string>): real
    requires WellFormed(h)
  {
    if ids == [] then 0.0
    else SumTotals(items, parents, h, ids[..|ids| - 1]) + TotalOf(items, parents, h, ids[|ids| - 1])
  }

  // ------------------------------------------------------------ conservation

  ghost function Shares(item: CostItem, parents: Parents, h: seq<Node>, ids: seq<string>): real
    requires WellFormed(h)
  {
    if ids == [] then 0.0
    else
      Shares(item, parents, h, ids[..|ids| - 1])
      + if InSubtree(item, parents, h, ids[|ids| - 1]) then item.amount else 0.0
  }

  lemma {:induction false} NoShare(item: CostItem, parents: Parents, h: seq<Node>, ids: seq<string>)
    requires WellFormed(h) && forall id :: id in ids ==> !InSubtree(item, parents, h, id)
    ensures Shares(item, parents, h, ids) == 0.0
  {
    if ids != [] {
      NoShare(item, parents, h, ids[..|ids| - 1]);
    }
  }

  lemma {:induction false} OneShare(item: CostItem, parents: Parents, h: seq<Node>, ids: seq<string>, c: string)
    requires WellFormed(h) && c in ids && InSubtree(item, parents, h, c)
    requires forall id :: id in ids && id != c ==> !InSubtree(item, parents, h, id)
    requires forall i, j :: 0 <= i < j < |ids| ==> ids[i] != ids[j]
    ensures Shares(item, parents, h, ids) == item.amount
  {
    hide InSubtree;
    var front := ids[..|ids| - 1];
    if ids[|ids| - 1] == c {
      NoShare(item, parents, h, front);
    } else {
      OneShare(item, parents, h, front, c);
    }
  }

  lemma {:induction false} SumTotalsSnoc(items: seq<CostItem>, parents: Parents, h: seq<Node>, ids: seq<string>)
    requires WellFormed(h) && items != []
    ensures SumTotals(items, parents, h, ids)
         == SumTotals(items[..|items| - 1], parents, h, ids) + Shares(items[|items| - 1], parents, h, ids)
  {
    hide InSubtree;
    if ids != [] {
      SumTotalsSnoc(items, parents, h, ids[..|ids| - 1]);
    }
  }

  /** An item in the subtree of an OU is its own, or in the subtree of exactly one child. */
  lemma ShareSplits(item: CostItem, parents: Parents, h: seq<Node>, id: string)
    requires WellFormed(h) && Has(h, id) && CleanId(id)
    ensures (if InSubtree(item, parents, h, id) then item.amount else 0.0)
         == (if HomeOf(item, parents, h) == Some(id) then item.amount else 0.0) + Shares(item, parents, h, Kids(h, id))
  {
    hide HomeOf;
    var home := HomeOf(item, parents, h);
    if InSubtree(item, parents, h, id) && home != Some(id) {
      var c := ChildTowards(h, home.value, id);
      KidsOf(h, id, c);
      KidsAreDistinct(h, id);
      forall k | k in Kids(h, id) && k != c
        ensures !InSubtree(item, parents, h, k)
      {
        KidsOf(h, id, k);
        ParentIsEarlier(h, k);
        ParentIsEarlier(h, c);
        if Under(h, home.value, k) {
          OneAncestorPerDepth(h, home.value, c, k);
        }
      }
      OneShare(item, parents, h, Kids(h, id), c);
    } else {
      forall k | k in Kids(h, id)
        ensures !InSubtree(item, parents, h, k)
      {
        KidsOf(h, id, k);
        if home.Some? && Under(h, home.value, k) {
          UnderParent(h, home.value, k);
        }
      }
      NoShare(item, parents, h, Kids(h, id));
    }
  }

  /** A subtree's total is what is recorded at its top plus the totals of the children. */
  lemma {:induction false} TotalSplits(items: seq<CostItem>, parents: Parents, h: seq<Node>, id: string)
    requires WellFormed(h) && Has(h, id) && CleanId(id)
    ensures TotalOf(items, parents, h, id)
         == DirectOf(items, parents, h, id) + SumTotals(items, parents, h, Kids(h, id))
  {
    hide InSubtree, HomeOf;
    if items == [] {
      NoTotals(parents, h, Kids(h, id));
    } else {
      TotalSplits(items[..|items| - 1], parents, h, id);
      ShareSplits(items[|items| - 1], parents, h, id);
      SumTotalsSnoc(items, parents, h, Kids(h, id));
    }
  }

  lemma {:induction false} NoTotals(parents: Parents, h: seq<Node>, ids: seq<string>)
    requires WellFormed(h)
    ensures SumTotals([], parents, h, ids) == 0.0
  {
    if ids != [] {
      NoTotals(parents, h, ids[..|ids| - 1]);
    }
  }

  lemma RootShare(item: CostItem, parents: Parents, h: seq<Node>)
    requires WellFormed(h)
    ensures Shares(item, parents, h, Kids(h, "")) == if HomeOf(item, parents, h).Some? then item.amount else 0.0
  {
    hide HomeOf;
    var home := HomeOf(item, parents, h);
    if home.None? {
      NoShare(item, parents, h, Kids(h, ""));
    } else {
      HomeIsKnown(item, parents, h);
      var root := HasRoot(h, home.value);
      KidsOf(h, "", root);
      KidsAreDistinct(h, "");
      forall k | k in Kids(h, "") && k != root
        ensures !InSubtree(item, parents, h, k)
      {
        KidsOf(h, "", k);
        RootIsAtDepthZero(h, k);
        RootIsAtDepthZero(h, root);
        if Under(h, home.value, k) {
          OneAncestorPerDepth(h, home.value, root, k);
        }
      }
      OneShare(item, parents, h, Kids(h, ""), root);
    }
  }

  lemma HomeIsKnown(item: CostItem, parents: Parents, h: seq<Node>)
    ensures HomeOf(item, parents, h).Some? ==> Has(h, HomeOf(item, parents, h).value)
  {
  }

  /** The totals of the roots and the unattributed cost add up to the input. */
  lemma {:induction false} RootsAndUnknownConserve(items: seq<CostItem>, parents: Parents, h: seq<Node>)
    requires WellFormed(h)
    ensures SumTotals(items, parents, h, Kids(h, "")) + UnknownOf(items, parents, h) == Sum(items)
  {
    hide InSubtree, HomeOf;
    if items == [] {
      NoTotals(parents, h, Kids(h, ""));
    } else {
      RootsAndUnknownConserve(items[..|items| - 1], parents, h);
      SumTotalsSnoc(items, parents, h, Kids(h, ""));
      RootShare(items[|items| - 1], parents, h);
    }
  }
}
