/** Fetching costs: per account or in bulk for each payer, merging the results, and rolling up by OU
    once at the end. */
module CostFetch {
  import opened Text
  import opened Wrappers
  import opened Charges
  import opened CostExplorer
  import opened BulkFetch
  import opened Tasks
  import Hierarchy
  import OuTotals
  import OuRows
  import OuRollup

  datatype GroupBy = ByNone | ByService | ByAccount | ByOu

  datatype CostResult = CostResult(groupBy: GroupBy, amount: real, breakdown: seq<Item>, ouRows: seq<OuRows.Row>)

  datatype FetchError = NothingToMerge | DifferentGroupBy | NoAccounts

  /** The dimension that a grouping asks Cost Explorer for; an OU rollup starts from accounts. */
  function DimensionOf(groupBy: GroupBy): Dimension {
    if groupBy.ByService? then Service else LinkedAccount
  }

  /** A result with a total, and with a breakdown unless none was asked for. */
  ghost predicate Shows(r: CostResult, groupBy: GroupBy, items: seq<Item>) {
    && r.groupBy == groupBy && r.amount == SumAll(items)
    && if groupBy.ByNone? then r.breakdown == [] else SameCharges(r.breakdown, items)
  }

  // ----------------------------------------------------------------- merging

  function Amounts(results: seq<CostResult>): real {
    if results == [] then 0.0 else Amounts(results[..|results| - 1]) + results[|results| - 1].amount
  }

  function Breakdowns(results: seq<CostResult>): seq<Item> {
    if results == [] then [] else Breakdowns(results[..|results| - 1]) + results[|results| - 1].breakdown
  }

  predicate Mergeable(results: seq<CostResult>) {
    results != [] && forall i :: 0 <= i < |results| ==> results[i].groupBy == results[0].groupBy
  }

  /** MergeResults, for results of one currency and period: a single result is kept as it is, several
      are added up key by key. */
  method MergeResults(results: seq<CostResult>) returns (r: Result<CostResult, FetchError>)
    ensures results == [] ==> r == Err(NothingToMerge)
    ensures |results| == 1 ==> r == Ok(results[0])
    ensures |results| > 1 && !Mergeable(results) ==> r == Err(DifferentGroupBy)
    ensures |results| > 1 && Mergeable(results) ==>
              && r.Ok? && r.value.groupBy == results[0].groupBy && r.value.amount == Amounts(results)
                && r.value.ouRows == []
              && Compact(r.value.breakdown) && LargestFirst(r.value.breakdown)
              && SameCharges(r.value.breakdown, Breakdowns(results))
  {
    hide Tallies, Compact, LargestFirst, SameCharges, Amounts, Breakdowns, AddTo;
    if |results| == 0 {
      return Err(NothingToMerge);
    }
    if |results| == 1 {
      return Ok(results[0]);
    }
    var amount := 0.0;
    var byKey: map<string, real> := map[];
    NoTally();
    NothingMerged(results);
    for n := 0 to |results|
      invariant forall i :: 0 <= i < n ==> results[i].groupBy == results[0].groupBy
      invariant amount == Amounts(results[..n]) && Tallies(byKey, Breakdowns(results[..n]))
    {
      if results[n].groupBy != results[0].groupBy {
        return Err(DifferentGroupBy);
      }
      MergeStep(results, n);
      amount := amount + results[n].amount;
      byKey := TallyMore(byKey, Breakdowns(results[..n]), results[n].breakdown);
    }
    var breakdown, total := RankTally(byKey, Breakdowns(results));
    return Ok(CostResult(results[0].groupBy, amount, breakdown, []));
  }

  lemma NothingMerged(results: seq<CostResult>)
    ensures Amounts(results[..0]) == 0.0 && Breakdowns(results[..0]) == [] && results[..|results|] == results
  {
  }

  lemma MergeStep(results: seq<CostResult>, n: nat)
    requires n < |results|
    ensures Amounts(results[..n + 1]) == Amounts(results[..n]) + results[n].amount
    ensures Breakdowns(results[..n + 1]) == Breakdowns(results[..n]) + results[n].breakdown
  {
    assert results[..n + 1][..n] == results[..n];
  }

  method TallyMore(before: map<string, real>, ghost items: seq<Item>, more: seq<Item>)
    returns (byKey: map<string, real>)
    requires Tallies(before, items)
    ensures Tallies(byKey, items + more)
  {
    hide Tallies, AddTo;
    byKey := before;
    AppendNothing(items);
    assert more[..0] == [] && more[..|more|] == more;
    for i := 0 to |more|
      invariant Tallies(byKey, items + more[..i])
    {
      TallyStep(byKey, items + more[..i], more[i]);
      assert more[..i + 1] == more[..i] + [more[i]];
      AppendTwo(items, more[..i], [more[i]]);
      byKey := AddTo(byKey, more[i].key, more[i].amount);
    }
  }

  /** MergeDaily: a single series is kept as it is, several are added up day by day. */
  method MergeDaily(series: seq<seq<Item>>) returns (merged: seq<Item>)
    ensures SameCharges(merged, Flat(series))
    ensures |series| == 1 ==> merged == series[0]
    ensures |series| != 1 ==> Compact(merged) && ByDate(merged)
  {
    hide Tallies, Compact, ByDate, SameCharges, Flat;
    if |series| == 0 {
      NoSeries();
      return [];
    }
    if |series| == 1 {
      OneSeries(series);
      return series[0];
    }
    var byDate := TallyAll(series);
    merged := SeriesOf(byDate, Flat(series));
  }

  lemma NoSeries()
    ensures SameCharges([], Flat([])) && Compact([]) && ByDate([])
  {
  }

  lemma OneSeries(series: seq<seq<Item>>)
    requires |series| == 1
    ensures SameCharges(series[0], Flat(series))
  {
    assert series[..0] == [];
    assert Flat(series) == series[0];
  }

  // ------------------------------------------------------ one payer's targets

  /** What the targets of one payer are charged: in bulk when the plan allows it. */
  ghost function ChargesOf(ledger: Ledger, targets: seq<Target>, dim: Dimension): seq<Item> {
    if Plannable(targets) then Selected(ledger, Only(TrimmedIds(targets)), dim) else OneByOne(ledger, targets, dim)
  }

  /** fetchAWSNetAmortizedWith for one target; OU grouping is deferred by every caller. */
  method FetchOne(ce: Explorer, ghost ledger: Ledger, t: Target, groupBy: GroupBy) returns (r: CostResult)
    requires Serves(ce, ledger) && !groupBy.ByOu?
    ensures Shows(r, groupBy, Selected(ledger, ScopeOf(t), DimensionOf(groupBy)))
    ensures Compact(r.breakdown) && r.ouRows == []
    ensures t.scopeAccountOnly || (Trim(t.payerAccountId) != "" && Trim(t.payerAccountId) != Trim(t.accountId)) ==>
              r.amount == CostOf(ledger, Only({t.accountId}))
    ensures !t.scopeAccountOnly && (Trim(t.payerAccountId) == "" || Trim(t.payerAccountId) == Trim(t.accountId)) ==>
              r.amount == CostOf(ledger, Everything)
  {
    hide AnswersGrouped, AnswersDaily, Compact, LargestFirst, SameCharges, Selected, SumAll, Trim;
    var filter := LinkedAccountFilter(t.accountId, t.ScopeToAccount());
    TotalByAnyDimension(ledger, filter, DimensionOf(groupBy));
    if groupBy.ByNone? {
      var amount := SumCost(ce.daily(filter), ledger, filter);
      NothingCompact();
      return CostResult(groupBy, amount, [], []);
    }
    var amount, breakdown := SumGrouped(ce.grouped(filter, DimensionOf(groupBy)), ledger, filter, DimensionOf(groupBy));
    return CostResult(groupBy, amount, breakdown, []);
  }

  ghost predicate AllShow(results: seq<CostResult>, ledger: Ledger, targets: seq<Target>, groupBy: GroupBy) {
    && |results| == |targets|
    && forall i :: 0 <= i < |targets| ==>
         Shows(results[i], groupBy, Selected(ledger, ScopeOf(targets[i]), DimensionOf(groupBy)))
             && Compact(results[i].breakdown)
         && results[i].ouRows == []
  }

  /** The targets are fetched concurrently; results are stored at the target's index. */
  method FetchEach(ce: Explorer, ghost ledger: Ledger, targets: seq<Target>, groupBy: GroupBy)
    returns (results: seq<CostResult>)
    requires Serves(ce, ledger) && !groupBy.ByOu?
    ensures AllShow(results, ledger, targets, groupBy)
  {
    hide Indices, Serves, Shows, Compact;
    var slots := new CostResult[|targets|](i => CostResult(groupBy, 0.0, [], []));
    var running := Indices(|targets|);
    while running != {}
      invariant running <= Indices(|targets|)
      invariant forall i :: 0 <= i < |targets| && i !in running ==>
                  Shows(slots[i], groupBy, Selected(ledger, ScopeOf(targets[i]), DimensionOf(groupBy)))
                  && Compact(slots[i].breakdown) && slots[i].ouRows == []
      decreases |running|
    {
      var i :| i in running;
      running := running - {i};
      var r := FetchOne(ce, ledger, targets[i], groupBy);
      slots[i] := r;
    }
    results := slots[..];
  }

  lemma {:induction false} MergedCharges(results: seq<CostResult>, ledger: Ledger, targets: seq<Target>,
                                         groupBy: GroupBy)
    requires AllShow(results, ledger, targets, groupBy)
    ensures Amounts(results) == SumAll(OneByOne(ledger, targets, DimensionOf(groupBy)))
    ensures if groupBy.ByNone? then Breakdowns(results) == []
            else SameCharges(Breakdowns(results), OneByOne(ledger, targets, DimensionOf(groupBy)))
  {
    hide Selected, SameCharges, SumAll, Compact;
    var dim := DimensionOf(groupBy);
    if targets == [] {
      SelfCharges([]);
      NoTotal();
    } else {
      var n := |targets| - 1;
      MergedCharges(results[..n], ledger, targets[..n], groupBy);
      SumAppend(OneByOne(ledger, targets[..n], dim), Selected(ledger, ScopeOf(targets[n]), dim));
      assert Shows(results[n], groupBy, Selected(ledger, ScopeOf(targets[n]), dim));
      if !groupBy.ByNone? {
        AppendSameCharges(Breakdowns(results[..n]), OneByOne(ledger, targets[..n], dim),
                          results[n].breakdown, Selected(ledger, ScopeOf(targets[n]), dim));
      }
    }
  }

  // ------------------------------------------------------------- the OU rollup

  /** The OU data that the caller provides. */
  datatype OuData = OuData(buckets: OuTotals.Parents, hierarchy: seq<Hierarchy.Node>)

  function AccountCosts(items: seq<Item>): seq<OuTotals.CostItem> {
    if items == [] then []
    else
      AccountCosts(items[..|items| - 1]) + [OuTotals.CostItem(items[|items| - 1].key, items[|items| - 1].amount)]
  }

  lemma {:induction false} AccountCostsSum(items: seq<Item>)
    ensures OuTotals.Sum(AccountCosts(items)) == SumAll(items)
  {
    if items != [] {
      AccountCostsSum(items[..|items| - 1]);
      var front := AccountCosts(items[..|items| - 1]);
      var last := OuTotals.CostItem(items[|items| - 1].key, items[|items| - 1].amount);
      assert (front + [last])[..|front|] == front;
    }
  }

  method ToAccountCosts(items: seq<Item>) returns (costs: seq<OuTotals.CostItem>)
    ensures costs == AccountCosts(items)
  {
    costs := [];
    assert items[..0] == [] && items[..|items|] == items;
    for i := 0 to |items|
      invariant costs == AccountCosts(items[..i])
    {
      assert items[..i + 1][..i] == items[..i];
      costs := costs + [OuTotals.CostItem(items[i].key, items[i].amount)];
    }
  }

  const UNKNOWN := OuTotals.Bucket(OuRollup.UNKNOWN_ID, OuRollup.UNKNOWN_NAME)

  /** The bucket an account's cost goes to in the flat rollup. */
  function BucketOf(account: string, buckets: OuTotals.Parents): OuTotals.Bucket {
    var id := Trim(account);
    if id !in buckets || Trim(buckets[id].id) == "" then UNKNOWN else buckets[id]
  }

  /** The input, charged to OU IDs. */
  function ByBucket(items: seq<Item>, buckets: OuTotals.Parents): seq<Item> {
    if items == [] then []
    else
      var last := items[|items| - 1];
      ByBucket(items[..|items| - 1], buckets) + [Item(Trim(BucketOf(last.key, buckets).id), last.amount)]
  }

  lemma {:induction false} ByBucketSum(items: seq<Item>, buckets: OuTotals.Parents)
    ensures SumAll(ByBucket(items, buckets)) == SumAll(items)
  {
    hide Trim, BucketOf;
    if items != [] {
      var last := items[|items| - 1];
      ByBucketSum(items[..|items| - 1], buckets);
      OneItem(ByBucket(items[..|items| - 1], buckets), Item(Trim(BucketOf(last.key, buckets).id), last.amount), "");
    }
  }

  /** The first account whose cost goes to an OU ID names the OU: by its name, or for a blank one by its ID. */
  ghost predicate NamedAt(id: string, name: string, key: string, items: seq<Item>, buckets: OuTotals.Parents, k: nat) {
    && k < |items|
    && var bucket := BucketOf(items[k].key, buckets);
    && id == bucket.id && Trim(id) == key
    && name == (if Trim(bucket.name) == "" then bucket.id else Trim(bucket.name))
    && forall m :: 0 <= m < k ==> Trim(BucketOf(items[m].key, buckets).id) != key
  }

  ghost predicate NamedFirst(id: string, name: string, key: string, items: seq<Item>, buckets: OuTotals.Parents) {
    exists k: nat :: NamedAt(id, name, key, items, buckets, k)
  }

  /** One row per bucket: the rows of a breakdown by OU ID, named, at depth zero. */
  ghost predicate FlatRows(rows: seq<OuRows.Row>, ranked: seq<Item>, items: seq<Item>, buckets: OuTotals.Parents) {
    && |rows| == |ranked|
    && forall i :: 0 <= i < |rows| ==>
         && rows[i].amount == ranked[i].amount && rows[i].depth == 0
         && NamedFirst(rows[i].ouId, rows[i].ouName, ranked[i].key, items, buckets)
  }

  lemma {:induction false} FlatRowsSum(rows: seq<OuRows.Row>, ranked: seq<Item>, items: seq<Item>,
                                       buckets: OuTotals.Parents)
    requires FlatRows(rows, ranked, items, buckets)
    ensures OuRows.DepthSum(rows, 0) == SumAll(ranked)
  {
    hide NamedFirst;
    if rows != [] {
      FlatRowsSum(rows[..|rows| - 1], ranked[..|rows| - 1], items, buckets);
    }
  }

  /** The buckets of the accounts so far, each ID with the first of them. */
  ghost predicate FirstBuckets(first: map<string, OuTotals.Bucket>, items: seq<Item>, buckets: OuTotals.Parents) {
    && (forall m :: 0 <= m < |items| ==> Trim(BucketOf(items[m].key, buckets).id) in first)
    && forall key :: key in first ==> NamedFirst(first[key].id, NameOf(first[key]), key, items, buckets)
  }

  function NameOf(bucket: OuTotals.Bucket): string {
    if Trim(bucket.name) == "" then bucket.id else Trim(bucket.name)
  }

  lemma NamedFirstStays(id: string, name: string, key: string, items: seq<Item>, item: Item, buckets: OuTotals.Parents)
    requires NamedFirst(id, name, key, items, buckets)
    ensures NamedFirst(id, name, key, items + [item], buckets)
  {
    hide Trim, BucketOf;
    var k: nat :| NamedAt(id, name, key, items, buckets, k);
    assert NamedAt(id, name, key, items + [item], buckets, k);
  }

  lemma FirstBucketStep(first: map<string, OuTotals.Bucket>, items: seq<Item>, item: Item, buckets: OuTotals.Parents)
    requires FirstBuckets(first, items, buckets)
    ensures var bucket := BucketOf(item.key, buckets);
      FirstBuckets(if Trim(bucket.id) in first then first else first[Trim(bucket.id) := bucket], items + [item],
                   buckets)
  {
    hide Trim, BucketOf, NamedFirst, NamedAt, NameOf;
    var bucket := BucketOf(item.key, buckets);
    var all := items + [item];
    assert forall m :: 0 <= m < |items| ==> all[m] == items[m];
    forall other | other in first
      ensures NamedFirst(first[other].id, NameOf(first[other]), other, all, buckets)
    {
      NamedFirstStays(first[other].id, NameOf(first[other]), other, items, item, buckets);
    }
    if Trim(bucket.id) !in first {
      NewBucketIsFirst(items, item, buckets);
    }
  }

  lemma NewBucketIsFirst(items: seq<Item>, item: Item, buckets: OuTotals.Parents)
    requires var key := Trim(BucketOf(item.key, buckets).id);
      forall m :: 0 <= m < |items| ==> Trim(BucketOf(items[m].key, buckets).id) != key
    ensures var bucket := BucketOf(item.key, buckets);
      NamedFirst(bucket.id, NameOf(bucket), Trim(bucket.id), items + [item], buckets)
  {
    hide Trim, BucketOf;
    var bucket := BucketOf(item.key, buckets);
    assert NamedAt(bucket.id, NameOf(bucket), Trim(bucket.id), items + [item], buckets, |items|);
  }

  /** RollupBreakdownByOU, the flat rollup used when there is no hierarchy. */
  method RollupFlat(items: seq<Item>, buckets: OuTotals.Parents) returns (rows: seq<OuRows.Row>)
    ensures exists ranked :: FlatRows(rows, ranked, items, buckets) && Compact(ranked) && LargestFirst(ranked)
                             && SameCharges(ranked, ByBucket(items, buckets))
  {
    hide Tallies, Trim, Compact, LargestFirst, SameCharges, AddTo, KeySum, BucketOf, FirstBuckets, NamedFirst,
      FlatRows;
    var byOu: map<string, real> := map[];
    var firstBucket: map<string, OuTotals.Bucket> := map[];
    NoTally();
    NoBuckets(buckets);
    assert items[..0] == [] && items[..|items|] == items;
    for i := 0 to |items|
      invariant Tallies(byOu, ByBucket(items[..i], buckets))
      invariant byOu.Keys == firstBucket.Keys && FirstBuckets(firstBucket, items[..i], buckets)
    {
      assert items[..i + 1][..i] == items[..i] && items[..i] + [items[i]] == items[..i + 1];
      FirstBucketStep(firstBucket, items[..i], items[i], buckets);
      var bucket := BucketOf(items[i].key, buckets);
      var key := Trim(bucket.id);
      TallyStep(byOu, ByBucket(items[..i], buckets), Item(key, items[i].amount));
      AddedKey(byOu, key, items[i].amount);
      byOu := AddTo(byOu, key, items[i].amount);
      if key !in firstBucket {
        firstBucket := firstBucket[key := bucket];
      }
    }
    var sorted, total := RankTally(byOu, ByBucket(items, buckets));
    RowsHaveKeys(byOu, sorted, ByBucket(items, buckets));
    rows := [];
    NoFlatRows(sorted, items, buckets);
    for i := 0 to |sorted|
      invariant FlatRows(rows, sorted[..i], items, buckets)
    {
      var bucket := firstBucket[sorted[i].key];
      FirstNames(firstBucket, items, buckets, sorted[i].key);
      FlatRowsSnoc(rows, sorted, items, buckets, bucket, i);
      var name := Trim(bucket.name);
      if name == "" {
        name := bucket.id;
      }
      rows := rows + [OuRows.Row(bucket.id, name, 0, sorted[i].amount)];
    }
    assert sorted[..|sorted|] == sorted;
  }

  lemma NoFlatRows(ranked: seq<Item>, items: seq<Item>, buckets: OuTotals.Parents)
    ensures FlatRows([], ranked[..0], items, buckets)
  {
  }

  lemma FlatRowsSnoc(rows: seq<OuRows.Row>, ranked: seq<Item>, items: seq<Item>, buckets: OuTotals.Parents,
                     bucket: OuTotals.Bucket, i: nat)
    requires i < |ranked| && FlatRows(rows, ranked[..i], items, buckets)
    requires NamedFirst(bucket.id, NameOf(bucket), ranked[i].key, items, buckets)
    ensures FlatRows(rows + [OuRows.Row(bucket.id, NameOf(bucket), 0, ranked[i].amount)], ranked[..i + 1], items,
                     buckets)
  {
    hide NamedFirst;
  }

  lemma NoBuckets(buckets: OuTotals.Parents)
    ensures FirstBuckets(map[], [], buckets)
  {
  }

  lemma FirstNames(first: map<string, OuTotals.Bucket>, items: seq<Item>, buckets: OuTotals.Parents, key: string)
    requires FirstBuckets(first, items, buckets) && key in first
    ensures NamedFirst(first[key].id, NameOf(first[key]), key, items, buckets)
  {
    hide NamedFirst;
  }

  lemma AddedKey(byKey: map<string, real>, key: string, amount: real)
    ensures AddTo(byKey, key, amount).Keys == byKey.Keys + {key}
  {
  }

  lemma RowsHaveKeys(byKey: map<string, real>, rows: seq<Item>, items: seq<Item>)
    requires Tallies(byKey, items) && Compact(rows) && SameCharges(rows, items)
    ensures forall i :: 0 <= i < |rows| ==> rows[i].key in byKey
  {
    hide KeySum;
    forall i | 0 <= i < |rows|
      ensures rows[i].key in byKey
    {
      RowCharges(rows, i);
    }
  }

  /** The rows of an account breakdown: of the tree when the hierarchy is known, one per bucket otherwise. */
  ghost predicate IsOuRollup(rows: seq<OuRows.Row>, accounts: seq<Item>, data: OuData) {
    if data.hierarchy != [] then
      && Hierarchy.WellFormed(data.hierarchy)
      && rows == if accounts == [] then []
          else OuRollup.RollupRows(AccountCosts(accounts), data.buckets, data.hierarchy)
    else
      exists ranked :: FlatRows(rows, ranked, accounts, data.buckets) && Compact(ranked) && LargestFirst(ranked)
                       && SameCharges(ranked, ByBucket(accounts, data.buckets))
  }

  /** rollupOUBreakdown: nothing is lost either way. */
  method RollupOuBreakdown(items: seq<Item>, data: OuData) returns (rows: seq<OuRows.Row>)
    requires Hierarchy.WellFormed(data.hierarchy)
    ensures OuRows.DepthSum(rows, 0) == SumAll(items)
    ensures IsOuRollup(rows, items, data)
  {
    hide Hierarchy.WellFormed, SumAll, OuRows.DepthSum, AccountCosts, OuRollup.RollupRows, Compact, LargestFirst;
    if data.hierarchy != [] {
      var costs := ToAccountCosts(items);
      AccountCostsSum(items);
      AccountCostsEmpty(items);
      rows := OuRollup.RollupByOuTree(costs, data.buckets, data.hierarchy);
    } else {
      rows := RollupFlat(items, data.buckets);
      ghost var ranked :| FlatRows(rows, ranked, items, data.buckets) && Compact(ranked) && LargestFirst(ranked)
                          && SameCharges(ranked, ByBucket(items, data.buckets));
      FlatRowsSum(rows, ranked, items, data.buckets);
      SameChargesSameSum(ranked, ByBucket(items, data.buckets));
      ByBucketSum(items, data.buckets);
    }
  }

  lemma AccountCostsEmpty(items: seq<Item>)
    ensures AccountCosts(items) == [] <==> items == []
  {
  }

  // ----------------------------------------------------- fetching one payer

  /** OU rows: the rollup of the account breakdown that charges each account with its cost. */
  ghost predicate ReportsOus(rows: seq<OuRows.Row>, items: seq<Item>, data: OuData) {
    exists accounts :: Compact(accounts) && SameCharges(accounts, items) && IsOuRollup(rows, accounts, data)
  }

  /** The final result: a total, and the breakdown, or the OU rows, whose depth-zero amounts add up. */
  ghost predicate Reports(r: CostResult, groupBy: GroupBy, items: seq<Item>, data: OuData) {
    && r.groupBy == groupBy && r.amount == SumAll(items)
    && match groupBy
       case ByNone => r.breakdown == []
       case ByOu => r.breakdown == [] && OuRows.DepthSum(r.ouRows, 0) == r.amount && ReportsOus(r.ouRows, items, data)
       case _ => SameCharges(r.breakdown, items)
  }

  /** Replace the account breakdown by OU rows. */
  method RollUp(r: CostResult, data: OuData, ghost items: seq<Item>) returns (out: CostResult)
    requires Hierarchy.WellFormed(data.hierarchy) && Shows(r, ByAccount, items) && Compact(r.breakdown)
    ensures Reports(out, ByOu, items, data)
  {
    hide SumAll, OuRows.DepthSum, Hierarchy.WellFormed, SameCharges, Compact, IsOuRollup;
    var rows := RollupOuBreakdown(r.breakdown, data);
    SameChargesSameSum(r.breakdown, items);
    out := CostResult(ByOu, r.amount, [], rows);
  }

  /** fetchAWSNetAmortizedBulk, before the rollup of an OU grouping. */
  method FetchBulk(ce: Explorer, ghost ledger: Ledger, wanted: set<string>, groupBy: GroupBy) returns (r: CostResult)
    requires Serves(ce, ledger) && !groupBy.ByOu?
    ensures Shows(r, groupBy, Selected(ledger, Only(wanted), DimensionOf(groupBy)))
    ensures Compact(r.breakdown) && r.ouRows == []
  {
    hide Serves, Compact, LargestFirst, SameCharges, Selected, SumAll;
    TotalByAnyDimension(ledger, Only(wanted), DimensionOf(groupBy));
    NothingCompact();
    if groupBy.ByService? {
      var total, breakdown := FetchBulkByService(ce, ledger, wanted);
      return CostResult(groupBy, total, breakdown, []);
    }
    var total, breakdown := FetchBulkByAccount(ce, ledger, wanted);
    return CostResult(groupBy, total, if groupBy.ByAccount? then breakdown else [], []);
  }

  function WithoutOu(groupBy: GroupBy): GroupBy {
    if groupBy.ByOu? then ByAccount else groupBy
  }

  /** One fetch per target, merged. */
  method FetchSingles(ce: Explorer, ghost ledger: Ledger, targets: seq<Target>, groupBy: GroupBy)
    returns (r: Result<CostResult, FetchError>)
    requires Serves(ce, ledger) && !groupBy.ByOu?
    ensures targets == [] ==> r == Err(NothingToMerge)
    ensures targets != [] ==> r.Ok? && Shows(r.value, groupBy, OneByOne(ledger, targets, DimensionOf(groupBy)))
    ensures targets != [] ==> Compact(r.value.breakdown) && r.value.ouRows == []
  {
    hide Serves, Compact, LargestFirst, SameCharges, Selected, SumAll, OneByOne, AllShow, Amounts, Breakdowns;
    var results := FetchEach(ce, ledger, targets, groupBy);
    ResultsMerge(results, ledger, targets, groupBy);
    MergedCharges(results, ledger, targets, groupBy);
    r := MergeResults(results);
    if |results| > 1 {
      ghost var items := OneByOne(ledger, targets, DimensionOf(groupBy));
      if groupBy.ByNone? {
        NoBreakdown(r.value.breakdown);
      } else {
        ChargesCarry(r.value.breakdown, Breakdowns(results), items);
      }
    }
  }

  /** One payer's targets, with OU grouping still by account. */
  method FetchTargets(ce: Explorer, ghost ledger: Ledger, targets: seq<Target>, groupBy: GroupBy)
    returns (r: Result<CostResult, FetchError>)
    requires Serves(ce, ledger) && !groupBy.ByOu?
    ensures targets == [] ==> r == Err(NothingToMerge)
    ensures targets != [] ==> r.Ok? && Shows(r.value, groupBy, ChargesOf(ledger, targets, DimensionOf(groupBy)))
    ensures targets != [] ==> Compact(r.value.breakdown) && r.value.ouRows == []
  {
    hide Serves, Plannable, TrimmedIds, Compact, SameCharges, Selected, SumAll, OneByOne;
    var plan := PlanBulkFetch(targets);
    PlanNeedsTargets(targets);
    if plan.Some? {
      var bulk := FetchBulk(ce, ledger, plan.value, groupBy);
      return Ok(bulk);
    }
    r := FetchSingles(ce, ledger, targets, groupBy);
  }

  lemma PlanNeedsTargets(targets: seq<Target>)
    ensures Plannable(targets) ==> targets != []
  {
  }

  lemma NoBreakdown(breakdown: seq<Item>)
    requires Compact(breakdown) && SameCharges(breakdown, [])
    ensures breakdown == []
  {
    if breakdown != [] {
      RowCharges(breakdown, 0);
      assert false;
    }
  }

  lemma ResultsMerge(results: seq<CostResult>, ledger: Ledger, targets: seq<Target>, groupBy: GroupBy)
    requires AllShow(results, ledger, targets, groupBy)
    ensures |results| == |targets|
    ensures targets != [] ==> Mergeable(results) && results[0].groupBy == groupBy
    ensures |targets| == 1 ==>
              Shows(results[0], groupBy, OneByOne(ledger, targets, DimensionOf(groupBy)))
                  && Compact(results[0].breakdown)
              && results[0].ouRows == []
  {
    hide Selected, SumAll, SameCharges, Compact;
    if |targets| == 1 {
      var items := Selected(ledger, ScopeOf(targets[0]), DimensionOf(groupBy));
      assert targets[..0] == [];
      assert OneByOne(ledger, targets[..0], DimensionOf(groupBy)) == [];
      assert [] + items == items;
    }
  }

  /** fetchCredentialGroup: OU grouping is fetched by account and rolled up once. */
  method FetchCredentialGroup(ce: Explorer, ghost ledger: Ledger, targets: seq<Target>, groupBy: GroupBy, data: OuData)
    returns (r: Result<CostResult, FetchError>)
    requires Serves(ce, ledger) && Hierarchy.WellFormed(data.hierarchy)
    ensures targets == [] ==> r == Err(NothingToMerge)
    ensures targets != [] ==> r.Ok? && Reports(r.value, groupBy, ChargesOf(ledger, targets, DimensionOf(groupBy)), data)
  {
    hide Serves, Hierarchy.WellFormed, ChargesOf, SumAll, SameCharges, Compact, ReportsOus;
    r := FetchTargets(ce, ledger, targets, WithoutOu(groupBy));
    if r.Ok? && groupBy.ByOu? {
      var rolled := RollUp(r.value, data, ChargesOf(ledger, targets, LinkedAccount));
      return Ok(rolled);
    }
  }

  // ------------------------------------------------------------ several payers

  /** GroupByCredentialsAccount: targets per payer, in order. */
  function GroupOf(targets: seq<Target>, credId: string): seq<Target> {
    if targets == [] then []
    else
      var last := targets[|targets| - 1];
      GroupOf(targets[..|targets| - 1], credId) + if last.CredentialsAccountId() == credId then [last] else []
  }

  function CredentialIds(targets: seq<Target>): set<string> {
    set t | t in targets :: t.CredentialsAccountId()
  }

  method GroupByCredentialsAccount(targets: seq<Target>) returns (groups: map<string, seq<Target>>)
    ensures groups.Keys == CredentialIds(targets)
    ensures forall id :: id in groups ==> groups[id] == GroupOf(targets, id)
  {
    hide GroupOf, CredentialIds, Target.CredentialsAccountId;
    groups := map[];
    NoGroups(targets);
    for i := 0 to |targets|
      invariant groups.Keys == CredentialIds(targets[..i])
      invariant forall id :: GroupOf(targets[..i], id) == if id in groups then groups[id] else []
    {
      GroupsStep(targets, i);
      var credId := targets[i].CredentialsAccountId();
      groups := groups[credId := (if credId in groups then groups[credId] else []) + [targets[i]]];
    }
  }

  lemma NoGroups(targets: seq<Target>)
    ensures CredentialIds(targets[..0]) == {} && targets[..|targets|] == targets
    ensures forall id :: GroupOf(targets[..0], id) == []
  {
  }

  lemma GroupsStep(targets: seq<Target>, i: nat)
    requires i < |targets|
    ensures CredentialIds(targets[..i + 1]) == CredentialIds(targets[..i]) + {targets[i].CredentialsAccountId()}
    ensures forall id :: GroupOf(targets[..i + 1], id)
              == GroupOf(targets[..i], id) + if targets[i].CredentialsAccountId() == id then [targets[i]] else []
  {
    hide Target.CredentialsAccountId;
    assert targets[..i + 1][..i] == targets[..i];
    assert targets[..i + 1] == targets[..i] + [targets[i]];
  }

  lemma {:induction false} GroupsAreNotEmpty(targets: seq<Target>, credId: string)
    ensures GroupOf(targets, credId) != [] <==> credId in CredentialIds(targets)
  {
    hide Target.CredentialsAccountId;
    if targets != [] {
      GroupsAreNotEmpty(targets[..|targets| - 1], credId);
      assert targets == targets[..|targets| - 1] + [targets[|targets| - 1]];
    }
  }

  /** The payers' clients, and the ledger behind each. */
  type Explorers = string -> Explorer
  type Ledgers = string -> Ledger

  ghost predicate AllServe(ces: Explorers, ledgers: Ledgers) {
    forall id :: Serves(ces(id), ledgers(id))
  }

  /** What all targets are charged, payer by payer. */
  ghost function ChargesOfAll(ledgers: Ledgers, targets: seq<Target>, ids: seq<string>, dim: Dimension): seq<Item> {
    if ids == [] then []
    else
      var last := ids[|ids| - 1];
      ChargesOfAll(ledgers, targets, ids[..|ids| - 1], dim) + ChargesOf(ledgers(last), GroupOf(targets, last), dim)
  }

  ghost predicate GroupsShow(results: seq<CostResult>, ledgers: Ledgers, targets: seq<Target>, ids: seq<string>,
                             groupBy: GroupBy) {
    && |results| == |ids|
    && forall n :: 0 <= n < |ids| ==>
         Shows(results[n], groupBy, ChargesOf(ledgers(ids[n]), GroupOf(targets, ids[n]), DimensionOf(groupBy)))
  }

  lemma {:induction false} GroupCharges(results: seq<CostResult>, ledgers: Ledgers, targets: seq<Target>,
                                        ids: seq<string>, groupBy: GroupBy)
    requires GroupsShow(results, ledgers, targets, ids, groupBy)
    ensures Amounts(results) == SumAll(ChargesOfAll(ledgers, targets, ids, DimensionOf(groupBy)))
    ensures if groupBy.ByNone? then Breakdowns(results) == []
            else SameCharges(Breakdowns(results), ChargesOfAll(ledgers, targets, ids, DimensionOf(groupBy)))
  {
    hide ChargesOf, SameCharges, SumAll;
    var dim := DimensionOf(groupBy);
    if ids == [] {
      SelfCharges([]);
      NoTotal();
    } else {
      var n := |ids| - 1;
      GroupCharges(results[..n], ledgers, targets, ids[..n], groupBy);
      var items := ChargesOf(ledgers(ids[n]), GroupOf(targets, ids[n]), dim);
      SumAppend(ChargesOfAll(ledgers, targets, ids[..n], dim), items);
      assert Shows(results[n], groupBy, items);
      if !groupBy.ByNone? {
        AppendSameCharges(Breakdowns(results[..n]), ChargesOfAll(ledgers, targets, ids[..n], dim), results[n].breakdown,
                          items);
      }
    }
  }

  /** Fetch, for targets that do not overlap. The total is the cost of the selected accounts over all
      payers; a breakdown charges each key with its cost; OU rows are the rollup of the account costs. */
  method Fetch(ces: Explorers, ghost ledgers: Ledgers, targets: seq<Target>, groupBy: GroupBy, data: OuData)
    returns (r: Result<CostResult, FetchError>, ghost ids: seq<string>)
    requires AllServe(ces, ledgers) && Hierarchy.WellFormed(data.hierarchy)
    ensures targets == [] ==> r == Err(NoAccounts)
    ensures targets != [] ==> StrictlySorted(ids) && Enumerates(ids, CredentialIds(targets))
    ensures targets != [] ==>
              r.Ok? && Reports(r.value, groupBy, ChargesOfAll(ledgers, targets, ids, DimensionOf(groupBy)), data)
  {
    hide Serves, Hierarchy.WellFormed, SumAll, SameCharges, Compact, LargestFirst, ChargesOf, ChargesOfAll, GroupOf,
      CredentialIds,
      StrictlySorted, Enumerates, GroupsShow, Amounts, Breakdowns, ReportsOus;
    if targets == [] {
      return Err(NoAccounts), [];
    }
    var groups := GroupByCredentialsAccount(targets);
    var sorted := SortedAccountIds(groups.Keys);
    ids := sorted;
    SomeGroup(targets);
    if |groups| <= 1 {
      OnlyGroup(ledgers, targets, sorted, DimensionOf(groupBy));
      r := FetchCredentialGroup(ces(sorted[0]), ledgers(sorted[0]), targets, groupBy, data);
      return r, ids;
    }
    var results: seq<CostResult> := [];
    NoGroupsShown(ledgers, targets, sorted, WithoutOu(groupBy));
    for n := 0 to |sorted|
      invariant GroupsShow(results, ledgers, targets, sorted[..n], WithoutOu(groupBy))
    {
      GroupOfId(targets, sorted, n);
      var sub := FetchTargets(ces(sorted[n]), ledgers(sorted[n]), groups[sorted[n]], WithoutOu(groupBy));
      GroupShown(results, sub.value, ledgers, targets, sorted, n, WithoutOu(groupBy));
      results := results + [sub.value];
    }
    ManyGroups(sorted, groups.Keys);
    GroupsMerge(results, ledgers, targets, sorted, WithoutOu(groupBy));
    GroupCharges(results, ledgers, targets, sorted, WithoutOu(groupBy));
    r := MergeResults(results);
    if groupBy.ByNone? {
      NoBreakdown(r.value.breakdown);
    } else {
      ChargesCarry(r.value.breakdown, Breakdowns(results),
                   ChargesOfAll(ledgers, targets, sorted, DimensionOf(groupBy)));
    }
    if groupBy.ByOu? {
      var rolled := RollUp(r.value, data, ChargesOfAll(ledgers, targets, sorted, LinkedAccount));
      r := Ok(rolled);
    }
  }

  lemma SomeGroup(targets: seq<Target>)
    requires targets != []
    ensures CredentialIds(targets) != {}
  {
    hide Target.CredentialsAccountId;
    assert targets[0].CredentialsAccountId() in CredentialIds(targets);
  }

  lemma OnlyGroup(ledgers: Ledgers, targets: seq<Target>, ids: seq<string>, dim: Dimension)
    requires targets != [] && Enumerates(ids, CredentialIds(targets)) && |CredentialIds(targets)| <= 1
    ensures |ids| == 1 && GroupOf(targets, ids[0]) == targets
    ensures ChargesOfAll(ledgers, targets, ids, dim) == ChargesOf(ledgers(ids[0]), targets, dim)
  {
    hide Target.CredentialsAccountId, ChargesOf;
    var all := CredentialIds(targets);
    SomeGroup(targets);
    EnumerationSize(ids, all);
    var id := ids[0];
    OneElement(all, id);
    forall t | t in targets
      ensures t.CredentialsAccountId() == id
    {
      assert t.CredentialsAccountId() in all;
    }
    OneGroup(targets, id);
    assert ids[..0] == [];
    assert ChargesOfAll(ledgers, targets, ids[..0], dim) == [];
    assert [] + ChargesOf(ledgers(id), targets, dim) == ChargesOf(ledgers(id), targets, dim);
  }

  lemma OneElement(all: set<string>, id: string)
    requires |all| <= 1 && id in all
    ensures forall x :: x in all ==> x == id
  {
    assert |all - {id}| == |all| - 1;
    assert all - {id} == {};
    assert all == (all - {id}) + {id};
  }

  lemma {:induction false} OneGroup(targets: seq<Target>, id: string)
    requires forall t :: t in targets ==> t.CredentialsAccountId() == id
    ensures GroupOf(targets, id) == targets
  {
    hide Target.CredentialsAccountId;
    if targets != [] {
      OneGroup(targets[..|targets| - 1], id);
      assert targets[|targets| - 1] in targets;
      assert targets == targets[..|targets| - 1] + [targets[|targets| - 1]];
    }
  }

  lemma NoGroupsShown(ledgers: Ledgers, targets: seq<Target>, ids: seq<string>, groupBy: GroupBy)
    ensures GroupsShow([], ledgers, targets, ids[..0], groupBy) && ids[..|ids|] == ids
  {
  }

  lemma GroupOfId(targets: seq<Target>, ids: seq<string>, n: nat)
    requires Enumerates(ids, CredentialIds(targets)) && n < |ids|
    ensures ids[n] in CredentialIds(targets) && GroupOf(targets, ids[n]) != []
  {
    hide CredentialIds;
    GroupsAreNotEmpty(targets, ids[n]);
  }

  lemma GroupShown(results: seq<CostResult>, r: CostResult, ledgers: Ledgers, targets: seq<Target>, ids: seq<string>,
                   n: nat, groupBy: GroupBy)
    requires n < |ids| && GroupsShow(results, ledgers, targets, ids[..n], groupBy)
    requires Shows(r, groupBy, ChargesOf(ledgers(ids[n]), GroupOf(targets, ids[n]), DimensionOf(groupBy)))
    ensures GroupsShow(results + [r], ledgers, targets, ids[..n + 1], groupBy)
  {
    hide ChargesOf, Shows;
  }

  lemma ManyGroups(ids: seq<string>, all: set<string>)
    requires Enumerates(ids, all) && |all| > 1
    ensures |ids| > 1
  {
    EnumerationSize(ids, all);
  }

  lemma {:induction false} EnumerationSize(ids: seq<string>, all: set<string>)
    requires Enumerates(ids, all)
    ensures |ids| == |all|
  {
    EmptyEnumeration(ids, all);
    if ids != [] {
      assert ids[0] in all;
      TailEnumerates(ids, all);
      EnumerationSize(ids[1..], all - {ids[0]});
    }
  }

  lemma GroupsMerge(results: seq<CostResult>, ledgers: Ledgers, targets: seq<Target>, ids: seq<string>,
                    groupBy: GroupBy)
    requires GroupsShow(results, ledgers, targets, ids, groupBy) && |ids| > 1
    ensures |results| > 1 && Mergeable(results) && results[0].groupBy == groupBy
  {
    hide ChargesOf;
  }

  // ------------------------------------------------------------- daily series

  /** fetchAWSDailyNetAmortizedBulk. */
  method FetchDailyBulk(ce: Explorer, ghost ledger: Ledger, wanted: set<string>) returns (daily: seq<Item>)
    requires Serves(ce, ledger)
    ensures SameCharges(daily, Selected(ledger, Only(wanted), Day)) && Compact(daily) && ByDate(daily)
  {
    hide Serves, Compact, ByDate, SameCharges, Selected, Joined, Enumerates, StrictlySorted, AsSet, NoRepeats, Flat;
    var ids := SortedAccountIds(wanted);
    var batches := BatchStrings(ids, LINKED_ACCOUNT_FILTER_BATCH_SIZE);
    PlanOfBatches(ids, wanted, batches);
    var series := FetchDailyEach(ce, ledger, FiltersOf(batches));
    DailyBatches(series, ledger, batches);
    daily := MergeDaily(series);
    ChargesCarry(daily, Flat(series), Selected(ledger, Only(wanted), Day));
  }

  method FetchDailySingles(ce: Explorer, ghost ledger: Ledger, targets: seq<Target>) returns (daily: seq<Item>)
    requires Serves(ce, ledger)
    ensures SameCharges(daily, OneByOne(ledger, targets, Day)) && Compact(daily) && ByDate(daily)
  {
    hide Serves, Compact, ByDate, SameCharges, OneByOne, Flat;
    var series := FetchDailyEach(ce, ledger, ScopesOf(targets));
    DailyTargets(series, ledger, targets);
    daily := MergeDaily(series);
    ChargesCarry(daily, Flat(series), OneByOne(ledger, targets, Day));
  }

  /** One payer's series: in bulk when the plan allows it. */
  method FetchDailyGroup(ce: Explorer, ghost ledger: Ledger, targets: seq<Target>) returns (daily: seq<Item>)
    requires Serves(ce, ledger)
    ensures SameCharges(daily, ChargesOf(ledger, targets, Day)) && Compact(daily) && ByDate(daily)
  {
    hide Serves, Plannable, TrimmedIds, Compact, ByDate, SameCharges, Selected, OneByOne;
    var plan := PlanBulkFetch(targets);
    if plan.Some? {
      daily := FetchDailyBulk(ce, ledger, plan.value);
    } else {
      daily := FetchDailySingles(ce, ledger, targets);
    }
  }

  lemma FlatMore(series: seq<seq<Item>>, more: seq<Item>)
    ensures Flat(series + [more]) == Flat(series) + more
  {
    assert (series + [more])[..|series|] == series;
  }

  lemma NoSeriesYet(ledgers: Ledgers, targets: seq<Target>, ids: seq<string>)
    ensures SameCharges(Flat([]), ChargesOfAll(ledgers, targets, ids[..0], Day)) && ids[..|ids|] == ids
  {
  }

  lemma OneMorePayer(ledgers: Ledgers, targets: seq<Target>, ids: seq<string>, n: nat, dim: Dimension)
    requires n < |ids|
    ensures ChargesOfAll(ledgers, targets, ids[..n + 1], dim)
         == ChargesOfAll(ledgers, targets, ids[..n], dim) + ChargesOf(ledgers(ids[n]), GroupOf(targets, ids[n]), dim)
  {
    hide ChargesOf, GroupOf;
    assert ids[..n + 1][..n] == ids[..n];
  }

  /** FetchDaily, for targets that do not overlap: the series of all payers, merged, charges each day with
      what the targets cost that day. */
  method FetchDaily(ces: Explorers, ghost ledgers: Ledgers, targets: seq<Target>)
    returns (r: Result<seq<Item>, FetchError>, ghost ids: seq<string>)
    requires AllServe(ces, ledgers)
    ensures targets == [] ==> r == Err(NoAccounts)
    ensures targets != [] ==> StrictlySorted(ids) && Enumerates(ids, CredentialIds(targets))
    ensures targets != [] ==>
              r.Ok? && SameCharges(r.value, ChargesOfAll(ledgers, targets, ids, Day)) && Compact(r.value)
                  && ByDate(r.value)
  {
    hide Serves, SameCharges, Compact, ByDate, ChargesOf, ChargesOfAll, GroupOf, CredentialIds, StrictlySorted,
      Enumerates, Flat;
    if targets == [] {
      return Err(NoAccounts), [];
    }
    var groups := GroupByCredentialsAccount(targets);
    var sorted := SortedAccountIds(groups.Keys);
    ids := sorted;
    SomeGroup(targets);
    if |groups| <= 1 {
      OnlyGroup(ledgers, targets, sorted, Day);
      var daily := FetchDailyGroup(ces(sorted[0]), ledgers(sorted[0]), targets);
      return Ok(daily), ids;
    }
    var series: seq<seq<Item>> := [];
    NoSeriesYet(ledgers, targets, sorted);
    for n := 0 to |sorted|
      invariant |series| == n && SameCharges(Flat(series), ChargesOfAll(ledgers, targets, sorted[..n], Day))
    {
      GroupOfId(targets, sorted, n);
      var daily := FetchDailyGroup(ces(sorted[n]), ledgers(sorted[n]), groups[sorted[n]]);
      FlatMore(series, daily);
      OneMorePayer(ledgers, targets, sorted, n, Day);
      AppendSameCharges(Flat(series), ChargesOfAll(ledgers, targets, sorted[..n], Day),
                        daily, ChargesOf(ledgers(sorted[n]), GroupOf(targets, sorted[n]), Day));
      series := series + [daily];
    }
    ManyGroups(sorted, groups.Keys);
    var merged := MergeDaily(series);
    ChargesCarry(merged, Flat(series), ChargesOfAll(ledgers, targets, sorted, Day));
    return Ok(merged), ids;
  }

  lemma {:induction false} OneByOneTotal(ledger: Ledger, targets: seq<Target>, a: Dimension, b: Dimension)
    ensures SumAll(OneByOne(ledger, targets, a)) == SumAll(OneByOne(ledger, targets, b))
  {
    hide SumAll, Selected;
    if targets != [] {
      var front, scope := targets[..|targets| - 1], ScopeOf(targets[|targets| - 1]);
      OneByOneTotal(ledger, front, a, b);
      TotalByAnyDimension(ledger, scope, a);
      TotalByAnyDimension(ledger, scope, b);
      SumAppend(OneByOne(ledger, front, a), Selected(ledger, scope, a));
      SumAppend(OneByOne(ledger, front, b), Selected(ledger, scope, b));
    }
  }

  lemma {:induction false} TotalOverPayers(ledgers: Ledgers, targets: seq<Target>, ids: seq<string>, a: Dimension,
                                           b: Dimension)
    ensures SumAll(ChargesOfAll(ledgers, targets, ids, a)) == SumAll(ChargesOfAll(ledgers, targets, ids, b))
  {
    hide SumAll, Selected, OneByOne, Plannable, TrimmedIds, GroupOf;
    if ids != [] {
      var front, ledger, group := ids[..|ids| - 1], ledgers(ids[|ids| - 1]), GroupOf(targets, ids[|ids| - 1]);
      TotalOverPayers(ledgers, targets, front, a, b);
      OneByOneTotal(ledger, group, a, b);
      TotalByAnyDimension(ledger, Only(TrimmedIds(group)), a);
      TotalByAnyDimension(ledger, Only(TrimmedIds(group)), b);
      SumAppend(ChargesOfAll(ledgers, targets, front, a), ChargesOf(ledger, group, a));
      SumAppend(ChargesOfAll(ledgers, targets, front, b), ChargesOf(ledger, group, b));
    }
  }

  /** The days of FetchDaily's series add up to the total of Fetch, for any grouping. */
  lemma DaysAddUpToTotal(ledgers: Ledgers, targets: seq<Target>, ids: seq<string>, daily: seq<Item>,
                         r: CostResult, groupBy: GroupBy, data: OuData)
    requires SameCharges(daily, ChargesOfAll(ledgers, targets, ids, Day))
    requires Reports(r, groupBy, ChargesOfAll(ledgers, targets, ids, DimensionOf(groupBy)), data)
    ensures SumAll(daily) == r.amount
  {
    hide SumAll, SameCharges, ChargesOfAll, ReportsOus;
    SameChargesSameSum(daily, ChargesOfAll(ledgers, targets, ids, Day));
    TotalOverPayers(ledgers, targets, ids, Day, DimensionOf(groupBy));
  }

  function FiltersOf(batches: seq<seq<string>>): seq<Scope> {
    seq(|batches|, b requires 0 <= b < |batches| => LinkedAccountsFilter(batches[b]))
  }

  function ScopesOf(targets: seq<Target>): seq<Scope> {
    seq(|targets|, i requires 0 <= i < |targets| => ScopeOf(targets[i]))
  }

  ghost predicate DailyOk(series: seq<seq<Item>>, ledger: Ledger, scopes: seq<Scope>) {
    && |series| == |scopes|
    && forall i :: 0 <= i < |scopes| ==>
         Compact(series[i]) && ByDate(series[i]) && SameCharges(series[i], Selected(ledger, scopes[i], Day))
  }

  /** Queries in any completion order, results by index. */
  method FetchDailyEach(ce: Explorer, ghost ledger: Ledger, scopes: seq<Scope>) returns (series: seq<seq<Item>>)
    requires Serves(ce, ledger)
    ensures DailyOk(series, ledger, scopes)
  {
    hide Indices, Compact, ByDate, SameCharges, Selected, AnswersDaily, AnswersGrouped;
    var slots := new seq<Item>[|scopes|];
    var running := Indices(|scopes|);
    while running != {}
      invariant running <= Indices(|scopes|)
      invariant forall i :: 0 <= i < |scopes| && i !in running ==>
                  Compact(slots[i]) && ByDate(slots[i]) && SameCharges(slots[i], Selected(ledger, scopes[i], Day))
      decreases |running|
    {
      var i :| i in running;
      running := running - {i};
      var daily := SumDaily(ce.daily(scopes[i]), ledger, scopes[i]);
      slots[i] := daily;
    }
    series := slots[..];
  }

  lemma DailyBatches(series: seq<seq<Item>>, ledger: Ledger, batches: seq<seq<string>>)
    requires DailyOk(series, ledger, FiltersOf(batches)) && NoRepeats(Joined(batches))
    requires forall b :: 0 <= b < |batches| ==> batches[b] != []
    ensures SameCharges(Flat(series), Selected(ledger, Only(AsSet(Joined(batches))), Day))
    ensures |series| == 1 ==> Compact(series[0]) && ByDate(series[0])
  {
    hide Compact, ByDate, SameCharges, Selected, NoRepeats, Joined, Flat, LinkedAccountsFilter, AsSet;
    forall b | 0 <= b < |batches|
      ensures BatchOk(series[b], ledger, batches[b], Day)
    {
      FilterOfBatch(batches[b]);
      assert FiltersOf(batches)[b] == LinkedAccountsFilter(batches[b]);
    }
    BatchesCharge(series, ledger, batches, Day);
  }

  lemma {:induction false} DailyTargets(series: seq<seq<Item>>, ledger: Ledger, targets: seq<Target>)
    requires DailyOk(series, ledger, ScopesOf(targets))
    ensures SameCharges(Flat(series), OneByOne(ledger, targets, Day))
    ensures |series| == 1 ==> Compact(series[0]) && ByDate(series[0])
  {
    hide Compact, ByDate, SameCharges, Selected, ScopeOf;
    if targets == [] {
      SelfCharges([]);
    } else {
      var n := |targets| - 1;
      assert forall i :: 0 <= i < n ==> ScopesOf(targets[..n])[i] == ScopesOf(targets)[i];
      DailyTargets(series[..n], ledger, targets[..n]);
      assert ScopesOf(targets)[n] == ScopeOf(targets[n]);
      AppendSameCharges(Flat(series[..n]), OneByOne(ledger, targets[..n], Day), series[n],
                        Selected(ledger, ScopeOf(targets[n]), Day));
    }
  }

  // -------------------------------------------------------- the refinement

  lemma PlannedAreScoped(targets: seq<Target>)
    requires Plannable(targets)
    ensures forall i :: 0 <= i < |targets| ==> targets[i].ScopeToAccount()
  {
  }

  lemma BulkChargesLikeSingles(ledger: Ledger, targets: seq<Target>, dim: Dimension)
    requires Plannable(targets) && AskedOnce(targets) && RealLedger(ledger)
    ensures SameCharges(Selected(ledger, Only(TrimmedIds(targets)), dim), OneByOne(ledger, targets, dim))
  {
    hide Trim, AskedOnce, RealLedger, CountsOnce, SameCharges, Selected, OneByOne, TrimmedIds;
    PlannedAreScoped(targets);
    AskedOnceCounts(ledger, targets);
    BulkChargesLikeOneByOne(ledger, targets, dim);
  }

  /** Bulk refines one by one: what FetchBulk promises for the plan of some targets and what FetchSingles
      promises for the targets is the same result up to the order of rows with equal amounts, for any
      paging, batching and completion order. */
  lemma BulkRefinesSingles(ledger: Ledger, targets: seq<Target>, groupBy: GroupBy, bulk: CostResult,
                           singles: CostResult)
    requires Plannable(targets) && AskedOnce(targets) && RealLedger(ledger) && !groupBy.ByOu?
    requires Shows(bulk, groupBy, Selected(ledger, Only(TrimmedIds(targets)), DimensionOf(groupBy)))
    requires Compact(bulk.breakdown)
    requires Shows(singles, groupBy, OneByOne(ledger, targets, DimensionOf(groupBy))) && Compact(singles.breakdown)
    ensures bulk.amount == singles.amount && multiset(bulk.breakdown) == multiset(singles.breakdown)
  {
    hide Plannable, AskedOnce, RealLedger, SameCharges, SumAll, Selected, Compact, OneByOne, TrimmedIds;
    var dim := DimensionOf(groupBy);
    BulkChargesLikeSingles(ledger, targets, dim);
    SameChargesSameSum(Selected(ledger, Only(TrimmedIds(targets)), dim), OneByOne(ledger, targets, dim));
    if !groupBy.ByNone? {
      ChargesCarry(bulk.breakdown, Selected(ledger, Only(TrimmedIds(targets)), dim), OneByOne(ledger, targets, dim));
      Same2(bulk.breakdown, OneByOne(ledger, targets, dim), singles.breakdown);
      BreakdownIsUnique(bulk.breakdown, singles.breakdown);
    }
  }

  /** The daily series is exactly the same. */
  lemma BulkRefinesSinglesDaily(ledger: Ledger, targets: seq<Target>, bulk: seq<Item>, singles: seq<Item>)
    requires Plannable(targets) && AskedOnce(targets) && RealLedger(ledger)
    requires SameCharges(bulk, Selected(ledger, Only(TrimmedIds(targets)), Day)) && Compact(bulk) && ByDate(bulk)
    requires SameCharges(singles, OneByOne(ledger, targets, Day)) && Compact(singles) && ByDate(singles)
    ensures bulk == singles
  {
    hide Plannable, AskedOnce, RealLedger, SameCharges, Selected, Compact, ByDate, OneByOne, TrimmedIds;
    BulkChargesLikeSingles(ledger, targets, Day);
    ChargesCarry(bulk, Selected(ledger, Only(TrimmedIds(targets)), Day), OneByOne(ledger, targets, Day));
    Same2(bulk, OneByOne(ledger, targets, Day), singles);
    SeriesIsUnique(bulk, singles);
  }
}
