/** Fetching many linked accounts of one payer in few queries, and why that is the same as fetching
    them one by one and merging. */
module BulkFetch {
  import opened Text
  import opened Wrappers
  import opened Charges
  import opened CostExplorer
  import opened Tasks

  const BULK_FETCH_MIN_ACCOUNTS := 2
  const LINKED_ACCOUNT_FILTER_BATCH_SIZE := 100

  // ---------------------------------------------------------------- targets

  datatype Target = Target(accountId: string, payerAccountId: string, scopeAccountOnly: bool) {
    function CredentialsAccountId(): string {
      if Trim(payerAccountId) != "" then Trim(payerAccountId) else Trim(accountId)
    }

    predicate IsLinked() {
      Trim(payerAccountId) != "" && Trim(payerAccountId) != Trim(accountId)
    }

    predicate ScopeToAccount() {
      IsLinked() || scopeAccountOnly
    }
  }

  /** LinkedAccountFilter: one account, or everything the payer has. */
  function LinkedAccountFilter(accountId: string, linked: bool): Scope {
    if linked then Only({accountId}) else Everything
  }

  function ScopeOf(t: Target): Scope {
    LinkedAccountFilter(t.accountId, t.ScopeToAccount())
  }

  function TrimmedIds(targets: seq<Target>): set<string> {
    set t | t in targets :: Trim(t.accountId)
  }

  /** When one bulk fetch can serve all targets. */
  predicate Plannable(targets: seq<Target>) {
    && |targets| >= BULK_FETCH_MIN_ACCOUNTS
    && forall i :: 0 <= i < |targets| ==> Fits(targets[i], targets[0].CredentialsAccountId())
  }

  predicate Fits(t: Target, credId: string) {
    t.CredentialsAccountId() == credId && t.ScopeToAccount() && Trim(t.accountId) != ""
  }

  /** planBulkFetch. */
  method PlanBulkFetch(targets: seq<Target>) returns (plan: Option<set<string>>)
    ensures plan == if Plannable(targets) then Some(TrimmedIds(targets)) else None
  {
    hide Trim, TrimmedIds;
    if |targets| < BULK_FETCH_MIN_ACCOUNTS {
      return None;
    }
    var credId := targets[0].CredentialsAccountId();
    var ids: set<string> := {};
    NoIds();
    assert targets[..0] == [];
    for i := 0 to |targets|
      invariant ids == TrimmedIds(targets[..i])
      invariant forall k :: 0 <= k < i ==> Fits(targets[k], credId)
    {
      var t := targets[i];
      if t.CredentialsAccountId() != credId || !t.ScopeToAccount() {
        assert !Fits(targets[i], credId);
        return None;
      }
      var id := Trim(t.accountId);
      if id == "" {
        assert !Fits(targets[i], credId);
        return None;
      }
      OneMoreId(targets, i);
      ids := ids + {id};
    }
    assert targets[..|targets|] == targets;
    return Some(ids);
  }

  lemma NoIds()
    ensures TrimmedIds([]) == {}
  {
  }

  lemma OneMoreId(targets: seq<Target>, i: nat)
    requires i < |targets|
    ensures TrimmedIds(targets[..i + 1]) == TrimmedIds(targets[..i]) + {Trim(targets[i].accountId)}
  {
    hide Trim;
    assert targets[..i + 1] == targets[..i] + [targets[i]];
  }

  // ---------------------------------------------------------------- batches

  function Joined(batches: seq<seq<string>>): seq<string> {
    if batches == [] then [] else Joined(batches[..|batches| - 1]) + batches[|batches| - 1]
  }

  /** batchStrings: consecutive pieces of the given size, the last one possibly shorter. */
  method BatchStrings(values: seq<string>, size: int) returns (batches: seq<seq<string>>)
    ensures size <= 0 ==> batches == []
    ensures size > 0 ==> Joined(batches) == values
    ensures forall b :: 0 <= b < |batches| ==> 0 < |batches[b]| <= size
    ensures forall b :: 0 <= b < |batches| - 1 ==> |batches[b]| == size
  {
    batches := [];
    if size <= 0 || values == [] {
      return;
    }
    var i := 0;
    while i < |values|
      invariant 0 <= i && Joined(batches) == values[..if i < |values| then i else |values|]
      invariant forall b :: 0 <= b < |batches| ==> 0 < |batches[b]| <= size
      invariant i < |values| ==> forall b :: 0 <= b < |batches| ==> |batches[b]| == size
      invariant forall b :: 0 <= b < |batches| - 1 ==> |batches[b]| == size
      decreases |values| - i
    {
      var end := if i + size > |values| then |values| else i + size;
      JoinedSnoc(batches, values[i..end]);
      assert values[..end] == values[..i] + values[i..end];
      batches := batches + [values[i..end]];
      i := i + size;
    }
    assert values[..|values|] == values;
  }

  lemma JoinedSnoc(batches: seq<seq<string>>, batch: seq<string>)
    ensures Joined(batches + [batch]) == Joined(batches) + batch
  {
    assert (batches + [batch])[..|batches|] == batches;
  }

  function AsSet(ids: seq<string>): set<string> {
    set id | id in ids
  }

  /** The account IDs of a plan in sorted order. */
  method SortedAccountIds(wanted: set<string>) returns (ids: seq<string>)
    ensures StrictlySorted(ids) && Enumerates(ids, wanted)
  {
    hide Less;
    ids := [];
    var rest := wanted;
    while rest != {}
      invariant rest <= wanted && StrictlySorted(ids)
      invariant forall x :: x in ids <==> x in wanted - rest
      decreases |rest|
    {
      var id :| id in rest;
      rest := rest - {id};
      InsertIdKeeps(id, ids);
      ids := InsertId(id, ids);
    }
    SortedIsDistinct(ids);
    forall i | 0 <= i < |ids|
      ensures ids[i] in wanted
    {
      assert ids[i] in ids;
    }
  }

  lemma SortedIsDistinct(ids: seq<string>)
    requires StrictlySorted(ids)
    ensures forall i, j :: 0 <= i < j < |ids| ==> ids[i] != ids[j]
  {
    hide Less;
    forall i, j | 0 <= i < j < |ids|
      ensures ids[i] != ids[j]
    {
      LessIsIrreflexive(ids[i]);
    }
  }

  function InsertId(id: string, ids: seq<string>): seq<string> {
    if ids == [] then [id]
    else
      var last := ids[|ids| - 1];
      if Less(id, last) then InsertId(id, ids[..|ids| - 1]) + [last] else ids + [id]
  }

  lemma {:induction false} InsertIdKeeps(id: string, ids: seq<string>)
    requires StrictlySorted(ids) && id !in ids
    ensures StrictlySorted(InsertId(id, ids)) && forall x :: x in InsertId(id, ids) <==> x in ids || x == id
  {
    hide Less;
    if ids != [] {
      var front, last := ids[..|ids| - 1], ids[|ids| - 1];
      LessIsTotal(id, last);
      if Less(id, last) {
        InsertIdKeeps(id, front);
        forall x | x in front
          ensures Less(x, last)
        {
          var i :| 0 <= i < |front| && front[i] == x;
          assert ids[i] == x;
        }
      } else {
        forall i | 0 <= i < |ids|
          ensures Less(ids[i], id)
        {
          if i < |ids| - 1 {
            LessIsTransitive(ids[i], last, id);
          }
        }
      }
    }
  }

  // ------------------------------------------------------- queries of batches

  /** A client that answers every query truly, in whatever pages. */
  datatype Explorer = Explorer(grouped: (Scope, Dimension) -> seq<Page>, daily: Scope -> seq<Page>)

  ghost predicate Serves(ce: Explorer, ledger: Ledger) {
    && (forall scope, dim :: AnswersGrouped(ce.grouped(scope, dim), ledger, scope, dim))
    && (forall scope :: AnswersDaily(ce.daily(scope), ledger, scope))
  }

  /** linkedAccountsFilter: no accounts would mean no filter. */
  function LinkedAccountsFilter(ids: seq<string>): Scope {
    if ids == [] then Everything
    else if |ids| == 1 then LinkedAccountFilter(ids[0], true)
    else Only(AsSet(ids))
  }

  /** One batch's breakdown is right. */
  ghost predicate BatchOk(breakdown: seq<Item>, ledger: Ledger, batch: seq<string>, dim: Dimension) {
    Compact(breakdown) && SameCharges(breakdown, Selected(ledger, Only(AsSet(batch)), dim))
  }

  lemma FilterOfBatch(batch: seq<string>)
    requires batch != []
    ensures LinkedAccountsFilter(batch) == Only(AsSet(batch))
  {
    if |batch| == 1 {
      assert AsSet(batch) == {batch[0]};
    }
  }

  /** The batches are fetched concurrently: whichever finishes next stores its result at its index. */
  method FetchBatches(ce: Explorer, ghost ledger: Ledger, batches: seq<seq<string>>, dim: Dimension)
    returns (results: seq<seq<Item>>)
    requires Serves(ce, ledger) && forall b :: 0 <= b < |batches| ==> batches[b] != []
    ensures |results| == |batches|
    ensures forall b :: 0 <= b < |batches| ==> BatchOk(results[b], ledger, batches[b], dim)
  {
    hide Indices, BatchOk, LinkedAccountsFilter, AnswersGrouped, AnswersDaily, Compact, SameCharges, LargestFirst,
      Selected;
    var slots := new seq<Item>[|batches|];
    var running := Indices(|batches|);
    while running != {}
      invariant running <= Indices(|batches|)
      invariant forall b :: 0 <= b < |batches| && b !in running ==> BatchOk(slots[b], ledger, batches[b], dim)
      decreases |running|
    {
      var b :| b in running;
      running := running - {b};
      FilterOfBatch(batches[b]);
      var filter := LinkedAccountsFilter(batches[b]);
      var total, breakdown := SumGrouped(ce.grouped(filter, dim), ledger, filter, dim);
      BatchIsOk(breakdown, ledger, batches[b], dim);
      slots[b] := breakdown;
    }
    results := slots[..];
  }

  lemma BatchIsOk(breakdown: seq<Item>, ledger: Ledger, batch: seq<string>, dim: Dimension)
    requires Compact(breakdown) && SameCharges(breakdown, Selected(ledger, Only(AsSet(batch)), dim))
    ensures BatchOk(breakdown, ledger, batch, dim)
  {
  }

  // ------------------------------------------------------- merging the batches

  ghost predicate AllOk(results: seq<seq<Item>>, ledger: Ledger, batches: seq<seq<string>>, dim: Dimension) {
    |results| == |batches| && forall b :: 0 <= b < |batches| ==> BatchOk(results[b], ledger, batches[b], dim)
  }

  ghost predicate NoRepeats(ids: seq<string>) {
    forall i, j :: 0 <= i < j < |ids| ==> ids[i] != ids[j]
  }

  lemma DisjointHalves(a: seq<string>, b: seq<string>)
    requires NoRepeats(a + b)
    ensures NoRepeats(a) && NoRepeats(b) && AsSet(a) !! AsSet(b) && AsSet(a + b) == AsSet(a) + AsSet(b)
  {
    var all := a + b;
    forall i, j | 0 <= i < |a| && 0 <= j < |b|
      ensures a[i] != b[j]
    {
      assert all[i] == a[i] && all[|a| + j] == b[j];
    }
    forall i, j | 0 <= i < j < |a|
      ensures a[i] != a[j]
    {
      assert all[i] == a[i] && all[j] == a[j];
    }
    forall i, j | 0 <= i < j < |b|
      ensures b[i] != b[j]
    {
      assert all[|a| + i] == b[i] && all[|a| + j] == b[j];
    }
  }

  function Flat(results: seq<seq<Item>>): seq<Item> {
    if results == [] then [] else Flat(results[..|results| - 1]) + results[|results| - 1]
  }

  lemma FlatSnoc(results: seq<seq<Item>>, n: nat)
    requires n < |results|
    ensures Flat(results[..n + 1]) == Flat(results[..n]) + results[n] && results[..|results|] == results
  {
    assert results[..n + 1][..n] == results[..n];
  }

  /** The batches together charge what one query for all their accounts would. */
  lemma {:induction false} BatchesCharge(results: seq<seq<Item>>, ledger: Ledger, batches: seq<seq<string>>,
                                         dim: Dimension)
    requires AllOk(results, ledger, batches, dim) && NoRepeats(Joined(batches))
    ensures SameCharges(Flat(results), Selected(ledger, Only(AsSet(Joined(batches))), dim))
  {
    hide Compact, SameCharges, Selected, AsSet, NoRepeats;
    if batches == [] {
      NoAccounts(ledger, dim);
    } else {
      var n := |batches| - 1;
      var front, last := Joined(batches[..n]), batches[n];
      DisjointHalves(front, last);
      BatchesCharge(results[..n], ledger, batches[..n], dim);
      SplitScope(ledger, AsSet(front), AsSet(last), dim);
      AppendSameCharges(Flat(results[..n]), Selected(ledger, Only(AsSet(front)), dim),
                        results[n], Selected(ledger, Only(AsSet(last)), dim));
      Same2(Flat(results[..n]) + results[n],
            Selected(ledger, Only(AsSet(front)), dim) + Selected(ledger, Only(AsSet(last)), dim),
            Selected(ledger, Only(AsSet(front) + AsSet(last)), dim));
    }
  }

  lemma Same2(a: seq<Item>, b: seq<Item>, c: seq<Item>)
    requires SameCharges(a, b) && SameCharges(c, b)
    ensures SameCharges(a, c)
  {
    hide KeySum;
    assert forall key :: KeySum(a, key) == KeySum(b, key) && KeySum(c, key) == KeySum(b, key);
  }

  lemma NoAccounts(ledger: Ledger, dim: Dimension)
    ensures AsSet([]) == {} && SameCharges([], Selected(ledger, Only({}), dim))
  {
    EmptyScope(ledger, dim);
  }

  /** By account, different batches have different keys, so their rows just follow each other. */
  lemma RowsStayInBatch(breakdown: seq<Item>, ledger: Ledger, batch: seq<string>)
    requires BatchOk(breakdown, ledger, batch, LinkedAccount)
    ensures forall i :: 0 <= i < |breakdown| ==> breakdown[i].key in AsSet(batch)
  {
    hide KeySum;
    forall i | 0 <= i < |breakdown|
      ensures breakdown[i].key in AsSet(batch)
    {
      RowCharges(breakdown, i);
      if breakdown[i].key !in AsSet(batch) {
        OutsideFilter(ledger, AsSet(batch), breakdown[i].key);
      }
    }
  }

  lemma CompactAppend(a: seq<Item>, b: seq<Item>)
    requires Compact(a) && Compact(b)
    requires forall i, j :: 0 <= i < |a| && 0 <= j < |b| ==> a[i].key != b[j].key
    ensures Compact(a + b)
  {
  }

  lemma {:induction false} AccountRowsFollow(results: seq<seq<Item>>, ledger: Ledger, batches: seq<seq<string>>)
    requires AllOk(results, ledger, batches, LinkedAccount) && NoRepeats(Joined(batches))
    ensures Compact(Flat(results))
    ensures forall i :: 0 <= i < |Flat(results)| ==> Flat(results)[i].key in AsSet(Joined(batches))
  {
    hide SameCharges, Compact, NoRepeats, AsSet, BatchOk;
    if batches == [] {
      NothingCompact();
    } else {
      var n := |batches| - 1;
      DisjointHalves(Joined(batches[..n]), batches[n]);
      AccountRowsFollow(results[..n], ledger, batches[..n]);
      RowsStayInBatch(results[n], ledger, batches[n]);
      assert BatchOk(results[n], ledger, batches[n], LinkedAccount);
      OkIsCompact(results[n], ledger, batches[n], LinkedAccount);
      CompactAppend(Flat(results[..n]), results[n]);
    }
  }

  lemma NothingCompact()
    ensures Compact([])
  {
  }

  lemma OkIsCompact(breakdown: seq<Item>, ledger: Ledger, batch: seq<string>, dim: Dimension)
    requires BatchOk(breakdown, ledger, batch, dim)
    ensures Compact(breakdown)
  {
  }

  function KeepWanted(breakdown: seq<Item>, wanted: set<string>): seq<Item> {
    if breakdown == [] then []
    else
      var last := breakdown[|breakdown| - 1];
      KeepWanted(breakdown[..|breakdown| - 1], wanted) + if last.key in wanted then [last] else []
  }

  lemma {:induction false} KeptIn(breakdown: seq<Item>, wanted: set<string>)
    ensures forall x :: x in KeepWanted(breakdown, wanted) ==> x in breakdown
  {
    if breakdown != [] {
      KeptIn(breakdown[..|breakdown| - 1], wanted);
    }
  }

  lemma LastKeyIsNew(items: seq<Item>, x: Item)
    requires Compact(items) && items != [] && x in items[..|items| - 1]
    ensures x.key != items[|items| - 1].key
  {
    var i :| 0 <= i < |items| - 1 && items[i] == x;
  }

  lemma CompactSnoc(items: seq<Item>, item: Item)
    requires Compact(items) && item.amount != 0.0 && forall x :: x in items ==> x.key != item.key
    ensures Compact(items + [item])
  {
  }

  lemma {:induction false} KeptIsCompact(breakdown: seq<Item>, wanted: set<string>)
    requires Compact(breakdown)
    ensures Compact(KeepWanted(breakdown, wanted))
  {
    if breakdown != [] {
      var front, last := breakdown[..|breakdown| - 1], breakdown[|breakdown| - 1];
      LastIsNew(breakdown);
      KeptIsCompact(front, wanted);
      KeptIn(front, wanted);
      AppendNothing(KeepWanted(front, wanted));
      forall x | x in KeepWanted(front, wanted)
        ensures x.key != last.key
      {
        LastKeyIsNew(breakdown, x);
      }
      assert last.amount != 0.0;
      CompactSnoc(KeepWanted(front, wanted), last);
    }
  }

  lemma {:induction false} KeptCharges(breakdown: seq<Item>, wanted: set<string>, key: string)
    ensures KeySum(KeepWanted(breakdown, wanted), key) == if key in wanted then KeySum(breakdown, key) else 0.0
  {
    hide KeySum;
    if breakdown == [] {
      SingleCharge(Item(key, 0.0), key);
    } else {
      var front, last := breakdown[..|breakdown| - 1], breakdown[|breakdown| - 1];
      KeptCharges(front, wanted, key);
      LastCharge(breakdown, key);
      OneItem(KeepWanted(front, wanted), last, key);
      AppendNothing(KeepWanted(front, wanted));
    }
  }

  /** filterBreakdownAccounts: the wanted accounts' rows and no others, largest first. */
  method FilterBreakdownAccounts(breakdown: seq<Item>, wanted: set<string>) returns (out: seq<Item>)
    ensures forall key :: KeySum(out, key) == if key in wanted then KeySum(breakdown, key) else 0.0
    ensures Compact(breakdown) ==> Compact(out)
    ensures LargestFirst(out)
  {
    hide Compact, LargestFirst, KeySum;
    out := [];
    assert breakdown[..0] == [] && breakdown[..|breakdown|] == breakdown;
    for i := 0 to |breakdown|
      invariant out == KeepWanted(breakdown[..i], wanted)
    {
      assert breakdown[..i + 1][..i] == breakdown[..i];
      AppendNothing(out);
      if breakdown[i].key in wanted {
        out := out + [breakdown[i]];
      }
    }
    forall key
      ensures KeySum(out, key) == if key in wanted then KeySum(breakdown, key) else 0.0
    {
      KeptCharges(breakdown, wanted, key);
    }
    SortLargestKeeps(out);
    if Compact(breakdown) {
      KeptIsCompact(breakdown, wanted);
      PermutedIsCompact(out, SortLargest(out));
    }
    out := SortLargest(out);
  }

  /** A breakdown of wanted accounts only keeps all its charges. */
  lemma AllWanted(breakdown: seq<Item>, wanted: set<string>, out: seq<Item>)
    requires forall i :: 0 <= i < |breakdown| ==> breakdown[i].key in wanted
    requires forall key :: KeySum(out, key) == if key in wanted then KeySum(breakdown, key) else 0.0
    ensures SameCharges(out, breakdown)
  {
    hide KeySum;
    forall key
      ensures KeySum(out, key) == KeySum(breakdown, key)
    {
      if key !in wanted {
        AbsentKey(breakdown, key);
      }
    }
  }

  method Total(items: seq<Item>) returns (total: real)
    ensures total == SumAll(items)
  {
    total := 0.0;
    assert items[..0] == [];
    for i := 0 to |items|
      invariant total == SumAll(items[..i])
    {
      assert items[..i + 1][..i] == items[..i];
      total := total + items[i].amount;
    }
    assert items[..|items|] == items;
  }

  method Flatten(results: seq<seq<Item>>) returns (all: seq<Item>)
    ensures all == Flat(results)
  {
    all := [];
    assert results[..0] == [];
    for n := 0 to |results|
      invariant all == Flat(results[..n])
    {
      FlatSnoc(results, n);
      all := all + results[n];
    }
    assert results[..|results|] == results;
  }

  lemma PlanOfBatches(ids: seq<string>, wanted: set<string>, batches: seq<seq<string>>)
    requires Enumerates(ids, wanted) && Joined(batches) == ids
    ensures NoRepeats(Joined(batches)) && AsSet(Joined(batches)) == wanted
  {
    hide Joined;
  }

  /** The bulk path by account (and for a total or an OU rollup). */
  method FetchBulkByAccount(ce: Explorer, ghost ledger: Ledger, wanted: set<string>)
    returns (total: real, breakdown: seq<Item>)
    requires Serves(ce, ledger)
    ensures total == CostOf(ledger, Only(wanted))
    ensures Compact(breakdown) && LargestFirst(breakdown)
    ensures SameCharges(breakdown, Selected(ledger, Only(wanted), LinkedAccount))
  {
    hide Compact, SameCharges, LargestFirst, Selected, NoRepeats, AsSet, Serves, BatchOk, Enumerates, StrictlySorted,
      Joined, Flat, SumAll,
      KeySum;
    var ids := SortedAccountIds(wanted);
    var batches := BatchStrings(ids, LINKED_ACCOUNT_FILTER_BATCH_SIZE);
    PlanOfBatches(ids, wanted, batches);
    var results := FetchBatches(ce, ledger, batches, LinkedAccount);
    AccountRowsFollow(results, ledger, batches);
    BatchesCharge(results, ledger, batches, LinkedAccount);
    var rows := Flatten(results);
    breakdown := FilterBreakdownAccounts(rows, wanted);
    AllWanted(rows, wanted, breakdown);
    ChargesCarry(breakdown, rows, Selected(ledger, Only(wanted), LinkedAccount));
    total := Total(breakdown);
    SameChargesSameSum(breakdown, Selected(ledger, Only(wanted), LinkedAccount));
  }

  /** fetchAWSNetAmortizedBulkByService: the batches' services are added up. */
  method FetchBulkByService(ce: Explorer, ghost ledger: Ledger, wanted: set<string>)
    returns (total: real, breakdown: seq<Item>)
    requires Serves(ce, ledger)
    ensures total == CostOf(ledger, Only(wanted))
    ensures Compact(breakdown) && LargestFirst(breakdown)
    ensures SameCharges(breakdown, Selected(ledger, Only(wanted), Service))
  {
    hide Compact, SameCharges, LargestFirst, Selected, NoRepeats, AsSet, Serves, BatchOk, Enumerates, StrictlySorted,
      Joined, Flat, SumAll, Tallies;
    var ids := SortedAccountIds(wanted);
    var batches := BatchStrings(ids, LINKED_ACCOUNT_FILTER_BATCH_SIZE);
    PlanOfBatches(ids, wanted, batches);
    var results := FetchBatches(ce, ledger, batches, Service);
    BatchesCharge(results, ledger, batches, Service);
    var byService := TallyAll(results);
    breakdown, total := RankTally(byService, Flat(results));
    ChargesCarry(breakdown, Flat(results), Selected(ledger, Only(wanted), Service));
    SameChargesSameSum(breakdown, Selected(ledger, Only(wanted), Service));
    TotalByAnyDimension(ledger, Only(wanted), Service);
  }

  /** Add up several lists of items by key. */
  method TallyAll(results: seq<seq<Item>>) returns (byKey: map<string, real>)
    ensures Tallies(byKey, Flat(results))
  {
    hide Tallies, Flat, AddTo;
    byKey := map[];
    NoTally();
    NothingFlat(results);
    for n := 0 to |results|
      invariant Tallies(byKey, Flat(results[..n]))
    {
      FlatSnoc(results, n);
      var items := results[n];
      AppendNothing(Flat(results[..n]));
      assert items[..0] == [] && items[..|items|] == items;
      for i := 0 to |items|
        invariant Tallies(byKey, Flat(results[..n]) + items[..i])
      {
        TallyStep(byKey, Flat(results[..n]) + items[..i], items[i]);
        assert items[..i + 1] == items[..i] + [items[i]];
        AppendTwo(Flat(results[..n]), items[..i], [items[i]]);
        byKey := AddTo(byKey, items[i].key, items[i].amount);
      }
    }
  }

  lemma NothingFlat(results: seq<seq<Item>>)
    ensures Flat(results[..0]) == [] && results[..|results|] == results
  {
  }

  // ------------------------------------------------ the refinement, by charges

  /** One fetch per target: what the merged results charge. */
  function OneByOne(ledger: Ledger, targets: seq<Target>, dim: Dimension): seq<Item> {
    if targets == [] then []
    else OneByOne(ledger, targets[..|targets| - 1], dim) + Selected(ledger, ScopeOf(targets[|targets| - 1]), dim)
  }

  /** How many targets ask Cost Explorer for exactly this account. */
  function Asked(targets: seq<Target>, id: string): nat {
    if targets == [] then 0
    else Asked(targets[..|targets| - 1], id) + if targets[|targets| - 1].accountId == id then 1 else 0
  }

  ghost predicate Scoped(targets: seq<Target>) {
    forall i :: 0 <= i < |targets| ==> targets[i].ScopeToAccount() && Trim(targets[i].accountId) != ""
  }

  /** Cost Explorer names accounts by their IDs, without white space around them. */
  ghost predicate RealLedger(ledger: Ledger) {
    forall i :: 0 <= i < |ledger| ==> ledger[i].account != "" && Trim(ledger[i].account) == ledger[i].account
  }

  /** The accounts of a ledger that bulk asks for are asked for by exactly one target each. */
  ghost predicate CountsOnce(ledger: Ledger, targets: seq<Target>) {
    forall i :: 0 <= i < |ledger| ==>
      Asked(targets, ledger[i].account) == if ledger[i].account in TrimmedIds(targets) then 1 else 0
  }

  lemma {:induction false} OneByOneOfNothing(targets: seq<Target>, dim: Dimension)
    ensures OneByOne([], targets, dim) == []
  {
    if targets != [] {
      OneByOneOfNothing(targets[..|targets| - 1], dim);
    }
  }

  /** An entry is counted once for every target that asks for its account. */
  lemma {:induction false} OneMoreEntry(ledger: Ledger, targets: seq<Target>, dim: Dimension, key: string)
    requires ledger != [] && forall i :: 0 <= i < |targets| ==> targets[i].ScopeToAccount()
    ensures var front, last := ledger[..|ledger| - 1], ledger[|ledger| - 1];
      KeySum(OneByOne(ledger, targets, dim), key)
      == KeySum(OneByOne(front, targets, dim), key)
         + Asked(targets, last.account) as real * if KeyOf(last, dim) == key then last.amount else 0.0
  {
    hide KeySum, Selected, KeyOf, Target.ScopeToAccount;
    if targets != [] {
      var front, last := ledger[..|ledger| - 1], ledger[|ledger| - 1];
      var n := |targets| - 1;
      OneMoreEntry(ledger, targets[..n], dim, key);
      SelectOne(ledger, ScopeOf(targets[n]), dim, key);
      KeySumAppend(OneByOne(ledger, targets[..n], dim), Selected(ledger, ScopeOf(targets[n]), dim), key);
      KeySumAppend(OneByOne(front, targets[..n], dim), Selected(front, ScopeOf(targets[n]), dim), key);
      OneMoreTime(Asked(targets[..n], last.account), if KeyOf(last, dim) == key then last.amount else 0.0);
    }
  }

  lemma OneMoreTime(n: nat, c: real)
    ensures (n + 1) as real * c == n as real * c + c
  {
  }

  lemma {:induction false} BulkChargesKey(ledger: Ledger, targets: seq<Target>, dim: Dimension, key: string)
    requires CountsOnce(ledger, targets) && forall i :: 0 <= i < |targets| ==> targets[i].ScopeToAccount()
    ensures KeySum(Selected(ledger, Only(TrimmedIds(targets)), dim), key) == KeySum(OneByOne(ledger, targets, dim), key)
  {
    hide KeySum, Selected, OneByOne, KeyOf, TrimmedIds, Asked, Target.ScopeToAccount;
    if ledger == [] {
      OneByOneOfNothing(targets, dim);
      NothingSelected(Only(TrimmedIds(targets)), dim);
    } else {
      BulkChargesKey(ledger[..|ledger| - 1], targets, dim, key);
      SelectOne(ledger, Only(TrimmedIds(targets)), dim, key);
      OneMoreEntry(ledger, targets, dim, key);
    }
  }

  lemma NothingSelected(scope: Scope, dim: Dimension)
    ensures Selected([], scope, dim) == []
  {
  }

  /** Bulk charges every account, service and day exactly like one fetch per target. */
  lemma BulkChargesLikeOneByOne(ledger: Ledger, targets: seq<Target>, dim: Dimension)
    requires CountsOnce(ledger, targets) && forall i :: 0 <= i < |targets| ==> targets[i].ScopeToAccount()
    ensures SameCharges(Selected(ledger, Only(TrimmedIds(targets)), dim), OneByOne(ledger, targets, dim))
  {
    hide KeySum, Selected, OneByOne, TrimmedIds, CountsOnce, Target.ScopeToAccount;
    forall key
      ensures KeySum(Selected(ledger, Only(TrimmedIds(targets)), dim), key)
              == KeySum(OneByOne(ledger, targets, dim), key)
    {
      BulkChargesKey(ledger, targets, dim, key);
    }
  }

  lemma SelfCharges(a: seq<Item>)
    ensures SameCharges(a, a)
  {
  }

  // ---------------------------------------- exactly when bulk and single agree

  /** Every target's account, with white space removed, is asked for by exactly one target. */
  predicate AskedOnce(targets: seq<Target>) {
    forall i :: 0 <= i < |targets| ==> Asked(targets, Trim(targets[i].accountId)) == 1
  }

  lemma {:induction false} AskedAt(targets: seq<Target>, id: string)
    ensures Asked(targets, id) >= 1 <==> exists i :: 0 <= i < |targets| && targets[i].accountId == id
  {
    if targets != [] {
      var front := targets[..|targets| - 1];
      AskedAt(front, id);
      if Asked(front, id) >= 1 {
        var i :| 0 <= i < |front| && front[i].accountId == id;
        assert targets[i].accountId == id;
      }
      if i :| 0 <= i < |targets| && targets[i].accountId == id {
        assert i < |front| ==> front[i].accountId == id;
      }
    }
  }

  lemma AskedIds(targets: seq<Target>, id: string)
    ensures id in TrimmedIds(targets) ==> exists i :: 0 <= i < |targets| && Trim(targets[i].accountId) == id
    ensures Asked(targets, id) >= 1 && Trim(id) == id ==> id in TrimmedIds(targets)
  {
    hide Trim, Asked;
    AskedAt(targets, id);
    if id in TrimmedIds(targets) {
      var t :| t in targets && Trim(t.accountId) == id;
      var k :| 0 <= k < |targets| && targets[k] == t;
    }
  }

  lemma AskedOnceCounts(ledger: Ledger, targets: seq<Target>)
    requires AskedOnce(targets) && RealLedger(ledger)
    ensures CountsOnce(ledger, targets)
  {
    hide Trim, Asked, TrimmedIds;
    forall i | 0 <= i < |ledger|
      ensures Asked(targets, ledger[i].account) == if ledger[i].account in TrimmedIds(targets) then 1 else 0
    {
      AskedIds(targets, ledger[i].account);
    }
  }

  /** One entry of one account, service and day, as Cost Explorer returns it. */
  function OneEntry(id: string): Ledger {
    [Entry(id, "Amazon Elastic Compute Cloud - Compute", "2024-01-31", 1.0)]
  }

  lemma OneEntryCost(id: string, accounts: set<string>)
    ensures CostOf(OneEntry(id), Only(accounts)) == if id in accounts then 1.0 else 0.0
  {
    var ledger := OneEntry(id);
    SelectedTotal(ledger, Only(accounts), LinkedAccount);
    NothingSelected(Only(accounts), LinkedAccount);
    assert ledger[..0] == [];
  }

  lemma OneEntryOneByOne(id: string, targets: seq<Target>)
    requires forall i :: 0 <= i < |targets| ==> targets[i].ScopeToAccount()
    ensures SumAll(OneByOne(OneEntry(id), targets, LinkedAccount)) == Asked(targets, id) as real
  {
    hide Selected, SumAll, Asked, OneByOne, Target.ScopeToAccount, KeySum;
    var ledger := OneEntry(id);
    assert ledger[..0] == [];
    OneByOneOfNothing(targets, LinkedAccount);
    var items := OneByOne(ledger, targets, LinkedAccount);
    var same := [Item(id, Asked(targets, id) as real)];
    forall key
      ensures KeySum(items, key) == KeySum(same, key)
    {
      OneMoreEntry(ledger, targets, LinkedAccount, key);
      SingleCharge(same[0], key);
    }
    SameChargesSameSum(items, same);
    SumOfOne(same[0]);
  }

  lemma SumOfOne(item: Item)
    ensures SumAll([item]) == item.amount
  {
    assert [item][..0] == [];
  }

  ghost predicate AgreeOn(ledger: Ledger, targets: seq<Target>) {
    CostOf(ledger, Only(TrimmedIds(targets))) == SumAll(OneByOne(ledger, targets, LinkedAccount))
  }

  ghost predicate AlwaysAgree(targets: seq<Target>) {
    forall ledger: Ledger :: RealLedger(ledger) ==> AgreeOn(ledger, targets)
  }

  lemma AskedOnceAgrees(ledger: Ledger, targets: seq<Target>)
    requires Scoped(targets) && AskedOnce(targets) && RealLedger(ledger)
    ensures AgreeOn(ledger, targets)
  {
    hide Trim, TrimmedIds, Selected, SumAll, OneByOne, Asked, SameCharges, CountsOnce, AskedOnce, RealLedger;
    AskedOnceCounts(ledger, targets);
    BulkChargesLikeOneByOne(ledger, targets, LinkedAccount);
    SameChargesSameSum(Selected(ledger, Only(TrimmedIds(targets)), LinkedAccount),
                       OneByOne(ledger, targets, LinkedAccount));
  }

  lemma DisagreesUnlessAskedOnce(targets: seq<Target>, i: nat)
    requires Scoped(targets) && i < |targets| && Asked(targets, Trim(targets[i].accountId)) != 1
    ensures RealLedger(OneEntry(Trim(targets[i].accountId))) && !AgreeOn(OneEntry(Trim(targets[i].accountId)), targets)
  {
    hide Trim, Selected, SumAll, OneByOne, CostOf, Asked;
    var id := Trim(targets[i].accountId);
    TrimIsProjection(targets[i].accountId);
    TrimIsProjection(id);
    OneEntryOneByOne(id, targets);
    OneEntryCost(id, TrimmedIds(targets));
    assert targets[i] in targets;
  }

  /** Bulk and one-by-one totals agree on all that Cost Explorer can report if and only if every target's
      trimmed account is asked for exactly once: a repeated account is counted once per target one by one,
      an account that only untrimmed IDs name is not found one by one. */
  lemma BulkAgreesIffAskedOnce(targets: seq<Target>)
    requires Scoped(targets)
    ensures AlwaysAgree(targets) <==> AskedOnce(targets)
  {
    hide Trim, Asked, RealLedger, AgreeOn, Scoped, OneEntry;
    if AskedOnce(targets) {
      forall ledger: Ledger | RealLedger(ledger)
        ensures AgreeOn(ledger, targets)
      {
        AskedOnceAgrees(ledger, targets);
      }
    } else {
      var i :| 0 <= i < |targets| && Asked(targets, Trim(targets[i].accountId)) != 1;
      DisagreesUnlessAskedOnce(targets, i);
    }
  }

  /** Trimmed distinct IDs are each asked for once. */
  lemma {:induction false} DistinctIdsAskedOnce(targets: seq<Target>)
    requires forall i :: 0 <= i < |targets| ==> Trim(targets[i].accountId) == targets[i].accountId
    requires forall i, j :: 0 <= i < j < |targets| ==> targets[i].accountId != targets[j].accountId
    ensures AskedOnce(targets)
  {
    hide Trim;
    if targets != [] {
      var n := |targets| - 1;
      DistinctIdsAskedOnce(targets[..n]);
      AskedAt(targets[..n], targets[n].accountId);
    }
  }

  function LinkedTarget(accountId: string): Target {
    Target(accountId, "9", false)
  }

  lemma TrimDigits()
    ensures Trim("1") == "1" && Trim("2") == "2" && Trim("9") == "9" && Trim(" 1") == "1"
  {
    TrimIsProjection("1");
    TrimIsProjection("2");
    TrimIsProjection("9");
    TrimAfterBlank("1");
    assert " " + "1" == " 1";
  }

  lemma AskedOfTwo(a: Target, b: Target, id: string)
    ensures Asked([a, b], id) == (if a.accountId == id then 1 else 0) + if b.accountId == id then 1 else 0
  {
    assert [a, b][..1] == [a] && [a][..0] == [];
    assert Asked([a], id) == if a.accountId == id then 1 else 0;
  }

  /** Target lists that bulk is planned for and that fail: an account targeted twice, and an account whose
      only target has a blank in front of its ID. A blank does no harm beside the account itself. */
  lemma BulkCanDisagree()
    ensures var twice := [LinkedTarget("1"), LinkedTarget("1")];
      Plannable(twice) && !AlwaysAgree(twice)
    ensures var untrimmed := [LinkedTarget(" 1"), LinkedTarget("2")];
      Plannable(untrimmed) && !AlwaysAgree(untrimmed)
    ensures var both := [LinkedTarget(" 1"), LinkedTarget("1")];
      Plannable(both) && AlwaysAgree(both)
  {
    hide Trim, Asked, AlwaysAgree;
    TrimDigits();
    AskedOfTwo(LinkedTarget("1"), LinkedTarget("1"), "1");
    AskedOfTwo(LinkedTarget(" 1"), LinkedTarget("2"), "1");
    AskedOfTwo(LinkedTarget(" 1"), LinkedTarget("1"), "1");
    BulkAgreesIffAskedOnce([LinkedTarget("1"), LinkedTarget("1")]);
    BulkAgreesIffAskedOnce([LinkedTarget(" 1"), LinkedTarget("2")]);
    BulkAgreesIffAskedOnce([LinkedTarget(" 1"), LinkedTarget("1")]);
    assert Trim([LinkedTarget("1"), LinkedTarget("1")][0].accountId) == "1";
    assert Trim([LinkedTarget(" 1"), LinkedTarget("2")][0].accountId) == "1";
  }
}
