/** Cost Explorer as a ledger of amounts per account, service and day, its paged answers, and the
    loops that add the answers up. */
module CostExplorer {
  import opened Text
  import opened Wrappers
  import opened Charges

  datatype Entry = Entry(account: string, service: string, day: string, amount: real)
  type Ledger = seq<Entry>

  /** A query covers the whole payer, or the linked accounts of a filter. */
  datatype Scope = Everything | Only(accounts: set<string>)

  datatype Dimension = LinkedAccount | Service | Day

  function KeyOf(e: Entry, dim: Dimension): string {
    match dim
    case LinkedAccount => e.account
    case Service => e.service
    case Day => e.day
  }

  predicate InScope(e: Entry, scope: Scope) {
    scope.Everything? || e.account in scope.accounts
  }

  /** The amounts a query selects, by one dimension. */
  function Selected(ledger: Ledger, scope: Scope, dim: Dimension): seq<Item> {
    if ledger == [] then []
    else
      var last := ledger[|ledger| - 1];
      Selected(ledger[..|ledger| - 1], scope, dim)
          + if InScope(last, scope) then [Item(KeyOf(last, dim), last.amount)] else []
  }

  function CostOf(ledger: Ledger, scope: Scope): real {
    SumAll(Selected(ledger, scope, LinkedAccount))
  }

  /** The total does not depend on the dimension by which it is grouped. */
  lemma {:induction false} TotalByAnyDimension(ledger: Ledger, scope: Scope, dim: Dimension)
    ensures SumAll(Selected(ledger, scope, dim)) == CostOf(ledger, scope)
  {
    hide SumAll;
    if ledger != [] {
      var front, last := ledger[..|ledger| - 1], ledger[|ledger| - 1];
      TotalByAnyDimension(front, scope, dim);
      SelectedTotal(ledger, scope, dim);
      SelectedTotal(ledger, scope, LinkedAccount);
    }
  }

  lemma SelectedTotal(ledger: Ledger, scope: Scope, dim: Dimension)
    requires ledger != []
    ensures var front, last := ledger[..|ledger| - 1], ledger[|ledger| - 1];
      SumAll(Selected(ledger, scope, dim))
          == SumAll(Selected(front, scope, dim)) + if InScope(last, scope) then last.amount else 0.0
  {
    var front, last := ledger[..|ledger| - 1], ledger[|ledger| - 1];
    SelectedSnoc(ledger, scope, dim);
    hide Selected, SumAll;
    if InScope(last, scope) {
      OneItem(Selected(front, scope, dim), Item(KeyOf(last, dim), last.amount), "");
    } else {
      AppendNothing(Selected(front, scope, dim));
    }
  }

  lemma SelectedSnoc(ledger: Ledger, scope: Scope, dim: Dimension)
    requires ledger != []
    ensures var front, last := ledger[..|ledger| - 1], ledger[|ledger| - 1];
      Selected(ledger, scope, dim)
      == Selected(front, scope, dim) + if InScope(last, scope) then [Item(KeyOf(last, dim), last.amount)] else []
  {
  }

  /** Filters on disjoint sets of accounts split every charge. */
  lemma {:induction false} DisjointScopesAdd(ledger: Ledger, a: set<string>, b: set<string>, dim: Dimension,
                                             key: string)
    requires a !! b
    ensures KeySum(Selected(ledger, Only(a + b), dim), key)
         == KeySum(Selected(ledger, Only(a), dim), key) + KeySum(Selected(ledger, Only(b), dim), key)
  {
    if ledger != [] {
      var front, last := ledger[..|ledger| - 1], ledger[|ledger| - 1];
      DisjointScopesAdd(front, a, b, dim, key);
      SelectOne(ledger, Only(a + b), dim, key);
      SelectOne(ledger, Only(a), dim, key);
      SelectOne(ledger, Only(b), dim, key);
    }
  }

  lemma SelectOne(ledger: Ledger, scope: Scope, dim: Dimension, key: string)
    requires ledger != []
    ensures var front, last := ledger[..|ledger| - 1], ledger[|ledger| - 1];
      KeySum(Selected(ledger, scope, dim), key)
      == KeySum(Selected(front, scope, dim), key)
          + if InScope(last, scope) && KeyOf(last, dim) == key then last.amount else 0.0
  {
    hide KeySum;
    var front, last := ledger[..|ledger| - 1], ledger[|ledger| - 1];
    if InScope(last, scope) {
      OneItem(Selected(front, scope, dim), Item(KeyOf(last, dim), last.amount), key);
    } else {
      assert Selected(front, scope, dim) + [] == Selected(front, scope, dim);
    }
  }

  lemma SplitScope(ledger: Ledger, a: set<string>, b: set<string>, dim: Dimension)
    requires a !! b
    ensures SameCharges(Selected(ledger, Only(a + b), dim),
                        Selected(ledger, Only(a), dim) + Selected(ledger, Only(b), dim))
  {
    hide KeySum, Selected;
    forall key
      ensures KeySum(Selected(ledger, Only(a + b), dim), key)
           == KeySum(Selected(ledger, Only(a), dim) + Selected(ledger, Only(b), dim), key)
    {
      DisjointScopesAdd(ledger, a, b, dim, key);
      KeySumAppend(Selected(ledger, Only(a), dim), Selected(ledger, Only(b), dim), key);
    }
  }

  lemma {:induction false} EmptyScope(ledger: Ledger, dim: Dimension)
    ensures Selected(ledger, Only({}), dim) == []
  {
    if ledger != [] {
      EmptyScope(ledger[..|ledger| - 1], dim);
    }
  }

  /** By account, only accounts of the filter are charged. */
  lemma {:induction false} OutsideFilter(ledger: Ledger, accounts: set<string>, key: string)
    requires key !in accounts
    ensures KeySum(Selected(ledger, Only(accounts), LinkedAccount), key) == 0.0
  {
    if ledger != [] {
      OutsideFilter(ledger[..|ledger| - 1], accounts, key);
      SelectOne(ledger, Only(accounts), LinkedAccount, key);
    }
  }

  // ------------------------------------------------------------ paged answers

  /** A group of a row: its keys, and the metric if the answer carries it. */
  datatype Group = Group(keys: seq<string>, amount: Option<real>)

  datatype TimeRow = TimeRow(start: string, total: Option<real>, groups: seq<Group>)

  type Page = seq<TimeRow>

  /** Groups that count: those with a key and the metric. */
  function GroupItems(groups: seq<Group>): seq<Item> {
    if groups == [] then []
    else
      var last := groups[|groups| - 1];
      GroupItems(groups[..|groups| - 1])
        + if |last.keys| > 0 && last.amount.Some? then [Item(last.keys[0], last.amount.value)] else []
  }

  function GroupedItems(rows: seq<TimeRow>): seq<Item> {
    if rows == [] then [] else GroupedItems(rows[..|rows| - 1]) + GroupItems(rows[|rows| - 1].groups)
  }

  /** Rows that count for a daily series: dated, with the metric. */
  function DailyItems(rows: seq<TimeRow>): seq<Item> {
    if rows == [] then []
    else
      var last := rows[|rows| - 1];
      DailyItems(rows[..|rows| - 1])
        + if Trim(last.start) != "" && last.total.Some? then [Item(Trim(last.start), last.total.value)] else []
  }

  function RowTotals(rows: seq<TimeRow>): real {
    if rows == [] then 0.0
    else
      var last := rows[|rows| - 1];
      RowTotals(rows[..|rows| - 1]) + if last.total.Some? then last.total.value else 0.0
  }

  function AllRows(pages: seq<Page>): seq<TimeRow> {
    if pages == [] then [] else AllRows(pages[..|pages| - 1]) + pages[|pages| - 1]
  }

  /** A true answer to a grouped query, split into rows and pages in whatever way. */
  ghost predicate AnswersGrouped(pages: seq<Page>, ledger: Ledger, scope: Scope, dim: Dimension) {
    SameCharges(GroupedItems(AllRows(pages)), Selected(ledger, scope, dim))
  }

  /** A true answer to an ungrouped daily query: every amount comes with its day. */
  ghost predicate AnswersDaily(pages: seq<Page>, ledger: Ledger, scope: Scope) {
    && SameCharges(DailyItems(AllRows(pages)), Selected(ledger, scope, Day))
    && forall i :: 0 <= i < |AllRows(pages)| ==> AllRows(pages)[i].total.Some? ==> Trim(AllRows(pages)[i].start) != ""
  }

  lemma {:induction false} DatedTotals(rows: seq<TimeRow>)
    requires forall i :: 0 <= i < |rows| ==> rows[i].total.Some? ==> Trim(rows[i].start) != ""
    ensures RowTotals(rows) == SumAll(DailyItems(rows))
  {
    hide Trim;
    if rows != [] {
      var front, last := rows[..|rows| - 1], rows[|rows| - 1];
      DatedTotals(front);
      if last.total.Some? {
        OneItem(DailyItems(front), Item(Trim(last.start), last.total.value), "");
      } else {
        AppendNothing(DailyItems(front));
      }
    }
  }

  // ------------------------------------------------------- one step of a loop

  lemma PageStep(pages: seq<Page>, p: nat, r: nat)
    requires p < |pages| && r < |pages[p]|
    ensures AllRows(pages[..p]) + pages[p][..r + 1] == AllRows(pages[..p]) + pages[p][..r] + [pages[p][r]]
  {
  }

  lemma PageEnd(pages: seq<Page>, p: nat)
    requires p < |pages|
    ensures AllRows(pages[..p + 1]) == AllRows(pages[..p]) + pages[p] && pages[p][..|pages[p]|] == pages[p]
    ensures AllRows(pages[..p]) + pages[p][..0] == AllRows(pages[..p])
  {
    assert pages[..p + 1][..p] == pages[..p];
  }

  lemma RowStep(rows: seq<TimeRow>, row: TimeRow)
    ensures GroupedItems(rows + [row]) == GroupedItems(rows) + GroupItems(row.groups)
    ensures RowTotals(rows + [row]) == RowTotals(rows) + if row.total.Some? then row.total.value else 0.0
    ensures DailyItems(rows + [row])
         == DailyItems(rows)
             + if Trim(row.start) != "" && row.total.Some? then [Item(Trim(row.start), row.total.value)] else []
  {
    assert (rows + [row])[..|rows|] == rows;
  }

  lemma GroupStep(groups: seq<Group>, g: nat)
    requires g < |groups|
    ensures GroupItems(groups[..g + 1]) == GroupItems(groups[..g])
              + if |groups[g].keys| > 0 && groups[g].amount.Some? then [Item(groups[g].keys[0], groups[g].amount.value)]
                  else []
    ensures groups[..|groups|] == groups
  {
    assert groups[..g + 1][..g] == groups[..g];
  }

  lemma NothingRead()
    ensures AllRows([]) == [] && GroupedItems([]) == [] && DailyItems([]) == [] && RowTotals([]) == 0.0
    ensures GroupItems([]) == []
  {
  }

  lemma AppendNothing<T>(a: seq<T>)
    ensures a + [] == a
  {
  }

  lemma AppendTwo<T>(a: seq<T>, b: seq<T>, c: seq<T>)
    ensures (a + b) + c == a + (b + c)
  {
  }

  // ------------------------------------------------------------ adding up

  /** sumNetAmortizedGrouped. */
  method SumGrouped(pages: seq<Page>, ghost ledger: Ledger, ghost scope: Scope, ghost dim: Dimension)
    returns (total: real, breakdown: seq<Item>)
    requires AnswersGrouped(pages, ledger, scope, dim)
    ensures total == CostOf(ledger, scope)
    ensures Compact(breakdown) && SameCharges(breakdown, Selected(ledger, scope, dim)) && LargestFirst(breakdown)
  {
    hide Tallies, SameCharges, Compact, LargestFirst, GroupedItems, GroupItems, AllRows, Selected, CostOf, RowTotals,
      DailyItems, SumAll;
    var byKey: map<string, real> := map[];
    NoTally();
    NothingRead();
    assert pages[..0] == [];
    for p := 0 to |pages|
      invariant Tallies(byKey, GroupedItems(AllRows(pages[..p])))
    {
      PageEnd(pages, p);
      var page := pages[p];
      for r := 0 to |page|
        invariant Tallies(byKey, GroupedItems(AllRows(pages[..p]) + page[..r]))
      {
        PageStep(pages, p, r);
        ghost var before := GroupedItems(AllRows(pages[..p]) + page[..r]);
        RowStep(AllRows(pages[..p]) + page[..r], page[r]);
        byKey := TallyGroups(page[r].groups, byKey, before);
      }
    }
    assert pages[..|pages|] == pages;
    breakdown, total := RankTally(byKey, GroupedItems(AllRows(pages)));
    ChargesCarry(breakdown, GroupedItems(AllRows(pages)), Selected(ledger, scope, dim));
    SameChargesSameSum(breakdown, Selected(ledger, scope, dim));
    TotalByAnyDimension(ledger, scope, dim);
  }

  lemma ChargesCarry(a: seq<Item>, b: seq<Item>, c: seq<Item>)
    requires SameCharges(a, b) && SameCharges(b, c)
    ensures SameCharges(a, c)
  {
    hide KeySum;
    assert forall key :: KeySum(a, key) == KeySum(b, key);
  }

  method TallyGroups(groups: seq<Group>, before: map<string, real>, ghost items: seq<Item>)
    returns (byKey: map<string, real>)
    requires Tallies(before, items)
    ensures Tallies(byKey, items + GroupItems(groups))
  {
    hide Tallies, GroupItems, AddTo;
    byKey := before;
    NothingRead();
    AppendNothing(items);
    assert groups[..0] == [] && groups[..|groups|] == groups;
    for g := 0 to |groups|
      invariant Tallies(byKey, items + GroupItems(groups[..g]))
    {
      GroupStep(groups, g);
      AppendNothing(GroupItems(groups[..g]));
      if |groups[g].keys| == 0 {
        continue;
      }
      var key := groups[g].keys[0];
      if groups[g].amount.None? {
        continue;
      }
      TallyStep(byKey, items + GroupItems(groups[..g]), Item(key, groups[g].amount.value));
      AppendTwo(items, GroupItems(groups[..g]), [Item(key, groups[g].amount.value)]);
      byKey := AddTo(byKey, key, groups[g].amount.value);
    }
  }

  /** sumNetAmortizedCost. */
  method SumCost(pages: seq<Page>, ghost ledger: Ledger, ghost scope: Scope) returns (total: real)
    requires AnswersDaily(pages, ledger, scope)
    ensures total == CostOf(ledger, scope)
  {
    hide GroupedItems, AllRows, Selected, CostOf, RowTotals, DailyItems, SumAll, SameCharges;
    total := 0.0;
    NothingRead();
    assert pages[..0] == [];
    for p := 0 to |pages|
      invariant total == RowTotals(AllRows(pages[..p]))
    {
      PageEnd(pages, p);
      var page := pages[p];
      for r := 0 to |page|
        invariant total == RowTotals(AllRows(pages[..p]) + page[..r])
      {
        PageStep(pages, p, r);
        RowStep(AllRows(pages[..p]) + page[..r], page[r]);
        if page[r].total.None? {
          continue;
        }
        total := total + page[r].total.value;
      }
    }
    assert pages[..|pages|] == pages;
    DatedTotals(AllRows(pages));
    SameChargesSameSum(DailyItems(AllRows(pages)), Selected(ledger, scope, Day));
    TotalByAnyDimension(ledger, scope, Day);
  }

  ghost predicate ByDate(series: seq<Item>) {
    forall i, j :: 0 <= i < j < |series| ==> Less(series[i].key, series[j].key)
  }

  /** sumNetAmortizedDaily. */
  method SumDaily(pages: seq<Page>, ghost ledger: Ledger, ghost scope: Scope) returns (daily: seq<Item>)
    requires AnswersDaily(pages, ledger, scope)
    ensures Compact(daily) && SameCharges(daily, Selected(ledger, scope, Day)) && ByDate(daily)
  {
    hide Tallies, SameCharges, Compact, ByDate, GroupedItems, AllRows, Selected, RowTotals, DailyItems, Trim, AddTo;
    var byDate: map<string, real> := map[];
    NoTally();
    NothingRead();
    assert pages[..0] == [];
    for p := 0 to |pages|
      invariant Tallies(byDate, DailyItems(AllRows(pages[..p])))
    {
      PageEnd(pages, p);
      var page := pages[p];
      for r := 0 to |page|
        invariant Tallies(byDate, DailyItems(AllRows(pages[..p]) + page[..r]))
      {
        PageStep(pages, p, r);
        RowStep(AllRows(pages[..p]) + page[..r], page[r]);
        var date := Trim(page[r].start);
        AppendNothing(DailyItems(AllRows(pages[..p]) + page[..r]));
        if date == "" {
          continue;
        }
        if page[r].total.None? {
          continue;
        }
        TallyStep(byDate, DailyItems(AllRows(pages[..p]) + page[..r]), Item(date, page[r].total.value));
        byDate := AddTo(byDate, date, page[r].total.value);
      }
    }
    assert pages[..|pages|] == pages;
    daily := SeriesOf(byDate, DailyItems(AllRows(pages)));
    ChargesCarry(daily, DailyItems(AllRows(pages)), Selected(ledger, scope, Day));
  }

  // ---------------------------------------------------------- series by date

  function InsertByDate(item: Item, series: seq<Item>): seq<Item> {
    if series == [] then [item]
    else
      var last := series[|series| - 1];
      if Less(item.key, last.key) then InsertByDate(item, series[..|series| - 1]) + [last] else series + [item]
  }

  lemma {:induction false} InsertByDateCharges(item: Item, series: seq<Item>, key: string)
    ensures KeySum(InsertByDate(item, series), key)
            == KeySum(series, key) + if item.key == key then item.amount else 0.0
  {
    hide Less, KeySum;
    if series == [] {
      SingleCharge(item, key);
    } else {
      var front, last := series[..|series| - 1], series[|series| - 1];
      InsertByDateCharges(item, front, key);
      OneItem(series, item, key);
      OneItem(InsertByDate(item, front), last, key);
      LastCharge(series, key);
    }
  }

  lemma {:induction false} InsertByDateItems(item: Item, series: seq<Item>)
    ensures forall x :: x in InsertByDate(item, series) <==> x in series || x == item
    ensures |InsertByDate(item, series)| == |series| + 1
  {
    hide Less;
    if series != [] {
      assert series == series[..|series| - 1] + [series[|series| - 1]];
      InsertByDateItems(item, series[..|series| - 1]);
    }
  }

  lemma LastDay(series: seq<Item>)
    requires ByDate(series) && series != []
    ensures forall x :: x in series[..|series| - 1] ==> Less(x.key, series[|series| - 1].key)
  {
    hide Less;
    var front := series[..|series| - 1];
    forall x | x in front
      ensures Less(x.key, series[|series| - 1].key)
    {
      var i :| 0 <= i < |front| && front[i] == x;
      assert series[i] == x;
    }
  }

  lemma AfterLastDay(series: seq<Item>, item: Item)
    requires ByDate(series) && series != [] && Less(series[|series| - 1].key, item.key)
    ensures ByDate(series + [item])
  {
    hide Less;
    forall i | 0 <= i < |series| - 1
      ensures Less(series[i].key, item.key)
    {
      LessIsTransitive(series[i].key, series[|series| - 1].key, item.key);
    }
  }

  lemma {:induction false} InsertByDateKeeps(item: Item, series: seq<Item>)
    requires ByDate(series) && forall i :: 0 <= i < |series| ==> series[i].key != item.key
    ensures ByDate(InsertByDate(item, series))
  {
    hide Less;
    if series != [] {
      var front, last := series[..|series| - 1], series[|series| - 1];
      LessIsTotal(item.key, last.key);
      if Less(item.key, last.key) {
        InsertByDateKeeps(item, front);
        InsertByDateItems(item, front);
        LastDay(series);
      } else {
        AfterLastDay(series, item);
      }
    }
  }

  function SortByDate(series: seq<Item>): seq<Item> {
    if series == [] then [] else InsertByDate(series[|series| - 1], SortByDate(series[..|series| - 1]))
  }

  lemma {:induction false} SortByDateKeeps(series: seq<Item>)
    requires Compact(series)
    ensures forall x :: x in SortByDate(series) <==> x in series
    ensures ByDate(SortByDate(series)) && SameCharges(SortByDate(series), series)
  {
    hide Less, ByDate, InsertByDate, KeySum;
    if series == [] {
      NoDates();
    } else {
      var front, last := series[..|series| - 1], series[|series| - 1];
      SortByDateKeeps(front);
      forall i | 0 <= i < |SortByDate(front)|
        ensures SortByDate(front)[i].key != last.key
      {
        assert SortByDate(front)[i] in front;
      }
      InsertByDateItems(last, SortByDate(front));
      InsertByDateKeeps(last, SortByDate(front));
      assert front + [last] == series;
      forall key
        ensures KeySum(SortByDate(series), key) == KeySum(series, key)
      {
        InsertByDateCharges(last, SortByDate(front), key);
        LastCharge(series, key);
      }
    }
  }

  lemma NoDates()
    ensures ByDate([])
  {
  }

  lemma SeriesIsCompact(rows: seq<Item>, series: seq<Item>)
    requires Compact(rows) && ByDate(series) && forall x :: x in series <==> x in rows
    ensures Compact(series)
  {
    hide Less;
    forall i, j | 0 <= i < j < |series|
      ensures series[i].key != series[j].key
    {
      LessIsIrreflexive(series[i].key);
    }
    forall i | 0 <= i < |series|
      ensures series[i].amount != 0.0
    {
      assert series[i] in rows;
    }
  }

  /** The non-zero days of a tally, in order. */
  method SeriesOf(byDate: map<string, real>, ghost items: seq<Item>) returns (series: seq<Item>)
    requires Tallies(byDate, items)
    ensures Compact(series) && SameCharges(series, items) && ByDate(series)
  {
    hide Tallies, KeySum, Compact, SameCharges, ByDate;
    var rows, total := NonZeroRows(byDate, items);
    SortByDateKeeps(rows);
    SeriesIsCompact(rows, SortByDate(rows));
    ChargesCarry(SortByDate(rows), rows, items);
    series := SortByDate(rows);
  }

  /** A daily series is determined by what it charges to each day. */
  lemma SeriesIsUnique(a: seq<Item>, b: seq<Item>)
    requires Compact(a) && Compact(b) && ByDate(a) && ByDate(b) && SameCharges(a, b)
    ensures a == b
  {
    hide KeySum, Less;
    SeriesPrefix(a, b, |a|);
    SameFlipped(a, b);
    SeriesPrefix(b, a, |b|);
  }

  lemma {:induction false} SeriesPrefix(a: seq<Item>, b: seq<Item>, n: nat)
    requires Compact(a) && Compact(b) && ByDate(a) && ByDate(b) && SameCharges(a, b) && n <= |a|
    ensures n <= |b| && a[..n] == b[..n]
  {
    hide KeySum, Less;
    if n > 0 {
      SeriesPrefix(a, b, n - 1);
      SeriesPrefixStep(a, b, n - 1);
    }
  }

  lemma IndexIn(a: seq<Item>, b: seq<Item>, n: nat) returns (j: nat)
    requires Compact(a) && Compact(b) && SameCharges(a, b) && n < |a|
    ensures j < |b| && b[j] == a[n]
  {
    CompactRowsAgree(a, b, n);
    j :| 0 <= j < |b| && b[j] == a[n];
  }

  lemma SameDayTwice(series: seq<Item>, i: nat, j: nat)
    requires ByDate(series) && i < j < |series|
    ensures series[i].key != series[j].key
  {
    LessIsIrreflexive(series[i].key);
  }

  lemma SeriesPrefixStep(a: seq<Item>, b: seq<Item>, n: nat)
    requires Compact(a) && Compact(b) && ByDate(a) && ByDate(b) && SameCharges(a, b) && n < |a| && n <= |b|
    requires a[..n] == b[..n]
    ensures n < |b| && a[n] == b[n] && a[..n + 1] == b[..n + 1]
  {
    hide KeySum, Less, SameCharges, Compact;
    var j := IndexIn(a, b, n);
    if j < n {
      assert a[..n][j] == b[..n][j];
      SameDayTwice(a, j, n);
    } else if j > n {
      SameFlipped(a, b);
      var i := IndexIn(b, a, n);
      if i < n {
        assert a[..n][i] == b[..n][i];
        SameDayTwice(b, i, n);
      } else if i > n {
        LessIsTransitive(a[n].key, b[n].key, a[n].key);
        LessIsIrreflexive(a[n].key);
      } else {
        SameDayTwice(b, n, j);
      }
    }
  }

  lemma SameFlipped(a: seq<Item>, b: seq<Item>)
    requires SameCharges(a, b)
    ensures SameCharges(b, a)
  {
    hide KeySum;
    assert forall key :: KeySum(a, key) == KeySum(b, key);
  }
}
