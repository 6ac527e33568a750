/** The result of an extended-support scan: findings split into current and past, sorted, summarized,
    and merged with a retry of the accounts that were skipped. */
module ScanResult {
  import opened Text
  import opened Wrappers
  import opened Tasks
  import HealthLifecycle

  datatype Record = Record(accountId: string, region: string, service: string, resourceType: string, resourceId: string,
                           version: string, extendedSupportEnd: Option<int>, endOfLife: Option<int>)

  datatype RegionWarning = RegionWarning(accountId: string, region: string, service: string, message: string)

  datatype AccountWarning = AccountWarning(accountId: string, displayAlias: string, message: string)

  datatype ResourceWarning = ResourceWarning(accountId: string, region: string, service: string, resourceType: string,
                                             resourceId: string,
                                             message: string)

  datatype Row = Row(key: string, count: nat)

  datatype Scan = Scan(records: seq<Record>, past: seq<Record>, totalCount: nat, byService: seq<Row>,
                       byAccount: seq<Row>,
                       skippedRegions: seq<RegionWarning>, skippedAccounts: seq<AccountWarning>,
                         unclassified: seq<ResourceWarning>)

  // ------------------------------------------------------- sorting by several keys

  /** Compare field by field. */
  predicate Precedes(a: seq<string>, b: seq<string>) {
    a != [] && b != [] && (Less(a[0], b[0]) || (a[0] == b[0] && Precedes(a[1..], b[1..])))
  }

  lemma {:induction false} PrecedesIsTransitive(a: seq<string>, b: seq<string>, c: seq<string>)
    requires Precedes(a, b) && Precedes(b, c)
    ensures Precedes(a, c)
  {
    hide Less;
    if Less(a[0], b[0]) && Less(b[0], c[0]) {
      LessIsTransitive(a[0], b[0], c[0]);
    } else if a[0] == b[0] && b[0] == c[0] && !Less(a[0], c[0]) {
      LessIsIrreflexive(a[0]);
      PrecedesIsTransitive(a[1..], b[1..], c[1..]);
    }
  }

  lemma {:induction false} PrecedesIsTotal(a: seq<string>, b: seq<string>)
    requires |a| == |b|
    ensures a == b || Precedes(a, b) || Precedes(b, a)
    ensures !Precedes(a, a)
  {
    hide Less;
    if a != [] {
      LessIsTotal(a[0], b[0]);
      LessIsIrreflexive(a[0]);
      PrecedesIsTotal(a[1..], b[1..]);
      assert a == [a[0]] + a[1..] && b == [b[0]] + b[1..];
    }
  }

  /** Sort keys of equal length. */
  ghost predicate Uniform<T(!new)>(key: T -> seq<string>) {
    forall x, y :: |key(x)| == |key(y)|
  }

  lemma NotAfterIsTransitive(a: seq<string>, b: seq<string>, c: seq<string>)
    requires |a| == |b| == |c| && !Precedes(b, a) && !Precedes(c, b)
    ensures !Precedes(c, a)
  {
    hide Precedes;
    PrecedesIsTotal(a, b);
    PrecedesIsTotal(b, c);
    if Precedes(c, a) && a != b {
      PrecedesIsTransitive(c, a, b);
    }
  }

  ghost predicate InOrder<T(!new)>(items: seq<T>, key: T -> seq<string>) {
    forall i, j :: 0 <= i < j < |items| ==> !Precedes(key(items[j]), key(items[i]))
  }

  function InsertBy<T>(x: T, items: seq<T>, key: T -> seq<string>): seq<T> {
    if items == [] then [x]
    else if Precedes(key(x), key(items[|items| - 1])) then InsertBy(x, items[..|items| - 1], key) + [items[|items| - 1]]
    else items + [x]
  }

  function SortBy<T>(items: seq<T>, key: T -> seq<string>): seq<T> {
    if items == [] then [] else InsertBy(items[|items| - 1], SortBy(items[..|items| - 1], key), key)
  }

  lemma {:induction false} InsertKeepsItems<T>(x: T, items: seq<T>, key: T -> seq<string>)
    ensures multiset(InsertBy(x, items, key)) == multiset(items) + multiset{x}
  {
    hide Precedes;
    if items != [] {
      assert items == items[..|items| - 1] + [items[|items| - 1]];
      InsertKeepsItems(x, items[..|items| - 1], key);
    }
  }

  lemma {:induction false} InsertKeepsOrder<T(!new)>(x: T, items: seq<T>, key: T -> seq<string>)
    requires Uniform(key) && InOrder(items, key)
    ensures forall y :: y in InsertBy(x, items, key) ==> y in items || y == x
    ensures InOrder(InsertBy(x, items, key), key)
  {
    hide Precedes;
    if items != [] {
      var front, last := items[..|items| - 1], items[|items| - 1];
      if Precedes(key(x), key(last)) {
        InsertKeepsOrder(x, front, key);
        PrecedesIsTotal(key(x), key(x));
        if Precedes(key(last), key(x)) {
          PrecedesIsTransitive(key(x), key(last), key(x));
        }
        forall y | y in front
          ensures !Precedes(key(last), key(y))
        {
          var i :| 0 <= i < |front| && front[i] == y;
          assert items[i] == y;
        }
      } else {
        forall i | 0 <= i < |items|
          ensures !Precedes(key(x), key(items[i]))
        {
          if i < |items| - 1 {
            NotAfterIsTransitive(key(items[i]), key(last), key(x));
          }
        }
      }
    }
  }

  lemma {:induction false} SortKeepsItems<T(!new)>(items: seq<T>, key: T -> seq<string>)
    requires Uniform(key)
    ensures multiset(SortBy(items, key)) == multiset(items) && InOrder(SortBy(items, key), key)
  {
    hide Precedes, InOrder, Uniform, InsertBy;
    if items == [] {
      NothingInOrder(key);
    } else {
      var front, last := items[..|items| - 1], items[|items| - 1];
      assert items == front + [last];
      SortKeepsItems(front, key);
      InsertKeepsItems(last, SortBy(front, key), key);
      InsertKeepsOrder(last, SortBy(front, key), key);
    }
  }

  lemma NothingInOrder<T(!new)>(key: T -> seq<string>)
    ensures InOrder([], key)
  {
  }

  function RecordKey(r: Record): seq<string> { [r.accountId, r.region, r.service, r.resourceType, r.resourceId] }

  function RegionKey(w: RegionWarning): seq<string> { [w.accountId, w.region, w.service, w.message] }

  function AccountKey(w: AccountWarning): seq<string> { [w.accountId, w.message] }

  function ResourceKey(w: ResourceWarning): seq<string> {
    [w.accountId, w.region, w.service, w.resourceType, w.resourceId, w.message]
  }

  // ------------------------------------------------------------------ filtering

  function Keep<T>(items: seq<T>, keep: T -> bool): seq<T> {
    if items == [] then []
    else
      var last := items[|items| - 1];
      Keep(items[..|items| - 1], keep) + if keep(last) then [last] else []
  }

  lemma {:induction false} KeptItems<T>(items: seq<T>, keep: T -> bool, x: T)
    ensures multiset(Keep(items, keep))[x] == if keep(x) then multiset(items)[x] else 0
  {
    if items != [] {
      var front, last := items[..|items| - 1], items[|items| - 1];
      assert items == front + [last];
      KeptItems(front, keep, x);
    }
  }

  method Filter<T>(items: seq<T>, keep: T -> bool) returns (kept: seq<T>)
    ensures kept == Keep(items, keep)
  {
    kept := [];
    assert items[..0] == [] && items[..|items|] == items;
    for i := 0 to |items|
      invariant kept == Keep(items[..i], keep)
    {
      assert items[..i + 1][..i] == items[..i];
      assert Keep(items[..i], keep) + [] == Keep(items[..i], keep);
      if keep(items[i]) {
        kept := kept + [items[i]];
      }
    }
  }

  // ------------------------------------------------------------------- summaries

  /** More first, then by key. */
  predicate Ahead(a: Row, b: Row) {
    a.count > b.count || (a.count == b.count && Less(a.key, b.key))
  }

  ghost predicate HasKey(rows: seq<Row>, key: string) {
    exists i :: 0 <= i < |rows| && rows[i].key == key
  }

  /** One row per key that occurs, with how often it occurs, in order. */
  ghost predicate IsSummary(rows: seq<Row>, keys: multiset<string>) {
    && (forall i, j :: 0 <= i < j < |rows| ==> Ahead(rows[i], rows[j]))
    && (forall i :: 0 <= i < |rows| ==> rows[i].count == keys[rows[i].key] > 0)
    && (forall i, j :: 0 <= i < j < |rows| ==> rows[i].key != rows[j].key)
    && (forall key :: key in keys ==> HasKey(rows, key))
  }

  function CountAll(rows: seq<Row>): nat {
    if rows == [] then 0 else CountAll(rows[..|rows| - 1]) + rows[|rows| - 1].count
  }

  /** Rows for some keys, in any order. */
  ghost predicate Counts(rows: seq<Row>, keys: multiset<string>) {
    && (forall i :: 0 <= i < |rows| ==> rows[i].count == keys[rows[i].key] > 0)
    && (forall i, j :: 0 <= i < j < |rows| ==> rows[i].key != rows[j].key)
    && (forall key :: key in keys ==> HasKey(rows, key))
  }

  /** The counts of a summary add up to the number of findings. */
  lemma {:induction false} CountsAddUp(rows: seq<Row>, keys: multiset<string>)
    requires Counts(rows, keys)
    ensures CountAll(rows) == |keys|
  {
    if rows == [] {
      forall key
        ensures key !in keys
      {
        assert !HasKey([], key);
      }
      assert keys == multiset{};
    } else {
      var front, last := rows[..|rows| - 1], rows[|rows| - 1];
      var rest := keys[last.key := 0];
      forall key | key in rest
        ensures HasKey(front, key)
      {
        assert HasKey(rows, key);
        var i :| 0 <= i < |rows| && rows[i].key == key;
        assert front[i].key == key;
      }
      CountsAddUp(front, rest);
    }
  }

  lemma AheadIsStrict(a: Row, b: Row)
    ensures Ahead(a, b) ==> !Ahead(b, a)
    ensures a.key != b.key ==> Ahead(a, b) || Ahead(b, a)
    ensures !Ahead(a, a)
  {
    hide Less;
    LessIsTotal(a.key, b.key);
    LessIsIrreflexive(a.key);
    if Less(a.key, b.key) && Less(b.key, a.key) {
      LessIsTransitive(a.key, b.key, a.key);
    }
  }

  lemma AheadIsTransitive(a: Row, b: Row, c: Row)
    requires Ahead(a, b) && Ahead(b, c)
    ensures Ahead(a, c)
  {
    hide Less;
    if a.count == b.count && b.count == c.count {
      LessIsTransitive(a.key, b.key, c.key);
    }
  }

  lemma SameRowIn(a: seq<Row>, b: seq<Row>, keys: multiset<string>, i: nat) returns (j: nat)
    requires IsSummary(a, keys) && IsSummary(b, keys) && i < |a|
    ensures j < |b| && b[j] == a[i]
  {
    hide Ahead;
    assert HasKey(b, a[i].key);
    j :| 0 <= j < |b| && b[j].key == a[i].key;
  }

  /** The summary is determined by the findings, whatever order they were counted in. */
  lemma SummaryIsUnique(a: seq<Row>, b: seq<Row>, keys: multiset<string>)
    requires IsSummary(a, keys) && IsSummary(b, keys)
    ensures a == b
  {
    hide Ahead, IsSummary;
    SummaryPrefix(a, b, keys, |a|);
    SummaryPrefix(b, a, keys, |b|);
  }

  lemma {:induction false} SummaryPrefix(a: seq<Row>, b: seq<Row>, keys: multiset<string>, n: nat)
    requires IsSummary(a, keys) && IsSummary(b, keys) && n <= |a|
    ensures n <= |b| && a[..n] == b[..n]
  {
    hide Ahead, IsSummary;
    if n > 0 {
      SummaryPrefix(a, b, keys, n - 1);
      SummaryStep(a, b, keys, n - 1);
    }
  }

  lemma RowsDiffer(rows: seq<Row>, keys: multiset<string>, i: nat, j: nat)
    requires IsSummary(rows, keys) && i < j < |rows|
    ensures rows[i] != rows[j] && Ahead(rows[i], rows[j])
  {
    hide Ahead;
  }

  lemma SummaryStep(a: seq<Row>, b: seq<Row>, keys: multiset<string>, n: nat)
    requires IsSummary(a, keys) && IsSummary(b, keys) && n < |a| && n <= |b| && a[..n] == b[..n]
    ensures n < |b| && a[..n + 1] == b[..n + 1]
  {
    hide Ahead, IsSummary;
    var j := SameRowIn(a, b, keys, n);
    if j < n {
      assert a[..n][j] == b[..n][j];
      RowsDiffer(a, keys, j, n);
    } else if j > n {
      var i := SameRowIn(b, a, keys, n);
      if i < n {
        assert a[..n][i] == b[..n][i];
        RowsDiffer(b, keys, i, n);
      } else if i == n {
        RowsDiffer(b, keys, n, j);
      } else {
        RowsDiffer(a, keys, n, i);
        RowsDiffer(b, keys, n, j);
        AheadIsStrict(a[n], b[n]);
      }
    }
  }

  function InsertRow(row: Row, rows: seq<Row>): seq<Row> {
    if rows == [] then [row]
    else if Ahead(row, rows[|rows| - 1]) then InsertRow(row, rows[..|rows| - 1]) + [rows[|rows| - 1]]
    else rows + [row]
  }

  ghost predicate Sorted(rows: seq<Row>) {
    forall i, j :: 0 <= i < j < |rows| ==> Ahead(rows[i], rows[j])
  }

  lemma {:induction false} InsertRowKeeps(row: Row, rows: seq<Row>)
    requires Sorted(rows) && forall i :: 0 <= i < |rows| ==> rows[i].key != row.key
    ensures forall x :: x in InsertRow(row, rows) <==> x in rows || x == row
    ensures Sorted(InsertRow(row, rows)) && |InsertRow(row, rows)| == |rows| + 1
  {
    hide Ahead;
    if rows != [] {
      var front, last := rows[..|rows| - 1], rows[|rows| - 1];
      AheadIsStrict(row, last);
      if Ahead(row, last) {
        InsertRowKeeps(row, front);
        forall x | x in front
          ensures Ahead(x, last)
        {
          var i :| 0 <= i < |front| && front[i] == x;
          assert rows[i] == x;
        }
      } else {
        forall i | 0 <= i < |rows|
          ensures Ahead(rows[i], row)
        {
          if i < |rows| - 1 {
            AheadIsTransitive(rows[i], last, row);
          }
        }
      }
    }
  }

  /** Rows counted so far, in order. */
  ghost predicate Ranked(rows: seq<Row>, keys: multiset<string>, done: set<string>) {
    Sorted(rows) && forall x :: x in rows <==> x.key in done && x.key in keys && x.count == keys[x.key]
  }

  lemma RankedRow(rows: seq<Row>, keys: multiset<string>, done: set<string>, key: string)
    requires Ranked(rows, keys, done) && key in keys && key !in done
    ensures Ranked(InsertRow(Row(key, keys[key]), rows), keys, done + {key})
  {
    hide Ahead, Sorted;
    forall i | 0 <= i < |rows|
      ensures rows[i].key != key
    {
      assert rows[i] in rows;
    }
    InsertRowKeeps(Row(key, keys[key]), rows);
  }

  lemma RankedIsSummary(rows: seq<Row>, keys: multiset<string>, done: set<string>)
    requires Ranked(rows, keys, done) && forall key :: key in done <==> key in keys
    ensures IsSummary(rows, keys) && Counts(rows, keys)
  {
    hide Ahead;
    forall i | 0 <= i < |rows|
      ensures rows[i].count == keys[rows[i].key] > 0
    {
      assert rows[i] in rows;
    }
    forall i, j | 0 <= i < j < |rows|
      ensures rows[i].key != rows[j].key
    {
      assert rows[i] in rows && rows[j] in rows;
      AheadIsStrict(rows[i], rows[i]);
    }
    forall key | key in keys
      ensures HasKey(rows, key)
    {
      assert Row(key, keys[key]) in rows;
      var i :| 0 <= i < |rows| && rows[i] == Row(key, keys[key]);
    }
  }

  /** summarizeByService and summarizeByAccount: counters in a map, rows in any order, then sorted. */
  method Summarize(keys: seq<string>) returns (rows: seq<Row>)
    ensures IsSummary(rows, multiset(keys)) && CountAll(rows) == |keys|
  {
    hide Ahead, Ranked, IsSummary, Counts, CountAll;
    var counts := CountKeys(keys);
    rows := [];
    NothingRanked(multiset(keys));
    var pending := counts.Keys;
    ghost var done: set<string> := {};
    while pending != {}
      invariant pending !! done && pending + done == counts.Keys && Ranked(rows, multiset(keys), done)
      decreases |pending|
    {
      var key :| key in pending;
      pending := pending - {key};
      RankedRow(rows, multiset(keys), done, key);
      done := done + {key};
      rows := InsertRow(Row(key, counts[key]), rows);
    }
    RankedIsSummary(rows, multiset(keys), done);
    CountsAddUp(rows, multiset(keys));
  }

  lemma NothingRanked(keys: multiset<string>)
    ensures Ranked([], keys, {})
  {
  }

  method CountKeys(keys: seq<string>) returns (counts: map<string, nat>)
    ensures forall key :: key in counts <==> key in multiset(keys)
    ensures forall key :: key in counts ==> counts[key] == multiset(keys)[key]
  {
    counts := map[];
    assert keys[..0] == [] && keys[..|keys|] == keys;
    for i := 0 to |keys|
      invariant forall key :: key in counts <==> key in multiset(keys[..i])
      invariant forall key :: key in counts ==> counts[key] == multiset(keys[..i])[key]
    {
      assert keys[..i + 1] == keys[..i] + [keys[i]];
      counts := counts[keys[i] := (if keys[i] in counts then counts[keys[i]] else 0) + 1];
    }
  }

  // ---------------------------------------------------------------- the result

  predicate IsPast(r: Record, now: int) {
    HealthLifecycle.DateReached(now, r.extendedSupportEnd) || HealthLifecycle.DateReached(now, r.endOfLife)
  }

  function Services(records: seq<Record>): seq<string> {
    seq(|records|, i requires 0 <= i < |records| => records[i].service)
  }

  function Accounts(records: seq<Record>): seq<string> {
    seq(|records|, i requires 0 <= i < |records| => records[i].accountId)
  }

  /** Current and past findings partition all of them; both are sorted; the counts are those of the
      current findings and add up; warnings are kept, sorted. */
  ghost predicate IsResult(s: Scan, records: multiset<Record>, regions: multiset<RegionWarning>,
                           resources: multiset<ResourceWarning>,
                           accounts: multiset<AccountWarning>, now: int) {
    && multiset(s.records) + multiset(s.past) == records
    && (forall r :: r in s.records ==> !IsPast(r, now)) && (forall r :: r in s.past ==> IsPast(r, now))
    && InOrder(s.records, RecordKey) && InOrder(s.past, RecordKey)
    && s.totalCount == |s.records| == CountAll(s.byService) == CountAll(s.byAccount)
    && IsSummary(s.byService, multiset(Services(s.records))) && IsSummary(s.byAccount, multiset(Accounts(s.records)))
    && multiset(s.skippedRegions) == regions && InOrder(s.skippedRegions, RegionKey)
    && multiset(s.skippedAccounts) == accounts && InOrder(s.skippedAccounts, AccountKey)
    && multiset(s.unclassified) == resources && InOrder(s.unclassified, ResourceKey)
  }

  /** The partition loop of buildResult. */
  method Partition(records: seq<Record>, now: int) returns (current: seq<Record>, past: seq<Record>)
    ensures multiset(current) + multiset(past) == multiset(records)
    ensures (forall r :: r in current ==> !IsPast(r, now)) && (forall r :: r in past ==> IsPast(r, now))
  {
    current, past := [], [];
    assert records[..0] == [] && records[..|records|] == records;
    for i := 0 to |records|
      invariant multiset(current) + multiset(past) == multiset(records[..i])
      invariant (forall r :: r in current ==> !IsPast(r, now)) && (forall r :: r in past ==> IsPast(r, now))
    {
      assert records[..i + 1] == records[..i] + [records[i]];
      if HealthLifecycle.DateReached(now, records[i].extendedSupportEnd)
          || HealthLifecycle.DateReached(now, records[i].endOfLife) {
        past := past + [records[i]];
      } else {
        current := current + [records[i]];
      }
    }
  }

  lemma SortedRecords(records: seq<Record>)
    ensures multiset(SortBy(records, RecordKey)) == multiset(records) && InOrder(SortBy(records, RecordKey), RecordKey)
    ensures forall r :: r in SortBy(records, RecordKey) <==> r in records
  {
    hide InOrder, SortBy;
    SortKeepsItems(records, RecordKey);
    assert forall r :: r in SortBy(records, RecordKey) <==> r in multiset(SortBy(records, RecordKey));
    assert forall r :: r in records <==> r in multiset(records);
  }

  method BuildResult(records: seq<Record>, regions: seq<RegionWarning>, resources: seq<ResourceWarning>,
                     accounts: seq<AccountWarning>, now: int)
    returns (s: Scan)
    ensures IsResult(s, multiset(records), multiset(regions), multiset(resources), multiset(accounts), now)
  {
    hide InOrder, SortBy, IsSummary, IsPast, CountAll, RegionKey, ResourceKey, AccountKey, RecordKey;
    var current, past := Partition(records, now);
    SortedRecords(current);
    SortedRecords(past);
    UniformKeys();
    SortKeepsItems(regions, RegionKey);
    SortKeepsItems(resources, ResourceKey);
    SortKeepsItems(accounts, AccountKey);
    current, past := SortBy(current, RecordKey), SortBy(past, RecordKey);
    var byService := Summarize(Services(current));
    var byAccount := Summarize(Accounts(current));
    s := Scan(current, past, |current|, byService, byAccount, SortBy(regions, RegionKey), SortBy(accounts, AccountKey),
              SortBy(resources, ResourceKey));
  }

  lemma UniformKeys()
    ensures Uniform(RegionKey) && Uniform(ResourceKey) && Uniform(AccountKey)
  {
  }

  lemma {:induction false} KeysPermute(a: seq<Record>, b: seq<Record>)
    requires multiset(a) == multiset(b)
    ensures multiset(Services(a)) == multiset(Services(b)) && multiset(Accounts(a)) == multiset(Accounts(b))
    decreases |a|
  {
    if a == [] {
      assert |b| == |multiset(b)| == |multiset(a)| == 0;
    } else {
      var front, last := a[..|a| - 1], a[|a| - 1];
      assert a == front + [last];
      assert last in multiset(b);
      var j :| 0 <= j < |b| && b[j] == last;
      WithoutOne(b, j);
      KeysPermute(front, b[..j] + b[j + 1..]);
      KeysOfOne(front, last);
      KeysOfSplit(b, j);
    }
  }

  lemma WithoutOne<T>(b: seq<T>, j: nat)
    requires j < |b|
    ensures multiset(b[..j] + b[j + 1..]) == multiset(b) - multiset{b[j]}
  {
    assert b == b[..j] + [b[j]] + b[j + 1..];
  }

  lemma KeysOfOne(front: seq<Record>, last: Record)
    ensures Services(front + [last]) == Services(front) + [last.service]
    ensures Accounts(front + [last]) == Accounts(front) + [last.accountId]
  {
  }

  lemma KeysOfSplit(b: seq<Record>, j: nat)
    requires j < |b|
    ensures multiset(Services(b)) == multiset(Services(b[..j] + b[j + 1..])) + multiset{b[j].service}
    ensures multiset(Accounts(b)) == multiset(Accounts(b[..j] + b[j + 1..])) + multiset{b[j].accountId}
  {
    assert Services(b) == Services(b[..j]) + [b[j].service] + Services(b[j + 1..]);
    assert Accounts(b) == Accounts(b[..j]) + [b[j].accountId] + Accounts(b[j + 1..]);
    assert Services(b[..j] + b[j + 1..]) == Services(b[..j]) + Services(b[j + 1..]);
    assert Accounts(b[..j] + b[j + 1..]) == Accounts(b[..j]) + Accounts(b[j + 1..]);
  }

  lemma {:induction false} SplitIsUnique(a: multiset<Record>, b: multiset<Record>, c: multiset<Record>,
                                         d: multiset<Record>, now: int)
    requires a + b == c + d
    requires (forall r :: r in a ==> !IsPast(r, now)) && (forall r :: r in b ==> IsPast(r, now))
    requires (forall r :: r in c ==> !IsPast(r, now)) && (forall r :: r in d ==> IsPast(r, now))
    ensures a == c && b == d
  {
    hide IsPast;
    forall r
      ensures a[r] == c[r] && b[r] == d[r]
    {
      assert (a + b)[r] == (c + d)[r];
    }
  }

  /** Scans that gather the same findings, in whatever order, have the same current and past findings,
      total and summaries. */
  lemma ResultIgnoresOrder(s: Scan, t: Scan, records: multiset<Record>, regions: multiset<RegionWarning>,
                           resources: multiset<ResourceWarning>, accounts: multiset<AccountWarning>, now: int)
    requires IsResult(s, records, regions, resources, accounts, now)
    requires IsResult(t, records, regions, resources, accounts, now)
    ensures multiset(s.records) == multiset(t.records) && multiset(s.past) == multiset(t.past)
    ensures s.totalCount == t.totalCount && s.byService == t.byService && s.byAccount == t.byAccount
  {
    hide IsPast, InOrder, IsSummary, Services, Accounts, CountAll;
    assert forall r :: r in s.records <==> r in multiset(s.records);
    assert forall r :: r in t.records <==> r in multiset(t.records);
    assert forall r :: r in s.past <==> r in multiset(s.past);
    assert forall r :: r in t.past <==> r in multiset(t.past);
    SplitIsUnique(multiset(s.records), multiset(s.past), multiset(t.records), multiset(t.past), now);
    KeysPermute(s.records, t.records);
    assert |s.records| == |multiset(s.records)| == |multiset(t.records)| == |t.records|;
    SummaryIsUnique(s.byService, t.byService, multiset(Services(s.records)));
    SummaryIsUnique(s.byAccount, t.byAccount, multiset(Accounts(s.records)));
  }

  // ---------------------------------------------------------------- the scan

  /** What scanning one account yields. */
  datatype AccountScan = AccountScan(accountId: string, records: seq<Record>, regions: seq<RegionWarning>,
                                     resources: seq<ResourceWarning>,
                                     skipped: Option<AccountWarning>)

  /** How the calls about one account turn out: cancelled, without credentials or regions, or with
      findings, into which the listers write the account ID that they are given. */
  datatype Outcome = Cancelled
                   | Unreachable(displayAlias: string, message: string)
                   | Scanned(records: seq<Record>, regions: seq<RegionWarning>, resources: seq<ResourceWarning>)

  function ScanOf(accountId: string, o: Outcome): AccountScan {
    match o
    case Cancelled => AccountScan(accountId, [], [], [], None)
    case Unreachable(displayAlias, message) =>
        AccountScan(accountId, [], [], [], Some(AccountWarning(accountId, displayAlias, message)))
    case Scanned(records, regions, resources) =>
      AccountScan(accountId,
                  seq(|records|, i requires 0 <= i < |records| => records[i].(accountId := accountId)),
                  seq(|regions|, i requires 0 <= i < |regions| => regions[i].(accountId := accountId)),
                  seq(|resources|, i requires 0 <= i < |resources| => resources[i].(accountId := accountId)), None)
  }

  /** All findings and warnings are about the account itself. */
  ghost predicate Own(a: AccountScan) {
    && (forall r :: r in a.records ==> r.accountId == a.accountId)
      && (forall w :: w in a.regions ==> w.accountId == a.accountId)
    && (forall w :: w in a.resources ==> w.accountId == a.accountId)
    && (a.skipped.Some? ==> a.skipped.value.accountId == a.accountId)
  }

  lemma ScansAreOwn(accountId: string, o: Outcome)
    ensures Own(ScanOf(accountId, o)) && ScanOf(accountId, o).accountId == accountId
  {
  }

  function Skips(a: AccountScan): seq<AccountWarning> {
    if a.skipped.Some? then [a.skipped.value] else []
  }

  /** One part of what all accounts yield together. */
  function AllOf<T>(scans: seq<AccountScan>, part: AccountScan -> seq<T>): multiset<T> {
    if scans == [] then multiset{} else AllOf(scans[..|scans| - 1], part) + multiset(part(scans[|scans| - 1]))
  }

  /** A result of exactly what the accounts yielded. */
  ghost predicate Gathers(s: Scan, scans: seq<AccountScan>, now: int) {
    IsResult(s, AllOf(scans, (a: AccountScan) => a.records), AllOf(scans, (a: AccountScan) => a.regions),
             AllOf(scans, (a: AccountScan) => a.resources), AllOf(scans, Skips), now)
  }

  /** Append what the accounts yielded, in the order in which they finished. */
  method Gather(finished: seq<AccountScan>, now: int) returns (s: Scan)
    ensures Gathers(s, finished, now)
  {
    hide IsResult, AllOf;
    ghost var recordsOf, regionsOf := (a: AccountScan) => a.records, (a: AccountScan) => a.regions;
    ghost var resourcesOf := (a: AccountScan) => a.resources;
    NothingYielded(recordsOf);
    NothingYielded(regionsOf);
    NothingYielded(resourcesOf);
    NothingYielded(Skips);
    var records: seq<Record> := [];
    var regions: seq<RegionWarning> := [];
    var resources: seq<ResourceWarning> := [];
    var skipped: seq<AccountWarning> := [];
    assert finished[..0] == [] && finished[..|finished|] == finished;
    for i := 0 to |finished|
      invariant multiset(records) == AllOf(finished[..i], recordsOf)
      invariant multiset(regions) == AllOf(finished[..i], regionsOf)
      invariant multiset(resources) == AllOf(finished[..i], resourcesOf)
      invariant multiset(skipped) == AllOf(finished[..i], Skips)
    {
      assert finished[..i + 1] == finished[..i] + [finished[i]];
      AllOfSnoc(finished[..i], finished[i], recordsOf);
      AllOfSnoc(finished[..i], finished[i], regionsOf);
      AllOfSnoc(finished[..i], finished[i], resourcesOf);
      AllOfSnoc(finished[..i], finished[i], Skips);
      records := records + finished[i].records;
      regions := regions + finished[i].regions;
      resources := resources + finished[i].resources;
      if finished[i].skipped.Some? {
        skipped := skipped + [finished[i].skipped.value];
      }
    }
    s := BuildResult(records, regions, resources, skipped, now);
  }

  lemma {:induction false} AllOfSplit<T>(scans: seq<AccountScan>, j: nat, part: AccountScan -> seq<T>)
    requires j < |scans|
    ensures AllOf(scans, part) == AllOf(scans[..j] + scans[j + 1..], part) + multiset(part(scans[j]))
    decreases |scans|
  {
    hide AllOf;
    var front, last := scans[..|scans| - 1], scans[|scans| - 1];
    AllOfSnoc(front, last, part);
    assert scans == front + [last];
    if j == |scans| - 1 {
      assert scans[..j] + scans[j + 1..] == front;
    } else {
      AllOfSplit(front, j, part);
      AllOfSnoc(front[..j] + front[j + 1..], last, part);
      assert scans[..j] + scans[j + 1..] == front[..j] + front[j + 1..] + [last];
    }
  }

  lemma NothingYielded<T>(part: AccountScan -> seq<T>)
    ensures AllOf([], part) == multiset{}
  {
  }

  lemma AllOfSnoc<T>(scans: seq<AccountScan>, last: AccountScan, part: AccountScan -> seq<T>)
    ensures AllOf(scans + [last], part) == AllOf(scans, part) + multiset(part(last))
  {
    assert (scans + [last])[..|scans|] == scans;
  }

  lemma {:induction false} AllOfPermutes<T>(a: seq<AccountScan>, b: seq<AccountScan>, part: AccountScan -> seq<T>)
    requires multiset(a) == multiset(b)
    ensures AllOf(a, part) == AllOf(b, part)
    decreases |a|
  {
    if a == [] {
      assert |b| == |multiset(b)| == |multiset(a)| == 0;
    } else {
      var front, last := a[..|a| - 1], a[|a| - 1];
      assert a == front + [last];
      assert last in multiset(b);
      var j :| 0 <= j < |b| && b[j] == last;
      WithoutOne(b, j);
      AllOfPermutes(front, b[..j] + b[j + 1..], part);
      AllOfSplit(b, j, part);
    }
  }

  /** Whatever order the accounts finish in, the findings, total and summaries are the same. */
  lemma FinishingOrderIsIrrelevant(s: Scan, t: Scan, a: seq<AccountScan>, b: seq<AccountScan>, now: int)
    requires Gathers(s, a, now) && Gathers(t, b, now) && multiset(a) == multiset(b)
    ensures multiset(s.records) == multiset(t.records) && multiset(s.past) == multiset(t.past)
    ensures s.totalCount == t.totalCount && s.byService == t.byService && s.byAccount == t.byAccount
  {
    hide IsResult;
    var recordsOf, regionsOf := (a: AccountScan) => a.records, (a: AccountScan) => a.regions;
    var resourcesOf := (a: AccountScan) => a.resources;
    AllOfPermutes(a, b, recordsOf);
    AllOfPermutes(a, b, regionsOf);
    AllOfPermutes(a, b, resourcesOf);
    AllOfPermutes(a, b, Skips);
    ResultIgnoresOrder(s, t, AllOf(a, recordsOf), AllOf(a, regionsOf), AllOf(a, resourcesOf), AllOf(a, Skips), now);
  }

  lemma {:induction false} AllOfHas<T>(scans: seq<AccountScan>, part: AccountScan -> seq<T>, x: T)
    returns (a: AccountScan)
    requires x in AllOf(scans, part)
    ensures a in scans && x in part(a)
  {
    var last := scans[|scans| - 1];
    if x in part(last) {
      a := last;
    } else {
      assert x !in multiset(part(last));
      a := AllOfHas(scans[..|scans| - 1], part, x);
    }
  }

  /** All findings and warnings are about the given accounts. */
  ghost predicate OnlyAbout(s: Scan, ids: set<string>) {
    && (forall r :: r in s.records ==> r.accountId in ids) && (forall r :: r in s.past ==> r.accountId in ids)
    && (forall w :: w in s.skippedRegions ==> w.accountId in ids)
    && (forall w :: w in s.skippedAccounts ==> w.accountId in ids)
    && (forall w :: w in s.unclassified ==> w.accountId in ids)
  }

  ghost predicate OwnScans(scans: seq<AccountScan>, ids: set<string>) {
    forall a :: a in scans ==> Own(a) && a.accountId in ids
  }

  /** The result of some accounts' scans is about these accounts only. */
  lemma GatheredIsOnlyAbout(s: Scan, scans: seq<AccountScan>, ids: set<string>, now: int)
    requires Gathers(s, scans, now) && OwnScans(scans, ids)
    ensures OnlyAbout(s, ids)
  {
    hide IsResult, AllOf;
    var recordsOf, regionsOf := (a: AccountScan) => a.records, (a: AccountScan) => a.regions;
    var resourcesOf := (a: AccountScan) => a.resources;
    ResultHolds(s, AllOf(scans, recordsOf), AllOf(scans, regionsOf), AllOf(scans, resourcesOf), AllOf(scans, Skips),
                now);
    forall r | r in s.records || r in s.past
      ensures r.accountId in ids
    {
      assert r in multiset(s.records) + multiset(s.past);
      var a := AllOfHas(scans, recordsOf, r);
    }
    forall w | w in s.skippedRegions
      ensures w.accountId in ids
    {
      assert w in multiset(s.skippedRegions);
      var a := AllOfHas(scans, regionsOf, w);
    }
    forall w | w in s.unclassified
      ensures w.accountId in ids
    {
      assert w in multiset(s.unclassified);
      var a := AllOfHas(scans, resourcesOf, w);
    }
    forall w | w in s.skippedAccounts
      ensures w.accountId in ids
    {
      assert w in multiset(s.skippedAccounts);
      var a := AllOfHas(scans, Skips, w);
    }
  }

  datatype FetchError = NoTargets | BlankAccountId | ScanCancelled

  function TrimmedIds(targets: seq<string>): set<string> {
    set t | t in targets :: Trim(t)
  }

  /** The scans of all targets, in target order. */
  function ScansOf(targets: seq<string>, outcomes: seq<Outcome>): seq<AccountScan>
    requires |targets| == |outcomes|
  {
    seq(|targets|, i requires 0 <= i < |targets| => ScanOf(Trim(targets[i]), outcomes[i]))
  }

  lemma ScansAreAboutTargets(targets: seq<string>, outcomes: seq<Outcome>)
    requires |targets| == |outcomes|
    ensures OwnScans(ScansOf(targets, outcomes), TrimmedIds(targets))
  {
    hide Trim, Own, ScanOf;
    forall i | 0 <= i < |targets|
      ensures Own(ScansOf(targets, outcomes)[i]) && ScansOf(targets, outcomes)[i].accountId in TrimmedIds(targets)
    {
      ScansAreOwn(Trim(targets[i]), outcomes[i]);
      assert targets[i] in targets;
    }
  }

  lemma PermutedScansAreOwn(a: seq<AccountScan>, b: seq<AccountScan>, ids: set<string>)
    requires multiset(a) == multiset(b) && OwnScans(b, ids)
    ensures OwnScans(a, ids)
  {
    hide Own;
    forall x | x in a
      ensures Own(x) && x.accountId in ids
    {
      assert x in multiset(a);
      assert x in b;
    }
  }

  /** Fetch: the accounts are scanned concurrently and may finish in any order. A blank account ID or a
      cancelled scan fails the whole; otherwise the result is of exactly what the targets' scans yielded. */
  method Fetch(targets: seq<string>, outcomes: seq<Outcome>, now: int)
    returns (r: Result<Scan, FetchError>, ghost finished: seq<AccountScan>)
    requires |targets| == |outcomes|
    ensures r.Err? <==> targets == []
                        || exists i :: 0 <= i < |targets| && (Trim(targets[i]) == "" || outcomes[i].Cancelled?)
    ensures targets == [] ==> r == Err(NoTargets)
    ensures r.Ok? ==> multiset(finished) == multiset(ScansOf(targets, outcomes)) && Gathers(r.value, finished, now)
    ensures r.Ok? ==> OnlyAbout(r.value, TrimmedIds(targets))
  {
    hide Trim, ScanOf, Gathers, OnlyAbout, TrimmedIds, Indices, OwnScans, Finished;
    ghost var scans := ScansOf(targets, outcomes);
    finished := [];
    if |targets| == 0 {
      return Err(NoTargets), finished;
    }
    var done: seq<AccountScan> := [];
    var running := Indices(|targets|);
    ghost var ended: set<nat> := {};
    NoneFinished(scans);
    while running != {}
      invariant running + ended == Indices(|targets|) && running !! ended
      invariant forall i :: i in ended ==> i < |targets| && Trim(targets[i]) != "" && !outcomes[i].Cancelled?
      invariant multiset(done) == multiset(Finished(scans, ended))
      decreases |running|
    {
      var i :| i in running;
      running := running - {i};
      var accountId := Trim(targets[i]);
      if accountId == "" {
        return Err(BlankAccountId), finished;
      }
      if outcomes[i].Cancelled? {
        return Err(ScanCancelled), finished;
      }
      OneMoreFinished(scans, ended, i);
      done := done + [ScanOf(accountId, outcomes[i])];
      ended := ended + {i};
    }
    finished := done;
    AllFinished(scans, ended);
    ScansAreAboutTargets(targets, outcomes);
    PermutedScansAreOwn(finished, scans, TrimmedIds(targets));
    var s := Gather(done, now);
    GatheredIsOnlyAbout(s, finished, TrimmedIds(targets), now);
    r := Ok(s);
  }

  // ------------------------------------------------------------------- the retry

  function SkippedIds(s: Scan): set<string> {
    set w | w in s.skippedAccounts :: w.accountId
  }

  function Retried(targets: seq<string>, skipped: set<string>): set<string> {
    set t | t in targets && Trim(t) in skipped :: Trim(t)
  }

  /** `again` lists the targets at the indices `at`, in target order, each the first for its account. */
  ghost predicate FirstsInOrder(again: seq<string>, at: seq<nat>, targets: seq<string>) {
    && |at| == |again| && (forall j, k :: 0 <= j < k < |at| ==> at[j] < at[k])
    && forall k :: 0 <= k < |at| ==> IsFirst(again[k], at[k], targets)
  }

  ghost predicate IsFirst(target: string, i: nat, targets: seq<string>) {
    i < |targets| && targets[i] == target && forall j :: 0 <= j < i ==> Trim(targets[j]) != Trim(target)
  }

  lemma RetriedIds(targets: seq<string>, skipped: set<string>, id: string)
    ensures id in Retried(targets, skipped) <==> id in skipped && exists t :: t in targets && Trim(t) == id
  {
    hide Trim;
  }

  /** The targets of the retry: those of skipped accounts, each account once, in target order. */
  method RetryTargets(targets: seq<string>, skipped: set<string>)
    returns (again: seq<string>, retried: set<string>, ghost at: seq<nat>)
    ensures retried == Retried(targets, skipped) == TrimmedIds(again)
    ensures FirstsInOrder(again, at, targets)
    ensures forall t :: t in again ==> t in targets && Trim(t) in retried
  {
    hide Trim;
    again, retried, at := [], {}, [];
    for i := 0 to |targets|
      invariant retried == Retried(targets[..i], skipped) == TrimmedIds(again)
      invariant FirstsInOrder(again, at, targets) && forall k :: 0 <= k < |at| ==> at[k] < i
      invariant forall t :: t in again ==> t in targets && Trim(t) in retried
    {
      var id := Trim(targets[i]);
      OneMoreRetried(targets, skipped, i);
      if id in skipped && id !in retried {
        OneMoreFirst(again, at, targets, skipped, i);
        OneMoreTrimmed(again, targets[i]);
        again := again + [targets[i]];
        at := at + [i];
        retried := retried + {id};
      }
    }
    assert targets[..|targets|] == targets;
  }

  lemma OneMoreRetried(targets: seq<string>, skipped: set<string>, i: nat)
    requires i < |targets|
    ensures Retried(targets[..i + 1], skipped)
            == Retried(targets[..i], skipped) + if Trim(targets[i]) in skipped then {Trim(targets[i])} else {}
  {
    hide Trim;
    assert targets[..i + 1] == targets[..i] + [targets[i]];
  }

  lemma OneMoreTrimmed(again: seq<string>, t: string)
    ensures TrimmedIds(again + [t]) == TrimmedIds(again) + {Trim(t)}
  {
    hide Trim;
  }

  lemma OneMoreFirst(again: seq<string>, at: seq<nat>, targets: seq<string>, skipped: set<string>, i: nat)
    requires FirstsInOrder(again, at, targets) && i < |targets| && forall k :: 0 <= k < |at| ==> at[k] < i
    requires Trim(targets[i]) in skipped && Trim(targets[i]) !in Retried(targets[..i], skipped)
    ensures FirstsInOrder(again + [targets[i]], at + [i], targets)
  {
    hide Trim;
    forall j | 0 <= j < i
      ensures Trim(targets[j]) != Trim(targets[i])
    {
      assert targets[..i][j] == targets[j];
      RetriedIds(targets[..i], skipped, Trim(targets[i]));
    }
  }

  function OtherRecords(retried: set<string>): Record -> bool {
    (r: Record) => r.accountId !in retried
  }

  function OtherRegions(retried: set<string>): RegionWarning -> bool {
    (w: RegionWarning) => w.accountId !in retried
  }

  function OtherResources(retried: set<string>): ResourceWarning -> bool {
    (w: ResourceWarning) => w.accountId !in retried
  }

  function OtherAccounts(retried: set<string>): AccountWarning -> bool {
    (w: AccountWarning) => w.accountId !in retried
  }

  /** Items to keep occur as often as before, the others as often as in the retry. */
  ghost predicate MergedFrom<T(!new)>(merged: multiset<T>, before: seq<T>, retry: seq<T>, keep: T -> bool) {
    forall x: T :: merged[x] == multiset(if keep(x) then before else retry)[x]
  }

  /** How the outcome relates to the earlier scan and to the retry: findings and warnings of accounts
      that are not retried stay, those of the others are the retry's. */
  ghost predicate Merges(merged: Scan, before: Scan, retry: Scan, retried: set<string>) {
    && MergedFrom(multiset(merged.records) + multiset(merged.past), before.records + before.past,
                  retry.records + retry.past,
                  OtherRecords(retried))
    && MergedFrom(multiset(merged.skippedRegions), before.skippedRegions, retry.skippedRegions, OtherRegions(retried))
    && MergedFrom(multiset(merged.unclassified), before.unclassified, retry.unclassified, OtherResources(retried))
    && MergedFrom(multiset(merged.skippedAccounts), before.skippedAccounts, retry.skippedAccounts,
                  OtherAccounts(retried))
  }

  /** What the calls about each target would turn out as. */
  function OutcomesOf(targets: seq<string>, scan: string -> Outcome): (outcomes: seq<Outcome>)
    ensures |outcomes| == |targets|
  {
    seq(|targets|, i requires 0 <= i < |targets| => scan(targets[i]))
  }

  /** RetrySkippedAccounts: fetch the skipped accounts again and merge; a failed fetch changes nothing. No
      account is newly skipped. */
  method RetrySkippedAccounts(targets: seq<string>, before: Scan, now: int, scan: string -> Outcome)
    returns (merged: Scan, ok: bool, ghost again: seq<string>, ghost finished: seq<AccountScan>)
    ensures TrimmedIds(again) == Retried(targets, SkippedIds(before)) && exists at :: FirstsInOrder(again, at, targets)
    ensures again == [] ==> ok && merged == before
    ensures again != [] ==>
              (ok <==> forall t :: t in again ==> Trim(t) != "" && !scan(t).Cancelled?)
    ensures !ok ==> merged == before
    ensures ok && again != [] ==>
              && multiset(finished) == multiset(ScansOf(again, OutcomesOf(again, scan)))
              && (exists retry :: Gathers(retry, finished, now) && Merges(merged, before, retry, TrimmedIds(again)))
              && (exists records, regions, resources, accounts ::
                  IsResult(merged, records, regions, resources, accounts, now))
    ensures forall w :: w in merged.skippedAccounts ==> w.accountId in SkippedIds(before)
  {
    hide Trim, Merges, IsResult, Gathers, OnlyAbout, ScansOf, FirstsInOrder, Retried, TrimmedIds,
      SkippedIds;
    var skipped := SkippedIds(before);
    WasSkipped(before);
    finished := [];
    var chosen, retriedIds;
    ghost var at;
    chosen, retriedIds, at := RetryTargets(targets, skipped);
    again := chosen;
    if |chosen| == 0 {
      return before, true, again, finished;
    }
    var retry;
    retry, finished := Fetch(chosen, OutcomesOf(chosen, scan), now);
    if retry.Err? {
      return before, false, again, finished;
    }
    merged := Merge(before, retry.value, retriedIds, now);
    RetriedWereSkipped(targets, skipped);
    StillSkipped(merged, before, retry.value, retriedIds);
    ok := true;
  }

  lemma WasSkipped(s: Scan)
    ensures forall w :: w in s.skippedAccounts ==> w.accountId in SkippedIds(s)
  {
  }

  lemma RetriedWereSkipped(targets: seq<string>, skipped: set<string>)
    ensures Retried(targets, skipped) <= skipped
  {
    hide Trim;
  }

  lemma StillSkipped(merged: Scan, before: Scan, retry: Scan, retried: set<string>)
    requires Merges(merged, before, retry, retried) && OnlyAbout(retry, retried) && retried <= SkippedIds(before)
    ensures forall w :: w in merged.skippedAccounts ==> w.accountId in SkippedIds(before)
  {
    forall w | w in merged.skippedAccounts
      ensures w.accountId in SkippedIds(before)
    {
      assert multiset(merged.skippedAccounts)[w] > 0;
      if w.accountId !in retried {
        assert w in before.skippedAccounts;
      }
    }
  }

  method Merge(before: Scan, retry: Scan, retried: set<string>, now: int) returns (merged: Scan)
    requires OnlyAbout(retry, retried)
    ensures Merges(merged, before, retry, retried)
    ensures exists records, regions, resources, accounts :: IsResult(merged, records, regions, resources, accounts, now)
  {
    hide IsResult, Keep, MergedFrom, OnlyAbout, OtherRecords, OtherRegions, OtherResources, OtherAccounts;
    var current := Filter(before.records, OtherRecords(retried));
    var past := Filter(before.past, OtherRecords(retried));
    var regions := Filter(before.skippedRegions, OtherRegions(retried));
    var resources := Filter(before.unclassified, OtherResources(retried));
    var accounts := Filter(before.skippedAccounts, OtherAccounts(retried));
    var allRecords := (current + past) + (retry.records + retry.past);
    merged := BuildResult(allRecords, regions + retry.skippedRegions, resources + retry.unclassified,
                          accounts + retry.skippedAccounts, now);
    ResultHolds(merged, multiset(allRecords), multiset(regions + retry.skippedRegions),
                multiset(resources + retry.unclassified),
                multiset(accounts + retry.skippedAccounts), now);
    AboutOnly(retry, retried);
    KeepAppend(before.records, before.past, OtherRecords(retried));
    KeptPlus(before.records + before.past, retry.records + retry.past, OtherRecords(retried));
    KeptPlus(before.skippedRegions, retry.skippedRegions, OtherRegions(retried));
    KeptPlus(before.unclassified, retry.unclassified, OtherResources(retried));
    KeptPlus(before.skippedAccounts, retry.skippedAccounts, OtherAccounts(retried));
  }

  lemma ResultHolds(s: Scan, records: multiset<Record>, regions: multiset<RegionWarning>,
                    resources: multiset<ResourceWarning>,
                    accounts: multiset<AccountWarning>, now: int)
    requires IsResult(s, records, regions, resources, accounts, now)
    ensures multiset(s.records) + multiset(s.past) == records && multiset(s.skippedRegions) == regions
    ensures multiset(s.unclassified) == resources && multiset(s.skippedAccounts) == accounts
  {
    hide InOrder, IsSummary, IsPast, CountAll;
  }

  lemma {:induction false} KeepAppend<T>(a: seq<T>, b: seq<T>, keep: T -> bool)
    ensures Keep(a + b, keep) == Keep(a, keep) + Keep(b, keep)
    decreases |b|
  {
    if b == [] {
      assert a + b == a;
    } else {
      assert (a + b)[..|a + b| - 1] == a + b[..|b| - 1];
      KeepAppend(a, b[..|b| - 1], keep);
    }
  }

  /** Kept items plus the retry's: each item as often as in the one or the other. */
  lemma KeptPlus<T(!new)>(before: seq<T>, retry: seq<T>, keep: T -> bool)
    requires forall y :: y in retry ==> !keep(y)
    ensures MergedFrom(multiset(Keep(before, keep) + retry), before, retry, keep)
  {
    hide Keep;
    forall x: T
      ensures multiset(Keep(before, keep) + retry)[x] == multiset(if keep(x) then before else retry)[x]
    {
      KeptItems(before, keep, x);
      assert keep(x) ==> x !in retry;
    }
  }

  lemma AboutOnly(retry: Scan, retried: set<string>)
    requires OnlyAbout(retry, retried)
    ensures forall r :: r in retry.records + retry.past ==> !OtherRecords(retried)(r)
    ensures forall w :: w in retry.skippedRegions ==> !OtherRegions(retried)(w)
    ensures forall w :: w in retry.unclassified ==> !OtherResources(retried)(w)
    ensures forall w :: w in retry.skippedAccounts ==> !OtherAccounts(retried)(w)
  {
  }
}
