/** What the result of a scan and of a retry says, field by field. */
module ScanMeaning {
  import opened Text
  import opened Wrappers
  import opened ScanResult

  /** A finding is past once a known end of extended support or of life has come. */
  lemma PastMeans(r: Record, now: int)
    ensures IsPast(r, now) <==> exists end :: end in {r.extendedSupportEnd, r.endOfLife}
                                              && end.Some? && end.value != 0 && end.value <= now
  {
    var ends := {r.extendedSupportEnd, r.endOfLife};
    assert r.extendedSupportEnd in ends && r.endOfLife in ends;
  }

  /** What an account yields: nothing but a warning if it cannot be reached; otherwise what was listed, in order
      and under the account's ID. */
  lemma ScanMeans(accountId: string, o: Outcome)
    requires !o.Cancelled?
    ensures var a := ScanOf(accountId, o);
      match o
      case Unreachable(displayAlias, message) =>
        && a.records == [] && a.regions == [] && a.resources == []
        && a.skipped == Some(AccountWarning(accountId, displayAlias, message))
      case Scanned(records, regions, resources) =>
        && a.skipped.None? && |a.records| == |records| && |a.regions| == |regions| && |a.resources| == |resources|
        && (forall i :: 0 <= i < |records| ==> a.records[i] == records[i].(accountId := accountId))
        && (forall i :: 0 <= i < |regions| ==> a.regions[i] == regions[i].(accountId := accountId))
        && (forall i :: 0 <= i < |resources| ==> a.resources[i] == resources[i].(accountId := accountId))
      case Cancelled => true
  {
  }

  // ------------------------------------------------------------------- order

  /** Ordered by the first field in which they differ. */
  predicate Sorted1(a: string, b: string, rest: bool) {
    Less(a, b) || (a == b && rest)
  }

  lemma PrecedesFirst(a: seq<string>, b: seq<string>)
    requires |a| == |b| > 0
    ensures !Precedes(b, a) <==> Sorted1(a[0], b[0], !Precedes(b[1..], a[1..]))
  {
    hide Less;
    LessIsTotal(a[0], b[0]);
    LessIsIrreflexive(a[0]);
    if Less(a[0], b[0]) && Less(b[0], a[0]) {
      LessIsTransitive(a[0], b[0], a[0]);
    }
  }

  /** Findings are ordered by account, then region, service, type of resource and ID. */
  lemma RecordsInOrder(records: seq<Record>, i: nat, j: nat)
    requires InOrder(records, RecordKey) && i < j < |records|
    ensures var (a, b) := (records[i], records[j]);
      Sorted1(a.accountId, b.accountId, Sorted1(a.region, b.region, Sorted1(a.service, b.service,
        Sorted1(a.resourceType, b.resourceType, Sorted1(a.resourceId, b.resourceId, true)))))
  {
    hide Less, Precedes, Sorted1;
    var a, b := RecordKey(records[i]), RecordKey(records[j]);
    PrecedesFirst(a, b);
    PrecedesFirst(a[1..], b[1..]);
    PrecedesFirst(a[2..], b[2..]);
    PrecedesFirst(a[3..], b[3..]);
    PrecedesFirst(a[4..], b[4..]);
    assert a[1..][1..] == a[2..] && a[2..][1..] == a[3..] && a[3..][1..] == a[4..] && a[4..][1..] == [];
    assert b[1..][1..] == b[2..] && b[2..][1..] == b[3..] && b[3..][1..] == b[4..] && b[4..][1..] == [];
    NothingPrecedes();
  }

  lemma NothingPrecedes()
    ensures !Precedes([], [])
  {
  }

  /** Skipped regions by account, region, service and message. */
  lemma RegionsInOrder(regions: seq<RegionWarning>, i: nat, j: nat)
    requires InOrder(regions, RegionKey) && i < j < |regions|
    ensures var (a, b) := (regions[i], regions[j]);
      Sorted1(a.accountId, b.accountId, Sorted1(a.region, b.region, Sorted1(a.service, b.service,
        Sorted1(a.message, b.message, true))))
  {
    hide Less, Precedes, Sorted1;
    var a, b := RegionKey(regions[i]), RegionKey(regions[j]);
    PrecedesFirst(a, b);
    PrecedesFirst(a[1..], b[1..]);
    PrecedesFirst(a[2..], b[2..]);
    PrecedesFirst(a[3..], b[3..]);
    assert a[1..][1..] == a[2..] && a[2..][1..] == a[3..] && a[3..][1..] == [];
    assert b[1..][1..] == b[2..] && b[2..][1..] == b[3..] && b[3..][1..] == [];
    NothingPrecedes();
  }

  /** Skipped accounts by account and message. */
  lemma AccountsInOrder(accounts: seq<AccountWarning>, i: nat, j: nat)
    requires InOrder(accounts, AccountKey) && i < j < |accounts|
    ensures var (a, b) := (accounts[i], accounts[j]);
      Sorted1(a.accountId, b.accountId, Sorted1(a.message, b.message, true))
  {
    hide Less, Precedes, Sorted1;
    var a, b := AccountKey(accounts[i]), AccountKey(accounts[j]);
    PrecedesFirst(a, b);
    PrecedesFirst(a[1..], b[1..]);
    assert a[1..][1..] == [] && b[1..][1..] == [];
    NothingPrecedes();
  }

  /** Unclassified resources by account, region, service, type of resource, ID and message. */
  lemma ResourcesInOrder(resources: seq<ResourceWarning>, i: nat, j: nat)
    requires InOrder(resources, ResourceKey) && i < j < |resources|
    ensures var (a, b) := (resources[i], resources[j]);
      Sorted1(a.accountId, b.accountId, Sorted1(a.region, b.region, Sorted1(a.service, b.service,
        Sorted1(a.resourceType, b.resourceType, Sorted1(a.resourceId, b.resourceId,
          Sorted1(a.message, b.message, true))))))
  {
    hide Less, Precedes, Sorted1;
    var a, b := ResourceKey(resources[i]), ResourceKey(resources[j]);
    PrecedesFirst(a, b);
    PrecedesFirst(a[1..], b[1..]);
    PrecedesFirst(a[2..], b[2..]);
    PrecedesFirst(a[3..], b[3..]);
    PrecedesFirst(a[4..], b[4..]);
    PrecedesFirst(a[5..], b[5..]);
    assert a[1..][1..] == a[2..] && a[2..][1..] == a[3..] && a[3..][1..] == a[4..] && a[4..][1..] == a[5..];
    assert b[1..][1..] == b[2..] && b[2..][1..] == b[3..] && b[3..][1..] == b[4..] && b[4..][1..] == b[5..];
    assert a[5..][1..] == [] && b[5..][1..] == [];
    NothingPrecedes();
  }

  // --------------------------------------------------------------- summaries

  /** How many findings a service or an account has. */
  function OfService(records: seq<Record>, service: string): nat {
    if records == [] then 0
    else OfService(records[..|records| - 1], service) + if records[|records| - 1].service == service then 1 else 0
  }

  function OfAccount(records: seq<Record>, account: string): nat {
    if records == [] then 0
    else OfAccount(records[..|records| - 1], account) + if records[|records| - 1].accountId == account then 1 else 0
  }

  lemma {:induction false} FindingsCounted(records: seq<Record>, key: string)
    ensures multiset(Services(records))[key] == OfService(records, key)
    ensures multiset(Accounts(records))[key] == OfAccount(records, key)
  {
    if records != [] {
      var front, last := records[..|records| - 1], records[|records| - 1];
      FindingsCounted(front, key);
      assert Services(records) == Services(front) + [last.service];
      assert Accounts(records) == Accounts(front) + [last.accountId];
    }
  }

  ghost predicate LargestFirst(rows: seq<Row>) {
    forall i, j :: 0 <= i < j < |rows| ==>
      rows[i].count > rows[j].count || (rows[i].count == rows[j].count && Less(rows[i].key, rows[j].key))
  }

  lemma SummaryIsOrdered(rows: seq<Row>, keys: multiset<string>)
    requires IsSummary(rows, keys)
    ensures LargestFirst(rows) && forall row :: row in rows ==> row.count == keys[row.key] > 0
  {
    hide Less;
    forall i, j | 0 <= i < j < |rows|
      ensures rows[i].count > rows[j].count || (rows[i].count == rows[j].count && Less(rows[i].key, rows[j].key))
    {
      assert Ahead(rows[i], rows[j]);
    }
  }

  lemma FindingHasKeys(records: seq<Record>, r: Record)
    requires r in records
    ensures r.service in multiset(Services(records)) && r.accountId in multiset(Accounts(records))
  {
    var i :| 0 <= i < |records| && records[i] == r;
    assert Services(records)[i] == r.service && Accounts(records)[i] == r.accountId;
  }

  /** The summaries have a row for each service and each account with current findings, and say how many, more of
      them first and otherwise by name; the total is the number of current findings. */
  lemma SummariesMean(s: Scan, records: multiset<Record>, regions: multiset<RegionWarning>,
                      resources: multiset<ResourceWarning>, accounts: multiset<AccountWarning>, now: int)
    requires IsResult(s, records, regions, resources, accounts, now)
    ensures LargestFirst(s.byService) && LargestFirst(s.byAccount) && s.totalCount == |s.records|
    ensures forall row :: row in s.byService ==> row.count == OfService(s.records, row.key) > 0
    ensures forall row :: row in s.byAccount ==> row.count == OfAccount(s.records, row.key) > 0
    ensures forall r :: r in s.records ==> HasKey(s.byService, r.service) && HasKey(s.byAccount, r.accountId)
  {
    hide HasKey, InOrder, LargestFirst, Ahead, Services, Accounts, IsPast, CountAll, OfService, OfAccount;
    SummaryIsOrdered(s.byService, multiset(Services(s.records)));
    SummaryIsOrdered(s.byAccount, multiset(Accounts(s.records)));
    forall row | row in s.byService
      ensures row.count == OfService(s.records, row.key)
    {
      FindingsCounted(s.records, row.key);
    }
    forall row | row in s.byAccount
      ensures row.count == OfAccount(s.records, row.key)
    {
      FindingsCounted(s.records, row.key);
    }
    forall r | r in s.records
      ensures HasKey(s.byService, r.service) && HasKey(s.byAccount, r.accountId)
    {
      FindingHasKeys(s.records, r);
    }
  }

  // ------------------------------------------------------------------- merging

  /** After a retry, whatever is about a retried account is the retry's, and whatever is about any other account is
      what it was, each as often. */
  lemma MergeMeans(merged: Scan, before: Scan, retry: Scan, retried: set<string>)
    requires Merges(merged, before, retry, retried)
    ensures forall r: Record ::
      (multiset(merged.records) + multiset(merged.past))[r]
      == multiset(if r.accountId in retried then retry.records + retry.past else before.records + before.past)[r]
    ensures forall w: RegionWarning ::
      multiset(merged.skippedRegions)[w]
      == multiset(if w.accountId in retried then retry.skippedRegions else before.skippedRegions)[w]
    ensures forall w: ResourceWarning ::
      multiset(merged.unclassified)[w]
      == multiset(if w.accountId in retried then retry.unclassified else before.unclassified)[w]
    ensures forall w: AccountWarning ::
      multiset(merged.skippedAccounts)[w]
      == multiset(if w.accountId in retried then retry.skippedAccounts else before.skippedAccounts)[w]
  {
  }
}
