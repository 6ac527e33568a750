/** What a fetch adds up to, target by target: every target's own account, or everything its payer has. */
module FetchedTotals {
  import opened Text
  import opened Charges
  import opened CostExplorer
  import opened BulkFetch
  import opened CostFetch

  /** A target that stands for one account: flagged, or linked to a payer that is another account. */
  predicate OneAccount(t: Target) {
    t.scopeAccountOnly || (Trim(t.payerAccountId) != "" && Trim(t.payerAccountId) != Trim(t.accountId))
  }

  /** The account that pays for a target. */
  function PayerOf(t: Target): string {
    if Trim(t.payerAccountId) == "" then Trim(t.accountId) else Trim(t.payerAccountId)
  }

  /** Everything, or what is for one service, one account or one day. */
  datatype Part = All | OfService(name: string) | OfAccount(name: string) | OfDay(name: string)

  predicate Counts(e: Entry, t: Target, part: Part) {
    && (OneAccount(t) ==> e.account == t.accountId)
    && match part
       case All => true
       case OfService(name) => e.service == name
       case OfAccount(name) => e.account == name
       case OfDay(name) => e.day == name
  }

  /** What a ledger has for a target: for its own account, or for every account. */
  function Spent(ledger: Ledger, t: Target, part: Part): real {
    if ledger == [] then 0.0
    else
      var last := ledger[|ledger| - 1];
      Spent(ledger[..|ledger| - 1], t, part) + if Counts(last, t, part) then last.amount else 0.0
  }

  function Cost(ledgers: Ledgers, part: Part): Target -> real {
    (t: Target) => Spent(ledgers(PayerOf(t)), t, part)
  }

  function SumOver(cost: Target -> real, targets: seq<Target>): real {
    if targets == [] then 0.0
    else SumOver(cost, targets[..|targets| - 1]) + cost(targets[|targets| - 1])
  }

  lemma TargetScope(t: Target)
    ensures ScopeOf(t) == if OneAccount(t) then Only({t.accountId}) else Everything
    ensures t.CredentialsAccountId() == PayerOf(t)
  {
    hide Trim;
  }

  /** A bulk fetch is planned for two or more targets of one payer that each stand for one account with an ID. */
  lemma PlannableMeans(targets: seq<Target>)
    ensures Plannable(targets)
            <==> |targets| >= 2 && forall t :: t in targets ==>
                   OneAccount(t) && Trim(t.accountId) != "" && PayerOf(t) == PayerOf(targets[0])
  {
    hide Trim, Fits, OneAccount, PayerOf;
    forall t: Target
      ensures targets != [] ==>
                (Fits(t, targets[0].CredentialsAccountId())
                 <==> OneAccount(t) && Trim(t.accountId) != "" && PayerOf(t) == PayerOf(targets[0]))
    {
      if targets != [] {
        FitsMeans(t, targets[0]);
      }
    }
  }

  lemma FitsMeans(t: Target, first: Target)
    ensures Fits(t, first.CredentialsAccountId())
            <==> OneAccount(t) && Trim(t.accountId) != "" && PayerOf(t) == PayerOf(first)
  {
    hide Trim;
    TargetScope(t);
    TargetScope(first);
    ScopeMeans(t);
  }

  lemma ScopeMeans(t: Target)
    ensures t.ScopeToAccount() <==> OneAccount(t)
  {
    hide Trim;
  }

  // ------------------------------------------------- only targets are charged

  ghost predicate Targeted(targets: seq<Target>, account: string) {
    exists t :: t in targets && (t.accountId == account || Trim(t.accountId) == account)
  }

  lemma {:induction false} SinglesChargeTargets(ledger: Ledger, targets: seq<Target>, account: string)
    requires (forall t :: t in targets ==> OneAccount(t)) && !Targeted(targets, account)
    ensures KeySum(OneByOne(ledger, targets, LinkedAccount), account) == 0.0
  {
    hide KeySum, Selected, OneAccount, ScopeOf, Trim;
    if targets == [] {
      SingleCharge(Item("", 0.0), account);
    } else {
      var front, last := targets[..|targets| - 1], targets[|targets| - 1];
      assert last in targets;
      SinglesChargeTargets(ledger, front, account);
      TargetScope(last);
      OutsideFilter(ledger, {last.accountId}, account);
      KeySumAppend(OneByOne(ledger, front, LinkedAccount), Selected(ledger, ScopeOf(last), LinkedAccount), account);
    }
  }

  lemma GroupChargesTargets(ledger: Ledger, targets: seq<Target>, account: string)
    requires (forall t :: t in targets ==> OneAccount(t)) && !Targeted(targets, account)
    ensures KeySum(ChargesOf(ledger, targets, LinkedAccount), account) == 0.0
  {
    hide KeySum, Selected, OneAccount, OneByOne, Plannable, Trim;
    SinglesChargeTargets(ledger, targets, account);
    OutsideFilter(ledger, TrimmedIds(targets), account);
  }

  lemma {:induction false} GroupIsPart(targets: seq<Target>, id: string)
    ensures forall t :: t in GroupOf(targets, id) ==> t in targets
  {
    hide Target.CredentialsAccountId;
    if targets != [] {
      GroupIsPart(targets[..|targets| - 1], id);
    }
  }

  /** When every target stands for one account, nothing else is charged. */
  lemma {:induction false} OnlyTargetsCharged(ledgers: Ledgers, targets: seq<Target>, ids: seq<string>, account: string)
    requires (forall t :: t in targets ==> OneAccount(t)) && !Targeted(targets, account)
    ensures KeySum(ChargesOfAll(ledgers, targets, ids, LinkedAccount), account) == 0.0
  {
    hide KeySum, ChargesOf, OneAccount, GroupOf, Trim;
    if ids == [] {
      SingleCharge(Item("", 0.0), account);
    } else {
      var front, last := ids[..|ids| - 1], ids[|ids| - 1];
      OnlyTargetsCharged(ledgers, targets, front, account);
      GroupIsPart(targets, last);
      GroupChargesTargets(ledgers(last), GroupOf(targets, last), account);
      KeySumAppend(ChargesOfAll(ledgers, targets, front, LinkedAccount),
                   ChargesOf(ledgers(last), GroupOf(targets, last), LinkedAccount), account);
    }
  }

  /** So a report by account has rows of targets only, and its total is theirs. */
  lemma ReportNamesTargetsOnly(r: CostResult, ledgers: Ledgers, targets: seq<Target>, ids: seq<string>, data: OuData,
                               account: string)
    requires Reports(r, ByAccount, ChargesOfAll(ledgers, targets, ids, LinkedAccount), data)
    requires (forall t :: t in targets ==> OneAccount(t)) && !Targeted(targets, account)
    ensures KeySum(r.breakdown, account) == 0.0
  {
    hide KeySum, ChargesOfAll, OneAccount, Targeted, SumAll;
    OnlyTargetsCharged(ledgers, targets, ids, account);
  }

  // ---------------------------------------------------- the sum over targets

  ghost predicate Each(targets: seq<Target>, ids: seq<string>) {
    && (forall t :: t in targets ==> PayerOf(t) in ids)
    && (forall i, j :: 0 <= i < j < |ids| ==> ids[i] != ids[j])
  }

  function SumOverGroups(cost: Target -> real, targets: seq<Target>, ids: seq<string>): real {
    if ids == [] then 0.0
    else SumOverGroups(cost, targets, ids[..|ids| - 1]) + SumOver(cost, GroupOf(targets, ids[|ids| - 1]))
  }

  lemma GroupSnoc(targets: seq<Target>, id: string)
    requires targets != []
    ensures var front, last := targets[..|targets| - 1], targets[|targets| - 1];
      GroupOf(targets, id) == if PayerOf(last) == id then GroupOf(front, id) + [last] else GroupOf(front, id)
  {
    hide Trim;
    TargetScope(targets[|targets| - 1]);
    var front := GroupOf(targets[..|targets| - 1], id);
    assert front + [] == front;
  }

  lemma SumSnoc(cost: Target -> real, targets: seq<Target>, t: Target)
    ensures SumOver(cost, targets + [t]) == SumOver(cost, targets) + cost(t)
  {
    assert (targets + [t])[..|targets|] == targets;
  }

  /** One more target adds its cost to its payer's group, whether or not the payer comes first. */
  lemma {:induction false} GroupsSnoc(cost: Target -> real, targets: seq<Target>, ids: seq<string>)
    requires targets != [] && forall i, j :: 0 <= i < j < |ids| ==> ids[i] != ids[j]
    ensures var front, last := targets[..|targets| - 1], targets[|targets| - 1];
      SumOverGroups(cost, targets, ids)
      == SumOverGroups(cost, front, ids) + if PayerOf(last) in ids then cost(last) else 0.0
  {
    hide GroupOf, SumOver, PayerOf;
    if ids != [] {
      var n := |ids| - 1;
      GroupsSnoc(cost, targets, ids[..n]);
      GroupSnoc(targets, ids[n]);
      SumSnoc(cost, GroupOf(targets[..|targets| - 1], ids[n]), targets[|targets| - 1]);
      assert ids == ids[..n] + [ids[n]];
      assert ids[n] !in ids[..n];
    }
  }

  lemma {:induction false} NoGroups(cost: Target -> real, ids: seq<string>)
    ensures SumOverGroups(cost, [], ids) == 0.0
  {
    if ids != [] {
      NoGroups(cost, ids[..|ids| - 1]);
    }
  }

  /** Grouping by payer only reorders the targets. */
  lemma {:induction false} GroupsAddUp(cost: Target -> real, targets: seq<Target>, ids: seq<string>)
    requires Each(targets, ids)
    ensures SumOverGroups(cost, targets, ids) == SumOver(cost, targets)
  {
    hide SumOverGroups, PayerOf;
    if targets == [] {
      NoGroups(cost, ids);
    } else {
      assert targets[|targets| - 1] in targets;
      GroupsAddUp(cost, targets[..|targets| - 1], ids);
      GroupsSnoc(cost, targets, ids);
    }
  }

  // ------------------------------------------------------- measuring charges

  /** The total of some charges, or what they have under one key. */
  function Measure(items: seq<Item>, part: Part): real {
    match part
    case All => SumAll(items)
    case OfService(name) => KeySum(items, name)
    case OfAccount(name) => KeySum(items, name)
    case OfDay(name) => KeySum(items, name)
  }

  /** Charges by this dimension tell that part. */
  predicate Tells(dim: Dimension, part: Part) {
    match part
    case All => true
    case OfService(_) => dim.Service?
    case OfAccount(_) => dim.LinkedAccount?
    case OfDay(_) => dim.Day?
  }

  lemma MeasureAppend(a: seq<Item>, b: seq<Item>, part: Part)
    ensures Measure(a + b, part) == Measure(a, part) + Measure(b, part)
  {
    hide SumAll, KeySum;
    SumAppend(a, b);
    if !part.All? {
      KeySumAppend(a, b, part.name);
    }
  }

  lemma NothingMeasured(part: Part)
    ensures Measure([], part) == 0.0
  {
  }

  lemma MeasureCharges(a: seq<Item>, b: seq<Item>, part: Part)
    requires SameCharges(a, b)
    ensures Measure(a, part) == Measure(b, part)
  {
    hide SumAll, KeySum;
    SameChargesSameSum(a, b);
  }

  lemma MeasureOne(item: Item, part: Part)
    ensures Measure([item], part) == if part.All? || item.key == part.name then item.amount else 0.0
  {
    NothingMeasured(part);
    OneItem([], item, if part.All? then "" else part.name);
    assert [] + [item] == [item];
  }

  lemma {:induction false} SpentMeans(ledger: Ledger, t: Target, dim: Dimension, part: Part)
    requires Tells(dim, part)
    ensures Measure(Selected(ledger, ScopeOf(t), dim), part) == Spent(ledger, t, part)
  {
    hide SumAll, KeySum, Measure, OneAccount, Target.ScopeToAccount;
    if ledger == [] {
      NothingMeasured(part);
    } else {
      var front, last := ledger[..|ledger| - 1], ledger[|ledger| - 1];
      SpentMeans(front, t, dim, part);
      TargetScope(t);
      var more := if InScope(last, ScopeOf(t)) then [Item(KeyOf(last, dim), last.amount)] else [];
      MeasureAppend(Selected(front, ScopeOf(t), dim), more, part);
      MeasureOne(Item(KeyOf(last, dim), last.amount), part);
      NothingMeasured(part);
    }
  }

  lemma {:induction false} SinglesAddUp(ledgers: Ledgers, targets: seq<Target>, id: string, dim: Dimension, part: Part)
    requires Tells(dim, part) && forall t :: t in targets ==> PayerOf(t) == id
    ensures Measure(OneByOne(ledgers(id), targets, dim), part) == SumOver(Cost(ledgers, part), targets)
  {
    hide Measure, Selected, Spent, ScopeOf, PayerOf;
    if targets == [] {
      NothingMeasured(part);
    } else {
      var front, last := targets[..|targets| - 1], targets[|targets| - 1];
      assert last in targets;
      SinglesAddUp(ledgers, front, id, dim, part);
      SpentMeans(ledgers(id), last, dim, part);
      MeasureAppend(OneByOne(ledgers(id), front, dim), Selected(ledgers(id), ScopeOf(last), dim), part);
    }
  }

  /** Each payer's targets are fetched one by one, or in bulk with every account asked for once. */
  ghost predicate GroupIsProper(ledgers: Ledgers, targets: seq<Target>, id: string) {
    Plannable(GroupOf(targets, id)) ==> AskedOnce(GroupOf(targets, id)) && RealLedger(ledgers(id))
  }

  lemma {:induction false} GroupPays(targets: seq<Target>, id: string)
    ensures forall t :: t in GroupOf(targets, id) ==> PayerOf(t) == id
  {
    hide PayerOf, GroupOf;
    if targets == [] {
      NoGroupOf(id);
    } else {
      GroupPays(targets[..|targets| - 1], id);
      GroupSnoc(targets, id);
    }
  }

  lemma NoGroupOf(id: string)
    ensures GroupOf([], id) == []
  {
  }

  lemma GroupAddsUp(ledgers: Ledgers, targets: seq<Target>, id: string, dim: Dimension, part: Part)
    requires Tells(dim, part) && GroupIsProper(ledgers, targets, id)
    ensures Measure(ChargesOf(ledgers(id), GroupOf(targets, id), dim), part)
         == SumOver(Cost(ledgers, part), GroupOf(targets, id))
  {
    hide Measure, SameCharges, Selected, OneByOne, GroupOf, Plannable, AskedOnce, RealLedger, TrimmedIds, PayerOf, Cost;
    var group := GroupOf(targets, id);
    GroupPays(targets, id);
    SinglesAddUp(ledgers, group, id, dim, part);
    if Plannable(group) {
      BulkChargesLikeSingles(ledgers(id), group, dim);
      MeasureCharges(Selected(ledgers(id), Only(TrimmedIds(group)), dim), OneByOne(ledgers(id), group, dim), part);
    }
  }

  lemma {:induction false} AllGroupsAddUp(ledgers: Ledgers, targets: seq<Target>, ids: seq<string>, dim: Dimension,
                                          part: Part)
    requires Tells(dim, part) && forall id :: id in ids ==> GroupIsProper(ledgers, targets, id)
    ensures Measure(ChargesOfAll(ledgers, targets, ids, dim), part) == SumOverGroups(Cost(ledgers, part), targets, ids)
  {
    hide Measure, ChargesOf, GroupIsProper, GroupOf, SumOver, Cost;
    if ids == [] {
      NothingMeasured(part);
    } else {
      var front, last := ids[..|ids| - 1], ids[|ids| - 1];
      AllGroupsAddUp(ledgers, targets, front, dim, part);
      GroupAddsUp(ledgers, targets, last, dim, part);
      MeasureAppend(ChargesOfAll(ledgers, targets, front, dim), ChargesOf(ledgers(last), GroupOf(targets, last), dim),
                    part);
    }
  }

  lemma PayersEnumerated(targets: seq<Target>, ids: seq<string>)
    requires Enumerates(ids, CredentialIds(targets))
    ensures Each(targets, ids)
  {
    hide PayerOf, Target.CredentialsAccountId;
    forall t | t in targets
      ensures PayerOf(t) in ids
    {
      TargetScope(t);
      assert t.CredentialsAccountId() in CredentialIds(targets);
    }
  }

  lemma ChargesAddUp(ledgers: Ledgers, targets: seq<Target>, ids: seq<string>, dim: Dimension, part: Part)
    requires Enumerates(ids, CredentialIds(targets)) && forall id :: id in ids ==> GroupIsProper(ledgers, targets, id)
    requires Tells(dim, part)
    ensures Measure(ChargesOfAll(ledgers, targets, ids, dim), part) == SumOver(Cost(ledgers, part), targets)
  {
    hide Measure, ChargesOfAll, SumOver, SumOverGroups, GroupIsProper, CredentialIds, Enumerates, Each, Cost;
    PayersEnumerated(targets, ids);
    AllGroupsAddUp(ledgers, targets, ids, dim, part);
    GroupsAddUp(Cost(ledgers, part), targets, ids);
  }

  /** Fetching, in bulk or one by one: the total is the sum over the targets of what each costs on its payer's
      ledger, and a breakdown has under each service, or each account, what the targets cost there. */
  lemma FetchAddsUpTargets(r: CostResult, ledgers: Ledgers, targets: seq<Target>, ids: seq<string>, groupBy: GroupBy,
                           data: OuData, name: string)
    requires Enumerates(ids, CredentialIds(targets)) && forall id :: id in ids ==> GroupIsProper(ledgers, targets, id)
    requires Reports(r, groupBy, ChargesOfAll(ledgers, targets, ids, DimensionOf(groupBy)), data)
    ensures r.amount == SumOver(Cost(ledgers, All), targets)
    ensures groupBy.ByService? ==> KeySum(r.breakdown, name) == SumOver(Cost(ledgers, OfService(name)), targets)
    ensures groupBy.ByAccount? ==> KeySum(r.breakdown, name) == SumOver(Cost(ledgers, OfAccount(name)), targets)
  {
    hide SumAll, KeySum, ChargesOfAll, SumOver, GroupIsProper, CredentialIds, Enumerates, ReportsOus, Cost;
    ChargesAddUp(ledgers, targets, ids, DimensionOf(groupBy), All);
    if groupBy.ByService? {
      ChargesAddUp(ledgers, targets, ids, Service, OfService(name));
    }
    if groupBy.ByAccount? {
      ChargesAddUp(ledgers, targets, ids, LinkedAccount, OfAccount(name));
    }
  }

  /** And the daily series has for each day what the targets cost on that day. */
  lemma DailyAddsUpTargets(series: seq<Item>, ledgers: Ledgers, targets: seq<Target>, ids: seq<string>, day: string)
    requires Enumerates(ids, CredentialIds(targets)) && forall id :: id in ids ==> GroupIsProper(ledgers, targets, id)
    requires SameCharges(series, ChargesOfAll(ledgers, targets, ids, Day))
    ensures KeySum(series, day) == SumOver(Cost(ledgers, OfDay(day)), targets)
  {
    hide KeySum, ChargesOfAll, SumOver, GroupIsProper, CredentialIds, Enumerates, Cost;
    ChargesAddUp(ledgers, targets, ids, Day, OfDay(day));
  }
}
