/** Listing the accounts below an OU breadth first, with a depth limit, and mapping accounts to the
    child OU that contains them. */
module OrgListing {
  import opened Text
  import opened Wrappers
  import opened Hierarchy
  import opened OuTotals
  import opened OrgTree
  import opened OrgWalk

  /** effectiveOUMaxDepth: None means unbounded. */
  function EffectiveMaxDepth(opts: ListOptions): (limit: Option<nat>)
    ensures limit.None? <==> !opts.directOnly && (!opts.depthGiven || opts.maxDepth < 0)
    ensures opts.directOnly ==> limit == Some(0)
    ensures !opts.directOnly && opts.depthGiven && opts.maxDepth >= 0 ==> limit == Some(opts.maxDepth)
  {
    if opts.directOnly then Some(0)
    else if !opts.depthGiven then None
    else if opts.maxDepth < 0 then None
    else Some(opts.maxDepth)
  }

  function Deeper(limit: Option<nat>): Option<nat>
    requires limit != Some(0)
  {
    if limit.None? then None else Some(limit.value - 1)
  }

  /** The accounts listed in an OU and up to `limit` levels below it. */
  function MembersWithin(ou: Ou, opts: ListOptions, limit: Option<nat>): set<Member>
    decreases ou, 0
  {
    SetOf(Listed(ou.accounts, opts))
        + if limit == Some(0) then {} else MembersWithinAll(ou.children, opts, Deeper(limit))
  }

  function MembersWithinAll(ous: seq<Ou>, opts: ListOptions, limit: Option<nat>): set<Member>
    decreases ous, 1, |ous|
  {
    if ous == [] then {}
    else MembersWithinAll(ous[..|ous| - 1], opts, limit) + MembersWithin(ous[|ous| - 1], opts, limit)
  }

  function SetOf(members: seq<Member>): set<Member> {
    set m | m in members
  }

  function IdsOfMembers(members: set<Member>): set<string> {
    set m | m in members :: m.id
  }

  // --------------------------------------------------------------- the queue

  datatype Item = Item(ou: Ou, depth: nat)

  function Remaining(limit: Option<nat>, depth: nat): Option<nat> {
    if limit.None? then None else Some(if depth >= limit.value then 0 else limit.value - depth)
  }

  /** What is still to be found from the queue. */
  function Pending(queue: seq<Item>, opts: ListOptions, limit: Option<nat>): set<Member> {
    if queue == [] then {}
    else MembersWithin(queue[0].ou, opts, Remaining(limit, queue[0].depth)) + Pending(queue[1..], opts, limit)
  }

  function Nodes(ou: Ou): nat
    decreases ou, 0
  {
    1 + NodesAll(ou.children)
  }

  function NodesAll(ous: seq<Ou>): nat
    decreases ous, 1, |ous|
  {
    if ous == [] then 0 else NodesAll(ous[..|ous| - 1]) + Nodes(ous[|ous| - 1])
  }

  function Load(queue: seq<Item>): nat {
    if queue == [] then 0 else Nodes(queue[0].ou) + Load(queue[1..])
  }

  lemma {:induction false} EnqueueOne(queue: seq<Item>, item: Item, opts: ListOptions, limit: Option<nat>)
    ensures Pending(queue + [item], opts, limit)
            == Pending(queue, opts, limit) + MembersWithin(item.ou, opts, Remaining(limit, item.depth))
    ensures Load(queue + [item]) == Load(queue) + Nodes(item.ou)
  {
    hide MembersWithin, Nodes;
    if queue == [] {
      assert [item][1..] == [];
    } else {
      EnqueueOne(queue[1..], item, opts, limit);
      assert (queue + [item])[1..] == queue[1..] + [item];
    }
  }

  // ---------------------------------------------------------- the result so far

  ghost predicate NoAccountTwice(out: seq<Member>) {
    forall i, j :: 0 <= i < j < |out| ==> out[i].id != out[j].id
  }

  /** Every account seen is listed once, as it was found. */
  ghost predicate Collected(out: seq<Member>, seen: set<string>, found: set<Member>) {
    && NoAccountTwice(out)
    && (forall m :: m in out ==> m in found)
    && (forall id :: id in seen <==> exists m :: m in out && m.id == id)
    && (forall m :: m in found ==> m.id in seen)
  }

  lemma CollectStep(out: seq<Member>, seen: set<string>, found: set<Member>, m: Member)
    requires Collected(out, seen, found)
    ensures m.id in seen ==> Collected(out, seen, found + {m})
    ensures m.id !in seen ==> Collected(out + [m], seen + {m.id}, found + {m})
  {
    if m.id !in seen {
      var grown := out + [m];
      forall id
        ensures id in seen + {m.id} <==> exists x :: x in grown && x.id == id
      {
        if id == m.id {
          assert grown[|out|] == m;
        }
      }
      forall i | 0 <= i < |out|
        ensures grown[i].id != m.id
      {
        assert out[i] in out;
      }
    }
  }

  method Collect(members: seq<Member>, out: seq<Member>, seen: set<string>, ghost found: set<Member>)
    returns (out': seq<Member>, seen': set<string>)
    requires Collected(out, seen, found)
    ensures Collected(out', seen', found + SetOf(members))
  {
    hide Collected;
    out', seen' := out, seen;
    assert found + SetOf(members[..0]) == found;
    for i := 0 to |members|
      invariant Collected(out', seen', found + SetOf(members[..i]))
    {
      var m := members[i];
      CollectStep(out', seen', found + SetOf(members[..i]), m);
      assert found + SetOf(members[..i + 1]) == found + SetOf(members[..i]) + {m} by {
        assert members[..i + 1] == members[..i] + [m];
      }
      if m.id !in seen' {
        seen' := seen' + {m.id};
        out' := out' + [m];
      }
    }
    assert members[..|members|] == members;
  }

  // ------------------------------------------------------------- sorted output

  /** By name, then by ID. */
  predicate Before(a: Member, b: Member) {
    Less(a.name, b.name) || (a.name == b.name && Less(a.id, b.id))
  }

  function InsertMember(m: Member, sorted: seq<Member>): seq<Member> {
    if sorted == [] then [m]
    else if Before(m, sorted[|sorted| - 1]) then InsertMember(m, sorted[..|sorted| - 1]) + [sorted[|sorted| - 1]]
    else sorted + [m]
  }

  function SortMembers(members: seq<Member>): seq<Member> {
    if members == [] then [] else InsertMember(members[|members| - 1], SortMembers(members[..|members| - 1]))
  }

  lemma {:induction false} InsertKeepsMembers(m: Member, sorted: seq<Member>)
    ensures multiset(InsertMember(m, sorted)) == multiset(sorted) + multiset{m}
  {
    if sorted != [] {
      assert sorted == sorted[..|sorted| - 1] + [sorted[|sorted| - 1]];
      InsertKeepsMembers(m, sorted[..|sorted| - 1]);
    }
  }

  lemma {:induction false} SortKeepsMembers(members: seq<Member>)
    ensures multiset(SortMembers(members)) == multiset(members)
  {
    if members != [] {
      assert members == members[..|members| - 1] + [members[|members| - 1]];
      SortKeepsMembers(members[..|members| - 1]);
      InsertKeepsMembers(members[|members| - 1], SortMembers(members[..|members| - 1]));
    }
  }

  ghost predicate InOrder(members: seq<Member>) {
    forall i, j :: 0 <= i < j < |members| ==> !Before(members[j], members[i])
  }

  lemma BeforeIsTotal(a: Member, b: Member)
    ensures Before(a, b) || Before(b, a) || a == b
    ensures !Before(a, a)
  {
    hide Less;
    LessIsTotal(a.name, b.name);
    LessIsTotal(a.id, b.id);
    LessIsIrreflexive(a.name);
    LessIsIrreflexive(a.id);
  }

  lemma BeforeIsTransitive(a: Member, b: Member, c: Member)
    requires Before(a, b) && Before(b, c)
    ensures Before(a, c)
  {
    hide Less;
    if Less(a.name, b.name) && Less(b.name, c.name) {
      LessIsTransitive(a.name, b.name, c.name);
    }
    if Less(a.id, b.id) && Less(b.id, c.id) {
      LessIsTransitive(a.id, b.id, c.id);
    }
  }

  lemma NotAfterIsTransitive(a: Member, b: Member, c: Member)
    requires !Before(b, a) && !Before(c, b)
    ensures !Before(c, a)
  {
    hide Before;
    BeforeIsTotal(a, b);
    BeforeIsTotal(b, c);
    if Before(c, a) {
      if a != b {
        BeforeIsTransitive(c, a, b);
      }
    }
  }

  lemma {:induction false} InsertKeepsOrder(m: Member, sorted: seq<Member>)
    requires InOrder(sorted)
    ensures forall x :: x in InsertMember(m, sorted) ==> x in sorted || x == m
    ensures InOrder(InsertMember(m, sorted))
  {
    hide Before;
    if sorted != [] {
      var front, last := sorted[..|sorted| - 1], sorted[|sorted| - 1];
      if Before(m, last) {
        InsertKeepsOrder(m, front);
        BeforeIsTotal(m, last);
        if Before(last, m) {
          BeforeIsTransitive(m, last, m);
        }
        forall x | x in front
          ensures !Before(last, x)
        {
          var i :| 0 <= i < |front| && front[i] == x;
          assert sorted[i] == x;
        }
      } else {
        forall i | 0 <= i < |sorted|
          ensures !Before(m, sorted[i])
        {
          if i < |sorted| - 1 {
            NotAfterIsTransitive(sorted[i], last, m);
          }
        }
      }
    }
  }

  lemma {:induction false} SortIsInOrder(members: seq<Member>)
    ensures InOrder(SortMembers(members))
  {
    hide InOrder;
    if members == [] {
      NothingInOrder();
    } else {
      SortIsInOrder(members[..|members| - 1]);
      InsertKeepsOrder(members[|members| - 1], SortMembers(members[..|members| - 1]));
    }
  }

  lemma NothingInOrder()
    ensures InOrder([])
  {
  }

  lemma SortKeepsAccounts(out: seq<Member>)
    requires NoAccountTwice(out)
    ensures NoAccountTwice(SortMembers(out)) && forall m :: m in SortMembers(out) <==> m in out
  {
    hide SortMembers;
    SortKeepsMembers(out);
    var sorted := SortMembers(out);
    assert forall m :: m in sorted <==> m in multiset(sorted);
    assert forall m :: m in out <==> m in multiset(out);
    forall i, j | 0 <= i < j < |sorted|
      ensures sorted[i].id != sorted[j].id
    {
      TwoMembers(sorted, i, j);
      OneOfEach(out, sorted[i]);
      assert sorted[i] in out && sorted[j] in out;
    }
  }

  lemma TwoMembers(members: seq<Member>, i: nat, j: nat)
    requires i < j < |members|
    ensures members[i] == members[j] ==> multiset(members)[members[i]] >= 2
  {
    var front, back := members[..j], members[j..];
    assert members == front + back;
    assert multiset(members) == multiset(front) + multiset(back);
    assert front[i] in front && back[0] in back;
  }

  lemma {:induction false} OneOfEach(out: seq<Member>, m: Member)
    requires NoAccountTwice(out)
    ensures multiset(out)[m] <= 1
  {
    if out != [] {
      var front := out[..|out| - 1];
      assert out == front + [out[|out| - 1]];
      OneOfEach(front, m);
      if m == out[|out| - 1] {
        assert m !in front;
      }
    }
  }

  // ----------------------------------------------------------- breadth first

  lemma DequeueStep(queue: seq<Item>, opts: ListOptions, limit: Option<nat>)
    requires queue != []
    ensures Pending(queue, opts, limit)
         == SetOf(Listed(queue[0].ou.accounts, opts))
            + (if limit.Some? && queue[0].depth >= limit.value then {}
               else MembersWithinAll(queue[0].ou.children, opts, Remaining(limit, queue[0].depth + 1)))
            + Pending(queue[1..], opts, limit)
    ensures Load(queue) == 1 + NodesAll(queue[0].ou.children) + Load(queue[1..])
  {
    hide MembersWithinAll, NodesAll, Listed, SetOf;
  }

  lemma ChildrenStep(ous: seq<Ou>, k: nat, opts: ListOptions, limit: Option<nat>)
    requires k < |ous|
    ensures MembersWithinAll(ous[..k + 1], opts, limit)
            == MembersWithinAll(ous[..k], opts, limit) + MembersWithin(ous[k], opts, limit)
    ensures NodesAll(ous[..k + 1]) == NodesAll(ous[..k]) + Nodes(ous[k])
  {
    hide MembersWithin, Nodes;
    assert ous[..k + 1][..k] == ous[..k];
  }

  lemma NoneEnqueued(ous: seq<Ou>, opts: ListOptions, limit: Option<nat>)
    ensures MembersWithinAll(ous[..0], opts, limit) == {} && NodesAll(ous[..0]) == 0 && ous[..|ous|] == ous
  {
  }

  method Enqueue(rest: seq<Item>, children: seq<Ou>, depth: nat, ghost opts: ListOptions, ghost limit: Option<nat>)
    returns (queue: seq<Item>)
    ensures Pending(queue, opts, limit)
            == Pending(rest, opts, limit) + MembersWithinAll(children, opts, Remaining(limit, depth))
    ensures Load(queue) == Load(rest) + NodesAll(children)
  {
    hide Pending, MembersWithin, MembersWithinAll, NodesAll, Nodes, Load, Remaining;
    queue := rest;
    NoneEnqueued(children, opts, Remaining(limit, depth));
    for k := 0 to |children|
      invariant Pending(queue, opts, limit)
              == Pending(rest, opts, limit) + MembersWithinAll(children[..k], opts, Remaining(limit, depth))
      invariant Load(queue) == Load(rest) + NodesAll(children[..k])
    {
      ChildrenStep(children, k, opts, Remaining(limit, depth));
      EnqueueOne(queue, Item(children[k], depth), opts, limit);
      queue := queue + [Item(children[k], depth)];
    }
  }

  lemma FirstInQueue(root: Ou, opts: ListOptions, limit: Option<nat>)
    ensures Pending([Item(root, 0)], opts, limit) == MembersWithin(root, opts, limit)
  {
    hide MembersWithin;
    assert [Item(root, 0)][1..] == [];
  }

  lemma NothingCollected()
    ensures Collected([], {}, {})
  {
  }

  lemma CollectedAll(out: seq<Member>, seen: set<string>, found: set<Member>)
    requires Collected(out, seen, found)
    ensures NoAccountTwice(out) && (forall m :: m in out ==> m in found)
    ensures forall m :: m in found ==> exists x :: x in out && x.id == m.id
  {
  }

  /** listAccountsUnderParent: each account listed down to the depth limit is reported exactly once,
      and no other, in order of name and ID. */
  method ListAccountsUnderParent(root: Ou, opts: ListOptions) returns (out: seq<Member>)
    ensures NoAccountTwice(out) && InOrder(out)
    ensures forall m :: m in out ==> m in MembersWithin(root, opts, EffectiveMaxDepth(opts))
    ensures forall m :: m in MembersWithin(root, opts, EffectiveMaxDepth(opts)) ==> exists x :: x in out && x.id == m.id
  {
    hide Collected, NoAccountTwice, InOrder, Pending, Load, MembersWithin, MembersWithinAll, Listed, SetOf, SortMembers,
      Remaining, NodesAll;
    var limit := EffectiveMaxDepth(opts);
    ghost var found: set<Member> := {};
    var seen: set<string> := {};
    out := [];
    NothingCollected();
    FirstInQueue(root, opts, limit);
    var queue := [Item(root, 0)];
    while queue != []
      invariant Collected(out, seen, found)
      invariant found + Pending(queue, opts, limit) == MembersWithin(root, opts, limit)
      decreases Load(queue)
    {
      DequeueStep(queue, opts, limit);
      var item := queue[0];
      queue := queue[1..];
      out, seen := Collect(Listed(item.ou.accounts, opts), out, seen, found);
      found := found + SetOf(Listed(item.ou.accounts, opts));
      if limit.Some? && item.depth >= limit.value {
        continue;
      }
      queue := Enqueue(queue, item.ou.children, item.depth + 1, opts, limit);
    }
    NonePending(opts, limit);
    CollectedAll(out, seen, found);
    SortKeepsAccounts(out);
    SortIsInOrder(out);
    out := SortMembers(out);
  }

  lemma NonePending(opts: ListOptions, limit: Option<nat>)
    ensures Pending([], opts, limit) == {}
  {
  }

  // ------------------------------------------------------- accounts per child OU

  predicate Holds(members: set<Member>, account: string) {
    exists m :: m in members && m.id == account
  }

  /** The first of some OUs that has an account anywhere below it. */
  function FirstHolder(ous: seq<Ou>, account: string): Option<Bucket> {
    if ous == [] then None
    else
      var last := ous[|ous| - 1];
      var earlier := FirstHolder(ous[..|ous| - 1], account);
      if earlier.Some? then earlier
      else if Holds(MembersWithin(last, ALL_STATES, None), account) then Some(Bucket(last.id, last.name)) else None
  }

  /** The root for its direct accounts, the child OU for the others. */
  function ChildOuOf(root: Ou, account: string): Option<Bucket> {
    if Holds(SetOf(Listed(root.accounts, ALL_STATES)), account) then Some(Bucket(root.id, NameOf(root)))
    else FirstHolder(root.children, account)
  }

  /** A map from exactly the wanted accounts that have an OU. */
  ghost predicate Maps(out: Parents, wanted: set<string>, root: Ou) {
    forall a :: (a in out <==> a in wanted && ChildOuOf(root, a).Some?)
        && (a in out ==> Some(out[a]) == ChildOuOf(root, a))
  }

  /** The root with its first child OUs only. */
  function FirstChildren(root: Ou, k: nat): Ou
    requires k <= |root.children|
  {
    Ou(root.id, root.name, root.accounts, root.children[..k])
  }

  ghost predicate MapsMore(before: Parents, out: Parents, wanted: set<string>, done: set<string>, bucket: Bucket) {
    forall a :: (a in out <==> a in before || (a in wanted && a in done))
                && (a in out ==> out[a] == if a in before then before[a] else bucket)
  }

  method AddWanted(members: seq<Member>, wanted: set<string>, bucket: Bucket, before: Parents) returns (out: Parents)
    ensures MapsMore(before, out, wanted, IdsOfMembers(SetOf(members)), bucket)
  {
    out := before;
    for i := 0 to |members|
      invariant MapsMore(before, out, wanted, IdsOfMembers(SetOf(members[..i])), bucket)
    {
      assert members[..i + 1] == members[..i] + [members[i]];
      assert IdsOfMembers(SetOf(members[..i + 1])) == IdsOfMembers(SetOf(members[..i])) + {members[i].id} by {
        IdsSnoc(members[..i], members[i]);
      }
      var id := members[i].id;
      if id in wanted && id !in out {
        out := out[id := bucket];
      }
    }
    assert members[..|members|] == members;
  }

  lemma IdsSnoc(members: seq<Member>, m: Member)
    ensures IdsOfMembers(SetOf(members + [m])) == IdsOfMembers(SetOf(members)) + {m.id}
  {
    assert SetOf(members + [m]) == SetOf(members) + {m};
    assert IdsOfMembers(SetOf(members) + {m}) == IdsOfMembers(SetOf(members)) + {m.id};
  }

  /** MapAccountsToChildOUs. */
  method MapAccountsToChildOus(root: Ou, accountIds: seq<string>) returns (out: Parents)
    ensures Maps(out, Wanted(accountIds), root)
  {
    hide Listed, SetOf, MembersWithin, FirstHolder, NoAccountTwice, InOrder, MapsMore, Maps, Holds, IdsOfMembers,
      FirstChildren, NameOf, Wanted;
    var wanted := Wanted(accountIds);
    if wanted == {} {
      NoneWanted(root);
      return map[];
    }
    var direct := Listed(root.accounts, ALL_STATES);
    out := AddWanted(direct, wanted, Bucket(root.id, NameOf(root)), map[]);
    DirectMapped(root, wanted, out);
    for k := 0 to |root.children|
      invariant Maps(out, wanted, FirstChildren(root, k))
    {
      var child := root.children[k];
      var accounts := ListAccountsUnderParent(child, ALL_STATES);
      Unbounded();
      SameAccounts(accounts, MembersWithin(child, ALL_STATES, None));
      var more := AddWanted(accounts, wanted, Bucket(child.id, child.name), out);
      ChildMapped(root, k, wanted, out, more);
      out := more;
    }
    AllChildren(root);
  }

  lemma Unbounded()
    ensures EffectiveMaxDepth(ALL_STATES) == None
  {
  }

  lemma AllChildren(root: Ou)
    ensures FirstChildren(root, |root.children|) == root
  {
    assert root.children[..|root.children|] == root.children;
  }

  lemma NoneWanted(root: Ou)
    ensures Maps(map[], {}, root)
  {
  }

  lemma NamedMember(members: set<Member>, id: string)
    ensures id in IdsOfMembers(members) <==> exists m :: m in members && m.id == id
  {
  }

  lemma InSetOf(accounts: seq<Member>)
    ensures forall m :: m in SetOf(accounts) <==> m in accounts
  {
  }

  lemma SameAccounts(accounts: seq<Member>, members: set<Member>)
    requires forall m :: m in accounts ==> m in members
    requires forall m :: m in members ==> exists x :: x in accounts && x.id == m.id
    ensures IdsOfMembers(SetOf(accounts)) == IdsOfMembers(members)
  {
    hide IdsOfMembers, SetOf;
    InSetOf(accounts);
    forall id
      ensures id in IdsOfMembers(SetOf(accounts)) <==> id in IdsOfMembers(members)
    {
      NamedMember(SetOf(accounts), id);
      NamedMember(members, id);
    }
  }

  lemma HoldsIds(members: set<Member>, account: string)
    ensures Holds(members, account) <==> account in IdsOfMembers(members)
  {
  }

  lemma DirectMapped(root: Ou, wanted: set<string>, out: Parents)
    requires MapsMore(map[], out, wanted, IdsOfMembers(SetOf(Listed(root.accounts, ALL_STATES))),
                      Bucket(root.id, NameOf(root)))
    ensures Maps(out, wanted, FirstChildren(root, 0))
  {
    hide Listed, Holds, IdsOfMembers;
    forall a
      ensures Holds(SetOf(Listed(root.accounts, ALL_STATES)), a)
              <==> a in IdsOfMembers(SetOf(Listed(root.accounts, ALL_STATES)))
    {
      HoldsIds(SetOf(Listed(root.accounts, ALL_STATES)), a);
    }
  }

  lemma ChildMapped(root: Ou, k: nat, wanted: set<string>, before: Parents, out: Parents)
    requires k < |root.children|
    requires Maps(before, wanted, FirstChildren(root, k))
    requires MapsMore(before, out, wanted, IdsOfMembers(MembersWithin(root.children[k], ALL_STATES, None)),
                      Bucket(root.children[k].id, root.children[k].name))
    ensures Maps(out, wanted, FirstChildren(root, k + 1))
  {
    hide Listed, Holds, IdsOfMembers, MembersWithin, SetOf;
    assert root.children[..k + 1][..k] == root.children[..k];
    forall a
      ensures Holds(MembersWithin(root.children[k], ALL_STATES, None), a)
              <==> a in IdsOfMembers(MembersWithin(root.children[k], ALL_STATES, None))
    {
      HoldsIds(MembersWithin(root.children[k], ALL_STATES, None), a);
    }
  }

  // ---------------------------------------------------- the two walks agree

  ghost predicate HeldBy(found: seq<Holding>, account: string) {
    exists x :: x in found && x.account == account
  }

  lemma {:induction false} MembersAreHeld(ou: Ou, account: string)
    ensures Holds(MembersWithin(ou, ALL_STATES, None), account) <==> HeldBy(Holdings(ou), account)
    decreases ou, 0
  {
    hide Listed, MembersWithinAll, HoldingsAll;
    MembersAllAreHeld(ou.children, account);
    DirectAreHeld(Listed(ou.accounts, ALL_STATES), Bucket(ou.id, NameOf(ou)), account);
    HoldsEither(SetOf(Listed(ou.accounts, ALL_STATES)), MembersWithinAll(ou.children, ALL_STATES, None), account);
    HeldByEither(Direct(ou), HoldingsAll(ou.children), account);
  }

  lemma {:induction false} MembersAllAreHeld(ous: seq<Ou>, account: string)
    ensures Holds(MembersWithinAll(ous, ALL_STATES, None), account) <==> HeldBy(HoldingsAll(ous), account)
    decreases ous, 1, |ous|
  {
    hide MembersWithin, Holdings;
    if ous != [] {
      var front, last := ous[..|ous| - 1], ous[|ous| - 1];
      MembersAllAreHeld(front, account);
      MembersAreHeld(last, account);
      HoldsEither(MembersWithinAll(front, ALL_STATES, None), MembersWithin(last, ALL_STATES, None), account);
      HeldByEither(HoldingsAll(front), Holdings(last), account);
    }
  }

  lemma HoldsEither(a: set<Member>, b: set<Member>, account: string)
    ensures Holds(a + b, account) <==> Holds(a, account) || Holds(b, account)
  {
  }

  lemma HeldByEither(a: seq<Holding>, b: seq<Holding>, account: string)
    ensures HeldBy(a + b, account) <==> HeldBy(a, account) || HeldBy(b, account)
  {
  }

  lemma DirectAreHeld(members: seq<Member>, ou: Bucket, account: string)
    ensures Holds(SetOf(members), account) <==> HeldBy(HoldingsOf(members, ou), account)
  {
    if Holds(SetOf(members), account) {
      var m :| m in members && m.id == account;
      var i :| 0 <= i < |members| && members[i] == m;
      assert HoldingsOf(members, ou)[i].account == account;
    }
    if HeldBy(HoldingsOf(members, ou), account) {
      var x :| x in HoldingsOf(members, ou) && x.account == account;
      var i :| 0 <= i < |members| && HoldingsOf(members, ou)[i] == x;
      assert members[i] in SetOf(members);
    }
  }

  /** Organizations keeps an account in one OU at a time. */
  ghost predicate OnePlacePerAccount(found: seq<Holding>) {
    forall x, y :: x in found && y in found && x.account == y.account ==> x == y
  }

  lemma {:induction false} FirstHolderFound(ous: seq<Ou>, account: string) returns (c: Ou)
    requires FirstHolder(ous, account).Some?
    ensures c in ous && FirstHolder(ous, account) == Some(Bucket(c.id, c.name)) && HeldBy(Holdings(c), account)
  {
    hide MembersWithin, Holdings, Holds, HeldBy;
    var front, last := ous[..|ous| - 1], ous[|ous| - 1];
    if FirstHolder(front, account).Some? {
      c := FirstHolderFound(front, account);
    } else {
      MembersAreHeld(last, account);
      c := last;
    }
  }

  lemma {:induction false} SomeHolder(ous: seq<Ou>, account: string)
    ensures FirstHolder(ous, account).Some? <==> HeldBy(HoldingsAll(ous), account)
  {
    hide MembersWithin, Holdings, Holds;
    if ous != [] {
      SomeHolder(ous[..|ous| - 1], account);
      MembersAreHeld(ous[|ous| - 1], account);
    }
  }

  lemma ChildOuKnown(root: Ou, account: string)
    ensures ChildOuOf(root, account).Some? <==> HeldBy(Holdings(root), account)
  {
    hide Listed, FirstHolder, HoldingsAll, Holds, HeldBy;
    SomeHolder(root.children, account);
    DirectAreHeld(Listed(root.accounts, ALL_STATES), Bucket(root.id, NameOf(root)), account);
    HeldByEither(Direct(root), HoldingsAll(root.children), account);
  }

  /** The child-OU map covers exactly the accounts that the depth-first map covers, ... */
  lemma WalksCoverTheSame(root: Ou, wanted: set<string>, out: Parents, account: string)
    requires Maps(out, wanted, root)
    ensures account in out <==> account in ParentsFrom(Holdings(root), wanted)
  {
    hide ChildOuOf, Holdings, ParentsFrom;
    ChildOuKnown(root, account);
    FoundIsReported(Holdings(root), wanted, account);
  }

  lemma ChildInWalk(root: Ou, c: Ou)
    requires ProperIds(Ids(root)) && c in root.children
    ensures WellFormed(WalkNodes(root, "", 0)) && Sub(c, [root])
    ensures Has(WalkNodes(root, "", 0), c.id) && NodeOf(WalkNodes(root, "", 0), c.id).depth == 1
    ensures Has(WalkNodes(root, "", 0), root.id) && NodeOf(WalkNodes(root, "", 0), root.id).depth == 0
  {
    hide WellFormed, Has, WalkNodes, WalkAll, Ids, IdsAll, ProperIds, CleanId;
    var h := WalkNodes(root, "", 0);
    OneWalk(root);
    ChildIsSub([root], root);
    ChildIsSub(root.children, c);
    SubIsTransitive(c, root, [root]);
    WalkIsWellFormed([root]);
    ChildrenHaveParent([root], root, c, "", 0);
    ParentInWalk(h, c.id, root.id);
    TopsHaveParent([root], root, "", 0);
    ParentInWalk(h, root.id, "");
    RootIsAtDepthZero(h, root.id);
    SIsNotBlank([root], root);
    BlankIsNotClean();
    ParentIsEarlier(h, c.id);
  }

  lemma BlankIsNotClean()
    ensures !CleanId("")
  {
  }

  /** ... and gives each the root or the depth-one ancestor of the parent OU that the depth-first map
      gives; the ancestor at that depth is unique. */
  lemma ChildOuIsAncestor(root: Ou, wanted: set<string>, out: Parents, account: string)
    requires ProperIds(Ids(root)) && OnePlacePerAccount(Holdings(root))
    requires Maps(out, wanted, root) && account in out
    ensures account in ParentsFrom(Holdings(root), wanted)
    ensures WellFormed(WalkNodes(root, "", 0))
    ensures var h, parent := WalkNodes(root, "", 0), ParentsFrom(Holdings(root), wanted)[account].id;
      && Has(h, parent) && Has(h, out[account].id) && Under(h, parent, out[account].id)
      && NodeOf(h, out[account].id).depth == if parent == root.id then 0 else 1
  {
    hide Listed, WellFormed, Has, WalkNodes, WalkAll, Holdings, HoldingsAll, Ids, IdsAll, ProperIds, CleanId,
      FirstHolder, ParentsFrom;
    OneWalk(root);
    WalksCoverTheSame(root, wanted, out, account);
    FoundIsReported(Holdings(root), wanted, account);
    var h, parent := WalkNodes(root, "", 0), ParentsFrom(Holdings(root), wanted)[account];
    var x := Holding(account, parent);
    ChildIsSub([root], root);
    WalkIsWellFormed([root]);
    ProperIsDistinct(Ids(root));
    HeldWhereOuIs([root], root, x);
    WalkHasIds([root], parent.id);
    if Holds(SetOf(Listed(root.accounts, ALL_STATES)), account) {
      DirectAreHeld(Listed(root.accounts, ALL_STATES), Bucket(root.id, NameOf(root)), account);
      DirectNamesOu(root);
      TopsHaveParent([root], root, "", 0);
      ParentInWalk(h, root.id, "");
      RootIsAtDepthZero(h, root.id);
    } else {
      var c := FirstHolderFound(root.children, account);
      var y :| y in Holdings(c) && y.account == account;
      ChildInWalk(root, c);
      SubHoldings(c, [root], y);
      assert y == x;
      HeldWhereOuIs([root], c, x);
      UnderMeansWithin([root], c, parent.id);
      UnderIsUpwards(h, parent.id, c.id);
    }
  }

  lemma ProperIsDistinct(ids: seq<string>)
    requires ProperIds(ids)
    ensures DistinctIds(ids)
  {
  }

  // ------------------------------------------------------- what a listing holds

  /** With all states wanted, any; with a state given, that one; otherwise active accounts, and with closed ones
      included, those that are suspended, about to be closed or closed. */
  predicate WantedState(state: string, opts: ListOptions) {
    || opts.allStates
    || (!Blank(opts.state) && state == Trim(opts.state))
    || (Blank(opts.state) && state == "ACTIVE")
    || (Blank(opts.state) && opts.includeClosed && state in ["SUSPENDED", "PENDING_CLOSURE", "CLOSED"])
  }

  /** An account of the OU, trimmed, that has a name and a wanted state. */
  ghost predicate Selects(u: Ou, opts: ListOptions, m: Member) {
    exists k :: 0 <= k < |u.accounts| && SelectsAt(u.accounts[k], opts, m)
  }

  predicate SelectsAt(a: Account, opts: ListOptions, m: Member) {
    WantedState(a.state, opts) && !Blank(a.name) && m == Member(Trim(a.id), Trim(a.name))
  }

  lemma {:induction false} ListedSelects(accounts: seq<Account>, opts: ListOptions, m: Member)
    ensures m in Listed(accounts, opts) <==> exists k :: 0 <= k < |accounts| && SelectsAt(accounts[k], opts, m)
  {
    hide Trim, Blank, StateMatches, WantedState;
    if accounts != [] {
      var front, last := accounts[..|accounts| - 1], accounts[|accounts| - 1];
      ListedSelects(front, opts, m);
      StateMeans(last.state, opts);
      TrimMeans(last.name);
      assert forall k :: 0 <= k < |front| ==> front[k] == accounts[k];
    }
  }

  lemma StateMeans(state: string, opts: ListOptions)
    ensures StateMatches(state, opts) <==> WantedState(state, opts)
  {
    hide Trim, Blank;
    TrimMeans(opts.state);
  }

  /** u is so many levels below the OU, or the OU itself. */
  ghost predicate Below(u: Ou, ou: Ou, depth: nat) {
    if depth == 0 then u == ou else AtDepth(u, ou.children, depth - 1)
  }

  predicate WithinLimit(depth: nat, limit: Option<nat>) {
    limit.None? || depth <= limit.value
  }

  ghost predicate FoundIn(u: Ou, ou: Ou, depth: nat, opts: ListOptions, limit: Option<nat>, m: Member) {
    Below(u, ou, depth) && WithinLimit(depth, limit) && Selects(u, opts, m)
  }

  ghost predicate FoundInAll(u: Ou, ous: seq<Ou>, depth: nat, opts: ListOptions, limit: Option<nat>, m: Member) {
    AtDepth(u, ous, depth) && WithinLimit(depth, limit) && Selects(u, opts, m)
  }

  /** The accounts within a depth are just those selected from OUs no deeper than that. */
  lemma {:induction false} WithinMeans(ou: Ou, opts: ListOptions, limit: Option<nat>, m: Member)
    ensures m in MembersWithin(ou, opts, limit) <==> exists u: Ou, depth: nat :: FoundIn(u, ou, depth, opts, limit, m)
    decreases ou, 0
  {
    hide Listed, Selects, AtDepth, MembersWithinAll;
    ListedSelects(ou.accounts, opts, m);
    assert Selects(ou, opts, m) <==> m in SetOf(Listed(ou.accounts, opts)) by { SelectsMeans(ou, opts, m); }
    if limit != Some(0) {
      WithinAllMeans(ou.children, opts, Deeper(limit), m);
    }
    if m in SetOf(Listed(ou.accounts, opts)) {
      assert FoundIn(ou, ou, 0, opts, limit, m);
    }
    if limit != Some(0) && m in MembersWithinAll(ou.children, opts, Deeper(limit)) {
      var u: Ou, d: nat :| FoundInAll(u, ou.children, d, opts, Deeper(limit), m);
      assert FoundIn(u, ou, d + 1, opts, limit, m);
    }
    if u: Ou, d: nat :| FoundIn(u, ou, d, opts, limit, m) {
      if d > 0 {
        assert FoundInAll(u, ou.children, d - 1, opts, Deeper(limit), m);
      }
    }
  }

  lemma SelectsMeans(u: Ou, opts: ListOptions, m: Member)
    ensures Selects(u, opts, m) <==> m in SetOf(Listed(u.accounts, opts))
  {
    hide SelectsAt, Listed;
    ListedSelects(u.accounts, opts, m);
  }

  lemma {:induction false} WithinAllMeans(ous: seq<Ou>, opts: ListOptions, limit: Option<nat>, m: Member)
    ensures m in MembersWithinAll(ous, opts, limit)
            <==> exists u: Ou, depth: nat :: FoundInAll(u, ous, depth, opts, limit, m)
    decreases ous, 1, |ous|
  {
    hide Selects, MembersWithin;
    if ous == [] {
      forall u: Ou, d: nat
        ensures !AtDepth(u, ous, d)
      {
      }
    } else {
      var front, last := ous[..|ous| - 1], ous[|ous| - 1];
      WithinAllMeans(front, opts, limit, m);
      WithinMeans(last, opts, limit, m);
      forall u: Ou, d: nat
        ensures FoundInAll(u, ous, d, opts, limit, m)
                <==> FoundInAll(u, front, d, opts, limit, m) || FoundIn(u, last, d, opts, limit, m)
      {
        DepthSnoc(u, front, last, d);
        assert ous == front + [last];
      }
    }
  }

  lemma DepthSnoc(u: Ou, front: seq<Ou>, last: Ou, depth: nat)
    ensures AtDepth(u, front + [last], depth) <==> AtDepth(u, front, depth) || Below(u, last, depth)
  {
    var all := front + [last];
    assert forall c :: c in all <==> c in front || c == last;
  }

  /** A listing is in order of name, and for one name of ID. */
  lemma OrderMeans(members: seq<Member>, i: nat, j: nat)
    requires InOrder(members) && i < j < |members|
    ensures Less(members[i].name, members[j].name)
            || (members[i].name == members[j].name
                && (members[i].id == members[j].id || Less(members[i].id, members[j].id)))
  {
    LessIsTotal(members[i].name, members[j].name);
    LessIsTotal(members[i].id, members[j].id);
  }
}
