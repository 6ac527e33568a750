/** The lazily connected Snowflake service: queries open a database handle on first use,
    readiness checks replace a handle that stopped answering, and Close releases it.
    Opening and pinging happen outside the lock, so several handles can exist at once;
    the subject is who owns each of them.

    The mutex-guarded fields are the class Guarded, one method per critical section; the
    protocol is the transition system Sys over those sections, in any interleaving. */
module LazyService {
  import opened Wrappers

  type Tid = nat
  type Handle = nat
  datatype Error = Error(message: string)

  /** Seconds a recorded connection failure is replayed to queries. */
  const COOLDOWN := 30

  // -------------------------------------------------------- critical sections

  /** svc is the handle inside the Service object, db the handle Check and Close work on. */
  datatype Shared = Shared(
    db: Option<Handle>, svc: Option<Handle>, init: bool, initErr: Option<Error>, lastInitFail: Option<int>) {

    function Cleared(): Shared {
      this.(init := false, initErr := None)
    }

    predicate Cooling(now: int) {
      lastInitFail.Some? && now - lastInitFail.value < COOLDOWN
    }
  }

  datatype Verdict = Serve(handle: Handle) | Unavailable(error: Error) | Connect

  function Lookup(sh: Shared, now: int): (r: (Shared, Verdict)) {
    if sh.svc.Some? then (sh, Serve(sh.svc.value))
    else if sh.init && sh.initErr.Some? then
      if sh.Cooling(now) then (sh, Unavailable(sh.initErr.value)) else (sh.Cleared(), Connect)
    else (sh, Connect)
  }

  function RecordFailure(sh: Shared, e: Error, now: int): Shared {
    sh.(init := true, initErr := Some(e), lastInitFail := Some(now))
  }

  /** Install a connected handle, unless another caller was faster; the second component is
      the handle to serve from. */
  function Install(sh: Shared, h: Handle): (r: (Shared, Handle)) {
    if sh.svc.Some? then (sh, sh.svc.value)
    else (sh.(db := Some(h), svc := Some(h), init := true, initErr := None), h)
  }

  datatype CheckVerdict = Reconnect | Ping(handle: Option<Handle>)

  function BeginCheck(sh: Shared): (r: (Shared, CheckVerdict)) {
    if sh.svc.None? then (if sh.init && sh.initErr.Some? then sh.Cleared() else sh, Reconnect)
    else (sh, Ping(sh.db))
  }

  /** After a failed ping of h: retry if the pool was dropped or replaced meanwhile. */
  function Drop(sh: Shared, h: Option<Handle>): (r: (Shared, bool)) {
    if sh.svc.None? || sh.db != h then (sh, false)
    else (sh.(db := None, svc := None, init := false, initErr := None), true)
  }

  function Release(sh: Shared): Shared {
    if sh.db.None? then sh else Shared(None, None, false, None, None)
  }

  class Guarded {
    var db: Option<Handle>
    var svc: Option<Handle>
    var init: bool
    var initErr: Option<Error>
    var lastInitFail: Option<int>

    function View(): Shared
      reads this
    {
      Shared(db, svc, init, initErr, lastInitFail)
    }

    constructor ()
      ensures View() == Shared(None, None, false, None, None)
    {
      db, svc, init, initErr, lastInitFail := None, None, false, None, None;
    }

    method LookupLocked(now: int) returns (verdict: Verdict)
      modifies this
      ensures (View(), verdict) == Lookup(old(View()), now)
    {
      if svc.Some? {
        return Serve(svc.value);
      }
      if init && initErr.Some? {
        if lastInitFail.Some? && now - lastInitFail.value < COOLDOWN {
          return Unavailable(initErr.value);
        }
        init := false;
        initErr := None;
      }
      return Connect;
    }

    method RecordFailureLocked(e: Error, now: int)
      modifies this
      ensures View() == RecordFailure(old(View()), e, now)
    {
      init := true;
      initErr := Some(e);
      lastInitFail := Some(now);
    }

    /** closeOwn tells the caller to close the handle it brought. */
    method InstallLocked(h: Handle) returns (serve: Handle, closeOwn: bool)
      modifies this
      ensures (View(), serve) == Install(old(View()), h)
      ensures closeOwn <==> old(svc).Some?
    {
      if svc.Some? {
        return svc.value, true;
      }
      db := Some(h);
      svc := Some(h);
      init := true;
      initErr := None;
      return h, false;
    }

    method BeginCheckLocked() returns (verdict: CheckVerdict)
      modifies this
      ensures (View(), verdict) == BeginCheck(old(View()))
    {
      if svc.None? {
        if init && initErr.Some? {
          init := false;
          initErr := None;
        }
        return Reconnect;
      }
      return Ping(db);
    }

    method DropLocked(h: Option<Handle>) returns (dropped: bool)
      modifies this
      ensures (View(), dropped) == Drop(old(View()), h)
    {
      if svc.None? {
        return false;
      }
      if db != h {
        return false;
      }
      db := None;
      svc := None;
      init := false;
      initErr := None;
      return true;
    }

    method ReleaseLocked() returns (closing: Option<Handle>)
      modifies this
      ensures View() == Release(old(View())) && closing == old(db)
    {
      if db.None? {
        return None;
      }
      closing := db;
      db := None;
      svc := None;
      init := false;
      initErr := None;
      lastInitFail := None;
    }
  }

  // ------------------------------------------------------- transition system

  /** Where one caller of Query, Check or Close is. */
  datatype Pc =
    | AtLookup
    | Opening
    | PingingNew(own: Handle)
    | Discarding(own: Handle, error: Error)
    | Recording(error: Error)
    | Installing(own: Handle)
    | AtCheck
    | PingingOld(borrowed: Option<Handle>)
    | AtDrop(borrowed: Option<Handle>)
    | AtClose
    | Done(answer: Answer)

  /** What a caller returns: the service on a handle, that its ping succeeded, an error, or that Close ran. */
  datatype Answer = Served(handle: Handle) | Healthy | Failed(error: Error) | Released

  /** panicked is set if a handle is closed twice, or a missing one is closed. */
  datatype Sys = Sys(
    shared: Shared, threads: map<Tid, Pc>, nextHandle: nat, closed: set<Handle>, now: int, panicked: bool)

  const INIT := Sys(Shared(None, None, false, None, None), map[], 0, {}, 0, false)

  /** A caller arrives, time passes, or a caller moves; ok is the outcome of opening or
      pinging, which is free. */
  datatype Action = Query | Check | Close | Tick(seconds: nat) | Proceed(ok: bool, error: Error)

  function At(s: Sys, t: Tid, pc: Pc): Sys {
    s.(threads := s.threads[t := pc])
  }

  function CloseHandle(s: Sys, h: Option<Handle>): Sys {
    if h.None? || h.value in s.closed || h.value >= s.nextHandle then s.(panicked := true)
    else s.(closed := s.closed + {h.value})
  }

  function Arrive(s: Sys, t: Tid, pc: Pc): Option<Sys> {
    if t in s.threads then None else Some(At(s, t, pc))
  }

  function Step(s: Sys, t: Tid, action: Action): Option<Sys> {
    match action
    case Query => Arrive(s, t, AtLookup)
    case Check => Arrive(s, t, AtCheck)
    case Close => Arrive(s, t, AtClose)
    case Tick(seconds) => Some(s.(now := s.now + seconds))
    case Proceed(ok, error) => if t in s.threads && !s.threads[t].Done? then Some(Move(s, t, ok, error)) else None
  }

  function Move(s: Sys, t: Tid, ok: bool, error: Error): Sys
    requires t in s.threads
  {
    match s.threads[t]
    case AtLookup =>
      var (sh, verdict) := Lookup(s.shared, s.now);
      var s1 := s.(shared := sh);
      (match verdict
       case Serve(h) => At(s1, t, Done(Served(h)))
       case Unavailable(e) => At(s1, t, Done(Failed(e)))
       case Connect => At(s1, t, Opening))
    case Opening =>
      if ok then At(s, t, PingingNew(s.nextHandle)).(nextHandle := s.nextHandle + 1) else At(s, t, Recording(error))
    case PingingNew(h) => At(s, t, if ok then Installing(h) else Discarding(h, error))
    case Discarding(h, e) => CloseHandle(At(s, t, Recording(e)), Some(h))
    case Recording(e) => At(s, t, Done(Failed(e))).(shared := RecordFailure(s.shared, e, s.now))
    case Installing(h) =>
      var (sh, served) := Install(s.shared, h);
      var s1 := At(s, t, Done(Served(served))).(shared := sh);
      if s.shared.svc.Some? then CloseHandle(s1, Some(h)) else s1
    case AtCheck =>
      var (sh, verdict) := BeginCheck(s.shared);
      At(s, t, if verdict.Reconnect? then AtLookup else PingingOld(verdict.handle)).(shared := sh)
    case PingingOld(h) => At(s, t, if ok then Done(Healthy) else AtDrop(h))
    case AtDrop(h) =>
      var (sh, dropped) := Drop(s.shared, h);
      var s1 := At(s, t, if dropped then AtLookup else AtCheck).(shared := sh);
      if dropped then CloseHandle(s1, s.shared.db) else s1
    case AtClose =>
      var s1 := At(s, t, Done(Released)).(shared := Release(s.shared));
      if s.shared.db.Some? then CloseHandle(s1, s.shared.db) else s1
    case Done(_) => s
  }

  function Run(s: Sys, schedule: seq<(Tid, Action)>): Sys {
    if schedule == [] then s
    else
      var last := schedule[|schedule| - 1];
      var before := Run(s, schedule[..|schedule| - 1]);
      Step(before, last.0, last.1).GetOr(before)
  }

  // --------------------------------------------------------------- ownership

  /** The handle a caller opened and has neither installed nor closed. */
  function Owned(pc: Pc): Option<Handle> {
    match pc
    case PingingNew(h) => Some(h)
    case Discarding(h, _) => Some(h)
    case Installing(h) => Some(h)
    case _ => None
  }

  ghost predicate Holds(s: Sys, t: Tid, h: Handle) {
    t in s.threads && Owned(s.threads[t]) == Some(h)
  }

  ghost predicate HeldBySomeone(s: Sys, h: Handle) {
    exists t :: Holds(s, t, h)
  }

  /** Every handle ever opened has exactly one owner: the installed service, one in-flight
      caller, or nobody because it is closed. */
  ghost predicate OneOwner(s: Sys) {
    && (forall h :: h in s.closed ==> h < s.nextHandle)
    && (s.shared.db.Some? ==> s.shared.db.value < s.nextHandle && s.shared.db.value !in s.closed)
    && (forall t: Tid, h: Handle :: Holds(s, t, h) ==> h < s.nextHandle && h !in s.closed && s.shared.db != Some(h))
    && (forall t: Tid, u: Tid, h: Handle :: Holds(s, t, h) && Holds(s, u, h) ==> t == u)
    && (forall h: Handle :: h < s.nextHandle ==> h in s.closed || s.shared.db == Some(h) || HeldBySomeone(s, h))
  }

  ghost predicate SharedOk(sh: Shared) {
    && sh.svc == sh.db
    && (sh.init ==> sh.svc.Some? || sh.initErr.Some?)
    && (sh.init && sh.initErr.Some? ==> sh.lastInitFail.Some?)
  }

  ghost predicate Inv(s: Sys) {
    !s.panicked && SharedOk(s.shared) && OneOwner(s)
  }

  /** A caller that neither gains nor loses a handle. */
  lemma IdleMove(s: Sys, s': Sys, t: Tid, pc: Pc)
    requires OneOwner(s)
    requires s'.threads == s.threads[t := pc] && s'.nextHandle == s.nextHandle && s'.closed == s.closed
    requires s'.shared.db == s.shared.db
    requires Owned(pc) == if t in s.threads then Owned(s.threads[t]) else None
    ensures OneOwner(s')
  {
    assert forall u, h :: Holds(s', u, h) <==> Holds(s, u, h);
    forall h: Handle | h < s'.nextHandle
      ensures h in s'.closed || s'.shared.db == Some(h) || HeldBySomeone(s', h)
    {
      if HeldBySomeone(s, h) {
        var u :| Holds(s, u, h);
        assert Holds(s', u, h);
      }
    }
  }

  lemma OpenMove(s: Sys, t: Tid)
    requires OneOwner(s) && t in s.threads && s.threads[t].Opening?
    ensures OneOwner(At(s, t, PingingNew(s.nextHandle)).(nextHandle := s.nextHandle + 1))
  {
    var s' := At(s, t, PingingNew(s.nextHandle)).(nextHandle := s.nextHandle + 1);
    assert forall u, h :: Holds(s', u, h) <==> Holds(s, u, h) || (u == t && h == s.nextHandle);
    forall h: Handle | h < s'.nextHandle
      ensures h in s'.closed || s'.shared.db == Some(h) || HeldBySomeone(s', h)
    {
      if h == s.nextHandle {
        assert Holds(s', t, h);
      } else if HeldBySomeone(s, h) {
        var u :| Holds(s, u, h);
        assert Holds(s', u, h);
      }
    }
  }

  /** A caller gives up its own handle: it is closed, or becomes the installed one. */
  lemma GiveUpMove(s: Sys, s': Sys, t: Tid, h: Handle, pc: Pc)
    requires OneOwner(s) && Holds(s, t, h) && Owned(pc) == None
    requires s'.threads == s.threads[t := pc] && s'.nextHandle == s.nextHandle
    requires || (s'.closed == s.closed + {h} && s'.shared.db == s.shared.db)
             || (s'.closed == s.closed && s.shared.db == None && s'.shared.db == Some(h))
    ensures OneOwner(s')
  {
    assert forall u, g :: Holds(s', u, g) <==> Holds(s, u, g) && u != t;
    forall g: Handle | g < s'.nextHandle
      ensures g in s'.closed || s'.shared.db == Some(g) || HeldBySomeone(s', g)
    {
      if g != h && HeldBySomeone(s, g) {
        var u :| Holds(s, u, g);
        assert Holds(s', u, g);
      }
    }
  }

  /** The installed handle is closed and uninstalled in one critical section. */
  lemma UninstallMove(s: Sys, s': Sys, t: Tid, pc: Pc)
    requires OneOwner(s) && t in s.threads && Owned(s.threads[t]) == None && Owned(pc) == None
    requires s.shared.db.Some? && s'.shared.db == None && s'.closed == s.closed + {s.shared.db.value}
    requires s'.threads == s.threads[t := pc] && s'.nextHandle == s.nextHandle
    ensures OneOwner(s')
  {
    assert forall u, g :: Holds(s', u, g) <==> Holds(s, u, g);
    forall g: Handle | g < s'.nextHandle
      ensures g in s'.closed || HeldBySomeone(s', g)
    {
      if HeldBySomeone(s, g) {
        var u :| Holds(s, u, g);
        assert Holds(s', u, g);
      }
    }
  }

  lemma MoveKeepsInv(s: Sys, t: Tid, ok: bool, error: Error)
    requires Inv(s) && t in s.threads
    ensures Inv(Move(s, t, ok, error))
  {
    var s' := Move(s, t, ok, error);
    match s.threads[t]
    case Opening =>
      if ok { OpenMove(s, t); } else { IdleMove(s, s', t, s'.threads[t]); }
    case Discarding(h, e) =>
      assert Holds(s, t, h);
      GiveUpMove(s, s', t, h, Recording(e));
    case Installing(h) =>
      assert Holds(s, t, h);
      GiveUpMove(s, s', t, h, s'.threads[t]);
    case AtDrop(h) =>
      if Drop(s.shared, h).1 { UninstallMove(s, s', t, AtLookup); } else { IdleMove(s, s', t, AtCheck); }
    case AtClose =>
      if s.shared.db.Some? { UninstallMove(s, s', t, Done(Released)); } else { IdleMove(s, s', t, Done(Released)); }
    case Done(_) =>
    case _ =>
      IdleMove(s, s', t, s'.threads[t]);
  }

  lemma StepKeepsInv(s: Sys, t: Tid, action: Action)
    requires Inv(s) && Step(s, t, action).Some?
    ensures Inv(Step(s, t, action).value)
  {
    var s' := Step(s, t, action).value;
    match action
    case Tick(_) =>
      assert forall u, h :: Holds(s', u, h) <==> Holds(s, u, h);
      assert forall h :: HeldBySomeone(s, h) ==> HeldBySomeone(s', h);
    case Proceed(ok, error) =>
      MoveKeepsInv(s, t, ok, error);
    case _ =>
      IdleMove(s, s', t, s'.threads[t]);
  }

  lemma {:induction false} EveryRunKeepsInv(schedule: seq<(Tid, Action)>)
    ensures Inv(Run(INIT, schedule))
  {
    if schedule != [] {
      var last := schedule[|schedule| - 1];
      EveryRunKeepsInv(schedule[..|schedule| - 1]);
      var before := Run(INIT, schedule[..|schedule| - 1]);
      if Step(before, last.0, last.1).Some? {
        StepKeepsInv(before, last.0, last.1);
      }
    }
  }

  // ------------------------------------------------------------------ safety

  ghost predicate ExactlyOne(a: bool, b: bool, c: bool) {
    (a && !b && !c) || (!a && b && !c) || (!a && !b && c)
  }

  /** In every interleaving of queries, checks and closes: no handle is closed twice; service
      and handle are set together; and each opened handle is either closed, installed, or held
      by exactly one caller in flight. */
  lemma EveryHandleHasOneOwner(schedule: seq<(Tid, Action)>, h: Handle)
    requires h < Run(INIT, schedule).nextHandle
    ensures var s := Run(INIT, schedule);
      && !s.panicked && s.shared.svc == s.shared.db
      && ExactlyOne(h in s.closed, s.shared.db == Some(h), HeldBySomeone(s, h))
      && forall t, u :: Holds(s, t, h) && Holds(s, u, h) ==> t == u
  {
    EveryRunKeepsInv(schedule);
  }

  /** Nothing leaks: once every caller has returned, all opened handles but the installed one
      are closed. */
  lemma QuiescentRunLeaksNothing(schedule: seq<(Tid, Action)>)
    requires forall t :: t in Run(INIT, schedule).threads ==> Run(INIT, schedule).threads[t].Done?
    ensures var s := Run(INIT, schedule);
      s.closed == (set h: Handle | 0 <= h < s.nextHandle && s.shared.db != Some(h))
  {
    EveryRunKeepsInv(schedule);
    var s := Run(INIT, schedule);
    forall h: Handle
      ensures !HeldBySomeone(s, h)
    {
      assert forall t :: !Holds(s, t, h);
    }
  }

  /** A caller is only ever served from a handle that is open at that moment. */
  lemma ServedHandleIsOpen(schedule: seq<(Tid, Action)>, t: Tid, ok: bool, error: Error)
    requires t in Run(INIT, schedule).threads
    requires Run(INIT, schedule).threads[t].AtLookup? || Run(INIT, schedule).threads[t].Installing?
    ensures var s' := Move(Run(INIT, schedule), t, ok, error);
      s'.threads[t].Done? && s'.threads[t].answer.Served? ==>
        s'.shared.db == Some(s'.threads[t].answer.handle) && s'.threads[t].answer.handle !in s'.closed
  {
    EveryRunKeepsInv(schedule);
    MoveKeepsInv(Run(INIT, schedule), t, ok, error);
  }

  // ------------------------------------------------ what a caller is answered

  /** A query is served by the installed service, and nothing changes for anybody else. */
  lemma InstalledServiceIsReused(s: Sys, t: Tid, ok: bool, error: Error)
    requires t in s.threads && s.threads[t].AtLookup? && s.shared.svc.Some?
    ensures Move(s, t, ok, error) == s.(threads := s.threads[t := Done(Served(s.shared.svc.value))])
  {
  }

  /** One caller moving alone, while its calls have these outcomes. */
  function Alone(s: Sys, t: Tid, outcomes: seq<bool>, error: Error): (s': Sys)
    requires t in s.threads
    ensures t in s'.threads
  {
    if outcomes == [] then s
    else Move(Alone(s, t, outcomes[..|outcomes| - 1], error), t, outcomes[|outcomes| - 1], error)
  }

  lemma AloneSnoc(s: Sys, t: Tid, outcomes: seq<bool>, ok: bool, error: Error)
    requires t in s.threads
    ensures Alone(s, t, outcomes + [ok], error) == Move(Alone(s, t, outcomes, error), t, ok, error)
  {
    hide Move;
    assert (outcomes + [ok])[..|outcomes|] == outcomes;
  }

  /** Nothing is installed, and no failure is younger than half a minute. */
  ghost predicate MayConnect(s: Sys) {
    && s.shared.svc.None? && s.shared.db.None?
    && (s.shared.init && s.shared.initErr.Some? ==>
          s.shared.lastInitFail.None? || s.now - s.shared.lastInitFail.value >= 30)
  }

  /** The lookup of a query that may connect, and the opening that follows it. */
  lemma QueryOpens(s: Sys, t: Tid, ok: bool, e: Error)
    requires MayConnect(s) && t in s.threads && s.threads[t].AtLookup?
    ensures Alone(s, t, [ok, ok], e).threads[t] == if ok then PingingNew(s.nextHandle) else Recording(e)
    ensures var s' := Alone(s, t, [ok, ok], e);
      && s'.shared.db.None? && s'.shared.svc.None? && s'.shared.lastInitFail == s.shared.lastInitFail
      && s'.now == s.now && s'.closed == s.closed && s'.nextHandle == s.nextHandle + if ok then 1 else 0
  {
    AloneSnoc(s, t, [], ok, e);
    AloneSnoc(s, t, [ok], ok, e);
    assert [] + [ok] == [ok] && [ok] + [ok] == [ok, ok];
    assert Alone(s, t, [], e) == s;
  }

  /** A query that may connect opens one handle and pings it; if both succeed, the handle is installed and
      serves it. */
  lemma QueryConnects(s: Sys, t: Tid, e: Error)
    requires MayConnect(s) && t in s.threads && s.threads[t].AtLookup?
    ensures var s' := Alone(s, t, [true, true, true, true], e);
      && s'.threads[t] == Done(Served(s.nextHandle)) && s'.nextHandle == s.nextHandle + 1 && s'.closed == s.closed
      && s'.shared == Shared(Some(s.nextHandle), Some(s.nextHandle), true, None, s.shared.lastInitFail)
  {
    QueryOpens(s, t, true, e);
    AloneSnoc(s, t, [true, true], true, e);
    AloneSnoc(s, t, [true, true, true], true, e);
    assert [true, true] + [true] == [true, true, true] && [true, true, true] + [true] == [true, true, true, true];
  }

  /** If the handle cannot be opened, the failure is recorded with its time and returned. */
  lemma OpeningFails(s: Sys, t: Tid, e: Error)
    requires MayConnect(s) && t in s.threads && s.threads[t].AtLookup?
    ensures var s' := Alone(s, t, [false, false, false], e);
      && s'.threads[t] == Done(Failed(e)) && s'.nextHandle == s.nextHandle && s'.closed == s.closed
      && s'.shared == Shared(None, None, true, Some(e), Some(s.now))
  {
    QueryOpens(s, t, false, e);
    AloneSnoc(s, t, [false, false], false, e);
    assert [false, false] + [false] == [false, false, false];
  }

  /** If it does not answer, it is closed, and the failure is recorded with its time and returned. */
  lemma PingFails(s: Sys, t: Tid, e: Error)
    requires Inv(s) && MayConnect(s) && t in s.threads && s.threads[t].AtLookup?
    ensures var s' := Alone(s, t, [true, true, false, false, false], e);
      && s'.threads[t] == Done(Failed(e)) && s'.nextHandle == s.nextHandle + 1
      && s'.closed == s.closed + {s.nextHandle} && s'.shared == Shared(None, None, true, Some(e), Some(s.now))
  {
    QueryOpens(s, t, true, e);
    AloneSnoc(s, t, [true, true], false, e);
    AloneSnoc(s, t, [true, true, false], false, e);
    AloneSnoc(s, t, [true, true, false, false], false, e);
    assert [true, true] + [false] == [true, true, false];
    assert [true, true, false] + [false] == [true, true, false, false];
    assert [true, true, false, false] + [false] == [true, true, false, false, false];
  }

  /** A caller that connected while another was faster is served by the installed handle and closes its own. */
  lemma SlowerCallerYields(s: Sys, t: Tid, ok: bool, e: Error)
    requires Inv(s) && t in s.threads && s.threads[t].Installing? && s.shared.svc.Some?
    ensures var s' := Move(s, t, ok, e);
      && s'.threads[t] == Done(Served(s.shared.svc.value)) && s'.shared == s.shared
      && s'.closed == s.closed + {s.threads[t].own}
  {
    assert Holds(s, t, s.threads[t].own);
  }

  // ------------------------------------------------------ outages and checks

  /** A failure is recorded, and there are only queries that have not looked yet or are through. */
  ghost predicate Outage(s: Sys, e: Error, since: int) {
    && s.shared == Shared(None, None, true, Some(e), Some(since))
    && forall t :: t in s.threads ==> s.threads[t].AtLookup? || s.threads[t].Done?
  }

  /** Those that have been answered since were all told that failure. */
  ghost predicate Told(s: Sys, s': Sys, answer: Answer) {
    forall t :: t in s'.threads && s'.threads[t].Done? ==>
      s'.threads[t] == Done(answer) || (t in s.threads && s.threads[t] == s'.threads[t])
  }

  lemma OutageStep(s0: Sys, s: Sys, t: Tid, action: Action, e: Error, since: int)
    requires Outage(s, e, since) && Told(s0, s, Failed(e)) && Step(s, t, action).Some?
    requires !action.Check? && !action.Close? && Step(s, t, action).value.now - since < 30
    ensures var s' := Step(s, t, action).value;
      Outage(s', e, since) && Told(s0, s', Failed(e)) && s'.nextHandle == s.nextHandle
  {
    var s' := Step(s, t, action).value;
    forall u | u in s'.threads && u != t
      ensures u in s.threads && s'.threads[u] == s.threads[u]
    {
    }
  }

  /** For half a minute all queries are told the recorded failure, and none opens a handle. */
  lemma {:induction false} OutageIsReplayed(s: Sys, schedule: seq<(Tid, Action)>, e: Error, since: int)
    requires Outage(s, e, since) && Run(s, schedule).now - since < 30
    requires forall i :: 0 <= i < |schedule| ==> !schedule[i].1.Check? && !schedule[i].1.Close?
    ensures var s' := Run(s, schedule);
      Outage(s', e, since) && Told(s, s', Failed(e)) && s'.nextHandle == s.nextHandle
  {
    hide Outage, Told;
    if schedule == [] {
      assert Told(s, s, Failed(e)) by { ToldNobody(s, Failed(e)); }
    } else {
      var front, last := schedule[..|schedule| - 1], schedule[|schedule| - 1];
      var before := Run(s, front);
      TimePasses(before, last.0, last.1);
      OutageIsReplayed(s, front, e, since);
      if Step(before, last.0, last.1).Some? {
        OutageStep(s, before, last.0, last.1, e, since);
      }
    }
  }

  lemma ToldNobody(s: Sys, answer: Answer)
    ensures Told(s, s, answer)
  {
  }

  lemma TimePasses(s: Sys, t: Tid, action: Action)
    ensures Step(s, t, action).GetOr(s).now >= s.now
  {
  }

  /** The service is installed on h, and every caller is about to use it, to ping it, or through. */
  ghost predicate Connected(s: Sys, h: Handle) {
    && s.shared.db == Some(h) && s.shared.svc == Some(h)
    && forall t :: t in s.threads ==> match s.threads[t]
         case AtLookup => true
         case AtCheck => true
         case PingingOld(borrowed) => borrowed == Some(h)
         case Done(_) => true
         case _ => false
  }

  ghost predicate Content(s: Sys, s': Sys, h: Handle) {
    forall t :: t in s'.threads && s'.threads[t].Done? ==>
      || s'.threads[t] == Done(Served(h)) || s'.threads[t] == Done(Healthy)
      || (t in s.threads && s.threads[t] == s'.threads[t])
  }

  lemma ConnectedStep(s0: Sys, s: Sys, t: Tid, action: Action, h: Handle)
    requires Connected(s, h) && Content(s0, s, h) && Step(s, t, action).Some?
    requires !action.Close? && (action.Proceed? ==> action.ok)
    ensures var s' := Step(s, t, action).value;
      && Connected(s', h) && Content(s0, s', h)
      && s'.shared == s.shared && s'.nextHandle == s.nextHandle && s'.closed == s.closed
  {
    var s' := Step(s, t, action).value;
    forall u | u in s'.threads && u != t
      ensures u in s.threads && s'.threads[u] == s.threads[u]
    {
    }
  }

  /** While it answers and nobody closes the service, all queries are served by the installed handle, all checks
      succeed, and nothing is opened, closed or replaced. */
  lemma {:induction false} WorkingHandleServesAll(s: Sys, schedule: seq<(Tid, Action)>, h: Handle)
    requires Connected(s, h)
    requires forall i :: 0 <= i < |schedule| ==>
      !schedule[i].1.Close? && (schedule[i].1.Proceed? ==> schedule[i].1.ok)
    ensures var s' := Run(s, schedule);
      && Connected(s', h) && Content(s, s', h)
      && s'.shared == s.shared && s'.nextHandle == s.nextHandle && s'.closed == s.closed
  {
    hide Connected, Content;
    if schedule == [] {
      assert Content(s, s, h) by { ContentAtFirst(s, h); }
    } else {
      var front, last := schedule[..|schedule| - 1], schedule[|schedule| - 1];
      WorkingHandleServesAll(s, front, h);
      if Step(Run(s, front), last.0, last.1).Some? {
        ConnectedStep(s, Run(s, front), last.0, last.1, h);
      }
    }
  }

  lemma ContentAtFirst(s: Sys, h: Handle)
    ensures Content(s, s, h)
  {
  }

  /** A check does not wait for an outage to pass: without a service it opens a handle at once. */
  lemma CheckReconnects(s: Sys, t: Tid, ok: bool, e: Error)
    requires t in s.threads && s.threads[t].AtCheck? && s.shared.svc.None?
    ensures Alone(s, t, [ok, ok], e).threads[t] == Opening
    ensures var sh := Alone(s, t, [ok, ok], e).shared;
      sh.svc.None? && sh.db == s.shared.db && !(sh.init && sh.initErr.Some?)
  {
    AloneSnoc(s, t, [], ok, e);
    AloneSnoc(s, t, [ok], ok, e);
    assert [] + [ok] == [ok] && [ok] + [ok] == [ok, ok];
    assert Alone(s, t, [], e) == s;
  }

  /** A check whose ping fails closes the installed handle, once, and opens another; if the handle has been
      replaced meanwhile, it pings the new one instead, and if it is gone it opens one. */
  lemma CheckReplacesDeadHandle(s: Sys, t: Tid, h: Handle, ok: bool, e: Error)
    requires Inv(s) && t in s.threads && s.threads[t] == AtDrop(Some(h))
    ensures var s' := Move(s, t, ok, e);
      if s.shared.db == Some(h) then
        && s'.closed == s.closed + {h} && s'.shared.db.None? && s'.shared.svc.None?
        && Move(s', t, ok, e).threads[t] == Opening
      else
        && s' == s.(threads := s.threads[t := AtCheck])
        && (s.shared.db.Some? ==> Move(s', t, ok, e).threads[t] == PingingOld(s.shared.db))
        && (s.shared.db.None? ==> Move(Move(s', t, ok, e), t, ok, e).threads[t] == Opening)
  {
  }

  /** A check pings the installed handle; its answer decides, and nothing is changed. */
  lemma CheckPings(s: Sys, t: Tid, ok: bool, e: Error)
    requires Inv(s) && t in s.threads && s.threads[t].AtCheck? && s.shared.svc.Some?
    ensures Alone(s, t, [ok, ok], e)
         == s.(threads := s.threads[t := if ok then Done(Healthy) else AtDrop(s.shared.db)])
  {
    AloneSnoc(s, t, [], ok, e);
    AloneSnoc(s, t, [ok], ok, e);
    assert [] + [ok] == [ok] && [ok] + [ok] == [ok, ok];
    assert Alone(s, t, [], e) == s;
    assert s.threads[t := PingingOld(s.shared.db)][t := if ok then Done(Healthy) else AtDrop(s.shared.db)]
        == s.threads[t := if ok then Done(Healthy) else AtDrop(s.shared.db)];
  }

  /** Closing closes the installed handle and forgets everything, so that the next query connects. */
  lemma CloseReleases(s: Sys, t: Tid, ok: bool, e: Error)
    requires Inv(s) && t in s.threads && s.threads[t].AtClose?
    ensures var s' := Move(s, t, ok, e);
      && s'.threads[t] == Done(Released) && s'.nextHandle == s.nextHandle
      && (s.shared.db.None? ==> s'.shared == s.shared && s'.closed == s.closed)
      && (s.shared.db.Some? ==>
            && s'.shared == Shared(None, None, false, None, None)
            && s'.closed == s.closed + {s.shared.db.value} && MayConnect(s'))
  {
  }
}
