/** The shared payer session: any number of callers share one validated payer
    configuration, one load or login at a time, and one recorded failure.

    The mutex-guarded fields are the class Guarded; each of its methods is one critical
    section. The protocol is the transition system Sys, whose steps are those critical
    sections and the calls made between them, interleaved in any order. */
module PayerSession {
  import opened Wrappers

  type Tid = nat
  /** Identity of one payerState object: Go compares the pointers. */
  type StateId = nat
  type Chan = nat
  datatype Failure = Failure(message: string)

  // -------------------------------------------------------- critical sections

  datatype Shared = Shared(current: Option<StateId>, pending: Option<Chan>, failure: Option<Failure>)

  datatype Entry = Refuse(failure: Failure) | Wait(chan: Chan) | Use(state: StateId) | Load

  /** What a caller finds under the lock at the top of the loop. */
  function Enter(sh: Shared, failed: Option<StateId>): Entry {
    if sh.failure.Some? then Refuse(sh.failure.value)
    else if sh.pending.Some? then Wait(sh.pending.value)
    else if sh.current.Some? && sh.current != failed then Use(sh.current.value)
    else Load
  }

  datatype Outcome = Loaded | NotLoaded(failure: Failure)

  /** The shared fields after a load ends; a failure of a cancelled caller is not shared. */
  function Conclude(sh: Shared, outcome: Outcome, state: StateId, cancelled: bool): Shared {
    match outcome
    case Loaded => Shared(Some(state), None, None)
    case NotLoaded(e) => Shared(sh.current, None, if cancelled then sh.failure else Some(e))
  }

  /** The shared fields after the state obtained by a refresh failed again. */
  function Blame(sh: Shared, state: StateId, e: Failure): Shared {
    if sh.current == Some(state) && sh.pending.None? && sh.failure.None? then sh.(failure := Some(e)) else sh
  }

  class Guarded {
    var current: Option<StateId>
    var pending: Option<Chan>
    var failure: Option<Failure>

    function View(): Shared
      reads this
    {
      Shared(current, pending, failure)
    }

    constructor ()
      ensures View() == Shared(None, None, None)
    {
      current, pending, failure := None, None, None;
    }

    method EnterLocked(failed: Option<StateId>, newChan: Chan) returns (entry: Entry)
      modifies this
      ensures entry == Enter(old(View()), failed)
      ensures View() == if entry.Load? then old(View()).(pending := Some(newChan)) else old(View())
    {
      if failure.Some? {
        return Refuse(failure.value);
      }
      if pending.Some? {
        return Wait(pending.value);
      }
      if current.Some? && (failed.None? || current != failed) {
        return Use(current.value);
      }
      pending := Some(newChan);
      return Load;
    }

    method ConcludeLocked(outcome: Outcome, state: StateId, cancelled: bool)
      modifies this
      ensures View() == Conclude(old(View()), outcome, state, cancelled)
    {
      if outcome.Loaded? {
        current := Some(state);
        failure := None;
      } else if !cancelled {
        failure := Some(outcome.failure);
      }
      pending := None;
    }

    method BlameLocked(state: StateId, e: Failure)
      modifies this
      ensures View() == Blame(old(View()), state, e)
    {
      if current == Some(state) && pending.None? && failure.None? {
        failure := Some(e);
      }
    }
  }

  // ------------------------------------------------------- transition system

  /** The three calls loadWithLogin makes outside the lock. */
  datatype Phase = FirstLoad | Login | SecondLoad

  /** Where one caller of LinkedConfig is. `failed` is the state it reports as failed. */
  datatype Pc =
    | CheckContext(failed: Option<StateId>)
    | AtLock(failed: Option<StateId>)
    | Waiting(chan: Chan, failed: Option<StateId>)
    | Loading(failed: Option<StateId>, chan: Chan, phase: Phase)
    | Concluding(failed: Option<StateId>, chan: Chan, outcome: Outcome)
    | Assuming(state: StateId, failed: Option<StateId>)
    | Blaming(state: StateId, failure: Failure)
    | Done(answer: Answer)

  /** What a caller returns: a configuration from a state, an error, or that it was cancelled. */
  datatype Answer = Served(state: StateId) | Refused(failure: Failure) | Cancelled

  datatype Attempt = Attempt(reported: Option<StateId>, replaced: Option<StateId>, result: AttemptResult)
  datatype AttemptResult = Installed(state: StateId) | Failed | Abandoned

  /** calls counts the loads and logins started; attempts is the history of finished loads;
      panicked is set if a nil or closed channel would be closed. */
  datatype Sys = Sys(
    profileMethod: bool,
    shared: Shared,
    threads: map<Tid, Pc>,
    cancelled: set<Tid>,
    closed: set<Chan>,
    nextChan: Chan,
    nextState: StateId,
    calls: nat,
    attempts: seq<Attempt>,
    panicked: bool)

  function Init(profileMethod: bool): Sys {
    Sys(profileMethod, Shared(None, None, None), map[], {}, {}, 0, 0, 0, [], false)
  }

  datatype Reply = Success | CredentialError(failure: Failure) | OtherError(failure: Failure)

  /** One step of one caller; the reply of a call and the moment of cancellation are free. */
  datatype Action = Call | Cancel | Proceed(reply: Reply)

  function At(s: Sys, t: Tid, pc: Pc): Sys {
    s.(threads := s.threads[t := pc])
  }

  function Step(s: Sys, t: Tid, action: Action): Option<Sys> {
    match action
    case Call => if t in s.threads then None else Some(At(s, t, CheckContext(None)))
    case Cancel => Some(s.(cancelled := s.cancelled + {t}))
    case Proceed(reply) =>
      if t !in s.threads then None
      else
        match s.threads[t]
        case CheckContext(failed) => Some(At(s, t, if t in s.cancelled then Done(Cancelled) else AtLock(failed)))
        case AtLock(failed) => Some(LockStep(s, t, failed))
        case Waiting(chan, failed) =>
          if chan in s.closed then Some(At(s, t, CheckContext(failed)))
          else if t in s.cancelled then Some(At(s, t, Done(Cancelled)))
          else None
        case Loading(failed, chan, phase) => Some(CallReturns(s, t, failed, chan, phase, reply))
        case Concluding(failed, chan, outcome) => Some(ConcludeStep(s, t, failed, outcome))
        case Assuming(state, failed) => Some(At(s, t, AfterAssume(state, failed, reply)))
        case Blaming(state, e) => Some(At(s, t, Done(Refused(e))).(shared := Blame(s.shared, state, e)))
        case Done(_) => None
  }

  function LockStep(s: Sys, t: Tid, failed: Option<StateId>): Sys {
    match Enter(s.shared, failed)
    case Refuse(e) => At(s, t, Done(Refused(e)))
    case Wait(chan) => At(s, t, Waiting(chan, failed))
    case Use(state) => At(s, t, Assuming(state, failed))
    case Load =>
      At(s, t, Loading(failed, s.nextChan, FirstLoad))
        .(shared := s.shared.(pending := Some(s.nextChan)), nextChan := s.nextChan + 1, calls := s.calls + 1)
  }

  function CallReturns(s: Sys, t: Tid, failed: Option<StateId>, chan: Chan, phase: Phase, reply: Reply): Sys {
    match phase
    case FirstLoad =>
      (match reply
       case Success => At(s, t, Concluding(failed, chan, Loaded))
       case OtherError(e) => At(s, t, Concluding(failed, chan, NotLoaded(e)))
       case CredentialError(e) =>
         if t in s.cancelled || s.profileMethod then At(s, t, Concluding(failed, chan, NotLoaded(e)))
         else At(s, t, Loading(failed, chan, Login)).(calls := s.calls + 1))
    case Login =>
      if reply.Success? then At(s, t, Loading(failed, chan, SecondLoad)).(calls := s.calls + 1)
      else At(s, t, Concluding(failed, chan, NotLoaded(reply.failure)))
    case SecondLoad =>
      At(s, t, Concluding(failed, chan, if reply.Success? then Loaded else NotLoaded(reply.failure)))
  }

  /** Closing the pending channel panics if there is none or if it is closed already. */
  function ConcludeStep(s: Sys, t: Tid, failed: Option<StateId>, outcome: Outcome): Sys {
    var result := if outcome.Loaded? then Installed(s.nextState) else if t in s.cancelled then Abandoned else Failed;
    if s.shared.pending.None? || s.shared.pending.value in s.closed then s.(panicked := true)
    else
      At(s, t, if outcome.Loaded? then Assuming(s.nextState, failed) else Done(Refused(outcome.failure)))
        .(shared := Conclude(s.shared, outcome, s.nextState, t in s.cancelled),
          closed := s.closed + {s.shared.pending.value},
          nextState := if outcome.Loaded? then s.nextState + 1 else s.nextState,
          attempts := s.attempts + [Attempt(failed, s.shared.current, result)])
  }

  /** A credential error asks once for a refresh, and after the refresh blames the new state. */
  function AfterAssume(state: StateId, failed: Option<StateId>, reply: Reply): Pc {
    match reply
    case Success => Done(Served(state))
    case CredentialError(e) => if failed.None? then CheckContext(Some(state)) else Blaming(state, e)
    case OtherError(e) => Done(Refused(e))
  }

  /** A schedule; a step that is not enabled is skipped. */
  function Run(s: Sys, schedule: seq<(Tid, Action)>): Sys
  {
    if schedule == [] then s
    else
      var last := schedule[|schedule| - 1];
      var before := Run(s, schedule[..|schedule| - 1]);
      Step(before, last.0, last.1).GetOr(before)
  }

  // -------------------------------------------------------------- invariants

  /** A load or login is in flight, or its result is about to be published. */
  predicate Loads(pc: Pc) {
    pc.Loading? || pc.Concluding?
  }

  function LatestOf(attempts: seq<Attempt>): Option<StateId> {
    if attempts == [] then None
    else
      var last := attempts[|attempts| - 1];
      if last.result.Installed? then Some(last.result.state) else LatestOf(attempts[..|attempts| - 1])
  }

  ghost predicate KnownState(s: Sys, id: Option<StateId>) {
    id.Some? ==> id.value < s.nextState
  }

  ghost predicate PcOk(s: Sys, pc: Pc) {
    match pc
    case CheckContext(failed) => KnownState(s, failed)
    case AtLock(failed) => KnownState(s, failed)
    case Waiting(chan, failed) =>
      KnownState(s, failed) && chan < s.nextChan && (chan in s.closed || s.shared.pending == Some(chan))
    case Loading(failed, chan, _) => KnownState(s, failed) && s.shared.pending == Some(chan) && s.shared.failure.None?
    case Concluding(failed, chan, _) => KnownState(s, failed) && s.shared.pending == Some(chan)
        && s.shared.failure.None?
    case Assuming(state, failed) => state < s.nextState && KnownState(s, failed) && failed != Some(state)
    case Blaming(state, _) => state < s.nextState
    case Done(_) => true
  }

  ghost predicate OneLoader(s: Sys) {
    forall t, u :: t in s.threads && u in s.threads && Loads(s.threads[t]) && Loads(s.threads[u]) ==> t == u
  }

  ghost predicate PendingHasLoader(s: Sys) {
    s.shared.pending.Some? ==> exists t :: t in s.threads && Loads(s.threads[t])
  }

  ghost predicate ChannelsOk(s: Sys) {
    && (forall c :: c in s.closed ==> c < s.nextChan)
    && (s.shared.pending.Some? ==> s.shared.pending.value < s.nextChan && s.shared.pending.value !in s.closed)
  }

  /** Every finished load replaced the state installed by the latest success before it, with
      a newer one; only the last one can have recorded a failure. */
  ghost predicate HistoryOk(s: Sys) {
    && s.shared.current == LatestOf(s.attempts)
    && KnownState(s, s.shared.current)
    && (forall i :: 0 <= i < |s.attempts| ==> s.attempts[i].replaced == LatestOf(s.attempts[..i]))
    && (forall i :: 0 <= i < |s.attempts| && s.attempts[i].result.Installed? ==>
          (s.attempts[i].replaced.Some? ==> s.attempts[i].replaced.value < s.attempts[i].result.state))
    && (forall i :: 0 <= i < |s.attempts| && s.attempts[i].result == Failed ==>
        i == |s.attempts| - 1 && s.shared.failure.Some?)
  }

  ghost predicate Inv(s: Sys) {
    && !s.panicked
    && (forall t :: t in s.threads ==> PcOk(s, s.threads[t]))
    && OneLoader(s) && PendingHasLoader(s) && ChannelsOk(s) && HistoryOk(s)
  }

  lemma InvInit(profileMethod: bool)
    ensures Inv(Init(profileMethod))
  {
  }

  lemma HistoryGrows(s: Sys, s': Sys, reported: Option<StateId>, result: AttemptResult)
    requires HistoryOk(s) && s.shared.failure.None?
    requires s'.attempts == s.attempts + [Attempt(reported, s.shared.current, result)]
    requires s.nextState <= s'.nextState
    requires match result
             case Installed(id) => s'.shared.current == Some(id) && id == s.nextState && s'.nextState == id + 1
             case Failed => s'.shared.current == s.shared.current && s'.shared.failure.Some?
             case Abandoned => s'.shared.current == s.shared.current
    ensures HistoryOk(s')
  {
    var n := |s.attempts|;
    assert s'.attempts[..n] == s.attempts;
    forall i | 0 <= i <= n
      ensures s'.attempts[i].replaced == LatestOf(s'.attempts[..i])
    {
      assert s'.attempts[..i] == s.attempts[..i];
      assert s.attempts[..n] == s.attempts;
    }
  }

  lemma ConcludeKeepsInv(s: Sys, t: Tid)
    requires Inv(s) && t in s.threads && s.threads[t].Concluding?
    ensures Inv(ConcludeStep(s, t, s.threads[t].failed, s.threads[t].outcome))
  {
    var pc := s.threads[t];
    var s' := ConcludeStep(s, t, pc.failed, pc.outcome);
    HistoryGrows(s, s', pc.failed, s'.attempts[|s.attempts|].result);
    forall u | u in s'.threads
      ensures PcOk(s', s'.threads[u])
    {
      assert u != t ==> s'.threads[u] == s.threads[u] && !Loads(s.threads[u]);
    }
  }

  /** A step that moves one caller and leaves the shared fields alone. */
  lemma MoveKeepsInv(s: Sys, s': Sys, t: Tid, pc: Pc)
    requires Inv(s)
    requires s'.threads == s.threads[t := pc] && s'.shared == s.shared && s'.closed == s.closed
    requires s'.nextChan == s.nextChan && s'.nextState == s.nextState && s'.attempts == s.attempts && !s'.panicked
    requires PcOk(s, pc) && (Loads(pc) <==> t in s.threads && Loads(s.threads[t]))
    ensures Inv(s')
  {
    assert PendingHasLoader(s') by {
      if s.shared.pending.Some? {
        var u :| u in s.threads && Loads(s.threads[u]);
        assert u in s'.threads && Loads(s'.threads[u]);
      }
    }
    forall u | u in s'.threads
      ensures PcOk(s', s'.threads[u])
    {
      assert u != t ==> u in s.threads && s'.threads[u] == s.threads[u];
    }
  }

  lemma StartKeepsInv(s: Sys, t: Tid, failed: Option<StateId>)
    requires Inv(s) && t in s.threads && KnownState(s, failed)
    requires Enter(s.shared, failed).Load?
    ensures Inv(LockStep(s, t, failed))
  {
    var s' := LockStep(s, t, failed);
    assert Loads(s'.threads[t]);
    forall u | u in s'.threads && u != t
      ensures PcOk(s', s'.threads[u]) && !Loads(s'.threads[u])
    {
      assert PcOk(s, s.threads[u]);
    }
  }

  lemma BlameKeepsInv(s: Sys, t: Tid, state: StateId, e: Failure)
    requires Inv(s) && t in s.threads && s.threads[t] == Blaming(state, e)
    ensures Inv(At(s, t, Done(Refused(e))).(shared := Blame(s.shared, state, e)))
  {
    var s' := At(s, t, Done(Refused(e))).(shared := Blame(s.shared, state, e));
    if Blame(s.shared, state, e) == s.shared {
      MoveKeepsInv(s, s', t, Done(Refused(e)));
    } else {
      forall u | u in s'.threads
        ensures PcOk(s', s'.threads[u])
      {
        assert u != t ==> PcOk(s, s.threads[u]);
      }
    }
  }

  lemma StepKeepsInv(s: Sys, t: Tid, action: Action)
    requires Inv(s) && Step(s, t, action).Some?
    ensures Inv(Step(s, t, action).value)
  {
    hide Inv;
    var s' := Step(s, t, action).value;
    match action
    case Call =>
      InvFacts(s);
      MoveKeepsInv(s, s', t, CheckContext(None));
    case Cancel =>
      CancelKeepsInv(s, t);
    case Proceed(reply) =>
      ProceedKeepsInv(s, t, reply);
  }

  lemma CancelKeepsInv(s: Sys, t: Tid)
    requires Inv(s)
    ensures Inv(s.(cancelled := s.cancelled + {t}))
  {
    var s' := s.(cancelled := s.cancelled + {t});
    forall u | u in s'.threads
      ensures PcOk(s', s'.threads[u])
    {
      assert PcOk(s, s.threads[u]);
    }
  }

  lemma InvFacts(s: Sys)
    requires Inv(s)
    ensures forall t :: t in s.threads ==> PcOk(s, s.threads[t])
    ensures !s.panicked && KnownState(s, s.shared.current) && ChannelsOk(s)
  {
  }

  lemma LockStepKeepsInv(s: Sys, t: Tid, failed: Option<StateId>)
    requires Inv(s) && t in s.threads && s.threads[t] == AtLock(failed)
    ensures Inv(LockStep(s, t, failed))
  {
    hide Inv;
    InvFacts(s);
    if Enter(s.shared, failed).Load? {
      StartKeepsInv(s, t, failed);
    } else {
      var s' := LockStep(s, t, failed);
      MoveKeepsInv(s, s', t, s'.threads[t]);
    }
  }

  lemma CallReturnsKeepsInv(s: Sys, t: Tid, reply: Reply)
    requires Inv(s) && t in s.threads && s.threads[t].Loading?
    ensures Inv(CallReturns(s, t, s.threads[t].failed, s.threads[t].chan, s.threads[t].phase, reply))
  {
    hide Inv;
    InvFacts(s);
    var s' := CallReturns(s, t, s.threads[t].failed, s.threads[t].chan, s.threads[t].phase, reply);
    MoveKeepsInv(s, s', t, s'.threads[t]);
  }

  lemma ProceedKeepsInv(s: Sys, t: Tid, reply: Reply)
    requires Inv(s) && Step(s, t, Proceed(reply)).Some?
    ensures Inv(Step(s, t, Proceed(reply)).value)
  {
    hide Inv, LockStep, CallReturns, ConcludeStep, Blame;
    var s' := Step(s, t, Proceed(reply)).value;
    InvFacts(s);
    match s.threads[t]
    case AtLock(failed) =>
      LockStepKeepsInv(s, t, failed);
    case Loading(_, _, _) =>
      CallReturnsKeepsInv(s, t, reply);
    case Concluding(_, _, _) =>
      ConcludeKeepsInv(s, t);
    case Blaming(state, e) =>
      BlameKeepsInv(s, t, state, e);
    case Done(_) =>
      assert false;
    case _ =>
      MoveKeepsInv(s, s', t, s'.threads[t]);
  }

  // ------------------------------------------------------------------ safety

  lemma {:induction false} EveryRunKeepsInv(s: Sys, schedule: seq<(Tid, Action)>)
    requires Inv(s)
    ensures Inv(Run(s, schedule))
  {
    if schedule != [] {
      var last := schedule[|schedule| - 1];
      EveryRunKeepsInv(s, schedule[..|schedule| - 1]);
      var before := Run(s, schedule[..|schedule| - 1]);
      if Step(before, last.0, last.1).Some? {
        StepKeepsInv(before, last.0, last.1);
      }
    }
  }

  /** In every interleaving of any number of callers: no channel is closed twice or while nil;
      at most one load or login is in flight, and then no failure is recorded; and a caller
      that reported a state as failed is never handed that state again. */
  lemma EveryRunIsSafe(profileMethod: bool, schedule: seq<(Tid, Action)>)
    ensures var s := Run(Init(profileMethod), schedule);
      && !s.panicked
      && (forall t, u :: t in s.threads && u in s.threads && Loads(s.threads[t]) && Loads(s.threads[u]) ==> t == u)
      && (forall t :: t in s.threads && Loads(s.threads[t]) ==>
          && s.shared.failure.None? && s.shared.pending == Some(s.threads[t].chan)
          && s.threads[t].chan !in s.closed)
      && (forall t :: t in s.threads && s.threads[t].Assuming? ==> s.threads[t].failed != Some(s.threads[t].state))
  {
    InvInit(profileMethod);
    EveryRunKeepsInv(Init(profileMethod), schedule);
    var s := Run(Init(profileMethod), schedule);
    assert forall t :: t in s.threads ==> PcOk(s, s.threads[t]);
  }

  /** Once recorded, a failure stays, and no further load or login is started. */
  lemma {:induction false} FailureIsFinal(s: Sys, schedule: seq<(Tid, Action)>)
    requires Inv(s) && s.shared.failure.Some?
    ensures var s' := Run(s, schedule);
      s'.shared.failure == s.shared.failure && s'.shared.current == s.shared.current
      && s'.calls == s.calls && s'.attempts == s.attempts
  {
    hide Inv, Step;
    if schedule != [] {
      var front := schedule[..|schedule| - 1];
      FailureIsFinal(s, front);
      EveryRunKeepsInv(s, front);
      var last := schedule[|schedule| - 1];
      if Step(Run(s, front), last.0, last.1).Some? {
        StepAfterFailure(Run(s, front), last.0, last.1);
      }
    }
  }

  lemma StepAfterFailure(s: Sys, t: Tid, action: Action)
    requires Inv(s) && s.shared.failure.Some? && Step(s, t, action).Some?
    ensures var s' := Step(s, t, action).value;
      s'.shared.failure == s.shared.failure && s'.shared.current == s.shared.current
      && s'.calls == s.calls && s'.attempts == s.attempts
  {
    InvFacts(s);
    hide Inv;
  }

  lemma {:induction false} LatestGrows(s: Sys, i: nat, j: nat)
    requires HistoryOk(s) && i < j <= |s.attempts| && s.attempts[i].result.Installed?
    ensures LatestOf(s.attempts[..j]).Some? && LatestOf(s.attempts[..j]).value >= s.attempts[i].result.state
    decreases j
  {
    hide LatestOf, HistoryOk;
    LatestSnoc(s.attempts, j);
    if j - 1 > i {
      LatestGrows(s, i, j - 1);
      AttemptReplaces(s, j - 1);
    }
  }

  lemma LatestSnoc(attempts: seq<Attempt>, j: nat)
    requires 0 < j <= |attempts|
    ensures LatestOf(attempts[..j])
         == if attempts[j - 1].result.Installed? then Some(attempts[j - 1].result.state)
             else LatestOf(attempts[..j - 1])
  {
    assert attempts[..j][..j - 1] == attempts[..j - 1];
  }

  lemma AttemptReplaces(s: Sys, j: nat)
    requires HistoryOk(s) && j < |s.attempts|
    ensures s.attempts[j].replaced == LatestOf(s.attempts[..j])
    ensures s.attempts[j].result.Installed? && s.attempts[j].replaced.Some? ==>
              s.attempts[j].result.state > s.attempts[j].replaced.value
  {
  }

  /** In every run each state -- and the initial absence of one -- is replaced by at most one
      successful load, and no load made on its account starts after that. */
  lemma ReplacedAtMostOnce(profileMethod: bool, schedule: seq<(Tid, Action)>, i: nat, j: nat)
    requires i < j < |Run(Init(profileMethod), schedule).attempts|
    requires Run(Init(profileMethod), schedule).attempts[i].result.Installed?
    ensures var attempts := Run(Init(profileMethod), schedule).attempts;
      attempts[j].replaced != attempts[i].replaced
  {
    InvInit(profileMethod);
    EveryRunKeepsInv(Init(profileMethod), schedule);
    var s := Run(Init(profileMethod), schedule);
    LatestGrows(s, i, j);
    assert s.attempts[j].replaced == LatestOf(s.attempts[..j]);
  }

  /** A failed refresh is attempted once: in every run, an attempt that recorded a failure is
      the last attempt. */
  lemma NothingAfterAFailedAttempt(profileMethod: bool, schedule: seq<(Tid, Action)>, i: nat)
    requires i < |Run(Init(profileMethod), schedule).attempts|
    requires Run(Init(profileMethod), schedule).attempts[i].result == Failed
    ensures i == |Run(Init(profileMethod), schedule).attempts| - 1
    ensures Run(Init(profileMethod), schedule).shared.failure.Some?
  {
    InvInit(profileMethod);
    EveryRunKeepsInv(Init(profileMethod), schedule);
  }

  /** No wake-up is lost: while some caller has not returned, some caller can move. */
  lemma NoDeadlock(profileMethod: bool, schedule: seq<(Tid, Action)>, t: Tid, reply: Reply)
    requires t in Run(Init(profileMethod), schedule).threads
    requires !Run(Init(profileMethod), schedule).threads[t].Done?
    ensures exists u :: Step(Run(Init(profileMethod), schedule), u, Proceed(reply)).Some?
  {
    InvInit(profileMethod);
    EveryRunKeepsInv(Init(profileMethod), schedule);
    var s := Run(Init(profileMethod), schedule);
    assert PcOk(s, s.threads[t]);
    if s.threads[t].Waiting? && s.threads[t].chan !in s.closed {
      var u :| u in s.threads && Loads(s.threads[u]);
      assert Step(s, u, Proceed(reply)).Some?;
    } else {
      assert Step(s, t, Proceed(reply)).Some?;
    }
  }

  // ------------------------------------------------ when a state is replaced

  /** A load or login is for want of a state, or to replace the one that its caller reports as failed. */
  ghost predicate LoadsForCause(s: Sys) {
    && (forall t :: t in s.threads && Loads(s.threads[t]) ==>
          s.shared.current.None? || s.shared.current == s.threads[t].failed)
    && (forall i :: 0 <= i < |s.attempts| ==>
          s.attempts[i].replaced.None? || s.attempts[i].replaced == s.attempts[i].reported)
  }

  lemma StepKeepsCause(s: Sys, t: Tid, action: Action)
    requires Inv(s) && LoadsForCause(s) && Step(s, t, action).Some?
    ensures LoadsForCause(Step(s, t, action).value)
  {
    hide HistoryOk, PcOk, PendingHasLoader;
    if action.Proceed? && s.threads[t].Concluding? {
      EndKeepsCause(s, t);
    } else {
      MoveKeepsCause(s, t, action);
    }
  }

  lemma MoveKeepsCause(s: Sys, t: Tid, action: Action)
    requires Inv(s) && LoadsForCause(s) && Step(s, t, action).Some?
    requires action.Proceed? ==> !s.threads[t].Concluding?
    ensures LoadsForCause(Step(s, t, action).value)
  {
    hide Inv, Conclude, ConcludeStep;
    var s' := Step(s, t, action).value;
    assert s'.attempts == s.attempts && s'.shared.current == s.shared.current;
    forall u | u in s'.threads && Loads(s'.threads[u])
      ensures s'.shared.current.None? || s'.shared.current == s'.threads[u].failed
    {
      assert u != t ==> s'.threads[u] == s.threads[u];
    }
  }

  lemma EndKeepsCause(s: Sys, t: Tid)
    requires Inv(s) && LoadsForCause(s) && t in s.threads && s.threads[t].Concluding?
    ensures LoadsForCause(ConcludeStep(s, t, s.threads[t].failed, s.threads[t].outcome))
  {
    hide HistoryOk, PcOk, PendingHasLoader, ChannelsOk;
    var s' := ConcludeStep(s, t, s.threads[t].failed, s.threads[t].outcome);
    forall u | u in s'.threads
      ensures !Loads(s'.threads[u]) || s' == s.(panicked := true)
    {
      assert u != t ==> s'.threads[u] == s.threads[u];
    }
  }

  lemma {:induction false} EveryRunLoadsForCause(s: Sys, schedule: seq<(Tid, Action)>)
    requires Inv(s) && LoadsForCause(s)
    ensures LoadsForCause(Run(s, schedule))
  {
    hide Inv, Step, LoadsForCause;
    if schedule != [] {
      var front, last := schedule[..|schedule| - 1], schedule[|schedule| - 1];
      EveryRunLoadsForCause(s, front);
      EveryRunKeepsInv(s, front);
      if Step(Run(s, front), last.0, last.1).Some? {
        StepKeepsCause(Run(s, front), last.0, last.1);
      }
    }
  }

  /** In every run a caller loads only while no state is installed or the installed one is the one it reports
      as failed; so every attempt but those for want of a state replaces just what its caller reported. */
  lemma OnlyReportedIsReplaced(profileMethod: bool, schedule: seq<(Tid, Action)>)
    ensures var s := Run(Init(profileMethod), schedule);
      && (forall t :: t in s.threads && Loads(s.threads[t]) ==>
            s.shared.current.None? || s.shared.current == s.threads[t].failed)
      && (forall i :: 0 <= i < |s.attempts| ==>
            s.attempts[i].replaced.None? || s.attempts[i].replaced == s.attempts[i].reported)
  {
    InvInit(profileMethod);
    EveryRunLoadsForCause(Init(profileMethod), schedule);
  }

  /** A caller that reports no failure is given the installed state at once, and starts no call. */
  lemma InstalledStateIsReused(s: Sys, t: Tid, reply: Reply)
    requires t in s.threads && s.threads[t] == AtLock(None)
    requires s.shared.current.Some? && s.shared.pending.None? && s.shared.failure.None?
    ensures var s' := Step(s, t, Proceed(reply));
      s'.Some? && s'.value.threads == s.threads[t := Assuming(s.shared.current.value, None)]
      && s'.value.shared == s.shared && s'.value.calls == s.calls && s'.value.attempts == s.attempts
  {
  }

  /** A state that nobody has reported is installed, and nobody is loading. */
  ghost predicate Settled(s: Sys, state: StateId) {
    && s.shared == Shared(Some(state), None, None)
    && forall t :: t in s.threads ==> match s.threads[t]
         case CheckContext(failed) => failed.None?
         case AtLock(failed) => failed.None?
         case Waiting(_, failed) => failed.None?
         case Assuming(_, failed) => failed.None?
         case Done(_) => true
         case _ => false
  }

  lemma SettledStep(s: Sys, t: Tid, action: Action, state: StateId)
    requires Settled(s, state) && (action.Proceed? ==> !action.reply.CredentialError?) && Step(s, t, action).Some?
    ensures Settled(Step(s, t, action).value, state) && Step(s, t, action).value.calls == s.calls
  {
    var s' := Step(s, t, action).value;
    forall u | u in s'.threads && u != t
      ensures s'.threads[u] == s.threads[u]
    {
    }
  }

  /** While it works for everybody, all callers are served with it, and no further call is made. */
  lemma {:induction false} WorkingStateServesAll(s: Sys, schedule: seq<(Tid, Action)>, state: StateId)
    requires Settled(s, state)
    requires forall i :: 0 <= i < |schedule| ==> schedule[i].1.Proceed? ==> !schedule[i].1.reply.CredentialError?
    ensures Settled(Run(s, schedule), state) && Run(s, schedule).calls == s.calls
  {
    hide Settled, Step;
    if schedule != [] {
      var front, last := schedule[..|schedule| - 1], schedule[|schedule| - 1];
      WorkingStateServesAll(s, front, state);
      if Step(Run(s, front), last.0, last.1).Some? {
        SettledStep(Run(s, front), last.0, last.1, state);
      }
    }
  }

  // --------------------------------------------------- what a caller achieves

  function Proceeds(t: Tid, replies: seq<Reply>): seq<(Tid, Action)> {
    seq(|replies|, i requires 0 <= i < |replies| => (t, Proceed(replies[i])))
  }

  /** The calls of a load that is not disturbed: reload; for a credential error, unless the profile is renewed
      elsewhere, log in and load again. The failure, if any, and how many calls were made. */
  predicate Ends(profileMethod: bool, replies: seq<Reply>, failure: Option<Failure>) {
    || (|replies| == 1 && replies[0].Success? && failure.None?)
    || (|replies| == 1 && replies[0].OtherError? && failure == Some(replies[0].failure))
    || (|replies| == 1 && replies[0].CredentialError? && profileMethod && failure == Some(replies[0].failure))
    || (|replies| == 2 && replies[0].CredentialError? && !profileMethod && !replies[1].Success?
        && failure == Some(replies[1].failure))
    || (|replies| == 3 && replies[0].CredentialError? && !profileMethod && replies[1].Success?
        && failure == if replies[2].Success? then None else Some(replies[2].failure))
  }

  lemma RunSnoc(s: Sys, t: Tid, replies: seq<Reply>, reply: Reply)
    ensures var before := Run(s, Proceeds(t, replies));
      Run(s, Proceeds(t, replies + [reply])) == Step(before, t, Proceed(reply)).GetOr(before)
  {
    hide Step;
    var schedule := Proceeds(t, replies + [reply]);
    assert schedule[..|schedule| - 1] == Proceeds(t, replies);
  }

  lemma OneCall(s: Sys, t: Tid, replies: seq<Reply>, reply: Reply)
    requires var before := Run(s, Proceeds(t, replies)); t in before.threads && before.threads[t].Loading?
    ensures var before := Run(s, Proceeds(t, replies));
      var pc := before.threads[t];
      Run(s, Proceeds(t, replies + [reply])) == CallReturns(before, t, pc.failed, pc.chan, pc.phase, reply)
  {
    hide Run;
    RunSnoc(s, t, replies, reply);
  }

  lemma NoCallYet(s: Sys, t: Tid)
    ensures Run(s, Proceeds(t, [])) == s
  {
  }

  lemma CallsOfLoad(s: Sys, t: Tid, replies: seq<Reply>, failure: Option<Failure>)
    requires t in s.threads && s.threads[t].Loading? && s.threads[t].phase.FirstLoad? && t !in s.cancelled
    requires Ends(s.profileMethod, replies, failure)
    ensures Run(s, Proceeds(t, replies))
         == At(s, t, Concluding(s.threads[t].failed, s.threads[t].chan,
                                if failure.None? then Loaded else NotLoaded(failure.value)))
            .(calls := s.calls + |replies| - 1)
  {
    hide Run, Step, Proceeds;
    NoCallYet(s, t);
    OneCall(s, t, [], replies[0]);
    assert [] + [replies[0]] == replies[..1];
    if |replies| > 1 {
      OneCall(s, t, replies[..1], replies[1]);
      assert replies[..1] + [replies[1]] == replies[..2];
    }
    if |replies| > 2 {
      OneCall(s, t, replies[..2], replies[2]);
      assert replies[..2] + [replies[2]] == replies;
    }
    assert replies[..|replies|] == replies;
  }

  lemma LoadStarts(s: Sys, t: Tid, first: Reply)
    requires t in s.threads && s.threads[t].AtLock? && s.shared.failure.None? && s.shared.pending.None?
    requires s.shared.current.None? || s.shared.current == s.threads[t].failed
    ensures Run(s, Proceeds(t, [first]))
         == At(s, t, Loading(s.threads[t].failed, s.nextChan, FirstLoad))
            .(shared := s.shared.(pending := Some(s.nextChan)), nextChan := s.nextChan + 1, calls := s.calls + 1)
  {
    assert Run(s, Proceeds(t, [])) == s;
    RunSnoc(s, t, [], first);
    assert [] + [first] == [first];
  }

  /** A load of so many calls has ended, in success or with a failure. */
  ghost predicate HasLoaded(s: Sys, t: Tid, calls: nat, failure: Option<Failure>, after: Option<Sys>)
    requires t in s.threads && s.threads[t].AtLock?
  {
    && after.Some? && t in after.value.threads && after.value.calls == s.calls + calls
    && match failure
       case None =>
         && after.value.shared == Shared(Some(s.nextState), None, None)
         && after.value.threads[t] == Assuming(s.nextState, s.threads[t].failed)
         && after.value.attempts
            == s.attempts + [Attempt(s.threads[t].failed, s.shared.current, Installed(s.nextState))]
       case Some(e) =>
         && after.value.shared == Shared(s.shared.current, None, Some(e))
         && after.value.threads[t] == Done(Refused(e))
         && after.value.attempts == s.attempts + [Attempt(s.threads[t].failed, s.shared.current, Failed)]
  }

  lemma LoadEnds(s: Sys, s': Sys, t: Tid, calls: nat, failure: Option<Failure>, last: Reply)
    requires t in s.threads && s.threads[t].AtLock? && t !in s'.cancelled && s.nextChan !in s'.closed
    requires s'.threads
          == s.threads[t := Concluding(s.threads[t].failed, s.nextChan,
                                       if failure.None? then Loaded else NotLoaded(failure.value))]
    requires s'.shared == Shared(s.shared.current, Some(s.nextChan), None) && s'.calls == s.calls + calls
    requires s'.nextState == s.nextState && s'.attempts == s.attempts
    ensures HasLoaded(s, t, calls, failure, Step(s', t, Proceed(last)))
  {
  }

  /** The schedule of a caller that loads undisturbed: entering, its calls, and concluding. */
  function LoadRun(s: Sys, t: Tid, replies: seq<Reply>, any: Reply): Sys {
    Run(Run(s, Proceeds(t, [any])), Proceeds(t, replies))
  }

  /** A caller that finds nothing usable makes just these calls. If the last one succeeds, the new state is
      installed and used; if not, the failure is recorded, returned, and returned to everybody after it. */
  lemma LoadIsConcluded(s: Sys, t: Tid, replies: seq<Reply>, failure: Option<Failure>, any: Reply)
    requires Inv(s) && t in s.threads && s.threads[t].AtLock? && t !in s.cancelled
    requires s.shared.failure.None? && s.shared.pending.None?
    requires s.shared.current.None? || s.shared.current == s.threads[t].failed
    requires Ends(s.profileMethod, replies, failure)
    ensures HasLoaded(s, t, |replies|, failure, Step(LoadRun(s, t, replies, any), t, Proceed(any)))
  {
    InvFacts(s);
    hide Inv, Run, Step, Ends, HasLoaded;
    LoadStarts(s, t, any);
    CallsOfLoad(Run(s, Proceeds(t, [any])), t, replies, failure);
    LoadEnds(s, LoadRun(s, t, replies, any), t, |replies|, failure, any);
  }

  /** A caller that is cancelled leaves when it would look or while it waits; the others look again once the load
      that they wait for has ended. */
  lemma CancelledCallerLeaves(s: Sys, t: Tid, reply: Reply)
    requires t in s.threads && (s.threads[t].CheckContext? || s.threads[t].Waiting?)
    ensures var (pc, s') := (s.threads[t], Step(s, t, Proceed(reply)));
      && (pc.CheckContext? ==>
            s' == Some(s.(threads := s.threads[t := if t in s.cancelled then Done(Cancelled) else AtLock(pc.failed)])))
      && (pc.Waiting? && pc.chan in s.closed ==> s' == Some(s.(threads := s.threads[t := CheckContext(pc.failed)])))
      && (pc.Waiting? && pc.chan !in s.closed && t in s.cancelled ==>
            s' == Some(s.(threads := s.threads[t := Done(Cancelled)])))
      && (pc.Waiting? && pc.chan !in s.closed && t !in s.cancelled ==> s'.None?)
  {
  }

  /** A caller that is cancelled while it loads does not log in, and its failure is its own: the others find what
      was there before, and load for themselves. */
  lemma CancelledLoadIsAbandoned(s: Sys, t: Tid, reply: Reply, any: Reply)
    requires Inv(s) && t in s.threads && s.threads[t].Loading? && t in s.cancelled && !reply.Success?
    ensures var pc := s.threads[t];
      var s1 := Step(s, t, Proceed(reply));
      && s1.Some? && s1.value.calls == s.calls
      && var s2 := Step(s1.value, t, Proceed(any));
      && s2.Some? && s2.value.calls == s.calls && s2.value.threads == s.threads[t := Done(Refused(reply.failure))]
      && s2.value.shared == Shared(s.shared.current, None, None) && s2.value.closed == s.closed + {pc.chan}
      && s2.value.attempts == s.attempts + [Attempt(pc.failed, s.shared.current, Abandoned)]
  {
    hide HistoryOk, OneLoader, PendingHasLoader;
    var pc := s.threads[t];
    assert PcOk(s, pc);
    assert s.threads[t := Concluding(pc.failed, pc.chan, NotLoaded(reply.failure))][t := Done(Refused(reply.failure))]
        == s.threads[t := Done(Refused(reply.failure))];
  }

  /** A recorded failure is what every caller is told that asks from then on. */
  lemma FailureIsTold(s: Sys, t: Tid, reply: Reply)
    requires t in s.threads && s.threads[t].AtLock? && s.shared.failure.Some?
    ensures Step(s, t, Proceed(reply)) == Some(At(s, t, Done(Refused(s.shared.failure.value))))
  {
  }

  /** A caller whose role request is refused for its credentials reports the state once; if the refreshed one is
      refused too, that is the failure, recorded unless the state has been replaced or something is recorded or
      under way. Any other error is just returned, and a success serves the caller. */
  lemma RefusedRequestRefreshesOnce(s: Sys, t: Tid, state: StateId, failed: Option<StateId>, reply: Reply, next: Reply)
    requires t in s.threads && s.threads[t] == Assuming(state, failed)
    ensures var s' := Step(s, t, Proceed(reply));
      && s'.Some? && s'.value.shared == s.shared && s'.value.calls == s.calls
      && (reply.Success? ==> s'.value.threads[t] == Done(Served(state)))
      && (reply.OtherError? ==> s'.value.threads[t] == Done(Refused(reply.failure)))
      && (reply.CredentialError? && failed.None? ==> s'.value.threads[t] == CheckContext(Some(state)))
      && (reply.CredentialError? && failed.Some? ==>
            var s'' := Step(s'.value, t, Proceed(next));
            && s''.Some? && s''.value.threads[t] == Done(Refused(reply.failure)) && s''.value.calls == s.calls
            && s''.value.shared == if s.shared == Shared(Some(state), None, None)
                                   then Shared(Some(state), None, Some(reply.failure)) else s.shared)
  {
  }
}
