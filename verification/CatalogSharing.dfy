/** Sharing of version catalogs between concurrent scans: the EKS catalog, one entry per
    region, and the AWS Health catalog, a single entry. A catalog is fetched by one caller
    at a time, published once, and a failed fetch is remembered for its credential source
    until failures are retried.

    The mutex-guarded map is the class Guarded, one method per critical section; the protocol
    is the transition system Sys over those sections, in any interleaving. */
module CatalogSharing {
  import opened Wrappers

  type Tid = nat
  type Chan = nat
  type Key = string
  type Source = string
  /** The fetched versions, immutable once published. */
  datatype Catalog = Catalog(id: int)
  datatype Error = Error(message: string)

  // -------------------------------------------------------- critical sections

  datatype Entry = Entry(published: Option<Catalog>, pending: Option<Chan>, failures: map<Source, Error>)

  const NEW_ENTRY := Entry(None, None, map[])

  type Entries = map<Key, Entry>

  function EntryOf(entries: Entries, key: Key): Entry {
    if key in entries then entries[key] else NEW_ENTRY
  }

  datatype Verdict = Share(catalog: Catalog) | Wait(chan: Chan) | Replay(error: Error) | Fetch

  /** What a caller finds under the lock at the top of the loop. */
  function Enter(e: Entry, source: Source): Verdict {
    if e.published.Some? then Share(e.published.value)
    else if e.pending.Some? then Wait(e.pending.value)
    else if source in e.failures then Replay(e.failures[source])
    else Fetch
  }

  datatype Outcome = Fetched(catalog: Catalog) | FetchFailed(error: Error, cancelledError: bool)

  /** The entry after a fetch; a failure caused by cancellation is not remembered. */
  function Conclude(e: Entry, source: Source, outcome: Outcome, cancelled: bool): Entry {
    match outcome
    case Fetched(catalog) => e.(published := Some(catalog), pending := None)
    case FetchFailed(error, cancelledError) =>
      if cancelled || cancelledError then e.(pending := None)
      else e.(pending := None, failures := e.failures[source := error])
  }

  function Forgive(entries: Entries): Entries {
    map key | key in entries :: entries[key].(failures := map[])
  }

  class Guarded {
    var entries: Entries

    constructor ()
      ensures entries == map[]
    {
      entries := map[];
    }

    method EnterLocked(key: Key, source: Source, newChan: Chan) returns (verdict: Verdict)
      modifies this
      ensures verdict == Enter(EntryOf(old(entries), key), source)
      ensures entries
              == old(entries)[key := if verdict.Fetch? then EntryOf(old(entries), key).(pending := Some(newChan))
                                             else EntryOf(old(entries), key)]
    {
      if key !in entries {
        entries := entries[key := NEW_ENTRY];
      }
      var entry := entries[key];
      if entry.published.Some? {
        return Share(entry.published.value);
      }
      if entry.pending.Some? {
        return Wait(entry.pending.value);
      }
      if source in entry.failures {
        return Replay(entry.failures[source]);
      }
      entries := entries[key := entry.(pending := Some(newChan))];
      return Fetch;
    }

    method ConcludeLocked(key: Key, source: Source, outcome: Outcome, cancelled: bool)
      requires key in entries
      modifies this
      ensures entries == old(entries)[key := Conclude(old(entries)[key], source, outcome, cancelled)]
    {
      var entry := entries[key];
      if outcome.Fetched? {
        entry := entry.(published := Some(outcome.catalog));
      } else if !cancelled && !outcome.cancelledError {
        entry := entry.(failures := entry.failures[source := outcome.error]);
      }
      entries := entries[key := entry.(pending := None)];
    }

    method RetryFailuresLocked()
      modifies this
      ensures entries == Forgive(old(entries))
    {
      var rest := entries.Keys;
      ghost var before := entries;
      while rest != {}
        invariant rest <= before.Keys == entries.Keys
        invariant forall key :: key in before ==>
                    entries[key] == if key in rest then before[key] else before[key].(failures := map[])
        decreases rest
      {
        var key :| key in rest;
        entries := entries[key := entries[key].(failures := map[])];
        rest := rest - {key};
      }
    }
  }

  // ------------------------------------------------------- transition system

  datatype Pc =
    | CheckContext(key: Key, source: Source)
    | AtLock(key: Key, source: Source)
    | Waiting(key: Key, source: Source, chan: Chan)
    | Fetching(key: Key, source: Source, chan: Chan)
    | Concluding(key: Key, source: Source, chan: Chan, outcome: Outcome)
    | Done(key: Key, answer: Answer)

  /** What a caller returns: the versions, an error of its source, or that it was cancelled. */
  datatype Answer = Given(catalog: Catalog) | Refused(error: Error) | Cancelled

  /** calls counts the fetches started, by key and source; panicked is set if a nil or
      closed channel would be closed. */
  datatype Sys = Sys(
    entries: Entries,
    threads: map<Tid, Pc>,
    cancelled: set<Tid>,
    closed: set<Chan>,
    nextChan: Chan,
    calls: multiset<(Key, Source)>,
    panicked: bool)

  const INIT := Sys(map[], map[], {}, {}, 0, multiset{}, false)

  datatype Action =
    | Call(key: Key, source: Source)
    | Cancel
    | RetryFailures
    | Proceed(outcome: Outcome)

  function At(s: Sys, t: Tid, pc: Pc): Sys {
    s.(threads := s.threads[t := pc])
  }

  function Step(s: Sys, t: Tid, action: Action): Option<Sys> {
    match action
    case Call(key, source) => if t in s.threads then None else Some(At(s, t, CheckContext(key, source)))
    case Cancel => Some(s.(cancelled := s.cancelled + {t}))
    case RetryFailures => Some(s.(entries := Forgive(s.entries)))
    case Proceed(outcome) =>
      if t !in s.threads then None
      else
        match s.threads[t]
        case CheckContext(key, source) =>
          Some(At(s, t, if t in s.cancelled then Done(key, Cancelled) else AtLock(key, source)))
        case AtLock(key, source) => Some(LockStep(s, t, key, source))
        case Waiting(key, source, chan) =>
          if chan in s.closed then Some(At(s, t, CheckContext(key, source)))
          else if t in s.cancelled then Some(At(s, t, Done(key, Cancelled)))
          else None
        case Fetching(key, source, chan) => Some(At(s, t, Concluding(key, source, chan, outcome)))
        case Concluding(key, source, chan, result) => Some(ConcludeStep(s, t, key, source, result))
        case Done(_, _) => None
  }

  function LockStep(s: Sys, t: Tid, key: Key, source: Source): Sys {
    var e := EntryOf(s.entries, key);
    match Enter(e, source)
    case Share(catalog) => At(s, t, Done(key, Given(catalog))).(entries := s.entries[key := e])
    case Wait(chan) => At(s, t, Waiting(key, source, chan)).(entries := s.entries[key := e])
    case Replay(error) => At(s, t, Done(key, Refused(error))).(entries := s.entries[key := e])
    case Fetch =>
      At(s, t, Fetching(key, source, s.nextChan))
        .(entries := s.entries[key := e.(pending := Some(s.nextChan))],
          nextChan := s.nextChan + 1,
          calls := s.calls + multiset{(key, source)})
  }

  /** Closes the channel found in the entry, as the code does, not the one this caller made. */
  function ConcludeStep(s: Sys, t: Tid, key: Key, source: Source, outcome: Outcome): Sys {
    var e := EntryOf(s.entries, key);
    if e.pending.None? || e.pending.value in s.closed then s.(panicked := true)
    else
      At(s, t, Done(key, AnswerOf(outcome)))
        .(entries := s.entries[key := Conclude(e, source, outcome, t in s.cancelled)],
          closed := s.closed + {e.pending.value})
  }

  function AnswerOf(outcome: Outcome): Answer {
    match outcome
    case Fetched(catalog) => Given(catalog)
    case FetchFailed(error, _) => Refused(error)
  }

  function Run(s: Sys, schedule: seq<(Tid, Action)>): Sys {
    if schedule == [] then s
    else
      var last := schedule[|schedule| - 1];
      var before := Run(s, schedule[..|schedule| - 1]);
      Step(before, last.0, last.1).GetOr(before)
  }

  // -------------------------------------------------------------- invariants

  predicate Fetches(pc: Pc) {
    pc.Fetching? || pc.Concluding?
  }

  ghost predicate PcOk(s: Sys, pc: Pc) {
    match pc
    case Waiting(key, _, chan) => chan < s.nextChan
        && (chan in s.closed || EntryOf(s.entries, key).pending == Some(chan))
    case Fetching(key, _, chan) => EntryOf(s.entries, key).pending == Some(chan)
    case Concluding(key, _, chan, _) => EntryOf(s.entries, key).pending == Some(chan)
    case _ => true
  }

  ghost predicate FetcherOf(s: Sys, t: Tid, key: Key) {
    t in s.threads && Fetches(s.threads[t]) && s.threads[t].key == key
  }

  ghost predicate EntryOk(s: Sys, key: Key) {
    var e := EntryOf(s.entries, key);
    && (e.published.Some? ==> e.pending.None?)
    && (e.pending.Some? ==> e.pending.value < s.nextChan && e.pending.value !in s.closed)
    && (e.pending.Some? ==> exists t :: FetcherOf(s, t, key))
  }

  ghost predicate Inv(s: Sys) {
    && !s.panicked
    && (forall t :: t in s.threads ==> PcOk(s, s.threads[t]))
    && (forall key :: EntryOk(s, key))
    && (forall c :: c in s.closed ==> c < s.nextChan)
    && (forall t, u, key :: FetcherOf(s, t, key) && FetcherOf(s, u, key) ==> t == u)
    && (forall k1, k2 ::
          EntryOf(s.entries, k1).pending.Some? && EntryOf(s.entries, k1).pending == EntryOf(s.entries, k2).pending ==>
            k1 == k2)
  }

  /** A step that changes one caller and at most the failures of entries. */
  lemma QuietStep(s: Sys, s': Sys, t: Tid, pc: Pc)
    requires Inv(s)
    requires s'.threads == s.threads[t := pc]
    requires s'.closed == s.closed && s'.nextChan == s.nextChan && !s'.panicked
    requires forall key :: EntryOf(s'.entries, key).published == EntryOf(s.entries, key).published
                        && EntryOf(s'.entries, key).pending == EntryOf(s.entries, key).pending
    requires PcOk(s, pc)
    requires if Fetches(pc) then FetcherOf(s, t, pc.key) else t !in s.threads || !Fetches(s.threads[t])
    ensures Inv(s')
  {
    assert forall u, key :: FetcherOf(s', u, key) <==> FetcherOf(s, u, key);
    forall key
      ensures EntryOk(s', key)
    {
      assert EntryOk(s, key);
      if EntryOf(s.entries, key).pending.Some? {
        var u :| FetcherOf(s, u, key);
        assert FetcherOf(s', u, key);
      }
    }
    forall u | u in s'.threads
      ensures PcOk(s', s'.threads[u])
    {
      assert u != t ==> PcOk(s, s.threads[u]);
    }
  }

  lemma StartStep(s: Sys, t: Tid, key: Key, source: Source)
    requires Inv(s) && t in s.threads && s.threads[t] == AtLock(key, source)
    requires Enter(EntryOf(s.entries, key), source).Fetch?
    ensures Inv(LockStep(s, t, key, source))
  {
    var s' := LockStep(s, t, key, source);
    assert EntryOk(s, key);
    assert forall k :: k != key ==> EntryOf(s'.entries, k) == EntryOf(s.entries, k);
    forall u | u in s.threads
      ensures FetcherOf(s, u, key) ==> false
    {
      assert PcOk(s, s.threads[u]);
    }
    assert forall u, k :: FetcherOf(s', u, k) <==> FetcherOf(s, u, k) || (u == t && k == key);
    forall k
      ensures EntryOk(s', k)
    {
      assert EntryOk(s, k);
      if k == key {
        assert FetcherOf(s', t, key);
      } else if EntryOf(s.entries, k).pending.Some? {
        var u :| FetcherOf(s, u, k);
        assert FetcherOf(s', u, k);
      }
    }
    forall u | u in s'.threads
      ensures PcOk(s', s'.threads[u])
    {
      assert u != t ==> PcOk(s, s.threads[u]);
    }
    forall k | k != key && EntryOf(s.entries, k).pending.Some?
      ensures EntryOf(s.entries, k).pending != Some(s.nextChan)
    {
      assert EntryOk(s, k);
    }
  }

  lemma EndStep(s: Sys, t: Tid)
    requires Inv(s) && t in s.threads && s.threads[t].Concluding?
    ensures Inv(ConcludeStep(s, t, s.threads[t].key, s.threads[t].source, s.threads[t].outcome))
  {
    var pc := s.threads[t];
    var key := pc.key;
    var s' := ConcludeStep(s, t, key, pc.source, pc.outcome);
    EndFrees(s, t);
    assert PcOk(s, pc) && EntryOk(s, key);
    forall k
      ensures EntryOk(s', k)
    {
      assert EntryOk(s, k);
      if k != key && EntryOf(s.entries, k).pending.Some? {
        var u :| FetcherOf(s, u, k);
        assert FetcherOf(s', u, k);
      }
    }
    forall u | u in s'.threads
      ensures PcOk(s', s'.threads[u])
    {
      if u != t {
        assert PcOk(s, s.threads[u]);
        assert Fetches(s.threads[u]) ==> FetcherOf(s, u, s.threads[u].key);
      }
    }
  }

  /** Concluding ends the only fetch of a key and leaves other keys as they are. */
  lemma EndFrees(s: Sys, t: Tid)
    requires Inv(s) && t in s.threads && s.threads[t].Concluding?
    ensures var (key, s') := (s.threads[t].key,
                              ConcludeStep(s, t, s.threads[t].key, s.threads[t].source, s.threads[t].outcome));
      && (forall k :: k != key ==> EntryOf(s'.entries, k) == EntryOf(s.entries, k))
      && (forall u, k :: FetcherOf(s', u, k) <==> FetcherOf(s, u, k) && k != key)
  {
    var pc := s.threads[t];
    var key := pc.key;
    var s' := ConcludeStep(s, t, key, pc.source, pc.outcome);
    assert PcOk(s, pc) && EntryOk(s, key) && FetcherOf(s, t, key);
    assert s'.threads == s.threads[t := Done(key, AnswerOf(pc.outcome))];
    assert forall u :: FetcherOf(s, u, key) ==> u == t;
    forall u, k
      ensures FetcherOf(s', u, k) <==> FetcherOf(s, u, k) && k != key
    {
      if u == t {
        assert !FetcherOf(s', t, k);
      } else {
        assert FetcherOf(s', u, k) <==> FetcherOf(s, u, k);
      }
    }
  }

  lemma StepKeepsInv(s: Sys, t: Tid, action: Action)
    requires Inv(s) && Step(s, t, action).Some?
    ensures Inv(Step(s, t, action).value)
  {
    var s' := Step(s, t, action).value;
    if action.Proceed? {
      ProceedKeepsInv(s, t, action.outcome);
    } else if action.Call? {
      QuietStep(s, s', t, s'.threads[t]);
    } else if t in s.threads {
      assert s'.threads == s.threads[t := s.threads[t]];
      QuietStep(s, s', t, s.threads[t]);
    } else {
      UnknownCallerKeepsInv(s, s');
    }
  }

  lemma UnknownCallerKeepsInv(s: Sys, s': Sys)
    requires Inv(s)
    requires s'.threads == s.threads && s'.closed == s.closed && s'.nextChan == s.nextChan && !s'.panicked
    requires forall key :: EntryOf(s'.entries, key).published == EntryOf(s.entries, key).published
                        && EntryOf(s'.entries, key).pending == EntryOf(s.entries, key).pending
    ensures Inv(s')
  {
    assert forall u, key :: FetcherOf(s', u, key) <==> FetcherOf(s, u, key);
    forall key
      ensures EntryOk(s', key)
    {
      assert EntryOk(s, key);
      if EntryOf(s.entries, key).pending.Some? {
        var u :| FetcherOf(s, u, key);
        assert FetcherOf(s', u, key);
      }
    }
    forall u | u in s'.threads
      ensures PcOk(s', s'.threads[u])
    {
      assert PcOk(s, s.threads[u]);
    }
  }

  lemma ProceedKeepsInv(s: Sys, t: Tid, outcome: Outcome)
    requires Inv(s) && Step(s, t, Proceed(outcome)).Some?
    ensures Inv(Step(s, t, Proceed(outcome)).value)
  {
    var s' := Step(s, t, Proceed(outcome)).value;
    assert PcOk(s, s.threads[t]);
    match s.threads[t]
    case AtLock(key, source) =>
      assert EntryOk(s, key);
      if Enter(EntryOf(s.entries, key), source).Fetch? {
        StartStep(s, t, key, source);
      } else {
        QuietStep(s, s', t, s'.threads[t]);
      }
    case Concluding(_, _, _, _) =>
      EndStep(s, t);
    case Fetching(key, _, _) =>
      assert FetcherOf(s, t, key);
      QuietStep(s, s', t, s'.threads[t]);
    case Done(_, _) =>
      assert false;
    case _ =>
      QuietStep(s, s', t, s'.threads[t]);
  }

  lemma {:induction false} EveryRunKeepsInv(s: Sys, schedule: seq<(Tid, Action)>)
    requires Inv(s)
    ensures Inv(Run(s, schedule))
  {
    if schedule != [] {
      var last := schedule[|schedule| - 1];
      EveryRunKeepsInv(s, schedule[..|schedule| - 1]);
      var before := Run(s, schedule[..|schedule| - 1]);
      if Step(before, last.0, last.1).Some? {
        StepKeepsInv(before, last.0, last.1);
      }
    }
  }

  // ------------------------------------------------------------------ safety

  /** In every interleaving: no channel is closed twice or while nil; for each key at most one
      fetch is in flight, the channel it will close is its own, and no catalog is published yet. */
  lemma EveryRunIsSafe(schedule: seq<(Tid, Action)>)
    ensures var s := Run(INIT, schedule);
      && !s.panicked
      && (forall t, u, key :: FetcherOf(s, t, key) && FetcherOf(s, u, key) ==> t == u)
      && (forall t, key :: FetcherOf(s, t, key) ==>
            && EntryOf(s.entries, key).pending == Some(s.threads[t].chan) && s.threads[t].chan !in s.closed
            && EntryOf(s.entries, key).published.None?)
  {
    EveryRunKeepsInv(INIT, schedule);
    var s := Run(INIT, schedule);
    forall t, key | FetcherOf(s, t, key)
      ensures EntryOf(s.entries, key).pending == Some(s.threads[t].chan) && s.threads[t].chan !in s.closed
      ensures EntryOf(s.entries, key).published.None?
    {
      assert PcOk(s, s.threads[t]) && EntryOk(s, key);
    }
  }

  lemma StepKeepsPublished(s: Sys, t: Tid, action: Action, key: Key, source: Source)
    requires Inv(s) && EntryOf(s.entries, key).published.Some? && Step(s, t, action).Some?
    ensures var s' := Step(s, t, action).value;
      && EntryOf(s'.entries, key).published == EntryOf(s.entries, key).published
      && s'.calls[(key, source)] == s.calls[(key, source)]
  {
    assert EntryOk(s, key);
    if t in s.threads {
      assert PcOk(s, s.threads[t]);
    }
  }

  /** A published catalog never changes, not even by retrying failures, and is never fetched again. */
  lemma {:induction false} PublishedOnce(s: Sys, schedule: seq<(Tid, Action)>, key: Key, source: Source)
    requires Inv(s) && EntryOf(s.entries, key).published.Some?
    ensures var s' := Run(s, schedule);
      && EntryOf(s'.entries, key).published == EntryOf(s.entries, key).published
      && s'.calls[(key, source)] == s.calls[(key, source)]
  {
    if schedule != [] {
      var last := schedule[|schedule| - 1];
      PublishedOnce(s, schedule[..|schedule| - 1], key, source);
      EveryRunKeepsInv(s, schedule[..|schedule| - 1]);
      var before := Run(s, schedule[..|schedule| - 1]);
      if Step(before, last.0, last.1).Some? {
        StepKeepsPublished(before, last.0, last.1, key, source);
      }
    }
  }

  ghost predicate FetchingFor(s: Sys, t: Tid, key: Key, source: Source) {
    t in s.threads && Fetches(s.threads[t]) && s.threads[t].key == key && s.threads[t].source == source
  }

  /** A source with a recorded failure has no fetch in flight for that key. */
  ghost predicate FailedSourcesRest(s: Sys) {
    forall t, key, source :: FetchingFor(s, t, key, source) ==> source !in EntryOf(s.entries, key).failures
  }

  lemma StepKeepsRest(s: Sys, t: Tid, action: Action)
    requires Inv(s) && FailedSourcesRest(s) && Step(s, t, action).Some?
    ensures FailedSourcesRest(Step(s, t, action).value)
  {
    var s' := Step(s, t, action).value;
    if action.Proceed? && s.threads[t].Concluding? {
      EndKeepsRest(s, t);
    } else {
      forall u, key, source | FetchingFor(s', u, key, source)
        ensures source !in EntryOf(s'.entries, key).failures
      {
        if u != t || !action.Proceed? || !s.threads[t].AtLock? {
          assert FetchingFor(s, u, key, source);
        }
      }
    }
  }

  /** Only the concluding caller records a failure, and it is the only one fetching its key. */
  lemma EndKeepsRest(s: Sys, t: Tid)
    requires Inv(s) && FailedSourcesRest(s) && t in s.threads && s.threads[t].Concluding?
    ensures FailedSourcesRest(ConcludeStep(s, t, s.threads[t].key, s.threads[t].source, s.threads[t].outcome))
  {
    var pc := s.threads[t];
    var s' := ConcludeStep(s, t, pc.key, pc.source, pc.outcome);
    assert FetcherOf(s, t, pc.key) && PcOk(s, pc) && EntryOk(s, pc.key);
    assert s'.threads == s.threads[t := Done(pc.key, AnswerOf(pc.outcome))];
    forall u, key, source | FetchingFor(s', u, key, source)
      ensures source !in EntryOf(s'.entries, key).failures
    {
      if u != t {
        assert FetchingFor(s, u, key, source) && FetcherOf(s, u, key);
      }
    }
  }

  lemma {:induction false} EveryRunKeepsRest(schedule: seq<(Tid, Action)>)
    ensures Inv(Run(INIT, schedule)) && FailedSourcesRest(Run(INIT, schedule))
  {
    if schedule != [] {
      var last := schedule[|schedule| - 1];
      EveryRunKeepsRest(schedule[..|schedule| - 1]);
      var before := Run(INIT, schedule[..|schedule| - 1]);
      if Step(before, last.0, last.1).Some? {
        StepKeepsInv(before, last.0, last.1);
        StepKeepsRest(before, last.0, last.1);
      }
    }
  }

  /** Until failures are retried, a source with a recorded failure keeps that failure and makes
      no further call for the key. */
  lemma {:induction false} FailureIsReplayed(s: Sys, schedule: seq<(Tid, Action)>, key: Key, source: Source)
    requires Inv(s) && FailedSourcesRest(s) && source in EntryOf(s.entries, key).failures
    requires forall i :: 0 <= i < |schedule| ==> !schedule[i].1.RetryFailures?
    ensures var s' := Run(s, schedule);
      && Inv(s') && FailedSourcesRest(s')
      && source in EntryOf(s'.entries, key).failures
      && EntryOf(s'.entries, key).failures[source] == EntryOf(s.entries, key).failures[source]
      && s'.calls[(key, source)] == s.calls[(key, source)]
  {
    if schedule != [] {
      var front := schedule[..|schedule| - 1];
      var last := schedule[|schedule| - 1];
      FailureIsReplayed(s, front, key, source);
      var before := Run(s, front);
      if Step(before, last.0, last.1).Some? {
        StepKeepsInv(before, last.0, last.1);
        StepKeepsRest(before, last.0, last.1);
        StepKeepsFailure(before, last.0, last.1, key, source);
      }
    }
  }

  lemma StepKeepsFailure(s: Sys, t: Tid, action: Action, key: Key, source: Source)
    requires FailedSourcesRest(s) && source in EntryOf(s.entries, key).failures
    requires !action.RetryFailures? && Step(s, t, action).Some?
    ensures var s' := Step(s, t, action).value;
      && source in EntryOf(s'.entries, key).failures
      && EntryOf(s'.entries, key).failures[source] == EntryOf(s.entries, key).failures[source]
      && s'.calls[(key, source)] == s.calls[(key, source)]
  {
    assert !FetchingFor(s, t, key, source);
  }

  /** No wake-up is lost: while some caller has not returned, some caller can move. */
  lemma NoDeadlock(schedule: seq<(Tid, Action)>, t: Tid, outcome: Outcome)
    requires t in Run(INIT, schedule).threads && !Run(INIT, schedule).threads[t].Done?
    ensures exists u :: Step(Run(INIT, schedule), u, Proceed(outcome)).Some?
  {
    EveryRunKeepsInv(INIT, schedule);
    var s := Run(INIT, schedule);
    assert PcOk(s, s.threads[t]);
    if s.threads[t].Waiting? && s.threads[t].chan !in s.closed {
      var key := s.threads[t].key;
      assert EntryOk(s, key);
      var u :| FetcherOf(s, u, key);
      assert Step(s, u, Proceed(outcome)).Some?;
    } else {
      assert Step(s, t, Proceed(outcome)).Some?;
    }
  }

  // ------------------------------------------------ what a caller is answered

  /** Whoever was given a catalog for a key was given the one published for it. */
  ghost predicate AnswersAgree(s: Sys) {
    forall t :: t in s.threads && s.threads[t].Done? && s.threads[t].answer.Given? ==>
      EntryOf(s.entries, s.threads[t].key).published == Some(s.threads[t].answer.catalog)
  }

  lemma StepKeepsAnswers(s: Sys, t: Tid, action: Action)
    requires Inv(s) && AnswersAgree(s) && Step(s, t, action).Some?
    ensures AnswersAgree(Step(s, t, action).value)
  {
    hide PcOk, EntryOk;
    var s' := Step(s, t, action).value;
    forall u | u in s'.threads && s'.threads[u].Done? && s'.threads[u].answer.Given?
      ensures EntryOf(s'.entries, s'.threads[u].key).published == Some(s'.threads[u].answer.catalog)
    {
      if u in s.threads && s'.threads[u] == s.threads[u] {
        StepKeepsPublished(s, t, action, s.threads[u].key, "");
      }
    }
  }

  /** In every run all callers that are given a catalog for a key are given the same one, the published one. */
  lemma {:induction false} EveryRunKeepsAnswers(schedule: seq<(Tid, Action)>)
    ensures Inv(Run(INIT, schedule)) && AnswersAgree(Run(INIT, schedule))
  {
    hide Step, Inv, AnswersAgree;
    if schedule == [] {
      assert Inv(INIT) && AnswersAgree(INIT) by { InvAtFirst(); }
    } else {
      var front, last := schedule[..|schedule| - 1], schedule[|schedule| - 1];
      EveryRunKeepsAnswers(front);
      if Step(Run(INIT, front), last.0, last.1).Some? {
        StepKeepsInv(Run(INIT, front), last.0, last.1);
        StepKeepsAnswers(Run(INIT, front), last.0, last.1);
      }
    }
  }

  lemma InvAtFirst()
    ensures Inv(INIT) && AnswersAgree(INIT)
  {
  }

  /** A published catalog is handed out at once, without a call. */
  lemma PublishedIsShared(s: Sys, t: Tid, outcome: Outcome, key: Key, source: Source)
    requires t in s.threads && s.threads[t] == AtLock(key, source)
    requires EntryOf(s.entries, key).published.Some?
    ensures var s' := Step(s, t, Proceed(outcome));
      && s'.Some? && s'.value.calls == s.calls
      && s'.value.threads == s.threads[t := Done(key, Given(EntryOf(s.entries, key).published.value))]
      && forall k :: EntryOf(s'.value.entries, k) == EntryOf(s.entries, k)
  {
  }

  /** A recorded failure is told to callers of the same source, without a call. */
  lemma FailureIsTold(s: Sys, t: Tid, outcome: Outcome, key: Key, source: Source)
    requires t in s.threads && s.threads[t] == AtLock(key, source)
    requires EntryOf(s.entries, key).published.None? && EntryOf(s.entries, key).pending.None?
    requires source in EntryOf(s.entries, key).failures
    ensures var s' := Step(s, t, Proceed(outcome));
      && s'.Some? && s'.value.calls == s.calls
      && s'.value.threads == s.threads[t := Done(key, Refused(EntryOf(s.entries, key).failures[source]))]
      && forall k :: EntryOf(s'.value.entries, k) == EntryOf(s.entries, k)
  {
  }

  /** While a fetch is under way others wait for it, whether or not their own source has failed before. */
  lemma PendingIsAwaited(s: Sys, t: Tid, outcome: Outcome, key: Key, source: Source)
    requires t in s.threads && s.threads[t] == AtLock(key, source)
    requires EntryOf(s.entries, key).published.None? && EntryOf(s.entries, key).pending.Some?
    ensures var s' := Step(s, t, Proceed(outcome));
      && s'.Some? && s'.value.calls == s.calls
      && s'.value.threads == s.threads[t := Waiting(key, source, EntryOf(s.entries, key).pending.value)]
  {
  }

  /** Whoever waits for a fetch looks again once it has ended, and not before, unless cancelled. */
  lemma WaitingEnds(s: Sys, t: Tid, outcome: Outcome)
    requires t in s.threads && s.threads[t].Waiting?
    ensures var (s', pc) := (Step(s, t, Proceed(outcome)), s.threads[t]);
      && (s'.Some? <==> pc.chan in s.closed || t in s.cancelled)
      && (pc.chan in s.closed ==> s'.value.threads[t] == CheckContext(pc.key, pc.source))
      && (pc.chan !in s.closed && t in s.cancelled ==> s'.value.threads[t] == Done(pc.key, Cancelled))
  {
  }

  /** A caller looks for the catalog unless it has been cancelled. */
  lemma CancelledCallerLeaves(s: Sys, t: Tid, outcome: Outcome)
    requires t in s.threads && s.threads[t].CheckContext?
    ensures var (key, source) := (s.threads[t].key, s.threads[t].source);
      Step(s, t, Proceed(outcome))
      == Some(s.(threads := s.threads[t := if t in s.cancelled then Done(key, Cancelled) else AtLock(key, source)]))
  {
  }

  /** With nothing published, nobody fetching and no failure of its source, a caller fetches, once. */
  lemma MissingIsFetched(s: Sys, t: Tid, outcome: Outcome, key: Key, source: Source)
    requires t in s.threads && s.threads[t] == AtLock(key, source)
    requires EntryOf(s.entries, key).published.None? && EntryOf(s.entries, key).pending.None?
    requires source !in EntryOf(s.entries, key).failures
    ensures var s' := Step(s, t, Proceed(outcome));
      && s'.Some? && s'.value.calls == s.calls + multiset{(key, source)}
      && s'.value.threads == s.threads[t := Fetching(key, source, s.nextChan)]
      && EntryOf(s'.value.entries, key).pending == Some(s.nextChan)
  {
  }

  /** What is left of a fetch: the versions for everybody or, unless a caller was cancelled, the failure for its
      source; in any case those that wait are woken, and the caller has the result. */
  ghost predicate HasFetched(s: Sys, s': Sys, t: Tid, key: Key, source: Source, chan: Chan, outcome: Outcome) {
    var (e, e') := (EntryOf(s.entries, key), EntryOf(s'.entries, key));
    && t in s'.threads && s'.calls == s.calls && s'.closed == s.closed + {chan} && e'.pending.None?
    && (forall k :: k != key ==> EntryOf(s'.entries, k) == EntryOf(s.entries, k))
    && match outcome
       case Fetched(catalog) =>
         e'.published == Some(catalog) && e'.failures == e.failures && s'.threads[t] == Done(key, Given(catalog))
       case FetchFailed(error, cancelledError) =>
         && e'.published.None? && s'.threads[t] == Done(key, Refused(error))
         && e'.failures == if t in s.cancelled || cancelledError then e.failures else e.failures[source := error]
  }

  lemma FetchIsConcluded(s: Sys, t: Tid, key: Key, source: Source, chan: Chan, outcome: Outcome, any: Outcome)
    requires Inv(s) && t in s.threads && s.threads[t] == Fetching(key, source, chan)
    ensures var s1 := Step(s, t, Proceed(outcome));
      && s1.Some? && Step(s1.value, t, Proceed(any)).Some?
      && HasFetched(s, Step(s1.value, t, Proceed(any)).value, t, key, source, chan, outcome)
  {
    assert PcOk(s, s.threads[t]) && EntryOk(s, key);
  }

  /** Retrying failures forgets those of every source and nothing else; so a source that had failed fetches again. */
  lemma RetryForgives(s: Sys, t: Tid, u: Tid, outcome: Outcome, key: Key, source: Source)
    requires t in s.threads && s.threads[t] == AtLock(key, source)
    requires EntryOf(s.entries, key).published.None? && EntryOf(s.entries, key).pending.None?
    ensures var s1 := Step(s, u, RetryFailures);
      && s1.Some? && s1.value == s.(entries := s1.value.entries) && s1.value.entries.Keys == s.entries.Keys
      && (forall k :: k in s.entries ==> s1.value.entries[k] == s.entries[k].(failures := map[]))
      && var s2 := Step(s1.value, t, Proceed(outcome));
      && s2.Some? && s2.value.calls == s.calls + multiset{(key, source)}
      && s2.value.threads == s.threads[t := Fetching(key, source, s.nextChan)]
  {
    MissingIsFetched(Step(s, u, RetryFailures).value, t, outcome, key, source);
  }
}
