/** Looking a resource's version up in the published AWS Health catalog, memoised, and
    classifying the resource at a scan time. */
module HealthLookup {
  import opened Text
  import opened Wrappers
  import opened HealthLifecycle

  const ELASTICACHE := "elasticache"

  datatype VersionKey = VersionKey(service: string, engine: string, version: string)
  type Entries = map<VersionKey, seq<LifecycleEvent>>

  datatype LoadError = LoadError(message: string)

  datatype LookupError =
    | NotLoaded
    | Unavailable(error: LoadError)
    | Unusable(failures: seq<(string, Cause)>)
    | MissingEntry

  type Answer = Result<Lifecycle, LookupError>

  // ------------------------------------------------------------------ lookup

  /** The version itself, and for ElastiCache its major.minor and major versions. */
  function Candidates(service: string, version: string): seq<string> {
    if service == ELASTICACHE then
      var parts := Split(version, '.');
      [version]
      + (if |parts| > 2 then [parts[0] + "." + parts[1]] else [])
      + (if |parts| > 1 then [parts[0]] else [])
    else [version]
  }

  /** One entry's verdict: parsed, and with a known end once standard support is over. */
  function Judge(events: seq<LifecycleEvent>, region: string, now: Instant): (r: Result<Lifecycle, Cause>)
    ensures r.Ok? ==> Sound(r.value, now)
  {
    ParseIsSound(events, region, now);
    var parsed := Parse(events, region, now);
    if parsed.Ok? && LacksEnd(parsed.value, now) then Err(ExtendedEndMissing) else parsed
  }

  predicate LacksEnd(l: Lifecycle, now: Instant)
    requires l.supportedOnly || l.endOfLife.Some? || l.standardEnd.Some?
  {
    && !l.supportedOnly && l.extendedEnd.None? && l.endOfLife.None? && l.standardEnd.value <= now
    && (l.extendedStart.None? || l.extendedStart.value <= now)
  }

  /** What every lifecycle handed to classification satisfies: past its end of life, or with
      the standard-support end that classification reads. */
  predicate Sound(l: Lifecycle, now: Instant) {
    l.supportedOnly || DateReached(now, l.endOfLife) || Known(l.standardEnd)
  }

  lemma ParseIsSound(events: seq<LifecycleEvent>, region: string, now: Instant)
    ensures Parse(events, region, now).Ok? ==> Sound(Parse(events, region, now).value, now)
  {
    hide Fold;
  }

  function FirstUsable(entries: Entries, service: string, engine: string, candidates: seq<string>, region: string,
                       now: Instant,
                       failures: seq<(string, Cause)>): (r: Answer)
    ensures r.Ok? ==> Sound(r.value, now)
  {
    if candidates == [] then
      if failures == [] then Err(MissingEntry) else Err(Unusable(failures))
    else
      var key := VersionKey(service, engine, candidates[0]);
      if key !in entries then FirstUsable(entries, service, engine, candidates[1..], region, now, failures)
      else
        match Judge(entries[key], region, now)
        case Ok(lifecycle) => Ok(lifecycle)
        case Err(cause) =>
          FirstUsable(entries, service, engine, candidates[1..], region, now, failures + [(candidates[0], cause)])
  }

  function Lookup(entries: Entries, key: VersionKey, region: string, now: Instant): (r: Answer)
    ensures r.Ok? ==> Sound(r.value, now)
  {
    FirstUsable(entries, key.service, key.engine, Candidates(key.service, key.version), region, now, [])
  }

  method LookupHealthLifecycle(entries: Entries, key: VersionKey, region: string, now: Instant) returns (r: Answer)
    ensures r == Lookup(entries, key, region, now)
  {
    var versions := [key.version];
    if key.service == ELASTICACHE {
      var parts := Split(key.version, '.');
      if |parts| > 2 {
        versions := versions + [parts[0] + "." + parts[1]];
      }
      if |parts| > 1 {
        versions := versions + [parts[0]];
      }
    }
    assert versions == Candidates(key.service, key.version);
    var failures: seq<(string, Cause)> := [];
    for i := 0 to |versions|
      invariant Lookup(entries, key, region, now)
             == FirstUsable(entries, key.service, key.engine, versions[i..], region, now, failures)
    {
      assert versions[i..][1..] == versions[i + 1..];
      var candidate := VersionKey(key.service, key.engine, versions[i]);
      if candidate in entries {
        ParseIsSound(entries[candidate], region, now);
        var parsed := ParseHealthLifecycle(entries[candidate], region, now);
        if parsed.Ok? && LacksEnd(parsed.value, now) {
          parsed := Err(ExtendedEndMissing);
        }
        if parsed.Ok? {
          return Ok(parsed.value);
        }
        failures := failures + [(versions[i], parsed.error)];
      }
    }
    return if |failures| > 0 then Err(Unusable(failures)) else Err(MissingEntry);
  }

  // ------------------------------------------------------------- region case

  lemma LowerIsIdempotent(s: string)
    ensures ToLower(ToLower(s)) == ToLower(s)
  {
    assert forall c: char :: LowerChar(LowerChar(c)) == LowerChar(c);
  }

  lemma {:induction false} RankIgnoresCase(regions: seq<string>, region: string)
    ensures RankOf(regions, ToLower(region)) == RankOf(regions, region)
  {
    LowerIsIdempotent(region);
    if regions != [] {
      RankIgnoresCase(regions[1..], region);
    }
  }

  lemma {:induction false} FoldIgnoresCase(events: seq<LifecycleEvent>, region: string)
    ensures Fold(events, ToLower(region)) == Fold(events, region)
  {
    hide KindOf, RankOf, Milestone.Add;
    if events != [] {
      FoldIgnoresCase(events[..|events| - 1], region);
      RankIgnoresCase(events[|events| - 1].regions, region);
    }
  }

  lemma {:induction false} UsableIgnoresCase(entries: Entries, service: string, engine: string, candidates: seq<string>,
                                             region: string, now: Instant, failures: seq<(string, Cause)>)
    ensures FirstUsable(entries, service, engine, candidates, ToLower(region), now, failures)
         == FirstUsable(entries, service, engine, candidates, region, now, failures)
    decreases |candidates|
  {
    hide Decide;
    if candidates != [] {
      var key := VersionKey(service, engine, candidates[0]);
      if key in entries {
        FoldIgnoresCase(entries[key], region);
        var verdict := Judge(entries[key], region, now);
        if verdict.Err? {
          UsableIgnoresCase(entries, service, engine, candidates[1..], region, now,
                            failures + [(candidates[0], verdict.error)]);
        }
      } else {
        UsableIgnoresCase(entries, service, engine, candidates[1..], region, now, failures);
      }
    }
  }

  lemma LookupIgnoresCase(entries: Entries, key: VersionKey, a: string, b: string, now: Instant)
    requires EqualFold(a, b)
    ensures Lookup(entries, key, a, now) == Lookup(entries, key, b, now)
  {
    UsableIgnoresCase(entries, key.service, key.engine, Candidates(key.service, key.version), a, now, []);
    UsableIgnoresCase(entries, key.service, key.engine, Candidates(key.service, key.version), b, now, []);
  }

  // -------------------------------------------------------------------- memo

  datatype LookupKey = LookupKey(version: VersionKey, region: string, now: Instant)

  /** The shared catalog's fields outside the single-flight protocol. */
  class HealthLifecycleCatalog {
    var entries: Option<Entries>
    var lookups: map<LookupKey, Answer>
    var failures: map<string, LoadError>
    var err: Option<LoadError>

    /** Nothing is memoised before publication, and every memo is the direct answer. */
    ghost predicate Valid()
      reads this
    {
      && (entries.None? ==> lookups == map[])
      && (entries.Some? ==>
            forall k :: k in lookups ==> lookups[k] == Lookup(entries.value, k.version, k.region, k.now))
    }

    constructor ()
      ensures Valid() && entries.None? && err.None? && failures == map[]
    {
      entries, lookups, failures, err := None, map[], map[], None;
    }

    /** The end of a successful load; the protocol only loads while nothing is published. */
    method Publish(loaded: Entries)
      requires Valid() && entries.None?
      modifies this
      ensures Valid() && entries == Some(loaded) && err.None?
      ensures lookups == old(lookups) && failures == old(failures)
    {
      entries := Some(loaded);
      err := None;
    }

    method RecordFailure(source: string, error: LoadError)
      requires Valid()
      modifies this`failures, this`err
      ensures Valid() && err == Some(error) && failures == old(failures)[source := error]
    {
      failures := failures[source := error];
      err := Some(error);
    }

    method RetryFailures()
      requires Valid()
      modifies this`failures, this`err
      ensures Valid() && err.None? && failures == map[]
    {
      failures := map[];
      err := None;
    }

    /** Whatever was looked up before, the answer is the direct one. */
    method LookupMemo(key: VersionKey, region: string, now: Instant) returns (r: Answer)
      requires Valid()
      modifies this`lookups
      ensures Valid()
      ensures entries.None? ==>
                r == (if err.Some? then Err(Unavailable(err.value)) else Err(NotLoaded)) && lookups == old(lookups)
      ensures entries.Some? ==> r == Lookup(entries.value, key, region, now)
      ensures entries.Some? ==> old(lookups).Keys <= lookups.Keys && LookupKey(key, ToLower(region), now) in lookups
      ensures r.Ok? ==> Sound(r.value, now)
    {
      if entries.None? {
        return if err.Some? then Err(Unavailable(err.value)) else Err(NotLoaded);
      }
      var memo := LookupKey(key, ToLower(region), now);
      LowerIsIdempotent(region);
      LookupIgnoresCase(entries.value, key, ToLower(region), region, now);
      if memo in lookups {
        return lookups[memo];
      }
      r := LookupHealthLifecycle(entries.value, key, region, now);
      lookups := lookups[memo := r];
    }
  }

  // ---------------------------------------------------------- classification

  datatype SupportRecord = SupportRecord(majorVersion: string, standardEnd: Date, extendedEnd: Date, endOfLife: Date)

  datatype Finding = Omitted | Unclassified(error: LookupError) | Found(record: SupportRecord)

  function MajorVersion(key: VersionKey): string {
    if key.service == ELASTICACHE then Split(key.version, '.')[0] else key.version
  }

  function FindingOf(answer: Answer, key: VersionKey, now: Instant): Finding
    requires answer.Ok? ==> Sound(answer.value, now)
  {
    match answer
    case Err(e) => Unclassified(e)
    case Ok(l) =>
      if l.supportedOnly then Omitted
      else if !DateReached(now, l.endOfLife)
          && (now < l.standardEnd.value || (l.extendedStart.Some? && now < l.extendedStart.value))
      then Omitted
      else Found(SupportRecord(MajorVersion(key), l.standardEnd, l.extendedEnd, l.endOfLife))
  }

  method ClassifyHealthSupport(catalog: HealthLifecycleCatalog, key: VersionKey, region: string, now: Instant)
    returns (f: Finding)
    requires catalog.Valid()
    modifies catalog`lookups
    ensures catalog.Valid()
    ensures catalog.entries.Some? ==> f == FindingOf(Lookup(catalog.entries.value, key, region, now), key, now)
    ensures catalog.entries.None? ==> f.Unclassified? && (f.error.Unavailable? || f.error.NotLoaded?)
  {
    var answer := catalog.LookupMemo(key, region, now);
    if answer.Err? {
      return Unclassified(answer.error);
    }
    var lifecycle := answer.value;
    if lifecycle.supportedOnly {
      return Omitted;
    }
    if !DateReached(now, lifecycle.endOfLife) {
      if now < lifecycle.standardEnd.value {
        return Omitted;
      }
      if lifecycle.extendedStart.Some? && now < lifecycle.extendedStart.value {
        return Omitted;
      }
    }
    var major := key.version;
    if key.service == ELASTICACHE {
      major := Split(major, '.')[0];
    }
    return Found(SupportRecord(major, lifecycle.standardEnd, lifecycle.extendedEnd, lifecycle.endOfLife));
  }

  // ------------------------------------------------------ status over time

  datatype Status = NotListed | Unknown | Current | Past

  function StatusOfRecord(r: SupportRecord, now: Instant): Status {
    if DateReached(now, r.extendedEnd) || DateReached(now, r.endOfLife) then Past else Current
  }

  /** Where a scan at this time reports the resource. */
  function StatusAt(entries: Entries, key: VersionKey, region: string, now: Instant): Status {
    match FindingOf(Lookup(entries, key, region, now), key, now)
    case Omitted => NotListed
    case Unclassified(_) => Unknown
    case Found(r) => StatusOfRecord(r, now)
  }

  function StatusOfLifecycle(l: Lifecycle, now: Instant): Status
    requires Sound(l, now)
  {
    if l.supportedOnly then NotListed
    else if !DateReached(now, l.endOfLife)
        && (now < l.standardEnd.value || (l.extendedStart.Some? && now < l.extendedStart.value))
    then NotListed
    else if DateReached(now, l.extendedEnd) || DateReached(now, l.endOfLife) then Past
    else Current
  }

  /** Time only moves a resource from unlisted to current or unknown, and from there to past;
      what is current never becomes unknown, nor the other way round. */
  predicate MayFollow(earlier: Status, later: Status) {
    earlier == NotListed || later == earlier || later == Past
  }

  lemma DecideOverTime(slots: Slots, t1: Instant, t2: Instant)
    requires t1 <= t2
    ensures Decide(slots, t1).Ok? && !DateReached(t2, Resolve(slots).endOfLife.date) ==>
              Decide(slots, t2) == Decide(slots, t1)
    ensures Decide(slots, t1).Err? && !DateReached(t2, Resolve(slots).endOfLife.date) ==> Decide(slots, t2).Err?
    ensures DateReached(t2, Resolve(slots).endOfLife.date) && Decide(slots, t2).Ok? ==>
              Decide(slots, t2).value.endOfLife == Resolve(slots).endOfLife.date
                  && !Decide(slots, t2).value.supportedOnly
    ensures DateReached(t2, Resolve(slots).endOfLife.date) && Decide(slots, t2).Err? ==> Decide(slots, t1).Err?
  {
    hide Resolve, Validate;
  }

  /** One entry over time: it becomes usable only by reaching its end of life, stops being
      usable only while unlisted, and otherwise moves forward. */
  lemma JudgeOverTime(events: seq<LifecycleEvent>, region: string, t1: Instant, t2: Instant)
    requires t1 <= t2
    ensures var r1, r2 := Judge(events, region, t1), Judge(events, region, t2);
      && (r1.Err? && r2.Ok? ==> StatusOfLifecycle(r2.value, t2) == Past)
      && (r1.Ok? && r2.Err? ==> StatusOfLifecycle(r1.value, t1) == NotListed)
      && (r1.Ok? && r2.Ok? ==> MayFollow(StatusOfLifecycle(r1.value, t1), StatusOfLifecycle(r2.value, t2)))
  {
    hide Fold, Decide, Resolve;
    DecideOverTime(Fold(events, region), t1, t2);
    EndOfLifeOfEarlier(Fold(events, region), t1);
    ParseIsSound(events, region, t1);
    ParseIsSound(events, region, t2);
  }

  lemma EndOfLifeOfEarlier(slots: Slots, t: Instant)
    ensures Decide(slots, t).Ok? && !Decide(slots, t).value.supportedOnly ==>
              Decide(slots, t).value.endOfLife == Resolve(slots).endOfLife.date
  {
    hide Resolve;
  }

  lemma {:induction false} UsableOverTime(entries: Entries, service: string, engine: string, candidates: seq<string>,
                                          region: string,
                                          t1: Instant, t2: Instant, f1: seq<(string, Cause)>, f2: seq<(string, Cause)>)
    requires t1 <= t2
    ensures var r1 := FirstUsable(entries, service, engine, candidates, region, t1, f1);
            var r2 := FirstUsable(entries, service, engine, candidates, region, t2, f2);
      && (r1.Err? && r2.Ok? ==> StatusOfLifecycle(r2.value, t2) == Past)
      && (r1.Ok? && r2.Err? ==> StatusOfLifecycle(r1.value, t1) == NotListed)
      && (r1.Ok? && r2.Ok? ==> MayFollow(StatusOfLifecycle(r1.value, t1), StatusOfLifecycle(r2.value, t2)))
    decreases |candidates|
  {
    hide Judge, StatusOfLifecycle;
    if candidates != [] {
      var key := VersionKey(service, engine, candidates[0]);
      if key !in entries {
        UsableOverTime(entries, service, engine, candidates[1..], region, t1, t2, f1, f2);
      } else {
        JudgeOverTime(entries[key], region, t1, t2);
        var j1, j2 := Judge(entries[key], region, t1), Judge(entries[key], region, t2);
        var g1 := if j1.Err? then f1 + [(candidates[0], j1.error)] else f1;
        var g2 := if j2.Err? then f2 + [(candidates[0], j2.error)] else f2;
        UsableOverTime(entries, service, engine, candidates[1..], region, t1, t2, g1, g2);
      }
    }
  }

  /** For a fixed catalog, with any number of version candidates, a later scan never moves a
      resource backwards. */
  lemma StatusIsMonotone(entries: Entries, key: VersionKey, region: string, t1: Instant, t2: Instant)
    requires t1 <= t2
    ensures MayFollow(StatusAt(entries, key, region, t1), StatusAt(entries, key, region, t2))
  {
    hide FirstUsable;
    UsableOverTime(entries, key.service, key.engine, Candidates(key.service, key.version), region, t1, t2, [], []);
  }

  /** A record reported as current: standard support is over, no end has been reached, and a
      later extended-support end or end of life is known. */
  lemma CurrentRecordsHaveAnEnd(entries: Entries, key: VersionKey, region: string, now: Instant)
    requires StatusAt(entries, key, region, now) == Current
    ensures var r := FindingOf(Lookup(entries, key, region, now), key, now).record;
      && Known(r.standardEnd) && r.standardEnd.value <= now
      && ((Known(r.extendedEnd) && now < r.extendedEnd.value) || (Known(r.endOfLife) && now < r.endOfLife.value))
      && !DateReached(now, r.extendedEnd) && !DateReached(now, r.endOfLife)
  {
    hide FirstUsable;
    UsableHasEnd(entries, key.service, key.engine, Candidates(key.service, key.version), region, now, []);
  }

  lemma {:induction false} UsableHasEnd(entries: Entries, service: string, engine: string, candidates: seq<string>,
                                        region: string,
                                        now: Instant, failures: seq<(string, Cause)>)
    ensures var r := FirstUsable(entries, service, engine, candidates, region, now, failures);
      r.Ok? && StatusOfLifecycle(r.value, now) == Current ==> EndIsKnown(r.value)
    decreases |candidates|
  {
    hide Judge, StatusOfLifecycle, EndIsKnown;
    if candidates != [] {
      var key := VersionKey(service, engine, candidates[0]);
      if key !in entries {
        UsableHasEnd(entries, service, engine, candidates[1..], region, now, failures);
      } else {
        JudgeHasEnd(entries[key], region, now);
        var j := Judge(entries[key], region, now);
        if j.Err? {
          UsableHasEnd(entries, service, engine, candidates[1..], region, now, failures + [(candidates[0], j.error)]);
        }
      }
    }
  }

  predicate EndIsKnown(l: Lifecycle) {
    Known(l.extendedEnd) || Known(l.endOfLife)
  }

  predicate Proper(m: Milestone) {
    m.rank > 0 || m == NO_MILESTONE
  }

  predicate ProperSlots(s: Slots) {
    Proper(s.standard) && Proper(s.start) && Proper(s.extended) && Proper(s.endOfLife) && Proper(s.generic)
        && Proper(s.billed)
  }

  /** A milestone without an applicable event carries no date. */
  lemma {:induction false} FoldIsProper(events: seq<LifecycleEvent>, region: string)
    ensures ProperSlots(Fold(events, region))
  {
    hide FoldEvent, ProperSlots;
    if events == [] {
      NoSlotsIsProper();
    } else {
      FoldIsProper(events[..|events| - 1], region);
      FoldEventIsProper(Fold(events[..|events| - 1], region), events[|events| - 1], region);
    }
  }

  lemma NoSlotsIsProper()
    ensures ProperSlots(NO_SLOTS)
  {
  }

  lemma FoldEventIsProper(s: Slots, e: LifecycleEvent, region: string)
    requires ProperSlots(s)
    ensures ProperSlots(FoldEvent(s, e, region))
  {
    hide KindOf, RankOf;
    var rank := RankOf(e.regions, region);
    match KindOf(e)
    case For(slot) =>
      if rank > 0 {
        AddIsProper(s.Get(slot), e.date, rank);
        PutIsProper(s, slot, s.Get(slot).Add(e.date, rank));
      }
    case _ =>
  }

  lemma AddIsProper(m: Milestone, date: Date, rank: int)
    requires Proper(m) && rank > 0
    ensures Proper(m.Add(date, rank))
  {
  }

  lemma PutIsProper(s: Slots, slot: Slot, m: Milestone)
    requires ProperSlots(s) && Proper(m)
    ensures ProperSlots(s.Put(slot, m))
  {
    hide Proper;
  }

  lemma DecideHasEnd(slots: Slots, now: Instant)
    requires ProperSlots(slots)
    ensures var r := Decide(slots, now);
      r.Ok? && Sound(r.value, now) && !LacksEnd(r.value, now) && StatusOfLifecycle(r.value, now) == Current ==>
          EndIsKnown(r.value)
  {
    assert ProperSlots(Resolve(slots));
    hide Resolve;
  }

  lemma JudgeHasEnd(events: seq<LifecycleEvent>, region: string, now: Instant)
    ensures var r := Judge(events, region, now);
      r.Ok? && StatusOfLifecycle(r.value, now) == Current ==> EndIsKnown(r.value)
  {
    hide Fold, Decide, StatusOfLifecycle, EndIsKnown;
    ParseIsSound(events, region, now);
    FoldIsProper(events, region);
    DecideHasEnd(Fold(events, region), now);
  }
}
