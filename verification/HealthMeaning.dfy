/** What AWS Health events say, told from the text of their types: which field of the lifecycle each
    spelling sets, and when the events of a region make a usable lifecycle. */
module HealthMeaning {
  import opened Text
  import opened Wrappers
  import opened HealthLifecycle
  import opened HealthOrder
  import opened HealthLookup

  // ---------------------------------------------------------------- spelling

  /** A character of a name, in either case, with a dash or a blank for an underscore. */
  predicate Spells(c: char, d: char) {
    || c == d
    || (d == '_' && (c == '-' || c == ' '))
    || ('A' <= d <= 'Z' && c as int == d as int + 32)
  }

  predicate SpelledOut(text: string, name: string) {
    |text| == |name| && forall i :: 0 <= i < |name| ==> Spells(text[i], name[i])
  }

  /** White space around the text does not matter. */
  predicate Spelled(text: string, name: string) {
    SpelledOut(Trim(text), name)
  }

  predicate IsName(name: string) {
    forall i :: 0 <= i < |name| ==> 'A' <= name[i] <= 'Z' || name[i] == '_'
  }

  lemma SpelledNormalizes(text: string, name: string)
    requires IsName(name)
    ensures Spelled(text, name) <==> Normalize(text) == name
  {
    hide Trim;
    var trimmed := Trim(text);
    assert |Normalize(text)| == |trimmed|;
    if Spelled(text, name) {
      assert forall i :: 0 <= i < |name| ==> Normalize(text)[i] == name[i];
    }
    if Normalize(text) == name {
      forall i | 0 <= i < |name|
        ensures Spells(trimmed[i], name[i])
      {
        assert Normalize(text)[i] == name[i];
      }
    }
  }

  // ------------------------------------------------------------ what is said

  predicate SaysSupported(e: LifecycleEvent) {
    Spelled(e.kind, "SUPPORTED")
  }

  predicate IsBilled(e: LifecycleEvent) {
    exists i :: 0 <= i < |e.impactRisks| && Spelled(e.impactRisks[i], "BILLING")
  }

  /** The boundary that an event gives a date for. */
  predicate Says(e: LifecycleEvent, slot: Slot) {
    match slot
    case Standard =>
      || Spelled(e.kind, "END_OF_STANDARD_SUPPORT") || Spelled(e.kind, "STANDARD_SUPPORT_END")
      || Spelled(e.kind, "STANDARD_SUPPORT_END_DATE")
    case Start => Spelled(e.kind, "START_OF_EXTENDED_SUPPORT") || Spelled(e.kind, "EXTENDED_SUPPORT_START")
    case Extended =>
      || Spelled(e.kind, "END_OF_EXTENDED_SUPPORT") || Spelled(e.kind, "EXTENDED_SUPPORT_END")
      || Spelled(e.kind, "EXTENDED_SUPPORT_END_DATE")
    case EndOfLife => Spelled(e.kind, "END_OF_LIFE")
    case Generic => Spelled(e.kind, "END_OF_SUPPORT") && !IsBilled(e)
    case Billed => Spelled(e.kind, "END_OF_SUPPORT") && IsBilled(e)
  }

  lemma BilledMeans(e: LifecycleEvent)
    ensures IsBilled(e) <==> exists i :: 0 <= i < |e.impactRisks| && Normalize(e.impactRisks[i]) == "BILLING"
  {
    hide Spelled, Normalize, Trim, IsName;
    EndNames();
    forall i | 0 <= i < |e.impactRisks|
      ensures Spelled(e.impactRisks[i], "BILLING") <==> Normalize(e.impactRisks[i]) == "BILLING"
    {
      SpelledNormalizes(e.impactRisks[i], "BILLING");
    }
  }

  /** The same on normalized names. */
  predicate NamesSlot(name: string, billed: bool, slot: Slot) {
    match slot
    case Standard => name in ["END_OF_STANDARD_SUPPORT", "STANDARD_SUPPORT_END", "STANDARD_SUPPORT_END_DATE"]
    case Start => name in ["START_OF_EXTENDED_SUPPORT", "EXTENDED_SUPPORT_START"]
    case Extended => name in ["END_OF_EXTENDED_SUPPORT", "EXTENDED_SUPPORT_END", "EXTENDED_SUPPORT_END_DATE"]
    case EndOfLife => name == "END_OF_LIFE"
    case Generic => name == "END_OF_SUPPORT" && !billed
    case Billed => name == "END_OF_SUPPORT" && billed
  }

  lemma BoundaryNames()
    ensures IsName("END_OF_STANDARD_SUPPORT") && IsName("STANDARD_SUPPORT_END") && IsName("STANDARD_SUPPORT_END_DATE")
    ensures IsName("START_OF_EXTENDED_SUPPORT") && IsName("EXTENDED_SUPPORT_START")
  {
  }

  lemma EndNames()
    ensures IsName("END_OF_EXTENDED_SUPPORT") && IsName("EXTENDED_SUPPORT_END") && IsName("EXTENDED_SUPPORT_END_DATE")
    ensures IsName("END_OF_LIFE") && IsName("END_OF_SUPPORT") && IsName("SUPPORTED") && IsName("BILLING")
  {
  }

  lemma SaysByName(e: LifecycleEvent, slot: Slot)
    ensures Says(e, slot) <==> NamesSlot(Normalize(e.kind), IsBilled(e), slot)
  {
    hide Spelled, Normalize, IsBilled, Trim, IsName;
    BoundaryNames();
    EndNames();
    match slot
    case Standard =>
      SpelledNormalizes(e.kind, "END_OF_STANDARD_SUPPORT");
      SpelledNormalizes(e.kind, "STANDARD_SUPPORT_END");
      SpelledNormalizes(e.kind, "STANDARD_SUPPORT_END_DATE");
    case Start =>
      SpelledNormalizes(e.kind, "START_OF_EXTENDED_SUPPORT");
      SpelledNormalizes(e.kind, "EXTENDED_SUPPORT_START");
    case Extended =>
      SpelledNormalizes(e.kind, "END_OF_EXTENDED_SUPPORT");
      SpelledNormalizes(e.kind, "EXTENDED_SUPPORT_END");
      SpelledNormalizes(e.kind, "EXTENDED_SUPPORT_END_DATE");
    case EndOfLife =>
      SpelledNormalizes(e.kind, "END_OF_LIFE");
    case _ =>
      SpelledNormalizes(e.kind, "END_OF_SUPPORT");
  }

  lemma KindByName(e: LifecycleEvent, slot: Slot)
    ensures KindOf(e) == For(slot) <==> NamesSlot(Normalize(e.kind), IsBilled(e), slot)
  {
    hide Normalize, IsBilled;
    BilledMeans(e);
  }

  /** The code recognizes just these spellings. */
  lemma KindMeans(e: LifecycleEvent)
    ensures SaysSupported(e) <==> KindOf(e) == SupportedStatus
    ensures forall slot :: Says(e, slot) <==> KindOf(e) == For(slot)
  {
    hide Spelled, Normalize, IsBilled, Trim, NamesSlot, Says, IsName;
    EndNames();
    SpelledNormalizes(e.kind, "SUPPORTED");
    forall slot
      ensures Says(e, slot) <==> KindOf(e) == For(slot)
    {
      SaysByName(e, slot);
      KindByName(e, slot);
    }
  }

  // -------------------------------------------------------- where it applies

  predicate Names(e: LifecycleEvent, region: string) {
    exists j :: 0 <= j < |e.regions| && EqualFold(e.regions[j], region)
  }

  lemma {:induction false} RankMeans(regions: seq<string>, region: string)
    ensures RankOf(regions, region) == 2 <==> exists j :: 0 <= j < |regions| && EqualFold(regions[j], region)
    ensures RankOf(regions, region) == 1 <==>
              (exists j :: 0 <= j < |regions| && EqualFold(regions[j], "all"))
              && !exists j :: 0 <= j < |regions| && EqualFold(regions[j], region)
  {
    hide EqualFold;
    if regions != [] {
      RankMeans(regions[1..], region);
      assert regions == [regions[0]] + regions[1..];
      SomeInTail(regions, region);
      SomeInTail(regions, "all");
    }
  }

  lemma SomeInTail(regions: seq<string>, name: string)
    requires regions != []
    ensures (exists j :: 0 <= j < |regions| && EqualFold(regions[j], name))
            <==> EqualFold(regions[0], name) || exists j :: 0 <= j < |regions[1..]| && EqualFold(regions[1..][j], name)
  {
    hide EqualFold;
    if j :| 0 <= j < |regions[1..]| && EqualFold(regions[1..][j], name) {
      assert regions[j + 1] == regions[1..][j];
    }
    if j :| 0 < j < |regions| && EqualFold(regions[j], name) {
      assert regions[1..][j - 1] == regions[j];
    }
  }

  /** An event that decides a boundary for a region: it names the region, or it applies to all regions and no
      event for that boundary names this one. */
  predicate Decides(events: seq<LifecycleEvent>, i: nat, slot: Slot, region: string) {
    && i < |events| && Says(events[i], slot)
    && (Names(events[i], region)
        || (Names(events[i], "all")
            && forall k :: 0 <= k < |events| ==> Says(events[k], slot) ==> !Names(events[k], region)))
  }

  lemma {:induction false} DatesHold(events: seq<LifecycleEvent>, region: string, slot: Slot, rank: int, date: Date)
    ensures date in Dates(events, region, slot, rank)
            <==> exists i :: 0 <= i < |events| && KindOf(events[i]) == For(slot)
                             && RankOf(events[i].regions, region) == rank
                             && events[i].date == date
  {
    hide KindOf, RankOf;
    if events != [] {
      var front := events[..|events| - 1];
      DatesHold(front, region, slot, rank, date);
      if i :| 0 <= i < |front| && KindOf(front[i]) == For(slot) && RankOf(front[i].regions, region) == rank
              && front[i].date == date {
        assert events[i] == front[i];
      }
      if i :| 0 <= i < |events| && KindOf(events[i]) == For(slot) && RankOf(events[i].regions, region) == rank
              && events[i].date == date {
        assert i < |front| ==> front[i] == events[i];
      }
    }
  }

  /** The dates that decide a boundary. */
  ghost predicate DecidingDate(events: seq<LifecycleEvent>, slot: Slot, region: string, date: Date) {
    exists i: nat :: Decides(events, i, slot, region) && events[i].date == date
  }

  lemma RankOfEvent(e: LifecycleEvent, slot: Slot, region: string)
    ensures Says(e, slot) <==> KindOf(e) == For(slot)
    ensures Names(e, region) <==> RankOf(e.regions, region) == 2
    ensures !Names(e, region) && Names(e, "all") <==> RankOf(e.regions, region) == 1
  {
    hide Says, KindOf, RankOf, EqualFold;
    KindMeans(e);
    RankMeans(e.regions, region);
  }

  /** The milestone of a boundary: there is one if some event decides it, with the deciding events' date unless
      they conflict, which they do not if they all bring the same date. */
  lemma MilestoneMeans(events: seq<LifecycleEvent>, slot: Slot, region: string, i: nat)
    ensures var m := Fold(events, region).Get(slot);
      && (m.rank > 0 <==> exists k: nat :: Decides(events, k, slot, region))
      && (m.rank == 0 ==> m == NO_MILESTONE)
      && (Decides(events, i, slot, region) && !m.conflict ==> m.date == events[i].date)
      && (Decides(events, i, slot, region) && events[i].date.Some?
          && (forall k: nat :: Decides(events, k, slot, region) ==> events[k].date == events[i].date)
          ==> !m.conflict && m.date == events[i].date)
  {
    hide Says, KindOf, RankOf, Names, Fold, Slots.Get, StandsFor;
    FoldMeans(events, region, slot);
    forall k | 0 <= k < |events|
      ensures Says(events[k], slot) <==> KindOf(events[k]) == For(slot)
      ensures Names(events[k], region) <==> RankOf(events[k].regions, region) == 2
      ensures !Names(events[k], region) && Names(events[k], "all") <==> RankOf(events[k].regions, region) == 1
    {
      RankOfEvent(events[k], slot, region);
    }
    var specific, general := Dates(events, region, slot, 2), Dates(events, region, slot, 1);
    forall date
      ensures date in specific <==> exists k :: 0 <= k < |events| && Says(events[k], slot) && Names(events[k], region)
                                                && events[k].date == date
      ensures date in general <==> exists k :: 0 <= k < |events| && Says(events[k], slot) && Names(events[k], "all")
                                               && !Names(events[k], region) && events[k].date == date
    {
      DatesHold(events, region, slot, 2, date);
      DatesHold(events, region, slot, 1, date);
    }
    DecidingDates(events, slot, region, specific, general);
    var dates := if specific != [] then specific else general;
    if dates != [] {
      StandsForDates(Fold(events, region).Get(slot), dates);
    }
  }

  lemma DecidingDates(events: seq<LifecycleEvent>, slot: Slot, region: string, specific: seq<Date>, general: seq<Date>)
    requires forall date :: date in specific <==>
               exists k :: 0 <= k < |events| && Says(events[k], slot) && Names(events[k], region)
                           && events[k].date == date
    requires forall date :: date in general <==>
               exists k :: 0 <= k < |events| && Says(events[k], slot) && Names(events[k], "all")
                           && !Names(events[k], region) && events[k].date == date
    ensures var dates := if specific != [] then specific else general;
      && (forall k: nat :: Decides(events, k, slot, region) ==> events[k].date in dates)
      && (forall date :: date in dates ==> exists k: nat :: Decides(events, k, slot, region) && events[k].date == date)
      && (dates != [] <==> exists k: nat :: Decides(events, k, slot, region))
  {
    hide Says, Names;
    var dates := if specific != [] then specific else general;
    if specific != [] {
      assert specific[0] in specific;
    }
    forall k: nat | Decides(events, k, slot, region)
      ensures events[k].date in dates
    {
      if specific != [] {
        var n :| 0 <= n < |events| && Says(events[n], slot) && Names(events[n], region)
                 && events[n].date == specific[0];
      } else {
        assert Names(events[k], region) ==> events[k].date in specific;
      }
    }
    forall date | date in dates
      ensures exists k: nat :: Decides(events, k, slot, region) && events[k].date == date
    {
      if specific != [] {
        var k :| 0 <= k < |events| && Says(events[k], slot) && Names(events[k], region) && events[k].date == date;
        assert Decides(events, k, slot, region);
      } else {
        var k :| 0 <= k < |events| && Says(events[k], slot) && Names(events[k], "all") && !Names(events[k], region)
                 && events[k].date == date;
        forall n | 0 <= n < |events| && Says(events[n], slot)
          ensures !Names(events[n], region)
        {
          assert Names(events[n], region) ==> events[n].date in specific;
        }
        assert Decides(events, k, slot, region);
      }
    }
    if dates != [] {
      assert dates[0] in dates;
    }
  }

  lemma StandsForDates(m: Milestone, dates: seq<Date>)
    requires StandsFor(m, dates)
    ensures !m.conflict ==> forall d :: d in dates ==> d == m.date
    ensures (forall d :: d in dates ==> d.Some? && d == dates[0]) ==> !m.conflict && m.date == dates[0]
  {
    if !m.conflict && |dates| == 1 {
      assert dates == [dates[0]];
    }
  }

  // ------------------------------------------------- when events are usable

  ghost predicate Unsaid(events: seq<LifecycleEvent>, slot: Slot, region: string) {
    forall k: nat :: !Decides(events, k, slot, region)
  }

  /** What decides a boundary agrees on a known date, or there is nothing that decides it. */
  ghost predicate Agreed(events: seq<LifecycleEvent>, region: string, slot: Slot, date: Date) {
    match date
    case None => Unsaid(events, slot, region)
    case Some(_) =>
      && date.value != 0 && !Unsaid(events, slot, region)
      && forall k: nat :: Decides(events, k, slot, region) ==> events[k].date == date
  }

  predicate ClearAt(s: Slots, slot: Slot, date: Date) {
    var m := s.Get(slot);
    if date.None? then m == NO_MILESTONE else m.rank > 0 && !m.conflict && m.date == date && date.value != 0
  }

  lemma AgreedIsClear(events: seq<LifecycleEvent>, region: string, slot: Slot, date: Date)
    ensures Agreed(events, region, slot, date) <==> ClearAt(Fold(events, region), slot, date)
  {
    hide Fold, Says, Names, Slots.Get;
    var m := Fold(events, region).Get(slot);
    RankIsNotNegative(events, slot, region);
    MilestoneMeans(events, slot, region, 0);
    if !Unsaid(events, slot, region) {
      var i: nat :| Decides(events, i, slot, region);
      MilestoneMeans(events, slot, region, i);
      forall k: nat | Decides(events, k, slot, region)
        ensures !m.conflict ==> events[k].date == m.date
      {
        MilestoneMeans(events, slot, region, k);
      }
    }
  }

  lemma {:induction false} RankIsNotNegative(events: seq<LifecycleEvent>, slot: Slot, region: string)
    ensures Fold(events, region).Get(slot).rank >= 0
  {
    hide KindOf, RankOf, Slots.Get, FoldEvent;
    if events == [] {
      NoSlots(slot);
    } else {
      RankIsNotNegative(events[..|events| - 1], slot, region);
      FoldEventInSlot(Fold(events[..|events| - 1], region), events[|events| - 1], region, slot);
    }
  }

  // ------------------------------------------------------- what is made of them

  /** The end of standard support: as said, or the end of support with a billing impact, or else the start of
      extended support; and beside an end of extended support or of life, the generic end of support. */
  function StandardEnd(on: Slot -> Date): Date {
    if on(Standard).Some? then on(Standard)
    else if on(Billed).Some? then on(Billed)
    else if on(Start).Some? then on(Start)
    else if on(Extended).Some? || on(EndOfLife).Some? then on(Generic)
    else None
  }

  predicate StandardIsSaid(on: Slot -> Date) {
    on(Standard).Some? || on(Billed).Some? || on(Start).Some?
  }

  /** The end of extended support: as said, or beside an end of standard support, the generic end of support. */
  function ExtendedEnd(on: Slot -> Date): Date {
    if on(Extended).None? && StandardIsSaid(on) then on(Generic) else on(Extended)
  }

  /** Whether a generic end of support is needed for a boundary. */
  predicate NeedsGeneric(on: Slot -> Date) {
    if StandardIsSaid(on) then on(Extended).None? else on(Extended).Some? || on(EndOfLife).Some?
  }

  /** What the events say about the boundaries that matter: an end of support with a billing impact matters only
      without an explicit end of standard support, a generic one only if it is needed. */
  ghost predicate Settles(events: seq<LifecycleEvent>, region: string, on: Slot -> Date) {
    && Agreed(events, region, Standard, on(Standard)) && Agreed(events, region, Start, on(Start))
    && Agreed(events, region, Extended, on(Extended)) && Agreed(events, region, EndOfLife, on(EndOfLife))
    && (on(Standard).None? ==> Agreed(events, region, Billed, on(Billed)))
    && (NeedsGeneric(on) ==> Agreed(events, region, Generic, on(Generic)))
  }

  /** Standard support ends, extended support starts then or later and ends after both; life ends after standard
      support ends and extended support starts, and not before extended support ends. */
  predicate InSequence(standard: Instant, start: Date, extended: Date, life: Date) {
    && (start.Some? ==> standard <= start.value)
    && (extended.Some? ==> standard < extended.value && (start.Some? ==> start.value < extended.value))
    && (life.Some? ==>
          && standard < life.value
          && (start.Some? ==> start.value < life.value)
          && (extended.Some? ==> extended.value <= life.value))
  }

  predicate Applies(e: LifecycleEvent, region: string) {
    Names(e, region) || Names(e, "all")
  }

  predicate IsRecognized(e: LifecycleEvent) {
    || SaysSupported(e) || Says(e, Standard) || Says(e, Start) || Says(e, Extended) || Says(e, EndOfLife)
    || Says(e, Generic) || Says(e, Billed)
  }

  /** Some event is recognized but says nowhere. */
  predicate LacksPlace(events: seq<LifecycleEvent>) {
    exists i :: 0 <= i < |events| && IsRecognized(events[i]) && events[i].regions == []
  }

  /** The version is said to be supported, and nothing else is said about it. */
  predicate OnlySupported(events: seq<LifecycleEvent>, region: string) {
    && (exists i :: 0 <= i < |events| && Applies(events[i], region))
    && forall i :: 0 <= i < |events| && Applies(events[i], region) ==> SaysSupported(events[i])
  }

  predicate HasCome(date: Date, now: Instant) {
    date.Some? && date.value <= now
  }

  const SUPPORTED_ONLY := Lifecycle(None, None, None, None, true)

  function Scheduled(on: Slot -> Date): Lifecycle {
    Lifecycle(StandardEnd(on), on(Start), ExtendedEnd(on), on(EndOfLife), false)
  }

  /** What a reader of the events concludes before the end of life. */
  function Conclusion(lacksPlace: bool, onlySupported: bool, on: Slot -> Date): Result<Lifecycle, Cause> {
    if lacksPlace then Err(NoRegion)
    else if onlySupported then Ok(SUPPORTED_ONLY)
    else if StandardEnd(on).None? then Err(StandardMilestoneMissing)
    else if InSequence(StandardEnd(on).value, on(Start), ExtendedEnd(on), on(EndOfLife)) then Ok(Scheduled(on))
    else Err(Inconsistent)
  }

  ghost predicate ClearWhereUsed(s: Slots, on: Slot -> Date) {
    && ClearAt(s, Standard, on(Standard)) && ClearAt(s, Start, on(Start))
    && ClearAt(s, Extended, on(Extended)) && ClearAt(s, EndOfLife, on(EndOfLife))
    && (on(Standard).None? ==> ClearAt(s, Billed, on(Billed)))
    && (NeedsGeneric(on) ==> ClearAt(s, Generic, on(Generic)))
  }

  /** The four milestones that are validated, in terms of the dates. */
  lemma ClearResolves(s: Slots, on: Slot -> Date)
    requires ClearWhereUsed(s, on)
    ensures var r := Resolve(s);
      && ClearAt(r, Standard, StandardEnd(on)) && ClearAt(r, Start, on(Start))
      && ClearAt(r, Extended, ExtendedEnd(on)) && ClearAt(r, EndOfLife, on(EndOfLife))
      && r.noRegion == s.noRegion && r.supported == s.supported && r.otherApplicable == s.otherApplicable
  {
  }

  lemma ClearDecides(s: Slots, now: Instant, on: Slot -> Date)
    requires ClearWhereUsed(s, on)
    ensures Decide(s, now)
         == if HasCome(on(EndOfLife), now) then Ok(Scheduled(on))
            else Conclusion(s.noRegion, s.supported && !s.otherApplicable, on)
  {
    ClearResolves(s, on);
    hide Resolve, ClearWhereUsed, StandardEnd, ExtendedEnd;
  }

  lemma FlagsMean(events: seq<LifecycleEvent>, region: string)
    ensures var s := Fold(events, region);
      && (s.noRegion <==> LacksPlace(events))
      && (s.supported && !s.otherApplicable <==> OnlySupported(events, region))
  {
    hide Fold, Says, SaysSupported, KindOf, RankOf, Names;
    FoldFlags(events, region);
    forall i | 0 <= i < |events|
      ensures LacksRegion(events[i]) <==> IsRecognized(events[i]) && events[i].regions == []
      ensures SetsSupported(events[i], region) <==> SaysSupported(events[i]) && Applies(events[i], region)
      ensures SetsOther(events[i], region) <==> !SaysSupported(events[i]) && Applies(events[i], region)
    {
      FlagsOfOne(events[i], region);
    }
    assert forall e :: e in events <==> exists i :: 0 <= i < |events| && events[i] == e;
  }

  lemma EverySlot(e: LifecycleEvent)
    ensures IsRecognized(e) <==> SaysSupported(e) || exists slot :: Says(e, slot)
  {
    hide Says, SaysSupported;
    if slot :| Says(e, slot) {
      match slot
      case Standard =>
      case Start =>
      case Extended =>
      case EndOfLife =>
      case Generic =>
      case Billed =>
    }
  }

  lemma FlagsOfOne(e: LifecycleEvent, region: string)
    ensures LacksRegion(e) <==> IsRecognized(e) && e.regions == []
    ensures SetsSupported(e, region) <==> SaysSupported(e) && Applies(e, region)
    ensures SetsOther(e, region) <==> !SaysSupported(e) && Applies(e, region)
  {
    hide Says, SaysSupported, KindOf, RankOf, Names;
    KindMeans(e);
    RankOfEvent(e, Standard, region);
    EverySlot(e);
    assert KindOf(e).For? ==> Says(e, KindOf(e).slot);
  }

  /** Whenever the events agree on the boundaries that matter, this is just what is made of them. */
  lemma SettledEventsDecide(events: seq<LifecycleEvent>, region: string, now: Instant, on: Slot -> Date)
    requires Settles(events, region, on)
    ensures Parse(events, region, now)
         == if HasCome(on(EndOfLife), now) then Ok(Scheduled(on))
            else Conclusion(LacksPlace(events), OnlySupported(events, region), on)
  {
    hide Fold, Decide, Agreed, ClearAt, LacksPlace, OnlySupported, Conclusion, Scheduled;
    forall slot
      ensures Agreed(events, region, slot, on(slot)) <==> ClearAt(Fold(events, region), slot, on(slot))
    {
      AgreedIsClear(events, region, slot, on(slot));
    }
    ClearDecides(Fold(events, region), now, on);
    FlagsMean(events, region);
  }

  function DateAt(s: Slots, slot: Slot): Date {
    if s.Get(slot).rank > 0 then s.Get(slot).date else None
  }

  lemma OkIsClear(s: Slots, now: Instant)
    requires ProperSlots(s) && forall slot :: s.Get(slot).rank >= 0
    requires Decide(s, now).Ok? && !HasCome(Decide(s, now).value.endOfLife, now)
    requires Decide(s, now).value.supportedOnly ==> forall slot :: s.Get(slot).rank == 0
    ensures ClearWhereUsed(s, slot => DateAt(s, slot))
  {
  }

  /** Before the end of life, events that disagree or leave a date open where it matters are not used. */
  lemma UsableEventsSettle(events: seq<LifecycleEvent>, region: string, now: Instant)
    requires Parse(events, region, now).Ok? && !HasCome(Parse(events, region, now).value.endOfLife, now)
    ensures exists on :: Settles(events, region, on)
  {
    hide Fold, Decide, Agreed, ClearAt, ProperSlots, Slots.Get, OnlySupported;
    var s := Fold(events, region);
    FoldIsProper(events, region);
    if Decide(s, now).value.supportedOnly {
      OnlySupportedIfSo(s, now);
      FlagsMean(events, region);
    }
    forall slot
      ensures s.Get(slot).rank >= 0
      ensures OnlySupported(events, region) ==> s.Get(slot).rank == 0
      ensures Agreed(events, region, slot, DateAt(s, slot)) <==> ClearAt(s, slot, DateAt(s, slot))
    {
      RankIsNotNegative(events, slot, region);
      OnlySupportedIsAll(events, region, slot);
      AgreedIsClear(events, region, slot, DateAt(s, slot));
    }
    OkIsClear(s, now);
    var on := (slot: Slot) => DateAt(s, slot);
    assert Settles(events, region, on);
  }

  lemma OnlySupportedIfSo(s: Slots, now: Instant)
    requires Decide(s, now).Ok? && Decide(s, now).value.supportedOnly
    ensures s.supported && !s.otherApplicable
  {
  }

  lemma OnlySupportedIsAll(events: seq<LifecycleEvent>, region: string, slot: Slot)
    ensures OnlySupported(events, region) ==> Fold(events, region).Get(slot).rank == 0
  {
    hide Says, SaysSupported, Names, KindOf, Fold, Slots.Get;
    RankIsNotNegative(events, slot, region);
    MilestoneMeans(events, slot, region, 0);
    forall k: nat | Decides(events, k, slot, region)
      ensures !OnlySupported(events, region)
    {
      KindMeans(events[k]);
    }
  }

  /** Whatever else is said, an end of life that is agreed on and reached makes the lifecycle usable. */
  lemma ReachedEndOfLife(events: seq<LifecycleEvent>, region: string, now: Instant, date: Date)
    requires Agreed(events, region, EndOfLife, date) && HasCome(date, now)
    ensures Parse(events, region, now).Ok? && Parse(events, region, now).value.endOfLife == date
    ensures !Parse(events, region, now).value.supportedOnly
  {
    hide Fold, Agreed;
    AgreedIsClear(events, region, EndOfLife, date);
  }

  // ------------------------------------------------------ which entry is used

  /** A piece of a version between dots. */
  predicate Dotless(s: string) {
    '.' !in s
  }

  lemma SplitAtDot(a: string, rest: string)
    requires Dotless(a)
    ensures Split(a, '.') == [a] && Split(a + "." + rest, '.') == [a] + Split(rest, '.')
  {
    CutIsUnique(a, '.', rest);
    var cut := CutAt(a, '.');
    assert '.' in cut.before + ['.'] + cut.after;
  }

  /** A version is looked up as it is; for ElastiCache, then by its first two numbers if there are more, and by
      its first number if there are more. */
  lemma CandidatesMean(service: string, a: string, b: string, rest: string)
    requires Dotless(a) && Dotless(b)
    ensures service != "elasticache" ==> Candidates(service, rest) == [rest]
    ensures Candidates("elasticache", a) == [a]
    ensures Candidates("elasticache", a + "." + b) == [a + "." + b, a]
    ensures Candidates("elasticache", a + "." + (b + "." + rest)) == [a + "." + (b + "." + rest), a + "." + b, a]
  {
    hide Split;
    SplitAtDot(a, b);
    SplitAtDot(b, rest);
    SplitAtDot(a, b + "." + rest);
  }

  /** A record names the first number of an ElastiCache version, and the whole version otherwise. */
  lemma MajorVersionMeans(key: VersionKey, a: string, rest: string)
    requires Dotless(a)
    ensures key.service == "elasticache" && (key.version == a || key.version == a + "." + rest) ==>
              MajorVersion(key) == a
    ensures key.service != "elasticache" ==> MajorVersion(key) == key.version
  {
    hide Split;
    SplitAtDot(a, rest);
  }

  /** An entry can be used if its events make a lifecycle, and one that says when support ends once it is over. */
  ghost predicate Usable(events: seq<LifecycleEvent>, region: string, now: Instant) {
    var p := Parse(events, region, now);
    && p.Ok?
    && (p.value.supportedOnly || p.value.extendedEnd.Some? || p.value.endOfLife.Some?
        || (p.value.standardEnd.Some? && now < p.value.standardEnd.value)
        || (p.value.extendedStart.Some? && now < p.value.extendedStart.value))
  }

  lemma JudgeMeans(events: seq<LifecycleEvent>, region: string, now: Instant)
    ensures Judge(events, region, now).Ok? <==> Usable(events, region, now)
    ensures Usable(events, region, now) ==> Judge(events, region, now) == Parse(events, region, now)
    ensures Parse(events, region, now).Err? ==> Judge(events, region, now) == Parse(events, region, now)
    ensures Parse(events, region, now).Ok? && !Usable(events, region, now) ==>
              Judge(events, region, now) == Err(ExtendedEndMissing)
  {
    hide Parse;
    ParseIsSound(events, region, now);
  }

  /** The entry of the i-th version looked up. */
  ghost predicate Serves(entries: Entries, key: VersionKey, version: string, region: string, now: Instant) {
    var candidate := VersionKey(key.service, key.engine, version);
    candidate in entries && Usable(entries[candidate], region, now)
  }

  /** Whatever else there is, the first version looked up whose entry can be used gives the lifecycle. */
  lemma FirstUsableWins(entries: Entries, key: VersionKey, region: string, now: Instant, i: nat)
    requires var versions := Candidates(key.service, key.version);
      && i < |versions| && Serves(entries, key, versions[i], region, now)
      && forall j :: 0 <= j < i ==> !Serves(entries, key, versions[j], region, now)
    ensures var version := Candidates(key.service, key.version)[i];
      var candidate := VersionKey(key.service, key.engine, version);
      && Parse(entries[candidate], region, now).Ok?
      && Lookup(entries, key, region, now) == Ok(Parse(entries[candidate], region, now).value)
  {
    FirstInList(entries, key, Candidates(key.service, key.version), region, now, [], i);
  }

  lemma {:induction false} FirstInList(entries: Entries, key: VersionKey, versions: seq<string>, region: string,
                                       now: Instant, failures: seq<(string, Cause)>, i: nat)
    requires i < |versions| && Serves(entries, key, versions[i], region, now)
    requires forall j :: 0 <= j < i ==> !Serves(entries, key, versions[j], region, now)
    ensures FirstUsable(entries, key.service, key.engine, versions, region, now, failures)
         == Ok(Parse(entries[VersionKey(key.service, key.engine, versions[i])], region, now).value)
    decreases i
  {
    hide Judge, Usable, Parse;
    var first := VersionKey(key.service, key.engine, versions[0]);
    if first in entries {
      JudgeMeans(entries[first], region, now);
    }
    if i > 0 {
      forall j | 0 <= j < i - 1
        ensures !Serves(entries, key, versions[1..][j], region, now)
      {
        assert versions[1..][j] == versions[j + 1];
      }
      FirstInList(entries, key, versions[1..], region, now, failures, i - 1);
      if first in entries {
        FirstInList(entries, key, versions[1..], region, now,
                    failures + [(versions[0], Judge(entries[first], region, now).error)], i - 1);
      }
    }
  }

  /** Which versions have an entry that cannot be used, and why, in order. */
  ghost predicate Explains(entries: Entries, key: VersionKey, versions: seq<string>, region: string, now: Instant,
                           failures: seq<(string, Cause)>) {
    if versions == [] then failures == []
    else
      var candidate := VersionKey(key.service, key.engine, versions[0]);
      if candidate !in entries then Explains(entries, key, versions[1..], region, now, failures)
      else
        && failures != [] && failures[0].0 == versions[0]
        && (match Parse(entries[candidate], region, now)
            case Ok(_) => failures[0].1 == ExtendedEndMissing
            case Err(cause) => failures[0].1 == cause)
        && Explains(entries, key, versions[1..], region, now, failures[1..])
  }

  /** If none can be used, the answer says for each version that has an entry why not, or that there is none. */
  lemma NoneUsable(entries: Entries, key: VersionKey, region: string, now: Instant)
    requires var versions := Candidates(key.service, key.version);
      forall j :: 0 <= j < |versions| ==> !Serves(entries, key, versions[j], region, now)
    ensures exists failures ::
      && Explains(entries, key, Candidates(key.service, key.version), region, now, failures)
      && Lookup(entries, key, region, now) == Err(if failures == [] then MissingEntry else Unusable(failures))
  {
    var failures := NoneInList(entries, key, Candidates(key.service, key.version), region, now, []);
    assert [] + failures == failures;
  }

  lemma {:induction false} NoneInList(entries: Entries, key: VersionKey, versions: seq<string>, region: string,
                                      now: Instant, sofar: seq<(string, Cause)>)
    returns (failures: seq<(string, Cause)>)
    requires forall j :: 0 <= j < |versions| ==> !Serves(entries, key, versions[j], region, now)
    ensures Explains(entries, key, versions, region, now, failures)
    ensures FirstUsable(entries, key.service, key.engine, versions, region, now, sofar)
         == Err(if sofar + failures == [] then MissingEntry else Unusable(sofar + failures))
    decreases |versions|
  {
    hide Judge, Usable, Parse;
    failures := [];
    assert sofar + failures == sofar;
    if versions != [] {
      var first := VersionKey(key.service, key.engine, versions[0]);
      forall j | 0 <= j < |versions[1..]|
        ensures !Serves(entries, key, versions[1..][j], region, now)
      {
        assert versions[1..][j] == versions[j + 1];
      }
      if first in entries {
        JudgeMeans(entries[first], region, now);
        var failure := (versions[0], Judge(entries[first], region, now).error);
        var rest := NoneInList(entries, key, versions[1..], region, now, sofar + [failure]);
        failures := [failure] + rest;
        assert failures[1..] == rest && sofar + [failure] + rest == sofar + failures;
      } else {
        failures := NoneInList(entries, key, versions[1..], region, now, sofar);
      }
    }
  }

  // ------------------------------------------------ what a resource is found to be

  /** A resource whose entry is settled is reported from its end of life on, or once standard support has ended
      and extended support has started, with the dates said; and as past once an end has come. */
  lemma SettledEventsAreReported(entries: Entries, key: VersionKey, region: string, now: Instant, i: nat,
                                 on: Slot -> Date)
    requires var versions := Candidates(key.service, key.version);
      && i < |versions| && Serves(entries, key, versions[i], region, now)
      && (forall j :: 0 <= j < i ==> !Serves(entries, key, versions[j], region, now))
      && Settles(entries[VersionKey(key.service, key.engine, versions[i])], region, on)
    ensures var f := FindingOf(Lookup(entries, key, region, now), key, now);
      var events := entries[VersionKey(key.service, key.engine, Candidates(key.service, key.version)[i])];
      && (f.Found? <==>
            || HasCome(on(EndOfLife), now)
            || (!OnlySupported(events, region) && HasCome(StandardEnd(on), now)
                && (on(Start).None? || HasCome(on(Start), now))))
      && (f.Found? ==>
            f.record == SupportRecord(MajorVersion(key), StandardEnd(on), ExtendedEnd(on), on(EndOfLife)))
      && (!f.Found? ==> f.Omitted?)
      && StatusAt(entries, key, region, now)
         == if f.Omitted? then NotListed
            else if HasCome(ExtendedEnd(on), now) || HasCome(on(EndOfLife), now) then Past
            else Current
  {
    hide Lookup, Parse, OnlySupported, LacksPlace, Candidates, MajorVersion, Agreed;
    var events := entries[VersionKey(key.service, key.engine, Candidates(key.service, key.version)[i])];
    FirstUsableWins(entries, key, region, now, i);
    SettledEventsDecide(events, region, now, on);
    SettledEndsAreKnown(events, region, on);
  }

  lemma SettledEndsAreKnown(events: seq<LifecycleEvent>, region: string, on: Slot -> Date)
    requires Settles(events, region, on)
    ensures forall date :: date in {StandardEnd(on), on(Start), ExtendedEnd(on), on(EndOfLife)} && date.Some? ==>
              date.value != 0
  {
    hide Unsaid, Decides;
  }

  /** An event that names the region, with a known date. */
  predicate Announces(e: LifecycleEvent, slot: Slot, region: string) {
    Says(e, slot) && Names(e, region) && e.date.Some? && e.date.value != 0
  }

  /** A version for which just the ends of standard and extended support are published, in either order and any
      spelling, is reported from the first on, with both dates, and not before. */
  lemma TwoEndsAreReported(key: VersionKey, a: LifecycleEvent, b: LifecycleEvent, region: string, now: Instant)
    requires Announces(a, Standard, region) && Announces(b, Extended, region) && a.date.value < b.date.value
    ensures forall events :: events in [[a, b], [b, a]] ==>
              Parse(events, region, now) == Ok(Lifecycle(a.date, None, b.date, None, false))
              && FindingOf(Lookup(map[key := events], key, region, now), key, now)
                 == if now < a.date.value then Omitted
                    else Found(SupportRecord(MajorVersion(key), a.date, b.date, None))
  {
    hide Says, Parse, FindingOf, Lookup, MajorVersion, Names;
    var on := (slot: Slot) => if slot == Standard then a.date else if slot == Extended then b.date else None;
    forall events | events in [[a, b], [b, a]]
      ensures Parse(events, region, now) == Ok(Lifecycle(a.date, None, b.date, None, false))
      ensures FindingOf(Lookup(map[key := events], key, region, now), key, now)
           == if now < a.date.value then Omitted else Found(SupportRecord(MajorVersion(key), a.date, b.date, None))
    {
      TwoEndsSettle(events, a, b, region, on);
      SettledEventsDecide(events, region, now, on);
      FirstCandidate(key);
      SettledEventsAreReported(map[key := events], key, region, now, 0, on);
    }
  }

  lemma TwoEndsSettle(events: seq<LifecycleEvent>, a: LifecycleEvent, b: LifecycleEvent, region: string,
                      on: Slot -> Date)
    requires Announces(a, Standard, region) && Announces(b, Extended, region) && events in [[a, b], [b, a]]
    requires forall slot :: on(slot) == if slot == Standard then a.date else if slot == Extended then b.date else None
    ensures Settles(events, region, on) && !LacksPlace(events) && !OnlySupported(events, region)
  {
    hide Says, SaysSupported, EqualFold, KindOf;
    KindMeans(a);
    KindMeans(b);
    assert forall slot :: (Says(a, slot) <==> slot == Standard) && (Says(b, slot) <==> slot == Extended);
    var i := if events[0] == a then 0 else 1;
    assert events[i] == a && events[1 - i] == b;
    assert Decides(events, i, Standard, region) && Decides(events, 1 - i, Extended, region);
  }

  lemma FirstCandidate(key: VersionKey)
    ensures Candidates(key.service, key.version) != [] && Candidates(key.service, key.version)[0] == key.version
  {
  }
}
