/** What a list of AWS Health events means, independently of the order of the events: a
    milestone is determined by the dates of the most specific events of its slot. */
module HealthOrder {
  import opened Wrappers
  import opened HealthLifecycle

  /** The date an event contributes to a slot at a rank, as a list of at most one date. */
  function Contribution(e: LifecycleEvent, region: string, slot: Slot, rank: int): (dates: seq<Date>)
    ensures |dates| <= 1
  {
    if KindOf(e) == For(slot) && RankOf(e.regions, region) == rank then [e.date] else []
  }

  /** The dates brought to a slot by the events of one rank. */
  function Dates(events: seq<LifecycleEvent>, region: string, slot: Slot, rank: int): seq<Date> {
    if events == [] then []
    else Dates(events[..|events| - 1], region, slot, rank) + Contribution(events[|events| - 1], region, slot, rank)
  }

  /** The milestone that a list of equally specific dates stands for: the first date, in
      conflict unless all of them are the same date. */
  predicate StandsFor(m: Milestone, dates: seq<Date>) {
    && dates != [] && m.date == dates[0]
    && (m.conflict <==> |dates| > 1 && exists d :: d in dates && (d.None? || d != dates[0]))
  }

  /** Region-specific dates override "all"-region dates; no applicable event, no milestone. */
  predicate MeansDates(m: Milestone, specific: seq<Date>, general: seq<Date>) {
    if specific != [] then m.rank == 2 && StandsFor(m, specific)
    else if general != [] then m.rank == 1 && StandsFor(m, general)
    else m == NO_MILESTONE
  }

  predicate Means(m: Milestone, events: seq<LifecycleEvent>, region: string, slot: Slot) {
    MeansDates(m, Dates(events, region, slot, 2), Dates(events, region, slot, 1))
  }

  lemma AddMeans(m: Milestone, specific: seq<Date>, general: seq<Date>, date: Date, rank: int)
    requires MeansDates(m, specific, general) && 1 <= rank <= 2
    ensures MeansDates(m.Add(date, rank), if rank == 2 then specific + [date] else specific,
                       if rank == 1 then general + [date] else general)
  {
    hide StandsFor;
    if rank == m.rank {
      AddStandsFor(m, if rank == 2 then specific else general, date);
    } else if rank > m.rank {
      OneDateStandsFor(date, rank);
      assert [] + [date] == [date];
    }
  }

  lemma AddStandsFor(m: Milestone, dates: seq<Date>, date: Date)
    requires StandsFor(m, dates)
    ensures StandsFor(m.Add(date, m.rank), dates + [date])
  {
    var all := dates + [date];
    assert date == all[|dates|];
    if m.conflict {
      var d :| d in dates && (d.None? || d != dates[0]);
      assert d in all;
    }
    if date.None? || date != m.date {
      assert date in all;
    }
    if m.date.None? {
      assert all[0] in all;
    }
  }

  lemma FoldEventInSlot(s: Slots, e: LifecycleEvent, region: string, slot: Slot)
    ensures FoldEvent(s, e, region).Get(slot)
         == if KindOf(e) == For(slot) && RankOf(e.regions, region) > 0
            then s.Get(slot).Add(e.date, RankOf(e.regions, region)) else s.Get(slot)
  {
    hide KindOf, RankOf, Milestone.Add;
  }

  lemma DatesSnoc(events: seq<LifecycleEvent>, region: string, slot: Slot, rank: int)
    requires events != []
    ensures Dates(events, region, slot, rank)
         == Dates(events[..|events| - 1], region, slot, rank) + Contribution(events[|events| - 1], region, slot, rank)
  {
  }

  /** The loop computes what the events mean, slot by slot. */
  lemma {:induction false} FoldMeans(events: seq<LifecycleEvent>, region: string, slot: Slot)
    ensures Means(Fold(events, region).Get(slot), events, region, slot)
  {
    hide KindOf, RankOf, FoldEvent, StandsFor, Slots.Get, MeansDates;
    if events == [] {
      NoSlots(slot);
      assert MeansDates(NO_MILESTONE, [], []) by { NothingMeansNothing(); }
    } else {
      var front := events[..|events| - 1];
      var e := events[|events| - 1];
      var rank := RankOf(e.regions, region);
      FoldMeans(front, region, slot);
      FoldEventInSlot(Fold(front, region), e, region, slot);
      var specific, general := Dates(front, region, slot, 2), Dates(front, region, slot, 1);
      assert specific + [] == specific && general + [] == general;
      if KindOf(e) == For(slot) && rank > 0 {
        AddMeans(Fold(front, region).Get(slot), specific, general, e.date, rank);
      }
    }
  }

  lemma NothingMeansNothing()
    ensures MeansDates(NO_MILESTONE, [], [])
  {
  }

  lemma NoSlots(slot: Slot)
    ensures NO_SLOTS.Get(slot) == NO_MILESTONE
  {
  }

  lemma OneDateStandsFor(date: Date, rank: int)
    ensures StandsFor(Milestone(date, rank, false), [date])
  {
  }

  // ------------------------------------------------------------------- flags

  predicate SetsSupported(e: LifecycleEvent, region: string) {
    KindOf(e).SupportedStatus? && RankOf(e.regions, region) > 0
  }

  predicate SetsOther(e: LifecycleEvent, region: string) {
    !KindOf(e).SupportedStatus? && RankOf(e.regions, region) > 0
  }

  predicate LacksRegion(e: LifecycleEvent) {
    !KindOf(e).Unrecognized? && e.regions == []
  }

  lemma FlagsOfEvent(s: Slots, e: LifecycleEvent, region: string)
    ensures FoldEvent(s, e, region).supported == (s.supported || SetsSupported(e, region))
    ensures FoldEvent(s, e, region).otherApplicable == (s.otherApplicable || SetsOther(e, region))
    ensures FoldEvent(s, e, region).noRegion == (s.noRegion || LacksRegion(e))
  {
    hide KindOf, RankOf, Milestone.Add;
  }

  lemma {:induction false} FoldFlags(events: seq<LifecycleEvent>, region: string)
    ensures Fold(events, region).supported <==> exists e :: e in events && SetsSupported(e, region)
    ensures Fold(events, region).otherApplicable <==> exists e :: e in events && SetsOther(e, region)
    ensures Fold(events, region).noRegion <==> exists e :: e in events && LacksRegion(e)
  {
    hide FoldEvent, SetsSupported, SetsOther, LacksRegion;
    if events != [] {
      var front := events[..|events| - 1];
      var last := events[|events| - 1];
      FoldFlags(front, region);
      FlagsOfEvent(Fold(front, region), last, region);
      assert events == front + [last];
      assert forall e :: e in events <==> e in front || e == last;
    }
  }

  // ------------------------------------------------------------- equivalence

  /** Milestones that no later decision tells apart: once in conflict, the date is not used. */
  predicate Alike(a: Milestone, b: Milestone) {
    a.rank == b.rank && a.conflict == b.conflict && (!a.conflict ==> a.date == b.date)
  }

  predicate AlikeSlots(a: Slots, b: Slots) {
    && Alike(a.standard, b.standard) && Alike(a.start, b.start) && Alike(a.extended, b.extended)
    && Alike(a.endOfLife, b.endOfLife) && Alike(a.generic, b.generic) && Alike(a.billed, b.billed)
    && a.supported == b.supported && a.otherApplicable == b.otherApplicable && a.noRegion == b.noRegion
  }

  /** The milestone with its unusable date removed. */
  function Canon(m: Milestone): Milestone {
    if m.conflict then m.(date := None) else m
  }

  function CanonSlots(s: Slots): Slots {
    Slots(Canon(s.standard), Canon(s.start), Canon(s.extended), Canon(s.endOfLife), Canon(s.generic), Canon(s.billed),
          s.supported, s.otherApplicable, s.noRegion)
  }

  lemma ResolveCanon(s: Slots)
    ensures Resolve(CanonSlots(s)) == CanonSlots(Resolve(s))
  {
    hide UseGeneric, Canon;
    OrElseCanon(s.standard, s.billed);
    OrElseCanon(OrElse(s.standard, s.billed), s.start);
    UseGenericCanon(s.(standard := OrElse(OrElse(s.standard, s.billed), s.start)));
  }

  lemma OrElseCanon(m: Milestone, other: Milestone)
    ensures OrElse(Canon(m), Canon(other)) == Canon(OrElse(m, other))
  {
  }

  lemma UseGenericCanon(s: Slots)
    ensures UseGeneric(CanonSlots(s)) == CanonSlots(UseGeneric(s))
  {
    hide Canon;
    CanonRank(s.standard);
    CanonRank(s.extended);
    CanonRank(s.endOfLife);
    CanonRank(s.generic);
  }

  lemma CanonRank(m: Milestone)
    ensures Canon(m).rank == m.rank
  {
  }

  lemma ValidateCanon(s: Slots)
    requires !s.endOfLife.conflict
    ensures Validate(CanonSlots(s)) == Validate(s)
  {
  }

  lemma DecideCanon(s: Slots, now: Instant)
    ensures Decide(CanonSlots(s), now) == Decide(s, now)
  {
    hide Resolve, Validate;
    ResolveCanon(s);
    if !Resolve(s).endOfLife.conflict {
      ValidateCanon(Resolve(s));
    }
  }

  /** A decision never depends on the date of a milestone in conflict. */
  lemma AlikeDecide(a: Slots, b: Slots, now: Instant)
    requires AlikeSlots(a, b)
    ensures Decide(a, now) == Decide(b, now)
  {
    hide Decide;
    DecideCanon(a, now);
    DecideCanon(b, now);
    assert CanonSlots(a) == CanonSlots(b);
  }

  lemma StandForAlike(m: Milestone, n: Milestone, a: seq<Date>, b: seq<Date>)
    requires StandsFor(m, a) && StandsFor(n, b) && multiset(a) == multiset(b) && m.rank == n.rank
    ensures Alike(m, n)
  {
    SameDates(a, b);
  }

  lemma SameDatesAlike(a: seq<LifecycleEvent>, b: seq<LifecycleEvent>, region: string, slot: Slot)
    requires multiset(Dates(a, region, slot, 1)) == multiset(Dates(b, region, slot, 1))
    requires multiset(Dates(a, region, slot, 2)) == multiset(Dates(b, region, slot, 2))
    ensures Alike(Fold(a, region).Get(slot), Fold(b, region).Get(slot))
  {
    hide Fold, Dates, StandsFor, Slots.Get;
    FoldMeans(a, region, slot);
    FoldMeans(b, region, slot);
    var m, n := Fold(a, region).Get(slot), Fold(b, region).Get(slot);
    SameDates(Dates(a, region, slot, 2), Dates(b, region, slot, 2));
    SameDates(Dates(a, region, slot, 1), Dates(b, region, slot, 1));
    if Dates(a, region, slot, 2) != [] {
      StandForAlike(m, n, Dates(a, region, slot, 2), Dates(b, region, slot, 2));
    } else if Dates(a, region, slot, 1) != [] {
      StandForAlike(m, n, Dates(a, region, slot, 1), Dates(b, region, slot, 1));
    }
  }

  lemma SameDates(a: seq<Date>, b: seq<Date>)
    requires multiset(a) == multiset(b)
    ensures |a| == |b| && (forall d :: d in a <==> d in b)
    ensures a != [] ==> a[0] in b && b[0] in a
  {
    assert |multiset(a)| == |a| && |multiset(b)| == |b|;
    assert forall d :: d in a <==> d in multiset(a);
    assert forall d :: d in b <==> d in multiset(b);
    if a != [] {
      assert a[0] in a && b[0] in b;
    }
  }

  // ------------------------------------------------------------- permutation

  lemma {:induction false} DatesAppend(a: seq<LifecycleEvent>, b: seq<LifecycleEvent>, region: string, slot: Slot,
                                       rank: int)
    ensures Dates(a + b, region, slot, rank) == Dates(a, region, slot, rank) + Dates(b, region, slot, rank)
    decreases |b|
  {
    hide Contribution;
    if b == [] {
      assert a + b == a;
    } else {
      assert (a + b)[..|a + b| - 1] == a + b[..|b| - 1];
      DatesAppend(a, b[..|b| - 1], region, slot, rank);
    }
  }

  /** Taking one event out takes its contribution out. */
  lemma DatesWithout(events: seq<LifecycleEvent>, i: nat, region: string, slot: Slot, rank: int)
    requires i < |events|
    ensures multiset(Dates(events, region, slot, rank))
         == multiset(Dates(events[..i] + events[i + 1..], region, slot, rank))
            + multiset(Contribution(events[i], region, slot, rank))
  {
    hide Contribution;
    assert events == events[..i] + [events[i]] + events[i + 1..];
    DatesAppend(events[..i] + [events[i]], events[i + 1..], region, slot, rank);
    DatesAppend(events[..i], [events[i]], region, slot, rank);
    DatesAppend(events[..i], events[i + 1..], region, slot, rank);
    assert [events[i]][..0] == [];
    assert Dates([events[i]], region, slot, rank) == Contribution(events[i], region, slot, rank);
  }

  lemma SameWithoutOne(a: seq<LifecycleEvent>, b: seq<LifecycleEvent>) returns (i: nat)
    requires a != [] && multiset(a) == multiset(b)
    ensures i < |b| && b[i] == a[|a| - 1]
    ensures multiset(a[..|a| - 1]) == multiset(b[..i] + b[i + 1..])
  {
    var last := a[|a| - 1];
    assert a == a[..|a| - 1] + [last];
    assert last in multiset(b);
    i :| 0 <= i < |b| && b[i] == last;
    assert b == b[..i] + [last] + b[i + 1..];
    assert multiset(a[..|a| - 1]) == multiset(a) - multiset{last};
    assert multiset(b[..i] + b[i + 1..]) == multiset(b) - multiset{last};
  }

  lemma {:induction false} PermutedDates(a: seq<LifecycleEvent>, b: seq<LifecycleEvent>, region: string, slot: Slot,
                                         rank: int)
    requires multiset(a) == multiset(b)
    ensures multiset(Dates(a, region, slot, rank)) == multiset(Dates(b, region, slot, rank))
    decreases |a|
  {
    hide Contribution;
    if a == [] {
      assert |multiset(b)| == 0;
    } else {
      var i := SameWithoutOne(a, b);
      PermutedDates(a[..|a| - 1], b[..i] + b[i + 1..], region, slot, rank);
      DatesSnoc(a, region, slot, rank);
      DatesWithout(b, i, region, slot, rank);
    }
  }

  lemma SameEventsAlike(a: seq<LifecycleEvent>, b: seq<LifecycleEvent>, region: string)
    requires forall slot, rank :: multiset(Dates(a, region, slot, rank)) == multiset(Dates(b, region, slot, rank))
    requires Fold(a, region).supported == Fold(b, region).supported
    requires Fold(a, region).otherApplicable == Fold(b, region).otherApplicable
    requires Fold(a, region).noRegion == Fold(b, region).noRegion
    ensures AlikeSlots(Fold(a, region), Fold(b, region))
  {
    hide Fold, Alike;
    forall slot: Slot
      ensures Alike(Fold(a, region).Get(slot), Fold(b, region).Get(slot))
    {
      SameDatesAlike(a, b, region, slot);
    }
    assert Alike(Fold(a, region).Get(Standard), Fold(b, region).Get(Standard));
    assert Alike(Fold(a, region).Get(Start), Fold(b, region).Get(Start));
    assert Alike(Fold(a, region).Get(Extended), Fold(b, region).Get(Extended));
    assert Alike(Fold(a, region).Get(EndOfLife), Fold(b, region).Get(EndOfLife));
    assert Alike(Fold(a, region).Get(Generic), Fold(b, region).Get(Generic));
    assert Alike(Fold(a, region).Get(Billed), Fold(b, region).Get(Billed));
  }

  /** The parsed lifecycle, or the cause of its failure, does not depend on the order of the events. */
  lemma ParseIgnoresOrder(a: seq<LifecycleEvent>, b: seq<LifecycleEvent>, region: string, now: Instant)
    requires multiset(a) == multiset(b)
    ensures Parse(a, region, now) == Parse(b, region, now)
  {
    forall slot: Slot, rank: int
      ensures multiset(Dates(a, region, slot, rank)) == multiset(Dates(b, region, slot, rank))
    {
      PermutedDates(a, b, region, slot, rank);
    }
    FoldFlags(a, region);
    FoldFlags(b, region);
    assert forall e :: e in a <==> e in multiset(a);
    assert forall e :: e in b <==> e in multiset(b);
    SameEventsAlike(a, b, region);
    AlikeDecide(Fold(a, region), Fold(b, region), now);
  }

  // ------------------------------------------------------ regional override

  lemma OverrideAlike(a: seq<LifecycleEvent>, b: seq<LifecycleEvent>, region: string, slot: Slot)
    requires multiset(Dates(a, region, slot, 2)) == multiset(Dates(b, region, slot, 2))
    requires Dates(a, region, slot, 2) != []
    ensures Alike(Fold(a, region).Get(slot), Fold(b, region).Get(slot))
  {
    hide Fold, Dates, StandsFor, Slots.Get;
    FoldMeans(a, region, slot);
    FoldMeans(b, region, slot);
    SameDates(Dates(a, region, slot, 2), Dates(b, region, slot, 2));
    StandForAlike(Fold(a, region).Get(slot), Fold(b, region).Get(slot), Dates(a, region, slot, 2),
                  Dates(b, region, slot, 2));
  }

  lemma {:induction false} EventHasDate(events: seq<LifecycleEvent>, j: nat, region: string, slot: Slot, rank: int)
    requires j < |events| && KindOf(events[j]) == For(slot) && RankOf(events[j].regions, region) == rank
    ensures Dates(events, region, slot, rank) != []
  {
    DatesWithout(events, j, region, slot, rank);
    assert events[j].date in multiset(Dates(events, region, slot, rank));
  }

  lemma FlagsWithout(events: seq<LifecycleEvent>, i: nat, j: nat, region: string, slot: Slot)
    requires i < |events| && j < |events|
    requires KindOf(events[i]) == For(slot) && RankOf(events[i].regions, region) == 1
    requires KindOf(events[j]) == For(slot) && RankOf(events[j].regions, region) == 2
    ensures var a := Fold(events, region);
            var b := Fold(events[..i] + events[i + 1..], region);
            a.supported == b.supported && a.otherApplicable == b.otherApplicable && a.noRegion == b.noRegion
  {
    hide KindOf, RankOf, Fold;
    var rest := events[..i] + events[i + 1..];
    FoldFlags(events, region);
    FoldFlags(rest, region);
    assert events == events[..i] + [events[i]] + events[i + 1..];
    assert forall e :: e in events <==> e in rest || e == events[i];
    assert events[j] in rest && SetsOther(events[j], region);
    assert !SetsSupported(events[i], region) && !LacksRegion(events[i]);
  }

  /** Dropping an "all"-region event from a slot that also has an event naming the region
      changes nothing. */
  lemma RegionOverridesAll(events: seq<LifecycleEvent>, i: nat, j: nat, region: string, slot: Slot, now: Instant)
    requires i < |events| && j < |events|
    requires KindOf(events[i]) == For(slot) && RankOf(events[i].regions, region) == 1
    requires KindOf(events[j]) == For(slot) && RankOf(events[j].regions, region) == 2
    ensures Parse(events[..i] + events[i + 1..], region, now) == Parse(events, region, now)
  {
    hide KindOf, RankOf, Fold, Alike;
    var rest := events[..i] + events[i + 1..];
    forall other: Slot
      ensures Alike(Fold(events, region).Get(other), Fold(rest, region).Get(other))
    {
      forall rank: int
        ensures rank != 1 || other != slot ==>
                  multiset(Dates(events, region, other, rank)) == multiset(Dates(rest, region, other, rank))
      {
        DatesWithout(events, i, region, other, rank);
      }
      if other == slot {
        EventHasDate(events, j, region, slot, 2);
        OverrideAlike(events, rest, region, slot);
      } else {
        SameDatesAlike(events, rest, region, other);
      }
    }
    FlagsWithout(events, i, j, region, slot);
    assert Alike(Fold(events, region).Get(Standard), Fold(rest, region).Get(Standard));
    assert Alike(Fold(events, region).Get(Start), Fold(rest, region).Get(Start));
    assert Alike(Fold(events, region).Get(Extended), Fold(rest, region).Get(Extended));
    assert Alike(Fold(events, region).Get(EndOfLife), Fold(rest, region).Get(EndOfLife));
    assert Alike(Fold(events, region).Get(Generic), Fold(rest, region).Get(Generic));
    assert Alike(Fold(events, region).Get(Billed), Fold(rest, region).Get(Billed));
    AlikeDecide(Fold(events, region), Fold(rest, region), now);
  }
}
