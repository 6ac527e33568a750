/** Support lifecycles from AWS Health events: folding events into milestones, deciding a
    lifecycle, falling back between version entries, memoising lookups, and classifying a
    resource at a scan time. Error texts are represented by their cause only. */
module HealthLifecycle {
  import opened Text
  import opened Wrappers

  type Instant = int

  /** Go's zero time, which marks an unset date. */
  const ZERO_TIME: Instant := 0

  /** time.Time behind a pointer: absent, unset, or known. */
  type Date = Option<Instant>

  predicate Known(date: Date) {
    date.Some? && date.value != ZERO_TIME
  }

  predicate DateReached(now: Instant, date: Date) {
    Known(date) && date.value <= now
  }

  datatype LifecycleEvent = LifecycleEvent(kind: string, regions: seq<string>, date: Date, impactRisks: seq<string>)

  function Normalize(value: string): string {
    var trimmed := Trim(value);
    ToUpper(seq(|trimmed|,
                i requires 0 <= i < |trimmed| => if trimmed[i] == '-' || trimmed[i] == ' ' then '_' else trimmed[i]))
  }

  // -------------------------------------------------------------- milestones

  datatype Milestone = Milestone(date: Date, rank: int, conflict: bool) {
    /** A higher rank overrides; the same rank must bring the same date. */
    function Add(date: Date, rank: int): Milestone {
      if rank > this.rank then Milestone(date, rank, false)
      else if rank == this.rank && (this.date.None? || date.None? || this.date != date) then this.(conflict := true)
      else this
    }

    function KnownDate(): Date {
      if conflict || !Known(date) then None else date
    }
  }

  const NO_MILESTONE := Milestone(None, 0, false)

  /** The struct that the code updates through a pointer. */
  class MilestoneCell {
    var date: Date
    var rank: int
    var conflict: bool

    function View(): Milestone
      reads this
    {
      Milestone(date, rank, conflict)
    }

    constructor ()
      ensures View() == NO_MILESTONE
    {
      date, rank, conflict := None, 0, false;
    }

    method Add(date: Date, rank: int)
      modifies this
      ensures View() == old(View()).Add(date, rank)
    {
      if rank > this.rank {
        this.date, this.rank, this.conflict := date, rank, false;
        return;
      }
      if rank == this.rank && (this.date.None? || date.None? || this.date != date) {
        conflict := true;
      }
    }
  }

  // ------------------------------------------------------------------ events

  /** How specifically an event applies to a region: 2 by name, 1 as "all", 0 not at all. */
  function RankOf(regions: seq<string>, region: string): (rank: int)
    ensures 0 <= rank <= 2
    ensures rank > 0 ==> regions != []
  {
    if regions == [] then 0
    else if EqualFold(regions[0], region) then 2
    else
      var rest := RankOf(regions[1..], region);
      if rest == 2 then 2 else if EqualFold(regions[0], "all") then 1 else rest
  }

  datatype Slot = Standard | Start | Extended | EndOfLife | Generic | Billed

  datatype Kind = SupportedStatus | For(slot: Slot) | Unrecognized

  function KindOf(e: LifecycleEvent): Kind {
    var kind := Normalize(e.kind);
    if kind == "SUPPORTED" then SupportedStatus
    else if kind == "END_OF_STANDARD_SUPPORT" || kind == "STANDARD_SUPPORT_END" || kind == "STANDARD_SUPPORT_END_DATE"
      then For(Standard)
    else if kind == "START_OF_EXTENDED_SUPPORT" || kind == "EXTENDED_SUPPORT_START" then For(Start)
    else if kind == "END_OF_EXTENDED_SUPPORT" || kind == "EXTENDED_SUPPORT_END" || kind == "EXTENDED_SUPPORT_END_DATE"
      then For(Extended)
    else if kind == "END_OF_LIFE" then For(EndOfLife)
    else if kind == "END_OF_SUPPORT" then
      For(if exists i :: 0 <= i < |e.impactRisks| && Normalize(e.impactRisks[i]) == "BILLING" then Billed else Generic)
    else Unrecognized
  }

  /** The loop's variables: six milestones, two flags, and whether some support milestone
      names no region. */
  datatype Slots = Slots(
    standard: Milestone, start: Milestone, extended: Milestone, endOfLife: Milestone, generic: Milestone,
      billed: Milestone,
    supported: bool, otherApplicable: bool, noRegion: bool) {

    function Get(slot: Slot): Milestone {
      match slot
      case Standard => standard
      case Start => start
      case Extended => extended
      case EndOfLife => endOfLife
      case Generic => generic
      case Billed => billed
    }

    function Put(slot: Slot, m: Milestone): Slots {
      match slot
      case Standard => this.(standard := m)
      case Start => this.(start := m)
      case Extended => this.(extended := m)
      case EndOfLife => this.(endOfLife := m)
      case Generic => this.(generic := m)
      case Billed => this.(billed := m)
    }
  }

  const NO_SLOTS := Slots(NO_MILESTONE, NO_MILESTONE, NO_MILESTONE, NO_MILESTONE, NO_MILESTONE, NO_MILESTONE, false,
                          false, false)

  function FoldEvent(s: Slots, e: LifecycleEvent, region: string): Slots {
    var rank := RankOf(e.regions, region);
    match KindOf(e)
    case Unrecognized => s.(otherApplicable := s.otherApplicable || rank > 0)
    case SupportedStatus =>
      if e.regions == [] then s.(noRegion := true) else s.(supported := s.supported || rank > 0)
    case For(slot) =>
      if e.regions == [] then s.(noRegion := true)
      else if rank == 0 then s
      else s.Put(slot, s.Get(slot).Add(e.date, rank)).(otherApplicable := true)
  }

  function Fold(events: seq<LifecycleEvent>, region: string): Slots {
    if events == [] then NO_SLOTS
    else FoldEvent(Fold(events[..|events| - 1], region), events[|events| - 1], region)
  }

  // --------------------------------------------------------------- lifecycle

  datatype Lifecycle = Lifecycle(standardEnd: Date, extendedStart: Date, extendedEnd: Date, endOfLife: Date,
                                 supportedOnly: bool)

  datatype Cause =
    | EndOfLifeConflict | EndOfLifeMissing | NoRegion | StandardMilestoneMissing | Conflict
    | StandardEndMissing | ExtendedEndMissing | ExtendedStartMissing | Inconsistent

  function OrElse(m: Milestone, other: Milestone): Milestone {
    if m.rank == 0 && other.rank > 0 then other else m
  }

  /** A generic end of support stands for whichever explicit boundary is missing beside another. */
  function UseGeneric(s: Slots): Slots {
    if s.generic.rank <= 0 then s
    else if s.standard.rank == 0 && (s.extended.rank > 0 || s.endOfLife.rank > 0) then s.(standard := s.generic)
    else if s.extended.rank == 0 && s.standard.rank > 0 then s.(extended := s.generic)
    else s
  }

  /** Which milestone stands for the end of standard support, and which for extended support. */
  function Resolve(s: Slots): Slots {
    UseGeneric(s.(standard := OrElse(OrElse(s.standard, s.billed), s.start)))
  }

  predicate After(a: Date, b: Date)
    requires a.Some? && b.Some?
  {
    a.value > b.value
  }

  /** The checks that do not depend on the scan time. */
  function Validate(s: Slots): Result<Lifecycle, Cause> {
    if s.noRegion then Err(NoRegion)
    else if s.supported && !s.otherApplicable then Ok(Lifecycle(None, None, None, None, true))
    else if s.standard.rank == 0 then Err(StandardMilestoneMissing)
    else if s.standard.conflict || s.start.conflict || s.extended.conflict then Err(Conflict)
    else if !Known(s.standard.date) then Err(StandardEndMissing)
    else if s.extended.rank > 0 && !Known(s.extended.date) then Err(ExtendedEndMissing)
    else if s.start.rank > 0 && !Known(s.start.date) then Err(ExtendedStartMissing)
    else if s.extended.date.Some? && !After(s.extended.date, s.standard.date) then Err(Inconsistent)
    else if s.start.date.Some? && (After(s.standard.date, s.start.date)
                                   || (s.extended.date.Some? && !After(s.extended.date, s.start.date)))
                                       then Err(Inconsistent)
    else if s.endOfLife.date.Some? && (!After(s.endOfLife.date, s.standard.date)
                                       || (s.start.date.Some? && !After(s.endOfLife.date, s.start.date))
                                       || (s.extended.date.Some? && After(s.extended.date, s.endOfLife.date)))
                                           then Err(Inconsistent)
    else Ok(Lifecycle(s.standard.date, s.start.date, s.extended.date, s.endOfLife.date, false))
  }

  function Decide(slots: Slots, now: Instant): Result<Lifecycle, Cause> {
    var s := Resolve(slots);
    if s.endOfLife.conflict then Err(EndOfLifeConflict)
    else if s.endOfLife.rank > 0 && s.endOfLife.KnownDate().None? then Err(EndOfLifeMissing)
    else if DateReached(now, s.endOfLife.date) then
      Ok(Lifecycle(s.standard.KnownDate(), s.start.KnownDate(), s.extended.KnownDate(), s.endOfLife.date, false))
    else Validate(s)
  }

  function Parse(events: seq<LifecycleEvent>, region: string, now: Instant): Result<Lifecycle, Cause> {
    Decide(Fold(events, region), now)
  }

  method RegionRank(regions: seq<string>, region: string) returns (rank: int)
    ensures rank == RankOf(regions, region)
  {
    rank := 0;
    for j := 0 to |regions|
      invariant rank == 0 || rank == 1
      invariant RankOf(regions, region) == if RankOf(regions[j..], region) == 2 then 2
                                           else if rank == 1 then 1 else RankOf(regions[j..], region)
    {
      assert regions[j..][1..] == regions[j + 1..];
      if EqualFold(regions[j], region) {
        return 2;
      }
      if EqualFold(regions[j], "all") {
        rank := 1;
      }
    }
  }

  /** The variables of the parsing loop. The event kind selects one of the six milestones. */
  class Milestones {
    const standard: MilestoneCell
    const start: MilestoneCell
    const extended: MilestoneCell
    const endOfLife: MilestoneCell
    const generic: MilestoneCell
    const billed: MilestoneCell
    var supported: bool
    var otherApplicable: bool
    var noRegion: bool

    function Cells(): seq<MilestoneCell> {
      [standard, start, extended, endOfLife, generic, billed]
    }

    predicate Distinct() {
      forall i, j :: 0 <= i < j < 6 ==> Cells()[i] != Cells()[j]
    }

    function View(): Slots
      reads this, standard, start, extended, endOfLife, generic, billed
    {
      Slots(standard.View(), start.View(), extended.View(), endOfLife.View(), generic.View(), billed.View(),
            supported, otherApplicable, noRegion)
    }

    constructor ()
      ensures Distinct() && View() == NO_SLOTS
      ensures fresh(Cells())
    {
      standard := new MilestoneCell();
      start := new MilestoneCell();
      extended := new MilestoneCell();
      endOfLife := new MilestoneCell();
      generic := new MilestoneCell();
      billed := new MilestoneCell();
      supported, otherApplicable, noRegion := false, false, false;
    }

    method Select(slot: Slot) returns (cell: MilestoneCell)
      ensures cell == Cells()[Index(slot)]
    {
      match slot {
        case Standard => return standard;
        case Start => return start;
        case Extended => return extended;
        case EndOfLife => return endOfLife;
        case Generic => return generic;
        case Billed => return billed;
      }
    }

    method AddTo(slot: Slot, date: Date, rank: int)
      requires Distinct()
      modifies Cells()
      ensures View() == old(View()).Put(slot, old(View()).Get(slot).Add(date, rank))
    {
      var milestone := Select(slot);
      assert forall i :: 0 <= i < 6 && i != Index(slot) ==> Cells()[i] != milestone;
      assert Cells()[0] == standard && Cells()[1] == start && Cells()[2] == extended;
      assert Cells()[3] == endOfLife && Cells()[4] == generic && Cells()[5] == billed;
      milestone.Add(date, rank);
    }

    method Visit(event: LifecycleEvent, region: string)
      requires Distinct()
      modifies this, Cells()
      ensures View() == FoldEvent(old(View()), event, region)
    {
      hide KindOf, RankOf, Milestone.Add, Slots.Get, Slots.Put;
      var rank := RegionRank(event.regions, region);
      var kind := KindOf(event);
      if kind.SupportedStatus? {
        supported := supported || rank > 0;
      } else if kind.Unrecognized? {
        otherApplicable := otherApplicable || rank > 0;
        return;
      }
      if |event.regions| == 0 {
        noRegion := true;
        return;
      }
      if rank == 0 || kind.SupportedStatus? {
        return;
      }
      PutKeepsFlags(View(), kind.slot, View().Get(kind.slot).Add(event.date, rank));
      otherApplicable := true;
      AddTo(kind.slot, event.date, rank);
    }
  }

  lemma PutKeepsFlags(s: Slots, slot: Slot, m: Milestone)
    ensures s.(otherApplicable := true).Put(slot, m) == s.Put(slot, m).(otherApplicable := true)
    ensures s.(otherApplicable := true).Get(slot) == s.Get(slot)
  {
  }

  function Index(slot: Slot): (i: nat)
    ensures i < 6
  {
    match slot
    case Standard => 0
    case Start => 1
    case Extended => 2
    case EndOfLife => 3
    case Generic => 4
    case Billed => 5
  }

  method ParseHealthLifecycle(events: seq<LifecycleEvent>, region: string, now: Instant)
    returns (r: Result<Lifecycle, Cause>)
    ensures r == Parse(events, region, now)
  {
    var milestones := new Milestones();
    for i := 0 to |events|
      invariant fresh(milestones) && fresh(milestones.Cells()) && milestones.Distinct()
      invariant milestones.View() == Fold(events[..i], region)
    {
      assert events[..i + 1][..i] == events[..i];
      milestones.Visit(events[i], region);
    }
    assert events[..|events|] == events;
    r := Decide(milestones.View(), now);
  }
}
