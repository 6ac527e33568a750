/** RDS snapshot costs: a region's billable excess over the free allowance, shared out by size. */
module RdsSnapshotCosts {
  import opened Text
  import opened Wrappers
  import opened Charges

  const EBS_STANDARD_USD_PER_GIB_MONTH := 0.05
  const EBS_ARCHIVE_USD_PER_GIB_MONTH := 0.0125
  const RDS_SNAPSHOT_USD_PER_GIB_MONTH := 0.095

  datatype Kind = EbsSnapshot | RdsSnapshot | RdsClusterSnapshot

  datatype CostBasis = VolumeSizeEstimate | EbsIncrementalChain | EbsNoIncremental | RdsWithinFreeTier
      | RdsRegionalExcess

  datatype Record = Record(kind: Kind, resourceId: string, sourceId: string, sizeGiB: real, snapshotType: string,
                           cost: real, basis: CostBasis)

  /** A snapshot as RDS describes it; instance and cluster snapshots differ in their kind only. */
  datatype Snapshot = Snapshot(kind: Kind, id: string, sourceId: string, snapshotType: string, created: Option<int>,
                               allocatedGiB: nat)

  datatype RegionContext = RegionContext(freePoolGiB: real, totalBackupGiB: real, billableBackupGiB: real,
                                         liveInstances: set<string>, liveClusters: set<string>)

  /** EstimateMonthlyCost, the stand-alone estimate of a snapshot. */
  function EstimateMonthlyCost(kind: Kind, sizeGiB: real, storageTier: string): real {
    if sizeGiB <= 0.0 then 0.0
    else match kind
      case EbsSnapshot =>
        sizeGiB * if EqualFold(Trim(storageTier), "archive") then EBS_ARCHIVE_USD_PER_GIB_MONTH
            else EBS_STANDARD_USD_PER_GIB_MONTH
      case _ => sizeGiB * RDS_SNAPSHOT_USD_PER_GIB_MONTH
  }

  function MonthlyBackupRunRate(excessGiB: real): real {
    if excessGiB <= 0.0 then 0.0 else excessGiB * RDS_SNAPSHOT_USD_PER_GIB_MONTH
  }

  predicate IsRds(kind: Kind) {
    kind.RdsSnapshot? || kind.RdsClusterSnapshot?
  }

  predicate SourceIsLive(kind: Kind, sourceId: string, ctx: RegionContext) {
    Trim(sourceId) != "" && Trim(sourceId) in if kind.RdsClusterSnapshot? then ctx.liveClusters else ctx.liveInstances
  }

  /** rdsSnapshotIsBillable: everything but automated snapshots of live sources. */
  predicate IsBillable(kind: Kind, snapshotType: string, sourceId: string, ctx: RegionContext) {
    !(EqualFold(Trim(snapshotType), "automated") && SourceIsLive(kind, sourceId, ctx))
  }

  // --------------------------------------------------------- what can be shared

  function Excess(ctx: RegionContext): real {
    ctx.totalBackupGiB - ctx.freePoolGiB
  }

  /** The excess that deleting listed snapshots could remove. */
  function BillableExcess(ctx: RegionContext): real {
    if ctx.billableBackupGiB < Excess(ctx) then ctx.billableBackupGiB else Excess(ctx)
  }

  predicate HasCost(ctx: RegionContext) {
    Excess(ctx) > 0.0 && ctx.totalBackupGiB > 0.0 && ctx.billableBackupGiB > 0.0
  }

  /** A record after the regional costs are applied. */
  function Charged(rec: Record, ctx: RegionContext): Record {
    if !IsRds(rec.kind) then rec
    else if HasCost(ctx) && IsBillable(rec.kind, rec.snapshotType, rec.sourceId, ctx)
    then rec.(cost := MonthlyBackupRunRate(BillableExcess(ctx)) * (rec.sizeGiB / ctx.billableBackupGiB),
              basis := RdsRegionalExcess)
    else rec.(cost := 0.0, basis := RdsWithinFreeTier)
  }

  function ChargedAll(records: seq<Record>, ctx: RegionContext): (r: seq<Record>)
    ensures |r| == |records| && forall i :: 0 <= i < |r| ==> r[i] == Charged(records[i], ctx)
  {
    seq(|records|, i requires 0 <= i < |records| => Charged(records[i], ctx))
  }

  /** ApplyRDSRegionalCosts, in place. */
  method ApplyRegionalCosts(records: array<Record>, ctx: RegionContext)
    modifies records
    ensures records[..] == ChargedAll(old(records[..]), ctx)
  {
    hide IsBillable;
    var excessGiB := ctx.totalBackupGiB - ctx.freePoolGiB;
    if excessGiB <= 0.0 || ctx.totalBackupGiB <= 0.0 || ctx.billableBackupGiB <= 0.0 {
      for i := 0 to records.Length
        invariant forall k :: 0 <= k < i ==> records[k] == Charged(old(records[k]), ctx)
        invariant forall k :: i <= k < records.Length ==> records[k] == old(records[k])
      {
        if !IsRds(records[i].kind) {
          continue;
        }
        records[i] := records[i].(cost := 0.0, basis := RdsWithinFreeTier);
      }
      return;
    }
    var billableExcessGiB := if ctx.billableBackupGiB < excessGiB then ctx.billableBackupGiB else excessGiB;
    var billableExcessCost := MonthlyBackupRunRate(billableExcessGiB);
    for i := 0 to records.Length
      invariant forall k :: 0 <= k < i ==> records[k] == Charged(old(records[k]), ctx)
      invariant forall k :: i <= k < records.Length ==> records[k] == old(records[k])
    {
      if !IsRds(records[i].kind) {
        continue;
      }
      if !IsBillable(records[i].kind, records[i].snapshotType, records[i].sourceId, ctx) {
        records[i] := records[i].(cost := 0.0, basis := RdsWithinFreeTier);
        continue;
      }
      var share := records[i].sizeGiB / ctx.billableBackupGiB;
      records[i] := records[i].(cost := billableExcessCost * share, basis := RdsRegionalExcess);
    }
  }

  function LegacyCharged(rec: Record): Record {
    if IsRds(rec.kind) then rec.(cost := EstimateMonthlyCost(rec.kind, rec.sizeGiB, ""), basis := VolumeSizeEstimate)
      else rec
  }

  /** ApplyRDSLegacyCosts, in place, when the region's context is not available. */
  method ApplyLegacyCosts(records: array<Record>)
    modifies records
    ensures forall i :: 0 <= i < records.Length ==> records[i] == LegacyCharged(old(records[i]))
  {
    hide EstimateMonthlyCost;
    for i := 0 to records.Length
      invariant forall k :: i <= k < records.Length ==> records[k] == old(records[k])
      invariant forall k :: 0 <= k < i ==> records[k] == LegacyCharged(old(records[k]))
    {
      if !IsRds(records[i].kind) {
        continue;
      }
      records[i] := records[i].(cost := EstimateMonthlyCost(records[i].kind, records[i].sizeGiB, ""),
                                basis := VolumeSizeEstimate);
    }
  }

  // ------------------------------------------------------- listing and context

  /** What is asked for: snapshots before a cutoff, of a minimum size, of some kinds. */
  datatype Filter = Filter(cutoff: int, minSizeGiB: real, kinds: set<Kind>)

  predicate Wanted(snap: Snapshot, f: Filter) {
    snap.created.Some? && snap.created.value < f.cutoff && snap.allocatedGiB as real >= f.minSizeGiB
        && snap.kind in f.kinds
  }

  function RecordOf(snap: Snapshot): Record {
    Record(snap.kind, snap.id, snap.sourceId, snap.allocatedGiB as real, Trim(snap.snapshotType), 0.0,
           RdsRegionalExcess)
  }

  function ListedRecords(snaps: seq<Snapshot>, f: Filter): seq<Record> {
    if snaps == [] then []
    else
      var last := snaps[|snaps| - 1];
      ListedRecords(snaps[..|snaps| - 1], f) + if Wanted(last, f) then [RecordOf(last)] else []
  }

  /** rdsSnapshotRecord and rdsClusterSnapshotRecord over a region, then filterRDSRecords. */
  method ListRecords(snaps: seq<Snapshot>, f: Filter) returns (records: seq<Record>)
    ensures records == ListedRecords(snaps, f)
  {
    hide Trim;
    records := [];
    assert snaps[..0] == [] && snaps[..|snaps|] == snaps;
    for i := 0 to |snaps|
      invariant records == ListedRecords(snaps[..i], f)
    {
      assert snaps[..i + 1][..i] == snaps[..i];
      var snap := snaps[i];
      if snap.created.None? || !(snap.created.value < f.cutoff) {
        continue;
      }
      if snap.allocatedGiB as real < f.minSizeGiB {
        continue;
      }
      if snap.kind in f.kinds {
        records := records + [RecordOf(snap)];
      }
    }
  }

  predicate SnapIsBillable(snap: Snapshot, ctx: RegionContext) {
    IsBillable(snap.kind, snap.snapshotType, snap.sourceId, ctx)
  }

  function BillableGiB(snaps: seq<Snapshot>, ctx: RegionContext): (total: real)
    ensures total >= 0.0
  {
    if snaps == [] then 0.0
    else
      var last := snaps[|snaps| - 1];
      BillableGiB(snaps[..|snaps| - 1], ctx) + if SnapIsBillable(last, ctx) then last.allocatedGiB as real else 0.0
  }

  /** billableBackupGiB. */
  method SumBillable(snaps: seq<Snapshot>, ctx: RegionContext) returns (total: real)
    ensures total == BillableGiB(snaps, ctx)
  {
    hide IsBillable;
    total := 0.0;
    assert snaps[..0] == [] && snaps[..|snaps|] == snaps;
    for i := 0 to |snaps|
      invariant total == BillableGiB(snaps[..i], ctx)
    {
      assert snaps[..i + 1][..i] == snaps[..i];
      if IsBillable(snaps[i].kind, snaps[i].snapshotType, snaps[i].sourceId, ctx) {
        total := total + snaps[i].allocatedGiB as real;
      }
    }
  }

  // ----------------------------------------------------------- backup footprint

  predicate Counted(snap: Snapshot) {
    Trim(snap.sourceId) != "" && snap.allocatedGiB > 0
  }

  function SourceKey(snap: Snapshot): string {
    (if snap.kind.RdsClusterSnapshot? then "cluster:" else "instance:") + Trim(snap.sourceId)
  }

  predicate IsManual(snap: Snapshot) {
    EqualFold(Trim(snap.snapshotType), "manual")
  }

  function ManualSum(snaps: seq<Snapshot>, key: string): (sum: real)
    ensures sum >= 0.0
  {
    if snaps == [] then 0.0
    else
      var last := snaps[|snaps| - 1];
      ManualSum(snaps[..|snaps| - 1], key)
        + if Counted(last) && SourceKey(last) == key && IsManual(last) then last.allocatedGiB as real else 0.0
  }

  function AutomatedMax(snaps: seq<Snapshot>, key: string): (max: real)
    ensures max >= 0.0
  {
    if snaps == [] then 0.0
    else
      var last := snaps[|snaps| - 1];
      var before := AutomatedMax(snaps[..|snaps| - 1], key);
      if Counted(last) && SourceKey(last) == key && !IsManual(last) && last.allocatedGiB as real > before
      then last.allocatedGiB as real else before
  }

  /** A source's footprint: its largest automated backup plus all its manual ones. */
  function Footprint(snaps: seq<Snapshot>, key: string): real {
    AutomatedMax(snaps, key) + ManualSum(snaps, key)
  }

  /** No snapshot makes a footprint, and hence the estimate, smaller. */
  lemma FootprintGrows(snaps: seq<Snapshot>, snap: Snapshot, key: string)
    ensures Footprint(snaps, key) <= Footprint(snaps + [snap], key) <= Footprint(snaps, key) + snap.allocatedGiB as real
  {
    hide Trim, IsManual, Counted, SourceKey;
    assert (snaps + [snap])[..|snaps|] == snaps;
  }

  datatype Estimate = Estimate(automatedMaxGiB: real, manualSumGiB: real)

  ghost predicate EstimatesOf(bySource: map<string, Estimate>, snaps: seq<Snapshot>) {
    forall key ::
      if key in bySource then bySource[key] == Estimate(AutomatedMax(snaps, key), ManualSum(snaps, key))
      else Footprint(snaps, key) == 0.0
  }

  /** addSnapshotToBackupEstimate. */
  function AddSnapshot(bySource: map<string, Estimate>, snap: Snapshot): map<string, Estimate> {
    if !Counted(snap) then bySource
    else
      var key := SourceKey(snap);
      var size := snap.allocatedGiB as real;
      var e := if key in bySource then bySource[key] else Estimate(0.0, 0.0);
      bySource[key := if IsManual(snap) then e.(manualSumGiB := e.manualSumGiB + size)
                      else if size > e.automatedMaxGiB then e.(automatedMaxGiB := size) else e]
  }

  lemma AddKeepsEstimates(bySource: map<string, Estimate>, snaps: seq<Snapshot>, snap: Snapshot)
    requires EstimatesOf(bySource, snaps)
    ensures EstimatesOf(AddSnapshot(bySource, snap), snaps + [snap])
  {
    hide Trim, IsManual, Counted, SourceKey;
    assert (snaps + [snap])[..|snaps|] == snaps;
    forall key
      ensures AutomatedMax(snaps, key) >= 0.0 && ManualSum(snaps, key) >= 0.0
    {
    }
  }

  /** Rows with every source's footprint, in some order, zero footprints left out. */
  ghost predicate FootprintRows(rows: seq<Item>, snaps: seq<Snapshot>) {
    Compact(rows) && forall key :: KeySum(rows, key) == Footprint(snaps, key)
  }

  /** The estimate does not depend on the order in which sources are visited. */
  lemma EstimateIsUnique(a: seq<Item>, b: seq<Item>, snaps: seq<Snapshot>)
    requires FootprintRows(a, snaps) && FootprintRows(b, snaps)
    ensures SumAll(a) == SumAll(b)
  {
    hide KeySum, Footprint, Compact;
    SameChargesSameSum(a, b);
  }

  /** estimateBackupStorageGiB: the sum of all footprints, sources in any order. */
  method EstimateBackupStorage(snaps: seq<Snapshot>) returns (total: real)
    ensures exists rows :: FootprintRows(rows, snaps) && total == SumAll(rows)
  {
    hide EstimatesOf, AddSnapshot, Footprint, FootprintRows, KeySum, SumAll, Visited;
    var bySource: map<string, Estimate> := map[];
    assert snaps[..0] == [] && snaps[..|snaps|] == snaps;
    NoEstimates();
    for i := 0 to |snaps|
      invariant EstimatesOf(bySource, snaps[..i])
    {
      AddKeepsEstimates(bySource, snaps[..i], snaps[i]);
      assert snaps[..i + 1] == snaps[..i] + [snaps[i]];
      bySource := AddSnapshot(bySource, snaps[i]);
    }
    total := 0.0;
    ghost var rows: seq<Item> := [];
    NoTotal();
    NoRows();
    var keys := bySource.Keys;
    ghost var done: set<string> := {};
    while keys != {}
      invariant keys !! done && keys + done == bySource.Keys && total == SumAll(rows) && Visited(rows, bySource, done)
      decreases |keys|
    {
      var key :| key in keys;
      VisitOne(rows, bySource, done, key);
      keys := keys - {key};
      done := done + {key};
      var e := bySource[key];
      total := total + (e.automatedMaxGiB + e.manualSumGiB);
      if e.automatedMaxGiB + e.manualSumGiB != 0.0 {
        OneItem(rows, Item(key, e.automatedMaxGiB + e.manualSumGiB), key);
        rows := rows + [Item(key, e.automatedMaxGiB + e.manualSumGiB)];
      }
    }
    AllVisited(rows, bySource, snaps);
  }

  lemma NoEstimates()
    ensures EstimatesOf(map[], [])
  {
  }

  ghost predicate Visited(rows: seq<Item>, bySource: map<string, Estimate>, done: set<string>)
    requires done <= bySource.Keys
  {
    && Compact(rows) && (forall i :: 0 <= i < |rows| ==> rows[i].key in done)
    && forall key :: KeySum(rows, key)
        == if key in done then bySource[key].automatedMaxGiB + bySource[key].manualSumGiB else 0.0
  }

  lemma NoRows()
    ensures forall bySource: map<string, Estimate> :: Visited([], bySource, {})
  {
  }

  lemma VisitOne(rows: seq<Item>, bySource: map<string, Estimate>, done: set<string>, key: string)
    requires done <= bySource.Keys && Visited(rows, bySource, done) && key in bySource && key !in done
    ensures var amount := bySource[key].automatedMaxGiB + bySource[key].manualSumGiB;
      Visited(if amount == 0.0 then rows else rows + [Item(key, amount)], bySource, done + {key})
  {
    hide KeySum;
    var amount := bySource[key].automatedMaxGiB + bySource[key].manualSumGiB;
    forall k
      ensures KeySum(rows + [Item(key, amount)], k) == KeySum(rows, k) + if k == key then amount else 0.0
    {
      OneItem(rows, Item(key, amount), k);
    }
  }

  lemma AllVisited(rows: seq<Item>, bySource: map<string, Estimate>, snaps: seq<Snapshot>)
    requires EstimatesOf(bySource, snaps) && Visited(rows, bySource, bySource.Keys)
    ensures FootprintRows(rows, snaps)
  {
    hide KeySum, AutomatedMax, ManualSum, Compact;
  }

  // ---------------------------------------------------------------- main results

  function CostOf(records: seq<Record>): real {
    if records == [] then 0.0 else CostOf(records[..|records| - 1]) + records[|records| - 1].cost
  }

  /** The size of the billable snapshots that a filter lists. */
  function ListedBillable(snaps: seq<Snapshot>, f: Filter, ctx: RegionContext): real {
    if snaps == [] then 0.0
    else
      var last := snaps[|snaps| - 1];
      ListedBillable(snaps[..|snaps| - 1], f, ctx)
          + if Wanted(last, f) && SnapIsBillable(last, ctx) then last.allocatedGiB as real else 0.0
  }

  lemma {:induction false} ListedWithinBillable(snaps: seq<Snapshot>, f: Filter, ctx: RegionContext)
    ensures 0.0 <= ListedBillable(snaps, f, ctx) <= BillableGiB(snaps, ctx)
    ensures (forall i :: 0 <= i < |snaps| ==> SnapIsBillable(snaps[i], ctx) ==> Wanted(snaps[i], f))
              ==> ListedBillable(snaps, f, ctx) == BillableGiB(snaps, ctx)
  {
    hide SnapIsBillable, Wanted;
    if snaps != [] {
      ListedWithinBillable(snaps[..|snaps| - 1], f, ctx);
    }
  }

  lemma BillableWhenTrimmed(snap: Snapshot, ctx: RegionContext)
    ensures IsBillable(snap.kind, Trim(snap.snapshotType), snap.sourceId, ctx) <==> SnapIsBillable(snap, ctx)
  {
    hide Trim, EqualFold, SourceIsLive;
    TrimIsProjection(snap.snapshotType);
    TrimIsProjection(Trim(snap.snapshotType));
  }

  lemma ShareStep(cost: real, a: real, b: real, whole: real)
    requires whole > 0.0
    ensures cost * (a / whole) + cost * (b / whole) == cost * ((a + b) / whole)
  {
    assert a / whole + b / whole == (a + b) / whole;
  }

  ghost predicate OnlyRds(snaps: seq<Snapshot>) {
    forall i :: 0 <= i < |snaps| ==> IsRds(snaps[i].kind)
  }

  lemma ChargedSnoc(records: seq<Record>, rec: Record, ctx: RegionContext)
    ensures CostOf(ChargedAll(records + [rec], ctx)) == CostOf(ChargedAll(records, ctx)) + Charged(rec, ctx).cost
  {
    hide Charged;
    var all := ChargedAll(records + [rec], ctx);
    assert all[..|all| - 1] == ChargedAll(records, ctx);
  }

  lemma RecordShare(snap: Snapshot, ctx: RegionContext)
    requires IsRds(snap.kind) && HasCost(ctx)
    ensures Charged(RecordOf(snap), ctx).cost
         == MonthlyBackupRunRate(BillableExcess(ctx))
            * ((if SnapIsBillable(snap, ctx) then snap.allocatedGiB as real else 0.0) / ctx.billableBackupGiB)
  {
    hide IsBillable, Trim, BillableExcess, MonthlyBackupRunRate;
    BillableWhenTrimmed(snap, ctx);
    ZeroShare(MonthlyBackupRunRate(BillableExcess(ctx)), ctx.billableBackupGiB);
  }

  /** The listed snapshots share the billable excess in proportion to their size. */
  lemma {:induction false} ListedCost(snaps: seq<Snapshot>, f: Filter, ctx: RegionContext)
    requires OnlyRds(snaps) && HasCost(ctx)
    ensures ctx.billableBackupGiB > 0.0
    ensures CostOf(ChargedAll(ListedRecords(snaps, f), ctx))
         == MonthlyBackupRunRate(BillableExcess(ctx)) * (ListedBillable(snaps, f, ctx) / ctx.billableBackupGiB)
  {
    hide Wanted, SnapIsBillable, RecordOf, Charged, ChargedAll, CostOf, HasCost, BillableExcess, MonthlyBackupRunRate;
    CostNeedsBillable(ctx);
    var cost := MonthlyBackupRunRate(BillableExcess(ctx));
    ZeroShare(cost, ctx.billableBackupGiB);
    if snaps == [] {
      NothingListed(ctx);
    } else {
      var front, last := snaps[..|snaps| - 1], snaps[|snaps| - 1];
      ListedCost(front, f, ctx);
      if Wanted(last, f) {
        RecordShare(last, ctx);
        ChargedSnoc(ListedRecords(front, f), RecordOf(last), ctx);
        ShareStep(cost, ListedBillable(front, f, ctx),
                  if SnapIsBillable(last, ctx) then last.allocatedGiB as real else 0.0,
                  ctx.billableBackupGiB);
      } else {
        assert ListedRecords(snaps, f) == ListedRecords(front, f);
      }
    }
  }

  lemma NothingListed(ctx: RegionContext)
    ensures CostOf(ChargedAll([], ctx)) == 0.0
  {
  }

  lemma CostNeedsBillable(ctx: RegionContext)
    requires HasCost(ctx)
    ensures ctx.billableBackupGiB > 0.0
  {
  }

  lemma ZeroShare(cost: real, whole: real)
    requires whole > 0.0
    ensures cost * (0.0 / whole) == 0.0
  {
  }

  lemma NoCost(records: seq<Record>, ctx: RegionContext)
    requires !HasCost(ctx) && forall i :: 0 <= i < |records| ==> IsRds(records[i].kind)
    ensures CostOf(ChargedAll(records, ctx)) == 0.0
  {
    hide HasCost;
    if records != [] {
      var front, last := records[..|records| - 1], records[|records| - 1];
      NoCost(front, ctx);
      ChargedSnoc(front, last, ctx);
      assert records == front + [last];
    }
  }

  lemma {:induction false} ListedAreRds(snaps: seq<Snapshot>, f: Filter)
    requires OnlyRds(snaps)
    ensures forall i :: 0 <= i < |ListedRecords(snaps, f)| ==> IsRds(ListedRecords(snaps, f)[i].kind)
  {
    hide Wanted, Trim;
    if snaps != [] {
      ListedAreRds(snaps[..|snaps| - 1], f);
    }
  }

  lemma PartOfShare(cost: real, part: real, whole: real)
    requires cost >= 0.0 && 0.0 <= part <= whole && whole > 0.0
    ensures cost * (part / whole) <= cost
    ensures part == whole ==> cost * (part / whole) == cost
  {
    assert part / whole <= 1.0;
  }

  lemma BillableIsPartOfExcess(ctx: RegionContext)
    ensures 0.0 <= MonthlyBackupRunRate(BillableExcess(ctx)) <= MonthlyBackupRunRate(Excess(ctx))
  {
  }

  lemma ListedShare(snaps: seq<Snapshot>, f: Filter, ctx: RegionContext)
    requires OnlyRds(snaps) && HasCost(ctx) && 0.0 <= ListedBillable(snaps, f, ctx) <= ctx.billableBackupGiB
    ensures CostOf(ChargedAll(ListedRecords(snaps, f), ctx)) <= MonthlyBackupRunRate(BillableExcess(ctx))
    ensures ListedBillable(snaps, f, ctx) == ctx.billableBackupGiB ==>
              CostOf(ChargedAll(ListedRecords(snaps, f), ctx)) == MonthlyBackupRunRate(BillableExcess(ctx))
  {
    hide ListedRecords, ChargedAll, CostOf, ListedBillable, BillableExcess, Excess, MonthlyBackupRunRate, HasCost;
    BillableIsPartOfExcess(ctx);
    var cost := MonthlyBackupRunRate(BillableExcess(ctx));
    var part := ListedBillable(snaps, f, ctx);
    ListedCost(snaps, f, ctx);
    PartOfShare(cost, part, ctx.billableBackupGiB);
    assert CostOf(ChargedAll(ListedRecords(snaps, f), ctx)) == cost * (part / ctx.billableBackupGiB);
  }

  lemma NothingToShare(ctx: RegionContext)
    requires !HasCost(ctx) && ctx.freePoolGiB >= 0.0
    ensures MonthlyBackupRunRate(BillableExcess(ctx)) == 0.0
  {
  }

  /** For any filter, the listed snapshots cost at most the rate times what is both billable and in
      excess, which is at most the region's run rate; exactly that if every billable one is listed. */
  lemma ListedWithinRunRate(snaps: seq<Snapshot>, f: Filter, ctx: RegionContext)
    requires OnlyRds(snaps) && ctx.billableBackupGiB == BillableGiB(snaps, ctx)
    ensures var listed := CostOf(ChargedAll(ListedRecords(snaps, f), ctx));
      && listed <= MonthlyBackupRunRate(BillableExcess(ctx)) <= MonthlyBackupRunRate(Excess(ctx))
      && (ctx.freePoolGiB >= 0.0
          && (forall i :: 0 <= i < |snaps| ==> SnapIsBillable(snaps[i], ctx) ==> Wanted(snaps[i], f))
          ==> listed == MonthlyBackupRunRate(BillableExcess(ctx)))
  {
    hide Wanted, SnapIsBillable, ListedRecords, ChargedAll, CostOf, ListedBillable, BillableGiB, BillableExcess, Excess,
      MonthlyBackupRunRate, HasCost;
    ListedWithinBillable(snaps, f, ctx);
    BillableIsPartOfExcess(ctx);
    if HasCost(ctx) {
      ListedShare(snaps, f, ctx);
    } else {
      ListedAreRds(snaps, f);
      NoCost(ListedRecords(snaps, f), ctx);
      if ctx.freePoolGiB >= 0.0 {
        NothingToShare(ctx);
      }
    }
  }

  lemma ScaledShare(rate: real, part: real, whole: real, size: real)
    requires rate >= 0.0 && 0.0 < part <= whole && size >= 0.0
    ensures part * rate * (size / whole) <= size * rate
  {
    var share := size / whole;
    assert share * whole == size;
    assert part * share <= whole * share;
    assert part * rate * share == (part * share) * rate;
    assert (part * share) * rate <= size * rate;
  }

  /** No snapshot is charged more than its stand-alone estimate. */
  lemma NeverAboveStandAlone(rec: Record, ctx: RegionContext)
    requires IsRds(rec.kind) && rec.sizeGiB >= 0.0
    ensures 0.0 <= Charged(rec, ctx).cost <= EstimateMonthlyCost(rec.kind, rec.sizeGiB, "")
  {
    hide IsBillable, EqualFold, Trim;
    if HasCost(ctx) {
      ScaledShare(RDS_SNAPSHOT_USD_PER_GIB_MONTH, BillableExcess(ctx), ctx.billableBackupGiB, rec.sizeGiB);
      assert rec.sizeGiB / ctx.billableBackupGiB >= 0.0;
    }
  }

  // --------------------------------------------------- what is charged to whom

  /** An automated backup of an instance or cluster that still exists. */
  predicate LiveBackup(kind: Kind, snapshotType: string, sourceId: string, ctx: RegionContext) {
    && EqualFold(Trim(snapshotType), "automated") && Trim(sourceId) != ""
    && match kind
       case RdsSnapshot => Trim(sourceId) in ctx.liveInstances
       case RdsClusterSnapshot => Trim(sourceId) in ctx.liveClusters
       case EbsSnapshot => false
  }

  lemma BillableMeans(kind: Kind, snapshotType: string, sourceId: string, ctx: RegionContext)
    requires kind != EbsSnapshot
    ensures IsBillable(kind, snapshotType, sourceId, ctx) <==> !LiveBackup(kind, snapshotType, sourceId, ctx)
  {
    hide Trim, EqualFold;
  }

  /** A region pays for what its backups take beyond the free pool, if any of it can be deleted. */
  predicate Pays(ctx: RegionContext) {
    ctx.totalBackupGiB > ctx.freePoolGiB && ctx.totalBackupGiB > 0.0 && ctx.billableBackupGiB > 0.0
  }

  /** Live backups are free, and so is everything in a region that does not pay. */
  lemma LiveBackupsAreFree(rec: Record, ctx: RegionContext)
    requires rec.kind != EbsSnapshot
    requires LiveBackup(rec.kind, rec.snapshotType, rec.sourceId, ctx) || !Pays(ctx)
    ensures Charged(rec, ctx) == rec.(cost := 0.0, basis := RdsWithinFreeTier)
  {
    hide IsBillable, LiveBackup;
    BillableMeans(rec.kind, rec.snapshotType, rec.sourceId, ctx);
  }

  /** Every other RDS record of a region that pays has its share, by size, of what the billable excess costs. */
  lemma OthersAreCharged(rec: Record, ctx: RegionContext)
    requires rec.kind != EbsSnapshot && !LiveBackup(rec.kind, rec.snapshotType, rec.sourceId, ctx) && Pays(ctx)
    ensures var excess := ctx.totalBackupGiB - ctx.freePoolGiB;
      var billable := if ctx.billableBackupGiB < excess then ctx.billableBackupGiB else excess;
      Charged(rec, ctx)
      == rec.(cost := billable * 0.095 * (rec.sizeGiB / ctx.billableBackupGiB), basis := RdsRegionalExcess)
    ensures rec.sizeGiB > 0.0 ==> Charged(rec, ctx).cost > 0.0
  {
    hide IsBillable, LiveBackup;
    BillableMeans(rec.kind, rec.snapshotType, rec.sourceId, ctx);
    var excess := ctx.totalBackupGiB - ctx.freePoolGiB;
    var billable := if ctx.billableBackupGiB < excess then ctx.billableBackupGiB else excess;
    if rec.sizeGiB > 0.0 {
      PositiveShare(billable * 0.095, rec.sizeGiB, ctx.billableBackupGiB);
    }
  }

  lemma PositiveShare(cost: real, size: real, whole: real)
    requires cost > 0.0 && size > 0.0 && whole > 0.0
    ensures cost * (size / whole) > 0.0
  {
    assert size / whole > 0.0;
  }

  lemma OtherKindsStay(rec: Record, ctx: RegionContext)
    requires rec.kind == EbsSnapshot
    ensures Charged(rec, ctx) == rec && LegacyCharged(rec) == rec
  {
  }

  /** A live backup adds nothing to what is billable, any other snapshot its full size. */
  lemma OneMoreBillable(snaps: seq<Snapshot>, snap: Snapshot, ctx: RegionContext)
    requires snap.kind != EbsSnapshot
    ensures BillableGiB(snaps + [snap], ctx)
         == BillableGiB(snaps, ctx)
            + if LiveBackup(snap.kind, snap.snapshotType, snap.sourceId, ctx) then 0.0 else snap.allocatedGiB as real
    ensures BillableGiB([], ctx) == 0.0
  {
    hide IsBillable, LiveBackup;
    BillableMeans(snap.kind, snap.snapshotType, snap.sourceId, ctx);
    assert (snaps + [snap])[..|snaps|] == snaps;
  }

  /** The stand-alone estimates, in dollars per GiB and month. */
  lemma StandAloneRates(kind: Kind, sizeGiB: real, storageTier: string)
    ensures sizeGiB <= 0.0 ==> EstimateMonthlyCost(kind, sizeGiB, storageTier) == 0.0
    ensures sizeGiB > 0.0 && kind != EbsSnapshot ==> EstimateMonthlyCost(kind, sizeGiB, storageTier) == sizeGiB * 0.095
    ensures sizeGiB > 0.0 && kind == EbsSnapshot ==>
              EstimateMonthlyCost(kind, sizeGiB, storageTier)
              == sizeGiB * if EqualFold(Trim(storageTier), "archive") then 0.0125 else 0.05
  {
    hide Trim, EqualFold;
  }

  // ------------------------------------------------------- what is listed and backed up

  /** Listed are the snapshots of a wanted kind that were created before the cutoff and have the least size, under
      their own names, with the type trimmed, and not charged yet. */
  lemma ListingMeans(snaps: seq<Snapshot>, f: Filter, i: nat)
    requires i < |snaps|
    ensures var s := snaps[i];
      var listed, before := ListedRecords(snaps[..i + 1], f), ListedRecords(snaps[..i], f);
      if s.created.None? || s.created.value >= f.cutoff || s.allocatedGiB as real < f.minSizeGiB || s.kind !in f.kinds
      then listed == before
      else
        && |listed| == |before| + 1 && listed[..|before|] == before
        && var r := listed[|before|];
        && r.kind == s.kind && r.resourceId == s.id && r.sourceId == s.sourceId
        && r.sizeGiB == s.allocatedGiB as real && r.snapshotType == Trim(s.snapshotType)
        && r.cost == 0.0 && r.basis == RdsRegionalExcess
  {
    assert snaps[..i + 1][..i] == snaps[..i];
  }

  /** A backup of a source: of the cluster or of the instance with that ID, and not empty. */
  predicate BacksUp(snap: Snapshot, ofCluster: bool, id: string) {
    id != "" && Trim(snap.sourceId) == id && (snap.kind.RdsClusterSnapshot? <==> ofCluster) && snap.allocatedGiB > 0
  }

  function KeyFor(ofCluster: bool, id: string): string {
    (if ofCluster then "cluster:" else "instance:") + id
  }

  lemma KeysDiffer(a: bool, id: string, b: bool, id': string)
    ensures KeyFor(a, id) == KeyFor(b, id') <==> a == b && id == id'
  {
    var c, i := "cluster:" + (if a then id else id'), "instance:" + (if a then id' else id);
    assert c[0] == 'c' && i[0] == 'i';
    if a == b {
      var n := if a then 8 else 9;
      assert KeyFor(a, id)[n..] == id && KeyFor(b, id')[n..] == id';
    }
  }

  /** What one more snapshot does to the footprint of a source: a manual backup adds its size, an automated one
      counts if it is the largest, and one of another source does nothing. */
  lemma FootprintMeans(snaps: seq<Snapshot>, snap: Snapshot, ofCluster: bool, id: string)
    ensures var key, size := KeyFor(ofCluster, id), snap.allocatedGiB as real;
      && ManualSum([], key) == AutomatedMax([], key) == 0.0
      && Footprint(snaps, key) == AutomatedMax(snaps, key) + ManualSum(snaps, key)
      && ManualSum(snaps + [snap], key)
         == (if BacksUp(snap, ofCluster, id) && EqualFold(Trim(snap.snapshotType), "manual")
             then ManualSum(snaps, key) + size else ManualSum(snaps, key))
      && AutomatedMax(snaps + [snap], key)
         == (if BacksUp(snap, ofCluster, id) && !EqualFold(Trim(snap.snapshotType), "manual")
                && size > AutomatedMax(snaps, key)
             then size else AutomatedMax(snaps, key))
  {
    hide Trim, EqualFold;
    assert (snaps + [snap])[..|snaps|] == snaps;
    KeysDiffer(snap.kind.RdsClusterSnapshot?, Trim(snap.sourceId), ofCluster, id);
  }
}
