/** EBS snapshot costs: what each snapshot of a volume adds to the ones before it, and the region's
    run rate. */
module EbsSnapshotCosts {
  import opened Text
  import opened Wrappers
  import opened Charges
  import opened RdsSnapshotCosts

  /** A snapshot as EC2 describes it; a missing time counts as the earliest. */
  datatype Snap = Snap(id: string, volumeId: string, start: Option<int>, fullBytes: Option<int>, volumeGiB: nat,
                       tier: string)

  datatype Charge = Charge(incrementalGiB: real, monthlyUsd: real)

  const BYTES_PER_GIB := 1073741824.0

  predicate IsArchive(snap: Snap) {
    EqualFold(Trim(snap.tier), "archive")
  }

  function FullGiB(snap: Snap): (size: real)
    ensures size >= 0.0
  {
    if snap.fullBytes.Some? && snap.fullBytes.value > 0 then
      BytesAreGiB(snap.fullBytes.value);
      snap.fullBytes.value as real / BYTES_PER_GIB
    else snap.volumeGiB as real
  }

  lemma BytesAreGiB(bytes: int)
    requires bytes > 0
    ensures bytes as real / BYTES_PER_GIB >= 0.0
  {
  }

  function MonthlyUsd(incrementalGiB: real, snap: Snap): real {
    if incrementalGiB <= 0.0 then 0.0 else EstimateMonthlyCost(EbsSnapshot, incrementalGiB, Trim(snap.tier))
  }

  // ----------------------------------------------------------------- one chain

  /** The largest full size of the identified snapshots of a chain. */
  function MaxFull(chain: seq<Snap>): (max: real)
    ensures max >= 0.0
  {
    if chain == [] then 0.0
    else
      var last := chain[|chain| - 1];
      var before := MaxFull(chain[..|chain| - 1]);
      if last.id != "" && FullGiB(last) > before then FullGiB(last) else before
  }

  /** What a snapshot adds after a chain: an archived one its full size, any other what exceeds the
      largest before it. */
  function Increment(before: seq<Snap>, snap: Snap): real {
    if IsArchive(snap) then FullGiB(snap)
    else if FullGiB(snap) - MaxFull(before) < 0.0 then 0.0
    else FullGiB(snap) - MaxFull(before)
  }

  datatype Entry = Entry(id: string, charge: Charge, archived: bool)

  function EntryOf(gib: real, snap: Snap): Entry {
    Entry(snap.id, Charge(gib, MonthlyUsd(gib, snap)), IsArchive(snap))
  }

  /** The charges of a chain, in order; unidentified snapshots are skipped. */
  function ChainEntries(chain: seq<Snap>): seq<Entry> {
    if chain == [] then []
    else
      var front, last := chain[..|chain| - 1], chain[|chain| - 1];
      ChainEntries(front) + if last.id == "" then [] else [EntryOf(Increment(front, last), last)]
  }

  function StandardGiB(entries: seq<Entry>): real {
    if entries == [] then 0.0
    else
      var last := entries[|entries| - 1];
      StandardGiB(entries[..|entries| - 1]) + if last.archived then 0.0 else last.charge.incrementalGiB
  }

  lemma StandardSnoc(entries: seq<Entry>, e: Entry)
    ensures StandardGiB(entries + [e]) == StandardGiB(entries) + if e.archived then 0.0 else e.charge.incrementalGiB
  {
    assert (entries + [e])[..|entries|] == entries;
  }

  ghost predicate NoneArchived(chain: seq<Snap>) {
    forall i :: 0 <= i < |chain| ==> chain[i].id != "" ==> !IsArchive(chain[i])
  }

  lemma EmptyChain()
    ensures ChainEntries([]) == [] && StandardGiB([]) == 0.0 && MaxFull([]) == 0.0
  {
  }

  lemma ChainStep(chain: seq<Snap>)
    requires chain != []
    ensures var front, last := chain[..|chain| - 1], chain[|chain| - 1];
      && ChainEntries(chain)
          == (if last.id == "" then ChainEntries(front)
              else ChainEntries(front) + [EntryOf(Increment(front, last), last)])
      && MaxFull(chain) == (if last.id == "" || FullGiB(last) <= MaxFull(front) then MaxFull(front) else FullGiB(last))
  {
    hide EntryOf, Increment, FullGiB;
    var front := ChainEntries(chain[..|chain| - 1]);
    assert front + [] == front;
  }

  /** Increments telescope, in whatever order the snapshots come: those outside the archive add up to
      at most the largest full size, and to exactly that if nothing is archived. */
  lemma {:induction false} IncrementsTelescope(chain: seq<Snap>)
    ensures StandardGiB(ChainEntries(chain)) <= MaxFull(chain)
    ensures NoneArchived(chain) ==> StandardGiB(ChainEntries(chain)) == MaxFull(chain)
    ensures forall i :: 0 <= i < |ChainEntries(chain)| ==> ChainEntries(chain)[i].charge.incrementalGiB >= 0.0
  {
    hide FullGiB, IsArchive, MonthlyUsd, StandardGiB, ChainEntries, MaxFull;
    if chain == [] {
      EmptyChain();
    } else {
      var front, last := chain[..|chain| - 1], chain[|chain| - 1];
      IncrementsTelescope(front);
      ChainStep(chain);
      StandardSnoc(ChainEntries(front), EntryOf(Increment(front, last), last));
      assert NoneArchived(chain) ==> NoneArchived(front) && (last.id != "" ==> !IsArchive(last));
    }
  }

  ghost predicate SameSnaps(a: seq<Snap>, b: seq<Snap>) {
    forall snap :: snap in a <==> snap in b
  }

  lemma {:induction false} MaxFullIsAttained(chain: seq<Snap>)
    ensures forall i :: 0 <= i < |chain| ==> chain[i].id != "" ==> FullGiB(chain[i]) <= MaxFull(chain)
    ensures MaxFull(chain) == 0.0
            || exists i :: 0 <= i < |chain| && chain[i].id != "" && FullGiB(chain[i]) == MaxFull(chain)
  {
    hide FullGiB;
    if chain != [] {
      var front, last := chain[..|chain| - 1], chain[|chain| - 1];
      MaxFullIsAttained(front);
      if MaxFull(front) != 0.0 && MaxFull(chain) == MaxFull(front) {
        var i :| 0 <= i < |front| && front[i].id != "" && FullGiB(front[i]) == MaxFull(front);
        assert chain[i] == front[i];
      }
    }
  }

  lemma MaxFullBound(a: seq<Snap>, b: seq<Snap>)
    requires SameSnaps(a, b)
    ensures MaxFull(a) <= MaxFull(b)
  {
    hide FullGiB, MaxFull;
    MaxFullIsAttained(a);
    MaxFullIsAttained(b);
    if MaxFull(a) != 0.0 {
      var i :| 0 <= i < |a| && a[i].id != "" && FullGiB(a[i]) == MaxFull(a);
      assert a[i] in b;
      var j :| 0 <= j < |b| && b[j] == a[i];
    }
  }

  /** So the order of equal timestamps makes no difference to a volume's total when nothing is archived. */
  lemma OrderMakesNoDifference(a: seq<Snap>, b: seq<Snap>)
    requires SameSnaps(a, b) && NoneArchived(a) && NoneArchived(b)
    ensures StandardGiB(ChainEntries(a)) == StandardGiB(ChainEntries(b))
  {
    hide MaxFull, ChainEntries, StandardGiB, IsArchive;
    IncrementsTelescope(a);
    IncrementsTelescope(b);
    MaxFullBound(a, b);
    MaxFullBound(b, a);
  }

  // ------------------------------------------------------------ all the charges

  /** A table of charges; an ID charged again is overwritten. */
  function Tabulate(entries: seq<Entry>): map<string, Charge> {
    if entries == [] then map[]
    else Tabulate(entries[..|entries| - 1])[entries[|entries| - 1].id := entries[|entries| - 1].charge]
  }

  lemma TabulateSnoc(entries: seq<Entry>, e: Entry)
    ensures Tabulate(entries + [e]) == Tabulate(entries)[e.id := e.charge]
  {
    assert (entries + [e])[..|entries|] == entries;
  }

  function OfVolume(snaps: seq<Snap>, volumeId: string): seq<Snap> {
    if snaps == [] then []
    else
      var last := snaps[|snaps| - 1];
      OfVolume(snaps[..|snaps| - 1], volumeId) + if Trim(last.volumeId) == volumeId then [last] else []
  }

  predicate Earlier(a: Snap, b: Snap) {
    b.start.Some? && (a.start.None? || a.start.value < b.start.value)
  }

  ghost predicate ByTime(chain: seq<Snap>) {
    forall i, j :: 0 <= i < j < |chain| ==> !Earlier(chain[j], chain[i])
  }

  /** A volume's chain: its snapshots by start time, those of equal time in any order. */
  ghost predicate IsChain(chain: seq<Snap>, snaps: seq<Snap>, volumeId: string) {
    multiset(chain) == multiset(OfVolume(snaps, volumeId)) && ByTime(chain)
  }

  ghost predicate AreChains(chains: seq<seq<Snap>>, volumes: seq<string>, snaps: seq<Snap>) {
    |chains| == |volumes| && forall v :: 0 <= v < |volumes| ==> IsChain(chains[v], snaps, volumes[v])
  }

  function AllChains(chains: seq<seq<Snap>>): seq<Entry> {
    if chains == [] then [] else AllChains(chains[..|chains| - 1]) + ChainEntries(chains[|chains| - 1])
  }

  /** Snapshots without a volume stand alone. */
  function OrphanEntries(orphans: seq<Snap>): seq<Entry> {
    if orphans == [] then []
    else
      var last := orphans[|orphans| - 1];
      OrphanEntries(orphans[..|orphans| - 1]) + if last.id == "" then [] else [EntryOf(FullGiB(last), last)]
  }

  function InsertByTime(snap: Snap, chain: seq<Snap>): seq<Snap> {
    if chain == [] then [snap]
    else if Earlier(snap, chain[|chain| - 1]) then InsertByTime(snap, chain[..|chain| - 1]) + [chain[|chain| - 1]]
    else chain + [snap]
  }

  function SortByTime(snaps: seq<Snap>): seq<Snap> {
    if snaps == [] then [] else InsertByTime(snaps[|snaps| - 1], SortByTime(snaps[..|snaps| - 1]))
  }

  lemma {:induction false} InsertByTimeSameSnaps(snap: Snap, chain: seq<Snap>)
    ensures multiset(InsertByTime(snap, chain)) == multiset(chain) + multiset{snap}
  {
    hide Earlier;
    if chain != [] {
      assert chain == chain[..|chain| - 1] + [chain[|chain| - 1]];
      InsertByTimeSameSnaps(snap, chain[..|chain| - 1]);
    }
  }

  lemma {:induction false} InsertByTimeKeeps(snap: Snap, chain: seq<Snap>)
    requires ByTime(chain)
    ensures forall x :: x in InsertByTime(snap, chain) ==> x in chain || x == snap
    ensures ByTime(InsertByTime(snap, chain))
  {
    if chain != [] {
      var front, last := chain[..|chain| - 1], chain[|chain| - 1];
      if Earlier(snap, last) {
        InsertByTimeKeeps(snap, front);
        forall x | x in front
          ensures !Earlier(last, x)
        {
          var i :| 0 <= i < |front| && front[i] == x;
          assert chain[i] == x;
        }
      } else {
        forall i | 0 <= i < |chain|
          ensures !Earlier(snap, chain[i])
        {
        }
      }
    }
  }

  lemma {:induction false} SortByTimeKeeps(snaps: seq<Snap>)
    ensures multiset(SortByTime(snaps)) == multiset(snaps) && ByTime(SortByTime(snaps))
  {
    hide Earlier, InsertByTime;
    if snaps != [] {
      assert snaps == snaps[..|snaps| - 1] + [snaps[|snaps| - 1]];
      SortByTimeKeeps(snaps[..|snaps| - 1]);
      InsertByTimeSameSnaps(snaps[|snaps| - 1], SortByTime(snaps[..|snaps| - 1]));
      InsertByTimeKeeps(snaps[|snaps| - 1], SortByTime(snaps[..|snaps| - 1]));
    }
  }

  /** The snapshots grouped by volume, each group in listing order. */
  ghost predicate Grouped(byVolume: map<string, seq<Snap>>, orphans: seq<Snap>, done: seq<Snap>) {
    && orphans == OfVolume(done, "") && "" !in byVolume
    && forall v :: v != "" ==> OfVolume(done, v) == if v in byVolume then byVolume[v] else []
  }

  lemma GroupStep(byVolume: map<string, seq<Snap>>, orphans: seq<Snap>, done: seq<Snap>, snap: Snap)
    requires Grouped(byVolume, orphans, done)
    ensures var v := Trim(snap.volumeId);
      if v == "" then Grouped(byVolume, orphans + [snap], done + [snap])
      else Grouped(byVolume[v := (if v in byVolume then byVolume[v] else []) + [snap]], orphans, done + [snap])
  {
    hide Trim;
    assert (done + [snap])[..|done|] == done;
    forall v
      ensures OfVolume(done + [snap], v) == OfVolume(done, v) + if Trim(snap.volumeId) == v then [snap] else []
    {
    }
  }

  function VolumeIds(snaps: seq<Snap>): set<string> {
    if snaps == [] then {}
    else
      var volumeId := Trim(snaps[|snaps| - 1].volumeId);
      VolumeIds(snaps[..|snaps| - 1]) + if volumeId == "" then {} else {volumeId}
  }

  /** The volumes of some snapshots, each once. */
  ghost predicate AreVolumes(volumes: seq<string>, snaps: seq<Snap>) {
    && (forall id :: id in volumes <==> id in VolumeIds(snaps))
    && (forall i, j :: 0 <= i < j < |volumes| ==> volumes[i] != volumes[j])
  }

  /** The charges of every volume's chain, for some order of the volumes and of equal times, and of the
      snapshots without a volume. */
  ghost predicate AreCharges(charges: map<string, Charge>, snaps: seq<Snap>) {
    exists volumes, chains :: AreVolumes(volumes, snaps) && AreChains(chains, volumes, snaps)
                              && charges == Tabulate(AllChains(chains) + OrphanEntries(OfVolume(snaps, "")))
  }

  /** computeEBSSnapshotCharges: volumes in any order, each volume's chain by start time. */
  method ComputeCharges(snaps: seq<Snap>) returns (charges: map<string, Charge>)
    ensures AreCharges(charges, snaps)
  {
    hide Grouped, Tabulate, AllChains, OrphanEntries, OfVolume, VolumeIds, AreChains;
    var byVolume, orphans := GroupByVolume(snaps);
    ghost var volumes, chains;
    charges, volumes, chains := ChargeVolumes(byVolume, orphans, snaps);
    OrphansOfGroup(byVolume, orphans, snaps);
    charges := ChargeOrphans(charges, orphans, AllChains(chains));
    assert AreVolumes(volumes, snaps);
  }

  method GroupByVolume(snaps: seq<Snap>) returns (byVolume: map<string, seq<Snap>>, orphans: seq<Snap>)
    ensures Grouped(byVolume, orphans, snaps) && byVolume.Keys == VolumeIds(snaps)
  {
    hide Grouped, Trim;
    byVolume, orphans := map[], [];
    NothingGrouped(snaps);
    for i := 0 to |snaps|
      invariant Grouped(byVolume, orphans, snaps[..i]) && byVolume.Keys == VolumeIds(snaps[..i])
    {
      assert snaps[..i + 1] == snaps[..i] + [snaps[i]] && snaps[..i + 1][..i] == snaps[..i];
      GroupStep(byVolume, orphans, snaps[..i], snaps[i]);
      var volumeId := Trim(snaps[i].volumeId);
      if volumeId == "" {
        orphans := orphans + [snaps[i]];
        continue;
      }
      byVolume := byVolume[volumeId := (if volumeId in byVolume then byVolume[volumeId] else []) + [snaps[i]]];
    }
  }

  /** The loop over the volumes, whose map is visited in any order. */
  method ChargeVolumes(byVolume: map<string, seq<Snap>>, ghost orphans: seq<Snap>, ghost snaps: seq<Snap>)
    returns (charges: map<string, Charge>, ghost volumes: seq<string>, ghost chains: seq<seq<Snap>>)
    requires Grouped(byVolume, orphans, snaps)
    ensures AreChains(chains, volumes, snaps) && charges == Tabulate(AllChains(chains))
    ensures forall v :: v in volumes <==> v in byVolume
    ensures forall i, j :: 0 <= i < j < |volumes| ==> volumes[i] != volumes[j]
  {
    hide Grouped, Tabulate, AllChains, ChainEntries, IsChain;
    charges, volumes, chains := map[], [], [];
    NoCharges();
    var pending := byVolume.Keys;
    while pending != {}
      invariant pending <= byVolume.Keys && (forall v :: v in volumes <==> v in byVolume.Keys - pending)
      invariant forall i, j :: 0 <= i < j < |volumes| ==> volumes[i] != volumes[j]
      invariant AreChains(chains, volumes, snaps)
      invariant charges == Tabulate(AllChains(chains))
      decreases |pending|
    {
      var volumeId :| volumeId in pending;
      pending := pending - {volumeId};
      var chain := SortByTime(byVolume[volumeId]);
      ChainOfGroup(byVolume, orphans, snaps, volumeId);
      forall i | 0 <= i < |volumes|
        ensures volumes[i] != volumeId
      {
        assert volumes[i] in volumes;
      }
      MoreChains(chains, chain);
      charges := ChargeChain(charges, chain, AllChains(chains));
      volumes, chains := volumes + [volumeId], chains + [chain];
    }
  }

  lemma NothingGrouped(snaps: seq<Snap>)
    ensures Grouped(map[], [], snaps[..0]) && snaps[..|snaps|] == snaps
  {
  }

  lemma NoCharges()
    ensures Tabulate(AllChains([])) == map[]
  {
  }

  lemma ChainOfGroup(byVolume: map<string, seq<Snap>>, orphans: seq<Snap>, snaps: seq<Snap>, volumeId: string)
    requires Grouped(byVolume, orphans, snaps) && volumeId in byVolume
    ensures IsChain(SortByTime(byVolume[volumeId]), snaps, volumeId)
  {
    hide ByTime, OfVolume;
    SortByTimeKeeps(byVolume[volumeId]);
  }

  lemma OrphansOfGroup(byVolume: map<string, seq<Snap>>, orphans: seq<Snap>, snaps: seq<Snap>)
    requires Grouped(byVolume, orphans, snaps)
    ensures orphans == OfVolume(snaps, "")
  {
  }

  lemma MoreChains(chains: seq<seq<Snap>>, chain: seq<Snap>)
    ensures AllChains(chains + [chain]) == AllChains(chains) + ChainEntries(chain)
  {
    assert (chains + [chain])[..|chains|] == chains;
  }

  /** The loop over one chain, carrying the largest full size so far. */
  method ChargeChain(before: map<string, Charge>, chain: seq<Snap>, ghost entries: seq<Entry>)
    returns (charges: map<string, Charge>)
    requires before == Tabulate(entries)
    ensures charges == Tabulate(entries + ChainEntries(chain))
  {
    hide Tabulate, FullGiB, IsArchive, MonthlyUsd, Trim;
    charges := before;
    var prevFullGiB := 0.0;
    assert entries + [] == entries;
    assert chain[..0] == [] && chain[..|chain|] == chain;
    for i := 0 to |chain|
      invariant prevFullGiB == MaxFull(chain[..i])
      invariant charges == Tabulate(entries + ChainEntries(chain[..i]))
    {
      assert chain[..i + 1][..i] == chain[..i];
      var snap := chain[i];
      assert ChainEntries(chain[..i]) + [] == ChainEntries(chain[..i]);
      if snap.id == "" {
        continue;
      }
      var fullGiB := FullGiB(snap);
      var incrementalGiB;
      if IsArchive(snap) {
        incrementalGiB := fullGiB;
      } else {
        incrementalGiB := fullGiB - prevFullGiB;
        if incrementalGiB < 0.0 {
          incrementalGiB := 0.0;
        }
      }
      if fullGiB > prevFullGiB {
        prevFullGiB := fullGiB;
      }
      TabulateSnoc(entries + ChainEntries(chain[..i]), EntryOf(incrementalGiB, snap));
      assert entries + ChainEntries(chain[..i]) + [EntryOf(incrementalGiB, snap)]
          == entries + (ChainEntries(chain[..i]) + [EntryOf(incrementalGiB, snap)]);
      charges := charges[snap.id := Charge(incrementalGiB, MonthlyUsd(incrementalGiB, snap))];
    }
  }

  method ChargeOrphans(before: map<string, Charge>, orphans: seq<Snap>, ghost entries: seq<Entry>)
    returns (charges: map<string, Charge>)
    requires before == Tabulate(entries)
    ensures charges == Tabulate(entries + OrphanEntries(orphans))
  {
    hide Tabulate, FullGiB, IsArchive, MonthlyUsd, Trim;
    charges := before;
    assert entries + [] == entries;
    assert orphans[..0] == [] && orphans[..|orphans|] == orphans;
    for i := 0 to |orphans|
      invariant charges == Tabulate(entries + OrphanEntries(orphans[..i]))
    {
      assert orphans[..i + 1][..i] == orphans[..i];
      var snap := orphans[i];
      assert OrphanEntries(orphans[..i]) + [] == OrphanEntries(orphans[..i]);
      if snap.id == "" {
        continue;
      }
      var fullGiB := FullGiB(snap);
      TabulateSnoc(entries + OrphanEntries(orphans[..i]), EntryOf(fullGiB, snap));
      assert entries + OrphanEntries(orphans[..i]) + [EntryOf(fullGiB, snap)]
          == entries + (OrphanEntries(orphans[..i]) + [EntryOf(fullGiB, snap)]);
      charges := charges[snap.id := Charge(fullGiB, MonthlyUsd(fullGiB, snap))];
    }
  }

  // ------------------------------------------------------------- the run rate

  ghost predicate HasRow(rows: seq<Item>, id: string) {
    exists i :: 0 <= i < |rows| && rows[i].key == id
  }

  /** One row with its cost for each of some IDs. */
  ghost predicate CostRowsFor(rows: seq<Item>, charges: map<string, Charge>, ids: set<string>) {
    && (forall i, j :: 0 <= i < j < |rows| ==> rows[i].key != rows[j].key)
    && (forall i :: 0 <= i < |rows| ==>
        rows[i].key in ids && rows[i].key in charges && rows[i].amount == charges[rows[i].key].monthlyUsd)
    && (forall id :: id in ids ==> HasRow(rows, id))
  }

  ghost predicate CostRows(rows: seq<Item>, charges: map<string, Charge>) {
    CostRowsFor(rows, charges, charges.Keys)
  }

  lemma OneMoreRow(rows: seq<Item>, charges: map<string, Charge>, ids: set<string>, id: string)
    requires CostRowsFor(rows, charges, ids) && id in charges && id !in ids
    ensures CostRowsFor(rows + [Item(id, charges[id].monthlyUsd)], charges, ids + {id})
  {
    var grown := rows + [Item(id, charges[id].monthlyUsd)];
    assert grown[|rows|].key == id;
    forall x | x in ids
      ensures HasRow(grown, x)
    {
      var i :| 0 <= i < |rows| && rows[i].key == x;
      assert grown[i].key == x;
    }
  }

  lemma NoCostRows(charges: map<string, Charge>)
    ensures CostRowsFor([], charges, {})
  {
  }

  /** ebsRegionalMonthlyCostUSD: charges in any order. */
  method RegionalMonthlyCost(charges: map<string, Charge>) returns (total: real)
    ensures exists rows :: CostRows(rows, charges) && total == SumAll(rows)
  {
    hide SumAll, CostRowsFor;
    ghost var rows: seq<Item> := [];
    total := 0.0;
    NoTotal();
    NoCostRows(charges);
    var keys := charges.Keys;
    ghost var done: set<string> := {};
    while keys != {}
      invariant keys !! done && keys + done == charges.Keys && total == SumAll(rows) && CostRowsFor(rows, charges, done)
      decreases |keys|
    {
      var id :| id in keys;
      keys := keys - {id};
      OneItem(rows, Item(id, charges[id].monthlyUsd), id);
      OneMoreRow(rows, charges, done, id);
      done := done + {id};
      total := total + charges[id].monthlyUsd;
      rows := rows + [Item(id, charges[id].monthlyUsd)];
    }
    assert CostRows(rows, charges);
  }

  // ------------------------------------------------------------- listed records

  predicate Listed(snap: Snap, f: Filter) {
    snap.start.Some? && snap.start.value < f.cutoff && snap.volumeGiB as real >= f.minSizeGiB
  }

  /** applyEBSChargeToRecord: nothing without a charge. */
  function ListedCost(snap: Snap, charges: map<string, Charge>): real {
    if snap.id in charges then charges[snap.id].monthlyUsd else 0.0
  }

  /** Each listed snapshot's cost, by ID. */
  function ListedItems(snaps: seq<Snap>, f: Filter, charges: map<string, Charge>): seq<Item> {
    if snaps == [] then []
    else
      var last := snaps[|snaps| - 1];
      ListedItems(snaps[..|snaps| - 1], f, charges)
          + if Listed(last, f) then [Item(last.id, ListedCost(last, charges))] else []
  }

  function CostTo(charges: map<string, Charge>, id: string): real {
    if id in charges then charges[id].monthlyUsd else 0.0
  }

  /** How often a filter lists an ID. */
  function Times(snaps: seq<Snap>, f: Filter, id: string): nat {
    if snaps == [] then 0
    else
      var last := snaps[|snaps| - 1];
      Times(snaps[..|snaps| - 1], f, id) + if Listed(last, f) && last.id == id then 1 else 0
  }

  lemma OneMore(n: nat, c: real)
    ensures (n + 1) as real * c == n as real * c + c
  {
  }

  lemma NothingListed(f: Filter, charges: map<string, Charge>, id: string)
    ensures KeySum(ListedItems([], f, charges), id) == 0.0 && Times([], f, id) == 0
    ensures Times([], f, id) as real * CostTo(charges, id) == 0.0
  {
  }

  lemma ListedStep(snaps: seq<Snap>, f: Filter, charges: map<string, Charge>, id: string)
    requires snaps != []
    ensures var front, last := snaps[..|snaps| - 1], snaps[|snaps| - 1];
      && KeySum(ListedItems(snaps, f, charges), id)
         == KeySum(ListedItems(front, f, charges), id)
             + (if Listed(last, f) && last.id == id then CostTo(charges, id) else 0.0)
      && Times(snaps, f, id) == Times(front, f, id) + (if Listed(last, f) && last.id == id then 1 else 0)
  {
    hide Listed, KeySum;
    var front, last := ListedItems(snaps[..|snaps| - 1], f, charges), snaps[|snaps| - 1];
    OneItem(front, Item(last.id, ListedCost(last, charges)), id);
    assert front + [] == front;
  }

  lemma {:induction false} ListedTimes(snaps: seq<Snap>, f: Filter, charges: map<string, Charge>, id: string)
    ensures KeySum(ListedItems(snaps, f, charges), id) == Times(snaps, f, id) as real * CostTo(charges, id)
  {
    hide Listed, KeySum, ListedItems, Times, CostTo;
    if snaps == [] {
      NothingListed(f, charges, id);
    } else {
      ListedTimes(snaps[..|snaps| - 1], f, charges, id);
      ListedStep(snaps, f, charges, id);
      OneMore(Times(snaps[..|snaps| - 1], f, id), CostTo(charges, id));
    }
  }

  /** The run rate does not depend on the order in which charges are added. */
  lemma RunRateIsUnique(a: seq<Item>, b: seq<Item>, charges: map<string, Charge>)
    requires CostRows(a, charges) && CostRows(b, charges)
    ensures SumAll(a) == SumAll(b)
  {
    hide KeySum, CostRows;
    forall id
      ensures KeySum(a, id) == KeySum(b, id)
    {
      RunRateOf(a, charges, id);
      RunRateOf(b, charges, id);
    }
    SameChargesSameSum(a, b);
  }

  lemma RunRateOf(rows: seq<Item>, charges: map<string, Charge>, id: string)
    requires CostRows(rows, charges)
    ensures KeySum(rows, id) == CostTo(charges, id)
  {
    if id in charges {
      assert HasRow(rows, id);
      var i :| 0 <= i < |rows| && rows[i].key == id;
      DistinctRow(rows, i);
    } else {
      AbsentKey(rows, id);
    }
  }

  lemma {:induction false} DistinctRow(rows: seq<Item>, i: nat)
    requires (forall i, j :: 0 <= i < j < |rows| ==> rows[i].key != rows[j].key) && i < |rows|
    ensures KeySum(rows, rows[i].key) == rows[i].amount
  {
    var front := rows[..|rows| - 1];
    if i == |rows| - 1 {
      AbsentKey(front, rows[i].key);
    } else {
      DistinctRow(front, i);
    }
  }

  /** Charging no key more means charging no more in total; and less, if one key is charged less. */
  lemma {:induction false} DominatedSum(a: seq<Item>, b: seq<Item>)
    requires forall key :: KeySum(a, key) <= KeySum(b, key)
    ensures SumAll(a) <= SumAll(b)
    ensures (exists key :: KeySum(a, key) < KeySum(b, key)) ==> SumAll(a) < SumAll(b)
    decreases |a| + |b|
  {
    hide Without, KeySum;
    if a == [] && b == [] {
      NothingCharged();
    } else {
      var key := if a != [] then a[0].key else b[0].key;
      if a != [] {
        WithoutShrinks(a, 0);
      } else {
        WithoutShrinks(b, 0);
      }
      forall other
        ensures KeySum(Without(a, key), other) == if other == key then 0.0 else KeySum(a, other)
        ensures KeySum(Without(b, key), other) == if other == key then 0.0 else KeySum(b, other)
      {
        WithoutKey(a, key, other);
        WithoutKey(b, key, other);
      }
      DominatedSum(Without(a, key), Without(b, key));
      SplitOffKey(a, key);
      SplitOffKey(b, key);
      if exists k :: KeySum(a, k) < KeySum(b, k) {
        var k :| KeySum(a, k) < KeySum(b, k);
        if k != key {
          assert KeySum(Without(a, key), k) < KeySum(Without(b, key), k);
        }
      }
    }
  }

  lemma NothingCharged()
    ensures forall key :: KeySum([], key) == 0.0
  {
  }

  ghost predicate NoNegativeCost(charges: map<string, Charge>) {
    forall id :: id in charges ==> charges[id].monthlyUsd >= 0.0
  }

  /** No ID that costs something is listed twice. */
  ghost predicate CountedOnce(snaps: seq<Snap>, f: Filter, charges: map<string, Charge>) {
    forall id :: CostTo(charges, id) > 0.0 ==> Times(snaps, f, id) <= 1
  }

  /** Every ID that costs something is listed. */
  ghost predicate CountedAll(snaps: seq<Snap>, f: Filter, charges: map<string, Charge>) {
    forall id :: CostTo(charges, id) > 0.0 ==> Times(snaps, f, id) >= 1
  }

  lemma Scaled(n: nat, c: real)
    requires c >= 0.0
    ensures n <= 1 ==> n as real * c <= c
    ensures n >= 1 ==> n as real * c >= c
    ensures n >= 2 && c > 0.0 ==> n as real * c > c
    ensures c == 0.0 ==> n as real * c == 0.0
  {
    if n >= 1 {
      assert n as real * c == c + (n - 1) as real * c;
      assert (n - 1) as real * c >= 0.0;
      if n >= 2 && c > 0.0 {
        assert (n - 1) as real * c > 0.0;
      }
    }
  }

  /** For any filter: if IDs are listed once, the listed snapshots cost at most the region's run rate. */
  lemma ListedWithinRunRate(snaps: seq<Snap>, f: Filter, charges: map<string, Charge>, rows: seq<Item>)
    requires CostRows(rows, charges) && NoNegativeCost(charges) && CountedOnce(snaps, f, charges)
    ensures SumAll(ListedItems(snaps, f, charges)) <= SumAll(rows)
  {
    hide KeySum, Times, ListedItems, CostRows;
    forall id
      ensures KeySum(ListedItems(snaps, f, charges), id) <= KeySum(rows, id)
    {
      ListedTimes(snaps, f, charges, id);
      RunRateOf(rows, charges, id);
      Scaled(Times(snaps, f, id), CostTo(charges, id));
    }
    DominatedSum(ListedItems(snaps, f, charges), rows);
  }

  /** When everything that costs something is listed, that is also necessary: the listed cost stays
      within the run rate if and only if no such ID is listed twice. */
  lemma ListedWithinRunRateIff(snaps: seq<Snap>, f: Filter, charges: map<string, Charge>, rows: seq<Item>)
    requires CostRows(rows, charges) && NoNegativeCost(charges) && CountedAll(snaps, f, charges)
    ensures SumAll(ListedItems(snaps, f, charges)) <= SumAll(rows) <==> CountedOnce(snaps, f, charges)
  {
    hide KeySum, Times, ListedItems, CostRows;
    if CountedOnce(snaps, f, charges) {
      ListedWithinRunRate(snaps, f, charges, rows);
    } else {
      var dup :| CostTo(charges, dup) > 0.0 && Times(snaps, f, dup) > 1;
      forall id
        ensures KeySum(rows, id) <= KeySum(ListedItems(snaps, f, charges), id)
      {
        ListedTimes(snaps, f, charges, id);
        RunRateOf(rows, charges, id);
        Scaled(Times(snaps, f, id), CostTo(charges, id));
      }
      RepeatCostsMore(snaps, f, charges, rows, dup);
      DominatedSum(rows, ListedItems(snaps, f, charges));
    }
  }

  lemma RepeatCostsMore(snaps: seq<Snap>, f: Filter, charges: map<string, Charge>, rows: seq<Item>, id: string)
    requires CostRows(rows, charges) && CostTo(charges, id) > 0.0 && Times(snaps, f, id) >= 2
    ensures KeySum(rows, id) < KeySum(ListedItems(snaps, f, charges), id)
  {
    hide KeySum, Times, ListedItems, CostRows, CostTo;
    ListedTimes(snaps, f, charges, id);
    RunRateOf(rows, charges, id);
    Scaled(Times(snaps, f, id), CostTo(charges, id));
  }

  lemma {:induction false} DistinctIdsListedOnce(snaps: seq<Snap>, f: Filter, id: string)
    requires id != "" && forall i, j :: 0 <= i < j < |snaps| ==> snaps[i].id != snaps[j].id || snaps[i].id == ""
    ensures Times(snaps, f, id) <= 1
    ensures (forall i :: 0 <= i < |snaps| ==> snaps[i].id != id) ==> Times(snaps, f, id) == 0
  {
    hide Listed;
    if snaps != [] {
      DistinctIdsListedOnce(snaps[..|snaps| - 1], f, id);
    }
  }

  /** How often an ID occurs, listed or not. */
  function Occurs(snaps: seq<Snap>, id: string): nat {
    if snaps == [] then 0
    else Occurs(snaps[..|snaps| - 1], id) + if snaps[|snaps| - 1].id == id then 1 else 0
  }

  ghost predicate AllStarted(snaps: seq<Snap>) {
    forall i :: 0 <= i < |snaps| ==> snaps[i].id != "" ==> snaps[i].start.Some?
  }

  /** A moment after every start time. */
  function After(snaps: seq<Snap>): (cutoff: int)
    ensures forall i :: 0 <= i < |snaps| && snaps[i].start.Some? ==> snaps[i].start.value < cutoff
  {
    if snaps == [] then 0
    else
      var last, before := snaps[|snaps| - 1], After(snaps[..|snaps| - 1]);
      if last.start.Some? && last.start.value >= before then last.start.value + 1 else before
  }

  /** The filter that leaves no identified snapshot out. */
  function Everything(snaps: seq<Snap>): Filter {
    Filter(After(snaps), 0.0, {})
  }

  lemma {:induction false} TimesUpToOccurs(snaps: seq<Snap>, f: Filter, id: string)
    ensures Times(snaps, f, id) <= Occurs(snaps, id)
    ensures (forall i :: 0 <= i < |snaps| && snaps[i].id == id ==> Listed(snaps[i], f)) ==>
              Times(snaps, f, id) == Occurs(snaps, id)
  {
    hide Listed;
    if snaps != [] {
      TimesUpToOccurs(snaps[..|snaps| - 1], f, id);
    }
  }

  lemma {:induction false} OccursIfPresent(snaps: seq<Snap>, i: nat)
    requires i < |snaps|
    ensures Occurs(snaps, snaps[i].id) >= 1
  {
    if i < |snaps| - 1 {
      OccursIfPresent(snaps[..|snaps| - 1], i);
    }
  }

  ghost predicate ComeFrom(entries: seq<Entry>, snaps: seq<Snap>) {
    forall i :: 0 <= i < |entries| ==> Occurs(snaps, entries[i].id) >= 1
  }

  lemma ComeFromAppend(a: seq<Entry>, b: seq<Entry>, snaps: seq<Snap>)
    requires ComeFrom(a, snaps) && ComeFrom(b, snaps)
    ensures ComeFrom(a + b, snaps)
  {
  }

  ghost predicate AllIn(some: seq<Snap>, snaps: seq<Snap>) {
    forall snap :: snap in some ==> snap in snaps
  }

  lemma OccursIfIn(snap: Snap, snaps: seq<Snap>)
    requires snap in snaps
    ensures Occurs(snaps, snap.id) >= 1
  {
    var i :| 0 <= i < |snaps| && snaps[i] == snap;
    OccursIfPresent(snaps, i);
  }

  lemma {:induction false} ChainComesFrom(chain: seq<Snap>, snaps: seq<Snap>)
    requires AllIn(chain, snaps)
    ensures ComeFrom(ChainEntries(chain), snaps)
  {
    hide Occurs, MonthlyUsd, Increment, IsArchive;
    if chain != [] {
      ChainComesFrom(chain[..|chain| - 1], snaps);
      OccursIfIn(chain[|chain| - 1], snaps);
    }
  }

  lemma {:induction false} OrphansComeFrom(orphans: seq<Snap>, snaps: seq<Snap>)
    requires AllIn(orphans, snaps)
    ensures ComeFrom(OrphanEntries(orphans), snaps)
  {
    hide Occurs, MonthlyUsd, FullGiB, IsArchive;
    if orphans != [] {
      OrphansComeFrom(orphans[..|orphans| - 1], snaps);
      OccursIfIn(orphans[|orphans| - 1], snaps);
    }
  }

  lemma {:induction false} OfVolumeIn(snaps: seq<Snap>, volumeId: string)
    ensures AllIn(OfVolume(snaps, volumeId), snaps)
  {
    hide Trim;
    if snaps != [] {
      OfVolumeIn(snaps[..|snaps| - 1], volumeId);
    }
  }

  lemma ChainIn(chain: seq<Snap>, snaps: seq<Snap>, volumeId: string)
    requires IsChain(chain, snaps, volumeId)
    ensures AllIn(chain, snaps)
  {
    hide OfVolume, ByTime;
    OfVolumeIn(snaps, volumeId);
    forall snap | snap in chain
      ensures snap in snaps
    {
      assert snap in multiset(chain);
      assert snap in OfVolume(snaps, volumeId);
    }
  }

  lemma {:induction false} ChainsComeFrom(chains: seq<seq<Snap>>, volumes: seq<string>, snaps: seq<Snap>)
    requires AreChains(chains, volumes, snaps)
    ensures ComeFrom(AllChains(chains), snaps)
  {
    hide ComeFrom, ChainEntries, IsChain;
    if chains == [] {
      NothingComesFrom(snaps);
    } else {
      var n := |chains| - 1;
      ChainsComeFrom(chains[..n], volumes[..n], snaps);
      assert IsChain(chains[n], snaps, volumes[n]);
      ChainIn(chains[n], snaps, volumes[n]);
      ChainComesFrom(chains[n], snaps);
      ComeFromAppend(AllChains(chains[..n]), ChainEntries(chains[n]), snaps);
    }
  }

  lemma NothingComesFrom(snaps: seq<Snap>)
    ensures ComeFrom([], snaps)
  {
  }

  lemma {:induction false} TabulatedOccur(entries: seq<Entry>, snaps: seq<Snap>)
    requires ComeFrom(entries, snaps)
    ensures forall id :: id in Tabulate(entries) ==> Occurs(snaps, id) >= 1
  {
    hide Occurs;
    if entries != [] {
      TabulatedOccur(entries[..|entries| - 1], snaps);
    }
  }

  /** Computed charges are never negative and name only IDs that occur. */
  lemma ComputedCharges(charges: map<string, Charge>, snaps: seq<Snap>)
    requires AreCharges(charges, snaps)
    ensures NoNegativeCost(charges) && "" !in charges
    ensures forall id :: id in charges ==> Occurs(snaps, id) >= 1
  {
    hide AreVolumes, AreChains, Tabulate, AllChains, OrphanEntries, OfVolume, NoNegativeCost, ComeFrom, Occurs, AllIn;
    var volumes, chains :| AreVolumes(volumes, snaps) && AreChains(chains, volumes, snaps)
                           && charges == Tabulate(AllChains(chains) + OrphanEntries(OfVolume(snaps, "")));
    ComputedAreProper(chains, snaps);
    ChainsComeFrom(chains, volumes, snaps);
    OfVolumeIn(snaps, "");
    OrphansComeFrom(OfVolume(snaps, ""), snaps);
    ComeFromAppend(AllChains(chains), OrphanEntries(OfVolume(snaps, "")), snaps);
    TabulatedOccur(AllChains(chains) + OrphanEntries(OfVolume(snaps, "")), snaps);
  }

  ghost predicate AlwaysWithinRunRate(snaps: seq<Snap>, charges: map<string, Charge>, rows: seq<Item>) {
    forall f :: SumAll(ListedItems(snaps, f, charges)) <= SumAll(rows)
  }

  /** No ID that costs something occurs twice. */
  ghost predicate NoCostlyRepeat(snaps: seq<Snap>, charges: map<string, Charge>) {
    forall id :: CostTo(charges, id) > 0.0 ==> Occurs(snaps, id) <= 1
  }

  lemma NoRepeatListedOnce(snaps: seq<Snap>, f: Filter, charges: map<string, Charge>)
    requires NoCostlyRepeat(snaps, charges)
    ensures CountedOnce(snaps, f, charges)
  {
    hide Times, Occurs, CostTo, Listed;
    forall id | CostTo(charges, id) > 0.0
      ensures Times(snaps, f, id) <= 1
    {
      TimesUpToOccurs(snaps, f, id);
    }
  }

  lemma EverythingListed(snaps: seq<Snap>, id: string)
    requires AllStarted(snaps) && id != ""
    ensures Times(snaps, Everything(snaps), id) == Occurs(snaps, id)
  {
    hide Times, Occurs;
    TimesUpToOccurs(snaps, Everything(snaps), id);
  }

  lemma EverythingCounted(snaps: seq<Snap>, charges: map<string, Charge>)
    requires AreCharges(charges, snaps) && AllStarted(snaps)
    ensures CountedAll(snaps, Everything(snaps), charges)
    ensures CountedOnce(snaps, Everything(snaps), charges) ==> NoCostlyRepeat(snaps, charges)
  {
    hide Times, Occurs, Everything, AreCharges, AllStarted, NoNegativeCost;
    ComputedCharges(charges, snaps);
    forall id | CostTo(charges, id) > 0.0
      ensures Times(snaps, Everything(snaps), id) == Occurs(snaps, id) >= 1
    {
      EverythingListed(snaps, id);
    }
  }

  /** For the charges computed from snapshots that all have a start time: the listed cost stays within
      the run rate under every filter if and only if no ID that costs something occurs twice. */
  lemma AlwaysWithinRunRateIff(snaps: seq<Snap>, charges: map<string, Charge>, rows: seq<Item>)
    requires AreCharges(charges, snaps) && CostRows(rows, charges) && AllStarted(snaps)
    ensures AlwaysWithinRunRate(snaps, charges, rows) <==> NoCostlyRepeat(snaps, charges)
  {
    hide ListedItems, SumAll, CostRows, AreCharges, AllStarted, CountedOnce, CountedAll, NoCostlyRepeat, NoNegativeCost,
      Everything;
    ComputedCharges(charges, snaps);
    EverythingCounted(snaps, charges);
    ListedWithinRunRateIff(snaps, Everything(snaps), charges, rows);
    if NoCostlyRepeat(snaps, charges) {
      forall f
        ensures SumAll(ListedItems(snaps, f, charges)) <= SumAll(rows)
      {
        NoRepeatListedOnce(snaps, f, charges);
        ListedWithinRunRate(snaps, f, charges, rows);
      }
    }
  }

  /** Two snapshots without a volume under one ID, which the table of charges holds once. */
  function TwiceTheSame(): seq<Snap> {
    var snap := Snap("snap-1", "", Some(0), None, 1, "");
    [snap, snap]
  }

  lemma TwiceTheSameCharges(charges: map<string, Charge>)
    requires AreCharges(charges, TwiceTheSame())
    ensures CostTo(charges, "snap-1") > 0.0
  {
    hide Trim, Tabulate, OrphanEntries, MonthlyUsd;
    var snaps := TwiceTheSame();
    var snap := snaps[0];
    TrimBlank();
    assert snaps[..1] == [snap] && snaps[..1][..0] == [];
    assert OfVolume([snap], "") == [snap] && OfVolume(snaps, "") == snaps;
    var volumes, chains :| AreVolumes(volumes, snaps) && AreChains(chains, volumes, snaps)
                           && charges == Tabulate(AllChains(chains) + OrphanEntries(OfVolume(snaps, "")));
    assert VolumeIds(snaps) == {};
    if volumes != [] {
      SomeVolume(volumes, snaps);
      assert false;
    }
    LastOrphanCharged(snaps, AllChains(chains));
    CostOfOneGiB(snap);
  }

  lemma SomeVolume(volumes: seq<string>, snaps: seq<Snap>)
    requires AreVolumes(volumes, snaps) && volumes != []
    ensures VolumeIds(snaps) != {}
  {
    assert volumes[0] in volumes;
  }

  lemma TrimBlank()
    ensures Trim("") == ""
  {
  }

  lemma LastOrphanCharged(orphans: seq<Snap>, before: seq<Entry>)
    requires orphans != [] && orphans[|orphans| - 1].id != ""
    ensures var last := orphans[|orphans| - 1];
      var charges := Tabulate(before + OrphanEntries(orphans));
      last.id in charges && charges[last.id] == Charge(FullGiB(last), MonthlyUsd(FullGiB(last), last))
  {
    hide Tabulate, FullGiB, MonthlyUsd, IsArchive;
    var front, last := orphans[..|orphans| - 1], orphans[|orphans| - 1];
    TabulateSnoc(before + OrphanEntries(front), EntryOf(FullGiB(last), last));
    assert before + OrphanEntries(orphans) == before + OrphanEntries(front) + [EntryOf(FullGiB(last), last)];
  }

  lemma CostOfOneGiB(snap: Snap)
    requires snap.fullBytes.None? && snap.volumeGiB == 1
    ensures MonthlyUsd(FullGiB(snap), snap) > 0.0
  {
    hide Trim, EqualFold;
  }

  /** They cost more in the list than in the run rate, which is therefore no bound for repeated IDs. */
  lemma RepeatedIdExceedsRunRate(charges: map<string, Charge>, rows: seq<Item>)
    requires AreCharges(charges, TwiceTheSame()) && CostRows(rows, charges)
    ensures !AlwaysWithinRunRate(TwiceTheSame(), charges, rows)
  {
    hide AlwaysWithinRunRate, AreCharges, CostRows, CostTo;
    TwiceTheSameCharges(charges);
    AlwaysWithinRunRateIff(TwiceTheSame(), charges, rows);
    var snaps := TwiceTheSame();
    assert snaps[..1][..0] == [] && Occurs(snaps[..1], "snap-1") == 1;
  }

  /** The charges computed are never negative, and name no blank ID. */
  lemma {:induction false} TabulatedCharges(entries: seq<Entry>)
    requires forall i :: 0 <= i < |entries| ==> entries[i].charge.monthlyUsd >= 0.0 && entries[i].id != ""
    ensures NoNegativeCost(Tabulate(entries)) && "" !in Tabulate(entries)
  {
    if entries != [] {
      TabulatedCharges(entries[..|entries| - 1]);
    }
  }

  ghost predicate ProperEntries(entries: seq<Entry>) {
    forall i :: 0 <= i < |entries| ==> entries[i].charge.monthlyUsd >= 0.0 && entries[i].id != ""
  }

  lemma ProperAppend(a: seq<Entry>, b: seq<Entry>)
    requires ProperEntries(a) && ProperEntries(b)
    ensures ProperEntries(a + b)
  {
  }

  lemma MonthlyUsdIsNotNegative(gib: real, snap: Snap)
    ensures MonthlyUsd(gib, snap) >= 0.0
  {
    hide Trim, EqualFold;
  }

  lemma {:induction false} ChainIsProper(chain: seq<Snap>)
    ensures ProperEntries(ChainEntries(chain))
  {
    hide MonthlyUsd, Increment, IsArchive;
    if chain != [] {
      var front, last := chain[..|chain| - 1], chain[|chain| - 1];
      ChainIsProper(front);
      MonthlyUsdIsNotNegative(Increment(front, last), last);
    }
  }

  lemma {:induction false} ChainsAreProper(chains: seq<seq<Snap>>)
    ensures ProperEntries(AllChains(chains))
  {
    hide ProperEntries, ChainEntries;
    if chains == [] {
      NothingProper();
    } else {
      ChainsAreProper(chains[..|chains| - 1]);
      ChainIsProper(chains[|chains| - 1]);
      ProperAppend(AllChains(chains[..|chains| - 1]), ChainEntries(chains[|chains| - 1]));
    }
  }

  lemma NothingProper()
    ensures ProperEntries([])
  {
  }

  lemma {:induction false} OrphansAreProper(orphans: seq<Snap>)
    ensures ProperEntries(OrphanEntries(orphans))
  {
    hide MonthlyUsd, FullGiB, IsArchive;
    if orphans != [] {
      OrphansAreProper(orphans[..|orphans| - 1]);
      MonthlyUsdIsNotNegative(FullGiB(orphans[|orphans| - 1]), orphans[|orphans| - 1]);
    }
  }

  /** listEBSSnapshots: the listed snapshots' costs and the regional run rate. With distinct IDs the
      first never exceeds the second, whatever the filter. */
  method ListSnapshots(snaps: seq<Snap>, f: Filter) returns (listed: seq<Item>, runRate: real)
    ensures exists charges, rows :: AreCharges(charges, snaps) && CostRows(rows, charges)
                                    && listed == ListedItems(snaps, f, charges) && runRate == SumAll(rows)
    ensures (forall i, j :: 0 <= i < j < |snaps| ==> snaps[i].id != snaps[j].id || snaps[i].id == "") ==>
              SumAll(listed) <= runRate
  {
    hide AreCharges, SumAll, CostRows, Listed, Times, NoNegativeCost, ListedCost, CostTo, Occurs;
    var table := ComputeCharges(snaps);
    listed := [];
    assert snaps[..0] == [] && snaps[..|snaps|] == snaps;
    for i := 0 to |snaps|
      invariant listed == ListedItems(snaps[..i], f, table)
    {
      assert snaps[..i + 1][..i] == snaps[..i];
      assert ListedItems(snaps[..i], f, table) + [] == ListedItems(snaps[..i], f, table);
      if Listed(snaps[i], f) {
        listed := listed + [Item(snaps[i].id, ListedCost(snaps[i], table))];
      }
    }
    runRate := RegionalMonthlyCost(table);
    ghost var rows :| CostRows(rows, table) && runRate == SumAll(rows);
    ComputedCharges(table, snaps);
    if forall i, j :: 0 <= i < j < |snaps| ==> snaps[i].id != snaps[j].id || snaps[i].id == "" {
      DistinctIdsCountOnce(snaps, f, table);
      ListedWithinRunRate(snaps, f, table, rows);
    }
  }

  lemma ComputedAreProper(chains: seq<seq<Snap>>, snaps: seq<Snap>)
    ensures var charges := Tabulate(AllChains(chains) + OrphanEntries(OfVolume(snaps, "")));
      NoNegativeCost(charges) && "" !in charges
  {
    hide Tabulate, AllChains, OrphanEntries, OfVolume, NoNegativeCost;
    ChainsAreProper(chains);
    OrphansAreProper(OfVolume(snaps, ""));
    ProperAppend(AllChains(chains), OrphanEntries(OfVolume(snaps, "")));
    TabulatedCharges(AllChains(chains) + OrphanEntries(OfVolume(snaps, "")));
  }

  lemma DistinctIdsCountOnce(snaps: seq<Snap>, f: Filter, charges: map<string, Charge>)
    requires (forall i, j :: 0 <= i < j < |snaps| ==> snaps[i].id != snaps[j].id || snaps[i].id == "") && "" !in charges
    ensures CountedOnce(snaps, f, charges)
  {
    hide Times, Listed;
    forall id | CostTo(charges, id) > 0.0
      ensures Times(snaps, f, id) <= 1
    {
      DistinctIdsListedOnce(snaps, f, id);
    }
  }
}
