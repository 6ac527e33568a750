/** What each EBS snapshot is charged, told from what EC2 says of it and of the snapshots before it. */
module EbsMeaning {
  import opened Text
  import opened Wrappers
  import opened Charges
  import opened RdsSnapshotCosts
  import opened EbsSnapshotCosts

  // -------------------------------------------------------------- one snapshot

  /** A snapshot's size in GiB: of its blocks if EC2 says, of its volume otherwise. */
  lemma FullSizeMeans(snap: Snap)
    ensures snap.fullBytes.Some? && snap.fullBytes.value > 0 ==>
              FullGiB(snap) * (1024 * 1024 * 1024) as real == snap.fullBytes.value as real
    ensures snap.fullBytes.None? || snap.fullBytes.value <= 0 ==> FullGiB(snap) == snap.volumeGiB as real
  {
  }

  predicate InArchive(snap: Snap) {
    EqualFold(Trim(snap.tier), "archive")
  }

  /** A charge for so many GiB at the price of the snapshot's tier. */
  predicate IsChargeFor(charge: Charge, gib: real, snap: Snap) {
    && charge.incrementalGiB == gib
    && charge.monthlyUsd == if gib <= 0.0 then 0.0 else gib * if InArchive(snap) then 0.0125 else 0.05
  }

  lemma EntryMeans(gib: real, snap: Snap)
    ensures EntryOf(gib, snap).id == snap.id && (EntryOf(gib, snap).archived <==> InArchive(snap))
    ensures IsChargeFor(EntryOf(gib, snap).charge, gib, snap)
  {
    hide EqualFold;
    TrimIsProjection(snap.tier);
    TrimIsProjection(Trim(snap.tier));
  }

  // ----------------------------------------------------------- one after another

  /** The largest size of the identified snapshots of a chain, or zero. */
  ghost predicate IsLargest(chain: seq<Snap>, max: real) {
    && (forall k :: 0 <= k < |chain| && chain[k].id != "" ==> FullGiB(chain[k]) <= max)
    && (max == 0.0 || exists k :: 0 <= k < |chain| && chain[k].id != "" && FullGiB(chain[k]) == max)
  }

  /** What the i-th snapshot of a chain adds: all of it in the archive, elsewhere what exceeds the largest before. */
  function Added(snap: Snap, max: real): real {
    if InArchive(snap) then FullGiB(snap)
    else if FullGiB(snap) <= max then 0.0
    else FullGiB(snap) - max
  }

  /** Each identified snapshot of a chain is charged for what it adds to those before it, one entry after the
      other; others are passed over. */
  lemma ChainMeans(chain: seq<Snap>, i: nat, max: real)
    requires i < |chain| && IsLargest(chain[..i], max)
    ensures chain[i].id == "" ==> ChainEntries(chain[..i + 1]) == ChainEntries(chain[..i])
    ensures chain[i].id != "" ==>
      var entries, before := ChainEntries(chain[..i + 1]), ChainEntries(chain[..i]);
      && |entries| == |before| + 1 && entries[..|before|] == before
      && entries[|before|].id == chain[i].id
      && IsChargeFor(entries[|before|].charge, Added(chain[i], max), chain[i])
  {
    hide IsChargeFor, FullGiB, EntryOf, InArchive;
    assert chain[..i + 1][..i] == chain[..i];
    ChainStep(chain[..i + 1]);
    LargestIsMax(chain[..i], max);
    EntryMeans(Increment(chain[..i], chain[i]), chain[i]);
    EntryMeans(0.0, chain[i]);
    IncrementMeans(chain[..i], chain[i], max);
  }

  lemma IncrementMeans(before: seq<Snap>, snap: Snap, max: real)
    requires max == MaxFull(before)
    ensures Increment(before, snap) == Added(snap, max)
  {
    hide Trim, EqualFold, FullGiB;
  }

  lemma LargestIsMax(chain: seq<Snap>, max: real)
    requires IsLargest(chain, max)
    ensures max == MaxFull(chain)
  {
    hide FullGiB, MaxFull;
    MaxFullIsAttained(chain);
  }

  /** Snapshots without a volume are charged in full. */
  lemma OrphansMean(orphans: seq<Snap>, i: nat)
    requires i < |orphans|
    ensures var entries, before := OrphanEntries(orphans[..i + 1]), OrphanEntries(orphans[..i]);
      && (orphans[i].id == "" ==> entries == before)
      && (orphans[i].id != "" ==>
            && |entries| == |before| + 1 && entries[..|before|] == before
            && entries[|before|].id == orphans[i].id
            && IsChargeFor(entries[|before|].charge, FullGiB(orphans[i]), orphans[i]))
  {
    hide IsChargeFor, FullGiB, EntryOf;
    assert orphans[..i + 1][..i] == orphans[..i];
    EntryMeans(FullGiB(orphans[i]), orphans[i]);
  }

  // ---------------------------------------------------------------- which chain

  /** A volume's chain is its snapshots, by start time; those without a time come first. */
  lemma ChainIsByTime(chain: seq<Snap>, snaps: seq<Snap>, volumeId: string, snap: Snap)
    requires IsChain(chain, snaps, volumeId)
    ensures multiset(chain)[snap] == if Trim(snap.volumeId) == volumeId then multiset(snaps)[snap] else 0
    ensures forall i, j :: 0 <= i < j < |chain| ==>
              chain[i].start.None? || (chain[j].start.Some? && chain[i].start.value <= chain[j].start.value)
  {
    hide Trim;
    VolumeHolds(snaps, volumeId, snap);
  }

  lemma {:induction false} VolumeHolds(snaps: seq<Snap>, volumeId: string, snap: Snap)
    ensures multiset(OfVolume(snaps, volumeId))[snap]
         == if Trim(snap.volumeId) == volumeId then multiset(snaps)[snap] else 0
  {
    hide Trim;
    if snaps != [] {
      VolumeHolds(snaps[..|snaps| - 1], volumeId, snap);
      assert snaps == snaps[..|snaps| - 1] + [snaps[|snaps| - 1]];
    }
  }

  /** There is a chain for each volume that some snapshot is of. */
  lemma {:induction false} VolumesMean(snaps: seq<Snap>, volumeId: string)
    ensures volumeId in VolumeIds(snaps)
            <==> volumeId != "" && exists k :: 0 <= k < |snaps| && Trim(snaps[k].volumeId) == volumeId
  {
    hide Trim;
    if snaps != [] {
      var front := snaps[..|snaps| - 1];
      VolumesMean(front, volumeId);
      assert forall k :: 0 <= k < |front| ==> front[k] == snaps[k];
    }
  }

  /** A charge stands unless its ID is charged again; then the last one does. */
  lemma {:induction false} LastChargeStands(entries: seq<Entry>, id: string, i: nat)
    ensures id in Tabulate(entries) <==> exists k :: 0 <= k < |entries| && entries[k].id == id
    ensures i < |entries| && entries[i].id == id && (forall j :: i < j < |entries| ==> entries[j].id != id) ==>
              id in Tabulate(entries) && Tabulate(entries)[id] == entries[i].charge
  {
    if entries != [] {
      var front := entries[..|entries| - 1];
      LastChargeStands(front, id, i);
      assert forall k :: 0 <= k < |front| ==> front[k] == entries[k];
    }
  }

  /** Listed are the snapshots that started before the cutoff and whose volume has the least size, with their
      charges. */
  lemma ListingMeans(snaps: seq<Snap>, f: Filter, charges: map<string, Charge>, i: nat)
    requires i < |snaps|
    ensures var items, before := ListedItems(snaps[..i + 1], f, charges), ListedItems(snaps[..i], f, charges);
      items == before + if snaps[i].start.None? || snaps[i].start.value >= f.cutoff
                           || snaps[i].volumeGiB as real < f.minSizeGiB then []
                        else [Item(snaps[i].id,
                                   if snaps[i].id in charges then charges[snaps[i].id].monthlyUsd else 0.0)]
  {
    assert snaps[..i + 1][..i] == snaps[..i];
  }
}
