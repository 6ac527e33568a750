/** Several migrations of one account, one after the other: when the tags that one of them saved survive
    the next, whatever its source and destination. */
module MigrationHistory {
  import opened Text
  import opened Wrappers
  import opened Migration
  import TrustPolicy

  /** The tags are where the account is, as listed there, or in the recovery file. */
  ghost predicate Saved(w: World, tags: Tags) {
    || tags == []
    || (exists payer :: payer in w.members && Holds(ListTags(TagsIn(w, payer)), tags))
    || (w.recovery.Some? && Holds(w.recovery.value, tags))
  }

  /** No other tag with the same key is set after this one. */
  ghost predicate Survives(t: Tag, listed: Tags) {
    t in listed && forall u :: u in listed && u.key == t.key ==> !Less(t.value, u.value)
  }

  /** What can be checked before a migration: it moves no tags, or all of these and nothing that replaces one. */
  ghost predicate KeepsThem(job: Job, w: World, tags: Tags) {
    TagsToMove(job, w) == [] || forall t :: t in tags ==> Survives(t, TagsToMove(job, w))
  }

  // ------------------------------------------- what setting listed tags leaves

  lemma LastSurvives(front: Tags, last: Tag, t: Tag)
    requires SortedTags(front + [last]) && t.key == last.key
    ensures Survives(t, front + [last]) <==> t == last
  {
    hide Less;
    LastTag(front, last);
    LessIsTotal(t.value, last.value);
    LessIsIrreflexive(t.value);
    var tags := front + [last];
    assert last in tags && forall u :: u in tags <==> u in front || u == last;
    if t in front && t != last {
      assert t.value != last.value && !TagBefore(last, t);
    }
  }

  lemma FrontSurvives(front: Tags, last: Tag, t: Tag)
    requires t.key != last.key
    ensures Survives(t, front + [last]) <==> Survives(t, front)
  {
    hide Less;
    assert forall u :: u in front + [last] <==> u in front || u == last;
  }

  /** Setting listed tags where there are none leaves exactly those that survive. */
  lemma {:induction false} PutSurvivors(listed: Tags, t: Tag)
    requires SortedTags(listed)
    ensures t in Put([], listed) <==> Survives(t, listed)
  {
    hide SetTag, Survives, TagBefore;
    if listed == [] {
      NothingSurvives(t);
    } else {
      var front, last := listed[..|listed| - 1], listed[|listed| - 1];
      assert listed == front + [last];
      LastTag(front, last);
      PutSurvivors(front, t);
      SetTagHolds(Put([], front), last, t);
      if t.key == last.key {
        LastSurvives(front, last, t);
      } else {
        FrontSurvives(front, last, t);
      }
    }
  }

  lemma NothingSurvives(t: Tag)
    ensures !Survives(t, []) && t !in Put([], [])
  {
  }

  /** What is listed is trimmed, so listing it again changes nothing. */
  lemma ListedAgain(tags: Tags, chosen: Tags, t: Tag)
    requires forall u :: u in chosen ==> u in ListTags(tags)
    ensures t in ListTags(chosen) <==> t in chosen
  {
    hide Trim, ListTags;
    ListTagsHolds(chosen, t);
    forall u | u in chosen
      ensures Trim(u.key) == u.key != "" && Trim(u.value) == u.value
    {
      ListTagsHolds(tags, u);
      var v :| v in tags && Trim(v.key) != "" && u == Tag(Trim(v.key), Trim(v.value));
      TrustPolicy.TrimTwice(v.key);
      TrustPolicy.TrimTwice(v.value);
    }
    if t in chosen {
      assert Trim(t.key) != "" && t == Tag(Trim(t.key), Trim(t.value));
    }
  }

  lemma ListedIsSorted(tags: Tags)
    ensures SortedTags(ListTags(tags))
  {
    hide Normalize, SortTags, SortedTags;
    SortSorts(Normalize(tags));
  }

  /** What the destination lists after the tags have been set. */
  lemma DeliveredTags(job: Job, w0: World, w: World, t: Tag)
    requires TagsIn(w, job.destinationId) == Put([], TagsToMove(job, w0))
    ensures t in ListTags(TagsIn(w, job.destinationId)) <==> Survives(t, TagsToMove(job, w0))
  {
    hide ListTags, Put, Survives, SortedTags;
    var listed := TagsToMove(job, w0);
    ListedIsSorted(TagsIn(w0, job.sourceId));
    forall u
      ensures u in Put([], listed) <==> Survives(u, listed)
    {
      PutSurvivors(listed, u);
    }
    forall u | u in Put([], listed)
      ensures u in listed
    {
      SurvivorIsListed(u, listed);
    }
    ListedAgain(TagsIn(w0, job.sourceId), Put([], listed), t);
  }

  lemma SurvivorIsListed(t: Tag, listed: Tags)
    requires Survives(t, listed)
    ensures t in listed
  {
  }

  // ------------------------------------------------------------- safe migrations

  ghost predicate InOne(w: World) {
    exists payer :: w.members == {payer}
  }

  lemma StillListed(job: Job, w0: World, w: World, tags: Tags)
    requires Saved(w0, tags) && w0.members == {job.sourceId} && KeepsThem(job, w0, tags)
    requires Untouched(w0, w) && (TagsToMove(job, w0) == [] ==> w.recovery == w0.recovery)
    ensures Saved(w, tags)
  {
    hide ListTags, Less;
    if TagsToMove(job, w0) != [] {
      assert job.sourceId in w.members;
    }
  }

  lemma NowDelivered(job: Job, w0: World, w: World, tags: Tags)
    requires Saved(w0, tags) && w0.members == {job.sourceId} && KeepsThem(job, w0, tags)
    requires TagsArrived(job, w0, w) && (TagsToMove(job, w0) == [] ==> w.recovery == w0.recovery)
    ensures Saved(w, tags)
  {
    hide ListTags, Put, Less;
    var listed := TagsToMove(job, w0);
    if listed != [] && TagsIn(w, job.destinationId) == Put([], listed) {
      forall t | t in tags
        ensures t in ListTags(TagsIn(w, job.destinationId))
      {
        DeliveredTags(job, w0, w, t);
      }
      assert job.destinationId in w.members;
    }
  }

  /** No migration loses saved tags if the source lists none, or all of them and nothing that replaces one. */
  lemma MigrationKeepsSaved(job: Job, run: seq<State>, k: nat, tags: Tags)
    requires IsRun(job, run) && k < |run| && InOne(run[0].world) && Saved(run[0].world, tags)
    requires Eligible(job, run[0].world) && !job.dryRun ==> KeepsThem(job, run[0].world, tags)
    ensures Saved(run[k].world, tags) && InOne(run[k].world)
  {
    hide Saved, KeepsThem, Next, Delivered, TagsToMove, PolicyIsReadable, NewPolicy, Put;
    var w0, w := run[0].world, run[k].world;
    if !Eligible(job, w0) {
      IneligibleIsRefused(job, run, k);
    } else if job.dryRun {
      DryRunChangesNothing(job, run, k);
    } else {
      OnlySource(job, w0);
      KeptOrDelivered(job, run, k);
      if Untouched(w0, w) {
        StillListed(job, w0, w, tags);
      } else {
        NowDelivered(job, w0, w, tags);
        assert w.members == {job.destinationId};
      }
    }
  }

  lemma OnlySource(job: Job, w: World)
    requires InOne(w) && Eligible(job, w)
    ensures w.members == {job.sourceId}
  {
  }

  /** At every moment nothing has changed, or the account has arrived; its tags are then delivered, or still
      in the file. */
  lemma KeptOrDelivered(job: Job, run: seq<State>, k: nat)
    requires IsRun(job, run) && k < |run| && Eligible(job, run[0].world) && !job.dryRun
    ensures Untouched(run[0].world, run[k].world) || TagsArrived(job, run[0].world, run[k].world)
    ensures TagsToMove(job, run[0].world) == [] ==> run[k].world.recovery == run[0].world.recovery
  {
    hide Next, TagsToMove, PolicyIsReadable, NewPolicy, Put;
    EveryStateKeepsInv(job, run, k);
  }

  /** The account's migrations so far, each starting where the one before it ended. */
  datatype Past = Past(job: Job, run: seq<State>)

  ghost predicate IsHistory(past: seq<Past>) {
    && (forall n :: 0 <= n < |past| ==> IsRun(past[n].job, past[n].run))
    && (forall n :: 0 < n < |past| ==> FollowsOn(past[n - 1], past[n]))
  }

  ghost predicate FollowsOn(a: Past, b: Past) {
    a.run != [] && b.run != [] && b.run[0].world == a.run[|a.run| - 1].world
  }

  ghost predicate IsCareful(p: Past, tags: Tags) {
    p.run != [] && (Eligible(p.job, p.run[0].world) && !p.job.dryRun ==> KeepsThem(p.job, p.run[0].world, tags))
  }

  /** However often an account is migrated and wherever each run stops: saved tags stay saved as long as
      every migration that goes ahead lists none, or all of them and nothing that replaces one. */
  lemma {:induction false} SavedTagsStaySaved(past: seq<Past>, tags: Tags, n: nat, k: nat)
    requires IsHistory(past) && n < |past| && k < |past[n].run| && forall m :: 0 <= m <= n ==> IsCareful(past[m], tags)
    requires past[0].run != [] && InOne(past[0].run[0].world) && Saved(past[0].run[0].world, tags)
    ensures Saved(past[n].run[k].world, tags) && InOne(past[n].run[k].world)
  {
    hide Saved, InOne, IsRun, KeepsThem, Eligible;
    if n > 0 {
      assert FollowsOn(past[n - 1], past[n]);
      SavedTagsStaySaved(past, tags, n - 1, |past[n - 1].run| - 1);
    }
    assert IsCareful(past[n], tags);
    MigrationKeepsSaved(past[n].job, past[n].run, k, tags);
  }

  // ----------------------------------------------------------- and only those

  ghost predicate CanLoseSaved(job: Job, w: World, tags: Tags) {
    exists run, k :: LosesSaved(job, w, tags, run, k)
  }

  ghost predicate LosesSaved(job: Job, w: World, tags: Tags, run: seq<State>, k: nat) {
    IsRun(job, run) && run[0].world == w && k < |run| && !Saved(run[k].world, tags)
  }

  /** A tag that the source does not list is gone as soon as the recovery file is overwritten. */
  lemma OverwritingLoses(job: Job, w: World, tags: Tags, t: Tag)
    requires Eligible(job, w) && w.members == {job.sourceId} && !job.dryRun && TagsToMove(job, w) != []
    requires t in tags && t !in TagsToMove(job, w)
    ensures CanLoseSaved(job, w, tags)
  {
    hide IsRun, ListTags, Put;
    RunThroughTagsIsRun(job, w);
    var run := RunThroughTags(job, w);
    assert !Saved(run[2].world, tags);
    assert LosesSaved(job, w, tags, run, 2);
  }

  /** A tag that the source lists together with one that replaces it is gone once the file is removed. */
  lemma ReplacingLoses(job: Job, w: World, tags: Tags, t: Tag)
    requires Eligible(job, w) && w.members == {job.sourceId} && !job.dryRun && TagsToMove(job, w) != []
    requires t in tags && !Survives(t, TagsToMove(job, w))
    ensures CanLoseSaved(job, w, tags)
  {
    hide IsRun, ListTags, Put, Survives;
    RunThroughTagsIsRun(job, w);
    var run := RunThroughTags(job, w);
    DeliveredTags(job, w, run[7].world, t);
    assert !Saved(run[7].world, tags);
    assert LosesSaved(job, w, tags, run, 7);
  }

  /** Running a migration can lose tags that are saved if and only if its source lists some tags, but not
      all of those, or together with one that replaces one of them. */
  lemma SavedTagsCanBeLostIff(job: Job, w: World, tags: Tags)
    requires Eligible(job, w) && InOne(w) && !job.dryRun && Saved(w, tags)
    ensures CanLoseSaved(job, w, tags) <==> !KeepsThem(job, w, tags)
  {
    hide IsRun, Saved, Eligible, InOne, TagsToMove, Survives;
    OnlySource(job, w);
    if CanLoseSaved(job, w, tags) && KeepsThem(job, w, tags) {
      var run, k :| LosesSaved(job, w, tags, run, k);
      MigrationKeepsSaved(job, run, k, tags);
      assert false;
    }
    if !KeepsThem(job, w, tags) {
      var t :| t in tags && !Survives(t, TagsToMove(job, w));
      ReplacingLoses(job, w, tags, t);
    }
  }

  /** After a move from "1" to "2" whose tags could not be restored, one of them set again by hand. */
  function HalfRestored(policy: Option<TrustPolicy.Json>): World {
    World({"2"}, map["1" := [], "2" := [Tag("a", "1")]], Some([Tag("a", "1"), Tag("b", "2")]), true, policy, "", "")
  }

  /** Migrating that account back can lose the other one, whose only copy is the recovery file. */
  lemma MigratingBackCanLoseTags(policy: Option<TrustPolicy.Json>)
    ensures Saved(HalfRestored(policy), [Tag("a", "1"), Tag("b", "2")])
    ensures CanLoseSaved(Job("2", "1", "", "", false), HalfRestored(policy), [Tag("a", "1"), Tag("b", "2")])
  {
    hide CanLoseSaved, ListTags, Trim;
    var w, back := HalfRestored(policy), Job("2", "1", "", "", false);
    var tags := [Tag("a", "1"), Tag("b", "2")];
    TrimsOfColliding();
    assert TagsIn(w, "2") == [Tag("a", "1")];
    ListTagsHolds(TagsIn(w, "2"), Tag("a", "1"));
    ListTagsHolds(TagsIn(w, "2"), Tag("b", "2"));
    assert Tag("a", "1") in TagsIn(w, "2");
    assert Tag("a", "1") in TagsToMove(back, w);
    assert tags[1] in tags;
    OverwritingLoses(back, w, tags, Tag("b", "2"));
  }
}
