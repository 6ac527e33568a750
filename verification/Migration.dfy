/** Moving a member account from one organization to another: the protocol as a transition system in
    which any call may fail, with or without having had its effect, and the run may stop anywhere. */
module Migration {
  import opened Text
  import opened Wrappers
  import opened TrustPolicy

  datatype Tag = Tag(key: string, value: string)
  type Tags = seq<Tag>

  /** normalizeAccountTags trims keys and values and drops tags with a blank key. */
  function Normalize(tags: Tags): Tags {
    if tags == [] then []
    else
      var last := tags[|tags| - 1];
      Normalize(tags[..|tags| - 1]) + if Trim(last.key) == "" then [] else [Tag(Trim(last.key), Trim(last.value))]
  }

  predicate IsTrimmed(t: Tag) {
    t.key != "" && Trim(t.key) == t.key && Trim(t.value) == t.value
  }

  lemma SnocEqual(a: Tags, x: Tag, b: Tags, y: Tag)
    ensures a + [x] == b + [y] <==> a == b && x == y
  {
    if a + [x] == b + [y] {
      assert |a| == |b|;
      assert (a + [x])[..|a|] == a && (b + [y])[..|b|] == b;
      assert (a + [x])[|a|] == x && (b + [y])[|b|] == y;
    }
  }

  lemma NormalizeSnoc(front: Tags, last: Tag)
    ensures Normalize(front + [last])
         == if Trim(last.key) == "" then Normalize(front)
             else Normalize(front) + [Tag(Trim(last.key), Trim(last.value))]
  {
    hide Trim;
    assert (front + [last])[..|front|] == front;
    assert Normalize(front) + [] == Normalize(front);
  }

  /** Normalizing leaves the tags as they are exactly if none needs trimming. */
  lemma {:induction false} NormalizeChangesNothingIff(tags: Tags)
    ensures |Normalize(tags)| <= |tags|
    ensures Normalize(tags) == tags <==> forall i :: 0 <= i < |tags| ==> IsTrimmed(tags[i])
  {
    hide Trim, Normalize;
    if tags == [] {
      NormalizeNothing();
    } else {
      var front, last := tags[..|tags| - 1], tags[|tags| - 1];
      NormalizeChangesNothingIff(front);
      NormalizeSnoc(front, last);
      SnocEqual(Normalize(front), Tag(Trim(last.key), Trim(last.value)), front, last);
      assert tags == front + [last];
    }
  }

  lemma NormalizeNothing()
    ensures Normalize([]) == []
  {
  }

  // ------------------------------------------------------------- listing tags

  predicate TagBefore(a: Tag, b: Tag) {
    Less(a.key, b.key) || (a.key == b.key && Less(a.value, b.value))
  }

  function InsertTag(t: Tag, tags: Tags): Tags {
    if tags == [] then [t]
    else
      var last := tags[|tags| - 1];
      if TagBefore(t, last) then InsertTag(t, tags[..|tags| - 1]) + [last] else tags + [t]
  }

  function SortTags(tags: Tags): Tags {
    if tags == [] then [] else InsertTag(tags[|tags| - 1], SortTags(tags[..|tags| - 1]))
  }

  /** ListTags: normalized, and sorted by key and value. */
  function ListTags(tags: Tags): Tags {
    SortTags(Normalize(tags))
  }

  lemma {:induction false} InsertTagHolds(t: Tag, tags: Tags)
    ensures forall u :: u in InsertTag(t, tags) <==> u in tags || u == t
  {
    hide TagBefore;
    if tags != [] {
      assert tags == tags[..|tags| - 1] + [tags[|tags| - 1]];
      InsertTagHolds(t, tags[..|tags| - 1]);
    }
  }

  lemma {:induction false} SortHolds(tags: Tags)
    ensures forall u :: u in SortTags(tags) <==> u in tags
    ensures SortTags(tags) == [] <==> tags == []
  {
    hide TagBefore, InsertTag;
    if tags != [] {
      var front, last := tags[..|tags| - 1], tags[|tags| - 1];
      assert tags == front + [last];
      SortHolds(front);
      InsertTagHolds(last, SortTags(front));
      assert last in SortTags(tags);
    }
  }

  ghost predicate SortedTags(tags: Tags) {
    forall i, j :: 0 <= i < j < |tags| ==> !TagBefore(tags[j], tags[i])
  }

  lemma TagBeforeIsOrder(a: Tag, b: Tag, c: Tag)
    ensures !TagBefore(a, a) && (TagBefore(a, b) || TagBefore(b, a) || a == b)
    ensures TagBefore(a, b) && TagBefore(b, c) ==> TagBefore(a, c)
  {
    hide Less;
    LessIsTotal(a.key, b.key);
    LessIsTotal(a.value, b.value);
    LessIsIrreflexive(a.key);
    LessIsIrreflexive(a.value);
    if TagBefore(a, b) && TagBefore(b, c) {
      if Less(a.key, b.key) && Less(b.key, c.key) {
        LessIsTransitive(a.key, b.key, c.key);
      } else if a.key == b.key == c.key {
        LessIsTransitive(a.value, b.value, c.value);
      }
    }
  }

  lemma LastTag(front: Tags, last: Tag)
    requires SortedTags(front + [last])
    ensures SortedTags(front) && forall u :: u in front ==> !TagBefore(last, u)
  {
    hide TagBefore;
    var tags := front + [last];
    assert tags[|front|] == last && forall i :: 0 <= i < |front| ==> tags[i] == front[i];
  }

  lemma SortedSnoc(tags: Tags, t: Tag)
    requires SortedTags(tags) && forall u :: u in tags ==> !TagBefore(t, u)
    ensures SortedTags(tags + [t])
  {
    hide TagBefore;
  }

  lemma {:induction false} InsertTagSorts(t: Tag, tags: Tags)
    requires SortedTags(tags)
    ensures SortedTags(InsertTag(t, tags))
  {
    hide TagBefore, SortedTags;
    if tags == [] {
      OneTagIsSorted(t);
    } else {
      var front, last := tags[..|tags| - 1], tags[|tags| - 1];
      assert tags == front + [last];
      LastTag(front, last);
      if TagBefore(t, last) {
        InsertTagSorts(t, front);
        InsertTagHolds(t, front);
        TagBeforeIsOrder(t, last, t);
        SortedSnoc(InsertTag(t, front), last);
      } else {
        forall u | u in tags
          ensures !TagBefore(t, u)
        {
          NotBeforeLast(t, front, last, u);
        }
        SortedSnoc(tags, t);
      }
    }
  }

  lemma OneTagIsSorted(t: Tag)
    ensures SortedTags([t]) && SortedTags([])
  {
  }

  lemma NotBeforeLast(t: Tag, front: Tags, last: Tag, u: Tag)
    requires !TagBefore(t, last) && (u in front ==> !TagBefore(last, u)) && (u in front || u == last)
    ensures !TagBefore(t, u)
  {
    hide TagBefore;
    TagBeforeIsOrder(last, t, u);
  }

  lemma {:induction false} SortSorts(tags: Tags)
    ensures SortedTags(SortTags(tags))
  {
    hide TagBefore, InsertTag, SortedTags;
    if tags == [] {
      OneTagIsSorted(Tag("", ""));
    } else {
      SortSorts(tags[..|tags| - 1]);
      InsertTagSorts(tags[|tags| - 1], SortTags(tags[..|tags| - 1]));
    }
  }

  // -------------------------------------------------------------- setting tags

  /** Setting a tag replaces the one with its key. */
  function SetTag(tags: Tags, t: Tag): Tags {
    WithoutKey(tags, t.key) + [t]
  }

  function WithoutKey(tags: Tags, key: string): Tags {
    if tags == [] then []
    else WithoutKey(tags[..|tags| - 1], key) + if tags[|tags| - 1].key == key then [] else [tags[|tags| - 1]]
  }

  /** Setting tags one after the other; a repeated key keeps the last value. */
  function Put(tags: Tags, more: Tags): Tags {
    if more == [] then tags else SetTag(Put(tags, more[..|more| - 1]), more[|more| - 1])
  }

  ghost predicate Holds(tags: Tags, part: Tags) {
    forall t :: t in part ==> t in tags
  }

  /** No key has two values. */
  ghost predicate Consistent(tags: Tags) {
    forall t, u :: t in tags && u in tags && t.key == u.key ==> t.value == u.value
  }

  lemma {:induction false} WithoutKeyHolds(tags: Tags, key: string, t: Tag)
    ensures t in WithoutKey(tags, key) <==> t in tags && t.key != key
  {
    if tags != [] {
      assert tags == tags[..|tags| - 1] + [tags[|tags| - 1]];
      WithoutKeyHolds(tags[..|tags| - 1], key, t);
    }
  }

  lemma SetTagHolds(tags: Tags, t: Tag, u: Tag)
    ensures u in SetTag(tags, t) <==> u == t || (u in tags && u.key != t.key)
  {
    WithoutKeyHolds(tags, t.key, u);
  }

  /** What is there after setting tags: some tag set for each of their keys, and only one. */
  lemma {:induction false} PutKeys(tags: Tags, more: Tags, t: Tag)
    requires t in more
    ensures exists u :: u in more && u.key == t.key && u in Put(tags, more)
    ensures forall u, v :: u in Put(tags, more) && v in Put(tags, more) && u.key == v.key == t.key ==> u == v
  {
    hide SetTag;
    var front, last := more[..|more| - 1], more[|more| - 1];
    assert more == front + [last];
    forall u
      ensures u in Put(tags, more) <==> u == last || (u in Put(tags, front) && u.key != last.key)
    {
      SetTagHolds(Put(tags, front), last, u);
    }
    if last.key == t.key {
      assert last in Put(tags, more);
    } else {
      PutKeys(tags, front, t);
    }
  }

  /** Setting tags leaves all of them in place if and only if no key comes with two values: two keys
      that differ only in surrounding blanks, with different values, do not both survive. */
  lemma PutHoldsIff(tags: Tags, more: Tags)
    ensures Holds(Put(tags, more), more) <==> Consistent(more)
  {
    hide Put;
    forall t | t in more
      ensures exists u :: u in more && u.key == t.key && u in Put(tags, more)
      ensures forall u, v :: u in Put(tags, more) && v in Put(tags, more) && u.key == v.key == t.key ==> u == v
    {
      PutKeys(tags, more, t);
    }
  }

  /** What a migration can change about one account: the organizations, by payer, that have it as an active
      member, and its tags in each. The tags of an organization are lost when the account leaves it. */
  datatype World = World(members: set<string>, tags: map<string, Tags>, recovery: Option<Tags>, invited: bool,
                         policy: Option<Json>, ou: string, localPayer: string)

  function TagsIn(w: World, payer: string): Tags {
    if payer in w.tags then w.tags[payer] else []
  }

  /** The payers (their account IDs differ), the optional OU to move to, and whether to change anything. */
  datatype Job = Job(sourceId: string, destinationId: string, destinationOu: string, toAlias: string, dryRun: bool)

  datatype Stage = Start | Checked | Snapshotted | Invited | Assumed | Accepted | TagsSet | Restored | Trusted | Moved
      | Done | Failed

  datatype State = State(stage: Stage, world: World, preserved: Tags)

  // ------------------------------------------------------- effects of the calls

  /** The membership checks before a migration. */
  predicate Eligible(job: Job, w: World) {
    job.sourceId in w.members && job.destinationId !in w.members
  }

  /** The tags to move, as the source organization lists them. */
  function TagsToMove(job: Job, w: World): Tags {
    ListTags(TagsIn(w, job.sourceId))
  }

  /** Accepting the handshake moves the account; its tags do not move. */
  function Transfer(job: Job, w: World): World {
    w.(members := w.members - {job.sourceId} + {job.destinationId},
       tags := w.tags[job.sourceId := []][job.destinationId := []])
  }

  function WithTags(job: Job, w: World, tags: Tags): World {
    w.(tags := w.tags[job.destinationId := Put(TagsIn(w, job.destinationId), tags)])
  }

  predicate PolicyIsReadable(policy: Option<Json>) {
    Statements(policy).Ok? && forall i :: 0 <= i < |Statements(policy).value| ==>
      Statements(policy).value[i].Obj? || Statements(policy).value[i].Null?
  }

  ghost function NewPolicy(job: Job, policy: Option<Json>): Option<Json>
    requires PolicyIsReadable(policy)
  {
    RootIsNoWildcard(job.sourceId);
    RootIsNoWildcard(job.destinationId);
    Some(Arr(Replaced(Statements(policy).value, RootArn(job.sourceId), RootArn(job.destinationId),
                      TrustStatement(job.destinationId))))
  }

  ghost function WithTrust(job: Job, w: World): World
    requires PolicyIsReadable(w.policy)
  {
    w.(policy := NewPolicy(job, w.policy))
  }

  // ------------------------------------------------------------------ one step

  predicate Fails(s: State, s': State) {
    s' == State(Failed, s.world, s.preserved)
  }

  /** A call goes through, fails, or takes effect although its reply is lost. */
  predicate Calls(s: State, after: World, next: Stage, s': State) {
    || s' == State(next, after, s.preserved)
    || Fails(s, s')
    || s' == State(Failed, after, s.preserved)
  }

  /** The same for calls whose failure is only a warning. */
  predicate Attempts(s: State, after: World, next: Stage, s': State) {
    s' == State(next, after, s.preserved) || s' == State(next, s.world, s.preserved)
  }

  ghost predicate Next(job: Job, s: State, s': State) {
    var w := s.world;
    match s.stage
    case Start =>
      Fails(s, s') || (Eligible(job, w) && s' == State(Checked, w, TagsToMove(job, w)))
    case Checked =>
      if job.dryRun then s' == State(Done, w, s.preserved)
      else if s.preserved == [] then s' == State(Snapshotted, w, s.preserved)
      else Fails(s, s') || s' == State(Snapshotted, w.(recovery := Some(s.preserved)), s.preserved)
    case Snapshotted => Calls(s, w.(invited := true), Invited, s')
    case Invited => Fails(s, s') || s' == State(Assumed, w, s.preserved)
    case Assumed => Calls(s, Transfer(job, w), Accepted, s')
    case Accepted =>
      if s.preserved == [] then s' == State(Restored, w, s.preserved)
      else
        || s' == State(TagsSet, WithTags(job, w, s.preserved), s.preserved)
        || Attempts(s, WithTags(job, w, s.preserved), Restored, s')
    case TagsSet => Attempts(s, w.(recovery := None), Restored, s')
    case Restored => Fails(s, s') || (PolicyIsReadable(w.policy) && Calls(s, WithTrust(job, w), Trusted, s'))
    case Trusted =>
      if job.destinationOu == "" then s' == State(Moved, w, s.preserved)
      else Calls(s, w.(ou := job.destinationOu), Moved, s')
    case Moved => Attempts(s, w.(localPayer := job.toAlias), Done, s')
    case Done => false
    case Failed => false
  }

  /** A run from the start; a crash is a run that just ends. */
  ghost predicate IsRun(job: Job, run: seq<State>) {
    && run != [] && run[0].stage.Start?
    && forall k :: 0 <= k < |run| - 1 ==> Next(job, run[k], run[k + 1])
  }

  // ----------------------------------------------------------------- invariant

  /** The tags are on the destination, or intact in the recovery file. */
  ghost predicate TagsKept(job: Job, w: World, tags: Tags) {
    tags == [] || Holds(TagsIn(w, job.destinationId), tags) || w.recovery == Some(tags)
  }

  ghost predicate TagsSafe(job: Job, w: World, tags: Tags) {
    Consistent(tags) ==> TagsKept(job, w, tags)
  }

  /** The destination has what setting the tags makes of none, or they are intact in the recovery file. */
  predicate Delivered(job: Job, w: World, tags: Tags) {
    tags == [] || TagsIn(w, job.destinationId) == Put([], tags) || w.recovery == Some(tags)
  }

  lemma DeliveredIsSafe(job: Job, w: World, tags: Tags)
    requires Delivered(job, w, tags)
    ensures TagsSafe(job, w, tags)
  {
    hide Put, Holds, Consistent;
    PutHoldsIff([], tags);
  }

  /** Nothing that matters has changed yet. */
  predicate Untouched(w0: World, w: World) {
    && w.members == w0.members && w.tags == w0.tags && w.policy == w0.policy && w.ou == w0.ou
    && w.localPayer == w0.localPayer
  }

  predicate Arrived(job: Job, w0: World, w: World) {
    w.members == w0.members - {job.sourceId} + {job.destinationId}
  }

  ghost predicate PolicyIsNew(job: Job, w0: World, w: World) {
    PolicyIsReadable(w0.policy) && w.policy == NewPolicy(job, w0.policy)
  }

  /** The account has moved, and its tags are delivered. */
  predicate TagsArrived(job: Job, w0: World, w: World) {
    Eligible(job, w0) && Arrived(job, w0, w) && Delivered(job, w, TagsToMove(job, w0))
  }

  ghost predicate Inv(job: Job, w0: World, s: State) {
    var w := s.world;
    && (!s.stage.Start? && !s.stage.Failed? ==> Eligible(job, w0) && s.preserved == TagsToMove(job, w0))
    && (w.policy == w0.policy || PolicyIsNew(job, w0, w))
    && (job.dryRun ==> w == w0 && s.stage in {Start, Checked, Done, Failed})
    && (TagsToMove(job, w0) == [] ==> w.recovery == w0.recovery)
    && match s.stage
       case Start => w == w0
       case Checked => w == w0
       case Snapshotted => Untouched(w0, w) && (s.preserved == [] || w.recovery == Some(s.preserved))
       case Invited => Untouched(w0, w) && (s.preserved == [] || w.recovery == Some(s.preserved))
       case Assumed => Untouched(w0, w) && (s.preserved == [] || w.recovery == Some(s.preserved))
       case Accepted =>
         && Arrived(job, w0, w) && w.policy == w0.policy && TagsIn(w, job.destinationId) == []
         && (s.preserved == [] || w.recovery == Some(s.preserved))
       case TagsSet =>
         && Arrived(job, w0, w) && w.policy == w0.policy && s.preserved != []
         && TagsIn(w, job.destinationId) == Put([], s.preserved)
       case Restored => TagsArrived(job, w0, w) && w.policy == w0.policy
       case Trusted => TagsArrived(job, w0, w) && PolicyIsNew(job, w0, w)
       case Moved => TagsArrived(job, w0, w) && PolicyIsNew(job, w0, w)
           && (job.destinationOu == "" || w.ou == job.destinationOu)
       case Done =>
         || job.dryRun
         || (TagsArrived(job, w0, w) && PolicyIsNew(job, w0, w)
             && (job.destinationOu == "" || w.ou == job.destinationOu))
       case Failed => Untouched(w0, w) || TagsArrived(job, w0, w)
  }

  predicate BeforeTransfer(stage: Stage) {
    stage in {Start, Checked, Snapshotted, Invited}
  }

  lemma EarlyStepKeepsInv(job: Job, w0: World, s: State, s': State)
    requires Inv(job, w0, s) && Next(job, s, s') && BeforeTransfer(s.stage)
    ensures Inv(job, w0, s')
  {
    hide PolicyIsReadable, NewPolicy, Statements, Put, ListTags;
  }

  predicate MovesTags(stage: Stage) {
    stage in {Assumed, Accepted, TagsSet}
  }

  lemma TransferKeepsInv(job: Job, w0: World, s: State, s': State)
    requires Inv(job, w0, s) && Next(job, s, s') && MovesTags(s.stage)
    ensures Inv(job, w0, s')
  {
    hide PolicyIsReadable, PolicyIsNew, NewPolicy, Statements, Put, ListTags, WithTrust;
  }

  lemma LateStepKeepsInv(job: Job, w0: World, s: State, s': State)
    requires Inv(job, w0, s) && Next(job, s, s') && !BeforeTransfer(s.stage) && !MovesTags(s.stage)
    ensures Inv(job, w0, s')
  {
    hide PolicyIsReadable, NewPolicy, Statements, Put, ListTags;
  }

  lemma StepKeepsInv(job: Job, w0: World, s: State, s': State)
    requires Inv(job, w0, s) && Next(job, s, s')
    ensures Inv(job, w0, s')
  {
    hide Inv, Next;
    if BeforeTransfer(s.stage) {
      EarlyStepKeepsInv(job, w0, s, s');
    } else if MovesTags(s.stage) {
      TransferKeepsInv(job, w0, s, s');
    } else {
      LateStepKeepsInv(job, w0, s, s');
    }
  }

  lemma {:induction false} EveryStateKeepsInv(job: Job, run: seq<State>, k: nat)
    requires IsRun(job, run) && k < |run|
    ensures Inv(job, run[0].world, run[k])
  {
    if k > 0 {
      EveryStateKeepsInv(job, run, k - 1);
      StepKeepsInv(job, run[0].world, run[k - 1], run[k]);
    }
  }

  // -------------------------------------------------------------- main results

  /** Once the account has left the source organization, its tags, as listed, are on the destination or
      intact in the recovery file; as long as it has not, they are where they were. */
  lemma TagsAreNeverLost(job: Job, run: seq<State>, k: nat)
    requires IsRun(job, run) && k < |run|
    ensures var w0, w := run[0].world, run[k].world;
      || (w.members == w0.members && w.tags == w0.tags)
      || (Eligible(job, w0) && Arrived(job, w0, w) && TagsSafe(job, w, TagsToMove(job, w0)))
  {
    hide PolicyIsReadable, NewPolicy, Put, ListTags, TagsSafe, Next;
    EveryStateKeepsInv(job, run, k);
    var w0, w := run[0].world, run[k].world;
    if Delivered(job, w, TagsToMove(job, w0)) {
      DeliveredIsSafe(job, w, TagsToMove(job, w0));
    }
  }

  /** Along some run the tags end up nowhere: the account has left the source, and they are neither on the
      destination nor in the recovery file. */
  ghost predicate CanLoseTags(job: Job, w0: World) {
    exists run, k :: LosesTags(job, w0, run, k)
  }

  ghost predicate LosesTags(job: Job, w0: World, run: seq<State>, k: nat) {
    && IsRun(job, run) && run[0].world == w0 && k < |run| && Arrived(job, w0, run[k].world)
    && !TagsKept(job, run[k].world, TagsToMove(job, w0))
  }

  /** A run in which every call succeeds, up to the removal of the recovery file. */
  ghost function RunThroughTags(job: Job, w0: World): seq<State> {
    var tags := TagsToMove(job, w0);
    var saved := w0.(recovery := Some(tags));
    var invited := saved.(invited := true);
    var arrived := Transfer(job, invited);
    var tagged := WithTags(job, arrived, tags);
    [State(Start, w0, []), State(Checked, w0, tags), State(Snapshotted, saved, tags), State(Invited, invited, tags),
     State(Assumed, invited, tags), State(Accepted, arrived, tags), State(TagsSet, tagged, tags),
     State(Restored, tagged.(recovery := None), tags)]
  }

  lemma RunThroughTagsIsRun(job: Job, w0: World)
    requires Eligible(job, w0) && !job.dryRun && TagsToMove(job, w0) != []
    ensures IsRun(job, RunThroughTags(job, w0))
  {
    hide TagsToMove, Put, PolicyIsReadable, WithTrust;
    var run := RunThroughTags(job, w0);
    assert Next(job, run[0], run[1]) && Next(job, run[1], run[2]) && Next(job, run[2], run[3])
        && Next(job, run[3], run[4]);
    assert Next(job, run[4], run[5]) && Next(job, run[5], run[6]) && Next(job, run[6], run[7]);
  }

  /** Tags can be lost exactly if two of them, as listed, share a key and differ in value. */
  lemma TagsCanBeLostIff(job: Job, w0: World)
    requires Eligible(job, w0) && !job.dryRun
    ensures CanLoseTags(job, w0) <==> !Consistent(TagsToMove(job, w0))
  {
    hide IsRun, TagsToMove, Consistent, Holds, Put;
    var tags := TagsToMove(job, w0);
    if CanLoseTags(job, w0) {
      var run, k :| LosesTags(job, w0, run, k);
      TagsAreNeverLost(job, run, k);
    }
    if !Consistent(tags) {
      NothingIsConsistent();
      RunThroughTagsIsRun(job, w0);
      PutHoldsIff([], tags);
      assert LosesTags(job, w0, RunThroughTags(job, w0), 7);
    }
  }

  lemma NothingIsConsistent()
    ensures Consistent([])
  {
  }

  /** The same condition on the tags as they are: keys that differ only in white space around them. */
  ghost predicate NoKeysCollide(tags: Tags) {
    forall t, u :: t in tags && u in tags && Trim(t.key) == Trim(u.key) != "" ==> Trim(t.value) == Trim(u.value)
  }

  lemma {:induction false} NormalizeHolds(tags: Tags, t: Tag)
    ensures t in Normalize(tags) <==> exists u :: u in tags && Trim(u.key) != "" && t == Tag(Trim(u.key), Trim(u.value))
  {
    hide Trim;
    if tags != [] {
      var front, last := tags[..|tags| - 1], tags[|tags| - 1];
      NormalizeHolds(front, t);
      assert tags == front + [last];
      NormalizeSnoc(front, last);
      assert last in tags && forall u :: u in tags <==> u in front || u == last;
    }
  }

  lemma ListTagsHolds(tags: Tags, t: Tag)
    ensures t in ListTags(tags) <==> exists u :: u in tags && Trim(u.key) != "" && t == Tag(Trim(u.key), Trim(u.value))
  {
    hide Trim, Normalize, SortTags;
    SortHolds(Normalize(tags));
    NormalizeHolds(tags, t);
  }

  lemma ConsistentIffNoKeysCollide(tags: Tags)
    ensures Consistent(ListTags(tags)) <==> NoKeysCollide(tags)
  {
    hide Trim, ListTags;
    forall t
      ensures t in ListTags(tags)
              <==> exists u :: u in tags && Trim(u.key) != "" && t == Tag(Trim(u.key), Trim(u.value))
    {
      ListTagsHolds(tags, t);
    }
    if Consistent(ListTags(tags)) {
      forall t, u | t in tags && u in tags && Trim(t.key) == Trim(u.key) != ""
        ensures Trim(t.value) == Trim(u.value)
      {
        assert Tag(Trim(t.key), Trim(t.value)) in ListTags(tags) && Tag(Trim(u.key), Trim(u.value)) in ListTags(tags);
      }
    }
  }

  /** Two tags that a migration can lose one of. */
  function CollidingTags(): Tags {
    [Tag("a", "1"), Tag(" a", "2")]
  }

  lemma CollidingTagsCanBeLost(job: Job, w0: World)
    requires Eligible(job, w0) && !job.dryRun && TagsIn(w0, job.sourceId) == CollidingTags()
    ensures CanLoseTags(job, w0)
  {
    hide CanLoseTags, Consistent, ListTags, Trim;
    TrimsOfColliding();
    var tags := CollidingTags();
    assert tags[0] in tags && tags[1] in tags;
    ConsistentIffNoKeysCollide(tags);
    TagsCanBeLostIff(job, w0);
  }

  lemma TrimsOfColliding()
    ensures Trim("a") == Trim(" a") == "a" && Trim("1") == "1" && Trim("2") == "2"
  {
    TrimIsProjection("a");
    TrimIsProjection("1");
    TrimIsProjection("2");
    TrimAfterBlank("a");
    assert " " + "a" == " a";
  }

  // ----------------------------------------- a service that refuses repeated keys

  ghost predicate Repeats(tags: Tags) {
    exists i, j :: 0 <= i < j < |tags| && tags[i].key == tags[j].key
  }

  /** Setting tags with a repeated key fails and changes nothing. */
  ghost predicate RefusesRepeats(run: seq<State>) {
    forall k :: 0 <= k < |run| - 1 ==> RefusesAt(run[k], run[k + 1])
  }

  ghost predicate RefusesAt(s: State, s': State) {
    s.stage.Accepted? && Repeats(s.preserved) ==> s' == State(Restored, s.world, s.preserved)
  }

  lemma DistinctKeysAreConsistent(tags: Tags)
    requires !Repeats(tags)
    ensures Consistent(tags)
  {
    forall t, u | t in tags && u in tags && t.key == u.key
      ensures t.value == u.value
    {
      var i :| 0 <= i < |tags| && tags[i] == t;
      var j :| 0 <= j < |tags| && tags[j] == u;
      assert i == j;
    }
  }

  /** From the snapshot on, the recovery file is there and never removed. */
  ghost predicate FileKept(job: Job, w0: World, s: State) {
    var tags := TagsToMove(job, w0);
    match s.stage
    case Start => true
    case Checked => s.preserved == tags
    case TagsSet => false
    case Done => Eligible(job, w0) && Arrived(job, w0, s.world) ==> s.world.recovery == Some(tags)
    case Failed => Eligible(job, w0) && Arrived(job, w0, s.world) ==> s.world.recovery == Some(tags)
    case _ => s.preserved == tags && s.world.recovery == Some(tags)
  }

  lemma StepKeepsFile(job: Job, w0: World, s: State, s': State)
    requires Inv(job, w0, s) && FileKept(job, w0, s) && Next(job, s, s') && RefusesAt(s, s')
    requires Repeats(TagsToMove(job, w0))
    ensures FileKept(job, w0, s')
  {
    hide PolicyIsReadable, PolicyIsNew, NewPolicy, Put, TagsToMove, Repeats, Delivered;
    RepeatsIsNotEmpty(TagsToMove(job, w0));
  }

  lemma RepeatsIsNotEmpty(tags: Tags)
    requires Repeats(tags)
    ensures tags != []
  {
  }

  lemma {:induction false} EveryStateKeepsFile(job: Job, run: seq<State>, k: nat)
    requires IsRun(job, run) && k < |run| && RefusesRepeats(run) && Repeats(TagsToMove(job, run[0].world))
    ensures FileKept(job, run[0].world, run[k])
  {
    hide Inv, Next, Repeats, RefusesAt;
    if k > 0 {
      EveryStateKeepsFile(job, run, k - 1);
      EveryStateKeepsInv(job, run, k - 1);
      assert RefusesAt(run[k - 1], run[k - 1 + 1]);
      StepKeepsFile(job, run[0].world, run[k - 1], run[k]);
    }
  }

  /** Then tags are never lost, whatever they are. */
  lemma RefusingRepeatsKeepsTags(job: Job, run: seq<State>, k: nat)
    requires IsRun(job, run) && k < |run| && RefusesRepeats(run)
    ensures var w0, w := run[0].world, run[k].world;
      || (w.members == w0.members && w.tags == w0.tags)
      || (Eligible(job, w0) && Arrived(job, w0, w) && TagsKept(job, w, TagsToMove(job, w0)))
  {
    hide Next, Repeats, RefusesRepeats, TagsToMove, Consistent, Holds, Put;
    TagsAreNeverLost(job, run, k);
    var w0 := run[0].world;
    if Repeats(TagsToMove(job, w0)) {
      EveryStateKeepsFile(job, run, k);
      EveryStateKeepsInv(job, run, k);
    } else {
      DistinctKeysAreConsistent(TagsToMove(job, w0));
    }
  }

  /** The role trusts a payer's root by some unconditional Allow of sts:AssumeRole. */
  ghost predicate Trusts(policy: Option<Json>, root: string) {
    Statements(policy).Ok?
        && exists i :: 0 <= i < |Statements(policy).value| && TrustsAt(Statements(policy).value[i], root)
  }

  ghost predicate TrustsAt(stmt: Json, root: string) {
    stmt.Obj? && Grants(stmt.fields) && ListsAws(stmt, root)
  }

  lemma NewPolicyTrusts(job: Job, policy: Option<Json>)
    requires PolicyIsReadable(policy) && job.sourceId != job.destinationId
    ensures Trusts(NewPolicy(job, policy), RootArn(job.destinationId))
  {
    hide RootArn, Replaced, TrustStatement, Grants, ListsAws;
    RootIsNoWildcard(job.sourceId);
    RootIsNoWildcard(job.destinationId);
    var stmts := Statements(policy).value;
    var i := DestinationIsTrusted(stmts, job.sourceId, job.destinationId);
    assert TrustsAt(Replaced(stmts, RootArn(job.sourceId), RootArn(job.destinationId),
                             TrustStatement(job.destinationId))[i],
                    RootArn(job.destinationId));
  }

  /** At every moment the linked role trusts the source payer or the destination payer. */
  lemma RoleTrustsOneOfThem(job: Job, run: seq<State>, k: nat)
    requires IsRun(job, run) && k < |run| && job.sourceId != job.destinationId
    requires Trusts(run[0].world.policy, RootArn(job.sourceId))
    ensures Trusts(run[k].world.policy, RootArn(job.sourceId))
            || Trusts(run[k].world.policy, RootArn(job.destinationId))
  {
    hide PolicyIsReadable, NewPolicy, Trusts, RootArn, Next;
    EveryStateKeepsInv(job, run, k);
    if run[k].world.policy != run[0].world.policy {
      NewPolicyTrusts(job, run[0].world.policy);
    }
  }

  /** At every moment everybody else faces the same trust policy; users and roles of the two payers'
      accounts, to which their root principals delegate, are not meant. */
  lemma OthersFaceTheSamePolicy(job: Job, run: seq<State>, k: nat, who: Requester)
    requires IsRun(job, run) && k < |run| && job.sourceId != job.destinationId && who.name != ""
    requires who != Requester("AWS", RootArn(job.sourceId)) && who != Requester("AWS", RootArn(job.destinationId))
    requires Statements(run[0].world.policy).Ok?
    ensures Statements(run[k].world.policy).Ok?
    ensures Facing(Statements(run[k].world.policy).value, who) == Facing(Statements(run[0].world.policy).value, who)
  {
    hide RootArn, Facing, TrustStatement, Replaced, Next;
    EveryStateKeepsInv(job, run, k);
    if run[k].world.policy != run[0].world.policy {
      ThirdPartiesUnaffected(Statements(run[0].world.policy).value, job.sourceId, job.destinationId, who);
    }
  }

  /** A dry run changes nothing at any moment. */
  lemma DryRunChangesNothing(job: Job, run: seq<State>, k: nat)
    requires IsRun(job, run) && k < |run| && job.dryRun
    ensures run[k].world == run[0].world
  {
    hide PolicyIsReadable, NewPolicy, Next;
    EveryStateKeepsInv(job, run, k);
  }

  /** A completed migration has moved the account, trust, OU and tags. */
  lemma DoneMeansMigrated(job: Job, run: seq<State>)
    requires IsRun(job, run) && run[|run| - 1].stage.Done? && !job.dryRun && job.sourceId != job.destinationId
    ensures var w0, w := run[0].world, run[|run| - 1].world;
      && Eligible(job, w0) && Arrived(job, w0, w) && TagsSafe(job, w, TagsToMove(job, w0))
      && Trusts(w.policy, RootArn(job.destinationId)) && (job.destinationOu == "" || w.ou == job.destinationOu)
  {
    hide PolicyIsReadable, NewPolicy, Trusts, RootArn, Next, TagsToMove, TagsSafe, Put;
    EveryStateKeepsInv(job, run, |run| - 1);
    NewPolicyTrusts(job, run[0].world.policy);
    DeliveredIsSafe(job, run[|run| - 1].world, TagsToMove(job, run[0].world));
  }

  /** A run that is not for a member of its source, or is for one of its destination, changes nothing. */
  lemma IneligibleIsRefused(job: Job, run: seq<State>, k: nat)
    requires IsRun(job, run) && k < |run| && !Eligible(job, run[0].world)
    ensures run[k].world == run[0].world && (k > 0 ==> run[k].stage.Failed?)
  {
    hide PolicyIsReadable, NewPolicy;
    if k > 0 {
      assert Next(job, run[0], run[1]);
      FailedIsLast(job, run, 1);
    }
  }

  /** Running again after a run that moved the account and ended wherever it did, from the same source or to
      the same destination, or, for an account of one organization, from anywhere but the new one: the second
      run fails, changes nothing, and leaves the tags that the first one saved. */
  lemma RerunIsRefused(job: Job, run: seq<State>, again: Job, rerun: seq<State>, k: nat)
    requires IsRun(job, run) && job.sourceId in run[0].world.members && job.sourceId !in run[|run| - 1].world.members
    requires IsRun(again, rerun) && rerun[0].world == run[|run| - 1].world && k < |rerun|
    requires || again.sourceId == job.sourceId || again.destinationId == job.destinationId
             || (run[0].world.members == {job.sourceId} && again.sourceId != job.destinationId)
    ensures rerun[k].world == run[|run| - 1].world && (k > 0 ==> rerun[k].stage.Failed?)
    ensures TagsSafe(job, rerun[k].world, TagsToMove(job, run[0].world))
  {
    hide Next, TagsSafe, TagsToMove;
    TagsAreNeverLost(job, run, |run| - 1);
    IneligibleIsRefused(again, rerun, k);
  }

  lemma FailedIsLast(job: Job, run: seq<State>, i: nat)
    requires IsRun(job, run) && i < |run| && run[i].stage.Failed?
    ensures i == |run| - 1
  {
    forall k | 0 <= k < |run| - 1
      ensures !run[k].stage.Failed?
    {
      assert Next(job, run[k], run[k + 1]);
    }
  }

  // --------------------------------------------------------- the program's run

  datatype Reply = Success | Failure | LostReply

  /** How each call of one migration turns out. */
  datatype Script = Script(resolve: bool, checkSource: bool, checkDestination: bool, listTags: bool, writeFile: bool,
                           invite: Reply,
                           session: bool, accept: Reply, setTags: Reply, removeFile: Reply, trust: Reply, move: Reply,
                             config: Reply)

  // How far a script gets: every call up to a point has succeeded.

  ghost predicate PassesChecks(job: Job, w0: World, script: Script) {
    && script.resolve && script.checkSource && script.checkDestination && script.listTags
    && job.sourceId in w0.members && job.destinationId !in w0.members
  }

  ghost predicate MayInvite(job: Job, w0: World, script: Script) {
    PassesChecks(job, w0, script) && !job.dryRun && (TagsToMove(job, w0) == [] || script.writeFile)
  }

  ghost predicate MayAccept(job: Job, w0: World, script: Script) {
    MayInvite(job, w0, script) && script.invite.Success? && script.session
  }

  ghost predicate HasJoined(job: Job, w0: World, script: Script) {
    MayAccept(job, w0, script) && script.accept.Success?
  }

  ghost predicate HasTrust(job: Job, w0: World, script: Script) {
    HasJoined(job, w0, script) && PolicyIsReadable(w0.policy) && script.trust.Success?
  }

  ghost predicate HasFinished(job: Job, w0: World, script: Script) {
    HasTrust(job, w0, script) && (job.destinationOu == "" || script.move.Success?)
  }

  /** What a migration leaves behind, call by call: a call has its effect if it is reached and does not fail
      outright, even if its reply is lost; only a call whose reply arrives lets the next one start. */
  ghost predicate Outcome(job: Job, w0: World, script: Script, w: World, ok: bool) {
    var tags := TagsToMove(job, w0);
    && ok == (if job.dryRun then PassesChecks(job, w0, script) else HasFinished(job, w0, script))
    && w.invited == (w0.invited || (MayInvite(job, w0, script) && !script.invite.Failure?))
    && w.members == (if MayAccept(job, w0, script) && !script.accept.Failure?
                     then w0.members - {job.sourceId} + {job.destinationId} else w0.members)
    && (forall payer :: TagsIn(w, payer) ==
          if !MayAccept(job, w0, script) || script.accept.Failure? || payer !in [job.sourceId, job.destinationId]
          then TagsIn(w0, payer)
          else if payer == job.destinationId && HasJoined(job, w0, script) && !script.setTags.Failure?
          then Put([], tags)
          else [])
    && w.recovery == (if tags == [] || !MayInvite(job, w0, script) then w0.recovery
                      else if HasJoined(job, w0, script) && script.setTags.Success? && !script.removeFile.Failure?
                      then None
                      else Some(tags))
    && w.policy == (if HasJoined(job, w0, script) && PolicyIsReadable(w0.policy) && !script.trust.Failure?
                    then NewPolicy(job, w0.policy) else w0.policy)
    && w.ou == (if HasTrust(job, w0, script) && job.destinationOu != "" && !script.move.Failure? then job.destinationOu
                else w0.ou)
    && w.localPayer == if HasFinished(job, w0, script) && !script.config.Failure? then job.toAlias else w0.localPayer
  }

  ghost predicate AllSucceed(script: Script) {
    && script.resolve && script.checkSource && script.checkDestination && script.listTags && script.writeFile
    && script.session && script.invite.Success? && script.accept.Success? && script.setTags.Success?
    && script.removeFile.Success? && script.trust.Success? && script.move.Success? && script.config.Success?
  }

  /** If every call succeeds, an eligible account whose role policy is readable has moved with everything. */
  lemma AllSucceedMigrates(job: Job, w0: World, script: Script, w: World, ok: bool, t: Tag)
    requires Outcome(job, w0, script, w, ok) && AllSucceed(script) && !job.dryRun
    requires job.sourceId in w0.members && job.destinationId !in w0.members && PolicyIsReadable(w0.policy)
    ensures ok && job.sourceId !in w.members && job.destinationId in w.members && w.localPayer == job.toAlias
    ensures w.policy == NewPolicy(job, w0.policy) && (job.destinationOu != "" ==> w.ou == job.destinationOu)
    ensures TagsToMove(job, w0) != [] ==> w.recovery.None?
    ensures t in TagsToMove(job, w0) && Consistent(TagsToMove(job, w0)) ==> t in TagsIn(w, job.destinationId)
  {
    hide TagsToMove, Put, Consistent, PolicyIsReadable, NewPolicy;
    PutHoldsIff([], TagsToMove(job, w0));
  }

  /** Tags that could not be set for certain are in the recovery file, in the order in which they were listed. */
  lemma UnsetTagsAreInTheFile(job: Job, w0: World, script: Script, w: World, ok: bool)
    requires Outcome(job, w0, script, w, ok) && TagsToMove(job, w0) != [] && job.sourceId !in w.members
    requires PassesChecks(job, w0, script) && (!script.accept.Success? || !script.setTags.Success?)
    ensures w.recovery == Some(TagsToMove(job, w0))
  {
    hide TagsToMove, Put, PolicyIsReadable, NewPolicy;
  }

  lemma Extend(job: Job, run: seq<State>, s: State)
    requires IsRun(job, run) && Next(job, run[|run| - 1], s)
    ensures IsRun(job, run + [s])
  {
    hide Next;
    var longer := run + [s];
    forall k | 0 <= k < |longer| - 1
      ensures Next(job, longer[k], longer[k + 1])
    {
      if k < |run| - 1 {
        assert longer[k] == run[k] && longer[k + 1] == run[k + 1];
      } else {
        assert longer[k] == run[|run| - 1] && longer[k + 1] == s;
      }
    }
  }

  ghost function WithTagsRestored(job: Job, script: Script, tags: Tags, w: World): World {
    if tags == [] then w
    else
      var tagged := if script.setTags.Failure? then w else WithTags(job, w, tags);
      if script.setTags.Success? && !script.removeFile.Failure? then tagged.(recovery := None) else tagged
  }

  ghost function Retrusted(job: Job, script: Script, w: World): World {
    if PolicyIsReadable(w.policy) && !script.trust.Failure? then WithTrust(job, w) else w
  }

  lemma NothingPut()
    ensures Put([], []) == []
  {
  }

  lemma JoinedOutcome(job: Job, w0: World, script: Script, joined: World, w: World, ok: bool)
    requires HasJoined(job, w0, script)
    requires var tags := TagsToMove(job, w0);
      joined == Transfer(job, w0.(recovery := if tags == [] then w0.recovery else Some(tags), invited := true))
    requires ok == (PolicyIsReadable(w0.policy) && script.trust.Success?
                    && (job.destinationOu == "" || script.move.Success?))
    requires var trusted := Retrusted(job, script, WithTagsRestored(job, script, TagsToMove(job, w0), joined));
      var goesOn := PolicyIsReadable(w0.policy) && script.trust.Success?;
      var moves := goesOn && job.destinationOu != "" && !script.move.Failure?;
      w == trusted.(ou := if moves then job.destinationOu else trusted.ou,
                    localPayer := if ok && !script.config.Failure? then job.toAlias else trusted.localPayer)
    ensures Outcome(job, w0, script, w, ok)
  {
    hide PolicyIsReadable, NewPolicy, TagsToMove, Put;
    NothingPut();
    var restored := WithTagsRestored(job, script, TagsToMove(job, w0), joined);
    assert w.tags == restored.tags && w.members == joined.members;
    forall payer
      ensures TagsIn(w, payer)
           == if payer !in [job.sourceId, job.destinationId] then TagsIn(w0, payer)
              else if payer == job.destinationId && !script.setTags.Failure? then Put([], TagsToMove(job, w0)) else []
    {
    }
  }

  /** The account being migrated, as the remote calls change it. */
  class Migrator {
    var world: World
    ghost var run: seq<State>

    constructor (world: World)
      ensures this.world == world
    {
      this.world := world;
      run := [];
    }

    ghost predicate At(job: Job, stage: Stage, preserved: Tags)
      reads this
    {
      IsRun(job, run) && run[|run| - 1] == State(stage, world, preserved)
    }

    /** Record a step of the protocol together with the world it leaves behind. */
    method Step(ghost job: Job, ghost from: Stage, ghost stage: Stage, ghost preserved: Tags, ghost next: Tags,
                after: World)
      requires At(job, from, preserved) && Next(job, State(from, world, preserved), State(stage, after, next))
      modifies this
      ensures At(job, stage, next) && world == after && run[0] == old(run[0])
    {
      hide Next;
      Extend(job, run, State(stage, after, next));
      run := run + [State(stage, after, next)];
      world := after;
    }

    /** migrateOneAccount: the steps in order; every error return ends the run where it stands. */
    method Migrate(job: Job, script: Script) returns (ok: bool)
      modifies this
      ensures IsRun(job, run) && run[0] == State(Start, old(world), []) && run[|run| - 1].world == world
      ensures run[|run| - 1].stage == if ok then Done else Failed
      ensures Outcome(job, old(world), script, world, ok)
    {
      hide IsRun, PolicyIsReadable, NewPolicy, Statements, TagsToMove, Put;
      StartRun(job);
      run := [State(Start, world, [])];
      var preserved: Tags := [];
      if !script.resolve || !script.checkSource || job.sourceId !in world.members || !script.checkDestination
         || job.destinationId in world.members || !script.listTags {
        Step(job, Start, Failed, [], [], world);
        return false;
      }
      preserved := TagsToMove(job, world);
      Step(job, Start, Checked, [], preserved, world);
      if job.dryRun {
        Step(job, Checked, Done, preserved, preserved, world);
        return true;
      }
      if |preserved| > 0 {
        if !script.writeFile {
          Step(job, Checked, Failed, preserved, preserved, world);
          return false;
        }
        Step(job, Checked, Snapshotted, preserved, preserved, world.(recovery := Some(preserved)));
      } else {
        Step(job, Checked, Snapshotted, preserved, preserved, world);
      }
      ok := Transferred(job, script, preserved);
      if !ok {
        return;
      }
      ghost var joined := world;
      ok := Finished(job, script, preserved);
      JoinedOutcome(job, old(world), script, joined, world, ok);
    }

    lemma StartRun(job: Job)
      ensures IsRun(job, [State(Start, world, [])])
    {
    }

    /** Invite, assume the member role, accept. */
    method Transferred(job: Job, script: Script, preserved: Tags) returns (ok: bool)
      requires At(job, Snapshotted, preserved)
      modifies this
      ensures At(job, if ok then Accepted else Failed, preserved) && run[0] == old(run[0])
      ensures ok == (script.invite.Success? && script.session && script.accept.Success?)
      ensures var w := if script.invite.Failure? then old(world) else old(world).(invited := true);
        world == if script.invite.Success? && script.session && !script.accept.Failure? then Transfer(job, w) else w
    {
      hide IsRun, PolicyIsReadable, NewPolicy, Statements, TagsToMove, Put;
      if !script.invite.Success? {
        Step(job, Snapshotted, Failed, preserved, preserved,
             if script.invite.LostReply? then world.(invited := true) else world);
        return false;
      }
      Step(job, Snapshotted, Invited, preserved, preserved, world.(invited := true));
      if !script.session {
        Step(job, Invited, Failed, preserved, preserved, world);
        return false;
      }
      Step(job, Invited, Assumed, preserved, preserved, world);
      if !script.accept.Success? {
        Step(job, Assumed, Failed, preserved, preserved,
             if script.accept.LostReply? then Transfer(job, world) else world);
        return false;
      }
      Step(job, Assumed, Accepted, preserved, preserved, Transfer(job, world));
      return true;
    }

    /** Restore tags, update the role trust, move, update the local config. */
    method Finished(job: Job, script: Script, preserved: Tags) returns (ok: bool)
      requires At(job, Accepted, preserved)
      modifies this
      ensures At(job, if ok then Done else Failed, preserved) && run[0] == old(run[0])
      ensures ok == (PolicyIsReadable(old(world).policy) && script.trust.Success?
                     && (job.destinationOu == "" || script.move.Success?))
      ensures var w := Retrusted(job, script, WithTagsRestored(job, script, preserved, old(world)));
        var goesOn := PolicyIsReadable(old(world).policy) && script.trust.Success?;
        var moves := goesOn && job.destinationOu != "" && !script.move.Failure?;
        world == w.(ou := if moves then job.destinationOu else w.ou,
                    localPayer := if ok && !script.config.Failure? then job.toAlias else w.localPayer)
    {
      hide IsRun, PolicyIsReadable, NewPolicy, Statements, TagsToMove, Put;
      RestoreTags(job, script, preserved);
      ok := Trust(job, script, preserved);
      if !ok {
        return;
      }
      if job.destinationOu != "" {
        if !script.move.Success? {
          Step(job, Trusted, Failed, preserved, preserved,
               if script.move.LostReply? then world.(ou := job.destinationOu) else world);
          return false;
        }
        Step(job, Trusted, Moved, preserved, preserved, world.(ou := job.destinationOu));
      } else {
        Step(job, Trusted, Moved, preserved, preserved, world);
      }
      Step(job, Moved, Done, preserved, preserved,
           if script.config.Failure? then world else world.(localPayer := job.toAlias));
      return true;
    }

    /** A failure here is only a warning; the recovery file then stays. */
    method RestoreTags(job: Job, script: Script, preserved: Tags)
      requires At(job, Accepted, preserved)
      modifies this
      ensures At(job, Restored, preserved) && run[0] == old(run[0])
      ensures world == WithTagsRestored(job, script, preserved, old(world))
    {
      hide IsRun, PolicyIsReadable, NewPolicy, Statements, TagsToMove, Put;
      if |preserved| > 0 {
        if !script.setTags.Success? {
          Step(job, Accepted, Restored, preserved, preserved,
               if script.setTags.LostReply? then WithTags(job, world, preserved) else world);
        } else {
          Step(job, Accepted, TagsSet, preserved, preserved, WithTags(job, world, preserved));
          Step(job, TagsSet, Restored, preserved, preserved,
               if script.removeFile.Failure? then world else world.(recovery := None));
        }
      } else {
        Step(job, Accepted, Restored, preserved, preserved, world);
      }
    }

    method Trust(job: Job, script: Script, preserved: Tags) returns (ok: bool)
      requires At(job, Restored, preserved)
      modifies this
      ensures At(job, if ok then Trusted else Failed, preserved) && run[0] == old(run[0])
      ensures ok == (PolicyIsReadable(old(world).policy) && script.trust.Success?)
      ensures world == Retrusted(job, script, old(world))
    {
      hide IsRun;
      var updated := UpdateTrust(world.policy, job.sourceId, job.destinationId);
      if updated.Err? || script.trust.Failure? {
        Step(job, Restored, Failed, preserved, preserved, world);
        return false;
      }
      UpdateIsNewPolicy(job, world.policy, updated.value);
      if script.trust.LostReply? {
        Step(job, Restored, Failed, preserved, preserved, world.(policy := Some(Arr(updated.value))));
        return false;
      }
      Step(job, Restored, Trusted, preserved, preserved, world.(policy := Some(Arr(updated.value))));
      return true;
    }
  }

  lemma UpdateIsNewPolicy(job: Job, policy: Option<Json>, stmts: seq<Json>)
    requires Statements(policy).Ok? && AllStatements(Statements(policy).value) && RootArn(job.sourceId) != ""
    requires RootArn(job.destinationId) != ""
    requires stmts
            == Replaced(Statements(policy).value, RootArn(job.sourceId), RootArn(job.destinationId),
                        TrustStatement(job.destinationId))
    ensures PolicyIsReadable(policy) && NewPolicy(job, policy) == Some(Arr(stmts))
  {
    hide Replaced, RootArn, TrustStatement;
  }

  // ---------------------------------------------------------- several accounts

  /** What formatMigratePartialSummary reports. */
  datatype Summary = Complete(succeeded: seq<string>)
      | Partial(succeeded: seq<string>, failed: string, remaining: seq<string>)

  predicate Accounts(summary: Summary, accountIds: seq<string>) {
    match summary
    case Complete(succeeded) => succeeded == accountIds
    case Partial(succeeded, failed, remaining) => succeeded + [failed] + remaining == accountIds
  }

  /** runAWSMigrateAccount's loop: in order, stopping at the first failure; later accounts are untouched. */
  method MigrateAll(job: Job, accountIds: seq<string>, members: seq<Migrator>, scripts: seq<Script>)
    returns (summary: Summary)
    requires |members| == |accountIds| == |scripts|
    requires forall i, j :: 0 <= i < j < |members| ==> members[i] != members[j]
    modifies members
    ensures Accounts(summary, accountIds)
    ensures forall i :: 0 <= i < |summary.succeeded| ==>
              IsRun(job, members[i].run) && members[i].run[|members[i].run| - 1].stage.Done?
    ensures summary.Partial? ==>
              var run := members[|summary.succeeded|].run;
              run != [] && run[|run| - 1].stage.Failed?
    ensures forall i :: 0 <= i < |summary.succeeded| ==>
              Outcome(job, old(members[i].world), scripts[i], members[i].world, true)
    ensures summary.Partial? ==>
              var i := |summary.succeeded|;
              Outcome(job, old(members[i].world), scripts[i], members[i].world, false)
    ensures forall i :: |summary.succeeded| < i < |members| ==> members[i].world == old(members[i].world)
  {
    hide IsRun, Outcome;
    for i := 0 to |accountIds|
      invariant forall k :: 0 <= k < i ==>
                IsRun(job, members[k].run) && members[k].run != [] && members[k].run[|members[k].run| - 1].stage.Done?
      invariant forall k :: 0 <= k < i ==> Outcome(job, old(members[k].world), scripts[k], members[k].world, true)
      invariant forall k :: i <= k < |members| ==> members[k].world == old(members[k].world)
    {
      var ok := members[i].Migrate(job, scripts[i]);
      RunIsNotEmpty(job, members[i].run);
      if !ok {
        return Partial(accountIds[..i], accountIds[i], accountIds[i + 1..]);
      }
    }
    return Complete(accountIds);
  }

  lemma RunIsNotEmpty(job: Job, run: seq<State>)
    requires IsRun(job, run)
    ensures run != []
  {
  }
}
