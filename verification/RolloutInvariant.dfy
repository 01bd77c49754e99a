/** The inductive invariant of the rollout machine, and its preservation action by action. */
module RolloutInvariant {
  import opened Collections
  import opened Cloud
  import opened Rollout

  function Max(a: int, b: int): int {
    if a < b then b else a
  }

  function Originals(s: Saved): set<Id> {
    if s.asgs == [] then {} else Elements(s.asgs[0].originalInstances)
  }

  function NewOnes(s: Saved): set<Id> {
    if s.asgs == [] then {} else Elements(s.asgs[0].newInstances)
  }

  /** The number of stages flagged as done. */
  function Level(s: Saved): nat {
    if !s.gatherDone then 0 else if !s.setMaxDone then 1 else if !s.scaleUpDone then 2 else if !s.waitDone then 3
    else if !s.cordonDone then 4 else if !s.drainDone then 5 else if !s.detachDone then 6
    else if !s.terminateDone then 7 else 8
  }

  function Index(s: Stage): nat {
    match s
    case Gather => 0
    case SetMax => 1
    case ScaleUp => 2
    case WaitNodes => 3
    case Cordon => 4
    case Drain => 5
    case Detach => 6
    case Terminate => 7
    case Restore => 8
  }

  /** The flags are a prefix of the stage order, and the last flag is never set. */
  predicate PrefixFlags(s: Saved) {
    && !s.restoreDone
    && (s.setMaxDone ==> s.gatherDone)
    && (s.scaleUpDone ==> s.setMaxDone)
    && (s.waitDone ==> s.scaleUpDone)
    && (s.cordonDone ==> s.waitDone)
    && (s.drainDone ==> s.cordonDone)
    && (s.detachDone ==> s.drainDone)
    && (s.terminateDone ==> s.detachDone)
  }

  /** The recorded originals are those of the group as the rollout found it. */
  ghost predicate OriginalsMatch(s: Saved, past: Past) {
    && past.Rollout?
    && |s.asgs| == 1
    && s.asgs[0].originalCapacity == past.before.desired
    && s.asgs[0].originalMaxCapacity == past.before.maxSize
    && s.asgs[0].originalInstances == past.originals
  }

  ghost predicate RecordOk(s: Saved, past: Past, lost: set<Id>) {
    && OriginalsMatch(s, past)
    && Lists(past.originals, past.before.members)
    && past.before.minSize <= past.before.desired <= past.before.maxSize
    && |Originals(s)| <= past.before.desired <= |Originals(s) + lost|
    && Originals(s) !! past.before.Worked()
    && s.asgs[0].maxCapacityForUpdate == (if s.setMaxDone then 2 * past.before.desired else 0)
  }

  ghost predicate CapacityOk(s: Saved, c: Cloud, before: Cloud) {
    var hi := Max(before.maxSize, 2 * before.desired);
    && c.minSize == before.minSize
    && c.maxSize in {before.maxSize, hi}
    && (s.setMaxDone && !s.terminateDone ==> c.maxSize == hi)
    && (!s.setMaxDone ==> c.desired == before.desired)
    && (!s.scaleUpDone ==> c.desired in {before.desired, 2 * before.desired})
    && (s.scaleUpDone && !s.terminateDone ==> c.desired == 2 * before.desired - |Originals(s) * c.detached|)
    && (s.terminateDone ==>
         var full := 2 * before.desired - |Originals(s)|;
         c.desired == full || c.desired == c.maxSize == before.maxSize < full)
    && (!s.terminateDone ==> |c.members| <= c.desired)
  }

  /** What each flag promises about the cloud, and what its absence rules out. */
  ghost predicate EffectsOk(s: Saved, c: Cloud, before: Cloud) {
    var o := Originals(s);
    && before.cordoned <= c.cordoned <= before.cordoned + o
    && before.drained <= c.drained <= before.drained + o
    && before.detached <= c.detached <= before.detached + o
    && before.attempted <= c.attempted <= before.attempted + o
    && o <= c.seen
    && (!s.waitDone ==> c.cordoned == before.cordoned)
    && (s.cordonDone ==> o <= c.cordoned)
    && (!s.cordonDone ==> c.drained == before.drained)
    && (s.drainDone ==> o <= c.drained)
    && (!s.drainDone ==> c.detached == before.detached)
    && (s.detachDone ==> o <= c.detached)
    && (o * c.detached != {} ==>
          s.asgs != [] && s.asgs[0].originalInstances != [] && s.asgs[0].originalInstances[0] in c.detached)
    && (!s.detachDone ==> c.attempted == before.attempted)
    && (s.terminateDone ==> o <= c.attempted)
    && c.Worked() * c.members <= o
  }

  /** Where the recorded instances are: originals in the group until they are detached, new ones untouched. */
  ghost predicate InstancesOk(s: Saved, c: Cloud, lost: set<Id>) {
    && Originals(s) <= c.members + c.detached + lost
    && (!s.scaleUpDone ==> NewOnes(s) == {})
    && NewOnes(s) <= c.seen
    && NewOnes(s) !! Originals(s)
    && NewOnes(s) !! c.Worked()
    && NewOnes(s) <= c.members + lost
    && (s.waitDone ==> NewOnes(s) <= c.ready + lost)
  }

  ghost predicate EnoughNew(s: Saved, lost: set<Id>, capacity: int) {
    s.scaleUpDone ==> capacity <= |NewOnes(s) + (lost - Originals(s))|
  }

  /** What holds as long as no instance has failed on its own. */
  ghost predicate LossFree(s: Saved, c: Cloud, before: Cloud) {
    && |Originals(s)| == before.desired
    && (!s.scaleUpDone ==> Originals(s) <= c.members)
    && (s.scaleUpDone ==> c.members == (Originals(s) - c.detached) + NewOnes(s))
    && (s.scaleUpDone ==> |NewOnes(s)| == before.desired && |c.members| == c.desired)
  }

  /** What a record of progress, in memory or on disk, means for the cloud. */
  ghost predicate Meaning(s: Saved, c: Cloud, past: Past, lost: set<Id>) {
    && PrefixFlags(s)
    && if !s.gatherDone
       then s == Fresh && c.Worked() !! c.members
       else
         && past.Rollout? && RecordOk(s, past, lost)
         && CapacityOk(s, c, past.before)
         && EffectsOk(s, c, past.before)
         && InstancesOk(s, c, lost)
         && EnoughNew(s, lost, past.before.desired)
         && (lost == {} ==> LossFree(s, c, past.before))
  }

  /** Did the rollout alter anything in the cloud? */
  predicate Changed(before: Cloud, c: Cloud) {
    || c.desired != before.desired
    || c.maxSize != before.maxSize
    || c.cordoned != before.cordoned
    || c.drained != before.drained
    || c.detached != before.detached
    || c.attempted != before.attempted
  }

  ghost predicate DiskOk(w: World) {
    match w.disk
    case Absent =>
      && w.cloud.Worked() !! w.cloud.members
      && (w.past.Rollout? && w.past.active ==> Level(w.mem) <= 1 && !Changed(w.past.before, w.cloud))
    case Corrupt => w.past.Rollout? && w.past.active
    case Valid(d) =>
      && d.gatherDone && w.past.Rollout? && w.past.active
      && Meaning(d, w.cloud, w.past, w.lost)
      && Level(d) <= Level(w.mem) <= Level(d) + 1
  }

  /** Memory and file agree. */
  ghost predicate Synced(w: World) {
    if w.disk.Valid? then w.disk.saved == w.mem else w.disk.Absent? && w.mem == Fresh
  }

  ghost predicate Restored(w: World) {
    w.past.Rollout? && w.cloud.maxSize == w.past.before.maxSize
  }

  ghost predicate Doubled(w: World) {
    w.past.Rollout? && w.cloud.desired == 2 * w.past.before.desired
  }

  /** Counting the failures, the group holds a full set of instances besides the originals. */
  ghost predicate Launched(w: World) {
    w.past.Rollout? && w.past.before.desired <= |(w.cloud.members + w.lost) - Originals(w.mem)|
  }

  ghost predicate ProcOk(w: World) {
    var m, c := w.mem, w.cloud;
    match w.proc
    case Dead => true
    case Finished => Level(m) == 8 && Restored(w) && !w.disk.Corrupt?
    case Alive(pc) =>
      match pc
      case Enter(s) => Synced(w) && Index(s) <= Level(m) && (s != Gather ==> m.gatherDone)
      case GatherWaiting => Synced(w) && Level(m) == 0
      case GatherReread => Synced(w) && Level(m) == 0 && |c.members| <= c.desired <= |c.members + w.lost|
                           && (w.lost == {} ==> |c.members| == c.desired)
      case ScaleWaiting => Synced(w) && Level(m) == 2 && Doubled(w)
      case ScaleReading =>
        && Synced(w) && Level(m) == 2 && Doubled(w)
        && Launched(w)
        && (w.lost == {} ==> |c.members| == c.desired)
      case LbWaiting => Synced(w) && Level(m) == 3 && NewOnes(m) <= c.ready + w.lost
      case Cordoning(todo, failed) =>
        && Synced(w) && Level(m) == 4
        && todo <= Originals(m)
        && (!failed ==> Originals(m) - todo <= c.cordoned)
      case Draining(todo, failed) =>
        && Synced(w) && Level(m) == 5
        && todo <= Originals(m)
        && (!failed ==> Originals(m) - todo <= c.drained)
      case Detaching(k) =>
        && Synced(w) && Level(m) == 6
        && m.asgs != [] && k <= |m.asgs[0].originalInstances|
        && Elements(m.asgs[0].originalInstances[..k]) <= c.detached
      case Terminating(k) =>
        && Synced(w) && Level(m) == 7
        && m.asgs != [] && k <= |m.asgs[0].originalInstances|
        && Elements(m.asgs[0].originalInstances[..k]) <= c.attempted
      case Persisting(s) =>
        && Level(m) == (if s == Restore then 8 else Index(s) + 1)
        && (s == Gather <==> w.disk.Absent?)
        && !w.disk.Corrupt?
        && (w.disk.Valid? ==> Level(w.disk.saved) == Index(s))
        && (s == Restore ==> w.disk == Valid(m) && Restored(w))
      case Writing(s) =>
        && Level(m) == (if s == Restore then 8 else Index(s) + 1)
        && w.disk.Corrupt?
        && (s == Restore ==> Restored(w))
      case Deleting => Synced(w) && Level(m) == 8 && Restored(w)
  }

  ghost predicate Inv(w: World) {
    && w.cloud.WellFormed()
    && Meaning(w.mem, w.cloud, w.past, w.lost)
    && DiskOk(w)
    && ProcOk(w)
    && (w.mem.gatherDone ==> w.past.Rollout? && (w.proc.Alive? ==> w.past.active))
  }

  lemma InitInv(w: World)
    requires Init(w)
    ensures Inv(w)
  {
  }

  // ---- what a change leaves alone ----

  /** Only the four flags after scaling up tell two records apart, and the last of them agrees. */
  lemma FlagOnly(m: Saved, m': Saved, c: Cloud, past: Past, lost: set<Id>)
    requires past.Rollout? && m'.asgs == m.asgs && m'.setMaxDone == m.setMaxDone && m'.scaleUpDone == m.scaleUpDone
    ensures RecordOk(m, past, lost) ==> RecordOk(m', past, lost)
    ensures m'.terminateDone == m.terminateDone && CapacityOk(m, c, past.before) ==> CapacityOk(m', c, past.before)
    ensures m'.waitDone == m.waitDone && InstancesOk(m, c, lost) ==> InstancesOk(m', c, lost)
    ensures EnoughNew(m, lost, past.before.desired) ==> EnoughNew(m', lost, past.before.desired)
    ensures LossFree(m, c, past.before) ==> LossFree(m', c, past.before)
  {
  }

  /** The sizes and the membership of the group stay. */
  lemma SizesKept(m: Saved, c: Cloud, c': Cloud, before: Cloud)
    requires c'.minSize == c.minSize && c'.desired == c.desired && c'.maxSize == c.maxSize
    requires c'.members == c.members && c'.detached == c.detached
    ensures CapacityOk(m, c, before) ==> CapacityOk(m, c', before)
    ensures LossFree(m, c, before) ==> LossFree(m, c', before)
  {
  }

  // ---- environment ----

  lemma LaunchKeepsMeaning(s: Saved, c: Cloud, c': Cloud, i: Id, past: Past, lost: set<Id>)
    requires c.WellFormed() && Meaning(s, c, past, lost) && Launch(c, c', i)
    ensures c'.WellFormed() && Meaning(s, c', past, lost)
  {
  }

  lemma ReadyKeepsMeaning(s: Saved, c: Cloud, c': Cloud, i: Id, past: Past, lost: set<Id>)
    requires c.WellFormed() && Meaning(s, c, past, lost) && BecomeReady(c, c', i)
    ensures c'.WellFormed() && Meaning(s, c', past, lost)
  {
  }

  /** The counts allow for one more failure. */
  lemma FailKeepsCounts(s: Saved, i: Id, past: Past, lost: set<Id>)
    requires past.Rollout? && RecordOk(s, past, lost) && EnoughNew(s, lost, past.before.desired)
    ensures RecordOk(s, past, lost + {i}) && EnoughNew(s, lost + {i}, past.before.desired)
  {
    SubsetSize(Originals(s) + lost, Originals(s) + (lost + {i}));
    SubsetSize(NewOnes(s) + (lost - Originals(s)), NewOnes(s) + (lost + {i} - Originals(s)));
  }

  lemma FailKeepsPlaces(s: Saved, c: Cloud, c': Cloud, i: Id, leaves: bool, before: Cloud, lost: set<Id>)
    requires c.WellFormed() && Fail(c, c', i, leaves)
    requires CapacityOk(s, c, before) && EffectsOk(s, c, before) && InstancesOk(s, c, lost)
    ensures c'.WellFormed()
    ensures CapacityOk(s, c', before) && EffectsOk(s, c', before) && InstancesOk(s, c', lost + {i})
  {
    SubsetSize(c'.members, c.members);
    assert c'.Worked() * c'.members <= c.Worked() * c.members;
  }

  lemma FailKeepsMeaning(s: Saved, c: Cloud, c': Cloud, i: Id, leaves: bool, past: Past, lost: set<Id>)
    requires c.WellFormed() && Meaning(s, c, past, lost) && Fail(c, c', i, leaves)
    ensures c'.WellFormed() && Meaning(s, c', past, lost + {i})
  {
    hide RecordOk, CapacityOk, EffectsOk, InstancesOk, EnoughNew, LossFree;
    if s.gatherDone {
      FailKeepsCounts(s, i, past, lost);
      FailKeepsPlaces(s, c, c', i, leaves, past.before, lost);
    }
  }

  lemma LaunchKeepsPlace(w: World, w': World, i: Id)
    requires ProcOk(w) && Launch(w.cloud, w'.cloud, i) && w' == w.(cloud := w'.cloud)
    ensures ProcOk(w')
  {
    SubsetSize(w.cloud.members + w.lost, w'.cloud.members + w.lost);
    SubsetSize((w.cloud.members + w.lost) - Originals(w.mem), (w'.cloud.members + w.lost) - Originals(w.mem));
  }

  lemma FailKeepsPlace(w: World, w': World, i: Id, leaves: bool)
    requires ProcOk(w) && Fail(w.cloud, w'.cloud, i, leaves) && w' == w.(cloud := w'.cloud, lost := w.lost + {i})
    ensures ProcOk(w')
  {
    SubsetSize(w'.cloud.members, w.cloud.members);
    assert w'.cloud.members + w'.lost == w.cloud.members + w.lost;
  }

  lemma ReadyKeepsPlace(w: World, w': World, i: Id)
    requires ProcOk(w) && BecomeReady(w.cloud, w'.cloud, i) && w' == w.(cloud := w'.cloud)
    ensures ProcOk(w')
  {
  }

  lemma EnvKeepsPlace(w: World, w': World)
    requires ProcOk(w) && EnvStep(w, w')
    ensures ProcOk(w')
  {
    if i :| Launch(w.cloud, w'.cloud, i) && w' == w.(cloud := w'.cloud) {
      LaunchKeepsPlace(w, w', i);
    } else if i :| BecomeReady(w.cloud, w'.cloud, i) && w' == w.(cloud := w'.cloud) {
      ReadyKeepsPlace(w, w', i);
    } else {
      var i, leaves :| Fail(w.cloud, w'.cloud, i, leaves) && w' == w.(cloud := w'.cloud, lost := w.lost + {i});
      FailKeepsPlace(w, w', i, leaves);
    }
  }

  lemma EnvKeepsMeaning(w: World, w': World, s: Saved)
    requires EnvStep(w, w') && w.cloud.WellFormed() && Meaning(s, w.cloud, w.past, w.lost)
    ensures w'.cloud.WellFormed() && Meaning(s, w'.cloud, w'.past, w'.lost)
  {
    hide Meaning;
    if i :| Launch(w.cloud, w'.cloud, i) && w' == w.(cloud := w'.cloud) {
      LaunchKeepsMeaning(s, w.cloud, w'.cloud, i, w.past, w.lost);
    } else if i :| BecomeReady(w.cloud, w'.cloud, i) && w' == w.(cloud := w'.cloud) {
      ReadyKeepsMeaning(s, w.cloud, w'.cloud, i, w.past, w.lost);
    } else {
      var i, leaves :| Fail(w.cloud, w'.cloud, i, leaves) && w' == w.(cloud := w'.cloud, lost := w.lost + {i});
      FailKeepsMeaning(s, w.cloud, w'.cloud, i, leaves, w.past, w.lost);
    }
  }

  lemma EnvKeepsRest(w: World, w': World)
    requires EnvStep(w, w') && w.cloud.WellFormed()
    ensures w' == w.(cloud := w'.cloud, lost := w'.lost)
    ensures w.cloud.Worked() !! w.cloud.members ==> w'.cloud.Worked() !! w'.cloud.members
    ensures w.past.Rollout? && !Changed(w.past.before, w.cloud) ==> !Changed(w.past.before, w'.cloud)
  {
  }

  lemma EnvInv(w: World, w': World)
    requires Inv(w) && EnvStep(w, w')
    ensures Inv(w')
  {
    EnvKeepsMeaning(w, w', w.mem);
    EnvKeepsPlace(w, w');
    EnvKeepsRest(w, w');
    if w.disk.Valid? {
      EnvKeepsMeaning(w, w', w.disk.saved);
    }
  }

  // ---- the process ----

  lemma StopInv(w: World, w': World)
    requires Inv(w) && Stop(w, w')
    ensures Inv(w')
  {
  }

  lemma RestartInv(w: World, w': World)
    requires Inv(w) && Restart(w, w')
    ensures Inv(w')
  {
  }

  lemma SkipKeepsPlace(w: World, w': World)
    requires ProcOk(w) && PrefixFlags(w.mem) && SkipStep(w, w')
    ensures ProcOk(w')
  {
  }

  lemma SkipInv(w: World, w': World)
    requires Inv(w) && SkipStep(w, w')
    ensures Inv(w')
  {
    SkipKeepsPlace(w, w');
  }

  lemma GatherRecords(w: World, w': World, ids: seq<Id>, lost: set<Id>)
    requires w.cloud.WellFormed() && w.disk.Absent? && w.mem == Fresh && w.cloud.Worked() !! w.cloud.members
    requires Lists(ids, w.cloud.members)
    requires |w.cloud.members| <= w.cloud.desired <= |w.cloud.members + lost|
    requires lost == {} ==> |w.cloud.members| == w.cloud.desired
    requires w' == w.(proc := Alive(Persisting(Gather)), mem := Recorded(w.mem, w.cloud, ids),
                      past := Rollout(w.cloud, ids, true), lost := lost)
    ensures Inv(w')
  {
    ElementsSize(ids);
    assert Originals(w'.mem) == w.cloud.members;
  }

  lemma GatherWaitInv(w: World, w': World)
    requires Inv(w) && (GatherWait(w, w') || GatherSettled(w, w'))
    ensures Inv(w')
  {
    hide RecordOk, CapacityOk, EffectsOk, InstancesOk, EnoughNew, LossFree;
    assert w.cloud.members + {} == w.cloud.members;
  }

  /** Where gathering starts from. */
  lemma GatherFinds(w: World)
    requires Inv(w) && (Begins(w, Gather) || At(w, GatherReread))
    ensures w.cloud.WellFormed() && w.disk.Absent? && w.mem == Fresh && w.cloud.Worked() !! w.cloud.members
    ensures At(w, GatherReread) ==>
      && |w.cloud.members| <= w.cloud.desired <= |w.cloud.members + w.lost|
      && (w.lost == {} ==> |w.cloud.members| == w.cloud.desired)
  {
    hide RecordOk, CapacityOk, EffectsOk, InstancesOk, EnoughNew, LossFree;
  }

  lemma GatherInv(w: World, w': World)
    requires Inv(w) && GatherStep(w, w')
    ensures Inv(w')
  {
    hide Inv, GatherWait, GatherSettled;
    if ids :| GatherNow(w, w', ids) {
      GatherFinds(w);
      ElementsSize(ids);
      assert w.cloud.members + {} == w.cloud.members;
      GatherRecords(w, w', ids, {});
    } else if GatherWait(w, w') || GatherSettled(w, w') {
      GatherWaitInv(w, w');
    } else {
      var ids :| GatherAgain(w, w', ids);
      GatherFinds(w);
      GatherRecords(w, w', ids, w.lost);
    }
  }

  /** A stage's effect is allowed before its flag is set, and is enough to set it. */
  lemma RaisedMaxMeaning(m: Saved, c: Cloud, past: Past, lost: set<Id>)
    requires Meaning(m, c, past, lost) && Level(m) == 1
    requires past.before.maxSize < 2 * past.before.desired ==> c.maxSize == 2 * past.before.desired
    ensures Meaning(RaisedMax(m), c, past, lost)
  {
    assert Originals(RaisedMax(m)) == Originals(m);
    assert NewOnes(RaisedMax(m)) == NewOnes(m);
  }

  lemma SetMaxMeaning(m: Saved, c: Cloud, c': Cloud, past: Past, lost: set<Id>)
    requires c.WellFormed() && Meaning(m, c, past, lost) && Level(m) == 1
    requires c.minSize <= 2 * past.before.desired
    requires c' == if past.before.maxSize < 2 * past.before.desired then c.WithMaxSize(2 * past.before.desired) else c
    ensures c'.WellFormed() && Meaning(m, c', past, lost) && Meaning(RaisedMax(m), c', past, lost)
  {
    hide RecordOk, EnoughNew, RaisedMax;
    RaisedMaxMeaning(m, c', past, lost);
  }

  lemma SetMaxInv(w: World, w': World)
    requires Inv(w) && SetMaxStep(w, w')
    ensures Inv(w')
  {
    SetMaxMeaning(w.mem, w.cloud, w'.cloud, w.past, w.lost);
  }

  lemma ScaleRequestCapacity(m: Saved, c: Cloud, c': Cloud, before: Cloud)
    requires CapacityOk(m, c, before) && Level(m) == 2 && PrefixFlags(m) && 0 <= before.desired
    requires c' == c.(desired := 2 * before.desired)
    ensures CapacityOk(m, c', before)
  {
  }

  lemma DesiredOnly(m: Saved, c: Cloud, c': Cloud, past: Past, lost: set<Id>)
    requires past.Rollout? && !m.scaleUpDone && c' == c.(desired := c'.desired)
    requires EffectsOk(m, c, past.before) && InstancesOk(m, c, lost) && (lost == {} ==> LossFree(m, c, past.before))
    ensures EffectsOk(m, c', past.before) && InstancesOk(m, c', lost) && (lost == {} ==> LossFree(m, c', past.before))
  {
  }

  lemma ScaleRequestMeaning(m: Saved, c: Cloud, c': Cloud, past: Past, lost: set<Id>)
    requires c.WellFormed() && Meaning(m, c, past, lost) && Level(m) == 2
    requires c.minSize <= 2 * past.before.desired <= c.maxSize
    requires c' == c.(desired := 2 * past.before.desired)
    ensures c'.WellFormed() && Meaning(m, c', past, lost)
  {
    hide EnoughNew, CapacityOk, EffectsOk, InstancesOk, LossFree;
    ScaleRequestCapacity(m, c, c', past.before);
    DesiredOnly(m, c, c', past, lost);
  }

  lemma ScaleRequestInv(w: World, w': World)
    requires Inv(w) && ScaleRequest(w, w')
    ensures Inv(w')
  {
    ScaleRequestMeaning(w.mem, w.cloud, w'.cloud, w.past, w.lost);
  }

  /** The set difference: at twice the capacity, at most `capacity` members are originals, so at least as many
      are not, whichever originals were replaced in the meantime. */
  lemma EnoughLaunched(members: set<Id>, originals: set<Id>, lost: set<Id>, capacity: int)
    requires |members| == 2 * capacity && |originals| <= capacity
    ensures capacity <= |members - originals|
    ensures capacity <= |(members + lost) - originals|
  {
    assert members == (members - originals) + (members * originals);
    SubsetSize(members * originals, originals);
    SubsetSize(members - originals, (members + lost) - originals);
  }

  lemma ScaleReachedPlace(w: World, w': World)
    requires ProcOk(w) && RecordOk(w.mem, w.past, w.lost) && ScaleReached(w, w')
    ensures ProcOk(w')
  {
    EnoughLaunched(w.cloud.members, Originals(w.mem), w.lost, w.past.before.desired);
  }

  lemma ScaleReachedInv(w: World, w': World)
    requires Inv(w) && ScaleReached(w, w')
    ensures Inv(w')
  {
    ScaleReachedPlace(w, w');
  }

  lemma ScaleReadNew(m: Saved, c: Cloud, ids: seq<Id>, lost: set<Id>)
    requires c.WellFormed() && m.asgs != [] && c.Worked() * c.members <= Originals(m)
    requires !m.waitDone && Lists(ids, c.members - Originals(m)) && InstancesOk(m, c, lost)
    ensures Originals(WithNew(m, ids)) == Originals(m)
    ensures NewOnes(WithNew(m, ids)) == c.members - Originals(m)
    ensures InstancesOk(WithNew(m, ids), c, lost)
  {
    assert forall i :: i in c.members && i in c.Worked() ==> i in c.Worked() * c.members;
  }

  lemma ScaleReadLossFree(m: Saved, c: Cloud, ids: seq<Id>, before: Cloud)
    requires m.asgs != [] && !m.scaleUpDone && LossFree(m, c, before)
    requires Originals(m) !! c.detached
    requires |c.members| == c.desired == 2 * before.desired
    requires Originals(WithNew(m, ids)) == Originals(m)
    requires NewOnes(WithNew(m, ids)) == c.members - Originals(m)
    ensures LossFree(WithNew(m, ids), c, before)
  {
    var o, n := Originals(m), NewOnes(WithNew(m, ids));
    assert o - c.detached == o;
    assert c.members == o + n;
    assert |c.members| == |o| + |n|;
  }

  lemma ScaleReadCapacity(m: Saved, c: Cloud, ids: seq<Id>, before: Cloud)
    requires m.asgs != [] && CapacityOk(m, c, before) && PrefixFlags(m) && Level(m) == 2
    requires c.desired == 2 * before.desired
    requires Originals(m) !! c.detached && Originals(WithNew(m, ids)) == Originals(m)
    ensures CapacityOk(WithNew(m, ids), c, before)
  {
    assert Originals(m) * c.detached == {};
  }

  lemma ScaleReadRecord(m: Saved, c: Cloud, ids: seq<Id>, past: Past, lost: set<Id>)
    requires past.Rollout? && RecordOk(m, past, lost) && EffectsOk(m, c, past.before) && PrefixFlags(m) && Level(m) == 2
    ensures RecordOk(WithNew(m, ids), past, lost) && EffectsOk(WithNew(m, ids), c, past.before)
    ensures Originals(WithNew(m, ids)) == Originals(m)
    ensures Originals(m) !! c.detached && c.Worked() * c.members <= Originals(m)
  {
  }

  lemma ScaleReadEnough(m: Saved, c: Cloud, ids: seq<Id>, lost: set<Id>, capacity: int)
    requires m.asgs != [] && capacity <= |(c.members + lost) - Originals(m)|
    requires Originals(WithNew(m, ids)) == Originals(m) && NewOnes(WithNew(m, ids)) == c.members - Originals(m)
    ensures EnoughNew(WithNew(m, ids), lost, capacity)
  {
    assert NewOnes(WithNew(m, ids)) + (lost - Originals(m)) == (c.members + lost) - Originals(m);
  }

  lemma ScaleReadMeaning(m: Saved, c: Cloud, ids: seq<Id>, past: Past, lost: set<Id>)
    requires c.WellFormed() && Meaning(m, c, past, lost) && Level(m) == 2 && c.desired == 2 * past.before.desired
    requires past.before.desired <= |(c.members + lost) - Originals(m)|
    requires lost == {} ==> |c.members| == c.desired
    requires Lists(ids, c.members - Originals(m))
    ensures Meaning(WithNew(m, ids), c, past, lost)
  {
    hide CapacityOk, EffectsOk, InstancesOk, EnoughNew, LossFree, Originals, NewOnes, Lists;
    ScaleReadRecord(m, c, ids, past, lost);
    ScaleReadCapacity(m, c, ids, past.before);
    ScaleReadNew(m, c, ids, lost);
    ScaleReadEnough(m, c, ids, lost, past.before.desired);
    if lost == {} {
      ScaleReadLossFree(m, c, ids, past.before);
    }
  }

  lemma ScaleReadPlace(w: World, w': World, ids: seq<Id>)
    requires ProcOk(w) && PrefixFlags(w.mem) && ScaleRead(w, w', ids)
    ensures ProcOk(w')
  {
  }

  lemma ScaleReadInv(w: World, w': World, ids: seq<Id>)
    requires Inv(w) && ScaleRead(w, w', ids)
    ensures Inv(w')
  {
    hide CapacityOk, EffectsOk, InstancesOk, EnoughNew, LossFree;
    ScaleReadMeaning(w.mem, w.cloud, ids, w.past, w.lost);
    ScaleReadPlace(w, w', ids);
  }

  lemma ScaleUpInv(w: World, w': World)
    requires Inv(w) && ScaleUpStep(w, w')
    ensures Inv(w')
  {
    if ScaleRequest(w, w') { ScaleRequestInv(w, w'); }
    else if ScaleReached(w, w') { ScaleReachedInv(w, w'); }
    else {
      var ids :| ScaleRead(w, w', ids);
      ScaleReadInv(w, w', ids);
    }
  }

  lemma WaitMeaning(m: Saved, c: Cloud, past: Past, lost: set<Id>)
    requires Meaning(m, c, past, lost) && Level(m) == 3 && NewOnes(m) <= c.ready + lost
    ensures Meaning(m.(waitDone := true), c, past, lost)
  {
    hide RecordOk, CapacityOk, EnoughNew, LossFree;
    FlagOnly(m, m.(waitDone := true), c, past, lost);
  }

  lemma WaitPlace(w: World, w': World)
    requires ProcOk(w) && PrefixFlags(w.mem) && WaitStep(w, w')
    ensures ProcOk(w')
  {
  }

  lemma WaitInv(w: World, w': World)
    requires Inv(w) && WaitStep(w, w')
    ensures Inv(w')
  {
    hide CapacityOk, EffectsOk, InstancesOk, EnoughNew, LossFree;
    WaitPlace(w, w');
    if BalancersReady(w, w') {
      WaitMeaning(w.mem, w.cloud, w.past, w.lost);
    }
  }

  lemma CordonOneEffects(m: Saved, c: Cloud, i: Id, before: Cloud)
    requires EffectsOk(m, c, before) && Level(m) == 4 && i in Originals(m)
    ensures EffectsOk(m, c.(cordoned := c.cordoned + {i}), before)
  {
  }

  lemma CordonOneMeaning(m: Saved, c: Cloud, i: Id, past: Past, lost: set<Id>)
    requires c.WellFormed() && Meaning(m, c, past, lost) && Level(m) == 4 && i in Originals(m)
    ensures c.(cordoned := c.cordoned + {i}).WellFormed()
    ensures Meaning(m, c.(cordoned := c.cordoned + {i}), past, lost)
  {
    hide RecordOk, CapacityOk, InstancesOk, EnoughNew, LossFree;
    var c' := c.(cordoned := c.cordoned + {i});
    CordonOneEffects(m, c, i, past.before);
    NewUntouched(m, c, c', {i}, lost);
    SizesKept(m, c, c', past.before);
  }

  lemma CordonEndMeaning(m: Saved, c: Cloud, past: Past, lost: set<Id>)
    requires c.WellFormed() && Meaning(m, c, past, lost) && Level(m) == 4 && Originals(m) <= c.cordoned
    ensures Meaning(m.(cordonDone := true), c, past, lost)
  {
    hide RecordOk, CapacityOk, InstancesOk, EnoughNew, LossFree;
    FlagOnly(m, m.(cordonDone := true), c, past, lost);
  }

  lemma CordonPlace(w: World, w': World)
    requires ProcOk(w) && PrefixFlags(w.mem) && CordonStep(w, w')
    ensures ProcOk(w')
  {
  }

  lemma CordonOneInv(w: World, w': World, i: Id, ok: bool, worked: bool)
    requires Inv(w) && CordonOne(w, w', i, ok, worked)
    ensures Inv(w')
  {
    CordonPlace(w, w');
    CordonOneMeaning(w.mem, w.cloud, i, w.past, w.lost);
  }

  lemma CordonEndInv(w: World, w': World)
    requires Inv(w) && CordonEnd(w, w')
    ensures Inv(w')
  {
    hide CapacityOk, EffectsOk, InstancesOk, EnoughNew, LossFree;
    CordonPlace(w, w');
    CordonEndMeaning(w.mem, w.cloud, w.past, w.lost);
  }

  lemma CordonInv(w: World, w': World)
    requires Inv(w) && CordonStep(w, w')
    ensures Inv(w')
  {
    if i, ok, worked :| CordonOne(w, w', i, ok, worked) {
      CordonOneInv(w, w', i, ok, worked);
    } else if CordonEnd(w, w') {
      CordonEndInv(w, w');
    } else {
      CordonPlace(w, w');
    }
  }

  /** Only originals are worked on, so the new instances stay untouched. */
  lemma NewUntouched(m: Saved, c: Cloud, c': Cloud, batch: set<Id>, lost: set<Id>)
    requires InstancesOk(m, c, lost) && batch <= Originals(m)
    requires c'.Worked() <= c.Worked() + batch
    requires c.members <= c'.members + batch && c.members + c.detached <= c'.members + c'.detached
    requires c'.ready == c.ready && c'.seen == c.seen
    ensures InstancesOk(m, c', lost)
  {
  }

  lemma DrainOneEffects(m: Saved, c: Cloud, i: Id, before: Cloud)
    requires EffectsOk(m, c, before) && PrefixFlags(m) && Level(m) == 5 && i in Originals(m)
    ensures EffectsOk(m, c.(cordoned := c.cordoned + {i}, drained := c.drained + {i}), before)
  {
  }

  lemma DrainOneMeaning(m: Saved, c: Cloud, i: Id, past: Past, lost: set<Id>)
    requires c.WellFormed() && Meaning(m, c, past, lost) && Level(m) == 5 && i in Originals(m)
    ensures c.(cordoned := c.cordoned + {i}, drained := c.drained + {i}).WellFormed()
    ensures Meaning(m, c.(cordoned := c.cordoned + {i}, drained := c.drained + {i}), past, lost)
  {
    hide RecordOk, CapacityOk, InstancesOk, EnoughNew, LossFree;
    var c' := c.(cordoned := c.cordoned + {i}, drained := c.drained + {i});
    DrainOneEffects(m, c, i, past.before);
    NewUntouched(m, c, c', {i}, lost);
    SizesKept(m, c, c', past.before);
  }

  lemma DrainEndMeaning(m: Saved, c: Cloud, past: Past, lost: set<Id>)
    requires c.WellFormed() && Meaning(m, c, past, lost) && Level(m) == 5 && Originals(m) <= c.drained
    ensures Meaning(m.(drainDone := true), c, past, lost)
  {
    hide RecordOk, CapacityOk, InstancesOk, EnoughNew, LossFree;
    FlagOnly(m, m.(drainDone := true), c, past, lost);
  }

  lemma DrainPlace(w: World, w': World)
    requires ProcOk(w) && PrefixFlags(w.mem) && DrainStep(w, w')
    ensures ProcOk(w')
  {
  }

  lemma DrainOneInv(w: World, w': World, i: Id, ok: bool, worked: bool)
    requires Inv(w) && DrainOne(w, w', i, ok, worked)
    ensures Inv(w')
  {
    DrainPlace(w, w');
    DrainOneMeaning(w.mem, w.cloud, i, w.past, w.lost);
  }

  lemma DrainEndInv(w: World, w': World)
    requires Inv(w) && DrainEnd(w, w')
    ensures Inv(w')
  {
    hide CapacityOk, EffectsOk, InstancesOk, EnoughNew, LossFree;
    DrainPlace(w, w');
    DrainEndMeaning(w.mem, w.cloud, w.past, w.lost);
  }

  lemma DrainInv(w: World, w': World)
    requires Inv(w) && DrainStep(w, w')
    ensures Inv(w')
  {
    if i, ok, worked :| DrainOne(w, w', i, ok, worked) {
      DrainOneInv(w, w', i, ok, worked);
    } else if DrainEnd(w, w') {
      DrainEndInv(w, w');
    } else {
      DrainPlace(w, w');
    }
  }

  lemma BatchElements(o: seq<Id>, k: nat, limit: nat)
    requires k <= |o| && limit > 0
    ensures Batch(o, k, limit) <= Elements(o)
    ensures Elements(o[..BatchEnd(|o|, k, limit)]) == Elements(o[..k]) + Batch(o, k, limit)
    ensures k == 0 && o != [] ==> o[0] in Batch(o, k, limit)
  {
    var e := BatchEnd(|o|, k, limit);
    assert o[..e] == o[..k] + o[k..e];
    if k == 0 && o != [] {
      assert o[..e][0] == o[0];
    }
  }

  lemma DetachEffects(m: Saved, c: Cloud, batch: set<Id>, before: Cloud)
    requires EffectsOk(m, c, before) && PrefixFlags(m) && Level(m) == 6
    requires batch <= Originals(m)
    requires m.asgs != [] && m.asgs[0].originalInstances != []
    requires m.asgs[0].originalInstances[0] in c.detached + batch
    ensures EffectsOk(m, c.Detach(batch), before)
  {
    var c' := c.Detach(batch);
    forall i | i in c'.Worked() && i in c'.members ensures i in Originals(m) {
      assert i !in batch;
      assert i in c.Worked() * c.members;
    }
  }

  /** Each detached instance leaves the group once and takes one unit of desired capacity with it. */
  lemma DetachCapacity(m: Saved, c: Cloud, batch: set<Id>, before: Cloud)
    requires c.WellFormed() && CapacityOk(m, c, before) && PrefixFlags(m) && Level(m) == 6
    requires batch <= Originals(m) && c.AcceptsDetach(batch)
    ensures CapacityOk(m, c.Detach(batch), before)
  {
    var o, c' := Originals(m), c.Detach(batch);
    assert o * c'.detached == (o * c.detached) + batch;
    assert (o * c.detached) !! batch;
    assert |o * c'.detached| == |o * c.detached| + |batch|;
    assert c.members == c'.members + batch;
    assert |c'.members| == |c.members| - |batch|;
  }

  lemma DetachLossFree(m: Saved, c: Cloud, batch: set<Id>, before: Cloud, lost: set<Id>)
    requires LossFree(m, c, before) && InstancesOk(m, c, lost) && m.scaleUpDone
    requires batch <= Originals(m) && c.AcceptsDetach(batch)
    ensures LossFree(m, c.Detach(batch), before)
  {
    var o, c' := Originals(m), c.Detach(batch);
    assert c.members == c'.members + batch;
    assert |c'.members| == |c.members| - |batch|;
    assert c'.members == (o - c'.detached) + NewOnes(m);
  }

  lemma DetachMeaning(m: Saved, c: Cloud, batch: set<Id>, past: Past, lost: set<Id>)
    requires c.WellFormed() && Meaning(m, c, past, lost) && Level(m) == 6
    requires batch <= Originals(m) && c.AcceptsDetach(batch)
    requires m.asgs[0].originalInstances != []
    requires m.asgs[0].originalInstances[0] in c.detached + batch
    ensures c.Detach(batch).WellFormed() && Meaning(m, c.Detach(batch), past, lost)
  {
    DetachEffects(m, c, batch, past.before);
    DetachCapacity(m, c, batch, past.before);
    NewUntouched(m, c, c.Detach(batch), batch, lost);
    if lost == {} {
      DetachLossFree(m, c, batch, past.before, lost);
    }
  }

  lemma DetachEndMeaning(m: Saved, c: Cloud, past: Past, lost: set<Id>)
    requires c.WellFormed() && Meaning(m, c, past, lost) && Level(m) == 6 && Originals(m) <= c.detached
    ensures Meaning(m.(detachDone := true), c, past, lost)
  {
    hide RecordOk, CapacityOk, InstancesOk, EnoughNew, LossFree;
    FlagOnly(m, m.(detachDone := true), c, past, lost);
  }

  lemma DetachBatchPlace(w: World, w': World)
    requires ProcOk(w) && DetachBatch(w, w')
    ensures ProcOk(w')
  {
    BatchElements(w.mem.asgs[0].originalInstances, w.proc.pc.covered, DETACH_LIMIT);
  }

  /** The first original is in the first batch. */
  lemma FirstDetached(o: seq<Id>, k: nat, limit: nat, detached: set<Id>)
    requires k < |o| && limit > 0 && Elements(o[..k]) <= detached
    ensures o[0] in detached + Batch(o, k, limit) && Batch(o, k, limit) <= Elements(o)
  {
    BatchElements(o, k, limit);
    if k > 0 {
      assert o[..k][0] == o[0];
      assert o[0] in Elements(o[..k]);
    }
  }

  lemma DetachBatchMeaning(w: World, w': World)
    requires w.cloud.WellFormed() && Meaning(w.mem, w.cloud, w.past, w.lost) && ProcOk(w) && DetachBatch(w, w')
    ensures w'.cloud.WellFormed() && Meaning(w.mem, w'.cloud, w.past, w.lost)
  {
    hide Meaning, Elements, Batch;
    var o, k := w.mem.asgs[0].originalInstances, w.proc.pc.covered;
    FirstDetached(o, k, DETACH_LIMIT, w.cloud.detached);
    DetachMeaning(w.mem, w.cloud, Batch(o, k, DETACH_LIMIT), w.past, w.lost);
  }

  lemma DetachEndPlace(w: World, w': World)
    requires ProcOk(w) && PrefixFlags(w.mem) && DetachEnd(w, w')
    ensures ProcOk(w')
    ensures Originals(w.mem) <= w.cloud.detached
  {
    var o := w.mem.asgs[0].originalInstances;
    assert o[..|o|] == o;
  }

  lemma DetachBatchInv(w: World, w': World)
    requires Inv(w) && DetachBatch(w, w')
    ensures Inv(w')
  {
    hide Meaning;
    DetachBatchPlace(w, w');
    DetachBatchMeaning(w, w');
  }

  lemma DetachEndInv(w: World, w': World)
    requires Inv(w) && DetachEnd(w, w')
    ensures Inv(w')
  {
    hide CapacityOk, EffectsOk, InstancesOk, EnoughNew, LossFree;
    DetachEndPlace(w, w');
    DetachEndMeaning(w.mem, w.cloud, w.past, w.lost);
  }

  lemma DetachStartPlace(w: World, w': World)
    requires ProcOk(w) && PrefixFlags(w.mem) && DetachStart(w, w')
    ensures ProcOk(w')
  {
    assert w.mem.asgs[0].originalInstances[..0] == [];
  }

  lemma DetachStartInv(w: World, w': World)
    requires Inv(w) && DetachStart(w, w')
    ensures Inv(w')
  {
    DetachStartPlace(w, w');
  }

  lemma DetachInv(w: World, w': World)
    requires Inv(w) && DetachStep(w, w')
    ensures Inv(w')
  {
    if DetachBatch(w, w') {
      DetachBatchInv(w, w');
    } else if DetachEnd(w, w') {
      DetachEndInv(w, w');
    } else {
      DetachStartInv(w, w');
    }
  }

  lemma TerminateEffects(m: Saved, c: Cloud, c': Cloud, batch: set<Id>, before: Cloud)
    requires EffectsOk(m, c, before) && PrefixFlags(m) && Level(m) == 7 && batch <= Originals(m)
    requires c' == c.(attempted := c.attempted + batch, terminated := c'.terminated)
    requires c.WellFormed() && c.terminated <= c'.terminated <= c.terminated + batch
    ensures c'.WellFormed() && EffectsOk(m, c', before)
  {
    assert c'.Worked() * c'.members <= (c.Worked() * c.members) + batch;
  }

  lemma TerminateMeaning(m: Saved, c: Cloud, c': Cloud, batch: set<Id>, past: Past, lost: set<Id>)
    requires c.WellFormed() && Meaning(m, c, past, lost) && Level(m) == 7 && batch <= Originals(m)
    requires c' == c.(attempted := c.attempted + batch, terminated := c'.terminated)
    requires c.terminated <= c'.terminated <= c.terminated + batch
    ensures c'.WellFormed() && Meaning(m, c', past, lost)
  {
    hide RecordOk, CapacityOk, EffectsOk, InstancesOk, EnoughNew, LossFree;
    TerminateEffects(m, c, c', batch, past.before);
    NewUntouched(m, c, c', batch, lost);
    SizesKept(m, c, c', past.before);
  }

  lemma TerminateEndCapacity(m: Saved, c: Cloud, before: Cloud)
    requires CapacityOk(m, c, before) && PrefixFlags(m) && Level(m) == 7 && Originals(m) <= c.detached
    ensures CapacityOk(m.(terminateDone := true), c, before)
  {
    assert Originals(m) * c.detached == Originals(m);
  }

  lemma TerminateEndMeaning(m: Saved, c: Cloud, past: Past, lost: set<Id>)
    requires c.WellFormed() && Meaning(m, c, past, lost) && Level(m) == 7 && Originals(m) <= c.attempted
    ensures Meaning(m.(terminateDone := true), c, past, lost)
  {
    hide RecordOk, CapacityOk, InstancesOk, EnoughNew, LossFree;
    FlagOnly(m, m.(terminateDone := true), c, past, lost);
    TerminateEndCapacity(m, c, past.before);
  }

  lemma TerminateBatchPlace(w: World, w': World, worked: bool)
    requires ProcOk(w) && TerminateBatch(w, w', worked)
    ensures ProcOk(w')
  {
    BatchElements(w.mem.asgs[0].originalInstances, w.proc.pc.covered, TERMINATE_LIMIT);
  }

  lemma TerminateBatchMeaning(w: World, w': World, worked: bool)
    requires w.cloud.WellFormed() && Meaning(w.mem, w.cloud, w.past, w.lost) && ProcOk(w)
    requires TerminateBatch(w, w', worked)
    ensures w'.cloud.WellFormed() && Meaning(w.mem, w'.cloud, w.past, w.lost)
  {
    var o, k := w.mem.asgs[0].originalInstances, w.proc.pc.covered;
    BatchElements(o, k, TERMINATE_LIMIT);
    TerminateMeaning(w.mem, w.cloud, w'.cloud, Batch(o, k, TERMINATE_LIMIT), w.past, w.lost);
  }

  lemma TerminateBatchInv(w: World, w': World, worked: bool)
    requires Inv(w) && TerminateBatch(w, w', worked)
    ensures Inv(w')
  {
    hide Meaning;
    TerminateBatchPlace(w, w', worked);
    TerminateBatchMeaning(w, w', worked);
  }

  lemma TerminateEndPlace(w: World, w': World)
    requires ProcOk(w) && PrefixFlags(w.mem) && TerminateEnd(w, w')
    ensures ProcOk(w')
    ensures Originals(w.mem) <= w.cloud.attempted
  {
    var o := w.mem.asgs[0].originalInstances;
    assert o[..|o|] == o;
  }

  lemma TerminateEndInv(w: World, w': World)
    requires Inv(w) && TerminateEnd(w, w')
    ensures Inv(w')
  {
    hide CapacityOk, EffectsOk, InstancesOk, EnoughNew, LossFree;
    TerminateEndPlace(w, w');
    TerminateEndMeaning(w.mem, w.cloud, w.past, w.lost);
  }

  lemma TerminateStartPlace(w: World, w': World)
    requires ProcOk(w) && PrefixFlags(w.mem) && TerminateStart(w, w')
    ensures ProcOk(w')
  {
    assert w.mem.asgs[0].originalInstances[..0] == [];
  }

  lemma TerminateStartInv(w: World, w': World)
    requires Inv(w) && TerminateStart(w, w')
    ensures Inv(w')
  {
    TerminateStartPlace(w, w');
  }

  lemma TerminateInv(w: World, w': World)
    requires Inv(w) && TerminateStep(w, w')
    ensures Inv(w')
  {
    if worked :| TerminateBatch(w, w', worked) {
      TerminateBatchInv(w, w', worked);
    } else if TerminateEnd(w, w') {
      TerminateEndInv(w, w');
    } else {
      TerminateStartInv(w, w');
    }
  }

  lemma RestoreSizes(m: Saved, c: Cloud, before: Cloud)
    requires c.WellFormed() && CapacityOk(m, c, before) && PrefixFlags(m) && Level(m) == 8
    requires before.minSize <= before.desired <= before.maxSize && |Originals(m)| <= before.desired
    ensures c.WithMaxSize(before.maxSize).WellFormed() && CapacityOk(m, c.WithMaxSize(before.maxSize), before)
  {
  }

  /** Sizes are none of the concern of these two. */
  lemma EffectsIgnoreSizes(m: Saved, c: Cloud, n: int, before: Cloud, lost: set<Id>)
    ensures EffectsOk(m, c, before) ==> EffectsOk(m, c.WithMaxSize(n), before)
    ensures InstancesOk(m, c, lost) ==> InstancesOk(m, c.WithMaxSize(n), lost)
  {
  }

  lemma RestoreLossFree(m: Saved, c: Cloud, before: Cloud)
    requires CapacityOk(m, c, before) && PrefixFlags(m) && Level(m) == 8 && LossFree(m, c, before)
    requires before.desired <= before.maxSize
    ensures LossFree(m, c.WithMaxSize(before.maxSize), before)
  {
  }

  lemma RestoreMeaning(m: Saved, c: Cloud, past: Past, lost: set<Id>)
    requires c.WellFormed() && Meaning(m, c, past, lost) && Level(m) == 8
    ensures c.WithMaxSize(past.before.maxSize).WellFormed()
    ensures Meaning(m, c.WithMaxSize(past.before.maxSize), past, lost)
  {
    hide CapacityOk, EffectsOk, InstancesOk, EnoughNew, LossFree;
    RestoreSizes(m, c, past.before);
    EffectsIgnoreSizes(m, c, past.before.maxSize, past.before, lost);
    if lost == {} {
      RestoreLossFree(m, c, past.before);
    }
  }

  lemma RestorePlace(w: World, w': World)
    requires ProcOk(w) && PrefixFlags(w.mem) && OriginalsMatch(w.mem, w.past) && RestoreStep(w, w')
    ensures ProcOk(w')
  {
  }

  lemma RestoreInv(w: World, w': World)
    requires Inv(w) && RestoreStep(w, w')
    ensures Inv(w')
  {
    RestorePlace(w, w');
    RestoreMeaning(w.mem, w.cloud, w.past, w.lost);
  }

  lemma FilePlace(w: World, w': World)
    requires ProcOk(w) && FileStep(w, w')
    ensures ProcOk(w')
  {
  }

  lemma TruncateInv(w: World, w': World)
    requires Inv(w) && Truncate(w, w')
    ensures Inv(w')
  {
    FilePlace(w, w');
  }

  lemma WriteInv(w: World, w': World)
    requires Inv(w) && Write(w, w')
    ensures Inv(w')
  {
    FilePlace(w, w');
  }

  lemma DeleteInv(w: World, w': World, ok: bool)
    requires Inv(w) && DeleteFile(w, w', ok)
    ensures Inv(w')
  {
    FilePlace(w, w');
  }

  lemma FileInv(w: World, w': World)
    requires Inv(w) && FileStep(w, w')
    ensures Inv(w')
  {
    if Truncate(w, w') { TruncateInv(w, w'); }
    else if Write(w, w') { WriteInv(w, w'); }
    else {
      var ok :| DeleteFile(w, w', ok);
      DeleteInv(w, w', ok);
    }
  }

  lemma StageInv(w: World, w': World)
    requires Inv(w) && StageStep(w, w')
    ensures Inv(w')
  {
    if SkipStep(w, w') { SkipInv(w, w'); }
    else if GatherStep(w, w') { GatherInv(w, w'); }
    else if SetMaxStep(w, w') { SetMaxInv(w, w'); }
    else if ScaleUpStep(w, w') { ScaleUpInv(w, w'); }
    else if WaitStep(w, w') { WaitInv(w, w'); }
    else if CordonStep(w, w') { CordonInv(w, w'); }
    else if DrainStep(w, w') { DrainInv(w, w'); }
    else if DetachStep(w, w') { DetachInv(w, w'); }
    else if TerminateStep(w, w') { TerminateInv(w, w'); }
    else if RestoreStep(w, w') { RestoreInv(w, w'); }
    else { FileInv(w, w'); }
  }

  lemma StepInv(w: World, w': World)
    requires Inv(w) && Step(w, w')
    ensures Inv(w')
  {
    if EnvStep(w, w') { EnvInv(w, w'); }
    else if Stop(w, w') { StopInv(w, w'); }
    else if Restart(w, w') { RestartInv(w, w'); }
    else { StageInv(w, w'); }
  }

  /** Every world of every path that starts in the invariant is in the invariant. */
  lemma {:induction false} PathInv(run: seq<World>, k: nat)
    requires IsPath(run) && Inv(run[0]) && k < |run|
    ensures Inv(run[k])
  {
    if k > 0 {
      PathInv(run, k - 1);
      assert StepAt(run, k - 1);
      StepInv(run[k - 1], run[k]);
    }
  }
}
