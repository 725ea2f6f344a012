/**
 The engage/disengage protocol as a transition system. One step is one lock
 section or one foreign call of the single ClusterProfile reconciler, of one of
 the monitor goroutines, or of a caller of IndexField. The operations lock is
 held by the reconciler from `Deciding` to `Unlocking`, or by the index call.
 */
module EngageProtocol {
  import opened Options
  import opened ClusterRegistry

  /** Where monitorClusterStart is: inside Start, then past each of its steps. */
  datatype Monitor = Starting | Returned | Marking | Disengaging | Reporting | Finished

  /** One launched cluster: its key, its configuration, its monitor, its run-state cell and its startErr channel. */
  datatype Run = Run(key: Key, cfg: RestConfig, monitor: Monitor, stopped: bool, reported: bool)

  /** The part of reconcileCluster and publishAndEngage that runs beside the monitor. */
  datatype Stage =
    | AwaitSync | CheckBeforePublish | Publishing
    | CheckAfterPublish | Engaging | CheckCurrent | CheckAfterEngage | Withdrawing
    | Cleaning

  datatype Reconciler =
    | Idle
    | Queued(key: Key, cfg: RestConfig)
    | Deciding(key: Key, cfg: RestConfig)
    | Snapshotting(key: Key, cfg: RestConfig)
    | Creating(key: Key, cfg: RestConfig, todo: seq<Index>)
    | Indexing(key: Key, cfg: RestConfig, todo: seq<Index>, inst: Instance)
    | Setup(key: Key, cfg: RestConfig, inst: Instance, stage: Stage)
    | Unlocking

  datatype IndexCall = NoCall | Applying(idx: Index, reach: map<Key, Instance>)

  datatype World = World(
    reg: Registry,
    rec: Reconciler,
    call: IndexCall,
    runs: map<Instance, Run>,
    applied: map<Instance, seq<Index>>,  // indexers applied to each cluster's cache, in order
    next: Instance,                      // NewCluster returns a fresh object
    parentLive: bool,
    indexFailed: bool)                   // some IndexField call on a published cluster failed

  datatype Step =
    | ProfileDropped(req: Key, fallback: Key)
    | ProfileReady(req: Key, logical: Key, cfg: RestConfig)
    | Lock
    | KeepOrEvict
    | Snapshot
    | NewCluster(ok: bool)
    | IndexNew(ok: bool)
    | Launch
    | SyncResult(ok: bool)
    | CheckStopped
    | Publish
    | Engage(ok: bool)
    | VerifyCurrent
    | Withdraw
    | Cleanup
    | Unlock
    | StartReturns(i: Instance)
    | ObserveContext(i: Instance)
    | MarkStopped(i: Instance)
    | MonitorDisengages(i: Instance)
    | ReportStart(i: Instance)
    | CancelParent
    | BeginIndexField(idx: Index)
    | IndexPublished(k: Key, ok: bool)
    | EndIndexField

  const INITIAL := World(EMPTY, Idle, NoCall, map[], map[], 0, true, false)

  predicate LockFree(w: World) {
    w.call.NoCall? && (w.rec.Idle? || w.rec.Queued?)
  }

  function At(w: World, stage: Stage): World
    requires w.rec.Setup?
  {
    w.(rec := w.rec.(stage := stage))
  }

  function Moved(w: World, i: Instance, m: Monitor): World
    requires i in w.runs
  {
    w.(runs := w.runs[i := w.runs[i].(monitor := m)])
  }

  /** Lock sections of the reconciler that may evict clusters before it sets one up. */
  function Evicting(w: World, step: Step): Option<World> {
    match step
    case ProfileDropped(req, fallback) =>
      if w.rec.Idle? then Some(w.(reg := Forgotten(w.reg, req, fallback))) else None
    case ProfileReady(req, logical, cfg) =>
      if w.rec.Idle? then
        Some(w.(reg := Remembered(w.reg, req, logical), rec := Queued(logical, cfg)))
      else None
    case KeepOrEvict =>
      if w.rec.Deciding? then
        Some(w.(reg := KeptOrEvicted(w.reg, w.rec.key, w.rec.cfg),
                rec := if Keeps(w.reg, w.rec.key, w.rec.cfg) then Unlocking
                       else Snapshotting(w.rec.key, w.rec.cfg)))
      else None
    case _ => None
  }

  /** Steps of the reconciler from the operations lock to the launch of the monitor, and the unlock. */
  function Preparing(w: World, step: Step): Option<World> {
    match step
    case Lock =>
      if w.rec.Queued? && LockFree(w) then Some(w.(rec := Deciding(w.rec.key, w.rec.cfg))) else None
    case Snapshot =>
      if w.rec.Snapshotting? then Some(w.(rec := Creating(w.rec.key, w.rec.cfg, w.reg.indexers))) else None
    case NewCluster(ok) =>
      if !w.rec.Creating? then None
      else if !ok then Some(w.(rec := Unlocking))
      else Some(w.(rec := Indexing(w.rec.key, w.rec.cfg, w.rec.todo, w.next),
                   applied := w.applied[w.next := []],
                   next := w.next + 1))
    case IndexNew(ok) =>
      if !w.rec.Indexing? || w.rec.todo == [] || w.rec.inst !in w.applied then None
      else if !ok then Some(w.(rec := Unlocking))
      else Some(w.(rec := w.rec.(todo := w.rec.todo[1..]),
                   applied := w.applied[w.rec.inst := w.applied[w.rec.inst] + [w.rec.todo[0]]]))
    case Launch =>
      if w.rec.Indexing? && w.rec.todo == [] then
        Some(w.(rec := Setup(w.rec.key, w.rec.cfg, w.rec.inst, AwaitSync),
                runs := w.runs[w.rec.inst := Run(w.rec.key, w.rec.cfg, Starting, false, false)]))
      else None
    case Unlock =>
      if w.rec.Unlocking? then Some(w.(rec := Idle)) else None
    case _ => None
  }

  /** Steps of the reconciler beside the monitor that only look: waiting, checking, engaging. */
  function Checking(w: World, step: Step): Option<World> {
    if !w.rec.Setup? || w.rec.inst !in w.runs then None else
    var run := w.runs[w.rec.inst];
    match step
    case SyncResult(ok) =>
      if w.rec.stage != AwaitSync then None
      else if ok && run.reported then None  // a reported start error always wins
      else Some(At(w, if ok then CheckBeforePublish else Cleaning))
    case CheckStopped =>
      if w.rec.stage == CheckBeforePublish then Some(At(w, if run.stopped then Cleaning else Publishing))
      else if w.rec.stage == CheckAfterPublish then Some(At(w, if run.stopped then Withdrawing else Engaging))
      else if w.rec.stage != CheckAfterEngage then None
      else if run.stopped then Some(At(w, Withdrawing))
      else Some(w.(rec := Unlocking))
    case Engage(ok) =>
      if w.rec.stage != Engaging then None else Some(At(w, if ok then CheckCurrent else Withdrawing))
    case VerifyCurrent =>
      if w.rec.stage != CheckCurrent then None
      else Some(At(w, if IsCurrent(w.reg, w.rec.key, w.rec.inst) then CheckAfterEngage else Cleaning))
    case _ => None
  }

  /** Steps of the reconciler beside the monitor that write. */
  function Writing(w: World, step: Step): Option<World> {
    if !w.rec.Setup? then None else
    match step
    case Publish =>
      if w.rec.stage != Publishing then None
      else Some(At(w, CheckAfterPublish).(reg := Published(w.reg, w.rec.key, w.rec.inst, w.rec.cfg)))
    case Withdraw =>
      if w.rec.stage != Withdrawing then None
      else Some(At(w, Cleaning).(reg := WithoutCurrent(w.reg, w.rec.key, w.rec.inst)))
    case Cleanup =>
      if w.rec.stage != Cleaning then None
      else Some(w.(rec := Unlocking, reg := w.reg.(cancelled := w.reg.cancelled + {w.rec.inst})))
    case _ => None
  }

  /** Steps of the monitor goroutines. */
  function Monitoring(w: World, step: Step): Option<World> {
    match step
    case StartReturns(i) =>
      if i in w.runs && w.runs[i].monitor.Starting? then Some(Moved(w, i, Returned)) else None
    case ObserveContext(i) =>
      if i in w.runs && w.runs[i].monitor.Returned? then
        Some(Moved(w, i, if i in w.reg.cancelled || !w.parentLive then Finished else Marking))
      else None
    case MarkStopped(i) =>
      if i in w.runs && w.runs[i].monitor.Marking? then
        Some(w.(runs := w.runs[i := w.runs[i].(monitor := Disengaging, stopped := true)]))
      else None
    case MonitorDisengages(i) =>
      if i in w.runs && w.runs[i].monitor.Disengaging? then
        Some(Moved(w, i, Reporting).(reg := WithoutCurrent(w.reg, w.runs[i].key, i)))
      else None
    case ReportStart(i) =>
      if i in w.runs && w.runs[i].monitor.Reporting? then
        Some(w.(runs := w.runs[i := w.runs[i].(monitor := Finished, reported := true)]))
      else None
    case CancelParent => Some(w.(parentLive := false))
    case _ => None
  }

  /** Steps of a caller of IndexField; it holds the operations lock throughout. */
  function IndexFieldStep(w: World, step: Step): Option<World> {
    match step
    case BeginIndexField(idx) =>
      if LockFree(w) then
        Some(w.(reg := w.reg.(indexers := w.reg.indexers + [idx]), call := Applying(idx, w.reg.clusters)))
      else None
    case IndexPublished(k, ok) =>
      if !w.call.Applying? || k !in w.call.reach || w.call.reach[k] !in w.applied then None
      else if !ok then Some(w.(call := NoCall, indexFailed := true))
      else
        var inst := w.call.reach[k];
        Some(w.(call := w.call.(reach := w.call.reach - {k}),
                applied := w.applied[inst := w.applied[inst] + [w.call.idx]]))
    case EndIndexField =>
      if w.call.Applying? && w.call.reach == map[] then Some(w.(call := NoCall)) else None
    case _ => None
  }

  /** A step belongs to one of the six groups and is refused by the others. */
  function Next(w: World, step: Step): Option<World> {
    var e := Evicting(w, step);
    if e.Some? then e else
    var p := Preparing(w, step);
    if p.Some? then p else
    var c := Checking(w, step);
    if c.Some? then c else
    var wr := Writing(w, step);
    if wr.Some? then wr else
    var m := Monitoring(w, step);
    if m.Some? then m else IndexFieldStep(w, step)
  }

  /** The states reached by a sequence of steps, each enabled where it is taken. */
  ghost predicate Reaches(w: World, steps: seq<Step>, w': World)
    decreases |steps|
  {
    if steps == [] then w == w'
    else
      var last := steps[|steps| - 1];
      exists mid ::
        Reaches(w, steps[..|steps| - 1], mid) && Next(mid, last) == Some(w')
  }

  ghost predicate Reachable(w: World) {
    exists steps :: Reaches(INITIAL, steps, w)
  }

  // ---------------------------------------------------------------- invariant

  /** i is the published cluster of its key. */
  predicate Current(w: World, i: Instance) {
    i in w.runs && IsCurrent(w.reg, w.runs[i].key, i)
  }

  predicate SettingUp(w: World, i: Instance) {
    w.rec.Setup? && w.rec.inst == i
  }

  predicate BeforePublish(stage: Stage) {
    stage == AwaitSync || stage == CheckBeforePublish || stage == Publishing
  }

  predicate AfterPublish(stage: Stage) {
    !BeforePublish(stage) && stage != Cleaning
  }

  /** The three maps share one domain, and each entry is a launched, live cluster filed under its own key. */
  ghost predicate Filed(w: World) {
    && w.reg.cancelFns == w.reg.clusters
    && w.reg.kubeconfigs.Keys == w.reg.clusters.Keys
    && forall k :: k in w.reg.clusters ==>
         && w.reg.clusters[k] in w.runs
         && w.runs[w.reg.clusters[k]].key == k
         && w.runs[w.reg.clusters[k]].cfg == w.reg.kubeconfigs[k]
         && w.reg.clusters[k] !in w.reg.cancelled
  }

  ghost predicate Fresh(w: World) {
    && (forall i :: i in w.runs ==> i < w.next)
    && (forall i :: i in w.runs && (w.runs[i].monitor.Disengaging? || w.runs[i].monitor.Reporting?) ==>
          w.runs[i].stopped)
    && (forall i :: i in w.reg.cancelled ==> i in w.runs)
    && (forall i :: i in w.runs ==> i in w.applied)
    && (w.rec.Indexing? ==> w.rec.inst < w.next && w.rec.inst !in w.runs && w.rec.inst in w.applied)
    && (w.rec.Setup? ==> w.rec.inst in w.runs && w.runs[w.rec.inst].key == w.rec.key)
    && (w.rec.Setup? ==> w.rec.inst in w.runs && w.runs[w.rec.inst].cfg == w.rec.cfg)
    && (w.call.Applying? ==> forall k :: k in w.call.reach ==>
          w.call.reach[k] in w.runs && w.runs[w.call.reach[k]].key == k)
    && (w.call.Applying? ==> w.rec.Idle? || w.rec.Queued?)
  }

  ghost predicate Tracked(w: World) {
    forall i :: i in w.runs && i !in w.reg.cancelled ==> Current(w, i) || SettingUp(w, i)
  }

  ghost predicate Vacant(w: World) {
    && (w.rec.Snapshotting? || w.rec.Creating? || w.rec.Indexing? ==> w.rec.key !in w.reg.clusters)
    && (w.rec.Setup? && BeforePublish(w.rec.stage) ==>
          w.rec.key !in w.reg.clusters && w.rec.inst !in w.reg.cancelled)
    && (w.rec.Setup? && AfterPublish(w.rec.stage) ==>
          Current(w, w.rec.inst) || (w.rec.inst in w.runs && w.runs[w.rec.inst].stopped))
    && (w.rec.Setup? && w.rec.stage == Cleaning ==> !Current(w, w.rec.inst))
    && (w.rec.Setup? && w.rec.key in w.reg.clusters ==> w.reg.clusters[w.rec.key] == w.rec.inst)
  }

  predicate Past(m: Monitor) { m.Reporting? || m.Finished? }

  /** A monitor past its disengage has left nothing published, unless the reconciler will still see it stopped. */
  ghost predicate Watched(w: World) {
    && (w.parentLive ==> forall i :: i in w.runs && w.runs[i].monitor.Finished? ==>
          w.runs[i].stopped || i in w.reg.cancelled)
    && (w.parentLive ==> forall i :: Current(w, i) && Past(w.runs[i].monitor) ==>
          SettingUp(w, i) && AfterPublish(w.rec.stage))
  }

  ghost predicate Referenced(w: World) {
    && (forall k :: k in w.reg.clusters ==> k in w.reg.profileKeys.Values)
    && (!w.rec.Idle? && !w.rec.Unlocking? ==> w.rec.key in w.reg.profileKeys.Values)
  }

  /** How much of the registered list a published cluster carries. */
  ghost predicate Carries(w: World, k: Key)
    requires k in w.reg.clusters
  {
    && w.reg.clusters[k] in w.applied
    && (if w.call.Applying? && k in w.call.reach && w.call.reach[k] == w.reg.clusters[k]
        then w.applied[w.reg.clusters[k]] + [w.call.idx] == w.reg.indexers
        else w.applied[w.reg.clusters[k]] == w.reg.indexers)
  }

  ghost predicate Indexed(w: World) {
    && (w.rec.Creating? ==> w.rec.todo == w.reg.indexers)
    && (w.rec.Indexing? ==> w.rec.inst in w.applied && w.applied[w.rec.inst] + w.rec.todo == w.reg.indexers)
    && (w.rec.Setup? ==> w.rec.inst in w.applied && w.applied[w.rec.inst] == w.reg.indexers)
    && (!w.indexFailed ==> forall k :: k in w.reg.clusters ==> Carries(w, k))
  }

  ghost predicate Sound(w: World) {
    Filed(w) && Fresh(w) && Tracked(w) && Vacant(w)
  }

  ghost predicate Inv(w: World) {
    Sound(w) && Watched(w) && Referenced(w) && Indexed(w)
  }

  // Dropping or remapping one profile keeps every other reference.
  lemma ReferencesLeft(r: Registry, req: Key, key: Key)
    ensures key in Remembered(r, req, key).profileKeys.Values
    ensures forall k :: k in r.profileKeys.Values && k in Remembered(r, req, key).clusters ==>
              k in Remembered(r, req, key).profileKeys.Values
    ensures forall k, fallback :: k in r.profileKeys.Values && k in Forgotten(r, req, fallback).clusters ==>
              k in Forgotten(r, req, fallback).profileKeys.Values
  {
    var after := Remembered(r, req, key);
    assert after.profileKeys[req] == key;
    forall k | k in r.profileKeys.Values && k in after.clusters
      ensures k in after.profileKeys.Values
    {
      var p :| p in r.profileKeys && r.profileKeys[p] == k;
      assert p != req ==> p in after.profileKeys && after.profileKeys[p] == k;
      if p == req && k != key {
        assert k in (r.profileKeys - {req}).Values;
        var q :| q in r.profileKeys - {req} && (r.profileKeys - {req})[q] == k;
        assert after.profileKeys[q] == k;
      }
    }
    forall k, fallback | k in r.profileKeys.Values && k in Forgotten(r, req, fallback).clusters
      ensures k in Forgotten(r, req, fallback).profileKeys.Values
    {
      var p :| p in r.profileKeys && r.profileKeys[p] == k;
      assert p != req ==> (r.profileKeys - {req})[p] == k;
    }
  }

  lemma EvictingReferenced(w: World, step: Step)
    requires Referenced(w) && Evicting(w, step).Some?
    ensures Referenced(Evicting(w, step).value)
  {
    match step
    case ProfileReady(req, logical, _) => ReferencesLeft(w.reg, req, logical);
    case ProfileDropped(req, fallback) => ReferencesLeft(w.reg, req, fallback);
    case _ =>
  }

  lemma EvictingFiles(w: World, step: Step)
    requires Filed(w) && Evicting(w, step).Some?
    ensures Filed(Evicting(w, step).value)
  {
  }

  lemma EvictingTracked(w: World, step: Step)
    requires Filed(w) && Tracked(w) && Evicting(w, step).Some?
    ensures Tracked(Evicting(w, step).value)
  {
  }

  lemma EvictingFresh(w: World, step: Step)
    requires Filed(w) && Fresh(w) && Vacant(w) && Evicting(w, step).Some?
    ensures Fresh(Evicting(w, step).value) && Vacant(Evicting(w, step).value)
  {
  }

  lemma EvictingWatched(w: World, step: Step)
    requires Sound(w) && Watched(w) && Evicting(w, step).Some?
    ensures Watched(Evicting(w, step).value)
  {
  }

  lemma EvictingIndexed(w: World, step: Step)
    requires Filed(w) && Fresh(w) && Indexed(w) && Evicting(w, step).Some?
    ensures Indexed(Evicting(w, step).value)
  {
  }

  lemma PreparingReferenced(w: World, step: Step)
    requires Referenced(w) && Preparing(w, step).Some?
    ensures Referenced(Preparing(w, step).value)
  {
  }

  lemma PreparingFiles(w: World, step: Step)
    requires Filed(w) && Fresh(w) && Preparing(w, step).Some?
    ensures Filed(Preparing(w, step).value)
  {
    if step == Launch {
      LaunchFiles(w);
    } else {
      SameFilesFiled(w, Preparing(w, step).value);
    }
  }

  lemma LaunchFiles(w: World)
    requires Filed(w) && Fresh(w) && Preparing(w, Launch).Some?
    ensures Filed(Preparing(w, Launch).value)
  {
  }

  lemma PreparingTracked(w: World, step: Step)
    requires Fresh(w) && Tracked(w) && Preparing(w, step).Some?
    ensures Tracked(Preparing(w, step).value)
  {
  }

  lemma PreparingFresh(w: World, step: Step)
    requires Fresh(w) && Preparing(w, step).Some?
    ensures Fresh(Preparing(w, step).value)
  {
    match step
    case Launch => LaunchFresh(w);
    case NewCluster(ok) => NewClusterFresh(w, ok);
    case _ =>
  }

  lemma LaunchFresh(w: World)
    requires Fresh(w) && Preparing(w, Launch).Some?
    ensures Fresh(Preparing(w, Launch).value)
  {
  }

  lemma NewClusterFresh(w: World, ok: bool)
    requires Fresh(w) && Preparing(w, NewCluster(ok)).Some?
    ensures Fresh(Preparing(w, NewCluster(ok)).value)
  {
  }

  lemma PreparingVacant(w: World, step: Step)
    requires Fresh(w) && Vacant(w) && Preparing(w, step).Some?
    ensures Vacant(Preparing(w, step).value)
  {
  }

  lemma PreparingWatched(w: World, step: Step)
    requires Filed(w) && Fresh(w) && Watched(w) && Preparing(w, step).Some?
    ensures Watched(Preparing(w, step).value)
  {
    match step
    case Launch => LaunchWatched(w);
    case _ =>
  }

  lemma LaunchWatched(w: World)
    requires Filed(w) && Fresh(w) && Watched(w) && Preparing(w, Launch).Some?
    ensures Watched(Preparing(w, Launch).value)
  {
  }

  lemma PreparingIndexed(w: World, step: Step)
    requires Filed(w) && Fresh(w) && Indexed(w) && Preparing(w, step).Some?
    ensures Indexed(Preparing(w, step).value)
  {
    match step
    case IndexNew(ok) => IndexNewIndexed(w, ok);
    case _ =>
  }

  lemma IndexNewIndexed(w: World, ok: bool)
    requires Filed(w) && Fresh(w) && Indexed(w) && Preparing(w, IndexNew(ok)).Some?
    ensures Indexed(Preparing(w, IndexNew(ok)).value)
  {
  }

  lemma CheckingReferenced(w: World, step: Step)
    requires Referenced(w) && Checking(w, step).Some?
    ensures Referenced(Checking(w, step).value)
  {
  }

  lemma CheckingOnlyMoves(w: World, step: Step)
    requires Checking(w, step).Some?
    ensures var w' := Checking(w, step).value; w'.reg == w.reg && w'.runs == w.runs
  {
  }

  lemma SameFilesFiled(w: World, w': World)
    requires Filed(w) && w'.reg == w.reg && w'.runs == w.runs
    ensures Filed(w')
  {
  }

  lemma CheckingTracked(w: World, step: Step)
    requires Tracked(w) && Vacant(w) && Checking(w, step).Some?
    ensures Tracked(Checking(w, step).value)
  {
  }

  lemma CheckingFresh(w: World, step: Step)
    requires Fresh(w) && Vacant(w) && Checking(w, step).Some?
    ensures Fresh(Checking(w, step).value)
  {
  }

  lemma CheckingVacant(w: World, step: Step)
    requires Fresh(w) && Vacant(w) && Checking(w, step).Some?
    ensures Vacant(Checking(w, step).value)
  {
  }

  lemma CheckingWatched(w: World, step: Step)
    requires Filed(w) && Fresh(w) && Vacant(w) && Watched(w) && Checking(w, step).Some?
    ensures Watched(Checking(w, step).value)
  {
    match step
    case CheckStopped => CheckStoppedWatched(w);
    case VerifyCurrent => VerifyCurrentWatched(w);
    case SyncResult(ok) => SyncResultWatched(w, ok);
    case Engage(_) =>
  }

  lemma VerifyCurrentWatched(w: World)
    requires Filed(w) && Fresh(w) && Vacant(w) && Watched(w) && Checking(w, VerifyCurrent).Some?
    ensures Watched(Checking(w, VerifyCurrent).value)
  {
  }

  lemma SyncResultWatched(w: World, ok: bool)
    requires Filed(w) && Fresh(w) && Vacant(w) && Watched(w) && Checking(w, SyncResult(ok)).Some?
    ensures Watched(Checking(w, SyncResult(ok)).value)
  {
  }

  lemma CheckStoppedWatched(w: World)
    requires Filed(w) && Fresh(w) && Vacant(w) && Watched(w) && Checking(w, CheckStopped).Some?
    ensures Watched(Checking(w, CheckStopped).value)
  {
    if Checking(w, CheckStopped).value.rec.Unlocking? {
      LastCheckWatched(w);
    } else {
      StageMovesWatched(w, Checking(w, CheckStopped).value);
    }
  }

  /** The reconciler leaves only an instance that has not stopped. */
  lemma LastCheckWatched(w: World)
    requires Filed(w) && Fresh(w) && Watched(w)
    requires w.rec.Setup? && w.rec.inst in w.runs && !w.runs[w.rec.inst].stopped
    requires w.rec.stage == CheckAfterEngage
    ensures Watched(w.(rec := Unlocking))
  {
  }

  /** Moving on keeps the watch as long as a published instance stays past its publication. */
  lemma StageMovesWatched(w: World, w': World)
    requires Vacant(w) && Watched(w) && w.rec.Setup? && w'.rec.Setup? && w' == At(w, w'.rec.stage)
    requires AfterPublish(w.rec.stage) ==> AfterPublish(w'.rec.stage)
    ensures Watched(w')
  {
  }

  lemma CheckingIndexed(w: World, step: Step)
    requires Indexed(w) && Checking(w, step).Some?
    ensures Indexed(Checking(w, step).value)
  {
  }

  lemma WritingReferenced(w: World, step: Step)
    requires Referenced(w) && Writing(w, step).Some?
    ensures Referenced(Writing(w, step).value)
  {
  }

  lemma WritingFiles(w: World, step: Step)
    requires Sound(w) && Writing(w, step).Some?
    ensures Filed(Writing(w, step).value)
  {
  }

  lemma WritingTracked(w: World, step: Step)
    requires Sound(w) && Writing(w, step).Some?
    ensures Tracked(Writing(w, step).value)
  {
  }

  lemma WritingFresh(w: World, step: Step)
    requires Filed(w) && Fresh(w) && Vacant(w) && Writing(w, step).Some?
    ensures Fresh(Writing(w, step).value) && Vacant(Writing(w, step).value)
  {
  }

  lemma WritingWatched(w: World, step: Step)
    requires Sound(w) && Watched(w) && Writing(w, step).Some?
    ensures Watched(Writing(w, step).value)
  {
  }

  lemma WritingIndexed(w: World, step: Step)
    requires Filed(w) && Fresh(w) && Indexed(w) && Writing(w, step).Some?
    ensures Indexed(Writing(w, step).value)
  {
  }

  lemma MonitoringReferenced(w: World, step: Step)
    requires Referenced(w) && Monitoring(w, step).Some?
    ensures Referenced(Monitoring(w, step).value)
  {
  }

  lemma MonitoringFiles(w: World, step: Step)
    requires Filed(w) && Fresh(w) && Monitoring(w, step).Some?
    ensures Filed(Monitoring(w, step).value)
  {
  }

  lemma MonitoringTracked(w: World, step: Step)
    requires Filed(w) && Fresh(w) && Tracked(w) && Monitoring(w, step).Some?
    ensures Tracked(Monitoring(w, step).value)
  {
  }

  lemma MonitoringFresh(w: World, step: Step)
    requires Filed(w) && Fresh(w) && Monitoring(w, step).Some?
    ensures Fresh(Monitoring(w, step).value)
  {
  }

  lemma MonitoringVacant(w: World, step: Step)
    requires Filed(w) && Fresh(w) && Vacant(w) && Monitoring(w, step).Some?
    ensures Vacant(Monitoring(w, step).value)
  {
  }

  lemma MonitoringWatched(w: World, step: Step)
    requires Sound(w) && Watched(w) && Monitoring(w, step).Some?
    ensures Watched(Monitoring(w, step).value)
  {
    match step
    case MonitorDisengages(i) => DisengageWatched(w, i);
    case ObserveContext(i) => ObserveWatched(w, i);
    case _ =>
  }

  lemma DisengageWatched(w: World, i: Instance)
    requires Sound(w) && Watched(w) && Monitoring(w, MonitorDisengages(i)).Some?
    ensures Watched(Monitoring(w, MonitorDisengages(i)).value)
  {
  }

  lemma ObserveWatched(w: World, i: Instance)
    requires Sound(w) && Watched(w) && Monitoring(w, ObserveContext(i)).Some?
    ensures Watched(Monitoring(w, ObserveContext(i)).value)
  {
  }

  /** Nothing changes but the runs, and published clusters may go. */
  ghost predicate OnlyLoses(w: World, w': World) {
    && w'.rec == w.rec && w'.call == w.call && w'.applied == w.applied && w'.indexFailed == w.indexFailed
    && w'.reg.indexers == w.reg.indexers
    && forall k :: k in w'.reg.clusters ==> k in w.reg.clusters && w'.reg.clusters[k] == w.reg.clusters[k]
  }

  lemma MonitoringOnlyLoses(w: World, step: Step)
    requires Monitoring(w, step).Some?
    ensures OnlyLoses(w, Monitoring(w, step).value)
  {
  }

  lemma LosingKeepsIndexed(w: World, w': World)
    requires Indexed(w) && OnlyLoses(w, w')
    ensures Indexed(w')
  {
    forall k | k in w'.reg.clusters && !w'.indexFailed ensures Carries(w', k) {
      assert Carries(w, k);
    }
  }

  lemma IndexFieldReferenced(w: World, step: Step)
    requires Referenced(w) && IndexFieldStep(w, step).Some?
    ensures Referenced(IndexFieldStep(w, step).value)
  {
  }

  lemma IndexFieldFiles(w: World, step: Step)
    requires Sound(w) && IndexFieldStep(w, step).Some?
    ensures Filed(IndexFieldStep(w, step).value)
  {
  }

  lemma IndexFieldTracked(w: World, step: Step)
    requires Sound(w) && IndexFieldStep(w, step).Some?
    ensures Tracked(IndexFieldStep(w, step).value)
  {
  }

  lemma IndexFieldFresh(w: World, step: Step)
    requires Filed(w) && Fresh(w) && Vacant(w) && IndexFieldStep(w, step).Some?
    ensures Fresh(IndexFieldStep(w, step).value) && Vacant(IndexFieldStep(w, step).value)
  {
  }

  lemma IndexFieldWatched(w: World, step: Step)
    requires Sound(w) && Watched(w) && IndexFieldStep(w, step).Some?
    ensures Watched(IndexFieldStep(w, step).value)
  {
  }

  lemma IndexFieldIndexed(w: World, step: Step)
    requires Filed(w) && Fresh(w) && Indexed(w) && IndexFieldStep(w, step).Some?
    ensures Indexed(IndexFieldStep(w, step).value)
  {
    match step
    case BeginIndexField(idx) => BeginIndexed(w, idx);
    case IndexPublished(k, ok) => IndexPublishedIndexed(w, k, ok);
    case EndIndexField =>
  }

  lemma BeginIndexed(w: World, idx: Index)
    requires Filed(w) && Fresh(w) && Indexed(w) && IndexFieldStep(w, BeginIndexField(idx)).Some?
    ensures Indexed(IndexFieldStep(w, BeginIndexField(idx)).value)
  {
  }

  lemma IndexPublishedIndexed(w: World, k: Key, ok: bool)
    requires Filed(w) && Fresh(w) && Indexed(w) && IndexFieldStep(w, IndexPublished(k, ok)).Some?
    ensures Indexed(IndexFieldStep(w, IndexPublished(k, ok)).value)
  {
  }

  lemma StepKeeps(w: World, step: Step)
    requires Inv(w) && Next(w, step).Some?
    ensures Inv(Next(w, step).value)
  {
    if Evicting(w, step).Some? {
      EvictingReferenced(w, step);
      EvictingFiles(w, step);
      EvictingTracked(w, step);
      EvictingFresh(w, step);
      EvictingWatched(w, step);
      EvictingIndexed(w, step);
    } else if Preparing(w, step).Some? {
      PreparingReferenced(w, step);
      PreparingFiles(w, step);
      PreparingTracked(w, step);
      PreparingVacant(w, step);
      PreparingFresh(w, step);
      PreparingWatched(w, step);
      PreparingIndexed(w, step);
    } else if Checking(w, step).Some? {
      CheckingReferenced(w, step);
      CheckingOnlyMoves(w, step);
      SameFilesFiled(w, Checking(w, step).value);
      CheckingTracked(w, step);
      CheckingVacant(w, step);
      CheckingFresh(w, step);
      CheckingWatched(w, step);
      CheckingIndexed(w, step);
    } else if Writing(w, step).Some? {
      WritingReferenced(w, step);
      WritingFiles(w, step);
      WritingTracked(w, step);
      WritingFresh(w, step);
      WritingWatched(w, step);
      WritingIndexed(w, step);
    } else if Monitoring(w, step).Some? {
      MonitoringReferenced(w, step);
      MonitoringFiles(w, step);
      MonitoringTracked(w, step);
      MonitoringFresh(w, step);
      MonitoringVacant(w, step);
      MonitoringWatched(w, step);
      MonitoringOnlyLoses(w, step);
      LosingKeepsIndexed(w, Monitoring(w, step).value);
    } else if IndexFieldStep(w, step).Some? {
      IndexFieldReferenced(w, step);
      IndexFieldFiles(w, step);
      IndexFieldTracked(w, step);
      IndexFieldFresh(w, step);
      IndexFieldWatched(w, step);
      IndexFieldIndexed(w, step);
    }
  }

  /** The invariant holds after every run. */
  lemma {:induction false} RunKeeps(steps: seq<Step>, w: World)
    requires Reaches(INITIAL, steps, w)
    ensures Inv(w)
    decreases |steps|
  {
    if steps != [] {
      var before, last := steps[..|steps| - 1], steps[|steps| - 1];
      var mid :| Reaches(INITIAL, before, mid) && Next(mid, last) == Some(w);
      RunKeeps(before, mid);
      StepKeeps(mid, last);
    }
  }

  lemma ReachableInv(w: World)
    requires Reachable(w)
    ensures Inv(w)
  {
    var steps :| Reaches(INITIAL, steps, w);
    RunKeeps(steps, w);
  }

  // ----------------------------------------------------------------- theorems

  /**
   Once the monitor of i is done and the reconciler is not setting i up, i is
   not published while the parent context is live, however the two interleaved.
   */
  lemma StoppedClusterIsEvicted(w: World, i: Instance)
    requires Reachable(w) && w.parentLive
    requires i in w.runs && w.runs[i].monitor.Finished? && !SettingUp(w, i)
    ensures i !in w.reg.clusters.Values
  {
    ReachableInv(w);
  }

  /**
   A step of the monitor of i takes away nothing but i itself: every other
   published cluster stays published under the same key with a live context,
   including the one that replaced i.
   */
  lemma LateStopSparesReplacement(w: World, step: Step, i: Instance)
    requires Reachable(w) && Monitoring(w, step).Some?
    requires step == StartReturns(i) || step == ObserveContext(i) || step == MarkStopped(i)
             || step == MonitorDisengages(i) || step == ReportStart(i)
    ensures var w' := Monitoring(w, step).value;
            && w'.reg.profileKeys == w.reg.profileKeys && w'.reg.indexers == w.reg.indexers
            && w'.reg.cancelled <= w.reg.cancelled + {i}
            && forall k :: k in w.reg.clusters && w.reg.clusters[k] != i ==>
                 k in w'.reg.clusters && w'.reg.clusters[k] == w.reg.clusters[k]
                 && k in w'.reg.kubeconfigs && w'.reg.kubeconfigs[k] == w.reg.kubeconfigs[k]
  {
    ReachableInv(w);
    MonitorSpares(w, step, i);
  }

  lemma MonitorSpares(w: World, step: Step, i: Instance)
    requires Filed(w) && Monitoring(w, step).Some?
    requires step == StartReturns(i) || step == ObserveContext(i) || step == MarkStopped(i)
             || step == MonitorDisengages(i) || step == ReportStart(i)
    ensures var w' := Monitoring(w, step).value;
            && w'.reg.profileKeys == w.reg.profileKeys && w'.reg.indexers == w.reg.indexers
            && w'.reg.cancelled <= w.reg.cancelled + {i}
            && forall k :: k in w.reg.clusters && w.reg.clusters[k] != i ==>
                 k in w'.reg.clusters && w'.reg.clusters[k] == w.reg.clusters[k]
                 && k in w'.reg.kubeconfigs && w'.reg.kubeconfigs[k] == w.reg.kubeconfigs[k]
  {
  }

  /** A launched cluster whose context is live is the published one of its key or the one being set up. */
  lemma NoClusterLeaks(w: World, i: Instance)
    requires Reachable(w)
    requires i in w.runs && i !in w.reg.cancelled
    ensures Current(w, i) || (SettingUp(w, i) && !LockFree(w))
  {
    ReachableInv(w);
  }

  /** The three maps always share one domain, and no stored cancel function is already spent. */
  lemma MapsShareOneDomain(w: World)
    requires Reachable(w)
    ensures w.reg.clusters.Keys == w.reg.cancelFns.Keys == w.reg.kubeconfigs.Keys
    ensures forall k :: k in w.reg.clusters ==>
              w.reg.cancelFns[k] == w.reg.clusters[k] && w.reg.clusters[k] !in w.reg.cancelled
  {
    ReachableInv(w);
  }

  lemma PublishNeverOverwrites(w: World)
    requires Reachable(w) && Writing(w, Publish).Some?
    ensures w.rec.key !in w.reg.clusters
    ensures forall k :: k in w.reg.clusters ==>
              IsCurrent(Writing(w, Publish).value.reg, k, w.reg.clusters[k])
  {
    ReachableInv(w);
  }

  /** What is stored as a cluster's kubeconfig is what its published instance was created with. */
  lemma KubeconfigIsCreatedWith(w: World, k: Key)
    requires Reachable(w) && k in w.reg.clusters
    ensures k in w.reg.kubeconfigs && w.reg.clusters[k] in w.runs
    ensures w.reg.kubeconfigs[k] == w.runs[w.reg.clusters[k]].cfg
  {
    ReachableInv(w);
  }

  /**
   The decision whether to keep a published cluster: with the configuration it
   runs on nothing changes and the pass is over; with another one it is
   cancelled and gone from all maps before anything is built.
   */
  lemma ChangedConfigEvicts(w: World)
    requires Reachable(w) && w.rec.Deciding? && w.rec.key in w.reg.clusters
    ensures w.reg.clusters[w.rec.key] in w.runs
    ensures var w', kept := Evicting(w, KeepOrEvict), w.reg.clusters[w.rec.key];
            && w'.Some?
            && if w.runs[kept].cfg == w.rec.cfg then w'.value == w.(rec := Unlocking)
               else
                 && w'.value.rec == Snapshotting(w.rec.key, w.rec.cfg) && kept in w'.value.reg.cancelled
                 && w'.value.reg.clusters == w.reg.clusters - {w.rec.key}
                 && w'.value.reg.cancelFns == w.reg.cancelFns - {w.rec.key}
                 && w'.value.reg.kubeconfigs == w.reg.kubeconfigs - {w.rec.key}
  {
    ReachableInv(w);
  }

  /** Once a pass builds a cluster for its key, every instance of that key with another configuration is cancelled. */
  lemma PassReplacesConfig(w: World, i: Instance)
    requires Reachable(w)
    requires w.rec.Snapshotting? || w.rec.Creating? || w.rec.Indexing? || w.rec.Setup?
    requires i in w.runs && w.runs[i].key == w.rec.key && w.runs[i].cfg != w.rec.cfg
    ensures i in w.reg.cancelled
  {
    ReachableInv(w);
  }

  /** A pass that gets through its last check leaves its key published with its instance and its configuration. */
  lemma FinishedPassIsPublished(w: World)
    requires Reachable(w) && w.rec.Setup? && w.rec.stage == CheckAfterEngage && w.rec.inst in w.runs
    requires Checking(w, CheckStopped) == Some(w.(rec := Unlocking))
    ensures w.rec.key in w.reg.clusters && w.reg.clusters[w.rec.key] == w.rec.inst
    ensures w.rec.key in w.reg.kubeconfigs && w.reg.kubeconfigs[w.rec.key] == w.rec.cfg
    ensures w.rec.inst !in w.reg.cancelled
  {
    ReachableInv(w);
  }

  // ------------------------------------------------------------- a setup that fails

  /** The step tells the reconciler that its setup has failed. */
  predicate Fails(w: World, step: Step) {
    && w.rec.Setup? && w.rec.inst in w.runs
    && match step
       case SyncResult(ok) => !ok
       case Engage(ok) => !ok
       case CheckStopped => w.runs[w.rec.inst].stopped
       case VerifyCurrent => w.rec.key !in w.reg.clusters || w.reg.clusters[w.rec.key] != w.rec.inst
       case _ => false
  }

  /** i is cancelled, or the reconciler is on its way to cancel it. */
  predicate Doomed(w: World, i: Instance) {
    i in w.reg.cancelled || (SettingUp(w, i) && (w.rec.stage == Withdrawing || w.rec.stage == Cleaning))
  }

  lemma FailureDooms(w: World, step: Step)
    requires Fails(w, step) && Checking(w, step).Some?
    ensures Doomed(Checking(w, step).value, w.rec.inst)
  {
  }

  lemma EvictingDoomed(w: World, step: Step, i: Instance)
    requires Doomed(w, i) && Evicting(w, step).Some?
    ensures Doomed(Evicting(w, step).value, i)
  {
  }

  lemma PreparingDoomed(w: World, step: Step, i: Instance)
    requires Doomed(w, i) && Preparing(w, step).Some?
    ensures Doomed(Preparing(w, step).value, i)
  {
  }

  lemma CheckingDoomed(w: World, step: Step, i: Instance)
    requires Doomed(w, i) && Checking(w, step).Some?
    ensures Doomed(Checking(w, step).value, i)
  {
  }

  lemma WritingDoomed(w: World, step: Step, i: Instance)
    requires Doomed(w, i) && Writing(w, step).Some?
    ensures Doomed(Writing(w, step).value, i)
  {
  }

  lemma MonitoringDoomed(w: World, step: Step, i: Instance)
    requires Doomed(w, i) && Monitoring(w, step).Some?
    ensures Doomed(Monitoring(w, step).value, i)
  {
  }

  lemma IndexFieldDoomed(w: World, step: Step, i: Instance)
    requires Doomed(w, i) && IndexFieldStep(w, step).Some?
    ensures Doomed(IndexFieldStep(w, step).value, i)
  {
  }

  lemma StepKeepsDoomed(w: World, step: Step, i: Instance)
    requires Doomed(w, i) && Next(w, step).Some?
    ensures Doomed(Next(w, step).value, i)
  {
    if Evicting(w, step).Some? {
      EvictingDoomed(w, step, i);
    } else if Preparing(w, step).Some? {
      PreparingDoomed(w, step, i);
    } else if Checking(w, step).Some? {
      CheckingDoomed(w, step, i);
    } else if Writing(w, step).Some? {
      WritingDoomed(w, step, i);
    } else if Monitoring(w, step).Some? {
      MonitoringDoomed(w, step, i);
    } else {
      IndexFieldDoomed(w, step, i);
    }
  }

  lemma {:induction false} RunKeepsDoomed(w: World, steps: seq<Step>, w': World, i: Instance)
    requires Inv(w) && Doomed(w, i) && Reaches(w, steps, w')
    ensures Inv(w') && Doomed(w', i)
    decreases |steps|
  {
    if steps != [] {
      var before, last := steps[..|steps| - 1], steps[|steps| - 1];
      var mid :| Reaches(w, before, mid) && Next(mid, last) == Some(w');
      RunKeepsDoomed(w, before, mid, i);
      StepKeeps(mid, last);
      StepKeepsDoomed(mid, last, i);
    }
  }

  /**
   A setup that fails is undone: after a failed sync, a failed engagement, a
   stop seen in time or a lost publication, whatever happens next, the instance
   is cancelled and not published as soon as the reconciler is past it.
   */
  lemma FailedSetupIsUndone(w: World, step: Step, mid: World, steps: seq<Step>, w': World)
    requires Reachable(w) && Fails(w, step) && Checking(w, step) == Some(mid)
    requires Reaches(mid, steps, w') && !SettingUp(w', w.rec.inst)
    ensures w.rec.inst in w'.reg.cancelled && w.rec.inst !in w'.reg.clusters.Values
  {
    ReachableInv(w);
    FailureDooms(w, step);
    StepKeeps(w, step);
    RunKeepsDoomed(mid, steps, w', w.rec.inst);
  }

  /** Some remembered profile other than `but` names cluster k. */
  ghost predicate NamedBy(r: Registry, k: Key, but: set<Key>) {
    exists p :: p in r.profileKeys && p !in but && r.profileKeys[p] == k
  }

  lemma NamedByOthers(r: Registry, k: Key, req: Key)
    ensures NamedBy(r, k, {req}) <==> k in (r.profileKeys - {req}).Values
  {
    var others := r.profileKeys - {req};
    if k in others.Values {
      var p :| p in others && others[p] == k;
      assert r.profileKeys[p] == k && p !in {req};
    }
    if NamedBy(r, k, {req}) {
      var p :| p in r.profileKeys && p !in {req} && r.profileKeys[p] == k;
      assert others[p] == k;
    }
  }

  lemma PublishedKeysAreNamed(w: World, k: Key)
    requires Reachable(w) && k in w.reg.clusters
    ensures NamedBy(w.reg, k, {})
  {
    ReachableInv(w);
  }

  /**
   Dropping a profile: a published cluster survives exactly when another
   profile names it, and then with the same instance and a live context; one
   that does not survive is cancelled.
   */
  lemma DropSparesShared(w: World, req: Key, fallback: Key, k: Key)
    requires Reachable(w) && w.rec.Idle?
    requires k in w.reg.clusters
    ensures var r' := Evicting(w, ProfileDropped(req, fallback)).value.reg;
            && (NamedBy(w.reg, k, {req}) <==> k in r'.clusters)
            && (k in r'.clusters ==> r'.clusters[k] == w.reg.clusters[k] && w.reg.clusters[k] !in r'.cancelled)
            && (k !in r'.clusters ==> w.reg.clusters[k] in r'.cancelled)
            && r'.clusters.Keys <= w.reg.clusters.Keys
            && r'.profileKeys == w.reg.profileKeys - {req}
  {
    ReachableInv(w);
    NamedByOthers(w.reg, k, req);
  }

  /** Remapping a profile: the same, where the profile's new name counts as a survivor. */
  lemma RemapSparesShared(w: World, req: Key, logical: Key, cfg: RestConfig, k: Key)
    requires Reachable(w) && w.rec.Idle?
    requires k in w.reg.clusters
    ensures var r' := Evicting(w, ProfileReady(req, logical, cfg)).value.reg;
            && (NamedBy(w.reg, k, {req}) || k == logical <==> k in r'.clusters)
            && (k in r'.clusters ==> r'.clusters[k] == w.reg.clusters[k] && w.reg.clusters[k] !in r'.cancelled)
            && (k !in r'.clusters ==> w.reg.clusters[k] in r'.cancelled)
            && r'.profileKeys == w.reg.profileKeys[req := logical]
  {
    ReachableInv(w);
    RememberedSpares(w.reg, req, logical, k);
  }

  lemma RememberedSpares(r: Registry, req: Key, logical: Key, k: Key)
    requires k in r.clusters && r.cancelFns == r.clusters
    requires k in r.profileKeys.Values && r.clusters[k] !in r.cancelled
    requires forall j :: j in r.clusters && j != k ==> r.clusters[j] != r.clusters[k]
    ensures var r' := Remembered(r, req, logical);
            && (NamedBy(r, k, {req}) || k == logical <==> k in r'.clusters)
            && (k in r'.clusters ==> r'.clusters[k] == r.clusters[k] && r.clusters[k] !in r'.cancelled)
            && (k !in r'.clusters ==> r.clusters[k] in r'.cancelled)
            && r'.profileKeys == r.profileKeys[req := logical]
  {
    var others := r.profileKeys - {req};
    NamedByOthers(r, k, req);
    assert others[req := logical] == r.profileKeys[req := logical];
  }

  /**
   While the operations lock is free and no index call has failed, every
   published cluster carries the registered indexers, each once, in order.
   */
  lemma IndexersComplete(w: World, k: Key)
    requires Reachable(w) && LockFree(w) && !w.indexFailed
    requires k in w.reg.clusters
    ensures w.reg.clusters[k] in w.applied
    ensures w.applied[w.reg.clusters[k]] == w.reg.indexers
  {
    ReachableInv(w);
  }
}
