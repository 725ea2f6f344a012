/**
 Whole passes and runs of passes over the hub: which children a ReplicaSet may
 touch, what deletion leaves behind, and convergence of the fan-out.
 */
module FleetRuns {
  import opened Options
  import opened Fleet
  import opened FleetRollout
  import opened FleetStatus
  import opened Ordering

  // ------------------------------------------------------------------- a pass

  /** Everything one normal pass reads, decides and is answered. */
  datatype Pass = Pass(
    s: Snapshot,
    children: seq<Key>,
    refs: seq<Ref>,
    order: seq<string>,
    plan: Plan,
    refused: set<string>,
    undeletable: set<Key>)

  /** Every listed cluster is planned and every child is in the snapshot, so that the writes are defined. */
  ghost predicate Defined(pass: Pass) {
    && (forall c :: c in pass.order ==> c in pass.plan.summaries)
    && (forall k :: k in pass.children ==> k in pass.s.hub)
  }

  ghost predicate IsPass(rs: ReplicaSet, pass: Pass) {
    && Defined(pass)
    && Indexes(rs, pass.s) && OwnedChildren(rs, pass.s, pass.children)
    && SdkOk(rs, pass.s, pass.refs) && IsPlan(rs, pass.s, pass.refs, pass.plan)
    && Lists(pass.order, Selected(pass.refs))
  }

  /** The writes of a normal pass, as FleetStatus.Status.Reconcile issues them. */
  ghost function Writes(rs: ReplicaSet, pass: Pass): seq<Write>
    requires Defined(pass)
  {
    ApplyWrites(rs, pass.s, pass.plan, pass.refused, pass.order)
    + PruneWrites(pass.s, Selected(pass.refs), pass.undeletable, pass.children)
  }

  /** A write that creates over nothing, and patches or removes an owned child only. */
  predicate Safe(rs: ReplicaSet, hub: Hub, w: Write) {
    match w
    case NoWrite => true
    case Create(k) => k !in hub
    case Patch(k) => k in hub && Owns(rs, hub[k])
    case Remove(k) => k in hub && Owns(rs, hub[k])
  }

  ghost predicate AllSafe(rs: ReplicaSet, hub: Hub, ws: seq<Write>) {
    && Separate(ws)
    && forall i :: 0 <= i < |ws| ==> Safe(rs, hub, ws[i])
  }

  /** An apply write is safe and stays in its cluster's namespace. */
  lemma ApplyIsSafe(rs: ReplicaSet, s: Snapshot, c: string, planned: Summary, answer: Answer)
    requires Indexes(rs, s)
    ensures var w := Apply(rs, s, c, planned, answer).write;
            Safe(rs, s.hub, w) && (!w.NoWrite? ==> w.key.namespace == c) && (w.Create? ==> w.key == Key(c, rs.name))
  {
  }

  /** Applies go to their own selected namespace, removals to children outside the selection. */
  lemma WriteTarget(rs: ReplicaSet, pass: Pass, i: nat)
    requires IsPass(rs, pass) && i < |Writes(rs, pass)|
    ensures var w := Writes(rs, pass)[i];
            && Safe(rs, pass.s.hub, w)
            && (w.Create? ==> w.key == Key(w.key.namespace, rs.name))
            && (i < |pass.order| && !w.NoWrite? ==>
                 w.key.namespace == pass.order[i] && w.key.namespace in Selected(pass.refs))
            && (i >= |pass.order| && !w.NoWrite? ==>
                  w == Remove(pass.children[i - |pass.order|]) && w.key.namespace !in Selected(pass.refs))
  {
    if i < |pass.order| {
      var c := pass.order[i];
      assert c in pass.order;
      assert Writes(rs, pass)[i] == WriteFor(rs, pass.s, pass.plan, pass.refused, c);
      ApplyIsSafe(rs, pass.s, c, pass.plan.summaries[c], AnswerTo(pass.refused, c));
    } else {
      var k := pass.children[i - |pass.order|];
      assert k in pass.children;
      assert Writes(rs, pass)[i] == PruneWrite(pass.s, Selected(pass.refs), pass.undeletable, k);
    }
  }

  lemma PassIsSafe(rs: ReplicaSet, pass: Pass)
    requires IsPass(rs, pass)
    ensures AllSafe(rs, pass.s.hub, Writes(rs, pass))
  {
    var ws := Writes(rs, pass);
    forall i | 0 <= i < |ws| ensures Safe(rs, pass.s.hub, ws[i]) {
      WriteTarget(rs, pass, i);
    }
    forall i, j | 0 <= i < j < |ws| && !ws[i].NoWrite? && !ws[j].NoWrite? ensures ws[i].key != ws[j].key {
      WriteTarget(rs, pass, i);
      WriteTarget(rs, pass, j);
    }
  }

  // --------------------------------------------------------- incarnation safety

  /**
   What safe writes do to one key: a child not owned stays as it is, a created
   one comes from the template, and an owned one stays owned as long as it stays.
   */
  ghost predicate KeyIsSafe(rs: ReplicaSet, before: Hub, after: Hub, k: Key) {
    && (k in before && !Owns(rs, before[k]) ==> k in after && after[k] == before[k])
    && (k !in before && k in after ==> after[k] == Materialized(rs))
    && (k in after && (k !in before || Owns(rs, before[k])) ==> Owns(rs, after[k]))
  }

  lemma SafeWritesKeepKeys(rs: ReplicaSet, hub: Hub, ws: seq<Write>, k: Key)
    requires AllSafe(rs, hub, ws)
    ensures KeyIsSafe(rs, hub, PerformAll(rs, hub, ws), k)
  {
    if i :| 0 <= i < |ws| && Touches(ws[i], k) {
      TouchedOnce(rs, hub, ws, i);
      if k in hub {
        TemplateIsOwned(rs, hub[k]);
      } else {
        TemplateIsOwned(rs, Materialized(rs));
      }
    } else {
      Untouched(rs, hub, ws, k);
    }
  }

  /**
   A pass never touches a child it does not own; what it creates is owned and
   drift-free, what it patches stays owned.
   */
  lemma PassKeepsForeign(rs: ReplicaSet, pass: Pass, k: Key)
    requires IsPass(rs, pass)
    ensures var before := pass.s.hub;
            var after := PerformAll(rs, before, Writes(rs, pass));
            && KeyIsSafe(rs, before, after, k)
            && (k !in before && k in after ==> Owns(rs, after[k]) && !Drifts(rs, after[k]))
  {
    PassIsSafe(rs, pass);
    SafeWritesKeepKeys(rs, pass.s.hub, Writes(rs, pass), k);
    TemplateIsOwned(rs, Materialized(rs));
  }

  /** A surviving child of an earlier incarnation is reported as a conflict and not adopted. */
  lemma SurvivorIsConflict(rs: ReplicaSet, s: Snapshot, c: string, answer: Answer)
    requires Indexes(rs, s) && c in s.namespaces && c !in s.byNamespace
    requires Key(c, rs.name) in s.hub && Get(s.hub[Key(c, rs.name)].labels, LABEL_REPLICASET_UID) != rs.uid
    ensures Existing(rs, s, c).0.phase == Conflict && Existing(rs, s, c).1 == FailedProgress
    ensures forall planned :: Apply(rs, s, c, planned, answer).write == NoWrite
  {
  }

  // ------------------------------------------------------------------- deletion

  /** The deletes of a deletion pass: children already going are passed over, the first refusal ends it. */
  function DeleteWrites(s: Snapshot, children: seq<Key>, undeletable: set<Key>): seq<Write>
    requires forall k :: k in children ==> k in s.hub
  {
    if children == [] then []
    else
      assert children[0] in children;
      if s.hub[children[0]].deleting then [NoWrite] + DeleteWrites(s, children[1..], undeletable)
      else if children[0] in undeletable then []
      else [Remove(children[0])] + DeleteWrites(s, children[1..], undeletable)
  }

  lemma {:induction false} DeleteWritesAt(s: Snapshot, children: seq<Key>, undeletable: set<Key>, i: nat)
    requires (forall k :: k in children ==> k in s.hub) && i < |DeleteWrites(s, children, undeletable)|
    ensures i < |children| && children[i] in s.hub
    ensures var w := DeleteWrites(s, children, undeletable)[i]; w == NoWrite || w == Remove(children[i])
  {
    assert children[0] in children;
    if i > 0 {
      DeleteWritesAt(s, children[1..], undeletable, i - 1);
    }
  }

  /** `w` is the delete of a child that is not refused. */
  predicate DeletesAt(s: Snapshot, undeletable: set<Key>, k: Key, w: Write) {
    k in s.hub && if s.hub[k].deleting then w == NoWrite else k !in undeletable && w == Remove(k)
  }

  lemma {:induction false} DeleteWritesAre(s: Snapshot, children: seq<Key>, undeletable: set<Key>, ws: seq<Write>)
    requires (forall k :: k in children ==> k in s.hub) && |ws| <= |children|
    requires forall j :: 0 <= j < |ws| ==> DeletesAt(s, undeletable, children[j], ws[j])
    requires |ws| < |children| ==>
               children[|ws|] in s.hub && !s.hub[children[|ws|]].deleting && children[|ws|] in undeletable
    ensures ws == DeleteWrites(s, children, undeletable)
  {
    if ws != [] {
      assert DeletesAt(s, undeletable, children[0], ws[0]);
      DeleteWritesAre(s, children[1..], undeletable, ws[1..]);
      assert ws == [ws[0]] + ws[1..];
    }
  }

  /** The pass gets through exactly when nothing that needs deleting is refused, and then it deletes all of it. */
  lemma {:induction false} DeleteWritesComplete(s: Snapshot, children: seq<Key>, undeletable: set<Key>)
    requires forall k :: k in children ==> k in s.hub
    ensures var ws := DeleteWrites(s, children, undeletable);
            && |ws| <= |children|
            && (|ws| == |children| <==> forall k :: k in children ==> s.hub[k].deleting || k !in undeletable)
            && (|ws| == |children| ==> forall k :: k in children ==> s.hub[k].deleting || Remove(k) in ws)
  {
    if children != [] {
      assert children == [children[0]] + children[1..];
      DeleteWritesComplete(s, children[1..], undeletable);
    }
  }

  lemma DeletionIsSafe(rs: ReplicaSet, s: Snapshot, children: seq<Key>, undeletable: set<Key>)
    requires OwnedChildren(rs, s, children)
    ensures AllSafe(rs, s.hub, DeleteWrites(s, children, undeletable))
  {
    var ws := DeleteWrites(s, children, undeletable);
    forall i | 0 <= i < |ws| ensures Safe(rs, s.hub, ws[i]) {
      DeleteWritesAt(s, children, undeletable, i);
      assert children[i] in children;
    }
    forall i, j | 0 <= i < j < |ws| && !ws[i].NoWrite? && !ws[j].NoWrite? ensures ws[i].key != ws[j].key {
      DeleteWritesAt(s, children, undeletable, i);
      DeleteWritesAt(s, children, undeletable, j);
    }
  }

  /** The loop of reconcileReplicaSetDelete. */
  method DeleteChildren(s: Snapshot, children: seq<Key>, undeletable: set<Key>)
    returns (writes: seq<Write>, remaining: nat, failed: bool)
    requires forall k :: k in children ==> k in s.hub
    ensures writes == DeleteWrites(s, children, undeletable)
    ensures failed <==> |writes| < |children|
    ensures !failed ==> remaining == |children|
  {
    writes, remaining, failed := [], 0, false;
    for i := 0 to |children|
      invariant remaining == |writes| == i
      invariant forall j :: 0 <= j < i ==> DeletesAt(s, undeletable, children[j], writes[j])
    {
      var k := children[i];
      assert k in children;
      remaining := remaining + 1;
      if s.hub[k].deleting {
        writes := writes + [NoWrite];
        continue;
      }
      if k in undeletable {
        failed := true;
        DeleteWritesAre(s, children, undeletable, writes);
        return;
      }
      writes := writes + [Remove(k)];
    }
    DeleteWritesAre(s, children, undeletable, writes);
  }

  /**
   reconcileReplicaSetDelete: removes owned children until one delete fails;
   the finalizer goes when none was listed.
   */
  method DeleteReplicaSet(rs: ReplicaSet, s: Snapshot, children: seq<Key>, undeletable: set<Key>)
    returns (writes: seq<Write>, failed: bool, finalizerRemoved: bool)
    requires OwnedChildren(rs, s, children)
    ensures writes == DeleteWrites(s, children, undeletable)
    ensures finalizerRemoved <==> forall k :: k in s.hub ==> !Owns(rs, s.hub[k])
    ensures failed <==> exists k :: k in children && !s.hub[k].deleting && k in undeletable
    ensures !failed ==> forall k :: k in s.hub && Owns(rs, s.hub[k]) && !s.hub[k].deleting ==> Remove(k) in writes
  {
    var remaining;
    DeleteWritesComplete(s, children, undeletable);
    writes, remaining, failed := DeleteChildren(s, children, undeletable);
    finalizerRemoved := !failed && remaining == 0;
    assert children != [] ==> children[0] in children;
  }

  // ------------------------------------------------------- runs of incarnations

  /** What can happen on the hub: a normal or a deletion pass of some ReplicaSet, or anything by anyone else. */
  datatype FleetStep =
    | NormalPass(rs: ReplicaSet, pass: Pass)
    | DeletionPass(rs: ReplicaSet, s: Snapshot, children: seq<Key>, undeletable: set<Key>)
    | Elsewhere

  predicate Labelled(uid: string, c: Child) {
    Get(c.labels, LABEL_REPLICASET_UID) == uid
  }

  /** `step` takes the hub from `before` to `after`; other parties are held to leave this UID's children alone. */
  ghost predicate Takes(uid: string, before: Hub, step: FleetStep, after: Hub) {
    match step
    case NormalPass(rs, pass) =>
      IsPass(rs, pass) && pass.s.hub == before && after == PerformAll(rs, before, Writes(rs, pass))
    case DeletionPass(rs, s, children, undeletable) =>
      && OwnedChildren(rs, s, children) && s.hub == before
      && after == PerformAll(rs, before, DeleteWrites(s, children, undeletable))
    case Elsewhere =>
      forall k :: k in before && Labelled(uid, before[k]) ==> k in after && after[k] == before[k]
  }

  predicate ByOther(uid: string, step: FleetStep) {
    step.Elsewhere? || step.rs.uid != uid
  }

  lemma OtherStepKeepsChild(uid: string, before: Hub, step: FleetStep, after: Hub, k: Key)
    requires Takes(uid, before, step, after) && ByOther(uid, step) && k in before && Labelled(uid, before[k])
    ensures k in after && after[k] == before[k]
  {
    match step
    case NormalPass(rs, pass) =>
      PassIsSafe(rs, pass);
      SafeWritesKeepKeys(rs, before, Writes(rs, pass), k);
    case DeletionPass(rs, s, children, undeletable) =>
      DeletionIsSafe(rs, s, children, undeletable);
      SafeWritesKeepKeys(rs, before, DeleteWrites(s, children, undeletable), k);
    case Elsewhere =>
  }

  /**
   Over any run of normal and deletion passes by ReplicaSets with other UIDs,
   with anything else happening elsewhere, a child labelled with this UID stays
   exactly as it is.
   */
  lemma {:induction false} OtherIncarnationsKeepChild(uid: string, hubs: seq<Hub>, steps: seq<FleetStep>, k: Key,
                                                      i: nat)
    requires |hubs| == |steps| + 1 && k in hubs[0] && Labelled(uid, hubs[0][k])
    requires forall j :: 0 <= j < |steps| ==> Takes(uid, hubs[j], steps[j], hubs[j + 1]) && ByOther(uid, steps[j])
    requires i < |hubs|
    ensures k in hubs[i] && hubs[i][k] == hubs[0][k]
  {
    if i > 0 {
      OtherIncarnationsKeepChild(uid, hubs, steps, k, i - 1);
      assert Takes(uid, hubs[i - 1], steps[i - 1], hubs[i - 1 + 1]);
      OtherStepKeepsChild(uid, hubs[i - 1], steps[i - 1], hubs[i], k);
    }
  }

  // ---------------------------------------------------------------- convergence

  function Slot(rs: ReplicaSet, c: string): Key {
    Key(c, rs.name)
  }

  /** No foreign object sits where a child goes, and owned children carry the ReplicaSet's name. */
  ghost predicate Tidy(rs: ReplicaSet, selected: set<string>, hub: Hub) {
    && (forall c :: c in selected && Slot(rs, c) in hub ==> Owns(rs, hub[Slot(rs, c)]))
    && (forall k :: k in hub && Owns(rs, hub[k]) ==> k == Slot(rs, k.namespace))
  }

  /** Strategy All, namespaces present, every call accepted. */
  ghost predicate Unhindered(pass: Pass, rs: ReplicaSet) {
    && Selected(pass.refs) <= pass.s.namespaces
    && pass.refused == {} && pass.undeletable == {}
    && forall c :: c in Selected(pass.refs) && Existing(rs, pass.s, c).1 == ToApply ==>
         c in pass.plan.rollout && c !in pass.plan.timedOut
  }

  /** What an unhindered pass writes for one selected cluster. */
  function SlotWrite(rs: ReplicaSet, hub: Hub, c: string): Write {
    var k := Slot(rs, c);
    if k !in hub then Create(k)
    else if !SameSubject(rs, hub[k]) then if hub[k].deleting then NoWrite else Remove(k)
    else if Drifts(rs, hub[k]) then Patch(k)
    else NoWrite
  }

  lemma SlotWriteIs(rs: ReplicaSet, pass: Pass, c: string)
    requires IsPass(rs, pass) && Unhindered(pass, rs) && Tidy(rs, Selected(pass.refs), pass.s.hub)
    requires c in Selected(pass.refs)
    ensures WriteFor(rs, pass.s, pass.plan, pass.refused, c) == SlotWrite(rs, pass.s.hub, c)
  {
    var s, planned := pass.s, pass.plan.summaries[c];
    ChildSitsInSlot(rs, s, Selected(pass.refs), c);
    SlotIsToApply(rs, s, c);
    if Existing(rs, s, c).1 == ToApply {
      PlannedIsExisting(rs, pass, c);
      PendingSlotWrite(rs, s, c, planned);
    } else {
      CleanSlotWrite(rs, s, c, planned);
    }
  }

  lemma SlotIsToApply(rs: ReplicaSet, s: Snapshot, c: string)
    requires c in s.namespaces && (HasChild(s, c) <==> Slot(rs, c) in s.hub)
    requires HasChild(s, c) ==> s.byNamespace[c] == Slot(rs, c)
    ensures var k := Slot(rs, c);
            Existing(rs, s, c).1 == ToApply <==> k !in s.hub || !SameSubject(rs, s.hub[k]) || Drifts(rs, s.hub[k])
    ensures Existing(rs, s, c).1 == ToApply ==> Existing(rs, s, c).0.phase == Pending
  {
  }

  lemma PendingSlotWrite(rs: ReplicaSet, s: Snapshot, c: string, planned: Summary)
    requires planned.phase == Pending && (HasChild(s, c) <==> Slot(rs, c) in s.hub)
    requires HasChild(s, c) ==> s.byNamespace[c] == Slot(rs, c)
    ensures Apply(rs, s, c, planned, Accepted).write == SlotWrite(rs, s.hub, c)
  {
  }

  lemma CleanSlotWrite(rs: ReplicaSet, s: Snapshot, c: string, planned: Summary)
    requires HasChild(s, c) && s.byNamespace[c] == Slot(rs, c)
    requires SameSubject(rs, ChildOf(s, c)) && !Drifts(rs, ChildOf(s, c))
    ensures Apply(rs, s, c, planned, Accepted).write == NoWrite == SlotWrite(rs, s.hub, c)
  {
  }

  lemma PlannedIsExisting(rs: ReplicaSet, pass: Pass, c: string)
    requires IsPass(rs, pass) && c in Selected(pass.refs) && c !in pass.plan.timedOut
    ensures pass.plan.summaries[c] == Existing(rs, pass.s, c).0
  {
    VerdictIsExisting(rs, pass.s, pass.refs, c);
  }

  lemma ChildSitsInSlot(rs: ReplicaSet, s: Snapshot, selected: set<string>, c: string)
    requires Indexes(rs, s) && Tidy(rs, selected, s.hub) && c in selected
    ensures HasChild(s, c) <==> Slot(rs, c) in s.hub
    ensures HasChild(s, c) ==> s.byNamespace[c] == Slot(rs, c)
  {
  }

  /** What an unhindered pass does to a key of the selection. */
  lemma SelectedAfterPass(rs: ReplicaSet, pass: Pass, c: string)
    requires IsPass(rs, pass) && Unhindered(pass, rs) && Tidy(rs, Selected(pass.refs), pass.s.hub)
    requires c in Selected(pass.refs)
    ensures var k, hub := Slot(rs, c), pass.s.hub;
            var after := PerformAll(rs, hub, Writes(rs, pass));
            && (k !in hub ==> k in after && after[k] == Materialized(rs))
            && (k in hub && hub[k].spec.serviceAccount != rs.spec.serviceAccount ==> k !in after || after[k].deleting)
            && (k in hub && hub[k].spec.serviceAccount == rs.spec.serviceAccount ==>
                  && k in after && !Drifts(rs, after[k]) && after[k].deleting == hub[k].deleting
                  && after[k].generation == hub[k].generation + (if hub[k].spec == rs.spec then 0 else 1)
                  && (!Drifts(rs, hub[k]) ==> after[k] == hub[k]))
  {
    var k, hub, ws := Slot(rs, c), pass.s.hub, Writes(rs, pass);
    PassIsSafe(rs, pass);
    var i :| 0 <= i < |pass.order| && pass.order[i] == c;
    assert ws[i] == WriteFor(rs, pass.s, pass.plan, pass.refused, c);
    SlotWriteIs(rs, pass, c);
    if ws[i].NoWrite? {
      SilentSlotIsUntouched(rs, pass, c, i);
    }
    SlotAfterWrite(rs, hub, ws, c, i);
  }

  lemma SlotAfterWrite(rs: ReplicaSet, hub: Hub, ws: seq<Write>, c: string, i: nat)
    requires Separate(ws) && i < |ws| && ws[i] == SlotWrite(rs, hub, c)
    requires ws[i].NoWrite? ==> forall j :: 0 <= j < |ws| ==> !Touches(ws[j], Slot(rs, c))
    ensures var k, after := Slot(rs, c), PerformAll(rs, hub, ws);
            && (k !in hub ==> k in after && after[k] == Materialized(rs))
            && (k in hub && hub[k].spec.serviceAccount != rs.spec.serviceAccount ==> k !in after || after[k].deleting)
            && (k in hub && hub[k].spec.serviceAccount == rs.spec.serviceAccount ==>
                  && k in after && !Drifts(rs, after[k]) && after[k].deleting == hub[k].deleting
                  && after[k].generation == hub[k].generation + (if hub[k].spec == rs.spec then 0 else 1)
                  && (!Drifts(rs, hub[k]) ==> after[k] == hub[k]))
  {
    var k := Slot(rs, c);
    if k in hub {
      TemplateIsOwned(rs, hub[k]);
    }
    if ws[i].NoWrite? {
      Untouched(rs, hub, ws, k);
    } else {
      TouchedOnce(rs, hub, ws, i);
    }
  }

  lemma SilentSlotIsUntouched(rs: ReplicaSet, pass: Pass, c: string, i: nat)
    requires IsPass(rs, pass) && i < |pass.order| && pass.order[i] == c && Writes(rs, pass)[i].NoWrite?
    ensures forall j :: 0 <= j < |Writes(rs, pass)| ==> !Touches(Writes(rs, pass)[j], Slot(rs, c))
  {
    var ws := Writes(rs, pass);
    assert c in pass.order;
    forall j | 0 <= j < |ws| ensures !Touches(ws[j], Slot(rs, c)) {
      WriteTarget(rs, pass, j);
    }
  }

  /** What an unhindered pass does to an owned child outside the selection. */
  lemma OutsideAfterPass(rs: ReplicaSet, pass: Pass, k: Key)
    requires IsPass(rs, pass) && pass.undeletable == {}
    requires k in pass.s.hub && Owns(rs, pass.s.hub[k]) && k.namespace !in Selected(pass.refs)
    ensures var after := PerformAll(rs, pass.s.hub, Writes(rs, pass)); k !in after || after[k].deleting
  {
    var hub, ws := pass.s.hub, Writes(rs, pass);
    PassIsSafe(rs, pass);
    assert k in pass.children;
    var j :| 0 <= j < |pass.children| && pass.children[j] == k;
    PruneWriteAt(rs, pass, j);
    if hub[k].deleting {
      SilentChildIsUntouched(rs, pass, j);
    }
    RemovedOrGoing(rs, hub, ws, k, |pass.order| + j);
  }

  lemma RemovedOrGoing(rs: ReplicaSet, hub: Hub, ws: seq<Write>, k: Key, i: nat)
    requires Separate(ws) && i < |ws| && k in hub && ws[i] == if hub[k].deleting then NoWrite else Remove(k)
    requires hub[k].deleting ==> forall m :: 0 <= m < |ws| ==> !Touches(ws[m], k)
    ensures k !in PerformAll(rs, hub, ws) || PerformAll(rs, hub, ws)[k].deleting
  {
    if hub[k].deleting {
      Untouched(rs, hub, ws, k);
    } else {
      TouchedOnce(rs, hub, ws, i);
    }
  }

  lemma PruneWriteAt(rs: ReplicaSet, pass: Pass, j: nat)
    requires Defined(pass) && pass.undeletable == {} && j < |pass.children|
    ensures var k := pass.children[j];
            && k in pass.s.hub && |pass.order| + j < |Writes(rs, pass)|
            && Writes(rs, pass)[|pass.order| + j] ==
                 if k.namespace in Selected(pass.refs) || pass.s.hub[k].deleting then NoWrite else Remove(k)
  {
    assert pass.children[j] in pass.children;
  }

  lemma SilentChildIsUntouched(rs: ReplicaSet, pass: Pass, j: nat)
    requires IsPass(rs, pass) && j < |pass.children| && pass.children[j].namespace !in Selected(pass.refs)
    requires Writes(rs, pass)[|pass.order| + j].NoWrite?
    ensures forall m :: 0 <= m < |Writes(rs, pass)| ==> !Touches(Writes(rs, pass)[m], pass.children[j])
  {
    var ws := Writes(rs, pass);
    forall m | 0 <= m < |ws| ensures !Touches(ws[m], pass.children[j]) {
      WriteTarget(rs, pass, m);
    }
  }

  predicate SameRequest(a: Child, b: Child) {
    a.labels == b.labels && a.annotations == b.annotations && a.spec == b.spec && a.deleting == b.deleting
  }

  /**
   Between passes deletes finish; owned children may change readiness,
   generation and finalizers, and foreign objects anything away from the slots.
   */
  ghost predicate Settles(rs: ReplicaSet, selected: set<string>, after: Hub, next: Hub) {
    && (forall k :: k in after && Owns(rs, after[k]) ==> (k in next <==> !after[k].deleting))
    && (forall k :: k in after && Owns(rs, after[k]) && k in next ==> SameRequest(after[k], next[k]))
    && (forall k :: k in next && (Owns(rs, next[k]) || (k.namespace in selected && k == Slot(rs, k.namespace))) ==>
          k in after && Owns(rs, after[k]))
  }

  /** Every owned child is a drift-free one in a selected slot. */
  ghost predicate Prepared(rs: ReplicaSet, selected: set<string>, hub: Hub) {
    && Tidy(rs, selected, hub)
    && forall k :: k in hub && Owns(rs, hub[k]) ==> k.namespace in selected && !Drifts(rs, hub[k]) && !hub[k].deleting
  }

  /** The owned children are exactly one drift-free child per selected namespace. */
  ghost predicate Converged(rs: ReplicaSet, selected: set<string>, hub: Hub) {
    Prepared(rs, selected, hub) && forall c :: c in selected ==> Slot(rs, c) in hub
  }

  /** An unhindered pass over `hub`, after which the hub settles to `next`. */
  ghost predicate Round(rs: ReplicaSet, selected: set<string>, hub: Hub, pass: Pass, next: Hub) {
    && IsPass(rs, pass) && Unhindered(pass, rs) && Selected(pass.refs) == selected && pass.s.hub == hub
    && Settles(rs, selected, PerformAll(rs, hub, Writes(rs, pass)), next)
  }

  /** What is owned after an unhindered pass and not on its way out is a drift-free child in a selected slot. */
  lemma OwnedAfterPass(rs: ReplicaSet, pass: Pass, k: Key)
    requires IsPass(rs, pass) && Unhindered(pass, rs) && Tidy(rs, Selected(pass.refs), pass.s.hub)
    requires var after := PerformAll(rs, pass.s.hub, Writes(rs, pass));
               k in after && Owns(rs, after[k]) && !after[k].deleting
    ensures k.namespace in Selected(pass.refs) && k == Slot(rs, k.namespace)
    ensures !Drifts(rs, PerformAll(rs, pass.s.hub, Writes(rs, pass))[k])
  {
    var hub := pass.s.hub;
    PassKeepsForeign(rs, pass, k);
    if k in hub {
      TemplateIsOwned(rs, hub[k]);
      if k.namespace in Selected(pass.refs) {
        SelectedAfterPass(rs, pass, k.namespace);
      } else {
        OutsideAfterPass(rs, pass, k);
      }
    } else {
      CreatedInSlot(rs, pass, k);
    }
  }

  lemma CreatedInSlot(rs: ReplicaSet, pass: Pass, k: Key)
    requires IsPass(rs, pass) && k !in pass.s.hub && k in PerformAll(rs, pass.s.hub, Writes(rs, pass))
    ensures k.namespace in Selected(pass.refs) && k == Slot(rs, k.namespace)
  {
    var hub, ws := pass.s.hub, Writes(rs, pass);
    if m :| 0 <= m < |ws| && Touches(ws[m], k) {
      WriteTarget(rs, pass, m);
    } else {
      Untouched(rs, hub, ws, k);
    }
  }

  /** One round leaves only drift-free children in selected slots. */
  lemma RoundPrepares(rs: ReplicaSet, selected: set<string>, hub: Hub, pass: Pass, next: Hub)
    requires Tidy(rs, selected, hub) && Round(rs, selected, hub, pass, next)
    ensures Prepared(rs, selected, next)
  {
    var after := PerformAll(rs, hub, Writes(rs, pass));
    forall k | k in next && (Owns(rs, next[k]) || (k.namespace in selected && k == Slot(rs, k.namespace)))
      ensures k.namespace in selected && k == Slot(rs, k.namespace)
      ensures Owns(rs, next[k]) && !Drifts(rs, next[k]) && !next[k].deleting
    {
      OwnedAfterPass(rs, pass, k);
      TemplateIsOwned(rs, next[k]);
    }
  }

  /** From a prepared hub, one round fills every selected slot. */
  lemma RoundFills(rs: ReplicaSet, selected: set<string>, hub: Hub, pass: Pass, next: Hub)
    requires Prepared(rs, selected, hub) && Round(rs, selected, hub, pass, next)
    ensures Converged(rs, selected, next)
  {
    RoundPrepares(rs, selected, hub, pass, next);
    forall c | c in selected ensures Slot(rs, c) in next {
      SelectedAfterPass(rs, pass, c);
      TemplateIsOwned(rs, Materialized(rs));
      if Slot(rs, c) in hub {
        TemplateIsOwned(rs, hub[Slot(rs, c)]);
      }
    }
  }

  ghost predicate Silent(rs: ReplicaSet, pass: Pass) {
    IsPass(rs, pass) && forall i :: 0 <= i < |Writes(rs, pass)| ==> Writes(rs, pass)[i].NoWrite?
  }

  /** On a tidy hub with no delete under way, a pass writes nothing exactly when the fan-out has converged. */
  lemma SilentIffConverged(rs: ReplicaSet, pass: Pass)
    requires IsPass(rs, pass) && Unhindered(pass, rs) && Tidy(rs, Selected(pass.refs), pass.s.hub)
    requires forall k :: k in pass.s.hub && Owns(rs, pass.s.hub[k]) ==> !pass.s.hub[k].deleting
    ensures Silent(rs, pass) == Converged(rs, Selected(pass.refs), pass.s.hub)
  {
    var hub := pass.s.hub;
    if Converged(rs, Selected(pass.refs), hub) {
      forall i | 0 <= i < |Writes(rs, pass)| ensures Writes(rs, pass)[i].NoWrite? {
        ConvergedWritesNothing(rs, pass, i);
      }
    }
    if Silent(rs, pass) {
      forall c | c in Selected(pass.refs) ensures Slot(rs, c) in hub && !Drifts(rs, hub[Slot(rs, c)]) {
        SilentSlotIsFilled(rs, pass, c);
      }
      forall k | k in hub && Owns(rs, hub[k]) ensures k.namespace in Selected(pass.refs) {
        SilentChildIsSelected(rs, pass, k);
      }
    }
  }

  lemma SilentSlotIsFilled(rs: ReplicaSet, pass: Pass, c: string)
    requires Silent(rs, pass) && Unhindered(pass, rs)
    requires Tidy(rs, Selected(pass.refs), pass.s.hub) && c in Selected(pass.refs)
    requires forall k :: k in pass.s.hub && Owns(rs, pass.s.hub[k]) ==> !pass.s.hub[k].deleting
    ensures Slot(rs, c) in pass.s.hub && !Drifts(rs, pass.s.hub[Slot(rs, c)])
  {
    var i :| 0 <= i < |pass.order| && pass.order[i] == c;
    assert Writes(rs, pass)[i] == WriteFor(rs, pass.s, pass.plan, pass.refused, c);
    SlotWriteIs(rs, pass, c);
  }

  lemma SilentChildIsSelected(rs: ReplicaSet, pass: Pass, k: Key)
    requires Silent(rs, pass) && Unhindered(pass, rs)
    requires k in pass.s.hub && Owns(rs, pass.s.hub[k]) && !pass.s.hub[k].deleting
    ensures k.namespace in Selected(pass.refs)
  {
    assert k in pass.children;
    var j :| 0 <= j < |pass.children| && pass.children[j] == k;
    PruneWriteAt(rs, pass, j);
  }

  lemma ConvergedWritesNothing(rs: ReplicaSet, pass: Pass, i: nat)
    requires IsPass(rs, pass) && Unhindered(pass, rs) && Converged(rs, Selected(pass.refs), pass.s.hub)
    requires i < |Writes(rs, pass)|
    ensures Writes(rs, pass)[i].NoWrite?
  {
    if i < |pass.order| {
      var c := pass.order[i];
      assert c in pass.order;
      assert Writes(rs, pass)[i] == WriteFor(rs, pass.s, pass.plan, pass.refused, c);
      SlotWriteIs(rs, pass, c);
      TemplateIsOwned(rs, pass.s.hub[Slot(rs, c)]);
    } else {
      var k := pass.children[i - |pass.order|];
      assert k in pass.children;
      assert Writes(rs, pass)[i] == PruneWrite(pass.s, Selected(pass.refs), pass.undeletable, k);
    }
  }

  /**
   The fan-out converges: from any tidy hub, after two unhindered rounds the
   owned children are exactly one drift-free child per selected namespace, and
   no later pass writes anything.
   */
  lemma {:induction false} FanOutConverges(rs: ReplicaSet, selected: set<string>, hubs: seq<Hub>, passes: seq<Pass>,
                                           i: nat)
    requires |hubs| == |passes| + 1 && Tidy(rs, selected, hubs[0])
    requires forall j :: 0 <= j < |passes| ==> Round(rs, selected, hubs[j], passes[j], hubs[j + 1])
    requires 2 <= i < |hubs|
    ensures Converged(rs, selected, hubs[i])
    ensures i < |passes| ==> Silent(rs, passes[i])
  {
    if i == 2 {
      RoundPrepares(rs, selected, hubs[0], passes[0], hubs[0 + 1]);
      RoundFills(rs, selected, hubs[1], passes[1], hubs[1 + 1]);
    } else {
      FanOutConverges(rs, selected, hubs, passes, i - 1);
      RoundFills(rs, selected, hubs[i - 1], passes[i - 1], hubs[i - 1 + 1]);
    }
    if i < |passes| {
      assert Round(rs, selected, hubs[i], passes[i], hubs[i + 1]);
      forall j | 0 <= j < |Writes(rs, passes[i])| ensures Writes(rs, passes[i])[j].NoWrite? {
        ConvergedWritesNothing(rs, passes[i], j);
      }
    }
  }

  // ------------------------------------------------------------- a first round

  /** The first pass of a ReplicaSet that selects one cluster. */
  function FirstPass(c: string): Pass {
    Pass(Snapshot(map[], {c}, map[]), [], [Ref({c}, Decision([ClusterStatus(c, ToApply)], []))], [c],
         Plan({c}, {}, map[c := Summary(c, Pending, RolloutPending)], map[c := ToApply]), {}, {})
  }

  lemma SingleRef(ref: Ref)
    ensures Selected([ref]) == ref.clusters
    ensures RolledOutBy([ref]) == NamedIn(ref.decision.toRollout)
    ensures TimedOutBy([ref]) == NamedIn(ref.decision.timeOut)
  {
    var refs := [ref];
    assert refs[..|refs| - 1] == [] && refs[|refs| - 1] == ref;
    assert Selected([]) == {} && RolledOutBy([]) == {} && TimedOutBy([]) == {};
    assert Selected(refs) == Selected(refs[..|refs| - 1]) + ref.clusters;
    assert RolledOutBy(refs) == RolledOutBy(refs[..|refs| - 1]) + NamedIn(ref.decision.toRollout);
    assert TimedOutBy(refs) == TimedOutBy(refs[..|refs| - 1]) + NamedIn(ref.decision.timeOut);
  }

  lemma SingleReport(r: ClusterStatus)
    requires r.cluster != ""
    ensures NamedIn([r]) == {r.cluster} && LastReport([r], r.cluster) == Some(r.progress)
    ensures NamedIn([]) == {} && LastReport([], r.cluster) == None
  {
    NamedGrows([], r);
    assert [] + [r] == [r];
  }

  lemma FirstPlan(rs: ReplicaSet, c: string)
    requires c != ""
    ensures IsPass(rs, FirstPass(c)) && Unhindered(FirstPass(c), rs) && Selected(FirstPass(c).refs) == {c}
  {
    var pass := FirstPass(c);
    SingleRef(pass.refs[0]);
    SingleReport(ClusterStatus(c, ToApply));
    assert LastVerdict(rs, pass.s, pass.refs, c) == Judged(rs, pass.s, pass.refs[0].decision, c);
  }

  /** Such a round exists, and it fills the slot: the hypotheses of FanOutConverges can be met. */
  lemma FirstRoundFills(rs: ReplicaSet, c: string)
    requires c != ""
    ensures Round(rs, {c}, map[], FirstPass(c), map[Slot(rs, c) := Materialized(rs)])
    ensures Converged(rs, {c}, map[Slot(rs, c) := Materialized(rs)])
  {
    var pass := FirstPass(c);
    FirstPlan(rs, c);
    var after := PerformAll(rs, map[], Writes(rs, pass));
    TemplateIsOwned(rs, Materialized(rs));
    SelectedAfterPass(rs, pass, c);
    forall k | k in after ensures k == Slot(rs, c) {
      CreatedInSlot(rs, pass, k);
    }
    assert after == map[Slot(rs, c) := Materialized(rs)];
  }
}
