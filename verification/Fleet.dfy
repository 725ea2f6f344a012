/**
 The fan-out of one AWSServiceAccountRoleReplicaSet: its child template, which
 children it owns, and what a pass decides for one cluster. A pass works on one
 consistent snapshot of the hub.
 */
module Fleet {

  const LABEL_MANAGED_BY := "app.kubernetes.io/managed-by"
  const LABEL_REPLICASET_UID := "aws.identity.appthrust.io/replicaset-uid"
  const ANNOTATION_OWNER_REF := "aws.identity.appthrust.io/replicaset-owner-ref"
  const MANAGED_BY_VALUE := "aws-workload-identity-operator"

  datatype Subject = Subject(namespace: string, name: string)

  datatype RoleSpec = RoleSpec(serviceAccount: Subject, policy: string)

  datatype ReadyCondition = Unreported | Reported(status: bool, observedGeneration: int)

  datatype Child = Child(
    labels: map<string, string>,
    annotations: map<string, string>,
    spec: RoleSpec,
    generation: int,
    ready: ReadyCondition,
    held: bool,       // carries a finalizer, so a delete only marks it
    deleting: bool)

  datatype Key = Key(namespace: string, name: string)

  type Hub = map<Key, Child>

  datatype ReplicaSet = ReplicaSet(
    namespace: string,
    name: string,
    uid: string,
    labels: map<string, string>,       // spec.template.metadata
    annotations: map<string, string>,
    spec: RoleSpec)

  // --------------------------------------------------------- template, ownership

  function OwnerKey(rs: ReplicaSet): string {
    rs.namespace + "/" + rs.name
  }

  function TemplateLabels(rs: ReplicaSet): map<string, string> {
    rs.labels[LABEL_MANAGED_BY := MANAGED_BY_VALUE][LABEL_REPLICASET_UID := rs.uid]
  }

  function TemplateAnnotations(rs: ReplicaSet): map<string, string> {
    rs.annotations[ANNOTATION_OWNER_REF := OwnerKey(rs)]
  }

  function Get(m: map<string, string>, k: string): string {
    if k in m then m[k] else ""
  }

  predicate Owns(rs: ReplicaSet, c: Child) {
    && Get(c.labels, LABEL_MANAGED_BY) == MANAGED_BY_VALUE
    && Get(c.labels, LABEL_REPLICASET_UID) == rs.uid
    && Get(c.annotations, ANNOTATION_OWNER_REF) == OwnerKey(rs)
  }

  predicate Drifts(rs: ReplicaSet, c: Child) {
    c.labels != TemplateLabels(rs) || c.annotations != TemplateAnnotations(rs) || c.spec != rs.spec
  }

  predicate SameSubject(rs: ReplicaSet, c: Child) {
    c.spec.serviceAccount.namespace == rs.spec.serviceAccount.namespace
    && c.spec.serviceAccount.name == rs.spec.serviceAccount.name
  }

  predicate ChildReady(c: Child) {
    c.ready.Reported? && c.ready.status && c.ready.observedGeneration == c.generation
  }

  function Materialized(rs: ReplicaSet): Child {
    Child(TemplateLabels(rs), TemplateAnnotations(rs), rs.spec, 1, Unreported, false, false)
  }

  /** The child after a patch; only a changed spec starts a new generation. */
  function Patched(rs: ReplicaSet, c: Child): Child {
    c.(labels := TemplateLabels(rs), annotations := TemplateAnnotations(rs), spec := rs.spec,
       generation := if c.spec == rs.spec then c.generation else c.generation + 1)
  }

  /** Stamped keys win over template metadata, so what the template makes is owned and drift-free. */
  lemma TemplateIsOwned(rs: ReplicaSet, c: Child)
    ensures Owns(rs, Materialized(rs)) && !Drifts(rs, Materialized(rs)) && SameSubject(rs, Materialized(rs))
    ensures Owns(rs, Patched(rs, c)) && !Drifts(rs, Patched(rs, c)) && SameSubject(rs, Patched(rs, c))
    ensures !Drifts(rs, c) ==> Owns(rs, c) && SameSubject(rs, c) && Patched(rs, c) == c
  {
    assert LABEL_MANAGED_BY[0] != LABEL_REPLICASET_UID[1];
    assert LABEL_MANAGED_BY[1] == 'p' && LABEL_REPLICASET_UID[1] == 'w';
  }

  /** Nothing of the template is lost and nothing else is added: its metadata, the stamps, and its spec. */
  lemma TemplateIsCarried(rs: ReplicaSet, k: string)
    ensures k in Materialized(rs).labels <==> k in rs.labels || k == LABEL_MANAGED_BY || k == LABEL_REPLICASET_UID
    ensures k in rs.labels && k != LABEL_MANAGED_BY && k != LABEL_REPLICASET_UID ==>
              Materialized(rs).labels[k] == rs.labels[k]
    ensures k in Materialized(rs).annotations <==> k in rs.annotations || k == ANNOTATION_OWNER_REF
    ensures k in rs.annotations && k != ANNOTATION_OWNER_REF ==> Materialized(rs).annotations[k] == rs.annotations[k]
    ensures Materialized(rs).spec == rs.spec && !Materialized(rs).deleting
  {
  }

  /** Ownership takes all three stamps: the managed-by label, the UID label and the owner-ref annotation. */
  lemma OwnsIff(rs: ReplicaSet, c: Child)
    requires rs.uid != ""
    ensures Owns(rs, c) <==>
              && "app.kubernetes.io/managed-by" in c.labels
              && c.labels["app.kubernetes.io/managed-by"] == "aws-workload-identity-operator"
              && "aws.identity.appthrust.io/replicaset-uid" in c.labels
              && c.labels["aws.identity.appthrust.io/replicaset-uid"] == rs.uid
              && "aws.identity.appthrust.io/replicaset-owner-ref" in c.annotations
              && c.annotations["aws.identity.appthrust.io/replicaset-owner-ref"] == rs.namespace + "/" + rs.name
  {
  }

  /** Two incarnations never own the same child. */
  lemma OwnersShareUid(a: ReplicaSet, b: ReplicaSet, c: Child)
    requires Owns(a, c) && Owns(b, c)
    ensures a.uid == b.uid && OwnerKey(a) == OwnerKey(b)
  {
  }

  // ------------------------------------------------------------- one cluster

  datatype Phase = Pending | ReadyPhase | Conflict | Failed | TimedOut

  datatype Reason =
    | RolloutPending | ChildrenPending | ChildIsReady | ClusterNamespaceMissing
    | ChildConflict | ChildApplyFailed | ImmutableChildDrift | RolloutTimedOut

  datatype Summary = Summary(cluster: string, phase: Phase, reason: Reason)

  /** The rollout states of the OCM SDK. */
  datatype Progress = ToApply | Progressing | Succeeded | FailedProgress | TimeOut | Skip

  /** What a pass reads: the children, the namespaces that exist, and the owned child per namespace. */
  datatype Snapshot = Snapshot(hub: Hub, namespaces: set<string>, byNamespace: map<string, Key>)

  /** byNamespace names one owned child for each namespace that has any. */
  ghost predicate Indexes(rs: ReplicaSet, s: Snapshot) {
    && (forall ns :: ns in s.byNamespace ==>
          && s.byNamespace[ns].namespace == ns
          && s.byNamespace[ns] in s.hub
          && Owns(rs, s.hub[s.byNamespace[ns]]))
    && (forall k :: k in s.hub && Owns(rs, s.hub[k]) ==> k.namespace in s.byNamespace)
  }

  /** `children` lists each owned child once. */
  ghost predicate OwnedChildren(rs: ReplicaSet, s: Snapshot, children: seq<Key>) {
    && (forall k :: k in children <==> k in s.hub && Owns(rs, s.hub[k]))
    && (forall i, j :: 0 <= i < j < |children| ==> children[i] != children[j])
  }

  /** `listed` holds every key of the hub once, in whatever order the list call returned them. */
  method IndexChildren(rs: ReplicaSet, hub: Hub, namespaces: set<string>, listed: seq<Key>)
    returns (s: Snapshot, children: seq<Key>)
    requires forall k :: k in listed <==> k in hub
    requires forall i, j :: 0 <= i < j < |listed| ==> listed[i] != listed[j]
    ensures s.hub == hub && s.namespaces == namespaces && Indexes(rs, s) && OwnedChildren(rs, s, children)
  {
    children := [];
    for i := 0 to |listed|
      invariant forall k :: k in children <==> k in listed[..i] && Owns(rs, hub[k])
      invariant forall a, b :: 0 <= a < b < |children| ==> children[a] != children[b]
    {
      assert listed[i] in listed && listed[i] !in listed[..i];
      if Owns(rs, hub[listed[i]]) {
        children := children + [listed[i]];
      }
    }
    assert listed[..|listed|] == listed;
    var byNamespace: map<string, Key> := map[];
    for i := 0 to |children|
      invariant forall ns :: ns in byNamespace ==> byNamespace[ns] in children && byNamespace[ns].namespace == ns
      invariant forall k :: k in children[..i] ==> k.namespace in byNamespace
    {
      byNamespace := byNamespace[children[i].namespace := children[i]];
    }
    assert children[..|children|] == children;
    s := Snapshot(hub, namespaces, byNamespace);
  }

  predicate HasChild(s: Snapshot, c: string) {
    c in s.byNamespace && s.byNamespace[c] in s.hub
  }

  function ChildOf(s: Snapshot, c: string): Child
    requires HasChild(s, c)
  {
    s.hub[s.byNamespace[c]]
  }

  /** existingReplicaSetClusterSummary: the planning view of one cluster. */
  function Existing(rs: ReplicaSet, s: Snapshot, c: string): (Summary, Progress) {
    if c !in s.namespaces then (Summary(c, Failed, ClusterNamespaceMissing), FailedProgress)
    else if !HasChild(s, c) then
      if Key(c, rs.name) in s.hub && !Owns(rs, s.hub[Key(c, rs.name)])
      then (Summary(c, Conflict, ChildConflict), FailedProgress)
      else (Summary(c, Pending, RolloutPending), ToApply)
    else if !SameSubject(rs, ChildOf(s, c)) || Drifts(rs, ChildOf(s, c))
    then (Summary(c, Pending, RolloutPending), ToApply)
    else if ChildReady(ChildOf(s, c)) then (Summary(c, ReadyPhase, ChildIsReady), Succeeded)
    else (Summary(c, Pending, ChildrenPending), Progressing)
  }

  /** A cluster counts as succeeded exactly when its namespace and a ready, owned, drift-free child are there. */
  lemma SucceededMeansReady(rs: ReplicaSet, s: Snapshot, c: string)
    requires Indexes(rs, s)
    ensures Existing(rs, s, c).1 == Succeeded <==>
              && c in s.namespaces && HasChild(s, c)
              && Owns(rs, ChildOf(s, c)) && !Drifts(rs, ChildOf(s, c))
              && ChildOf(s, c).ready == Reported(true, ChildOf(s, c).generation)
    ensures Existing(rs, s, c).1 == Succeeded <==> Existing(rs, s, c).0.phase == ReadyPhase
    ensures Existing(rs, s, c).0.cluster == c
  {
  }

  /** What each planning phase and rollout state stands for. */
  lemma ExistingIsExact(rs: ReplicaSet, s: Snapshot, c: string)
    requires Indexes(rs, s)
    ensures var (summary, status) := Existing(rs, s, c);
            && (summary.phase == Failed <==> c !in s.namespaces)
            && (summary.phase == Conflict <==>
                  c in s.namespaces && !HasChild(s, c) && Key(c, rs.name) in s.hub)
            && (status == FailedProgress <==> summary.phase == Failed || summary.phase == Conflict)
            && (status == ToApply <==>
                  c in s.namespaces && if HasChild(s, c) then Drifts(rs, ChildOf(s, c)) else Key(c, rs.name) !in s.hub)
            && (status == Progressing <==>
                  c in s.namespaces && HasChild(s, c) && !Drifts(rs, ChildOf(s, c))
                  && ChildOf(s, c).ready != Reported(true, ChildOf(s, c).generation))
            && (summary.reason == RolloutPending <==> status == ToApply)
  {
    if HasChild(s, c) {
      TemplateIsOwned(rs, ChildOf(s, c));
    }
  }

  /** The API server's answer to a write. */
  datatype Answer = Accepted | Refused

  datatype Write =
    | NoWrite
    | Create(key: Key)
    | Patch(key: Key)
    | Remove(key: Key)

  datatype Verdict = Verdict(summary: Summary, failed: bool, write: Write)

  /** applyReplicaSetCluster, given the planned summary and the API server's answer. */
  function Apply(rs: ReplicaSet, s: Snapshot, c: string, planned: Summary, answer: Answer): Verdict {
    var waiting := planned.(reason := ChildrenPending);
    var broken := Verdict(planned.(phase := Failed, reason := ChildApplyFailed), true, NoWrite);
    if planned.phase != Pending then Verdict(planned, false, NoWrite)
    else if !HasChild(s, c) then
      if Key(c, rs.name) in s.hub then Verdict(waiting, false, NoWrite)  // AlreadyExists
      else if answer == Refused then broken
      else Verdict(waiting, false, Create(Key(c, rs.name)))
    else if !SameSubject(rs, ChildOf(s, c)) then
      var stale := planned.(reason := ImmutableChildDrift);
      if ChildOf(s, c).deleting then Verdict(stale, false, NoWrite)
      else if answer == Refused then broken
      else Verdict(stale, false, Remove(s.byNamespace[c]))
    else if Drifts(rs, ChildOf(s, c)) then
      if answer == Refused then broken else Verdict(waiting, false, Patch(s.byNamespace[c]))
    else Verdict(waiting, false, NoWrite)
  }

  /**
   An apply fails exactly when the API server refuses the write the cluster
   needs, and then the cluster ends Failed; otherwise it ends in its planned
   phase, and a pending cluster is no longer parked.
   */
  lemma RefusalIsReported(rs: ReplicaSet, s: Snapshot, c: string, planned: Summary, answer: Answer)
    ensures var v := Apply(rs, s, c, planned, answer);
            && (v.failed <==> answer == Refused && Apply(rs, s, c, planned, Accepted).write != NoWrite)
            && (v.failed ==> v.summary == Summary(planned.cluster, Failed, ChildApplyFailed) && v.write == NoWrite)
            && (!v.failed ==> v.summary.phase == planned.phase && v.summary.cluster == planned.cluster)
            && (!v.failed && planned.phase == Pending ==> v.summary.reason != RolloutPending)
            && (v.write.Remove? ==> v.summary.reason == ImmutableChildDrift)
  {
  }

  // ------------------------------------------------------------------- writes

  /** The hub after one write; a delete marks a held child and removes any other. */
  function Perform(rs: ReplicaSet, hub: Hub, w: Write): Hub {
    match w
    case NoWrite => hub
    case Create(k) => if k in hub then hub else hub[k := Materialized(rs)]
    case Patch(k) => if k in hub then hub[k := Patched(rs, hub[k])] else hub
    case Remove(k) =>
      if k !in hub then hub
      else if hub[k].held then hub[k := hub[k].(deleting := true)]
      else hub - {k}
  }

  function PerformAll(rs: ReplicaSet, hub: Hub, ws: seq<Write>): Hub {
    if ws == [] then hub
    else Perform(rs, PerformAll(rs, hub, ws[..|ws| - 1]), ws[|ws| - 1])
  }

  predicate Touches(w: Write, k: Key) {
    !w.NoWrite? && w.key == k
  }

  /** No key is written twice. */
  ghost predicate Separate(ws: seq<Write>) {
    forall i, j :: 0 <= i < j < |ws| && !ws[i].NoWrite? && !ws[j].NoWrite? ==> ws[i].key != ws[j].key
  }

  lemma {:induction false} Untouched(rs: ReplicaSet, hub: Hub, ws: seq<Write>, k: Key)
    requires forall i :: 0 <= i < |ws| ==> !Touches(ws[i], k)
    ensures k in PerformAll(rs, hub, ws) <==> k in hub
    ensures k in hub ==> PerformAll(rs, hub, ws)[k] == hub[k]
  {
    if ws != [] {
      assert !Touches(ws[|ws| - 1], k);
      Untouched(rs, hub, ws[..|ws| - 1], k);
    }
  }

  lemma {:induction false} TouchedOnce(rs: ReplicaSet, hub: Hub, ws: seq<Write>, i: nat)
    requires Separate(ws) && i < |ws| && !ws[i].NoWrite?
    ensures var k := ws[i].key;
            && (k in PerformAll(rs, hub, ws) <==> k in Perform(rs, hub, ws[i]))
            && (k in PerformAll(rs, hub, ws) ==> PerformAll(rs, hub, ws)[k] == Perform(rs, hub, ws[i])[k])
  {
    var k, before, last := ws[i].key, ws[..|ws| - 1], ws[|ws| - 1];
    if i == |ws| - 1 {
      Untouched(rs, hub, before, k);
    } else {
      assert Separate(before) && before[i] == ws[i];
      TouchedOnce(rs, hub, before, i);
      assert !Touches(last, k);
    }
  }
}
