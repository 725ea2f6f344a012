/**
 Delivery and finalization of one AWSServiceAccountRole across two stores: the
 hub, which holds the role's status and its ACK children, and the workload
 clusters, which hold the annotated ServiceAccount. A step is one API call;
 the reconciler may crash between any two of them. Reads are fresh.
 */
module RoleDelivery {
  import opened Options
  import opened Inventory
  import opened GuardedPatch

  datatype Delivery = SelfHostedIrsa | EksIrsa | EksPodIdentity

  predicate UsesAnnotations(d: Delivery) {
    d == SelfHostedIrsa || d == EksIrsa
  }

  /** Every delivery but Pod Identity goes through the ServiceAccount's annotations. */
  lemma UsesAnnotationsIff(d: Delivery)
    ensures UsesAnnotations(d) <==> d != EksPodIdentity
  {
  }

  /** What is fixed for the life of the role: spec.type is immutable, and ACK reports one ARN for it. */
  datatype Role = Role(
    uid: string,
    namespace: string,
    delivery: Delivery,
    arn: string)

  ghost predicate WellFormed(r: Role) {
    r.uid != "" && r.arn != "" && r.namespace != "" && '/' !in r.namespace
  }

  /** The part of the status that delivery records for deletion. */
  datatype Status = Status(arn: string, delivery: Option<Delivery>, cluster: string)

  datatype Kind = Association | IamRole | IamPolicy

  datatype Child = Child(controller: string, arn: string, held: bool, deleting: bool)

  datatype Pc =
    | Idle
    // reconcileNormal; `before` is the status read, `mem` the copy in memory
    | Started(before: Status)
    | InputsResolved(before: Status, mem: Status)
    | PolicyApplied(before: Status, mem: Status)
    | RoleApplied(before: Status, mem: Status)
    | Delivering(mem: Status)
    | Sending(mem: Status, base: Versioned)
    | Saving(mem: Status)
    // reconcileDelete
    | Cleaning(st: Status)
    | Probing(target: string, arn: string)
    | Erasing(target: string, arn: string, base: Versioned)
    | Deleting(todo: seq<Kind>, blocked: bool)
    | Rechecking(kind: Kind, todo: seq<Kind>, blocked: bool)
    | Unblocked

  datatype Repair = Resting | HasRead(base: Versioned) | Granted(base: Versioned, arn: string)

  datatype World = World(
    status: Status,
    finalizer: bool,
    deleting: bool,
    gone: bool,
    children: map<Kind, Child>,
    remote: map<string, Versioned>,  // the ServiceAccount in each workload cluster
    clock: nat,
    pc: Pc,
    repair: Repair)

  datatype Step =
    | Begin
    | ResolveInputs(profiles: seq<ClusterProfile>)
    | ApplyPolicy(document: bool, held: bool)  // whether the spec holds a policy document now
    | ApplyRole(held: bool)
    | SaveEarly
    | Decide(held: bool)
    | ReadForDelivery
    | SendDelivery
    | SaveStatus
    | PlanCleanup(configGone: bool, profiles: seq<ClusterProfile>)
    | ReadForCleanup
    | SendCleanup
    | DeleteChild
    | RecheckChild
    | FinishChildren
    | RemoveFinalizer(last: bool)
    | Crash
    | UserDeletes
    | AckReports
    | AckReleases(kind: Kind)
    | ForeignChild(kind: Kind, child: Option<Child>)
    | ForeignServiceAccount(cluster: string, meta: Option<Meta>)
    | RepairReads
    | RepairLists
    | RepairSends

  /** The cluster a ready resolution names, as encoded in status. */
  function Home(r: Role): string {
    Render(NamespacedName(r.namespace, r.namespace))
  }

  /** The cluster the inventory names for the role's namespace, if it is ready. */
  function ResolvedCluster(r: Role, profiles: seq<ClusterProfile>): Option<string> {
    var resolution := Resolve(profiles, r.namespace);
    if resolution.ready then Some(Render(resolution.clusterName)) else None
  }

  /** Whatever the profiles are, a ready resolution names the role's home. */
  lemma ResolvedIsHome(r: Role, profiles: seq<ClusterProfile>)
    requires WellFormed(r) && ResolvedCluster(r, profiles).Some?
    ensures ResolvedCluster(r, profiles) == Some(Home(r))
  {
    ReadyNamesNamespace(profiles, r.namespace);
  }

  /** setRoleResolvedDeliveryStatus. */
  function ResolvedStatus(r: Role, before: Status, cluster: string): Status {
    before.(delivery := Some(r.delivery), cluster := if UsesAnnotations(r.delivery) then cluster else "")
  }

  predicate ShouldPersistFirst(r: Role, before: Status, mem: Status) {
    && UsesAnnotations(r.delivery)
    && mem.arn != ""
    && (before.arn != mem.arn || before.delivery != mem.delivery || before.cluster != mem.cluster)
  }

  predicate OwnedBy(c: Child, uid: string) {
    uid != "" && c.controller == uid
  }

  /** createOrUpdate stamps the controller reference; another controller's object is refused. */
  predicate Appliable(r: Role, w: World, k: Kind) {
    k in w.children ==> w.children[k].controller == "" || w.children[k].controller == r.uid
  }

  function Applied(r: Role, w: World, k: Kind, held: bool): map<Kind, Child> {
    if k in w.children then w.children[k := w.children[k].(controller := r.uid)]
    else w.children[k := Child(r.uid, "", held, false)]
  }

  /** Delete on the API server: a held object stays, marked, until its finalizer is released. */
  function Deleted(w: World, k: Kind): map<Kind, Child>
    requires k in w.children
  {
    if w.children[k].held then w.children[k := w.children[k].(deleting := true)] else w.children - {k}
  }

  function Written(w: World, cluster: string, m: Meta): World {
    w.(remote := w.remote[cluster := Versioned(w.clock + 1, m)], clock := w.clock + 1)
  }

  predicate PatchAccepted(w: World, cluster: string, base: Versioned) {
    cluster in w.remote && w.remote[cluster].version == base.version
  }

  /**
   A guarded patch: accepted only against the version that was read, and then
   it stores the edited copy (GuardedPatch.AcceptedPatchIsAtomic).
   */
  function Patched(w: World, cluster: string, base: Versioned, c: Client): World {
    match Edit(c, base.meta)
    case Some(m) => if PatchAccepted(w, cluster, base) then Written(w, cluster, m) else w
    case None => w
  }

  const CHILD_ORDER := [Association, IamRole, IamPolicy]

  /** reconcileNormal, except for its children and the remote ServiceAccount. */
  function Normal(r: Role, w: World, step: Step): Option<World> {
    match step
    case Begin =>
      if !w.pc.Idle? || w.gone then None
      else if w.deleting then Some(w.(pc := Cleaning(w.status)))
      else if !w.finalizer then Some(w.(finalizer := true))
      else Some(w.(pc := Started(w.status)))
    case ResolveInputs(profiles) =>
      if !w.pc.Started? then None else
      (match ResolvedCluster(r, profiles)
       case None => Some(w.(pc := Idle))
       case Some(cluster) => Some(w.(pc := InputsResolved(w.pc.before, ResolvedStatus(r, w.pc.before, cluster)))))
    case SaveEarly =>
      if w.pc.InputsResolved? || w.pc.PolicyApplied? then Some(w.(pc := Saving(w.pc.mem))) else None
    case Decide(held) =>
      if !w.pc.RoleApplied? then None
      else if ShouldPersistFirst(r, w.pc.before, w.pc.mem) then Some(w.(status := w.pc.mem, pc := Idle))
      else if UsesAnnotations(r.delivery) then
        Some(w.(pc := if w.pc.mem.arn == "" then Saving(w.pc.mem) else Delivering(w.pc.mem)))
      else if w.pc.mem.arn != "" && Appliable(r, w, Association) then
        Some(w.(children := Applied(r, w, Association, held), pc := Saving(w.pc.mem)))
      else Some(w.(pc := Saving(w.pc.mem)))
    case SaveStatus =>
      if w.pc.Saving? then Some(w.(status := w.pc.mem, pc := Idle)) else None
    case _ => None
  }

  /** reconcileGeneratedPolicy and reconcileIAMRole. */
  function Apply(r: Role, w: World, step: Step): Option<World> {
    match step
    case ApplyPolicy(document, held) =>
      if !w.pc.InputsResolved? then None
      else if document then
        if Appliable(r, w, IamPolicy) then
          Some(w.(children := Applied(r, w, IamPolicy, held), pc := PolicyApplied(w.pc.before, w.pc.mem)))
        else None
      else
        Some(w.(children := if IamPolicy in w.children && OwnedBy(w.children[IamPolicy], r.uid)
                            then Deleted(w, IamPolicy) else w.children,
                pc := PolicyApplied(w.pc.before, w.pc.mem)))
    case ApplyRole(held) =>
      if w.pc.PolicyApplied? && Appliable(r, w, IamRole) then
        var children := Applied(r, w, IamRole, held);
        Some(w.(children := children,
                pc := RoleApplied(w.pc.before, w.pc.mem.(arn := children[IamRole].arn))))
      else None
    case _ => None
  }

  /** reconcileAnnotationBasedIRSADelivery: read the remote ServiceAccount, then patch it. */
  function Deliver(r: Role, w: World, step: Step): Option<World> {
    match step
    case ReadForDelivery =>
      if !w.pc.Delivering? then None
      else if w.pc.mem.cluster in w.remote && Edit(Annotate(w.pc.mem.arn), w.remote[w.pc.mem.cluster].meta).Some?
      then Some(w.(pc := Sending(w.pc.mem, w.remote[w.pc.mem.cluster])))
      else Some(w.(pc := Saving(w.pc.mem)))
    case SendDelivery =>
      if w.pc.Sending?
      then Some(Patched(w, w.pc.mem.cluster, w.pc.base, Annotate(w.pc.mem.arn)).(pc := Saving(w.pc.mem))) else None
    case _ => None
  }

  /** The ARN whose annotation deletion must remove. */
  function ArnForDeletion(w: World, st: Status): string {
    if st.arn != "" then st.arn
    else if IamRole in w.children then w.children[IamRole].arn else ""
  }

  /** cleanupRemoteServiceAccountAnnotations up to the remote read; None is an error that keeps the finalizer. */
  function CleanupPlan(r: Role, w: World, st: Status, configGone: bool, profiles: seq<ClusterProfile>): Option<Pc> {
    var arn := ArnForDeletion(w, st);
    match st.delivery
    case Some(EksPodIdentity) => Some(Deleting(CHILD_ORDER, false))
    case Some(_) =>
      (match Parse(st.cluster)
       case None => None
       case Some(n) => Some(if arn == "" then Deleting(CHILD_ORDER, false) else Probing(Render(n), arn)))
    case None =>
      if configGone then None
      else if !UsesAnnotations(r.delivery) || arn == "" then Some(Deleting(CHILD_ORDER, false))
      else
        (match ResolvedCluster(r, profiles)
         case None => None
         case Some(cluster) => Some(Probing(cluster, arn)))
  }

  /** The first half of reconcileDelete: the remote annotations. */
  function Cleanup(r: Role, w: World, step: Step): Option<World> {
    match step
    case PlanCleanup(configGone, profiles) =>
      if !w.pc.Cleaning? then None
      else
        (match CleanupPlan(r, w, w.pc.st, configGone, profiles)
         case None => Some(w.(pc := Idle))
         case Some(pc) => Some(w.(pc := pc)))
    case ReadForCleanup =>
      if !w.pc.Probing? then None
      else if w.pc.target in w.remote && Edit(Unannotate(w.pc.arn), w.remote[w.pc.target].meta).Some?
      then Some(w.(pc := Erasing(w.pc.target, w.pc.arn, w.remote[w.pc.target])))
      else Some(w.(pc := Deleting(CHILD_ORDER, false)))
    case SendCleanup =>
      if !w.pc.Erasing? then None
      else if PatchAccepted(w, w.pc.target, w.pc.base)
      then Some(Patched(w, w.pc.target, w.pc.base, Unannotate(w.pc.arn)).(pc := Deleting(CHILD_ORDER, false)))
      else Some(w.(pc := Idle))
    case _ => None
  }

  /** The second half of reconcileDelete: the ACK children and the finalizer. */
  function Teardown(r: Role, w: World, step: Step): Option<World> {
    match step
    case DeleteChild =>
      if !w.pc.Deleting? || w.pc.todo == [] then None
      else
        var k, rest := w.pc.todo[0], w.pc.todo[1..];
        if k !in w.children || !OwnedBy(w.children[k], r.uid)
        then Some(w.(pc := Deleting(rest, w.pc.blocked)))
        else Some(w.(children := Deleted(w, k), pc := Rechecking(k, rest, w.pc.blocked)))
    case RecheckChild =>
      if w.pc.Rechecking?
      then Some(w.(pc := Deleting(w.pc.todo, w.pc.blocked || w.pc.kind in w.children))) else None
    case FinishChildren =>
      if w.pc.Deleting? && w.pc.todo == []
      then Some(w.(pc := if w.pc.blocked then Idle else Unblocked)) else None
    case RemoveFinalizer(last) =>
      if w.pc.Unblocked? then Some(w.(finalizer := false, gone := last, pc := Idle)) else None
    case _ => None
  }

  /** Crashes, the user, and foreign writers of ServiceAccounts, who never write this role's ARN. */
  function Environment(r: Role, w: World, step: Step): Option<World> {
    match step
    case Crash => Some(w.(pc := Idle))
    case UserDeletes => Some(w.(deleting := true, gone := w.gone || !w.finalizer))
    case ForeignServiceAccount(c, meta) =>
      if meta.None? then Some(w.(remote := w.remote - {c}, clock := w.clock + 1))
      else if Carries(meta.value, r.arn) && !(c in w.remote && Carries(w.remote[c].meta, r.arn)) then None
      else Some(Written(w, c, meta.value))
    case _ => None
  }

  /** ACK and foreign controllers at work on the child objects. */
  function ChildActivity(r: Role, w: World, step: Step): Option<World> {
    match step
    case AckReports =>
      if IamRole in w.children && w.children[IamRole].controller == r.uid
      then Some(w.(children := w.children[IamRole := w.children[IamRole].(arn := r.arn)])) else None
    case AckReleases(k) =>
      if k in w.children && w.children[k].deleting then Some(w.(children := w.children - {k})) else None
    case ForeignChild(k, child) =>
      if k in w.children && w.children[k].controller == r.uid then None
      else if child.None? then Some(w.(children := w.children - {k}))
      else if child.value.controller == r.uid || !Reportable(r, k, child.value) then None
      else Some(w.(children := w.children[k := child.value]))
    case _ => None
  }

  /** An IAM Role object that reconciliation could adopt is alive and reports no other ARN. */
  predicate Reportable(r: Role, k: Kind, c: Child) {
    k == IamRole && c.controller == "" ==> (c.arn == "" || c.arn == r.arn) && !c.deleting
  }

  /**
   SelfHostedServiceAccountReconciler, which the manager always runs: it
   repairs the annotations of an active role's ServiceAccount. It may look at
   any time, which is more often than its watch predicate lets it.
   */
  function Repairing(r: Role, w: World, step: Step): Option<World> {
    if !UsesAnnotations(r.delivery) then None else
    match step
    case RepairReads =>
      if Home(r) in w.remote then Some(w.(repair := HasRead(w.remote[Home(r)]))) else None
    case RepairLists =>
      if !w.repair.HasRead? then None
      else if w.gone || w.deleting || w.status.arn == "" then Some(w.(repair := Resting))
      else Some(w.(repair := Granted(w.repair.base, w.status.arn)))
    case RepairSends =>
      if w.repair.Granted?
      then Some(Patched(w, Home(r), w.repair.base, Annotate(w.repair.arn)).(repair := Resting)) else None
    case _ => None
  }

  function Next(r: Role, w: World, step: Step): Option<World> {
    var n := Normal(r, w, step);
    if n.Some? then n else
    var a := Apply(r, w, step);
    if a.Some? then a else
    var d := Deliver(r, w, step);
    if d.Some? then d else
    var c := Cleanup(r, w, step);
    if c.Some? then c else
    var t := Teardown(r, w, step);
    if t.Some? then t else
    var e := Environment(r, w, step);
    if e.Some? then e else
    var f := ChildActivity(r, w, step);
    if f.Some? then f else Repairing(r, w, step)
  }

  /** A role nobody has reconciled yet, beside arbitrary foreign objects. */
  ghost predicate Initial(r: Role, w: World) {
    && w.status == Status("", None, "") && !w.finalizer && !w.deleting && !w.gone
    && w.pc.Idle? && w.repair.Resting?
    && (forall k :: k in w.children ==> w.children[k].controller != r.uid && Reportable(r, k, w.children[k]))
    && (forall c :: c in w.remote ==> !Carries(w.remote[c].meta, r.arn) && w.remote[c].version <= w.clock)
  }

  ghost predicate Reaches(r: Role, steps: seq<Step>, w: World)
    decreases |steps|
  {
    if steps == [] then Initial(r, w)
    else
      var before, last := steps[..|steps| - 1], steps[|steps| - 1];
      exists mid :: Reaches(r, before, mid) && Next(r, mid, last) == Some(w)
  }

  ghost predicate Reachable(r: Role, w: World) {
    WellFormed(r) && exists steps :: Reaches(r, steps, w)
  }

  // ---------------------------------------------------------------- invariant

  predicate Recorded(r: Role, st: Status) {
    st.arn == r.arn && st.delivery == Some(r.delivery) && st.cluster == Home(r)
  }

  predicate StatusOk(r: Role, st: Status) {
    && (st.arn == "" || st.arn == r.arn)
    && (st.delivery == None || st.delivery == Some(r.delivery))
    && (st.arn == r.arn && UsesAnnotations(r.delivery) ==> Recorded(r, st))
  }

  predicate InNormal(pc: Pc) {
    || pc.Started? || pc.InputsResolved? || pc.PolicyApplied? || pc.RoleApplied?
    || pc.Delivering? || pc.Sending? || pc.Saving?
  }

  predicate InDelete(pc: Pc) {
    !pc.Idle? && !InNormal(pc)
  }

  /** Write-ahead: whoever carries the ARN is recorded. */
  ghost predicate Ahead(r: Role, w: World) {
    forall c :: c in w.remote && Carries(w.remote[c].meta, r.arn) ==>
      UsesAnnotations(r.delivery) && Recorded(r, w.status) && c == Home(r)
  }

  predicate Reported(r: Role, w: World) {
    IamRole in w.children && w.children[IamRole] == Child(r.uid, r.arn, w.children[IamRole].held, false)
  }

  /** The IAM Role child, while reconciliation can still read it, reports no other ARN and is not terminating. */
  ghost predicate Stable(r: Role, w: World) {
    && (forall k :: k in w.children && w.children[k].controller != r.uid ==> Reportable(r, k, w.children[k]))
    && (!w.deleting || InNormal(w.pc) ==>
          && (IamRole in w.children && w.children[IamRole].controller == r.uid ==>
                !w.children[IamRole].deleting
                && (w.children[IamRole].arn == "" || w.children[IamRole].arn == r.arn))
          && (w.status.arn == r.arn ==> Reported(r, w)))
  }

  ghost predicate MemOk(r: Role, w: World, mem: Status) {
    && mem == ResolvedStatus(r, mem, Home(r))
    && (mem.arn == "" || mem.arn == r.arn)
    && (w.status.arn == r.arn ==> mem.arn == r.arn)
    && (mem.arn == r.arn ==> Reported(r, w))
  }

  ghost predicate PassOk(r: Role, w: World) {
    && StatusOk(r, w.status)
    && (InNormal(w.pc) ==> w.finalizer)
    && (InDelete(w.pc) ==> w.deleting)
    && (w.gone ==> w.deleting && !w.finalizer)
    && (!w.finalizer && !w.deleting ==> w.status.arn == "")
    && match w.pc
       case Started(before) => before == w.status
       case InputsResolved(before, mem) => before == w.status && MemOk(r, w, mem)
       case PolicyApplied(before, mem) => before == w.status && MemOk(r, w, mem)
       case RoleApplied(before, mem) => before == w.status && MemOk(r, w, mem)
       case Delivering(mem) =>
         MemOk(r, w, mem) && UsesAnnotations(r.delivery) && mem.arn == r.arn && Recorded(r, w.status)
       case Sending(mem, _) =>
         MemOk(r, w, mem) && UsesAnnotations(r.delivery) && mem.arn == r.arn && Recorded(r, w.status)
       case Saving(mem) => MemOk(r, w, mem)
       case Cleaning(st) => st == w.status
       case _ => true
  }

  ghost predicate RepairOk(r: Role, w: World) {
    w.repair.Granted? ==> w.repair.arn == r.arn && UsesAnnotations(r.delivery) && Recorded(r, w.status)
  }

  ghost predicate NoCarrier(r: Role, w: World) {
    forall c :: c in w.remote ==> !Carries(w.remote[c].meta, r.arn)
  }

  /** Every child this role still controls is among `kinds`. */
  ghost predicate OwnedWithin(r: Role, w: World, kinds: set<Kind>) {
    forall k :: k in w.children && OwnedBy(w.children[k], r.uid) ==> k in kinds
  }

  function Kinds(todo: seq<Kind>): set<Kind> {
    set k | k in todo
  }

  /** How far deletion has removed the children, and that a missing finalizer means it finished. */
  ghost predicate Childless(r: Role, w: World) {
    && (!w.finalizer ==> OwnedWithin(r, w, {}))
    && match w.pc
       case Deleting(todo, blocked) => blocked || OwnedWithin(r, w, Kinds(todo))
       case Rechecking(kind, todo, blocked) => blocked || OwnedWithin(r, w, Kinds(todo) + {kind})
       case Unblocked => OwnedWithin(r, w, {})
       case _ => true
  }

  /** Where the ARN can be, deletion looks for it. */
  ghost predicate Aimed(r: Role, w: World) {
    match w.pc
    case Probing(target, arn) =>
      Recorded(r, w.status) && UsesAnnotations(r.delivery) ==> target == Home(r) && arn == r.arn
    case Erasing(target, arn, base) =>
      && (Recorded(r, w.status) && UsesAnnotations(r.delivery) ==> target == Home(r) && arn == r.arn)
      && Edit(Unannotate(arn), base.meta).Some?
    case _ => true
  }

  /** Past the cleanup of the annotations, or finalized, nothing carries the ARN. */
  ghost predicate Erased(r: Role, w: World) {
    !w.finalizer || w.pc.Deleting? || w.pc.Rechecking? || w.pc.Unblocked? ==> NoCarrier(r, w)
  }

  ghost predicate Base(r: Role, w: World) {
    Ahead(r, w) && Stable(r, w) && PassOk(r, w) && RepairOk(r, w)
  }

  /** A step that leaves hub records alone, spreads the ARN nowhere, and stops or stays within its pass. */
  ghost predicate Calm(r: Role, w: World, w': World) {
    && w'.status == w.status && w'.finalizer == w.finalizer && w'.repair == w.repair
    && w'.children == w.children && (w.deleting ==> w'.deleting)
    && (w'.gone && !w.gone ==> w'.deleting && !w'.finalizer)
    && (w'.pc == w.pc || w'.pc.Idle? || (InDelete(w.pc) && InDelete(w'.pc) && !w'.pc.Cleaning?))
    && forall c :: c in w'.remote && Carries(w'.remote[c].meta, r.arn) ==>
         c in w.remote && Carries(w.remote[c].meta, r.arn)
  }

  lemma CalmKeeps(r: Role, w: World, w': World)
    requires Base(r, w) && Calm(r, w, w')
    ensures Base(r, w')
  {
  }

  lemma PlanIsCalm(r: Role, w: World, step: Step)
    requires step.PlanCleanup? && Cleanup(r, w, step).Some?
    ensures Calm(r, w, Cleanup(r, w, step).value)
  {
  }

  lemma CleanupIsCalm(r: Role, w: World, step: Step)
    requires Cleanup(r, w, step).Some?
    ensures Calm(r, w, Cleanup(r, w, step).value)
  {
    match step
    case PlanCleanup(_, _) => PlanIsCalm(r, w, step);
    case ReadForCleanup =>
    case SendCleanup =>
  }

  lemma EnvironmentIsCalm(r: Role, w: World, step: Step)
    requires Environment(r, w, step).Some?
    ensures Calm(r, w, Environment(r, w, step).value)
    ensures Environment(r, w, step).value.pc == w.pc || Environment(r, w, step).value.pc.Idle?
  {
  }

  /** A step that changes the child objects and nothing else, and takes no reported ARN away. */
  ghost predicate ChildrenOnly(r: Role, w: World, w': World) {
    && w' == w.(children := w'.children)
    && Stable(r, w')
    && (Reported(r, w) ==> Reported(r, w'))
    && forall k :: k in w'.children && OwnedBy(w'.children[k], r.uid) ==>
         k in w.children && OwnedBy(w.children[k], r.uid)
  }

  lemma ChildrenOnlyKeeps(r: Role, w: World, w': World)
    requires Base(r, w) && ChildrenOnly(r, w, w')
    ensures Base(r, w')
  {
  }

  lemma AckReportIsLocal(r: Role, w: World)
    requires Stable(r, w) && ChildActivity(r, w, AckReports).Some?
    ensures ChildrenOnly(r, w, ChildActivity(r, w, AckReports).value)
  {
  }

  lemma AckReleaseIsLocal(r: Role, w: World, k: Kind)
    requires Stable(r, w) && ChildActivity(r, w, AckReleases(k)).Some?
    ensures ChildrenOnly(r, w, ChildActivity(r, w, AckReleases(k)).value)
  {
  }

  lemma ForeignChildIsLocal(r: Role, w: World, k: Kind, child: Option<Child>)
    requires Stable(r, w) && ChildActivity(r, w, ForeignChild(k, child)).Some?
    ensures ChildrenOnly(r, w, ChildActivity(r, w, ForeignChild(k, child)).value)
  {
  }

  lemma ChildActivityIsLocal(r: Role, w: World, step: Step)
    requires Stable(r, w) && ChildActivity(r, w, step).Some?
    ensures ChildrenOnly(r, w, ChildActivity(r, w, step).value)
  {
    match step
    case AckReports => AckReportIsLocal(r, w);
    case AckReleases(k) => AckReleaseIsLocal(r, w, k);
    case ForeignChild(k, child) => ForeignChildIsLocal(r, w, k, child);
  }

  lemma NormalStable(r: Role, w: World, step: Step)
    requires WellFormed(r) && Stable(r, w) && PassOk(r, w) && Normal(r, w, step).Some?
    ensures Stable(r, Normal(r, w, step).value)
  {
    match step
    case Decide(held) => DecideStable(r, w, held);
    case _ =>
  }

  lemma DecideStable(r: Role, w: World, held: bool)
    requires WellFormed(r) && Stable(r, w) && PassOk(r, w) && Normal(r, w, Decide(held)).Some?
    ensures Stable(r, Normal(r, w, Decide(held)).value)
  {
  }

  lemma NormalPassOk(r: Role, w: World, step: Step)
    requires WellFormed(r) && Stable(r, w) && PassOk(r, w) && Normal(r, w, step).Some?
    ensures PassOk(r, Normal(r, w, step).value)
  {
    if step.ResolveInputs? && ResolvedCluster(r, step.profiles).Some? {
      ResolvedIsHome(r, step.profiles);
    }
  }

  lemma NormalAhead(r: Role, w: World, step: Step)
    requires WellFormed(r) && Ahead(r, w) && PassOk(r, w) && RepairOk(r, w) && Normal(r, w, step).Some?
    ensures Ahead(r, Normal(r, w, step).value) && RepairOk(r, Normal(r, w, step).value)
  {
  }

  lemma ApplyStable(r: Role, w: World, step: Step)
    requires WellFormed(r) && Base(r, w) && Apply(r, w, step).Some?
    ensures Stable(r, Apply(r, w, step).value)
  {
  }

  lemma ApplyPassOk(r: Role, w: World, step: Step)
    requires WellFormed(r) && Stable(r, w) && PassOk(r, w) && Apply(r, w, step).Some?
    ensures PassOk(r, Apply(r, w, step).value)
  {
  }

  lemma ApplyAhead(r: Role, w: World, step: Step)
    requires WellFormed(r) && Ahead(r, w) && PassOk(r, w) && RepairOk(r, w) && Apply(r, w, step).Some?
    ensures Ahead(r, Apply(r, w, step).value) && RepairOk(r, Apply(r, w, step).value)
  {
  }

  lemma DeliverStable(r: Role, w: World, step: Step)
    requires WellFormed(r) && Base(r, w) && Deliver(r, w, step).Some?
    ensures Stable(r, Deliver(r, w, step).value)
  {
  }

  lemma DeliverPassOk(r: Role, w: World, step: Step)
    requires WellFormed(r) && Stable(r, w) && PassOk(r, w) && Deliver(r, w, step).Some?
    ensures PassOk(r, Deliver(r, w, step).value)
  {
  }

  lemma DeliverAhead(r: Role, w: World, step: Step)
    requires WellFormed(r) && Ahead(r, w) && PassOk(r, w) && RepairOk(r, w) && Deliver(r, w, step).Some?
    ensures Ahead(r, Deliver(r, w, step).value) && RepairOk(r, Deliver(r, w, step).value)
  {
  }

  lemma TeardownStable(r: Role, w: World, step: Step)
    requires WellFormed(r) && Base(r, w) && Teardown(r, w, step).Some?
    ensures Stable(r, Teardown(r, w, step).value)
  {
  }

  lemma TeardownPassOk(r: Role, w: World, step: Step)
    requires WellFormed(r) && Stable(r, w) && PassOk(r, w) && Teardown(r, w, step).Some?
    ensures PassOk(r, Teardown(r, w, step).value)
  {
  }

  lemma TeardownAhead(r: Role, w: World, step: Step)
    requires WellFormed(r) && Ahead(r, w) && PassOk(r, w) && RepairOk(r, w) && Teardown(r, w, step).Some?
    ensures Ahead(r, Teardown(r, w, step).value) && RepairOk(r, Teardown(r, w, step).value)
  {
  }

  lemma RepairingStable(r: Role, w: World, step: Step)
    requires WellFormed(r) && Base(r, w) && Repairing(r, w, step).Some?
    ensures Stable(r, Repairing(r, w, step).value)
  {
  }

  lemma RepairingPassOk(r: Role, w: World, step: Step)
    requires WellFormed(r) && Stable(r, w) && PassOk(r, w) && Repairing(r, w, step).Some?
    ensures PassOk(r, Repairing(r, w, step).value)
  {
  }

  lemma RepairingAhead(r: Role, w: World, step: Step)
    requires WellFormed(r) && Ahead(r, w) && PassOk(r, w) && RepairOk(r, w) && Repairing(r, w, step).Some?
    ensures Ahead(r, Repairing(r, w, step).value) && RepairOk(r, Repairing(r, w, step).value)
  {
  }

  lemma BaseKept(r: Role, w: World, step: Step)
    requires WellFormed(r) && Base(r, w) && Next(r, w, step).Some?
    ensures Base(r, Next(r, w, step).value)
  {
    if Normal(r, w, step).Some? {
      NormalStable(r, w, step);
      NormalPassOk(r, w, step);
      NormalAhead(r, w, step);
    } else if Apply(r, w, step).Some? {
      ApplyStable(r, w, step);
      ApplyPassOk(r, w, step);
      ApplyAhead(r, w, step);
    } else if Deliver(r, w, step).Some? {
      DeliverStable(r, w, step);
      DeliverPassOk(r, w, step);
      DeliverAhead(r, w, step);
    } else if Cleanup(r, w, step).Some? {
      CleanupIsCalm(r, w, step);
      CalmKeeps(r, w, Cleanup(r, w, step).value);
    } else if Teardown(r, w, step).Some? {
      TeardownStable(r, w, step);
      TeardownPassOk(r, w, step);
      TeardownAhead(r, w, step);
    } else if Environment(r, w, step).Some? {
      EnvironmentIsCalm(r, w, step);
      CalmKeeps(r, w, Environment(r, w, step).value);
    } else if ChildActivity(r, w, step).Some? {
      ChildActivityIsLocal(r, w, step);
      ChildrenOnlyKeeps(r, w, ChildActivity(r, w, step).value);
    } else {
      RepairingStable(r, w, step);
      RepairingPassOk(r, w, step);
      RepairingAhead(r, w, step);
    }
  }

  // ------------------------------------------------------------- the children

  lemma AllKindsListed(r: Role, w: World)
    ensures OwnedWithin(r, w, Kinds(CHILD_ORDER))
  {
    forall k: Kind ensures k in Kinds(CHILD_ORDER) {
      assert k == CHILD_ORDER[0] || k == CHILD_ORDER[1] || k == CHILD_ORDER[2];
    }
  }

  lemma NormalChildless(r: Role, w: World, step: Step)
    requires PassOk(r, w) && Childless(r, w) && Normal(r, w, step).Some?
    ensures Childless(r, Normal(r, w, step).value)
  {
  }

  lemma ApplyChildless(r: Role, w: World, step: Step)
    requires PassOk(r, w) && Childless(r, w) && Apply(r, w, step).Some?
    ensures Childless(r, Apply(r, w, step).value)
  {
  }

  lemma DeliverChildless(r: Role, w: World, step: Step)
    requires PassOk(r, w) && Childless(r, w) && Deliver(r, w, step).Some?
    ensures Childless(r, Deliver(r, w, step).value)
  {
  }

  lemma CleanupChildless(r: Role, w: World, step: Step)
    requires Childless(r, w) && Cleanup(r, w, step).Some?
    ensures Childless(r, Cleanup(r, w, step).value)
  {
    CleanupIsCalm(r, w, step);
    AllKindsListed(r, Cleanup(r, w, step).value);
  }

  lemma TeardownChildless(r: Role, w: World, step: Step)
    requires Childless(r, w) && Teardown(r, w, step).Some?
    ensures Childless(r, Teardown(r, w, step).value)
  {
  }

  /** A step that creates no child this role controls and stays at its place, or goes idle. */
  lemma NoNewChildren(r: Role, w: World, w': World)
    requires Childless(r, w) && w'.finalizer == w.finalizer && (w'.pc == w.pc || w'.pc.Idle?)
    requires forall k :: k in w'.children && OwnedBy(w'.children[k], r.uid) ==>
               k in w.children && OwnedBy(w.children[k], r.uid)
    ensures Childless(r, w')
  {
  }

  lemma RepairingKeepsHub(r: Role, w: World, step: Step)
    requires Repairing(r, w, step).Some?
    ensures var w' := Repairing(r, w, step).value; w' == w.(remote := w'.remote, clock := w'.clock, repair := w'.repair)
  {
  }

  lemma ChildlessKept(r: Role, w: World, step: Step)
    requires Stable(r, w) && PassOk(r, w) && Childless(r, w) && Next(r, w, step).Some?
    ensures Childless(r, Next(r, w, step).value)
  {
    if Normal(r, w, step).Some? {
      NormalChildless(r, w, step);
    } else if Apply(r, w, step).Some? {
      ApplyChildless(r, w, step);
    } else if Deliver(r, w, step).Some? {
      DeliverChildless(r, w, step);
    } else if Cleanup(r, w, step).Some? {
      CleanupChildless(r, w, step);
    } else if Teardown(r, w, step).Some? {
      TeardownChildless(r, w, step);
    } else if Environment(r, w, step).Some? {
      EnvironmentIsCalm(r, w, step);
      NoNewChildren(r, w, Environment(r, w, step).value);
    } else if ChildActivity(r, w, step).Some? {
      ChildActivityIsLocal(r, w, step);
      NoNewChildren(r, w, ChildActivity(r, w, step).value);
    } else {
      RepairingKeepsHub(r, w, step);
      NoNewChildren(r, w, Repairing(r, w, step).value);
    }
  }

  // ---------------------------------------------------------- the annotations

  lemma PlanIsAimed(r: Role, w: World, configGone: bool, profiles: seq<ClusterProfile>)
    requires WellFormed(r)
    ensures match CleanupPlan(r, w, w.status, configGone, profiles)
            case Some(Probing(target, arn)) =>
              Recorded(r, w.status) && UsesAnnotations(r.delivery) ==> target == Home(r) && arn == r.arn
            case Some(pc) =>
              pc == Deleting(CHILD_ORDER, false) && !(Recorded(r, w.status) && UsesAnnotations(r.delivery))
            case None => true
  {
    NameRoundTrip(NamespacedName(r.namespace, r.namespace));
  }

  lemma CleanupAimed(r: Role, w: World, step: Step)
    requires WellFormed(r) && PassOk(r, w) && Aimed(r, w) && Cleanup(r, w, step).Some?
    ensures Aimed(r, Cleanup(r, w, step).value)
  {
    match step
    case PlanCleanup(configGone, profiles) => PlanIsAimed(r, w, configGone, profiles);
    case ReadForCleanup =>
    case SendCleanup =>
  }

  predicate Aiming(pc: Pc) {
    pc.Probing? || pc.Erasing?
  }

  lemma SameAim(r: Role, w: World, w': World)
    requires Aimed(r, w) && (!Aiming(w'.pc) || (w'.pc == w.pc && w'.status == w.status))
    ensures Aimed(r, w')
  {
  }

  lemma NoAimElsewhere(r: Role, w: World, step: Step)
    ensures Normal(r, w, step).Some? ==> !Aiming(Normal(r, w, step).value.pc)
    ensures Apply(r, w, step).Some? ==> !Aiming(Apply(r, w, step).value.pc)
    ensures Deliver(r, w, step).Some? ==> !Aiming(Deliver(r, w, step).value.pc)
    ensures Teardown(r, w, step).Some? ==> !Aiming(Teardown(r, w, step).value.pc)
  {
  }

  lemma AimedKept(r: Role, w: World, step: Step)
    requires WellFormed(r) && Stable(r, w) && PassOk(r, w) && Aimed(r, w) && Next(r, w, step).Some?
    ensures Aimed(r, Next(r, w, step).value)
  {
    NoAimElsewhere(r, w, step);
    if Normal(r, w, step).Some? {
      SameAim(r, w, Normal(r, w, step).value);
    } else if Apply(r, w, step).Some? {
      SameAim(r, w, Apply(r, w, step).value);
    } else if Deliver(r, w, step).Some? {
      SameAim(r, w, Deliver(r, w, step).value);
    } else if Cleanup(r, w, step).Some? {
      CleanupAimed(r, w, step);
    } else if Teardown(r, w, step).Some? {
      SameAim(r, w, Teardown(r, w, step).value);
    } else if Environment(r, w, step).Some? {
      EnvironmentIsCalm(r, w, step);
      SameAim(r, w, Environment(r, w, step).value);
    } else if ChildActivity(r, w, step).Some? {
      ChildActivityIsLocal(r, w, step);
      SameAim(r, w, ChildActivity(r, w, step).value);
    } else {
      RepairingKeepsHub(r, w, step);
      SameAim(r, w, Repairing(r, w, step).value);
    }
  }

  /** Where nothing is recorded, or the recorded object does not carry the ARN, nothing does. */
  lemma CarrierIsRecorded(r: Role, w: World)
    requires Ahead(r, w)
    requires Recorded(r, w.status) && UsesAnnotations(r.delivery) && Home(r) in w.remote ==>
               !Carries(w.remote[Home(r)].meta, r.arn)
    ensures NoCarrier(r, w)
  {
  }

  /** When the cleanup hands over to the children, nothing carries the ARN, with the repair controller running. */
  lemma CleanupEndsClean(r: Role, w: World, step: Step)
    requires WellFormed(r) && Base(r, w) && Aimed(r, w) && Cleanup(r, w, step).Some?
    requires Cleanup(r, w, step).value.pc.Deleting?
    ensures NoCarrier(r, Cleanup(r, w, step).value)
  {
    var w' := Cleanup(r, w, step).value;
    CleanupIsCalm(r, w, step);
    CalmKeeps(r, w, w');
    match step
    case PlanCleanup(configGone, profiles) => PlanIsAimed(r, w, configGone, profiles);
    case ReadForCleanup =>
    case SendCleanup =>
    CarrierIsRecorded(r, w');
  }

  /** A granted repair whose patch the server would still accept. */
  predicate InFlight(r: Role, w: World) {
    w.repair.Granted? && PatchAccepted(w, Home(r), w.repair.base)
  }

  /** A repair that commits while the role is being deleted. */
  predicate CommitsLate(r: Role, w: World, step: Step) {
    step.RepairSends? && w.deleting && InFlight(r, w)
  }

  lemma CleanupErased(r: Role, w: World, step: Step)
    requires WellFormed(r) && Base(r, w) && Aimed(r, w) && Erased(r, w) && Cleanup(r, w, step).Some?
    ensures Erased(r, Cleanup(r, w, step).value)
  {
    CleanupIsCalm(r, w, step);
    if Cleanup(r, w, step).value.pc.Deleting? {
      CleanupEndsClean(r, w, step);
    }
  }

  lemma NormalErased(r: Role, w: World, step: Step)
    requires PassOk(r, w) && Erased(r, w) && Normal(r, w, step).Some?
    ensures Erased(r, Normal(r, w, step).value)
  {
  }

  lemma ApplyErased(r: Role, w: World, step: Step)
    requires PassOk(r, w) && Erased(r, w) && Apply(r, w, step).Some?
    ensures Erased(r, Apply(r, w, step).value)
  {
  }

  lemma DeliverErased(r: Role, w: World, step: Step)
    requires PassOk(r, w) && Erased(r, w) && Deliver(r, w, step).Some?
    ensures Erased(r, Deliver(r, w, step).value)
  {
  }

  lemma TeardownErased(r: Role, w: World, step: Step)
    requires Erased(r, w) && Teardown(r, w, step).Some?
    ensures Erased(r, Teardown(r, w, step).value)
  {
  }

  lemma RepairingErased(r: Role, w: World, step: Step)
    requires WellFormed(r) && PassOk(r, w) && RepairOk(r, w) && Erased(r, w)
    requires Repairing(r, w, step).Some? && !CommitsLate(r, w, step)
    ensures Erased(r, Repairing(r, w, step).value)
  {
  }

  lemma ErasedKept(r: Role, w: World, step: Step)
    requires WellFormed(r) && Base(r, w) && Aimed(r, w) && Erased(r, w)
    requires Next(r, w, step).Some? && !CommitsLate(r, w, step)
    ensures Erased(r, Next(r, w, step).value)
  {
    if Normal(r, w, step).Some? {
      NormalErased(r, w, step);
    } else if Apply(r, w, step).Some? {
      ApplyErased(r, w, step);
    } else if Deliver(r, w, step).Some? {
      DeliverErased(r, w, step);
    } else if Cleanup(r, w, step).Some? {
      CleanupErased(r, w, step);
    } else if Teardown(r, w, step).Some? {
      TeardownErased(r, w, step);
    } else if Environment(r, w, step).Some? {
      EnvironmentIsCalm(r, w, step);
    } else if ChildActivity(r, w, step).Some? {
      ChildActivityIsLocal(r, w, step);
    } else {
      RepairingErased(r, w, step);
    }
  }

  // ------------------------------------------------------------- the versions

  /** `base` was read from cluster c: while its version is stored, it is what is stored. */
  predicate FromStore(w: World, c: string, base: Versioned) {
    base.version <= w.clock && (c in w.remote && w.remote[c].version == base.version ==> w.remote[c] == base)
  }

  ghost predicate Versions(r: Role, w: World) {
    && (forall c :: c in w.remote ==> w.remote[c].version <= w.clock)
    && (!w.repair.Resting? ==> FromStore(w, Home(r), w.repair.base))
    && (w.pc.Sending? ==> FromStore(w, w.pc.mem.cluster, w.pc.base))
    && (w.pc.Erasing? ==> FromStore(w, w.pc.target, w.pc.base))
  }

  /** Every write takes a version above all earlier ones. */
  ghost predicate Ticks(w: World, w': World) {
    && w.clock <= w'.clock
    && forall c :: c in w'.remote ==>
         (c in w.remote && w'.remote[c] == w.remote[c]) || w.clock < w'.remote[c].version <= w'.clock
  }

  predicate SameStore(w: World, w': World) {
    w'.remote == w.remote && w'.clock == w.clock
  }

  /** Time goes on, and every base is an old one or what was just read. */
  ghost predicate Moves(r: Role, w: World, w': World) {
    && Ticks(w, w')
    && (w'.repair == w.repair || w'.repair.Resting?
        || (w'.repair.Granted? && w.repair.HasRead? && w'.repair.base == w.repair.base)
        || (SameStore(w, w') && w'.repair.HasRead? && Home(r) in w.remote && w'.repair.base == w.remote[Home(r)]))
    && (!w'.pc.Sending? || w'.pc == w.pc
        || (SameStore(w, w') && w'.pc.mem.cluster in w.remote && w'.pc.base == w.remote[w'.pc.mem.cluster]))
    && (!w'.pc.Erasing? || w'.pc == w.pc
        || (SameStore(w, w') && w'.pc.target in w.remote && w'.pc.base == w.remote[w'.pc.target]))
  }

  lemma MovesKeepVersions(r: Role, w: World, w': World)
    requires Versions(r, w) && Moves(r, w, w')
    ensures Versions(r, w')
  {
  }

  lemma NormalMoves(r: Role, w: World, step: Step)
    requires Normal(r, w, step).Some?
    ensures Moves(r, w, Normal(r, w, step).value)
    ensures Normal(r, w, step).value.repair == w.repair
  {
  }

  lemma ApplyMoves(r: Role, w: World, step: Step)
    requires Apply(r, w, step).Some?
    ensures Moves(r, w, Apply(r, w, step).value)
    ensures Apply(r, w, step).value.repair == w.repair
  {
  }

  lemma DeliverMoves(r: Role, w: World, step: Step)
    requires Deliver(r, w, step).Some?
    ensures Moves(r, w, Deliver(r, w, step).value)
    ensures Deliver(r, w, step).value.repair == w.repair
  {
  }

  lemma CleanupMoves(r: Role, w: World, step: Step)
    requires Cleanup(r, w, step).Some?
    ensures Moves(r, w, Cleanup(r, w, step).value)
    ensures Cleanup(r, w, step).value.repair == w.repair
  {
    if step.PlanCleanup? {
      PlanIsCalm(r, w, step);
    }
  }

  lemma TeardownMoves(r: Role, w: World, step: Step)
    requires Teardown(r, w, step).Some?
    ensures Moves(r, w, Teardown(r, w, step).value)
    ensures Teardown(r, w, step).value.repair == w.repair
  {
  }

  lemma EnvironmentMoves(r: Role, w: World, step: Step)
    requires Environment(r, w, step).Some?
    ensures Moves(r, w, Environment(r, w, step).value)
    ensures Environment(r, w, step).value.repair == w.repair
  {
  }

  lemma RepairingMoves(r: Role, w: World, step: Step)
    requires Repairing(r, w, step).Some?
    ensures Moves(r, w, Repairing(r, w, step).value)
  {
  }

  lemma NextMoves(r: Role, w: World, step: Step)
    requires Stable(r, w) && Next(r, w, step).Some?
    ensures Moves(r, w, Next(r, w, step).value)
  {
    if Normal(r, w, step).Some? {
      NormalMoves(r, w, step);
    } else if Apply(r, w, step).Some? {
      ApplyMoves(r, w, step);
    } else if Deliver(r, w, step).Some? {
      DeliverMoves(r, w, step);
    } else if Cleanup(r, w, step).Some? {
      CleanupMoves(r, w, step);
    } else if Teardown(r, w, step).Some? {
      TeardownMoves(r, w, step);
    } else if Environment(r, w, step).Some? {
      EnvironmentMoves(r, w, step);
    } else if ChildActivity(r, w, step).Some? {
      ChildActivityIsLocal(r, w, step);
    } else {
      RepairingMoves(r, w, step);
    }
  }

  // ---------------------------------------------------------------------- runs

  ghost predicate Inv(r: Role, w: World) {
    Base(r, w) && Childless(r, w) && Aimed(r, w) && Versions(r, w)
  }

  lemma InvKept(r: Role, w: World, step: Step)
    requires WellFormed(r) && Inv(r, w) && Next(r, w, step).Some?
    ensures Inv(r, Next(r, w, step).value)
  {
    BaseKept(r, w, step);
    ChildlessKept(r, w, step);
    AimedKept(r, w, step);
    NextMoves(r, w, step);
    MovesKeepVersions(r, w, Next(r, w, step).value);
  }

  lemma {:induction false} RunKeeps(r: Role, steps: seq<Step>, w: World)
    requires WellFormed(r) && Reaches(r, steps, w)
    ensures Inv(r, w)
    decreases |steps|
  {
    if steps != [] {
      var before, last := steps[..|steps| - 1], steps[|steps| - 1];
      var mid :| Reaches(r, before, mid) && Next(r, mid, last) == Some(w);
      RunKeeps(r, before, mid);
      InvKept(r, mid, last);
    }
  }

  lemma ReachableInv(r: Role, w: World)
    requires Reachable(r, w)
    ensures Inv(r, w)
  {
    var steps :| Reaches(r, steps, w);
    RunKeeps(r, steps, w);
  }

  /** A run in which no repair commits once the role is being deleted. */
  ghost predicate ReachesQuietly(r: Role, steps: seq<Step>, w: World)
    decreases |steps|
  {
    if steps == [] then Initial(r, w)
    else
      var before, last := steps[..|steps| - 1], steps[|steps| - 1];
      exists mid :: ReachesQuietly(r, before, mid) && Next(r, mid, last) == Some(w) && !CommitsLate(r, mid, last)
  }

  lemma {:induction false} QuietRunErases(r: Role, steps: seq<Step>, w: World)
    requires WellFormed(r) && ReachesQuietly(r, steps, w)
    ensures Inv(r, w) && Erased(r, w)
    decreases |steps|
  {
    if steps != [] {
      var before, last := steps[..|steps| - 1], steps[|steps| - 1];
      var mid :| ReachesQuietly(r, before, mid) && Next(r, mid, last) == Some(w) && !CommitsLate(r, mid, last);
      QuietRunErases(r, before, mid);
      InvKept(r, mid, last);
      ErasedKept(r, mid, last);
    }
  }

  // ----------------------------------------------------------------- theorems

  /**
   Write-ahead delivery: in every state reachable with crashes between API
   calls, a ServiceAccount carrying the role's ARN is the one of the recorded
   cluster, and the persisted status already holds ARN, delivery type and
   cluster. The repair controller is running throughout.
   */
  lemma WriteAheadDelivery(r: Role, w: World, c: string)
    requires Reachable(r, w)
    requires c in w.remote && Carries(w.remote[c].meta, r.arn)
    ensures UsesAnnotations(r.delivery)
    ensures w.status == Status(r.arn, Some(r.delivery), Home(r)) && c == Home(r)
    ensures Parse(w.status.cluster) == Some(NamespacedName(r.namespace, r.namespace))
  {
    ReachableInv(r, w);
    NameRoundTrip(NamespacedName(r.namespace, r.namespace));
  }

  /** In every reachable state an accepted patch edits exactly what is stored. */
  lemma AcceptedEditsStored(r: Role, w: World)
    requires Reachable(r, w)
    ensures w.pc.Sending? && PatchAccepted(w, w.pc.mem.cluster, w.pc.base) ==> w.remote[w.pc.mem.cluster] == w.pc.base
    ensures w.pc.Erasing? && PatchAccepted(w, w.pc.target, w.pc.base) ==> w.remote[w.pc.target] == w.pc.base
    ensures InFlight(r, w) ==> w.remote[Home(r)] == w.repair.base
  {
    ReachableInv(r, w);
  }

  /**
   Finalization is complete. A role without its finalizer has left no child
   its UID controls, whatever the repair controller did; and no annotation with
   its ARN in any cluster, unless a repair committed while it was being deleted.
   Before the finalizer is first added the same holds.
   */
  lemma NoFinalizerMeansClean(r: Role, steps: seq<Step>, w: World)
    requires WellFormed(r) && Reaches(r, steps, w) && !w.finalizer
    ensures forall k :: k in w.children ==> w.children[k].controller != r.uid
    ensures ReachesQuietly(r, steps, w) ==> NoCarrier(r, w)
  {
    RunKeeps(r, steps, w);
    if ReachesQuietly(r, steps, w) {
      QuietRunErases(r, steps, w);
    }
  }

  /** The finalizer is removed only in a state that is already clean, in the same sense. */
  lemma FinalizerRemovedWhenClean(r: Role, steps: seq<Step>, w: World, last: bool)
    requires WellFormed(r) && Reaches(r, steps, w)
    requires w.finalizer && Teardown(r, w, RemoveFinalizer(last)).Some?
    ensures w.deleting
    ensures forall k :: k in w.children ==> w.children[k].controller != r.uid
    ensures ReachesQuietly(r, steps, w) ==> NoCarrier(r, w)
  {
    RunKeeps(r, steps, w);
    if ReachesQuietly(r, steps, w) {
      QuietRunErases(r, steps, w);
    }
  }

  /** Deletion never touches a child that another controller, or none, controls. */
  lemma ForeignChildrenUntouched(r: Role, w: World, step: Step, k: Kind)
    requires Cleanup(r, w, step).Some? || Teardown(r, w, step).Some?
    requires k in w.children && w.children[k].controller != r.uid
    ensures var w' := if Cleanup(r, w, step).Some? then Cleanup(r, w, step).value else Teardown(r, w, step).value;
            k in w'.children && w'.children[k] == w.children[k]
  {
    if Cleanup(r, w, step).Some? {
      CleanupIsCalm(r, w, step);
    }
  }

  // --------------------------------------- deletion with the repair controller

  /** w' is reached from w by `steps`. */
  ghost predicate Leads(r: Role, w: World, steps: seq<Step>, w': World)
    decreases |steps|
  {
    if steps == [] then w == w'
    else
      var before, last := steps[..|steps| - 1], steps[|steps| - 1];
      exists mid :: Leads(r, w, before, mid) && Next(r, mid, last) == Some(w')
  }

  ghost predicate CleanForever(r: Role, w: World) {
    forall steps, w' :: Leads(r, w, steps, w') ==> NoCarrier(r, w')
  }

  /** Nothing carries the ARN, nothing can put it there, and no pass will deliver again. */
  ghost predicate Fenced(r: Role, w: World) {
    w.deleting && !InNormal(w.pc) && NoCarrier(r, w) && !InFlight(r, w)
  }

  /** A granted repair does not become acceptable again. */
  lemma TicksKeepFence(r: Role, w: World, w': World)
    requires Fenced(r, w) && Versions(r, w) && Ticks(w, w') && w'.repair == w.repair
    requires w'.deleting && !InNormal(w'.pc)
    requires forall c :: c in w'.remote && Carries(w'.remote[c].meta, r.arn) ==>
               c in w.remote && Carries(w.remote[c].meta, r.arn)
    ensures Fenced(r, w')
  {
  }

  lemma NoNormalPass(r: Role, w: World, step: Step)
    requires w.deleting && !InNormal(w.pc)
    ensures Apply(r, w, step).None? && Deliver(r, w, step).None?
    ensures Normal(r, w, step).Some? ==> Normal(r, w, step).value == w.(pc := Cleaning(w.status))
  {
  }

  lemma RepairingKeepsFence(r: Role, w: World, step: Step)
    requires Fenced(r, w) && Repairing(r, w, step).Some?
    ensures Fenced(r, Repairing(r, w, step).value)
  {
  }

  lemma TeardownStaysInDelete(r: Role, w: World, step: Step)
    requires Teardown(r, w, step).Some?
    ensures var w' := Teardown(r, w, step).value;
            && w'.deleting == w.deleting && !InNormal(w'.pc) && (w'.finalizer ==> w.finalizer)
            && w'.remote == w.remote
  {
  }

  lemma CleanupKeepsFence(r: Role, w: World, step: Step)
    requires Versions(r, w) && Fenced(r, w) && Cleanup(r, w, step).Some?
    ensures Fenced(r, Cleanup(r, w, step).value)
  {
    CleanupMoves(r, w, step);
    CleanupIsCalm(r, w, step);
    TicksKeepFence(r, w, Cleanup(r, w, step).value);
  }

  lemma TeardownKeepsFence(r: Role, w: World, step: Step)
    requires Versions(r, w) && Fenced(r, w) && Teardown(r, w, step).Some?
    ensures Fenced(r, Teardown(r, w, step).value)
  {
    TeardownMoves(r, w, step);
    TeardownStaysInDelete(r, w, step);
    TicksKeepFence(r, w, Teardown(r, w, step).value);
  }

  lemma EnvironmentKeepsFence(r: Role, w: World, step: Step)
    requires Versions(r, w) && Fenced(r, w) && Environment(r, w, step).Some?
    ensures Fenced(r, Environment(r, w, step).value)
  {
    EnvironmentMoves(r, w, step);
    EnvironmentIsCalm(r, w, step);
    TicksKeepFence(r, w, Environment(r, w, step).value);
  }

  lemma FenceKept(r: Role, w: World, step: Step)
    requires Stable(r, w) && Versions(r, w) && Fenced(r, w) && Next(r, w, step).Some?
    ensures Fenced(r, Next(r, w, step).value)
  {
    NoNormalPass(r, w, step);
    if Normal(r, w, step).Some? {
      TicksKeepFence(r, w, Normal(r, w, step).value);
    } else if Cleanup(r, w, step).Some? {
      CleanupKeepsFence(r, w, step);
    } else if Teardown(r, w, step).Some? {
      TeardownKeepsFence(r, w, step);
    } else if Environment(r, w, step).Some? {
      EnvironmentKeepsFence(r, w, step);
    } else if ChildActivity(r, w, step).Some? {
      ChildActivityIsLocal(r, w, step);
      TicksKeepFence(r, w, ChildActivity(r, w, step).value);
    } else {
      RepairingKeepsFence(r, w, step);
    }
  }

  lemma {:induction false} FenceHolds(r: Role, w: World, steps: seq<Step>, w': World)
    requires WellFormed(r) && Inv(r, w) && Fenced(r, w) && Leads(r, w, steps, w')
    ensures Inv(r, w') && Fenced(r, w')
    decreases |steps|
  {
    if steps != [] {
      var before, last := steps[..|steps| - 1], steps[|steps| - 1];
      var mid :| Leads(r, w, before, mid) && Next(r, mid, last) == Some(w');
      FenceHolds(r, w, before, mid);
      InvKept(r, mid, last);
      FenceKept(r, mid, last);
    }
  }

  lemma LeadsOne(r: Role, w: World, step: Step, w': World)
    requires Next(r, w, step) == Some(w')
    ensures Leads(r, w, [step], w')
  {
    assert [step][..0] == [];
    assert Leads(r, w, [], w);
  }

  /** A repair in flight makes a carrier, unless there is one already. */
  lemma FlightLands(r: Role, w: World)
    requires WellFormed(r) && RepairOk(r, w) && Versions(r, w) && InFlight(r, w) && NoCarrier(r, w)
    ensures Next(r, w, RepairSends).Some? && !NoCarrier(r, Next(r, w, RepairSends).value)
  {
    var base := w.repair.base;
    assert w.remote[Home(r)] == base;
    assert !InSync(base.meta, r.arn) by {
      assert ROLE_ARN in MANAGED_KEYS;
    }
    var w' := Next(r, w, RepairSends).value;
    assert Carries(w'.remote[Home(r)].meta, r.arn);
  }

  /**
   Exactly when deletion stays clean: from any reachable state in which the
   role is being deleted and no normal pass is under way, no later state
   carries the ARN if and only if none carries it now and no granted repair
   would still be accepted.
   */
  lemma DeletionStaysCleanIff(r: Role, w: World)
    requires Reachable(r, w) && w.deleting && !InNormal(w.pc)
    ensures CleanForever(r, w) <==> NoCarrier(r, w) && !InFlight(r, w)
  {
    ReachableInv(r, w);
    if Fenced(r, w) {
      forall steps, w' | Leads(r, w, steps, w') ensures NoCarrier(r, w') {
        FenceHolds(r, w, steps, w');
      }
    } else if !NoCarrier(r, w) {
      assert Leads(r, w, [], w);
    } else {
      FlightLands(r, w);
      LeadsOne(r, w, RepairSends, Next(r, w, RepairSends).value);
    }
  }

  /**
   The same at the moment the cleanup hands over to the children: nothing
   carries the ARN then, and nothing ever will if and only if no repair is in
   flight. A cleanup whose read found the ARN, so that its erase committed,
   leaves none in flight.
   */
  lemma CleanupIsFinalIff(r: Role, w: World, step: Step)
    requires Reachable(r, w) && Cleanup(r, w, step).Some? && Cleanup(r, w, step).value.pc.Deleting?
    ensures var w' := Cleanup(r, w, step).value;
            && NoCarrier(r, w')
            && (CleanForever(r, w') <==> !InFlight(r, w'))
            && (step.SendCleanup? ==> CleanForever(r, w'))
  {
    var w' := Cleanup(r, w, step).value;
    ReachableInv(r, w);
    CleanupEndsClean(r, w, step);
    CleanupIsCalm(r, w, step);
    Extend(r, w, step, w');
    DeletionStaysCleanIff(r, w');
    if step.SendCleanup? {
      EraseOutdatesRepairs(r, w);
    }
  }

  lemma EraseOutdatesRepairs(r: Role, w: World)
    requires Aimed(r, w) && RepairOk(r, w) && Versions(r, w)
    requires Cleanup(r, w, SendCleanup).Some? && Cleanup(r, w, SendCleanup).value.pc.Deleting?
    ensures !InFlight(r, Cleanup(r, w, SendCleanup).value)
  {
  }

  lemma FinalizedStays(r: Role, w: World, step: Step)
    requires Stable(r, w) && PassOk(r, w) && w.deleting && !w.finalizer && Next(r, w, step).Some?
    ensures var w' := Next(r, w, step).value; w'.deleting && !w'.finalizer
  {
    NoNormalPass(r, w, step);
    if Cleanup(r, w, step).Some? {
      CleanupIsCalm(r, w, step);
    } else if Teardown(r, w, step).Some? {
      TeardownStaysInDelete(r, w, step);
    } else if Environment(r, w, step).Some? {
      EnvironmentIsCalm(r, w, step);
    } else if ChildActivity(r, w, step).Some? {
      ChildActivityIsLocal(r, w, step);
    } else if Repairing(r, w, step).Some? {
      RepairingKeepsHub(r, w, step);
    }
  }

  lemma {:induction false} FinalizedHolds(r: Role, w: World, steps: seq<Step>, w': World)
    requires WellFormed(r) && Inv(r, w) && w.deleting && !w.finalizer && Leads(r, w, steps, w')
    ensures Inv(r, w') && w'.deleting && !w'.finalizer
    decreases |steps|
  {
    if steps != [] {
      var before, last := steps[..|steps| - 1], steps[|steps| - 1];
      var mid :| Leads(r, w, before, mid) && Next(r, mid, last) == Some(w');
      FinalizedHolds(r, w, before, mid);
      InvKept(r, mid, last);
      FinalizedStays(r, mid, last);
    }
  }

  /**
   From a finalized role on: no child its UID controls ever comes back, and
   its ARN never does if and only if it is nowhere now and no granted repair
   would still be accepted. This is the operator as shipped, with the repair
   controller running.
   */
  lemma FinalizationCompleteIff(r: Role, w: World)
    requires Reachable(r, w) && w.deleting && !w.finalizer
    ensures forall steps, w' :: Leads(r, w, steps, w') ==> OwnedWithin(r, w', {})
    ensures CleanForever(r, w) <==> NoCarrier(r, w) && !InFlight(r, w)
  {
    ReachableInv(r, w);
    forall steps, w' | Leads(r, w, steps, w') ensures OwnedWithin(r, w', {}) {
      FinalizedHolds(r, w, steps, w');
    }
    DeletionStaysCleanIff(r, w);
  }

  // ------------------------------------------------------- a repair too late

  lemma Extend(r: Role, w: World, step: Step, w': World)
    requires Reachable(r, w) && Next(r, w, step) == Some(w')
    ensures Reachable(r, w')
  {
    var steps :| Reaches(r, steps, w);
    var longer := steps + [step];
    assert longer[..|longer| - 1] == steps && longer[|longer| - 1] == step;
    assert Reaches(r, longer, w');
  }

  const UNSET := Status("", None, "")

  /** A ServiceAccount that carries another role's ARN, so that the repair controller's watch lets it through. */
  function Taken(r: Role): Versioned {
    Versioned(0, Meta(map[ROLE_ARN := r.arn + "-other"], [], false))
  }

  lemma TakenIsForeign(r: Role)
    requires r.arn != ""
    ensures !Carries(Taken(r).meta, r.arn)
    ensures Edit(Unannotate(r.arn), Taken(r).meta) == None && Edit(Annotate(r.arn), Taken(r).meta).Some?
  {
    assert |r.arn + "-other"| > |r.arn|;
    assert ROLE_ARN in MANAGED_KEYS;
  }

  /** A profile by which the inventory finds the role's cluster. */
  function Profile(r: Role): ClusterProfile {
    ClusterProfile("profile", map[LABEL_OCM_CLUSTER_NAME := r.namespace, LABEL_CLUSTER_MANAGER := OCM_MANAGER], 1)
  }

  lemma ProfileResolves(r: Role)
    requires WellFormed(r)
    ensures ResolvedCluster(r, [Profile(r)]) == Some(Home(r))
  {
    assert Matches(Profile(r), r.namespace);
    assert Matching([Profile(r)], r.namespace) == [Profile(r)];
    assert WithAccess([Profile(r)]) == [Profile(r)];
    ResolvedIsHome(r, [Profile(r)]);
  }

  /** A role whose ServiceAccount is taken, while its pass is at `pc`. */
  function Alive(r: Role, st: Status, children: map<Kind, Child>, pc: Pc, repair: Repair): World {
    World(st, true, false, false, children, map[Home(r) := Taken(r)], 0, pc, repair)
  }

  /** The IAM Role object once it reports `arn`. */
  function Born(r: Role, arn: string): map<Kind, Child> {
    map[IamRole := Child(r.uid, arn, false, false)]
  }

  function Recording(r: Role, arn: string): Status {
    Status(arn, Some(r.delivery), Home(r))
  }

  /** One pass over the hub, up to the decision whether to deliver. */
  lemma PassReaches(r: Role, st: Status, children: map<Kind, Child>, arn: string)
    requires UsesAnnotations(r.delivery) && Reachable(r, Alive(r, st, children, Idle, Resting))
    requires (children == map[] && arn == "") || children == Born(r, arn)
    ensures Reachable(r, Alive(r, st, Born(r, arn), RoleApplied(st, Recording(r, arn)), Resting))
  {
    var mem := ResolvedStatus(r, st, Home(r));
    ProfileResolves(r);
    Extend(r, Alive(r, st, children, Idle, Resting), Begin, Alive(r, st, children, Started(st), Resting));
    Extend(r, Alive(r, st, children, Started(st), Resting), ResolveInputs([Profile(r)]),
           Alive(r, st, children, InputsResolved(st, mem), Resting));
    HubReaches(r, st, children, arn);
  }

  lemma HubReaches(r: Role, st: Status, children: map<Kind, Child>, arn: string)
    requires UsesAnnotations(r.delivery)
    requires Reachable(r, Alive(r, st, children, InputsResolved(st, ResolvedStatus(r, st, Home(r))), Resting))
    requires (children == map[] && arn == "") || children == Born(r, arn)
    ensures Reachable(r, Alive(r, st, Born(r, arn), RoleApplied(st, Recording(r, arn)), Resting))
  {
    var mem := ResolvedStatus(r, st, Home(r));
    var w := Alive(r, st, children, InputsResolved(st, mem), Resting);
    var w' := Alive(r, st, children, PolicyApplied(st, mem), Resting);
    Extend(r, w, ApplyPolicy(false, false), w');
    assert Applied(r, w', IamRole, false) == Born(r, arn);
    Extend(r, w', ApplyRole(false), Alive(r, st, Born(r, arn), RoleApplied(st, Recording(r, arn)), Resting));
  }

  /** The role gets its ARN recorded while nothing is annotated yet. */
  lemma RecordReaches(r: Role)
    requires WellFormed(r) && UsesAnnotations(r.delivery)
    ensures Reachable(r, Alive(r, Recording(r, r.arn), Born(r, r.arn), Idle, Resting))
  {
    var first := World(UNSET, false, false, false, map[], map[Home(r) := Taken(r)], 0, Idle, Resting);
    TakenIsForeign(r);
    assert Reaches(r, [], first);
    Extend(r, first, Begin, Alive(r, UNSET, map[], Idle, Resting));
    PassReaches(r, UNSET, map[], "");
    var st := Recording(r, "");
    SaveReaches(r, st);
    PassReaches(r, st, Born(r, r.arn), r.arn);
    Extend(r, Alive(r, st, Born(r, r.arn), RoleApplied(st, Recording(r, r.arn)), Resting), Decide(false),
           Alive(r, Recording(r, r.arn), Born(r, r.arn), Idle, Resting));
  }

  lemma SaveReaches(r: Role, st: Status)
    requires UsesAnnotations(r.delivery) && st == Recording(r, "")
    requires Reachable(r, Alive(r, UNSET, Born(r, ""), RoleApplied(UNSET, st), Resting))
    ensures Reachable(r, Alive(r, st, Born(r, r.arn), Idle, Resting))
  {
    Extend(r, Alive(r, UNSET, Born(r, ""), RoleApplied(UNSET, st), Resting), Decide(false),
           Alive(r, UNSET, Born(r, ""), Saving(st), Resting));
    Extend(r, Alive(r, UNSET, Born(r, ""), Saving(st), Resting), SaveStatus,
           Alive(r, st, Born(r, ""), Idle, Resting));
    ReportReaches(r, st);
  }

  lemma ReportReaches(r: Role, st: Status)
    requires Reachable(r, Alive(r, st, Born(r, ""), Idle, Resting))
    ensures Reachable(r, Alive(r, st, Born(r, r.arn), Idle, Resting))
  {
    assert Born(r, "")[IamRole := Child(r.uid, r.arn, false, false)] == Born(r, r.arn);
    Extend(r, Alive(r, st, Born(r, ""), Idle, Resting), AckReports, Alive(r, st, Born(r, r.arn), Idle, Resting));
  }

  /** The role being deleted, while a repair granted before the deletion is in flight. */
  function Ending(r: Role, finalizer: bool, children: map<Kind, Child>, pc: Pc): World {
    World(Recording(r, r.arn), finalizer, true, !finalizer, children, map[Home(r) := Taken(r)], 0, pc,
          Granted(Taken(r), r.arn))
  }

  lemma GrantReaches(r: Role)
    requires WellFormed(r) && UsesAnnotations(r.delivery)
    ensures Reachable(r, Ending(r, true, Born(r, r.arn), Idle))
  {
    RepairReaches(r);
    var granted := Alive(r, Recording(r, r.arn), Born(r, r.arn), Idle, Granted(Taken(r), r.arn));
    Extend(r, granted, UserDeletes, Ending(r, true, Born(r, r.arn), Idle));
  }

  lemma RepairReaches(r: Role)
    requires WellFormed(r) && UsesAnnotations(r.delivery)
    ensures Reachable(r, Alive(r, Recording(r, r.arn), Born(r, r.arn), Idle, Granted(Taken(r), r.arn)))
  {
    RecordReaches(r);
    var st, children := Recording(r, r.arn), Born(r, r.arn);
    Extend(r, Alive(r, st, children, Idle, Resting), RepairReads, Alive(r, st, children, Idle, HasRead(Taken(r))));
    Extend(r, Alive(r, st, children, Idle, HasRead(Taken(r))), RepairLists,
           Alive(r, st, children, Idle, Granted(Taken(r), r.arn)));
  }

  /** Cleanup finds another ARN on the ServiceAccount and has nothing to remove. */
  lemma CleanupReaches(r: Role)
    requires WellFormed(r) && UsesAnnotations(r.delivery)
    ensures Reachable(r, Ending(r, true, Born(r, r.arn), Deleting(CHILD_ORDER, false)))
  {
    GrantReaches(r);
    var st, children := Recording(r, r.arn), Born(r, r.arn);
    Extend(r, Ending(r, true, children, Idle), Begin, Ending(r, true, children, Cleaning(st)));
    NameRoundTrip(NamespacedName(r.namespace, r.namespace));
    TakenIsForeign(r);
    var probing := Probing(Home(r), r.arn);
    assert CleanupPlan(r, Ending(r, true, children, Cleaning(st)), st, false, []) == Some(probing);
    Extend(r, Ending(r, true, children, Cleaning(st)), PlanCleanup(false, []), Ending(r, true, children, probing));
    Extend(r, Ending(r, true, children, probing), ReadForCleanup,
           Ending(r, true, children, Deleting(CHILD_ORDER, false)));
  }

  /** Deleting one listed child that nothing holds. */
  lemma ChildReaches(r: Role, children: map<Kind, Child>, k: Kind, rest: seq<Kind>)
    requires WellFormed(r) && Reachable(r, Ending(r, true, children, Deleting([k] + rest, false)))
    requires k in children ==> children[k].controller == r.uid && !children[k].held
    ensures Reachable(r, Ending(r, true, children - {k}, Deleting(rest, false)))
  {
    var w := Ending(r, true, children, Deleting([k] + rest, false));
    assert ([k] + rest)[1..] == rest;
    if k in children {
      var mid := Ending(r, true, children - {k}, Rechecking(k, rest, false));
      Extend(r, w, DeleteChild, mid);
      Extend(r, mid, RecheckChild, Ending(r, true, children - {k}, Deleting(rest, false)));
    } else {
      assert children - {k} == children;
      Extend(r, w, DeleteChild, Ending(r, true, children, Deleting(rest, false)));
    }
  }

  lemma ChildrenReach(r: Role)
    requires WellFormed(r) && UsesAnnotations(r.delivery)
    ensures Reachable(r, Ending(r, true, map[], Deleting([], false)))
  {
    CleanupReaches(r);
    var children := Born(r, r.arn);
    assert CHILD_ORDER == [Association] + [IamRole, IamPolicy];
    ChildReaches(r, children, Association, [IamRole, IamPolicy]);
    assert [IamRole, IamPolicy] == [IamRole] + [IamPolicy] && [IamPolicy] == [IamPolicy] + [];
    ChildReaches(r, children - {Association}, IamRole, [IamPolicy]);
    ChildReaches(r, children - {Association} - {IamRole}, IamPolicy, []);
    assert children - {Association} - {IamRole} - {IamPolicy} == map[];
  }

  lemma TeardownReaches(r: Role)
    requires WellFormed(r) && UsesAnnotations(r.delivery)
    ensures Reachable(r, Ending(r, false, map[], Idle))
  {
    ChildrenReach(r);
    Extend(r, Ending(r, true, map[], Deleting([], false)), FinishChildren, Ending(r, true, map[], Unblocked));
    Extend(r, Ending(r, true, map[], Unblocked), RemoveFinalizer(true), Ending(r, false, map[], Idle));
  }

  /**
   The condition is needed: a repair that read a ServiceAccount carrying
   another ARN and listed the role before the deletion is still in flight when
   the role is gone, and commits then. The cleanup in between found nothing of
   its own to remove, so its read did not outdate the repair.
   */
  lemma RepairCanOutliveRole(r: Role) returns (end: World, late: World)
    requires WellFormed(r) && UsesAnnotations(r.delivery)
    ensures Reachable(r, end) && end.gone && !end.finalizer && NoCarrier(r, end) && InFlight(r, end)
    ensures ROLE_ARN in end.repair.base.meta.annotations
    ensures Next(r, end, RepairSends) == Some(late) && late.gone
    ensures Home(r) in late.remote && Carries(late.remote[Home(r)].meta, r.arn)
  {
    TeardownReaches(r);
    TakenIsForeign(r);
    end := Ending(r, false, map[], Idle);
    late := Next(r, end, RepairSends).value;
  }
}
