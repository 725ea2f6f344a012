/**
 The self-hosted webhook runtime on a workload cluster. Apply and delete passes
 are sequences of API calls by the one writer of these objects; a pass may be
 cut off between any two calls, and the parallel calls of a pass run in any
 order. Time passes and the Deployment's status moves on by itself.
 */
module WebhookRuntime {
  import opened Options
  import opened RequeueSchedule

  /** A certificate, reduced to whose key it holds, who signed it, and what it is good for. */
  datatype Cert = Cert(key: nat, signer: nat, isCa: bool, serverAuth: bool, dns: set<string>, notAfter: int)

  datatype Kind =
    | CaSecret | ServingSecret | ServiceAccount | ClusterRole | ClusterRoleBinding | Service | Deployment | Admission

  datatype Rollout = Rollout(generation: nat, observed: nat, updated: nat, available: nat, condition: bool)

  datatype Body =
    | Plain
    | CaPair(ca: Cert, caKey: nat)                     // ca.crt and the key in ca.key
    | ServingPair(leaf: Cert, keyMatches: bool)        // tls.crt and whether tls.key belongs to it
    | Pods(fingerprint: Option<Cert>, rollout: Rollout) // the template's serving-cert-sha256
    | Hook(service: string, bundle: Cert)              // namespace of the Service, and the CA bundle

  datatype Obj = Obj(managed: bool, body: Body)

  datatype Ref = Ref(kind: Kind, namespace: string)

  predicate ClusterScoped(k: Kind) {
    k == ClusterRole || k == ClusterRoleBinding || k == Admission
  }

  function At(k: Kind, ns: string): Ref {
    Ref(k, if ClusterScoped(k) then "" else ns)
  }

  const SUPPORT := {ServiceAccount, ClusterRole, ClusterRoleBinding, Service}
  const BACKING := {CaSecret, ServingSecret, ServiceAccount, ClusterRole, ClusterRoleBinding, Service, Deployment}

  function CommonName(ns: string): string {
    "pod-identity-webhook." + ns + ".svc"
  }

  // ------------------------------------------------------------- certificates

  predicate FreshEnough(c: Cert, now: int) {
    now + CERT_RENEWAL_THRESHOLD <= c.notAfter
  }

  /** leaf.Verify with the CA as the only root. */
  predicate Verifies(leaf: Cert, ca: Cert, ns: string, now: int) {
    && leaf.signer == ca.key && ca.isCa
    && leaf.serverAuth && CommonName(ns) in leaf.dns
    && now <= leaf.notAfter && now <= ca.notAfter
  }

  predicate ReusableCa(b: Body, now: int) {
    b.CaPair? && b.ca.isCa && FreshEnough(b.ca, now)
  }

  predicate ReusableServing(b: Body, ns: string, ca: Cert, now: int) {
    b.ServingPair? && b.keyMatches && FreshEnough(b.leaf, now) && Verifies(b.leaf, ca, ns, now)
  }

  function NewCa(key: nat, now: int): Body {
    CaPair(Cert(key, key, true, false, {}, now + 10 * CERT_VALIDITY), key)
  }

  /** webhookServiceDNSNames: the names the serving certificate is issued for. */
  function ServiceNames(ns: string): set<string> {
    {"pod-identity-webhook", "pod-identity-webhook." + ns, CommonName(ns), CommonName(ns) + ".cluster.local"}
  }

  function NewServing(key: nat, signer: nat, ns: string, now: int): Body {
    ServingPair(Cert(key, signer, false, true, ServiceNames(ns), now + CERT_VALIDITY), true)
  }

  // ---------------------------------------------------------------- readiness

  datatype Reason =
    | Ready | ObservedGenerationLag | RolloutInProgress | ReplicasUnavailable | WaitingForDeployment

  /** assessRemoteDeploymentReadiness, for the one replica the operator asks for. */
  function Assess(r: Rollout): Reason {
    if r.observed < r.generation then ObservedGenerationLag
    else if r.updated < 1 then RolloutInProgress
    else if r.available < 1 then ReplicasUnavailable
    else if r.condition then Ready
    else WaitingForDeployment
  }

  predicate RolledOut(r: Rollout) {
    r.observed >= r.generation && r.updated >= 1 && r.available >= 1 && r.condition
  }

  // -------------------------------------------------------------------- passes

  /** What an apply pass has learned so far. */
  datatype Pc =
    | Resting
    | EnsureCa(ns: string)
    | EnsureServing(ns: string, ca: Cert, caKey: nat)
    | EnsureSupport(ns: string, ca: Cert, leaf: Cert, done: set<Kind>)
    | EnsureDeployment(ns: string, ca: Cert, leaf: Cert)
    | EnsureAdmission(ns: string, ca: Cert, leaf: Cert, rollout: Rollout)
    | Finished(ns: string, ca: Cert, leaf: Cert, rollout: Rollout, ready: bool)
    | DropAdmission(ns: string)
    | DropRest(ns: string, todo: set<Kind>)

  datatype World = World(
    objects: map<Ref, Obj>,
    now: int,
    nextKey: nat,               // generated keys are fresh
    checked: map<string, int>,  // when the serving certificate of a namespace was last ensured
    pc: Pc)

  datatype Step =
    | BeginApply(ns: string)
    | ApplyCa
    | ApplyServing
    | ApplySupport(kind: Kind)
    | ApplyDeployment
    | Assessed
    | BeginDelete(ns: string)
    | DeleteAdmission
    | DeleteOne(kind: Kind)
    | CutOff
    | Wait(duration: nat)
    | DeploymentProgress(ns: string, rollout: Rollout)

  /** createOrUpdateAdoptableWebhookRuntime may write an object that is absent or managed. */
  predicate Adoptable(w: World, ref: Ref) {
    ref in w.objects ==> w.objects[ref].managed
  }

  function Put(w: World, ref: Ref, body: Body): World {
    w.(objects := w.objects[ref := Obj(true, body)])
  }

  function BodyAt(w: World, ref: Ref): Body {
    if ref in w.objects then w.objects[ref].body else Plain
  }

  /** The Deployment after the operator's update: a changed template starts a new generation. */
  function Updated(b: Body, leaf: Cert): Body {
    match b
    case Pods(f, r) =>
      if f == Some(leaf) then b else Pods(Some(leaf), r.(generation := r.generation + 1))
    case _ => Pods(Some(leaf), Rollout(1, 0, 0, 0, false))
  }

  /** applyRemoteWebhookCertificates. */
  function Certify(w: World, step: Step): Option<World> {
    match step
    case BeginApply(ns) =>
      if w.pc.Resting? && ns != "" then Some(w.(pc := EnsureCa(ns))) else None
    case ApplyCa =>
      if !w.pc.EnsureCa? then None else
      var ref := At(CaSecret, w.pc.ns);
      if !Adoptable(w, ref) then Some(w.(pc := Resting)) else
      var reuse := ReusableCa(BodyAt(w, ref), w.now);
      var body := if reuse then BodyAt(w, ref) else NewCa(w.nextKey, w.now);
      Some(Put(w, ref, body).(nextKey := w.nextKey + 1, pc := EnsureServing(w.pc.ns, body.ca, body.caKey)))
    case ApplyServing =>
      if !w.pc.EnsureServing? then None else
      var ref := At(ServingSecret, w.pc.ns);
      if !Adoptable(w, ref) then Some(w.(pc := Resting)) else
      var reuse := ReusableServing(BodyAt(w, ref), w.pc.ns, w.pc.ca, w.now);
      var body := if reuse then BodyAt(w, ref) else NewServing(w.nextKey, w.pc.caKey, w.pc.ns, w.now);
      var stored := Put(w, ref, body).(nextKey := w.nextKey + 1);
      if ReusableServing(body, w.pc.ns, w.pc.ca, w.now)
      then Some(stored.(checked := w.checked[w.pc.ns := w.now],
                        pc := EnsureSupport(w.pc.ns, w.pc.ca, body.leaf, {})))
      else Some(stored.(checked := w.checked - {w.pc.ns}, pc := Resting))  // not reusable after apply
    case _ => None
  }

  /** The rest of applyRemoteWebhookRuntime. */
  function Install(w: World, step: Step): Option<World> {
    match step
    case ApplySupport(k) =>
      if !w.pc.EnsureSupport? || k !in SUPPORT || k in w.pc.done then None else
      if !Adoptable(w, At(k, w.pc.ns)) then Some(w.(pc := Resting)) else
      var done := w.pc.done + {k};
      Some(Put(w, At(k, w.pc.ns), Plain).(
             pc := if done == SUPPORT then EnsureDeployment(w.pc.ns, w.pc.ca, w.pc.leaf)
                   else w.pc.(done := done)))
    case ApplyDeployment =>
      if !w.pc.EnsureDeployment? then None else
      var ref := At(Deployment, w.pc.ns);
      if !Adoptable(w, ref) then Some(w.(pc := Resting)) else
      var body := Updated(BodyAt(w, ref), w.pc.leaf);
      Some(Put(w, ref, body).(pc := EnsureAdmission(w.pc.ns, w.pc.ca, w.pc.leaf, body.rollout)))
    case Assessed =>
      if !w.pc.EnsureAdmission? then None else
      var ref, ready := At(Admission, w.pc.ns), Assess(w.pc.rollout) == Ready;
      if !ready && ref !in w.objects
      then Some(w.(pc := Finished(w.pc.ns, w.pc.ca, w.pc.leaf, w.pc.rollout, false)))
      else if !Adoptable(w, ref) then Some(w.(pc := Resting))
      else Some(Put(w, ref, Hook(w.pc.ns, w.pc.ca)).(
                  pc := Finished(w.pc.ns, w.pc.ca, w.pc.leaf, w.pc.rollout, ready)))
    case _ => None
  }

  /** deleteRemoteWebhookRuntime: admission first, then the rest in any order. */
  function Remove(w: World, step: Step): Option<World> {
    match step
    case BeginDelete(ns) =>
      if w.pc.Resting? && ns != "" then Some(w.(pc := DropAdmission(ns))) else None
    case DeleteAdmission =>
      if !w.pc.DropAdmission? then None else
      var ref := At(Admission, w.pc.ns);
      if !Adoptable(w, ref) then Some(w.(pc := Resting))  // refuses an unmanaged cluster-scoped object
      else Some(w.(objects := w.objects - {ref}, pc := DropRest(w.pc.ns, BACKING)))
    case DeleteOne(k) =>
      if !w.pc.DropRest? || k !in w.pc.todo then None else
      Some(w.(objects := if Adoptable(w, At(k, w.pc.ns)) then w.objects - {At(k, w.pc.ns)} else w.objects,
              checked := if k == ServingSecret then w.checked - {w.pc.ns} else w.checked,
              pc := w.pc.(todo := w.pc.todo - {k})))
    case _ => None
  }

  /** Cut-offs, time, and the Deployment controller, which observes no generation that does not exist. */
  function Elapse(w: World, step: Step): Option<World> {
    match step
    case CutOff => Some(w.(pc := Resting))
    case Wait(duration) => Some(w.(now := w.now + duration))
    case DeploymentProgress(ns, rollout) =>
      var ref := At(Deployment, ns);
      if ref in w.objects && w.objects[ref].body.Pods?
         && rollout.generation == w.objects[ref].body.rollout.generation
         && rollout.observed <= rollout.generation
      then Some(w.(objects := w.objects[ref := w.objects[ref].(body := w.objects[ref].body.(rollout := rollout))]))
      else None
    case _ => None
  }

  function Next(w: World, step: Step): Option<World> {
    var c := Certify(w, step);
    if c.Some? then c else
    var i := Install(w, step);
    if i.Some? then i else
    var d := Remove(w, step);
    if d.Some? then d else Elapse(w, step)
  }

  /** A cluster where nothing managed is installed; foreign objects may be anywhere. */
  ghost predicate Initial(w: World) {
    && w.pc.Resting? && w.checked == map[]
    && forall ref :: ref in w.objects ==> !w.objects[ref].managed
  }

  ghost predicate Reaches(steps: seq<Step>, w: World)
    decreases |steps|
  {
    if steps == [] then Initial(w)
    else
      var before, last := steps[..|steps| - 1], steps[|steps| - 1];
      exists mid :: Reaches(before, mid) && Next(mid, last) == Some(w)
  }

  ghost predicate Reachable(w: World) {
    exists steps :: Reaches(steps, w)
  }

  // ---------------------------------------------------------------- invariant

  /** Every kind in `kinds` has its managed object for namespace ns. */
  ghost predicate Present(w: World, ns: string, kinds: set<Kind>) {
    forall k :: k in kinds ==> At(k, ns) in w.objects && w.objects[At(k, ns)].managed
  }

  predicate ManagedHook(w: World) {
    At(Admission, "") in w.objects && w.objects[At(Admission, "")].managed
  }

  ghost predicate Backed(w: World) {
    ManagedHook(w) ==>
      w.objects[At(Admission, "")].body.Hook? && Present(w, w.objects[At(Admission, "")].body.service, BACKING)
  }

  predicate HoldsCa(w: World, ns: string, ca: Cert) {
    BodyAt(w, At(CaSecret, ns)).CaPair? && BodyAt(w, At(CaSecret, ns)).ca == ca
  }

  predicate HoldsLeaf(w: World, ns: string, leaf: Cert, ca: Cert) {
    && BodyAt(w, At(ServingSecret, ns)) == ServingPair(leaf, true)
    && leaf.signer == ca.key && ca.isCa && leaf.serverAuth && CommonName(ns) in leaf.dns
    && ns in w.checked && w.checked[ns] <= w.now
    && w.checked[ns] + CERT_RENEWAL_THRESHOLD <= leaf.notAfter
    && w.checked[ns] <= ca.notAfter
  }

  predicate RunsLeaf(w: World, ns: string, leaf: Cert, r: Rollout) {
    var b := BodyAt(w, At(Deployment, ns));
    b.Pods? && b.fingerprint == Some(leaf) && b.rollout.generation == r.generation
  }

  /** What each point of a pass may rely on. */
  ghost predicate PassOk(w: World) {
    match w.pc
    case Resting => true
    case EnsureCa(ns) => ns != ""
    case EnsureServing(ns, ca, _) => ns != "" && Present(w, ns, {CaSecret}) && HoldsCa(w, ns, ca)
    case EnsureSupport(ns, ca, leaf, done) =>
      ns != "" && Present(w, ns, {CaSecret, ServingSecret} + done) && HoldsCa(w, ns, ca) && HoldsLeaf(w, ns, leaf, ca)
    case EnsureDeployment(ns, ca, leaf) =>
      ns != "" && Present(w, ns, BACKING - {Deployment}) && HoldsCa(w, ns, ca) && HoldsLeaf(w, ns, leaf, ca)
    case EnsureAdmission(ns, ca, leaf, r) =>
      && ns != "" && Present(w, ns, BACKING) && HoldsCa(w, ns, ca) && HoldsLeaf(w, ns, leaf, ca)
      && RunsLeaf(w, ns, leaf, r)
    case Finished(ns, ca, leaf, r, ready) =>
      ready ==> Present(w, ns, BACKING) && HoldsCa(w, ns, ca) && HoldsLeaf(w, ns, leaf, ca) && RunsLeaf(w, ns, leaf, r)
                && ManagedHook(w) && w.objects[At(Admission, "")].body == Hook(ns, ca) && RolledOut(r)
    case DropAdmission(ns) => ns != ""
    case DropRest(ns, todo) => ns != "" && todo <= BACKING && !ManagedHook(w)
  }

  /** Each namespace's serving certificate outlives its last check by the renewal threshold. */
  ghost predicate Renewed(w: World) {
    forall ns :: ns in w.checked ==>
      && w.checked[ns] <= w.now
      && BodyAt(w, At(ServingSecret, ns)).ServingPair?
      && w.checked[ns] + CERT_RENEWAL_THRESHOLD <= BodyAt(w, At(ServingSecret, ns)).leaf.notAfter
  }

  ghost predicate Inv(w: World) {
    Backed(w) && PassOk(w) && Renewed(w)
  }

  /** Writing a managed object other than the admission keeps the admission backed. */
  lemma WriteKeepsBacked(w: World, w': World, ref: Ref)
    requires Backed(w) && ref.kind != Admission
    requires w'.objects != w.objects ==>
               ref in w'.objects && w'.objects[ref].managed && w'.objects == w.objects[ref := w'.objects[ref]]
    ensures Backed(w')
  {
  }

  lemma CertifyBacked(w: World, step: Step)
    requires Backed(w) && Certify(w, step).Some?
    ensures Backed(Certify(w, step).value)
  {
    match step
    case BeginApply(_) =>
    case ApplyCa => WriteKeepsBacked(w, Certify(w, step).value, At(CaSecret, w.pc.ns));
    case ApplyServing => WriteKeepsBacked(w, Certify(w, step).value, At(ServingSecret, w.pc.ns));
  }

  lemma CertifyPassOk(w: World, step: Step)
    requires Inv(w) && Certify(w, step).Some?
    ensures PassOk(Certify(w, step).value)
  {
  }

  lemma CertifyRenewed(w: World, step: Step)
    requires Inv(w) && Certify(w, step).Some?
    ensures Renewed(Certify(w, step).value)
  {
  }

  lemma InstallBacked(w: World, step: Step)
    requires Backed(w) && PassOk(w) && Install(w, step).Some?
    ensures Backed(Install(w, step).value)
  {
    match step
    case Assessed => AssessedBacked(w);
    case _ =>
  }

  lemma AssessedBacked(w: World)
    requires Backed(w) && PassOk(w) && Install(w, Assessed).Some?
    ensures Backed(Install(w, Assessed).value)
  {
  }

  lemma AssessedPassOk(w: World)
    requires PassOk(w) && Install(w, Assessed).Some?
    ensures PassOk(Install(w, Assessed).value)
  {
  }

  lemma InstallPassOk(w: World, step: Step)
    requires PassOk(w) && Install(w, step).Some?
    ensures PassOk(Install(w, step).value)
  {
    match step
    case Assessed => AssessedPassOk(w);
    case ApplySupport(_) =>
    case ApplyDeployment =>
  }

  lemma InstallRenewed(w: World, step: Step)
    requires Renewed(w) && Install(w, step).Some?
    ensures Renewed(Install(w, step).value)
  {
  }

  lemma RemoveBacked(w: World, step: Step)
    requires Backed(w) && PassOk(w) && Remove(w, step).Some?
    ensures Backed(Remove(w, step).value)
  {
  }

  lemma RemovePassOk(w: World, step: Step)
    requires Inv(w) && Remove(w, step).Some?
    ensures PassOk(Remove(w, step).value)
  {
  }

  lemma RemoveRenewed(w: World, step: Step)
    requires Inv(w) && Remove(w, step).Some?
    ensures Renewed(Remove(w, step).value)
  {
  }

  lemma ElapseBacked(w: World, step: Step)
    requires Inv(w) && Elapse(w, step).Some?
    ensures Backed(Elapse(w, step).value)
  {
  }

  lemma ElapsePassOk(w: World, step: Step)
    requires PassOk(w) && Elapse(w, step).Some?
    ensures PassOk(Elapse(w, step).value)
  {
    match step
    case CutOff =>
    case Wait(_) => WaitPassOk(w, step.duration);
    case DeploymentProgress(ns, rollout) => ProgressPassOk(w, ns, rollout);
  }

  lemma WaitPassOk(w: World, duration: nat)
    requires PassOk(w)
    ensures PassOk(w.(now := w.now + duration))
  {
  }

  lemma ProgressPassOk(w: World, ns: string, rollout: Rollout)
    requires PassOk(w) && Elapse(w, DeploymentProgress(ns, rollout)).Some?
    ensures PassOk(Elapse(w, DeploymentProgress(ns, rollout)).value)
  {
  }

  lemma ElapseRenewed(w: World, step: Step)
    requires Inv(w) && Elapse(w, step).Some?
    ensures Renewed(Elapse(w, step).value)
  {
  }

  lemma StepKeeps(w: World, step: Step)
    requires Inv(w) && Next(w, step).Some?
    ensures Inv(Next(w, step).value)
  {
    if Certify(w, step).Some? {
      CertifyBacked(w, step);
      CertifyPassOk(w, step);
      CertifyRenewed(w, step);
    } else if Install(w, step).Some? {
      InstallBacked(w, step);
      InstallPassOk(w, step);
      InstallRenewed(w, step);
    } else if Remove(w, step).Some? {
      RemoveBacked(w, step);
      RemovePassOk(w, step);
      RemoveRenewed(w, step);
    } else {
      ElapseBacked(w, step);
      ElapsePassOk(w, step);
      ElapseRenewed(w, step);
    }
  }

  lemma {:induction false} RunKeeps(steps: seq<Step>, w: World)
    requires Reaches(steps, w)
    ensures Inv(w)
    decreases |steps|
  {
    if steps != [] {
      var before, last := steps[..|steps| - 1], steps[|steps| - 1];
      var mid :| Reaches(before, mid) && Next(mid, last) == Some(w);
      RunKeeps(before, mid);
      StepKeeps(mid, last);
    }
  }

  lemma ReachableInv(w: World)
    requires Reachable(w)
    ensures Inv(w)
  {
    var steps :| Reaches(steps, w);
    RunKeeps(steps, w);
  }

  // ----------------------------------------------------------------- theorems

  /**
   Across any sequence of passes cut off anywhere, an operator-managed
   admission configuration exists only while everything it routes to exists in
   the namespace it names.
   */
  lemma AdmissionIsBacked(w: World, k: Kind)
    requires Reachable(w) && ManagedHook(w) && k != Admission
    ensures w.objects[At(Admission, "")].body.Hook?
    ensures At(k, w.objects[At(Admission, "")].body.service) in w.objects
    ensures w.objects[At(k, w.objects[At(Admission, "")].body.service)].managed
  {
    ReachableInv(w);
    assert k in BACKING;
  }

  /**
   The admission configuration is first installed only after this pass saw the
   Deployment fully rolled out, with the template the stored Deployment has now.
   */
  lemma FirstInstallNeedsRollout(w: World)
    requires Reachable(w) && Install(w, Assessed).Some?
    requires At(Admission, "") !in w.objects
    requires At(Admission, "") in Install(w, Assessed).value.objects
    ensures RolledOut(w.pc.rollout) && RunsLeaf(w, w.pc.ns, w.pc.leaf, w.pc.rollout)
  {
    ReachableInv(w);
  }

  /**
   A pass that reports Ready leaves a coherent chain: the admission's bundle is
   the stored CA, it verifies the stored serving certificate for the Service it
   calls, the rolled-out template carries that certificate's fingerprint, and
   at the check at least thirty days were left.
   */
  lemma ReadyIsTrusted(w: World)
    requires Reachable(w) && w.pc.Finished? && w.pc.ready
    ensures var ns, leaf := w.pc.ns, w.pc.leaf;
            && At(Admission, "") in w.objects && w.objects[At(Admission, "")].body == Hook(ns, w.pc.ca)
            && At(CaSecret, ns) in w.objects && w.objects[At(CaSecret, ns)].body.CaPair?
            && w.objects[At(CaSecret, ns)].body.ca == w.pc.ca
            && At(ServingSecret, ns) in w.objects && w.objects[At(ServingSecret, ns)].body == ServingPair(leaf, true)
            && ns in w.checked && w.checked[ns] <= w.now
            && Verifies(leaf, w.pc.ca, ns, w.checked[ns])
            && leaf.notAfter >= w.checked[ns] + CERT_RENEWAL_THRESHOLD
            && RunsLeaf(w, ns, leaf, w.pc.rollout) && RolledOut(w.pc.rollout)
  {
    ReachableInv(w);
  }

  /**
   As long as the last pass that ensured the certificate is less than thirty
   days ago, the stored serving certificate has not expired.
   */
  lemma CertificateNeverExpires(w: World, ns: string)
    requires Reachable(w) && ns in w.checked
    requires w.now < w.checked[ns] + CERT_RENEWAL_THRESHOLD
    ensures At(ServingSecret, ns) in w.objects && w.objects[At(ServingSecret, ns)].body.ServingPair?
    ensures w.now < w.objects[At(ServingSecret, ns)].body.leaf.notAfter
  {
    ReachableInv(w);
  }

  /** Readiness names the first thing that is missing, and is Ready exactly for a full rollout. */
  lemma ReadyMeansRolledOut(r: Rollout)
    ensures Assess(r) == Ready <==> r.generation <= r.observed && 1 <= r.updated && 1 <= r.available && r.condition
    ensures Assess(r) == Ready <==> RolledOut(r)
    ensures Assess(r) == ObservedGenerationLag <==> r.observed < r.generation
    ensures Assess(r) == RolloutInProgress <==> r.generation <= r.observed && r.updated == 0
    ensures Assess(r) == ReplicasUnavailable <==> r.generation <= r.observed && 1 <= r.updated && r.available == 0
    ensures Assess(r) == WaitingForDeployment <==>
              r.generation <= r.observed && 1 <= r.updated && 1 <= r.available && !r.condition
  {
  }
}
