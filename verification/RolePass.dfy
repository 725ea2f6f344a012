/**
 The role reconciler's two passes as sequential code over the hub and the
 workload clusters. Every API call is one step of the machine in RoleDelivery,
 so its invariants hold before and after each pass; the contracts here add what
 one undisturbed pass does.
 */
module RolePass {
  import opened Options
  import opened Inventory
  import opened GuardedPatch
  import opened RoleDelivery

  lemma NormalExtends(r: Role, w: World, step: RoleDelivery.Step, w': World)
    requires Reachable(r, w) && Normal(r, w, step) == Some(w')
    ensures Reachable(r, w')
  {
    Extend(r, w, step, w');
  }

  lemma ApplyExtends(r: Role, w: World, step: RoleDelivery.Step, w': World)
    requires Reachable(r, w) && Apply(r, w, step) == Some(w')
    ensures Reachable(r, w')
  {
    Extend(r, w, step, w');
  }

  lemma DeliverExtends(r: Role, w: World, step: RoleDelivery.Step, w': World)
    requires Reachable(r, w) && Deliver(r, w, step) == Some(w')
    ensures Reachable(r, w')
  {
    Extend(r, w, step, w');
  }

  lemma CleanupExtends(r: Role, w: World, step: RoleDelivery.Step, w': World)
    requires Reachable(r, w) && Cleanup(r, w, step) == Some(w')
    ensures Reachable(r, w')
  {
    Extend(r, w, step, w');
  }

  lemma TeardownExtends(r: Role, w: World, step: RoleDelivery.Step, w': World)
    requires Reachable(r, w) && Teardown(r, w, step) == Some(w')
    ensures Reachable(r, w')
  {
    Extend(r, w, step, w');
  }

  lemma DeliveringIsRecorded(r: Role, w: World)
    requires Reachable(r, w) && w.pc.Delivering?
    ensures Recorded(r, w.status) && w.pc.mem.arn == r.arn && w.pc.mem.cluster == Home(r)
  {
    ReachableInv(r, w);
  }

  /** A status copy with an ARN is a record, and with the record in place it has the ARN. */
  lemma AppliedIsRecorded(r: Role, w: World)
    requires Reachable(r, w) && w.pc.RoleApplied?
    ensures w.pc.before == w.status
    ensures UsesAnnotations(r.delivery) && w.pc.mem.arn != "" ==> Recorded(r, w.pc.mem)
    ensures UsesAnnotations(r.delivery) && Recorded(r, w.status) ==> w.pc.mem.arn == r.arn && r.arn != ""
    ensures UsesAnnotations(r.delivery) && !Recorded(r, w.status) && w.pc.mem.arn != "" ==>
              ShouldPersistFirst(r, w.pc.before, w.pc.mem)
  {
    ReachableInv(r, w);
  }

  /** The stores after an undisturbed read and guarded patch of cluster c. */
  function Patching(w: World, c: string, client: Client): World {
    if c in w.remote && Edit(client, w.remote[c].meta).Some?
    then Written(w, c, Edit(client, w.remote[c].meta).value) else w
  }

  /** An annotated object carries the ARN, and so does one that needs no edit. */
  lemma AnnotateCarries(w: World, c: string, arn: string)
    requires arn != ""
    ensures var w' := Patching(w, c, Annotate(arn));
            && (c in w'.remote <==> c in w.remote) && w'.remote - {c} == w.remote - {c}
            && (c in w'.remote ==> Carries(w'.remote[c].meta, arn))
  {
    assert ROLE_ARN in MANAGED_KEYS;
  }

  /** An erased object no longer carries the ARN, and one that needs no edit does not either. */
  lemma UnannotateErases(w: World, c: string, arn: string)
    requires arn != ""
    ensures var w' := Patching(w, c, Unannotate(arn));
            && (c in w'.remote <==> c in w.remote) && w'.remote - {c} == w.remote - {c}
            && (c in w'.remote ==> !Carries(w'.remote[c].meta, arn))
            && (if c in w.remote && Carries(w.remote[c].meta, arn) then w'.clock == w.clock + 1 else w' == w)
  {
  }

  lemma DeliveryReads(r: Role, w: World)
    requires Reachable(r, w) && w.pc.Delivering?
    ensures var c := w.pc.mem.cluster;
            if c in w.remote && Edit(Annotate(w.pc.mem.arn), w.remote[c].meta).Some?
            then Reachable(r, w.(pc := Sending(w.pc.mem, w.remote[c])))
            else Reachable(r, w.(pc := Saving(w.pc.mem)))
  {
    DeliverExtends(r, w, ReadForDelivery, Deliver(r, w, ReadForDelivery).value);
  }

  lemma DeliverySends(r: Role, w: World)
    requires Reachable(r, w) && w.pc.Sending? && PatchAccepted(w, w.pc.mem.cluster, w.pc.base)
    requires Edit(Annotate(w.pc.mem.arn), w.pc.base.meta).Some?
    ensures var m := Edit(Annotate(w.pc.mem.arn), w.pc.base.meta).value;
            Reachable(r, Written(w, w.pc.mem.cluster, m).(pc := Saving(w.pc.mem)))
  {
    DeliverExtends(r, w, SendDelivery, Deliver(r, w, SendDelivery).value);
  }

  lemma DeliveryReaches(r: Role, w: World)
    requires Reachable(r, w) && w.pc.Delivering?
    ensures Reachable(r, Patching(w, w.pc.mem.cluster, Annotate(w.pc.mem.arn)).(pc := Saving(w.pc.mem)))
  {
    var c := w.pc.mem.cluster;
    DeliveryReads(r, w);
    if c in w.remote && Edit(Annotate(w.pc.mem.arn), w.remote[c].meta).Some? {
      var sending := w.(pc := Sending(w.pc.mem, w.remote[c]));
      var m, done := Edit(Annotate(w.pc.mem.arn), w.remote[c].meta).value, Saving(w.pc.mem);
      assert Patching(w, c, Annotate(w.pc.mem.arn)).(pc := done) == Written(sending, c, m).(pc := done);
      DeliverySends(r, sending);
    } else {
      assert Patching(w, c, Annotate(w.pc.mem.arn)) == w;
    }
  }

  lemma CleanupReads(r: Role, w: World)
    requires Reachable(r, w) && w.pc.Probing?
    ensures var c := w.pc.target;
            if c in w.remote && Edit(Unannotate(w.pc.arn), w.remote[c].meta).Some?
            then Reachable(r, w.(pc := Erasing(c, w.pc.arn, w.remote[c])))
            else Reachable(r, w.(pc := Deleting(CHILD_ORDER, false)))
  {
    CleanupExtends(r, w, ReadForCleanup, Cleanup(r, w, ReadForCleanup).value);
  }

  lemma CleanupSends(r: Role, w: World)
    requires Reachable(r, w) && w.pc.Erasing? && PatchAccepted(w, w.pc.target, w.pc.base)
    requires Edit(Unannotate(w.pc.arn), w.pc.base.meta).Some?
    ensures var m := Edit(Unannotate(w.pc.arn), w.pc.base.meta).value;
            Reachable(r, Written(w, w.pc.target, m).(pc := Deleting(CHILD_ORDER, false)))
  {
    CleanupExtends(r, w, SendCleanup, Cleanup(r, w, SendCleanup).value);
  }

  lemma ErasureReaches(r: Role, w: World)
    requires Reachable(r, w) && w.pc.Probing?
    ensures Reachable(r, Patching(w, w.pc.target, Unannotate(w.pc.arn)).(pc := Deleting(CHILD_ORDER, false)))
  {
    var c, done := w.pc.target, Deleting(CHILD_ORDER, false);
    CleanupReads(r, w);
    if c in w.remote && Edit(Unannotate(w.pc.arn), w.remote[c].meta).Some? {
      var erasing := w.(pc := Erasing(c, w.pc.arn, w.remote[c]));
      var m := Edit(Unannotate(w.pc.arn), w.remote[c].meta).value;
      assert Patching(w, c, Unannotate(w.pc.arn)).(pc := done) == Written(erasing, c, m).(pc := done);
      CleanupSends(r, erasing);
    } else {
      assert Patching(w, c, Unannotate(w.pc.arn)) == w;
    }
  }

  /** A cleanup that looked where the record points, and found or left no ARN there, leaves none anywhere. */
  lemma CleanedUp(r: Role, before: World, after: World)
    requires Reachable(r, before) && Reachable(r, after) && before.pc.Probing? && after.status == before.status
    requires before.pc.target in after.remote ==> !Carries(after.remote[before.pc.target].meta, before.pc.arn)
    ensures NoCarrier(r, after)
  {
    ReachableInv(r, before);
    ReachableInv(r, after);
    CarrierIsRecorded(r, after);
  }

  /** The cleanup's write outdates every repair that was granted before. */
  lemma WriteOutdatesRepairs(r: Role, w: World)
    requires Reachable(r, w) && w.pc.Probing?
    ensures var w' := Patching(w, w.pc.target, Unannotate(w.pc.arn)); w'.clock != w.clock ==> !InFlight(r, w')
  {
    ReachableInv(r, w);
  }

  /** A child of this UID that a finalizer of its own keeps on the API server. */
  predicate HeldBy(children: map<Kind, Child>, k: Kind, uid: string) {
    k in children && OwnedBy(children[k], uid) && children[k].held
  }

  /** The status says where the annotations are, or that there are none. */
  predicate Cleanable(r: Role, st: Status) {
    (UsesAnnotations(r.delivery) && Recorded(r, st)) || st.delivery == Some(EksPodIdentity)
  }

  predicate HeldAmong(children: map<Kind, Child>, n: nat, uid: string)
    requires n <= 3
  {
    n > 0 && (HeldAmong(children, n - 1, uid) || HeldBy(children, CHILD_ORDER[n - 1], uid))
  }

  lemma HeldAmongAll(children: map<Kind, Child>, uid: string)
    ensures HeldAmong(children, 3, uid) <==> exists k :: HeldBy(children, k, uid)
  {
    assert HeldAmong(children, 1, uid) <==> HeldBy(children, Association, uid);
    assert HeldAmong(children, 2, uid) <==> HeldBy(children, Association, uid) || HeldBy(children, IamRole, uid);
    assert HeldAmong(children, 3, uid) <==> HeldAmong(children, 2, uid) || HeldBy(children, IamPolicy, uid);
    if k :| HeldBy(children, k, uid) {
      assert k == Association || k == IamRole || k == IamPolicy;
    }
  }

  /** A complete record, or one that says no annotations were delivered, always gives a cleanup plan. */
  lemma RecordGivesPlan(r: Role, w: World, configGone: bool, profiles: seq<ClusterProfile>)
    requires WellFormed(r)
    requires Cleanable(r, w.status)
    ensures CleanupPlan(r, w, w.status, configGone, profiles).Some?
  {
    NameRoundTrip(NamespacedName(r.namespace, r.namespace));
  }

  /** The machine plans the cleanup from the status and the children, and the plan looks where the ARN is. */
  lemma PlanReaches(r: Role, w: World, configGone: bool, profiles: seq<ClusterProfile>)
    requires Reachable(r, w) && w.pc.Idle? && w.deleting && !w.gone
    ensures var plan := CleanupPlan(r, w, w.status, configGone, profiles);
            && Reachable(r, w.(pc := plan.Or(Idle)))
            && (plan.Some? ==> plan.value.Probing? || (plan.value == Deleting(CHILD_ORDER, false) && NoCarrier(r, w)))
            && (plan.Some? && plan.value.Probing? ==> plan.value.arn != "")
            && (plan.Some? && plan.value.Probing? && !NoCarrier(r, w) ==> plan.value == Probing(Home(r), r.arn))
            && (Cleanable(r, w.status) ==> plan.Some?)
  {
    var plan := CleanupPlan(r, w, w.status, configGone, profiles);
    var cleaning := w.(pc := Cleaning(w.status));
    NormalExtends(r, w, Begin, cleaning);
    assert CleanupPlan(r, cleaning, w.status, configGone, profiles) == plan;
    CleanupExtends(r, cleaning, PlanCleanup(configGone, profiles), w.(pc := plan.Or(Idle)));
    PlanLooksRight(r, w, configGone, profiles);
  }

  lemma PlanLooksRight(r: Role, w: World, configGone: bool, profiles: seq<ClusterProfile>)
    requires Reachable(r, w)
    ensures var plan := CleanupPlan(r, w, w.status, configGone, profiles);
            && (plan.Some? ==> plan.value.Probing? || (plan.value == Deleting(CHILD_ORDER, false) && NoCarrier(r, w)))
            && (plan.Some? && plan.value.Probing? ==> plan.value.arn != "")
            && (plan.Some? && plan.value.Probing? && !NoCarrier(r, w) ==> plan.value == Probing(Home(r), r.arn))
            && (Cleanable(r, w.status) ==> plan.Some?)
  {
    ReachableInv(r, w);
    PlanIsAimed(r, w, configGone, profiles);
    if Cleanable(r, w.status) {
      RecordGivesPlan(r, w, configGone, profiles);
    }
    if !(Recorded(r, w.status) && UsesAnnotations(r.delivery)) {
      CarrierIsRecorded(r, w);
    }
  }

  class Stores {
    const r: Role
    var status: Status
    var finalizer: bool
    var deleting: bool
    var gone: bool
    var children: map<Kind, Child>
    var remote: map<string, Versioned>
    var clock: nat
    ghost var repair: Repair

    ghost function View(pc: Pc): World reads this {
      World(status, finalizer, deleting, gone, children, remote, clock, pc, repair)
    }

    ghost predicate At(pc: Pc) reads this {
      Reachable(r, View(pc))
    }

    predicate CanApply(k: Kind) reads this {
      k in children ==> children[k].controller == "" || children[k].controller == r.uid
    }

    predicate Annotated(c: string) reads this {
      c in remote && Carries(remote[c].meta, r.arn)
    }

    /** createOrUpdate of an ACK child. */
    method ApplyChild(k: Kind, held: bool)
      requires CanApply(k)
      modifies this`children
      ensures children == Applied(r, old(View(Idle)), k, held)
    {
      if k in children {
        children := children[k := children[k].(controller := r.uid)];
      } else {
        children := children[k := Child(r.uid, "", held, false)];
      }
    }

    /** Delete on the API server. */
    method DeleteObject(k: Kind)
      requires k in children
      modifies this`children
      ensures children == Deleted(old(View(Idle)), k)
    {
      if children[k].held {
        children := children[k := children[k].(deleting := true)];
      } else {
        children := children - {k};
      }
    }

    /** reconcileGeneratedPolicy: applies the policy of the document, or removes the one it owns. */
    method ReconcileGeneratedPolicy(before: Status, mem: Status, document: bool, held: bool) returns (ok: bool)
      requires At(InputsResolved(before, mem))
      modifies this`children
      ensures At(if ok then PolicyApplied(before, mem) else InputsResolved(before, mem))
      ensures ok <==> !document || old(CanApply(IamPolicy))
      ensures document && ok ==> children == Applied(r, old(View(Idle)), IamPolicy, held)
      ensures !document && IamPolicy in old(children) && OwnedBy(old(children)[IamPolicy], r.uid) ==>
                children == Deleted(old(View(Idle)), IamPolicy)
      ensures !ok || (!document && !(IamPolicy in old(children) && OwnedBy(old(children)[IamPolicy], r.uid))) ==>
                children == old(children)
    {
      ghost var w := View(InputsResolved(before, mem));
      if document {
        if !CanApply(IamPolicy) { return false; }
        ApplyChild(IamPolicy, held);
      } else if IamPolicy in children && OwnedBy(children[IamPolicy], r.uid) {
        DeleteObject(IamPolicy);
      }
      ok := true;
      ApplyExtends(r, w, ApplyPolicy(document, held), View(PolicyApplied(before, mem)));
    }

    /** reconcileIAMRole: the ARN ACK has reported so far goes into the status copy. */
    method ReconcileIamRole(before: Status, mem: Status, held: bool) returns (ok: bool, mem': Status)
      requires At(PolicyApplied(before, mem))
      modifies this`children
      ensures At(if ok then RoleApplied(before, mem') else PolicyApplied(before, mem))
      ensures ok <==> old(CanApply(IamRole))
      ensures ok ==> IamRole in children && mem' == mem.(arn := children[IamRole].arn)
      ensures children == if ok then Applied(r, old(View(Idle)), IamRole, held) else old(children)
    {
      ghost var w := View(PolicyApplied(before, mem));
      if !CanApply(IamRole) { return false, mem; }
      ApplyChild(IamRole, held);
      ok, mem' := true, mem.(arn := children[IamRole].arn);
      ApplyExtends(r, w, ApplyRole(held), View(RoleApplied(before, mem')));
    }

    /** Reads the ServiceAccount of `target`, and commits the guarded patch an edit makes necessary. */
    method PatchTarget(target: string, client: Client, ghost before: Pc, ghost after: Pc)
      requires client.Annotate? || client.Unannotate?
      modifies this`remote, this`clock
      ensures View(after) == Patching(old(View(before)), target, client).(pc := after)
    {
      if target !in remote {
        return;
      }
      var edited;
      match client {
        case Annotate(arn) => edited := PlanAnnotate(remote[target].meta, arn);
        case Unannotate(arn) => edited := PlanUnannotate(remote[target].meta, arn);
      }
      if edited.Some? {
        clock := clock + 1;
        remote := remote[target := Versioned(clock, edited.value)];
      }
    }

    /** patchRemoteServiceAccountAnnotations: the target, if it exists, carries the ARN afterwards. */
    method PatchAnnotations(mem: Status)
      requires At(Delivering(mem)) && mem.arn == r.arn && r.arn != ""
      modifies this`remote, this`clock
      ensures At(Saving(mem)) && (mem.cluster in remote <==> mem.cluster in old(remote))
      ensures Annotated(mem.cluster) <==> mem.cluster in old(remote)
      ensures remote - {mem.cluster} == old(remote) - {mem.cluster}
    {
      ghost var w := View(Delivering(mem));
      DeliveryReaches(r, w);
      AnnotateCarries(w, mem.cluster, mem.arn);
      PatchTarget(mem.cluster, Annotate(mem.arn), Delivering(mem), Saving(mem));
    }

    /** reconcileAnnotationBasedIRSADelivery; the status that goes with the annotation is already persisted. */
    method DeliverAnnotations(mem: Status)
      requires At(Delivering(mem))
      modifies this`remote, this`clock
      ensures At(Saving(mem)) && Recorded(r, status)
      ensures Annotated(Home(r)) <==> Home(r) in old(remote)
      ensures DeliveredTo(old(remote))
    {
      DeliveringIsRecorded(r, View(Delivering(mem)));
      PatchAnnotations(mem);
    }

    method SaveStatusCopy(mem: Status)
      requires At(Saving(mem))
      modifies this`status
      ensures At(Idle) && status == mem
    {
      ghost var w := View(Saving(mem));
      status := mem;
      NormalExtends(r, w, SaveStatus, View(Idle));
    }

    method DeliverAndSave(mem: Status)
      requires At(Delivering(mem))
      modifies this`remote, this`clock, this`status
      ensures At(Idle) && status == mem && Recorded(r, old(status)) && DeliveredTo(old(remote))
    {
      DeliverAnnotations(mem);
      SaveStatusCopy(mem);
    }

    /** reconcilePodIdentityAssociation, or nothing while there is no ARN. */
    method AssociateAndSave(before: Status, mem: Status, held: bool)
      requires At(RoleApplied(before, mem)) && !(UsesAnnotations(r.delivery) && mem.arn != "")
      modifies this`children, this`status
      ensures At(Idle) && status == mem
      ensures children ==
              if !UsesAnnotations(r.delivery) && mem.arn != "" && old(CanApply(Association))
              then Applied(r, old(View(Idle)), Association, held) else old(children)
    {
      ghost var w := View(RoleApplied(before, mem));
      if !UsesAnnotations(r.delivery) && mem.arn != "" && CanApply(Association) {
        ApplyChild(Association, held);
      }
      NormalExtends(r, w, Decide(held), View(Saving(mem)));
      SaveStatusCopy(mem);
    }

    /**
     What follows reconcileIAMRole: persist first, or deliver and then persist.
     With the record already there the ServiceAccount is annotated; without it
     nothing remote is touched. A Pod Identity role gets its association.
     */
    method PersistOrDeliver(before: Status, mem: Status, held: bool)
      requires At(RoleApplied(before, mem))
      modifies this`children, this`remote, this`clock, this`status
      ensures At(Idle) && status == mem
      ensures UsesAnnotations(r.delivery) && mem.arn != "" ==> Recorded(r, status)
      ensures UsesAnnotations(r.delivery) && Recorded(r, old(status)) ==> DeliveredTo(old(remote))
      ensures !(UsesAnnotations(r.delivery) && Recorded(r, old(status))) ==> remote == old(remote)
      ensures children ==
              if !UsesAnnotations(r.delivery) && mem.arn != "" && old(CanApply(Association))
              then Applied(r, old(View(Idle)), Association, held) else old(children)
      ensures forall c :: Annotated(c) && !old(Annotated(c)) ==> Recorded(r, old(status))
    {
      ghost var w := View(RoleApplied(before, mem));
      AppliedIsRecorded(r, w);
      if ShouldPersistFirst(r, before, mem) {
        status := mem;
        NormalExtends(r, w, Decide(held), View(Idle));
      } else if UsesAnnotations(r.delivery) && mem.arn != "" {
        NormalExtends(r, w, Decide(held), View(Delivering(mem)));
        DeliverAndSave(mem);
      } else {
        AssociateAndSave(before, mem, held);
      }
    }

    /** The home ServiceAccount, if it was there, carries the ARN now, and no other one changed. */
    predicate DeliveredTo(before: map<string, Versioned>)
      reads this`remote
    {
      && (Home(r) in remote <==> Home(r) in before)
      && (Home(r) in remote ==> Carries(remote[Home(r)].meta, r.arn))
      && remote - {Home(r)} == before - {Home(r)}
    }

    /** The part of reconcileNormal after the inputs are resolved. */
    method ApplyAndDeliver(before: Status, mem: Status, document: bool, held: bool)
      requires At(InputsResolved(before, mem))
      modifies this`children, this`remote, this`clock, this`status
      ensures At(Idle)
      ensures forall c :: Annotated(c) && !old(Annotated(c)) ==> Recorded(r, old(status))
      ensures old(Appliable(document)) ==> Progresses(old(status), old(children), old(remote), document, held)
      ensures !old(Appliable(document)) ==> remote == old(remote)
    {
      var ok, mem' := ApplyChildren(before, mem, document, held);
      if ok {
        PersistOrDeliver(before, mem', held);
      }
    }

    /**
     The generated policy and the IAM Role; if either is held by another
     controller, the status is saved and that is all.
     */
    method ApplyChildren(before: Status, mem: Status, document: bool, held: bool) returns (ok: bool, mem': Status)
      requires At(InputsResolved(before, mem))
      modifies this`children, this`status
      ensures At(if ok then RoleApplied(before, mem') else Idle)
      ensures ok <==> old(Appliable(document))
      ensures ok ==> status == old(status) && HubApplied(old(children), document, held)
      ensures ok ==> mem'.arn == children[IamRole].arn
      ensures Association in children <==> Association in old(children)
      ensures Association in children ==> children[Association] == old(children)[Association]
    {
      mem' := mem;
      ok := ReconcileGeneratedPolicy(before, mem, document, held);
      if !ok {
        NormalExtends(r, View(InputsResolved(before, mem)), SaveEarly, View(Saving(mem)));
        SaveStatusCopy(mem);
        return;
      }
      ok, mem' := ReconcileIamRole(before, mem, held);
      if !ok {
        NormalExtends(r, View(PolicyApplied(before, mem)), SaveEarly, View(Saving(mem)));
        SaveStatusCopy(mem);
      }
    }

    /** The IAM Role, and the policy if there is a document, are there under this UID. */
    predicate HubApplied(was: map<Kind, Child>, document: bool, held: bool)
      reads this`children
    {
      && IamRole in children
      && children[IamRole] ==
           (if IamRole in was then was[IamRole].(controller := r.uid) else Child(r.uid, "", held, false))
      && (document ==> IamPolicy in children && children[IamPolicy].controller == r.uid)
    }

    /** No other controller holds the names of the children the pass applies. */
    predicate Appliable(document: bool) reads this {
      (document ==> CanApply(IamPolicy)) && CanApply(IamRole)
    }

    /**
     What a pass over resolved inputs and appliable children achieves: the
     children are there under this UID, the status has the ARN the IAM Role
     reports, and an annotation delivery with that record in place is done.
     */
    ghost predicate Progresses(st: Status, was: map<Kind, Child>, before: map<string, Versioned>,
                               document: bool, held: bool)
      reads this
    {
      && HubApplied(was, document, held)
      && status.arn == children[IamRole].arn
      && (UsesAnnotations(r.delivery) && status.arn != "" ==> Recorded(r, status))
      && (if UsesAnnotations(r.delivery) && Recorded(r, st) then DeliveredTo(before) else remote == before)
      && (!UsesAnnotations(r.delivery) && status.arn != "" && !(Association in was && was[Association].controller != ""
                                                                && was[Association].controller != r.uid) ==>
            Association in children && children[Association].controller == r.uid)
    }

    /**
     reconcileNormal. Whatever the pass newly annotates was recorded in the
     persisted status before the pass began. With the finalizer on, a ready
     inventory and appliable children it makes progress; otherwise it only adds
     the finalizer, or waits.
     */
    method ReconcileNormal(profiles: seq<ClusterProfile>, document: bool, held: bool)
      requires At(Idle) && !deleting && !gone
      modifies this
      ensures At(Idle) && finalizer && !deleting && !gone
      ensures forall c :: Annotated(c) && !old(Annotated(c)) ==> Recorded(r, old(status))
      ensures old(finalizer) && Resolve(profiles, r.namespace).ready && old(Appliable(document)) ==>
                Progresses(old(status), old(children), old(remote), document, held)
      ensures !old(finalizer) || !Resolve(profiles, r.namespace).ready ==>
                status == old(status) && children == old(children) && remote == old(remote)
      ensures !old(Appliable(document)) ==> remote == old(remote)
    {
      ghost var w := View(Idle);
      if !finalizer {
        finalizer := true;
        NormalExtends(r, w, Begin, View(Idle));
        return;
      }
      var before := status;
      NormalExtends(r, w, Begin, View(Started(before)));
      var cluster := ResolvedCluster(r, profiles);
      if cluster.None? {
        NormalExtends(r, View(Started(before)), ResolveInputs(profiles), View(Idle));
        return;
      }
      var mem := ResolvedStatus(r, before, cluster.value);
      NormalExtends(r, View(Started(before)), ResolveInputs(profiles), View(InputsResolved(before, mem)));
      ApplyAndDeliver(before, mem, document, held);
    }

    /**
     Two undisturbed passes deliver: once ACK has reported the ARN, the first
     persists the record if it is not there, and the second annotates the
     ServiceAccount.
     */
    method ReconcileTwice(profiles: seq<ClusterProfile>, document: bool, held: bool)
      requires At(Idle) && !deleting && !gone && finalizer && UsesAnnotations(r.delivery)
      requires Resolve(profiles, r.namespace).ready && Appliable(document)
      requires r.arn != "" && IamRole in children && children[IamRole].arn == r.arn
      modifies this
      ensures At(Idle) && Recorded(r, status)
      ensures Annotated(Home(r)) <==> Home(r) in old(remote)
    {
      ReconcileNormal(profiles, document, held);
      ReconcileNormal(profiles, document, held);
    }

    // ---------------------------------------------------------------- deletion

    /** removeRemoteServiceAccountAnnotations: the target's managed annotations go exactly when they carry the ARN. */
    method RemoveAnnotations(target: string, arn: string) returns (erased: bool)
      requires At(Probing(target, arn)) && arn != ""
      modifies this`remote, this`clock
      ensures At(Deleting(CHILD_ORDER, false))
      ensures erased <==> target in old(remote) && Carries(old(remote)[target].meta, arn)
      ensures target in remote ==> !Carries(remote[target].meta, arn)
      ensures remote - {target} == old(remote) - {target} && (target in remote <==> target in old(remote))
      ensures !erased ==> remote == old(remote) && clock == old(clock)
      ensures erased ==> !InFlight(r, View(Deleting(CHILD_ORDER, false)))
    {
      ghost var w := View(Probing(target, arn));
      ErasureReaches(r, w);
      WriteOutdatesRepairs(r, w);
      UnannotateErases(w, target, arn);
      erased := target in remote && Carries(remote[target].meta, arn);
      PatchTarget(target, Unannotate(arn), Probing(target, arn), Deleting(CHILD_ORDER, false));
    }

    /** deleteRoleChildIfOwned. */
    method DeleteRoleChildIfOwned(k: Kind, ghost rest: seq<Kind>, ghost blocked: bool) returns (stillPresent: bool)
      requires At(Deleting([k] + rest, blocked))
      modifies this`children
      ensures At(Deleting(rest, blocked || stillPresent))
      ensures stillPresent <==> k in children && OwnedBy(children[k], r.uid)
      ensures children ==
              if k in old(children) && OwnedBy(old(children)[k], r.uid) then Deleted(old(View(Idle)), k)
              else old(children)
    {
      ghost var w := View(Deleting([k] + rest, blocked));
      assert ([k] + rest)[0] == k && ([k] + rest)[1..] == rest;
      if k !in children || !OwnedBy(children[k], r.uid) {
        TeardownExtends(r, w, DeleteChild, View(Deleting(rest, blocked)));
        return false;
      }
      DeleteObject(k);
      TeardownExtends(r, w, DeleteChild, View(Rechecking(k, rest, blocked)));
      stillPresent := k in children;
      TeardownExtends(r, View(Rechecking(k, rest, blocked)), RecheckChild,
                      View(Deleting(rest, blocked || stillPresent)));
    }

    /** The loop of reconcileDelete over the generated children. */
    method DeleteChildren() returns (blocked: bool)
      requires At(Deleting(CHILD_ORDER, false))
      modifies this`children
      ensures At(Deleting([], blocked))
      ensures blocked <==> exists k :: HeldBy(old(children), k, r.uid)
      ensures forall j :: j in old(children) && !OwnedBy(old(children)[j], r.uid) ==>
                j in children && children[j] == old(children)[j]
    {
      blocked := false;
      assert CHILD_ORDER[0..] == CHILD_ORDER;
      for i := 0 to |CHILD_ORDER|
        invariant At(Deleting(CHILD_ORDER[i..], blocked))
        invariant blocked <==> HeldAmong(old(children), i, r.uid)
        invariant forall j :: i <= j < 3 ==>
                    HeldBy(children, CHILD_ORDER[j], r.uid) == HeldBy(old(children), CHILD_ORDER[j], r.uid)
        invariant forall j :: j in old(children) && !OwnedBy(old(children)[j], r.uid) ==>
                    j in children && children[j] == old(children)[j]
      {
        assert CHILD_ORDER[i..] == [CHILD_ORDER[i]] + CHILD_ORDER[i + 1..];
        var stillPresent := DeleteRoleChildIfOwned(CHILD_ORDER[i], CHILD_ORDER[i + 1..], blocked);
        blocked := blocked || stillPresent;
      }
      assert CHILD_ORDER[|CHILD_ORDER|..] == [];
      HeldAmongAll(old(children), r.uid);
    }

    /**
     reconcileDelete, with the repair controller running: the finalizer goes
     only when no ServiceAccount carries the ARN and no child is controlled by
     this role; children of others stay as they were. No later state carries
     the ARN if and only if no repair is in flight, and none is if the
     ServiceAccount carried the ARN when the pass began.
     */
    method ReconcileDelete(configGone: bool, profiles: seq<ClusterProfile>, last: bool)
      requires At(Idle) && deleting && !gone && finalizer
      modifies this
      ensures At(Idle)
      ensures !finalizer ==> NoCarrier(r, View(Idle)) && forall k :: k in children ==> children[k].controller != r.uid
      ensures !finalizer ==> CleanForever(r, View(Idle)) == !InFlight(r, View(Idle))
      ensures !finalizer && old(Annotated(Home(r))) ==> CleanForever(r, View(Idle))
      ensures Cleanable(r, old(status)) ==>
                (!finalizer <==> forall k :: !HeldBy(old(children), k, r.uid))
      ensures !finalizer ==> gone == last
      ensures forall j :: j in old(children) && !OwnedBy(old(children)[j], r.uid) ==>
                j in children && children[j] == old(children)[j]
    {
      var planned := CleanupRemote(configGone, profiles);
      if !planned {
        return;
      }
      var blocked := DeleteChildren();
      ghost var w := View(Deleting([], blocked));
      if blocked {
        TeardownExtends(r, w, FinishChildren, View(Idle));
        return;
      }
      TeardownExtends(r, w, FinishChildren, View(Unblocked));
      RemoveRoleFinalizer(last);
    }

    /** removeFinalizer at the end of reconcileDelete. */
    method RemoveRoleFinalizer(last: bool)
      requires At(Unblocked) && NoCarrier(r, View(Unblocked))
      modifies this`finalizer, this`gone
      ensures At(Idle) && !finalizer && gone == last && NoCarrier(r, View(Idle))
      ensures forall k :: k in children ==> children[k].controller != r.uid
      ensures CleanForever(r, View(Idle)) == !InFlight(r, View(Idle))
    {
      ghost var w := View(Unblocked);
      ReachableInv(r, w);
      finalizer, gone := false, last;
      TeardownExtends(r, w, RemoveFinalizer(last), View(Idle));
      FinalizationCompleteIff(r, View(Idle));
    }

    /**
     cleanupRemoteServiceAccountAnnotations up to the remote read: where the
     ARN is, the plan is to look for it; without a place to look, it is nowhere.
     */
    method PlanRemoteCleanup(configGone: bool, profiles: seq<ClusterProfile>) returns (plan: Option<Pc>)
      requires At(Idle) && deleting && !gone
      ensures At(plan.Or(Idle))
      ensures plan.Some? ==>
                plan.value.Probing? || (plan.value == Deleting(CHILD_ORDER, false) && NoCarrier(r, View(Idle)))
      ensures plan.Some? && plan.value.Probing? ==>
                plan.value.arn != "" && (Annotated(Home(r)) ==> plan.value == Probing(Home(r), r.arn))
      ensures Cleanable(r, status) ==> plan.Some?
    {
      var read := World(status, finalizer, deleting, gone, children, map[], clock, Idle, Resting);
      PlanReaches(r, View(Idle), configGone, profiles);
      plan := CleanupPlan(r, read, status, configGone, profiles);
      assert plan == CleanupPlan(r, View(Idle), status, configGone, profiles);
    }

    /**
     cleanupRemoteServiceAccountAnnotations: on success nothing carries the
     ARN, and if it was on the ServiceAccount no granted repair can put it back;
     on failure nothing was written.
     */
    method CleanupRemote(configGone: bool, profiles: seq<ClusterProfile>) returns (ok: bool)
      requires At(Idle) && deleting && !gone
      modifies this`remote, this`clock
      ensures At(if ok then Deleting(CHILD_ORDER, false) else Idle)
      ensures ok ==> NoCarrier(r, View(Idle))
      ensures ok && old(Annotated(Home(r))) ==>
                !InFlight(r, View(Idle)) && remote - {Home(r)} == old(remote) - {Home(r)}
      ensures !ok ==> remote == old(remote)
      ensures Cleanable(r, status) ==> ok
    {
      var plan := PlanRemoteCleanup(configGone, profiles);
      ok := plan.Some?;
      if ok && plan.value.Probing? {
        ghost var w := View(plan.value);
        var erased := RemoveAnnotations(plan.value.target, plan.value.arn);
        CleanedUp(r, w, View(Deleting(CHILD_ORDER, false)));
      }
    }
  }
}
