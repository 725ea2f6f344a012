/**
 The apply and delete passes of the webhook runtime as sequential code over a
 workload cluster's objects. Every call they make is one step of the machine in
 WebhookRuntime, so what holds of its reachable states holds of these passes.
 */
module WebhookPass {
  import opened Options
  import opened RequeueSchedule
  import opened WebhookRuntime

  const DEFAULT_NAMESPACE := "aws-pod-identity-webhook"

  lemma Extends(w: World, step: Step, w': World)
    requires Reachable(w) && Next(w, step) == Some(w')
    ensures Reachable(w')
  {
    var steps :| Reaches(steps, w);
    var longer := steps + [step];
    assert longer[..|longer| - 1] == steps;
    assert Reaches(longer, w');
  }

  /** The machine finishes or abandons a pass by resting. */
  lemma CutsOff(w: World)
    requires Reachable(w)
    ensures Reachable(w.(pc := Resting))
  {
    assert Next(w, CutOff) == Some(w.(pc := Resting));
    Extends(w, CutOff, w.(pc := Resting));
  }

  /** An object is written only if it is absent or managed. */
  predicate Writable(objects: map<Ref, Obj>, ref: Ref) {
    ref in objects ==> objects[ref].managed
  }

  ghost predicate Spares(before: map<Ref, Obj>, after: map<Ref, Obj>) {
    forall ref :: ref in before && !before[ref].managed ==> ref in after && after[ref] == before[ref]
  }

  function Listed(kinds: seq<Kind>): set<Kind> {
    set k <- kinds
  }

  const SUPPORT_TABLE := [ServiceAccount, ClusterRole, ClusterRoleBinding, Service]

  /** The objects once the listed kinds have been applied. */
  function Supported(objects: map<Ref, Obj>, ns: string, kinds: seq<Kind>): map<Ref, Obj> {
    if kinds == [] then objects
    else Supported(objects, ns, kinds[..|kinds| - 1])[At(kinds[|kinds| - 1], ns) := Obj(true, Plain)]
  }

  /** Applied kinds are present and managed, everything else is as it was. */
  lemma {:induction false} SupportedIs(objects: map<Ref, Obj>, ns: string, kinds: seq<Kind>, k: Kind)
    ensures var after := Supported(objects, ns, kinds);
            if k in kinds then At(k, ns) in after && after[At(k, ns)] == Obj(true, Plain)
            else
              && (At(k, ns) in after <==> At(k, ns) in objects)
              && (At(k, ns) in objects ==> after[At(k, ns)] == objects[At(k, ns)])
  {
    if kinds != [] {
      var front, last := kinds[..|kinds| - 1], kinds[|kinds| - 1];
      assert kinds == front + [last];
      SupportedIs(objects, ns, front, k);
    }
  }

  lemma AllSupported(objects: map<Ref, Obj>, ns: string)
    ensures var after := Supported(objects, ns, SUPPORT_TABLE);
            forall k :: k in SUPPORT ==> At(k, ns) in after && after[At(k, ns)].managed
  {
    forall k | k in SUPPORT
      ensures var after := Supported(objects, ns, SUPPORT_TABLE); At(k, ns) in after && after[At(k, ns)].managed
    {
      SupportedIs(objects, ns, SUPPORT_TABLE, k);
    }
  }

  /** The table lists the supporting kinds, each once. */
  lemma SupportTable(i: nat)
    requires i < 4
    ensures SUPPORT_TABLE[i] in SUPPORT && SUPPORT_TABLE[i] !in Listed(SUPPORT_TABLE[..i])
    ensures Listed(SUPPORT_TABLE[..i + 1]) == Listed(SUPPORT_TABLE[..i]) + {SUPPORT_TABLE[i]}
    ensures Listed(SUPPORT_TABLE[..i + 1]) == SUPPORT <==> i == 3
  {
    assert SUPPORT_TABLE[..i + 1] == SUPPORT_TABLE[..i] + [SUPPORT_TABLE[i]];
    if i == 3 {
      assert SUPPORT_TABLE[0] in SUPPORT_TABLE[..4] && SUPPORT_TABLE[1] in SUPPORT_TABLE[..4];
      assert SUPPORT_TABLE[2] in SUPPORT_TABLE[..4] && SUPPORT_TABLE[3] in SUPPORT_TABLE[..4];
    } else {
      assert Service !in Listed(SUPPORT_TABLE[..i + 1]);
    }
  }

  // ---------------------------------------------------------- what a pass settles

  /** The CA Secret is managed and holds a CA with thirty days left. */
  predicate GoodCa(objects: map<Ref, Obj>, ns: string, now: int) {
    && At(CaSecret, ns) in objects && objects[At(CaSecret, ns)].managed && objects[At(CaSecret, ns)].body.CaPair?
    && var ca := objects[At(CaSecret, ns)].body.ca; ca.isCa && now + 30 * DAY <= ca.notAfter
  }

  /** The serving Secret is managed and holds a certificate by `ca` for the Service, its key, and thirty days. */
  predicate GoodServing(objects: map<Ref, Obj>, ns: string, ca: Cert, now: int) {
    && At(ServingSecret, ns) in objects && objects[At(ServingSecret, ns)].managed
    && objects[At(ServingSecret, ns)].body.ServingPair? && objects[At(ServingSecret, ns)].body.keyMatches
    && var leaf := objects[At(ServingSecret, ns)].body.leaf;
       && now + 30 * DAY <= leaf.notAfter && leaf.signer == ca.key && ca.isCa && now <= ca.notAfter
       && leaf.serverAuth && "pod-identity-webhook." + ns + ".svc" in leaf.dns
  }

  /** A newly issued serving certificate: a year, the Service's four names, for server authentication. */
  function Issued(key: nat, signer: nat, ns: string, now: int): Body {
    var service := "pod-identity-webhook." + ns;
    ServingPair(Cert(key, signer, false, true,
                     {"pod-identity-webhook", service, service + ".svc", service + ".svc.cluster.local"},
                     now + 365 * DAY), true)
  }

  lemma IssuedIsNew(key: nat, signer: nat, ns: string, now: int)
    ensures Issued(key, signer, ns, now) == NewServing(key, signer, ns, now)
  {
    assert ".svc" + ".cluster.local" == ".svc.cluster.local";
    assert CommonName(ns) + ".cluster.local" == "pod-identity-webhook." + ns + (".svc" + ".cluster.local");
  }

  /** Both Secrets are good. */
  predicate CertsSettled(objects: map<Ref, Obj>, ns: string, now: int) {
    GoodCa(objects, ns, now) && GoodServing(objects, ns, objects[At(CaSecret, ns)].body.ca, now)
  }

  predicate Holds(objects: map<Ref, Obj>, ns: string, ca: Cert, leaf: Cert) {
    && At(CaSecret, ns) in objects && objects[At(CaSecret, ns)].body.CaPair?
    && objects[At(CaSecret, ns)].body.ca == ca
    && At(ServingSecret, ns) in objects && objects[At(ServingSecret, ns)].body.ServingPair?
    && objects[At(ServingSecret, ns)].body.leaf == leaf
  }

  /** The supporting objects are applied. */
  predicate SupportSettled(objects: map<Ref, Obj>, ns: string) {
    forall k :: k in SUPPORT ==> At(k, ns) in objects && objects[At(k, ns)] == Obj(true, Plain)
  }

  /** The Deployment's template carries the certificate, and the admission is installed unless it has to wait. */
  predicate RolloutSettled(objects: map<Ref, Obj>, ns: string, ca: Cert, leaf: Cert) {
    && At(Deployment, ns) in objects && objects[At(Deployment, ns)].managed
    && objects[At(Deployment, ns)].body.Pods? && objects[At(Deployment, ns)].body.fingerprint == Some(leaf)
    && if At(Admission, "") in objects then objects[At(Admission, "")] == Obj(true, Hook(ns, ca))
       else !RolledOut(objects[At(Deployment, ns)].body.rollout)
  }

  /** Nothing is left for a pass to do. */
  predicate Settled(objects: map<Ref, Obj>, ns: string, now: int) {
    && CertsSettled(objects, ns, now) && SupportSettled(objects, ns)
    && RolloutSettled(objects, ns, objects[At(CaSecret, ns)].body.ca, objects[At(ServingSecret, ns)].body.leaf)
  }

  /** The two maps agree on the objects of these kinds. */
  ghost predicate Agree(before: map<Ref, Obj>, after: map<Ref, Obj>, ns: string, kinds: set<Kind>) {
    forall k :: k in kinds ==>
      && (At(k, ns) in after <==> At(k, ns) in before)
      && (At(k, ns) in before ==> after[At(k, ns)] == before[At(k, ns)])
  }

  /** Writing one object leaves those of other kinds alone. */
  lemma WriteAgrees(objects: map<Ref, Obj>, ns: string, k: Kind, obj: Obj, kinds: set<Kind>)
    requires k !in kinds
    ensures Agree(objects, objects[At(k, ns) := obj], ns, kinds)
  {
  }

  lemma AgreeTransitive(a: map<Ref, Obj>, b: map<Ref, Obj>, c: map<Ref, Obj>, ns: string, kinds: set<Kind>)
    requires Agree(a, b, ns, kinds) && Agree(b, c, ns, kinds)
    ensures Agree(a, c, ns, kinds)
  {
  }

  lemma SparesTransitive(a: map<Ref, Obj>, b: map<Ref, Obj>, c: map<Ref, Obj>)
    requires Spares(a, b) && Spares(b, c)
    ensures Spares(a, c)
  {
  }

  const OUTSIDE_SUPPORT := {CaSecret, ServingSecret, Deployment, Admission}

  lemma SupportedElsewhere(objects: map<Ref, Obj>, ns: string)
    ensures Agree(objects, Supported(objects, ns, SUPPORT_TABLE), ns, OUTSIDE_SUPPORT)
    ensures SupportSettled(Supported(objects, ns, SUPPORT_TABLE), ns)
    ensures SupportSettled(objects, ns) ==> Supported(objects, ns, SUPPORT_TABLE) == objects
  {
    forall k | k in OUTSIDE_SUPPORT ensures k !in SUPPORT_TABLE {
    }
    forall k: Kind {
      SupportedIs(objects, ns, SUPPORT_TABLE, k);
    }
    forall k | k in SUPPORT ensures k in SUPPORT_TABLE {
      assert SUPPORT_TABLE[0] in SUPPORT_TABLE && SUPPORT_TABLE[1] in SUPPORT_TABLE;
      assert SUPPORT_TABLE[2] in SUPPORT_TABLE && SUPPORT_TABLE[3] in SUPPORT_TABLE;
    }
    if SupportSettled(objects, ns) {
      SupportedAgain(objects, ns, SUPPORT_TABLE);
    }
  }

  /** Applying supporting objects that are already there changes nothing. */
  lemma {:induction false} SupportedAgain(objects: map<Ref, Obj>, ns: string, kinds: seq<Kind>)
    requires forall k :: k in kinds ==> At(k, ns) in objects && objects[At(k, ns)] == Obj(true, Plain)
    ensures Supported(objects, ns, kinds) == objects
  {
    if kinds != [] {
      assert kinds[|kinds| - 1] in kinds;
      SupportedAgain(objects, ns, kinds[..|kinds| - 1]);
    }
  }

  /** What the two certificate steps come to together. */
  lemma CertsAfter(before: map<Ref, Obj>, between: map<Ref, Obj>, after: map<Ref, Obj>,
                   ns: string, now: int, ca: Cert, caKey: nat, leaf: Option<Cert>)
    requires GoodCa(between, ns, now) && between[At(CaSecret, ns)].body == CaPair(ca, caKey)
    requires between == before[At(CaSecret, ns) := between[At(CaSecret, ns)]]
    requires GoodCa(before, ns, now) ==> between == before
    requires Spares(before, between) && Spares(between, after)
    requires after == between ||
             (At(ServingSecret, ns) in after && after == between[At(ServingSecret, ns) := after[At(ServingSecret, ns)]])
    requires GoodServing(between, ns, ca, now) ==> after == between && leaf.Some?
    requires leaf.Some? ==> GoodServing(after, ns, ca, now) && after[At(ServingSecret, ns)].body.leaf == leaf.value
    ensures leaf.Some? ==> CertsSettled(after, ns, now) && Holds(after, ns, ca, leaf.value)
    ensures CertsSettled(before, ns, now) ==> after == before && leaf.Some?
    ensures Agree(before, after, ns, SUPPORT + {Deployment, Admission}) && Spares(before, after)
  {
    var others := SUPPORT + {Deployment, Admission};
    WriteAgrees(before, ns, CaSecret, between[At(CaSecret, ns)], others);
    if after != between {
      WriteAgrees(between, ns, ServingSecret, after[At(ServingSecret, ns)], others);
    }
    AgreeTransitive(before, between, after, ns, others);
    SparesTransitive(before, between, after);
  }

  /** What the Deployment step and the admission step come to together. */
  lemma RolloutAfter(before: map<Ref, Obj>, between: map<Ref, Obj>, after: map<Ref, Obj>,
                     ns: string, ca: Cert, leaf: Cert, rollout: Rollout, ready: Option<bool>)
    requires between == before[At(Deployment, ns) := Obj(true, Pods(Some(leaf), rollout))]
    requires Writable(before, At(Deployment, ns))
    requires At(Deployment, ns) in before && before[At(Deployment, ns)].body.Pods?
             && before[At(Deployment, ns)].body.fingerprint == Some(leaf) ==>
               before[At(Deployment, ns)].body.rollout == rollout
    requires if !RolledOut(rollout) && At(Admission, "") !in between then ready == Some(false) && after == between
             else if Writable(between, At(Admission, ""))
             then ready == Some(RolledOut(rollout)) && after == between[At(Admission, "") := Obj(true, Hook(ns, ca))]
             else ready == None && after == between
    ensures ready.Some? ==> RolloutSettled(after, ns, ca, leaf)
    ensures RolloutSettled(before, ns, ca, leaf) ==>
              after == before && ready == Some(RolledOut(after[At(Deployment, ns)].body.rollout))
    ensures Agree(before, after, ns, SUPPORT + {CaSecret, ServingSecret}) && Spares(before, after)
  {
  }

  class RemoteCluster {
    var objects: map<Ref, Obj>
    var nextKey: nat
    ghost var checked: map<string, int>
    const now: int

    ghost function View(pc: Pc): World reads this {
      World(objects, now, nextKey, checked, pc)
    }

    /** Objects the operator does not manage are left alone. */
    twostate predicate SparesUnmanaged() reads this {
      Spares(old(objects), objects)
    }

    predicate MayWrite(ref: Ref) reads this {
      Writable(objects, ref)
    }

    /** The API call of ensureRemoteCASecret: exactly the machine's step. */
    method WriteCaSecret(ns: string) returns (r: Option<(Cert, nat)>)
      modifies this
      ensures Certify(old(View(EnsureCa(ns))), ApplyCa) ==
              Some(View(if r.Some? then EnsureServing(ns, r.value.0, r.value.1) else Resting))
      ensures r.Some? <==> old(MayWrite(At(CaSecret, ns)))
      ensures old(GoodCa(objects, ns, now)) ==>
                && objects == old(objects) && r.Some?
                && CaPair(r.value.0, r.value.1) == old(objects)[At(CaSecret, ns)].body
      ensures !old(GoodCa(objects, ns, now)) && r.Some? ==>
                var made := Cert(old(nextKey), old(nextKey), true, false, {}, now + 3650 * DAY);
                && r == Some((made, old(nextKey)))
                && objects == old(objects)[At(CaSecret, ns) := Obj(true, CaPair(made, old(nextKey)))]
      ensures r.None? ==> objects == old(objects)
      ensures r.Some? ==> GoodCa(objects, ns, now) && objects[At(CaSecret, ns)].body == CaPair(r.value.0, r.value.1)
      ensures SparesUnmanaged()
    {
      var ref := At(CaSecret, ns);
      if !MayWrite(ref) {
        return None;
      }
      var body := if ref in objects then objects[ref].body else Plain;
      if !ReusableCa(body, now) {
        body := NewCa(nextKey, now);
      }
      objects, nextKey := objects[ref := Obj(true, body)], nextKey + 1;
      r := Some((body.ca, body.caKey));
    }

    /** ensureRemoteCASecret. */
    method EnsureCaSecret(ns: string) returns (r: Option<(Cert, nat)>)
      requires Reachable(View(EnsureCa(ns)))
      modifies this
      ensures Reachable(View(if r.Some? then EnsureServing(ns, r.value.0, r.value.1) else Resting))
      ensures r.Some? <==> old(MayWrite(At(CaSecret, ns)))
      ensures old(GoodCa(objects, ns, now)) ==>
                && objects == old(objects) && r.Some?
                && CaPair(r.value.0, r.value.1) == old(objects)[At(CaSecret, ns)].body
      ensures !old(GoodCa(objects, ns, now)) && r.Some? ==>
                var made := Cert(old(nextKey), old(nextKey), true, false, {}, now + 3650 * DAY);
                && r == Some((made, old(nextKey)))
                && objects == old(objects)[At(CaSecret, ns) := Obj(true, CaPair(made, old(nextKey)))]
      ensures r.None? ==> objects == old(objects)
      ensures r.Some? ==> GoodCa(objects, ns, now) && objects[At(CaSecret, ns)].body == CaPair(r.value.0, r.value.1)
      ensures SparesUnmanaged()
    {
      ghost var before := View(EnsureCa(ns));
      r := WriteCaSecret(ns);
      Extends(before, ApplyCa, View(if r.Some? then EnsureServing(ns, r.value.0, r.value.1) else Resting));
    }

    /** The mutate function of ensureRemoteServingTLSSecret and the check after it. */
    method WriteServingSecret(ns: string, ca: Cert, caKey: nat) returns (leaf: Option<Cert>)
      modifies this
      ensures Certify(old(View(EnsureServing(ns, ca, caKey))), ApplyServing) ==
              Some(View(if leaf.Some? then EnsureSupport(ns, ca, leaf.value, {}) else Resting))
      ensures leaf.Some? ==> Verifies(leaf.value, ca, ns, now) && FreshEnough(leaf.value, now)
      ensures old(GoodServing(objects, ns, ca, now)) ==>
                objects == old(objects) && leaf == Some(old(objects)[At(ServingSecret, ns)].body.leaf)
      ensures !old(GoodServing(objects, ns, ca, now)) && old(MayWrite(At(ServingSecret, ns))) ==>
                objects == old(objects)[At(ServingSecret, ns) := Obj(true, Issued(old(nextKey), caKey, ns, now))]
      ensures !old(MayWrite(At(ServingSecret, ns))) ==> objects == old(objects) && leaf == None
      ensures leaf.Some? ==> GoodServing(objects, ns, ca, now) && objects[At(ServingSecret, ns)].body.leaf == leaf.value
      ensures SparesUnmanaged()
    {
      var ref := At(ServingSecret, ns);
      if !MayWrite(ref) {
        return None;
      }
      var body := if ref in objects then objects[ref].body else Plain;
      if !ReusableServing(body, ns, ca, now) {
        body := NewServing(nextKey, caKey, ns, now);
        IssuedIsNew(nextKey, caKey, ns, now);
      }
      objects, nextKey := objects[ref := Obj(true, body)], nextKey + 1;
      if ReusableServing(body, ns, ca, now) {
        checked := checked[ns := now];
        leaf := Some(body.leaf);
      } else {
        checked := checked - {ns};
        leaf := None;
      }
    }

    /** ensureRemoteServingTLSSecret. */
    method EnsureServingSecret(ns: string, ca: Cert, caKey: nat) returns (leaf: Option<Cert>)
      requires Reachable(View(EnsureServing(ns, ca, caKey)))
      modifies this
      ensures Reachable(View(if leaf.Some? then EnsureSupport(ns, ca, leaf.value, {}) else Resting))
      ensures leaf.Some? ==> Verifies(leaf.value, ca, ns, now) && FreshEnough(leaf.value, now)
      ensures old(GoodServing(objects, ns, ca, now)) ==>
                objects == old(objects) && leaf == Some(old(objects)[At(ServingSecret, ns)].body.leaf)
      ensures !old(GoodServing(objects, ns, ca, now)) && old(MayWrite(At(ServingSecret, ns))) ==>
                objects == old(objects)[At(ServingSecret, ns) := Obj(true, Issued(old(nextKey), caKey, ns, now))]
      ensures !old(MayWrite(At(ServingSecret, ns))) ==> objects == old(objects) && leaf == None
      ensures leaf.Some? ==> GoodServing(objects, ns, ca, now) && objects[At(ServingSecret, ns)].body.leaf == leaf.value
      ensures SparesUnmanaged()
    {
      ghost var before := View(EnsureServing(ns, ca, caKey));
      leaf := WriteServingSecret(ns, ca, caKey);
      Extends(before, ApplyServing, View(if leaf.Some? then EnsureSupport(ns, ca, leaf.value, {}) else Resting));
    }

    /** applyRemoteSupportingResources. */
    method EnsureSupporting(ns: string, ca: Cert, leaf: Cert) returns (ok: bool)
      requires Reachable(View(EnsureSupport(ns, ca, leaf, {})))
      modifies this
      ensures Reachable(View(if ok then EnsureDeployment(ns, ca, leaf) else Resting))
      ensures ok <==> forall i :: 0 <= i < 4 ==> Writable(old(objects), At(SUPPORT_TABLE[i], ns))
      ensures ok ==> objects == Supported(old(objects), ns, SUPPORT_TABLE)
      ensures ok ==> forall k :: k in SUPPORT ==> At(k, ns) in objects && objects[At(k, ns)].managed
      ensures SparesUnmanaged()
    {
      assert Listed(SUPPORT_TABLE[..0]) == {};
      var i := 0;
      while i < 4
        invariant 0 <= i <= 4 && SupportedUpTo(old(objects), ns, ca, leaf, i)
      {
        ok := EnsureNext(ns, ca, leaf, i, old(objects));
        if !ok {
          return;
        }
        i := i + 1;
      }
      assert SUPPORT_TABLE[..4] == SUPPORT_TABLE;
      ok := true;
      AllSupported(old(objects), ns);
    }

    /** The first i kinds of the table are applied over `start`. */
    ghost predicate SupportedUpTo(start: map<Ref, Obj>, ns: string, ca: Cert, leaf: Cert, i: nat)
      reads this
      requires i <= 4
    {
      && objects == Supported(start, ns, SUPPORT_TABLE[..i]) && Spares(start, objects)
      && Reachable(View(if i == 4 then EnsureDeployment(ns, ca, leaf)
                        else EnsureSupport(ns, ca, leaf, Listed(SUPPORT_TABLE[..i]))))
      && forall j :: 0 <= j < i ==> Writable(start, At(SUPPORT_TABLE[j], ns))
    }

    method EnsureNext(ns: string, ca: Cert, leaf: Cert, i: nat, ghost start: map<Ref, Obj>) returns (ok: bool)
      requires i < 4 && SupportedUpTo(start, ns, ca, leaf, i)
      modifies this
      ensures ok <==> Writable(start, At(SUPPORT_TABLE[i], ns))
      ensures ok ==> SupportedUpTo(start, ns, ca, leaf, i + 1)
      ensures !ok ==> Reachable(View(Resting)) && Spares(start, objects)
    {
      SupportTable(i);
      SupportedIs(start, ns, SUPPORT_TABLE[..i], SUPPORT_TABLE[i]);
      assert SUPPORT_TABLE[..i + 1][..i] == SUPPORT_TABLE[..i];
      ok := EnsurePlain(ns, ca, leaf, SUPPORT_TABLE[i], Listed(SUPPORT_TABLE[..i]));
    }

    method EnsurePlain(ns: string, ca: Cert, leaf: Cert, kind: Kind, ghost done: set<Kind>) returns (ok: bool)
      requires kind in SUPPORT && kind !in done && Reachable(View(EnsureSupport(ns, ca, leaf, done)))
      modifies this
      ensures ok <==> old(MayWrite(At(kind, ns)))
      ensures objects == if ok then old(objects)[At(kind, ns) := Obj(true, Plain)] else old(objects)
      ensures Reachable(View(if !ok then Resting
                             else if done + {kind} == SUPPORT then EnsureDeployment(ns, ca, leaf)
                             else EnsureSupport(ns, ca, leaf, done + {kind})))
      ensures SparesUnmanaged()
    {
      var ref := At(kind, ns);
      ghost var before := View(EnsureSupport(ns, ca, leaf, done));
      ok := MayWrite(ref);
      if ok {
        objects := objects[ref := Obj(true, Plain)];
      }
      ghost var after := View(if !ok then Resting
                              else if done + {kind} == SUPPORT then EnsureDeployment(ns, ca, leaf)
                              else EnsureSupport(ns, ca, leaf, done + {kind}));
      Extends(before, ApplySupport(kind), after);
    }

    /** The API call of ensureRemoteDeployment: exactly the machine's step. */
    method WriteDeployment(ns: string, ca: Cert, leaf: Cert) returns (rollout: Option<Rollout>)
      modifies this
      ensures Install(old(View(EnsureDeployment(ns, ca, leaf))), ApplyDeployment) ==
              Some(View(if rollout.Some? then EnsureAdmission(ns, ca, leaf, rollout.value) else Resting))
      ensures rollout.Some? <==> old(MayWrite(At(Deployment, ns)))
      ensures rollout.Some? ==>
                objects == old(objects)[At(Deployment, ns) := Obj(true, Pods(Some(leaf), rollout.value))]
      ensures rollout.None? ==> objects == old(objects)
      ensures rollout.Some? && At(Deployment, ns) in old(objects) && old(objects)[At(Deployment, ns)].body.Pods? ==>
                var was := old(objects)[At(Deployment, ns)].body;
                rollout.value ==
                was.rollout.(generation := was.rollout.generation + if was.fingerprint == Some(leaf) then 0 else 1)
      ensures SparesUnmanaged()
    {
      var ref := At(Deployment, ns);
      if !MayWrite(ref) {
        return None;
      }
      var body := Updated(if ref in objects then objects[ref].body else Plain, leaf);
      objects := objects[ref := Obj(true, body)];
      rollout := Some(body.rollout);
    }

    /** ensureRemoteDeployment, returning the status the update answered with. */
    method EnsureDeploymentObject(ns: string, ca: Cert, leaf: Cert) returns (rollout: Option<Rollout>)
      requires Reachable(View(EnsureDeployment(ns, ca, leaf)))
      modifies this
      ensures Reachable(View(if rollout.Some? then EnsureAdmission(ns, ca, leaf, rollout.value) else Resting))
      ensures rollout.Some? <==> old(MayWrite(At(Deployment, ns)))
      ensures rollout.Some? ==>
                objects == old(objects)[At(Deployment, ns) := Obj(true, Pods(Some(leaf), rollout.value))]
      ensures rollout.None? ==> objects == old(objects)
      ensures rollout.Some? && At(Deployment, ns) in old(objects) && old(objects)[At(Deployment, ns)].body.Pods? ==>
                var was := old(objects)[At(Deployment, ns)].body;
                rollout.value ==
                was.rollout.(generation := was.rollout.generation + if was.fingerprint == Some(leaf) then 0 else 1)
      ensures SparesUnmanaged()
    {
      ghost var before := View(EnsureDeployment(ns, ca, leaf));
      rollout := WriteDeployment(ns, ca, leaf);
      Extends(before, ApplyDeployment,
              View(if rollout.Some? then EnsureAdmission(ns, ca, leaf, rollout.value) else Resting));
    }

    /** The API call of finishRemoteWebhookAdmission: exactly the machine's step. */
    method WriteAdmission(ns: string, ca: Cert, leaf: Cert, rollout: Rollout) returns (ready: Option<bool>)
      modifies this
      ensures Install(old(View(EnsureAdmission(ns, ca, leaf, rollout))), Assessed) ==
              Some(View(if ready.Some? then Finished(ns, ca, leaf, rollout, ready.value) else Resting))
      ensures ready == Some(true) ==> RolledOut(rollout)
      ensures !RolledOut(rollout) && At(Admission, ns) !in old(objects) ==>
                ready == Some(false) && objects == old(objects)
      ensures RolledOut(rollout) || At(Admission, ns) in old(objects) ==>
                if old(MayWrite(At(Admission, ns)))
                then
                  && ready == Some(RolledOut(rollout))
                  && objects == old(objects)[At(Admission, ns) := Obj(true, Hook(ns, ca))]
                else ready == None && objects == old(objects)
      ensures SparesUnmanaged()
    {
      var ref, available := At(Admission, ns), Assess(rollout) == Ready;
      if !available && ref !in objects {
        ready := Some(false);
      } else if !MayWrite(ref) {
        ready := None;
      } else {
        objects := objects[ref := Obj(true, Hook(ns, ca))];
        ready := Some(available);
      }
    }

    /** finishRemoteWebhookAdmission. */
    method FinishAdmission(ns: string, ca: Cert, leaf: Cert, rollout: Rollout) returns (ready: Option<bool>)
      requires Reachable(View(EnsureAdmission(ns, ca, leaf, rollout)))
      modifies this
      ensures Reachable(View(if ready.Some? then Finished(ns, ca, leaf, rollout, ready.value) else Resting))
      ensures Reachable(View(Resting))
      ensures ready == Some(true) ==> RolledOut(rollout) && Serves(ns, ca, leaf)
      ensures !RolledOut(rollout) && At(Admission, ns) !in old(objects) ==>
                ready == Some(false) && objects == old(objects)
      ensures RolledOut(rollout) || At(Admission, ns) in old(objects) ==>
                if old(MayWrite(At(Admission, ns)))
                then
                  && ready == Some(RolledOut(rollout))
                  && objects == old(objects)[At(Admission, ns) := Obj(true, Hook(ns, ca))]
                else ready == None && objects == old(objects)
      ensures SparesUnmanaged()
    {
      ghost var before := View(EnsureAdmission(ns, ca, leaf, rollout));
      ready := WriteAdmission(ns, ca, leaf, rollout);
      Extends(before, Assessed, View(if ready.Some? then Finished(ns, ca, leaf, rollout, ready.value) else Resting));
      if ready.Some? {
        CutsOff(View(Finished(ns, ca, leaf, rollout, ready.value)));
        if ready.value {
          ReadyIsTrusted(View(Finished(ns, ca, leaf, rollout, ready.value)));
        }
      }
    }

    /** applyRemoteWebhookCertificates. */
    method ApplyCertificates(ns: string) returns (r: Option<(Cert, Cert)>)
      requires Reachable(View(EnsureCa(ns)))
      modifies this
      ensures Reachable(View(if r.Some? then EnsureSupport(ns, r.value.0, r.value.1, {}) else Resting))
      ensures r.Some? ==> Verifies(r.value.1, r.value.0, ns, now) && FreshEnough(r.value.1, now)
      ensures r.Some? ==> CertsSettled(objects, ns, now) && Holds(objects, ns, r.value.0, r.value.1)
      ensures old(CertsSettled(objects, ns, now)) ==> objects == old(objects) && r.Some?
      ensures Agree(old(objects), objects, ns, SUPPORT + {Deployment, Admission})
      ensures SparesUnmanaged()
    {
      var pair := EnsureCaSecret(ns);
      if pair.None? { return None; }
      ghost var between := objects;
      var leaf := EnsureServingSecret(ns, pair.value.0, pair.value.1);
      CertsAfter(old(objects), between, objects, ns, now, pair.value.0, pair.value.1, leaf);
      if leaf.None? { return None; }
      r := Some((pair.value.0, leaf.value));
    }

    /** The Deployment, and the admission behind it. */
    method InstallDeployment(ns: string, ca: Cert, leaf: Cert) returns (ready: Option<bool>)
      requires Reachable(View(EnsureDeployment(ns, ca, leaf)))
      modifies this
      ensures Reachable(View(Resting)) && SparesUnmanaged()
      ensures ready == Some(true) ==> Serves(ns, ca, leaf)
      ensures ready.Some? ==> RolloutSettled(objects, ns, ca, leaf)
      ensures old(RolloutSettled(objects, ns, ca, leaf)) ==>
                objects == old(objects) && ready == Some(RolledOut(objects[At(Deployment, ns)].body.rollout))
      ensures Agree(old(objects), objects, ns, SUPPORT + {CaSecret, ServingSecret})
    {
      var rollout := EnsureDeploymentObject(ns, ca, leaf);
      if rollout.None? { return None; }
      ghost var between := objects;
      ready := FinishAdmission(ns, ca, leaf, rollout.value);
      RolloutAfter(old(objects), between, objects, ns, ca, leaf, rollout.value, ready);
    }

    /** What follows the certificates: supporting objects, Deployment, admission. */
    method InstallRuntime(ns: string, ca: Cert, leaf: Cert) returns (ready: Option<bool>)
      requires Reachable(View(EnsureSupport(ns, ca, leaf, {})))
      modifies this
      ensures Reachable(View(Resting)) && SparesUnmanaged()
      ensures ready == Some(true) ==> Serves(ns, ca, leaf)
      ensures ready.Some? ==> SupportSettled(objects, ns) && RolloutSettled(objects, ns, ca, leaf)
      ensures old(SupportSettled(objects, ns)) && old(RolloutSettled(objects, ns, ca, leaf)) ==>
                objects == old(objects) && ready == Some(RolledOut(objects[At(Deployment, ns)].body.rollout))
      ensures ready.Some? ==> Agree(old(objects), objects, ns, {CaSecret, ServingSecret})
    {
      SupportedElsewhere(objects, ns);
      var supported := EnsureSupporting(ns, ca, leaf);
      if !supported { return None; }
      ready := InstallDeployment(ns, ca, leaf);
    }

    /**
     applyRemoteWebhookRuntime. A ready outcome leaves the whole chain coherent
     with at least the renewal threshold left; any other outcome leaves a state
     from which later passes go on.
     */
    method ApplyRemoteWebhookRuntime(namespace: string) returns (ready: Option<bool>)
      requires Reachable(View(Resting))
      modifies this
      ensures Reachable(View(Resting)) && SparesUnmanaged()
      ensures ready == Some(true) ==> Trusted(if namespace == "" then DEFAULT_NAMESPACE else namespace)
      ensures ready.Some? ==> Settled(objects, if namespace == "" then DEFAULT_NAMESPACE else namespace, now)
      ensures old(Settled(objects, if namespace == "" then DEFAULT_NAMESPACE else namespace, now)) ==>
                objects == old(objects) && ready.Some?
    {
      var ns := if namespace == "" then DEFAULT_NAMESPACE else namespace;
      Extends(View(Resting), BeginApply(ns), View(EnsureCa(ns)));
      var certs := ApplyCertificates(ns);
      if certs.None? { return None; }
      ready := InstallRuntime(ns, certs.value.0, certs.value.1);
      if ready == Some(true) {
        assert Serves(ns, certs.value.0, certs.value.1);
      }
    }

    /** The stored objects agree on one CA and one serving certificate, and the template was rolled out with it. */
    predicate Serves(ns: string, ca: Cert, leaf: Cert) reads this {
      && At(Admission, "") in objects && objects[At(Admission, "")].body == Hook(ns, ca)
      && At(CaSecret, ns) in objects && objects[At(CaSecret, ns)].body.CaPair?
      && objects[At(CaSecret, ns)].body.ca == ca
      && At(ServingSecret, ns) in objects && objects[At(ServingSecret, ns)].body == ServingPair(leaf, true)
      && At(Deployment, ns) in objects && objects[At(Deployment, ns)].body.Pods?
      && objects[At(Deployment, ns)].body.fingerprint == Some(leaf)
    }

    ghost predicate Trusted(ns: string) reads this {
      exists ca: Cert, leaf: Cert :: Serves(ns, ca, leaf) && Verifies(leaf, ca, ns, now) && FreshEnough(leaf, now)
    }

    /** deleteRemoteWebhookRuntime: admission first, then the rest. */
    method DeleteRemoteWebhookRuntime(namespace: string) returns (ok: bool)
      requires Reachable(View(Resting))
      modifies this
      ensures Reachable(View(Resting)) && SparesUnmanaged()
      ensures var ns := if namespace == "" then DEFAULT_NAMESPACE else namespace;
              ok ==> forall k :: At(k, ns) in objects ==> !objects[At(k, ns)].managed && !ClusterScoped(k)
    {
      var ns := if namespace == "" then DEFAULT_NAMESPACE else namespace;
      Extends(View(Resting), BeginDelete(ns), View(DropAdmission(ns)));
      var ref := At(Admission, ns);
      ghost var before := View(DropAdmission(ns));
      if !MayWrite(ref) {
        Extends(before, DeleteAdmission, View(Resting));
        return false;
      }
      objects := objects - {ref};
      Extends(before, DeleteAdmission, View(DropRest(ns, BACKING)));
      ok := DeleteBacking(ns);
    }

    /**
     The parallel part of deleteRemoteWebhookRuntime; a failure may cancel the
     others, so nothing is promised then.
     */
    method DeleteBacking(ns: string) returns (ok: bool)
      requires Reachable(View(DropRest(ns, BACKING)))
      modifies this
      ensures Reachable(View(Resting)) && SparesUnmanaged()
      ensures ok ==> forall k :: k != Admission && At(k, ns) in objects ==>
                !objects[At(k, ns)].managed && !ClusterScoped(k)
      ensures forall ref :: ref in objects ==> ref in old(objects)
    {
      ok := true;
      var todo := BACKING;
      while todo != {}
        invariant todo <= BACKING && Reachable(View(DropRest(ns, todo))) && SparesUnmanaged()
        invariant ok ==> forall k :: k in BACKING - todo && At(k, ns) in objects ==>
                    !objects[At(k, ns)].managed && !ClusterScoped(k)
        invariant forall ref :: ref in objects ==> ref in old(objects)
      {
        var kind :| kind in todo;
        var deleted := DeleteManaged(ns, kind, todo);
        ok, todo := ok && deleted, todo - {kind};
      }
      CutsOff(View(DropRest(ns, todo)));
      assert forall k :: k != Admission ==> k in BACKING;
    }

    /**
     deleteManagedRemoteWebhookRuntimeObject: refuses an unmanaged
     cluster-scoped object, skips an unmanaged namespaced one.
     */
    method DeleteManaged(ns: string, kind: Kind, ghost todo: set<Kind>) returns (ok: bool)
      requires kind in todo && Reachable(View(DropRest(ns, todo)))
      modifies this
      ensures Reachable(View(DropRest(ns, todo - {kind})))
      ensures At(kind, ns) in objects ==> !objects[At(kind, ns)].managed && (ok ==> !ClusterScoped(kind))
      ensures forall ref :: ref != At(kind, ns) ==> (ref in objects <==> ref in old(objects))
      ensures forall ref :: ref in objects ==> ref in old(objects) && objects[ref] == old(objects[ref])
      ensures SparesUnmanaged()
    {
      var ref := At(kind, ns);
      ghost var before := View(DropRest(ns, todo));
      ok := true;
      if MayWrite(ref) {
        objects := objects - {ref};
      } else if ClusterScoped(kind) {
        ok := false;
      }
      checked := if kind == ServingSecret then checked - {ns} else checked;
      Extends(before, DeleteOne(kind), View(DropRest(ns, todo - {kind})));
    }
  }
}
