/** Cluster names, their "namespace/name" encoding, and the resolver that produces them. */
module Inventory {

  import opened Options

  datatype NamespacedName = NamespacedName(namespace: string, name: string)

  function Render(n: NamespacedName): string {
    n.namespace + "/" + n.name
  }

  /** Splits at the first separator, if there is one. */
  function Cut(s: string): Option<(string, string)> {
    if s == "" then None
    else if s[0] == '/' then Some(("", s[1..]))
    else
      match Cut(s[1..])
      case None => None
      case Some((before, after)) => Some(([s[0]] + before, after))
  }

  function Parse(value: string): Option<NamespacedName> {
    match Cut(value)
    case None => None
    case Some((namespace, name)) =>
      if namespace == "" || name == "" then None else Some(NamespacedName(namespace, name))
  }

  lemma {:induction false} CutFindsFirst(namespace: string, name: string)
    requires '/' !in namespace
    ensures Cut(namespace + "/" + name) == Some((namespace, name))
  {
    var s := namespace + "/" + name;
    if namespace == "" {
      assert s[1..] == name;
    } else {
      assert s[1..] == namespace[1..] + "/" + name;
      CutFindsFirst(namespace[1..], name);
      assert [namespace[0]] + namespace[1..] == namespace;
    }
  }

  lemma {:induction false} CutSplits(s: string)
    ensures Cut(s).Some? ==> '/' !in Cut(s).value.0 && s == Cut(s).value.0 + "/" + Cut(s).value.1
  {
    if s != "" && s[0] != '/' {
      CutSplits(s[1..]);
      assert s == [s[0]] + s[1..];
    }
  }

  /** A rendered name reads back exactly when both halves are there and the namespace has no separator. */
  lemma NameRoundTrip(n: NamespacedName)
    ensures Parse(Render(n)) == Some(n) <==> n.namespace != "" && '/' !in n.namespace && n.name != ""
  {
    CutSplits(Render(n));
    if '/' !in n.namespace {
      CutFindsFirst(n.namespace, n.name);
    }
  }

  /** Parsing accepts only what rendering writes. */
  lemma ParseIsFaithful(value: string)
    ensures Parse(value).Some? ==> Render(Parse(value).value) == value
  {
    CutSplits(value);
  }

  // ---------------------------------------------------------------- resolver

  const LABEL_OCM_CLUSTER_NAME := "open-cluster-management.io/cluster-name"
  const LABEL_CLUSTER_MANAGER := "x-k8s.io/cluster-manager"
  const OCM_MANAGER := "open-cluster-management"

  datatype ClusterProfile = ClusterProfile(name: string, labels: map<string, string>, accessProviders: nat)

  datatype Reason = Resolved | ClusterProfileNotFound | InventoryUnavailable | InventoryAmbiguous

  datatype Resolution = Resolution(clusterName: NamespacedName, ready: bool, reason: Reason)

  predicate Matches(p: ClusterProfile, namespace: string) {
    && LABEL_OCM_CLUSTER_NAME in p.labels && p.labels[LABEL_OCM_CLUSTER_NAME] == namespace
    && LABEL_CLUSTER_MANAGER in p.labels && p.labels[LABEL_CLUSTER_MANAGER] == OCM_MANAGER
  }

  /** A profile matches by the OCM cluster-name label and the cluster manager. */
  lemma MatchesIff(p: ClusterProfile, namespace: string)
    ensures Matches(p, namespace) <==>
              && "open-cluster-management.io/cluster-name" in p.labels
              && p.labels["open-cluster-management.io/cluster-name"] == namespace
              && "x-k8s.io/cluster-manager" in p.labels
              && p.labels["x-k8s.io/cluster-manager"] == "open-cluster-management"
  {
  }

  function Matching(profiles: seq<ClusterProfile>, namespace: string): (m: seq<ClusterProfile>)
    ensures forall p :: p in m <==> p in profiles && Matches(p, namespace)
  {
    if profiles == [] then []
    else
      var rest := Matching(profiles[1..], namespace);
      if Matches(profiles[0], namespace) then [profiles[0]] + rest else rest
  }

  function WithAccess(profiles: seq<ClusterProfile>): (r: seq<ClusterProfile>)
    ensures forall p :: p in r <==> p in profiles && p.accessProviders > 0
  {
    if profiles == [] then []
    else if profiles[0].accessProviders > 0 then [profiles[0]] + WithAccess(profiles[1..])
    else WithAccess(profiles[1..])
  }

  lemma {:induction false} WithAccessAppends(profiles: seq<ClusterProfile>, p: ClusterProfile)
    ensures WithAccess(profiles + [p]) ==
            WithAccess(profiles) + (if p.accessProviders > 0 then [p] else [])
  {
    if profiles == [] {
      assert [] + [p] == [p];
    } else {
      assert (profiles + [p])[1..] == profiles[1..] + [p];
      WithAccessAppends(profiles[1..], p);
    }
  }

  method PartitionClusterProfilesByAccess(items: seq<ClusterProfile>) returns (ready: seq<ClusterProfile>)
    ensures ready == WithAccess(items)
  {
    ready := [];
    for i := 0 to |items|
      invariant ready == WithAccess(items[..i])
    {
      assert items[..i + 1] == items[..i] + [items[i]];
      WithAccessAppends(items[..i], items[i]);
      if items[i].accessProviders > 0 {
        ready := ready + [items[i]];
      }
    }
    assert items[..|items|] == items;
  }

  function LogicalClusterName(p: ClusterProfile): NamespacedName {
    var name := if LABEL_OCM_CLUSTER_NAME in p.labels && p.labels[LABEL_OCM_CLUSTER_NAME] != ""
                then p.labels[LABEL_OCM_CLUSTER_NAME] else p.name;
    NamespacedName(name, name)
  }

  function Resolve(profiles: seq<ClusterProfile>, namespace: string): Resolution {
    var key := NamespacedName(namespace, namespace);
    var matching := Matching(profiles, namespace);
    var ready := WithAccess(matching);
    if matching == [] then Resolution(key, false, ClusterProfileNotFound)
    else if ready == [] then Resolution(key, false, InventoryUnavailable)
    else if |ready| > 1 then Resolution(key, false, InventoryAmbiguous)
    else Resolution(LogicalClusterName(ready[0]), true, Resolved)
  }

  /** The resolver fails closed: it is ready exactly when one matching profile can be reached. */
  lemma ReadyIsUnambiguous(profiles: seq<ClusterProfile>, namespace: string)
    ensures Resolve(profiles, namespace).ready <==> |WithAccess(Matching(profiles, namespace))| == 1
    ensures Resolve(profiles, namespace).ready ==>
              exists p :: p in profiles && Matches(p, namespace) && p.accessProviders > 0
    ensures Resolve(profiles, namespace).reason == ClusterProfileNotFound <==>
              forall p :: p in profiles ==> !Matches(p, namespace)
    ensures Resolve(profiles, namespace).reason == InventoryUnavailable <==>
              && (exists p :: p in profiles && Matches(p, namespace))
              && (forall p :: p in profiles && Matches(p, namespace) ==> p.accessProviders == 0)
    ensures Resolve(profiles, namespace).reason == InventoryAmbiguous <==>
              |WithAccess(Matching(profiles, namespace))| > 1
  {
    var matching := Matching(profiles, namespace);
    var ready := WithAccess(matching);
    assert matching != [] ==> matching[0] in matching;
    assert ready != [] ==> ready[0] in ready;
  }

  /** A ready resolution always names namespace/namespace, so its encoding reads back. */
  lemma ReadyNamesNamespace(profiles: seq<ClusterProfile>, namespace: string)
    requires namespace != "" && '/' !in namespace
    requires Resolve(profiles, namespace).ready
    ensures Resolve(profiles, namespace).clusterName == NamespacedName(namespace, namespace)
    ensures Parse(Render(Resolve(profiles, namespace).clusterName)) == Some(NamespacedName(namespace, namespace))
  {
    var ready := WithAccess(Matching(profiles, namespace));
    assert ready[0] in ready;
    NameRoundTrip(NamespacedName(namespace, namespace));
  }
}
