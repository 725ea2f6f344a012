/**
 The provider's bookkeeping: the maps of published clusters, their cancel
 functions and kubeconfigs, the profile-to-cluster references and the
 registered indexers. `Registry` is the value of all of it at one moment;
 class `Provider` is the object whose methods run as lock sections.
 */
module ClusterRegistry {

  type Key = string         // "namespace/name" of a ClusterProfile or of a logical cluster
  type Instance = nat       // one cluster object, together with its context
  type RestConfig = string  // a kubeconfig, up to restConfigEqual
  type Index = string       // one registered cache field indexer

  datatype Registry = Registry(
    clusters: map<Key, Instance>,
    cancelFns: map<Key, Instance>,     // whose context the stored function cancels
    kubeconfigs: map<Key, RestConfig>,
    profileKeys: map<Key, Key>,
    indexers: seq<Index>,
    cancelled: set<Instance>)          // instances whose cancel function was called

  const EMPTY := Registry(map[], map[], map[], map[], [], {})

  /** Cancels and forgets every cluster stored under one of `gone`. */
  function Without(r: Registry, gone: set<Key>): Registry {
    r.(clusters := r.clusters - gone,
       cancelFns := r.cancelFns - gone,
       kubeconfigs := r.kubeconfigs - gone,
       cancelled := r.cancelled + set k | k in gone && k in r.cancelFns :: r.cancelFns[k])
  }

  /** Drops those of `keys` that no remembered profile names. */
  function WithoutUnnamed(r: Registry, keys: set<Key>): Registry {
    Without(r, keys - r.profileKeys.Values)
  }

  predicate IsCurrent(r: Registry, key: Key, cl: Instance) {
    key in r.clusters && r.clusters[key] == cl
  }

  function WithoutCurrent(r: Registry, key: Key, cl: Instance): Registry {
    if IsCurrent(r, key, cl) then Without(r, {key}) else r
  }

  function Published(r: Registry, key: Key, cl: Instance, cfg: RestConfig): Registry {
    r.(clusters := r.clusters[key := cl],
       cancelFns := r.cancelFns[key := cl],
       kubeconfigs := r.kubeconfigs[key := cfg])
  }

  predicate Keeps(r: Registry, key: Key, cfg: RestConfig) {
    key in r.clusters && key in r.kubeconfigs && r.kubeconfigs[key] == cfg
  }

  /** What keepExistingCluster leaves behind: a cluster with another kubeconfig is evicted. */
  function KeptOrEvicted(r: Registry, key: Key, cfg: RestConfig): Registry {
    if key in r.clusters && !Keeps(r, key, cfg) then Without(r, {key}) else r
  }

  /** Profile `req` now names cluster `key`; a cluster it named before goes when nothing else names it. */
  function Remembered(r: Registry, req: Key, key: Key): Registry {
    if req in r.profileKeys && r.profileKeys[req] != key then
      var others := r.profileKeys - {req};
      WithoutUnnamed(r.(profileKeys := others), {r.profileKeys[req]}).(profileKeys := others[req := key])
    else
      r.(profileKeys := r.profileKeys[req := key])
  }

  /** Profile `req` is dropped; of the three keys it may stand for, those nothing else names go. */
  function Forgotten(r: Registry, req: Key, fallback: Key): Registry {
    var others := r.profileKeys - {req};
    var named := if req in r.profileKeys then {r.profileKeys[req]} else {};
    WithoutUnnamed(r.(profileKeys := others), named + {req, fallback})
  }

  /** Some profile other than `req` names cluster k. */
  ghost predicate NamedByOther(profileKeys: map<Key, Key>, req: Key, k: Key) {
    exists p :: p in profileKeys && p != req && profileKeys[p] == k
  }

  /** `req` names cluster k and no other profile does. */
  ghost predicate NamedOnlyBy(profileKeys: map<Key, Key>, req: Key, k: Key) {
    req in profileKeys && profileKeys[req] == k && !NamedByOther(profileKeys, req, k)
  }

  lemma OthersName(profileKeys: map<Key, Key>, req: Key, k: Key)
    ensures NamedByOther(profileKeys, req, k) <==> k in (profileKeys - {req}).Values
  {
    var others := profileKeys - {req};
    if k in others.Values {
      var p :| p in others && others[p] == k;
      assert profileKeys[p] == k && p != req;
    }
    if p :| p in profileKeys && p != req && profileKeys[p] == k {
      assert others[p] == k;
    }
  }

  /** Cancelling one set of keys and then another is cancelling their union. */
  lemma WithoutTwice(r: Registry, a: set<Key>, b: set<Key>)
    ensures Without(Without(r, a), b) == Without(r, a + b)
  {
    var twice, once := Without(Without(r, a), b), Without(r, a + b);
    assert twice.clusters == once.clusters;
    assert twice.cancelFns == once.cancelFns;
    assert twice.kubeconfigs == once.kubeconfigs;
    assert twice.cancelled == once.cancelled;
  }

  lemma WithoutNothing(r: Registry)
    ensures Without(r, {}) == r
  {
    assert Without(r, {}).clusters == r.clusters;
    assert Without(r, {}).cancelFns == r.cancelFns;
    assert Without(r, {}).kubeconfigs == r.kubeconfigs;
    assert Without(r, {}).cancelled == r.cancelled;
  }

  class Provider {
    var clusters: map<Key, Instance>
    var cancelFns: map<Key, Instance>
    var kubeconfigs: map<Key, RestConfig>
    var profileKeys: map<Key, Key>
    var indexers: seq<Index>
    var cancelled: set<Instance>

    function View(): Registry
      reads this
    {
      Registry(clusters, cancelFns, kubeconfigs, profileKeys, indexers, cancelled)
    }

    constructor ()
      ensures View() == EMPTY
    {
      clusters, cancelFns, kubeconfigs, profileKeys := map[], map[], map[], map[];
      indexers, cancelled := [], {};
    }

    method DisengageLocked(key: Key)
      modifies this
      ensures clusters == old(clusters) - {key} && cancelFns == old(cancelFns) - {key}
      ensures kubeconfigs == old(kubeconfigs) - {key}
      ensures cancelled == old(cancelled) + if key in old(cancelFns) then {old(cancelFns)[key]} else {}
      ensures View() == Without(old(View()), {key})
    {
      if key in cancelFns {
        cancelled := cancelled + {cancelFns[key]};
      }
      clusters := clusters - {key};
      cancelFns := cancelFns - {key};
      kubeconfigs := kubeconfigs - {key};
      assert View().cancelled == Without(old(View()), {key}).cancelled;
    }

    method DisengageIfCurrent(key: Key, cl: Instance)
      modifies this
      ensures key in old(clusters) && old(clusters)[key] == cl ==>
                key !in clusters && key !in cancelFns && key !in kubeconfigs
      ensures key !in old(clusters) || old(clusters)[key] != cl ==> View() == old(View())
      ensures View() == WithoutCurrent(old(View()), key, cl)
    {
      if key !in clusters || clusters[key] != cl {
        return;
      }
      DisengageLocked(key);
    }

    method IsCurrentCluster(key: Key, cl: Instance) returns (current: bool)
      ensures current <==> key in clusters && clusters[key] == cl
    {
      current := key in clusters && clusters[key] == cl;
    }

    method PublishCluster(key: Key, cl: Instance, cfg: RestConfig)
      modifies this
      ensures clusters == old(clusters)[key := cl] && cancelFns == old(cancelFns)[key := cl]
      ensures kubeconfigs == old(kubeconfigs)[key := cfg]
      ensures View() == Published(old(View()), key, cl, cfg)
    {
      clusters := clusters[key := cl];
      cancelFns := cancelFns[key := cl];
      kubeconfigs := kubeconfigs[key := cfg];
    }

    method KeepExistingCluster(key: Key, cfg: RestConfig) returns (keep: bool)
      modifies this
      ensures keep <==> key in old(clusters) && key in old(kubeconfigs) && old(kubeconfigs)[key] == cfg
      ensures keep || key !in old(clusters) ==> View() == old(View())
      ensures !keep && key in old(clusters) ==>
                && clusters == old(clusters) - {key} && cancelFns == old(cancelFns) - {key}
                && kubeconfigs == old(kubeconfigs) - {key}
                && cancelled == old(cancelled) + if key in old(cancelFns) then {old(cancelFns)[key]} else {}
      ensures keep == Keeps(old(View()), key, cfg)
      ensures View() == KeptOrEvicted(old(View()), key, cfg)
    {
      if key !in clusters {
        return false;
      }
      if key in kubeconfigs && kubeconfigs[key] == cfg {
        return true;
      }
      DisengageLocked(key);
      return false;
    }

    /** Walks the remaining references and disengages `key` only when none of them names it. */
    method DisengageLogicalIfUnreferencedLocked(key: Key)
      modifies this
      ensures View() == WithoutUnnamed(old(View()), {key})
    {
      var unseen := profileKeys.Keys;
      while unseen != {}
        invariant unseen <= profileKeys.Keys
        invariant forall p :: p in profileKeys && p !in unseen ==> profileKeys[p] != key
        invariant View() == old(View())
        decreases unseen
      {
        var p :| p in unseen;
        if profileKeys[p] == key {
          assert {key} - profileKeys.Values == {};
          WithoutNothing(View());
          return;
        }
        unseen := unseen - {p};
      }
      assert {key} - profileKeys.Values == {key};
      DisengageLocked(key);
    }

    method RememberProfileKey(req: Key, key: Key)
      modifies this
      ensures profileKeys == old(profileKeys)[req := key]
      ensures forall k :: k in clusters <==>
                k in old(clusters) && (k == key || !NamedOnlyBy(old(profileKeys), req, k))
      ensures View() == Remembered(old(View()), req, key)
    {
      if req in profileKeys && profileKeys[req] != key {
        var existing := profileKeys[req];
        profileKeys := profileKeys - {req};
        DisengageLogicalIfUnreferencedLocked(existing);
      }
      profileKeys := profileKeys[req := key];
      assert old(profileKeys)[req := key] == (old(profileKeys) - {req})[req := key];
      forall k ensures k in clusters <==> k in old(clusters) && (k == key || !NamedOnlyBy(old(profileKeys), req, k)) {
        OthersName(old(profileKeys), req, k);
      }
    }

    /**
     disengageProfile's closure: each key is considered once per call. So far
     `base` has lost the unreferenced keys among `seen`.
     */
    method DisengageOnce(key: Key, seen: set<Key>, ghost base: Registry) returns (seen': set<Key>)
      requires View() == WithoutUnnamed(base, seen)
      modifies this
      ensures seen' == seen + {key}
      ensures View() == WithoutUnnamed(base, seen')
    {
      if key in seen {
        assert seen + {key} == seen;
        return seen;
      }
      seen' := seen + {key};
      ghost var named := base.profileKeys.Values;
      assert seen' - named == (seen - named) + ({key} - named);
      WithoutTwice(base, seen - named, {key} - named);
      DisengageLogicalIfUnreferencedLocked(key);
    }

    method DisengageProfile(req: Key, fallback: Key)
      modifies this
      ensures profileKeys == old(profileKeys) - {req}
      ensures forall k :: k in clusters <==>
                && k in old(clusters)
                && (NamedByOther(old(profileKeys), req, k)
                    || (k != req && k != fallback && !(req in old(profileKeys) && old(profileKeys)[req] == k)))
      ensures View() == Forgotten(old(View()), req, fallback)
    {
      ghost var base := View().(profileKeys := profileKeys - {req});
      assert WithoutUnnamed(base, {}) == base by {
        assert {} - base.profileKeys.Values == {};
        WithoutNothing(base);
      }
      var seen: set<Key> := {};
      if req in profileKeys {
        var logicalKey := profileKeys[req];
        profileKeys := profileKeys - {req};
        seen := DisengageOnce(logicalKey, seen, base);
      } else {
        assert profileKeys - {req} == profileKeys;
      }
      ghost var named: set<Key> := if req in old(profileKeys) then {old(profileKeys)[req]} else {};
      assert seen == named;
      seen := DisengageOnce(req, seen, base);
      seen := DisengageOnce(fallback, seen, base);
      assert seen == named + {req, fallback};
      assert View() == WithoutUnnamed(base, named + {req, fallback});
      forall k
        ensures NamedByOther(old(profileKeys), req, k) <==> k in (old(profileKeys) - {req}).Values
      {
        OthersName(old(profileKeys), req, k);
      }
    }

    /** IndexField's lock section: register the index and copy the clusters it must reach. */
    method RegisterIndex(idx: Index) returns (reached: map<Key, Instance>)
      modifies this
      ensures View() == old(View()).(indexers := old(indexers) + [idx])
      ensures reached == clusters
    {
      indexers := indexers + [idx];
      reached := map[];
      var uncopied := clusters.Keys;
      while uncopied != {}
        invariant uncopied <= clusters.Keys
        invariant reached.Keys == clusters.Keys - uncopied
        invariant forall k :: k in reached ==> reached[k] == clusters[k]
        invariant View() == old(View()).(indexers := old(indexers) + [idx])
        decreases uncopied
      {
        var k :| k in uncopied;
        reached := reached[k := clusters[k]];
        uncopied := uncopied - {k};
      }
    }
  }
}
