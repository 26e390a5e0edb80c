/** The datastore with its mutable maps, and the reconcilers that drive it. */
module Datastore {
  import opened Wrappers
  import opened Kube
  import Models
  import Pods

  /** A stored pod together with its background refresher. */
  class PodMetrics {
    var key: Key
    var address: string
    var stopped: bool

    constructor (pod: Pods.Pod)
      ensures key == pod.key && address == pod.ip && !stopped
    {
      key, address, stopped := pod.key, pod.ip, false;
    }

    method UpdatePod(pod: Pods.Pod)
      modifies this`key, this`address
      ensures key == pod.key && address == pod.ip
    {
      key, address := pod.key, pod.ip;
    }

    /** Closes the `done` channel, which must happen at most once. */
    method StopRefreshLoop()
      requires !stopped
      modifies this`stopped
      ensures stopped
    {
      stopped := true;
    }
  }

  class Datastore {
    var pool: Option<Pods.Pool>
    var models: Models.Store
    var pods: map<Key, PodMetrics>

    /** Every stored pod is under its own name and its refresher runs. */
    ghost predicate Valid()
      reads this, pods.Values
    {
      forall k :: k in pods ==> pods[k].key == k && !pods[k].stopped
    }

    /** Every refresher of `before` is still stored where it was, or stopped. */
    ghost predicate KeptOrStopped(before: map<Key, PodMetrics>)
      reads this, before.Values
    {
      forall k :: k in before ==> (k in pods && pods[k] == before[k]) || before[k].stopped
    }

    ghost function Endpoints(): Pods.Endpoints
      reads this, pods.Values
    {
      map k | k in pods :: pods[k].address
    }

    constructor ()
      ensures Valid() && pool.None? && models == map[] && pods == map[]
    {
      pool, models, pods := None, map[], map[];
    }

    method Clear()
      modifies this
      ensures Valid() && pool.None? && models == map[] && pods == map[]
    {
      pool, models, pods := None, map[], map[];
    }

    // ----- models -----

    method ModelSetIfOlder(m: Models.Model) returns (set_: bool)
      modifies this`models
      ensures models == Models.SetIfOlder(old(models), m)
      ensures set_ <==> m.modelName in models && models[m.modelName] == m
    {
      if m.modelName in models {
        var existing := models[m.modelName];
        var diffObj := m.key.name != existing.key.name || m.key.ns != existing.key.ns;
        if diffObj && existing.created < m.created { return false; }
      }
      models := models[m.modelName := m];
      return true;
    }

    /** Replaces the entry of a model name by the oldest eligible object of the listing. */
    method ModelResync(items: seq<Models.Model>, modelName: string) returns (updated: bool)
      requires pool.Some?
      modifies this`models
      ensures models == Models.Resync(pool.value.key, old(models), items, modelName)
      ensures updated <==> Models.Oldest(pool.value.key, items, modelName).Some?
    {
      var oldest: Option<Models.Model> := None;
      for i := 0 to |items|
        invariant models == old(models) && oldest == Models.Oldest(pool.value.key, items[..i], modelName)
      {
        var m := items[i];
        assert items[..i + 1][..i] == items[..i];
        if m.modelName != modelName || m.poolRef != pool.value.key.name || m.deleting { continue; }
        if oldest.None? || m.created < oldest.value.created { oldest := Some(m); }
      }
      assert items[..|items|] == items;
      if oldest.None? { return false; }
      models := models[modelName := oldest.value];
      return true;
    }

    /** Removes the entry of an object, found by scanning the map in an arbitrary order. */
    method ModelDelete(key: Key) returns (removed: Option<Models.Model>)
      modifies this`models
      ensures removed.None? ==> models == old(models) && forall n :: n in models ==> models[n].key != key
      ensures removed.Some? ==> removed.value.key == key
                                && (exists n :: n in old(models) && old(models)[n] == removed.value)
                                && models == old(models) - {removed.value.modelName}
    {
      var names := models.Keys;
      while names != {}
        invariant models == old(models) && names <= models.Keys
        invariant forall n :: n in models && n !in names ==> models[n].key != key
        decreases |names|
      {
        var n :| n in names;
        var m := models[n];
        if m.key.name == key.name && m.key.ns == key.ns {
          models := models - {m.modelName};
          return Some(m);
        }
        names := names - {n};
      }
      return None;
    }

    // ----- pods -----

    method PodUpdateOrAddIfNotExist(pod: Pods.Pod) returns (existed: bool)
      requires Valid()
      modifies this`pods, pods.Values
      ensures Valid() && fresh(pods.Values - old(pods.Values))
      ensures existed <==> pod.key in old(pods)
      ensures existed ==> pods == old(pods)
      ensures forall k :: k in old(pods) ==> k in pods && pods[k] == old(pods)[k]
      ensures Endpoints() == old(Endpoints())[pod.key := pod.ip]
    {
      existed := pod.key in pods;
      var pm: PodMetrics;
      if !existed {
        pm := new PodMetrics(pod);
        pods := pods[pod.key := pm];
      } else {
        pm := pods[pod.key];
      }
      assert pod.key in pods;
      pm.UpdatePod(pod);
    }

    method PodDelete(key: Key)
      requires Valid()
      modifies this`pods, pods.Values`stopped
      ensures Valid() && pods == old(pods) - {key}
      ensures Endpoints() == old(Endpoints()) - {key}
      ensures key in old(pods) ==> old(pods)[key].stopped
    {
      if key in pods {
        var pm := pods[key];
        pods := pods - {key};
        pm.StopRefreshLoop();
      }
    }

    /** Stores the ready pods of the listing, then drops every pod whose name is not among them. */
    method PodResyncAll(items: seq<Pods.Pod>)
      requires Valid()
      modifies this`pods, pods.Values
      ensures Valid() && fresh(pods.Values - old(pods.Values))
      ensures Endpoints() == Pods.ResyncAll(old(Endpoints()), items)
      ensures KeptOrStopped(old(pods))
    {
      var activePods := AddReadyPods(items);
      PrunePods(activePods);
    }

    /** The second loop of the resync: ranges over the map while deleting from it. */
    method PrunePods(activePods: set<string>)
      requires Valid()
      modifies this`pods, pods.Values`stopped
      ensures Valid() && pods.Values <= old(pods.Values)
      ensures Endpoints() == map k | k in old(Endpoints()) && k.name in activePods :: old(Endpoints())[k]
      ensures KeptOrStopped(old(pods))
    {
      var keys := pods.Keys;
      while keys != {}
        invariant Valid() && keys <= pods.Keys && pods.Values <= old(pods.Values)
        invariant forall k :: k in pods <==> k in old(pods) && (k in keys || k.name in activePods)
        invariant forall k :: k in pods ==> pods[k] == old(pods)[k]
        invariant forall k :: k in old(pods) && k !in pods ==> old(pods)[k].stopped
        decreases |keys|
      {
        var k :| k in keys;
        if pods[k].key.name !in activePods { PodDelete(pods[k].key); }
        keys := keys - {k};
      }
    }

    /** The first loop of the resync. */
    method AddReadyPods(items: seq<Pods.Pod>) returns (activePods: set<string>)
      requires Valid()
      modifies this`pods, pods.Values
      ensures Valid() && fresh(pods.Values - old(pods.Values))
      ensures Endpoints() == Pods.AddReady(old(Endpoints()), items) && activePods == Pods.ActiveNames(items)
      ensures forall k :: k in old(pods) ==> k in pods && pods[k] == old(pods)[k]
    {
      hide Pods.Ready, Pods.AddReady, Pods.ActiveNames;
      activePods := {};
      NothingAdded(Endpoints(), items);
      for i := 0 to |items|
        invariant Valid() && fresh(pods.Values - old(pods.Values))
        invariant forall k :: k in old(pods) ==> k in pods && pods[k] == old(pods)[k]
        invariant Endpoints() == Pods.AddReady(old(Endpoints()), items[..i]) && activePods == Pods.ActiveNames(items[..i])
      {
        OneMoreAdded(old(Endpoints()), items, i);
        var ready := Pods.PodIsReady(items[i]);
        if ready {
          activePods := activePods + {items[i].key.name};
          var _ := PodUpdateOrAddIfNotExist(items[i]);
        }
      }
      assert items[..|items|] == items;
    }
  }

  lemma NothingAdded(pods: Pods.Endpoints, items: seq<Pods.Pod>)
    ensures Pods.AddReady(pods, items[..0]) == pods && Pods.ActiveNames(items[..0]) == {}
  {
  }

  lemma OneMoreAdded(pods: Pods.Endpoints, items: seq<Pods.Pod>, i: nat)
    requires i < |items|
    ensures Pods.AddReady(pods, items[..i + 1]) ==
            (var p := Pods.AddReady(pods, items[..i]); if Pods.Ready(items[i].conditions) then p[items[i].key := items[i].ip] else p)
    ensures Pods.ActiveNames(items[..i + 1]) ==
            (var n := Pods.ActiveNames(items[..i]); if Pods.Ready(items[i].conditions) then n + {items[i].key.name} else n)
  {
    assert items[..i + 1][..i] == items[..i];
  }

  // ----- reconcilers; the API server's answers are parameters -----

  /** InferenceModelReconciler.Reconcile; `list` answers List calls by model name.  The backfill after a
      deletion reads the pool, and panics if there is none. */
  method ReconcileModel(ds: Datastore, configured: Key, cluster: Models.Cluster, key: Key, list: string -> seq<Models.Model>)
      returns (panicked: bool)
    modifies ds`models
    ensures panicked <==> ds.pool.None? && !(key in cluster && Models.Eligible(configured, cluster[key]))
                          && exists n :: Models.StoredAs(old(ds.models), key, n)
    ensures key in cluster && Models.Eligible(configured, cluster[key]) ==>
              ds.models == Models.SetIfOlder(old(ds.models), cluster[key])
    ensures !(key in cluster && Models.Eligible(configured, cluster[key])) ==>
              if exists n :: Models.StoredAs(old(ds.models), key, n)
              then exists m :: m in old(ds.models).Values && m.key == key
                     && ds.models == var removed := old(ds.models) - {m.modelName};
                                     if panicked then removed
                                     else Models.Resync(ds.pool.value.key, removed, list(m.modelName), m.modelName)
              else ds.models == old(ds.models)
  {
    panicked := false;
    if key !in cluster || cluster[key].deleting || cluster[key].poolRef != configured.name {
      var existing := ds.ModelDelete(key);
      if existing.None? {
        assert forall n :: n in old(ds.models) ==> !Models.StoredAs(old(ds.models), key, n);
        return;
      }
      ghost var n :| n in old(ds.models) && old(ds.models)[n] == existing.value;
      assert Models.StoredAs(old(ds.models), key, n) && existing.value in old(ds.models).Values;
      if ds.pool.None? { return true; }
      var _ := ds.ModelResync(list(existing.value.modelName), existing.value.modelName);
      return;
    }
    var _ := ds.ModelSetIfOlder(cluster[key]);
  }

  /** One reconcile of the code is one step of the model, unless it panics: the store stays as the
      run predicts. */
  method ReconcileModelStep(ds: Datastore, configured: Key, s: Models.State, key: Key, list: string -> seq<Models.Model>)
      returns (panicked: bool, ghost stored: string)
    requires ds.models == s.models && (s.poolSet <==> ds.pool.Some?) && (s.poolSet ==> ds.pool.value.key == configured)
    requires Models.Named(configured, s) && forall n :: Models.Lists(s.cluster, list(n), n)
    modifies ds`models
    ensures panicked <==> !s.poolSet && !Models.Live(configured, s, key) && exists n :: Models.StoredAs(s.models, key, n)
    ensures !panicked ==>
              var e := Models.Reconcile(key, stored, list(stored));
              Models.Enabled(configured, s, e) && ds.models == Models.Next(configured, s, e).models
  {
    panicked := ReconcileModel(ds, configured, s.cluster, key, list);
    stored := "";
    if !panicked && !Models.Live(configured, s, key) {
      if exists n :: Models.StoredAs(s.models, key, n) {
        ghost var m :| m in s.models.Values && m.key == key
          && ds.models == Models.Resync(configured, s.models - {m.modelName}, list(m.modelName), m.modelName);
        stored := m.modelName;
        assert Models.StoredAs(s.models, key, stored);
      } else {
        assert !Models.StoredAs(s.models, key, stored);
      }
    }
  }

  /** PodReconciler.Reconcile. */
  method ReconcilePod(ds: Datastore, cluster: Pods.PodCluster, key: Key)
    requires ds.Valid() && forall k :: k in cluster ==> cluster[k].key == k
    modifies ds`pods, ds.pods.Values
    ensures ds.Valid() && fresh(ds.pods.Values - old(ds.pods.Values))
    ensures ds.Endpoints() ==
            if ds.pool.None? then old(ds.Endpoints())
            else Pods.ReconcileOne(ds.pool.value, cluster, old(ds.Endpoints()), key)
  {
    if ds.pool.None? { return; }
    if key !in cluster {
      ds.PodDelete(key);
      return;
    }
    var pod := cluster[key];
    var ready := Pods.PodIsReady(pod);
    if pod.terminating || !Pods.Matches(ds.pool.value, pod) || !ready {
      ds.PodDelete(key);
    } else {
      var _ := ds.PodUpdateOrAddIfNotExist(pod);
    }
  }

  /** InferencePoolReconciler.Reconcile; None if the pool is gone or being deleted. */
  method ReconcilePool(ds: Datastore, newPool: Option<Pods.Pool>, items: seq<Pods.Pod>)
    requires ds.Valid()
    modifies ds, ds.pods.Values
    ensures ds.Valid() && ds.pool == newPool
    ensures newPool.None? ==> ds.models == map[] && ds.Endpoints() == map[]
    ensures newPool.Some? ==> ds.models == old(ds.models)
    ensures newPool.Some? ==>
              ds.Endpoints() ==
              if old(ds.pool).None? || old(ds.pool).value.selector != newPool.value.selector
              then Pods.ResyncAll(old(ds.Endpoints()), items) else old(ds.Endpoints())
  {
    if newPool.None? {
      ds.Clear();
      return;
    }
    var oldPool := ds.pool;
    ds.pool := newPool;
    assert ds.Endpoints() == old(ds.Endpoints());
    if oldPool.None? || newPool.value.selector != oldPool.value.selector {
      ds.PodResyncAll(items);
    }
  }

  /** The code of the pod and pool reconcilers takes the cache from one state of a run to the next. */
  method ReconcilePodStep(ds: Datastore, s: Pods.State, key: Key)
    requires ds.Valid() && ds.pool == s.pool && ds.Endpoints() == s.pods
    requires forall k :: k in s.cluster ==> s.cluster[k].key == k
    modifies ds`pods, ds.pods.Values
    ensures ds.Valid() && ds.Endpoints() == Pods.Next(s, Pods.ReconcilePod(key)).pods
  {
    ReconcilePod(ds, s.cluster, key);
  }

  method ReconcilePoolStep(ds: Datastore, s: Pods.State, pool: Pods.Pool, items: seq<Pods.Pod>)
    requires ds.Valid() && ds.pool == s.pool && ds.Endpoints() == s.pods
    modifies ds, ds.pods.Values
    ensures ds.Valid()
    ensures var s' := Pods.Next(s, Pods.ReconcilePool(pool, items)); ds.pool == s'.pool && ds.Endpoints() == s'.pods
  {
    hide Pods.ResyncAll, Pods.Lingering;
    ReconcilePool(ds, Some(pool), items);
  }
}
