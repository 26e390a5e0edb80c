/**
 The cache of pod endpoints: which pods of the API server are stored, and under which address,
 after any order of pod reconciles, pool reconciles and changes.
 */
module Pods {
  import opened Wrappers
  import opened Kube

  datatype Condition = Condition(kind: string, status: string)

  datatype Pod = Pod(key: Key, labels: map<string, string>, conditions: seq<Condition>, ip: string, terminating: bool)

  datatype Pool = Pool(key: Key, selector: map<string, string>)

  type PodCluster = map<Key, Pod>

  /** Stored pods and their addresses. */
  type Endpoints = map<Key, string>

  predicate Matches(pool: Pool, pod: Pod) {
    forall l :: l in pool.selector ==> l in pod.labels && pod.labels[l] == pool.selector[l]
  }

  /** The first condition of type Ready decides. */
  predicate Ready(conditions: seq<Condition>) {
    conditions != [] && (if conditions[0].kind == "Ready" then conditions[0].status == "True" else Ready(conditions[1..]))
  }

  method PodIsReady(pod: Pod) returns (ready: bool)
    ensures ready <==> Ready(pod.conditions)
  {
    for i := 0 to |pod.conditions|
      invariant Ready(pod.conditions) <==> Ready(pod.conditions[i..])
    {
      assert pod.conditions[i..][1..] == pod.conditions[i + 1..];
      if pod.conditions[i].kind == "Ready" {
        if pod.conditions[i].status == "True" { return true; }
        return false;
      }
    }
    return false;
  }

  /** A pod is ready exactly when it has a Ready condition and the first one is true. */
  lemma {:induction false} ReadyExact(conditions: seq<Condition>)
    ensures Ready(conditions) <==>
            exists i :: 0 <= i < |conditions| && conditions[i] == Condition("Ready", "True")
                        && forall j :: 0 <= j < i ==> conditions[j].kind != "Ready"
  {
    if conditions != [] && conditions[0].kind != "Ready" {
      ReadyExact(conditions[1..]);
      if Ready(conditions) {
        var i :| 0 <= i < |conditions[1..]| && conditions[1..][i] == Condition("Ready", "True")
                 && forall j :: 0 <= j < i ==> conditions[1..][j].kind != "Ready";
        assert conditions[i + 1] == Condition("Ready", "True");
        assert forall j :: 0 <= j < i + 1 ==> conditions[j] == (if j == 0 then conditions[0] else conditions[1..][j - 1]);
      }
      if i :| 0 <= i < |conditions| && conditions[i] == Condition("Ready", "True")
              && forall j :: 0 <= j < i ==> conditions[j].kind != "Ready" {
        assert conditions[1..][i - 1] == Condition("Ready", "True");
        assert forall j :: 0 <= j < i - 1 ==> conditions[1..][j] == conditions[j + 1];
      }
    }
  }

  // ----- which pods belong to a pool -----

  /** Every label of the selector is on the pod, with the same value. */
  predicate Selected(pool: Pool, pod: Pod) {
    pool.selector.Items <= pod.labels.Items
  }

  /** The pod has a Ready condition, and the first one is true. */
  ghost predicate FirstReady(pod: Pod) {
    exists i :: 0 <= i < |pod.conditions| && pod.conditions[i] == Condition("Ready", "True")
                && forall j :: 0 <= j < i ==> pod.conditions[j].kind != "Ready"
  }

  lemma BelongsExact(pool: Pool, pod: Pod)
    ensures Matches(pool, pod) <==> Selected(pool, pod)
    ensures Ready(pod.conditions) <==> FirstReady(pod)
  {
    ReadyExact(pod.conditions);
    if Selected(pool, pod) {
      forall l | l in pool.selector ensures l in pod.labels && pod.labels[l] == pool.selector[l] {
        assert (l, pool.selector[l]) in pool.selector.Items;
        assert (l, pool.selector[l]) in pod.labels.Items;
      }
    }
  }

  // ----- one pod at a time -----

  /** What the pod reconciler wants stored. */
  predicate Wanted(pool: Pool, pod: Pod) {
    !pod.terminating && Matches(pool, pod) && Ready(pod.conditions)
  }

  function ReconcileOne(pool: Pool, cluster: PodCluster, pods: Endpoints, key: Key): Endpoints {
    if key in cluster && Wanted(pool, cluster[key]) then pods[key := cluster[key].ip] else pods - {key}
  }

  function ReconcileEach(pool: Pool, cluster: PodCluster, pods: Endpoints, order: seq<Key>): Endpoints {
    if order == [] then pods
    else ReconcileOne(pool, cluster, ReconcileEach(pool, cluster, pods, order[..|order| - 1]), order[|order| - 1])
  }

  // ----- the whole pool at once -----

  /** Stores the ready pods of a listing. */
  function AddReady(pods: Endpoints, items: seq<Pod>): Endpoints {
    if items == [] then pods
    else
      var pods', pod := AddReady(pods, items[..|items| - 1]), items[|items| - 1];
      if Ready(pod.conditions) then pods'[pod.key := pod.ip] else pods'
  }

  function ActiveNames(items: seq<Pod>): set<string> {
    if items == [] then {}
    else
      var names, pod := ActiveNames(items[..|items| - 1]), items[|items| - 1];
      if Ready(pod.conditions) then names + {pod.key.name} else names
  }

  /** Adds the ready pods of the listing, then removes every stored pod whose name is not among them. */
  function ResyncAll(pods: Endpoints, items: seq<Pod>): Endpoints {
    var added, names := AddReady(pods, items), ActiveNames(items);
    map key | key in added && key.name in names :: added[key]
  }

  /** The answer to a List call with the pool's namespace and selector. */
  ghost predicate ListsPods(pool: Pool, cluster: PodCluster, items: seq<Pod>) {
    forall p :: p in items <==> p.key in cluster && cluster[p.key] == p && p.key.ns == pool.key.ns && Matches(pool, p)
  }

  ghost predicate OneNamespace(ns: string, cluster: PodCluster, pods: Endpoints) {
    && (forall k :: k in cluster ==> cluster[k].key == k && k.ns == ns)
    && (forall k :: k in pods ==> k.ns == ns)
  }

  lemma {:induction false} AddReadyEffect(pods: Endpoints, items: seq<Pod>, key: Key)
    requires forall p, q :: p in items && q in items && p.key == q.key ==> p == q
    ensures key in AddReady(pods, items) <==> key in pods || exists p :: p in items && p.key == key && Ready(p.conditions)
    ensures forall p :: p in items && p.key == key && Ready(p.conditions) ==> AddReady(pods, items)[key] == p.ip
  {
    hide Ready;
    if items != [] {
      var init, last := items[..|items| - 1], items[|items| - 1];
      assert items == init + [last];
      AddReadyEffect(pods, init, key);
    }
  }

  lemma {:induction false} ActiveNamesExact(items: seq<Pod>, n: string)
    ensures n in ActiveNames(items) <==> exists p :: p in items && p.key.name == n && Ready(p.conditions)
  {
    hide Ready;
    if items != [] {
      var init, last := items[..|items| - 1], items[|items| - 1];
      assert items == init + [last];
      ActiveNamesExact(init, n);
    }
  }

  /** A resync stores exactly the ready pods that match, terminating or not, under their addresses. */
  lemma {:induction false} ResyncExact(pool: Pool, cluster: PodCluster, pods: Endpoints, items: seq<Pod>, key: Key)
    requires OneNamespace(pool.key.ns, cluster, pods) && ListsPods(pool, cluster, items)
    ensures key in ResyncAll(pods, items) <==> key in cluster && Selected(pool, cluster[key]) && FirstReady(cluster[key])
    ensures key in ResyncAll(pods, items) ==> ResyncAll(pods, items)[key] == cluster[key].ip
  {
    hide Selected, FirstReady;
    ResyncStores(pool, cluster, pods, items, key);
    if key in cluster { BelongsExact(pool, cluster[key]); }
  }

  lemma ResyncStores(pool: Pool, cluster: PodCluster, pods: Endpoints, items: seq<Pod>, key: Key)
    requires OneNamespace(pool.key.ns, cluster, pods) && ListsPods(pool, cluster, items)
    ensures key in ResyncAll(pods, items) <==> key in cluster && Matches(pool, cluster[key]) && Ready(cluster[key].conditions)
    ensures key in ResyncAll(pods, items) ==> ResyncAll(pods, items)[key] == cluster[key].ip
  {
    hide Ready, Matches;
    AddReadyEffect(pods, items, key);
    ActiveNamesExact(items, key.name);
    if key in cluster && Matches(pool, cluster[key]) && Ready(cluster[key].conditions) {
      assert cluster[key] in items;
    }
    if key in ResyncAll(pods, items) {
      var p :| p in items && p.key.name == key.name && Ready(p.conditions);
      assert key.ns == pool.key.ns by {
        if key !in pods { var q :| q in items && q.key == key && Ready(q.conditions); }
      }
      assert p.key == key;
    }
  }

  lemma {:induction false} EachEffect(pool: Pool, cluster: PodCluster, pods: Endpoints, order: seq<Key>, key: Key)
    ensures var out := ReconcileEach(pool, cluster, pods, order);
            if key in order then
              && (key in out <==> key in cluster && Wanted(pool, cluster[key]))
              && (key in out ==> out[key] == cluster[key].ip)
            else (key in out <==> key in pods) && (key in out ==> out[key] == pods[key])
  {
    if order != [] {
      var init, last := order[..|order| - 1], order[|order| - 1];
      assert order == init + [last];
      EachEffect(pool, cluster, pods, init, key);
    }
  }

  /** The pods on which the two ways of updating the cache disagree. */
  predicate Lingering(pool: Pool, pod: Pod) {
    pod.terminating && Matches(pool, pod) && Ready(pod.conditions)
  }

  /** A resync gives the same keys and addresses as reconciling every cluster pod and every stored
      pod one by one, in any order and with any repetition, exactly when no ready pod of the pool
      is terminating. */
  lemma {:induction false} ResyncVersusEach(pool: Pool, cluster: PodCluster, pods: Endpoints, items: seq<Pod>, order: seq<Key>)
    requires OneNamespace(pool.key.ns, cluster, pods) && ListsPods(pool, cluster, items)
    requires forall k :: k in cluster || k in pods ==> k in order
    ensures ResyncAll(pods, items) == ReconcileEach(pool, cluster, pods, order)
            <==> forall k :: k in cluster ==> !Lingering(pool, cluster[k])
  {
    var a, b := ResyncAll(pods, items), ReconcileEach(pool, cluster, pods, order);
    forall k ensures (k in a <==> k in b) <==> !(k in cluster && Lingering(pool, cluster[k]))
             ensures k in a && k in b ==> a[k] == b[k]
    {
      ResyncStores(pool, cluster, pods, items, k);
      EachEffect(pool, cluster, pods, order, k);
    }
    if forall k :: k in cluster ==> !Lingering(pool, cluster[k]) {
      assert forall k :: k in a <==> k in b;
      assert a == b;
    } else {
      var k :| k in cluster && Lingering(pool, cluster[k]);
      assert !(k in a <==> k in b);
    }
  }

  // ----- runs -----

  /** `unsettled`: pods whose latest state the cache has not taken in. */
  datatype State = State(cluster: PodCluster, pool: Option<Pool>, pods: Endpoints, unsettled: set<Key>)

  datatype Event =
    | SetPod(pod: Pod)
    | RemovePod(key: Key)
    | ReconcilePod(key: Key)
    | ReconcilePool(pool: Pool, items: seq<Pod>)
    | PoolGone

  const EMPTY := State(map[], None, map[], {})

  ghost predicate Enabled(ns: string, s: State, e: Event) {
    match e
    case SetPod(pod) => pod.key.ns == ns
    case RemovePod(_) => true
    case ReconcilePod(_) => true
    case ReconcilePool(pool, items) => pool.key.ns == ns && ListsPods(pool, s.cluster, items)
    case PoolGone => true
  }

  /** A pool reconcile resyncs all pods only if the pool was not set or its selector changed. */
  predicate NeedsResync(s: State, pool: Pool) { s.pool.None? || s.pool.value.selector != pool.selector }

  function Next(s: State, e: Event): State {
    match e
    case SetPod(pod) => s.(cluster := s.cluster[pod.key := pod], unsettled := s.unsettled + {pod.key})
    case RemovePod(key) => s.(cluster := s.cluster - {key}, unsettled := s.unsettled + {key})
    case ReconcilePod(key) =>
      if s.pool.None? then s.(unsettled := s.unsettled - {key})
      else s.(pods := ReconcileOne(s.pool.value, s.cluster, s.pods, key), unsettled := s.unsettled - {key})
    case ReconcilePool(pool, items) =>
      if NeedsResync(s, pool) then
        s.(pool := Some(pool), pods := ResyncAll(s.pods, items),
           unsettled := set key | key in s.cluster && Lingering(pool, s.cluster[key]))
      else s.(pool := Some(pool))
    case PoolGone => s.(pool := None, pods := map[])
  }

  function Run(events: seq<Event>): State {
    if events == [] then EMPTY else Next(Run(events[..|events| - 1]), events[|events| - 1])
  }

  ghost predicate Feasible(ns: string, events: seq<Event>) {
    events == [] ||
    (Feasible(ns, events[..|events| - 1]) && Enabled(ns, Run(events[..|events| - 1]), events[|events| - 1]))
  }

  /** The pod is stored exactly when it should be, under its current address. */
  predicate Agrees(pool: Pool, cluster: PodCluster, pods: Endpoints, key: Key) {
    && (key in pods <==> key in cluster && Wanted(pool, cluster[key]))
    && (key in pods ==> key in cluster && pods[key] == cluster[key].ip)
  }

  ghost predicate Inv(ns: string, s: State) {
    && OneNamespace(ns, s.cluster, s.pods)
    && (s.pool.Some? ==> s.pool.value.key.ns == ns
                         && forall key :: key !in s.unsettled ==> Agrees(s.pool.value, s.cluster, s.pods, key))
  }

  lemma ResyncKeeps(ns: string, s: State, pool: Pool, items: seq<Pod>)
    requires Inv(ns, s) && pool.key.ns == ns && ListsPods(pool, s.cluster, items) && NeedsResync(s, pool)
    ensures Inv(ns, Next(s, ReconcilePool(pool, items)))
  {
    hide ResyncAll, Matches, Ready;
    var s' := Next(s, ReconcilePool(pool, items));
    forall key ensures key in s'.pods ==> key.ns == ns
               ensures key !in s'.unsettled ==> Agrees(pool, s'.cluster, s'.pods, key)
    {
      ResyncStores(pool, s.cluster, s.pods, items, key);
    }
  }

  lemma SameSelectorKeeps(ns: string, s: State, pool: Pool, items: seq<Pod>)
    requires Inv(ns, s) && pool.key.ns == ns && !NeedsResync(s, pool)
    ensures Inv(ns, Next(s, ReconcilePool(pool, items)))
  {
    hide Ready;
    assert forall pod :: Matches(pool, pod) <==> Matches(s.pool.value, pod);
  }

  lemma NextKeeps(ns: string, s: State, e: Event)
    requires Inv(ns, s) && Enabled(ns, s, e)
    ensures Inv(ns, Next(s, e))
  {
    hide Matches, Ready, ResyncAll;
    if e.ReconcilePool? {
      if NeedsResync(s, e.pool) { ResyncKeeps(ns, s, e.pool, e.items); } else { SameSelectorKeeps(ns, s, e.pool, e.items); }
    }
  }

  lemma {:induction false} RunKeeps(ns: string, events: seq<Event>)
    requires Feasible(ns, events)
    ensures Inv(ns, Run(events))
  {
    hide Next;
    if events != [] {
      RunKeeps(ns, events[..|events| - 1]);
      NextKeeps(ns, Run(events[..|events| - 1]), events[|events| - 1]);
    }
  }

  /** Along every run with a pool set, each pod whose latest state was taken in, singly or by a
      resync, is stored exactly when it is not terminating, carries the labels of the stored pool's
      selector and is ready, and then under its current address. */
  lemma {:induction false} CacheAgrees(ns: string, events: seq<Event>, key: Key)
    requires Feasible(ns, events) && Run(events).pool.Some? && key !in Run(events).unsettled
    ensures var s := Run(events);
            && (key in s.pods <==>
                key in s.cluster && !s.cluster[key].terminating && Selected(s.pool.value, s.cluster[key]) && FirstReady(s.cluster[key]))
            && (key in s.pods ==> s.pods[key] == s.cluster[key].ip)
  {
    hide Run, Matches, Ready, Selected, FirstReady;
    RunKeeps(ns, events);
    var s := Run(events);
    assert Agrees(s.pool.value, s.cluster, s.pods, key);
    if key in s.cluster { BelongsExact(s.pool.value, s.cluster[key]); }
  }
}
