/**
 The cache of InferenceModels and its reconciler, as functions on the `models` map.  For every
 model name the cache should hold the oldest eligible object of the API server.
 */
module Models {
  import opened Wrappers
  import opened Kube

  /** `spec` stands for the fields of an InferenceModel that play no part in choosing it. */
  datatype Model = Model(key: Key, modelName: string, poolRef: string, created: int, deleting: bool, spec: int)

  type Cluster = map<Key, Model>
  type Store = map<string, Model>

  /** The pool this endpoint picker serves. */
  predicate Eligible(pool: Key, m: Model) { m.poolRef == pool.name && !m.deleting }

  // ----- store operations -----

  predicate KeepsExisting(models: Store, m: Model) {
    m.modelName in models && models[m.modelName].key != m.key && models[m.modelName].created < m.created
  }

  function SetIfOlder(models: Store, m: Model): Store {
    if KeepsExisting(models, m) then models else models[m.modelName := m]
  }

  /** The first of the oldest candidates in a listing. */
  function Oldest(pool: Key, items: seq<Model>, modelName: string): Option<Model> {
    if items == [] then None
    else
      var m, best := items[|items| - 1], Oldest(pool, items[..|items| - 1], modelName);
      if m.modelName != modelName || !Eligible(pool, m) then best
      else if best.None? || m.created < best.value.created then Some(m) else best
  }

  function Resync(pool: Key, models: Store, items: seq<Model>, modelName: string): Store {
    var oldest := Oldest(pool, items, modelName);
    if oldest.None? then models else models[modelName := oldest.value]
  }

  /** The model name under which an object is stored. */
  ghost predicate StoredAs(models: Store, key: Key, n: string) { n in models && models[n].key == key }

  /** A listing of the objects with a model name, in some order. */
  ghost predicate Lists(cluster: Cluster, items: seq<Model>, modelName: string) {
    forall m :: m in items <==> m.key in cluster && cluster[m.key] == m && m.modelName == modelName
  }

  lemma {:induction false} OldestIsOldest(pool: Key, items: seq<Model>, modelName: string)
    ensures var o := Oldest(pool, items, modelName);
            && (o.Some? ==> o.value in items && o.value.modelName == modelName && Eligible(pool, o.value))
            && (forall m :: m in items && m.modelName == modelName && Eligible(pool, m) ==>
                  o.Some? && o.value.created <= m.created)
  {
    if items != [] {
      var init, last := items[..|items| - 1], items[|items| - 1];
      OldestIsOldest(pool, init, modelName);
      assert items == init + [last];
    }
  }

  /** Of several oldest candidates, the resync takes the first of the listing. */
  lemma {:induction false} FirstOldest(pool: Key, items: seq<Model>, modelName: string) returns (i: nat)
    requires Oldest(pool, items, modelName).Some?
    ensures i < |items| && items[i] == Oldest(pool, items, modelName).value
    ensures forall j :: 0 <= j < i && items[j].modelName == modelName && items[j].poolRef == pool.name && !items[j].deleting ==>
              items[i].created < items[j].created
  {
    var init, last := items[..|items| - 1], items[|items| - 1];
    OldestIsOldest(pool, init, modelName);
    if Oldest(pool, init, modelName).Some? && Oldest(pool, items, modelName) == Oldest(pool, init, modelName) {
      i := FirstOldest(pool, init, modelName);
      assert init[i] == items[i] && forall j :: 0 <= j < i ==> init[j] == items[j];
    } else {
      i := |items| - 1;
      assert forall j :: 0 <= j < i ==> items[j] in init;
    }
  }

  // ----- the reconciler over a changing API server -----

  /** `pending`: objects with an unprocessed change.  `known`: objects the store has taken into account
      since it was last cleared, by a reconcile of their own or by the backfill of their model
      name, and that have been eligible ever since. */
  datatype State = State(cluster: Cluster, models: Store, poolSet: bool, pending: set<Key>, known: set<Key>, cleared: bool)

  datatype Event =
    | Create(m: Model)
    | Update(m: Model)
    | Remove(key: Key)
    | Reconcile(key: Key, stored: string, items: seq<Model>)
    | ClearStore
    | SetPool

  const EMPTY := State(map[], map[], false, {}, {}, false)

  /** The event filter of the controller. */
  predicate Watched(pool: Key, m: Model) { m.poolRef == pool.name }

  predicate Live(pool: Key, s: State, key: Key) { key in s.cluster && Eligible(pool, s.cluster[key]) }

  /** What may happen.  Updates change neither name nor creation time, listings are complete, and
      the pool is known when a deleted entry is replaced (the code dereferences it).  An object may
      be created again, under any model name, while its deletion is still unprocessed. */
  ghost predicate Enabled(pool: Key, s: State, e: Event) {
    match e
    case Create(m) => m.key !in s.cluster
    case Update(m) => m.key in s.cluster && m.modelName == s.cluster[m.key].modelName && m.created == s.cluster[m.key].created
    case Remove(key) => key in s.cluster
    case Reconcile(key, stored, items) =>
      !Live(pool, s, key) && (exists n :: StoredAs(s.models, key, n)) ==>
        StoredAs(s.models, key, stored) && Lists(s.cluster, items, stored) && s.poolSet
    case ClearStore => true
    case SetPool => true
  }

  /** InferenceModelReconciler.Reconcile on the store. */
  function Reconciled(pool: Key, s: State, key: Key, stored: string, items: seq<Model>): Store {
    if Live(pool, s, key) then SetIfOlder(s.models, s.cluster[key])
    else if stored in s.models && s.models[stored].key == key then Resync(pool, s.models - {stored}, items, stored)
    else s.models
  }

  function KnownAfter(pool: Key, s: State, key: Key, stored: string): set<Key> {
    if Live(pool, s, key) then s.known + {key}
    else if stored in s.models && s.models[stored].key == key then
      s.known - {key} + set k | k in s.cluster && Eligible(pool, s.cluster[k]) && s.cluster[k].modelName == stored
    else s.known - {key}
  }

  function Next(pool: Key, s: State, e: Event): State {
    match e
    case Create(m) =>
      s.(cluster := s.cluster[m.key := m], pending := if Watched(pool, m) then s.pending + {m.key} else s.pending)
    case Update(m) =>
      var watched := Watched(pool, m) || (m.key in s.cluster && Watched(pool, s.cluster[m.key]));
      s.(cluster := s.cluster[m.key := m],
         pending := if watched then s.pending + {m.key} else s.pending,
         known := if Eligible(pool, m) then s.known else s.known - {m.key})
    case Remove(key) =>
      var watched := key in s.cluster && Watched(pool, s.cluster[key]);
      s.(cluster := s.cluster - {key},
         pending := if watched then s.pending + {key} else s.pending,
         known := s.known - {key})
    case Reconcile(key, stored, items) =>
      s.(models := Reconciled(pool, s, key, stored, items),
         pending := s.pending - {key},
         known := KnownAfter(pool, s, key, stored))
    case ClearStore => s.(models := map[], poolSet := false, known := {}, cleared := true)
    case SetPool => s.(poolSet := true)
  }

  function Run(pool: Key, events: seq<Event>): State {
    if events == [] then EMPTY else Next(pool, Run(pool, events[..|events| - 1]), events[|events| - 1])
  }

  ghost predicate Feasible(pool: Key, events: seq<Event>) {
    events == [] ||
    (Feasible(pool, events[..|events| - 1]) &&
     Enabled(pool, Run(pool, events[..|events| - 1]), events[|events| - 1]))
  }

  // ----- the rule -----

  ghost predicate Keyed(s: State) { forall k :: k in s.cluster ==> s.cluster[k].key == k }

  /** Each entry is an eligible version of some object, under its own model name. */
  ghost predicate Named(pool: Key, s: State) {
    forall n :: n in s.models ==> s.models[n].modelName == n && Eligible(pool, s.models[n])
  }

  /** An entry is the current version of its object, unless a change of the object is pending. */
  ghost predicate UpToDate(s: State) {
    forall n :: n in s.models && s.models[n].key !in s.pending ==>
      s.models[n].key in s.cluster && s.cluster[s.models[n].key] == s.models[n]
  }

  /** The entry for the model name of every known object is no younger than the object. */
  ghost predicate NoYounger(pool: Key, s: State) {
    forall k :: k in s.known ==>
      && Live(pool, s, k)
      && s.cluster[k].modelName in s.models
      && s.models[s.cluster[k].modelName].created <= s.cluster[k].created
  }

  ghost predicate Served(s: State) {
    forall n :: n in s.models ==> s.models[n].key in s.pending || s.models[n].key in s.known
  }

  /** "The oldest model wins", as far as the store has been told. */
  ghost predicate Rule(pool: Key, s: State) {
    Keyed(s) && Named(pool, s) && UpToDate(s) && NoYounger(pool, s) && Served(s)
  }

  /** What a reconcile must find.  For a live object: no entry of an earlier incarnation under another
      name, and if its own name's entry is an earlier incarnation, no older known object of that
      name.  For an object that is gone: no second entry. */
  ghost predicate Clean(pool: Key, s: State, e: Event) {
    e.Reconcile? ==>
      if Live(pool, s, e.key) then
        var m := s.cluster[e.key];
        && (forall n :: StoredAs(s.models, e.key, n) ==> n == m.modelName)
        && (StoredAs(s.models, e.key, m.modelName) ==>
              forall k :: k in s.known && k in s.cluster && s.cluster[k].modelName == m.modelName ==>
                m.created <= s.cluster[k].created)
      else forall n :: StoredAs(s.models, e.key, n) ==> n == e.stored
  }

  lemma SetBreaks(pool: Key, s: State, key: Key, stored: string, items: seq<Model>)
    requires Rule(pool, s) && Live(pool, s, key) && !Clean(pool, s, Reconcile(key, stored, items))
    ensures !Rule(pool, Next(pool, s, Reconcile(key, stored, items)))
  {
    hide Served;
    var m, s' := s.cluster[key], Next(pool, s, Reconcile(key, stored, items));
    if n :| StoredAs(s.models, key, n) && n != m.modelName {
      assert n in s'.models && s'.models[n] == s.models[n] && !UpToDate(s');
    } else {
      var k :| k in s.known && k in s.cluster && s.cluster[k].modelName == m.modelName && m.created > s.cluster[k].created;
      assert s'.models[m.modelName] == m && k in s'.known && !NoYounger(pool, s');
    }
  }

  lemma SetKeepsEntries(pool: Key, s: State, key: Key, stored: string, items: seq<Model>)
    requires Rule(pool, s) && Live(pool, s, key) && Clean(pool, s, Reconcile(key, stored, items))
    ensures var s' := Next(pool, s, Reconcile(key, stored, items)); Named(pool, s') && UpToDate(s') && Served(s')
  {
    hide NoYounger;
    assert forall n :: n in s.models && n != s.cluster[key].modelName ==> !StoredAs(s.models, key, n);
  }

  lemma SetKeepsAges(pool: Key, s: State, key: Key, stored: string, items: seq<Model>)
    requires Rule(pool, s) && Live(pool, s, key) && Clean(pool, s, Reconcile(key, stored, items))
    ensures NoYounger(pool, Next(pool, s, Reconcile(key, stored, items)))
  {
    hide Named, UpToDate, Served;
  }

  lemma SetKeeps(pool: Key, s: State, key: Key, stored: string, items: seq<Model>)
    requires Rule(pool, s) && Live(pool, s, key) && Clean(pool, s, Reconcile(key, stored, items))
    ensures Rule(pool, Next(pool, s, Reconcile(key, stored, items)))
  {
    hide Clean, Named, UpToDate, Served, NoYounger, Reconciled, KnownAfter;
    SetKeepsEntries(pool, s, key, stored, items);
    SetKeepsAges(pool, s, key, stored, items);
  }

  lemma DeleteBreaks(pool: Key, s: State, key: Key, stored: string, items: seq<Model>)
    requires Rule(pool, s) && !Live(pool, s, key) && StoredAs(s.models, key, stored)
    requires !Clean(pool, s, Reconcile(key, stored, items))
    ensures !Rule(pool, Next(pool, s, Reconcile(key, stored, items)))
  {
    hide Served, Keyed, NoYounger;
    var s' := Next(pool, s, Reconcile(key, stored, items));
    var n :| StoredAs(s.models, key, n) && n != stored;
    assert n in s'.models && s'.models[n] == s.models[n] && !UpToDate(s');
  }

  lemma DeleteKeepsEntries(pool: Key, s: State, key: Key, stored: string, items: seq<Model>)
    requires Rule(pool, s) && !Live(pool, s, key) && StoredAs(s.models, key, stored) && Lists(s.cluster, items, stored)
    requires Clean(pool, s, Reconcile(key, stored, items))
    ensures var s' := Next(pool, s, Reconcile(key, stored, items)); Named(pool, s') && UpToDate(s') && Served(s')
  {
    hide NoYounger, Oldest;
    OldestIsOldest(pool, items, stored);
    assert forall n :: n in s.models && n != stored ==> !StoredAs(s.models, key, n);
  }

  lemma DeleteKeepsAges(pool: Key, s: State, key: Key, stored: string, items: seq<Model>)
    requires Rule(pool, s) && !Live(pool, s, key) && StoredAs(s.models, key, stored) && Lists(s.cluster, items, stored)
    ensures NoYounger(pool, Next(pool, s, Reconcile(key, stored, items)))
  {
    hide Named, UpToDate, Served, Oldest;
    OldestIsOldest(pool, items, stored);
    forall k | Live(pool, s, k) && s.cluster[k].modelName == stored ensures s.cluster[k] in items {
      assert s.cluster[k].key == k;
    }
  }

  lemma DeleteKeeps(pool: Key, s: State, key: Key, stored: string, items: seq<Model>)
    requires Rule(pool, s) && !Live(pool, s, key) && StoredAs(s.models, key, stored) && Lists(s.cluster, items, stored)
    requires Clean(pool, s, Reconcile(key, stored, items))
    ensures Rule(pool, Next(pool, s, Reconcile(key, stored, items)))
  {
    hide Clean, Named, UpToDate, Served, NoYounger, Reconciled, KnownAfter, Lists;
    DeleteKeepsEntries(pool, s, key, stored, items);
    DeleteKeepsAges(pool, s, key, stored, items);
  }

  lemma NothingStored(pool: Key, s: State, key: Key, stored: string, items: seq<Model>)
    requires Rule(pool, s) && !Live(pool, s, key) && !exists n :: StoredAs(s.models, key, n)
    ensures Rule(pool, Next(pool, s, Reconcile(key, stored, items))) && Clean(pool, s, Reconcile(key, stored, items))
  {
    assert forall n :: n in s.models ==> !StoredAs(s.models, key, n);
    assert !StoredAs(s.models, key, stored);
  }

  lemma CreateKeeps(pool: Key, s: State, m: Model)
    requires Rule(pool, s) && m.key !in s.cluster
    ensures Rule(pool, Next(pool, s, Create(m)))
  {
  }

  lemma UpdateKeeps(pool: Key, s: State, m: Model)
    requires Rule(pool, s) && Enabled(pool, s, Update(m))
    ensures Rule(pool, Next(pool, s, Update(m)))
  {
  }

  lemma RemoveKeeps(pool: Key, s: State, key: Key)
    requires Rule(pool, s) && key in s.cluster
    ensures Rule(pool, Next(pool, s, Remove(key)))
  {
  }

  /** Who serves a name after the reconcile of a live object of that name: the object itself, unless the
      entry is another object's and strictly older; then that one stays.  No other name changes. */
  lemma {:induction false} ReconcileServes(pool: Key, s: State, key: Key, stored: string, items: seq<Model>)
    requires Live(pool, s, key)
    ensures var m, models := s.cluster[key], Next(pool, s, Reconcile(key, stored, items)).models;
            && models.Keys == s.models.Keys + {m.modelName}
            && (forall n :: n in s.models && n != m.modelName ==> models[n] == s.models[n])
            && (models[m.modelName] == m || models[m.modelName] == s.models[m.modelName])
            && (models[m.modelName] != m <==>
                  && m.modelName in s.models && s.models[m.modelName].key != m.key
                  && s.models[m.modelName].created < m.created)
  {
  }

  /** Exactly which steps keep the rule: all of them, except reconciles that are not clean. */
  lemma {:induction false} StepExact(pool: Key, s: State, e: Event)
    requires Rule(pool, s) && Enabled(pool, s, e)
    ensures Rule(pool, Next(pool, s, e)) <==> Clean(pool, s, e)
  {
    match e
    case Reconcile(key, stored, items) =>
      if Live(pool, s, key) {
        if Clean(pool, s, e) { SetKeeps(pool, s, key, stored, items); } else { SetBreaks(pool, s, key, stored, items); }
      } else if exists n :: StoredAs(s.models, key, n) {
        if Clean(pool, s, e) { DeleteKeeps(pool, s, key, stored, items); } else { DeleteBreaks(pool, s, key, stored, items); }
      } else {
        NothingStored(pool, s, key, stored, items);
      }
    case Create(m) => CreateKeeps(pool, s, m);
    case Update(m) => UpdateKeeps(pool, s, m);
    case Remove(key) => RemoveKeeps(pool, s, key);
    case ClearStore =>
    case SetPool =>
  }

  // ----- runs -----

  /** Every reconcile of the run is clean. */
  ghost predicate CleanRun(pool: Key, events: seq<Event>) {
    events == [] ||
    (CleanRun(pool, events[..|events| - 1]) && Clean(pool, Run(pool, events[..|events| - 1]), events[|events| - 1]))
  }

  /** The rule holds after every step of the run. */
  ghost predicate RuleThroughout(pool: Key, events: seq<Event>) {
    Rule(pool, Run(pool, events)) && (events == [] || RuleThroughout(pool, events[..|events| - 1]))
  }

  /** A run keeps the rule throughout if and only if all its reconciles are clean. */
  lemma {:induction false} RunExact(pool: Key, events: seq<Event>)
    requires Feasible(pool, events)
    ensures RuleThroughout(pool, events) <==> CleanRun(pool, events)
  {
    hide Rule, Clean, Next;
    if events == [] {
      EmptyRule(pool);
    } else {
      var before, e := events[..|events| - 1], events[|events| - 1];
      RunExact(pool, before);
      if Rule(pool, Run(pool, before)) { StepExact(pool, Run(pool, before), e); }
      if CleanRun(pool, before) { assert Rule(pool, Run(pool, before)); }
    }
  }

  lemma EmptyRule(pool: Key)
    ensures Rule(pool, EMPTY)
  {
  }

  /** Along every clean run, the model name of each known object is served by an entry that is no
      younger than the object. */
  lemma {:induction false} OldestWins(pool: Key, events: seq<Event>, key: Key)
    requires Feasible(pool, events) && CleanRun(pool, events)
    ensures var s := Run(pool, events);
            key in s.known ==>
              && key in s.cluster && Eligible(pool, s.cluster[key])
              && s.cluster[key].modelName in s.models
              && s.models[s.cluster[key].modelName].created <= s.cluster[key].created
  {
    RunExact(pool, events);
  }

  /** `m` is an object of the API server that refers to the pool and is not being deleted, the oldest of
      those with its model name. */
  ghost predicate IsOldest(pool: Key, cluster: Cluster, m: Model) {
    && m.key in cluster && cluster[m.key] == m && m.poolRef == pool.name && !m.deleting
    && forall k :: k in cluster && cluster[k].modelName == m.modelName && cluster[k].poolRef == pool.name && !cluster[k].deleting ==>
         m.created <= cluster[k].created
  }

  /** The store holds for each model name of such an object one oldest such object, and nothing else. */
  ghost predicate Exact(pool: Key, s: State) {
    && (forall n :: n in s.models ==> s.models[n].modelName == n && IsOldest(pool, s.cluster, s.models[n]))
    && (forall k :: k in s.cluster && s.cluster[k].poolRef == pool.name && !s.cluster[k].deleting ==> s.cluster[k].modelName in s.models)
  }

  /** The store has taken into account an object of this one's name that is no younger. */
  ghost predicate Accounted(s: State, o: Model) {
    exists k :: k in s.known && k in s.cluster && s.cluster[k].modelName == o.modelName && s.cluster[k].created <= o.created
  }

  /** With nothing pending, the store is exact if and only if for every eligible object an object of
      its name that is no younger was reconciled or backfilled since the store was last cleared. */
  lemma {:induction false} QuiescentIsExact(pool: Key, events: seq<Event>)
    requires Feasible(pool, events) && CleanRun(pool, events) && Run(pool, events).pending == {}
    ensures var s := Run(pool, events);
            Exact(pool, s) <==> forall k :: Live(pool, s, k) ==> Accounted(s, s.cluster[k])
  {
    RunExact(pool, events);
    QuiescentState(pool, Run(pool, events));
  }

  lemma ExactAccounts(pool: Key, s: State, k: Key)
    requires Rule(pool, s) && s.pending == {} && Exact(pool, s) && Live(pool, s, k)
    ensures Accounted(s, s.cluster[k])
  {
    hide NoYounger, Keyed;
    var e := s.models[s.cluster[k].modelName];
    assert e.key in s.known && s.cluster[e.key] == e;
  }

  lemma AccountedIsServed(pool: Key, s: State, k: Key)
    requires Rule(pool, s) && Live(pool, s, k) && Accounted(s, s.cluster[k])
    ensures s.cluster[k].modelName in s.models && s.models[s.cluster[k].modelName].created <= s.cluster[k].created
  {
    hide Named, UpToDate, Served, Keyed;
  }

  lemma QuiescentState(pool: Key, s: State)
    requires Rule(pool, s) && s.pending == {}
    ensures Exact(pool, s) <==> forall k :: Live(pool, s, k) ==> Accounted(s, s.cluster[k])
  {
    hide NoYounger, Served, Keyed, Accounted;
    if Exact(pool, s) {
      forall k | Live(pool, s, k) ensures Accounted(s, s.cluster[k]) { ExactAccounts(pool, s, k); }
    }
    if forall k :: Live(pool, s, k) ==> Accounted(s, s.cluster[k]) {
      forall k | Live(pool, s, k)
        ensures s.cluster[k].modelName in s.models && s.models[s.cluster[k].modelName].created <= s.cluster[k].created
      {
        AccountedIsServed(pool, s, k);
      }
      forall n | n in s.models ensures s.models[n].modelName == n && IsOldest(pool, s.cluster, s.models[n]) {
        assert forall k :: k in s.cluster && s.cluster[k].modelName == n && Eligible(pool, s.cluster[k]) ==> Live(pool, s, k);
      }
    }
  }

  // ----- deletions that are processed before the object is created again -----

  ghost predicate Observed(pool: Key, events: seq<Event>) {
    events == [] ||
    (var before, e := events[..|events| - 1], events[|events| - 1];
     Observed(pool, before) && (e.Create? ==> e.m.key !in Run(pool, before).pending))
  }

  /** Entries belong to different objects, each to the incarnation that exists, if one does. */
  ghost predicate OneIncarnation(s: State) {
    && (forall n, n' :: n in s.models && n' in s.models && s.models[n].key == s.models[n'].key ==> n == n')
    && (forall n :: n in s.models && s.models[n].key in s.cluster ==>
          s.cluster[s.models[n].key].modelName == n && s.cluster[s.models[n].key].created == s.models[n].created)
  }

  ghost predicate AllKnown(pool: Key, s: State) {
    forall k :: Live(pool, s, k) && k !in s.pending ==> k in s.known
  }

  lemma IncarnationIsClean(pool: Key, s: State, e: Event)
    requires Rule(pool, s) && OneIncarnation(s) && Enabled(pool, s, e)
    ensures Clean(pool, s, e)
  {
  }

  lemma DeleteKeepsIncarnation(pool: Key, s: State, key: Key, stored: string, items: seq<Model>)
    requires Rule(pool, s) && OneIncarnation(s) && !Live(pool, s, key) && Lists(s.cluster, items, stored)
    requires StoredAs(s.models, key, stored)
    ensures OneIncarnation(Next(pool, s, Reconcile(key, stored, items)))
  {
    hide NoYounger, Served;
    OldestIsOldest(pool, items, stored);
  }

  lemma SetKeepsIncarnation(pool: Key, s: State, key: Key, stored: string, items: seq<Model>)
    requires Rule(pool, s) && OneIncarnation(s) && Live(pool, s, key)
    ensures OneIncarnation(Next(pool, s, Reconcile(key, stored, items)))
  {
    hide NoYounger, Served, UpToDate;
  }

  lemma ClusterChangeKeepsIncarnation(pool: Key, s: State, e: Event)
    requires Rule(pool, s) && OneIncarnation(s) && Enabled(pool, s, e) && (e.Create? ==> e.m.key !in s.pending)
    requires !e.Reconcile?
    ensures OneIncarnation(Next(pool, s, e))
  {
    hide NoYounger, Served, Resync;
  }

  lemma IncarnationKept(pool: Key, s: State, e: Event)
    requires Rule(pool, s) && OneIncarnation(s) && Enabled(pool, s, e) && (e.Create? ==> e.m.key !in s.pending)
    ensures OneIncarnation(Next(pool, s, e))
  {
    hide Rule, OneIncarnation, Resync, SetIfOlder, Eligible;
    if !e.Reconcile? {
      ClusterChangeKeepsIncarnation(pool, s, e);
    } else if Live(pool, s, e.key) {
      SetKeepsIncarnation(pool, s, e.key, e.stored, e.items);
    } else if StoredAs(s.models, e.key, e.stored) {
      DeleteKeepsIncarnation(pool, s, e.key, e.stored, e.items);
    } else {
      SameStore(s, Next(pool, s, e));
    }
  }

  lemma SameStore(s: State, s': State)
    requires OneIncarnation(s) && s'.models == s.models && s'.cluster == s.cluster
    ensures OneIncarnation(s')
  {
  }

  lemma AllKnownKept(pool: Key, s: State, e: Event)
    requires AllKnown(pool, s) && Enabled(pool, s, e) && !e.ClearStore?
    ensures AllKnown(pool, Next(pool, s, e))
  {
  }

  /** If every deletion is processed before the object is created again, every reconcile is clean;
      and if the store was never cleared, every eligible object without a pending change is known. */
  lemma {:induction false} ObservedIsClean(pool: Key, events: seq<Event>)
    requires Feasible(pool, events) && Observed(pool, events)
    ensures CleanRun(pool, events) && Rule(pool, Run(pool, events)) && OneIncarnation(Run(pool, events))
    ensures !Run(pool, events).cleared ==> AllKnown(pool, Run(pool, events))
  {
    hide Rule, Clean, OneIncarnation, AllKnown;
    if events == [] {
      EmptyRule(pool);
      EmptyIncarnation(pool);
    } else {
      var before, e := events[..|events| - 1], events[|events| - 1];
      var s := Run(pool, before);
      ObservedIsClean(pool, before);
      IncarnationIsClean(pool, s, e);
      IncarnationKept(pool, s, e);
      StepExact(pool, s, e);
      if !s.cleared && !e.ClearStore? { AllKnownKept(pool, s, e); }
    }
  }

  lemma EmptyIncarnation(pool: Key)
    ensures OneIncarnation(EMPTY) && AllKnown(pool, EMPTY)
  {
  }

  /** Then, with nothing pending and no clear, the store is exact. */
  lemma {:induction false} ObservedIsExact(pool: Key, events: seq<Event>)
    requires Feasible(pool, events) && Observed(pool, events)
    requires Run(pool, events).pending == {} && !Run(pool, events).cleared
    ensures Exact(pool, Run(pool, events))
  {
    ObservedIsClean(pool, events);
    QuiescentState(pool, Run(pool, events));
    var s := Run(pool, events);
    forall k | Live(pool, s, k) ensures Accounted(s, s.cluster[k]) { assert k in s.known; }
  }

  // ----- runs in which the rule fails -----

  lemma OneMore(pool: Key, events: seq<Event>, e: Event)
    ensures Run(pool, events + [e]) == Next(pool, Run(pool, events), e)
    ensures Feasible(pool, events + [e]) <==> Feasible(pool, events) && Enabled(pool, Run(pool, events), e)
  {
    hide Next, Enabled;
    assert (events + [e])[..|events|] == events;
  }

  /** Two objects a and b, both named "n". */
  function BothCreated(pool: Key): seq<Event> {
    [Create(Model(Key(pool.ns, "a"), "n", pool.name, 1, false, 0))] + [Create(Model(Key(pool.ns, "b"), "n", pool.name, 2, false, 0))]
  }

  /** Both are reconciled, and a is deleted unseen. */
  function DeletedUnseen(pool: Key): seq<Event> {
    var a, b := Key(pool.ns, "a"), Key(pool.ns, "b");
    BothCreated(pool) + [Reconcile(a, "", [])] + [Reconcile(b, "", [])] + [Remove(a)]
  }

  /** Then a is created again, under some name, and reconciled. */
  function Recreated(pool: Key, name: string): seq<Event> {
    DeletedUnseen(pool) + [Create(Model(Key(pool.ns, "a"), name, pool.name, 3, false, 0))]
  }

  function Again(pool: Key): Event { Reconcile(Key(pool.ns, "a"), "", []) }

  lemma BothCreatedState(pool: Key)
    ensures Feasible(pool, BothCreated(pool))
    ensures var a, b := Key(pool.ns, "a"), Key(pool.ns, "b");
            var s := Run(pool, BothCreated(pool));
            && s.cluster == map[a := Model(a, "n", pool.name, 1, false, 0), b := Model(b, "n", pool.name, 2, false, 0)]
            && s.models == map[] && s.pending == {a, b} && s.known == {}
  {
    var e1 := Create(Model(Key(pool.ns, "a"), "n", pool.name, 1, false, 0));
    OneMore(pool, [], e1);
    assert [] + [e1] == [e1];
    OneMore(pool, [e1], Create(Model(Key(pool.ns, "b"), "n", pool.name, 2, false, 0)));
    hide Run, Feasible;
  }

  lemma DeletedUnseenState(pool: Key)
    ensures Feasible(pool, DeletedUnseen(pool))
    ensures var a, b := Key(pool.ns, "a"), Key(pool.ns, "b");
            var s := Run(pool, DeletedUnseen(pool));
            && s.cluster == map[b := Model(b, "n", pool.name, 2, false, 0)]
            && s.models == map["n" := Model(a, "n", pool.name, 1, false, 0)]
            && s.pending == {a} && s.known == {b}
  {
    hide Run, Feasible, BothCreated, Resync;
    var a, b := Key(pool.ns, "a"), Key(pool.ns, "b");
    var e3, e4 := Reconcile(a, "", []), Reconcile(b, "", []);
    BothCreatedState(pool);
    OneMore(pool, BothCreated(pool), e3);
    OneMore(pool, BothCreated(pool) + [e3], e4);
    OneMore(pool, BothCreated(pool) + [e3] + [e4], Remove(a));
  }

  lemma RecreatedState(pool: Key, name: string)
    ensures Feasible(pool, Recreated(pool, name)) && Feasible(pool, Recreated(pool, name) + [Again(pool)])
    ensures var a, b := Key(pool.ns, "a"), Key(pool.ns, "b");
            var s, s' := Run(pool, Recreated(pool, name)), Run(pool, Recreated(pool, name) + [Again(pool)]);
            && s.cluster == map[a := Model(a, name, pool.name, 3, false, 0), b := Model(b, "n", pool.name, 2, false, 0)]
            && s.models == map["n" := Model(a, "n", pool.name, 1, false, 0)] && s.known == {b} && s'.pending == {}
            && s'.cluster == s.cluster && s'.models == SetIfOlder(s.models, s.cluster[a]) && s'.known == {a, b}
  {
    hide Run, Feasible, DeletedUnseen;
    DeletedUnseenState(pool);
    OneMore(pool, DeletedUnseen(pool), Create(Model(Key(pool.ns, "a"), name, pool.name, 3, false, 0)));
    OneMore(pool, Recreated(pool, name), Again(pool));
  }

  /** If a is created again as "n" before the deletion is processed, its reconcile puts the new, younger
      incarnation in charge of "n" although b is known. */
  lemma {:induction false} UnseenRecreation(pool: Key)
    ensures var b := Key(pool.ns, "b");
            var before, after := Recreated(pool, "n"), Recreated(pool, "n") + [Again(pool)];
            var s := Run(pool, after);
            && Feasible(pool, after) && !Clean(pool, Run(pool, before), Again(pool))
            && s.pending == {} && b in s.known && b in s.cluster
            && "n" in s.models && s.models["n"].created == 3 && s.cluster[b].created == 2
  {
    hide Run, Feasible, Recreated;
    RecreatedState(pool, "n");
    var s := Run(pool, Recreated(pool, "n"));
    var a, b := Key(pool.ns, "a"), Key(pool.ns, "b");
    assert a != b && StoredAs(s.models, a, "n") && b in s.known && s.cluster[b].created == 2;
  }

  /** An entry whose object is now eligible under another name, older than every object of its name. */
  ghost predicate Stale(pool: Key, s: State, n: string, m: Model) {
    && n in s.models && s.models[n] == m
    && Live(pool, s, m.key) && s.cluster[m.key].modelName != n
    && forall k :: k in s.cluster && s.cluster[k].modelName == n ==> s.cluster[k].created > m.created
  }

  /** The event neither takes the object away nor clears the store, and creates nothing that old. */
  predicate Spares(pool: Key, n: string, m: Model, e: Event) {
    && !e.ClearStore?
    && !(e.Remove? && e.key == m.key)
    && !(e.Update? && e.m.key == m.key && !Eligible(pool, e.m))
    && !(e.Create? && e.m.modelName == n && e.m.created <= m.created)
  }

  lemma StaleStays(pool: Key, s: State, n: string, m: Model, e: Event)
    requires Keyed(s) && Stale(pool, s, n, m) && Enabled(pool, s, e) && Spares(pool, n, m, e)
    ensures Keyed(Next(pool, s, e)) && Stale(pool, Next(pool, s, e), n, m)
  {
  }

  lemma {:induction false} StaleForGood(pool: Key, events: seq<Event>, more: seq<Event>, n: string, m: Model)
    requires Keyed(Run(pool, events)) && Stale(pool, Run(pool, events), n, m)
    requires Feasible(pool, events + more) && forall e :: e in more ==> Spares(pool, n, m, e)
    ensures Keyed(Run(pool, events + more)) && Stale(pool, Run(pool, events + more), n, m)
    decreases |more|
  {
    hide Run, Next, Enabled, Feasible, Stale, Keyed, Spares;
    if more == [] {
      assert events + more == events;
    } else {
      var before, e := more[..|more| - 1], more[|more| - 1];
      assert more == before + [e] && events + more == (events + before) + [e];
      OneMore(pool, events + before, e);
      StaleForGood(pool, events, before, n, m);
      StaleStays(pool, Run(pool, events + before), n, m, e);
    }
  }

  /** If a is created again under another name, "n" is served by the deleted object although nothing is
      pending and b is known, and it stays so however the run goes on, as long as a stays eligible,
      the store is not cleared and no object is created with an older date. */
  lemma {:induction false} RenamedRecreation(pool: Key, more: seq<Event>)
    requires var deleted := Model(Key(pool.ns, "a"), "n", pool.name, 1, false, 0);
             && Feasible(pool, Recreated(pool, "m") + [Again(pool)] + more)
             && forall e :: e in more ==> Spares(pool, "n", deleted, e)
    ensures var a, b := Key(pool.ns, "a"), Key(pool.ns, "b");
            var before, after := Recreated(pool, "m"), Recreated(pool, "m") + [Again(pool)];
            var s, s' := Run(pool, after), Run(pool, after + more);
            && Feasible(pool, after) && !Clean(pool, Run(pool, before), Again(pool))
            && s.pending == {} && AllKnown(pool, s) && b in s.known && b in s.cluster && s.cluster[b].modelName == "n"
            && "n" in s'.models && s'.models["n"] == Model(a, "n", pool.name, 1, false, 0)
            && a in s'.cluster && s'.cluster[a].modelName != "n" && !IsOldest(pool, s'.cluster, s'.models["n"])
  {
    hide Run, Feasible, Recreated, Spares;
    var a, after := Key(pool.ns, "a"), Recreated(pool, "m") + [Again(pool)];
    var s, m := Run(pool, Recreated(pool, "m")), Model(a, "n", pool.name, 1, false, 0);
    RecreatedState(pool, "m");
    assert StoredAs(s.models, a, "n");
    assert Stale(pool, Run(pool, after), "n", m);
    StaleForGood(pool, after, more, "n", m);
  }

  /** Clearing the store drops entries that no later reconcile is due to restore. */
  lemma {:induction false} ClearedStoreStaysEmpty(pool: Key, a: Model)
    requires Eligible(pool, a)
    ensures var stored := [Create(a)] + [Reconcile(a.key, "", [])];
            var cleared := stored + [ClearStore] + [SetPool];
            var s, s' := Run(pool, stored), Run(pool, cleared);
            && Feasible(pool, cleared)
            && a.modelName in s.models && s.models[a.modelName] == a
            && s'.pending == {} && s'.poolSet && Live(pool, s', a.key) && s'.models == map[]
            && !Accounted(s', a)
  {
    var e1, e2 := Create(a), Reconcile(a.key, "", []);
    OneMore(pool, [], e1);
    assert [] + [e1] == [e1];
    OneMore(pool, [e1], e2);
    OneMore(pool, [e1] + [e2], ClearStore);
    OneMore(pool, [e1] + [e2] + [ClearStore], SetPool);
    hide Run, Feasible;
  }
}
