/**
 The life of the metrics refreshers behind the pod cache, with the steps of concurrent calls
 interleaved: each Load, Store, LoadAndDelete and close of a `done` channel is one step.
 */
module Refresher {
  import opened Kube

  /** Where a thread is inside PodUpdateOrAddIfNotExist or PodDelete; a refresher is named by a number. */
  datatype Pc =
    | Idle
    | Missed(key: Key)             // Load found nothing
    | Started(key: Key, id: nat)   // the new refresher runs but is not stored yet
    | Holding(key: Key, id: nat)   // about to UpdatePod
    | Taken(id: nat)               // LoadAndDelete returned it, about to close its channel

  datatype State = State(pods: map<Key, nat>, next: nat, name: map<nat, Key>, threads: map<nat, Pc>, closed: seq<nat>)

  const INITIAL := State(map[], 0, map[], map[], [])

  datatype Step =
    | Load(t: nat, key: Key)
    | Start(t: nat)
    | Store(t: nat)
    | UpdatePod(t: nat)
    | LoadAndDelete(t: nat, key: Key)
    | Close(t: nat)
    | Clear

  function At(s: State, t: nat): Pc { if t in s.threads then s.threads[t] else Idle }

  predicate Enabled(s: State, e: Step) {
    match e
    case Load(t, _) => At(s, t).Idle?
    case Start(t) => At(s, t).Missed?
    case Store(t) => At(s, t).Started?
    case UpdatePod(t) => At(s, t).Holding?
    case LoadAndDelete(t, _) => At(s, t).Idle?
    case Close(t) => At(s, t).Taken?
    case Clear => true
  }

  function Next(s: State, e: Step): State
    requires Enabled(s, e)
  {
    match e
    case Load(t, key) =>
      s.(threads := s.threads[t := if key in s.pods then Holding(key, s.pods[key]) else Missed(key)])
    case Start(t) =>
      var key := At(s, t).key;
      s.(next := s.next + 1, name := s.name[s.next := key], threads := s.threads[t := Started(key, s.next)])
    case Store(t) =>
      var key, id := At(s, t).key, At(s, t).id;
      s.(pods := s.pods[key := id], threads := s.threads[t := Holding(key, id)])
    case UpdatePod(t) =>
      s.(name := s.name[At(s, t).id := At(s, t).key], threads := s.threads[t := Idle])
    case LoadAndDelete(t, key) =>
      if key in s.pods then s.(pods := s.pods - {key}, threads := s.threads[t := Taken(s.pods[key])]) else s
    case Close(t) =>
      s.(closed := s.closed + [At(s, t).id], threads := s.threads[t := Idle])
    case Clear => s.(pods := map[])
  }

  /** `s'` is reached from `s` by the given interleaving of steps. */
  ghost predicate Reaches(s: State, steps: seq<Step>, s': State)
    decreases |steps|
  {
    if steps == [] then s == s'
    else Enabled(s, steps[0]) && Reaches(Next(s, steps[0]), steps[1..], s')
  }

  // ----- no channel is closed twice -----

  predicate Distinct(q: seq<nat>) { forall i, j :: 0 <= i < j < |q| ==> q[i] != q[j] }

  /** A thread owns a refresher it has started but not stored, or taken out but not closed. */
  predicate Owns(s: State, t: nat) { At(s, t).Started? || At(s, t).Taken? }

  /** Every refresher is in one place only: under one key, owned by one thread, closed once, or lost. */
  ghost predicate Inv(s: State) {
    && Distinct(s.closed)
    && (forall id :: id in s.closed ==> id < s.next)
    && (forall key :: key in s.pods ==> s.pods[key] < s.next && s.pods[key] !in s.closed
                                        && s.pods[key] in s.name && s.name[s.pods[key]] == key)
    && (forall t: nat :: Owns(s, t) ==> At(s, t).id < s.next && At(s, t).id !in s.closed)
    && (forall t: nat, key :: Owns(s, t) && key in s.pods ==> At(s, t).id != s.pods[key])
    && (forall t: nat, t': nat :: Owns(s, t) && Owns(s, t') && At(s, t).id == At(s, t').id ==> t == t')
    && (forall t: nat :: At(s, t).Started? || At(s, t).Holding? ==>
          At(s, t).id < s.next && At(s, t).id in s.name && s.name[At(s, t).id] == At(s, t).key)
  }

  lemma LoadKeeps(s: State, t: nat, key: Key)
    requires Inv(s) && Enabled(s, Load(t, key))
    ensures Inv(Next(s, Load(t, key)))
  {
    var s' := Next(s, Load(t, key));
    assert forall u: nat :: u != t ==> At(s', u) == At(s, u);
  }

  lemma UpdatePodKeeps(s: State, t: nat)
    requires Inv(s) && Enabled(s, UpdatePod(t))
    ensures Inv(Next(s, UpdatePod(t)))
  {
    var s' := Next(s, UpdatePod(t));
    assert forall u: nat :: u != t ==> At(s', u) == At(s, u);
  }

  lemma StartKeeps(s: State, t: nat)
    requires Inv(s) && Enabled(s, Start(t))
    ensures Inv(Next(s, Start(t)))
  {
    var s' := Next(s, Start(t));
    assert forall u: nat :: u != t ==> At(s', u) == At(s, u);
  }

  lemma StoreKeeps(s: State, t: nat)
    requires Inv(s) && Enabled(s, Store(t))
    ensures Inv(Next(s, Store(t)))
  {
    var s' := Next(s, Store(t));
    assert forall u: nat :: u != t ==> At(s', u) == At(s, u);
  }

  lemma LoadAndDeleteKeeps(s: State, t: nat, key: Key)
    requires Inv(s) && Enabled(s, LoadAndDelete(t, key))
    ensures Inv(Next(s, LoadAndDelete(t, key)))
  {
    var s' := Next(s, LoadAndDelete(t, key));
    assert forall u: nat :: u != t ==> At(s', u) == At(s, u);
  }

  lemma CloseKeeps(s: State, t: nat)
    requires Inv(s) && Enabled(s, Close(t))
    ensures Inv(Next(s, Close(t)))
  {
    var s' := Next(s, Close(t));
    assert forall u: nat :: u != t ==> At(s', u) == At(s, u);
  }

  lemma NextKeeps(s: State, e: Step)
    requires Inv(s) && Enabled(s, e)
    ensures Inv(Next(s, e))
  {
    match e
    case Load(t, key) => LoadKeeps(s, t, key);
    case UpdatePod(t) => UpdatePodKeeps(s, t);
    case Start(t) => StartKeeps(s, t);
    case Store(t) => StoreKeeps(s, t);
    case LoadAndDelete(t, key) => LoadAndDeleteKeeps(s, t, key);
    case Close(t) => CloseKeeps(s, t);
    case Clear => assert forall u: nat :: At(Next(s, e), u) == At(s, u);
  }

  /** In every interleaving no `done` channel is closed twice, and every stored refresher is under
      the key of its own pod. */
  lemma {:induction false} NoDoubleClose(s: State, steps: seq<Step>, s': State)
    requires Inv(s) && Reaches(s, steps, s')
    ensures Inv(s')
    ensures Distinct(s'.closed) && forall key :: key in s'.pods ==> s'.pods[key] in s'.name && s'.name[s'.pods[key]] == key
    decreases |steps|
  {
    hide Next;
    if steps != [] {
      NextKeeps(s, steps[0]);
      NoDoubleClose(Next(s, steps[0]), steps[1..], s');
    }
  }

  // ----- refreshers that are lost -----

  /** Running, but neither stored nor in the hands of a thread that could store or stop it. */
  ghost predicate Lost(s: State, id: nat) {
    && id < s.next && id !in s.closed
    && (forall key :: key in s.pods ==> s.pods[key] != id)
    && (forall t: nat :: Owns(s, t) ==> At(s, t).id != id)
  }

  /** A lost refresher is never stopped. */
  lemma {:induction false} LostForever(s: State, steps: seq<Step>, s': State, id: nat)
    requires Lost(s, id) && Reaches(s, steps, s')
    ensures Lost(s', id)
    decreases |steps|
  {
    if steps != [] {
      LostStays(s, steps[0], id);
      LostForever(Next(s, steps[0]), steps[1..], s', id);
    }
  }

  lemma LostStays(s: State, e: Step, id: nat)
    requires Lost(s, id) && Enabled(s, e)
    ensures Lost(Next(s, e), id)
  {
    var s' := Next(s, e);
    if e.Clear? {
      assert forall u: nat :: At(s', u) == At(s, u);
    } else {
      assert forall u: nat :: u != e.t ==> At(s', u) == At(s, u);
    }
  }

  /** The steps that lose the refresher `id`: a Store over its entry, and a Clear while it is stored. */
  ghost predicate Loses(s: State, e: Step, id: nat)
    requires Enabled(s, e)
  {
    || (e.Store? && At(s, e.t).key in s.pods && s.pods[At(s, e.t).key] == id)
    || (e.Clear? && exists key :: key in s.pods && s.pods[key] == id)
  }

  /** Where a refresher that is not lost is. */
  lemma Whereabouts(s: State, id: nat)
    requires id < s.next && id !in s.closed && !Lost(s, id)
    ensures (exists key :: key in s.pods && s.pods[key] == id) || (exists t: nat :: Owns(s, t) && At(s, t).id == id)
  {
  }

  lemma StoreLosesExactly(s: State, t: nat, id: nat)
    requires Inv(s) && Enabled(s, Store(t)) && id < s.next && !Lost(s, id)
    ensures Lost(Next(s, Store(t)), id) <==> Loses(s, Store(t), id)
  {
    var s', key := Next(s, Store(t)), At(s, t).key;
    assert forall u: nat :: u != t ==> At(s', u) == At(s, u) && (Owns(s', u) <==> Owns(s, u));
    assert Owns(s, t) && !Owns(s', t) && s'.pods[key] == At(s, t).id;
    if Loses(s, Store(t), id) {
      assert s.name[id] == key;
      assert forall k :: k in s.pods && s.pods[k] == id ==> k == key;
    } else if id !in s.closed {
      Whereabouts(s, id);
      if k :| k in s.pods && s.pods[k] == id {
        assert k != key && s'.pods[k] == id;
      } else {
        var u: nat :| Owns(s, u) && At(s, u).id == id;
        assert u != t ==> Owns(s', u);
      }
    }
  }

  lemma OthersLoseExactly(s: State, e: Step, id: nat)
    requires Inv(s) && Enabled(s, e) && !e.Store? && id < s.next && !Lost(s, id)
    ensures Lost(Next(s, e), id) <==> Loses(s, e, id)
  {
    var s' := Next(s, e);
    if e.Clear? {
      assert forall u: nat :: At(s', u) == At(s, u);
    } else if id in s.closed {
      var i :| 0 <= i < |s.closed| && s.closed[i] == id;
      assert s'.closed[i] == id;
    } else {
      Whereabouts(s, id);
      if k :| k in s.pods && s.pods[k] == id {
        assert k !in s'.pods ==> Owns(s', e.t) && At(s', e.t).id == id;
      } else {
        var u: nat :| Owns(s, u) && At(s, u).id == id;
        assert u != e.t ==> Owns(s', u) && At(s', u).id == id;
        assert u == e.t ==> e.Close? && s'.closed[|s.closed|] == id;
      }
    }
  }

  /** A refresher that is not lost is lost by a step if and only if the step is one of those. */
  lemma {:induction false} LostExactly(s: State, e: Step, id: nat)
    requires Inv(s) && Enabled(s, e) && id < s.next && !Lost(s, id)
    ensures Lost(Next(s, e), id) <==> Loses(s, e, id)
  {
    if e.Store? { StoreLosesExactly(s, e.t, id); } else { OthersLoseExactly(s, e, id); }
  }

  ghost predicate NothingLost(s: State) { forall id: nat :: id < s.next ==> !Lost(s, id) }

  /** No Store of the interleaving finds an entry under its key, and no Clear finds the map non-empty. */
  ghost predicate NoOverwrite(s: State, steps: seq<Step>)
    decreases |steps|
  {
    steps == [] ||
    (&& Enabled(s, steps[0])
     && (steps[0].Store? ==> At(s, steps[0].t).key !in s.pods)
     && (steps[0].Clear? ==> s.pods == map[])
     && NoOverwrite(Next(s, steps[0]), steps[1..]))
  }

  lemma NewIsOwned(s: State, e: Step)
    requires Inv(s) && Enabled(s, e)
    ensures forall id: nat :: s.next <= id < Next(s, e).next ==> !Lost(Next(s, e), id)
  {
    if e.Start? { assert Owns(Next(s, e), e.t); }
  }

  lemma StepLosesNothing(s: State, e: Step)
    requires Inv(s) && NothingLost(s) && Enabled(s, e)
    ensures NothingLost(Next(s, e)) <==>
            (e.Store? ==> At(s, e.t).key !in s.pods) && (e.Clear? ==> s.pods == map[])
  {
    hide Lost;
    NewIsOwned(s, e);
    forall id: nat | id < s.next ensures Lost(Next(s, e), id) <==> Loses(s, e, id) { LostExactly(s, e, id); }
    assert s.next <= Next(s, e).next;
    if e.Store? && At(s, e.t).key in s.pods {
      assert Loses(s, e, s.pods[At(s, e.t).key]);
    }
    if e.Clear? && s.pods != map[] {
      var key :| key in s.pods;
      assert Loses(s, e, s.pods[key]);
    }
  }

  /** An interleaving loses no refresher if and only if it overwrites and clears none. */
  lemma {:induction false} NothingLostExactly(s: State, steps: seq<Step>, s': State)
    requires Inv(s) && NothingLost(s) && Reaches(s, steps, s')
    ensures NothingLost(s') <==> NoOverwrite(s, steps)
    decreases |steps|
  {
    hide Next, Lost, Inv;
    if steps != [] {
      var s1 := Next(s, steps[0]);
      NextKeeps(s, steps[0]);
      StepLosesNothing(s, steps[0]);
      if NothingLost(s1) {
        NothingLostExactly(s1, steps[1..], s');
      } else {
        var id: nat :| id < s1.next && Lost(s1, id);
        LostForever(s1, steps[1..], s', id);
        LostIsNumbered(s', id);
      }
    }
  }

  lemma LostIsNumbered(s: State, id: nat)
    requires Lost(s, id)
    ensures id < s.next
  {
  }

  /** Two calls that add the same pod at the same time can lose a refresher. */
  lemma {:induction false} RacingAddsLose(key: Key)
    ensures exists steps, s :: Reaches(INITIAL, steps, s) && Lost(s, 0) && s.pods == map[key := 1]
  {
    var s1 := Next(INITIAL, Load(1, key));
    var s2 := Next(s1, Load(2, key));
    var s3 := Next(s2, Start(1));
    var s4 := Next(s3, Start(2));
    var s5 := Next(s4, Store(1));
    var s6 := Next(s5, Store(2));
    var p1 := [] + [Load(1, key)];
    var p2 := p1 + [Load(2, key)];
    var p3 := p2 + [Start(1)];
    var p4 := p3 + [Start(2)];
    var p5 := p4 + [Store(1)];
    Extend(INITIAL, [], INITIAL, Load(1, key));
    Extend(INITIAL, p1, s1, Load(2, key));
    Extend(INITIAL, p2, s2, Start(1));
    Extend(INITIAL, p3, s3, Start(2));
    Extend(INITIAL, p4, s4, Store(1));
    Extend(INITIAL, p5, s5, Store(2));
    assert Reaches(INITIAL, p5 + [Store(2)], s6);
    assert forall t: nat :: t != 1 && t != 2 ==> At(s6, t).Idle?;
    assert Lost(s6, 0) && s6.pods == map[key := 1];
  }

  lemma {:induction false} Extend(s: State, steps: seq<Step>, s': State, e: Step)
    requires Reaches(s, steps, s') && Enabled(s', e)
    ensures Reaches(s, steps + [e], Next(s', e))
    decreases |steps|
  {
    hide Next;
    if steps == [] {
      assert [e][1..] == [] && [] + [e] == [e];
    } else {
      Extend(Next(s, steps[0]), steps[1..], s', e);
      assert (steps + [e])[1..] == steps[1..] + [e];
    }
  }

  // ----- calls that run one after the other -----

  datatype Call = Add(key: Key) | Delete(key: Key)

  /** The steps of one call, all by the same thread. */
  function Perform(s: State, t: nat, c: Call): State
    requires At(s, t).Idle?
  {
    match c
    case Add(key) =>
      var s1 := Next(s, Load(t, key));
      var s2 := if At(s1, t).Missed? then Next(Next(s1, Start(t)), Store(t)) else s1;
      Next(s2, UpdatePod(t))
    case Delete(key) =>
      var s1 := Next(s, LoadAndDelete(t, key));
      if At(s1, t).Taken? then Next(s1, Close(t)) else s1
  }

  predicate Quiet(s: State) { forall t :: t in s.threads ==> s.threads[t].Idle? }

  /** The refreshers that run are exactly those of the stored pods. */
  ghost predicate Balanced(s: State) {
    && Quiet(s) && Inv(s)
    && forall id: nat :: id < s.next && id !in s.closed ==> id in s.name && s.name[id] in s.pods && s.pods[s.name[id]] == id
  }

  /** The store as it is created; so every theorem about runs applies to it. */
  lemma InitiallyBalanced()
    ensures Balanced(INITIAL) && NothingLost(INITIAL)
  {
  }

  /** Without overlapping calls, and without Clear, a refresher runs exactly for each stored pod. */
  lemma {:induction false} AtomicCallsBalance(s: State, t: nat, c: Call)
    requires Balanced(s)
    ensures Balanced(Perform(s, t, c))
    ensures Perform(s, t, c).pods.Keys == if c.Add? then s.pods.Keys + {c.key} else s.pods.Keys - {c.key}
  {
    hide Perform;
    PerformKeeps(s, t, c);
    match c
    case Add(key) => PerformAdd(s, t, key);
    case Delete(key) => PerformDelete(s, t, key);
  }

  lemma PerformAdd(s: State, t: nat, key: Key)
    requires At(s, t).Idle?
    ensures var s' := Perform(s, t, Add(key));
            && s'.closed == s.closed
            && (if key in s.pods then s'.pods == s.pods && s'.next == s.next && s'.name == s.name[s.pods[key] := key]
                else s'.pods == s.pods[key := s.next] && s'.next == s.next + 1 && s'.name == s.name[s.next := key])
  {
  }

  lemma PerformDelete(s: State, t: nat, key: Key)
    requires At(s, t).Idle?
    ensures var s' := Perform(s, t, Delete(key));
            && s'.next == s.next && s'.name == s.name && s'.pods == s.pods - {key}
            && s'.closed == if key in s.pods then s.closed + [s.pods[key]] else s.closed
  {
  }

  lemma PerformKeeps(s: State, t: nat, c: Call)
    requires Quiet(s) && Inv(s)
    ensures Quiet(Perform(s, t, c)) && Inv(Perform(s, t, c))
  {
    match c
    case Add(key) =>
      var s1 := Next(s, Load(t, key));
      NextKeeps(s, Load(t, key));
      if At(s1, t).Missed? {
        NextKeeps(s1, Start(t));
        NextKeeps(Next(s1, Start(t)), Store(t));
        NextKeeps(Next(Next(s1, Start(t)), Store(t)), UpdatePod(t));
      } else {
        NextKeeps(s1, UpdatePod(t));
      }
    case Delete(key) =>
      var s1 := Next(s, LoadAndDelete(t, key));
      NextKeeps(s, LoadAndDelete(t, key));
      if At(s1, t).Taken? { NextKeeps(s1, Close(t)); }
  }

  function PerformAll(s: State, t: nat, calls: seq<Call>): State
    requires Quiet(s)
    decreases |calls|
  {
    if calls == [] then s
    else
      var s' := Perform(s, t, calls[0]);
      if Quiet(s') then PerformAll(s', t, calls[1..]) else s'
  }

  lemma {:induction false} AtomicRunsBalance(s: State, t: nat, calls: seq<Call>)
    requires Balanced(s)
    ensures Balanced(PerformAll(s, t, calls))
    decreases |calls|
  {
    hide Perform;
    if calls != [] {
      AtomicCallsBalance(s, t, calls[0]);
      AtomicRunsBalance(Perform(s, t, calls[0]), t, calls[1..]);
    }
  }

  /** Clearing the store loses every refresher that was running. */
  lemma {:induction false} ClearLoses(s: State, id: nat)
    requires Balanced(s) && id < s.next && id !in s.closed
    ensures Lost(Next(s, Clear), id)
  {
    assert forall u: nat :: At(Next(s, Clear), u) == At(s, u);
  }
}
