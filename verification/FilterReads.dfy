/**
 The filters as they read: a pod is only a handle, and every call of GetMetrics may return other
 metrics, because the refreshers keep writing them.  `metrics(t, pod)` is the answer to the t-th
 call.  If the answers do not change while the chart runs, the result is that of `FilterTree`.
 */
module FilterReads {
  import opened FilterTree
  import opened FilterLoops

  type Metrics = (nat, string) -> Pod

  /** No answer changes: `snap` is the snapshot. */
  ghost predicate Still(metrics: Metrics, snap: string -> Pod) {
    forall t: nat, p: string :: metrics(t, p) == snap(p)
  }

  /** The pods of a snapshot. */
  function View(snap: string -> Pod, pods: seq<string>): seq<Pod> {
    seq(|pods|, i requires 0 <= i < |pods| => snap(pods[i]))
  }

  lemma ViewPrefix(snap: string -> Pod, pods: seq<string>, i: nat)
    requires i < |pods|
    ensures View(snap, pods[..i + 1]) == View(snap, pods[..i]) + [snap(pods[i])]
    ensures View(snap, pods)[..i] == View(snap, pods[..i]) && View(snap, pods)[i] == snap(pods[i])
    ensures pods[..|pods|] == pods
  {
  }

  lemma ViewAppend(snap: string -> Pod, kept: seq<string>, p: string)
    ensures View(snap, kept + [p]) == View(snap, kept) + [snap(p)] && View(snap, []) == []
  {
  }

  // ----- sublists -----

  lemma {:induction false} SublistSkip(a: seq<string>, b: seq<string>, x: string)
    requires Sublist(a, b)
    ensures Sublist(a, b + [x])
    decreases |b|
  {
    if a != [] {
      assert (b + [x])[1..] == b[1..] + [x];
      if a[0] == b[0] && Sublist(a[1..], b[1..]) { SublistSkip(a[1..], b[1..], x); } else { SublistSkip(a, b[1..], x); }
    }
  }

  lemma {:induction false} SublistKeep(a: seq<string>, b: seq<string>, x: string)
    requires Sublist(a, b)
    ensures Sublist(a + [x], b + [x])
    decreases |b|
  {
    if b == [] {
      assert a + [x] == [x] == b + [x];
    } else {
      assert (b + [x])[1..] == b[1..] + [x];
      if a == [] {
        SublistKeep(a, b[1..], x);
      } else if a[0] == b[0] && Sublist(a[1..], b[1..]) {
        assert (a + [x])[1..] == a[1..] + [x];
        SublistKeep(a[1..], b[1..], x);
      } else {
        SublistKeep(a, b[1..], x);
      }
    }
  }

  /** What a loop has kept of the pods it has seen. */
  ghost predicate Kept(keep: Pod -> bool, still: bool, snap: string -> Pod, kept: seq<string>, seen: seq<string>) {
    Sublist(kept, seen) && (still ==> View(snap, kept) == Select(keep, View(snap, seen)))
  }

  /** The next pod is kept or left out, as its metrics say if they do not change. */
  lemma NextPod(keep: Pod -> bool, still: bool, snap: string -> Pod, kept: seq<string>, pods: seq<string>, i: nat)
    requires i < |pods| && Kept(keep, still, snap, kept, pods[..i])
    ensures (still ==> !keep(snap(pods[i]))) ==> Kept(keep, still, snap, kept, pods[..i + 1])
    ensures (still ==> keep(snap(pods[i]))) ==> Kept(keep, still, snap, kept + [pods[i]], pods[..i + 1])
  {
    hide Select, Sublist;
    assert pods[..i + 1] == pods[..i] + [pods[i]];
    SublistSkip(kept, pods[..i], pods[i]);
    SublistKeep(kept, pods[..i], pods[i]);
    ViewPrefix(snap, pods, i);
    ViewAppend(snap, kept, pods[i]);
    var view := View(snap, pods[..i + 1]);
    assert view[..i] == View(snap, pods[..i]) && view[..i + 1] == view && view[i] == snap(pods[i]);
    SelectNext(keep, view, i);
  }

  lemma NothingSeen(keep: Pod -> bool, still: bool, snap: string -> Pod, pods: seq<string>)
    ensures Kept(keep, still, snap, [], pods[..0]) && pods[..|pods|] == pods
  {
    assert View(snap, pods[..0]) == [];
  }

  // ----- the filters -----

  /** toFilterFunc; `cost` counts the reads of a predicate. */
  method FilterByPredicate(pass: (nat, string) -> bool, cost: (nat, string) -> nat, pods: seq<string>, t0: nat,
                           ghost keep: Pod -> bool, ghost still: bool, ghost snap: string -> Pod)
      returns (filtered: seq<string>, t: nat)
    requires still ==> forall t, p :: pass(t, p) == keep(snap(p))
    ensures Kept(keep, still, snap, filtered, pods)
  {
    hide Kept;
    filtered, t := [], t0;
    NothingSeen(keep, still, snap, pods);
    for i := 0 to |pods|
      invariant Kept(keep, still, snap, filtered, pods[..i])
    {
      NextPod(keep, still, snap, filtered, pods, i);
      if pass(t, pods[i]) { filtered := filtered + [pods[i]]; }
      t := t + cost(t, pods[i]);
    }
  }

  /** Go's integer division. */
  function Quotient(a: int, b: nat): int
    requires b > 0
  {
    if a >= 0 then a / b else -(-a / b)
  }

  lemma RestOf(snap: string -> Pod, pods: seq<string>, i: nat)
    requires i < |pods|
    ensures View(snap, pods)[i..] != [] && View(snap, pods)[i..][0] == snap(pods[i])
    ensures View(snap, pods)[i..][1..] == View(snap, pods)[i + 1..]
  {
  }

  /** The first loop of leastQueuingFilterFunc: the value compared and the value kept are two reads. */
  method QueueBounds(metrics: Metrics, pods: seq<string>, t0: nat, ghost snap: string -> Pod)
      returns (min: int, max: int, t: nat)
    ensures Still(metrics, snap) ==> min == MinQueue(View(snap, pods)) && max == MaxQueue(View(snap, pods))
  {
    min, max, t := MAX_INT, 0, t0;
    ghost var view := View(snap, pods);
    for i := 0 to |pods|
      invariant Still(metrics, snap) ==>
                  && 0 <= max && min <= MAX_INT
                  && MinInt(min, MinQueue(view[i..])) == MinQueue(view) && MaxInt(max, MaxQueue(view[i..])) == MaxQueue(view)
    {
      RestOf(snap, pods, i);
      var under := metrics(t, pods[i]).waiting <= min;
      if under { min := metrics(t + 1, pods[i]).waiting; }
      t := t + if under then 2 else 1;
      var over := metrics(t, pods[i]).waiting >= max;
      if over { max := metrics(t + 1, pods[i]).waiting; }
      t := t + if over then 2 else 1;
    }
  }

  method LeastQueuingFilterFunc(metrics: Metrics, pods: seq<string>, t0: nat, ghost snap: string -> Pod)
      returns (filtered: seq<string>, t: nat)
    ensures Sublist(filtered, pods) && (Still(metrics, snap) ==> View(snap, filtered) == LeastQueuing(View(snap, pods)))
  {
    hide Kept, Select, Sublist, MinQueue, MaxQueue;
    var min, max;
    min, max, t := QueueBounds(metrics, pods, t0, snap);
    filtered := [];
    ghost var still, view := Still(metrics, snap), View(snap, pods);
    ghost var lo, hi := if pods == [] then 0 else min, if pods == [] then 0 else min + Quotient(max - min, |pods|);
    ghost var keep := (p: Pod) => lo <= p.waiting <= hi;
    if still && pods != [] { BoundsOrdered(view); }
    NothingSeen(keep, still, snap, pods);
    for i := 0 to |pods|
      invariant Kept(keep, still, snap, filtered, pods[..i])
    {
      NextPod(keep, still, snap, filtered, pods, i);
      var above := metrics(t, pods[i]).waiting >= min;
      if above && metrics(t + 1, pods[i]).waiting <= min + Quotient(max - min, |pods|) { filtered := filtered + [pods[i]]; }
      t := t + if above then 2 else 1;
    }
    QueueResult(keep, still, snap, filtered, pods, min, max);
  }

  lemma {:induction false} BoundsOrdered(pods: seq<Pod>)
    requires pods != []
    ensures MinQueue(pods) <= MaxQueue(pods)
  {
    if |pods| > 1 { BoundsOrdered(pods[1..]); }
  }

  lemma QueueResult(keep: Pod -> bool, still: bool, snap: string -> Pod, filtered: seq<string>, pods: seq<string>, min: int, max: int)
    requires Kept(keep, still, snap, filtered, pods)
    requires still ==> min == MinQueue(View(snap, pods)) && max == MaxQueue(View(snap, pods)) && (pods != [] ==> min <= max)
    requires pods != [] ==> forall p :: keep(p) <==> min <= p.waiting <= min + Quotient(max - min, |pods|)
    ensures Sublist(filtered, pods) && (still ==> View(snap, filtered) == LeastQueuing(View(snap, pods)))
  {
    hide MinQueue, MaxQueue, Sublist;
    if still && pods != [] {
      var view := View(snap, pods);
      var lo, hi := MinQueue(view), QueueCut(view);
      SameSelection(keep, (p: Pod) => lo <= p.waiting <= hi, view);
    }
  }

  lemma {:induction false} SameSelection(f: Pod -> bool, g: Pod -> bool, pods: seq<Pod>)
    requires forall p :: f(p) <==> g(p)
    ensures Select(f, pods) == Select(g, pods)
  {
    if pods != [] { SameSelection(f, g, pods[1..]); }
  }

  /** The first loop of leastKVCacheFilterFunc. */
  method KvBounds(metrics: Metrics, pods: seq<string>, t0: nat, ghost snap: string -> Pod)
      returns (min: real, max: real, t: nat)
    ensures Still(metrics, snap) ==> min == MinKv(View(snap, pods)) && max == MaxKv(View(snap, pods))
  {
    min, max, t := MAX_FLOAT64, 0.0, t0;
    ghost var view := View(snap, pods);
    for i := 0 to |pods|
      invariant Still(metrics, snap) ==>
                  && 0.0 <= max && min <= MAX_FLOAT64
                  && MinReal(min, MinKv(view[i..])) == MinKv(view) && MaxReal(max, MaxKv(view[i..])) == MaxKv(view)
    {
      RestOf(snap, pods, i);
      var under := metrics(t, pods[i]).kv <= min;
      if under { min := metrics(t + 1, pods[i]).kv; }
      t := t + if under then 2 else 1;
      var over := metrics(t, pods[i]).kv >= max;
      if over { max := metrics(t + 1, pods[i]).kv; }
      t := t + if over then 2 else 1;
    }
  }

  method LeastKvCacheFilterFunc(metrics: Metrics, pods: seq<string>, t0: nat, ghost snap: string -> Pod)
      returns (filtered: seq<string>, t: nat)
    ensures Sublist(filtered, pods) && (Still(metrics, snap) ==> View(snap, filtered) == LeastKvCache(View(snap, pods)))
  {
    hide Kept, Select, Sublist, MinKv, MaxKv;
    var min, max;
    min, max, t := KvBounds(metrics, pods, t0, snap);
    filtered := [];
    ghost var still := Still(metrics, snap);
    var cut := if |pods| == 0 then 0.0 else min + (max - min) / |pods| as real;
    ghost var keep := (p: Pod) => min <= p.kv <= cut;
    NothingSeen(keep, still, snap, pods);
    for i := 0 to |pods|
      invariant Kept(keep, still, snap, filtered, pods[..i])
    {
      NextPod(keep, still, snap, filtered, pods, i);
      var above := metrics(t, pods[i]).kv >= min;
      if above && metrics(t + 1, pods[i]).kv <= cut { filtered := filtered + [pods[i]]; }
      t := t + if above then 2 else 1;
    }
    KvResult(keep, still, snap, filtered, pods, min, cut);
  }

  lemma KvResult(keep: Pod -> bool, still: bool, snap: string -> Pod, filtered: seq<string>, pods: seq<string>, min: real, cut: real)
    requires Kept(keep, still, snap, filtered, pods)
    requires still && pods != [] ==> min == MinKv(View(snap, pods)) && cut == KvCut(View(snap, pods))
    requires forall p :: keep(p) <==> min <= p.kv <= cut
    ensures Sublist(filtered, pods) && (still ==> View(snap, filtered) == LeastKvCache(View(snap, pods)))
  {
    hide MinKv, MaxKv, KvCut, Sublist;
    if still && pods != [] {
      var view := View(snap, pods);
      var lo, hi := MinKv(view), KvCut(view);
      SameSelection(keep, (p: Pod) => lo <= p.kv <= hi, view);
    }
  }

  /** loRASoftAffinityFilter */
  method LoraSoftAffinityFilter(metrics: Metrics, r: Request, pods: seq<string>, coin: bool, t0: nat, ghost snap: string -> Pod)
      returns (filtered: seq<string>, t: nat)
    ensures Sublist(filtered, pods)
    ensures Still(metrics, snap) ==> View(snap, filtered) == LoraSoftAffinity(r, View(snap, pods), coin)
  {
    hide Select, Sublist;
    var affinity: seq<string>, available: seq<string> := [], [];
    t := t0;
    ghost var still := Still(metrics, snap);
    ghost var has := (p: Pod) => HasAdapter(r, p);
    ghost var free := (p: Pod) => !HasAdapter(r, p) && HasSlot(p);
    NothingSeen(has, still, snap, pods);
    NothingSeen(free, still, snap, pods);
    for i := 0 to |pods|
      invariant Kept(has, still, snap, affinity, pods[..i]) && Kept(free, still, snap, available, pods[..i])
    {
      hide Kept;
      NextPod(has, still, snap, affinity, pods, i);
      NextPod(free, still, snap, available, pods, i);
      if r.target in metrics(t, pods[i]).active {
        affinity, t := affinity + [pods[i]], t + 1;
      } else {
        if |metrics(t + 1, pods[i]).active| < metrics(t + 2, pods[i]).maxActive { available := available + [pods[i]]; }
        t := t + 3;
      }
    }
    if |affinity| > 0 && |available| > 0 {
      filtered := if coin then affinity else available;
    } else {
      filtered := if |affinity| > 0 then affinity else available;
    }
    assert |View(snap, affinity)| == |affinity| && |View(snap, available)| == |available|;
  }

  /** What a filter, or a chart, returns on a snapshot. */
  ghost predicate Returns(result: Result, snap: string -> Pod, filtered: seq<string>, failed: bool) {
    if failed then result.Err? else result == Ok(View(snap, filtered))
  }

  method ApplyFilter(f: FilterFunc, c: Config, metrics: Metrics, r: Request, pods: seq<string>, coin: bool, t0: nat,
                     ghost snap: string -> Pod)
      returns (filtered: seq<string>, failed: bool, t: nat)
    ensures Sublist(filtered, pods)
    ensures Still(metrics, snap) ==> Returns(Apply(f, c, r, View(snap, pods), coin), snap, filtered, failed)
  {
    hide Sublist, Select, LeastQueuing, LeastKvCache, LoraSoftAffinity, View;
    failed := false;
    ghost var still := Still(metrics, snap);
    ViewLength(snap);
    match f
    case CriticalRequest =>
      filtered, t := FilterByPredicate((_, _) => r.critical, (_, _) => 0, pods, t0, (p: Pod) => r.critical, still, snap);
      failed := filtered == [];
    case LowQueueing =>
      filtered, t := FilterByPredicate((t: nat, p: string) => metrics(t, p).waiting < c.loraQueueThreshold, (_, _) => 1,
                                       pods, t0, (p: Pod) => LowQueue(c, p), still, snap);
      failed := filtered == [];
    case Capacity =>
      filtered, t := FilterByPredicate(
        (t: nat, p: string) => metrics(t, p).waiting <= c.queueThreshold && metrics(t + 1, p).kv <= c.kvThreshold,
        (t: nat, p: string) => if metrics(t, p).waiting <= c.queueThreshold then 2 else 1,
        pods, t0, (p: Pod) => HasCapacity(c, p), still, snap);
      failed := filtered == [];
    case LeastQueuingFilter => filtered, t := LeastQueuingFilterFunc(metrics, pods, t0, snap);
    case LeastKvCacheFilter => filtered, t := LeastKvCacheFilterFunc(metrics, pods, t0, snap);
    case LoraAffinityFilter => filtered, t := LoraSoftAffinityFilter(metrics, r, pods, coin, t0, snap);
    case DropRequest =>
      EmptyAlways(pods);
      filtered, failed, t := [], true, t0;
  }

  lemma EmptyAlways(pods: seq<string>)
    ensures Sublist([], pods)
  {
  }

  lemma ViewLength(snap: string -> Pod)
    ensures forall pods :: |View(snap, pods)| == |pods|
  {
  }

  /** filter.Filter: whatever chart is built from the filters, and however the metrics change while it
      runs, the pods it returns are some of those it was given, in the same order; and if the metrics
      do not change, they are the ones that the chart on the snapshot returns. */
  method RunFilter(f: Filter, c: Config, metrics: Metrics, r: Request, pods: seq<string>, coins: nat -> bool, depth: nat, t0: nat,
                   ghost snap: string -> Pod)
      returns (filtered: seq<string>, failed: bool, t: nat)
    requires f.Filter?
    ensures Sublist(filtered, pods)
    ensures Still(metrics, snap) ==> Returns(Run(f, c, r, View(snap, pods), coins, depth), snap, filtered, failed)
    decreases f
  {
    hide Sublist, Apply, View;
    ViewLength(snap);
    filtered, failed, t := ApplyFilter(f.run, c, metrics, r, pods, coins(depth), t0, snap);
    if !failed && |filtered| > 0 {
      var next := Next(f.onSuccess, f.onEither);
      if next.Nil? { return; }
      ghost var first := filtered;
      filtered, failed, t := RunFilter(next, c, metrics, r, filtered, coins, depth + 1, t, snap);
      SublistTransitive(filtered, first, pods);
    } else {
      var next := Next(f.onFailure, f.onEither);
      if next.Nil? { return; }
      filtered, failed, t := RunFilter(next, c, metrics, r, pods, coins, depth + 1, t, snap);
    }
  }
}
