/** What the scheduler's default chart guarantees end to end: who is admitted, and to which pod. */
module FilterQuality {
  import opened FilterTree

  // ----- the predicate filters keep every pod that passes, as often as it is listed -----

  lemma {:induction false} SelectCount(f: Pod -> bool, pods: seq<Pod>, p: Pod)
    ensures multiset(Select(f, pods))[p] == if f(p) then multiset(pods)[p] else 0
  {
    if pods != [] {
      SelectCount(f, pods[1..], p);
      assert pods == [pods[0]] + pods[1..];
    }
  }

  // ----- the range filters keep the first range, which is never empty -----

  /** Pods with the shortest and the longest queue. */
  predicate QueueEnds(pods: seq<Pod>, lo: Pod, hi: Pod) {
    lo in pods && hi in pods && forall q :: q in pods ==> lo.waiting <= q.waiting <= hi.waiting
  }

  predicate KvEnds(pods: seq<Pod>, lo: Pod, hi: Pod) {
    lo in pods && hi in pods && forall q :: q in pods ==> lo.kv <= q.kv <= hi.kv
  }

  /** `x` is in the first of `n` equal ranges from `lo` to `hi`. */
  predicate InFirst(n: nat, x: int, lo: int, hi: int) { n * (x - lo) <= hi - lo }

  predicate InFirstPart(n: nat, x: real, lo: real, hi: real) { n as real * (x - lo) <= hi - lo }

  /** The queue is in the first of n equal ranges between the shortest and the longest queue of the n pods. */
  ghost predicate FirstQueueRange(pods: seq<Pod>, p: Pod) {
    exists lo, hi :: QueueEnds(pods, lo, hi) && InFirst(|pods|, p.waiting, lo.waiting, hi.waiting)
  }

  /** The same for the cache usage; a largest usage below zero counts as zero. */
  ghost predicate FirstKvRange(pods: seq<Pod>, p: Pod) {
    exists lo, hi :: KvEnds(pods, lo, hi) && InFirstPart(|pods|, p.kv, lo.kv, if hi.kv >= 0.0 then hi.kv else 0.0)
  }

  lemma {:induction false} QueueRange(pods: seq<Pod>) returns (lo: Pod, hi: Pod)
    requires pods != []
    ensures QueueEnds(pods, lo, hi) && lo.waiting == MinQueue(pods) && hi.waiting == MaxQueue(pods)
  {
    lo, hi := pods[0], pods[0];
    if |pods| > 1 {
      var l, h := QueueRange(pods[1..]);
      if l.waiting < lo.waiting { lo := l; }
      if h.waiting > hi.waiting { hi := h; }
    }
  }

  lemma {:induction false} KvRange(pods: seq<Pod>) returns (lo: Pod, hi: Pod)
    requires pods != []
    ensures KvEnds(pods, lo, hi) && lo.kv == MinKv(pods) && MaxKv(pods) == if hi.kv >= 0.0 then hi.kv else 0.0
  {
    lo, hi := pods[0], pods[0];
    if |pods| > 1 {
      var l, h := KvRange(pods[1..]);
      if l.kv < lo.kv { lo := l; }
      if h.kv > hi.kv { hi := h; }
    }
  }

  lemma AtMostQuotient(x: int, d: int, n: int)
    requires n > 0
    ensures x <= d / n <==> n * x <= d
  {
    if x <= d / n {
      assert n * x <= n * (d / n);
    } else {
      assert x >= d / n + 1;
      assert n * x >= n * (d / n + 1);
    }
  }

  lemma AtMostShare(x: real, d: real, n: real)
    requires n > 0.0
    ensures x <= d / n <==> n * x <= d
  {
    assert (d / n - x) * n == d - n * x;
  }

  lemma QueueKept(pods: seq<Pod>, lo: Pod, hi: Pod, p: Pod)
    requires QueueEnds(pods, lo, hi) && lo.waiting == MinQueue(pods) && hi.waiting == MaxQueue(pods)
    ensures p in LeastQueuing(pods) <==> p in pods && InFirst(|pods|, p.waiting, lo.waiting, hi.waiting)
  {
    hide Select, MinQueue, MaxQueue, InFirst, QueueCut;
    var min, cut := MinQueue(pods), QueueCut(pods);
    SelectExact((q: Pod) => min <= q.waiting <= cut, pods, p);
    QueueCutMeans(pods, p.waiting);
  }

  lemma QueueCutMeans(pods: seq<Pod>, x: int)
    requires pods != []
    ensures x <= QueueCut(pods) <==> InFirst(|pods|, x, MinQueue(pods), MaxQueue(pods))
  {
    hide MinQueue, MaxQueue;
    AtMostQuotient(x - MinQueue(pods), MaxQueue(pods) - MinQueue(pods), |pods|);
  }

  lemma SameQueueEnds(pods: seq<Pod>, lo: Pod, hi: Pod, p: Pod)
    requires QueueEnds(pods, lo, hi)
    ensures FirstQueueRange(pods, p) <==> InFirst(|pods|, p.waiting, lo.waiting, hi.waiting)
  {
    hide InFirst;
    if FirstQueueRange(pods, p) {
      var l, h :| QueueEnds(pods, l, h) && InFirst(|pods|, p.waiting, l.waiting, h.waiting);
      assert l.waiting == lo.waiting && h.waiting == hi.waiting;
    }
    if InFirst(|pods|, p.waiting, lo.waiting, hi.waiting) { assert FirstQueueRange(pods, p); }
  }

  /** The queue filter keeps exactly the pods in the first range, and always keeps one. */
  lemma {:induction false} LeastQueuingExact(pods: seq<Pod>)
    requires pods != []
    ensures LeastQueuing(pods) != []
    ensures forall p :: p in LeastQueuing(pods) <==> p in pods && FirstQueueRange(pods, p)
  {
    hide LeastQueuing, FirstQueueRange, MinQueue, MaxQueue;
    var l, h := QueueRange(pods);
    forall p ensures p in LeastQueuing(pods) <==> p in pods && FirstQueueRange(pods, p) {
      QueueKept(pods, l, h, p);
      SameQueueEnds(pods, l, h, p);
    }
    QueueKept(pods, l, h, l);
  }

  /** The same for given pods with the shortest and the longest queue. */
  lemma {:induction false} LeastQueuingBetween(pods: seq<Pod>, lo: Pod, hi: Pod, p: Pod)
    requires lo in pods && hi in pods && forall q :: q in pods ==> lo.waiting <= q.waiting <= hi.waiting
    ensures p in LeastQueuing(pods) <==> p in pods && |pods| * (p.waiting - lo.waiting) <= hi.waiting - lo.waiting
  {
    hide LeastQueuing, FirstQueueRange;
    LeastQueuingExact(pods);
    SameQueueEnds(pods, lo, hi, p);
  }

  lemma KvKept(pods: seq<Pod>, lo: Pod, p: Pod)
    requires pods != [] && lo.kv == MinKv(pods) && forall q :: q in pods ==> lo.kv <= q.kv
    ensures p in LeastKvCache(pods) <==> p in pods && InFirstPart(|pods|, p.kv, lo.kv, MaxKv(pods))
  {
    hide Select, MinKv, MaxKv, InFirstPart, KvCut;
    var min, cut := MinKv(pods), KvCut(pods);
    SelectExact((q: Pod) => min <= q.kv <= cut, pods, p);
    CutMeans(pods, p.kv);
  }

  lemma CutMeans(pods: seq<Pod>, x: real)
    requires pods != []
    ensures x <= KvCut(pods) <==> InFirstPart(|pods|, x, MinKv(pods), MaxKv(pods))
  {
    hide MinKv, MaxKv;
    AtMostShare(x - MinKv(pods), MaxKv(pods) - MinKv(pods), |pods| as real);
  }

  lemma SameKvEnds(pods: seq<Pod>, lo: Pod, hi: Pod, p: Pod)
    requires KvEnds(pods, lo, hi)
    ensures FirstKvRange(pods, p) <==> InFirstPart(|pods|, p.kv, lo.kv, if hi.kv >= 0.0 then hi.kv else 0.0)
  {
    hide InFirstPart;
    var top := if hi.kv >= 0.0 then hi.kv else 0.0;
    if FirstKvRange(pods, p) {
      var l, h :| KvEnds(pods, l, h) && InFirstPart(|pods|, p.kv, l.kv, if h.kv >= 0.0 then h.kv else 0.0);
      assert l.kv == lo.kv && h.kv == hi.kv;
    }
    if InFirstPart(|pods|, p.kv, lo.kv, top) { assert FirstKvRange(pods, p); }
  }

  lemma {:induction false} LeastKvCacheExact(pods: seq<Pod>)
    requires pods != []
    ensures LeastKvCache(pods) != []
    ensures forall p :: p in LeastKvCache(pods) <==> p in pods && FirstKvRange(pods, p)
  {
    hide LeastKvCache, FirstKvRange, MinKv, MaxKv, InFirstPart;
    var l, h := KvRange(pods);
    forall p ensures p in LeastKvCache(pods) <==> p in pods && FirstKvRange(pods, p) {
      KvKept(pods, l, p);
      SameKvEnds(pods, l, h, p);
    }
    KvKept(pods, l, l);
    LeastPart(|pods|, l.kv, MaxKv(pods));
  }

  lemma LeastPart(n: nat, lo: real, hi: real)
    ensures lo <= hi ==> InFirstPart(n, lo, lo, hi)
  {
  }

  /** The LoRA filter keeps all pods with the adapter, or all others with a free slot: the first if
      there are any and the coin or the lack of others says so.  So whatever the coin, only cheap
      pods remain, and none only if there are none. */
  lemma {:induction false} LoraAffinityExact(r: Request, pods: seq<Pod>, coin: bool)
    ensures var affine := exists p :: p in pods && r.target in p.active;
            var available := exists p :: p in pods && r.target !in p.active && |p.active| < p.maxActive;
            forall p :: p in LoraSoftAffinity(r, pods, coin) <==>
              && p in pods
              && if affine && (coin || !available) then r.target in p.active
                 else r.target !in p.active && |p.active| < p.maxActive
    ensures forall p :: p in LoraSoftAffinity(r, pods, coin) ==> p in pods && LowLoraCost(r, p)
    ensures LoraSoftAffinity(r, pods, coin) != [] <==> exists p :: p in pods && LowLoraCost(r, p)
  {
    var affine := Select((q: Pod) => HasAdapter(r, q), pods);
    var available := Select((q: Pod) => !HasAdapter(r, q) && HasSlot(q), pods);
    forall p ensures p in affine <==> p in pods && HasAdapter(r, p) {
      SelectExact((q: Pod) => HasAdapter(r, q), pods, p);
    }
    forall p ensures p in available <==> p in pods && !HasAdapter(r, p) && HasSlot(p) {
      SelectExact((q: Pod) => !HasAdapter(r, q) && HasSlot(q), pods, p);
    }
    forall p | p in pods && LowLoraCost(r, p) ensures affine + available != [] {
      assert p in affine || p in available;
    }
    if affine != [] { assert affine[0] in affine; }
    if available != [] { assert available[0] in available; }
  }

  lemma NeverEmpty(pods: seq<Pod>)
    requires pods != []
    ensures LeastQueuing(pods) != [] && LeastKvCache(pods) != []
  {
    LeastQueuingExact(pods);
    LeastKvCacheExact(pods);
  }

  // ----- the default chart in one line per branch -----

  function Low(c: Config, pods: seq<Pod>): seq<Pod> { Select((p: Pod) => LowQueue(c, p), pods) }

  function Spare(c: Config, pods: seq<Pod>): seq<Pod> { Select((p: Pod) => HasCapacity(c, p), pods) }

  /** The LoRA filter, or its input where it would leave nothing. */
  function Cheap(r: Request, pods: seq<Pod>, coin: bool): seq<Pod> {
    if LoraSoftAffinity(r, pods, coin) == [] then pods else LoraSoftAffinity(r, pods, coin)
  }

  lemma CheapKeeps(r: Request, pods: seq<Pod>, coin: bool)
    requires pods != []
    ensures Cheap(r, pods, coin) != []
    ensures forall p :: p in Cheap(r, pods, coin) ==> p in pods
    ensures (exists p :: p in pods && LowLoraCost(r, p)) ==> forall p :: p in Cheap(r, pods, coin) ==> LowLoraCost(r, p)
  {
    LoraAffinityExact(r, pods, coin);
  }

  /** A node that goes on to the same filter either way hands it what it kept, or else its input. */
  lemma EitherStep(f: Filter, c: Config, r: Request, pods: seq<Pod>, coins: nat -> bool, d: nat)
    requires f.Filter? && f.onSuccess.Nil? && f.onFailure.Nil? && f.onEither.Filter?
    requires Apply(f.run, c, r, pods, coins(d)).Ok?
    ensures var kept := Apply(f.run, c, r, pods, coins(d)).pods;
            Run(f, c, r, pods, coins, d) == Run(f.onEither, c, r, if kept == [] then pods else kept, coins, d + 1)
  {
  }

  lemma QueueStep(next: Filter, c: Config, r: Request, pods: seq<Pod>, coins: nat -> bool, d: nat)
    requires next.Filter? && pods != []
    ensures Run(Filter(LeastQueuingFilter, Nil, Nil, next), c, r, pods, coins, d)
            == Run(next, c, r, LeastQueuing(pods), coins, d + 1)
  {
    NeverEmpty(pods);
    EitherStep(Filter(LeastQueuingFilter, Nil, Nil, next), c, r, pods, coins, d);
  }

  lemma LoraStep(next: Filter, c: Config, r: Request, pods: seq<Pod>, coins: nat -> bool, d: nat)
    requires next.Filter?
    ensures Run(Filter(LoraAffinityFilter, Nil, Nil, next), c, r, pods, coins, d)
            == Run(next, c, r, Cheap(r, pods, coins(d)), coins, d + 1)
  {
    EitherStep(Filter(LoraAffinityFilter, Nil, Nil, next), c, r, pods, coins, d);
  }

  lemma LeafStep(f: Filter, c: Config, r: Request, pods: seq<Pod>, coins: nat -> bool, d: nat)
    requires f.Filter? && f.onSuccess.Nil? && f.onFailure.Nil? && f.onEither.Nil?
    ensures Run(f, c, r, pods, coins, d) == Apply(f.run, c, r, pods, coins(d))
  {
  }

  lemma RunQueueAndKv(c: Config, r: Request, pods: seq<Pod>, coins: nat -> bool, d: nat)
    requires pods != []
    ensures Run(QUEUE_AND_KV, c, r, pods, coins, d) == Ok(LeastKvCache(LeastQueuing(pods)))
    ensures LeastKvCache(LeastQueuing(pods)) != []
  {
    NeverEmpty(pods);
    NeverEmpty(LeastQueuing(pods));
    QueueStep(LEAST_KV, c, r, pods, coins, d);
    LeafStep(LEAST_KV, c, r, LeastQueuing(pods), coins, d + 1);
  }

  lemma RunQueueLoraAndKv(c: Config, r: Request, pods: seq<Pod>, coins: nat -> bool, d: nat)
    requires pods != []
    ensures Run(QUEUE_LORA_AND_KV, c, r, pods, coins, d)
            == Ok(LeastKvCache(Cheap(r, LeastQueuing(pods), coins(d + 1))))
    ensures LeastKvCache(Cheap(r, LeastQueuing(pods), coins(d + 1))) != []
  {
    NeverEmpty(pods);
    NeverEmpty(Cheap(r, LeastQueuing(pods), coins(d + 1)));
    QueueStep(Filter(LoraAffinityFilter, Nil, Nil, LEAST_KV), c, r, pods, coins, d);
    LoraStep(LEAST_KV, c, r, LeastQueuing(pods), coins, d + 1);
    LeafStep(LEAST_KV, c, r, Cheap(r, LeastQueuing(pods), coins(d + 1)), coins, d + 2);
  }

  function Candidates(c: Config, r: Request, pods: seq<Pod>, coins: nat -> bool): seq<Pod> {
    if pods == [] then []
    else if r.critical then
      if Low(c, pods) != [] then LeastKvCache(LeastQueuing(Cheap(r, Low(c, pods), coins(2))))
      else LeastKvCache(Cheap(r, LeastQueuing(pods), coins(3)))
    else if Spare(c, pods) != [] then LeastKvCache(Cheap(r, LeastQueuing(Spare(c, pods)), coins(3)))
    else []
  }

  lemma {:induction false} SelectAll(r: Request, pods: seq<Pod>)
    ensures Select((p: Pod) => r.critical, pods) == if r.critical then pods else []
  {
    if pods != [] { SelectAll(r, pods[1..]); }
  }

  lemma RunLowLatency(c: Config, r: Request, pods: seq<Pod>, coins: nat -> bool)
    requires pods != [] && r.critical
    ensures Run(LOW_LATENCY, c, r, pods, coins, 1) == Ok(Candidates(c, r, pods, coins))
    ensures Candidates(c, r, pods, coins) != []
  {
    hide Run, Select, LeastQueuing, LeastKvCache, Cheap;
    var low := Low(c, pods);
    LowStep(c, r, pods, coins);
    if low != [] {
      CheapKeeps(r, low, coins(2));
      RunQueueAndKv(c, r, Cheap(r, low, coins(2)), coins, 3);
      LoraStep(QUEUE_AND_KV, c, r, low, coins, 2);
    } else {
      RunQueueLoraAndKv(c, r, pods, coins, 2);
    }
  }

  lemma LowStep(c: Config, r: Request, pods: seq<Pod>, coins: nat -> bool)
    ensures Run(LOW_LATENCY, c, r, pods, coins, 1) ==
            if Low(c, pods) != [] then Run(LOW_LATENCY.onSuccess, c, r, Low(c, pods), coins, 2)
            else Run(QUEUE_LORA_AND_KV, c, r, pods, coins, 2)
  {
    hide Select;
  }

  lemma RunSheddable(c: Config, r: Request, pods: seq<Pod>, coins: nat -> bool)
    requires !r.critical || pods == []
    ensures Run(SHEDDABLE, c, r, pods, coins, 1) ==
            if Spare(c, pods) == [] then Err(ResourceExhausted) else Ok(Candidates(c, r, pods, coins))
    ensures Spare(c, pods) != [] ==> Candidates(c, r, pods, coins) != []
  {
    if Spare(c, pods) != [] { RunQueueLoraAndKv(c, r, Spare(c, pods), coins, 2); }
  }

  /** The whole chart, for every pool, request and sequence of coins. */
  lemma {:induction false} RunDefault(c: Config, r: Request, pods: seq<Pod>, coins: nat -> bool)
    ensures Run(DEFAULT_FILTER, c, r, pods, coins, 0) ==
            if Candidates(c, r, pods, coins) == [] then Err(ResourceExhausted) else Ok(Candidates(c, r, pods, coins))
    ensures Candidates(c, r, pods, coins) == [] <==> pods == [] || (!r.critical && Spare(c, pods) == [])
  {
    SelectAll(r, pods);
    if r.critical && pods != [] {
      RunLowLatency(c, r, pods, coins);
    } else {
      RunSheddable(c, r, pods, coins);
    }
  }

  // ----- admission -----

  /** Exactly who gets a pod: a critical request whenever the pool is not empty, any other request
      whenever some pod is within both thresholds, and then on such a pod. */
  lemma {:induction false} ExactAdmission(c: Config, r: Request, pods: seq<Pod>, coins: nat -> bool, pick: nat)
    ensures r.critical ==> (Schedule(c, r, pods, coins, pick).Picked? <==> pods != [])
    ensures !r.critical ==>
            (Schedule(c, r, pods, coins, pick).Picked? <==>
             exists p :: p in pods && p.waiting <= c.queueThreshold && p.kv <= c.kvThreshold)
    ensures Schedule(c, r, pods, coins, pick).Picked? ==> Schedule(c, r, pods, coins, pick).pod in pods
    ensures !r.critical && Schedule(c, r, pods, coins, pick).Picked? ==>
            var p := Schedule(c, r, pods, coins, pick).pod; p.waiting <= c.queueThreshold && p.kv <= c.kvThreshold
  {
    hide Run, Candidates, Sublist, Select, LeastQueuing, LeastKvCache, Cheap;
    RunDefault(c, r, pods, coins);
    RunSublist(DEFAULT_FILTER, c, r, pods, coins, 0);
    SpareExact(c, pods);
    assert forall p :: p in pods && p.waiting <= c.queueThreshold && p.kv <= c.kvThreshold ==> HasCapacity(c, p);
    var s := Schedule(c, r, pods, coins, pick);
    if s.Picked? {
      SublistMember(Candidates(c, r, pods, coins), pods, s.pod);
      if !r.critical { SheddableGroup(c, r, pods, coins, s.pod); }
    }
  }

  lemma SpareExact(c: Config, pods: seq<Pod>)
    ensures forall p :: p in Spare(c, pods) <==> p in pods && HasCapacity(c, p)
    ensures Spare(c, pods) != [] <==> exists p :: p in pods && HasCapacity(c, p)
  {
    forall p ensures p in Spare(c, pods) <==> p in pods && HasCapacity(c, p) {
      SelectExact((q: Pod) => HasCapacity(c, q), pods, p);
    }
    if Spare(c, pods) != [] { assert Spare(c, pods)[0] in Spare(c, pods); }
  }

  lemma SheddableGroup(c: Config, r: Request, pods: seq<Pod>, coins: nat -> bool, p: Pod)
    requires !r.critical && p in Candidates(c, r, pods, coins)
    ensures p in LeastQueuing(Spare(c, pods)) && p in Cheap(r, LeastQueuing(Spare(c, pods)), coins(3))
    ensures FirstKvRange(Cheap(r, LeastQueuing(Spare(c, pods)), coins(3)), p)
    ensures p in Spare(c, pods)
  {
    hide FirstKvRange, FirstQueueRange;
    var spare := Spare(c, pods);
    LeastQueuingExact(spare);
    CheapKeeps(r, LeastQueuing(spare), coins(3));
    LeastKvCacheExact(Cheap(r, LeastQueuing(spare), coins(3)));
  }

  // ----- quality of the choice -----

  lemma LowExact(c: Config, pods: seq<Pod>)
    ensures forall p :: p in Low(c, pods) <==> p in pods && LowQueue(c, p)
    ensures Low(c, pods) != [] <==> exists p :: p in pods && LowQueue(c, p)
  {
    forall p ensures p in Low(c, pods) <==> p in pods && LowQueue(c, p) {
      SelectExact((q: Pod) => LowQueue(c, q), pods, p);
    }
    if Low(c, pods) != [] { assert Low(c, pods)[0] in Low(c, pods); }
  }

  /** Where a critical request's candidates come from. */
  lemma CriticalGroup(c: Config, r: Request, pods: seq<Pod>, coins: nat -> bool, p: Pod)
    requires r.critical && p in Candidates(c, r, pods, coins)
    ensures if Low(c, pods) != [] then
              var cheap := Cheap(r, Low(c, pods), coins(2));
              p in cheap && FirstQueueRange(cheap, p) && FirstKvRange(LeastQueuing(cheap), p)
            else
              var queue := LeastQueuing(pods);
              p in queue && p in Cheap(r, queue, coins(3)) && FirstKvRange(Cheap(r, queue, coins(3)), p)
  {
    hide FirstKvRange, FirstQueueRange;
    if Low(c, pods) != [] {
      var cheap := Cheap(r, Low(c, pods), coins(2));
      CheapKeeps(r, Low(c, pods), coins(2));
      LeastQueuingExact(cheap);
      LeastKvCacheExact(LeastQueuing(cheap));
    } else {
      var q := LeastQueuing(pods);
      LeastQueuingExact(pods);
      CheapKeeps(r, q, coins(3));
      LeastKvCacheExact(Cheap(r, q, coins(3)));
    }
  }

  /** A group from which the pick may be made: all pods of the base with the adapter, or all others
      with a free slot, or the whole base if it has neither. */
  ghost predicate LoraGroup(r: Request, base: seq<Pod>, group: seq<Pod>) {
    && group != []
    && (|| (forall q :: q in group <==> q in base && r.target in q.active)
        || (forall q :: q in group <==> q in base && r.target !in q.active && |q.active| < q.maxActive)
        || (group == base && forall q :: q in base ==> r.target !in q.active && |q.active| >= q.maxActive))
  }

  lemma CheapGroup(r: Request, base: seq<Pod>, coin: bool)
    requires base != []
    ensures LoraGroup(r, base, Cheap(r, base, coin))
  {
    LoraAffinityExact(r, base, coin);
  }

  /** The pods of the base in its first queue range. */
  ghost predicate QueueGroup(base: seq<Pod>, group: seq<Pod>) {
    forall q :: q in group <==> q in base && FirstQueueRange(base, q)
  }

  /** The pod a request is sent to is one of the candidates. */
  lemma PickedCandidate(c: Config, r: Request, pods: seq<Pod>, coins: nat -> bool, pick: nat)
    requires pods != [] && (r.critical || Spare(c, pods) != [])
    ensures Candidates(c, r, pods, coins) != []
    ensures Schedule(c, r, pods, coins, pick).Picked?
    ensures Schedule(c, r, pods, coins, pick).pod in Candidates(c, r, pods, coins)
  {
    RunDefault(c, r, pods, coins);
  }

  /** The chart leaves only candidates, and each of them is picked by some random number. */
  lemma {:induction false} EveryCandidate(c: Config, r: Request, pods: seq<Pod>, coins: nat -> bool, p: Pod)
    requires p in Candidates(c, r, pods, coins)
    ensures exists pick: nat :: Schedule(c, r, pods, coins, pick) == Picked(p)
  {
    hide Run, Candidates;
    RunDefault(c, r, pods, coins);
    var candidates := Candidates(c, r, pods, coins);
    var i: nat :| i < |candidates| && candidates[i] == p;
    SmallModulo(i, |candidates|);
    assert Schedule(c, r, pods, coins, i) == Picked(p);
  }

  lemma SmallModulo(i: nat, n: nat)
    requires i < n
    ensures i % n == i
  {
  }

  /** The pods of the pool below a queue threshold, or within two thresholds. */
  ghost predicate Below(pods: seq<Pod>, threshold: int, group: seq<Pod>) {
    Sublist(group, pods) && forall q :: q in group <==> q in pods && q.waiting < threshold
  }

  ghost predicate Within(pods: seq<Pod>, queue: int, kv: real, group: seq<Pod>) {
    Sublist(group, pods) && forall q :: q in group <==> q in pods && q.waiting <= queue && q.kv <= kv
  }

  /** Where a critical request goes.  If some pod is below the LoRA queue threshold: among those, the
      pods with the adapter or those with a free slot (all of them if there are neither); of these,
      the ones in the first queue range; of these, one in the first cache range.  Else the first
      queue range of all pods is taken first, then the LoRA group, then the cache range. */
  lemma {:induction false} CriticalQuality(c: Config, r: Request, pods: seq<Pod>, coins: nat -> bool, pick: nat)
    returns (low: seq<Pod>, first: seq<Pod>, second: seq<Pod>)
    requires r.critical && pods != []
    ensures Schedule(c, r, pods, coins, pick).Picked? && Below(pods, c.loraQueueThreshold, low)
    ensures var p := Schedule(c, r, pods, coins, pick).pod;
            if low != [] then
              LoraGroup(r, low, first) && QueueGroup(first, second) && p in second && FirstKvRange(second, p)
            else
              QueueGroup(pods, first) && LoraGroup(r, first, second) && p in second && FirstKvRange(second, p)
  {
    hide FirstKvRange, FirstQueueRange, LoraGroup, Run, Candidates, Schedule, LeastQueuing, Cheap, Select, Sublist;
    RunDefault(c, r, pods, coins);
    PickedCandidate(c, r, pods, coins, pick);
    var p := Schedule(c, r, pods, coins, pick).pod;
    low := Low(c, pods);
    LowExact(c, pods);
    SelectSublist((q: Pod) => LowQueue(c, q), pods);
    CriticalGroup(c, r, pods, coins, p);
    if low != [] {
      first := Cheap(r, low, coins(2));
      second := LeastQueuing(first);
      CheapGroup(r, low, coins(2));
      CheapKeeps(r, low, coins(2));
      LeastQueuingExact(first);
    } else {
      first := LeastQueuing(pods);
      second := Cheap(r, first, coins(3));
      LeastQueuingExact(pods);
      CheapGroup(r, first, coins(3));
    }
  }

  /** Where any other request goes: among the pods within both thresholds, the ones in the first queue
      range; of these, the pods with the adapter or those with a free slot (all of them if there are
      neither); of these, one in the first cache range. */
  lemma {:induction false} SheddableQuality(c: Config, r: Request, pods: seq<Pod>, coins: nat -> bool, pick: nat)
    returns (spare: seq<Pod>, first: seq<Pod>, second: seq<Pod>)
    requires !r.critical && exists p :: p in pods && p.waiting <= c.queueThreshold && p.kv <= c.kvThreshold
    ensures Schedule(c, r, pods, coins, pick).Picked? && Within(pods, c.queueThreshold, c.kvThreshold, spare)
    ensures var p := Schedule(c, r, pods, coins, pick).pod;
            QueueGroup(spare, first) && LoraGroup(r, first, second) && p in second && FirstKvRange(second, p)
  {
    hide FirstKvRange, FirstQueueRange, LoraGroup, Run, Candidates, Schedule, LeastQueuing, Cheap, Select, Sublist;
    SpareExact(c, pods);
    RunDefault(c, r, pods, coins);
    spare := Spare(c, pods);
    var q :| q in pods && q.waiting <= c.queueThreshold && q.kv <= c.kvThreshold;
    assert HasCapacity(c, q);
    PickedCandidate(c, r, pods, coins, pick);
    SelectSublist((q: Pod) => HasCapacity(c, q), pods);
    SheddableGroup(c, r, pods, coins, Schedule(c, r, pods, coins, pick).pod);
    first := LeastQueuing(spare);
    second := Cheap(r, first, coins(3));
    LeastQueuingExact(spare);
    CheapGroup(r, first, coins(3));
  }
}
