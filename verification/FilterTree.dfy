/**
 The scheduler's decision chart: a tree of list filters, each with a continuation for success
 (given the filtered pods) and for failure (given the original pods).  One metrics snapshot is
 fixed for the whole call, and the coin of the LoRA filter is an arbitrary parameter.
 */
module FilterTree {

  const MAX_INT := 0x7fff_ffff_ffff_ffff
  /** The largest finite float64. */
  const MAX_FLOAT64: real := 179769313486231570814527423731704356798070567525844996598917476803157260780028538760589558632766878171540458953514382464234321326889464182768467546703537516986049910576551282076245490090389328944075868508455133942304583236903222948165808559332123348274797826204144723168738177180919299881250404026184124858368.0

  type QueueSize = n: int | 0 <= n <= MAX_INT
  type Usage = u: real | u <= MAX_FLOAT64 witness 0.0

  datatype Pod = Pod(name: string, waiting: QueueSize, kv: Usage, active: set<string>, maxActive: int)

  datatype Request = Request(model: string, target: string, critical: bool)

  datatype Config = Config(kvThreshold: real, queueThreshold: int, loraQueueThreshold: int)

  datatype Error = NoPodsLeft | ResourceExhausted

  datatype Result = Ok(pods: seq<Pod>) | Err(error: Error)

  // ----- predicates on one pod -----

  predicate HasAdapter(r: Request, p: Pod) { r.target in p.active }

  predicate HasSlot(p: Pod) { |p.active| < p.maxActive }

  predicate LowLoraCost(r: Request, p: Pod) { HasAdapter(r, p) || HasSlot(p) }

  predicate LowQueue(c: Config, p: Pod) { p.waiting < c.loraQueueThreshold }

  predicate HasCapacity(c: Config, p: Pod) { p.waiting <= c.queueThreshold && p.kv <= c.kvThreshold }

  // ----- list filters -----

  function Select(f: Pod -> bool, pods: seq<Pod>): seq<Pod> {
    if pods == [] then [] else (if f(pods[0]) then [pods[0]] else []) + Select(f, pods[1..])
  }

  function MinQueue(pods: seq<Pod>): (m: int)
    ensures m <= MAX_INT
  {
    if pods == [] then MAX_INT
    else var m := MinQueue(pods[1..]); if pods[0].waiting <= m then pods[0].waiting else m
  }

  function MaxQueue(pods: seq<Pod>): (m: int)
    ensures 0 <= m
  {
    if pods == [] then 0
    else var m := MaxQueue(pods[1..]); if pods[0].waiting >= m then pods[0].waiting else m
  }

  function MinKv(pods: seq<Pod>): (m: real)
    ensures m <= MAX_FLOAT64
  {
    if pods == [] then MAX_FLOAT64
    else var m := MinKv(pods[1..]); if pods[0].kv <= m then pods[0].kv else m
  }

  function MaxKv(pods: seq<Pod>): (m: real)
    ensures 0.0 <= m
  {
    if pods == [] then 0.0
    else var m := MaxKv(pods[1..]); if pods[0].kv >= m then pods[0].kv else m
  }

  /** The upper end of the first of |pods| equal ranges between least and largest queue. */
  function QueueCut(pods: seq<Pod>): int
    requires pods != []
  {
    MinQueue(pods) + (MaxQueue(pods) - MinQueue(pods)) / |pods|
  }

  function KvCut(pods: seq<Pod>): real
    requires pods != []
  {
    MinKv(pods) + (MaxKv(pods) - MinKv(pods)) / |pods| as real
  }

  function LeastQueuing(pods: seq<Pod>): seq<Pod> {
    if pods == [] then []
    else var lo, hi := MinQueue(pods), QueueCut(pods); Select((p: Pod) => lo <= p.waiting <= hi, pods)
  }

  function LeastKvCache(pods: seq<Pod>): seq<Pod> {
    if pods == [] then []
    else var lo, hi := MinKv(pods), KvCut(pods); Select((p: Pod) => lo <= p.kv <= hi, pods)
  }

  function LoraSoftAffinity(r: Request, pods: seq<Pod>, coin: bool): seq<Pod> {
    var affine := Select((p: Pod) => HasAdapter(r, p), pods);
    var available := Select((p: Pod) => !HasAdapter(r, p) && HasSlot(p), pods);
    if affine != [] && available != [] then (if coin then affine else available)
    else if affine != [] then affine else available
  }

  function Checked(pods: seq<Pod>): Result {
    if pods == [] then Err(NoPodsLeft) else Ok(pods)
  }

  // ----- the chart -----

  datatype FilterFunc =
    | CriticalRequest
    | LowQueueing
    | Capacity
    | LeastQueuingFilter
    | LeastKvCacheFilter
    | LoraAffinityFilter
    | DropRequest

  function Apply(f: FilterFunc, c: Config, r: Request, pods: seq<Pod>, coin: bool): Result {
    match f
    case CriticalRequest => Checked(Select((p: Pod) => r.critical, pods))
    case LowQueueing => Checked(Select((p: Pod) => LowQueue(c, p), pods))
    case Capacity => Checked(Select((p: Pod) => HasCapacity(c, p), pods))
    case LeastQueuingFilter => Ok(LeastQueuing(pods))
    case LeastKvCacheFilter => Ok(LeastKvCache(pods))
    case LoraAffinityFilter => Ok(LoraSoftAffinity(r, pods, coin))
    case DropRequest => Err(ResourceExhausted)
  }

  datatype Filter = Nil | Filter(run: FilterFunc, onSuccess: Filter, onFailure: Filter, onEither: Filter)

  function Next(preferred: Filter, either: Filter): Filter {
    if preferred.Nil? then either else preferred
  }

  /** Runs the chart; `coins(d)` is the coin of the node at depth `d`. */
  function Run(f: Filter, c: Config, r: Request, pods: seq<Pod>, coins: nat -> bool, depth: nat): Result
    requires f.Filter?
    decreases f
  {
    var filtered := Apply(f.run, c, r, pods, coins(depth));
    if filtered.Ok? && filtered.pods != [] then
      var next := Next(f.onSuccess, f.onEither);
      if next.Nil? then filtered else Run(next, c, r, filtered.pods, coins, depth + 1)
    else
      var next := Next(f.onFailure, f.onEither);
      if next.Nil? then filtered else Run(next, c, r, pods, coins, depth + 1)
  }

  const LEAST_KV := Filter(LeastKvCacheFilter, Nil, Nil, Nil)
  const QUEUE_AND_KV := Filter(LeastQueuingFilter, Nil, Nil, LEAST_KV)
  const QUEUE_LORA_AND_KV := Filter(LeastQueuingFilter, Nil, Nil, Filter(LoraAffinityFilter, Nil, Nil, LEAST_KV))
  const LOW_LATENCY :=
    Filter(LowQueueing, Filter(LoraAffinityFilter, Nil, Nil, QUEUE_AND_KV), QUEUE_LORA_AND_KV, Nil)
  const SHEDDABLE := Filter(Capacity, QUEUE_LORA_AND_KV, Filter(DropRequest, Nil, Nil, Nil), Nil)
  const DEFAULT_FILTER := Filter(CriticalRequest, LOW_LATENCY, SHEDDABLE, Nil)

  datatype Scheduled = Picked(pod: Pod) | Failed

  /** Runs the default chart and picks one of the remaining pods. */
  function Schedule(c: Config, r: Request, pods: seq<Pod>, coins: nat -> bool, pick: nat): Scheduled {
    var result := Run(DEFAULT_FILTER, c, r, pods, coins, 0);
    if result.Err? || result.pods == [] then Failed else Picked(result.pods[pick % |result.pods|])
  }

  // ----- every filter returns a sublist -----

  /** `a` is obtained from `b` by leaving out elements. */
  predicate Sublist<T(==)>(a: seq<T>, b: seq<T>) {
    a == [] || (b != [] && ((a[0] == b[0] && Sublist(a[1..], b[1..])) || Sublist(a, b[1..])))
  }

  lemma {:induction false} SublistTransitive<T>(a: seq<T>, b: seq<T>, c: seq<T>)
    requires Sublist(a, b) && Sublist(b, c)
    ensures Sublist(a, c)
    decreases |b| + |c|
  {
    if a != [] {
      if b[0] == c[0] && Sublist(b[1..], c[1..]) {
        if a[0] == b[0] && Sublist(a[1..], b[1..]) {
          SublistTransitive(a[1..], b[1..], c[1..]);
        } else {
          SublistTransitive(a, b[1..], c[1..]);
        }
      } else {
        SublistTransitive(a, b, c[1..]);
      }
    }
  }

  lemma {:induction false} SublistMember(a: seq<Pod>, b: seq<Pod>, p: Pod)
    requires Sublist(a, b) && p in a
    ensures p in b
    decreases |b|
  {
    if a[0] == b[0] && Sublist(a[1..], b[1..]) {
      if p != a[0] { SublistMember(a[1..], b[1..], p); }
    } else {
      SublistMember(a, b[1..], p);
    }
  }

  lemma {:induction false} SelectSublist(f: Pod -> bool, pods: seq<Pod>)
    ensures Sublist(Select(f, pods), pods)
  {
    if pods != [] {
      SelectSublist(f, pods[1..]);
      if f(pods[0]) { assert Select(f, pods)[1..] == Select(f, pods[1..]); }
      else { assert Select(f, pods) == Select(f, pods[1..]); }
    }
  }

  lemma {:induction false} SelectExact(f: Pod -> bool, pods: seq<Pod>, p: Pod)
    ensures p in Select(f, pods) <==> p in pods && f(p)
  {
    if pods != [] { SelectExact(f, pods[1..], p); }
  }

  lemma ApplySublist(f: FilterFunc, c: Config, r: Request, pods: seq<Pod>, coin: bool)
    ensures var out := Apply(f, c, r, pods, coin); out.Ok? ==> Sublist(out.pods, pods)
  {
    match f
    case CriticalRequest => SelectSublist((p: Pod) => r.critical, pods);
    case LowQueueing => SelectSublist((p: Pod) => LowQueue(c, p), pods);
    case Capacity => SelectSublist((p: Pod) => HasCapacity(c, p), pods);
    case LeastQueuingFilter =>
      if pods != [] {
        var lo, hi := MinQueue(pods), QueueCut(pods);
        SelectSublist((p: Pod) => lo <= p.waiting <= hi, pods);
      }
    case LeastKvCacheFilter =>
      if pods != [] {
        var lo, hi := MinKv(pods), KvCut(pods);
        SelectSublist((p: Pod) => lo <= p.kv <= hi, pods);
      }
    case LoraAffinityFilter =>
      SelectSublist((p: Pod) => HasAdapter(r, p), pods);
      SelectSublist((p: Pod) => !HasAdapter(r, p) && HasSlot(p), pods);
    case DropRequest =>
  }

  /** Whatever chart is built from the filters, its result is a sublist of the pods given. */
  lemma {:induction false} RunSublist(f: Filter, c: Config, r: Request, pods: seq<Pod>, coins: nat -> bool, depth: nat)
    requires f.Filter?
    ensures var out := Run(f, c, r, pods, coins, depth); out.Ok? ==> Sublist(out.pods, pods)
    decreases f
  {
    ApplySublist(f.run, c, r, pods, coins(depth));
    var filtered := Apply(f.run, c, r, pods, coins(depth));
    if filtered.Ok? && filtered.pods != [] {
      var next := Next(f.onSuccess, f.onEither);
      if next.Filter? {
        RunSublist(next, c, r, filtered.pods, coins, depth + 1);
        var out := Run(next, c, r, filtered.pods, coins, depth + 1);
        if out.Ok? { SublistTransitive(out.pods, filtered.pods, pods); }
      }
    } else {
      var next := Next(f.onFailure, f.onEither);
      if next.Filter? { RunSublist(next, c, r, pods, coins, depth + 1); }
    }
  }
}
