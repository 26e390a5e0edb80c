/** The loops of the list filters, proved against their declarative forms. */
module FilterLoops {
  import opened FilterTree

  lemma {:induction false} SelectConcat(f: Pod -> bool, a: seq<Pod>, b: seq<Pod>)
    ensures Select(f, a + b) == Select(f, a) + Select(f, b)
  {
    if a == [] {
      assert a + b == b;
    } else {
      var t, h := a[1..], if f(a[0]) then [a[0]] else [];
      SelectConcat(f, t, b);
      assert Select(f, a) == h + Select(f, t);
      assert Select(f, a + b) == h + Select(f, t + b) by { assert (a + b)[0] == a[0] && (a + b)[1..] == t + b; }
      assert h + (Select(f, t) + Select(f, b)) == (h + Select(f, t)) + Select(f, b);
    }
  }

  /** One more pod is kept exactly if it passes. */
  lemma SelectNext(f: Pod -> bool, pods: seq<Pod>, i: nat)
    requires i < |pods|
    ensures Select(f, pods[..i + 1]) == if f(pods[i]) then Select(f, pods[..i]) + [pods[i]] else Select(f, pods[..i])
  {
    var one := [pods[i]];
    assert pods[..i + 1] == pods[..i] + one && one[1..] == [];
    SelectConcat(f, pods[..i], one);
    assert Select(f, one) == if f(pods[i]) then one else [];
  }

  lemma SelectEnds(f: Pod -> bool, pods: seq<Pod>)
    ensures Select(f, pods[..0]) == [] && pods[..|pods|] == pods
  {
  }

  method FilterByPredicate(pass: Pod -> bool, pods: seq<Pod>) returns (result: Result)
    ensures result == Checked(Select(pass, pods))
  {
    hide Select;
    SelectEnds(pass, pods);
    var filtered: seq<Pod> := [];
    for i := 0 to |pods|
      invariant filtered == Select(pass, pods[..i])
    {
      SelectNext(pass, pods, i);
      if pass(pods[i]) { filtered := filtered + [pods[i]]; }
    }
    if |filtered| == 0 { return Err(NoPodsLeft); }
    return Ok(filtered);
  }

  function MinInt(a: int, b: int): int { if a <= b then a else b }
  function MaxInt(a: int, b: int): int { if a >= b then a else b }

  /** The first loop of the queue filter: running minimum and maximum. */
  method QueueBounds(pods: seq<Pod>) returns (min: int, max: int)
    ensures min == MinQueue(pods) && max == MaxQueue(pods)
  {
    min, max := MAX_INT, 0;
    for i := 0 to |pods|
      invariant 0 <= max && min <= MAX_INT
      invariant MinInt(min, MinQueue(pods[i..])) == MinQueue(pods)
      invariant MaxInt(max, MaxQueue(pods[i..])) == MaxQueue(pods)
    {
      assert pods[i..][1..] == pods[i + 1..];
      if pods[i].waiting <= min { min := pods[i].waiting; }
      if pods[i].waiting >= max { max := pods[i].waiting; }
    }
  }

  /** The second loop of the queue filter. */
  method SelectQueueRange(pods: seq<Pod>, min: int, cut: int) returns (filtered: seq<Pod>)
    ensures filtered == Select((p: Pod) => min <= p.waiting <= cut, pods)
  {
    hide Select;
    filtered := [];
    ghost var keep := (p: Pod) => min <= p.waiting <= cut;
    SelectEnds(keep, pods);
    for i := 0 to |pods|
      invariant filtered == Select(keep, pods[..i])
    {
      SelectNext(keep, pods, i);
      if pods[i].waiting >= min && pods[i].waiting <= cut { filtered := filtered + [pods[i]]; }
    }
  }

  /** With no pods the second loop does nothing and nothing is divided. */
  method LeastQueuingFilterFunc(pods: seq<Pod>) returns (filtered: seq<Pod>)
    ensures filtered == LeastQueuing(pods)
  {
    var min, max := QueueBounds(pods);
    if |pods| == 0 { return []; }
    filtered := SelectQueueRange(pods, min, min + (max - min) / |pods|);
  }

  function MinReal(a: real, b: real): real { if a <= b then a else b }
  function MaxReal(a: real, b: real): real { if a >= b then a else b }

  /** The first loop of the KV-cache filter. */
  method KvBounds(pods: seq<Pod>) returns (min: real, max: real)
    ensures min == MinKv(pods) && max == MaxKv(pods)
  {
    min, max := MAX_FLOAT64, 0.0;
    for i := 0 to |pods|
      invariant 0.0 <= max && min <= MAX_FLOAT64
      invariant MinReal(min, MinKv(pods[i..])) == MinKv(pods)
      invariant MaxReal(max, MaxKv(pods[i..])) == MaxKv(pods)
    {
      assert pods[i..][1..] == pods[i + 1..];
      if pods[i].kv <= min { min := pods[i].kv; }
      if pods[i].kv >= max { max := pods[i].kv; }
    }
  }

  /** The second loop of the KV-cache filter. */
  method SelectKvRange(pods: seq<Pod>, min: real, cut: real) returns (filtered: seq<Pod>)
    ensures filtered == Select((p: Pod) => min <= p.kv <= cut, pods)
  {
    hide Select;
    filtered := [];
    ghost var keep := (p: Pod) => min <= p.kv <= cut;
    SelectEnds(keep, pods);
    for i := 0 to |pods|
      invariant filtered == Select(keep, pods[..i])
    {
      SelectNext(keep, pods, i);
      if pods[i].kv >= min && pods[i].kv <= cut { filtered := filtered + [pods[i]]; }
    }
  }

  method LeastKvCacheFilterFunc(pods: seq<Pod>) returns (filtered: seq<Pod>)
    ensures filtered == LeastKvCache(pods)
  {
    var min, max := KvBounds(pods);
    if |pods| == 0 { return []; }
    filtered := SelectKvRange(pods, min, min + (max - min) / |pods| as real);
  }

  method LoraSoftAffinityFilter(r: Request, pods: seq<Pod>, coin: bool) returns (result: seq<Pod>)
    ensures result == LoraSoftAffinity(r, pods, coin)
  {
    var affinity: seq<Pod>, available: seq<Pod> := [], [];
    ghost var has := (p: Pod) => HasAdapter(r, p);
    ghost var free := (p: Pod) => !HasAdapter(r, p) && HasSlot(p);
    hide Select;
    SelectEnds(has, pods);
    SelectEnds(free, pods);
    for i := 0 to |pods|
      invariant affinity == Select(has, pods[..i]) && available == Select(free, pods[..i])
    {
      SelectNext(has, pods, i);
      SelectNext(free, pods, i);
      if r.target in pods[i].active {
        affinity := affinity + [pods[i]];
      } else if |pods[i].active| < pods[i].maxActive {
        available := available + [pods[i]];
      }
    }
    if |affinity| > 0 && |available| > 0 {
      if coin { return affinity; }
      return available;
    }
    if |affinity| > 0 { return affinity; }
    return available;
  }
}
