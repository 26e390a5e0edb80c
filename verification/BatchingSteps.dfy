/**
 What every iteration of the batching scheduler keeps: each request is in exactly one store, the
 KV cache stays within its bound, and tokens are generated however often a request is evicted.
 */
module BatchingSteps {
  import opened Wrappers
  import opened Batching

  // ----- requests -----

  predicate Known(lora: Option<string>) { lora.Some? ==> lora.value in LORA_DICT }

  predicate Sane(r: Request) {
    0 <= r.input <= MAX_NUM_BATCH_TOKENS && 0 <= r.remaining <= r.output && 0 < r.output && Known(r.lora)
  }

  predicate Pending(r: Request) { Sane(r) && 0 < r.remaining }

  /** A request as the load balancer creates it. */
  predicate Fresh(r: Request) { Pending(r) && r.remaining == r.output && r.recomputes == 0 }

  predicate AllPending(q: seq<Request>) { forall i :: 0 <= i < |q| ==> Pending(q[i]) }

  predicate AllDone(q: seq<Request>) { forall i :: 0 <= i < |q| ==> Sane(q[i]) && q[i].remaining == 0 }

  predicate AllFresh(q: seq<Request>) { forall i :: 0 <= i < |q| ==> Fresh(q[i]) }

  // ----- sums over a queue -----

  /** Output tokens still to be generated. */
  function Rest(q: seq<Request>): int {
    if q == [] then 0 else q[0].remaining + Rest(q[1..])
  }

  function Inputs(q: seq<Request>): int {
    if q == [] then 0 else q[0].input + Inputs(q[1..])
  }

  /** How many requests of the queue arrived as `o`. */
  function Count(q: seq<Request>, o: Request): nat {
    if q == [] then 0 else (if q[0].Origin() == o then 1 else 0) + Count(q[1..], o)
  }

  lemma {:induction false} Additive(a: seq<Request>, b: seq<Request>, o: Request)
    ensures Tokens(a + b) == Tokens(a) + Tokens(b)
    ensures Rest(a + b) == Rest(a) + Rest(b)
    ensures Inputs(a + b) == Inputs(a) + Inputs(b)
    ensures Count(a + b, o) == Count(a, o) + Count(b, o)
  {
    if a == [] {
      assert a + b == b;
    } else {
      assert (a + b)[1..] == a[1..] + b;
      Additive(a[1..], b, o);
    }
  }

  lemma Splits(q: seq<Request>, k: nat, o: Request)
    requires k <= |q|
    ensures Tokens(q) == Tokens(q[..k]) + Tokens(q[k..])
    ensures Rest(q) == Rest(q[..k]) + Rest(q[k..])
    ensures Inputs(q) == Inputs(q[..k]) + Inputs(q[k..])
    ensures Count(q, o) == Count(q[..k], o) + Count(q[k..], o)
  {
    assert q == q[..k] + q[k..];
    Additive(q[..k], q[k..], o);
  }

  lemma Single(r: Request, o: Request)
    ensures Tokens([r]) == r.Length() && Rest([r]) == r.remaining && Inputs([r]) == r.input
    ensures Count([r], o) == if r.Origin() == o then 1 else 0
  {
    assert [r][1..] == [];
  }

  lemma {:induction false} SumBounds(q: seq<Request>)
    requires forall i :: 0 <= i < |q| ==> Sane(q[i])
    ensures 0 <= Inputs(q) <= Tokens(q) && 0 <= Rest(q)
    ensures AllPending(q) ==> |q| <= Rest(q)
  {
    if q != [] { SumBounds(q[1..]); }
  }

  lemma {:induction false} Counted(q: seq<Request>, i: nat)
    requires i < |q|
    ensures Count(q, q[i].Origin()) > 0
  {
    if i > 0 { Counted(q[1..], i - 1); }
  }

  // ----- the recompute queue stays ordered -----

  predicate Ordered(q: seq<Request>) {
    |q| >= 2 ==> Before(q[0].id, q[1].id) && Ordered(q[1..])
  }

  lemma {:induction false} BeforeTransitive(a: string, b: string, c: string)
    requires Before(a, b) && Before(b, c)
    ensures Before(a, c)
  {
    if a != [] && a[0] == b[0] && b[0] == c[0] { BeforeTransitive(a[1..], b[1..], c[1..]); }
  }

  lemma {:induction false} BeforeTotal(a: string, b: string)
    requires a != b
    ensures Before(a, b) || Before(b, a)
  {
    if a != [] && b != [] && a[0] == b[0] {
      assert a == [a[0]] + a[1..] && b == [b[0]] + b[1..];
      BeforeTotal(a[1..], b[1..]);
    }
  }

  /** The order is the lexicographic one: a proper prefix, or the smaller character at the first difference. */
  lemma {:induction false} BeforeExact(a: string, b: string)
    ensures Before(a, b) <==>
            a < b || exists i :: DiffersAt(a, b, i)
  {
    if a != [] && b != [] {
      assert a == [a[0]] + a[1..] && b == [b[0]] + b[1..];
      if a[0] == b[0] {
        BeforeExact(a[1..], b[1..]);
        assert a < b <==> a[1..] < b[1..];
        if i :| DiffersAt(a, b, i) && i > 0 { DiffersLater(a, b, i); }
        if i :| DiffersAt(a[1..], b[1..], i) { DiffersLater(a, b, i + 1); }
        assert forall i :: DiffersAt(a, b, i) ==> i > 0;
      } else {
        assert forall i :: 0 < i < |a| && i < |b| ==> a[..i][0] != b[..i][0];
        assert a[0] < b[0] ==> DiffersAt(a, b, 0);
      }
    }
  }

  /** The first difference is at `i`, and `a` has the smaller character there. */
  predicate DiffersAt(a: string, b: string, i: int) { 0 <= i < |a| && i < |b| && a[..i] == b[..i] && a[i] < b[i] }

  lemma DiffersLater(a: string, b: string, i: int)
    requires a != [] && b != [] && a[0] == b[0] && i > 0
    ensures DiffersAt(a, b, i) <==> DiffersAt(a[1..], b[1..], i - 1)
  {
    if i < |a| && i < |b| {
      assert a[..i] == [a[0]] + a[1..][..i - 1] && b[..i] == [b[0]] + b[1..][..i - 1];
      assert a[1..][..i - 1] == a[..i][1..] && b[1..][..i - 1] == b[..i][1..];
    }
  }

  /** The item the priority store hands out is the one with the least id. */
  lemma {:induction false} HeadIsLeast(q: seq<Request>, i: nat)
    requires Ordered(q) && 0 < i < |q|
    ensures Before(q[0].id, q[i].id)
  {
    if i > 1 {
      HeadIsLeast(q[1..], i - 1);
      BeforeTransitive(q[0].id, q[1].id, q[i].id);
    }
  }

  lemma {:induction false} SuffixOrdered(q: seq<Request>, k: nat)
    requires Ordered(q) && k <= |q|
    ensures Ordered(q[k..])
  {
    if k > 0 {
      SuffixOrdered(q[1..], k - 1);
      assert q[k..] == q[1..][k - 1..];
    }
  }

  lemma {:induction false} PutEffect(q: seq<Request>, r: Request, o: Request)
    ensures Put(q, r) != [] && (Put(q, r)[0] == r || (q != [] && Put(q, r)[0] == q[0]))
    ensures Rest(Put(q, r)) == Rest(q) + r.remaining
    ensures Count(Put(q, r), o) == Count(q, o) + Count([r], o)
    ensures AllPending(q) && Pending(r) ==> AllPending(Put(q, r))
  {
    Single(r, o);
    if q == [] || Before(r.id, q[0].id) {
      assert ([r] + q)[1..] == q;
    } else {
      PutEffect(q[1..], r, o);
      assert ([q[0]] + Put(q[1..], r))[1..] == Put(q[1..], r);
    }
  }

  lemma {:induction false} PutOrdered(q: seq<Request>, r: Request)
    requires Ordered(q) && forall i :: 0 <= i < |q| ==> q[i].id != r.id
    ensures Ordered(Put(q, r))
  {
    if q == [] || Before(r.id, q[0].id) {
      assert ([r] + q)[1..] == q;
    } else {
      BeforeTotal(r.id, q[0].id);
      PutOrdered(q[1..], r);
      PutEffect(q[1..], r, r);
      assert ([q[0]] + Put(q[1..], r))[1..] == Put(q[1..], r);
    }
  }

  // ----- the state invariant -----

  function LoadedSize(loaded: set<string>): int {
    (if "tweet" in loaded then LORA_DICT["tweet"] else 0) + (if "sql" in loaded then LORA_DICT["sql"] else 0)
    + (if "dummy-1" in loaded then LORA_DICT["dummy-1"] else 0) + (if "dummy-2" in loaded then LORA_DICT["dummy-2"] else 0)
  }

  /** How many times the four stores together hold the request that arrived as `o`. */
  function Census(s: State, o: Request): nat {
    Count(s.prefill, o) + Count(s.recompute, o) + Count(s.decode, o) + Count(s.decoded, o)
  }

  ghost predicate SameCensus(s: State, s': State) {
    forall o :: Census(s, o) == Census(s', o)
  }

  ghost predicate UniqueIds(s: State) {
    && (forall o :: Census(s, o) <= 1)
    && (forall a, b :: Census(s, a) > 0 && Census(s, b) > 0 && a.id == b.id ==> a == b)
  }

  /** Output tokens the actor's requests still need. */
  function Remaining(s: State): int { Rest(s.prefill) + Rest(s.recompute) + Rest(s.decode) }

  predicate Stocked(s: State) {
    AllFresh(s.prefill) && AllPending(s.recompute) && AllPending(s.decode) && AllDone(s.decoded)
  }

  predicate Budgeted(s: State) {
    s.loaded <= LORA_DICT.Keys && s.budget == MAX_NUM_TOKENS_ALLOWED - LoadedSize(s.loaded)
  }

  ghost predicate Inv(s: State) {
    && Stocked(s)
    && Budgeted(s)
    && |s.decode| <= MAX_NUM_SEQ
    && Ordered(s.recompute)
    && UniqueIds(s)
  }

  // ----- admission -----

  /** The guard of the main loop is true exactly when the fetch it guards returns something. */
  lemma {:induction false} GuardMatchesFetch(s: State)
    ensures CanPrefill(s) <==> Fetched(s) != []
  {
    if FromRecompute(s) == 0 { assert s.recompute[..0] == []; }
  }

  /** The three limits as they stood when the last item was admitted. */
  lemma {:induction false} LastAdmitted(s: State, q: seq<Request>, batch: int, n: nat)
    requires Take(s, q, batch, n) > 0
    ensures var k := Take(s, q, batch, n);
            && |s.decode| + n + k <= MAX_NUM_SEQ
            && batch + Tokens(q[..k - 1]) + q[k - 1].input <= MAX_NUM_BATCH_TOKENS
            && !Full(batch + Tokens(q[..k - 1]) + n + k - 1 + Tokens(s.decode), s.budget)
    decreases |q|
  {
    var k := Take(s, q, batch, n);
    if k == 1 {
      assert q[..0] == [];
    } else {
      LastAdmitted(s, q[1..], batch + q[0].Length(), n + 1);
      assert q[..k - 1][1..] == q[1..][..k - 2];
    }
  }

  /** The admission loop stops only at the end of the queue or at an item that does not fit. */
  lemma {:induction false} TakeStops(s: State, q: seq<Request>, batch: int, n: nat)
    ensures var k := Take(s, q, batch, n);
            k == |q| || !Fits(s, q[k], batch + Tokens(q[..k]), n + k)
    decreases |q|
  {
    if q != [] && Fits(s, q[0], batch, n) {
      TakeStops(s, q[1..], batch + q[0].Length(), n + 1);
      var k := Take(s, q, batch, n);
      assert q[..k][1..] == q[1..][..k - 1];
    }
  }

  /** Admitting the request would exceed 256 sequences or 512 tokens in the batch, or the cache is at 0.9
      of the budget already. */
  predicate Blocked(s: State, r: Request, batch: seq<Request>) {
    || |s.decode| + |batch| + 1 > 256
    || Tokens(batch) + r.input > 512
    || 10 * (Tokens(batch) + |batch| + Tokens(s.decode)) >= 9 * s.budget
  }

  lemma BlockedExact(s: State, r: Request, batch: seq<Request>)
    ensures Fits(s, r, Tokens(batch), |batch|) <==> !Blocked(s, r, batch)
  {
    hide Tokens;
  }

  /** A batch is as large as its order allows: recomputed requests first, then new ones, and each
      queue is left only at its end or at a request that is blocked by the batch so far. */
  lemma {:induction false} FetchIsGreedy(s: State)
    ensures var k, j := FromRecompute(s), FromPrefill(s);
            && Fetched(s) == s.recompute[..k] + s.prefill[..j]
            && (k == |s.recompute| || Blocked(s, s.recompute[k], Fetched(s)[..k]))
            && (j == |s.prefill| || Blocked(s, s.prefill[j], Fetched(s)))
  {
    hide Fits, Blocked, Tokens;
    var k, j := FromRecompute(s), FromPrefill(s);
    TakeStops(s, s.recompute, 0, 0);
    TakeStops(s, s.prefill, Tokens(s.recompute[..k]), k);
    assert Fetched(s)[..k] == s.recompute[..k];
    if k < |s.recompute| { BlockedExact(s, s.recompute[k], Fetched(s)[..k]); }
    if j < |s.prefill| { BlockedExact(s, s.prefill[j], Fetched(s)); }
    if s.prefill != [] { Additive(s.recompute[..k], s.prefill[..j], s.prefill[0]); }
    else { assert s.recompute[..k] + s.prefill[..j] == s.recompute[..k]; }
  }

  /** The limits of a whole batch, whichever queue its last item came from. */
  lemma LastFetched(s: State)
    requires Fetched(s) != []
    ensures var items, last := Fetched(s), |Fetched(s)| - 1;
            && |s.decode| + |items| <= MAX_NUM_SEQ
            && Tokens(items[..last]) + items[last].input <= MAX_NUM_BATCH_TOKENS
            && !Full(Tokens(items[..last]) + last + Tokens(s.decode), s.budget)
  {
    var k, j, items, last := FromRecompute(s), FromPrefill(s), Fetched(s), |Fetched(s)| - 1;
    if j == 0 {
      LastAdmitted(s, s.recompute, 0, 0);
      assert items[..last] == s.recompute[..k - 1];
    } else {
      LastAdmitted(s, s.prefill, Tokens(s.recompute[..k]), k);
      assert items[..last] == s.recompute[..k] + s.prefill[..j - 1];
      Additive(s.recompute[..k], s.prefill[..j - 1], s.prefill[0]);
    }
  }

  /** Every fetched batch respects the sequence, batch-token and KV-cache limits. */
  lemma {:induction false} BatchLimits(s: State)
    requires Stocked(s) && Fetched(s) != []
    ensures |s.decode| + |Fetched(s)| <= MAX_NUM_SEQ
    ensures Inputs(Fetched(s)) <= MAX_NUM_BATCH_TOKENS
    ensures 10 * (Tokens(Fetched(s)) + |Fetched(s)| + Tokens(s.decode))
            < 9 * s.budget + 10 * (Fetched(s)[|Fetched(s)| - 1].Length() + 1)
    ensures AllPending(Fetched(s))
  {
    var items, last := Fetched(s), |Fetched(s)| - 1;
    LastFetched(s);
    assert items[last..] == [items[last]];
    Splits(items, last, items[0]);
    Single(items[last], items[0]);
    SumBounds(items[..last]);
  }

  // ----- prefill -----

  lemma PrefillOneStocked(s: State, r: Request)
    requires Stocked(s) && Budgeted(s) && Pending(r)
    ensures Stocked(PrefillOne(s, r)) && Budgeted(PrefillOne(s, r))
    ensures PrefillOne(s, r).prefill == s.prefill && PrefillOne(s, r).recompute == s.recompute
  {
  }

  lemma PrefillOneSums(s: State, r: Request, o: Request)
    requires Pending(r)
    ensures var s' := PrefillOne(s, r);
            && |s'.decode| <= |s.decode| + 1
            && Census(s', o) == Census(s, o) + Count([r], o)
            && Remaining(s') == Remaining(s) + r.remaining - 1
            && Tokens(s'.decode) <= Tokens(s.decode) + r.Length() + 1
  {
    var r' := r.Generate();
    Single(r, o);
    Single(r', o);
    Additive(s.decoded, [r'], o);
    Additive(s.decode, [r'], o);
  }

  lemma {:induction false} PrefillEffect(s: State, items: seq<Request>, o: Request)
    requires Stocked(s) && Budgeted(s) && AllPending(items)
    ensures var s' := Prefill(s, items);
            && Stocked(s') && Budgeted(s')
            && s'.prefill == s.prefill && s'.recompute == s.recompute
            && |s'.decode| <= |s.decode| + |items|
            && Census(s', o) == Census(s, o) + Count(items, o)
            && Remaining(s') == Remaining(s) + Rest(items) - |items|
            && Tokens(s'.decode) <= Tokens(s.decode) + Tokens(items) + |items|
    decreases |items|
  {
    if items != [] {
      PrefillOneStocked(s, items[0]);
      PrefillOneSums(s, items[0], o);
      Single(items[0], o);
      PrefillEffect(PrefillOne(s, items[0]), items[1..], o);
    }
  }

  lemma FetchEffect(s: State, o: Request)
    ensures Census(s, o) == Census(AfterFetch(s), o) + Count(Fetched(s), o)
    ensures Remaining(s) == Remaining(AfterFetch(s)) + Rest(Fetched(s))
  {
    var k, j := FromRecompute(s), FromPrefill(s);
    Splits(s.recompute, k, o);
    Splits(s.prefill, j, o);
    Additive(s.recompute[..k], s.prefill[..j], o);
  }

  /** One prefill iteration: one token for each admitted request, and a bounded cache. */
  lemma {:induction false} PrefillIteration(s: State)
    requires Inv(s) && CanPrefill(s)
    ensures Inv(Iterate(s)) && SameCensus(s, Iterate(s))
    ensures Fetched(s) != [] && Remaining(Iterate(s)) == Remaining(s) - |Fetched(s)|
    ensures 10 * Tokens(Iterate(s).decode) < 9 * s.budget + 10 * (Fetched(s)[|Fetched(s)| - 1].Length() + 1)
  {
    hide Tokens, Rest, Count, Inputs, Ordered, Prefill, Take, Fits, CanPrefill, Evict, DecodeAll;
    var s1, items := AfterFetch(s), Fetched(s);
    GuardMatchesFetch(s);
    BatchLimits(s);
    SuffixOrdered(s.recompute, FromRecompute(s));
    forall o ensures Census(s, o) == Census(Iterate(s), o) {
      FetchEffect(s, o);
      PrefillEffect(s1, items, o);
    }
    FetchEffect(s, items[0]);
    PrefillEffect(s1, items, items[0]);
  }

  // ----- eviction -----

  lemma DistinctAcross(s: State, i: nat, j: nat)
    requires UniqueIds(s) && i < |s.recompute| && j < |s.decode|
    ensures s.recompute[i].id != s.decode[j].id
  {
    Counted(s.recompute, i);
    Counted(s.decode, j);
    var a, b := s.recompute[i].Origin(), s.decode[j].Origin();
    assert Census(s, a) > 0 && Census(s, b) > 0;
    assert a == b ==> Census(s, a) >= 2;
  }

  lemma EvictNewestSums(s: State, o: Request)
    requires s.decode != []
    ensures Census(EvictNewest(s), o) == Census(s, o)
    ensures Count(EvictNewest(s).recompute, o) == Count(s.recompute, o) + Count([s.decode[|s.decode| - 1]], o)
    ensures Remaining(EvictNewest(s)) == Remaining(s)
  {
    var last := |s.decode| - 1;
    assert s.decode[last..] == [s.decode[last]];
    Splits(s.decode, last, o);
    Single(s.decode[last], o);
    Single(s.decode[last].Bumped(), o);
    PutEffect(s.recompute, s.decode[last].Bumped(), o);
  }

  lemma EvictNewestKeeps(s: State)
    requires Inv(s) && s.decode != []
    ensures Inv(EvictNewest(s)) && SameCensus(s, EvictNewest(s)) && EvictNewest(s).recompute != []
  {
    var last := |s.decode| - 1;
    var r := s.decode[last].Bumped();
    PutEffect(s.recompute, r, r);
    forall i | 0 <= i < |s.recompute| ensures s.recompute[i].id != r.id {
      DistinctAcross(s, i, last);
    }
    PutOrdered(s.recompute, r);
    forall o ensures Census(s, o) == Census(EvictNewest(s), o) { EvictNewestSums(s, o); }
  }

  lemma {:induction false} EvictKeeps(s: State)
    requires Inv(s)
    ensures Inv(Evict(s)) && SameCensus(s, Evict(s)) && Remaining(Evict(s)) == Remaining(s)
    ensures !ShouldRecompute(Evict(s))
    ensures s.recompute != [] || |Evict(s).decode| < |s.decode| ==> Evict(s).recompute != []
    decreases |s.decode|
  {
    if ShouldRecompute(s) && s.decode != [] {
      var s' := EvictNewest(s);
      EvictNewestKeeps(s);
      EvictNewestSums(s, s.decode[0]);
      EvictKeeps(s');
      assert Evict(s) == Evict(s');
      forall o ensures Census(s, o) == Census(Evict(s), o) {
        assert Census(s, o) == Census(s', o) == Census(Evict(s'), o);
      }
    } else {
      assert Evict(s) == s;
    }
  }

  /** The bound holds again once only the oldest `k` sequences are kept. */
  predicate Restores(q: seq<Request>, k: nat, budget: int)
    requires k <= |q|
  {
    !Over(k + Tokens(q[..k]), budget)
  }

  /** Eviction removes exactly the shortest newest-first suffix that restores the bound. */
  lemma {:induction false} EvictMinimal(s: State, o: Request) returns (k: nat)
    requires s.budget > 0
    ensures k <= |s.decode| && Evict(s).decode == s.decode[..k]
    ensures Restores(s.decode, k, s.budget)
    ensures forall j :: k < j <= |s.decode| ==> !Restores(s.decode, j, s.budget)
    ensures Count(Evict(s).recompute, o) == Count(s.recompute, o) + Count(s.decode[k..], o)
    ensures Evict(s).(decode := s.decode, recompute := s.recompute) == s
    decreases |s.decode|
  {
    hide Put, Tokens, Count, ShouldRecompute, Restores, EvictNewest;
    var n := |s.decode|;
    WholeRestores(s);
    if ShouldRecompute(s) && s.decode != [] {
      var s' := EvictNewest(s);
      NewestOnly(s);
      k := EvictMinimal(s', o);
      SuffixCounts(s, k, o);
      forall j | 0 <= j < n ensures Restores(s'.decode, j, s.budget) <==> Restores(s.decode, j, s.budget) {
        PrefixRestores(s.decode, n - 1, j, s.budget);
      }
    } else {
      k := n;
      NothingCounted(s.decode, o);
    }
  }

  lemma NewestOnly(s: State)
    requires s.decode != []
    ensures var s' := EvictNewest(s);
            s'.decode == s.decode[..|s.decode| - 1] && s'.budget == s.budget && s'.(decode := s.decode, recompute := s.recompute) == s
    ensures ShouldRecompute(s) ==> Evict(s) == Evict(EvictNewest(s))
  {
    hide Put, ShouldRecompute;
  }

  lemma SuffixCounts(s: State, k: nat, o: Request)
    requires s.decode != [] && k < |s.decode|
    ensures s.decode[..|s.decode| - 1][..k] == s.decode[..k]
    ensures Count(EvictNewest(s).recompute, o) + Count(s.decode[..|s.decode| - 1][k..], o) == Count(s.recompute, o) + Count(s.decode[k..], o)
  {
    hide EvictNewest, Count;
    var n := |s.decode|;
    EvictNewestSums(s, o);
    assert s.decode[k..] == s.decode[..n - 1][k..] + [s.decode[n - 1]];
    Additive(s.decode[..n - 1][k..], [s.decode[n - 1]], o);
  }

  lemma WholeRestores(s: State)
    requires s.budget > 0
    ensures ShouldRecompute(s) <==> !Restores(s.decode, |s.decode|, s.budget)
    ensures s.decode == [] ==> !ShouldRecompute(s)
  {
    assert s.decode[..|s.decode|] == s.decode;
  }

  lemma PrefixRestores(q: seq<Request>, n: nat, j: nat, budget: int)
    requires j <= n <= |q|
    ensures Restores(q[..n], j, budget) <==> Restores(q, j, budget)
  {
    assert q[..n][..j] == q[..j];
  }

  lemma NothingCounted(q: seq<Request>, o: Request)
    ensures q[..|q|] == q && Count(q[|q|..], o) == 0
  {
  }

  lemma {:induction false} PutHolds(q: seq<Request>, r: Request, x: Request)
    ensures x in Put(q, r) <==> x == r || x in q
  {
    if q != [] && !Before(r.id, q[0].id) { PutHolds(q[1..], r, x); }
  }

  /** An evicted sequence keeps everything it has, and its count of recomputes goes up by one; what
      waited for recompute stays as it is. */
  lemma {:induction false} EvictedCounted(s: State, k: nat, x: Request)
    requires k <= |s.decode| && Evict(s).decode == s.decode[..k]
    ensures x in Evict(s).recompute <==>
            x in s.recompute || exists i :: k <= i < |s.decode| && x == s.decode[i].(recomputes := s.decode[i].recomputes + 1)
    decreases |s.decode|
  {
    hide Put;
    var n := |s.decode|;
    if ShouldRecompute(s) && s.decode != [] {
      var s' := EvictNewest(s);
      EvictShrinks(s');
      assert s'.decode[..k] == s.decode[..k];
      EvictedCounted(s', k, x);
      PutHolds(s.recompute, s.decode[n - 1].Bumped(), x);
      assert forall i :: k <= i < n - 1 ==> s'.decode[i] == s.decode[i];
    } else {
      assert |s.decode[..k]| == k;
    }
  }

  lemma {:induction false} EvictShrinks(s: State)
    ensures |Evict(s).decode| <= |s.decode|
    decreases |s.decode|
  {
    if ShouldRecompute(s) && s.decode != [] { EvictShrinks(EvictNewest(s)); }
  }

  // ----- decoding -----

  lemma {:induction false} DecodeKinds(q: seq<Request>)
    requires AllPending(q)
    ensures AllPending(Survivors(q)) && AllDone(Finished(q))
  {
    if q != [] {
      DecodeKinds(q[1..]);
      assert Pending(q[0]);
    }
  }

  lemma {:induction false} DecodeSums(q: seq<Request>, o: Request)
    requires AllPending(q)
    ensures |Survivors(q)| <= |q|
    ensures Count(Survivors(q), o) + Count(Finished(q), o) == Count(q, o)
    ensures Rest(Survivors(q)) == Rest(q) - |q|
    ensures Tokens(Survivors(q)) <= Tokens(q) + |q|
  {
    if q != [] {
      var r, t := q[0].Generate(), q[1..];
      DecodeSums(t, o);
      assert Pending(q[0]);
      if r.remaining == 0 {
        assert Survivors(q) == Survivors(t);
        assert Finished(q) == [r] + Finished(t) && ([r] + Finished(t))[1..] == Finished(t);
      } else {
        assert Finished(q) == Finished(t);
        assert Survivors(q) == [r] + Survivors(t) && ([r] + Survivors(t))[1..] == Survivors(t);
      }
    }
  }

  lemma {:induction false} SurvivorsConcat(a: seq<Request>, b: seq<Request>)
    ensures Survivors(a + b) == Survivors(a) + Survivors(b)
  {
    if a == [] {
      assert a + b == b;
    } else {
      assert (a + b)[1..] == a[1..] + b;
      SurvivorsConcat(a[1..], b);
    }
  }

  /** A decode pass keeps the survivors in order: each one comes right after the survivors among
      the sequences before it, with one token less to generate. */
  lemma {:induction false} SurvivorsInOrder(q: seq<Request>, i: nat)
    requires i < |q| && q[i].remaining != 1
    ensures var rank := |Survivors(q[..i])|; rank < |Survivors(q)| && Survivors(q)[rank] == q[i].Generate()
  {
    assert q == q[..i] + q[i..] && q[i..][0] == q[i];
    SurvivorsConcat(q[..i], q[i..]);
  }

  lemma DecodeAllCensus(s: State, o: Request)
    requires AllPending(s.decode)
    ensures Census(DecodeAll(s), o) == Census(s, o)
  {
    hide Survivors, Finished, Tokens, Rest, Count;
    DecodeSums(s.decode, o);
    Additive(s.decoded, Finished(s.decode), o);
  }

  lemma DecodeNothing()
    ensures Survivors([]) == [] && Finished([]) == [] && Rest([]) == 0 && Tokens([]) == 0
  {
  }

  lemma DecodeAllKeeps(s: State)
    requires Inv(s)
    ensures Inv(DecodeAll(s)) && SameCensus(s, DecodeAll(s))
    ensures Remaining(DecodeAll(s)) == Remaining(s) - |s.decode|
    ensures Tokens(DecodeAll(s).decode) <= Tokens(s.decode) + |s.decode|
  {
    hide Survivors, Finished, Tokens, Rest, Count, Ordered;
    DecodeKinds(s.decode);
    if s.decode == [] { DecodeNothing(); } else { DecodeSums(s.decode, s.decode[0]); }
    forall o ensures Census(s, o) == Census(DecodeAll(s), o) { DecodeAllCensus(s, o); }
  }

  /** With nothing in the decode store the head of a queue always fits. */
  lemma NonIdleAdmits(s: State)
    requires Stocked(s) && Budgeted(s) && !Idle(s) && s.decode == []
    ensures CanPrefill(s)
  {
    assert s.budget > 0;
    assert s.recompute != [] ==> Pending(s.recompute[0]);
    assert s.prefill != [] ==> Fresh(s.prefill[0]);
  }

  /** One iteration that cannot prefill: evict if needed, then one token for each survivor. */
  lemma {:induction false} DecodeIteration(s: State)
    requires Inv(s) && !Idle(s) && !CanPrefill(s)
    ensures Inv(Iterate(s)) && SameCensus(s, Iterate(s))
    ensures Remaining(Iterate(s)) == Remaining(s) - |Evict(s).decode|
    ensures 10 * Tokens(Iterate(s).decode) <= 9 * Iterate(s).budget
    ensures s.decode != []
    ensures Evict(s).decode == [] ==> Iterate(s).decode == [] && Iterate(s).recompute != []
  {
    if s.decode == [] { NonIdleAdmits(s); }
    EvictKeeps(s);
    if Evict(s).decode != [] { DecodeAllKeeps(Evict(s)); }
  }
}
