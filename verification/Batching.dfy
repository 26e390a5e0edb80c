/**
 The continuous-batching scheduler of one LLM actor, as functions from store contents to
 store contents.  Module `LlmActor` proves the imperative code against these functions, and
 module `BatchingRuns` proves what holds along every run.
 */
module Batching {
  import opened Wrappers

  const MAX_NUM_SEQ := 256
  const MAX_NUM_BATCH_TOKENS := 512
  const TOTAL_NUM_GPU_BLOCKS := 2810
  const NUMBER_OF_TOKENS_PER_BLOCK := 16
  const MAX_NUM_TOKENS_ALLOWED := TOTAL_NUM_GPU_BLOCKS * NUMBER_OF_TOKENS_PER_BLOCK - MAX_NUM_BATCH_TOKENS

  /** Sizes of the adapters, in KV-cache tokens. */
  const LORA_DICT: map<string, nat> := map["tweet" := 1600, "sql" := 1600, "dummy-1" := 0, "dummy-2" := 0]

  datatype Request = Request(id: string, input: int, output: int, remaining: int,
                             lora: Option<string>, recomputes: nat)
  {
    /** Tokens the request occupies: its prompt plus what has been generated so far. */
    function Length(): int { input + output - remaining }

    /** The request as it was when it arrived. */
    function Origin(): Request { this.(remaining := output, recomputes := 0) }

    function Generate(): Request { this.(remaining := remaining - 1) }

    function Bumped(): Request { this.(recomputes := recomputes + 1) }
  }

  datatype State = State(prefill: seq<Request>, recompute: seq<Request>, decode: seq<Request>,
                         decoded: seq<Request>, loaded: set<string>, budget: int)

  const INITIAL := State([], [], [], [], {}, MAX_NUM_TOKENS_ALLOWED)

  // ----- token accounting -----

  function Tokens(q: seq<Request>): int {
    if q == [] then 0 else q[0].Length() + Tokens(q[1..])
  }

  /** `tokens / budget >= 0.9`, for a positive budget (see ShareIsExact). */
  predicate Full(tokens: int, budget: int) { 10 * tokens >= 9 * budget }

  /** `tokens / budget > 0.9`, for a positive budget. */
  predicate Over(tokens: int, budget: int) { 10 * tokens > 9 * budget }

  lemma QuotientBound(t: real, b: real, c: real)
    requires b > 0.0
    ensures t / b >= c <==> t >= c * b
    ensures t / b > c <==> t > c * b
  {
    var q := t / b;
    assert (q - c) * b == t - c * b;
  }

  lemma {:induction false} ShareIsExact(tokens: int, budget: int)
    requires budget > 0
    ensures Full(tokens, budget) <==> tokens as real / budget as real >= 0.9
    ensures Over(tokens, budget) <==> tokens as real / budget as real > 0.9
  {
    QuotientBound(tokens as real, budget as real, 0.9);
    assert (10 * tokens) as real == 10.0 * tokens as real && (9 * budget) as real == 9.0 * budget as real;
  }

  // ----- the recompute queue: a priority store ordered by request id -----

  /** Lexicographic order on ids, as Python compares strings. */
  predicate Before(a: string, b: string) {
    b != [] && (a == [] || a[0] < b[0] || (a[0] == b[0] && Before(a[1..], b[1..])))
  }

  function Put(q: seq<Request>, r: Request): seq<Request> {
    if q == [] || Before(r.id, q[0].id) then [r] + q else [q[0]] + Put(q[1..], r)
  }

  // ----- admission -----

  predicate Fits(s: State, r: Request, batch: int, newSeqs: int) {
    && !(|s.decode| + newSeqs + 1 > MAX_NUM_SEQ)
    && !(batch + r.input > MAX_NUM_BATCH_TOKENS)
    && !Full(batch + newSeqs + Tokens(s.decode), s.budget)
  }

  predicate CanPrefill(s: State) {
    || (s.recompute != [] && Fits(s, s.recompute[0], 0, 0))
    || (s.prefill != [] && Fits(s, s.prefill[0], 0, 0))
  }

  /** How many items the admission loop takes from the front of `q`. */
  function Take(s: State, q: seq<Request>, batch: int, newSeqs: int): (k: nat)
    ensures k <= |q|
  {
    if q == [] || !Fits(s, q[0], batch, newSeqs) then 0
    else 1 + Take(s, q[1..], batch + q[0].Length(), newSeqs + 1)
  }

  /** Items taken from the recompute queue, which is served first. */
  function FromRecompute(s: State): (k: nat)
    ensures k <= |s.recompute|
  {
    Take(s, s.recompute, 0, 0)
  }

  function FromPrefill(s: State): (k: nat)
    ensures k <= |s.prefill|
  {
    var k := FromRecompute(s);
    Take(s, s.prefill, Tokens(s.recompute[..k]), k)
  }

  function Fetched(s: State): seq<Request> {
    s.recompute[..FromRecompute(s)] + s.prefill[..FromPrefill(s)]
  }

  function AfterFetch(s: State): State {
    s.(recompute := s.recompute[FromRecompute(s)..], prefill := s.prefill[FromPrefill(s)..])
  }

  // ----- prefill -----

  function LoadLora(s: State, lora: Option<string>): State {
    if lora.Some? && lora.value !in s.loaded && lora.value in LORA_DICT then
      s.(loaded := s.loaded + {lora.value}, budget := s.budget - LORA_DICT[lora.value])
    else s
  }

  function PrefillOne(s: State, r: Request): State {
    var s' := LoadLora(s, r.lora);
    var r' := r.Generate();
    if r'.remaining == 0 then s'.(decoded := s'.decoded + [r']) else s'.(decode := s'.decode + [r'])
  }

  function Prefill(s: State, items: seq<Request>): State
    decreases |items|
  {
    if items == [] then s else Prefill(PrefillOne(s, items[0]), items[1..])
  }

  // ----- eviction and decoding -----

  predicate ShouldRecompute(s: State) { Over(|s.decode| + Tokens(s.decode), s.budget) }

  function EvictNewest(s: State): State
    requires s.decode != []
  {
    var last := |s.decode| - 1;
    s.(decode := s.decode[..last], recompute := Put(s.recompute, s.decode[last].Bumped()))
  }

  function Evict(s: State): State
    decreases |s.decode|
  {
    if ShouldRecompute(s) && s.decode != [] then Evict(EvictNewest(s)) else s
  }

  /** The items that still have output to generate after one more token, in order. */
  function Survivors(q: seq<Request>): seq<Request> {
    if q == [] then []
    else (if q[0].remaining - 1 == 0 then [] else [q[0].Generate()]) + Survivors(q[1..])
  }

  function Finished(q: seq<Request>): seq<Request> {
    if q == [] then []
    else (if q[0].remaining - 1 == 0 then [q[0].Generate()] else []) + Finished(q[1..])
  }

  function DecodeAll(s: State): State {
    s.(decode := Survivors(s.decode), decoded := s.decoded + Finished(s.decode))
  }

  // ----- one iteration of the main loop -----

  predicate Idle(s: State) { s.decode == [] && s.prefill == [] && s.recompute == [] }

  function Iterate(s: State): State {
    if Idle(s) then s
    else if CanPrefill(s) then Prefill(AfterFetch(s), Fetched(s))
    else
      var s' := Evict(s);
      if s'.decode != [] then DecodeAll(s') else s'
  }

  function Arrive(s: State, r: Request): State { s.(prefill := s.prefill + [r]) }
}
