/** The actor's stores and the imperative scheduler code over them. */
module LlmActor {
  import opened Batching
  import opened BatchingSteps

  class LLMActor {
    var prefillStore: seq<Request>
    var recomputeStore: seq<Request>
    var decodeStore: seq<Request>
    var decodedStore: seq<Request>
    var loraLoaded: set<string>
    var maxNumTokensAllowed: int

    ghost function View(): State
      reads this
    {
      State(prefillStore, recomputeStore, decodeStore, decodedStore, loraLoaded, maxNumTokensAllowed)
    }

    constructor ()
      ensures View() == INITIAL && Inv(View())
    {
      prefillStore, recomputeStore, decodeStore, decodedStore := [], [], [], [];
      loraLoaded, maxNumTokensAllowed := {}, MAX_NUM_TOKENS_ALLOWED;
    }

    method NumTokensInDecode() returns (sum: int)
      ensures sum == Tokens(decodeStore)
    {
      sum := 0;
      var i := 0;
      while i < |decodeStore|
        invariant i <= |decodeStore|
        invariant sum + Tokens(decodeStore[i..]) == Tokens(decodeStore)
      {
        sum := sum + decodeStore[i].Length();
        assert decodeStore[i..][1..] == decodeStore[i + 1..];
        i := i + 1;
      }
    }

    method CanPrefillItems() returns (b: bool)
      ensures b <==> CanPrefill(View())
      ensures b <==> Fetched(View()) != []
    {
      GuardMatchesFetch(View());
      var tokens := NumTokensInDecode();
      if |recomputeStore| > 0 {
        var oldest := recomputeStore[0];
        if !(|decodeStore| + 1 > MAX_NUM_SEQ || oldest.input > MAX_NUM_BATCH_TOKENS || Full(tokens, maxNumTokensAllowed)) {
          return true;
        }
      }
      if |prefillStore| > 0 {
        var oldest := prefillStore[0];
        if !(|decodeStore| + 1 > MAX_NUM_SEQ || oldest.input > MAX_NUM_BATCH_TOKENS || Full(tokens, maxNumTokensAllowed)) {
          return true;
        }
      }
      return false;
    }

    /** The first admission loop: recomputed requests go first. */
    method FetchFromRecompute(tokens: int, batch0: int, newSeqs0: nat) returns (items: seq<Request>, batch: int, newSeqs: nat)
      requires tokens == Tokens(decodeStore)
      modifies this`recomputeStore
      ensures var k := Take(old(View()), old(recomputeStore), batch0, newSeqs0);
              && items == old(recomputeStore)[..k] && recomputeStore == old(recomputeStore)[k..]
              && batch == batch0 + Tokens(items) && newSeqs == newSeqs0 + k
    {
      hide Tokens, Rest, Inputs, Count;
      NoTokens();
      ghost var s, q := View(), recomputeStore;
      items, batch, newSeqs := [], batch0, newSeqs0;
      while |recomputeStore| > 0
        invariant |items| <= |q| && items == q[..|items|] && recomputeStore == q[|items|..]
        invariant batch == batch0 + Tokens(items) && newSeqs == newSeqs0 + |items|
        invariant |items| + Take(s, recomputeStore, batch, newSeqs) == Take(s, q, batch0, newSeqs0)
      {
        var oldest := recomputeStore[0];
        if |decodeStore| + newSeqs + 1 > MAX_NUM_SEQ || batch + oldest.input > MAX_NUM_BATCH_TOKENS
           || Full(batch + newSeqs + tokens, maxNumTokensAllowed) {
          break;
        }
        Additive(items, [oldest], oldest);
        Single(oldest, oldest);
        batch, newSeqs := batch + oldest.Length(), newSeqs + 1;
        recomputeStore := recomputeStore[1..];
        items := items + [oldest];
      }
    }

    /** The second admission loop, which continues the counts of the first. */
    method FetchFromPrefill(tokens: int, batch0: int, newSeqs0: nat) returns (items: seq<Request>, batch: int, newSeqs: nat)
      requires tokens == Tokens(decodeStore)
      modifies this`prefillStore
      ensures var k := Take(old(View()), old(prefillStore), batch0, newSeqs0);
              && items == old(prefillStore)[..k] && prefillStore == old(prefillStore)[k..]
              && batch == batch0 + Tokens(items) && newSeqs == newSeqs0 + k
    {
      hide Tokens, Rest, Inputs, Count;
      NoTokens();
      ghost var s, q := View(), prefillStore;
      items, batch, newSeqs := [], batch0, newSeqs0;
      while |prefillStore| > 0
        invariant |items| <= |q| && items == q[..|items|] && prefillStore == q[|items|..]
        invariant batch == batch0 + Tokens(items) && newSeqs == newSeqs0 + |items|
        invariant |items| + Take(s, prefillStore, batch, newSeqs) == Take(s, q, batch0, newSeqs0)
      {
        var oldest := prefillStore[0];
        if |decodeStore| + newSeqs + 1 > MAX_NUM_SEQ || batch + oldest.input > MAX_NUM_BATCH_TOKENS
           || Full(batch + newSeqs + tokens, maxNumTokensAllowed) {
          break;
        }
        Additive(items, [oldest], oldest);
        Single(oldest, oldest);
        batch, newSeqs := batch + oldest.Length(), newSeqs + 1;
        prefillStore := prefillStore[1..];
        items := items + [oldest];
      }
    }

    /** Pops from the recompute queue, then from the prefill queue, while the next item fits. */
    method FetchPrefillItems() returns (items: seq<Request>)
      modifies this`recomputeStore, this`prefillStore
      ensures items == old(Fetched(View()))
      ensures View() == old(AfterFetch(View()))
    {
      ghost var s := View();
      var tokens := NumTokensInDecode();
      var first, batch, newSeqs := FetchFromRecompute(tokens, 0, 0);
      TakeIgnoresQueues(s, View(), s.prefill, batch, newSeqs);
      var second, _, _ := FetchFromPrefill(tokens, batch, newSeqs);
      items := first + second;
    }

    /** Loads adapters, generates each item's first token and files it as decoding or decoded. */
    method ProcessPrefillItems(items: seq<Request>)
      requires AllPending(items)
      modifies this
      ensures View() == Prefill(old(View()), items)
    {
      var i := 0;
      while i < |items|
        invariant i <= |items|
        invariant Prefill(View(), items[i..]) == Prefill(old(View()), items)
      {
        var item := items[i];
        assert items[i..][1..] == items[i + 1..] && Pending(item);
        if item.lora.Some? && item.lora.value !in loraLoaded {
          loraLoaded := loraLoaded + {item.lora.value};
          maxNumTokensAllowed := maxNumTokensAllowed - LORA_DICT[item.lora.value];
        }
        item := item.(remaining := item.remaining - 1);
        if item.remaining == 0 {
          decodedStore := decodedStore + [item];
        } else {
          decodeStore := decodeStore + [item];
          assert item.remaining > 0;
        }
        i := i + 1;
      }
    }

    /** Removes the first item of the decode store with the given id. */
    method GetById(id: string) returns (item: Request)
      requires exists i :: 0 <= i < |decodeStore| && decodeStore[i].id == id
      modifies this`decodeStore
      ensures exists i :: && 0 <= i < |old(decodeStore)| && item == old(decodeStore)[i] && item.id == id
                          && decodeStore == old(decodeStore)[..i] + old(decodeStore)[i + 1..]
    {
      var i := 0;
      while decodeStore[i].id != id
        invariant 0 <= i < |decodeStore|
        invariant exists j :: i <= j < |decodeStore| && decodeStore[j].id == id
        decreases |decodeStore| - i
      {
        i := i + 1;
      }
      item := decodeStore[i];
      decodeStore := decodeStore[..i] + decodeStore[i + 1..];
    }

    method PutRecompute(item: Request)
      modifies this`recomputeStore
      ensures recomputeStore == Put(old(recomputeStore), item)
    {
      hide Before;
      var i := 0;
      while i < |recomputeStore| && !Before(item.id, recomputeStore[i].id)
        invariant i <= |recomputeStore|
        invariant Put(recomputeStore, item) == recomputeStore[..i] + Put(recomputeStore[i..], item)
      {
        var q, r := recomputeStore[i..], recomputeStore[i + 1..];
        assert q[1..] == r && Put(q, item) == [recomputeStore[i]] + Put(r, item);
        assert recomputeStore[..i + 1] + Put(r, item) == recomputeStore[..i] + ([recomputeStore[i]] + Put(r, item));
        i := i + 1;
      }
      assert Put(recomputeStore[i..], item) == [item] + recomputeStore[i..];
      recomputeStore := recomputeStore[..i] + [item] + recomputeStore[i..];
    }

    predicate MustRecompute()
      reads this
    {
      Over(|decodeStore| + Tokens(decodeStore), maxNumTokensAllowed)
    }

    /** Moves the newest sequence, looked up by its id, to the recompute queue. */
    method RecomputeNewest()
      requires UniqueIds(View()) && decodeStore != []
      modifies this
      ensures View() == EvictNewest(old(View()))
    {
      ghost var s := View();
      var newest := decodeStore[|decodeStore| - 1].id;
      var item := GetById(newest);
      ghost var i :| 0 <= i < |s.decode| && s.decode[i] == item && decodeStore == s.decode[..i] + s.decode[i + 1..];
      if i < |s.decode| - 1 { DistinctInDecode(s, i, |s.decode| - 1); }
      PutRecompute(item.(recomputes := item.recomputes + 1));
    }

    /** Moves the newest sequences to the recompute queue until the cache bound holds again. */
    method RemoveFromDecodeStore()
      requires Inv(View())
      modifies this
      ensures View() == Evict(old(View())) && Inv(View())
    {
      hide Tokens, Rest, Count, Put, Ordered;
      while MustRecompute()
        invariant Inv(View()) && Evict(View()) == Evict(old(View()))
        decreases |decodeStore|
      {
        OverMeansBusy(View());
        EvictNewestKeeps(View());
        RecomputeNewest();
      }
    }

    /** Takes every sequence out of the decode store and generates one token for it. */
    method DecodeEach() returns (temp: seq<Request>)
      requires AllPending(decodeStore)
      modifies this`decodeStore
      ensures decodeStore == [] && |temp| == |old(decodeStore)|
      ensures forall j :: 0 <= j < |temp| ==> temp[j] == old(decodeStore)[j].Generate()
    {
      ghost var q := decodeStore;
      var n := |decodeStore|;
      temp := [];
      for i := 0 to n
        invariant decodeStore == q[i..] && |temp| == i
        invariant forall j :: 0 <= j < i ==> temp[j] == q[j].Generate()
      {
        var msg := decodeStore[0];
        decodeStore := decodeStore[1..];
        assert Pending(q[i]);
        msg := msg.(remaining := msg.remaining - 1);
        assert msg.remaining >= 0;
        temp := temp + [msg];
      }
    }

    /** One token for every sequence in the decode store, keeping the survivors in order. */
    method DecodeItems()
      requires AllPending(decodeStore)
      modifies this`decodeStore, this`decodedStore
      ensures View() == DecodeAll(old(View()))
    {
      ghost var q, done := decodeStore, decodedStore;
      var temp := DecodeEach();
      assert q[0..] == q;
      for i := 0 to |temp|
        invariant decodeStore + Survivors(q[i..]) == Survivors(q)
        invariant decodedStore + Finished(q[i..]) == done + Finished(q)
      {
        assert q[i..][1..] == q[i + 1..];
        if temp[i].remaining == 0 {
          decodedStore := decodedStore + [temp[i]];
        } else {
          decodeStore := decodeStore + [temp[i]];
        }
      }
    }

    /** One iteration of the main loop. */
    method PrefillOrDecode()
      requires Inv(View())
      modifies this
      ensures View() == Iterate(old(View())) && Inv(View())
      ensures SameCensus(old(View()), View())
    {
      ghost var s := View();
      if |decodeStore| == 0 && |prefillStore| == 0 && |recomputeStore| == 0 {
        return;
      }
      var ready := CanPrefillItems();
      if ready {
        PrefillIteration(s);
        BatchLimits(s);
        var items := FetchPrefillItems();
        ProcessPrefillItems(items);
      } else {
        DecodeIteration(s);
        if MustRecompute() { RemoveFromDecodeStore(); }
        if |decodeStore| > 0 { DecodeItems(); }
      }
    }
  }

  /** Admission depends on the decode store and the budget only. */
  lemma {:induction false} TakeIgnoresQueues(s: State, s': State, q: seq<Request>, batch: int, n: int)
    requires s.decode == s'.decode && s.budget == s'.budget
    ensures Take(s, q, batch, n) == Take(s', q, batch, n)
    decreases |q|
  {
    if q != [] { TakeIgnoresQueues(s, s', q[1..], batch + q[0].Length(), n + 1); }
  }

  lemma NoTokens()
    ensures Tokens([]) == 0
  {
  }

  /** An empty decode store is within any positive budget, so eviction stops. */
  lemma OverMeansBusy(s: State)
    requires Budgeted(s) && ShouldRecompute(s)
    ensures s.decode != []
  {
  }

  lemma DistinctInDecode(s: State, i: nat, j: nat)
    requires UniqueIds(s) && i < j < |s.decode|
    ensures s.decode[i].id != s.decode[j].id
  {
    var a, b := s.decode[i].Origin(), s.decode[j].Origin();
    Splits(s.decode, j, a);
    Counted(s.decode, i);
    Counted(s.decode, j);
    Counted(s.decode[..j], i);
    Counted(s.decode[j..], 0);
    assert Census(s, a) > 0 && Census(s, b) > 0;
    assert a == b ==> Census(s, a) >= 2;
  }
}
