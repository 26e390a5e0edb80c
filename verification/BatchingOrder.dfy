/** The order of the decode store: sequences stand in the order of their admission, over every run. */
module BatchingOrder {
  import opened Wrappers
  import opened Batching
  import opened BatchingSteps
  import opened BatchingRuns

  // ----- one iteration -----

  function Adapters(items: seq<Request>): set<string> {
    if items == [] then {}
    else (if items[0].lora.Some? then {items[0].lora.value} else {}) + Adapters(items[1..])
  }

  /** What one more item in front adds to the lists. */
  lemma ListsOf(r: Request, rest: seq<Request>)
    ensures Survivors([r] + rest) == (if r.remaining == 1 then [] else [r.Generate()]) + Survivors(rest)
    ensures Finished([r] + rest) == (if r.remaining == 1 then [r.Generate()] else []) + Finished(rest)
    ensures Adapters([r] + rest) == (if r.lora.Some? then {r.lora.value} else {}) + Adapters(rest)
  {
    assert ([r] + rest)[1..] == rest;
  }

  lemma PrefillStep(s: State, r: Request, rest: seq<Request>)
    ensures Prefill(s, [r] + rest) == Prefill(PrefillOne(s, r), rest)
  {
    hide PrefillOne;
    assert ([r] + rest)[1..] == rest;
  }

  lemma Associates(q: seq<Request>, a: seq<Request>, b: seq<Request>)
    ensures (q + a) + b == q + (a + b) && q + [] == q
  {
  }

  lemma {:induction false} PrefillShape(s: State, items: seq<Request>)
    requires forall i :: 0 <= i < |items| ==> Known(items[i].lora)
    ensures var s' := Prefill(s, items);
            && s'.decode == s.decode + Survivors(items) && s'.decoded == s.decoded + Finished(items)
            && s'.loaded == s.loaded + Adapters(items)
            && s'.prefill == s.prefill && s'.recompute == s.recompute
    decreases |items|
  {
    if items == [] {
      assert s.decode + [] == s.decode && s.decoded + [] == s.decoded;
    } else {
      hide PrefillOne, Prefill, Survivors, Finished, Adapters, Known;
      var r, rest := items[0], items[1..];
      assert items == [r] + rest;
      var s1 := PrefillOne(s, r);
      OneShape(s, r);
      PrefillShape(s1, rest);
      PrefillStep(s, r, rest);
      ListsOf(r, rest);
      Associates(s.decode, if r.remaining == 1 then [] else [r.Generate()], Survivors(rest));
      Associates(s.decoded, if r.remaining == 1 then [r.Generate()] else [], Finished(rest));
      assert s.loaded + (if r.lora.Some? then {r.lora.value} else {}) + Adapters(rest) == s.loaded + Adapters(items);
    }
  }

  lemma OneShape(s: State, r: Request)
    requires Known(r.lora)
    ensures var s' := PrefillOne(s, r);
            && s'.loaded == s.loaded + (if r.lora.Some? then {r.lora.value} else {})
            && s'.prefill == s.prefill && s'.recompute == s.recompute
            && s'.decode == s.decode + (if r.remaining == 1 then [] else [r.Generate()])
            && s'.decoded == s.decoded + (if r.remaining == 1 then [r.Generate()] else [])
  {
    assert s.decode + [] == s.decode && s.decoded + [] == s.decoded;
  }

  /** A prefill iteration leaves the decoding sequences where they are and puts behind them the fetched
      items that have output left, in fetch order and one token further; the others are decoded; the
      queues lose the fetched items, and their adapters are loaded. */
  lemma {:induction false} PrefillAppends(s: State)
    requires Inv(s) && CanPrefill(s)
    ensures var s', items := Iterate(s), Fetched(s);
            && s'.decode == s.decode + Survivors(items) && s'.decoded == s.decoded + Finished(items)
            && s'.loaded == s.loaded + Adapters(items)
            && s.recompute == s.recompute[..FromRecompute(s)] + s'.recompute
            && s.prefill == s.prefill[..FromPrefill(s)] + s'.prefill
            && items == s.recompute[..FromRecompute(s)] + s.prefill[..FromPrefill(s)]
  {
    hide Prefill, Take, FromRecompute, FromPrefill, CanPrefill, Survivors, Finished, Adapters, Evict, DecodeAll, Idle, Inv;
    GuardMatchesFetch(s);
    FetchedKnown(s);
    PrefillShape(AfterFetch(s), Fetched(s));
    NotIdle(s);
  }

  lemma FetchedKnown(s: State)
    requires Inv(s) && Fetched(s) != []
    ensures forall i :: 0 <= i < |Fetched(s)| ==> Known(Fetched(s)[i].lora)
  {
    hide Fetched, Tokens, Ordered, Census, Budgeted;
    BatchLimits(s);
  }

  lemma NotIdle(s: State)
    ensures CanPrefill(s) ==> !Idle(s)
  {
    hide Fits;
  }

  /** The finished sequences of a pass, too, are filed in order. */
  lemma {:induction false} FinishedInOrder(q: seq<Request>, i: nat)
    requires i < |q| && q[i].remaining == 1
    ensures var rank := |Finished(q[..i])|; rank < |Finished(q)| && Finished(q)[rank] == q[i].(remaining := 0)
  {
    if i == 0 {
      assert Finished(q[..0]) == [];
    } else {
      FinishedInOrder(q[1..], i - 1);
      assert q[..i][1..] == q[1..][..i - 1] && q[..i][0] == q[0];
    }
  }

  // ----- runs -----

  /** When a request was last admitted: after how many events, and in which place of the batch. */
  datatype Stamp = Stamp(time: int, place: int)

  predicate Earlier(x: Stamp, y: Stamp) { x.time < y.time || (x.time == y.time && x.place < y.place) }

  /** The first item that arrived as `o`. */
  function Place(q: seq<Request>, o: Request): nat {
    if q == [] || q[0].Origin() == o then 0 else 1 + Place(q[1..], o)
  }

  /** The batch an event admits. */
  function Batch(s: State, e: Event): seq<Request> { if e.Tick? && CanPrefill(s) then Fetched(s) else [] }

  function Admitted(events: seq<Event>, o: Request): Stamp {
    if events == [] then Stamp(-1, 0)
    else
      var before := events[..|events| - 1];
      var batch := Batch(Run(before), events[|events| - 1]);
      if Count(batch, o) > 0 then Stamp(|before|, Place(batch, o)) else Admitted(before, o)
  }

  lemma {:induction false} AdmittedBefore(events: seq<Event>, o: Request)
    ensures Admitted(events, o).time < |events|
  {
    hide Batch, Run;
    if events != [] { AdmittedBefore(events[..|events| - 1], o); }
  }

  ghost predicate Ascending(events: seq<Event>, q: seq<Request>) {
    forall i, j :: 0 <= i < j < |q| ==> Earlier(Admitted(events, q[i].Origin()), Admitted(events, q[j].Origin()))
  }

  lemma {:induction false} SurvivorsFrom(q: seq<Request>, i: nat) returns (k: nat)
    requires i < |Survivors(q)|
    ensures k < |q| && Survivors(q)[i].Origin() == q[k].Origin()
  {
    if q[0].remaining - 1 == 0 {
      assert Survivors(q) == Survivors(q[1..]);
      k := SurvivorsFrom(q[1..], i);
      k := k + 1;
    } else if i == 0 {
      k := 0;
    } else {
      assert Survivors(q)[i] == Survivors(q[1..])[i - 1];
      k := SurvivorsFrom(q[1..], i - 1);
      k := k + 1;
    }
  }

  lemma {:induction false} SurvivorsAscend(events: seq<Event>, q: seq<Request>)
    requires Ascending(events, q)
    ensures Ascending(events, Survivors(q))
  {
    hide Admitted;
    if q != [] {
      var t := q[1..];
      assert forall i :: 0 <= i < |t| ==> t[i] == q[i + 1];
      SurvivorsAscend(events, t);
      if q[0].remaining - 1 == 0 {
        assert Survivors(q) == Survivors(t);
      } else {
        var out := Survivors(q);
        assert out == [q[0].Generate()] + Survivors(t);
        forall i, j | 0 <= i < j < |out|
          ensures Earlier(Admitted(events, out[i].Origin()), Admitted(events, out[j].Origin()))
        {
          if i == 0 { var k := SurvivorsFrom(t, j - 1); assert t[k] == q[k + 1]; }
        }
      }
    }
  }

  /** Items of one batch, which arrived as different requests, are in the order of their places. */
  lemma {:induction false} PlaceOf(q: seq<Request>, i: nat)
    requires i < |q| && forall o :: Count(q, o) <= 1
    ensures Place(q, q[i].Origin()) == i
  {
    if i > 0 {
      forall o ensures Count(q[1..], o) <= 1 { assert Count(q, o) >= Count(q[1..], o); }
      PlaceOf(q[1..], i - 1);
      Counted(q[1..], i - 1);
      assert q[1..][i - 1] == q[i];
      assert Count(q, q[0].Origin()) == 1 + Count(q[1..], q[0].Origin());
    }
  }

  lemma CountWithin(q: seq<Request>, i: nat, o: Request)
    requires i < |q| && q[i].Origin() == o
    ensures Count(q, o) > 0
  {
    Counted(q, i);
  }

  lemma BatchAscends(events: seq<Event>, e: Event)
    requires forall o :: Count(Batch(Run(events), e), o) <= 1
    ensures Ascending(events + [e], Batch(Run(events), e))
  {
    hide Batch, Run, Count, Place;
    var all, batch := events + [e], Batch(Run(events), e);
    assert all[..|all| - 1] == events;
    forall i, j | 0 <= i < j < |batch|
      ensures Earlier(Admitted(all, batch[i].Origin()), Admitted(all, batch[j].Origin()))
    {
      PlaceOf(batch, i);
      PlaceOf(batch, j);
      Counted(batch, i);
      Counted(batch, j);
    }
  }

  lemma OldKeepStamps(events: seq<Event>, e: Event, q: seq<Request>)
    requires Ascending(events, q)
    requires forall i :: 0 <= i < |q| ==> Count(Batch(Run(events), e), q[i].Origin()) == 0
    ensures Ascending(events + [e], q)
    ensures forall i :: 0 <= i < |q| ==> Admitted(events + [e], q[i].Origin()) == Admitted(events, q[i].Origin())
  {
    hide Batch, Run, Count;
    assert (events + [e])[..|events|] == events;
  }

  lemma NewStamps(events: seq<Event>, e: Event, o: Request)
    requires Count(Batch(Run(events), e), o) > 0
    ensures Admitted(events + [e], o).time == |events|
  {
    hide Batch, Run, Count;
    assert (events + [e])[..|events|] == events;
  }

  /** Before a prefill: what is fetched is not decoding, and no request is fetched twice. */
  lemma FetchedApart(s: State, o: Request)
    requires Inv(s)
    ensures Count(Fetched(s), o) <= 1
    ensures Count(s.decode, o) > 0 ==> Count(Fetched(s), o) == 0
  {
    hide Fetched;
    FetchEffect(s, o);
    assert Census(s, o) <= 1;
  }

  lemma Joined(events: seq<Event>, q: seq<Request>, more: seq<Request>, time: int)
    requires Ascending(events, q) && Ascending(events, more)
    requires forall i :: 0 <= i < |q| ==> Admitted(events, q[i].Origin()).time < time
    requires forall i :: 0 <= i < |more| ==> Admitted(events, more[i].Origin()).time == time
    ensures Ascending(events, q + more)
  {
    hide Admitted;
  }

  lemma PrefillAscends(events: seq<Event>)
    requires Inv(Run(events)) && CanPrefill(Run(events)) && Ascending(events, Run(events).decode)
    ensures Ascending(events + [Tick], Iterate(Run(events)).decode)
  {
    hide Run, Iterate, CanPrefill, Fetched, Survivors, Count, Admitted, Ascending, Inv;
    var s, all := Run(events), events + [Tick];
    var batch := Batch(s, Tick);
    forall o ensures Count(batch, o) <= 1 && (Count(s.decode, o) > 0 ==> Count(batch, o) == 0) { FetchedApart(s, o); }
    forall i | 0 <= i < |s.decode| ensures Count(batch, s.decode[i].Origin()) == 0 { Counted(s.decode, i); }
    PrefillAppends(s);
    OldKeepStamps(events, Tick, s.decode);
    forall i | 0 <= i < |s.decode| ensures Admitted(all, s.decode[i].Origin()).time < |events| {
      AdmittedBefore(events, s.decode[i].Origin());
    }
    BatchAscends(events, Tick);
    SurvivorsAscend(all, batch);
    var more := Survivors(batch);
    forall i | 0 <= i < |more| ensures Admitted(all, more[i].Origin()).time == |events| {
      var k := SurvivorsFrom(batch, i);
      Counted(batch, k);
      NewStamps(events, Tick, more[i].Origin());
    }
    Joined(all, s.decode, more, |events|);
  }

  lemma PrefixAscends(events: seq<Event>, q: seq<Request>, k: nat)
    requires Ascending(events, q) && k <= |q|
    ensures Ascending(events, q[..k])
  {
    hide Admitted;
  }

  /** An iteration that does not prefill keeps the oldest sequences, as many as restore the bound, and
      decodes one token of each: the ones with output left stay in order, the others are filed behind
      what is decoded already.  The rest waits for recompute, and no other queue changes. */
  lemma {:induction false} DecodeShape(s: State) returns (k: nat)
    requires Inv(s) && !CanPrefill(s)
    ensures k <= |s.decode| && (Idle(s) || Restores(s.decode, k, s.budget))
    ensures !Idle(s) ==> forall j :: k < j <= |s.decode| ==> !Restores(s.decode, j, s.budget)
    ensures var s' := Iterate(s);
            && s'.decode == Survivors(s.decode[..k]) && s'.decoded == s.decoded + Finished(s.decode[..k])
            && s'.prefill == s.prefill && s'.loaded == s.loaded && s'.budget == s.budget
    ensures forall o :: Count(Iterate(s).recompute, o) == Count(s.recompute, o) + Count(s.decode[k..], o)
  {
    hide Evict, CanPrefill, Count, Tokens, Restores, Survivors, Finished;
    k := |s.decode|;
    DecodeNothing();
    assert s.decoded + [] == s.decoded;
    if Idle(s) {
      IdleShape(s);
    } else {
      k := EvictMinimal(s, INITIAL_REQUEST);
      forall o ensures Count(Iterate(s).recompute, o) == Count(s.recompute, o) + Count(s.decode[k..], o) {
        var j := EvictMinimal(s, o);
        SamePrefix(s.decode, k, j);
      }
    }
  }

  const INITIAL_REQUEST := Request("", 0, 1, 1, None, 0)

  lemma SamePrefix(q: seq<Request>, k: nat, j: nat)
    requires k <= |q| && j <= |q| && q[..k] == q[..j]
    ensures k == j
  {
    assert |q[..k]| == k && |q[..j]| == j;
  }

  lemma IdleShape(s: State)
    requires Idle(s)
    ensures Iterate(s) == s && Survivors(s.decode[..0]) == [] && forall o :: Count(s.decode, o) == 0
  {
  }

  /** Along every run the decode store is in the order of admission. */
  lemma {:induction false} DecodeInOrder(events: seq<Event>)
    requires Feasible(events)
    ensures Ascending(events, Run(events).decode)
  {
    hide Iterate, Inv, Survivors, Admitted, Ascending, CanPrefill, Fetched, Count;
    if events == [] {
      NothingAscends(events);
    } else {
      var before, e := events[..|events| - 1], events[|events| - 1];
      var s := Run(before);
      assert events == before + [e];
      DecodeInOrder(before);
      Conservation(before);
      if e.Tick? && CanPrefill(s) {
        PrefillAscends(before);
      } else {
        assert Batch(s, e) == [];
        NoneIn(s.decode);
        OldKeepStamps(before, e, s.decode);
        if e.Tick? {
          var k := DecodeShape(s);
          PrefixAscends(events, s.decode, k);
          SurvivorsAscend(events, s.decode[..k]);
        }
      }
    }
  }

  lemma NothingAscends(events: seq<Event>)
    ensures Ascending(events, [])
  {
  }

  lemma NoneIn(q: seq<Request>)
    ensures forall i :: 0 <= i < |q| ==> Count([], q[i].Origin()) == 0
  {
  }

  lemma {:induction false} CountFinds(q: seq<Request>, o: Request) returns (i: nat)
    requires Count(q, o) > 0
    ensures i < |q| && q[i].Origin() == o
  {
    if q[0].Origin() == o {
      i := 0;
    } else {
      i := CountFinds(q[1..], o);
      i := i + 1;
    }
  }

  /** Newest goes first, over every run: a sequence that an iteration evicts was admitted later than
      every decoding sequence that it does not evict. */
  lemma {:induction false} NewestIsEvicted(events: seq<Event>, kept: Request, evicted: Request)
    requires Feasible(events)
    requires var s, s' := Run(events), Run(events + [Tick]);
             && Count(s.decode, kept) > 0 && Count(s'.recompute, kept) == 0
             && Count(s.decode, evicted) > 0 && Count(s'.recompute, evicted) > 0
    ensures Earlier(Admitted(events, kept), Admitted(events, evicted))
  {
    hide Iterate, Inv, Survivors, Admitted, CanPrefill, Count, Fetched;
    var s := Run(events);
    assert (events + [Tick])[..|events|] == events;
    Conservation(events);
    DecodeInOrder(events);
    if CanPrefill(s) {
      NoEviction(s, evicted);
    } else {
      var k := DecodeShape(s);
      var i := CountFinds(s.decode, kept);
      var j := EvictedBehind(s, k, evicted);
      assert i < k by { if i >= k { CountWithin(s.decode[k..], i - k, kept); } }
    }
  }

  lemma NoEviction(s: State, o: Request)
    requires Inv(s) && CanPrefill(s) && Count(s.decode, o) > 0
    ensures Count(Iterate(s).recompute, o) == 0
  {
    hide CanPrefill, Iterate, Take;
    PrefillAppends(s);
    Additive(s.recompute[..FromRecompute(s)], Iterate(s).recompute, o);
    assert Census(s, o) <= 1;
  }

  lemma EvictedBehind(s: State, k: nat, o: Request) returns (j: nat)
    requires Inv(s) && k <= |s.decode| && Count(s.decode, o) > 0
    requires Count(s.recompute, o) + Count(s.decode[k..], o) > 0
    ensures k <= j < |s.decode| && s.decode[j].Origin() == o
  {
    assert Census(s, o) <= 1;
    j := CountFinds(s.decode[k..], o);
    j := j + k;
  }

  // ----- new requests -----

  /** `q` is the end of `all`. */
  predicate EndOf(q: seq<Request>, all: seq<Request>) { |q| <= |all| && q == all[|all| - |q|..] }

  /** New requests are served in the order of their arrival: what waits for prefill is, along every
      run, the end of the list of arrivals. */
  lemma {:induction false} ArrivalsInOrder(events: seq<Event>)
    requires Feasible(events)
    ensures EndOf(Run(events).prefill, Arrived(events))
  {
    hide Iterate, Inv, Count, EndOf;
    if events == [] {
      EndOfNothing();
    } else {
      var before, e := events[..|events| - 1], events[|events| - 1];
      ArrivalsInOrder(before);
      match e
      case Tick =>
        Conservation(before);
        QueueShrinks(Run(before));
        StillEnd(Arrived(before), Run(before).prefill, Iterate(Run(before)).prefill);
      case Arrival(r) => LongerEnd(Arrived(before), Run(before).prefill, r);
    }
  }

  lemma EndOfNothing()
    ensures EndOf([], [])
  {
  }

  lemma QueueShrinks(s: State)
    requires Inv(s)
    ensures EndOf(Iterate(s).prefill, s.prefill)
  {
    hide Iterate, Inv, CanPrefill, Fetched, Count, Survivors, Finished, Restores, Adapters, FromRecompute, Idle;
    if CanPrefill(s) { PrefillAppends(s); } else { var k := DecodeShape(s); }
  }

  lemma LongerEnd(all: seq<Request>, waiting: seq<Request>, r: Request)
    requires EndOf(waiting, all)
    ensures EndOf(waiting + [r], all + [r])
  {
  }

  lemma StillEnd(all: seq<Request>, waiting: seq<Request>, rest: seq<Request>)
    requires EndOf(waiting, all) && EndOf(rest, waiting)
    ensures EndOf(rest, all)
  {
  }
}
