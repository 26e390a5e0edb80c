/** Theorems about every run of one actor: any interleaving of arrivals and loop iterations. */
module BatchingRuns {
  import opened Batching
  import opened BatchingSteps

  datatype Event = Arrival(r: Request) | Tick

  function Step(s: State, e: Event): State {
    match e
    case Arrival(r) => Arrive(s, r)
    case Tick => Iterate(s)
  }

  function Run(events: seq<Event>): State {
    if events == [] then INITIAL
    else Step(Run(events[..|events| - 1]), events[|events| - 1])
  }

  function Arrived(events: seq<Event>): seq<Request> {
    if events == [] then []
    else
      var before := Arrived(events[..|events| - 1]);
      match events[|events| - 1]
      case Arrival(r) => before + [r]
      case Tick => before
  }

  /** Requests arrive as the load balancer makes them: clipped input, some output, a new id. */
  predicate Feasible(events: seq<Event>) {
    events == [] ||
    (var before := events[..|events| - 1];
     && Feasible(before)
     && match events[|events| - 1]
        case Arrival(r) => Fresh(r) && forall a :: a in Arrived(before) ==> a.id != r.id
        case Tick => true)
  }

  function Outputs(q: seq<Request>): int {
    if q == [] then 0 else q[0].output + Outputs(q[1..])
  }

  /** Iterations taken while the actor had something to do. */
  function BusyTicks(events: seq<Event>): nat {
    if events == [] then 0
    else
      var before := events[..|events| - 1];
      BusyTicks(before) + (if events[|events| - 1].Tick? && !Idle(Run(before)) then 1 else 0)
  }

  // ----- conservation -----

  lemma {:induction false} CountMeansMember(q: seq<Request>, o: Request)
    requires Count(q, o) > 0
    ensures exists i :: 0 <= i < |q| && q[i].Origin() == o
  {
    if q[0].Origin() != o {
      CountMeansMember(q[1..], o);
      var i :| 0 <= i < |q[1..]| && q[1..][i].Origin() == o;
      assert q[i + 1].Origin() == o;
    }
  }

  lemma ArriveKeeps(s: State, r: Request)
    requires Inv(s) && Fresh(r)
    requires forall o :: Census(s, o) > 0 ==> o.id != r.id
    ensures Inv(Arrive(s, r))
    ensures forall o :: Census(Arrive(s, r), o) == Census(s, o) + Count([r], o)
    ensures Remaining(Arrive(s, r)) == Remaining(s) + r.output
  {
    hide Tokens, Rest, Count, Inputs, Ordered;
    var s' := Arrive(s, r);
    forall o ensures Census(s', o) == Census(s, o) + Count([r], o) && Count([r], o) == if r == o then 1 else 0 {
      Additive(s.prefill, [r], o);
      Single(r, o);
    }
    Additive(s.prefill, [r], r);
    Single(r, r);
    assert Census(s, r) == 0;
  }

  lemma IterateKeeps(s: State)
    requires Inv(s)
    ensures Inv(Iterate(s)) && SameCensus(s, Iterate(s))
  {
    if !Idle(s) {
      if CanPrefill(s) { PrefillIteration(s); } else { DecodeIteration(s); }
    }
  }

  lemma Emptiness()
    ensures Inv(INITIAL) && forall o :: Census(INITIAL, o) == 0
  {
  }

  /** Along every run the invariant holds and the stores together hold exactly what arrived. */
  lemma {:induction false} Conservation(events: seq<Event>)
    requires Feasible(events)
    ensures Inv(Run(events))
    ensures forall o :: Census(Run(events), o) == Count(Arrived(events), o)
    ensures forall a :: a in Arrived(events) ==> Fresh(a)
  {
    hide Tokens, Rest, Ordered, Iterate, Arrive, Idle;
    if events == [] {
      Emptiness();
    } else {
      var before, e := events[..|events| - 1], events[|events| - 1];
      Conservation(before);
      match e
      case Tick =>
        IterateKeeps(Run(before));
      case Arrival(r) =>
        forall o | Census(Run(before), o) > 0 ensures o.id != r.id {
          CountMeansMember(Arrived(before), o);
        }
        ArriveKeeps(Run(before), r);
        forall o ensures Census(Run(events), o) == Count(Arrived(events), o) {
          Additive(Arrived(before), [r], o);
        }
    }
  }

  /** Each arrived request is in exactly one of the four stores, exactly once. */
  lemma {:induction false} ExactlyOneStore(events: seq<Event>, a: Request)
    requires Feasible(events) && a in Arrived(events)
    ensures var s := Run(events);
            Count(s.prefill, a) + Count(s.recompute, a) + Count(s.decode, a) + Count(s.decoded, a) == 1
    ensures Inv(Run(events))
  {
    Conservation(events);
    var i :| 0 <= i < |Arrived(events)| && Arrived(events)[i] == a;
    Counted(Arrived(events), i);
    assert Census(Run(events), a) <= 1;
  }

  // ----- the KV-cache bound -----

  /** After a decode the cache is within 0.9 of the budget; after a prefill it exceeds 0.9 of the
      budget it was admitted under by less than the last admitted request. */
  lemma {:induction false} CacheBound(events: seq<Event>)
    requires Feasible(events) && !Idle(Run(events))
    ensures var s, s' := Run(events), Run(events + [Tick]);
            if CanPrefill(s)
            then Fetched(s) != [] && 10 * Tokens(s'.decode) < 9 * s.budget + 10 * (Fetched(s)[|Fetched(s)| - 1].Length() + 1)
            else 10 * Tokens(s'.decode) <= 9 * s'.budget
  {
    hide Tokens, Iterate, CanPrefill, Fetched, Idle;
    Conservation(events);
    assert (events + [Tick])[..|events|] == events;
    if CanPrefill(Run(events)) { PrefillIteration(Run(events)); } else { DecodeIteration(Run(events)); }
  }

  // ----- progress -----

  /** One if the last iteration evicted every sequence and generated nothing. */
  function Stalled(s: State): nat { if s.decode == [] && s.recompute != [] then 1 else 0 }

  /** A busy iteration generates a token, or empties the decode store so that the next one must. */
  lemma IterationProgress(s: State)
    requires Inv(s) && !Idle(s)
    ensures Remaining(Iterate(s)) <= Remaining(s)
    ensures Remaining(Iterate(s)) == Remaining(s) ==> Stalled(s) == 0 && Stalled(Iterate(s)) == 1
  {
    if CanPrefill(s) { PrefillIteration(s); } else { DecodeIteration(s); }
  }

  /** Any two consecutive iterations of a busy actor generate a token, whatever arrives between them. */
  lemma {:induction false} TwoIterations(s: State, arrivals: seq<Request>)
    requires Inv(s) && !Idle(s)
    requires Inv(Iterate(s).(prefill := Iterate(s).prefill + arrivals))
    ensures var s1 := Iterate(s);
            var s2 := s1.(prefill := s1.prefill + arrivals);
            (Remaining(s) - Remaining(s1)) + (Remaining(s2) - Remaining(Iterate(s2))) >= 1
  {
    var s1 := Iterate(s);
    var s2 := s1.(prefill := s1.prefill + arrivals);
    IterationProgress(s);
    if Idle(s2) { assert Iterate(s2) == s2; } else { IterationProgress(s2); }
  }

  lemma {:induction false} OutputsAppend(q: seq<Request>, r: Request)
    ensures Outputs(q + [r]) == Outputs(q) + r.output
  {
    if q == [] {
      assert [r][1..] == [];
    } else {
      assert (q + [r])[1..] == q[1..] + [r];
      OutputsAppend(q[1..], r);
    }
  }

  /** Busy iterations are paid for by generated tokens, two for one. */
  lemma {:induction false} PaidProgress(events: seq<Event>)
    requires Feasible(events)
    ensures BusyTicks(events) <= 2 * (Outputs(Arrived(events)) - Remaining(Run(events))) + Stalled(Run(events))
  {
    if events != [] {
      var before, e := events[..|events| - 1], events[|events| - 1];
      PaidProgress(before);
      Conservation(before);
      match e
      case Tick =>
        if !Idle(Run(before)) { IterationProgress(Run(before)); }
      case Arrival(r) =>
        OutputsAppend(Arrived(before), r);
        Additive(Run(before).prefill, [r], r);
        Single(r, r);
    }
  }

  lemma RemainingBounds(s: State)
    requires Inv(s)
    ensures 0 <= Remaining(s) && (Remaining(s) == 0 <==> Idle(s))
  {
    SumBounds(s.prefill);
    SumBounds(s.recompute);
    SumBounds(s.decode);
  }

  /** No run spends more than two busy iterations per output token that was asked for. */
  lemma {:induction false} BusyBound(events: seq<Event>)
    requires Feasible(events)
    ensures BusyTicks(events) <= 2 * Outputs(Arrived(events))
    ensures !Idle(Run(events)) ==> BusyTicks(events) < 2 * Outputs(Arrived(events))
  {
    PaidProgress(events);
    Conservation(events);
    RemainingBounds(Run(events));
  }

  lemma IdleStays(s: State)
    ensures Idle(s) ==> Iterate(s) == s
  {
  }

  function Ticks(n: nat): seq<Event> { seq(n, _ => Tick) }

  lemma {:induction false} TicksAlone(events: seq<Event>, n: nat)
    requires Feasible(events)
    ensures Feasible(events + Ticks(n)) && Arrived(events + Ticks(n)) == Arrived(events)
    ensures Idle(Run(events + Ticks(n))) || BusyTicks(events + Ticks(n)) >= n
  {
    hide Iterate, Idle, Fresh;
    if n == 0 {
      assert events + Ticks(0) == events;
    } else {
      var all := events + Ticks(n);
      assert all[..|all| - 1] == events + Ticks(n - 1) && all[|all| - 1] == Tick;
      TicksAlone(events, n - 1);
      IdleStays(Run(events + Ticks(n - 1)));
    }
  }

  /** Once nothing more arrives, twice as many iterations as output tokens decode every request,
      also one that is too large for the cache and is evicted again and again. */
  lemma {:induction false} Drains(events: seq<Event>, n: nat)
    requires Feasible(events) && n >= 2 * Outputs(Arrived(events))
    ensures var s := Run(events + Ticks(n));
            Idle(s) && forall o :: Count(s.decoded, o) == Count(Arrived(events), o)
  {
    var all := events + Ticks(n);
    TicksAlone(events, n);
    BusyBound(all);
    Conservation(all);
    forall o ensures Count(Run(all).decoded, o) == Count(Arrived(events), o) {
      assert Census(Run(all), o) == Count(Arrived(all), o);
    }
  }
}
