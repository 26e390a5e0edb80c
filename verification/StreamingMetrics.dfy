/** The running-requests gauge and the error counter over whole streams. */
module StreamingMetrics {
  import opened Wrappers
  import opened Json
  import opened Streaming
  import opened StreamingOrder
  import opened StreamingChunks
  import opened StreamingForwards
  import opened StreamingErrors

  /** How many complete request bodies the stream was given. */
  function Bodies(inputs: seq<Input>): nat {
    if inputs == [] then 0 else (if IsBody(inputs[0].event) then 1 else 0) + Bodies(inputs[1..])
  }

  /** The model of the request that an event completes, if it does and the request is routed. */
  function Completes(codec: Codec, env: Env, s: Session, e: Event): seq<string> {
    var plan := Planned(codec, env, s, e);
    if plan.Some? && plan.value.Route? then [plan.value.model] else []
  }

  /** The models of all the requests of a stream that are routed, in order. */
  function Routed(codec: Codec, s: Session, inputs: seq<Input>): seq<string>
    decreases |inputs|
  {
    if inputs == [] then []
    else
      var x := inputs[0];
      Completes(codec, x.env, s, x.event) + Routed(codec, Step(codec, x.env, s, x.event), inputs[1..])
  }

  /** Not touched at all, or raised and lowered once for the same model. */
  ghost predicate Balanced(gauge: seq<Gauge>) {
    gauge == [] || exists m :: gauge == [Inc(m), Dec(m)]
  }

  function Raised(routed: seq<string>): seq<Gauge> {
    if routed != [] && routed[0] != "" then [Inc(routed[0])] else []
  }

  function Lowered(routed: seq<string>): seq<Gauge> {
    if routed != [] && routed[|routed| - 1] != "" then [Dec(routed[|routed| - 1])] else []
  }

  /** The counters of a stream that has routed the given requests. */
  predicate Tallied(s: Session, routed: seq<string>) {
    && (s.ctx.running <==> SentBody(s.sent).Some?)
    && (routed == [] ==> !s.ctx.running && s.pending.reqBody.None?)
    && (routed != [] ==> s.ctx.model == routed[|routed| - 1])
    && (s.live ==> && s.gauge == (if s.ctx.running then Raised(routed) else [])
                   && (Early(s.stage) ==> routed == []))
    && (!s.live ==> s.gauge == if s.ctx.running then Raised(routed) + Lowered(routed) else [])
  }

  /** The same between handling an event, which may have completed one more request, and sending. */
  predicate Prepared(s: Session, routed: seq<string>, more: seq<string>) {
    && s.live && (s.ctx.running <==> SentBody(s.sent).Some?)
    && (routed == [] ==> !s.ctx.running && (more == [] ==> s.pending.reqBody.None?))
    && (routed + more != [] ==> s.ctx.model == (routed + more)[|routed + more| - 1])
    && s.gauge == (if s.ctx.running then Raised(routed) else [])
    && (Early(s.stage) ==> routed == [])
    && (more != [] ==> |more| == 1 && s.pending.reqHeader.Some? && s.pending.reqBody.Some?)
  }

  lemma ExitTallied(s: Session, routed: seq<string>, failed: bool)
    requires s.live && Tallied(s, routed)
    ensures Tallied(Exit(s, failed), routed)
  {
    hide SentBody;
    assert s.gauge + [] == s.gauge;
  }

  lemma EarlySends(env: Env, s: Session, more: seq<string>)
    requires Prepared(s, [], more) && Typed(s) && Early(s.stage)
    ensures Tallied(SendRequestBody(env, SendRequestHeader(env, s)), more)
  {
    hide SentBody;
    assert [] + more == more;
    if s.pending.reqHeader.Some? { SentBodyAppend(s.sent, s.pending.reqHeader.value); }
    var s1 := SendRequestHeader(env, s);
    if s1.pending.reqBody.Some? { SentBodyAppend(s1.sent, s1.pending.reqBody.value); }
  }

  lemma RequestSendsTallied(env: Env, s: Session, routed: seq<string>, more: seq<string>)
    requires Prepared(s, routed, more) && Typed(s)
    ensures Tallied(SendRequestBody(env, SendRequestHeader(env, s)), routed + more)
  {
    hide SentBody;
    if Early(s.stage) {
      assert routed + more == more;
      EarlySends(env, s, more);
    } else {
      assert s.ctx.running ==> (routed + more)[0] == routed[0];
    }
  }

  lemma ResponseSendsTallied(env: Env, s: Session, routed: seq<string>)
    requires Tallied(s, routed) && Typed(s)
    ensures Tallied(SendResponseBody(env, SendResponseHeader(env, s)), routed)
  {
    hide Raised, Lowered, SentBody;
    if s.live { ExitTallied(s, routed, false); }
    if s.pending.respHeader.Some? { SentBodyAppend(s.sent, s.pending.respHeader.value); }
    var s1 := SendResponseHeader(env, s);
    if s1.pending.respBody.Some? { SentBodyAppend(s1.sent, s1.pending.respBody.value); }
    if s1.live { ExitTallied(s1, routed, false); }
  }

  lemma UpdateTallied(env: Env, s: Session, routed: seq<string>, more: seq<string>)
    requires Prepared(s, routed, more) && Typed(s)
    ensures Tallied(Update(env, s), routed + more)
  {
    hide SendRequestHeader, SendRequestBody, SendRequestTrailer, SendResponseHeader, SendResponseBody, SendResponseTrailer,
      Tallied, Prepared;
    var s2 := SendRequestBody(env, SendRequestHeader(env, s));
    RequestSendsTallied(env, s, routed, more);
    RequestSide(env, s);
    ResponseSendsTallied(env, s2, routed + more);
    ResponseSide(env, s2);
  }

  lemma RequestPrepares(codec: Codec, env: Env, s: Session, e: Event, routed: seq<string>)
    requires s.live && Tallied(s, routed) && !e.ResponseHeaders? && !e.ResponseChunk?
    ensures Prepared(Handle(codec, env, s, e).s, routed, Completes(codec, env, s, e))
    ensures !Handle(codec, env, s, e).Good? ==> Completes(codec, env, s, e) == []
  {
    hide SentBody, Raised, Lowered, PlanRequest, Unmarshal;
    assert routed + [] == routed;
  }

  /** Handling an event leaves the counters alone; only a request that is routed changes the model. */
  lemma HandlePrepares(codec: Codec, env: Env, s: Session, e: Event, routed: seq<string>)
    requires s.live && Tallied(s, routed) && Typed(s)
    ensures Prepared(Handle(codec, env, s, e).s, routed, Completes(codec, env, s, e))
    ensures Typed(Handle(codec, env, s, e).s)
    ensures !Handle(codec, env, s, e).Good? ==> Completes(codec, env, s, e) == []
  {
    hide Handle, SentBody, Raised, Lowered, PlanRequest, Unmarshal;
    HandleTyped(codec, env, s, e);
    if e.ResponseHeaders? || e.ResponseChunk? {
      ResponseFrame(codec, env, s, e);
      assert routed + [] == routed;
    } else {
      RequestPrepares(codec, env, s, e, routed);
    }
  }

  lemma PreparedTallied(s: Session, routed: seq<string>)
    requires Prepared(s, routed, [])
    ensures Tallied(s, routed)
  {
    assert routed + [] == routed;
  }

  lemma FailTallied(env: Env, s: Session, code: Code, routed: seq<string>)
    requires s.live && Tallied(s, routed)
    ensures Tallied(Fail(env, s, code), routed)
  {
    hide Raised, Lowered, SentBody;
    if Status(code).Some? {
      var m := Immediate(Status(code).value);
      SentBodyAppend(s.sent, m);
      ExitTallied(s.(sent := s.sent + [m]), routed, true);
    }
    ExitTallied(s, routed, true);
  }

  lemma StepTallied(codec: Codec, env: Env, s: Session, e: Event, routed: seq<string>)
    requires Tallied(s, routed) && Quiet(s)
    ensures var s' := Step(codec, env, s, e); Tallied(s', routed + Completes(codec, env, s, e)) && Quiet(s')
  {
    hide Handle, Update, Fail, Exit, Tallied, Prepared;
    StepQuiets(codec, env, s, e);
    assert routed + [] == routed;
    if s.live {
      hide Completes;
      HandlePrepares(codec, env, s, e, routed);
      match Handle(codec, env, s, e)
      case Good(s') => UpdateTallied(env, s', routed, Completes(codec, env, s, e));
      case Bad(s', code) =>
        PreparedTallied(s', routed);
        PreparedLive(s', routed);
        FailTallied(env, s', code, routed);
      case Panic(s') =>
        PreparedTallied(s', routed);
        PreparedLive(s', routed);
        ExitTallied(s', routed, false);
    }
  }

  lemma PreparedLive(s: Session, routed: seq<string>)
    requires Prepared(s, routed, [])
    ensures s.live
  {
  }

  lemma {:induction false} RunTallied(codec: Codec, s: Session, inputs: seq<Input>, routed: seq<string>)
    requires Tallied(s, routed) && Quiet(s)
    ensures Tallied(Run(codec, s, inputs), routed + Routed(codec, s, inputs))
    decreases |inputs|
  {
    hide Step, Tallied, Quiet, Completes;
    if inputs == [] {
      assert routed + [] == routed;
    } else {
      var x := inputs[0];
      var s', more := Step(codec, x.env, s, x.event), Completes(codec, x.env, s, x.event);
      StepTallied(codec, x.env, s, x.event, routed);
      RunTallied(codec, s', inputs[1..], routed + more);
      assert routed + more + Routed(codec, s', inputs[1..]) == routed + (more + Routed(codec, s', inputs[1..]));
    }
  }

  /** For every stream, however it ends - end of stream, failed send, error response, panic: the
      error counter is bumped once if an event was an error; if the stream forwards a body, the gauge is raised
      for the first request that was routed and lowered for the last one, else it is not touched; so
      it is balanced exactly when no body is forwarded or these two name the same model. */
  lemma {:induction false} GaugeExact(codec: Codec, inputs: seq<Input>)
    ensures var s, routed, forwards := Close(Run(codec, NEW, inputs)), Routed(codec, NEW, inputs), Forwards(codec, NEW, inputs).Some?;
            && !s.live && s.errors == (if Errs(codec, NEW, inputs) then 1 else 0)
            && (forwards ==> routed != [])
            && s.gauge == (if forwards then Raised(routed) + Lowered(routed) else [])
            && (Balanced(s.gauge) <==> !forwards || routed[0] == routed[|routed| - 1])
  {
    hide Run, Routed, Forwards, Errs, SentBody, Balanced, Raised, Lowered, Tallied, Quiet;
    NewTallied();
    RunTallied(codec, NEW, inputs, []);
    ForwardsExact(codec, inputs);
    ErrorsExact(codec, inputs);
    var routed := Routed(codec, NEW, inputs);
    assert [] + routed == routed;
    TalliedAtEnd(Run(codec, NEW, inputs), routed);
  }

  lemma TalliedAtEnd(s: Session, routed: seq<string>)
    requires Tallied(s, routed)
    ensures var s' := Close(s);
            && !s'.live
            && (SentBody(s'.sent).Some? ==> routed != [])
            && s'.gauge == (if SentBody(s'.sent).Some? then Raised(routed) + Lowered(routed) else [])
            && (Balanced(s'.gauge) <==> SentBody(s'.sent).None? || routed[0] == routed[|routed| - 1])
  {
    hide SentBody, Balanced, Raised, Lowered;
    if s.live { ExitTallied(s, routed, false); }
    ShapeBalanced(routed);
  }

  lemma NewTallied()
    ensures Tallied(NEW, []) && Quiet(NEW)
  {
  }

  lemma ShapeBalanced(routed: seq<string>)
    ensures routed != [] ==> (Balanced(Raised(routed) + Lowered(routed)) <==> routed[0] == routed[|routed| - 1])
    ensures Balanced([])
  {
    if routed != [] {
      var g, first, last := Raised(routed) + Lowered(routed), routed[0], routed[|routed| - 1];
      assert first != "" && last != "" ==> g == [Inc(first), Dec(last)];
    }
  }

  lemma {:induction false} RoutedAtMost(codec: Codec, s: Session, inputs: seq<Input>)
    ensures |Routed(codec, s, inputs)| <= Bodies(inputs)
    decreases |inputs|
  {
    hide Step, PlanRequest, Unmarshal;
    if inputs != [] { RoutedAtMost(codec, Step(codec, inputs[0].env, s, inputs[0].event), inputs[1..]); }
  }

  /** With at most one complete request body the gauge is always balanced. */
  lemma {:induction false} GaugeBalance(codec: Codec, inputs: seq<Input>)
    requires Bodies(inputs) <= 1
    ensures var s := Close(Run(codec, NEW, inputs)); !s.live && Balanced(s.gauge) && s.errors <= 1
  {
    hide Run, Routed, Forwards, Errs, Balanced, SentBody, Raised, Lowered, Bodies;
    RoutedAtMost(codec, NEW, inputs);
    GaugeExact(codec, inputs);
  }

  // ----- a stream whose gauge stays unbalanced -----

  lemma FirstBody(codec: Codec, env: Env, chunk: Bytes)
    requires Completes(codec, env, NEW, RequestChunk(chunk, true)) != [] && env.sends(0) && env.sends(1)
    ensures var s := Step(codec, env, NEW, RequestChunk(chunk, true)); s.live && s.ctx.body == []
  {
    hide PlanRequest, Unmarshal;
    var h := Handle(codec, env, NEW, RequestChunk(chunk, true));
    var s2 := SendRequestBody(env, SendRequestHeader(env, h.s));
    assert SendRequestTrailer(env, s2) == s2 && SendResponseHeader(env, s2) == s2 && SendResponseBody(env, s2) == s2;
  }

  /** Two complete bodies on one stream, for the models x and y: x is counted up and y down. */
  lemma {:induction false} TwoBodiesUnbalanced(env: Env)
    ensures var inputs := [Input(AnyRequest(env), RequestChunk([1], true)), Input(AnyRequest(env), RequestChunk([2], true))];
            var s := Close(Run(TwoModels(), NEW, inputs));
            s.gauge == [Inc("x"), Dec("y")] && !Balanced(s.gauge)
  {
    hide Run, Step, AnyRequest, TwoModels, Planned, AnswerSends;
    var codec, e := TwoModels(), AnyRequest(env);
    var first, second := RequestChunk([1], true), RequestChunk([2], true);
    var inputs := [Input(e, first), Input(e, second)];
    var s1 := Step(codec, e, NEW, first);
    var s2 := Step(codec, e, s1, second);
    assert inputs[1..] == [Input(e, second)] && inputs[1..][1..] == [];
    AlwaysPlanned(env, NEW, [1]);
    SendsAll(env, NEW);
    assert Forwards(codec, NEW, inputs).Some?;
    FirstBody(codec, e, [1]);
    AlwaysPlanned(env, s1, [2]);
    assert Routed(codec, s1, inputs[1..]) == ["y"] + Routed(codec, s2, []);
    assert Routed(codec, NEW, inputs) == ["x"] + Routed(codec, s1, inputs[1..]);
    GaugeExact(codec, inputs);
    assert Routed(codec, NEW, inputs) == ["x", "y"];
  }
}
