/** The imperative stream: its fields are updated event by event. */
module StreamingServer {
  import opened Wrappers
  import opened Json
  import opened Streaming
  import opened StreamingOrder
  import opened StreamingChunks
  import opened StreamingForwards
  import opened StreamingErrors
  import opened StreamingMetrics
  import opened StreamingLengths

  /** The stream's own state: stage, prepared responses, context, and what the outside sees. */
  class Stream {
    var requestState: Stage
    var pending: Pending
    var ctx: Context
    var sent: seq<Msg>
    var gauge: seq<Gauge>
    var errors: nat
    var live: bool

    ghost function View(): Session
      reads this
    {
      Session(requestState, pending, ctx, sent, gauge, errors, live)
    }

    constructor ()
      ensures View() == NEW
    {
      requestState, pending, ctx := NEW.stage, NEW.pending, NEW.ctx;
      sent, gauge, errors, live := [], [], 0, true;
    }

    /** The deferred function: error counter and gauge. */
    method Deferred(failed: bool)
      modifies this
      ensures View() == Exit(old(View()), failed)
    {
      hide Update;
      if ctx.statusError {
        errors := errors + 1;
      } else if failed {
        errors := errors + 1;
      }
      if ctx.running && ctx.model != "" { gauge := gauge + [Dec(ctx.model)]; }
      live := false;
    }

    method TrySend(env: Env, m: Msg) returns (ok: bool)
      modifies this`sent
      ensures ok == env.sends(|old(sent)|)
      ensures sent == if ok then old(sent) + [m] else old(sent)
    {
      ok := env.sends(|sent|);
      if ok { sent := sent + [m]; }
    }

    // The six branches of updateStateAndSendIfNeeded; `ok` is false if a send failed.

    method TrySendRequestHeader(env: Env) returns (ok: bool)
      requires live
      modifies this`requestState, this`sent
      ensures SendRequestHeader(env, old(View())) == if ok then View() else Exit(View(), false)
    {
      ok := true;
      if requestState.RequestReceived? && pending.reqHeader.Some? {
        ok := TrySend(env, pending.reqHeader.value);
        if !ok { return; }
        requestState := HeaderRequestResponseComplete;
      }
    }

    method TrySendRequestBody(env: Env) returns (ok: bool)
      requires live
      modifies this`requestState, this`sent, this`gauge, this`ctx, this`pending
      ensures SendRequestBody(env, old(View())) == if ok then View() else Exit(View(), false)
    {
      ok := true;
      if requestState.HeaderRequestResponseComplete? && pending.reqBody.Some? {
        ok := TrySend(env, pending.reqBody.value);
        if !ok { return; }
        requestState := BodyRequestResponsesComplete;
        if ctx.model != "" { gauge := gauge + [Inc(ctx.model)]; }
        ctx := ctx.(running := true);
        pending := pending.(reqBody := None);
      }
    }

    method TrySendRequestTrailer(env: Env) returns (ok: bool)
      requires live
      modifies this`sent
      ensures SendRequestTrailer(env, old(View())) == if ok then View() else Exit(View(), false)
    {
      ok := true;
      if requestState.BodyRequestResponsesComplete? && pending.reqTrailer.Some? && pending.reqHeader.Some? {
        ok := TrySend(env, pending.reqHeader.value);
      }
    }

    method TrySendResponseHeader(env: Env) returns (ok: bool)
      requires live
      modifies this`requestState, this`sent
      ensures SendResponseHeader(env, old(View())) == if ok then View() else Exit(View(), false)
    {
      ok := true;
      if requestState.ResponseReceived? && pending.respHeader.Some? {
        ok := TrySend(env, pending.respHeader.value);
        if !ok { return; }
        requestState := HeaderResponseResponseComplete;
      }
    }

    method TrySendResponseBody(env: Env) returns (ok: bool)
      requires live
      modifies this`requestState, this`sent, this`pending
      ensures SendResponseBody(env, old(View())) == if ok then View() else Exit(View(), false)
    {
      ok := true;
      if requestState.HeaderResponseResponseComplete? && pending.respBody.Some? {
        ok := TrySend(env, pending.respBody.value);
        if !ok { return; }
        if pending.respBody.value.ResponseBody? && pending.respBody.value.eos { requestState := BodyResponseResponsesComplete; }
        pending := pending.(respBody := None);
      }
    }

    method TrySendResponseTrailer(env: Env) returns (ok: bool)
      requires live
      modifies this`sent
      ensures SendResponseTrailer(env, old(View())) == if ok then View() else Exit(View(), false)
    {
      ok := true;
      if requestState.BodyResponseResponsesComplete? && pending.respTrailer.Some? && pending.reqHeader.Some? {
        ok := TrySend(env, pending.reqHeader.value);
      }
    }

    /** Can send several responses in one pass, in the order header, body, trailer. */
    method UpdateStateAndSendIfNeeded(env: Env) returns (ok: bool)
      requires live
      modifies this
      ensures Update(env, old(View())) == if ok then View() else Exit(View(), false)
      ensures live
    {
      hide Exit, SendRequestHeader, SendRequestBody, SendRequestTrailer, SendResponseHeader, SendResponseBody, SendResponseTrailer;
      DeadStaysDead(env);
      ok := TrySendRequestHeader(env);
      if !ok { return; }
      ok := TrySendRequestBody(env);
      if !ok { return; }
      ok := TrySendRequestTrailer(env);
      if !ok { return; }
      ok := TrySendResponseHeader(env);
      if !ok { return; }
      ok := TrySendResponseBody(env);
      if !ok { return; }
      ok := TrySendResponseTrailer(env);
    }

    method HandleHeaders(env: Env, eos: bool) returns (h: Option<Code>, panicked: bool)
      modifies this`pending
      ensures HandleRequestHeaders(env, old(View()), eos) ==
              if panicked then Panic(View()) else if h.Some? then Bad(View(), h.value) else Good(View())
    {
      h, panicked := None, false;
      if eos {
        if env.randomPod.None? { return None, true; }
        if env.port.None? { return Some(Unknown), false; }
        var m := RequestHeader(env.randomPod.value + ":" + env.port.value, None, ctx.worker);
        pending := pending.(reqHeader := Some(m));
      }
    }

    /** Routes the decoded body, or says why not. */
    method HandleBody(codec: Codec, env: Env) returns (err: Option<Code>)
      modifies this`ctx, this`pending
      ensures HandleRequestBody(codec, env, old(View())) == if err.Some? then Bad(View(), err.value) else Good(View())
    {
      hide PlanRequest;
      var plan := PlanRequest(codec, env, ctx.request, ctx.worker);
      ctx := ctx.(request := plan.request, worker := plan.worker);
      if plan.Reject? { return Some(plan.code); }
      ctx := ctx.(model := plan.model, target := plan.target);
      var length := |plan.bytes|;
      var header := RequestHeader(plan.endpoint, if length > 0 then Some(length) else None, ctx.worker);
      pending := pending.(reqHeader := Some(header), reqBody := Some(RequestBody(plan.bytes, true)));
      return None;
    }

    method HandleHeaderList(headers: seq<(string, string)>)
      modifies this`ctx, this`requestState, this`pending
      ensures View() == HandleResponseHeaders(old(View()), headers)
    {
      for i := 0 to |headers|
        invariant requestState == old(requestState) && pending == old(pending)
        invariant ctx == old(ctx).(statusError := old(ctx).statusError || AnyErrorStatus(headers[..i]),
                                   streaming := old(ctx).streaming || AnyEventStream(headers[..i]))
      {
        var h := headers[i];
        assert headers[..i + 1][..i] == headers[..i];
        if h.0 == "status" && h.1 != "200" {
          ctx := ctx.(statusError := true);
        } else if h.0 == "content-type" && Contains(h.1, "text/event-stream") {
          ctx := ctx.(streaming := true);
        }
      }
      assert headers[..|headers|] == headers;
      requestState := ResponseReceived;
      pending := pending.(respHeader := Some(ResponseHeader));
    }

    /** A response chunk: relayed if the model server streams, else buffered and re-encoded at the end. */
    method HandleResponseData(codec: Codec, chunk: Bytes, eos: bool) returns (panicked: bool)
      modifies this`ctx, this`pending
      ensures HandleResponseChunk(codec, old(View()), chunk, eos) == if panicked then Panic(View()) else Good(View())
    {
      panicked := false;
      if ctx.streaming {
        pending := pending.(respBody := Some(ResponseBody(chunk, eos)));
        return;
      }
      ctx := ctx.(body := ctx.body + chunk);
      if eos {
        ctx := ctx.(response := Unmarshal(codec, ctx.response, ctx.body));
        var bytes := Marshal(codec, ctx.response);
        if bytes.Some? {
          if !UsageReadable(ctx.response) { return true; }
          pending := pending.(respBody := Some(ResponseBody(bytes.value, true)));
        }
      }
    }

    /** Dispatches one event. */
    method HandleEvent(codec: Codec, env: Env, e: Event) returns (err: Option<Code>, panicked: bool)
      modifies this
      ensures Handle(codec, env, old(View()), e) ==
              if panicked then Panic(View()) else if err.Some? then Bad(View(), err.value) else Good(View())
    {
      hide HandleRequestHeaders, HandleRequestBody, HandleResponseHeaders, HandleResponseChunk;
      err, panicked := None, false;
      match e {
        case RequestHeaders(eos) =>
          err, panicked := HandleHeaders(env, eos);
        case RequestChunk(chunk, eos) =>
          ctx := ctx.(body := ctx.body + chunk);
          if eos {
            ctx := ctx.(request := Unmarshal(codec, ctx.request, ctx.body));
            ctx := ctx.(body := []);
            err := HandleBody(codec, env);
          }
        case RequestTrailers =>
        case ResponseHeaders(headers) =>
          HandleHeaderList(headers);
        case ResponseChunk(chunk, eos) =>
          panicked := HandleResponseData(codec, chunk, eos);
        case ResponseTrailers =>
      }
    }

    /** The immediate response to an error, if its code has one. */
    method SendError(env: Env, code: Code)
      modifies this
      ensures View() == Fail(env, old(View()), code)
    {
      var status := Status(code);
      if status.Some? {
        var _ := TrySend(env, Immediate(status.value));
      }
      Deferred(true);
    }

    /** One pass of the event loop. */
    method ProcessOne(codec: Codec, env: Env, e: Event)
      requires live
      modifies this
      ensures View() == Step(codec, env, old(View()), e)
    {
      hide Handle, Update, Exit, Fail;
      ghost var s := View();
      var err, panicked := HandleEvent(codec, env, e);
      if panicked {
        Deferred(false);
        return;
      }
      if err.Some? {
        SendError(env, err.value);
        return;
      }
      HandlingIsLive(codec, env, s, e);
      var ok := UpdateStateAndSendIfNeeded(env);
      if !ok { Deferred(false); }
    }

    /** The event loop, up to the end of the stream.  However the stream goes: messages are sent in
        order; the request body that is sent is the one the inputs say, and its header announces it
        unless the stream opened without a body; the error counter is bumped once if an event was an
        error and else never; and the gauge is raised for the first and lowered for the last request
        that was routed, so it is balanced if there was at most one. */
    method Process(codec: Codec, inputs: seq<Input>)
      requires View() == NEW
      modifies this
      ensures View() == Close(Run(codec, NEW, inputs)) && !live
      ensures WellOrdered(sent)
      ensures Announced(sent, OpensBare(inputs))
      ensures var body := Forwards(codec, NEW, inputs);
              SentBody(sent) == body && (Agreed(sent) <==> !OpensBare(inputs) || body.None? || body.value == [])
      ensures errors == if Errs(codec, NEW, inputs) then 1 else 0
      ensures var routed := Routed(codec, NEW, inputs);
              gauge == (if Forwards(codec, NEW, inputs).Some? then Raised(routed) + Lowered(routed) else [])
      ensures Bodies(inputs) <= 1 ==> Balanced(gauge)
    {
      ProcessAll(codec, inputs);
      StreamGuarantees(codec, inputs);
    }

    method ProcessAll(codec: Codec, inputs: seq<Input>)
      requires View() == NEW
      modifies this
      ensures View() == Close(Run(codec, NEW, inputs))
    {
      hide Step, Exit;
      var i := 0;
      while i < |inputs|
        invariant i <= |inputs| && live
        invariant Run(codec, View(), inputs[i..]) == Run(codec, NEW, inputs)
      {
        assert inputs[i..][1..] == inputs[i + 1..];
        ProcessOne(codec, inputs[i].env, inputs[i].event);
        if !live {
          DeadRun(codec, View(), inputs[i + 1..]);
          return;
        }
        i := i + 1;
      }
      Deferred(false);
    }
  }

  lemma HandlingIsLive(codec: Codec, env: Env, s: Session, e: Event)
    ensures Handle(codec, env, s, e).s.live == s.live
  {
    hide PlanRequest, Marshal, Unmarshal, UsageReadable, AnyErrorStatus, AnyEventStream;
  }

  /** The theorems about whole streams, at the end of the stream. */
  lemma StreamGuarantees(codec: Codec, inputs: seq<Input>)
    ensures var s, routed, body := Close(Run(codec, NEW, inputs)), Routed(codec, NEW, inputs), Forwards(codec, NEW, inputs);
            && !s.live && WellOrdered(s.sent) && s.errors == (if Errs(codec, NEW, inputs) then 1 else 0)
            && Announced(s.sent, OpensBare(inputs))
            && SentBody(s.sent) == body && (Agreed(s.sent) <==> !OpensBare(inputs) || body.None? || body.value == [])
            && s.gauge == (if body.Some? then Raised(routed) + Lowered(routed) else [])
            && (Bodies(inputs) <= 1 ==> Balanced(s.gauge))
  {
    hide Run, WellOrdered, Announced, OpensBare, Agreed, SentBody, Forwards, Errs, Raised, Lowered, Balanced, Routed, Bodies;
    SendOrder(codec, inputs);
    HeaderAnnouncesBody(codec, inputs);
    GaugeExact(codec, inputs);
    if Bodies(inputs) <= 1 { GaugeBalance(codec, inputs); }
  }

  lemma DeadStaysDead(env: Env)
    ensures forall s, failed :: !Exit(s, failed).live
    ensures forall s: Session :: !s.live ==> SendRequestBody(env, s) == s && SendRequestTrailer(env, s) == s
    ensures forall s: Session :: !s.live ==> SendResponseHeader(env, s) == s && SendResponseBody(env, s) == s && SendResponseTrailer(env, s) == s
  {
  }
}
