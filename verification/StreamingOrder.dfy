/** What the stream sends, and in which order, for every finite sequence of events. */
module StreamingOrder {
  import opened Json
  import opened Streaming

  /** A response header was sent, and no end-of-stream body since. */
  predicate Open(log: seq<Msg>) {
    exists i :: 0 <= i < |log| && log[i].ResponseHeader?
                && forall k :: i < k < |log| ==> !(log[k].ResponseBody? && log[k].eos)
  }

  /** `m` may follow the messages already sent. */
  predicate Allowed(before: seq<Msg>, m: Msg) {
    && (forall x :: x in before ==> !x.Immediate?)
    && match m
       case RequestHeader(_, _, _) => forall x :: x in before ==> !x.RequestHeader? && !x.RequestBody? && !x.ResponseHeader?
       case RequestBody(_, _) => (exists x :: x in before && x.RequestHeader?)
                                 && forall x :: x in before ==> !x.RequestBody? && !x.ResponseHeader?
       case ResponseHeader => true
       case ResponseBody(_, _) => Open(before)
       case Immediate(_) => true
  }

  predicate WellOrdered(log: seq<Msg>) {
    forall j :: 0 <= j < |log| ==> Allowed(log[..j], log[j])
  }

  lemma Appended(log: seq<Msg>, m: Msg)
    requires WellOrdered(log) && Allowed(log, m)
    ensures WellOrdered(log + [m])
  {
    hide Allowed;
    var log' := log + [m];
    forall j | 0 <= j < |log'| ensures Allowed(log'[..j], log'[j]) {
      assert log'[..j] == log[..j];
      if j == |log| { assert log[..j] == log; } else { assert Allowed(log[..j], log[j]); }
    }
  }

  lemma OpenAfter(log: seq<Msg>, m: Msg)
    ensures m.ResponseHeader? ==> Open(log + [m])
    ensures Open(log) && !(m.ResponseBody? && m.eos) ==> Open(log + [m])
  {
    var log' := log + [m];
    if m.ResponseHeader? {
      assert log'[|log|].ResponseHeader?;
    }
    if Open(log) && !(m.ResponseBody? && m.eos) {
      var i :| 0 <= i < |log| && log[i].ResponseHeader? && forall k :: i < k < |log| ==> !(log[k].ResponseBody? && log[k].eos);
      assert log'[i].ResponseHeader? && forall k :: i < k < |log'| ==> !(log'[k].ResponseBody? && log'[k].eos);
    }
  }

  // ----- the invariant -----

  /** Each pending response is of its own kind, and trailers are never prepared. */
  predicate Typed(s: Session) {
    && (s.pending.reqHeader.Some? ==> s.pending.reqHeader.value.RequestHeader?)
    && (s.pending.reqBody.Some? ==> s.pending.reqBody.value.RequestBody?)
    && (s.pending.respHeader.Some? ==> s.pending.respHeader.value.ResponseHeader?)
    && (s.pending.respBody.Some? ==> s.pending.respBody.value.ResponseBody?)
    && s.pending.reqTrailer.None? && s.pending.respTrailer.None?
  }

  /** What the stage says about the messages sent. */
  predicate Staged(stage: Stage, log: seq<Msg>) {
    && (forall x :: x in log ==> !x.Immediate?)
    && match stage
       case RequestReceived => forall x :: x in log ==> !x.RequestHeader? && !x.RequestBody? && !x.ResponseHeader?
       case HeaderRequestResponseComplete => (exists x :: x in log && x.RequestHeader?)
                                             && forall x :: x in log ==> !x.RequestBody? && !x.ResponseHeader?
       case BodyRequestResponsesComplete => true
       case ResponseReceived => true
       case HeaderResponseResponseComplete => Open(log)
       case BodyResponseResponsesComplete => true
  }

  predicate Ordered(s: Session) {
    Typed(s) && WellOrdered(s.sent) && (s.live ==> Staged(s.stage, s.sent))
  }

  /** The next stage after sending a message, and its claim about the log. */
  lemma Advances(stage: Stage, log: seq<Msg>, m: Msg, next: Stage)
    requires WellOrdered(log) && Staged(stage, log)
    requires || (stage.RequestReceived? && m.RequestHeader? && next.HeaderRequestResponseComplete?)
             || (stage.HeaderRequestResponseComplete? && m.RequestBody? && next.BodyRequestResponsesComplete?)
             || (stage.ResponseReceived? && m.ResponseHeader? && next.HeaderResponseResponseComplete?)
             || (stage.HeaderResponseResponseComplete? && m.ResponseBody?
                 && next == if m.eos then BodyResponseResponsesComplete else stage)
    ensures WellOrdered(log + [m]) && Staged(next, log + [m])
  {
    hide WellOrdered, Open;
    Appended(log, m);
    OpenAfter(log, m);
    assert forall x :: x in log + [m] <==> x in log || x == m;
    assert m in log + [m];
  }

  lemma RequestHeaderKeeps(env: Env, s: Session)
    requires Ordered(s)
    ensures Ordered(SendRequestHeader(env, s))
  {
    hide WellOrdered, Staged;
    if s.live && s.stage.RequestReceived? && s.pending.reqHeader.Some? {
      Advances(s.stage, s.sent, s.pending.reqHeader.value, HeaderRequestResponseComplete);
    }
  }

  lemma RequestBodyKeeps(env: Env, s: Session)
    requires Ordered(s)
    ensures Ordered(SendRequestBody(env, s))
  {
    hide WellOrdered, Staged;
    if s.live && s.stage.HeaderRequestResponseComplete? && s.pending.reqBody.Some? {
      Advances(s.stage, s.sent, s.pending.reqBody.value, BodyRequestResponsesComplete);
    }
  }

  lemma ResponseHeaderKeeps(env: Env, s: Session)
    requires Ordered(s)
    ensures Ordered(SendResponseHeader(env, s))
  {
    hide WellOrdered, Staged;
    if s.live && s.stage.ResponseReceived? && s.pending.respHeader.Some? {
      Advances(s.stage, s.sent, s.pending.respHeader.value, HeaderResponseResponseComplete);
    }
  }

  lemma ResponseBodyKeeps(env: Env, s: Session)
    requires Ordered(s)
    ensures Ordered(SendResponseBody(env, s))
  {
    hide WellOrdered, Staged;
    if s.live && s.stage.HeaderResponseResponseComplete? && s.pending.respBody.Some? {
      var m := s.pending.respBody.value;
      Advances(s.stage, s.sent, m, if m.eos then BodyResponseResponsesComplete else s.stage);
    }
  }

  lemma UpdateKeeps(env: Env, s: Session)
    requires Ordered(s)
    ensures Ordered(Update(env, s))
  {
    hide SendRequestHeader, SendRequestBody, SendResponseHeader, SendResponseBody, WellOrdered, Staged;
    var s1 := SendRequestHeader(env, s);
    var s2 := SendRequestBody(env, s1);
    var s3 := SendResponseHeader(env, s2);
    RequestHeaderKeeps(env, s);
    RequestBodyKeeps(env, s1);
    assert SendRequestTrailer(env, s2) == s2;
    ResponseHeaderKeeps(env, s2);
    ResponseBodyKeeps(env, s3);
    assert SendResponseTrailer(env, SendResponseBody(env, s3)) == SendResponseBody(env, s3);
  }

  lemma Untouched(s: Session, s': Session)
    requires Ordered(s) && Typed(s') && s'.sent == s.sent && s'.live == s.live
    requires s'.stage == s.stage || s'.stage.ResponseReceived?
    ensures Ordered(s')
  {
    hide WellOrdered, Open;
  }

  /** What handling an event leaves alone. */
  predicate Frame(s: Session, s': Session) {
    && s'.live == s.live && s'.sent == s.sent && s'.gauge == s.gauge && s'.errors == s.errors
    && s'.ctx.running == s.ctx.running
  }

  lemma RequestFrame(codec: Codec, env: Env, s: Session, e: Event)
    requires Typed(s) && !e.ResponseHeaders? && !e.ResponseChunk?
    ensures var s' := Handle(codec, env, s, e).s; Typed(s') && Frame(s, s') && s'.stage == s.stage
  {
    hide PlanRequest, Unmarshal;
  }

  lemma ResponseFrame(codec: Codec, env: Env, s: Session, e: Event)
    requires Typed(s) && (e.ResponseHeaders? || e.ResponseChunk?)
    ensures var s' := Handle(codec, env, s, e).s;
            Typed(s') && Frame(s, s') && s'.ctx.model == s.ctx.model && s'.pending.reqBody == s.pending.reqBody
            && s'.pending.reqHeader == s.pending.reqHeader
            && s'.stage == if e.ResponseHeaders? then ResponseReceived else s.stage
  {
    hide Marshal, Unmarshal, UsageReadable, AnyErrorStatus, AnyEventStream;
  }

  /** Handling an event sends nothing; it can only prepare responses or start the response side. */
  lemma HandleKeeps(codec: Codec, env: Env, s: Session, e: Event)
    requires Ordered(s)
    ensures var s' := Handle(codec, env, s, e).s;
            Ordered(s') && Frame(s, s') && (s'.stage == s.stage || s'.stage.ResponseReceived?)
  {
    hide Handle, WellOrdered, Staged;
    if e.ResponseHeaders? || e.ResponseChunk? { ResponseFrame(codec, env, s, e); } else { RequestFrame(codec, env, s, e); }
    Untouched(s, Handle(codec, env, s, e).s);
  }

  lemma FailKeeps(env: Env, s: Session, code: Code)
    requires Ordered(s) && s.live
    ensures Ordered(Fail(env, s, code))
  {
    hide WellOrdered, Open;
    if Status(code).Some? { Appended(s.sent, Immediate(Status(code).value)); }
  }

  lemma StepKeeps(codec: Codec, env: Env, s: Session, e: Event)
    requires Ordered(s)
    ensures Ordered(Step(codec, env, s, e))
  {
    hide Ordered, Handle, Update, Fail;
    if s.live {
      HandleKeeps(codec, env, s, e);
      var h := Handle(codec, env, s, e);
      match h
      case Good(s') => UpdateKeeps(env, s');
      case Bad(s', code) => FailKeeps(env, s', code);
      case Panic(s') => ExitKeeps(s', false);
    }
  }

  lemma ExitKeeps(s: Session, failed: bool)
    requires Ordered(s)
    ensures Ordered(Exit(s, failed))
  {
  }

  lemma {:induction false} RunKeeps(codec: Codec, s: Session, inputs: seq<Input>)
    requires Ordered(s)
    ensures Ordered(Run(codec, s, inputs))
    decreases |inputs|
  {
    hide Ordered, Step;
    if inputs != [] {
      StepKeeps(codec, inputs[0].env, s, inputs[0].event);
      RunKeeps(codec, Step(codec, inputs[0].env, s, inputs[0].event), inputs[1..]);
    }
  }

  /** For every sequence of events, well formed or not, and every environment: the request header
      and request body responses are each sent at most once, in this order and before any response
      header; every response body follows a response header with no end of stream in between; an
      immediate response is the last message; and no trailer response is ever prepared. */
  lemma {:induction false} SendOrder(codec: Codec, inputs: seq<Input>)
    ensures WellOrdered(Run(codec, NEW, inputs).sent)
    ensures Run(codec, NEW, inputs).pending.reqTrailer.None? && Run(codec, NEW, inputs).pending.respTrailer.None?
  {
    assert Ordered(NEW);
    RunKeeps(codec, NEW, inputs);
  }
}
