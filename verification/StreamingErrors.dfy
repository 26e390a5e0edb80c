/** The error counter over whole streams, and what the response headers say. */
module StreamingErrors {
  import opened Wrappers
  import opened Json
  import opened Streaming
  import opened StreamingOrder
  import opened StreamingChunks

  // ----- response headers -----

  predicate FoundAt(s: string, t: string, i: int) { 0 <= i <= |s| - |t| && s[i..i + |t|] == t }

  /** Substring search, as the code uses it. */
  lemma {:induction false} ContainsExact(s: string, t: string)
    ensures Contains(s, t) <==> exists i :: FoundAt(s, t, i)
  {
    if |t| <= |s| {
      assert s[..|t|] == t <==> FoundAt(s, t, 0);
      if s != "" {
        ContainsExact(s[1..], t);
        if i :| FoundAt(s[1..], t, i) { assert FoundAt(s, t, i + 1); }
        if i :| FoundAt(s, t, i) && i > 0 { assert FoundAt(s[1..], t, i - 1); }
        assert forall i :: FoundAt(s, t, i) ==> i == 0 || i > 0;
      }
    }
  }

  /** Some header is a status other than 200. */
  predicate BadStatus(headers: seq<(string, string)>) {
    exists i :: 0 <= i < |headers| && headers[i].0 == "status" && headers[i].1 != "200"
  }

  /** Some header is a content type that mentions an event stream. */
  predicate Streams(headers: seq<(string, string)>) {
    exists i :: 0 <= i < |headers| && headers[i].0 == "content-type" && Contains(headers[i].1, "text/event-stream")
  }

  /** The two flags that the loop over the response headers sets. */
  lemma {:induction false} HeadersExact(headers: seq<(string, string)>)
    ensures AnyErrorStatus(headers) <==> BadStatus(headers)
    ensures Plain(headers) <==> !Streams(headers)
  {
    hide Contains;
    if headers != [] {
      var init, last := headers[..|headers| - 1], headers[|headers| - 1];
      HeadersExact(init);
      assert forall i :: 0 <= i < |init| ==> init[i] == headers[i];
      assert headers[|headers| - 1] == last;
      assert BadStatus(headers) <==> BadStatus(init) || (last.0 == "status" && last.1 != "200");
      assert Streams(headers) <==> Streams(init) || (last.0 == "content-type" && Contains(last.1, "text/event-stream"));
    }
  }

  // ----- errors -----

  /** The event, if it is handled, is an error: a request that is rejected, headers without a body that
      find a pod but no port, or response headers with a bad status. */
  predicate IsError(codec: Codec, env: Env, s: Session, e: Event) {
    match e
    case RequestHeaders(eos) => eos && env.randomPod.Some? && env.port.None?
    case RequestChunk(chunk, eos) =>
      eos && PlanRequest(codec, env, Unmarshal(codec, s.ctx.request, s.ctx.body + chunk), s.ctx.worker).Reject?
    case ResponseHeaders(headers) => BadStatus(headers)
    case _ => false
  }

  /** Some event that the stream handles is an error. */
  predicate Errs(codec: Codec, s: Session, inputs: seq<Input>)
    decreases |inputs|
  {
    && inputs != [] && s.live
    && (IsError(codec, inputs[0].env, s, inputs[0].event)
        || Errs(codec, Step(codec, inputs[0].env, s, inputs[0].event), inputs[1..]))
  }

  /** The counter after a stream that has erred or not. */
  predicate Counted(s: Session, erred: bool) {
    if s.live then s.errors == 0 && s.ctx.statusError == erred else s.errors == if erred then 1 else 0
  }

  lemma ExitCounted(s: Session, erred: bool)
    requires s.live && Counted(s, erred)
    ensures Counted(Exit(s, false), erred) && Counted(Exit(s, true), true)
  {
  }

  lemma FailCounted(env: Env, s: Session, code: Code, erred: bool)
    requires s.live && Counted(s, erred)
    ensures Counted(Fail(env, s, code), true)
  {
  }

  lemma SendsCounted(env: Env, s: Session, erred: bool)
    requires Counted(s, erred)
    ensures Counted(SendRequestBody(env, SendRequestHeader(env, s)), erred)
    ensures Counted(SendResponseBody(env, SendResponseHeader(env, s)), erred)
  {
  }

  lemma UpdateCounted(env: Env, s: Session, erred: bool)
    requires Counted(s, erred) && Typed(s)
    ensures Counted(Update(env, s), erred)
  {
    hide SendRequestHeader, SendRequestBody, SendRequestTrailer, SendResponseHeader, SendResponseBody, SendResponseTrailer, Counted;
    SendsCounted(env, s, erred);
    RequestSide(env, s);
    var s2 := SendRequestBody(env, SendRequestHeader(env, s));
    SendsCounted(env, s2, erred);
    ResponseSide(env, s2);
  }

  lemma HandleCounted(codec: Codec, env: Env, s: Session, e: Event, erred: bool)
    requires s.live && Counted(s, erred)
    ensures var h := Handle(codec, env, s, e);
            && h.s.live && h.s.errors == 0 && (h.Bad? ==> IsError(codec, env, s, e))
            && h.s.ctx.statusError == (erred || (e.ResponseHeaders? && BadStatus(e.headers)))
            && (!h.Bad? && !e.ResponseHeaders? ==> !IsError(codec, env, s, e))
  {
    if e.ResponseHeaders? { HeadersExact(e.headers); }
    hide PlanRequest, Marshal, Unmarshal, UsageReadable, AnyErrorStatus, AnyEventStream, BadStatus;
  }

  lemma StepCounted(codec: Codec, env: Env, s: Session, e: Event, erred: bool)
    requires Counted(s, erred) && Typed(s)
    ensures var s' := Step(codec, env, s, e);
            Counted(s', erred || (s.live && IsError(codec, env, s, e))) && Typed(s')
  {
    hide Handle, Update, Fail, Exit, Typed, BadStatus;
    if s.live {
      HandleCounted(codec, env, s, e, erred);
      HandleTyped(codec, env, s, e);
      var erred' := erred || (e.ResponseHeaders? && BadStatus(e.headers));
      match Handle(codec, env, s, e)
      case Good(s') =>
        UpdateCounted(env, s', erred');
        UpdateQuiets(env, s');
      case Bad(s', code) =>
        FailCounted(env, s', code, erred');
        ExitQuiet(env, s', code, true);
      case Panic(s') =>
        ExitCounted(s', erred');
        ExitQuiet(env, s', Unknown, false);
    }
  }

  lemma {:induction false} RunCounted(codec: Codec, s: Session, inputs: seq<Input>, erred: bool)
    requires Counted(s, erred) && Typed(s)
    ensures Counted(Run(codec, s, inputs), erred || Errs(codec, s, inputs))
    decreases |inputs|
  {
    hide Step, IsError, Typed, Counted;
    if inputs != [] {
      var x := inputs[0];
      var s' := Step(codec, x.env, s, x.event);
      StepCounted(codec, x.env, s, x.event, erred);
      if s.live {
        RunCounted(codec, s', inputs[1..], erred || IsError(codec, x.env, s, x.event));
      } else {
        DeadRun(codec, s, inputs);
      }
    }
  }

  /** For every stream, however it ends, the error counter is bumped once if some event it handled was
      an error, and else never. */
  lemma {:induction false} ErrorsExact(codec: Codec, inputs: seq<Input>)
    ensures Close(Run(codec, NEW, inputs)).errors == if Errs(codec, NEW, inputs) then 1 else 0
  {
    hide Run, Errs;
    RunCounted(codec, NEW, inputs, false);
    var s := Run(codec, NEW, inputs);
    if s.live { ExitCounted(s, Errs(codec, NEW, inputs)); }
  }
}
