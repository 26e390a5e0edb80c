/**
 The reader that looks for a worker id in the front end's event stream.  The stream is cut into
 lines and the lines into blocks at blank lines; the first block that names a worker or says
 [DONE] decides.  JSON decoding is a parameter.
 */
module Sse {
  import opened Wrappers
  import opened Text

  /** The worker ids found at the root and under `annotations` of a JSON object. */
  datatype Payload = Payload(rootId: Option<string>, annotationId: Option<string>)

  datatype Codec = Codec(str: string -> Option<string>, obj: string -> Option<Payload>)

  datatype Verdict = Worker(id: string) | Done | Nothing

  /** How the stream stops: at its end, or with a read error. */
  datatype End = Eof | Broken

  datatype Outcome = Found(id: string) | DoneFirst | NotFound | ReadError

  // ----- one block -----

  datatype Line = Comment(text: string) | Field(name: string, value: string) | Other

  function Classify(l: string): Line {
    if l != "" && l[0] == ':' then Comment(TrimSpace(l[1..]))
    else
      var i := Index(l, ':');
      if i == -1 then Other else Field(l[..i], TrimSpace(l[i + 1..]))
  }

  /** The values of a block's `data` lines, in order. */
  function DataValues(block: seq<string>): seq<string> {
    if block == [] then []
    else
      var line := Classify(block[|block| - 1]);
      DataValues(block[..|block| - 1]) + (if line.Field? && line.name == "data" then [line.value] else [])
  }

  function Comments(block: seq<string>): seq<string> {
    if block == [] then []
    else
      var line := Classify(block[|block| - 1]);
      Comments(block[..|block| - 1]) + (if line.Comment? then [line.text] else [])
  }

  /** The last `event` line names the event. */
  function EventName(block: seq<string>): string {
    if block == [] then ""
    else
      var line := Classify(block[|block| - 1]);
      if line.Field? && line.name == "event" then line.value else EventName(block[..|block| - 1])
  }

  function TrimQuotesLeft(s: string): string {
    if s != "" && s[0] == '"' then TrimQuotesLeft(s[1..]) else s
  }

  function TrimQuotesRight(s: string): string {
    if s != "" && s[|s| - 1] == '"' then TrimQuotesRight(s[..|s| - 1]) else s
  }

  function NamedId(codec: Codec, candidate: string): string {
    if candidate == "" then ""
    else
      var s := codec.str(candidate);
      if s.Some? && s.value != "" then s.value
      else
        var clean := TrimQuotesRight(TrimQuotesLeft(candidate));
        if clean == "[DONE]" then "" else clean
  }

  predicate Nonempty(id: Option<string>) { id.Some? && id.value != "" }

  function Judge(codec: Codec, event: string, data: string, comment: string): Verdict {
    if data == "[DONE]" || comment == "[DONE]" then Done
    else
      var named := if event == "worker_instance_id" then NamedId(codec, if data == "" then comment else data) else "";
      if named != "" then Worker(named)
      else
        var msg := if data == "" then None else codec.obj(data);
        if msg.Some? && Nonempty(msg.value.rootId) then Worker(msg.value.rootId.value)
        else if msg.Some? && Nonempty(msg.value.annotationId) then Worker(msg.value.annotationId.value)
        else Nothing
  }

  function BlockVerdict(codec: Codec, block: seq<string>): Verdict {
    Judge(codec, EventName(block), TrimSpace(Join(DataValues(block), '\n')), TrimSpace(Join(Comments(block), '\n')))
  }

  // ----- the whole stream -----

  /** Strips trailing carriage returns and line feeds. */
  function Chomp(s: string): string {
    if s != "" && (s[|s| - 1] == '\r' || s[|s| - 1] == '\n') then Chomp(s[..|s| - 1]) else s
  }

  /** The lines that end in a line feed; an unterminated rest is not a line. */
  function Lines(stream: string): seq<string>
    decreases |stream|
  {
    var i := Index(stream, '\n');
    if i == -1 then [] else [Chomp(stream[..i + 1])] + Lines(stream[i + 1..])
  }

  /** Blank lines end blocks; the last block is ended by the end of the stream. */
  function Blocks(lines: seq<string>): (blocks: seq<seq<string>>)
    ensures blocks != []
  {
    if lines == [] then [[]]
    else
      var blocks := Blocks(lines[1..]);
      if lines[0] == "" then [[]] + blocks else [[lines[0]] + blocks[0]] + blocks[1..]
  }

  /** The first block with a verdict decides; a read error discards the block it interrupts. */
  function Decide(codec: Codec, blocks: seq<seq<string>>, end: End): Outcome
    requires blocks != []
    decreases |blocks|
  {
    if |blocks| == 1 && end.Broken? then ReadError
    else
      match BlockVerdict(codec, blocks[0])
      case Worker(id) => Found(id)
      case Done => DoneFirst
      case Nothing => if |blocks| == 1 then NotFound else Decide(codec, blocks[1..], end)
  }

  function Result(codec: Codec, stream: string, end: End): Outcome {
    Decide(codec, Blocks(Lines(stream)), end)
  }

  // ----- the buffers hold what the declarative form joins -----

  function Append(buf: string, value: string): string {
    if buf != "" then buf + "\n" + value else value
  }

  function Buffered(values: seq<string>): string {
    if values == [] then "" else Append(Buffered(values[..|values| - 1]), values[|values| - 1])
  }

  lemma {:induction false} JoinAppend(values: seq<string>, v: string, c: char)
    requires values != []
    ensures Join(values + [v], c) == Join(values, c) + [c] + v
  {
    if |values| == 1 {
      assert (values + [v])[1..] == [v];
    } else {
      assert (values + [v])[1..] == values[1..] + [v];
      JoinAppend(values[1..], v, c);
    }
  }

  lemma {:induction false} BufferedIsSuffix(values: seq<string>) returns (lead: string)
    ensures AllSpace(lead) && Join(values, '\n') == lead + Buffered(values)
  {
    if |values| <= 1 {
      lead := "";
      if values != [] { assert Buffered(values[..0]) == ""; }
    } else {
      var init, v := values[..|values| - 1], values[|values| - 1];
      lead := BufferedIsSuffix(init);
      assert values == init + [v];
      JoinAppend(init, v, '\n');
      if Buffered(init) == "" { lead := lead + "\n"; }
    }
  }

  lemma {:induction false} LeadIgnored(lead: string, s: string)
    requires AllSpace(lead)
    ensures TrimSpace(lead + s) == TrimSpace(s)
  {
    if lead == "" {
      assert lead + s == s;
    } else {
      assert (lead + s)[1..] == lead[1..] + s;
      LeadIgnored(lead[1..], s);
    }
  }

  /** The code's separator rule loses nothing that trimming would keep. */
  lemma {:induction false} BufferTrims(values: seq<string>)
    ensures TrimSpace(Buffered(values)) == TrimSpace(Join(values, '\n'))
  {
    var lead := BufferedIsSuffix(values);
    LeadIgnored(lead, Buffered(values));
  }

  // ----- blocks are independent -----

  lemma {:induction false} BlocksOpen(block: seq<string>, lines: seq<string>)
    requires "" !in block
    ensures Blocks(block + lines) == [block + Blocks(lines)[0]] + Blocks(lines)[1..]
  {
    if block == [] {
      assert block + lines == lines;
      assert block + Blocks(lines)[0] == Blocks(lines)[0];
    } else {
      assert (block + lines)[0] == block[0] && (block + lines)[1..] == block[1..] + lines;
      BlocksOpen(block[1..], lines);
      assert [block[0]] + (block[1..] + Blocks(lines)[0]) == block + Blocks(lines)[0];
    }
  }

  lemma BlocksCons(l: string, lines: seq<string>)
    ensures Blocks([l] + lines) ==
            if l == "" then [[]] + Blocks(lines) else [[l] + Blocks(lines)[0]] + Blocks(lines)[1..]
  {
    assert ([l] + lines)[1..] == lines;
  }

  lemma {:induction false} BlocksConcat(a: seq<string>, b: seq<string>)
    ensures Blocks(a + [""] + b) == Blocks(a) + Blocks(b)
  {
    hide Blocks;
    if a == [] {
      assert a + [""] + b == [""] + b;
      BlocksCons("", b);
      BlockEnds(a);
    } else {
      var l, t := a[0], a[1..];
      assert a == [l] + t && a + [""] + b == [l] + (t + [""] + b);
      BlocksConcat(t, b);
      BlocksCons(l, t);
      BlocksCons(l, t + [""] + b);
      FirstOfTwo(Blocks(t), Blocks(b), [l]);
    }
  }

  lemma FirstOfTwo(x: seq<seq<string>>, y: seq<seq<string>>, block: seq<string>)
    requires x != []
    ensures [[]] + (x + y) == ([[]] + x) + y
    ensures [block + (x + y)[0]] + (x + y)[1..] == ([block + x[0]] + x[1..]) + y
  {
  }

  ghost predicate Silent(codec: Codec, blocks: seq<seq<string>>) {
    forall i :: 0 <= i < |blocks| ==> BlockVerdict(codec, blocks[i]).Nothing?
  }

  lemma {:induction false} SilentSkipped(codec: Codec, a: seq<seq<string>>, b: seq<seq<string>>, end: End)
    requires Silent(codec, a) && b != []
    ensures Decide(codec, a + b, end) == Decide(codec, b, end)
  {
    hide BlockVerdict;
    if a == [] {
      assert a + b == b;
    } else {
      assert (a + b)[1..] == a[1..] + b;
      SilentSkipped(codec, a[1..], b, end);
    }
  }

  lemma {:induction false} FirstDecides(codec: Codec, a: seq<seq<string>>, b: seq<seq<string>>, b': seq<seq<string>>, end: End, end': End)
    requires !Silent(codec, a) && b != [] && b' != []
    ensures Decide(codec, a + b, end) == Decide(codec, a + b', end')
  {
    hide BlockVerdict;
    assert (a + b)[1..] == a[1..] + b && (a + b')[1..] == a[1..] + b';
    if BlockVerdict(codec, a[0]).Nothing? { FirstDecides(codec, a[1..], b, b', end, end'); }
  }

  lemma LinesStep(a: string, rest: string)
    requires '\n' !in a
    ensures Lines(a + "\n" + rest) == [Chomp(a + "\n")] + Lines(rest)
  {
    hide Chomp, Index;
    var s := a + "\n" + rest;
    IndexAt(a, '\n', rest);
    assert s[..|a| + 1] == a + "\n" && s[|a| + 1..] == rest;
  }

  lemma {:induction false} LinesConcat(x: string, y: string)
    requires x == "" || x[|x| - 1] == '\n'
    ensures Lines(x + y) == Lines(x) + Lines(y)
    decreases |x|
  {
    hide Chomp, Index, Lines;
    if x == "" {
      assert x + y == y;
      NoLines();
    } else {
      assert x[|x| - 1] in x;
      var i := Index(x, '\n');
      var a, x' := x[..i], x[i + 1..];
      assert x == a + "\n" + x' && x + y == a + "\n" + (x' + y);
      LinesStep(a, x');
      LinesStep(a, x' + y);
      LinesConcat(x', y);
    }
  }

  lemma NoLines()
    ensures Lines("") == []
  {
  }

  /** A stretch of the stream that ends with a blank line, LF or CRLF. */
  predicate ClosesBlock(x: string) {
    x != "" && x[|x| - 1] == '\n' && Lines(x) != [] && Lines(x)[|Lines(x)| - 1] == ""
  }

  function ClosedBlocks(x: string): seq<seq<string>>
    requires ClosesBlock(x)
  {
    Blocks(Lines(x)[..|Lines(x)| - 1])
  }

  lemma ClosedThen(x: string, y: string)
    requires ClosesBlock(x)
    ensures Blocks(Lines(x + y)) == ClosedBlocks(x) + Blocks(Lines(y))
  {
    hide Lines, Blocks;
    var before := Lines(x)[..|Lines(x)| - 1];
    LinesConcat(x, y);
    assert Lines(x) + Lines(y) == before + [""] + Lines(y);
    BlocksConcat(before, Lines(y));
  }

  /** Text before a blank line that decides nothing has no effect on what follows it. */
  lemma {:induction false} EarlierBlocksForgotten(codec: Codec, x: string, y: string, end: End)
    requires ClosesBlock(x) && Silent(codec, ClosedBlocks(x))
    ensures Result(codec, x + y, end) == Result(codec, y, end)
  {
    hide Lines, Blocks, Decide, BlockVerdict;
    ClosedThen(x, y);
    SilentSkipped(codec, ClosedBlocks(x), Blocks(Lines(y)), end);
  }

  /** Nothing after a deciding block matters, not even how the stream ends. */
  lemma {:induction false} LaterTextIgnored(codec: Codec, x: string, y: string, y': string, end: End, end': End)
    requires ClosesBlock(x) && !Silent(codec, ClosedBlocks(x))
    ensures Result(codec, x + y, end) == Result(codec, x + y', end')
  {
    hide Lines, Blocks, Decide, BlockVerdict;
    ClosedThen(x, y);
    ClosedThen(x, y');
    FirstDecides(codec, ClosedBlocks(x), Blocks(Lines(y)), Blocks(Lines(y')), end, end');
  }

  /** A last line without its line feed is dropped, even if the stream ends normally and the line
      names a worker. */
  lemma {:induction false} UnfinishedLineIgnored(codec: Codec, x: string, y: string, end: End)
    requires (x == "" || x[|x| - 1] == '\n') && '\n' !in y
    ensures Result(codec, x + y, end) == Result(codec, x, end)
  {
    hide Blocks, Decide, BlockVerdict, Chomp;
    LinesConcat(x, y);
    assert Lines(x) + [] == Lines(x);
  }

  // ----- the incremental reader -----

  lemma BlockGrows(block: seq<string>, l: string)
    ensures var line := Classify(l);
            && DataValues(block + [l]) ==
                 (if line.Field? && line.name == "data" then DataValues(block) + [line.value] else DataValues(block))
            && Comments(block + [l]) == (if line.Comment? then Comments(block) + [line.text] else Comments(block))
            && EventName(block + [l]) ==
                 (if line.Field? && line.name == "event" then line.value else EventName(block))
  {
    hide Classify;
    assert (block + [l])[..|block|] == block;
  }

  lemma BufferGrows(values: seq<string>, v: string)
    ensures Buffered(values + [v]) == Append(Buffered(values), v)
  {
    assert (values + [v])[..|values|] == values;
  }

  /** The buffers of the reader agree with the lines of the block read so far. */
  ghost predicate Holds(block: seq<string>, eventName: string, dataBuf: string, commentBuf: string) {
    && eventName == EventName(block)
    && dataBuf == Buffered(DataValues(block))
    && commentBuf == Buffered(Comments(block))
  }

  lemma EmptyHolds()
    ensures Holds([], "", "", "")
  {
  }

  /** A blank line closes the block read so far. */
  lemma BlockCloses(block: seq<string>, lines: seq<string>)
    requires "" !in block && lines != [] && lines[0] == ""
    ensures Blocks(block + lines) == [block] + Blocks(lines[1..])
  {
    BlocksOpen(block, lines);
    assert block + [] == block;
  }

  lemma BlockEnds(block: seq<string>)
    requires "" !in block
    ensures Blocks(block) == [block]
  {
    BlocksOpen(block, []);
    assert block + [] == block;
  }

  lemma FlushVerdict(codec: Codec, block: seq<string>, eventName: string, dataBuf: string, commentBuf: string)
    requires Holds(block, eventName, dataBuf, commentBuf)
    ensures Judge(codec, eventName, TrimSpace(dataBuf), TrimSpace(commentBuf)) == BlockVerdict(codec, block)
  {
    hide TrimSpace, Judge, Join, EventName, DataValues, Comments, Buffered;
    BufferTrims(DataValues(block));
    BufferTrims(Comments(block));
  }

  lemma NextLine(rest: string)
    requires '\n' in rest
    ensures var i := Index(rest, '\n');
            0 <= i < |rest| && Lines(rest) == [Chomp(rest[..i + 1])] + Lines(rest[i + 1..])
  {
    hide Chomp, Index;
  }

  lemma NoLineFeed(rest: string)
    requires '\n' !in rest
    ensures Lines(rest) == []
  {
    hide Chomp, Index;
  }

  method ReadWorkerId(codec: Codec, stream: string, end: End) returns (outcome: Outcome)
    ensures outcome == Result(codec, stream, end)
  {
    hide Judge, TrimSpace, Chomp, BlockVerdict, EventName, DataValues, Comments, Buffered, Index, Blocks, Lines;
    var rest := stream;
    var eventName, dataBuf, commentBuf := "", "", "";
    ghost var block: seq<string> := [];
    EmptyHolds();
    assert block + Lines(rest) == Lines(stream);
    while '\n' in rest
      invariant "" !in block && Holds(block, eventName, dataBuf, commentBuf)
      invariant Decide(codec, Blocks(block + Lines(rest)), end) == Result(codec, stream, end)
      decreases |rest|
    {
      NextLine(rest);
      var i := Index(rest, '\n');
      var l := Chomp(rest[..i + 1]);
      ghost var before := Lines(rest);
      rest := rest[i + 1..];
      if l == "" {
        BlockCloses(block, before);
        FlushVerdict(codec, block, eventName, dataBuf, commentBuf);
        match Judge(codec, eventName, TrimSpace(dataBuf), TrimSpace(commentBuf)) {
          case Worker(id) => return Found(id);
          case Done => return DoneFirst;
          case Nothing =>
        }
        eventName, dataBuf, commentBuf, block := "", "", "", [];
        EmptyHolds();
        assert block + Lines(rest) == Lines(rest);
        continue;
      }
      BlockGrows(block, l);
      assert block + before == (block + [l]) + Lines(rest);
      match Classify(l) {
        case Comment(text) =>
          BufferGrows(Comments(block), text);
          commentBuf := Append(commentBuf, text);
        case Field(name, value) =>
          if name == "event" {
            eventName := value;
          } else if name == "data" {
            BufferGrows(DataValues(block), value);
            dataBuf := Append(dataBuf, value);
          }
        case Other =>
      }
      block := block + [l];
    }
    NoLineFeed(rest);
    assert block + Lines(rest) == block;
    BlockEnds(block);
    if end.Broken? { return ReadError; }
    FlushVerdict(codec, block, eventName, dataBuf, commentBuf);
    match Judge(codec, eventName, TrimSpace(dataBuf), TrimSpace(commentBuf)) {
      case Worker(id) => return Found(id);
      case Done => return DoneFirst;
      case Nothing => return NotFound;
    }
  }
}
