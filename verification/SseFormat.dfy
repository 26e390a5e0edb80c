/** Which answer a block of the event stream gives, on its text. */
module SseFormat {
  import opened Wrappers
  import opened Text
  import opened Sse

  // ----- the text of a block -----

  /** A line as it is written: not blank, and not the end of another one. */
  predicate PlainLine(l: string) { l != "" && '\n' !in l && l[|l| - 1] != '\r' }

  predicate PlainLines(block: seq<string>) { forall i :: 0 <= i < |block| ==> PlainLine(block[i]) }

  /** The lines of a block, and the blank line that ends it. */
  function BlockText(block: seq<string>): string {
    if block == [] then "\n" else block[0] + "\n" + BlockText(block[1..])
  }

  lemma ChompLine(l: string)
    requires l == "" || PlainLine(l)
    ensures Chomp(l + "\n") == l
  {
    assert (l + "\n")[..|l|] == l;
    assert l != "" ==> l[|l| - 1] in l;
  }

  lemma {:induction false} BlockLines(block: seq<string>, rest: string)
    requires PlainLines(block)
    ensures Lines(BlockText(block) + rest) == block + [""] + Lines(rest)
  {
    hide Lines, Chomp;
    if block == [] {
      assert BlockText(block) + rest == "" + "\n" + rest;
      LinesStep("", rest);
      ChompLine("");
      assert "" + "\n" == "\n";
    } else {
      var l, t := block[0], block[1..];
      assert BlockText(block) + rest == l + "\n" + (BlockText(t) + rest);
      LinesStep(l, BlockText(t) + rest);
      ChompLine(l);
      BlockLines(t, rest);
      assert [l] + (t + [""] + Lines(rest)) == block + [""] + Lines(rest);
    }
  }

  lemma BlockFirst(block: seq<string>, rest: string)
    requires PlainLines(block)
    ensures Blocks(Lines(BlockText(block) + rest)) == [block] + Blocks(Lines(rest))
  {
    hide Lines, Blocks, BlockText;
    BlockLines(block, rest);
    BlocksConcat(block, Lines(rest));
    BlockEnds(block);
  }

  lemma BlockDecides(codec: Codec, block: seq<string>, rest: string, end: End)
    requires PlainLines(block)
    ensures Result(codec, BlockText(block) + rest, end) ==
            match BlockVerdict(codec, block)
            case Worker(id) => Found(id)
            case Done => DoneFirst
            case Nothing => Result(codec, rest, end)
  {
    hide Lines, Blocks, BlockText, BlockVerdict;
    BlockFirst(block, rest);
    assert ([block] + Blocks(Lines(rest)))[1..] == Blocks(Lines(rest));
  }

  // ----- lines -----

  /** A colon first makes a comment; else the text before the first colon names the field; a line
      without a colon means nothing. */
  lemma {:induction false} LineExact(name: string, value: string)
    requires ':' !in name
    ensures Classify(name + ":" + value) == if name == "" then Comment(TrimSpace(value)) else Field(name, TrimSpace(value))
    ensures Classify(name) == Other
  {
    hide TrimSpace, Index;
    var l := name + ":" + value;
    IndexAt(name, ':', value);
    assert l[..|name|] == name && l[|name| + 1..] == value;
    assert name == "" ==> l[1..] == value;
    assert name != "" ==> l[0] == name[0] && name[0] in name;
  }

  /** The values of the data lines and the comments are collected in order, each with the ones before it. */
  lemma {:induction false} CollectedInOrder(block: seq<string>, i: nat)
    requires i < |block|
    ensures Classify(block[i]).Field? && Classify(block[i]).name == "data" ==>
              DataValues(block[..i]) + [Classify(block[i]).value] <= DataValues(block)
    ensures Classify(block[i]).Comment? ==> Comments(block[..i]) + [Classify(block[i]).text] <= Comments(block)
  {
    hide Classify;
    var init := block[..|block| - 1];
    if i == |block| - 1 {
      assert block[..i] == init;
    } else {
      CollectedInOrder(init, i);
      assert init[..i] == block[..i];
    }
  }

  /** Nothing else is collected, and the last event line names the event. */
  lemma {:induction false} CollectedOnly(block: seq<string>, k: nat)
    requires k <= |block|
    ensures (forall i :: k <= i < |block| ==> !(Classify(block[i]).Field? && Classify(block[i]).name == "data")) ==>
              DataValues(block) == DataValues(block[..k])
    ensures (forall i :: k <= i < |block| ==> !Classify(block[i]).Comment?) ==> Comments(block) == Comments(block[..k])
    ensures (forall i :: k <= i < |block| ==> !(Classify(block[i]).Field? && Classify(block[i]).name == "event")) ==>
              EventName(block) == EventName(block[..k])
    ensures k > 0 && Classify(block[k - 1]).Field? && Classify(block[k - 1]).name == "event" ==>
              EventName(block[..k]) == Classify(block[k - 1]).value
    ensures DataValues([]) == [] && Comments([]) == [] && EventName([]) == ""
  {
    hide Classify;
    if k < |block| {
      var init := block[..|block| - 1];
      CollectedOnly(init, k);
      assert init[..k] == block[..k];
      assert forall i :: k <= i < |init| ==> init[i] == block[i];
    } else {
      assert block[..k] == block;
    }
  }

  // ----- the table of answers -----

  /** The id that a text under the special event name stands for: what it decodes to as a JSON string,
      or else the text without quotes around it, unless that says [DONE]. */
  ghost predicate Names(codec: Codec, text: string, id: string) {
    && text != "" && id != ""
    && (if codec.str(text).Some? && codec.str(text).value != "" then id == codec.str(text).value
        else id != "[DONE]" && Unquoted(text, id))
  }

  predicate AllQuotes(s: string) { forall i :: 0 <= i < |s| ==> s[i] == '"' }

  /** `t` is what is left of `s` without the quotes at either end. */
  ghost predicate Unquoted(s: string, t: string) {
    && (t == "" || (t[0] != '"' && t[|t| - 1] != '"'))
    && exists a, b :: AllQuotes(a) && AllQuotes(b) && s == a + t + b
  }

  lemma {:induction false} UnquoteLeft(s: string) returns (a: string)
    ensures AllQuotes(a) && s == a + TrimQuotesLeft(s)
    ensures TrimQuotesLeft(s) == "" || TrimQuotesLeft(s)[0] != '"'
  {
    if s != "" && s[0] == '"' {
      a := UnquoteLeft(s[1..]);
      a := [s[0]] + a;
    } else {
      a := "";
    }
  }

  lemma {:induction false} UnquoteRight(s: string) returns (b: string)
    ensures AllQuotes(b) && s == TrimQuotesRight(s) + b
    ensures TrimQuotesRight(s) == "" || TrimQuotesRight(s)[|TrimQuotesRight(s)| - 1] != '"'
  {
    if s != "" && s[|s| - 1] == '"' {
      b := UnquoteRight(s[..|s| - 1]);
      b := b + [s[|s| - 1]];
    } else {
      b := "";
    }
  }

  lemma {:induction false} UnquoteUnique(a: string, t: string, b: string)
    requires AllQuotes(a) && AllQuotes(b) && t != "" && t[0] != '"' && t[|t| - 1] != '"'
    ensures TrimQuotesLeft(a + t + b) == t + b && TrimQuotesRight(t + b) == t
    decreases |a| + |b|
  {
    if a != "" {
      assert (a + t + b)[1..] == a[1..] + t + b;
      UnquoteUnique(a[1..], t, b);
    } else {
      assert a + t + b == t + b;
      if b != "" {
        assert (t + b)[..|t + b| - 1] == t + b[..|b| - 1];
        UnquoteUnique(a, t, b[..|b| - 1]);
      } else {
        assert t + b == t;
      }
    }
  }

  lemma UnquotedExact(s: string, t: string)
    requires t != ""
    ensures Unquoted(s, t) <==> TrimQuotesRight(TrimQuotesLeft(s)) == t
  {
    hide TrimQuotesLeft, TrimQuotesRight;
    if Unquoted(s, t) {
      var a, b :| AllQuotes(a) && AllQuotes(b) && s == a + t + b;
      UnquoteUnique(a, t, b);
    }
    if TrimQuotesRight(TrimQuotesLeft(s)) == t {
      var a := UnquoteLeft(s);
      var b := UnquoteRight(TrimQuotesLeft(s));
      assert s == a + t + b;
      assert TrimQuotesLeft(s)[0] == t[0];
    }
  }

  lemma NamesExact(codec: Codec, text: string, id: string)
    requires id != ""
    ensures Names(codec, text, id) <==> NamedId(codec, text) == id
  {
    hide TrimQuotesLeft, TrimQuotesRight, Unquoted;
    UnquotedExact(text, id);
  }

  /** The block says [DONE]. */
  predicate SaysDone(data: string, comment: string) { data == "[DONE]" || comment == "[DONE]" }

  /** The block names the worker `id`: first by the special event, then at the root of a JSON object,
      then under its annotations. */
  ghost predicate NamesWorker(codec: Codec, event: string, data: string, comment: string, id: string) {
    var byEvent := (x: string) => event == "worker_instance_id" && Names(codec, if data != "" then data else comment, x);
    var doc := if data != "" then codec.obj(data) else None;
    && id != ""
    && (|| byEvent(id)
        || (&& (forall x :: !byEvent(x)) && doc.Some?
            && (if doc.value.rootId.Some? && doc.value.rootId.value != "" then doc.value.rootId == Some(id)
                else doc.value.annotationId == Some(id))))
  }

  lemma VerdictTable(codec: Codec, event: string, data: string, comment: string, id: string)
    ensures Judge(codec, event, data, comment).Done? <==> SaysDone(data, comment)
    ensures id != "" ==>
              (Judge(codec, event, data, comment) == Worker(id) <==>
               !SaysDone(data, comment) && NamesWorker(codec, event, data, comment, id))
    ensures Judge(codec, event, data, comment).Worker? ==> Judge(codec, event, data, comment).id != ""
  {
    hide Names, NamedId;
    var text := if data != "" then data else comment;
    forall x | x != "" ensures Names(codec, text, x) <==> NamedId(codec, text) == x { NamesExact(codec, text, x); }
    NoEmptyName(codec, text);
  }

  lemma NoEmptyName(codec: Codec, text: string)
    ensures !Names(codec, text, "")
  {
  }

  /** What a stream answers that begins with a given block: done if the block says so, the worker it
      names if it names one, and else whatever the rest of the stream answers. */
  lemma {:induction false} BlockTable(codec: Codec, block: seq<string>, rest: string, end: End, id: string)
    requires PlainLines(block)
    ensures var event, data, comment := EventName(block), TrimSpace(Join(DataValues(block), '\n')), TrimSpace(Join(Comments(block), '\n'));
            var result := Result(codec, BlockText(block) + rest, end);
            && (SaysDone(data, comment) ==> result == DoneFirst)
            && (!SaysDone(data, comment) && NamesWorker(codec, event, data, comment, id) ==> result == Found(id))
            && (!SaysDone(data, comment) && (forall x :: !NamesWorker(codec, event, data, comment, x)) ==>
                  result == Result(codec, rest, end))
  {
    hide Result, Judge, NamesWorker, SaysDone, EventName, DataValues, Comments, TrimSpace, Join, BlockText;
    var event, data, comment := EventName(block), TrimSpace(Join(DataValues(block), '\n')), TrimSpace(Join(Comments(block), '\n'));
    BlockDecides(codec, block, rest, end);
    VerdictTable(codec, event, data, comment, id);
    WorkerHasId(codec, event, data, comment, id);
    var v := Judge(codec, event, data, comment);
    if v.Worker? { VerdictTable(codec, event, data, comment, v.id); }
  }

  lemma WorkerHasId(codec: Codec, event: string, data: string, comment: string, id: string)
    ensures NamesWorker(codec, event, data, comment, id) ==> id != ""
  {
  }

  // ----- the documented forms -----

  /** A text that fills a line by itself and is not the end marker. */
  predicate PlainText(q: string) { q != "" && Trimmed(q) && '\n' !in q && q != "[DONE]" }

  lemma LineOf(name: string, q: string)
    requires ':' !in name && '\n' !in name && q != "" && Trimmed(q) && '\n' !in q
    ensures PlainLine(name + ": " + q)
    ensures Classify(name + ": " + q) == if name == "" then Comment(q) else Field(name, q)
  {
    hide TrimSpace, Classify;
    assert name + ": " + q == name + ":" + (" " + q);
    LineExact(name, " " + q);
    TrimPadded(" ", q, "");
    assert " " + q + "" == " " + q;
    assert (name + ": " + q)[|name + ": " + q| - 1] == q[|q| - 1];
  }

  lemma TrimsToItself(q: string)
    requires Trimmed(q)
    ensures TrimSpace(Join([q], '\n')) == q && TrimSpace(Join([], '\n')) == ""
  {
    hide TrimSpace;
    TrimPadded("", q, "");
    assert "" + q + "" == q;
    TrimPadded("", "", "");
    assert "" + "" + "" == "" && Join([], '\n') == "";
  }

  lemma TwoLines(l1: string, l2: string)
    ensures var c1, c2 := Classify(l1), Classify(l2);
            && DataValues([l1, l2]) == (if c1.Field? && c1.name == "data" then [c1.value] else [])
                                       + (if c2.Field? && c2.name == "data" then [c2.value] else [])
            && Comments([l1, l2]) == (if c1.Comment? then [c1.text] else []) + (if c2.Comment? then [c2.text] else [])
            && EventName([l1, l2]) == if c2.Field? && c2.name == "event" then c2.value
                                      else if c1.Field? && c1.name == "event" then c1.value else ""
  {
    hide Classify, DataValues, Comments, EventName;
    OneLine(l1);
    BlockGrows([l1], l2);
    assert [l1] + [l2] == [l1, l2];
  }

  const EVENT_LINE := "event: worker_instance_id"

  lemma EventLine()
    ensures PlainLine(EVENT_LINE) && Classify(EVENT_LINE) == Field("event", "worker_instance_id")
  {
    var e, w := "event", "worker_instance_id";
    assert EVENT_LINE == e + ": " + w;
    LineOf(e, w);
  }

  lemma TextOfTwo(l1: string, l2: string, rest: string)
    ensures BlockText([l1, l2]) + rest == l1 + "\n" + l2 + "\n\n" + rest
  {
    assert [l1, l2][1..] == [l2] && [l2][1..] == [];
    assert BlockText([l2]) == l2 + "\n" + "\n";
    assert l1 + "\n" + (l2 + "\n" + "\n") + rest == l1 + "\n" + l2 + "\n\n" + rest;
  }

  lemma TextOfOne(l: string, rest: string)
    ensures BlockText([l]) + rest == l + "\n\n" + rest
  {
    assert [l][1..] == [];
    assert l + "\n" + "\n" + rest == l + "\n\n" + rest;
  }

  lemma SpecialBlock(codec: Codec, l: string, q: string, id: string, rest: string, end: End)
    requires PlainText(q) && Names(codec, q, id)
    requires PlainLine(l) && (Classify(l) == Comment(q) || Classify(l) == Field("data", q))
    ensures Result(codec, EVENT_LINE + "\n" + l + "\n\n" + rest, end) == Found(id)
  {
    hide Result, Classify, Names, NamesWorker, DataValues, Comments, EventName, BlockText, TrimSpace, Join;
    EventLine();
    TrimsToItself(q);
    TwoLines(EVENT_LINE, l);
    BlockTable(codec, [EVENT_LINE, l], rest, end, id);
    TextOfTwo(EVENT_LINE, l, rest);
    NamesById(codec, q, id);
    assert [] + [q] == [q];
  }

  /** The worker id on the comment line or on the data line of the special event, as a JSON string or
      plain, whatever follows. */
  lemma {:induction false} SpecialEvent(codec: Codec, q: string, id: string, rest: string, end: End)
    requires PlainText(q) && Names(codec, q, id)
    ensures Result(codec, "event: worker_instance_id\n: " + q + "\n\n" + rest, end) == Found(id)
    ensures Result(codec, "event: worker_instance_id\ndata: " + q + "\n\n" + rest, end) == Found(id)
  {
    hide Result, Classify, Names;
    var comment, data := "" + ": " + q, "data" + ": " + q;
    LineOf("", q);
    LineOf("data", q);
    SpecialBlock(codec, comment, q, id, rest, end);
    SpecialBlock(codec, data, q, id, rest, end);
    assert EVENT_LINE + "\n" + comment + "\n\n" + rest == "event: worker_instance_id\n: " + q + "\n\n" + rest;
    assert EVENT_LINE + "\n" + data + "\n\n" + rest == "event: worker_instance_id\ndata: " + q + "\n\n" + rest;
  }

  lemma NamesById(codec: Codec, q: string, id: string)
    requires q != "" && Names(codec, q, id)
    ensures NamesWorker(codec, "worker_instance_id", "", q, id) && NamesWorker(codec, "worker_instance_id", q, "", id)
  {
  }

  /** The worker id in a JSON object, at its root or else under its annotations, whatever follows. */
  lemma {:induction false} JsonObject(codec: Codec, q: string, id: string, rest: string, end: End)
    requires PlainText(q) && codec.obj(q).Some? && id != ""
    requires var p := codec.obj(q).value;
             p.rootId == Some(id) || ((p.rootId.None? || p.rootId.value == "") && p.annotationId == Some(id))
    ensures Result(codec, "data: " + q + "\n\n" + rest, end) == Found(id)
  {
    hide Result, Classify, DataValues, Comments, EventName, BlockText, TrimSpace, Join;
    var data := "data" + ": " + q;
    TrimsToItself(q);
    LineOf("data", q);
    OneLine(data);
    BlockTable(codec, [data], rest, end, id);
    TextOfOne(data, rest);
    assert data + "\n\n" + rest == "data: " + q + "\n\n" + rest;
  }

  lemma OneLine(l: string)
    ensures var c := Classify(l);
            && DataValues([l]) == (if c.Field? && c.name == "data" then [c.value] else [])
            && Comments([l]) == (if c.Comment? then [c.text] else [])
            && EventName([l]) == if c.Field? && c.name == "event" then c.value else ""
  {
    hide Classify;
    assert [l][..0] == [];
  }

  /** The end marker, on a data line or in a comment, ends the search whatever follows. */
  lemma {:induction false} DoneMarker(codec: Codec, rest: string, end: End)
    ensures Result(codec, "data: [DONE]\n\n" + rest, end) == DoneFirst
    ensures Result(codec, ": [DONE]\n\n" + rest, end) == DoneFirst
  {
    hide Result, Classify, DataValues, Comments, EventName, BlockText, TrimSpace, Join, NamesWorker;
    var q := "[DONE]";
    var data, comment := "data" + ": " + q, "" + ": " + q;
    TrimsToItself(q);
    LineOf("data", q);
    LineOf("", q);
    OneLine(data);
    OneLine(comment);
    BlockTable(codec, [data], rest, end, "");
    BlockTable(codec, [comment], rest, end, "");
    TextOfOne(data, rest);
    TextOfOne(comment, rest);
    assert data + "\n\n" + rest == "data: [DONE]\n\n" + rest;
    assert comment + "\n\n" + rest == ": [DONE]\n\n" + rest;
  }

  // ----- line ends and the end of the stream -----

  /** A line may end in a carriage return and a line feed, too. */
  lemma {:induction false} CarriageReturns(l: string, rest: string)
    requires '\n' !in l
    ensures Lines(l + "\r\n" + rest) == Lines(l + "\n" + rest)
  {
    hide Lines, Chomp;
    var l' := l + "\r";
    assert l + "\r\n" + rest == l' + "\n" + rest;
    LinesStep(l', rest);
    LinesStep(l, rest);
    ChompTwo(l);
  }

  lemma ChompTwo(l: string)
    ensures Chomp(l + "\r" + "\n") == Chomp(l) && Chomp(l + "\n") == Chomp(l)
  {
    assert (l + "\r" + "\n")[..|l| + 1] == l + "\r" && (l + "\r")[..|l|] == l && (l + "\n")[..|l|] == l;
    assert Chomp(l + "\r" + "\n") == Chomp(l + "\r");
  }

  /** Lines without the blank line that would end their block. */
  function OpenText(block: seq<string>): string {
    if block == [] then "" else block[0] + "\n" + OpenText(block[1..])
  }

  lemma {:induction false} OpenLines(block: seq<string>)
    requires PlainLines(block)
    ensures Lines(OpenText(block)) == block
  {
    hide Lines, Chomp;
    if block == [] {
      NoLines();
    } else {
      LinesStep(block[0], OpenText(block[1..]));
      ChompLine(block[0]);
      OpenLines(block[1..]);
    }
  }

  lemma OpenDecides(codec: Codec, block: seq<string>, end: End)
    requires PlainLines(block)
    ensures Result(codec, OpenText(block), end) ==
            if end.Broken? then ReadError
            else match BlockVerdict(codec, block)
                 case Worker(id) => Found(id)
                 case Done => DoneFirst
                 case Nothing => NotFound
  {
    hide Lines, Blocks, OpenText, BlockVerdict;
    OpenLines(block);
    BlockEnds(block);
  }

  /** The block that the end of the stream cuts off counts if the stream ends normally, and a read error
      is reported otherwise. */
  lemma {:induction false} LastBlock(codec: Codec, block: seq<string>, id: string)
    requires PlainLines(block)
    ensures Result(codec, OpenText(block), Broken) == ReadError
    ensures var event, data, comment := EventName(block), TrimSpace(Join(DataValues(block), '\n')), TrimSpace(Join(Comments(block), '\n'));
            var result := Result(codec, OpenText(block), Eof);
            && (SaysDone(data, comment) ==> result == DoneFirst)
            && (!SaysDone(data, comment) && NamesWorker(codec, event, data, comment, id) ==> result == Found(id))
            && (!SaysDone(data, comment) && (forall x :: !NamesWorker(codec, event, data, comment, x)) ==> result == NotFound)
  {
    hide Result, Judge, NamesWorker, SaysDone, EventName, DataValues, Comments, TrimSpace, Join, OpenText;
    var event, data, comment := EventName(block), TrimSpace(Join(DataValues(block), '\n')), TrimSpace(Join(Comments(block), '\n'));
    OpenDecides(codec, block, Broken);
    OpenDecides(codec, block, Eof);
    VerdictTable(codec, event, data, comment, id);
    WorkerHasId(codec, event, data, comment, id);
    var v := Judge(codec, event, data, comment);
    if v.Worker? { VerdictTable(codec, event, data, comment, v.id); }
  }
}
