/**
 Parsing of metric specifications such as `name{label1=value1,label2=value2}`, and the grammar
 it accepts.
 */
module MetricSpec {
  import opened Text

  datatype Spec = Spec(name: string, labels: map<string, string>)

  datatype Error = MalformedBlock | InvalidPair | EmptyLabel | TrailingText | EmptyName

  /** The empty string stands for a metric that is not configured. */
  datatype Result = NoSpec | Parsed(spec: Spec) | Failed(error: Error)

  datatype Labels = Ok(labels: map<string, string>) | Bad(error: Error)

  function AddPair(pair: string, labels: map<string, string>): Labels {
    var parts := Split(TrimSpace(pair), '=');
    if |parts| != 2 then Bad(InvalidPair)
    else
      var name, value := TrimSpace(parts[0]), TrimSpace(parts[1]);
      if name == "" || value == "" then Bad(EmptyLabel) else Ok(labels[name := value])
  }

  function AddPairs(pairs: seq<string>, labels: map<string, string>): Labels
    decreases |pairs|
  {
    if pairs == [] then Ok(labels)
    else
      var next := AddPair(pairs[0], labels);
      if next.Bad? then next else AddPairs(pairs[1..], next.labels)
  }

  /** The label block between the braces, and what must hold around it. */
  function ParseBlock(name: string, block: string, last: bool): Result {
    var labels := AddPairs(Split(block, ','), map[]);
    if labels.Bad? then Failed(labels.error)
    else if !last then Failed(TrailingText)
    else if name == "" then Failed(EmptyName)
    else Parsed(Spec(name, labels.labels))
  }

  function ParseTrimmed(s: string): Result {
    var start, end := Index(s, '{'), Index(s, '}');
    if start == -1 && end == -1 then (if s == "" then Failed(EmptyName) else Parsed(Spec(s, map[])))
    else if start == -1 || end == -1 || end <= start + 1 then Failed(MalformedBlock)
    else ParseBlock(TrimSpace(s[..start]), s[start + 1..end], end == |s| - 1)
  }

  function Parse(specStr: string): Result {
    if specStr == "" then NoSpec else ParseTrimmed(TrimSpace(specStr))
  }

  method StringToMetricSpec(specStr: string) returns (result: Result)
    ensures result == Parse(specStr)
  {
    hide TrimSpace, Split, Index;
    if specStr == "" { return NoSpec; }
    var s := TrimSpace(specStr);
    var metricName := s;
    var labels: map<string, string> := map[];
    var start, end := Index(s, '{'), Index(s, '}');
    if start != -1 || end != -1 {
      if start == -1 || end == -1 || end <= start + 1 { return Failed(MalformedBlock); }
      metricName := TrimSpace(s[..start]);
      var pairs := Split(s[start + 1..end], ',');
      for i := 0 to |pairs|
        invariant AddPairs(pairs, map[]) == AddPairs(pairs[i..], labels)
      {
        assert pairs[i..][1..] == pairs[i + 1..];
        var parts := Split(TrimSpace(pairs[i]), '=');
        if |parts| != 2 { return Failed(InvalidPair); }
        var labelName, labelValue := TrimSpace(parts[0]), TrimSpace(parts[1]);
        if labelName == "" || labelValue == "" { return Failed(EmptyLabel); }
        labels := labels[labelName := labelValue];
      }
      if end != |s| - 1 { return Failed(TrailingText); }
    }
    if metricName == "" { return Failed(EmptyName); }
    return Parsed(Spec(metricName, labels));
  }

  // ----- the grammar -----

  /** A label pair with the white space around its name and value. */
  datatype Label = Label(before: string, name: string, mid: string, mid': string, value: string, after: string)

  datatype Form =
    | Bare(lead: string, name: string, trail: string)
    | Labelled(lead: string, name: string, mid: string, labels: seq<Label>, trail: string)

  function LabelText(l: Label): string { l.before + l.name + l.mid + "=" + l.mid' + l.value + l.after }

  function Texts(labels: seq<Label>): seq<string> {
    if labels == [] then [] else [LabelText(labels[0])] + Texts(labels[1..])
  }

  function FormText(f: Form): string {
    match f
    case Bare(lead, name, trail) => lead + name + trail
    case Labelled(lead, name, mid, labels, trail) => lead + name + mid + "{" + Join(Texts(labels), ',') + "}" + trail
  }

  /** Later labels override earlier ones of the same name. */
  function AddLabels(ls: seq<Label>, m: map<string, string>): map<string, string>
    decreases |ls|
  {
    if ls == [] then m else AddLabels(ls[1..], m[ls[0].name := ls[0].value])
  }

  function Meaning(f: Form): Spec {
    match f
    case Bare(_, name, _) => Spec(name, map[])
    case Labelled(_, name, _, labels, _) => Spec(name, AddLabels(labels, map[]))
  }

  predicate GoodName(name: string) { name != "" && Trimmed(name) && '{' !in name && '}' !in name }

  predicate GoodWord(w: string) { w != "" && Trimmed(w) && ',' !in w && '=' !in w && '}' !in w }

  predicate GoodLabel(l: Label) {
    && GoodWord(l.name) && GoodWord(l.value)
    && AllSpace(l.before) && AllSpace(l.mid) && AllSpace(l.mid') && AllSpace(l.after)
  }

  predicate GoodLabels(ls: seq<Label>) { forall i :: 0 <= i < |ls| ==> GoodLabel(ls[i]) }

  predicate WellFormed(f: Form) {
    && GoodName(f.name) && AllSpace(f.lead) && AllSpace(f.trail)
    && (f.Labelled? ==> AllSpace(f.mid) && f.labels != [] && GoodLabels(f.labels))
  }

  // ----- everything of the grammar is accepted, with its meaning -----

  lemma SpaceIsNoMark(s: string, c: char)
    requires AllSpace(s) && c in "{},="
    ensures c !in s
  {
  }

  lemma LabelTextClean(l: Label, c: char)
    requires GoodLabel(l) && (c == ',' || c == '}')
    ensures c !in LabelText(l)
  {
    SpaceIsNoMark(l.before, c);
    SpaceIsNoMark(l.mid, c);
    SpaceIsNoMark(l.mid', c);
    SpaceIsNoMark(l.after, c);
  }

  lemma PairParses(l: Label, labels: map<string, string>)
    requires GoodLabel(l)
    ensures AddPair(LabelText(l), labels) == Ok(labels[l.name := l.value])
  {
    hide TrimSpace, Split, Join, GoodWord, AllSpace, Trimmed;
    var left, right := l.name + l.mid, l.mid' + l.value;
    PairText(l);
    PairSplit(left, right);
    assert left == "" + l.name + l.mid && right == l.mid' + l.value + "";
    WordTrims(l);
  }

  lemma PairText(l: Label)
    requires GoodLabel(l)
    ensures TrimSpace(LabelText(l)) == l.name + l.mid + "=" + (l.mid' + l.value)
    ensures '=' !in l.name + l.mid && '=' !in l.mid' + l.value
  {
    hide TrimSpace;
    var core := l.name + l.mid + "=" + (l.mid' + l.value);
    assert LabelText(l) == l.before + core + l.after;
    assert core[0] == l.name[0] && core[|core| - 1] == l.value[|l.value| - 1];
    TrimPadded(l.before, core, l.after);
    SpaceIsNoMark(l.mid, '=');
    SpaceIsNoMark(l.mid', '=');
  }

  lemma PairSplit(left: string, right: string)
    requires '=' !in left && '=' !in right
    ensures Split(left + "=" + right, '=') == [left, right]
  {
    hide Split;
    assert [left, right][1..] == [right];
    assert Join([left, right], '=') == left + "=" + right;
    SplitJoin([left, right], '=');
  }

  lemma WordTrims(l: Label)
    requires GoodLabel(l)
    ensures TrimSpace("" + l.name + l.mid) == l.name && l.name != ""
    ensures TrimSpace(l.mid' + l.value + "") == l.value && l.value != ""
  {
    hide TrimSpace;
    TrimPadded("", l.name, l.mid);
    TrimPadded(l.mid', l.value, "");
  }

  lemma {:induction false} PairsParse(ls: seq<Label>, m: map<string, string>)
    requires GoodLabels(ls)
    ensures AddPairs(Texts(ls), m) == Ok(AddLabels(ls, m))
    decreases |ls|
  {
    if ls != [] {
      PairParses(ls[0], m);
      PairsParse(ls[1..], m[ls[0].name := ls[0].value]);
      assert Texts(ls)[1..] == Texts(ls[1..]);
    }
  }

  lemma {:induction false} TextsClean(ls: seq<Label>, c: char)
    requires GoodLabels(ls) && (c == ',' || c == '}')
    ensures AllWithout(Texts(ls), c) && |Texts(ls)| == |ls|
  {
    if ls != [] {
      LabelTextClean(ls[0], c);
      TextsClean(ls[1..], c);
    }
  }

  lemma BodyClean(ls: seq<Label>)
    requires ls != [] && GoodLabels(ls)
    ensures '}' !in Join(Texts(ls), ',') && Split(Join(Texts(ls), ','), ',') == Texts(ls)
    ensures Join(Texts(ls), ',') != ""
  {
    TextsClean(ls, ',');
    TextsClean(ls, '}');
    JoinWithout(Texts(ls), ',', '}');
    SplitJoin(Texts(ls), ',');
    assert |LabelText(ls[0])| > 0 && Texts(ls)[0] == LabelText(ls[0]);
  }

  function Block(name: string, mid: string, body: string): string { name + mid + "{" + body + "}" }

  lemma BlockBraces(head: string, body: string)
    requires '{' !in head && '}' !in head && '}' !in body
    ensures var s := head + "{" + body + "}"; Index(s, '{') == |head| && Index(s, '}') == |head| + 1 + |body|
  {
    hide Index;
    var s := head + "{" + body + "}";
    assert s == head + ['{'] + (body + "}");
    IndexAt(head, '{', body + "}");
    assert s == (head + "{" + body) + ['}'] + "";
    IndexAt(head + "{" + body, '}', "");
  }

  /** How the parser takes a labelled spec apart. */
  lemma BlockParses(name: string, mid: string, body: string)
    requires GoodName(name) && AllSpace(mid) && '}' !in body && body != ""
    ensures ParseTrimmed(Block(name, mid, body)) == ParseBlock(name, body, true)
  {
    hide Index, TrimSpace, ParseBlock;
    var s, head := Block(name, mid, body), name + mid;
    SpaceIsNoMark(mid, '{');
    SpaceIsNoMark(mid, '}');
    BlockBraces(head, body);
    assert s[..|head|] == "" + name + mid;
    TrimPadded("", name, mid);
    assert s[|head| + 1..|head| + 1 + |body|] == body;
  }

  lemma PaddingIgnored(lead: string, s: string, trail: string)
    requires AllSpace(lead) && AllSpace(trail) && Trimmed(s) && s != ""
    ensures Parse(lead + s + trail) == ParseTrimmed(s)
  {
    hide TrimSpace, ParseTrimmed;
    TrimPadded(lead, s, trail);
  }

  lemma BareParses(name: string)
    requires GoodName(name)
    ensures ParseTrimmed(name) == Parsed(Spec(name, map[]))
  {
    hide Index, ParseBlock, TrimSpace;
  }

  lemma LabelsParse(name: string, ls: seq<Label>)
    requires name != "" && ls != [] && GoodLabels(ls)
    ensures ParseBlock(name, Join(Texts(ls), ','), true) == Parsed(Spec(name, AddLabels(ls, map[])))
  {
    hide Split, Join, Texts, AddPairs, AddLabels, GoodLabels;
    BodyClean(ls);
    PairsParse(ls, map[]);
  }

  /** Every text of the grammar parses to its meaning, whatever white space surrounds its parts. */
  lemma {:induction false} ParseComplete(f: Form)
    requires WellFormed(f)
    ensures Parse(FormText(f)) == Parsed(Meaning(f))
  {
    hide Parse, ParseTrimmed, ParseBlock, Join, Texts, AddLabels, GoodLabels, AllSpace;
    match f
    case Bare(lead, name, trail) =>
      PaddingIgnored(lead, name, trail);
      BareParses(name);
    case Labelled(lead, name, mid, labels, trail) =>
      var body := Join(Texts(labels), ',');
      var s := Block(name, mid, body);
      BodyClean(labels);
      BlockParses(name, mid, body);
      LabelsParse(name, labels);
      assert s[0] == name[0] && s[|s| - 1] == '}';
      assert FormText(f) == lead + s + trail;
      PaddingIgnored(lead, s, trail);
  }

  // ----- whatever is accepted is of the grammar -----

  lemma SubWithout(a: string, w: string, b: string, c: char)
    requires c !in a + w + b
    ensures c !in w
  {
    assert forall i :: 0 <= i < |w| ==> w[i] == (a + w + b)[|a| + i];
  }

  /** The two sides of the one `=` of an accepted pair. */
  lemma PairSides(core: string) returns (left: string, right: string)
    requires |Split(core, '=')| == 2
    ensures Split(core, '=') == [left, right] && core == left + "=" + right
    ensures '=' !in left && '=' !in right
  {
    JoinSplit(core, '=');
    left, right := Split(core, '=')[0], Split(core, '=')[1];
    assert Split(core, '=')[1..] == [right];
  }

  lemma WordSound(side: string, c: char) returns (a: string, b: string)
    ensures AllSpace(a) && AllSpace(b) && side == a + TrimSpace(side) + b && Trimmed(TrimSpace(side))
    ensures c !in side ==> c !in TrimSpace(side)
  {
    a, b := TrimParts(side);
    if c !in side { SubWithout(a, TrimSpace(side), b, c); }
  }

  lemma PairSound(pair: string, labels: map<string, string>) returns (l: Label)
    requires AddPair(pair, labels).Ok? && ',' !in pair && '}' !in pair
    ensures GoodLabel(l) && LabelText(l) == pair && AddPair(pair, labels) == Ok(labels[l.name := l.value])
  {
    hide TrimSpace, Split, AllSpace, GoodLabel, Trimmed;
    var core := TrimSpace(pair);
    var a, b := TrimParts(pair);
    SubWithout(a, core, b, ',');
    SubWithout(a, core, b, '}');
    var left, right := PairSides(core);
    assert core == "" + left + ("=" + right) && core == left + "=" + right + "";
    l := SidesLabel(a, left, right, b);
    assert LabelText(l) == a + core + b;
  }

  lemma SidesLabel(a: string, left: string, right: string, b: string) returns (l: Label)
    requires AllSpace(a) && AllSpace(b) && '=' !in left && '=' !in right
    requires ',' !in left + "=" + right && '}' !in left + "=" + right
    requires TrimSpace(left) != "" && TrimSpace(right) != ""
    ensures GoodLabel(l) && l.name == TrimSpace(left) && l.value == TrimSpace(right)
    ensures LabelText(l) == a + left + "=" + right + b
  {
    var n0, n1 := WordSound(left, '=');
    var v0, v1 := WordSound(right, '=');
    var _, _ := WordSound(left, ',');
    var _, _ := WordSound(right, ',');
    var _, _ := WordSound(left, '}');
    var _, _ := WordSound(right, '}');
    l := Label(a + n0, TrimSpace(left), n1, v0, TrimSpace(right), v1 + b);
    assert LabelText(l) == a + (n0 + l.name + n1) + "=" + (v0 + l.value + v1) + b;
  }

  lemma {:induction false} PairsSound(pairs: seq<string>, m: map<string, string>) returns (ls: seq<Label>)
    requires AddPairs(pairs, m).Ok? && AllWithout(pairs, ',') && AllWithout(pairs, '}')
    ensures GoodLabels(ls) && Texts(ls) == pairs && AddPairs(pairs, m) == Ok(AddLabels(ls, m))
    decreases |pairs|
  {
    ls := [];
    if pairs != [] {
      var l := PairSound(pairs[0], m);
      var rest := PairsSound(pairs[1..], m[l.name := l.value]);
      ls := [l] + rest;
      assert ls[1..] == rest;
    }
  }

  lemma BareSound(s: string)
    requires ParseTrimmed(s).Parsed? && Trimmed(s) && Index(s, '{') == -1
    ensures GoodName(s) && ParseTrimmed(s) == Parsed(Spec(s, map[]))
  {
    hide Index, ParseBlock, TrimSpace;
  }

  /** The accepted strings are exactly the texts of the grammar (and the empty string). */
  lemma {:induction false} ParseSound(specStr: string) returns (f: Form)
    requires Parse(specStr).Parsed?
    ensures WellFormed(f) && FormText(f) == specStr && Meaning(f) == Parse(specStr).spec
  {
    hide ParseTrimmed, TrimSpace, Index, AddLabels, GoodLabels, Texts, Join, GoodName, Trimmed, AllSpace, Block;
    var s := TrimSpace(specStr);
    var a, b := TrimParts(specStr);
    if Index(s, '{') == -1 {
      BareSound(s);
      f := Bare(a, s, b);
    } else {
      var n0, name, n1, ls := BlockSound(s);
      f := Labelled(a + n0, name, n1, ls, b);
      SpaceConcat(a, n0);
      LabelledText(a, n0, name, n1, ls, b);
    }
  }

  lemma SpaceConcat(a: string, b: string)
    requires AllSpace(a) && AllSpace(b)
    ensures AllSpace(a + b)
  {
    hide IsSpace;
  }

  lemma LabelledText(a: string, n0: string, name: string, n1: string, ls: seq<Label>, b: string)
    ensures FormText(Labelled(a + n0, name, n1, ls, b)) == a + (n0 + Block(name, n1, Join(Texts(ls), ','))) + b
  {
    hide Join, Texts;
    var body := Join(Texts(ls), ',');
    assert a + n0 + name + n1 + "{" + body + "}" + b == a + (n0 + (name + n1 + "{" + body + "}")) + b;
  }

  lemma BlockSides(s: string) returns (head: string, body: string)
    requires ParseTrimmed(s).Parsed? && Index(s, '{') != -1
    ensures s == head + "{" + body + "}" && '{' !in head && '}' !in head && '}' !in body
    ensures ParseTrimmed(s) == ParseBlock(TrimSpace(head), body, true)
  {
    hide Index, TrimSpace, ParseBlock;
    var start, end := Index(s, '{'), Index(s, '}');
    head, body := s[..start], s[start + 1..end];
    assert ParseTrimmed(s) == ParseBlock(TrimSpace(head), body, end == |s| - 1);
    assert end == |s| - 1 by { NotLast(TrimSpace(head), body); }
    assert s[..end] == "" + head + ("{" + body) && s[..end] == (head + "{") + body + "";
    SubWithout("", head, "{" + body, '}');
    SubWithout(head + "{", body, "", '}');
    assert s == head + "{" + body + "}";
  }

  lemma NotLast(name: string, body: string)
    ensures !ParseBlock(name, body, false).Parsed?
  {
    hide Split, AddPairs;
  }

  lemma BlockSound(s: string) returns (n0: string, name: string, n1: string, ls: seq<Label>)
    requires ParseTrimmed(s).Parsed? && Index(s, '{') != -1
    ensures AllSpace(n0) && GoodName(name) && AllSpace(n1) && ls != [] && GoodLabels(ls)
    ensures s == n0 + Block(name, n1, Join(Texts(ls), ','))
    ensures ParseTrimmed(s) == Parsed(Spec(name, AddLabels(ls, map[])))
  {
    hide ParseTrimmed, TrimSpace, Split, Join, AddPairs, AddLabels, AllSpace, Trimmed, GoodLabels;
    var head, body := BlockSides(s);
    name := TrimSpace(head);
    n0, n1 := WordSound(head, '{');
    var _, _ := WordSound(head, '}');
    JoinSplit(body, ',');
    PartsWithin(body, ',', '}');
    ls := PairsSound(Split(body, ','), map[]);
    assert s == n0 + name + n1 + "{" + body + "}";
  }

  // ----- rewriting a parsed spec and parsing it again -----

  predicate GoodSpec(spec: Spec) {
    GoodName(spec.name) && forall k :: k in spec.labels ==> GoodWord(k) && GoodWord(spec.labels[k])
  }

  lemma {:induction false} AddLabelsGood(ls: seq<Label>, m: map<string, string>)
    requires GoodLabels(ls) && forall k :: k in m ==> GoodWord(k) && GoodWord(m[k])
    ensures forall k :: k in AddLabels(ls, m) ==> GoodWord(k) && GoodWord(AddLabels(ls, m)[k])
    decreases |ls|
  {
    if ls != [] {
      assert GoodLabel(ls[0]);
      AddLabelsGood(ls[1..], m[ls[0].name := ls[0].value]);
    }
  }

  /** What a successful parse can yield: trimmed, non-empty, unambiguous parts. */
  lemma {:induction false} ParsedIsGood(specStr: string)
    requires Parse(specStr).Parsed?
    ensures GoodSpec(Parse(specStr).spec)
  {
    var f := ParseSound(specStr);
    if f.Labelled? { AddLabelsGood(f.labels, map[]); }
  }

  function PlainLabels(labels: map<string, string>, keys: seq<string>): seq<Label>
    requires forall k :: k in keys ==> k in labels
  {
    if keys == [] then [] else [Label("", keys[0], "", "", labels[keys[0]], "")] + PlainLabels(labels, keys[1..])
  }

  /** The documented form, without white space. */
  function Plain(spec: Spec, keys: seq<string>): Form
    requires forall k :: k in keys ==> k in spec.labels
  {
    if keys == [] then Bare("", spec.name, "") else Labelled("", spec.name, "", PlainLabels(spec.labels, keys), "")
  }

  lemma {:induction false} PlainGood(labels: map<string, string>, keys: seq<string>)
    requires forall k :: k in keys ==> k in labels && GoodWord(k) && GoodWord(labels[k])
    ensures GoodLabels(PlainLabels(labels, keys)) && |PlainLabels(labels, keys)| == |keys|
  {
    if keys != [] { PlainGood(labels, keys[1..]); }
  }

  lemma {:induction false} PlainMap(labels: map<string, string>, keys: seq<string>, m: map<string, string>)
    requires forall k :: k in keys ==> k in labels
    ensures forall k :: k in AddLabels(PlainLabels(labels, keys), m) <==> k in m || k in keys
    ensures forall k :: k in AddLabels(PlainLabels(labels, keys), m) ==>
              AddLabels(PlainLabels(labels, keys), m)[k] == if k in keys then labels[k] else m[k]
    decreases |keys|
  {
    if keys != [] {
      var ls := PlainLabels(labels, keys);
      assert ls[1..] == PlainLabels(labels, keys[1..]);
      PlainMap(labels, keys[1..], m[keys[0] := labels[keys[0]]]);
    }
  }

  /** Writing a parsed spec in the documented form, labels in any order, parses back to it. */
  lemma {:induction false} RoundTrip(specStr: string, keys: seq<string>)
    requires Parse(specStr).Parsed? && forall k :: k in keys <==> k in Parse(specStr).spec.labels
    ensures Parse(FormText(Plain(Parse(specStr).spec, keys))) == Parse(specStr)
  {
    hide Parse, ParseTrimmed;
    var spec := Parse(specStr).spec;
    ParsedIsGood(specStr);
    PlainGood(spec.labels, keys);
    PlainMap(spec.labels, keys, map[]);
    ParseComplete(Plain(spec, keys));
    if keys == [] { assert spec.labels == map[]; }
    else { assert AddLabels(PlainLabels(spec.labels, keys), map[]) == spec.labels; }
  }

  /** The empty string is no specification, a text of the grammar is one, and every other string is
      an error. */
  lemma {:induction false} ParseTable(specStr: string)
    ensures Parse(specStr).NoSpec? <==> specStr == ""
    ensures Parse(specStr).Failed? <==> specStr != "" && forall f :: WellFormed(f) ==> FormText(f) != specStr
  {
    hide ParseTrimmed, FormText, WellFormed, TrimSpace;
    ErrorOrSpec(specStr);
    if Parse(specStr).Parsed? { var f := ParseSound(specStr); }
    forall f | WellFormed(f) && FormText(f) == specStr ensures Parse(specStr).Parsed? { ParseComplete(f); }
  }

  lemma ErrorOrSpec(specStr: string)
    ensures specStr != "" ==> !Parse(specStr).NoSpec?
  {
    hide TrimSpace, Split, Index, AddPairs;
  }
}
