/** The string operations of Go's `strings` package that the parsers use. */
module Text {

  /** Unicode White_Space, as strings.TrimSpace sees it. */
  predicate IsSpace(c: char) {
    || '\t' <= c <= '\r' || c == ' ' || c == '\U{0085}' || c == '\U{00A0}' || c == '\U{1680}'
    || '\U{2000}' <= c <= '\U{200A}' || c == '\U{2028}' || c == '\U{2029}' || c == '\U{202F}'
    || c == '\U{205F}' || c == '\U{3000}'
  }

  predicate AllSpace(s: string) { forall i :: 0 <= i < |s| ==> IsSpace(s[i]) }

  predicate Trimmed(s: string) { s == "" || (!IsSpace(s[0]) && !IsSpace(s[|s| - 1])) }

  function TrimLeft(s: string): string {
    if s != "" && IsSpace(s[0]) then TrimLeft(s[1..]) else s
  }

  function TrimRight(s: string): string {
    if s != "" && IsSpace(s[|s| - 1]) then TrimRight(s[..|s| - 1]) else s
  }

  function TrimSpace(s: string): string { TrimRight(TrimLeft(s)) }

  /** The position of the first occurrence, or -1. */
  function Index(s: string, c: char): (i: int)
    ensures -1 <= i < |s|
    ensures i == -1 <==> c !in s
    ensures i >= 0 ==> s[i] == c && c !in s[..i]
  {
    if s == "" then -1
    else if s[0] == c then 0
    else var i := Index(s[1..], c); if i == -1 then -1 else assert s[..i + 1] == [s[0]] + s[1..][..i]; i + 1
  }

  function Split(s: string, c: char): seq<string>
    decreases |s|
  {
    var i := Index(s, c);
    if i == -1 then [s] else [s[..i]] + Split(s[i + 1..], c)
  }

  function Join(parts: seq<string>, c: char): string {
    if parts == [] then "" else if |parts| == 1 then parts[0] else parts[0] + [c] + Join(parts[1..], c)
  }

  // ----- trimming -----

  lemma {:induction false} TrimLeftPadded(l: string, u: string)
    requires AllSpace(l) && (u == "" || !IsSpace(u[0]))
    ensures TrimLeft(l + u) == u
  {
    if l == "" {
      assert l + u == u;
    } else {
      assert (l + u)[1..] == l[1..] + u;
      TrimLeftPadded(l[1..], u);
    }
  }

  lemma {:induction false} TrimRightPadded(t: string, r: string)
    requires AllSpace(r) && (t == "" || !IsSpace(t[|t| - 1]))
    ensures TrimRight(t + r) == t
  {
    if r == "" {
      assert t + r == t;
    } else {
      assert (t + r)[..|t + r| - 1] == t + r[..|r| - 1];
      TrimRightPadded(t, r[..|r| - 1]);
    }
  }

  /** Surrounding white space is what trimming removes. */
  lemma TrimPadded(l: string, t: string, r: string)
    requires AllSpace(l) && Trimmed(t) && AllSpace(r)
    ensures TrimSpace(l + t + r) == t
  {
    if t == "" {
      assert l + t + r == (l + r) + "";
      TrimLeftPadded(l + r, "");
    } else {
      assert l + t + r == l + (t + r);
      TrimLeftPadded(l, t + r);
      TrimRightPadded(t, r);
    }
  }

  lemma {:induction false} TrimLeftParts(s: string) returns (l: string)
    ensures AllSpace(l) && s == l + TrimLeft(s)
    ensures TrimLeft(s) == "" || !IsSpace(TrimLeft(s)[0])
  {
    if s != "" && IsSpace(s[0]) {
      var l' := TrimLeftParts(s[1..]);
      l := [s[0]] + l';
    } else {
      l := "";
    }
  }

  lemma {:induction false} TrimRightParts(s: string) returns (r: string)
    ensures AllSpace(r) && s == TrimRight(s) + r
    ensures TrimRight(s) == "" || !IsSpace(TrimRight(s)[|TrimRight(s)| - 1])
  {
    if s != "" && IsSpace(s[|s| - 1]) {
      var r' := TrimRightParts(s[..|s| - 1]);
      r := r' + [s[|s| - 1]];
    } else {
      r := "";
    }
  }

  lemma TrimParts(s: string) returns (l: string, r: string)
    ensures AllSpace(l) && AllSpace(r) && Trimmed(TrimSpace(s))
    ensures s == l + TrimSpace(s) + r
  {
    l := TrimLeftParts(s);
    r := TrimRightParts(TrimLeft(s));
    if TrimSpace(s) != "" { assert TrimLeft(s)[0] == TrimSpace(s)[0]; }
  }

  // ----- splitting -----

  predicate AllWithout(parts: seq<string>, c: char) { forall i :: 0 <= i < |parts| ==> c !in parts[i] }

  lemma {:induction false} IndexAt(a: string, c: char, b: string)
    requires c !in a
    ensures Index(a + [c] + b, c) == |a|
  {
    if a == "" {
      assert a + [c] + b == [c] + b;
    } else {
      assert (a + [c] + b)[1..] == a[1..] + [c] + b;
      IndexAt(a[1..], c, b);
    }
  }

  lemma {:induction false} SplitJoin(parts: seq<string>, c: char)
    requires parts != [] && AllWithout(parts, c)
    ensures Split(Join(parts, c), c) == parts
  {
    if |parts| > 1 {
      var first, rest := parts[0], Join(parts[1..], c);
      IndexAt(first, c, rest);
      SplitJoin(parts[1..], c);
      assert Join(parts, c) == first + [c] + rest;
      assert (first + [c] + rest)[..|first|] == first && (first + [c] + rest)[|first| + 1..] == rest;
    }
  }

  lemma {:induction false} JoinSplit(s: string, c: char)
    ensures Split(s, c) != [] && AllWithout(Split(s, c), c)
    ensures Join(Split(s, c), c) == s
    decreases |s|
  {
    hide Index;
    var i := Index(s, c);
    if i != -1 {
      JoinSplit(s[i + 1..], c);
      assert Split(s, c) == [s[..i]] + Split(s[i + 1..], c);
      assert Split(s, c)[1..] == Split(s[i + 1..], c);
      assert s == s[..i] + [c] + s[i + 1..];
    }
  }

  lemma {:induction false} PartsWithin(s: string, c: char, d: char)
    requires d !in s
    ensures AllWithout(Split(s, c), d)
    decreases |s|
  {
    var i := Index(s, c);
    if i != -1 { PartsWithin(s[i + 1..], c, d); }
  }

  lemma {:induction false} JoinWithout(parts: seq<string>, c: char, d: char)
    requires AllWithout(parts, d) && c != d
    ensures d !in Join(parts, c)
  {
    if |parts| > 1 { JoinWithout(parts[1..], c, d); }
  }
}
