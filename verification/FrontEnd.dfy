/**
 The call to the front end works on a shallow copy of the request body: the copy shares the
 request's nested `nvext` map, and the annotations are written through that shared reference.
 */
module FrontEnd {
  import opened Wrappers
  import opened Json

  /** A nested map[string]interface{}. */
  class Nested {
    var fields: Object

    constructor (fields: Object)
      ensures this.fields == fields
    {
      this.fields := fields;
    }
  }

  /** A top-level map: an object under `nvext` is held by reference, everything else by value. */
  class Body {
    var fields: Object
    var nvext: Nested?

    ghost predicate Valid()
      reads this
    {
      "nvext" in fields ==> nvext == null && !fields["nvext"].Obj?
    }

    /** The JSON object the map stands for. */
    ghost function Value(): Object
      reads this, nvext
    {
      if nvext == null then fields else fields["nvext" := Obj(nvext.fields)]
    }

    constructor (fields: Object, nvext: Nested?)
      ensures this.fields == fields && this.nvext == nvext
    {
      this.fields, this.nvext := fields, nvext;
    }
  }

  /** Copies the top level, entry by entry, in the map's arbitrary order. */
  method ShallowCopy(m: Object) returns (copy: Object)
    ensures copy == m
  {
    copy := map[];
    var keys := m.Keys;
    while keys != {}
      invariant keys <= m.Keys
      invariant copy == map k | k in m && k !in keys :: m[k]
      decreases |keys|
    {
      var k :| k in keys;
      copy := copy[k := m[k]];
      keys := keys - {k};
    }
  }

  /** The string annotations already present, then the query marker if it is missing. */
  method CollectAnnotations(nvext: Object) returns (anns: seq<string>)
    ensures anns == WithQuery(Annotations(nvext))
  {
    anns := [];
    if "annotations" in nvext && nvext["annotations"].Arr? {
      var items := nvext["annotations"].items;
      for i := 0 to |items|
        invariant anns == Strings(items[..i])
      {
        assert items[..i + 1][..i] == items[..i];
        if items[i].Str? { anns := anns + [items[i].s]; }
      }
      assert items[..|items|] == items;
    }
    var found := false;
    for i := 0 to |anns|
      invariant found <==> QUERY in anns[..i]
    {
      assert anns[..i + 1] == anns[..i] + [anns[i]];
      if anns[i] == QUERY { found := true; }
    }
    assert anns[..|anns|] == anns;
    if !found { anns := anns + [QUERY]; }
  }

  /** Builds the body for the front end and encodes it.  The request's own top level is untouched;
      its nested nvext map, if it has one, gains the annotations. */
  method CallFrontEnd(codec: Codec, body: Body) returns (payload: Option<Bytes>)
    requires body.Valid()
    modifies body.nvext
    ensures payload == codec.encode(FrontEndBody(old(body.Value())))
    ensures body.Value() == AfterFrontEnd(old(body.Value()))
    ensures body.fields == old(body.fields) && body.nvext == old(body.nvext)
  {
    hide Strings, StrArray, Annotations, WithQuery;
    ghost var value := body.Value();
    var copy := ShallowCopy(body.fields);
    if "stream" !in copy {
      copy := copy["stream" := Bool(true)];
    }
    var nvext := body.nvext;
    if nvext == null {
      nvext := new Nested(map[]);
    }
    assert nvext.fields == NvExt(value);
    var anns := CollectAnnotations(nvext.fields);
    nvext.fields := nvext.fields["annotations" := StrArray(anns)];
    var feBody := new Body(copy, nvext);
    assert feBody.Value() == FrontEndBody(value);
    payload := codec.encode(feBody.fields["nvext" := Obj(nvext.fields)]);
  }

  /** The middle of HandleRequestBody: the body to forward is encoded before the front end is
      called, so it is the received object with only the model replaced, although the call then
      changes the object behind it. */
  method EncodeThenCall(codec: Codec, body: Body, target: string) returns (bytes: Option<Bytes>, payload: Option<Bytes>)
    requires body.Valid()
    modifies body, body.nvext
    ensures bytes == codec.encode(old(body.Value())["model" := Str(target)])
    ensures bytes.Some? ==> payload == codec.encode(FrontEndBody(old(body.Value())["model" := Str(target)]))
    ensures bytes.Some? ==> body.Value() == AfterFrontEnd(old(body.Value())["model" := Str(target)])
    ensures bytes.Some? && body.nvext != null && QUERY !in Annotations(old(NvExt(body.Value()))) ==>
              body.Value() != old(body.Value())["model" := Str(target)]
  {
    ghost var value := body.Value();
    body.fields := body.fields["model" := Str(target)];
    assert body.Value() == value["model" := Str(target)];
    bytes := codec.encode(if body.nvext == null then body.fields else body.fields["nvext" := Obj(body.nvext.fields)]);
    payload := None;
    if bytes.Some? {
      payload := CallFrontEnd(codec, body);
      MarkerAdded(NvExt(value));
    }
  }

  lemma {:induction false} MarkerPresent(items: seq<Json>, i: nat)
    requires i < |items| && items[i] == Str(QUERY)
    ensures QUERY in Strings(items)
    decreases |items|
  {
    if i < |items| - 1 { MarkerPresent(items[..|items| - 1], i); }
  }

  /** The annotated map always carries the marker. */
  lemma MarkerAdded(nvext: Object)
    ensures QUERY in Annotations(Annotated(nvext))
    ensures QUERY !in Annotations(nvext) ==> Annotated(nvext) != nvext
  {
    var anns := WithQuery(Annotations(nvext));
    var i :| 0 <= i < |anns| && anns[i] == QUERY;
    MarkerPresent(StrArray(anns).items, i);
  }

  // ----- what the front end is sent -----

  lemma {:induction false} StringsInOrder(items: seq<Json>, i: nat)
    requires i < |items| && items[i].Str?
    ensures Strings(items[..i]) + [items[i].s] <= Strings(items)
  {
    var init := items[..|items| - 1];
    if i == |items| - 1 {
      assert items[..i] == init;
    } else {
      StringsInOrder(init, i);
      assert init[..i] == items[..i];
    }
  }

  lemma {:induction false} OnlyStrings(items: seq<Json>, s: string)
    ensures s in Strings(items) ==> Str(s) in items
  {
    if items != [] { OnlyStrings(items[..|items| - 1], s); }
  }

  /** The front end is sent the request with `stream` set unless the request sets it, and with an
      `nvext` object that keeps its other entries and whose annotations are the strings that were
      there, in order, followed by the query marker if it was missing; nothing else changes. */
  lemma {:induction false} FrontEndBodyExact(body: Object)
    ensures var sent, given := FrontEndBody(body), NvExt(body);
            var anns := Annotations(given);
            && (forall k :: k in sent <==> k in body || k == "stream" || k == "nvext")
            && (forall k :: k in body && k != "stream" && k != "nvext" ==> sent[k] == body[k])
            && sent["stream"] == (if "stream" in body then body["stream"] else Bool(true))
            && sent["nvext"].Obj?
            && var nvext := sent["nvext"].fields;
               && (forall k :: k in nvext <==> k in given || k == "annotations")
               && (forall k :: k in given && k != "annotations" ==> nvext[k] == given[k])
               && nvext["annotations"].Arr?
               && var items := nvext["annotations"].items;
                  && |items| == |anns| + (if "query_instance_id" in anns then 0 else 1)
                  && (forall i :: 0 <= i < |anns| ==> items[i] == Str(anns[i]))
                  && ("query_instance_id" !in anns ==> items[|anns|] == Str("query_instance_id"))
  {
    hide Strings;
  }
}
