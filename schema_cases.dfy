/**
  The schema tests of the parser: documents whose functions carry an `http`
  event with a request schema, followed line by line through
  `extractSchemas` with the line-shape lemmas of `ParserCases`.
 */
module SchemaCases {
  import opened Wrappers
  import opened Text
  import opened Tree
  import opened YamlParser
  import opened YamlProperties
  import opened ParserCases

  /** The list items of an `http` event with a request schema; the key pattern rejects both. */
  const HttpItem := "- http:"
  const MediaItem := "application" + "/json:"

  lemma HttpItemUnkeyed()
    ensures Unkeyed(HttpItem)
  {
  }

  /** A key followed by a `/`: the key pattern stops at the `/` and finds no colon there. */
  lemma SlashUnkeyed(a: string, b: string)
    requires IsKey(a) && Plain(b) && b[0] == '/'
    ensures Unkeyed(a + b)
  {
    var t := a + b;
    assert t[|a|] == '/';
    KeyEndIs(t, 1, |a|);
    SkipSpacesIs(t, |a|, |a|);
    assert t[0] == a[0] && t[|t| - 1] == b[|b| - 1];
    forall k | 0 <= k < |t|
      ensures t[k] != '\n'
    {
      if k < |a| {
        assert t[k] == a[k];
        if k > 0 {
          assert IsKeyChar(a[k]);
        }
      } else {
        assert t[k] == b[k - |a|];
      }
    }
  }

  lemma MediaItemUnkeyed()
    ensures Unkeyed(MediaItem)
  {
    assert IsKey("application") && Plain("/json:");
    SlashUnkeyed("application", "/json:");
  }

  lemma RequestKeys()
    ensures IsKey("path") && IsKey("method") && IsKey("request") && IsKey("schemas") && IsKey("name")
  {
  }

  /** The value `${file(p)}`. */
  function FileRef(p: string): string
  {
    "${file(" + p + ")}"
  }

  /** A file reference to a path without white space has no white space either. */
  lemma PlainFileRef(p: string)
    requires Plain(p)
    ensures Plain(FileRef(p))
  {
    var v := FileRef(p);
    forall k | 0 <= k < |v|
      ensures !IsSpace(v[k])
    {
      if k < 7 {
        assert v[k] == "${file("[k];
      } else if k < 7 + |p| {
        assert v[k] == p[k - 7];
      } else {
        assert v[k] == ")}"[k - 7 - |p|];
      }
    }
  }

  /** The entry `extractSchemas` records for a `schema:` line at `line` with
      a plain `value`, under function `name`: one when the value is a file
      reference, none otherwise. */
  function SchemaOf(value: string, line: nat, name: string): seq<SchemaEntry>
  {
    match MatchFileRef(value)
    case Some(p) => [SchemaEntry(value, p, line, name)]
    case None => []
  }

  lemma SchemaOfFileRef(p: string, line: nat, name: string)
    requires p != [] && ')' !in p
    ensures SchemaOf(FileRef(p), line, name) == [SchemaEntry(FileRef(p), p, line, name)]
  {
    FileRefRoundTrip(p);
  }

  // ---------------------------------------------------------------------------
  // What `extractSchemas` does with each line of a function

  /** A function's name line at indentation 2 opens its scope. */
  lemma NameLine(lines: seq<string>, i: nat, name: string)
    requires IsKey(name) && name != "handler" && i < |lines| && lines[i] == KeyText(2, name, "")
    requires var st := SchemaScanAt(lines, i); st.inFunctions && (st.functionIndent < 0 || st.functionIndent >= 2)
    ensures SchemaScanAt(lines, i + 1) == SchemaScanAt(lines, i).(functionName := name, functionIndent := 2)
  {
    var st := SchemaScanAt(lines, i);
    SchemaKeyText(st, 2, name, "", i);
    assert StripComment("") == "";
    SchemaNext(lines, i, st.(functionName := name, functionIndent := 2));
  }

  /** Under a function at indentation 2, a deeper key line other than `schema:` changes nothing. */
  lemma QuietLine(lines: seq<string>, i: nat, n: nat, key: string, value: string)
    requires IsKey(key) && key != "schema" && (value == [] || Plain(value)) && n > 2
    requires i < |lines| && lines[i] == KeyText(n, key, value)
    requires var st := SchemaScanAt(lines, i); st.inFunctions && st.functionIndent == 2
    ensures SchemaScanAt(lines, i + 1) == SchemaScanAt(lines, i)
  {
    var st := SchemaScanAt(lines, i);
    SchemaKeyText(st, n, key, value, i);
    SchemaNext(lines, i, st);
  }

  /** An indented line the key pattern rejects changes nothing. */
  lemma ItemLine(lines: seq<string>, i: nat, n: nat, t: string)
    requires n > 0 && Unkeyed(t) && i < |lines| && lines[i] == Spaces(n) + t
    ensures SchemaScanAt(lines, i + 1) == SchemaScanAt(lines, i)
  {
    OtherText(HandlerScanStart, SchemaScanAt(lines, i), n, t, i);
    SchemaNext(lines, i, SchemaScanAt(lines, i));
  }

  /** Under a function, a `schema:` line records what `SchemaOf` says. */
  lemma ValueLine(lines: seq<string>, i: nat, value: string)
    requires Plain(value) && i < |lines| && lines[i] == KeyText(16, "schema", value)
    requires var st := SchemaScanAt(lines, i); st.inFunctions && st.functionName != "" && st.functionIndent == 2
    ensures var st := SchemaScanAt(lines, i);
      SchemaScanAt(lines, i + 1) == st.(schemas := st.schemas + SchemaOf(value, i, st.functionName))
  {
    FixedKeys();
    var st := SchemaScanAt(lines, i);
    SchemaKeyText(st, 16, "schema", value, i);
    PlainValue(value);
    SchemaNext(lines, i, st.(schemas := st.schemas + SchemaOf(value, i, st.functionName)));
  }

  /** A blank line changes nothing. */
  lemma BlankNext(lines: seq<string>, i: nat)
    requires i < |lines| && lines[i] == []
    ensures SchemaScanAt(lines, i + 1) == SchemaScanAt(lines, i)
  {
    SchemaNext(lines, i, SchemaScanAt(lines, i));
  }

  // ---------------------------------------------------------------------------
  // A function with an `http` event and a request schema

  /** The function's name, `handler:`, and `events:` with an `http` item. */
  function EventHead(name: string, raw: string): seq<string>
  {
    [KeyText(2, name, ""), KeyText(4, "handler", raw), KeyText(4, "events", ""), Spaces(6) + HttpItem]
  }

  /** The `http` event's `path:`, `method:`, and its request's media type. */
  function RequestLines(path: string, verb: string): seq<string>
  {
    [KeyText(10, "path", path), KeyText(10, "method", verb), KeyText(10, "request", ""),
     KeyText(12, "schemas", ""), Spaces(14) + MediaItem]
  }

  lemma EventHeadScan(lines: seq<string>, i: nat, name: string, raw: string)
    requires IsKey(name) && name != "handler" && Plain(raw) && At(lines, i, EventHead(name, raw))
    requires var st := SchemaScanAt(lines, i); st.inFunctions && (st.functionIndent < 0 || st.functionIndent >= 2)
    ensures SchemaScanAt(lines, i + 4) == SchemaScanAt(lines, i).(functionName := name, functionIndent := 2)
  {
    var part := EventHead(name, raw);
    assert lines[i] == part[0] && lines[i + 1] == part[1] && lines[i + 2] == part[2] && lines[i + 3] == part[3];
    FixedKeys();
    HttpItemUnkeyed();
    NameLine(lines, i, name);
    QuietLine(lines, i + 1, 4, "handler", raw);
    QuietLine(lines, i + 2, 4, "events", "");
    ItemLine(lines, i + 3, 6, HttpItem);
  }

  lemma RequestLinesScan(lines: seq<string>, i: nat, path: string, verb: string)
    requires Plain(path) && Plain(verb) && At(lines, i, RequestLines(path, verb))
    requires var st := SchemaScanAt(lines, i); st.inFunctions && st.functionIndent == 2
    ensures SchemaScanAt(lines, i + 5) == SchemaScanAt(lines, i)
  {
    var part := RequestLines(path, verb);
    assert lines[i] == part[0] && lines[i + 1] == part[1] && lines[i + 2] == part[2];
    assert lines[i + 3] == part[3] && lines[i + 4] == part[4];
    RequestKeys();
    MediaItemUnkeyed();
    QuietLine(lines, i, 10, "path", path);
    QuietLine(lines, i + 1, 10, "method", verb);
    QuietLine(lines, i + 2, 10, "request", "");
    QuietLine(lines, i + 3, 12, "schemas", "");
    ItemLine(lines, i + 4, 14, MediaItem);
  }

  /** What may be written in such a function. */
  predicate FunctionWords(name: string, raw: string, path: string, verb: string, value: string)
  {
    IsKey(name) && name != "handler" && Plain(raw) && Plain(path) && Plain(verb) && Plain(value)
  }

  /** A function with an `http` event whose request schema is `value`. */
  function SchemaFunction(name: string, raw: string, path: string, verb: string, value: string): seq<string>
  {
    EventHead(name, raw) + (RequestLines(path, verb) + [KeyText(16, "schema", value)])
  }

  lemma SchemaFunctionParts(name: string, raw: string, path: string, verb: string, value: string)
    ensures var part := SchemaFunction(name, raw, path, verb, value);
      |part| == 10 && At(part, 0, EventHead(name, raw)) && At(part, 4, RequestLines(path, verb)) &&
      part[9] == KeyText(16, "schema", value)
  {
    var a := EventHead(name, raw);
    var b := RequestLines(path, verb);
    AtFront(a, b + [KeyText(16, "schema", value)]);
    AtFront(b, [KeyText(16, "schema", value)]);
    AtShift(a, b + [KeyText(16, "schema", value)], 0, b);
  }

  /** `part` sits at `i` in `lines`, so its lines are those of `lines` from `i` on. */
  lemma AtInside(lines: seq<string>, i: nat, part: seq<string>, j: nat, sub: seq<string>)
    requires At(lines, i, part) && At(part, j, sub)
    ensures At(lines, i + j, sub)
  {
    forall k | 0 <= k < |sub|
      ensures lines[i + j + k] == sub[k]
    {
      assert lines[i..i + |part|][j + k] == part[j + k];
      assert part[j..j + |sub|][k] == sub[k];
    }
    assert lines[i + j..i + j + |sub|] == sub;
  }

  /** Such a function opens its scope and records its schema when the value is a file reference. */
  lemma SchemaFunctionScan(lines: seq<string>, i: nat, name: string, raw: string, path: string, verb: string, value: string)
    requires FunctionWords(name, raw, path, verb, value) && At(lines, i, SchemaFunction(name, raw, path, verb, value))
    requires var st := SchemaScanAt(lines, i); st.inFunctions && (st.functionIndent < 0 || st.functionIndent >= 2)
    ensures var st := SchemaScanAt(lines, i);
      SchemaScanAt(lines, i + 10) ==
        st.(functionName := name, functionIndent := 2, schemas := st.schemas + SchemaOf(value, i + 9, name))
  {
    var part := SchemaFunction(name, raw, path, verb, value);
    SchemaFunctionParts(name, raw, path, verb, value);
    AtInside(lines, i, part, 0, EventHead(name, raw));
    AtInside(lines, i, part, 4, RequestLines(path, verb));
    assert lines[i + 9] == part[9];
    EventHeadScan(lines, i, name, raw);
    RequestLinesScan(lines, i + 4, path, verb);
    ValueLine(lines, i + 9, value);
  }

  lemma SchemaFunctionOneLine(name: string, raw: string, path: string, verb: string, value: string)
    requires FunctionWords(name, raw, path, verb, value)
    ensures OneLines(SchemaFunction(name, raw, path, verb, value))
  {
    FixedKeys();
    RequestKeys();
    HttpItemUnkeyed();
    MediaItemUnkeyed();
    var a := EventHead(name, raw);
    var b := RequestLines(path, verb);
    KeyTextOneLine(2, name, "");
    KeyTextOneLine(4, "handler", raw);
    KeyTextOneLine(4, "events", "");
    OneLineConcat(Spaces(6), HttpItem);
    assert OneLines(a);
    KeyTextOneLine(10, "path", path);
    KeyTextOneLine(10, "method", verb);
    KeyTextOneLine(10, "request", "");
    KeyTextOneLine(12, "schemas", "");
    OneLineConcat(Spaces(14), MediaItem);
    assert OneLines(b);
    KeyTextOneLine(16, "schema", value);
    OneLinesConcat(b, [KeyText(16, "schema", value)]);
    OneLinesConcat(a, b + [KeyText(16, "schema", value)]);
  }

  /** The schema entries `parseServerlessYaml` reports for the text made of `lines`. */
  lemma DocumentSchemas(text: string, lines: seq<string>, ss: seq<SchemaEntry>)
    requires |lines| >= 1 && OneLines(lines) && text == Join(lines, '\n') && Schemas(lines) == ss
    ensures ParseServerlessYaml(text).schemas == ss
  {
    OneLinesNoBreak(lines);
    ParseLines(text, lines);
  }

  // ---------------------------------------------------------------------------
  // A function with a `name:` line above its schema, as in test 11

  function NamedFunction(name: string, raw: string, path: string, verb: string, title: string, value: string): seq<string>
  {
    EventHead(name, raw) + (RequestLines(path, verb) + [KeyText(16, "name", title), KeyText(16, "schema", value)])
  }

  lemma NamedFunctionParts(name: string, raw: string, path: string, verb: string, title: string, value: string)
    ensures var part := NamedFunction(name, raw, path, verb, title, value);
      |part| == 11 && At(part, 0, EventHead(name, raw)) && At(part, 4, RequestLines(path, verb)) &&
      part[9] == KeyText(16, "name", title) && part[10] == KeyText(16, "schema", value)
  {
    var a := EventHead(name, raw);
    var b := RequestLines(path, verb);
    var c := [KeyText(16, "name", title), KeyText(16, "schema", value)];
    AtFront(a, b + c);
    AtFront(b, c);
    AtShift(a, b + c, 0, b);
  }

  /** The `name:` line under the request changes nothing; the function is
      otherwise scanned as one without it. */
  lemma NamedFunctionScan(lines: seq<string>, i: nat, name: string, raw: string, path: string, verb: string,
                          title: string, value: string)
    requires FunctionWords(name, raw, path, verb, value) && Plain(title)
    requires At(lines, i, NamedFunction(name, raw, path, verb, title, value))
    requires var st := SchemaScanAt(lines, i); st.inFunctions && (st.functionIndent < 0 || st.functionIndent >= 2)
    ensures var st := SchemaScanAt(lines, i);
      SchemaScanAt(lines, i + 11) ==
        st.(functionName := name, functionIndent := 2, schemas := st.schemas + SchemaOf(value, i + 10, name))
  {
    var part := NamedFunction(name, raw, path, verb, title, value);
    NamedFunctionParts(name, raw, path, verb, title, value);
    AtInside(lines, i, part, 0, EventHead(name, raw));
    AtInside(lines, i, part, 4, RequestLines(path, verb));
    assert lines[i + 9] == part[9] && lines[i + 10] == part[10];
    RequestKeys();
    EventHeadScan(lines, i, name, raw);
    RequestLinesScan(lines, i + 4, path, verb);
    QuietLine(lines, i + 9, 16, "name", title);
    ValueLine(lines, i + 10, value);
  }

  lemma NamedFunctionOneLine(name: string, raw: string, path: string, verb: string, title: string, value: string)
    requires FunctionWords(name, raw, path, verb, value) && Plain(title)
    ensures OneLines(NamedFunction(name, raw, path, verb, title, value))
  {
    SchemaFunctionOneLine(name, raw, path, verb, value);
    var f := SchemaFunction(name, raw, path, verb, value);
    var a := EventHead(name, raw);
    var b := RequestLines(path, verb);
    assert a == f[..4] && b == f[4..9];
    assert OneLines(a) && OneLines(b) by {
      assert forall k :: 0 <= k < 4 ==> a[k] == f[k];
      assert forall k :: 0 <= k < 5 ==> b[k] == f[4 + k];
    }
    RequestKeys();
    FixedKeys();
    KeyTextOneLine(16, "name", title);
    KeyTextOneLine(16, "schema", value);
    OneLinesConcat(b, [KeyText(16, "name", title), KeyText(16, "schema", value)]);
    OneLinesConcat(a, b + [KeyText(16, "name", title), KeyText(16, "schema", value)]);
  }

  // ---------------------------------------------------------------------------
  // Documents

  /** The header of test 1 and one function with a request schema. */
  function OneFunctionDoc(name: string, raw: string, path: string, verb: string, value: string): seq<string>
  {
    ServiceHead() + (SchemaFunction(name, raw, path, verb, value) + [""])
  }

  /** Up to the `functions:` header: the blank lines and `service:` change nothing. */
  lemma ServiceHeadSchemas(lines: seq<string>)
    requires At(lines, 0, ServiceHead())
    ensures SchemaScanAt(lines, 4) == SchemaScanStart.(inFunctions := true)
  {
    FixedKeys();
    ServiceHeadWords();
    var part := ServiceHead();
    assert lines[0] == part[0] && lines[1] == part[1] && lines[2] == part[2] && lines[3] == part[3];
    var s0 := SchemaScanStart;
    SchemaNext(lines, 0, s0);
    SchemaKeyText(s0, 0, "service", "my-service", 1);
    SchemaNext(lines, 1, s0);
    SchemaNext(lines, 2, s0);
    SchemaKeyText(s0, 0, "functions", "", 3);
    SchemaNext(lines, 3, s0.(inFunctions := true));
  }

  /** Placing a header and one block followed by a blank line. */
  lemma TwoAt(h: seq<string>, f: seq<string>)
    ensures var lines := h + (f + [""]);
      |lines| == |h| + |f| + 1 && At(lines, 0, h) && At(lines, |h|, f) && lines[|h| + |f|] == ""
  {
    AtFront(h, f + [""]);
    AtFront(f, [""]);
    AtShift(h, f + [""], 0, f);
    assert (h + (f + [""]))[|h| + |f|] == (f + [""])[|f|];
  }

  /** Placing a header and two blocks followed by a blank line. */
  lemma ThreeAt(h: seq<string>, f: seq<string>, g: seq<string>)
    ensures var lines := h + (f + (g + [""]));
      |lines| == |h| + |f| + |g| + 1 && At(lines, 0, h) && At(lines, |h|, f) && At(lines, |h| + |f|, g) &&
      lines[|h| + |f| + |g|] == ""
  {
    TwoAt(f, g);
    AtFront(h, f + (g + [""]));
    AtShift(h, f + (g + [""]), 0, f);
    AtShift(h, f + (g + [""]), |f|, g);
    assert (h + (f + (g + [""])))[|h| + |f| + |g|] == (f + (g + [""]))[|f| + |g|];
  }

  lemma OneFunctionSchemasAt(lines: seq<string>, name: string, raw: string, path: string, verb: string, value: string)
    requires FunctionWords(name, raw, path, verb, value)
    requires |lines| == 15 && At(lines, 0, ServiceHead()) && At(lines, 4, SchemaFunction(name, raw, path, verb, value))
    requires lines[14] == ""
    ensures Schemas(lines) == SchemaOf(value, 13, name)
  {
    ServiceHeadSchemas(lines);
    SchemaFunctionScan(lines, 4, name, raw, path, verb, value);
    BlankNext(lines, 14);
  }

  /** A document with one function records its schema exactly when the value is a file reference. */
  lemma OneFunctionSchemas(name: string, raw: string, path: string, verb: string, value: string)
    requires FunctionWords(name, raw, path, verb, value)
    ensures Schemas(OneFunctionDoc(name, raw, path, verb, value)) == SchemaOf(value, 13, name)
  {
    SchemaFunctionParts(name, raw, path, verb, value);
    TwoAt(ServiceHead(), SchemaFunction(name, raw, path, verb, value));
    OneFunctionSchemasAt(OneFunctionDoc(name, raw, path, verb, value), name, raw, path, verb, value);
  }

  lemma OneFunctionOneLine(name: string, raw: string, path: string, verb: string, value: string)
    requires FunctionWords(name, raw, path, verb, value)
    ensures OneLines(OneFunctionDoc(name, raw, path, verb, value))
  {
    ServiceHeadOneLine();
    SchemaFunctionOneLine(name, raw, path, verb, value);
    OneLinesConcat(SchemaFunction(name, raw, path, verb, value), [""]);
    OneLinesConcat(ServiceHead(), SchemaFunction(name, raw, path, verb, value) + [""]);
  }

  /** A top-level key, a section with a `schema:` before the block, the header,
      one function with a request schema. */
  function AroundSchemaDoc(key: string, v: string, sec: string, skey: string, svalue: string,
                           name: string, raw: string, path: string, verb: string, value: string): seq<string>
  {
    TopLines(key, v) + (Section(sec, skey, svalue) + ([KeyText(0, "functions", "")] + (SchemaFunction(name, raw, path, verb, value) + [""])))
  }

  /** What may be written before the block. */
  predicate BeforeWords(key: string, v: string, sec: string, skey: string, svalue: string)
  {
    IsKey(key) && key != "functions" && Plain(v) && IsKey(sec) && sec != "functions" && IsKey(skey) && Plain(svalue)
  }

  lemma AroundSchemaParts(key: string, v: string, sec: string, skey: string, svalue: string,
                          name: string, raw: string, path: string, verb: string, value: string)
    ensures var lines := AroundSchemaDoc(key, v, sec, skey, svalue, name, raw, path, verb, value);
      |lines| == 18 && At(lines, 0, TopLines(key, v)) && At(lines, 3, Section(sec, skey, svalue)) &&
      lines[6] == KeyText(0, "functions", "") && At(lines, 7, SchemaFunction(name, raw, path, verb, value)) &&
      lines[17] == ""
  {
    var a := TopLines(key, v);
    var b := Section(sec, skey, svalue);
    var c := [KeyText(0, "functions", "")];
    var f := SchemaFunction(name, raw, path, verb, value);
    SchemaFunctionParts(name, raw, path, verb, value);
    var d := f + [""];
    AtFront(a, b + (c + d));
    AtFront(b, c + d);
    AtShift(a, b + (c + d), 0, b);
    AtFront(f, [""]);
    AtShift(c, d, 0, f);
    AtShift(b, c + d, 1, f);
    AtShift(a, b + (c + d), 4, f);
    assert (a + (b + (c + d)))[6] == c[0];
    assert (a + (b + (c + d)))[17] == d[10];
  }

  /** The `schema:` before the block is not recorded; the one under the function is, when it is a file reference. */
  lemma AroundSchemaSchemas(key: string, v: string, sec: string, skey: string, svalue: string,
                            name: string, raw: string, path: string, verb: string, value: string)
    requires BeforeWords(key, v, sec, skey, svalue) && FunctionWords(name, raw, path, verb, value)
    ensures Schemas(AroundSchemaDoc(key, v, sec, skey, svalue, name, raw, path, verb, value)) == SchemaOf(value, 16, name)
  {
    var lines := AroundSchemaDoc(key, v, sec, skey, svalue, name, raw, path, verb, value);
    AroundSchemaParts(key, v, sec, skey, svalue, name, raw, path, verb, value);
    FixedKeys();
    ScanStart(lines);
    TopLinesSchemas(lines, 0, key, v);
    SectionSchemas(lines, 3, sec, skey, svalue);
    SchemaKeyText(SchemaScanStart, 0, "functions", "", 6);
    SchemaNext(lines, 6, SchemaScanStart.(inFunctions := true));
    SchemaFunctionScan(lines, 7, name, raw, path, verb, value);
    BlankNext(lines, 17);
  }

  lemma AroundSchemaOneLine(key: string, v: string, sec: string, skey: string, svalue: string,
                            name: string, raw: string, path: string, verb: string, value: string)
    requires BeforeWords(key, v, sec, skey, svalue) && FunctionWords(name, raw, path, verb, value)
    ensures OneLines(AroundSchemaDoc(key, v, sec, skey, svalue, name, raw, path, verb, value))
  {
    FixedKeys();
    var a := TopLines(key, v);
    var b := Section(sec, skey, svalue);
    var c := [KeyText(0, "functions", "")];
    var f := SchemaFunction(name, raw, path, verb, value);
    TopLinesOneLine(key, v);
    SectionOneLine(sec, skey, svalue);
    KeyTextOneLine(0, "functions", "");
    SchemaFunctionOneLine(name, raw, path, verb, value);
    OneLinesConcat(f, [""]);
    OneLinesConcat(c, f + [""]);
    OneLinesConcat(b, c + (f + [""]));
    OneLinesConcat(a, b + (c + (f + [""])));
  }

  /** The header of test 1 and two functions with a `name:` line above their schema. */
  function TwoNamedDoc(verb: string, n1: string, r1: string, p1: string, l1: string, v1: string,
                       n2: string, r2: string, p2: string, l2: string, v2: string): seq<string>
  {
    ServiceHead() + (NamedFunction(n1, r1, p1, verb, l1, v1) + (NamedFunction(n2, r2, p2, verb, l2, v2) + [""]))
  }

  lemma TwoNamedSchemasAt(lines: seq<string>, verb: string, n1: string, r1: string, p1: string, l1: string, v1: string,
                          n2: string, r2: string, p2: string, l2: string, v2: string)
    requires FunctionWords(n1, r1, p1, verb, v1) && Plain(l1)
    requires FunctionWords(n2, r2, p2, verb, v2) && Plain(l2)
    requires |lines| == 27 && At(lines, 0, ServiceHead()) && At(lines, 4, NamedFunction(n1, r1, p1, verb, l1, v1))
    requires At(lines, 15, NamedFunction(n2, r2, p2, verb, l2, v2)) && lines[26] == ""
    ensures Schemas(lines) == SchemaOf(v1, 14, n1) + SchemaOf(v2, 25, n2)
  {
    ServiceHeadSchemas(lines);
    NamedFunctionScan(lines, 4, n1, r1, p1, verb, l1, v1);
    NamedFunctionScan(lines, 15, n2, r2, p2, verb, l2, v2);
    BlankNext(lines, 26);
  }

  /** Two functions each record their own schema, in document order, each under its own name. */
  lemma TwoNamedSchemas(verb: string, n1: string, r1: string, p1: string, l1: string, v1: string,
                        n2: string, r2: string, p2: string, l2: string, v2: string)
    requires FunctionWords(n1, r1, p1, verb, v1) && Plain(l1)
    requires FunctionWords(n2, r2, p2, verb, v2) && Plain(l2)
    ensures Schemas(TwoNamedDoc(verb, n1, r1, p1, l1, v1, n2, r2, p2, l2, v2)) == SchemaOf(v1, 14, n1) + SchemaOf(v2, 25, n2)
  {
    NamedFunctionParts(n1, r1, p1, verb, l1, v1);
    NamedFunctionParts(n2, r2, p2, verb, l2, v2);
    ThreeAt(ServiceHead(), NamedFunction(n1, r1, p1, verb, l1, v1), NamedFunction(n2, r2, p2, verb, l2, v2));
    TwoNamedSchemasAt(TwoNamedDoc(verb, n1, r1, p1, l1, v1, n2, r2, p2, l2, v2), verb, n1, r1, p1, l1, v1, n2, r2, p2, l2, v2);
  }

  lemma TwoNamedOneLine(verb: string, n1: string, r1: string, p1: string, l1: string, v1: string,
                        n2: string, r2: string, p2: string, l2: string, v2: string)
    requires FunctionWords(n1, r1, p1, verb, v1) && Plain(l1)
    requires FunctionWords(n2, r2, p2, verb, v2) && Plain(l2)
    ensures OneLines(TwoNamedDoc(verb, n1, r1, p1, l1, v1, n2, r2, p2, l2, v2))
  {
    var f1 := NamedFunction(n1, r1, p1, verb, l1, v1);
    var f2 := NamedFunction(n2, r2, p2, verb, l2, v2);
    ServiceHeadOneLine();
    NamedFunctionOneLine(n1, r1, p1, verb, l1, v1);
    NamedFunctionOneLine(n2, r2, p2, verb, l2, v2);
    OneLinesConcat(f2, [""]);
    OneLinesConcat(f1, f2 + [""]);
    OneLinesConcat(ServiceHead(), f1 + (f2 + [""]));
  }

  /** A value that does not start with `$` is no file reference. */
  lemma NotFileRef(v: string, line: nat, name: string)
    requires v != [] && v[0] != '$'
    ensures SchemaOf(v, line, name) == []
  {
  }

  // ---------------------------------------------------------------------------
  // Test 13: a `schema:` value that is not a file reference is skipped

  const HelloSrc := "src/hello.handler"
  const InlineSchema := "inline-schema-value"

  /** The lines of test 13's document. */
  function InlineDoc(): seq<string>
  {
    OneFunctionDoc("hello", HelloSrc, "/hello", "post", InlineSchema)
  }

  lemma HelloWords()
    ensures IsKey("hello") && "hello" != "handler" && Plain(HelloSrc)
  {
  }

  lemma PostWords()
    ensures Plain("/hello") && Plain("post")
  {
  }

  lemma InlineWords()
    ensures FunctionWords("hello", HelloSrc, "/hello", "post", InlineSchema)
  {
    HelloWords();
    PostWords();
    assert Plain(InlineSchema);
  }

  /** Test 13: the only `schema:` line holds no file reference, so no schema is reported. */
  lemma NoSchemaWithoutFileRef()
    ensures ParseServerlessYaml(Join(InlineDoc(), '\n')).schemas == []
  {
    InlineWords();
    OneFunctionOneLine("hello", HelloSrc, "/hello", "post", InlineSchema);
    OneFunctionSchemas("hello", HelloSrc, "/hello", "post", InlineSchema);
    NotFileRef(InlineSchema, 13, "hello");
    DocumentSchemas(Join(InlineDoc(), '\n'), InlineDoc(), []);
  }

  // ---------------------------------------------------------------------------
  // Test 12: a `schema:` key outside the `functions:` block is not extracted

  const StrayPath := "schemas/" + "should-not-extract.json"
  const HelloPath := "schemas/hello.json"

  /** The lines of test 12's document. */
  function OutsideSchemaDoc(): seq<string>
  {
    AroundSchemaDoc("service", ServiceName, "custom", "schema", FileRef(StrayPath),
      "hello", HelloSrc, "/hello", "post", FileRef(HelloPath))
  }

  lemma StrayWords()
    ensures BeforeWords("service", ServiceName, "custom", "schema", FileRef(StrayPath))
  {
    FixedKeys();
    ServiceWords();
    assert Plain("schemas/") && Plain("should-not-extract.json");
    PlainConcat("schemas/", "should-not-extract.json");
    PlainFileRef(StrayPath);
  }

  lemma HelloPathWords()
    ensures FunctionWords("hello", HelloSrc, "/hello", "post", FileRef(HelloPath)) && ')' !in HelloPath
  {
    HelloWords();
    PostWords();
    assert Plain(HelloPath) && ')' !in HelloPath;
    PlainFileRef(HelloPath);
  }

  /** Test 12: only the `schema:` under the function is reported, with its path, line and function. */
  lemma NoSchemasOutsideFunctions()
    ensures ParseServerlessYaml(Join(OutsideSchemaDoc(), '\n')).schemas ==
      [SchemaEntry(FileRef(HelloPath), HelloPath, 16, "hello")]
  {
    StrayWords();
    HelloPathWords();
    AroundSchemaOneLine("service", ServiceName, "custom", "schema", FileRef(StrayPath),
      "hello", HelloSrc, "/hello", "post", FileRef(HelloPath));
    AroundSchemaSchemas("service", ServiceName, "custom", "schema", FileRef(StrayPath),
      "hello", HelloSrc, "/hello", "post", FileRef(HelloPath));
    SchemaOfFileRef(HelloPath, 16, "hello");
    DocumentSchemas(Join(OutsideSchemaDoc(), '\n'), OutsideSchemaDoc(),
      [SchemaEntry(FileRef(HelloPath), HelloPath, 16, "hello")]);
  }

  // ---------------------------------------------------------------------------
  // Test 11: two functions, each with a request schema

  const BookSrc := "src/handlers/" + "booking.bookSlot"
  const CancelSrc := "src/handlers/" + "booking.cancelSlot"
  const BookPath := "schemas/" + "book-slot.json"
  const CancelPath := "schemas/" + "cancel-slot.json"

  /** The lines of test 11's document. */
  function BookingDoc(): seq<string>
  {
    TwoNamedDoc("post", "bookSlot", BookSrc, "/book", "BookSlot", FileRef(BookPath),
      "cancelSlot", CancelSrc, "/cancel", "CancelSlot", FileRef(CancelPath))
  }

  lemma BookKeys()
    ensures IsKey("bookSlot") && "bookSlot" != "handler" && Plain("/book") && Plain("post") && Plain("BookSlot")
  {
  }

  lemma BookFiles()
    ensures Plain(BookSrc) && Plain(BookPath) && ')' !in BookPath
  {
    assert Plain("src/handlers/") && Plain("booking.bookSlot");
    PlainConcat("src/handlers/", "booking.bookSlot");
    assert Plain("schemas/") && Plain("book-slot.json");
    PlainConcat("schemas/", "book-slot.json");
  }

  lemma CancelKeys()
    ensures IsKey("cancelSlot") && "cancelSlot" != "handler" && Plain("/cancel") && Plain("CancelSlot")
  {
  }

  lemma CancelFiles()
    ensures Plain(CancelSrc) && Plain(CancelPath) && ')' !in CancelPath
  {
    assert Plain("src/handlers/") && Plain("booking.cancelSlot");
    PlainConcat("src/handlers/", "booking.cancelSlot");
    assert Plain("schemas/") && Plain("cancel-slot.json");
    PlainConcat("schemas/", "cancel-slot.json");
  }

  /** Two functions whose schemas are file references: both are reported,
      in document order, each with its path under its own function. */
  lemma TwoNamedDocument(verb: string, n1: string, r1: string, p1: string, l1: string, q1: string,
                         n2: string, r2: string, p2: string, l2: string, q2: string)
    requires FunctionWords(n1, r1, p1, verb, FileRef(q1)) && Plain(l1) && q1 != [] && ')' !in q1
    requires FunctionWords(n2, r2, p2, verb, FileRef(q2)) && Plain(l2) && q2 != [] && ')' !in q2
    ensures var lines := TwoNamedDoc(verb, n1, r1, p1, l1, FileRef(q1), n2, r2, p2, l2, FileRef(q2));
      ParseServerlessYaml(Join(lines, '\n')).schemas ==
        [SchemaEntry(FileRef(q1), q1, 14, n1), SchemaEntry(FileRef(q2), q2, 25, n2)]
  {
    var lines := TwoNamedDoc(verb, n1, r1, p1, l1, FileRef(q1), n2, r2, p2, l2, FileRef(q2));
    TwoNamedOneLine(verb, n1, r1, p1, l1, FileRef(q1), n2, r2, p2, l2, FileRef(q2));
    TwoNamedSchemas(verb, n1, r1, p1, l1, FileRef(q1), n2, r2, p2, l2, FileRef(q2));
    SchemaOfFileRef(q1, 14, n1);
    SchemaOfFileRef(q2, 25, n2);
    DocumentSchemas(Join(lines, '\n'), lines, [SchemaEntry(FileRef(q1), q1, 14, n1), SchemaEntry(FileRef(q2), q2, 25, n2)]);
  }

  /** Test 11: both schemas are reported, in document order, with their paths and functions. */
  lemma BookingSchemas()
    ensures ParseServerlessYaml(Join(BookingDoc(), '\n')).schemas ==
      [SchemaEntry(FileRef(BookPath), BookPath, 14, "bookSlot"),
       SchemaEntry(FileRef(CancelPath), CancelPath, 25, "cancelSlot")]
  {
    BookKeys();
    BookFiles();
    CancelKeys();
    CancelFiles();
    PlainFileRef(BookPath);
    PlainFileRef(CancelPath);
    TwoNamedDocument("post", "bookSlot", BookSrc, "/book", "BookSlot", BookPath,
      "cancelSlot", CancelSrc, "/cancel", "CancelSlot", CancelPath);
  }

  /** Two plain words side by side make a plain word. */
  lemma PlainConcat(a: string, b: string)
    requires Plain(a) && Plain(b)
    ensures Plain(a + b)
  {
    forall k | 0 <= k < |a + b|
      ensures !IsSpace((a + b)[k])
    {
      if k < |a| {
        assert (a + b)[k] == a[k];
      } else {
        assert (a + b)[k] == b[k - |a|];
      }
    }
  }
}
