/**
  Concrete documents from the parser's tests, written line by line with
  `KeyText` (an indented `key: value` line) and `Spaces`, and what
  `parseServerlessYaml` makes of them. The line-shape lemmas say once what
  each scanner does with a line of a given shape, so that a document is
  followed line by line without evaluating the scanners on long literals.
 */
module ParserCases {
  import opened Wrappers
  import opened Text
  import opened Tree
  import opened YamlParser
  import opened YamlProperties

  /** `n` spaces. */
  function Spaces(n: nat): (s: string)
    ensures |s| == n && AllSpace(s) && forall k :: 0 <= k < n ==> s[k] == ' '
  {
    seq(n, _ => ' ')
  }

  /** A value with no white space at all (so no inline comment either). */
  predicate Plain(v: string)
  {
    v != [] && forall k :: 0 <= k < |v| ==> !IsSpace(v[k])
  }

  /** The separator a key line is written with: `:` alone, or `: ` before a value. */
  function Sep(value: string): string
  {
    if value == [] then ":" else ": "
  }

  /** The line `key:` (when `value` is empty) or `key: value`, indented by `n` spaces. */
  function KeyText(n: nat, key: string, value: string): string
  {
    Spaces(n) + (key + Sep(value) + value)
  }

  /** A line with no line break in it. */
  predicate OneLine(line: string)
  {
    forall k :: 0 <= k < |line| ==> line[k] != '\n'
  }

  lemma OneLineConcat(a: string, b: string)
    requires OneLine(a) && OneLine(b)
    ensures OneLine(a + b)
  {
    assert forall k :: |a| <= k < |a + b| ==> (a + b)[k] == b[k - |a|];
  }

  /** A plain value is its own cut and trimmed value. */
  lemma PlainValue(v: string)
    requires Plain(v)
    ensures Trim(StripComment(v)) == v
  {
    assert CommentFrom(v, 0) == |v|;
    assert StripComment(v) == v;
    TrimNone(v);
  }

  lemma SepIsSeparator(value: string)
    ensures IsSeparator(Sep(value)) && OneLine(Sep(value))
  {
    var sep := Sep(value);
    assert SkipSpaces(sep, 0) == 0;
    assert sep[1..] == [] || sep[1..] == " ";
  }

  /** A key, a separator and a value not starting with white space make a key line. */
  lemma KeyLineOf(key: string, sep: string, value: string)
    requires IsKey(key) && IsSeparator(sep) && (value == [] || !IsSpace(value[0]))
    ensures KeyLine(key + sep + value, key, value)
  {
    var t := key + sep + value;
    assert t[..|key|] == key;
    assert t[|t| - |value|..] == value;
    assert t[|key|..|t| - |value|] == sep;
  }

  /** The text of a key line after its indentation: a key line with ends that are not white space. */
  lemma KeyTextBody(key: string, value: string)
    requires IsKey(key) && (value == [] || Plain(value))
    ensures var t := key + Sep(value) + value;
      KeyLine(t, key, value) && t != [] && !IsSpace(t[0]) && !IsSpace(t[|t| - 1]) && OneLine(t)
  {
    var t := key + Sep(value) + value;
    SepIsSeparator(value);
    KeyLineOf(key, Sep(value), value);
    assert t[0] == key[0];
    if value == [] {
      assert t[|t| - 1] == ':';
    } else {
      assert t[|t| - 1] == value[|value| - 1];
    }
    assert OneLine(key) by {
      forall k | 0 <= k < |key|
        ensures key[k] != '\n'
      {
        if k > 0 {
          assert IsKeyChar(key[k]);
        }
      }
    }
    OneLineConcat(key, Sep(value));
    OneLineConcat(key + Sep(value), value);
  }

  /** What the scanners read on a key line: its indentation, its trimmed
      text, its key and value; it is not blank or a comment. */
  lemma KeyTextFacts(n: nat, key: string, value: string)
    requires IsKey(key) && (value == [] || Plain(value))
    ensures var line := KeyText(n, key, value);
      Indent(line) == n && !IsSkipped(line) &&
      MatchKey(Trim(line)) == Some(KeyValue(key, value)) &&
      HasKeyColon(Trim(line)) && (IsFunctionsHeader(Trim(line)) <==> key == "functions")
  {
    var t := key + Sep(value) + value;
    var line := KeyText(n, key, value);
    KeyTextBody(key, value);
    TrimLeft(Spaces(n), t);
    assert line[n] == t[0];
    SkipSpacesIs(line, 0, n);
    MatchKeyComplete(t, key, value);
    KeyPatternColon(t);
    FunctionsHeaderIff(t);
  }

  /** A key line holds no line break. */
  lemma KeyTextOneLine(n: nat, key: string, value: string)
    requires IsKey(key) && (value == [] || Plain(value))
    ensures OneLine(KeyText(n, key, value))
  {
    KeyTextBody(key, value);
    OneLineConcat(Spaces(n), key + Sep(value) + value);
  }

  /** What `extractHandlers` does with a key line. */
  lemma HandlerKeyText(st: HandlerScan, n: nat, key: string, value: string, i: nat)
    requires IsKey(key) && (value == [] || Plain(value))
    ensures HandlerStep(st, KeyText(n, key, value), i) ==
      if key == "functions" && n == 0 then st.(inFunctions := true, functionsIndent := 0)
      else if st.inFunctions && n == 0 then st.(inFunctions := false, functionName := "", functionIndent := -1, functionLine := -1)
      else if !st.inFunctions then st
      else HandlerKeyStep(st, n, key, value, i)
  {
    KeyTextFacts(n, key, value);
  }

  /** The text of a line the key pattern rejects, such as a list item
      `- http:` or a key with a `/` in it, with no white space at its ends. */
  predicate Unkeyed(t: string)
  {
    t != [] && !IsSpace(t[0]) && !IsSpace(t[|t| - 1]) && MatchKey(t).None? && OneLine(t)
  }

  /** An indented line the key pattern rejects changes no state of either scanner. */
  lemma OtherText(hs: HandlerScan, ss: SchemaScan, n: nat, t: string, i: nat)
    requires n > 0 && Unkeyed(t)
    ensures HandlerStep(hs, Spaces(n) + t, i) == hs && SchemaStep(ss, Spaces(n) + t, i) == ss
  {
    var line := Spaces(n) + t;
    TrimLeft(Spaces(n), t);
    assert line[n] == t[0];
    SkipSpacesIs(line, 0, n);
  }

  /** What `extractSchemas` does with a key line. */
  lemma SchemaKeyText(st: SchemaScan, n: nat, key: string, value: string, i: nat)
    requires IsKey(key) && (value == [] || Plain(value))
    ensures SchemaStep(st, KeyText(n, key, value), i) ==
      if key == "functions" && n == 0 then st.(inFunctions := true)
      else if st.inFunctions && n == 0 then st.(inFunctions := false, functionName := "", functionIndent := -1)
      else if !st.inFunctions then st
      else SchemaKeyStep(st, n, key, value, i)
  {
    KeyTextFacts(n, key, value);
  }

  /** `part` sits in `lines` from position `i` on. */
  predicate At(lines: seq<string>, i: nat, part: seq<string>)
  {
    i + |part| <= |lines| && lines[i..i + |part|] == part
  }

  lemma AtFront(part: seq<string>, rest: seq<string>)
    ensures At(part + rest, 0, part)
  {
    assert (part + rest)[..|part|] == part;
  }

  lemma AtShift(front: seq<string>, lines: seq<string>, i: nat, part: seq<string>)
    requires At(lines, i, part)
    ensures At(front + lines, |front| + i, part)
  {
    assert (front + lines)[|front| + i..|front| + i + |part|] == lines[i..i + |part|];
  }

  /** Every line of `part` is free of line breaks. */
  predicate OneLines(part: seq<string>)
  {
    forall k :: 0 <= k < |part| ==> OneLine(part[k])
  }

  lemma OneLinesConcat(a: seq<string>, b: seq<string>)
    requires OneLines(a) && OneLines(b)
    ensures OneLines(a + b)
  {
    assert forall k :: |a| <= k < |a + b| ==> (a + b)[k] == b[k - |a|];
  }

  /** The form `ParseLines` asks for: no line holds `\n`. */
  lemma OneLinesNoBreak(lines: seq<string>)
    requires OneLines(lines)
    ensures forall l :: l in lines ==> '\n' !in l
  {
    forall l | l in lines
      ensures '\n' !in l
    {
      var j :| 0 <= j < |lines| && lines[j] == l;
      assert OneLine(lines[j]);
    }
  }

  /** The keys the scanners look for are keys of the key pattern. */
  lemma FixedKeys()
    ensures IsKey("functions") && IsKey("handler") && IsKey("events") && IsKey("schema")
  {
  }

  /** One iteration of `extractHandlers` at line `i`. */
  lemma HandlerNext(lines: seq<string>, i: nat, next: HandlerScan)
    requires i < |lines| && HandlerStep(HandlerScanAt(lines, i), lines[i], i) == next
    ensures HandlerScanAt(lines, i + 1) == next
  {
  }

  /** Both scanners start from their initial state. */
  lemma ScanStart(lines: seq<string>)
    ensures HandlerScanAt(lines, 0) == HandlerScanStart && SchemaScanAt(lines, 0) == SchemaScanStart
  {
  }

  /** One iteration of `extractSchemas` at line `i`. */
  lemma SchemaNext(lines: seq<string>, i: nat, next: SchemaScan)
    requires i < |lines| && SchemaStep(SchemaScanAt(lines, i), lines[i], i) == next
    ensures SchemaScanAt(lines, i + 1) == next
  {
  }

  /** A function at indentation 2 with a `handler:` and a one-item `events:` list. */
  function FunctionLines(name: string, raw: string, event: string): seq<string>
  {
    [KeyText(2, name, ""), KeyText(4, "handler", raw), KeyText(4, "events", ""), Spaces(6) + event]
  }

  lemma FunctionLinesOneLine(name: string, raw: string, event: string)
    requires IsKey(name) && Plain(raw) && Unkeyed(event)
    ensures OneLines(FunctionLines(name, raw, event))
  {
    var part := FunctionLines(name, raw, event);
    FixedKeys();
    KeyTextOneLine(2, name, "");
    KeyTextOneLine(4, "handler", raw);
    KeyTextOneLine(4, "events", "");
    OneLineConcat(Spaces(6), event);
    assert OneLine(part[0]) && OneLine(part[1]) && OneLine(part[2]) && OneLine(part[3]);
  }

  /** A function's name line opens its scope, and its `handler:` line is
      recorded with that scope. */
  lemma NameAndHandler(lines: seq<string>, i: nat, name: string, raw: string)
    requires IsKey(name) && name != "handler" && Plain(raw)
    requires i + 2 <= |lines| && lines[i] == KeyText(2, name, "") && lines[i + 1] == KeyText(4, "handler", raw)
    requires var st := HandlerScanAt(lines, i);
      st.inFunctions && st.functionsIndent == 0 && (st.functionIndent < 0 || st.functionIndent >= 2)
    ensures var st := HandlerScanAt(lines, i);
      HandlerScanAt(lines, i + 2) == st.(functionName := name, functionIndent := 2, functionLine := i,
        handlers := st.handlers + [HandlerEntry(raw, i + 1, i, name)])
  {
    FixedKeys();
    var st := HandlerScanAt(lines, i);
    var s1 := st.(functionName := name, functionIndent := 2, functionLine := i);
    HandlerKeyText(st, 2, name, "", i);
    HandlerNext(lines, i, s1);
    HandlerKeyText(s1, 4, "handler", raw, i + 1);
    PlainValue(raw);
    HandlerNext(lines, i + 1, s1.(handlers := st.handlers + [HandlerEntry(raw, i + 1, i, name)]));
  }

  /** Under a function at indentation 2, a key line at indentation 4 with
      no value (such as `events:`) and the list item below it change nothing. */
  lemma EventsList(lines: seq<string>, i: nat, key: string, event: string)
    requires IsKey(key) && key != "handler" && key != "functions" && Unkeyed(event)
    requires i + 2 <= |lines| && lines[i] == KeyText(4, key, "") && lines[i + 1] == Spaces(6) + event
    requires var st := HandlerScanAt(lines, i); st.inFunctions && st.functionsIndent == 0 && st.functionIndent == 2
    ensures HandlerScanAt(lines, i + 2) == HandlerScanAt(lines, i)
  {
    var st := HandlerScanAt(lines, i);
    HandlerKeyText(st, 4, key, "", i);
    HandlerNext(lines, i, st);
    OtherText(st, SchemaScanStart, 6, event, i + 1);
    HandlerNext(lines, i + 1, st);
  }

  /** Inside the block, a function at indentation 2 that is not nested in the
      current one: its name line opens its scope, its `handler:` line is
      recorded with that scope, its `events:` list changes nothing. */
  lemma FunctionBlock(lines: seq<string>, i: nat, name: string, raw: string, event: string)
    requires IsKey(name) && name != "handler" && Plain(raw) && Unkeyed(event)
    requires At(lines, i, FunctionLines(name, raw, event))
    requires var st := HandlerScanAt(lines, i);
      st.inFunctions && st.functionsIndent == 0 && (st.functionIndent < 0 || st.functionIndent >= 2)
    ensures var st := HandlerScanAt(lines, i);
      HandlerScanAt(lines, i + 4) == st.(functionName := name, functionIndent := 2, functionLine := i,
        handlers := st.handlers + [HandlerEntry(raw, i + 1, i, name)])
  {
    var part := FunctionLines(name, raw, event);
    assert lines[i] == part[0] && lines[i + 1] == part[1] && lines[i + 2] == part[2] && lines[i + 3] == part[3];
    NameAndHandler(lines, i, name, raw);
    FixedKeys();
    EventsList(lines, i + 2, "events", event);
  }

  // ---------------------------------------------------------------------------
  // Test 1: two functions, each with a handler and an event

  const HelloRaw := "src/functions/hello.handler"
  const GoodbyeRaw := "src/functions/goodbye.main"
  const HelloEvent := "- http: GET /hello"
  const GoodbyeEvent := "- http: GET /goodbye"

  /** The document's first lines: a blank line, `service:`, a blank line, the header. */
  function ServiceHead(): seq<string>
  {
    ["", KeyText(0, "service", "my-service"), "", KeyText(0, "functions", "")]
  }

  /** The lines of test 1's document (it starts and ends with a line break). */
  function TwoFunctions(): seq<string>
  {
    ServiceHead() + (FunctionLines("hello", HelloRaw, HelloEvent) + (FunctionLines("goodbye", GoodbyeRaw, GoodbyeEvent) + [""]))
  }

  /** The entries test 1 expects, in document order. */
  function TwoHandlers(): seq<HandlerEntry>
  {
    [HandlerEntry(HelloRaw, 5, 4, "hello"), HandlerEntry(GoodbyeRaw, 9, 8, "goodbye")]
  }

  lemma ServiceHeadWords()
    ensures IsKey("service") && Plain("my-service")
  {
  }

  lemma TwoFunctionsWords()
    ensures IsKey("hello") && IsKey("goodbye") && Plain(HelloRaw) && Plain(GoodbyeRaw)
    ensures Unkeyed(HelloEvent) && Unkeyed(GoodbyeEvent)
  {
  }

  /** Up to the `functions:` header: the blank lines and `service:` change nothing. */
  lemma ServiceHeadScan(lines: seq<string>)
    requires At(lines, 0, ServiceHead())
    ensures HandlerScanAt(lines, 4) == HandlerScanStart.(inFunctions := true, functionsIndent := 0)
  {
    FixedKeys();
    ServiceHeadWords();
    var part := ServiceHead();
    assert lines[0] == part[0] && lines[1] == part[1] && lines[2] == part[2] && lines[3] == part[3];
    var s0 := HandlerScanStart;
    HandlerNext(lines, 0, s0);
    HandlerKeyText(s0, 0, "service", "my-service", 1);
    HandlerNext(lines, 1, s0);
    HandlerNext(lines, 2, s0);
    HandlerKeyText(s0, 0, "functions", "", 3);
    HandlerNext(lines, 3, s0.(inFunctions := true, functionsIndent := 0));
  }

  lemma ServiceHeadOneLine()
    ensures OneLines(ServiceHead())
  {
    FixedKeys();
    ServiceHeadWords();
    KeyTextOneLine(0, "service", "my-service");
    KeyTextOneLine(0, "functions", "");
  }

  /** Where the parts of test 1's document sit. */
  lemma TwoFunctionsParts()
    ensures var lines := TwoFunctions();
      |lines| == 13 && At(lines, 0, ServiceHead()) && lines[12] == [] &&
      At(lines, 4, FunctionLines("hello", HelloRaw, HelloEvent)) &&
      At(lines, 8, FunctionLines("goodbye", GoodbyeRaw, GoodbyeEvent))
  {
    var head := ServiceHead();
    var f1 := FunctionLines("hello", HelloRaw, HelloEvent);
    var f2 := FunctionLines("goodbye", GoodbyeRaw, GoodbyeEvent);
    AtFront(head, f1 + (f2 + [""]));
    AtFront(f1, f2 + [""]);
    AtShift(head, f1 + (f2 + [""]), 0, f1);
    AtFront(f2, [""]);
    AtShift(f1, f2 + [""], 0, f2);
    AtShift(head, f1 + (f2 + [""]), 4, f2);
  }

  /** The whole document: the header, the two functions, the final blank line. */
  lemma TwoFunctionsScan(lines: seq<string>)
    requires |lines| == 13 && At(lines, 0, ServiceHead()) && lines[12] == []
    requires At(lines, 4, FunctionLines("hello", HelloRaw, HelloEvent))
    requires At(lines, 8, FunctionLines("goodbye", GoodbyeRaw, GoodbyeEvent))
    ensures Handlers(lines) == TwoHandlers()
  {
    TwoFunctionsWords();
    ServiceHeadScan(lines);
    FunctionBlock(lines, 4, "hello", HelloRaw, HelloEvent);
    FunctionBlock(lines, 8, "goodbye", GoodbyeRaw, GoodbyeEvent);
    HandlerNext(lines, 12, HandlerScanAt(lines, 12));
  }

  lemma TwoFunctionsOneLine()
    ensures OneLines(TwoFunctions())
  {
    TwoFunctionsWords();
    ServiceHeadOneLine();
    FunctionLinesOneLine("hello", HelloRaw, HelloEvent);
    FunctionLinesOneLine("goodbye", GoodbyeRaw, GoodbyeEvent);
    OneLinesConcat(FunctionLines("goodbye", GoodbyeRaw, GoodbyeEvent), [""]);
    OneLinesConcat(FunctionLines("hello", HelloRaw, HelloEvent), FunctionLines("goodbye", GoodbyeRaw, GoodbyeEvent) + [""]);
    OneLinesConcat(ServiceHead(), FunctionLines("hello", HelloRaw, HelloEvent) + (FunctionLines("goodbye", GoodbyeRaw, GoodbyeEvent) + [""]));
  }

  /** The handler entries `parseServerlessYaml` reports for the text made of `lines`. */
  lemma DocumentHandlers(text: string, lines: seq<string>, hs: seq<HandlerEntry>)
    requires |lines| >= 1 && OneLines(lines) && text == Join(lines, '\n') && Handlers(lines) == hs
    ensures ParseServerlessYaml(text).handlers == hs
  {
    OneLinesNoBreak(lines);
    ParseLines(text, lines);
  }

  /** Test 1: two functions with a handler each give two entries, in
      document order, each with its raw value and its function's name. */
  lemma BasicHandlerExtraction()
    ensures ParseServerlessYaml(Join(TwoFunctions(), '\n')).handlers == TwoHandlers()
    ensures |TwoHandlers()| == 2
    ensures TwoHandlers()[0].raw == "src/functions/hello.handler" && TwoHandlers()[0].functionName == "hello"
    ensures TwoHandlers()[1].raw == "src/functions/goodbye.main" && TwoHandlers()[1].functionName == "goodbye"
  {
    TwoFunctionsOneLine();
    TwoFunctionsParts();
    TwoFunctionsScan(TwoFunctions());
    DocumentHandlers(Join(TwoFunctions(), '\n'), TwoFunctions(), TwoHandlers());
  }

  // ---------------------------------------------------------------------------
  // Parts shared by tests 4 and 12

  /** A blank line changes no state of either scanner. */
  lemma BlankLine(lines: seq<string>, i: nat)
    requires i < |lines| && lines[i] == []
    ensures HandlerScanAt(lines, i + 1) == HandlerScanAt(lines, i)
    ensures SchemaScanAt(lines, i + 1) == SchemaScanAt(lines, i)
  {
    HandlerNext(lines, i, HandlerScanAt(lines, i));
    SchemaNext(lines, i, SchemaScanAt(lines, i));
  }

  /** A top-level `key: value` between blank lines. */
  function TopLines(key: string, value: string): seq<string>
  {
    ["", KeyText(0, key, value), ""]
  }

  /** A top-level section other than `functions:` with one key at indentation 2, and a blank line. */
  function Section(sec: string, key: string, value: string): seq<string>
  {
    [KeyText(0, sec, ""), KeyText(2, key, value), ""]
  }

  /** Before the block, a top-level key line changes nothing. */
  lemma TopLinesHandlers(lines: seq<string>, i: nat, key: string, value: string)
    requires IsKey(key) && key != "functions" && Plain(value) && At(lines, i, TopLines(key, value))
    requires !HandlerScanAt(lines, i).inFunctions
    ensures HandlerScanAt(lines, i + 3) == HandlerScanAt(lines, i)
  {
    var part := TopLines(key, value);
    assert lines[i] == part[0] && lines[i + 1] == part[1] && lines[i + 2] == part[2];
    BlankLine(lines, i);
    HandlerKeyText(HandlerScanAt(lines, i), 0, key, value, i + 1);
    HandlerNext(lines, i + 1, HandlerScanAt(lines, i));
    BlankLine(lines, i + 2);
  }

  lemma TopLinesSchemas(lines: seq<string>, i: nat, key: string, value: string)
    requires IsKey(key) && key != "functions" && Plain(value) && At(lines, i, TopLines(key, value))
    requires !SchemaScanAt(lines, i).inFunctions
    ensures SchemaScanAt(lines, i + 3) == SchemaScanAt(lines, i)
  {
    var part := TopLines(key, value);
    assert lines[i] == part[0] && lines[i + 1] == part[1] && lines[i + 2] == part[2];
    BlankLine(lines, i);
    SchemaKeyText(SchemaScanAt(lines, i), 0, key, value, i + 1);
    SchemaNext(lines, i + 1, SchemaScanAt(lines, i));
    BlankLine(lines, i + 2);
  }

  /** Outside the block, a section's keys are not looked at, even `handler:`. */
  lemma SectionHandlers(lines: seq<string>, i: nat, sec: string, key: string, value: string)
    requires IsKey(sec) && sec != "functions" && IsKey(key) && Plain(value) && At(lines, i, Section(sec, key, value))
    requires !HandlerScanAt(lines, i).inFunctions
    ensures HandlerScanAt(lines, i + 3) == HandlerScanAt(lines, i)
  {
    var part := Section(sec, key, value);
    assert lines[i] == part[0] && lines[i + 1] == part[1] && lines[i + 2] == part[2];
    var st := HandlerScanAt(lines, i);
    HandlerKeyText(st, 0, sec, "", i);
    HandlerNext(lines, i, st);
    HandlerKeyText(st, 2, key, value, i + 1);
    HandlerNext(lines, i + 1, st);
    BlankLine(lines, i + 2);
  }

  /** Outside the block, a section's keys are not looked at, even `schema:`. */
  lemma SectionSchemas(lines: seq<string>, i: nat, sec: string, key: string, value: string)
    requires IsKey(sec) && sec != "functions" && IsKey(key) && Plain(value) && At(lines, i, Section(sec, key, value))
    requires !SchemaScanAt(lines, i).inFunctions
    ensures SchemaScanAt(lines, i + 3) == SchemaScanAt(lines, i)
  {
    var part := Section(sec, key, value);
    assert lines[i] == part[0] && lines[i + 1] == part[1] && lines[i + 2] == part[2];
    var st := SchemaScanAt(lines, i);
    SchemaKeyText(st, 0, sec, "", i);
    SchemaNext(lines, i, st);
    SchemaKeyText(st, 2, key, value, i + 1);
    SchemaNext(lines, i + 1, st);
    BlankLine(lines, i + 2);
  }

  lemma TopLinesOneLine(key: string, value: string)
    requires IsKey(key) && Plain(value)
    ensures OneLines(TopLines(key, value))
  {
    KeyTextOneLine(0, key, value);
  }

  lemma SectionOneLine(sec: string, key: string, value: string)
    requires IsKey(sec) && IsKey(key) && Plain(value)
    ensures OneLines(Section(sec, key, value))
  {
    KeyTextOneLine(0, sec, "");
    KeyTextOneLine(2, key, value);
  }

  const ServiceName := "my-service"

  lemma ServiceWords()
    ensures IsKey("service") && IsKey("custom") && Plain(ServiceName)
  {
  }

  // ---------------------------------------------------------------------------
  // Test 4: `handler:` keys outside the `functions:` block are not extracted

  const CustomRaw := "should/not/be/extracted.handler"
  const ResourcesRaw := "should/also/not/be/extracted.handler"

  /** The `functions:` header, one function with a `handler:`, and a blank line. */
  function OneHandler(name: string, raw: string): seq<string>
  {
    [KeyText(0, "functions", ""), KeyText(2, name, ""), KeyText(4, "handler", raw), ""]
  }

  /** A top-level section with a sub-record holding one key, and a blank line. */
  function Closing(sec: string, sub: string, key: string, value: string): seq<string>
  {
    [KeyText(0, sec, ""), KeyText(2, sub, ""), KeyText(4, key, value), ""]
  }

  /** The header opens the block, the function's name line opens its scope, its
      `handler:` line is recorded. */
  lemma OneHandlerScan(lines: seq<string>, i: nat, name: string, raw: string)
    requires IsKey(name) && name != "handler" && Plain(raw) && At(lines, i, OneHandler(name, raw))
    requires var st := HandlerScanAt(lines, i); !st.inFunctions && st.functionIndent < 0
    ensures var st := HandlerScanAt(lines, i);
      HandlerScanAt(lines, i + 4) == st.(inFunctions := true, functionsIndent := 0,
        functionName := name, functionIndent := 2, functionLine := i + 1,
        handlers := st.handlers + [HandlerEntry(raw, i + 2, i + 1, name)])
  {
    FixedKeys();
    var part := OneHandler(name, raw);
    assert lines[i] == part[0] && lines[i + 1] == part[1] && lines[i + 2] == part[2] && lines[i + 3] == part[3];
    var st := HandlerScanAt(lines, i);
    HandlerKeyText(st, 0, "functions", "", i);
    HandlerNext(lines, i, st.(inFunctions := true, functionsIndent := 0));
    NameAndHandler(lines, i + 1, name, raw);
    BlankLine(lines, i + 3);
  }

  /** A top-level key line closes the block and clears the function scope; the
      keys under it, even `handler:`, are not looked at. */
  lemma ClosingHandlers(lines: seq<string>, i: nat, sec: string, sub: string, key: string, value: string)
    requires IsKey(sec) && sec != "functions" && IsKey(sub) && IsKey(key) && Plain(value)
    requires At(lines, i, Closing(sec, sub, key, value)) && HandlerScanAt(lines, i).inFunctions
    ensures HandlerScanAt(lines, i + 4) ==
      HandlerScanAt(lines, i).(inFunctions := false, functionName := "", functionIndent := -1, functionLine := -1)
  {
    var part := Closing(sec, sub, key, value);
    assert lines[i] == part[0] && lines[i + 1] == part[1] && lines[i + 2] == part[2] && lines[i + 3] == part[3];
    var st := HandlerScanAt(lines, i).(inFunctions := false, functionName := "", functionIndent := -1, functionLine := -1);
    HandlerKeyText(HandlerScanAt(lines, i), 0, sec, "", i);
    HandlerNext(lines, i, st);
    HandlerKeyText(st, 2, sub, "", i + 1);
    HandlerNext(lines, i + 1, st);
    HandlerKeyText(st, 4, key, value, i + 2);
    HandlerNext(lines, i + 2, st);
    BlankLine(lines, i + 3);
  }

  /** A document made of a top-level key, a section before the block, a
      `functions:` block with one function, and a section that closes the
      block. */
  function AroundBlock(key: string, value: string, sec1: string, key1: string, value1: string,
                       name: string, raw: string, sec2: string, sub: string, key2: string, value2: string): seq<string>
  {
    TopLines(key, value) + (Section(sec1, key1, value1) + (OneHandler(name, raw) + Closing(sec2, sub, key2, value2)))
  }

  /** What may be written in such a document: before the block, in it, and after it. */
  predicate AroundBlockWords(key: string, value: string, sec1: string, key1: string, value1: string,
                             name: string, raw: string, sec2: string, sub: string, key2: string, value2: string)
  {
    HeadWords(key, value, sec1, key1, value1) && BlockWords(name, raw) && TailWords(sec2, sub, key2, value2)
  }

  predicate HeadWords(key: string, value: string, sec1: string, key1: string, value1: string)
  {
    IsKey(key) && key != "functions" && Plain(value) && IsKey(sec1) && sec1 != "functions" && IsKey(key1) && Plain(value1)
  }

  predicate BlockWords(name: string, raw: string)
  {
    IsKey(name) && name != "handler" && Plain(raw)
  }

  predicate TailWords(sec2: string, sub: string, key2: string, value2: string)
  {
    IsKey(sec2) && sec2 != "functions" && IsKey(sub) && IsKey(key2) && Plain(value2)
  }

  /** Where the parts of such a document sit. */
  lemma AroundBlockParts(key: string, value: string, sec1: string, key1: string, value1: string,
                         name: string, raw: string, sec2: string, sub: string, key2: string, value2: string)
    ensures var lines := AroundBlock(key, value, sec1, key1, value1, name, raw, sec2, sub, key2, value2);
      |lines| == 14 && At(lines, 0, TopLines(key, value)) && At(lines, 3, Section(sec1, key1, value1)) &&
      At(lines, 6, OneHandler(name, raw)) && At(lines, 10, Closing(sec2, sub, key2, value2))
  {
    var a := TopLines(key, value);
    var b := Section(sec1, key1, value1);
    var c := OneHandler(name, raw);
    var d := Closing(sec2, sub, key2, value2);
    AtFront(a, b + (c + d));
    AtFront(b, c + d);
    AtShift(a, b + (c + d), 0, b);
    AtFront(c, d);
    AtShift(b, c + d, 0, c);
    AtShift(a, b + (c + d), 3, c);
    assert At(d, 0, d);
    AtShift(c, d, 0, d);
    AtShift(b, c + d, 4, d);
    AtShift(a, b + (c + d), 7, d);
  }

  /** Only the `handler:` under the function inside the block is recorded:
      not the one in the section before the block, nor the one after the
      section that closes it. */
  lemma AroundBlockHandlers(key: string, value: string, sec1: string, key1: string, value1: string,
                            name: string, raw: string, sec2: string, sub: string, key2: string, value2: string)
    requires AroundBlockWords(key, value, sec1, key1, value1, name, raw, sec2, sub, key2, value2)
    ensures Handlers(AroundBlock(key, value, sec1, key1, value1, name, raw, sec2, sub, key2, value2)) ==
      [HandlerEntry(raw, 8, 7, name)]
  {
    var lines := AroundBlock(key, value, sec1, key1, value1, name, raw, sec2, sub, key2, value2);
    AroundBlockParts(key, value, sec1, key1, value1, name, raw, sec2, sub, key2, value2);
    ScanStart(lines);
    TopLinesHandlers(lines, 0, key, value);
    SectionHandlers(lines, 3, sec1, key1, value1);
    OneHandlerScan(lines, 6, name, raw);
    ClosingHandlers(lines, 10, sec2, sub, key2, value2);
  }

  lemma AroundBlockOneLine(key: string, value: string, sec1: string, key1: string, value1: string,
                           name: string, raw: string, sec2: string, sub: string, key2: string, value2: string)
    requires AroundBlockWords(key, value, sec1, key1, value1, name, raw, sec2, sub, key2, value2)
    ensures OneLines(AroundBlock(key, value, sec1, key1, value1, name, raw, sec2, sub, key2, value2))
  {
    FixedKeys();
    var a := TopLines(key, value);
    var b := Section(sec1, key1, value1);
    var c := OneHandler(name, raw);
    var d := Closing(sec2, sub, key2, value2);
    TopLinesOneLine(key, value);
    SectionOneLine(sec1, key1, value1);
    KeyTextOneLine(0, "functions", "");
    KeyTextOneLine(2, name, "");
    KeyTextOneLine(4, "handler", raw);
    KeyTextOneLine(0, sec2, "");
    KeyTextOneLine(2, sub, "");
    KeyTextOneLine(4, key2, value2);
    assert OneLines(c) && OneLines(d);
    OneLinesConcat(c, d);
    OneLinesConcat(b, c + d);
    OneLinesConcat(a, b + (c + d));
  }

  /** The lines of test 4's document. */
  function OutsideHandlers(): seq<string>
  {
    AroundBlock("service", ServiceName, "custom", "handler", CustomRaw, "hello", HelloRaw,
      "resources", "Resources", "handler", ResourcesRaw)
  }

  lemma OutsideHead()
    ensures HeadWords("service", ServiceName, "custom", "handler", CustomRaw)
  {
    FixedKeys();
    ServiceWords();
    assert Plain(CustomRaw);
  }

  lemma OutsideBlock()
    ensures BlockWords("hello", HelloRaw)
  {
    assert IsKey("hello") && Plain(HelloRaw);
  }

  lemma OutsideTail()
    ensures TailWords("resources", "Resources", "handler", ResourcesRaw)
  {
    FixedKeys();
    assert IsKey("resources") && IsKey("Resources");
    assert Plain(ResourcesRaw);
  }

  lemma OutsideHandlersWords()
    ensures AroundBlockWords("service", ServiceName, "custom", "handler", CustomRaw, "hello", HelloRaw,
      "resources", "Resources", "handler", ResourcesRaw)
  {
    OutsideHead();
    OutsideBlock();
    OutsideTail();
  }

  /** Test 4: of three `handler:` keys only the one under a function of the
      `functions:` block is reported; the ones under `custom:` and after the
      block is closed by `resources:` are not. */
  lemma NoHandlersOutsideFunctions()
    ensures ParseServerlessYaml(Join(OutsideHandlers(), '\n')).handlers == [HandlerEntry(HelloRaw, 8, 7, "hello")]
  {
    OutsideHandlersWords();
    AroundBlockOneLine("service", ServiceName, "custom", "handler", CustomRaw, "hello", HelloRaw,
      "resources", "Resources", "handler", ResourcesRaw);
    AroundBlockHandlers("service", ServiceName, "custom", "handler", CustomRaw, "hello", HelloRaw,
      "resources", "Resources", "handler", ResourcesRaw);
    DocumentHandlers(Join(OutsideHandlers(), '\n'), OutsideHandlers(), [HandlerEntry(HelloRaw, 8, 7, "hello")]);
  }
}
