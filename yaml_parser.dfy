/**
  The descriptor parser of `serverless.yml`: a line-oriented scanner driven by
  indentation, not a YAML grammar. Three independent passes over the lines
  produce the `handler:` entries of the top-level `functions:` block, its
  `schema: ${file(...)}` entries, and a best-effort key/value tree of the
  whole document.

  Each pass is an imperative method, as in the source, proved equal to a
  left fold over the lines (`HandlerScanAt`, `SchemaScanAt`, `TreeAt`) whose
  step function states what one line does to the scanner's state.
 */
module YamlParser {
  import opened Wrappers
  import opened Text
  import opened Tree

  /** One `handler:` field under a function of the `functions:` block. */
  datatype HandlerEntry = HandlerEntry(raw: string, line: nat, functionLine: int, functionName: string)

  /** One `schema: ${file(<path>)}` field under a function of the `functions:` block. */
  datatype SchemaEntry = SchemaEntry(raw: string, filePath: string, line: nat, functionName: string)

  /** What `parseServerlessYaml` returns. */
  datatype ParsedServerless = ParsedServerless(handlers: seq<HandlerEntry>, schemas: seq<SchemaEntry>, data: Node)

  /** A line every pass skips: blank once trimmed, or a comment. */
  predicate IsSkipped(line: string)
  {
    var t := Trim(line);
    t == [] || t[0] == '#'
  }

  // ---------------------------------------------------------------------------
  // extractHandlers

  /** The loop-carried state of `extractHandlers`, with the source's sentinels:
      no current function is `functionName == ""`, `functionIndent == -1`, `functionLine == -1`. */
  datatype HandlerScan = HandlerScan(
    inFunctions: bool,
    functionsIndent: int,
    functionName: string,
    functionIndent: int,
    functionLine: int,
    handlers: seq<HandlerEntry>)

  const HandlerScanStart := HandlerScan(false, -1, "", -1, -1, [])

  /** What one iteration of the `extractHandlers` loop does with line `i`. */
  function HandlerStep(st: HandlerScan, line: string, i: nat): HandlerScan
  {
    var trimmed := Trim(line);
    if trimmed == [] || trimmed[0] == '#' then st
    else
      var indent := Indent(line);
      if IsFunctionsHeader(trimmed) && indent == 0 then
        st.(inFunctions := true, functionsIndent := indent)
      else if st.inFunctions && indent == 0 && HasKeyColon(trimmed) then
        st.(inFunctions := false, functionName := "", functionIndent := -1, functionLine := -1)
      else if !st.inFunctions then st
      else
        match MatchKey(trimmed)
        case None => st
        case Some(kv) => HandlerKeyStep(st, indent, kv.key, kv.value, i)
  }

  /** What a `key: value` line at `indent` inside the `functions:` block does:
      a key in the indentation window that is not nested in the current
      function starts a new function; a `handler:` under the current function
      with a non-empty value is recorded. */
  function HandlerKeyStep(st: HandlerScan, indent: nat, key: string, value: string, i: nat): HandlerScan
  {
    var scoped := HandlerScope(st, indent, key, i);
    var raw := Trim(StripComment(value));
    if key == "handler" && scoped.functionName != "" && indent > scoped.functionIndent && raw != [] then
      scoped.(handlers := scoped.handlers + [HandlerEntry(raw, i, scoped.functionLine, scoped.functionName)])
    else scoped
  }

  /** Whether a non-`handler` key at `indent`, inside the indentation window
      of the `functions:` block and not nested in the current function, starts a new function. */
  predicate StartsFunction(functionsIndent: int, functionIndent: int, indent: nat, key: string)
  {
    functionsIndent + 1 <= indent <= functionsIndent + 4 && key != "handler"
    && !(functionIndent >= 0 && indent > functionIndent)
  }

  /** The function scope of `extractHandlers` after a `key:` line at `indent`. */
  function HandlerScope(st: HandlerScan, indent: nat, key: string, i: nat): HandlerScan
  {
    if StartsFunction(st.functionsIndent, st.functionIndent, indent, key)
    then st.(functionName := key, functionIndent := indent, functionLine := i)
    else st
  }

  /** The state of `extractHandlers` after its first `n` iterations. */
  function HandlerScanAt(lines: seq<string>, n: nat): HandlerScan
    requires n <= |lines|
  {
    if n == 0 then HandlerScanStart else HandlerStep(HandlerScanAt(lines, n - 1), lines[n - 1], n - 1)
  }

  /** The handler entries of a document. */
  function Handlers(lines: seq<string>): seq<HandlerEntry>
  {
    HandlerScanAt(lines, |lines|).handlers
  }

  /** `extractHandlers`: one pass over the lines with five mutable locals. */
  method ExtractHandlers(lines: seq<string>) returns (handlers: seq<HandlerEntry>)
    ensures handlers == Handlers(lines)
  {
    handlers := [];
    var inFunctions := false;
    var functionsIndent: int := -1;
    var currentFunctionName := "";
    var currentFunctionIndent: int := -1;
    var currentFunctionLine: int := -1;

    for i := 0 to |lines|
      invariant HandlerScanAt(lines, i) == HandlerScan(inFunctions, functionsIndent,
        currentFunctionName, currentFunctionIndent, currentFunctionLine, handlers)
    {
      var st := HandlerLine(lines[i], i, HandlerScan(inFunctions, functionsIndent,
        currentFunctionName, currentFunctionIndent, currentFunctionLine, handlers));
      inFunctions, functionsIndent, currentFunctionName := st.inFunctions, st.functionsIndent, st.functionName;
      currentFunctionIndent, currentFunctionLine, handlers := st.functionIndent, st.functionLine, st.handlers;
    }
  }

  /** The body of the `extractHandlers` loop for line `i`, on the five locals and
      the result list: each `continue` of the source is a `return`. */
  method HandlerLine(line: string, i: nat, st0: HandlerScan) returns (st: HandlerScan)
    ensures st == HandlerStep(st0, line, i)
  {
    var inFunctions, functionsIndent := st0.inFunctions, st0.functionsIndent;
    var currentFunctionName, currentFunctionIndent := st0.functionName, st0.functionIndent;
    var currentFunctionLine, handlers := st0.functionLine, st0.handlers;
    st := st0;
    var trimmed := Trim(line);
    if trimmed == [] || trimmed[0] == '#' {
      return;
    }
    var indent := Indent(line);
    if IsFunctionsHeader(trimmed) && indent == 0 {
      inFunctions := true;
      functionsIndent := indent;
      st := st.(inFunctions := inFunctions, functionsIndent := functionsIndent);
      return;
    }
    if inFunctions && indent == 0 && HasKeyColon(trimmed) {
      inFunctions := false;
      currentFunctionName := "";
      currentFunctionIndent := -1;
      currentFunctionLine := -1;
      st := HandlerScan(inFunctions, functionsIndent, currentFunctionName, currentFunctionIndent,
        currentFunctionLine, handlers);
      return;
    }
    if !inFunctions {
      return;
    }
    var keyMatch := MatchKey(trimmed);
    if keyMatch.None? {
      return;
    }
    assert HandlerStep(st0, line, i) == HandlerKeyStep(st0, indent, keyMatch.value.key, keyMatch.value.value, i);
    st := HandlerKeyLine(st0, indent, keyMatch.value.key, keyMatch.value.value, i);
  }

  /** The rest of the loop body, on a `key: value` line inside the block. */
  method HandlerKeyLine(st0: HandlerScan, indent: nat, key: string, value: string, i: nat) returns (st: HandlerScan)
    ensures st == HandlerKeyStep(st0, indent, key, value, i)
  {
    var currentFunctionName, currentFunctionIndent := st0.functionName, st0.functionIndent;
    var currentFunctionLine, handlers := st0.functionLine, st0.handlers;
    if indent >= st0.functionsIndent + 1 && indent <= st0.functionsIndent + 4 {
      if key != "handler" {
        var isChildOfFunction := currentFunctionIndent >= 0 && indent > currentFunctionIndent;
        if !isChildOfFunction {
          currentFunctionName := key;
          currentFunctionIndent := indent;
          currentFunctionLine := i;
        }
      }
    }
    if key == "handler" && currentFunctionName != "" && indent > currentFunctionIndent {
      var rawValue := Trim(StripComment(value));
      if rawValue != [] {
        handlers := handlers + [HandlerEntry(rawValue, i, currentFunctionLine, currentFunctionName)];
      }
    }
    st := HandlerScan(st0.inFunctions, st0.functionsIndent, currentFunctionName, currentFunctionIndent,
      currentFunctionLine, handlers);
  }

  // ---------------------------------------------------------------------------
  // extractSchemas

  /** The loop-carried state of `extractSchemas`; it has no `functionsIndent`
      and no `functionLine`, and its indentation window is absolute. */
  datatype SchemaScan = SchemaScan(
    inFunctions: bool,
    functionName: string,
    functionIndent: int,
    schemas: seq<SchemaEntry>)

  const SchemaScanStart := SchemaScan(false, "", -1, [])

  /** What one iteration of the `extractSchemas` loop does with line `i`. */
  function SchemaStep(st: SchemaScan, line: string, i: nat): SchemaScan
  {
    var trimmed := Trim(line);
    if trimmed == [] || trimmed[0] == '#' then st
    else
      var indent := Indent(line);
      if IsFunctionsHeader(trimmed) && indent == 0 then
        st.(inFunctions := true)
      else if st.inFunctions && indent == 0 && HasKeyColon(trimmed) then
        st.(inFunctions := false, functionName := "", functionIndent := -1)
      else if !st.inFunctions then st
      else
        match MatchKey(trimmed)
        case None => st
        case Some(kv) => SchemaKeyStep(st, indent, kv.key, kv.value, i)
  }

  /** What a `key: value` line at `indent` inside the `functions:` block does:
      a key at indentation 1 to 4 that is not nested in the current function
      starts a new function; a `schema: ${file(...)}` under a current function
      is recorded with its path. */
  function SchemaKeyStep(st: SchemaScan, indent: nat, key: string, value: string, i: nat): SchemaScan
  {
    var scoped := SchemaScope(st, indent, key);
    var raw := Trim(StripComment(value));
    if key == "schema" && scoped.functionName != "" && MatchFileRef(raw).Some? then
      scoped.(schemas := scoped.schemas + [SchemaEntry(raw, MatchFileRef(raw).value, i, scoped.functionName)])
    else scoped
  }

  /** The function scope of `extractSchemas` after a `key:` line at `indent`:
      its window is that of a `functions:` block at indentation 0. */
  function SchemaScope(st: SchemaScan, indent: nat, key: string): SchemaScan
  {
    if StartsFunction(0, st.functionIndent, indent, key)
    then st.(functionName := key, functionIndent := indent)
    else st
  }

  /** The state of `extractSchemas` after its first `n` iterations. */
  function SchemaScanAt(lines: seq<string>, n: nat): SchemaScan
    requires n <= |lines|
  {
    if n == 0 then SchemaScanStart else SchemaStep(SchemaScanAt(lines, n - 1), lines[n - 1], n - 1)
  }

  /** The schema entries of a document. */
  function Schemas(lines: seq<string>): seq<SchemaEntry>
  {
    SchemaScanAt(lines, |lines|).schemas
  }

  /** `extractSchemas`: one pass over the lines with three mutable locals. */
  method ExtractSchemas(lines: seq<string>) returns (schemas: seq<SchemaEntry>)
    ensures schemas == Schemas(lines)
  {
    schemas := [];
    var inFunctions := false;
    var currentFunctionName := "";
    var currentFunctionIndent: int := -1;

    for i := 0 to |lines|
      invariant SchemaScanAt(lines, i) == SchemaScan(inFunctions, currentFunctionName, currentFunctionIndent, schemas)
    {
      var st := SchemaLine(lines[i], i, SchemaScan(inFunctions, currentFunctionName, currentFunctionIndent, schemas));
      inFunctions, currentFunctionName := st.inFunctions, st.functionName;
      currentFunctionIndent, schemas := st.functionIndent, st.schemas;
    }
  }

  /** The body of the `extractSchemas` loop for line `i`, on the three locals and
      the result list: each `continue` of the source is a `return`. */
  method SchemaLine(line: string, i: nat, st0: SchemaScan) returns (st: SchemaScan)
    ensures st == SchemaStep(st0, line, i)
  {
    var inFunctions, currentFunctionName := st0.inFunctions, st0.functionName;
    var currentFunctionIndent, schemas := st0.functionIndent, st0.schemas;
    st := st0;
    var trimmed := Trim(line);
    if trimmed == [] || trimmed[0] == '#' {
      return;
    }
    var indent := Indent(line);
    if IsFunctionsHeader(trimmed) && indent == 0 {
      inFunctions := true;
      st := st.(inFunctions := inFunctions);
      return;
    }
    if inFunctions && indent == 0 && HasKeyColon(trimmed) {
      inFunctions := false;
      currentFunctionName := "";
      currentFunctionIndent := -1;
      st := SchemaScan(inFunctions, currentFunctionName, currentFunctionIndent, schemas);
      return;
    }
    if !inFunctions {
      return;
    }
    var keyMatch := MatchKey(trimmed);
    if keyMatch.None? {
      return;
    }
    assert SchemaStep(st0, line, i) == SchemaKeyStep(st0, indent, keyMatch.value.key, keyMatch.value.value, i);
    st := SchemaKeyLine(st0, indent, keyMatch.value.key, keyMatch.value.value, i);
  }

  /** The rest of the loop body, on a `key: value` line inside the block. */
  method SchemaKeyLine(st0: SchemaScan, indent: nat, key: string, value: string, i: nat) returns (st: SchemaScan)
    ensures st == SchemaKeyStep(st0, indent, key, value, i)
  {
    var currentFunctionName, currentFunctionIndent, schemas := st0.functionName, st0.functionIndent, st0.schemas;
    if indent >= 1 && indent <= 4 {
      if key != "handler" {
        var isChildOfFunction := currentFunctionIndent >= 0 && indent > currentFunctionIndent;
        if !isChildOfFunction {
          currentFunctionName := key;
          currentFunctionIndent := indent;
        }
      }
    }
    if key == "schema" && currentFunctionName != "" {
      var rawValue := Trim(StripComment(value));
      var fileMatch := MatchFileRef(rawValue);
      if fileMatch.Some? {
        schemas := schemas + [SchemaEntry(rawValue, fileMatch.value, i, currentFunctionName)];
      }
    }
    st := SchemaScan(st0.inFunctions, currentFunctionName, currentFunctionIndent, schemas);
  }

  // ---------------------------------------------------------------------------
  // parseToObject

  /** An open record on the stack: the indentation of the line that opened it
      and the keys leading to it from the root. */
  datatype Frame = Frame(indent: int, path: seq<string>)

  /** The tree built so far and the stack of open records. */
  datatype TreeBuild = TreeBuild(root: Node, stack: seq<Frame>)

  const TreeStart := TreeBuild(Map(map[]), [Frame(-1, [])])

  /** The `while` loop that pops every open record whose indentation is at
      least the line's, never the bottom one. */
  function PopTo(stack: seq<Frame>, indent: int): (r: seq<Frame>)
    requires |stack| >= 1
    ensures 1 <= |r| <= |stack| && r == stack[..|r|]
    ensures |r| == 1 || r[|r| - 1].indent < indent
    ensures forall k :: |r| <= k < |stack| ==> stack[k].indent >= indent
    decreases |stack|
  {
    if |stack| > 1 && stack[|stack| - 1].indent >= indent then PopTo(stack[..|stack| - 1], indent) else stack
  }

  /** A value that opens a new (empty) record: empty, or a block-scalar marker. */
  predicate OpensRecord(value: string)
  {
    value == "" || value == "|" || value == ">"
  }

  /** What one iteration of the `parseToObject` loop does with a line. */
  function TreeStep(st: TreeBuild, line: string): (r: TreeBuild)
    requires |st.stack| >= 1
    ensures |r.stack| >= 1
  {
    var trimmed := Trim(line);
    if trimmed == [] || trimmed[0] == '#' then st
    else
      match MatchKey(trimmed)
      case None => st
      case Some(kv) => KeyStep(st, Indent(line), kv.key, Trim(StripComment(kv.value)))
  }

  /** What a `key: value` line at `indent` does: pop the records it closes, then
      store the key in the record left on top, opening a new record or storing
      the unquoted string. */
  function KeyStep(st: TreeBuild, indent: int, key: string, value: string): (r: TreeBuild)
    requires |st.stack| >= 1
    ensures |r.stack| >= 1
  {
    var stack := PopTo(st.stack, indent);
    var parent := stack[|stack| - 1].path;
    if OpensRecord(value) then
      TreeBuild(SetAt(st.root, parent, key, Map(map[])), stack + [Frame(indent, parent + [key])])
    else
      TreeBuild(SetAt(st.root, parent, key, Scalar(Unquote(value))), stack)
  }

  /** The tree and the stack of `parseToObject` after its first `n` iterations. */
  function TreeAt(lines: seq<string>, n: nat): (r: TreeBuild)
    requires n <= |lines|
    ensures |r.stack| >= 1
  {
    if n == 0 then TreeStart else TreeStep(TreeAt(lines, n - 1), lines[n - 1])
  }

  /** The key/value tree of a document. */
  function BuildTree(lines: seq<string>): Node
  {
    TreeAt(lines, |lines|).root
  }

  /** `parseToObject`: one pass with a stack of open records. The source keeps
      the records themselves on the stack and assigns into them in place; here
      a frame holds the path to its record and the assignment is done at that
      path, which is the same thing because no record is replaced while it is
      still on the stack. */
  method ParseToObject(lines: seq<string>) returns (root: Node)
    ensures root == BuildTree(lines)
  {
    root := Map(map[]);
    var stack := [Frame(-1, [])];

    for i := 0 to |lines|
      invariant TreeAt(lines, i) == TreeBuild(root, stack)
    {
      root, stack := TreeLine(lines[i], root, stack);
    }
  }

  /** The body of the `parseToObject` loop for one line: each `continue` of the
      source is a `return`. */
  method TreeLine(line: string, root0: Node, stack0: seq<Frame>) returns (root: Node, stack: seq<Frame>)
    requires |stack0| >= 1
    ensures TreeBuild(root, stack) == TreeStep(TreeBuild(root0, stack0), line)
  {
    root, stack := root0, stack0;
    var trimmed := Trim(line);
    if trimmed == [] || trimmed[0] == '#' {
      return;
    }
    var indent := Indent(line);
    var keyMatch := MatchKey(trimmed);
    if keyMatch.None? {
      return;
    }
    var key := keyMatch.value.key;
    var value := Trim(StripComment(keyMatch.value.value));

    while |stack| > 1 && stack[|stack| - 1].indent >= indent
      invariant 1 <= |stack|
      invariant PopTo(stack, indent) == PopTo(stack0, indent)
      decreases |stack|
    {
      stack := stack[..|stack| - 1];
    }
    assert TreeStep(TreeBuild(root0, stack0), line) == KeyStep(TreeBuild(root0, stack0), indent, key, value);
    assert stack == PopTo(stack0, indent);

    var parent := stack[|stack| - 1].path;
    if OpensRecord(value) {
      root := SetAt(root, parent, key, Map(map[]));
      stack := stack + [Frame(indent, parent + [key])];
    } else {
      root := SetAt(root, parent, key, Scalar(Unquote(value)));
    }
  }

  // ---------------------------------------------------------------------------
  // parseServerlessYaml

  /** `parseServerlessYaml`: split the text into lines and run the three passes. */
  function ParseServerlessYaml(text: string): ParsedServerless
  {
    var lines := Split(text, '\n');
    ParsedServerless(Handlers(lines), Schemas(lines), BuildTree(lines))
  }
}
