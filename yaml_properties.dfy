/**
  What the three passes of the descriptor parser promise: which lines they
  ignore, when a `handler:` or `schema:` entry is recorded and what it holds,
  the invariants their state keeps over a whole document, and the stack
  discipline of the tree builder.
 */
module YamlProperties {
  import opened Wrappers
  import opened Text
  import opened Tree
  import opened YamlParser

  // ---------------------------------------------------------------------------
  // Lines no pass acts on

  /** A blank line, a comment, or a line the key pattern rejects that cannot
      close the `functions:` block either (it is indented, or it fails `^\S+\s*:`). */
  predicate Ignored(line: string)
  {
    IsSkipped(line) || (MatchKey(Trim(line)).None? && (Indent(line) > 0 || !HasKeyColon(Trim(line))))
  }

  /** Such a line changes no scanner state: no entry, no scope change, no tree key. */
  lemma IgnoredLine(hs: HandlerScan, ss: SchemaScan, tb: TreeBuild, line: string, i: nat)
    requires Ignored(line) && |tb.stack| >= 1
    ensures HandlerStep(hs, line, i) == hs
    ensures SchemaStep(ss, line, i) == ss
    ensures TreeStep(tb, line) == tb
  {
    FunctionsHeaderIff(Trim(line));
  }

  // ---------------------------------------------------------------------------
  // extractHandlers, one line at a time

  /** A header line of the `functions:` block: `functions:` at column 0. */
  predicate OpensFunctions(line: string)
  {
    !IsSkipped(line) && Indent(line) == 0 && IsFunctionsHeader(Trim(line))
  }

  /** A line that closes an open `functions:` block: any other `^\S+\s*:` line at column 0. */
  predicate ClosesFunctions(inFunctions: bool, line: string)
  {
    !IsSkipped(line) && inFunctions && Indent(line) == 0 && HasKeyColon(Trim(line)) && !IsFunctionsHeader(Trim(line))
  }

  /** A key line inside the block that starts a new function of `extractHandlers`. */
  predicate StartsHandlerFunction(st: HandlerScan, line: string)
  {
    !IsSkipped(line) && st.inFunctions && Indent(line) > 0 && MatchKey(Trim(line)).Some? &&
    StartsFunction(st.functionsIndent, st.functionIndent, Indent(line), MatchKey(Trim(line)).value.key)
  }

  /** The block flag changes only on a header line (set) or a closing line
      (cleared, together with the function scope); the function scope changes
      otherwise only on a line that starts a function, and then becomes that
      line's key, indentation and number. */
  lemma HandlerScopeChange(st: HandlerScan, line: string, i: nat)
    ensures var r := HandlerStep(st, line, i);
      r.inFunctions == (OpensFunctions(line) || (st.inFunctions && !ClosesFunctions(st.inFunctions, line))) &&
      r.functionsIndent == (if OpensFunctions(line) then 0 else st.functionsIndent) &&
      (ClosesFunctions(st.inFunctions, line) ==> r.functionName == "" && r.functionIndent == -1 && r.functionLine == -1) &&
      (StartsHandlerFunction(st, line) ==>
        r.functionName == MatchKey(Trim(line)).value.key && r.functionIndent == Indent(line) && r.functionLine == i) &&
      (!ClosesFunctions(st.inFunctions, line) && !StartsHandlerFunction(st, line) ==>
        r.functionName == st.functionName && r.functionIndent == st.functionIndent && r.functionLine == st.functionLine)
  {
    var t := Trim(line);
    KeyPatternColon(t);
  }

  /** Line `i` makes `extractHandlers` record an entry: a `handler:` key inside
      the block, more indented than the current function, whose value is not
      empty once its comment is cut and it is trimmed. */
  predicate EmitsHandler(st: HandlerScan, line: string)
  {
    !IsSkipped(line) && st.inFunctions && Indent(line) > 0 &&
    var m := MatchKey(Trim(line));
    m.Some? && m.value.key == "handler" && st.functionName != "" && Indent(line) > st.functionIndent &&
    Trim(StripComment(m.value.value)) != []
  }

  /** An entry is appended exactly on such a line, and it holds the cut and
      trimmed value, the line number, and the current function's line and name;
      on every other line the entries stay as they are. */
  lemma HandlerEmission(st: HandlerScan, line: string, i: nat)
    ensures EmitsHandler(st, line) ==>
      HandlerStep(st, line, i).handlers == st.handlers +
        [HandlerEntry(Trim(StripComment(MatchKey(Trim(line)).value.value)), i, st.functionLine, st.functionName)]
    ensures !EmitsHandler(st, line) ==> HandlerStep(st, line, i).handlers == st.handlers
  {
    if EmitsHandler(st, line) {
      HandlerEmits(st, line, i);
    } else {
      HandlerNoEmit(st, line, i);
    }
  }

  lemma HandlerEmits(st: HandlerScan, line: string, i: nat)
    requires EmitsHandler(st, line)
    ensures HandlerStep(st, line, i).handlers == st.handlers +
        [HandlerEntry(Trim(StripComment(MatchKey(Trim(line)).value.value)), i, st.functionLine, st.functionName)]
  {
    var t := Trim(line);
    FunctionsHeaderIff(t);
    var kv := MatchKey(t).value;
    assert HandlerStep(st, line, i) == HandlerKeyStep(st, Indent(line), kv.key, kv.value, i);
  }

  lemma HandlerNoEmit(st: HandlerScan, line: string, i: nat)
    requires !EmitsHandler(st, line)
    ensures HandlerStep(st, line, i).handlers == st.handlers
  {
    var t := Trim(line);
    KeyPatternColon(t);
    if t == [] || t[0] == '#' || (IsFunctionsHeader(t) && Indent(line) == 0) || !st.inFunctions {
    } else if Indent(line) == 0 && HasKeyColon(t) {
    } else if MatchKey(t).Some? {
      var kv := MatchKey(t).value;
      assert HandlerStep(st, line, i) == HandlerKeyStep(st, Indent(line), kv.key, kv.value, i);
    }
  }

  // ---------------------------------------------------------------------------
  // extractHandlers over a document

  /** `keys[j]` is what the key pattern finds on line `j` of `lines`. */
  predicate KeysOf(lines: seq<string>, keys: seq<Option<KeyValue>>)
  {
    |keys| == |lines| && forall j :: 0 <= j < |lines| ==> keys[j] == MatchKey(Trim(lines[j]))
  }

  /** Line `h` opens the `functions:` block and no line after it and before line `n` closes it. */
  predicate InsideBlock(lines: seq<string>, h: int, n: nat)
  {
    0 <= h < n <= |lines| && OpensFunctions(lines[h]) && forall j :: h < j < n ==> !ClosesFunctions(true, lines[j])
  }

  /** The header line that opened the `functions:` block still open after the
      first `n` lines (the first header since the last closing line), or -1. */
  function OpenHeader(lines: seq<string>, n: nat): (h: int)
    requires n <= |lines|
    ensures -1 <= h < n
  {
    if n == 0 then -1
    else
      var h := OpenHeader(lines, n - 1);
      if OpensFunctions(lines[n - 1]) && h < 0 then n - 1
      else if ClosesFunctions(true, lines[n - 1]) then -1
      else h
  }

  /** No line after the open block's header closes it. */
  lemma {:induction false} OpenHeaderInside(lines: seq<string>, n: nat)
    requires n <= |lines| && OpenHeader(lines, n) >= 0
    ensures InsideBlock(lines, OpenHeader(lines, n), n)
  {
    var h := OpenHeader(lines, n - 1);
    if !(OpensFunctions(lines[n - 1]) && h < 0) {
      OpenHeaderInside(lines, n - 1);
    }
  }

  /** Entry `e` comes from a `handler:` line and holds its cut and trimmed
      value; its function is named by an earlier key line, less indented, and
      no line in between starts another function.
      `keys` holds what the key pattern finds on each line. */
  predicate HandlerSource(lines: seq<string>, keys: seq<Option<KeyValue>>, e: HandlerEntry)
    requires |keys| == |lines| && 0 <= e.functionLine < e.line < |lines|
  {
    keys[e.line].Some? && keys[e.line].value.key == "handler" &&
    e.raw == Trim(StripComment(keys[e.line].value.value)) && e.raw != [] &&
    e.functionName != "" && keys[e.functionLine].Some? && keys[e.functionLine].value.key == e.functionName &&
    Indent(lines[e.line]) > Indent(lines[e.functionLine]) &&
    forall j :: e.functionLine < j < e.line ==> !StartsFunctionOver(lines[j], Indent(lines[e.functionLine]))
  }

  /** Entry `e` lies inside a `functions:` block: a header comes before its
      function's line, and no line closes the block before the `handler:` line
      (which, being indented, does not close it either). */
  predicate HandlerInBlock(lines: seq<string>, e: HandlerEntry)
    requires e.line <= |lines|
  {
    var h := OpenHeader(lines, e.line);
    0 <= h < e.functionLine && InsideBlock(lines, h, e.line)
  }

  /** Entry `e` of a document whose first `n` lines have been scanned. */
  predicate HandlerEntryOK(lines: seq<string>, keys: seq<Option<KeyValue>>, n: nat, e: HandlerEntry)
    requires |keys| == |lines| && n <= |lines|
  {
    0 <= e.functionLine < e.line < n && HandlerSource(lines, keys, e) && HandlerInBlock(lines, e)
  }

  /** The block flag and its indentation: `-1` before any header, `0` after
      one; a current function exists only inside the block. */
  predicate BlockOK(st: HandlerScan)
  {
    (st.functionsIndent == -1 || st.functionsIndent == 0) && (st.inFunctions ==> st.functionsIndent == 0) &&
    (st.functionName != "" ==> st.inFunctions)
  }

  /** The block flag is set exactly when a block is open, and the current
      function was named after the header of the block that is open. */
  predicate OpenOK(lines: seq<string>, st: HandlerScan, n: nat)
    requires n <= |lines|
  {
    (st.inFunctions <==> OpenHeader(lines, n) >= 0) &&
    (st.functionName != "" ==> OpenHeader(lines, n) < st.functionLine)
  }

  /** A line that starts a new function while the current one sits at
      indentation `f`: a key other than `handler`, at indentation 1 to 4 and
      no deeper than `f`. */
  predicate StartsFunctionOver(line: string, f: int)
  {
    !IsSkipped(line) && MatchKey(Trim(line)).Some? && MatchKey(Trim(line)).value.key != "handler" &&
    1 <= Indent(line) <= 4 && Indent(line) <= f
  }

  /** The current function of `extractHandlers` after `n` lines: none (the
      sentinels), or the latest function-starting line: an earlier key line at
      indentation 1 to 4 naming it, after which no line closes the block or
      starts another function. */
  predicate ScopeOK(lines: seq<string>, keys: seq<Option<KeyValue>>, st: HandlerScan, n: nat)
    requires |keys| == |lines| && n <= |lines|
  {
    (st.functionName == "" && st.functionIndent == -1 && st.functionLine == -1) ||
    (st.functionName != "" && 0 <= st.functionLine < n &&
     keys[st.functionLine].Some? && keys[st.functionLine].value.key == st.functionName &&
     st.functionIndent == Indent(lines[st.functionLine]) && 1 <= st.functionIndent <= 4 &&
     forall j :: st.functionLine < j < n ==> !ClosesFunctions(true, lines[j]) && !StartsFunctionOver(lines[j], st.functionIndent))
  }

  /** Handler entries after `n` lines: each well formed, all in document order. */
  predicate HandlersOK(lines: seq<string>, keys: seq<Option<KeyValue>>, hs: seq<HandlerEntry>, n: nat)
    requires |keys| == |lines| && n <= |lines|
  {
    (forall e :: e in hs ==> HandlerEntryOK(lines, keys, n, e)) &&
    (forall j, k :: 0 <= j < k < |hs| ==> hs[j].line < hs[k].line)
  }

  /** The state of `extractHandlers` after `n` lines of `lines`. */
  predicate HandlerInv(lines: seq<string>, keys: seq<Option<KeyValue>>, st: HandlerScan, n: nat)
    requires |keys| == |lines| && n <= |lines|
  {
    BlockOK(st) && OpenOK(lines, st, n) && ScopeOK(lines, keys, st, n) && HandlersOK(lines, keys, st.handlers, n)
  }

  /** One iteration keeps the function scope well formed. */
  lemma ScopeStepOK(lines: seq<string>, keys: seq<Option<KeyValue>>, st: HandlerScan, i: nat)
    requires |keys| == |lines| && i < |lines| && keys[i] == MatchKey(Trim(lines[i]))
    requires BlockOK(st) && ScopeOK(lines, keys, st, i)
    ensures BlockOK(HandlerStep(st, lines[i], i)) && ScopeOK(lines, keys, HandlerStep(st, lines[i], i), i + 1)
  {
    HandlerScopeChange(st, lines[i], i);
    if StartsHandlerFunction(st, lines[i]) {
      MatchKeySound(Trim(lines[i]));
    } else if !ClosesFunctions(st.inFunctions, lines[i]) {
      ScopeKeeps(lines, keys, st, i);
    }
  }

  /** A line that neither closes the block nor starts a function extends the current function's span. */
  lemma ScopeKeeps(lines: seq<string>, keys: seq<Option<KeyValue>>, st: HandlerScan, i: nat)
    requires |keys| == |lines| && i < |lines| && BlockOK(st) && ScopeOK(lines, keys, st, i)
    requires !ClosesFunctions(st.inFunctions, lines[i]) && !StartsHandlerFunction(st, lines[i])
    ensures ScopeOK(lines, keys, st, i + 1)
  {
    if st.functionName != "" {
      assert !StartsFunctionOver(lines[i], st.functionIndent);
    }
  }

  /** One iteration keeps the block flag and the current function inside the open block. */
  lemma OpenStepOK(lines: seq<string>, st: HandlerScan, i: nat)
    requires i < |lines| && BlockOK(st) && OpenOK(lines, st, i)
    ensures OpenOK(lines, HandlerStep(st, lines[i], i), i + 1)
  {
    HandlerScopeChange(st, lines[i], i);
  }

  /** Entries stay well formed as more lines are scanned. */
  lemma HandlersGrow(lines: seq<string>, keys: seq<Option<KeyValue>>, hs: seq<HandlerEntry>, n: nat)
    requires |keys| == |lines| && n < |lines| && HandlersOK(lines, keys, hs, n)
    ensures HandlersOK(lines, keys, hs, n + 1)
  {
    assert forall e :: e in hs ==> HandlerEntryOK(lines, keys, n + 1, e);
  }

  /** Appending a well-formed entry of a later line keeps the entries well formed and in order. */
  lemma HandlersAppend(lines: seq<string>, keys: seq<Option<KeyValue>>, hs: seq<HandlerEntry>, e: HandlerEntry, n: nat)
    requires |keys| == |lines| && n < |lines| && HandlersOK(lines, keys, hs, n)
    requires HandlerEntryOK(lines, keys, n + 1, e) && e.line == n
    ensures HandlersOK(lines, keys, hs + [e], n + 1)
  {
    HandlersGrow(lines, keys, hs, n);
    assert forall x :: x in hs ==> x.line < e.line;
    HandlerLinesAppend(hs, e);
  }

  /** Appending an entry of a later line than all others keeps the line order. */
  lemma HandlerLinesAppend(hs: seq<HandlerEntry>, e: HandlerEntry)
    requires forall j, k :: 0 <= j < k < |hs| ==> hs[j].line < hs[k].line
    requires forall x :: x in hs ==> x.line < e.line
    ensures forall j, k :: 0 <= j < k < |hs + [e]| ==> (hs + [e])[j].line < (hs + [e])[k].line
  {
    var r := hs + [e];
    forall j, k | 0 <= j < k < |r|
      ensures r[j].line < r[k].line
    {
      assert r[j] == hs[j] && hs[j] in hs;
      if k < |hs| {
        assert r[k] == hs[k];
      }
    }
  }

  /** The entry recorded on a line that emits one is well formed. */
  lemma HandlerEntryFrom(lines: seq<string>, keys: seq<Option<KeyValue>>, st: HandlerScan, i: nat)
    requires |keys| == |lines| && i < |lines| && keys[i] == MatchKey(Trim(lines[i]))
    requires ScopeOK(lines, keys, st, i) && OpenOK(lines, st, i) && EmitsHandler(st, lines[i])
    ensures HandlerEntryOK(lines, keys, i + 1,
      HandlerEntry(Trim(StripComment(keys[i].value.value)), i, st.functionLine, st.functionName))
  {
    HandlerEntryInBlock(lines, st, i);
  }

  /** The entry recorded on such a line lies inside the open block. */
  lemma HandlerEntryInBlock(lines: seq<string>, st: HandlerScan, i: nat)
    requires i < |lines| && OpenOK(lines, st, i) && st.inFunctions && st.functionName != "" && 0 <= st.functionLine
    ensures HandlerInBlock(lines, HandlerEntry([], i, st.functionLine, st.functionName))
  {
    OpenHeaderInside(lines, i);
  }

  /** One iteration keeps the entries well formed and in order. */
  lemma HandlersStepOK(lines: seq<string>, keys: seq<Option<KeyValue>>, st: HandlerScan, i: nat)
    requires |keys| == |lines| && i < |lines| && keys[i] == MatchKey(Trim(lines[i]))
    requires ScopeOK(lines, keys, st, i) && OpenOK(lines, st, i) && HandlersOK(lines, keys, st.handlers, i)
    ensures HandlersOK(lines, keys, HandlerStep(st, lines[i], i).handlers, i + 1)
  {
    HandlerEmission(st, lines[i], i);
    if EmitsHandler(st, lines[i]) {
      HandlerEntryFrom(lines, keys, st, i);
      HandlersAppend(lines, keys, st.handlers,
        HandlerEntry(Trim(StripComment(keys[i].value.value)), i, st.functionLine, st.functionName), i);
    } else {
      HandlersGrow(lines, keys, st.handlers, i);
    }
  }

  /** One iteration keeps the invariant. */
  lemma HandlerStepInv(lines: seq<string>, keys: seq<Option<KeyValue>>, i: nat)
    requires |keys| == |lines| && i < |lines| && keys[i] == MatchKey(Trim(lines[i]))
    requires HandlerInv(lines, keys, HandlerScanAt(lines, i), i)
    ensures HandlerInv(lines, keys, HandlerScanAt(lines, i + 1), i + 1)
  {
    ScopeStepOK(lines, keys, HandlerScanAt(lines, i), i);
    OpenStepOK(lines, HandlerScanAt(lines, i), i);
    HandlersStepOK(lines, keys, HandlerScanAt(lines, i), i);
  }

  /** The invariant holds after every iteration. */
  lemma {:induction false} HandlerScanInv(lines: seq<string>, keys: seq<Option<KeyValue>>, n: nat)
    requires KeysOf(lines, keys) && n <= |lines|
    ensures HandlerInv(lines, keys, HandlerScanAt(lines, n), n)
  {
    if n > 0 {
      HandlerScanInv(lines, keys, n - 1);
      HandlerStepInv(lines, keys, n - 1);
    }
  }

  /** Every handler entry of a document comes from a `handler:` line, with its
      cut and trimmed non-empty value, under the less indented earlier line
      that names its function, inside a `functions:` block; the entries are in
      strictly increasing line order. */
  lemma HandlersWellFormed(lines: seq<string>, keys: seq<Option<KeyValue>>)
    requires KeysOf(lines, keys)
    ensures forall e :: e in Handlers(lines) ==> HandlerEntryOK(lines, keys, |lines|, e)
    ensures forall j, k :: 0 <= j < k < |Handlers(lines)| ==> Handlers(lines)[j].line < Handlers(lines)[k].line
  {
    HandlerScanInv(lines, keys, |lines|);
  }

  /** A document without a `functions:` header line has no handler entries,
      whatever `handler:` keys it holds elsewhere. */
  lemma NoBlockNoHandlers(lines: seq<string>)
    requires forall j :: 0 <= j < |lines| ==> !OpensFunctions(lines[j])
    ensures Handlers(lines) == []
  {
    var keys := seq(|lines|, j requires 0 <= j < |lines| => MatchKey(Trim(lines[j])));
    HandlersWellFormed(lines, keys);
    if Handlers(lines) != [] {
      var e := Handlers(lines)[0];
      var h := HandlerHeader(lines, keys, e);
      assert false;
    }
  }

  /** The header line of the block an entry lies in. */
  lemma HandlerHeader(lines: seq<string>, keys: seq<Option<KeyValue>>, e: HandlerEntry) returns (h: nat)
    requires |keys| == |lines| && HandlerEntryOK(lines, keys, |lines|, e)
    ensures h < e.functionLine && OpensFunctions(lines[h])
  {
    h := OpenHeader(lines, e.line);
  }

  /** The entry a line that emits one records. */
  function EmittedHandler(st: HandlerScan, line: string, i: nat): HandlerEntry
    requires MatchKey(Trim(line)).Some?
  {
    HandlerEntry(Trim(StripComment(MatchKey(Trim(line)).value.value)), i, st.functionLine, st.functionName)
  }

  /** Iteration `i` appends the entry line `i` emits, if any, and nothing else. */
  lemma HandlerScanAppends(lines: seq<string>, i: nat)
    requires i < |lines|
    ensures var st := HandlerScanAt(lines, i);
      HandlerScanAt(lines, i + 1).handlers ==
        st.handlers + (if EmitsHandler(st, lines[i]) then [EmittedHandler(st, lines[i], i)] else [])
  {
    HandlerEmission(HandlerScanAt(lines, i), lines[i], i);
  }

  /** Later iterations only append: the entries after `i` lines begin the entries after `n`. */
  lemma {:induction false} HandlersPrefix(lines: seq<string>, i: nat, n: nat)
    requires i <= n <= |lines|
    ensures HandlerScanAt(lines, i).handlers <= HandlerScanAt(lines, n).handlers
    decreases n - i
  {
    if i < n {
      HandlerScanGrows(lines, i);
      HandlersPrefix(lines, i + 1, n);
      var a, b, c := HandlerScanAt(lines, i).handlers, HandlerScanAt(lines, i + 1).handlers, HandlerScanAt(lines, n).handlers;
      PrefixTrans(a, b, c);
    }
  }

  /** One iteration only appends. */
  lemma HandlerScanGrows(lines: seq<string>, i: nat)
    requires i < |lines|
    ensures HandlerScanAt(lines, i).handlers <= HandlerScanAt(lines, i + 1).handlers
  {
    var st := HandlerScanAt(lines, i);
    HandlerScanAppends(lines, i);
    var x := if EmitsHandler(st, lines[i]) then [EmittedHandler(st, lines[i], i)] else [];
    assert (st.handlers + x)[..|st.handlers|] == st.handlers;
  }

  /** `<=` on lists is transitive. */
  lemma PrefixTrans<T>(a: seq<T>, b: seq<T>, c: seq<T>)
    requires a <= b && b <= c
    ensures a <= c
  {
    assert c[..|a|] == b[..|a|];
  }

  /** Entry `e` is the one its line records after the lines before it. */
  predicate HandlerFromLine(lines: seq<string>, e: HandlerEntry)
  {
    e.line < |lines| && EmitsHandler(HandlerScanAt(lines, e.line), lines[e.line]) &&
    e == EmittedHandler(HandlerScanAt(lines, e.line), lines[e.line], e.line)
  }

  /** Every entry after `n` lines is the one its line records. */
  predicate HandlersFromLines(lines: seq<string>, n: nat)
    requires n <= |lines|
  {
    HandlerEntriesFrom(lines, HandlerScanAt(lines, n).handlers, n)
  }

  /** Each of `es` was recorded by one of the first `n` lines. */
  predicate HandlerEntriesFrom(lines: seq<string>, es: seq<HandlerEntry>, n: nat)
  {
    forall e :: e in es ==> e.line < n && HandlerFromLine(lines, e)
  }

  /** Appending the entry line `n` records keeps `HandlerEntriesFrom`. */
  lemma HandlerEntriesAppend(lines: seq<string>, es: seq<HandlerEntry>, n: nat, x: HandlerEntry)
    requires HandlerEntriesFrom(lines, es, n) && x.line == n && HandlerFromLine(lines, x)
    ensures HandlerEntriesFrom(lines, es + [x], n + 1)
  {
  }

  /** Every entry after `n` lines was recorded by the line it names, which
      emits it in the state reached just before that line. */
  lemma {:induction false} HandlerOrigin(lines: seq<string>, n: nat)
    requires n <= |lines|
    ensures HandlersFromLines(lines, n)
  {
    if n > 0 {
      HandlerOrigin(lines, n - 1);
      HandlerOriginStep(lines, n - 1);
    }
  }

  lemma HandlerOriginStep(lines: seq<string>, i: nat)
    requires i < |lines|
    requires HandlersFromLines(lines, i)
    ensures HandlersFromLines(lines, i + 1)
  {
    var st := HandlerScanAt(lines, i);
    HandlerScanAppends(lines, i);
    if EmitsHandler(st, lines[i]) {
      HandlerOriginEmit(lines, i, EmittedHandler(st, lines[i], i));
    } else {
      assert HandlerScanAt(lines, i + 1).handlers == st.handlers;
    }
  }

  /** One step of `HandlerOrigin`, on a line that emits entry `x`. */
  lemma HandlerOriginEmit(lines: seq<string>, i: nat, x: HandlerEntry)
    requires i < |lines| && HandlersFromLines(lines, i)
    requires EmitsHandler(HandlerScanAt(lines, i), lines[i]) && x == EmittedHandler(HandlerScanAt(lines, i), lines[i], i)
    requires HandlerScanAt(lines, i + 1).handlers == HandlerScanAt(lines, i).handlers + [x]
    ensures HandlersFromLines(lines, i + 1)
  {
    assert HandlerFromLine(lines, x);
    HandlerEntriesAppend(lines, HandlerScanAt(lines, i).handlers, i, x);
  }

  /** A line of a document gives an entry exactly when it emits one after
      the lines before it, and then exactly one: the entry recorded there,
      placed after all entries of earlier lines. */
  lemma HandlersComplete(lines: seq<string>, i: nat)
    requires i < |lines|
    ensures var st := HandlerScanAt(lines, i);
      EmitsHandler(st, lines[i]) ==>
        |st.handlers| < |Handlers(lines)| && Handlers(lines)[|st.handlers|] == EmittedHandler(st, lines[i], i) &&
        forall k :: 0 <= k < |Handlers(lines)| && Handlers(lines)[k].line == i ==> k == |st.handlers|
    ensures !EmitsHandler(HandlerScanAt(lines, i), lines[i]) ==> forall e :: e in Handlers(lines) ==> e.line != i
  {
    var st := HandlerScanAt(lines, i);
    HandlerEmission(st, lines[i], i);
    HandlersPrefix(lines, i + 1, |lines|);
    HandlerOrigin(lines, |lines|);
    var keys := seq(|lines|, j requires 0 <= j < |lines| => MatchKey(Trim(lines[j])));
    HandlersWellFormed(lines, keys);
    if EmitsHandler(st, lines[i]) {
      var hs := Handlers(lines);
      assert hs[|st.handlers|] == HandlerScanAt(lines, i + 1).handlers[|st.handlers|];
      assert hs[|st.handlers|].line == i;
    }
  }

  // ---------------------------------------------------------------------------
  // extractSchemas

  /** Line `i` makes `extractSchemas` record an entry: a `schema:` key inside
      the block, under a current function, whose cut and trimmed value is a file reference. */
  predicate EmitsSchema(st: SchemaScan, line: string)
  {
    !IsSkipped(line) && st.inFunctions && Indent(line) > 0 &&
    var m := MatchKey(Trim(line));
    m.Some? && m.value.key == "schema" && SchemaScope(st, Indent(line), "schema").functionName != "" &&
    MatchFileRef(Trim(StripComment(m.value.value))).Some?
  }

  /** An entry is appended exactly on such a line; it holds the whole value, the
      path inside `${file(...)}`, the line number and the function's name; on
      every other line the entries stay as they are. With `MatchFileRefExact`,
      the entry is recorded exactly when the value is `${file(P)}` for a
      non-empty `P` free of `)`, and then its path is `P`. */
  lemma SchemaEmission(st: SchemaScan, line: string, i: nat)
    ensures EmitsSchema(st, line) ==>
      var raw := Trim(StripComment(MatchKey(Trim(line)).value.value));
      SchemaStep(st, line, i).schemas == st.schemas +
        [SchemaEntry(raw, MatchFileRef(raw).value, i, SchemaScope(st, Indent(line), "schema").functionName)]
    ensures !EmitsSchema(st, line) ==> SchemaStep(st, line, i).schemas == st.schemas
  {
    var t := Trim(line);
    FunctionsHeaderIff(t);
    KeyPatternColon(t);
    if EmitsSchema(st, line) {
      var kv := MatchKey(t).value;
      assert SchemaStep(st, line, i) == SchemaKeyStep(st, Indent(line), kv.key, kv.value, i);
    } else if t == [] || t[0] == '#' || (IsFunctionsHeader(t) && Indent(line) == 0) || !st.inFunctions {
    } else if Indent(line) == 0 && HasKeyColon(t) {
    } else if MatchKey(t).Some? {
      var kv := MatchKey(t).value;
      assert SchemaStep(st, line, i) == SchemaKeyStep(st, Indent(line), kv.key, kv.value, i);
    }
  }

  /** The block flag of `extractSchemas` is set by a header line and cleared by a closing line. */
  lemma SchemaBlockChange(st: SchemaScan, line: string, i: nat)
    ensures SchemaStep(st, line, i).inFunctions ==
      (OpensFunctions(line) || (st.inFunctions && !ClosesFunctions(st.inFunctions, line)))
  {
  }

  /** Entry `e` comes from a `schema:` line whose cut and trimmed value is
      `e.raw`, which is `${file(` + `e.filePath` + `)}` with a non-empty path
      free of `)`. */
  predicate SchemaSource(keys: seq<Option<KeyValue>>, e: SchemaEntry)
    requires e.line < |keys|
  {
    keys[e.line].Some? && keys[e.line].value.key == "schema" &&
    e.raw == Trim(StripComment(keys[e.line].value.value)) &&
    e.raw == "${file(" + e.filePath + ")}" && e.filePath != [] && ')' !in e.filePath && e.functionName != ""
  }

  /** Entry `e` lies inside a `functions:` block: a header comes before it and
      no line closes the block up to and including the `schema:` line. */
  predicate SchemaInBlock(lines: seq<string>, e: SchemaEntry)
    requires e.line <= |lines|
  {
    var h := OpenHeader(lines, e.line);
    0 <= h < e.line && InsideBlock(lines, h, e.line)
  }

  /** Entry `e` of a document whose first `n` lines have been scanned. */
  predicate SchemaEntryOK(lines: seq<string>, keys: seq<Option<KeyValue>>, n: nat, e: SchemaEntry)
    requires |keys| == |lines| && n <= |lines|
  {
    e.line < n && SchemaSource(keys, e) && SchemaInBlock(lines, e)
  }

  /** The current function of `extractSchemas`: none (the sentinels), or a
      name with an indentation from 1 to 4. */
  predicate SchemaScopeOK(st: SchemaScan)
  {
    (st.functionName == "" && st.functionIndent == -1) || (st.functionName != "" && 1 <= st.functionIndent <= 4)
  }

  /** The block flag of `extractSchemas` is set exactly when a block is open. */
  predicate SchemaOpenOK(lines: seq<string>, st: SchemaScan, n: nat)
    requires n <= |lines|
  {
    st.inFunctions <==> OpenHeader(lines, n) >= 0
  }

  /** Schema entries after `n` lines: each well formed, all in document order. */
  predicate SchemasOK(lines: seq<string>, keys: seq<Option<KeyValue>>, ss: seq<SchemaEntry>, n: nat)
    requires |keys| == |lines| && n <= |lines|
  {
    (forall e :: e in ss ==> SchemaEntryOK(lines, keys, n, e)) &&
    (forall j, k :: 0 <= j < k < |ss| ==> ss[j].line < ss[k].line)
  }

  /** Entries stay well formed as more lines are scanned. */
  lemma SchemasGrow(lines: seq<string>, keys: seq<Option<KeyValue>>, ss: seq<SchemaEntry>, n: nat)
    requires |keys| == |lines| && n < |lines| && SchemasOK(lines, keys, ss, n)
    ensures SchemasOK(lines, keys, ss, n + 1)
  {
    assert forall e :: e in ss ==> SchemaEntryOK(lines, keys, n + 1, e);
  }

  /** Appending a well-formed entry of a later line keeps the entries well formed and in order. */
  lemma SchemasAppend(lines: seq<string>, keys: seq<Option<KeyValue>>, ss: seq<SchemaEntry>, e: SchemaEntry, n: nat)
    requires |keys| == |lines| && n < |lines| && SchemasOK(lines, keys, ss, n)
    requires SchemaEntryOK(lines, keys, n + 1, e) && e.line == n
    ensures SchemasOK(lines, keys, ss + [e], n + 1)
  {
    SchemasGrow(lines, keys, ss, n);
    assert forall x :: x in ss ==> x.line < e.line;
    SchemaLinesAppend(ss, e);
  }

  /** Appending an entry of a later line than all others keeps the line order. */
  lemma SchemaLinesAppend(ss: seq<SchemaEntry>, e: SchemaEntry)
    requires forall j, k :: 0 <= j < k < |ss| ==> ss[j].line < ss[k].line
    requires forall x :: x in ss ==> x.line < e.line
    ensures forall j, k :: 0 <= j < k < |ss + [e]| ==> (ss + [e])[j].line < (ss + [e])[k].line
  {
    var r := ss + [e];
    forall j, k | 0 <= j < k < |r|
      ensures r[j].line < r[k].line
    {
      assert r[j] == ss[j] && ss[j] in ss;
      if k < |ss| {
        assert r[k] == ss[k];
      }
    }
  }

  /** The entry recorded on a line that emits one is well formed. */
  lemma SchemaEntryFrom(lines: seq<string>, keys: seq<Option<KeyValue>>, st: SchemaScan, i: nat)
    requires |keys| == |lines| && i < |lines| && keys[i] == MatchKey(Trim(lines[i]))
    requires SchemaOpenOK(lines, st, i) && EmitsSchema(st, lines[i])
    ensures var raw := Trim(StripComment(keys[i].value.value));
      SchemaEntryOK(lines, keys, i + 1, SchemaEntry(raw, MatchFileRef(raw).value, i, SchemaScope(st, Indent(lines[i]), "schema").functionName))
  {
    MatchFileRefSound(Trim(StripComment(keys[i].value.value)));
    SchemaEntryInBlock(lines, st, i);
  }

  /** The entry recorded on such a line lies inside the open block. */
  lemma SchemaEntryInBlock(lines: seq<string>, st: SchemaScan, i: nat)
    requires i < |lines| && SchemaOpenOK(lines, st, i) && st.inFunctions
    ensures SchemaInBlock(lines, SchemaEntry([], [], i, []))
  {
    OpenHeaderInside(lines, i);
  }

  /** One iteration keeps the entries well formed and in order. */
  lemma SchemasStepOK(lines: seq<string>, keys: seq<Option<KeyValue>>, st: SchemaScan, i: nat)
    requires |keys| == |lines| && i < |lines| && keys[i] == MatchKey(Trim(lines[i]))
    requires SchemaOpenOK(lines, st, i) && SchemasOK(lines, keys, st.schemas, i)
    ensures SchemasOK(lines, keys, SchemaStep(st, lines[i], i).schemas, i + 1)
  {
    SchemaEmission(st, lines[i], i);
    if EmitsSchema(st, lines[i]) {
      SchemaEntryFrom(lines, keys, st, i);
      var raw := Trim(StripComment(keys[i].value.value));
      SchemasAppend(lines, keys, st.schemas,
        SchemaEntry(raw, MatchFileRef(raw).value, i, SchemaScope(st, Indent(lines[i]), "schema").functionName), i);
    } else {
      SchemasGrow(lines, keys, st.schemas, i);
    }
  }

  /** One iteration keeps the function scope well formed. */
  lemma SchemaScopeStepOK(st: SchemaScan, line: string, i: nat)
    requires SchemaScopeOK(st)
    ensures SchemaScopeOK(SchemaStep(st, line, i))
  {
    var t := Trim(line);
    if t == [] || t[0] == '#' || (IsFunctionsHeader(t) && Indent(line) == 0) || !st.inFunctions {
    } else if Indent(line) == 0 && HasKeyColon(t) {
    } else if MatchKey(t).Some? {
      var kv := MatchKey(t).value;
      MatchKeySound(t);
      assert SchemaStep(st, line, i) == SchemaKeyStep(st, Indent(line), kv.key, kv.value, i);
      SchemaKeyScopeOK(st, Indent(line), kv.key, kv.value, i);
    }
  }

  /** A key line keeps the function scope well formed: a new function has a non-empty key. */
  lemma SchemaKeyScopeOK(st: SchemaScan, indent: nat, key: string, value: string, i: nat)
    requires SchemaScopeOK(st) && key != []
    ensures SchemaScopeOK(SchemaKeyStep(st, indent, key, value, i))
  {
  }

  /** One iteration keeps the block flag inside a block. */
  lemma SchemaOpenStepOK(lines: seq<string>, st: SchemaScan, i: nat)
    requires i < |lines| && SchemaOpenOK(lines, st, i)
    ensures SchemaOpenOK(lines, SchemaStep(st, lines[i], i), i + 1)
  {
    SchemaBlockChange(st, lines[i], i);
  }

  /** The function scope stays well formed after every iteration. */
  lemma {:induction false} SchemaScopeScan(lines: seq<string>, n: nat)
    requires n <= |lines|
    ensures SchemaScopeOK(SchemaScanAt(lines, n))
  {
    if n > 0 {
      SchemaScopeScan(lines, n - 1);
      SchemaScopeStepOK(SchemaScanAt(lines, n - 1), lines[n - 1], n - 1);
    }
  }

  /** The block flag follows the open block after every iteration. */
  lemma {:induction false} SchemaOpenScan(lines: seq<string>, n: nat)
    requires n <= |lines|
    ensures SchemaOpenOK(lines, SchemaScanAt(lines, n), n)
  {
    if n > 0 {
      SchemaOpenScan(lines, n - 1);
      SchemaOpenStepOK(lines, SchemaScanAt(lines, n - 1), n - 1);
    }
  }

  /** The entries are well formed and in order after every iteration. */
  lemma {:induction false} SchemasScan(lines: seq<string>, keys: seq<Option<KeyValue>>, n: nat)
    requires KeysOf(lines, keys) && n <= |lines|
    ensures SchemasOK(lines, keys, SchemaScanAt(lines, n).schemas, n)
  {
    if n > 0 {
      SchemasScan(lines, keys, n - 1);
      SchemaOpenScan(lines, n - 1);
      SchemasStepOK(lines, keys, SchemaScanAt(lines, n - 1), n - 1);
    }
  }

  /** Every schema entry of a document comes from a `schema:` line inside a
      `functions:` block whose value is exactly `${file(P)}` with `P` its path;
      the entries are in strictly increasing line order. */
  lemma SchemasWellFormed(lines: seq<string>, keys: seq<Option<KeyValue>>)
    requires KeysOf(lines, keys)
    ensures forall e :: e in Schemas(lines) ==> SchemaEntryOK(lines, keys, |lines|, e)
    ensures forall j, k :: 0 <= j < k < |Schemas(lines)| ==> Schemas(lines)[j].line < Schemas(lines)[k].line
  {
    SchemasScan(lines, keys, |lines|);
  }

  /** A document without a `functions:` header line has no schema entries. */
  lemma NoBlockNoSchemas(lines: seq<string>)
    requires forall j :: 0 <= j < |lines| ==> !OpensFunctions(lines[j])
    ensures Schemas(lines) == []
  {
    var keys := seq(|lines|, j requires 0 <= j < |lines| => MatchKey(Trim(lines[j])));
    SchemasWellFormed(lines, keys);
    if Schemas(lines) != [] {
      var e := Schemas(lines)[0];
      var h := SchemaHeader(lines, keys, e);
      assert false;
    }
  }

  /** The header line of the block an entry lies in. */
  lemma SchemaHeader(lines: seq<string>, keys: seq<Option<KeyValue>>, e: SchemaEntry) returns (h: nat)
    requires |keys| == |lines| && SchemaEntryOK(lines, keys, |lines|, e)
    ensures h < e.line && OpensFunctions(lines[h])
  {
    h := OpenHeader(lines, e.line);
  }

  /** The entry a line that emits one records. */
  function EmittedSchema(st: SchemaScan, line: string, i: nat): SchemaEntry
    requires EmitsSchema(st, line)
  {
    var raw := Trim(StripComment(MatchKey(Trim(line)).value.value));
    SchemaEntry(raw, MatchFileRef(raw).value, i, SchemaScope(st, Indent(line), "schema").functionName)
  }

  /** Iteration `i` appends the entry line `i` emits, if any, and nothing else. */
  lemma SchemaScanAppends(lines: seq<string>, i: nat)
    requires i < |lines|
    ensures var st := SchemaScanAt(lines, i);
      SchemaScanAt(lines, i + 1).schemas ==
        st.schemas + (if EmitsSchema(st, lines[i]) then [EmittedSchema(st, lines[i], i)] else [])
  {
    SchemaEmission(SchemaScanAt(lines, i), lines[i], i);
  }

  /** One iteration only appends. */
  lemma SchemaScanGrows(lines: seq<string>, i: nat)
    requires i < |lines|
    ensures SchemaScanAt(lines, i).schemas <= SchemaScanAt(lines, i + 1).schemas
  {
    var st := SchemaScanAt(lines, i);
    SchemaScanAppends(lines, i);
    var x := if EmitsSchema(st, lines[i]) then [EmittedSchema(st, lines[i], i)] else [];
    assert (st.schemas + x)[..|st.schemas|] == st.schemas;
  }

  /** Later iterations only append: the entries after `i` lines begin the entries after `n`. */
  lemma {:induction false} SchemasPrefix(lines: seq<string>, i: nat, n: nat)
    requires i <= n <= |lines|
    ensures SchemaScanAt(lines, i).schemas <= SchemaScanAt(lines, n).schemas
    decreases n - i
  {
    if i < n {
      SchemaScanGrows(lines, i);
      SchemasPrefix(lines, i + 1, n);
      var a, b, c := SchemaScanAt(lines, i).schemas, SchemaScanAt(lines, i + 1).schemas, SchemaScanAt(lines, n).schemas;
      PrefixTrans(a, b, c);
    }
  }

  /** Entry `e` is the one its line records after the lines before it. */
  predicate SchemaFromLine(lines: seq<string>, e: SchemaEntry)
  {
    e.line < |lines| && EmitsSchema(SchemaScanAt(lines, e.line), lines[e.line]) &&
    e == EmittedSchema(SchemaScanAt(lines, e.line), lines[e.line], e.line)
  }

  /** Every entry after `n` lines is the one its line records. */
  predicate SchemasFromLines(lines: seq<string>, n: nat)
    requires n <= |lines|
  {
    SchemaEntriesFrom(lines, SchemaScanAt(lines, n).schemas, n)
  }

  /** Each of `es` was recorded by one of the first `n` lines. */
  predicate SchemaEntriesFrom(lines: seq<string>, es: seq<SchemaEntry>, n: nat)
  {
    forall e :: e in es ==> e.line < n && SchemaFromLine(lines, e)
  }

  /** Appending the entry line `n` records keeps `SchemaEntriesFrom`. */
  lemma SchemaEntriesAppend(lines: seq<string>, es: seq<SchemaEntry>, n: nat, x: SchemaEntry)
    requires SchemaEntriesFrom(lines, es, n) && x.line == n && SchemaFromLine(lines, x)
    ensures SchemaEntriesFrom(lines, es + [x], n + 1)
  {
  }

  /** Every entry after `n` lines was recorded by the line it names, which
      emits it in the state reached just before that line. */
  lemma {:induction false} SchemaOrigin(lines: seq<string>, n: nat)
    requires n <= |lines|
    ensures SchemasFromLines(lines, n)
  {
    if n > 0 {
      SchemaOrigin(lines, n - 1);
      SchemaOriginStep(lines, n - 1);
    }
  }

  lemma SchemaOriginStep(lines: seq<string>, i: nat)
    requires i < |lines|
    requires SchemasFromLines(lines, i)
    ensures SchemasFromLines(lines, i + 1)
  {
    var st := SchemaScanAt(lines, i);
    SchemaScanAppends(lines, i);
    if EmitsSchema(st, lines[i]) {
      SchemaOriginEmit(lines, i, EmittedSchema(st, lines[i], i));
    } else {
      assert SchemaScanAt(lines, i + 1).schemas == st.schemas;
    }
  }

  /** One step of `SchemaOrigin`, on a line that emits entry `x`. */
  lemma SchemaOriginEmit(lines: seq<string>, i: nat, x: SchemaEntry)
    requires i < |lines| && SchemasFromLines(lines, i)
    requires EmitsSchema(SchemaScanAt(lines, i), lines[i]) && x == EmittedSchema(SchemaScanAt(lines, i), lines[i], i)
    requires SchemaScanAt(lines, i + 1).schemas == SchemaScanAt(lines, i).schemas + [x]
    ensures SchemasFromLines(lines, i + 1)
  {
    assert SchemaFromLine(lines, x);
    SchemaEntriesAppend(lines, SchemaScanAt(lines, i).schemas, i, x);
  }

  /** A line of a document gives a schema entry exactly when it emits one
      after the lines before it, and then exactly one: the entry recorded
      there, placed after all entries of earlier lines. */
  lemma SchemasComplete(lines: seq<string>, i: nat)
    requires i < |lines|
    ensures var st := SchemaScanAt(lines, i);
      EmitsSchema(st, lines[i]) ==>
        |st.schemas| < |Schemas(lines)| && Schemas(lines)[|st.schemas|] == EmittedSchema(st, lines[i], i) &&
        forall k :: 0 <= k < |Schemas(lines)| && Schemas(lines)[k].line == i ==> k == |st.schemas|
    ensures !EmitsSchema(SchemaScanAt(lines, i), lines[i]) ==> forall e :: e in Schemas(lines) ==> e.line != i
  {
    var st := SchemaScanAt(lines, i);
    SchemaScanAppends(lines, i);
    SchemasPrefix(lines, i + 1, |lines|);
    SchemaOrigin(lines, |lines|);
    var keys := seq(|lines|, j requires 0 <= j < |lines| => MatchKey(Trim(lines[j])));
    SchemasWellFormed(lines, keys);
    if EmitsSchema(st, lines[i]) {
      var ss := Schemas(lines);
      assert ss[|st.schemas|] == SchemaScanAt(lines, i + 1).schemas[|st.schemas|];
      assert ss[|st.schemas|].line == i;
    }
  }

  /** The two passes track the same block and the same current function. */
  predicate ScopesAgree(h: HandlerScan, s: SchemaScan)
  {
    h.inFunctions == s.inFunctions && h.functionName == s.functionName && h.functionIndent == s.functionIndent &&
    (h.inFunctions ==> h.functionsIndent == 0)
  }

  /** A key line inside the block changes the two scopes alike. */
  lemma ScopesAgreeKey(h: HandlerScan, s: SchemaScan, indent: nat, key: string, value: string, i: nat)
    requires ScopesAgree(h, s) && h.inFunctions
    ensures ScopesAgree(HandlerKeyStep(h, indent, key, value, i), SchemaKeyStep(s, indent, key, value, i))
  {
    assert StartsFunction(h.functionsIndent, h.functionIndent, indent, key) == StartsFunction(0, s.functionIndent, indent, key);
  }

  /** One iteration keeps the two passes in step. */
  lemma ScopesAgreeStep(h: HandlerScan, s: SchemaScan, line: string, i: nat)
    requires ScopesAgree(h, s)
    ensures ScopesAgree(HandlerStep(h, line, i), SchemaStep(s, line, i))
  {
    var t := Trim(line);
    if !(t == [] || t[0] == '#') && !(IsFunctionsHeader(t) && Indent(line) == 0) && h.inFunctions &&
       !(Indent(line) == 0 && HasKeyColon(t)) && MatchKey(t).Some? {
      var kv := MatchKey(t).value;
      ScopesAgreeKey(h, s, Indent(line), kv.key, kv.value, i);
    }
  }

  /** After every iteration the two passes are in step. */
  lemma {:induction false} ScopesAgreeAt(lines: seq<string>, n: nat)
    requires n <= |lines|
    ensures ScopesAgree(HandlerScanAt(lines, n), SchemaScanAt(lines, n))
  {
    if n > 0 {
      ScopesAgreeAt(lines, n - 1);
      ScopesAgreeNext(lines, n - 1);
    }
  }

  lemma ScopesAgreeNext(lines: seq<string>, i: nat)
    requires i < |lines| && ScopesAgree(HandlerScanAt(lines, i), SchemaScanAt(lines, i))
    ensures ScopesAgree(HandlerScanAt(lines, i + 1), SchemaScanAt(lines, i + 1))
  {
    ScopesAgreeStep(HandlerScanAt(lines, i), SchemaScanAt(lines, i), lines[i], i);
  }

  /** The function a schema entry names is the current function of the
      handler pass once the `schema:` line is read. */
  lemma SchemaFunctionAsHandlers(lines: seq<string>, i: nat)
    requires i < |lines| && EmitsSchema(SchemaScanAt(lines, i), lines[i])
    ensures EmittedSchema(SchemaScanAt(lines, i), lines[i], i).functionName == HandlerScanAt(lines, i + 1).functionName
  {
    var st := SchemaScanAt(lines, i);
    var t := Trim(lines[i]);
    var kv := MatchKey(t).value;
    FunctionsHeaderIff(t);
    KeyPatternColon(t);
    assert SchemaScanAt(lines, i + 1) == SchemaKeyStep(st, Indent(lines[i]), kv.key, kv.value, i);
    ScopesAgreeAt(lines, i + 1);
  }

  /** The current function of the handler pass after `n` lines is named by
      its function line, after which no line closes the block or starts another function. */
  lemma CurrentFunctionLine(lines: seq<string>, keys: seq<Option<KeyValue>>, n: nat) returns (j: nat)
    requires KeysOf(lines, keys) && n <= |lines| && HandlerScanAt(lines, n).functionName != ""
    ensures j < n && HandlerScanAt(lines, n).functionLine == j &&
      keys[j].Some? && keys[j].value.key == HandlerScanAt(lines, n).functionName && 1 <= Indent(lines[j]) <= 4 &&
      HandlerScanAt(lines, n).functionIndent == Indent(lines[j]) &&
      forall l :: j < l < n ==> !ClosesFunctions(true, lines[l]) && !StartsFunctionOver(lines[l], Indent(lines[j]))
  {
    HandlerScanInv(lines, keys, n);
    j := HandlerScanAt(lines, n).functionLine;
  }

  /** A `schema:` line that emits an entry names the latest function-starting line at or before it. */
  lemma SchemaLineNamedBy(lines: seq<string>, keys: seq<Option<KeyValue>>, i: nat) returns (j: nat)
    requires KeysOf(lines, keys) && i < |lines| && EmitsSchema(SchemaScanAt(lines, i), lines[i])
    ensures var name := EmittedSchema(SchemaScanAt(lines, i), lines[i], i).functionName;
      j <= i && keys[j].Some? && keys[j].value.key == name && 1 <= Indent(lines[j]) <= 4 &&
      forall l :: j < l <= i ==> !ClosesFunctions(true, lines[l]) && !StartsFunctionOver(lines[l], Indent(lines[j]))
  {
    SchemaFunctionAsHandlers(lines, i);
    j := CurrentFunctionLine(lines, keys, i + 1);
  }

  /** Every schema entry names the latest function-starting line at or
      before its `schema:` line: a key line at indentation 1 to 4 holding the
      function's name, after which no line closes the block or starts
      another function. */
  lemma SchemaNamedBy(lines: seq<string>, keys: seq<Option<KeyValue>>, k: nat) returns (j: nat)
    requires KeysOf(lines, keys) && k < |Schemas(lines)|
    ensures var e := Schemas(lines)[k];
      j <= e.line < |lines| && keys[j].Some? && keys[j].value.key == e.functionName && 1 <= Indent(lines[j]) <= 4 &&
      forall l :: j < l <= e.line ==> !ClosesFunctions(true, lines[l]) && !StartsFunctionOver(lines[l], Indent(lines[j]))
  {
    var e := Schemas(lines)[k];
    SchemaOrigin(lines, |lines|);
    assert e in Schemas(lines);
    j := SchemaLineNamedBy(lines, keys, e.line);
  }

  // ---------------------------------------------------------------------------
  // parseToObject

  function Top(stack: seq<Frame>): Frame
    requires |stack| >= 1
  {
    stack[|stack| - 1]
  }

  /** Frame `k` is at depth `k` on the way to the top frame's record. */
  predicate PathsChain(s: seq<Frame>)
  {
    |s| >= 1 && |Top(s).path| == |s| - 1 && forall k :: 0 <= k < |s| ==> s[k].path == Top(s).path[..k]
  }

  /** The root frame, with indentation -1, at the bottom and indentations strictly increasing upwards. */
  predicate IndentsRise(s: seq<Frame>)
  {
    |s| >= 1 && s[0].indent == -1 && forall k :: 1 <= k < |s| ==> s[k - 1].indent < s[k].indent
  }

  /** Every frame is a record of the tree. */
  predicate FramesAreRecords(root: Node, s: seq<Frame>)
  {
    forall k :: 0 <= k < |s| ==> IsRecordAt(root, s[k].path)
  }

  /** The stack discipline of `parseToObject`. */
  predicate StackOK(b: TreeBuild)
  {
    PathsChain(b.stack) && IndentsRise(b.stack) && FramesAreRecords(b.root, b.stack)
  }

  /** A bottom part of a disciplined stack is disciplined. */
  lemma PrefixOK(root: Node, s: seq<Frame>, m: nat)
    requires StackOK(TreeBuild(root, s)) && 1 <= m <= |s|
    ensures StackOK(TreeBuild(root, s[..m]))
  {
    var p := s[..m];
    assert forall k :: 0 <= k < m ==> p[k] == s[k];
    assert Top(p).path == Top(s).path[..m - 1];
    assert forall k :: 0 <= k < m ==> Top(s).path[..k] == Top(p).path[..k];
  }

  /** Popping leaves a frame below the line's indentation on top. */
  lemma PopBelow(s: seq<Frame>, indent: nat)
    requires IndentsRise(s)
    ensures Top(PopTo(s, indent)).indent < indent
  {
    var p := PopTo(s, indent);
    assert p[0] == s[0];
  }

  /** Pushing the child record of the top frame, at a larger indentation, keeps the discipline. */
  lemma PushOK(root: Node, p: seq<Frame>, indent: nat, key: string)
    requires StackOK(TreeBuild(root, p)) && Top(p).indent < indent
    requires IsRecordAt(root, Top(p).path + [key])
    ensures StackOK(TreeBuild(root, p + [Frame(indent, Top(p).path + [key])]))
  {
    var path := Top(p).path + [key];
    var q := p + [Frame(indent, path)];
    assert forall k :: 0 <= k < |p| ==> q[k] == p[k];
    assert forall k :: 0 <= k < |p| ==> Top(p).path[..k] == path[..k];
    assert path[..|p|] == path;
  }

  /** The records on the way to the parent stay records after the assignment. */
  lemma KeepsFrames(root: Node, p: seq<Frame>, key: string, v: Node)
    requires StackOK(TreeBuild(root, p))
    ensures StackOK(TreeBuild(SetAt(root, Top(p).path, key, v), p))
  {
    var n := SetAt(root, Top(p).path, key, v);
    forall k | 0 <= k < |p|
      ensures IsRecordAt(n, p[k].path)
    {
      SetAtKeepsRecords(root, Top(p).path, key, v, p[k].path);
    }
  }

  /** A `key: value` line at `indent` is stored in the nearest open record
      whose indentation is below the line's: every frame popped has an
      indentation at least the line's, the one left on top has a smaller one.
      The key then holds a new empty record for `''`, `|` and `>`, and the
      value with one layer of matching quotes removed otherwise; nothing off the
      key's path changes. */
  lemma KeyStepStores(st: TreeBuild, indent: nat, key: string, value: string)
    requires StackOK(st)
    ensures var m := |PopTo(st.stack, indent)|;
      var parent := st.stack[m - 1].path;
      var r := KeyStep(st, indent, key, value);
      st.stack[m - 1].indent < indent &&
      (forall k :: m <= k < |st.stack| ==> st.stack[k].indent >= indent) &&
      Get(r.root, parent + [key]) == Some(if OpensRecord(value) then Map(map[]) else Scalar(Unquote(value))) &&
      (forall q :: !(q <= parent + [key]) && !(parent + [key] <= q) ==> Get(r.root, q) == Get(st.root, q))
  {
    var p := PopTo(st.stack, indent);
    PopBelow(st.stack, indent);
    PrefixOK(st.root, st.stack, |p|);
    var parent := Top(p).path;
    var v := if OpensRecord(value) then Map(map[]) else Scalar(Unquote(value));
    assert p[|p| - 1] == st.stack[|p| - 1];
    GetSetAt(st.root, parent, key, v);
    forall q | !(q <= parent + [key]) && !(parent + [key] <= q)
      ensures Get(SetAt(st.root, parent, key, v), q) == Get(st.root, q)
    {
      SetAtElsewhere(st.root, parent, key, v, q);
    }
  }

  /** A key line keeps the stack discipline. */
  lemma KeyStepKeeps(st: TreeBuild, indent: nat, key: string, value: string)
    requires StackOK(st)
    ensures StackOK(KeyStep(st, indent, key, value))
  {
    var p := PopTo(st.stack, indent);
    PopBelow(st.stack, indent);
    PrefixOK(st.root, st.stack, |p|);
    var v := if OpensRecord(value) then Map(map[]) else Scalar(Unquote(value));
    KeepsFrames(st.root, p, key, v);
    if OpensRecord(value) {
      GetSetAt(st.root, Top(p).path, key, v);
      PushOK(SetAt(st.root, Top(p).path, key, v), p, indent, key);
    }
  }

  /** Any line keeps the stack discipline. */
  lemma TreeStepKeeps(st: TreeBuild, line: string)
    requires StackOK(st)
    ensures StackOK(TreeStep(st, line))
  {
    var t := Trim(line);
    if !(t == [] || t[0] == '#') && MatchKey(t).Some? {
      KeyStepKeeps(st, Indent(line), MatchKey(t).value.key, Trim(StripComment(MatchKey(t).value.value)));
    }
  }

  /** The discipline holds after every line of a document. */
  lemma {:induction false} TreeAtOK(lines: seq<string>, n: nat)
    requires n <= |lines|
    ensures StackOK(TreeAt(lines, n))
  {
    if n == 0 {
      TreeStartOK();
    } else {
      TreeAtOK(lines, n - 1);
      var prev := TreeAt(lines, n - 1);
      TreeStepKeeps(prev, lines[n - 1]);
      assert TreeAt(lines, n) == TreeStep(prev, lines[n - 1]);
    }
  }

  /** The stack starts with the root record alone. */
  lemma TreeStartOK()
    ensures StackOK(TreeStart)
  {
    assert IsRecordAt(TreeStart.root, []);
  }

  /** The tree of a document is a record. */
  lemma BuildTreeIsRecord(lines: seq<string>)
    ensures BuildTree(lines).Map?
  {
    TreeAtOK(lines, |lines|);
    assert IsRecordAt(TreeAt(lines, |lines|).root, TreeAt(lines, |lines|).stack[0].path);
  }

  // ---------------------------------------------------------------------------
  // parseServerlessYaml

  /** The text is cut at every newline and each pass reads the same lines. */
  lemma ParseLines(text: string, lines: seq<string>)
    requires |lines| >= 1 && forall l :: l in lines ==> '\n' !in l
    requires text == Join(lines, '\n')
    ensures ParseServerlessYaml(text) == ParsedServerless(Handlers(lines), Schemas(lines), BuildTree(lines))
  {
    SplitJoin(lines, '\n');
  }
}
