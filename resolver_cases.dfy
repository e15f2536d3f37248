/**
  The variable-resolution cases of the repository's test suite, and a cyclic
  reference, stated as lemmas about `Resolved`. Each concrete case first
  establishes the facts about its literal strings, then applies a general
  lemma about the shape of its input.
 */
module ResolverCases {
  import opened Wrappers
  import opened Text
  import opened Tree
  import opened VariableResolver

  // ---------------------------------------------------------------------------
  // Shapes of input

  /** `a.b` as a path of two keys. */
  lemma TwoSegments(a: string, b: string)
    requires '.' !in a && '.' !in b
    ensures Split(a + "." + b, '.') == [a, b]
  {
    SplitCons(a, '.', b);
    SplitNone(b, '.');
  }

  /** Nothing is found in an empty record. */
  lemma LookupEmpty(path: string)
    ensures Lookup(Map(map[]), path).None?
  {
  }

  /** One pass over a leading placeholder followed by `$`-free text. */
  lemma ReplaceLeading(e: string, b: string, callback: string -> string)
    requires e != [] && '}' !in e && '$' !in b
    ensures Replace(Placeholder(e) + b, callback) == callback(e) + b
  {
    ReplaceVar(e, b, callback);
    NoDollarNoVar(b);
    ReplaceNoVar(b, callback);
  }

  /** `"self:" + path` has no closing brace when `path` has none. */
  lemma SelfNoBrace(path: string)
    requires '}' !in path
    ensures '}' !in "self:" + path
  {
    var e := "self:" + path;
    assert forall k :: 5 <= k < |e| ==> e[k] == path[k - 5];
  }

  /** A leading `self:` placeholder whose path holds a string: one pass puts that string in its place. */
  lemma SelfStep(path: string, b: string, tree: Node, v: string)
    requires ',' !in path && '}' !in path && '$' !in b
    requires Lookup(tree, path) == Some(Scalar(v))
    ensures HasVar(Placeholder("self:" + path) + b)
    ensures Replace(Placeholder("self:" + path) + b, ExprValue(tree)) == v + b
  {
    var e := "self:" + path;
    SelfNoBrace(path);
    SelfWithoutComma(path, tree);
    PlaceholderHasVar(e, b);
    ReplaceLeading(e, b, ExprValue(tree));
  }

  /** A leading `self:` placeholder whose path holds a `$`-free string is resolved by the next pass. */
  lemma SelfOnce(path: string, b: string, tree: Node, v: string, n: nat)
    requires ',' !in path && '}' !in path && '$' !in b && '$' !in v
    requires Lookup(tree, path) == Some(Scalar(v))
    ensures ResolveN(Placeholder("self:" + path) + b, ExprValue(tree), n + 1) == v + b
  {
    SelfStep(path, b, tree, v);
    NoDollarNoVar(v + b);
  }

  /** A `self:` value that is itself a placeholder is resolved by the pass after. */
  lemma SelfTwice(p1: string, p2: string, mid: string, b: string, tree: Node, v: string, n: nat)
    requires ',' !in p1 && '}' !in p1 && ',' !in p2 && '}' !in p2
    requires '$' !in mid && '$' !in b && '$' !in v
    requires Lookup(tree, p1) == Some(Scalar(Placeholder("self:" + p2) + mid))
    requires Lookup(tree, p2) == Some(Scalar(v))
    ensures ResolveN(Placeholder("self:" + p1) + b, ExprValue(tree), n + 2) == v + (mid + b)
  {
    var cb := ExprValue(tree);
    var s := Placeholder("self:" + p1) + b;
    var s2 := Placeholder("self:" + p2) + (mid + b);
    assert HasVar(s) && Replace(s, cb) == s2 by {
      SelfStep(p1, b, tree, Placeholder("self:" + p2) + mid);
      Assoc(Placeholder("self:" + p2), mid, b);
    }
    assert ResolveN(s2, cb, n + 1) == v + (mid + b) by {
      assert '$' !in mid + b;
      SelfOnce(p2, mid + b, tree, v, n);
    }
  }

  /** Two placeholders in one string are both replaced in the same pass. */
  lemma TwoInOnePass(p1: string, sep: string, p2: string, tail: string, tree: Node, v1: string, v2: string)
    requires ',' !in p1 && '}' !in p1 && ',' !in p2 && '}' !in p2
    requires '$' !in sep && '$' !in tail && '$' !in v1 && '$' !in v2
    requires Lookup(tree, p1) == Some(Scalar(v1)) && Lookup(tree, p2) == Some(Scalar(v2))
    ensures Resolved(Placeholder("self:" + p1) + sep + Placeholder("self:" + p2) + tail, tree)
            == v1 + sep + v2 + tail
  {
    var cb := ExprValue(tree);
    var e1, e2 := "self:" + p1, "self:" + p2;
    var rest := sep + (Placeholder(e2) + tail);
    assert Placeholder(e1) + sep + Placeholder(e2) + tail == Placeholder(e1) + rest by {
      Assoc(Placeholder(e1) + sep, Placeholder(e2), tail);
      Assoc(Placeholder(e1), sep, Placeholder(e2) + tail);
    }
    var r := v1 + (sep + (v2 + tail));
    assert v1 + sep + v2 + tail == r by {
      Assoc(v1 + sep, v2, tail);
      Assoc(v1, sep, v2 + tail);
    }
    SelfNoBrace(p1);
    SelfNoBrace(p2);
    SelfWithoutComma(p1, tree);
    SelfWithoutComma(p2, tree);
    PlaceholderHasVar(e1, rest);
    ReplaceVar(e1, rest, cb);
    ReplacePlain(sep, Placeholder(e2) + tail, cb);
    ReplaceLeading(e2, tail, cb);
    assert '$' !in r;
    NoDollarNoVar(r);
  }

  /** Text without commas, quotes or braces: nothing in it ends or nests a main part. */
  predicate PlainMain(m: string)
  {
    ',' !in m && '\'' !in m && '"' !in m && '{' !in m && '}' !in m
  }

  /** The split at a comma that follows plain text: the trimmed text before it,
      and the trimmed, unquoted text after it. */
  lemma DefaultParts(m: string, rest: string)
    requires PlainMain(m)
    ensures SplitDefault(m + "," + rest) == Parts(Trim(m), Some(Unquote(Trim(rest))))
  {
    var e := m + "," + rest;
    FirstPlainComma(m, rest);
    assert e[..|m|] == m;
    assert e[|m| + 1..] == rest;
  }

  /** A lone placeholder whose expression resolves to `$`-free text gives that text. */
  lemma LonePlaceholder(e: string, tree: Node, v: string)
    requires e != [] && '}' !in e && '$' !in v
    requires ResolveExpression(e, tree) == v
    ensures Resolved(Placeholder(e), tree) == v
  {
    ReplaceLeading(e, [], ExprValue(tree));
    PlaceholderHasVar(e, []);
    assert Placeholder(e) + [] == Placeholder(e);
    NoDollarNoVar(v);
  }

  /** A non-`self:` expression with a default resolves to that default, whatever the tree. */
  lemma DefaultUsed(m: string, rest: string, tree: Node)
    requires PlainMain(m) && !("self:" <= Trim(m))
    requires '}' !in rest && '$' !in Unquote(Trim(rest))
    ensures Resolved(Placeholder(m + "," + rest), tree) == Unquote(Trim(rest))
  {
    var e := m + "," + rest;
    DefaultParts(m, rest);
    NonSelfIgnoresTree(e, tree, tree);
    LonePlaceholder(e, tree, Unquote(Trim(rest)));
  }

  /** `m, <q>d<q>` after spaces `sp`, with `m` plain and not `self:`, resolves to `d`. */
  lemma QuotedDefault(m: string, sp: string, q: char, d: string, tree: Node)
    requires PlainMain(m) && m != [] && !IsSpace(m[0]) && !IsSpace(m[|m| - 1]) && !("self:" <= m)
    requires AllSpace(sp) && (q == '\'' || q == '"') && '}' !in d && '$' !in d
    ensures Resolved(Placeholder(m + "," + (sp + ([q] + d + [q]))), tree) == d
  {
    var quoted := [q] + d + [q];
    TrimNone(m);
    TrimLeft(sp, quoted);
    UnquoteQuoted(q, d);
    DefaultUsed(m, sp + quoted, tree);
  }

  /** `m,` with `m` plain and not `self:` resolves to the empty string. */
  lemma EmptyDefault(m: string, tree: Node)
    requires PlainMain(m) && m != [] && !IsSpace(m[0]) && !IsSpace(m[|m| - 1]) && !("self:" <= m)
    ensures Resolved(Placeholder(m + "," + ""), tree) == ""
  {
    TrimNone(m);
    assert Unquote(Trim("")) == "";
    DefaultUsed(m, "", tree);
  }

  /** A `self:` placeholder whose path is missing is left exactly as it was. */
  lemma MissingStays(path: string, tree: Node)
    requires ',' !in path && '}' !in path
    requires Lookup(tree, path).None?
    ensures Resolved(Placeholder("self:" + path), tree) == Placeholder("self:" + path)
  {
    var e := "self:" + path;
    SelfNoBrace(path);
    SelfWithoutComma(path, tree);
    ReplaceVar(e, [], ExprValue(tree));
    assert Placeholder(e) + [] == Placeholder(e);
    ReplaceFixed(Placeholder(e), ExprValue(tree), MaxPasses);
  }

  /** A value that refers to itself is replaced by itself on every pass: all
      ten passes run and the placeholder is what comes out. */
  lemma CyclicStays(path: string, tree: Node)
    requires ',' !in path && '}' !in path
    requires Lookup(tree, path) == Some(Scalar(Placeholder("self:" + path)))
    ensures HasVar(Placeholder("self:" + path))
    ensures Replace(Placeholder("self:" + path), ExprValue(tree)) == Placeholder("self:" + path)
    ensures Resolved(Placeholder("self:" + path), tree) == Placeholder("self:" + path)
  {
    var e := "self:" + path;
    SelfNoBrace(path);
    SelfWithoutComma(path, tree);
    ReplaceVar(e, [], ExprValue(tree));
    PlaceholderHasVar(e, []);
    assert Placeholder(e) + [] == Placeholder(e);
    ReplaceFixed(Placeholder(e), ExprValue(tree), MaxPasses);
  }

  // ---------------------------------------------------------------------------
  // The cases

  /** The literal facts of testSelfVariableResolution. */
  lemma PrefixFacts()
    ensures Split("custom.prefix", '.') == ["custom", "prefix"]
    ensures "self:" + "custom.prefix" == "self:custom.prefix"
  {
    assert "custom" + "." + "prefix" == "custom.prefix";
    TwoSegments("custom", "prefix");
  }

  /** The pieces of the expected output of testSelfVariableResolution. */
  lemma PrefixOutput()
    ensures "src/functions" + "/hello.handler" == "src/functions/hello.handler"
    ensures ',' !in "custom.prefix" && '}' !in "custom.prefix"
  {
  }

  /** The `$`-free pieces of testSelfVariableResolution. */
  lemma PrefixPlain()
    ensures '$' !in "/hello.handler" && '$' !in "src/functions"
  {
  }

  /** test.ts, testSelfVariableResolution. */
  lemma SelfVariable(input: string, tree: Node)
    requires input == Placeholder("self:custom.prefix") + "/hello.handler"
    requires tree == Map(map["custom" := Map(map["prefix" := Scalar("src/functions")])])
    ensures Resolved(input, tree) == "src/functions/hello.handler"
  {
    PrefixFacts();
    PrefixOutput();
    PrefixPlain();
    SelfOnce("custom.prefix", "/hello.handler", tree, "src/functions", MaxPasses - 1);
  }

  /** `opt:stage` is a plain main part. */
  lemma OptStage()
    ensures var m := "opt:stage";
      PlainMain(m) && m != [] && !IsSpace(m[0]) && !IsSpace(m[|m| - 1]) && !("self:" <= m)
  {
  }

  /** The pieces of `opt:stage, 'dev'`. */
  lemma OptPieces()
    ensures "opt:stage" + "," + (" " + (['\''] + "dev" + ['\''])) == "opt:stage, 'dev'"
    ensures AllSpace(" ") && '}' !in "dev" && '$' !in "dev"
  {
  }

  /** test.ts, testOptAndEnvDefaults: a single-quoted default. */
  lemma OptDefault(input: string, tree: Node)
    requires input == Placeholder("opt:stage, 'dev'")
    ensures Resolved(input, tree) == "dev"
  {
    OptStage();
    OptPieces();
    QuotedDefault("opt:stage", " ", '\'', "dev", tree);
  }

  /** `env:NODE_ENV` is a plain main part. */
  lemma EnvNodeEnv()
    ensures var m := "env:NODE_ENV";
      PlainMain(m) && m != [] && !IsSpace(m[0]) && !IsSpace(m[|m| - 1]) && !("self:" <= m)
  {
  }

  /** The pieces of `env:NODE_ENV, "production"`. */
  lemma EnvPieces()
    ensures "env:NODE_ENV" + "," + (" " + (['"'] + "production" + ['"'])) == "env:NODE_ENV, \"production\""
    ensures AllSpace(" ") && '}' !in "production" && '$' !in "production"
  {
  }

  /** test.ts, testOptAndEnvDefaults: a double-quoted default. */
  lemma EnvDefault(input: string, tree: Node)
    requires input == Placeholder("env:NODE_ENV, \"production\"")
    ensures Resolved(input, tree) == "production"
  {
    EnvNodeEnv();
    EnvPieces();
    QuotedDefault("env:NODE_ENV", " ", '"', "production", tree);
  }

  /** An empty default gives the empty string. */
  lemma OptEmptyDefault(input: string, tree: Node)
    requires input == Placeholder("opt:stage,")
    ensures Resolved(input, tree) == ""
  {
    OptStage();
    assert "opt:stage" + "," + "" == "opt:stage,";
    EmptyDefault("opt:stage", tree);
  }

  /** The literal facts of testUnresolvableVariables. */
  lemma MissingFacts()
    ensures "self:" + "custom.missing" == "self:custom.missing"
    ensures ',' !in "custom.missing" && '}' !in "custom.missing"
  {
  }

  /** test.ts, testUnresolvableVariables. */
  lemma UnresolvableVariable(input: string)
    requires input == Placeholder("self:custom.missing")
    ensures Resolved(input, Map(map[])) == input
  {
    MissingFacts();
    LookupEmpty("custom.missing");
    MissingStays("custom.missing", Map(map[]));
  }

  /** The first path of testNestedVariables. */
  lemma FullPathPath()
    ensures Split("custom.fullPath", '.') == ["custom", "fullPath"]
  {
    assert "custom" + "." + "fullPath" == "custom.fullPath";
    TwoSegments("custom", "fullPath");
  }

  /** The second path of testNestedVariables. */
  lemma BasePathPath()
    ensures Split("custom.basePath", '.') == ["custom", "basePath"]
  {
    assert "custom" + "." + "basePath" == "custom.basePath";
    TwoSegments("custom", "basePath");
  }

  /** The `self:` expressions of testNestedVariables. */
  lemma NestedExprs()
    ensures "self:" + "custom.fullPath" == "self:custom.fullPath"
    ensures "self:" + "custom.basePath" == "self:custom.basePath"
  {
  }

  /** The characters the paths of testNestedVariables do not contain. */
  lemma NestedPathChars()
    ensures ',' !in "custom.fullPath" && '}' !in "custom.fullPath"
    ensures ',' !in "custom.basePath" && '}' !in "custom.basePath"
  {
  }

  /** The expected output of testNestedVariables, in pieces, which have no `$`. */
  lemma NestedOutput()
    ensures "src" + ("/functions" + "/hello.handler") == "src/functions/hello.handler"
    ensures '$' !in "/functions" && '$' !in "/hello.handler" && '$' !in "src"
  {
    assert "/functions" + "/hello.handler" == "/functions/hello.handler";
  }

  /** The tree of testNestedVariables always has this shape. */
  predicate NestedTree(tree: Node)
  {
    tree == Map(map["custom" := Map(map["basePath" := Scalar("src"),
                                        "fullPath" := Scalar(Placeholder("self:custom.basePath") + "/functions")])])
  }

  /** In the tree of testNestedVariables, `custom.fullPath` refers to `custom.basePath`. */
  lemma NestedFullPath(tree: Node)
    requires NestedTree(tree)
    ensures Lookup(tree, "custom.fullPath") == Some(Scalar(Placeholder("self:" + "custom.basePath") + "/functions"))
  {
    FullPathPath();
    NestedExprs();
    assert Get(tree, ["custom", "fullPath"]) == Some(Scalar(Placeholder("self:custom.basePath") + "/functions"));
  }

  /** In the tree of testNestedVariables, `custom.basePath` is `src`. */
  lemma NestedBasePath(tree: Node)
    requires NestedTree(tree)
    ensures Lookup(tree, "custom.basePath") == Some(Scalar("src"))
  {
    BasePathPath();
    assert Get(tree, ["custom", "basePath"]) == Some(Scalar("src"));
  }

  /** test.ts, testNestedVariables: the first pass leaves a placeholder, the second resolves it. */
  lemma NestedVariables(input: string, tree: Node)
    requires input == Placeholder("self:custom.fullPath") + "/hello.handler"
    requires tree == Map(map["custom" := Map(map["basePath" := Scalar("src"),
                                                 "fullPath" := Scalar(Placeholder("self:custom.basePath") + "/functions")])])
    ensures Resolved(input, tree) == "src/functions/hello.handler"
  {
    NestedFullPath(tree);
    NestedBasePath(tree);
    NestedExprs();
    NestedPathChars();
    NestedOutput();
    SelfTwice("custom.fullPath", "custom.basePath", "/functions", "/hello.handler", tree, "src", MaxPasses - 2);
  }

  /** The two paths of testMultipleVariablesInOneLine. */
  lemma MultiplePaths()
    ensures Split("custom.dir", '.') == ["custom", "dir"]
    ensures Split("custom.subdir", '.') == ["custom", "subdir"]
  {
    assert "custom" + "." + "dir" == "custom.dir";
    TwoSegments("custom", "dir");
    assert "custom" + "." + "subdir" == "custom.subdir";
    TwoSegments("custom", "subdir");
  }

  /** The `self:` expressions of testMultipleVariablesInOneLine, and the
      characters their paths do not contain. */
  lemma MultipleExprs()
    ensures "self:" + "custom.dir" == "self:custom.dir"
    ensures "self:" + "custom.subdir" == "self:custom.subdir"
    ensures ',' !in "custom.dir" && '}' !in "custom.dir" && ',' !in "custom.subdir" && '}' !in "custom.subdir"
  {
  }

  /** The expected output of testMultipleVariablesInOneLine, in pieces, which have no `$`. */
  lemma MultipleOutput()
    ensures "src" + "/" + "functions" + "/create.handler" == "src/functions/create.handler"
    ensures '$' !in "/" && '$' !in "/create.handler" && '$' !in "src" && '$' !in "functions"
  {
    assert "src" + "/" + "functions" == "src/functions";
  }

  /** The tree of testMultipleVariablesInOneLine. */
  lemma MultipleLookup(tree: Node)
    requires tree == Map(map["custom" := Map(map["dir" := Scalar("src"), "subdir" := Scalar("functions")])])
    ensures Lookup(tree, "custom.dir") == Some(Scalar("src"))
    ensures Lookup(tree, "custom.subdir") == Some(Scalar("functions"))
  {
    MultiplePaths();
  }

  /** test.ts, testMultipleVariablesInOneLine: both placeholders go in the same pass. */
  lemma MultipleVariables(input: string, tree: Node)
    requires input == Placeholder("self:custom.dir") + "/" + Placeholder("self:custom.subdir") + "/create.handler"
    requires tree == Map(map["custom" := Map(map["dir" := Scalar("src"), "subdir" := Scalar("functions")])])
    ensures Resolved(input, tree) == "src/functions/create.handler"
  {
    MultipleLookup(tree);
    MultipleExprs();
    MultipleOutput();
    TwoInOnePass("custom.dir", "/", "custom.subdir", "/create.handler", tree, "src", "functions");
  }

  /** The path of the self-referencing record. */
  lemma LoopPath()
    ensures Split("custom.loop", '.') == ["custom", "loop"]
  {
    assert "custom" + "." + "loop" == "custom.loop";
    TwoSegments("custom", "loop");
  }

  /** The expression of the self-referencing record. */
  lemma LoopExpr()
    ensures "self:" + "custom.loop" == "self:custom.loop"
    ensures ',' !in "custom.loop" && '}' !in "custom.loop"
  {
  }

  /** A value that refers to itself: the ten passes run out and the placeholder is left. */
  lemma SelfReference(input: string, tree: Node)
    requires input == Placeholder("self:custom.loop")
    requires tree == Map(map["custom" := Map(map["loop" := Scalar(Placeholder("self:custom.loop"))])])
    ensures Resolved(input, tree) == input
  {
    LoopPath();
    LoopExpr();
    CyclicStays("custom.loop", tree);
  }
}
