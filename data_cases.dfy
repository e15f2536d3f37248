/**
  The document of the data-parsing test, written with `KeyText`, and the
  key/value tree `parseServerlessYaml` makes of it. A key line is followed
  through `KeyStepStores` once the frame it lands under is known; a section
  of lines then says which paths it sets and that it leaves every path of
  another top-level key alone.
 */
module DataCases {
  import opened Wrappers
  import opened Text
  import opened Tree
  import opened YamlParser
  import opened YamlProperties
  import opened ParserCases

  /** A value stored as it is written: no white space, not quoted, not a record opener. */
  predicate Stored(v: string)
  {
    Plain(v) && !IsQuoted(v) && !OpensRecord(v)
  }

  /** No path off `path`, neither a prefix of it nor below it, reads differently in `after`. */
  ghost predicate OffPathKept(before: Node, after: Node, path: seq<string>)
  {
    forall q :: !(q <= path) && !(path <= q) ==> Get(after, q) == Get(before, q)
  }

  /** No path under a top-level key other than `key` reads differently in `after`. */
  ghost predicate OtherTopsKept(before: Node, after: Node, key: string)
  {
    forall q :: q != [] && q[0] != key ==> Get(after, q) == Get(before, q)
  }

  lemma OffPathTops(before: Node, after: Node, path: seq<string>)
    requires path != [] && OffPathKept(before, after, path)
    ensures OtherTopsKept(before, after, path[0])
  {
    forall q | q != [] && q[0] != path[0]
      ensures Get(after, q) == Get(before, q)
    {
      assert q[0] != path[0];
    }
  }

  lemma OtherTopsTrans(a: Node, b: Node, c: Node, key: string)
    requires OtherTopsKept(a, b, key) && OtherTopsKept(b, c, key)
    ensures OtherTopsKept(a, c, key)
  {
  }

  /** Two different keys of one record lie off each other's paths. */
  lemma Siblings(parent: seq<string>, a: string, b: string)
    requires a != b
    ensures !(parent + [a] <= parent + [b]) && !(parent + [b] <= parent + [a])
  {
    assert (parent + [a])[|parent|] == a && (parent + [b])[|parent|] == b;
  }

  /** A key line with an empty or stored value is one `KeyStep`. */
  lemma TreeLine(lines: seq<string>, i: nat, n: nat, key: string, value: string)
    requires i < |lines| && IsKey(key) && (value == [] || Stored(value)) && lines[i] == KeyText(n, key, value)
    ensures TreeAt(lines, i + 1) == KeyStep(TreeAt(lines, i), n, key, value)
  {
    KeyTextFacts(n, key, value);
    if value != [] {
      PlainValue(value);
    } else {
      assert StripComment(value) == [];
    }
  }

  /** What a `KeyStep` with an empty or stored value does when its frame `m`
      is the highest one indented less than the line: the frames above it are
      popped, a record frame is pushed for an empty value, the key's path gets
      the new record or the value, and no path off the key's path changes. */
  lemma StoreKey(st: TreeBuild, n: nat, key: string, value: string, m: nat)
    requires StackOK(st) && (value == [] || Stored(value))
    requires 1 <= m <= |st.stack| && st.stack[m - 1].indent < n && forall k :: m <= k < |st.stack| ==> st.stack[k].indent >= n
    ensures var path := st.stack[m - 1].path + [key];
      var r := KeyStep(st, n, key, value);
      r.stack == st.stack[..m] + (if value == [] then [Frame(n, path)] else []) &&
      Get(r.root, path) == Some(if value == [] then Map(map[]) else Scalar(value)) &&
      OffPathKept(st.root, r.root, path)
  {
    var p := PopTo(st.stack, n);
    if |p| > m {
      assert st.stack[|p| - 1].indent >= n;
    }
    KeyStepStores(st, n, key, value);
  }

  /** A blank line changes neither the tree nor the stack. */
  lemma BlankTree(lines: seq<string>, i: nat)
    requires i < |lines| && lines[i] == []
    ensures TreeAt(lines, i + 1) == TreeAt(lines, i)
  {
  }

  /** Under the discipline, only the root frame is indented less than a top-level line. */
  lemma TopFrame(st: TreeBuild)
    requires StackOK(st)
    ensures st.stack[0] == Frame(-1, []) && forall k :: 1 <= k < |st.stack| ==> st.stack[k].indent >= 0
  {
    var s := st.stack;
    assert s[0].path == Top(s).path[..0];
    forall k | 1 <= k < |s|
      ensures s[k].indent >= 0
    {
      RisesFromRoot(s, k);
    }
  }

  lemma {:induction false} RisesFromRoot(s: seq<Frame>, k: nat)
    requires IndentsRise(s) && k < |s|
    ensures s[k].indent >= k - 1
  {
    if k > 0 {
      RisesFromRoot(s, k - 1);
    }
  }

  /** A top-level `key: value` stores the value under the root. */
  lemma TopStep(st: TreeBuild, key: string, value: string)
    requires StackOK(st) && Stored(value)
    ensures var r := KeyStep(st, 0, key, value);
      StackOK(r) && Get(r.root, [key]) == Some(Scalar(value)) && OtherTopsKept(st.root, r.root, key)
  {
    TopFrame(st);
    StoreKey(st, 0, key, value, 1);
    KeyStepKeeps(st, 0, key, value);
    assert [] + [key] == [key];
    OffPathTops(st.root, KeyStep(st, 0, key, value).root, [key]);
  }

  /** A top-level `sec:` opens a record frame right above the root. */
  lemma OpenStep(st: TreeBuild, sec: string)
    requires StackOK(st)
    ensures var r := KeyStep(st, 0, sec, "");
      StackOK(r) && r.stack == [Frame(-1, []), Frame(0, [sec])] && OtherTopsKept(st.root, r.root, sec)
  {
    TopFrame(st);
    StoreKey(st, 0, sec, "", 1);
    KeyStepKeeps(st, 0, sec, "");
    assert [] + [sec] == [sec];
    OffPathTops(st.root, KeyStep(st, 0, sec, "").root, [sec]);
  }

  /** `key: value` indented more than the top frame stores the value under that frame's record. */
  lemma ChildStep(st: TreeBuild, n: nat, key: string, value: string)
    requires StackOK(st) && Stored(value) && Top(st.stack).indent < n && Top(st.stack).path != []
    ensures var path := Top(st.stack).path + [key];
      var r := KeyStep(st, n, key, value);
      StackOK(r) && r.stack == st.stack && Get(r.root, path) == Some(Scalar(value)) &&
      OffPathKept(st.root, r.root, path) && OtherTopsKept(st.root, r.root, Top(st.stack).path[0])
  {
    var s := st.stack;
    StoreKey(st, n, key, value, |s|);
    KeyStepKeeps(st, n, key, value);
    assert s[..|s|] == s;
    OffPathTops(st.root, KeyStep(st, n, key, value).root, Top(s).path + [key]);
  }

  /** `sub:` at indentation 2 inside a section opens the sub-record's frame. */
  lemma SubStep(st: TreeBuild, sec: string, sub: string)
    requires StackOK(st) && st.stack == [Frame(-1, []), Frame(0, [sec])]
    ensures var r := KeyStep(st, 2, sub, "");
      StackOK(r) && r.stack == [Frame(-1, []), Frame(0, [sec]), Frame(2, [sec, sub])] &&
      OffPathKept(st.root, r.root, [sec, sub]) && OtherTopsKept(st.root, r.root, sec)
  {
    var s := st.stack;
    StoreKey(st, 2, sub, "", 2);
    KeyStepKeeps(st, 2, sub, "");
    assert s[..2] == s;
    assert s[1].path + [sub] == [sec, sub];
    OffPathTops(st.root, KeyStep(st, 2, sub, "").root, [sec, sub]);
  }

  /** A top-level section holding a key with a value and a sub-record with one
      key, and a blank line. */
  function NestedSection(sec: string, key: string, value: string, sub: string, inner: string, innerValue: string): seq<string>
  {
    [KeyText(0, sec, ""), KeyText(2, key, value), KeyText(2, sub, ""), KeyText(4, inner, innerValue), ""]
  }

  /** A top-level section holding two keys with values, and a blank line. */
  function PairSection(sec: string, key1: string, value1: string, key2: string, value2: string): seq<string>
  {
    [KeyText(0, sec, ""), KeyText(2, key1, value1), KeyText(2, key2, value2), ""]
  }

  /** The steps of `NestedSection`: the section's key and the sub-record's
      key are stored under the section; no path of another top-level key changes. */
  lemma NestedSteps(st: TreeBuild, sec: string, key: string, value: string, sub: string, inner: string, innerValue: string)
    requires StackOK(st) && Stored(value) && Stored(innerValue) && key != sub
    ensures var r := KeyStep(KeyStep(KeyStep(KeyStep(st, 0, sec, ""), 2, key, value), 2, sub, ""), 4, inner, innerValue);
      StackOK(r) && Get(r.root, [sec, key]) == Some(Scalar(value)) &&
      Get(r.root, [sec, sub, inner]) == Some(Scalar(innerValue)) && OtherTopsKept(st.root, r.root, sec)
  {
    var s1 := KeyStep(st, 0, sec, "");
    var s2 := KeyStep(s1, 2, key, value);
    OpenStep(st, sec);
    ChildStep(s1, 2, key, value);
    assert Top(s1.stack).path + [key] == [sec, key];
    SubRecordSteps(s2, sec, key, sub, inner, innerValue);
    OtherTopsTrans(st.root, s1.root, s2.root, sec);
    OtherTopsTrans(st.root, s2.root, KeyStep(KeyStep(s2, 2, sub, ""), 4, inner, innerValue).root, sec);
  }

  /** The sub-record's two lines: `sub:` opens it and the key under it is
      stored there; the section's sibling key `key` keeps its value. */
  lemma SubRecordSteps(st: TreeBuild, sec: string, key: string, sub: string, inner: string, innerValue: string)
    requires StackOK(st) && st.stack == [Frame(-1, []), Frame(0, [sec])] && Stored(innerValue) && key != sub
    ensures var r := KeyStep(KeyStep(st, 2, sub, ""), 4, inner, innerValue);
      StackOK(r) && Get(r.root, [sec, key]) == Get(st.root, [sec, key]) &&
      Get(r.root, [sec, sub, inner]) == Some(Scalar(innerValue)) && OtherTopsKept(st.root, r.root, sec)
  {
    var s3 := KeyStep(st, 2, sub, "");
    var s4 := KeyStep(s3, 4, inner, innerValue);
    SubStep(st, sec, sub);
    Siblings([sec], key, sub);
    ChildStep(s3, 4, inner, innerValue);
    assert Top(s3.stack).path + [inner] == [sec, sub, inner];
    assert !([sec, key] <= [sec, sub, inner]) && !([sec, sub, inner] <= [sec, key]) by {
      assert [sec, sub, inner][..2] == [sec, sub];
    }
    OtherTopsTrans(st.root, s3.root, s4.root, sec);
  }

  /** The steps of `PairSection`: both keys are stored under the section; no
      path of another top-level key changes. */
  lemma PairSteps(st: TreeBuild, sec: string, key1: string, value1: string, key2: string, value2: string)
    requires StackOK(st) && Stored(value1) && Stored(value2) && key1 != key2
    ensures var r := KeyStep(KeyStep(KeyStep(st, 0, sec, ""), 2, key1, value1), 2, key2, value2);
      StackOK(r) && Get(r.root, [sec, key1]) == Some(Scalar(value1)) &&
      Get(r.root, [sec, key2]) == Some(Scalar(value2)) && OtherTopsKept(st.root, r.root, sec)
  {
    var s1 := KeyStep(st, 0, sec, "");
    var s2 := KeyStep(s1, 2, key1, value1);
    var s3 := KeyStep(s2, 2, key2, value2);
    OpenStep(st, sec);
    ChildStep(s1, 2, key1, value1);
    ChildStep(s2, 2, key2, value2);
    assert Top(s1.stack).path + [key1] == [sec, key1] && Top(s2.stack).path + [key2] == [sec, key2];
    Siblings([sec], key1, key2);
    OtherTopsTrans(st.root, s1.root, s2.root, sec);
    OtherTopsTrans(st.root, s2.root, s3.root, sec);
  }

  /** `TopLines` at line `i`: one key step between blank lines. */
  lemma TopLinesTree(lines: seq<string>, i: nat, key: string, value: string)
    requires IsKey(key) && Stored(value) && At(lines, i, TopLines(key, value))
    ensures TreeAt(lines, i + 3) == KeyStep(TreeAt(lines, i), 0, key, value)
  {
    var part := TopLines(key, value);
    assert lines[i] == part[0] && lines[i + 1] == part[1] && lines[i + 2] == part[2];
    BlankTree(lines, i);
    TreeLine(lines, i + 1, 0, key, value);
    BlankTree(lines, i + 2);
  }

  /** `NestedSection` at line `i`: four key steps and a blank line. */
  lemma NestedTree(lines: seq<string>, i: nat, sec: string, key: string, value: string,
                   sub: string, inner: string, innerValue: string)
    requires IsKey(sec) && IsKey(key) && Stored(value) && IsKey(sub) && IsKey(inner) && Stored(innerValue)
    requires At(lines, i, NestedSection(sec, key, value, sub, inner, innerValue))
    ensures TreeAt(lines, i + 5) ==
      KeyStep(KeyStep(KeyStep(KeyStep(TreeAt(lines, i), 0, sec, ""), 2, key, value), 2, sub, ""), 4, inner, innerValue)
  {
    var part := NestedSection(sec, key, value, sub, inner, innerValue);
    assert lines[i] == part[0] && lines[i + 1] == part[1] && lines[i + 2] == part[2] &&
      lines[i + 3] == part[3] && lines[i + 4] == part[4];
    TreeLine(lines, i, 0, sec, "");
    TreeLine(lines, i + 1, 2, key, value);
    TreeLine(lines, i + 2, 2, sub, "");
    TreeLine(lines, i + 3, 4, inner, innerValue);
    BlankTree(lines, i + 4);
  }

  /** `PairSection` at line `i`: three key steps and a blank line. */
  lemma PairTree(lines: seq<string>, i: nat, sec: string, key1: string, value1: string, key2: string, value2: string)
    requires IsKey(sec) && IsKey(key1) && Stored(value1) && IsKey(key2) && Stored(value2)
    requires At(lines, i, PairSection(sec, key1, value1, key2, value2))
    ensures TreeAt(lines, i + 4) ==
      KeyStep(KeyStep(KeyStep(TreeAt(lines, i), 0, sec, ""), 2, key1, value1), 2, key2, value2)
  {
    var part := PairSection(sec, key1, value1, key2, value2);
    assert lines[i] == part[0] && lines[i + 1] == part[1] && lines[i + 2] == part[2] && lines[i + 3] == part[3];
    TreeLine(lines, i, 0, sec, "");
    TreeLine(lines, i + 1, 2, key1, value1);
    TreeLine(lines, i + 2, 2, key2, value2);
    BlankTree(lines, i + 3);
  }

  /** What `TopLines` at line `i` stores. */
  lemma TopLinesStore(lines: seq<string>, i: nat, key: string, value: string)
    requires IsKey(key) && Stored(value) && At(lines, i, TopLines(key, value))
    ensures var r := TreeAt(lines, i + 3).root;
      Get(r, [key]) == Some(Scalar(value)) && OtherTopsKept(TreeAt(lines, i).root, r, key)
  {
    TreeAtOK(lines, i);
    TopLinesTree(lines, i, key, value);
    TopStep(TreeAt(lines, i), key, value);
  }

  /** What `NestedSection` at line `i` stores. */
  lemma NestedStore(lines: seq<string>, i: nat, sec: string, key: string, value: string,
                    sub: string, inner: string, innerValue: string)
    requires IsKey(sec) && IsKey(key) && Stored(value) && IsKey(sub) && IsKey(inner) && Stored(innerValue) && key != sub
    requires At(lines, i, NestedSection(sec, key, value, sub, inner, innerValue))
    ensures var r := TreeAt(lines, i + 5).root;
      Get(r, [sec, key]) == Some(Scalar(value)) && Get(r, [sec, sub, inner]) == Some(Scalar(innerValue)) &&
      OtherTopsKept(TreeAt(lines, i).root, r, sec)
  {
    TreeAtOK(lines, i);
    NestedTree(lines, i, sec, key, value, sub, inner, innerValue);
    NestedSteps(TreeAt(lines, i), sec, key, value, sub, inner, innerValue);
  }

  /** What `PairSection` at line `i` stores. */
  lemma PairStore(lines: seq<string>, i: nat, sec: string, key1: string, value1: string, key2: string, value2: string)
    requires IsKey(sec) && IsKey(key1) && Stored(value1) && IsKey(key2) && Stored(value2) && key1 != key2
    requires At(lines, i, PairSection(sec, key1, value1, key2, value2))
    ensures var r := TreeAt(lines, i + 4).root;
      Get(r, [sec, key1]) == Some(Scalar(value1)) && Get(r, [sec, key2]) == Some(Scalar(value2)) &&
      OtherTopsKept(TreeAt(lines, i).root, r, sec)
  {
    TreeAtOK(lines, i);
    PairTree(lines, i, sec, key1, value1, key2, value2);
    PairSteps(TreeAt(lines, i), sec, key1, value1, key2, value2);
  }

  /** A document of a top-level key, a section with a sub-record, and a
      section with two keys. */
  function DataDocument(key: string, value: string, sec1: string, key1: string, value1: string, sub: string,
                        inner: string, innerValue: string, sec2: string, key2: string, value2: string,
                        key3: string, value3: string): seq<string>
  {
    TopLines(key, value) + (NestedSection(sec1, key1, value1, sub, inner, innerValue) + PairSection(sec2, key2, value2, key3, value3))
  }

  /** What may be written in such a document: keys, stored values, and the
      keys that must differ so that no store overwrites another. */
  predicate DataWords(key: string, value: string, sec1: string, key1: string, value1: string, sub: string,
                      inner: string, innerValue: string, sec2: string, key2: string, value2: string,
                      key3: string, value3: string)
  {
    IsKey(key) && Stored(value) && IsKey(sec1) && IsKey(key1) && Stored(value1) && IsKey(sub) &&
    IsKey(inner) && Stored(innerValue) && IsKey(sec2) && IsKey(key2) && Stored(value2) && IsKey(key3) && Stored(value3) &&
    key != sec1 && key != sec2 && sec1 != sec2 && key1 != sub && key2 != key3
  }

  /** Where the parts of such a document sit. */
  lemma DataParts(key: string, value: string, sec1: string, key1: string, value1: string, sub: string,
                  inner: string, innerValue: string, sec2: string, key2: string, value2: string,
                  key3: string, value3: string)
    ensures var lines := DataDocument(key, value, sec1, key1, value1, sub, inner, innerValue, sec2, key2, value2, key3, value3);
      |lines| == 12 && At(lines, 0, TopLines(key, value)) &&
      At(lines, 3, NestedSection(sec1, key1, value1, sub, inner, innerValue)) &&
      At(lines, 8, PairSection(sec2, key2, value2, key3, value3))
  {
    var a := TopLines(key, value);
    var b := NestedSection(sec1, key1, value1, sub, inner, innerValue);
    var c := PairSection(sec2, key2, value2, key3, value3);
    AtFront(a, b + c);
    AtFront(b, c);
    AtShift(a, b + c, 0, b);
    assert At(c, 0, c);
    AtShift(b, c, 0, c);
    AtShift(a, b + c, 5, c);
  }

  /** The tree of such a document: every value is found at the path of the
      keys that lead to it. */
  lemma DataTree(key: string, value: string, sec1: string, key1: string, value1: string, sub: string,
                 inner: string, innerValue: string, sec2: string, key2: string, value2: string,
                 key3: string, value3: string)
    requires DataWords(key, value, sec1, key1, value1, sub, inner, innerValue, sec2, key2, value2, key3, value3)
    ensures var t := BuildTree(DataDocument(key, value, sec1, key1, value1, sub, inner, innerValue, sec2, key2, value2, key3, value3));
      Get(t, [key]) == Some(Scalar(value)) &&
      Get(t, [sec1, key1]) == Some(Scalar(value1)) && Get(t, [sec1, sub, inner]) == Some(Scalar(innerValue)) &&
      Get(t, [sec2, key2]) == Some(Scalar(value2)) && Get(t, [sec2, key3]) == Some(Scalar(value3))
  {
    var lines := DataDocument(key, value, sec1, key1, value1, sub, inner, innerValue, sec2, key2, value2, key3, value3);
    DataParts(key, value, sec1, key1, value1, sub, inner, innerValue, sec2, key2, value2, key3, value3);
    TopLinesStore(lines, 0, key, value);
    NestedStore(lines, 3, sec1, key1, value1, sub, inner, innerValue);
    PairStore(lines, 8, sec2, key2, value2, key3, value3);
    SectionsKept(TreeAt(lines, 3).root, TreeAt(lines, 8).root, TreeAt(lines, 12).root, key, value, sec1, key1, value1, sub, inner, innerValue, sec2);
    assert BuildTree(lines) == TreeAt(lines, 12).root;
  }

  /** What the first two parts store survives the parts after them, which
      only write under other top-level keys. */
  lemma SectionsKept(r3: Node, r8: Node, r12: Node, key: string, value: string, sec1: string, key1: string,
                     value1: string, sub: string, inner: string, innerValue: string, sec2: string)
    requires key != sec1 && key != sec2 && sec1 != sec2
    requires Get(r3, [key]) == Some(Scalar(value)) && OtherTopsKept(r3, r8, sec1) && OtherTopsKept(r8, r12, sec2)
    requires Get(r8, [sec1, key1]) == Some(Scalar(value1)) && Get(r8, [sec1, sub, inner]) == Some(Scalar(innerValue))
    ensures Get(r12, [key]) == Some(Scalar(value))
    ensures Get(r12, [sec1, key1]) == Some(Scalar(value1)) && Get(r12, [sec1, sub, inner]) == Some(Scalar(innerValue))
  {
    assert Get(r8, [key]) == Get(r3, [key]);
    assert Get(r12, [key]) == Get(r8, [key]);
    assert Get(r12, [sec1, key1]) == Get(r8, [sec1, key1]);
    assert Get(r12, [sec1, sub, inner]) == Get(r8, [sec1, sub, inner]);
  }

  lemma DataOneLine(key: string, value: string, sec1: string, key1: string, value1: string, sub: string,
                    inner: string, innerValue: string, sec2: string, key2: string, value2: string,
                    key3: string, value3: string)
    requires DataWords(key, value, sec1, key1, value1, sub, inner, innerValue, sec2, key2, value2, key3, value3)
    ensures OneLines(DataDocument(key, value, sec1, key1, value1, sub, inner, innerValue, sec2, key2, value2, key3, value3))
  {
    var a := TopLines(key, value);
    var b := NestedSection(sec1, key1, value1, sub, inner, innerValue);
    var c := PairSection(sec2, key2, value2, key3, value3);
    TopLinesOneLine(key, value);
    KeyTextOneLine(0, sec1, "");
    KeyTextOneLine(2, key1, value1);
    KeyTextOneLine(2, sub, "");
    KeyTextOneLine(4, inner, innerValue);
    KeyTextOneLine(0, sec2, "");
    KeyTextOneLine(2, key2, value2);
    KeyTextOneLine(2, key3, value3);
    assert OneLines(b) && OneLines(c);
    OneLinesConcat(b, c);
    OneLinesConcat(a, b + c);
  }

  // ---------------------------------------------------------------------------
  // Test 5: the key/value tree

  /** The lines of test 5's document. */
  function DataLines(): seq<string>
  {
    DataDocument("service", ServiceName, "custom", "prefix", "src/functions", "nested", "value", "deep-value",
      "provider", "name", "aws", "runtime", "nodejs18.x")
  }

  lemma DataKeys()
    ensures IsKey("service") && IsKey("custom") && IsKey("prefix") && IsKey("nested") && IsKey("value")
    ensures IsKey("provider") && IsKey("name") && IsKey("runtime")
  {
    ServiceWords();
    assert IsKey("prefix") && IsKey("nested") && IsKey("value");
    assert IsKey("provider") && IsKey("name") && IsKey("runtime");
  }

  lemma DataValues()
    ensures Stored(ServiceName) && Stored("src/functions") && Stored("deep-value")
    ensures Stored("aws") && Stored("nodejs18.x")
  {
    ServiceWords();
    assert Plain("src/functions") && Plain("deep-value") && Plain("aws") && Plain("nodejs18.x");
  }

  lemma DataLinesWords()
    ensures DataWords("service", ServiceName, "custom", "prefix", "src/functions", "nested", "value", "deep-value",
      "provider", "name", "aws", "runtime", "nodejs18.x")
  {
    DataKeys();
    DataValues();
  }

  /** Test 5: the data tree holds each value under the path of the keys that
      lead to it, nested records included. */
  lemma DataParsing()
    ensures var data := ParseServerlessYaml(Join(DataLines(), '\n')).data;
      Get(data, ["service"]) == Some(Scalar("my-service")) &&
      Get(data, ["custom", "prefix"]) == Some(Scalar("src/functions")) &&
      Get(data, ["custom", "nested", "value"]) == Some(Scalar("deep-value")) &&
      Get(data, ["provider", "name"]) == Some(Scalar("aws")) &&
      Get(data, ["provider", "runtime"]) == Some(Scalar("nodejs18.x"))
  {
    var lines := DataLines();
    DataLinesWords();
    DataOneLine("service", ServiceName, "custom", "prefix", "src/functions", "nested", "value", "deep-value",
      "provider", "name", "aws", "runtime", "nodejs18.x");
    DataTree("service", ServiceName, "custom", "prefix", "src/functions", "nested", "value", "deep-value",
      "provider", "name", "aws", "runtime", "nodejs18.x");
    DataParts("service", ServiceName, "custom", "prefix", "src/functions", "nested", "value", "deep-value",
      "provider", "name", "aws", "runtime", "nodejs18.x");
    OneLinesNoBreak(lines);
    ParseLines(Join(lines, '\n'), lines);
  }
}
