/**
  The fixed regular expressions and string built-ins the descriptor parser
  and the variable resolver rely on, written out as functions over `string`.
  White space is the ASCII part of what JavaScript's `\s` and `trim()` accept.
 */
module Text {
  import opened Wrappers

  /** A white-space character: `\s` restricted to ASCII. */
  predicate IsSpace(c: char)
  {
    c == ' ' || c == '\t' || c == '\n' || c == '\U{B}' || c == '\U{C}' || c == '\r'
  }

  predicate AllSpace(s: string)
  {
    forall k :: 0 <= k < |s| ==> IsSpace(s[k])
  }

  /** `\w`: an ASCII letter, a digit or an underscore. */
  predicate IsWordChar(c: char)
  {
    'a' <= c <= 'z' || 'A' <= c <= 'Z' || '0' <= c <= '9' || c == '_'
  }

  /** `[\w.-]`: a character allowed after the first one of a key. */
  predicate IsKeyChar(c: char)
  {
    IsWordChar(c) || c == '.' || c == '-'
  }

  /** The index of the first non-space character at or after `i`, or `|s|`. */
  function SkipSpaces(s: string, i: nat): (j: nat)
    requires i <= |s|
    ensures i <= j <= |s|
    ensures forall k :: i <= k < j ==> IsSpace(s[k])
    ensures j < |s| ==> !IsSpace(s[j])
    decreases |s| - i
  {
    if i < |s| && IsSpace(s[i]) then SkipSpaces(s, i + 1) else i
  }

  /** The index just past the last non-space character of `s[lo..j]`, or `lo`. */
  function SkipSpacesBack(s: string, lo: nat, j: nat): (r: nat)
    requires lo <= j <= |s|
    ensures lo <= r <= j
    ensures forall k :: r <= k < j ==> IsSpace(s[k])
    ensures r > lo ==> !IsSpace(s[r - 1])
    decreases j
  {
    if j > lo && IsSpace(s[j - 1]) then SkipSpacesBack(s, lo, j - 1) else j
  }

  /** `getIndent`: the length of the leading run of white space of a line. */
  function Indent(line: string): (n: nat)
    ensures n <= |line|
    ensures forall k :: 0 <= k < n ==> IsSpace(line[k])
    ensures n < |line| ==> !IsSpace(line[n])
  {
    SkipSpaces(line, 0)
  }

  /** `String.prototype.trim`: `s` without its leading and trailing white space. */
  function Trim(s: string): (r: string)
    ensures |r| <= |s| - Indent(s)
    ensures r == s[Indent(s)..Indent(s) + |r|]
    ensures AllSpace(s[..Indent(s)]) && AllSpace(s[Indent(s) + |r|..])
    ensures r != [] ==> !IsSpace(r[0]) && !IsSpace(r[|r| - 1])
  {
    var a := SkipSpaces(s, 0);
    var b := SkipSpacesBack(s, a, |s|);
    assert AllSpace(s[b..]) by {
      forall k | 0 <= k < |s[b..]| ensures IsSpace(s[b..][k]) { assert s[b..][k] == s[b + k]; }
    }
    s[a..b]
  }

  /** The index of the first `c` at or after `i`, or `|s|`. */
  function IndexOf(s: string, c: char, i: nat): (j: nat)
    requires i <= |s|
    ensures i <= j <= |s|
    ensures forall k :: i <= k < j ==> s[k] != c
    ensures j < |s| ==> s[j] == c
    decreases |s| - i
  {
    if i == |s| || s[i] == c then i else IndexOf(s, c, i + 1)
  }

  /** The parts of `s[i..]` between occurrences of `c`. */
  function SplitFrom(s: string, c: char, i: nat): (parts: seq<string>)
    requires i <= |s|
    ensures |parts| >= 1
    ensures forall p :: p in parts ==> c !in p
    ensures Join(parts, c) == s[i..]
    decreases |s| - i
  {
    var j := IndexOf(s, c, i);
    if j == |s| then
      [s[i..]]
    else
      var rest := SplitFrom(s, c, j + 1);
      assert s[i..] == s[i..j] + [c] + s[j + 1..];
      [s[i..j]] + rest
  }

  /** `String.prototype.split` with a one-character separator. */
  function Split(s: string, c: char): (parts: seq<string>)
    ensures |parts| >= 1
    ensures forall p :: p in parts ==> c !in p
    ensures Join(parts, c) == s
  {
    SplitFrom(s, c, 0)
  }

  /** `Array.prototype.join` with a one-character separator: the inverse of `Split`. */
  function Join(parts: seq<string>, c: char): string
  {
    if |parts| == 0 then "" else if |parts| == 1 then parts[0] else parts[0] + [c] + Join(parts[1..], c)
  }

  /** `\s+#.*$` matches at `p`: a run of white space starts there and the first character after it is `#`. */
  predicate CommentAt(s: string, p: nat)
  {
    p < |s| && IsSpace(s[p]) && SkipSpaces(s, p) < |s| && s[SkipSpaces(s, p)] == '#'
  }

  /** The leftmost position at or after `p` where `\s+#.*$` matches, or `|s|`. */
  function CommentFrom(s: string, p: nat): (r: nat)
    requires p <= |s|
    ensures p <= r <= |s|
    ensures forall k :: p <= k < r ==> !CommentAt(s, k)
    ensures r < |s| ==> CommentAt(s, r)
    decreases |s| - p
  {
    if p == |s| || CommentAt(s, p) then p else CommentFrom(s, p + 1)
  }

  /** `s.replace(/\s+#.*$/, '')`: `s` cut where its first inline comment begins. */
  function StripComment(s: string): (r: string)
    ensures r <= s
    ensures forall k :: 0 <= k < |r| ==> !CommentAt(s, k)
    ensures |r| < |s| ==> CommentAt(s, |r|)
  {
    s[..CommentFrom(s, 0)]
  }

  /** The index of the first white-space character at or after `i`, or `|s|`. */
  function WordEnd(s: string, i: nat): (j: nat)
    requires i <= |s|
    ensures i <= j <= |s|
    ensures forall k :: i <= k < j ==> !IsSpace(s[k])
    ensures j < |s| ==> IsSpace(s[j])
    decreases |s| - i
  {
    if i < |s| && !IsSpace(s[i]) then WordEnd(s, i + 1) else i
  }

  /** `^\S+\s*:` matches with its colon at `j`: `s[..j]` is a non-empty run of
      non-space characters followed by white space only. */
  predicate ColonAfterWord(s: string, j: nat)
  {
    1 <= j < |s| && s[j] == ':' && !IsSpace(s[0]) &&
    var w := WordEnd(s, 0); j < w || (w < j && AllSpace(s[w..j]))
  }

  /** Whether `^\S+\s*:` matches with its colon at some index `>= i`. */
  function KeyColonFrom(s: string, i: nat): bool
    requires i <= |s|
    decreases |s| - i
  {
    if i == |s| then false else ColonAfterWord(s, i) || KeyColonFrom(s, i + 1)
  }

  /** `KeyColonFrom` tries every index from `i` on. */
  lemma {:induction false} KeyColonFromIff(s: string, i: nat)
    requires i <= |s|
    ensures KeyColonFrom(s, i) <==> exists j :: i <= j < |s| && ColonAfterWord(s, j)
    decreases |s| - i
  {
    if i < |s| {
      KeyColonFromIff(s, i + 1);
    }
  }

  /** `/^\S+\s*:/.test(s)`. */
  function HasKeyColon(s: string): bool
  {
    KeyColonFrom(s, 0)
  }

  /** The pattern `^\S+\s*:` matches exactly when some colon follows a leading word and white space. */
  lemma HasKeyColonIff(s: string)
    ensures HasKeyColon(s) <==> exists j :: 0 <= j < |s| && ColonAfterWord(s, j)
  {
    KeyColonFromIff(s, 0);
  }

  /** `/^functions\s*:/.test(s)`. */
  predicate IsFunctionsHeader(s: string)
  {
    "functions" <= s && SkipSpaces(s, 9) < |s| && s[SkipSpaces(s, 9)] == ':'
  }

  /** The two groups of the key pattern `^([\w][\w.-]*)\s*:\s*(.*)$`. */
  datatype KeyValue = KeyValue(key: string, value: string)

  /** A key: a word character followed by word characters, dots and dashes. */
  predicate IsKey(key: string)
  {
    |key| >= 1 && IsWordChar(key[0]) && forall k :: 1 <= k < |key| ==> IsKeyChar(key[k])
  }

  /** `\s*:\s*`: white space, one colon, white space. */
  predicate IsSeparator(sep: string)
  {
    SkipSpaces(sep, 0) < |sep| && sep[SkipSpaces(sep, 0)] == ':' && AllSpace(sep[SkipSpaces(sep, 0) + 1..])
  }

  /** The key pattern matches `s` with groups `key` and `value`: `s` is the key,
      a separator, and the value, which the greedy `\s*` leaves without leading white space. */
  predicate KeyLine(s: string, key: string, value: string)
  {
    |key| + |value| <= |s| && s[..|key|] == key && s[|s| - |value|..] == value &&
    IsKey(key) && IsSeparator(s[|key|..|s| - |value|]) && (value == [] || !IsSpace(value[0]))
  }

  /** The index of the first non-key character at or after `i`, or `|s|`. */
  function KeyEnd(s: string, i: nat): (j: nat)
    requires i <= |s|
    ensures i <= j <= |s|
    ensures forall k :: i <= k < j ==> IsKeyChar(s[k])
    ensures j < |s| ==> !IsKeyChar(s[j])
    decreases |s| - i
  {
    if i < |s| && IsKeyChar(s[i]) then KeyEnd(s, i + 1) else i
  }

  /** `s.match(/^([\w][\w.-]*)\s*:\s*(.*)$/)`: the key and the value of a `key: value` line. */
  function MatchKey(s: string): Option<KeyValue>
  {
    if |s| == 0 || !IsWordChar(s[0]) then None
    else
      var k := KeyEnd(s, 1);
      var c := SkipSpaces(s, k);
      if c < |s| && s[c] == ':' then Some(KeyValue(s[..k], s[SkipSpaces(s, c + 1)..]))
      else None
  }

  /** White space, the colon at `c`, and white space up to `v`: the slice from `k` to `v` is a separator. */
  lemma SeparatorAt(s: string, k: nat, c: nat, v: nat)
    requires k <= c < v <= |s| && s[c] == ':'
    requires SkipSpaces(s, k) == c && SkipSpaces(s, c + 1) == v
    ensures IsSeparator(s[k..v])
  {
    assert SkipSpaces(s[k..v], 0) == c - k by { SkipSpacesShift(s, k, v, 0); }
    assert s[k..v][c - k] == s[c];
    var t := s[k..v][c - k + 1..];
    forall m | 0 <= m < |t| ensures IsSpace(t[m]) {
      assert t[m] == s[c + 1 + m];
    }
  }

  /** What `MatchKey` finds is a key, a separator and a value that make up the whole line. */
  lemma MatchKeySound(s: string)
    ensures MatchKey(s).Some? ==> KeyLine(s, MatchKey(s).value.key, MatchKey(s).value.value)
  {
    if MatchKey(s).Some? {
      var k := KeyEnd(s, 1);
      var c := SkipSpaces(s, k);
      KeyLineAt(s, k, c, SkipSpaces(s, c + 1));
    }
  }

  /** The pieces the key pattern finds form a key line. */
  lemma KeyLineAt(s: string, k: nat, c: nat, v: nat)
    requires |s| > 0 && IsWordChar(s[0]) && 1 <= k <= |s| && k == KeyEnd(s, 1)
    requires k <= c < |s| && c == SkipSpaces(s, k) && s[c] == ':' && c < v <= |s| && v == SkipSpaces(s, c + 1)
    ensures KeyLine(s, s[..k], s[v..])
  {
    var key, value := s[..k], s[v..];
    assert IsSeparator(s[|key|..|s| - |value|]) by {
      SeparatorAt(s, k, c, v);
      assert |key| == k && |s| - |value| == v;
    }
    assert IsKey(key) by {
      forall m | 1 <= m < k ensures IsKeyChar(key[m]) { assert key[m] == s[m]; }
    }
    assert value == [] || !IsSpace(value[0]) by {
      if value != [] { assert value[0] == s[v]; }
    }
    assert s[|s| - |value|..] == value;
  }

  /** `SkipSpaces` computed on a slice agrees with `SkipSpaces` on the whole string, shifted, if it stops inside the slice. */
  lemma {:induction false} SkipSpacesShift(s: string, lo: nat, hi: nat, i: nat)
    requires lo <= hi <= |s| && i <= hi - lo
    requires SkipSpaces(s, lo + i) < hi
    ensures SkipSpaces(s[lo..hi], i) == SkipSpaces(s, lo + i) - lo
    decreases hi - lo - i
  {
    if i < hi - lo && IsSpace(s[lo + i]) {
      SkipSpacesShift(s, lo, hi, i + 1);
    }
  }

  /** `SkipSpaces` stops at the first non-space character and nowhere else. */
  lemma SkipSpacesIs(s: string, i: nat, j: nat)
    requires i <= j <= |s|
    requires forall k :: i <= k < j ==> IsSpace(s[k])
    requires j < |s| ==> !IsSpace(s[j])
    ensures SkipSpaces(s, i) == j
  {
  }

  /** `KeyEnd` stops at the first non-key character and nowhere else. */
  lemma KeyEndIs(s: string, i: nat, j: nat)
    requires i <= j <= |s|
    requires forall k :: i <= k < j ==> IsKeyChar(s[k])
    requires j < |s| ==> !IsKeyChar(s[j])
    ensures KeyEnd(s, i) == j
  {
  }

  /** On a key line the key is the longest run of key characters. */
  lemma KeyLineKeyEnd(s: string, key: string, value: string)
    requires KeyLine(s, key, value)
    ensures KeyEnd(s, 1) == |key|
  {
    var n := |key|;
    var sep := s[n..|s| - |value|];
    assert forall m :: 1 <= m < n ==> s[m] == key[m];
    assert s[n] == sep[0];
    KeyEndIs(s, 1, n);
  }

  /** Skipping spaces inside a slice that holds a non-space is skipping them in the whole string. */
  lemma SkipSpacesOffset(s: string, n: nat, sep: string)
    requires n + |sep| <= |s| && s[n..n + |sep|] == sep
    requires SkipSpaces(sep, 0) < |sep|
    ensures SkipSpaces(s, n) == n + SkipSpaces(sep, 0)
  {
    var a := SkipSpaces(sep, 0);
    assert forall m :: n <= m < n + a ==> s[m] == sep[m - n];
    assert s[n + a] == sep[a];
    SkipSpacesIs(s, n, n + a);
  }

  /** On a key line the separator's colon is the first non-space after the key. */
  lemma KeyLineColon(s: string, key: string, value: string)
    requires KeyLine(s, key, value)
    ensures SkipSpaces(s, |key|) == |key| + SkipSpaces(s[|key|..|s| - |value|], 0)
    ensures SkipSpaces(s, |key|) < |s| && s[SkipSpaces(s, |key|)] == ':'
  {
    var sep := s[|key|..|s| - |value|];
    SkipSpacesOffset(s, |key|, sep);
    assert s[|key| + SkipSpaces(sep, 0)] == sep[SkipSpaces(sep, 0)];
  }

  /** On a key line the value starts at the first non-space after the colon. */
  lemma KeyLineValue(s: string, key: string, value: string, c: nat)
    requires KeyLine(s, key, value)
    requires c == |key| + SkipSpaces(s[|key|..|s| - |value|], 0)
    ensures c < |s| - |value| && SkipSpaces(s, c + 1) == |s| - |value|
  {
    var n := |key|;
    var e := |s| - |value|;
    var sep := s[n..e];
    var a := c - n;
    assert forall m :: c + 1 <= m < e ==> s[m] == sep[a + 1..][m - c - 1];
    assert e < |s| ==> s[e] == value[0];
    SkipSpacesIs(s, c + 1, e);
  }

  /** The key pattern has exactly one way to match: whenever `s` is a key, a
      separator and a value, `MatchKey` finds precisely that key and value. */
  lemma MatchKeyComplete(s: string, key: string, value: string)
    requires KeyLine(s, key, value)
    ensures MatchKey(s) == Some(KeyValue(key, value))
  {
    assert s[0] == key[0];
    KeyLineKeyEnd(s, key, value);
    KeyLineColon(s, key, value);
    KeyLineValue(s, key, value, SkipSpaces(s, |key|));
  }

  /** On a key line the colon of the separator follows a leading word and white space only. */
  lemma KeyLineColonAfterWord(s: string, key: string, value: string)
    requires KeyLine(s, key, value)
    ensures ColonAfterWord(s, SkipSpaces(s, |key|))
  {
    var k := |key|;
    var c := SkipSpaces(s, k);
    KeyLineColon(s, key, value);
    assert forall m :: 0 <= m < k ==> s[m] == key[m];
    var w := WordEnd(s, 0);
    assert w >= k;
    if w <= c {
      assert w < c;
      assert forall m :: 0 <= m < c - w ==> s[w..c][m] == s[w + m];
    }
  }

  /** Every line the key pattern matches is also matched by `^\S+\s*:`, the
      test that closes the `functions:` block. */
  lemma KeyPatternColon(s: string)
    ensures MatchKey(s).Some? ==> HasKeyColon(s)
  {
    if MatchKey(s).Some? {
      MatchKeySound(s);
      KeyLineColonAfterWord(s, MatchKey(s).value.key, MatchKey(s).value.value);
      HasKeyColonIff(s);
    }
  }

  /** A key line with the key `functions` passes `/^functions\s*:/`. */
  lemma FunctionsKeyIsHeader(s: string, value: string)
    requires KeyLine(s, "functions", value)
    ensures IsFunctionsHeader(s)
  {
    KeyLineColon(s, "functions", value);
  }

  /** A line passing `/^functions\s*:/` is a key line with the key `functions`. */
  lemma HeaderIsFunctionsKey(s: string)
    requires IsFunctionsHeader(s)
    ensures MatchKey(s).Some? && MatchKey(s).value.key == "functions"
  {
    assert s[..9] == "functions";
    forall m | 1 <= m < 9 ensures IsKeyChar(s[m]) {
      assert s[m] == "functions"[m];
    }
    KeyEndIs(s, 1, 9);
  }

  /** `/^functions\s*:/` matches exactly the lines whose key, in the key pattern, is `functions`. */
  lemma FunctionsHeaderIff(s: string)
    ensures IsFunctionsHeader(s) <==> MatchKey(s).Some? && MatchKey(s).value.key == "functions"
  {
    if MatchKey(s).Some? && MatchKey(s).value.key == "functions" {
      MatchKeySound(s);
      FunctionsKeyIsHeader(s, MatchKey(s).value.value);
    }
    if IsFunctionsHeader(s) {
      HeaderIsFunctionsKey(s);
    }
  }

  /** `v.match(/^\$\{file\(([^)]+)\)\}$/)`: the path inside a `${file(...)}` reference. */
  function MatchFileRef(v: string): Option<string>
  {
    if |v| >= 10 && v[..7] == "${file(" && IndexOf(v, ')', 7) == |v| - 2 && v[|v| - 1] == '}' then
      Some(v[7..|v| - 2])
    else
      None
  }

  /** What `MatchFileRef` finds is a non-empty path free of `)`, wrapped in `${file(` and `)}`. */
  lemma MatchFileRefSound(v: string)
    ensures var r := MatchFileRef(v);
      r.Some? ==> v == "${file(" + r.value + ")}" && r.value != [] && ')' !in r.value
  {
    if MatchFileRef(v).Some? {
      assert v == v[..7] + v[7..|v| - 2] + v[|v| - 2..];
      assert ')' !in v[7..|v| - 2] by {
        var p := v[7..|v| - 2];
        forall k | 0 <= k < |p| ensures p[k] != ')' { assert p[k] == v[7 + k]; }
      }
    }
  }

  /** Every `${file(P)}` with a non-empty `P` free of `)` is recognised, and `P` is what comes back. */
  lemma FileRefRoundTrip(p: string)
    requires p != [] && ')' !in p
    ensures MatchFileRef("${file(" + p + ")}") == Some(p)
  {
    var v := "${file(" + p + ")}";
    assert v[..7] == "${file(";
    assert forall k :: 7 <= k < |v| - 2 ==> v[k] == p[k - 7];
    assert v[|v| - 2] == ')';
    assert IndexOf(v, ')', 7) == |v| - 2;
    assert v[7..|v| - 2] == p;
  }

  /** `MatchFileRef` recognises `${file(P)}` and extracts `P`, for exactly the
      non-empty `P` free of `)`. */
  lemma MatchFileRefExact(v: string, p: string)
    ensures MatchFileRef(v) == Some(p) <==> v == "${file(" + p + ")}" && p != [] && ')' !in p
  {
    MatchFileRefSound(v);
    if v == "${file(" + p + ")}" && p != [] && ')' !in p {
      FileRefRoundTrip(p);
    }
  }

  /** The first and the last character are the same quote character (`'` or `"`). */
  predicate IsQuoted(v: string)
  {
    |v| >= 1 && (v[0] == '\'' || v[0] == '"') && v[|v| - 1] == v[0]
  }

  /** `v.slice(1, -1)` applied when `v` is quoted: one layer of matching quotes removed. */
  function Unquote(v: string): (r: string)
    ensures !IsQuoted(v) ==> r == v
    ensures IsQuoted(v) ==> |r| == if |v| >= 2 then |v| - 2 else 0
    ensures IsQuoted(v) && |v| >= 2 ==> v == [v[0]] + r + [v[0]]
  {
    if IsQuoted(v) then (if |v| >= 2 then v[1..|v| - 1] else "") else v
  }

  /** Quoting a string and unquoting it gives the string back. */
  lemma UnquoteQuoted(q: char, x: string)
    requires q == '\'' || q == '"'
    ensures Unquote([q] + x + [q]) == x
  {
    assert ([q] + x + [q])[1..|x| + 1] == x;
  }

  // ---------------------------------------------------------------------------
  // Split and Join are inverse

  /** Leading white space is all that trimming removes from `pre + r`. */
  lemma TrimLeft(pre: string, r: string)
    requires AllSpace(pre)
    requires r != [] && !IsSpace(r[0]) && !IsSpace(r[|r| - 1])
    ensures Trim(pre + r) == r
  {
    assert pre + r + [] == pre + r;
    TrimIs(pre, r, []);
  }

  /** Text without white space at its ends is its own trim. */
  lemma TrimNone(r: string)
    requires r != [] && !IsSpace(r[0]) && !IsSpace(r[|r| - 1])
    ensures Trim(r) == r
  {
    assert [] + r + [] == r;
    TrimIs([], r, []);
  }

  /** Concatenation is associative. */
  lemma Assoc(a: string, b: string, c: string)
    ensures a + b + c == a + (b + c)
  {
  }

  /** `IndexOf` stops at the first `c` and nowhere else. */
  lemma IndexOfIs(s: string, c: char, i: nat, j: nat)
    requires i <= j <= |s|
    requires forall k :: i <= k < j ==> s[k] != c
    requires j < |s| ==> s[j] == c
    ensures IndexOf(s, c, i) == j
  {
  }

  /** The first separator of a joined string ends its first part. */
  lemma FirstSeparator(parts: seq<string>, c: char)
    requires |parts| >= 1 && forall p :: p in parts ==> c !in p
    ensures IndexOf(Join(parts, c), c, 0) == if |parts| == 1 then |Join(parts, c)| else |parts[0]|
  {
    var s := Join(parts, c);
    assert c !in parts[0];
    if |parts| == 1 {
      IndexOfIs(s, c, 0, |s|);
    } else {
      assert forall k :: 0 <= k < |parts[0]| ==> s[k] == parts[0][k];
      IndexOfIs(s, c, 0, |parts[0]|);
    }
  }

  /** Joining is injective on separator-free parts. */
  lemma {:induction false} JoinInjective(p: seq<string>, q: seq<string>, c: char)
    requires |p| >= 1 && forall x :: x in p ==> c !in x
    requires |q| >= 1 && forall x :: x in q ==> c !in x
    requires Join(p, c) == Join(q, c)
    ensures p == q
    decreases |p|
  {
    var s := Join(p, c);
    FirstSeparator(p, c);
    FirstSeparator(q, c);
    if |p| == 1 {
      assert |q| == 1;
    } else {
      assert |q| > 1;
      assert p[0] == s[..|p[0]|] == q[0];
      assert Join(p[1..], c) == s[|p[0]| + 1..] == Join(q[1..], c);
      assert forall x :: x in p[1..] ==> x in p;
      assert forall x :: x in q[1..] ==> x in q;
      JoinInjective(p[1..], q[1..], c);
      assert p == [p[0]] + p[1..];
      assert q == [q[0]] + q[1..];
    }
  }

  /** `Split` undoes `Join` when no part contains the separator. */
  lemma SplitJoin(parts: seq<string>, c: char)
    requires |parts| >= 1 && forall p :: p in parts ==> c !in p
    ensures Split(Join(parts, c), c) == parts
  {
    JoinInjective(Split(Join(parts, c), c), parts, c);
  }

  /** A string without the separator splits into itself alone. */
  lemma SplitNone(a: string, c: char)
    requires c !in a
    ensures Split(a, c) == [a]
  {
    SplitJoin([a], c);
  }

  /** Splitting peels off the part before the first separator. */
  lemma SplitCons(a: string, c: char, b: string)
    requires c !in a
    ensures Split(a + [c] + b, c) == [a] + Split(b, c)
  {
    var parts := [a] + Split(b, c);
    assert parts[1..] == Split(b, c);
    assert Join(parts, c) == a + [c] + b;
    SplitJoin(parts, c);
  }

  // ---------------------------------------------------------------------------
  // Trim and StripComment on given shapes

  /** `SkipSpacesBack` stops after the last non-space character and nowhere else. */
  lemma SkipSpacesBackIs(s: string, lo: nat, j: nat, r: nat)
    requires lo <= r <= j <= |s|
    requires forall k :: r <= k < j ==> IsSpace(s[k])
    requires r > lo ==> !IsSpace(s[r - 1])
    ensures SkipSpacesBack(s, lo, j) == r
  {
  }

  /** White space around a string with non-space ends is exactly what `Trim` removes. */
  lemma TrimIs(pre: string, r: string, post: string)
    requires AllSpace(pre) && AllSpace(post)
    requires r != [] && !IsSpace(r[0]) && !IsSpace(r[|r| - 1])
    ensures Trim(pre + r + post) == r
  {
    var s := pre + r + post;
    var n := |pre|;
    assert forall k :: 0 <= k < n ==> s[k] == pre[k];
    assert s[n] == r[0];
    SkipSpacesIs(s, 0, n);
    assert forall k :: n + |r| <= k < |s| ==> s[k] == post[k - n - |r|];
    assert s[n + |r| - 1] == r[|r| - 1];
    SkipSpacesBackIs(s, n, |s|, n + |r|);
    assert s[n..n + |r|] == r;
  }

  /** A value without `#` has no comment to strip. */
  lemma StripNoHash(s: string)
    requires '#' !in s
    ensures StripComment(s) == s
  {
  }
}
