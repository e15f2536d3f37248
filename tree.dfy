/**
  The nested key/value record that `parseToObject` builds and `lookupPath`
  reads: every value is either a string or another record.
 */
module Tree {
  import opened Wrappers

  /** A string value, or a record of named children. */
  datatype Node = Scalar(text: string) | Map(entries: map<string, Node>)

  /** The node reached from `n` by descending one record per key of `path`;
      `None` when a key is missing or a value on the way is a string. */
  function Get(n: Node, path: seq<string>): Option<Node>
    decreases |path|
  {
    if path == [] then Some(n)
    else if n.Map? && path[0] in n.entries then Get(n.entries[path[0]], path[1..])
    else None
  }

  /** `Get(n, path)` is a record. */
  predicate IsRecordAt(n: Node, path: seq<string>)
  {
    Get(n, path).Some? && Get(n, path).value.Map?
  }

  /** `obj[key] = v` performed on the record that `path` reaches from `n`;
      `n` is returned unchanged when `path` reaches no record. */
  function SetAt(n: Node, path: seq<string>, key: string, v: Node): Node
    decreases |path|
  {
    if !n.Map? then n
    else if path == [] then Map(n.entries[key := v])
    else if path[0] in n.entries then Map(n.entries[path[0] := SetAt(n.entries[path[0]], path[1..], key, v)])
    else n
  }

  /** Descending along `p + q` is descending along `p`, then along `q`. */
  lemma {:induction false} GetAppend(n: Node, p: seq<string>, q: seq<string>)
    ensures Get(n, p + q) == if Get(n, p).Some? then Get(Get(n, p).value, q) else None
    decreases |p|
  {
    if p == [] {
      assert p + q == q;
    } else {
      assert (p + q)[0] == p[0] && (p + q)[1..] == p[1..] + q;
      if n.Map? && p[0] in n.entries {
        GetAppend(n.entries[p[0]], p[1..], q);
      }
    }
  }

  /** After the assignment, `path + [key]` reaches exactly the assigned value. */
  lemma {:induction false} GetSetAt(n: Node, path: seq<string>, key: string, v: Node)
    requires IsRecordAt(n, path)
    ensures Get(SetAt(n, path, key, v), path + [key]) == Some(v)
    decreases |path|
  {
    if path == [] {
      assert Get(SetAt(n, path, key, v), [key]) == Get(v, []);
    } else {
      assert (path + [key])[1..] == path[1..] + [key];
      GetSetAt(n.entries[path[0]], path[1..], key, v);
    }
  }

  /** The assignment keeps every record on the way to `path` a record. */
  lemma {:induction false} SetAtKeepsRecords(n: Node, path: seq<string>, key: string, v: Node, q: seq<string>)
    requires IsRecordAt(n, path) && q <= path
    ensures IsRecordAt(SetAt(n, path, key, v), q)
    decreases |path|
  {
    if q != [] {
      assert q[0] == path[0];
      assert q[1..] <= path[1..];
      SetAtKeepsRecords(n.entries[path[0]], path[1..], key, v, q[1..]);
    }
  }

  /** Nothing that branches off before `path + [key]` changes: a path that is
      neither a prefix nor an extension of `path + [key]` reaches the same node. */
  lemma {:induction false} SetAtElsewhere(n: Node, path: seq<string>, key: string, v: Node, q: seq<string>)
    requires IsRecordAt(n, path)
    requires !(q <= path + [key]) && !(path + [key] <= q)
    ensures Get(SetAt(n, path, key, v), q) == Get(n, q)
    decreases |path|
  {
    if path == [] {
      assert q[0] != key;
    } else if q[0] == path[0] {
      assert (path + [key])[0] == path[0] && (path + [key])[1..] == path[1..] + [key];
      assert q == [q[0]] + q[1..];
      SetAtElsewhere(n.entries[path[0]], path[1..], key, v, q[1..]);
    }
  }

  /** Assigning the same key of the same record twice leaves only the second value. */
  lemma {:induction false} SetAtTwice(n: Node, path: seq<string>, key: string, v1: Node, v2: Node)
    ensures SetAt(SetAt(n, path, key, v1), path, key, v2) == SetAt(n, path, key, v2)
    decreases |path|
  {
    if n.Map? && path == [] {
      assert n.entries[key := v1][key := v2] == n.entries[key := v2];
    } else if n.Map? && path[0] in n.entries {
      SetAtTwice(n.entries[path[0]], path[1..], key, v1, v2);
      var e := n.entries;
      assert e[path[0] := SetAt(e[path[0]], path[1..], key, v1)][path[0] := SetAt(e[path[0]], path[1..], key, v2)]
        == e[path[0] := SetAt(e[path[0]], path[1..], key, v2)];
    }
  }

  /** JavaScript's `String(value)` on a node: the string itself, or the text
      every plain object turns into. */
  function Stringify(n: Node): (s: string)
    ensures n.Scalar? ==> s == n.text
  {
    match n
    case Scalar(t) => t
    case Map(_) => "[object Object]"
  }
}
