/**
 * Dynamic values as the resolver hands them around (Go's `interface{}`), and
 * the dot-path walk that the JSON, YAML and Cloud Foundry providers share.
 */
module Values {
  import Strings

  /** Keys of a decoded mapping. JSON keys are always strings; YAML allows any scalar. */
  datatype Key = KString(s: string) | KInt(i: int) | KBool(b: bool) | KNull

  /**
   * A decoded document node or a provider answer. `Null` stands for Go's nil:
   * "no value", whether nothing was found or the document held a null.
   * Numbers are kept abstract as integers.
   */
  datatype Value =
    | Null
    | Str(s: string)
    | Num(n: int)
    | Bool(b: bool)
    | List(items: seq<Value>)
    | Map(entries: map<Key, Value>)

  /** The root mapping of a decoded configuration file. */
  type Document = map<Key, Value>

  /**
   * Walks `path` from `node`: each segment must meet a mapping holding that
   * string key; the node reached at the end is returned as it is.
   */
  function Lookup(node: Value, path: seq<string>): Value
    decreases |path|
  {
    if path == [] then node
    else
      match node
      case Map(m) =>
        if KString(path[0]) in m then Lookup(m[KString(path[0])], path[1..]) else Null
      case _ => Null
  }

  /** A dotted name looked up in a document: `a.b.c` walks keys `a`, `b`, `c`. */
  function GetDotted(doc: Document, name: string): Value
  {
    Lookup(Map(doc), Strings.Split(name, '.'))
  }

  /** Walking a path in two legs is the same as walking it at once. */
  lemma {:induction false} LookupConcat(node: Value, p: seq<string>, q: seq<string>)
    ensures Lookup(node, p + q) == Lookup(Lookup(node, p), q)
    decreases |p|
  {
    if p == [] {
      assert p + q == q;
    } else if node.Map? && KString(p[0]) in node.entries {
      assert (p + q)[1..] == p[1..] + q;
      LookupConcat(node.entries[KString(p[0])], p[1..], q);
    } else {
      if q != [] {
        assert Lookup(Null, q) == Null;
      }
    }
  }

  /** Once a walk has missed, no longer path can find anything. */
  lemma {:induction false} LookupMissPersists(node: Value, p: seq<string>, q: seq<string>)
    requires Lookup(node, p) == Null
    ensures Lookup(node, p + q) == Null
  {
    LookupConcat(node, p, q);
  }

  /** A found value means every prefix of the path ended on a mapping holding the next key. */
  lemma {:induction false} LookupFoundThroughMappings(node: Value, path: seq<string>, k: nat)
    requires Lookup(node, path) != Null
    requires k < |path|
    ensures Lookup(node, path[..k]).Map?
    ensures KString(path[k]) in Lookup(node, path[..k]).entries
  {
    LookupConcat(node, path[..k], path[k..]);
    assert path[..k] + path[k..] == path;
    assert path[k..][0] == path[k];
  }

  /** Keys other than strings can never be reached by a dotted name. */
  lemma LookupIgnoresNonStringKeys(m: map<Key, Value>, m': map<Key, Value>, path: seq<string>)
    requires path != []
    requires forall s: string :: (KString(s) in m <==> KString(s) in m')
    requires forall s: string :: KString(s) in m ==> m[KString(s)] == m'[KString(s)]
    ensures Lookup(Map(m), path) == Lookup(Map(m'), path)
  {
  }

  /** Every name misses in the empty document. */
  lemma EmptyDocumentMisses(name: string)
    ensures GetDotted(map[], name) == Null
  {
    assert Strings.Split(name, '.') != [];
  }

  /** Looking up `a.b` in a document walks `a` first and then `b` below it. */
  lemma GetDottedNested(doc: Document, a: string, b: string)
    ensures GetDotted(doc, a + "." + b) == Lookup(GetDotted(doc, a), Strings.Split(b, '.'))
  {
    Strings.SplitOfConcat(a, '.', b);
    LookupConcat(Map(doc), Strings.Split(a, '.'), Strings.Split(b, '.'));
  }

  /** A name under two plain segments walks those two keys first. */
  lemma GetDottedUnder(doc: Document, a: string, b: string, name: string)
    requires '.' !in a && '.' !in b
    ensures GetDotted(doc, a + "." + b + "." + name) == Lookup(Lookup(Map(doc), [a, b]), Strings.Split(name, '.'))
  {
    Strings.SplitAfterTwo(a, b, '.', name);
    LookupConcat(Map(doc), [a, b], Strings.Split(name, '.'));
  }

  /** A walk of one or two segments, step by step. */
  lemma LookupShort(node: Value, a: string, b: string)
    ensures Lookup(node, [a]) == if node.Map? && KString(a) in node.entries then node.entries[KString(a)] else Null
    ensures Lookup(node, [a, b]) == Lookup(Lookup(node, [a]), [b])
  {
    assert [a][1..] == [];
    assert [a, b][1..] == [b];
  }

  /**
   * The walk loop each provider's `Get` runs over the segments of a name,
   * returning nil on a non-mapping step or a missing key.
   */
  method GetPath(root: Value, path: seq<string>) returns (v: Value)
    ensures v == Lookup(root, path)
  {
    var current := root;
    var i := 0;
    while i < |path|
      invariant 0 <= i <= |path|
      invariant Lookup(root, path) == Lookup(current, path[i..])
    {
      match current {
        case Map(m) =>
          if KString(path[i]) !in m {
            return Null;
          }
          current := m[KString(path[i])];
        case _ =>
          return Null;
      }
      assert path[i..][1..] == path[i + 1..];
      i := i + 1;
    }
    assert path[i..] == [];
    v := current;
  }

  /**
   * The dotted-name example, for any separator-free segments: in
   * `{"a": {"b": "c"}}`, `a.b` is `"c"`, while `a.x` (a missing key) and
   * `a.b.c` (a step below a string) are nil.
   */
  lemma DottedExample(doc: Document, a: string, b: string, c: string, x: string)
    requires '.' !in a && '.' !in b && '.' !in c && '.' !in x && x != b
    requires doc == map[KString(a) := Map(map[KString(b) := Str(c)])]
    ensures GetDotted(doc, a + "." + b) == Str(c)
    ensures GetDotted(doc, a + "." + x) == Null
    ensures GetDotted(doc, a + "." + b + "." + c) == Null
  {
    var inner := Map(map[KString(b) := Str(c)]);
    Strings.SplitWithoutSeparator(b, '.');
    Strings.SplitWithoutSeparator(c, '.');
    Strings.SplitWithoutSeparator(x, '.');
    Strings.SplitAfterPlain(a, '.', b);
    Strings.SplitAfterPlain(a, '.', x);
    Strings.SplitAfterTwo(a, b, '.', c);
    LookupShort(Map(doc), a, b);
    LookupShort(Map(doc), a, x);
    LookupShort(inner, b, b);
    LookupShort(inner, x, x);
    LookupShort(Str(c), c, c);
    LookupConcat(Map(doc), [a, b], [c]);
  }
}
