/** The parts of Go's `strings` package the resolver relies on. */
module Strings {

  /** `strings.IndexByte`: the index of the first `c` in `s`, or -1. */
  function IndexByte(s: string, c: char): (i: int)
    ensures -1 <= i < |s|
    ensures i == -1 <==> c !in s
    ensures 0 <= i ==> s[i] == c && c !in s[..i]
  {
    if |s| == 0 then -1
    else if s[0] == c then 0
    else
      var k := IndexByte(s[1..], c);
      if k < 0 then -1
      else
        assert s[..k + 1] == [s[0]] + s[1..][..k];
        k + 1
  }

  /** The first occurrence is determined by the text before it. */
  lemma IndexByteOfConcat(a: string, c: char, b: string)
    requires c !in a
    ensures IndexByte(a + [c] + b, c) == |a|
  {
    var s := a + [c] + b;
    assert s[|a|] == c;
    assert s[..|a|] == a;
  }

  lemma IndexByteOfPrefix(a: string, c: char, b: string)
    requires c in a
    ensures IndexByte(a + b, c) == IndexByte(a, c)
  {
    var i := IndexByte(a, c);
    assert (a + b)[i] == c;
    assert (a + b)[..i] == a[..i];
  }

  /** `strings.Split(s, string(sep))` for a one-character separator. */
  function Split(s: string, sep: char): (parts: seq<string>)
    ensures |parts| >= 1
    decreases |s|
  {
    var i := IndexByte(s, sep);
    if i < 0 then [s] else [s[..i]] + Split(s[i + 1..], sep)
  }

  /** `strings.Join(parts, string(sep))` for a one-character separator. */
  function Join(parts: seq<string>, sep: char): (r: string)
    ensures |parts| > 0 ==> |r| >= |parts[0]|
  {
    if |parts| == 0 then ""
    else if |parts| == 1 then parts[0]
    else parts[0] + [sep] + Join(parts[1..], sep)
  }

  /** Joining one more piece puts exactly one separator before it. */
  lemma {:induction false} JoinSnoc(parts: seq<string>, t: string, sep: char)
    ensures Join(parts + [t], sep) == if parts == [] then t else Join(parts, sep) + [sep] + t
  {
    if |parts| >= 2 {
      assert (parts + [t])[1..] == parts[1..] + [t];
      JoinSnoc(parts[1..], t, sep);
    } else if |parts| == 1 {
      assert (parts + [t])[1..] == [t];
    }
  }

  /** Joining a piece in front of a non-empty list puts one separator after it. */
  lemma JoinCons(head: string, parts: seq<string>, sep: char)
    requires |parts| >= 1
    ensures Join([head] + parts, sep) == head + [sep] + Join(parts, sep)
  {
    assert ([head] + parts)[1..] == parts;
  }

  /** A split at the first separator: the text before it, then the pieces after it. */
  lemma SplitAt(s: string, sep: char)
    requires IndexByte(s, sep) >= 0
    ensures var i := IndexByte(s, sep);
            && s == s[..i] + [sep] + s[i + 1..]
            && Split(s, sep) == [s[..i]] + Split(s[i + 1..], sep)
  {
  }

  /** A string without the separator splits into itself alone. */
  lemma SplitWithoutSeparator(s: string, sep: char)
    requires sep !in s
    ensures Split(s, sep) == [s]
  {
  }

  /** Joining the pieces of a split gives back the original text. */
  lemma {:induction false} JoinSplit(s: string, sep: char)
    ensures Join(Split(s, sep), sep) == s
    decreases |s|
  {
    var i := IndexByte(s, sep);
    if i >= 0 {
      SplitAt(s, sep);
      JoinSplit(s[i + 1..], sep);
      JoinCons(s[..i], Split(s[i + 1..], sep), sep);
    }
  }

  /** No piece of a split holds the separator. */
  lemma {:induction false} SplitPartsFree(s: string, sep: char)
    ensures forall k :: 0 <= k < |Split(s, sep)| ==> sep !in Split(s, sep)[k]
    decreases |s|
  {
    var i := IndexByte(s, sep);
    if i >= 0 {
      SplitAt(s, sep);
      SplitPartsFree(s[i + 1..], sep);
    } else {
      SplitWithoutSeparator(s, sep);
    }
  }

  /** Text before the first separator becomes the first piece. */
  lemma SplitAfterPlain(a: string, sep: char, rest: string)
    requires sep !in a
    ensures Split(a + [sep] + rest, sep) == [a] + Split(rest, sep)
  {
    IndexByteOfConcat(a, sep, rest);
    var s := a + [sep] + rest;
    SplitAt(s, sep);
    assert s[..|a|] == a;
    assert s[|a| + 1..] == rest;
  }

  /** A name under two separator-free segments splits into those two and the pieces of the rest. */
  lemma SplitAfterTwo(a: string, b: string, sep: char, rest: string)
    requires sep !in a && sep !in b
    ensures Split(a + [sep] + b + [sep] + rest, sep) == [a, b] + Split(rest, sep)
  {
    var tail := b + [sep] + rest;
    calc {
      Split(a + [sep] + b + [sep] + rest, sep);
      { assert a + [sep] + b + [sep] + rest == a + [sep] + tail; }
      Split(a + [sep] + tail, sep);
      { SplitAfterPlain(a, sep, tail); }
      [a] + Split(tail, sep);
      { SplitAfterPlain(b, sep, rest); }
      [a] + ([b] + Split(rest, sep));
      [a, b] + Split(rest, sep);
    }
  }

  /** Splitting at a separator splits the two sides independently. */
  lemma {:induction false} SplitOfConcat(a: string, sep: char, b: string)
    ensures Split(a + [sep] + b, sep) == Split(a, sep) + Split(b, sep)
    decreases |a|
  {
    if sep !in a {
      SplitWithoutSeparator(a, sep);
      SplitAfterPlain(a, sep, b);
    } else {
      var s := a + [sep] + b;
      var i := IndexByte(a, sep);
      var head, tail := a[..i], a[i + 1..];
      SplitAt(a, sep);
      IndexByteOfPrefix(a, sep, [sep] + b);
      SlicesAround(a, sep, b, i);
      SplitAt(s, sep);
      SplitOfConcat(tail, sep, b);
      calc {
        Split(s, sep);
        [head] + Split(tail + [sep] + b, sep);
        [head] + (Split(tail, sep) + Split(b, sep));
        { AppendAssociates([head], Split(tail, sep), Split(b, sep)); }
        ([head] + Split(tail, sep)) + Split(b, sep);
        Split(a, sep) + Split(b, sep);
      }
    }
  }

  /** The slices of `a + [x] + b` before and after a position inside `a`. */
  lemma SlicesAround<T>(a: seq<T>, x: T, b: seq<T>, i: nat)
    requires i < |a|
    ensures a + ([x] + b) == a + [x] + b
    ensures (a + [x] + b)[..i] == a[..i]
    ensures (a + [x] + b)[i + 1..] == a[i + 1..] + [x] + b
  {
  }

  lemma AppendAssociates<T>(x: seq<T>, y: seq<T>, z: seq<T>)
    ensures x + (y + z) == (x + y) + z
  {
  }

  /** Splitting the join of separator-free pieces gives back the pieces. */
  lemma {:induction false} SplitJoin(parts: seq<string>, sep: char)
    requires |parts| >= 1
    requires forall k :: 0 <= k < |parts| ==> sep !in parts[k]
    ensures Split(Join(parts, sep), sep) == parts
  {
    if |parts| == 1 {
      SplitWithoutSeparator(parts[0], sep);
    } else {
      var rest := parts[1..];
      SplitJoin(rest, sep);
      assert [parts[0]] + rest == parts;
      JoinCons(parts[0], rest, sep);
      SplitAfterPlain(parts[0], sep, Join(rest, sep));
    }
  }
}
