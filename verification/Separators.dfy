/** Texts joined with a separator: when two different joins can give the same text. */
module Separators {

  function Joined(a: string, sep: char, x: string): string {
    a + [sep] + x
  }

  /** The first part and its separator already stand at the front of the other first part. */
  predicate Reaches(a: string, sep: char, b: string) {
    a + [sep] <= b
  }

  predicate Free(s: string, sep: char) {
    sep !in s
  }

  lemma ReachedHasSeparator(a: string, sep: char, b: string)
    requires Reaches(a, sep, b)
    ensures !Free(b, sep)
  {
    assert (a + [sep])[|a|] == sep && b[|a|] in b;
  }

  lemma JoinedHasSeparator(a: string, sep: char, x: string)
    ensures !Free(Joined(a, sep, x), sep)
  {
    assert Joined(a, sep, x)[|a|] == sep;
  }

  lemma FreeConcat(a: string, b: string, sep: char)
    ensures Free(a + b, sep) <==> Free(a, sep) && Free(b, sep)
  {
  }

  /** Of two equal texts with first parts of the same length, both parts are equal. */
  lemma SplitSame(a: string, x: string, b: string, y: string, sep: char)
    requires Joined(a, sep, x) == Joined(b, sep, y) && |a| == |b|
    ensures a == b && x == y
  {
    var s := Joined(a, sep, x);
    assert s[..|a|] == a && s[|a| + 1..] == x;
    assert Joined(b, sep, y)[..|b|] == b && Joined(b, sep, y)[|b| + 1..] == y;
  }

  /** Of two equal texts, the shorter first part reaches into the longer one, and the rest says how far. */
  lemma SplitShorter(a: string, x: string, b: string, y: string, sep: char)
    requires Joined(a, sep, x) == Joined(b, sep, y) && |a| < |b|
    ensures Reaches(a, sep, b) && x == Joined(b[|a| + 1..], sep, y)
  {
    var s, t := Joined(a, sep, x), Joined(b, sep, y);
    assert s[..|a| + 1] == a + [sep] && t[..|a| + 1] == b[..|a| + 1];
    assert s[|a| + 1..] == x && t[|a| + 1..] == Joined(b[|a| + 1..], sep, y);
  }

  /** A first part that reaches into another one can be completed to the same text. */
  lemma Completed(a: string, b: string, y: string, sep: char)
    requires Reaches(a, sep, b)
    ensures Joined(a, sep, Joined(b[|a| + 1..], sep, y)) == Joined(b, sep, y)
  {
    var rest := b[|a| + 1..];
    assert b == a + [sep] + rest;
  }

  /** Free first parts split in one way. */
  lemma SplitFree(a: string, x: string, b: string, y: string, sep: char)
    requires Free(a, sep) && Free(b, sep) && Joined(a, sep, x) == Joined(b, sep, y)
    ensures a == b && x == y
  {
    if |a| < |b| {
      SplitShorter(a, x, b, y, sep);
      ReachedHasSeparator(a, sep, b);
    } else if |b| < |a| {
      SplitShorter(b, y, a, x, sep);
      ReachedHasSeparator(b, sep, a);
    } else {
      SplitSame(a, x, b, y, sep);
    }
  }

  /** Two different first parts can start the same text exactly when one reaches into the other. */
  lemma CollideExactly(a: string, b: string, sep: char)
    requires a != b
    ensures (exists x, y :: Joined(a, sep, x) == Joined(b, sep, y)) <==> Reaches(a, sep, b) || Reaches(b, sep, a)
  {
    if x, y :| Joined(a, sep, x) == Joined(b, sep, y) {
      if |a| < |b| {
        SplitShorter(a, x, b, y, sep);
      } else if |b| < |a| {
        SplitShorter(b, y, a, x, sep);
      } else {
        SplitSame(a, x, b, y, sep);
      }
    }
    if Reaches(a, sep, b) {
      Completed(a, b, "", sep);
    }
    if Reaches(b, sep, a) {
      Completed(b, a, "", sep);
    }
  }
}
