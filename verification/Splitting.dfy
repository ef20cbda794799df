/** Splitting text at a separator, as Python's `str.split(separator)`, and joining it again. */
module Splitting {

  predicate Free(s: string, sep: char) {
    forall i | 0 <= i < |s| :: s[i] != sep
  }

  /** One more character in front of the first part, or a new part. */
  function Grow(c: char, sep: char, parts: seq<string>): (grown: seq<string>)
    requires |parts| > 0
    ensures |grown| > 0
  {
    if c == sep then [""] + parts else [[c] + parts[0]] + parts[1..]
  }

  function Split(s: string, sep: char): (parts: seq<string>)
    ensures |parts| > 0
  {
    if s == "" then [""] else Grow(s[0], sep, Split(s[1..], sep))
  }

  function Join(parts: seq<string>, sep: char): string
    requires |parts| > 0
  {
    if |parts| == 1 then parts[0] else Join(parts[..|parts| - 1], sep) + [sep] + parts[|parts| - 1]
  }

  lemma {:induction false} SplitFree(s: string, sep: char)
    requires Free(s, sep)
    ensures Split(s, sep) == [s]
  {
    if s != "" {
      SplitFree(s[1..], sep);
      assert [s[0]] + s[1..] == s;
    }
  }

  lemma {:induction false} SplitCons(c: char, s: string, sep: char)
    ensures Split([c] + s, sep) == Grow(c, sep, Split(s, sep))
  {
    assert ([c] + s)[1..] == s;
  }

  lemma {:induction false} GrowAppend(c: char, sep: char, parts: seq<string>, more: seq<string>)
    requires |parts| > 0
    ensures Grow(c, sep, parts + more) == Grow(c, sep, parts) + more
  {
  }

  lemma {:induction false} SeparatorBetween(a: string, sep: char, b: string)
    ensures a == "" ==> a + [sep] + b == [sep] + b
    ensures a != "" ==> a + [sep] + b == [a[0]] + (a[1..] + [sep] + b) && a == [a[0]] + a[1..]
  {
  }

  /** Splitting undoes joining. */
  lemma {:induction false} SplitTwo(a: string, sep: char, b: string)
    ensures Split(a + [sep] + b, sep) == Split(a, sep) + Split(b, sep)
  {
    SeparatorBetween(a, sep, b);
    if a == "" {
      SplitCons(sep, b, sep);
    } else {
      SplitTwo(a[1..], sep, b);
      SplitCons(a[0], a[1..] + [sep] + b, sep);
      SplitCons(a[0], a[1..], sep);
      GrowAppend(a[0], sep, Split(a[1..], sep), Split(b, sep));
    }
  }

  lemma {:induction false} SplitOfJoin(parts: seq<string>, sep: char)
    requires |parts| > 0 && forall i | 0 <= i < |parts| :: Free(parts[i], sep)
    ensures Split(Join(parts, sep), sep) == parts
  {
    var n := |parts| - 1;
    SplitFree(parts[n], sep);
    if n == 0 {
      assert parts == [parts[0]];
    } else {
      SplitOfJoin(parts[..n], sep);
      SplitTwo(Join(parts[..n], sep), sep, parts[n]);
      assert parts == parts[..n] + [parts[n]];
    }
  }

  lemma {:induction false} JoinGrow(c: char, sep: char, parts: seq<string>)
    requires |parts| > 0
    ensures Join(Grow(c, sep, parts), sep) == [c] + Join(parts, sep)
  {
    var n, grown := |parts| - 1, Grow(c, sep, parts);
    assert grown[|grown| - 1] == if n == 0 && c != sep then [c] + parts[0] else parts[n];
    if n == 0 {
      assert c == sep ==> grown[..1] == [""];
    } else {
      JoinGrow(c, sep, parts[..n]);
      assert grown[..|grown| - 1] == Grow(c, sep, parts[..n]);
    }
  }

  /** Joining undoes splitting. */
  lemma {:induction false} JoinOfSplit(s: string, sep: char)
    ensures Join(Split(s, sep), sep) == s
  {
    if s != "" {
      JoinOfSplit(s[1..], sep);
      JoinGrow(s[0], sep, Split(s[1..], sep));
      assert [s[0]] + s[1..] == s;
    }
  }

  /** One more character at the end of the last part. */
  function Lengthened(parts: seq<string>, c: char): (longer: seq<string>)
    requires |parts| > 0
    ensures |longer| == |parts|
  {
    parts[..|parts| - 1] + [parts[|parts| - 1] + [c]]
  }

  lemma {:induction false} GrowLengthened(c: char, sep: char, parts: seq<string>, end: char)
    requires |parts| > 0
    ensures Grow(c, sep, Lengthened(parts, end)) == Lengthened(Grow(c, sep, parts), end)
  {
    assert |parts| == 1 && c != sep ==> [c] + (parts[0] + [end]) == ([c] + parts[0]) + [end];
  }

  lemma {:induction false} SplitSnoc(s: string, c: char, sep: char)
    requires c != sep
    ensures Split(s + [c], sep) == Lengthened(Split(s, sep), c)
  {
    if s == "" {
      SplitFree([c], sep);
      assert s + [c] == [c] && Lengthened([""], c) == [[c]];
    } else {
      SplitSnoc(s[1..], c, sep);
      assert s + [c] == [s[0]] + (s[1..] + [c]) && s == [s[0]] + s[1..];
      SplitCons(s[0], s[1..] + [c], sep);
      GrowLengthened(s[0], sep, Split(s[1..], sep), c);
    }
  }
}
