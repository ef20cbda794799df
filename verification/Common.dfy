/** Types and small facts shared by every component. */
module Common {

  datatype Option<+T> = None | Some(value: T)

  /** Seconds on the application clock. */
  type Time = real

  /** JSON values, as far as the server looks into them. An atom is a string or a number, as JSON writes it. */
  datatype Json = Null | Bool(b: bool) | Atom(text: string) | List(items: seq<Json>) | Object(fields: map<string, Json>)

  function Min(a: Time, b: Time): Time {
    if a <= b then a else b
  }

  function Last<T>(s: seq<T>): T
    requires |s| > 0
  {
    s[|s| - 1]
  }

  /** The first `n` groups, one after the other, behind `start`. */
  function Concat<T>(start: seq<T>, groups: seq<seq<T>>, n: nat): seq<T>
    requires n <= |groups|
  {
    if n == 0 then start else Concat(start, groups, n - 1) + groups[n - 1]
  }

  lemma {:induction false} ConcatMembers<T>(start: seq<T>, groups: seq<seq<T>>, n: nat, x: T)
    requires n <= |groups|
    ensures x in Concat(start, groups, n) <==> x in start || exists i | 0 <= i < n :: x in groups[i]
  {
    if n > 0 {
      ConcatMembers(start, groups, n - 1, x);
    }
  }

  function Each<T, U>(f: T -> U, s: seq<T>): seq<U> {
    seq(|s|, i requires 0 <= i < |s| => f(s[i]))
  }

  lemma {:induction false} EachAppend<T, U>(f: T -> U, a: seq<T>, b: seq<T>)
    ensures Each(f, a + b) == Each(f, a) + Each(f, b)
  {
  }

  lemma {:induction false} EachOne<T, U>(f: T -> U, x: T)
    ensures Each(f, [x]) == [f(x)]
  {
  }

  /** Counting in a list that is kept or dropped one element at a time. */
  lemma {:induction false} CountSnoc<T>(before: seq<T>, y: T, after: seq<T>, x: T)
    requires after == before + [y]
    ensures multiset(after)[x] == multiset(before)[x] + if y == x then 1 else 0
  {
  }

  lemma {:induction false} TakeSnoc<T>(list: seq<T>, n: nat)
    requires 0 < n <= |list|
    ensures list[..n] == list[..n - 1] + [list[n - 1]]
  {
  }

  /** The flagged ones among the first `n`. */
  function Flagged<T>(list: seq<T>, flags: seq<bool>, n: nat): seq<T>
    requires n <= |list| == |flags|
  {
    if n == 0 then [] else Flagged(list, flags, n - 1) + if flags[n - 1] then [list[n - 1]] else []
  }

  /** Of an element that is flagged everywhere, all are kept, and of one that is flagged nowhere, none. */
  lemma {:induction false} FlaggedCounts<T>(list: seq<T>, flags: seq<bool>, n: nat, x: T, wanted: bool)
    requires n <= |list| == |flags| && forall i | 0 <= i < n && list[i] == x :: flags[i] == wanted
    ensures multiset(Flagged(list, flags, n))[x] == if wanted then multiset(list[..n])[x] else 0
  {
    if n > 0 {
      FlaggedCounts(list, flags, n - 1, x, wanted);
      TakeSnoc(list, n);
      CountSnoc(list[..n - 1], list[n - 1], list[..n], x);
      var before := Flagged(list, flags, n - 1);
      if flags[n - 1] {
        CountSnoc(before, list[n - 1], Flagged(list, flags, n), x);
      } else {
        assert before + [] == before;
      }
    }
  }
}
