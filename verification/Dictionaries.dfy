/** Python dictionaries that several writers fill one after the other. */
module Dictionaries {

  function KeysOf<V>(writes: seq<map<string, V>>): set<string> {
    set i, key | 0 <= i < |writes| && key in writes[i] :: key
  }

  predicate Writes<V>(writes: seq<map<string, V>>, n: nat, key: string)
    requires n <= |writes|
  {
    exists i | 0 <= i < n :: key in writes[i]
  }

  /** Among the first `n` writers, the last one that writes a key decides. */
  function Decided<V>(writes: seq<map<string, V>>, n: nat, key: string): V
    requires n <= |writes| && Writes(writes, n, key)
  {
    if key in writes[n - 1] then writes[n - 1][key] else Decided(writes, n - 1, key)
  }

  /** What all writers leave behind. */
  function Merge<V>(writes: seq<map<string, V>>): map<string, V> {
    map key | key in KeysOf(writes) :: Decided(writes, |writes|, key)
  }

  lemma {:induction false} DecidedByFirst<V>(a: seq<map<string, V>>, b: seq<map<string, V>>, n: nat, key: string)
    requires n <= |a| && Writes(a, n, key)
    ensures Writes(a + b, n, key) && Decided(a + b, n, key) == Decided(a, n, key)
  {
    var i :| 0 <= i < n && key in a[i];
    assert (a + b)[i] == a[i] && (a + b)[n - 1] == a[n - 1];
    if key !in a[n - 1] {
      DecidedByFirst(a, b, n - 1, key);
    }
  }

  lemma {:induction false} DecidedBySecond<V>(a: seq<map<string, V>>, b: seq<map<string, V>>, n: nat, key: string)
    requires n <= |b| && (Writes(a, |a|, key) || Writes(b, n, key))
    ensures Writes(a + b, |a| + n, key)
    ensures Decided(a + b, |a| + n, key) == if Writes(b, n, key) then Decided(b, n, key) else Decided(a, |a|, key)
  {
    if n == 0 {
      DecidedByFirst(a, b, |a|, key);
    } else {
      assert (a + b)[|a| + n - 1] == b[n - 1];
      if key !in b[n - 1] {
        assert Writes(b, n, key) <==> Writes(b, n - 1, key);
        DecidedBySecond(a, b, n - 1, key);
        var i :| 0 <= i < |a| + n - 1 && key in (a + b)[i];
      }
    }
  }

  lemma {:induction false} MergeAppend<V>(a: seq<map<string, V>>, b: seq<map<string, V>>)
    ensures Merge(a + b) == Merge(a) + Merge(b)
  {
    forall key
      ensures key in KeysOf(a + b) <==> key in KeysOf(a) || key in KeysOf(b)
    {
      KeysAppend(a, b, key);
    }
    forall key | key in KeysOf(a + b)
      ensures Merge(a + b)[key] == (Merge(a) + Merge(b))[key]
    {
      DecidedBySecond(a, b, |b|, key);
    }
  }

  lemma {:induction false} KeysAppend<V>(a: seq<map<string, V>>, b: seq<map<string, V>>, key: string)
    ensures key in KeysOf(a + b) <==> key in KeysOf(a) || key in KeysOf(b)
  {
    if key in KeysOf(a) {
      var i :| 0 <= i < |a| && key in a[i];
      assert key in (a + b)[i];
    }
    if key in KeysOf(b) {
      var i :| 0 <= i < |b| && key in b[i];
      assert key in (a + b)[|a| + i];
    }
  }

  lemma {:induction false} MergeOne<V>(write: map<string, V>)
    ensures Merge([write]) == write
  {
    forall key
      ensures key in KeysOf([write]) <==> key in write
    {
      if key in write {
        assert key in [write][0];
      }
    }
  }

  lemma {:induction false} MapsAssociate<V>(a: map<string, V>, b: map<string, V>, c: map<string, V>)
    ensures (a + b) + c == a + (b + c)
  {
  }

  lemma {:induction false} MergeSnoc<V>(start: map<string, V>, writes: seq<map<string, V>>, write: map<string, V>)
    ensures start + Merge(writes + [write]) == (start + Merge(writes)) + write
  {
    MergeAppend(writes, [write]);
    MergeOne(write);
    MapsAssociate(start, Merge(writes), write);
  }

  /** Every binding of `part` is still in `whole`. */
  ghost predicate Included<V>(part: map<string, V>, whole: map<string, V>) {
    forall key | key in part :: key in whole && whole[key] == part[key]
  }

  lemma {:induction false} DecidedBySome<V>(writes: seq<map<string, V>>, n: nat, key: string) returns (i: nat)
    requires n <= |writes| && Writes(writes, n, key)
    ensures i < n && key in writes[i] && Decided(writes, n, key) == writes[i][key]
  {
    if key in writes[n - 1] {
      i := n - 1;
    } else {
      i := DecidedBySome(writes, n - 1, key);
    }
  }

  /** Writers that never disagree about a key do not overwrite one another. */
  lemma {:induction false} AgreeingWritersAreKept<V>(writes: seq<map<string, V>>, i: nat)
    requires i < |writes|
    requires forall j, k, key | 0 <= j < |writes| && 0 <= k < |writes| && key in writes[j] && key in writes[k] :: writes[j][key] == writes[k][key]
    ensures Included(writes[i], Merge(writes))
  {
    forall key | key in writes[i]
      ensures key in Merge(writes) && Merge(writes)[key] == writes[i][key]
    {
      var j := DecidedBySome(writes, |writes|, key);
    }
  }
}
