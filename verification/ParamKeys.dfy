/** The names of SQL parameters (facade/managers.py): every clause builder of one statement writes into one shared
    dictionary, under keys that encode demand, field and nesting path, joined by underscores. */
module ParamKeys {
  import opened Common
  import opened Splitting

  /** Decimal digits, as Python prints a natural number. */
  function Digits(n: nat): (s: string)
    ensures |s| > 0 && forall i | 0 <= i < |s| :: '0' <= s[i] <= '9'
  {
    var digit := ['0' + (n % 10) as char];
    if n < 10 then digit else Digits(n / 10) + digit
  }

  lemma {:induction false} DigitsInjective(m: nat, n: nat)
    requires Digits(m) == Digits(n)
    ensures m == n
  {
    assert Last(Digits(m)) == '0' + (m % 10) as char && Last(Digits(n)) == '0' + (n % 10) as char;
    if m >= 10 && n >= 10 {
      assert Digits(m)[..|Digits(m)| - 1] == Digits(m / 10) && Digits(n)[..|Digits(n)| - 1] == Digits(n / 10);
      DigitsInjective(m / 10, n / 10);
    }
  }

  predicate Plain(s: string) {
    Free(s, '_')
  }

  function Tokens(s: string): (tokens: seq<string>)
    ensures |tokens| > 0
  {
    Split(s, '_')
  }

  lemma {:induction false} TokensOfPlain(s: string)
    requires Plain(s)
    ensures Tokens(s) == [s]
  {
    SplitFree(s, '_');
  }

  lemma {:induction false} TokensOfJoin(a: string, b: string)
    ensures Tokens(a + "_" + b) == Tokens(a) + Tokens(b)
  {
    SplitTwo(a, '_', b);
  }

  lemma {:induction false} TokensOfDigits(n: nat)
    ensures Tokens(Digits(n)) == [Digits(n)]
  {
    TokensOfPlain(Digits(n));
  }

  // ------------------------------------------------------------------------------------------------------------
  // Keys of nested matches
  // ------------------------------------------------------------------------------------------------------------

  /** The path of the n-th child match. */
  function ChildPath(path: string, n: nat): string {
    path + "_" + Digits(n)
  }

  lemma {:induction false} TokensOfChildPath(path: string, n: nat)
    ensures Tokens(ChildPath(path, n)) == Tokens(path) + [Digits(n)]
  {
    TokensOfJoin(path, Digits(n));
    TokensOfDigits(n);
  }

  /** The key of one field of the match at a path. */
  function FieldKey(field: string, path: string): string {
    field + "_" + path
  }

  lemma {:induction false} TokensOfFieldKey(field: string, path: string)
    requires Plain(field)
    ensures Tokens(FieldKey(field, path)) == [field] + Tokens(path)
  {
    TokensOfJoin(field, path);
    TokensOfPlain(field);
  }

  /** The key belongs to the match at `path` or to one nested in it. */
  predicate Under(key: string, path: string) {
    var tokens, at := Tokens(key), Tokens(path);
    |tokens| >= 1 + |at| && tokens[1..1 + |at|] == at
  }

  lemma {:induction false} UnderChildIsUnder(key: string, path: string, n: nat)
    requires Under(key, ChildPath(path, n))
    ensures Under(key, path) && |Tokens(key)| >= 2 + |Tokens(path)| && Tokens(key)[1 + |Tokens(path)|] == Digits(n)
  {
    TokensOfChildPath(path, n);
    SliceSplits(Tokens(key), Tokens(path), Digits(n), Tokens(ChildPath(path, n)));
  }

  lemma {:induction false} SliceSplits(tokens: seq<string>, at: seq<string>, next: string, deeper: seq<string>)
    requires deeper == at + [next] && |tokens| >= 1 + |deeper| && tokens[1..1 + |deeper|] == deeper
    ensures |tokens| >= 2 + |at| && tokens[1..1 + |at|] == at && tokens[1 + |at|] == next
  {
    assert deeper[|at|] == next && deeper[..|at|] == at && deeper[..|at|] == tokens[1..1 + |at|];
  }

  lemma {:induction false} SiblingsAreApart(key: string, path: string, m: nat, n: nat)
    requires Under(key, ChildPath(path, m)) && Under(key, ChildPath(path, n))
    ensures m == n
  {
    UnderChildIsUnder(key, path, m);
    UnderChildIsUnder(key, path, n);
    DigitsInjective(m, n);
  }

  lemma {:induction false} FieldsAreOwn(field: string, path: string)
    requires Plain(field)
    ensures Under(FieldKey(field, path), path)
    ensures forall n: nat :: !Under(FieldKey(field, path), ChildPath(path, n))
  {
    TokensOfFieldKey(field, path);
    forall n: nat
      ensures !Under(FieldKey(field, path), ChildPath(path, n))
    {
      TokensOfChildPath(path, n);
    }
  }

  lemma {:induction false} FieldKeysDiffer(field: string, other: string, path: string)
    requires Plain(field) && Plain(other) && FieldKey(field, path) == FieldKey(other, path)
    ensures field == other
  {
    TokensOfFieldKey(field, path);
    TokensOfFieldKey(other, path);
    assert ([field] + Tokens(path))[0] == ([other] + Tokens(path))[0];
  }

  // ------------------------------------------------------------------------------------------------------------
  // Keys of whole statements
  // ------------------------------------------------------------------------------------------------------------

  datatype Side = Args | Returns

  /** What a top-level clause tests. `Named` clauses belong to an action demand, `Forced` ones to a port demand. */
  datatype Label =
    | Organization
    | Named(demand: nat, field: DemandField)
    | Protocol(demand: nat, position: nat)
    | ActionMatch(demand: nat, side: Side, position: nat)
    | Forced(demand: nat, count: ForcedCount)
    | PortMatch(demand: nat, position: nat)

  datatype DemandField =
    | Hash | Key | App | Version | ActionName | ForceArgLength | ForceReturnLength | Pure | Idempotent | Stateful

  datatype ForcedCount = AllPorts | NonNullable | Structures

  predicate IsMatch(tag: Label) {
    tag.ActionMatch? || tag.PortMatch?
  }

  function Prefix(demand: nat): string {
    "d" + Digits(demand)
  }

  function FieldName(field: DemandField): string {
    match field
    case Hash => "hash"
    case Key => "key"
    case App => "app"
    case Version => "version"
    case ActionName => "name"
    case ForceArgLength => "force" + "_" + ("arg" + "_" + "length")
    case ForceReturnLength => "force" + "_" + ("return" + "_" + "length")
    case Pure => "pure"
    case Idempotent => "idempotent"
    case Stateful => "stateful"
  }

  function CountName(count: ForcedCount): string {
    match count
    case AllPorts => "length"
    case NonNullable => "non" + "_" + "nullable"
    case Structures => "structure"
  }

  /** The key of a plain clause, or the path of a match clause. */
  function Name(tag: Label): string {
    match tag
    case Organization => "org"
    case Named(demand, field) => Prefix(demand) + "_" + FieldName(field)
    case Protocol(demand, position) => Prefix(demand) + "_" + ("protocol" + "_" + Digits(position))
    case ActionMatch(demand, side, position) => Prefix(demand) + "_" + ((if side.Args? then "arg" else "ret") + "_" + Digits(position))
    case Forced(demand, count) =>
      "force" + "_" + (CountName(count) + "_" + Digits(demand))
    case PortMatch(demand, position) => Digits(demand) + "_" + Digits(position)
  }

  /** A key belongs to a clause: it is the clause's key, or it lies under the path of the match clause. */
  predicate Owns(tag: Label, key: string) {
    if IsMatch(tag) then Under(key, Name(tag)) else key == Name(tag)
  }

  function FieldTokens(field: DemandField): seq<string> {
    match field
    case ForceArgLength => ["force", "arg", "length"]
    case ForceReturnLength => ["force", "return", "length"]
    case _ => [FieldName(field)]
  }

  function CountTokens(count: ForcedCount): seq<string> {
    match count
    case NonNullable => ["non", "nullable"]
    case _ => [CountName(count)]
  }

  function Address(tag: Label): seq<string> {
    match tag
    case Organization => ["org"]
    case Named(demand, field) => [Prefix(demand)] + FieldTokens(field)
    case Protocol(demand, position) => [Prefix(demand), "protocol", Digits(position)]
    case ActionMatch(demand, side, position) => [Prefix(demand), if side.Args? then "arg" else "ret", Digits(position)]
    case Forced(demand, count) => ["force"] + CountTokens(count) + [Digits(demand)]
    case PortMatch(demand, position) => [Digits(demand), Digits(position)]
  }

  lemma {:induction false} TokensOfName(tag: Label)
    ensures Tokens(Name(tag)) == Address(tag)
  {
    match tag
    case Organization => TokensOfPlain("org");
    case Named(demand, field) =>
      TokensOfJoin(Prefix(demand), FieldName(field));
      TokensOfPlain(Prefix(demand));
      TokensOfField(field);
    case Protocol(demand, position) =>
      TokensOfThree(Prefix(demand), "protocol", Digits(position));
    case ActionMatch(demand, side, position) =>
      TokensOfThree(Prefix(demand), if side.Args? then "arg" else "ret", Digits(position));
    case Forced(demand, count) => TokensOfForced(demand, count);
    case PortMatch(demand, position) =>
      TokensOfJoin(Digits(demand), Digits(position));
      TokensOfDigits(demand);
      TokensOfDigits(position);
  }

  lemma {:induction false} TokensOfField(field: DemandField)
    ensures Tokens(FieldName(field)) == FieldTokens(field)
  {
    match field
    case ForceArgLength => TokensOfThree("force", "arg", "length");
    case ForceReturnLength => TokensOfThree("force", "return", "length");
    case _ => TokensOfPlain(FieldName(field));
  }

  lemma {:induction false} FieldTokensInjective(a: DemandField, b: DemandField)
    requires FieldTokens(a) == FieldTokens(b)
    ensures a == b
  {
    assert FieldTokens(a)[0] == FieldTokens(b)[0] && FieldTokens(a)[0][0] == FieldTokens(b)[0][0];
    if |FieldTokens(a)| == 3 {
      assert FieldTokens(a)[1][0] == FieldTokens(b)[1][0];
    }
  }

  lemma {:induction false} TokensOfForced(demand: nat, count: ForcedCount)
    ensures Tokens(Name(Forced(demand, count))) == Address(Forced(demand, count))
  {
    TokensOfDigits(demand);
    TokensOfCount(count);
    TokensBehindForce(CountName(count), Digits(demand));
  }

  lemma {:induction false} TokensBehindForce(middle: string, c: string)
    requires Plain(c)
    ensures Tokens("force" + "_" + (middle + "_" + c)) == ["force"] + Tokens(middle) + [c]
  {
    TokensOfJoin("force", middle + "_" + c);
    TokensOfJoin(middle, c);
    TokensOfPlain("force");
    TokensOfPlain(c);
  }

  lemma {:induction false} TokensOfCount(count: ForcedCount)
    ensures Tokens(CountName(count)) == CountTokens(count)
  {
    match count
    case NonNullable =>
      TokensOfJoin("non", "nullable");
      TokensOfPlain("non");
      TokensOfPlain("nullable");
    case _ => TokensOfPlain(CountName(count));
  }

  lemma {:induction false} TokensOfThree(a: string, b: string, c: string)
    requires Plain(a) && Plain(b) && Plain(c)
    ensures Tokens(a + "_" + (b + "_" + c)) == [a, b, c]
    ensures a + "_" + b + "_" + c == a + "_" + (b + "_" + c)
  {
    TokensOfJoin(a, b + "_" + c);
    TokensOfJoin(b, c);
    TokensOfPlain(a);
    TokensOfPlain(b);
    TokensOfPlain(c);
  }

  /** The labels of one statement: either action demands or port demands, never both. */
  predicate SameStatement(a: Label, b: Label) {
    (a.Forced? || a.PortMatch? ==> !b.Named? && !b.Protocol? && !b.ActionMatch?)
    && (b.Forced? || b.PortMatch? ==> !a.Named? && !a.Protocol? && !a.ActionMatch?)
  }

  lemma {:induction false} PrefixInjective(m: nat, n: nat)
    requires Prefix(m) == Prefix(n)
    ensures m == n
  {
    assert Prefix(m)[1..] == Digits(m) && Prefix(n)[1..] == Digits(n);
    DigitsInjective(m, n);
  }

  lemma {:induction false} DemandAddressInjective(a: Label, b: Label)
    requires (a.Named? || a.Protocol? || a.ActionMatch?) && (b.Named? || b.Protocol? || b.ActionMatch?)
    requires Address(a) == Address(b)
    ensures a == b
  {
    assert Address(a)[0] == Address(b)[0] && Address(a)[1] == Address(b)[1] && |Address(a)| == |Address(b)|;
    PrefixInjective(a.demand, b.demand);
    if a.Named? && b.Named? {
      assert FieldTokens(a.field) == Address(a)[1..] == Address(b)[1..] == FieldTokens(b.field);
      FieldTokensInjective(a.field, b.field);
    } else if !a.Named? && !b.Named? {
      assert Last(Address(a)) == Last(Address(b));
      DigitsInjective(a.position, b.position);
    }
  }

  lemma {:induction false} AddressInjective(a: Label, b: Label)
    requires SameStatement(a, b) && Address(a) == Address(b)
    ensures a == b
  {
    assert Address(a)[0] == Address(b)[0] && Last(Address(a)) == Last(Address(b)) && |Address(a)| == |Address(b)|;
    assert Address(a)[0][0] == Address(b)[0][0];
    match a
    case Organization =>
    case Forced(_, _) =>
      assert Address(a)[1] == Address(b)[1];
      DigitsInjective(a.demand, b.demand);
    case PortMatch(_, _) =>
      DigitsInjective(a.demand, b.demand);
      DigitsInjective(a.position, b.position);
    case _ => DemandAddressInjective(a, b);
  }

  /** No parameter overwrites another: two different clauses of one statement share no key, at any nesting. */
  lemma {:induction false} ClausesShareNoKey(a: Label, b: Label, key: string)
    requires SameStatement(a, b)
    requires Owns(a, key) && Owns(b, key)
    ensures a == b
  {
    TokensOfName(a);
    TokensOfName(b);
    if !IsMatch(a) && !IsMatch(b) {
      AddressInjective(a, b);
    } else if IsMatch(a) && IsMatch(b) {
      assert |Address(a)| == |Address(b)|;
      assert Address(a) == Tokens(key)[1..1 + |Address(a)|] == Address(b);
      AddressInjective(a, b);
    } else if IsMatch(a) {
      PlainKeysAreNotUnderMatches(a, b);
    } else {
      PlainKeysAreNotUnderMatches(b, a);
    }
  }

  lemma {:induction false} PlainKeysAreNotUnderMatches(a: Label, b: Label)
    requires SameStatement(a, b) && IsMatch(a) && !IsMatch(b)
    ensures !Owns(a, Name(b))
  {
    TokensOfName(a);
    TokensOfName(b);
    if |Address(b)| >= 1 + |Address(a)| {
      assert Address(b)[1..1 + |Address(a)|][0] == Address(b)[1];
      assert Address(b)[1][0] != Address(a)[0][0];
    }
  }
}
