/** Compilation of requires/provides descriptors into one SQL/JSON path predicate (facade/descriptors.py). Text is
    modelled by its tokens. */
module Descriptors {
  import opened Common
  import opened Splitting

  datatype Operator = EXISTS | MATCHES | EQUALS | NOT_EQUALS | GTE | LTE | CONTAINS | IN | NOT_IN | OTHER(name: string)

  datatype Descriptor = Descriptor(key: string, operator: Operator, value: Json)

  datatype Comparison = Equal | Unequal | AtLeast | AtMost

  /** `AnyElement` is the accessor `[*]`. */
  datatype Token =
    | Open | Close | AndSign | OrSign | NotSign | ExistsWord
    | Path(key: string) | AnyElement | Sign(comparison: Comparison) | Value(value: Json)
    | TrueWord | FalseWord

  // ------------------------------------------------------------------------------------------------------------
  // The compiler
  // ------------------------------------------------------------------------------------------------------------

  predicate IsWord(s: string) {
    s != "" && forall i | 0 <= i < |s| :: 'a' <= s[i] <= 'z' || 'A' <= s[i] <= 'Z' || '0' <= s[i] <= '9' || s[i] == '_'
  }

  /** Words joined by dots. */
  predicate IsDotted(s: string) {
    var words := Split(s, '.');
    forall i | 0 <= i < |words| :: IsWord(words[i])
  }

  /** Python's `$` also lets one final newline pass. */
  predicate PassesPattern(path: string) {
    IsDotted(path) || (path != "" && Last(path) == '\n' && IsDotted(path[..|path| - 1]))
  }

  /** The key without a leading `$.`, if it passes the pattern. */
  function Normalized(key: string): Option<string> {
    var raw := if |key| >= 2 && key[0] == '$' && key[1] == '.' then key[2..] else key;
    if PassesPattern(raw) then Some(raw) else None
  }

  predicate AreWords(words: seq<string>) {
    words != [] && forall i | 0 <= i < |words| :: IsWord(words[i])
  }

  lemma {:induction false} DottedIffWords(s: string)
    ensures IsDotted(s) <==> exists words | AreWords(words) :: s == Join(words, '.')
  {
    if IsDotted(s) {
      JoinOfSplit(s, '.');
      assert AreWords(Split(s, '.'));
    }
    forall words | AreWords(words) && s == Join(words, '.')
      ensures IsDotted(s)
    {
      assert forall i | 0 <= i < |words| :: Free(words[i], '.');
      SplitOfJoin(words, '.');
    }
  }

  lemma {:induction false} DottedHasNoSigns(s: string)
    requires IsDotted(s)
    ensures s != "" && s[0] != '$'
  {
    SplitFirst(s, '.');
    assert IsWord(Split(s, '.')[0]);
  }

  lemma {:induction false} SplitFirst(s: string, sep: char)
    ensures var first := Split(s, sep)[0]; first != "" ==> s != "" && first[0] == s[0]
  {
  }

  /** Words joined by dots, with or without a final newline. */
  ghost predicate IsKeyPath(path: string) {
    exists words | AreWords(words) :: path == Join(words, '.') || path == Join(words, '.') + ['\n']
  }

  lemma {:induction false} PatternIffKeyPath(path: string)
    ensures PassesPattern(path) <==> IsKeyPath(path)
  {
    DottedIffWords(path);
    if path != "" && Last(path) == '\n' {
      DottedIffWords(path[..|path| - 1]);
      assert path == path[..|path| - 1] + ['\n'];
    }
    forall words | AreWords(words) && path == Join(words, '.') + ['\n']
      ensures PassesPattern(path)
    {
      assert path[..|path| - 1] == Join(words, '.');
    }
  }

  lemma {:induction false} KeyPathHasNoSigns(path: string)
    requires PassesPattern(path)
    ensures path != "" && path[0] != '$'
  {
    if IsDotted(path) {
      DottedHasNoSigns(path);
    } else {
      DottedHasNoSigns(path[..|path| - 1]);
    }
  }

  /** A key is accepted exactly when it is words joined by dots, with or without a leading `$.` and a final newline; the
      path is what follows the `$.`. */
  lemma {:induction false} AcceptedKeys(key: string, path: string)
    ensures Normalized(key) == Some(path) <==> (key == path || key == "$." + path) && IsKeyPath(path)
  {
    PatternIffKeyPath(path);
    if PassesPattern(path) {
      KeyPathHasNoSigns(path);
      assert ("$." + path)[2..] == path;
    }
    if |key| >= 2 && key[0] == '$' && key[1] == '.' {
      assert key == "$." + key[2..];
    }
  }

  function Compared(path: string, sign: Comparison, value: Json): seq<Token> {
    [Path(path), Sign(sign), Value(value)]
  }

  function Comparisons(path: string, sign: Comparison, values: seq<Json>): seq<seq<Token>> {
    seq(|values|, i requires 0 <= i < |values| => Compared(path, sign, values[i]))
  }

  /** The conditions from the k-th on, each behind a separator. */
  function Rest(conds: seq<seq<Token>>, k: nat, sep: Token): seq<Token>
    requires k <= |conds|
    decreases |conds| - k
  {
    if k == |conds| then [] else [sep] + (conds[k] + Rest(conds, k + 1, sep))
  }

  function Joined(conds: seq<seq<Token>>, sep: Token): seq<Token> {
    if conds == [] then [] else conds[0] + Rest(conds, 1, sep)
  }

  function CompileCondition(d: Descriptor): Option<seq<Token>> {
    var path := Normalized(d.key);
    if path.None? then None
    else
      match d.operator
      case EXISTS =>
        if !d.value.Bool? then None
        else if d.value.b then Some([ExistsWord, Open, Path(path.value), Close])
        else Some([NotSign, Open, ExistsWord, Open, Path(path.value), Close, Close])
      case MATCHES => Some(Compared(path.value, Equal, d.value))
      case EQUALS => Some(Compared(path.value, Equal, d.value))
      case NOT_EQUALS => Some(Compared(path.value, Unequal, d.value))
      case GTE => Some(Compared(path.value, AtLeast, d.value))
      case LTE => Some(Compared(path.value, AtMost, d.value))
      case CONTAINS => Some([Path(path.value), AnyElement, Sign(Equal), Value(d.value)])
      case IN =>
        if !d.value.List? then None
        else if d.value.items == [] then Some([Open, FalseWord, Close])
        else Some([Open] + (Joined(Comparisons(path.value, Equal, d.value.items), OrSign) + [Close]))
      case NOT_IN =>
        if !d.value.List? then None
        else if d.value.items == [] then Some([Open, TrueWord, Close])
        else Some([Open] + (Joined(Comparisons(path.value, Unequal, d.value.items), AndSign) + [Close]))
      case OTHER(_) => None
  }

  predicate AllCompile(ds: seq<Descriptor>) {
    forall i | 0 <= i < |ds| :: CompileCondition(ds[i]).Some?
  }

  function Conditions(ds: seq<Descriptor>): seq<seq<Token>>
    requires AllCompile(ds)
  {
    seq(|ds|, i requires 0 <= i < |ds| => CompileCondition(ds[i]).value)
  }

  datatype Compiled = Nothing | Predicate(tokens: seq<Token>) | Failed

  /** No descriptors compile to nothing; one that cannot be compiled fails them all. */
  function Compile(ds: seq<Descriptor>): Compiled {
    if ds == [] then Nothing
    else if !AllCompile(ds) then Failed
    else Predicate(Joined(Conditions(ds), AndSign))
  }

  // ------------------------------------------------------------------------------------------------------------
  // The language (section 9.39 of ISO/IEC 9075-2:2016): && binds tighter than ||. As in PostgreSQL, a whole text may be
  // a predicate, or a single value.
  // ------------------------------------------------------------------------------------------------------------

  /** A member accessor: no word of the key may start with a digit. */
  predicate IsMember(key: string) {
    var words := Split(key, '.');
    forall i | 0 <= i < |words| :: words[i] != "" && !('0' <= words[i][0] <= '9')
  }

  /** What Python writes for floats that JSON does not have. */
  const NON_FINITE := {"NaN", "Infinity", "-Infinity"}

  /** Literals are scalars. */
  predicate IsLiteral(value: Json) {
    match value
    case Null => true
    case Bool(_) => true
    case Atom(text) => text !in NON_FINITE
    case List(_) => false
    case Object(_) => false
  }

  datatype Operand = Member(path: string, elements: bool) | Literal(value: Json) | Constant(b: bool)

  datatype Expr =
    | Compare(lhs: Operand, comparison: Comparison, rhs: Operand)
    | Exists(operand: Operand)
    | Not(of: Expr)
    | And(left: Expr, right: Expr)
    | Or(left: Expr, right: Expr)

  type Parsed = Option<(Expr, seq<Token>)>

  function ParseOperand(ts: seq<Token>): (r: Option<(Operand, seq<Token>)>)
    ensures r.Some? ==> |r.value.1| < |ts|
  {
    if ts == [] then None
    else
      match ts[0]
      case Path(key) =>
        if !IsMember(key) then None
        else if |ts| >= 2 && ts[1].AnyElement? then Some((Member(key, true), ts[2..]))
        else Some((Member(key, false), ts[1..]))
      case Value(value) => if IsLiteral(value) then Some((Literal(value), ts[1..])) else None
      case TrueWord => Some((Constant(true), ts[1..]))
      case FalseWord => Some((Constant(false), ts[1..]))
      case Open =>
        var inner := ParseOperand(ts[1..]);
        if inner.None? || !Ends(inner.value.1) then None else Some((inner.value.0, inner.value.1[1..]))
      case _ => None
  }

  predicate Ends(rest: seq<Token>) {
    rest != [] && rest[0] == Close
  }

  function ParseOr(ts: seq<Token>): (r: Parsed)
    ensures r.Some? ==> |r.value.1| < |ts|
    decreases |ts|, 2
  {
    var first := ParseAnd(ts);
    if first.None? then None else OrTail(first.value.0, first.value.1)
  }

  function OrTail(left: Expr, ts: seq<Token>): (r: Parsed)
    ensures r.Some? ==> |r.value.1| <= |ts|
    decreases |ts|, 3
  {
    if ts == [] || ts[0] != OrSign then Some((left, ts))
    else
      var next := ParseAnd(ts[1..]);
      if next.None? then None else OrTail(Or(left, next.value.0), next.value.1)
  }

  function ParseAnd(ts: seq<Token>): (r: Parsed)
    ensures r.Some? ==> |r.value.1| < |ts|
    decreases |ts|, 1
  {
    var first := ParsePrimary(ts);
    if first.None? then None else AndTail(first.value.0, first.value.1)
  }

  function AndTail(left: Expr, ts: seq<Token>): (r: Parsed)
    ensures r.Some? ==> |r.value.1| <= |ts|
    decreases |ts|, 3
  {
    if ts == [] || ts[0] != AndSign then Some((left, ts))
    else
      var next := ParsePrimary(ts[1..]);
      if next.None? then None else AndTail(And(left, next.value.0), next.value.1)
  }

  predicate StartsComparison(ts: seq<Token>) {
    var lhs := ParseOperand(ts);
    lhs.Some? && lhs.value.1 != [] && lhs.value.1[0].Sign?
  }

  /** A comparison, an existence test, a negation of a parenthesis, or a parenthesis. */
  function ParsePrimary(ts: seq<Token>): (r: Parsed)
    ensures r.Some? ==> |r.value.1| < |ts|
    decreases |ts|, 0
  {
    if StartsComparison(ts) then
      var lhs := ParseOperand(ts).value;
      var rhs := ParseOperand(lhs.1[1..]);
      if rhs.None? then None else Some((Compare(lhs.0, lhs.1[0].comparison, rhs.value.0), rhs.value.1))
    else if |ts| >= 2 && ts[0] == ExistsWord && ts[1] == Open then
      var operand := ParseOperand(ts[2..]);
      if operand.None? || !Ends(operand.value.1) then None else Some((Exists(operand.value.0), operand.value.1[1..]))
    else if |ts| >= 2 && ts[0] == NotSign && ts[1] == Open then
      var inner := ParseOr(ts[2..]);
      if inner.None? || !Ends(inner.value.1) then None else Some((Not(inner.value.0), inner.value.1[1..]))
    else if |ts| >= 1 && ts[0] == Open then
      var inner := ParseOr(ts[1..]);
      if inner.None? || !Ends(inner.value.1) then None else Some((inner.value.0, inner.value.1[1..]))
    else None
  }

  datatype Text = Test(expr: Expr) | Sole(operand: Operand)

  /** A whole text. */
  function ParseText(ts: seq<Token>): Option<Text> {
    var test, sole := ParseOr(ts), ParseOperand(ts);
    if test.Some? && test.value.1 == [] then Some(Test(test.value.0))
    else if sole.Some? && sole.value.1 == [] then Some(Sole(sole.value.0))
    else None
  }

  // ------------------------------------------------------------------------------------------------------------
  // Meanings
  // ------------------------------------------------------------------------------------------------------------

  datatype Truth = Yes | No | Unknown

  function Both(a: Truth, b: Truth): Truth {
    if a == No || b == No then No else if a == Unknown || b == Unknown then Unknown else Yes
  }

  function Either(a: Truth, b: Truth): Truth {
    if a == Yes || b == Yes then Yes else if a == Unknown || b == Unknown then Unknown else No
  }

  function Negated(a: Truth): Truth {
    match a case Yes => No case No => Yes case Unknown => Unknown
  }

  /** How a candidate object answers single tests, and what a value that stands alone amounts to. */
  datatype Candidate = Candidate(compares: (Operand, Comparison, Operand) -> Truth, has: Operand -> Truth, alone: Operand -> Truth)

  function Meaning(o: Candidate, e: Expr): Truth {
    match e
    case Compare(lhs, comparison, rhs) => o.compares(lhs, comparison, rhs)
    case Exists(operand) => o.has(operand)
    case Not(of) => Negated(Meaning(o, of))
    case And(left, right) => Both(Meaning(o, left), Meaning(o, right))
    case Or(left, right) => Either(Meaning(o, left), Meaning(o, right))
  }

  function TextMeaning(o: Candidate, text: Text): Truth {
    match text
    case Test(expr) => Meaning(o, expr)
    case Sole(Constant(b)) => if b then Yes else No
    case Sole(operand) => o.alone(operand)
  }

  /** Some of the first `n` values is equal. */
  function AnyEqual(o: Candidate, path: string, values: seq<Json>, n: nat): Truth
    requires n <= |values|
  {
    if n == 0 then No
    else Either(AnyEqual(o, path, values, n - 1), o.compares(Member(path, false), Equal, Literal(values[n - 1])))
  }

  function AllUnequal(o: Candidate, path: string, values: seq<Json>, n: nat): Truth
    requires n <= |values|
  {
    if n == 0 then Yes
    else Both(AllUnequal(o, path, values, n - 1), o.compares(Member(path, false), Unequal, Literal(values[n - 1])))
  }

  /** What one descriptor asks of an object. */
  function Asks(o: Candidate, d: Descriptor): Truth
    requires CompileCondition(d).Some?
  {
    var path := Normalized(d.key).value;
    match d.operator
    case EXISTS => if d.value.b then o.has(Member(path, false)) else Negated(o.has(Member(path, false)))
    case MATCHES => o.compares(Member(path, false), Equal, Literal(d.value))
    case EQUALS => o.compares(Member(path, false), Equal, Literal(d.value))
    case NOT_EQUALS => o.compares(Member(path, false), Unequal, Literal(d.value))
    case GTE => o.compares(Member(path, false), AtLeast, Literal(d.value))
    case LTE => o.compares(Member(path, false), AtMost, Literal(d.value))
    case CONTAINS => o.compares(Member(path, true), Equal, Literal(d.value))
    case IN => AnyEqual(o, path, d.value.items, |d.value.items|)
    case NOT_IN => AllUnequal(o, path, d.value.items, |d.value.items|)
  }

  /** All of the first `n` descriptors. */
  function AskAll(o: Candidate, ds: seq<Descriptor>, n: nat): Truth
    requires AllCompile(ds) && n <= |ds|
  {
    if n == 0 then Yes else Both(AskAll(o, ds, n - 1), Asks(o, ds[n - 1]))
  }

  /** All descriptors together hold exactly when each holds, and fail exactly when some one fails. */
  lemma {:induction false} AllAskedIsEachAsked(o: Candidate, ds: seq<Descriptor>, n: nat)
    requires AllCompile(ds) && n <= |ds|
    ensures AskAll(o, ds, n) == Yes <==> forall i | 0 <= i < n :: Asks(o, ds[i]) == Yes
    ensures AskAll(o, ds, n) == No <==> exists i | 0 <= i < n :: Asks(o, ds[i]) == No
  {
    if n > 0 {
      AllAskedIsEachAsked(o, ds, n - 1);
      var before, last := AskAll(o, ds, n - 1), Asks(o, ds[n - 1]);
      assert AskAll(o, ds, n) == Both(before, last);
      if AskAll(o, ds, n) == Yes {
        assert before == Yes && last == Yes;
      } else if last == No {
        assert Asks(o, ds[n - 1]) == No;
      }
    }
  }

  /** An IN holds exactly when some value is equal, and fails exactly when none can be. */
  lemma {:induction false} InIsSomeEqual(o: Candidate, path: string, values: seq<Json>, n: nat)
    requires n <= |values|
    ensures AnyEqual(o, path, values, n) == Yes
      <==> exists i | 0 <= i < n :: o.compares(Member(path, false), Equal, Literal(values[i])) == Yes
    ensures AnyEqual(o, path, values, n) == No
      <==> forall i | 0 <= i < n :: o.compares(Member(path, false), Equal, Literal(values[i])) == No
  {
    if n > 0 {
      InIsSomeEqual(o, path, values, n - 1);
    }
  }

  /** A NOT_IN holds exactly when every value is unequal, and fails exactly when some one is not. */
  lemma {:induction false} NotInIsAllUnequal(o: Candidate, path: string, values: seq<Json>, n: nat)
    requires n <= |values|
    ensures AllUnequal(o, path, values, n) == Yes
      <==> forall i | 0 <= i < n :: o.compares(Member(path, false), Unequal, Literal(values[i])) == Yes
    ensures AllUnequal(o, path, values, n) == No
      <==> exists i | 0 <= i < n :: o.compares(Member(path, false), Unequal, Literal(values[i])) == No
  {
    if n > 0 {
      NotInIsAllUnequal(o, path, values, n - 1);
    }
  }

  /** A descriptor is refused for a key that is no key path, an operator that is not known, or a value of the wrong type. */
  ghost predicate IsRefused(d: Descriptor) {
    || (forall path | IsKeyPath(path) :: d.key != path && d.key != "$." + path)
    || d.operator.OTHER?
    || (d.operator.EXISTS? && !d.value.Bool?)
    || ((d.operator.IN? || d.operator.NOT_IN?) && !d.value.List?)
  }

  lemma {:induction false} RefusedIffNotCompiled(d: Descriptor)
    ensures CompileCondition(d).None? <==> IsRefused(d)
  {
    if path :| IsKeyPath(path) && (d.key == path || d.key == "$." + path) {
      AcceptedKeys(d.key, path);
    } else if Normalized(d.key).Some? {
      AcceptedKeys(d.key, Normalized(d.key).value);
    }
  }

  /** Compilation fails exactly for a list with a refused descriptor. */
  lemma {:induction false} FailsIffOneIsRefused(ds: seq<Descriptor>)
    ensures Compile(ds).Failed? <==> exists i | 0 <= i < |ds| :: IsRefused(ds[i])
    ensures Compile(ds).Nothing? <==> ds == []
  {
    forall i | 0 <= i < |ds|
      ensures CompileCondition(ds[i]).None? <==> IsRefused(ds[i])
    {
      RefusedIffNotCompiled(ds[i]);
    }
  }

  // ------------------------------------------------------------------------------------------------------------
  // Which descriptors compile to predicates
  // ------------------------------------------------------------------------------------------------------------

  predicate LiteralFirst(values: seq<Json>, n: nat)
    requires n <= |values|
  {
    forall i | 0 <= i < n :: IsLiteral(values[i])
  }

  /** The key is a member accessor, and the value is a scalar, or for IN and NOT_IN a non-empty list of scalars. */
  predicate WellPosed(d: Descriptor) {
    && CompileCondition(d).Some? && IsMember(Normalized(d.key).value)
    && match d.operator
       case EXISTS => true
       case IN => d.value.items != [] && LiteralFirst(d.value.items, |d.value.items|)
       case NOT_IN => d.value.items != [] && LiteralFirst(d.value.items, |d.value.items|)
       case _ => IsLiteral(d.value)
  }

  predicate StartsWithDigit(word: string) {
    word != "" && '0' <= word[0] <= '9'
  }

  predicate NoneLedByDigit(words: seq<string>) {
    forall i | 0 <= i < |words| :: !StartsWithDigit(words[i])
  }

  /** A key path none of whose words starts with a digit. */
  ghost predicate IsMemberPath(path: string) {
    exists words | AreWords(words) && NoneLedByDigit(words) ::
      path == Join(words, '.') || path == Join(words, '.') + ['\n']
  }

  predicate IsScalar(value: Json) {
    value.Null? || value.Bool? || (value.Atom? && value.text != "NaN" && value.text != "Infinity" && value.text != "-Infinity")
  }

  lemma {:induction false} LastLetter(words: seq<string>, c: char)
    requires AreWords(words)
    ensures var more := Lengthened(words, c);
      (forall i | 0 <= i < |more| :: more[i] != "") && (NoneLedByDigit(more) <==> NoneLedByDigit(words))
  {
    var more := Lengthened(words, c);
    forall i | 0 <= i < |words|
      ensures more[i] != "" && (StartsWithDigit(more[i]) <==> StartsWithDigit(words[i]))
    {
      assert IsWord(words[i]);
    }
  }

  lemma {:induction false} MemberIffNoneLedByDigit(words: seq<string>, path: string)
    requires AreWords(words) && (path == Join(words, '.') || path == Join(words, '.') + ['\n'])
    ensures IsMember(path) <==> NoneLedByDigit(words)
  {
    assert forall i | 0 <= i < |words| :: Free(words[i], '.');
    SplitOfJoin(words, '.');
    if path != Join(words, '.') {
      SplitSnoc(Join(words, '.'), '\n', '.');
      LastLetter(words, '\n');
    }
  }

  lemma {:induction false} MemberIffMemberPath(path: string)
    requires IsKeyPath(path)
    ensures IsMember(path) <==> IsMemberPath(path)
  {
    if IsMember(path) {
      var words :| AreWords(words) && (path == Join(words, '.') || path == Join(words, '.') + ['\n']);
      MemberIffNoneLedByDigit(words, path);
    } else {
      forall words | AreWords(words) && (path == Join(words, '.') || path == Join(words, '.') + ['\n'])
        ensures !NoneLedByDigit(words)
      {
        MemberIffNoneLedByDigit(words, path);
      }
    }
  }

  /** A descriptor that is not refused can be compared exactly when no word of its path starts with a digit and its value is
      a scalar, or for IN and NOT_IN a non-empty list of scalars; EXISTS does not look at the value. */
  lemma {:induction false} WellPosedAre(d: Descriptor, path: string)
    requires IsKeyPath(path) && (d.key == path || d.key == "$." + path) && !IsRefused(d)
    ensures WellPosed(d) <==>
      && IsMemberPath(path)
      && match d.value
         case Bool(_) => true
         case List(items) =>
           (d.operator.IN? || d.operator.NOT_IN?) && items != [] && forall i | 0 <= i < |items| :: IsScalar(items[i])
         case _ => IsScalar(d.value)
  {
    RefusedIffNotCompiled(d);
    AcceptedKeys(d.key, path);
    MemberIffMemberPath(path);
    assert forall value :: IsLiteral(value) <==> IsScalar(value);
  }

  /** An IN or NOT_IN without values compiles to a constant. */
  predicate EmptyList(d: Descriptor) {
    (d.operator.IN? || d.operator.NOT_IN?) && d.value == List([])
  }

  // ------------------------------------------------------------------------------------------------------------
  // Parsing what was compiled
  // ------------------------------------------------------------------------------------------------------------

  function Comparing(path: string, sign: Comparison, value: Json): Expr {
    Compare(Member(path, false), sign, Literal(value))
  }

  lemma {:induction false} ParseCompared(path: string, sign: Comparison, value: Json, rest: seq<Token>)
    ensures ParsePrimary(Compared(path, sign, value) + rest)
      == if IsMember(path) && IsLiteral(value) then Some((Comparing(path, sign, value), rest)) else None
  {
    var ts := Compared(path, sign, value) + rest;
    assert ts[1..] == [Sign(sign), Value(value)] + rest && ts[1..][1..] == [Value(value)] + rest;
    assert ([Value(value)] + rest)[1..] == rest;
  }

  lemma {:induction false} ParseContained(path: string, value: Json, rest: seq<Token>)
    ensures ParsePrimary([Path(path), AnyElement, Sign(Equal), Value(value)] + rest)
      == if IsMember(path) && IsLiteral(value) then Some((Compare(Member(path, true), Equal, Literal(value)), rest)) else None
  {
    var ts := [Path(path), AnyElement, Sign(Equal), Value(value)] + rest;
    assert ts[2..] == [Sign(Equal), Value(value)] + rest && ts[2..][1..] == [Value(value)] + rest;
    assert ([Value(value)] + rest)[1..] == rest;
  }

  /** The comparisons of the first values, chained to the left. */
  function OrChain(path: string, values: seq<Json>, n: nat): Expr
    requires 0 < n <= |values|
  {
    var last := Comparing(path, Equal, values[n - 1]);
    if n == 1 then last else Or(OrChain(path, values, n - 1), last)
  }

  function AndChain(path: string, values: seq<Json>, n: nat): Expr
    requires 0 < n <= |values|
  {
    var last := Comparing(path, Unequal, values[n - 1]);
    if n == 1 then last else And(AndChain(path, values, n - 1), last)
  }

  lemma {:induction false} ParseAndCompared(path: string, value: Json, rest: seq<Token>)
    requires rest != [] && rest[0] != AndSign
    ensures ParseAnd(Compared(path, Equal, value) + rest)
      == if IsMember(path) && IsLiteral(value) then Some((Comparing(path, Equal, value), rest)) else None
  {
    ParseCompared(path, Equal, value, rest);
  }

  lemma {:induction false} ParseOrRest(path: string, values: seq<Json>, k: nat, rest: seq<Token>)
    requires IsMember(path) && 0 < k <= |values| && LiteralFirst(values, k) && Ends(rest)
    ensures OrTail(OrChain(path, values, k), Rest(Comparisons(path, Equal, values), k, OrSign) + rest)
      == if LiteralFirst(values, |values|) then Some((OrChain(path, values, |values|), rest)) else None
    decreases |values| - k
  {
    var conds := Comparisons(path, Equal, values);
    if k == |values| {
      assert Rest(conds, k, OrSign) + rest == rest;
    } else {
      var later := Rest(conds, k + 1, OrSign) + rest;
      var ts := Rest(conds, k, OrSign) + rest;
      assert ts == [OrSign] + (Compared(path, Equal, values[k]) + later);
      assert ts[1..] == Compared(path, Equal, values[k]) + later;
      assert later[0] == OrSign || later == rest;
      ParseAndCompared(path, values[k], later);
      if IsLiteral(values[k]) {
        ParseOrRest(path, values, k + 1, rest);
      }
    }
  }

  lemma {:induction false} ParseAndRest(path: string, values: seq<Json>, k: nat, rest: seq<Token>)
    requires IsMember(path) && 0 < k <= |values| && LiteralFirst(values, k) && Ends(rest)
    ensures AndTail(AndChain(path, values, k), Rest(Comparisons(path, Unequal, values), k, AndSign) + rest)
      == if LiteralFirst(values, |values|) then Some((AndChain(path, values, |values|), rest)) else None
    decreases |values| - k
  {
    var conds := Comparisons(path, Unequal, values);
    if k == |values| {
      assert Rest(conds, k, AndSign) + rest == rest;
    } else {
      var later := Rest(conds, k + 1, AndSign) + rest;
      var ts := Rest(conds, k, AndSign) + rest;
      assert ts == [AndSign] + (Compared(path, Unequal, values[k]) + later);
      assert ts[1..] == Compared(path, Unequal, values[k]) + later;
      ParseCompared(path, Unequal, values[k], later);
      if IsLiteral(values[k]) {
        ParseAndRest(path, values, k + 1, rest);
      }
    }
  }

  /** A parenthesis around comparisons is no operand. */
  lemma {:induction false} ComparisonIsNoOperand(path: string, sign: Comparison, value: Json, later: seq<Token>)
    ensures ParseOperand([Open] + (Compared(path, sign, value) + later)).None?
  {
    var inner := Compared(path, sign, value) + later;
    assert ([Open] + inner)[1..] == inner && inner[1..][0] == Sign(sign);
  }

  lemma {:induction false} ParseIn(path: string, values: seq<Json>, rest: seq<Token>)
    requires values != []
    ensures ParseOperand([Open] + (Joined(Comparisons(path, Equal, values), OrSign) + [Close]) + rest).None?
    ensures ParsePrimary([Open] + (Joined(Comparisons(path, Equal, values), OrSign) + [Close]) + rest)
      == if IsMember(path) && LiteralFirst(values, |values|) then Some((OrChain(path, values, |values|), rest)) else None
  {
    var conds, closing := Comparisons(path, Equal, values), [Close] + rest;
    var ts := [Open] + (Joined(conds, OrSign) + [Close]) + rest;
    var later := Rest(conds, 1, OrSign) + closing;
    assert ts == [Open] + (Compared(path, Equal, values[0]) + later);
    assert ts[1..] == Compared(path, Equal, values[0]) + later;
    assert later[0] == OrSign || later == closing;
    ComparisonIsNoOperand(path, Equal, values[0], later);
    ParseAndCompared(path, values[0], later);
    if IsMember(path) && IsLiteral(values[0]) {
      ParseOrRest(path, values, 1, closing);
    }
    assert closing[1..] == rest;
  }

  lemma {:induction false} ParseNotIn(path: string, values: seq<Json>, rest: seq<Token>)
    requires values != []
    ensures ParseOperand([Open] + (Joined(Comparisons(path, Unequal, values), AndSign) + [Close]) + rest).None?
    ensures ParsePrimary([Open] + (Joined(Comparisons(path, Unequal, values), AndSign) + [Close]) + rest)
      == if IsMember(path) && LiteralFirst(values, |values|) then Some((AndChain(path, values, |values|), rest)) else None
  {
    var conds, closing := Comparisons(path, Unequal, values), [Close] + rest;
    var ts := [Open] + (Joined(conds, AndSign) + [Close]) + rest;
    var later := Rest(conds, 1, AndSign) + closing;
    assert ts == [Open] + (Compared(path, Unequal, values[0]) + later);
    assert ts[1..] == Compared(path, Unequal, values[0]) + later;
    ComparisonIsNoOperand(path, Unequal, values[0], later);
    ParseCompared(path, Unequal, values[0], later);
    if IsMember(path) && IsLiteral(values[0]) {
      ParseAndRest(path, values, 1, closing);
      if LiteralFirst(values, |values|) {
        assert ParseAnd(ts[1..]) == Some((AndChain(path, values, |values|), closing));
        assert ParseOr(ts[1..]) == Some((AndChain(path, values, |values|), closing));
      } else {
        assert ParseAnd(ts[1..]).None?;
      }
    } else {
      assert ParseAnd(ts[1..]).None?;
    }
    assert closing[1..] == rest;
  }

  lemma {:induction false} ParseExists(path: string, rest: seq<Token>)
    ensures ParsePrimary([ExistsWord, Open, Path(path), Close] + rest)
      == if IsMember(path) then Some((Exists(Member(path, false)), rest)) else None
  {
    var ts := [ExistsWord, Open, Path(path), Close] + rest;
    assert ts[2..] == [Path(path), Close] + rest && ts[2..][1..] == [Close] + rest && ([Close] + rest)[1..] == rest;
  }

  lemma {:induction false} ParseNotExists(path: string, rest: seq<Token>)
    ensures ParsePrimary([NotSign, Open, ExistsWord, Open, Path(path), Close, Close] + rest)
      == if IsMember(path) then Some((Not(Exists(Member(path, false))), rest)) else None
  {
    var ts, closing := [NotSign, Open, ExistsWord, Open, Path(path), Close, Close] + rest, [Close] + rest;
    var inner := [ExistsWord, Open, Path(path), Close] + closing;
    assert ts[2..] == inner && closing[1..] == rest;
    ParseExists(path, closing);
    if IsMember(path) {
      assert ParseAnd(inner) == Some((Exists(Member(path, false)), closing));
      assert ParseOr(inner) == Some((Exists(Member(path, false)), closing));
    } else {
      assert ParseAnd(inner).None?;
    }
  }

  /** What follows a condition in a compiled text. */
  predicate Follows(rest: seq<Token>) {
    rest == [] || rest[0] == AndSign
  }

  /** The constant of an empty list is a value, and no predicate. */
  lemma {:induction false} ParseConstant(b: bool, rest: seq<Token>)
    requires Follows(rest)
    ensures var ts := [Open, if b then TrueWord else FalseWord, Close] + rest;
      ParsePrimary(ts).None? && ParseOperand(ts) == Some((Constant(b), rest))
  {
    var word := if b then TrueWord else FalseWord;
    var ts := [Open, word, Close] + rest;
    assert ts[1..] == [word, Close] + rest && ts[1..][1..] == [Close] + rest && ([Close] + rest)[1..] == rest;
    assert ParseOperand(ts[1..]) == Some((Constant(b), [Close] + rest));
    assert ParsePrimary(ts[1..]).None?;
    assert ParseAnd(ts[1..]).None?;
  }

  /** The expression a condition parses to. */
  function ExprOf(d: Descriptor): Expr
    requires WellPosed(d)
  {
    var path := Normalized(d.key).value;
    match d.operator
    case EXISTS => if d.value.b then Exists(Member(path, false)) else Not(Exists(Member(path, false)))
    case MATCHES => Comparing(path, Equal, d.value)
    case EQUALS => Comparing(path, Equal, d.value)
    case NOT_EQUALS => Comparing(path, Unequal, d.value)
    case GTE => Comparing(path, AtLeast, d.value)
    case LTE => Comparing(path, AtMost, d.value)
    case CONTAINS => Compare(Member(path, true), Equal, Literal(d.value))
    case IN => OrChain(path, d.value.items, |d.value.items|)
    case NOT_IN => AndChain(path, d.value.items, |d.value.items|)
  }

  /** A condition is one primary of the language exactly when its descriptor is well posed, whatever follows it in a
      compiled text. */
  lemma {:induction false} ParseCondition(d: Descriptor, rest: seq<Token>)
    requires CompileCondition(d).Some? && Follows(rest)
    ensures ParsePrimary(CompileCondition(d).value + rest) == if WellPosed(d) then Some((ExprOf(d), rest)) else None
  {
    var path := Normalized(d.key).value;
    match d.operator
    case EXISTS =>
      ParseExists(path, rest);
      ParseNotExists(path, rest);
    case MATCHES => ParseCompared(path, Equal, d.value, rest);
    case EQUALS => ParseCompared(path, Equal, d.value, rest);
    case NOT_EQUALS => ParseCompared(path, Unequal, d.value, rest);
    case GTE => ParseCompared(path, AtLeast, d.value, rest);
    case LTE => ParseCompared(path, AtMost, d.value, rest);
    case CONTAINS => ParseContained(path, d.value, rest);
    case IN => if d.value.items == [] { ParseConstant(false, rest); } else { ParseIn(path, d.value.items, rest); }
    case NOT_IN => if d.value.items == [] { ParseConstant(true, rest); } else { ParseNotIn(path, d.value.items, rest); }
  }

  /** Alone, only the constant of an empty list is a value. */
  lemma {:induction false} ConditionAsValue(d: Descriptor, rest: seq<Token>)
    requires CompileCondition(d).Some? && Follows(rest)
    ensures var value := ParseOperand(CompileCondition(d).value + rest);
      if EmptyList(d) then value == Some((Constant(d.operator.NOT_IN?), rest)) else value.None? || value.value.1 != []
  {
    var path := Normalized(d.key).value;
    if EmptyList(d) {
      ParseConstant(d.operator.NOT_IN?, rest);
    } else if d.operator.IN? {
      ParseIn(path, d.value.items, rest);
    } else if d.operator.NOT_IN? {
      ParseNotIn(path, d.value.items, rest);
    }
  }

  predicate WellPosedFirst(ds: seq<Descriptor>, n: nat)
    requires n <= |ds|
  {
    forall i | 0 <= i < n :: WellPosed(ds[i])
  }

  function Conjunction(ds: seq<Descriptor>, n: nat): Expr
    requires 0 < n <= |ds| && WellPosedFirst(ds, n)
  {
    if n == 1 then ExprOf(ds[0]) else And(Conjunction(ds, n - 1), ExprOf(ds[n - 1]))
  }

  /** One more condition behind a sign. */
  lemma {:induction false} ParseNext(ds: seq<Descriptor>, k: nat, left: Expr)
    requires AllCompile(ds) && 0 < k < |ds|
    ensures AndTail(left, Rest(Conditions(ds), k, AndSign))
      == if WellPosed(ds[k]) then AndTail(And(left, ExprOf(ds[k])), Rest(Conditions(ds), k + 1, AndSign)) else None
  {
    var conds := Conditions(ds);
    var later := Rest(conds, k + 1, AndSign);
    assert Rest(conds, k, AndSign)[1..] == conds[k] + later;
    ParseCondition(ds[k], later);
  }

  lemma {:induction false} ParseConditionsFrom(ds: seq<Descriptor>, k: nat)
    requires AllCompile(ds) && 0 < k <= |ds| && WellPosedFirst(ds, k)
    ensures AndTail(Conjunction(ds, k), Rest(Conditions(ds), k, AndSign))
      == if WellPosedFirst(ds, |ds|) then Some((Conjunction(ds, |ds|), [])) else None
    decreases |ds| - k
  {
    if k < |ds| {
      ParseNext(ds, k, Conjunction(ds, k));
      if WellPosed(ds[k]) {
        ParseConditionsFrom(ds, k + 1);
      }
    }
  }

  lemma {:induction false} ParseConjunction(ds: seq<Descriptor>)
    requires AllCompile(ds) && ds != []
    ensures ParseOr(Joined(Conditions(ds), AndSign))
      == if WellPosedFirst(ds, |ds|) then Some((Conjunction(ds, |ds|), [])) else None
  {
    var conds := Conditions(ds);
    ParseCondition(ds[0], Rest(conds, 1, AndSign));
    if WellPosed(ds[0]) {
      ParseConditionsFrom(ds, 1);
    }
    assert ParseAnd(Joined(conds, AndSign)) == if WellPosedFirst(ds, |ds|) then Some((Conjunction(ds, |ds|), [])) else None;
  }

  lemma {:induction false} ChainsMean(o: Candidate, path: string, values: seq<Json>, n: nat)
    requires 0 < n <= |values|
    ensures Meaning(o, OrChain(path, values, n)) == AnyEqual(o, path, values, n)
    ensures Meaning(o, AndChain(path, values, n)) == AllUnequal(o, path, values, n)
  {
    if n > 1 {
      ChainsMean(o, path, values, n - 1);
    }
  }

  lemma {:induction false} ExprMeans(o: Candidate, d: Descriptor)
    requires WellPosed(d)
    ensures Meaning(o, ExprOf(d)) == Asks(o, d)
  {
    if d.operator.IN? || d.operator.NOT_IN? {
      ChainsMean(o, Normalized(d.key).value, d.value.items, |d.value.items|);
    }
  }

  lemma {:induction false} ConjunctionMeans(o: Candidate, ds: seq<Descriptor>, n: nat)
    requires AllCompile(ds) && 0 < n <= |ds| && WellPosedFirst(ds, n)
    ensures Meaning(o, Conjunction(ds, n)) == AskAll(o, ds, n)
  {
    ExprMeans(o, ds[n - 1]);
    if n > 1 {
      ConjunctionMeans(o, ds, n - 1);
    } else {
      assert AskAll(o, ds, 0) == Yes;
    }
  }

  // ------------------------------------------------------------------------------------------------------------
  // Main result
  // ------------------------------------------------------------------------------------------------------------

  /** What can be stored and evaluated: every descriptor is well posed, or there is just one, with an empty list. */
  predicate Parseable(ds: seq<Descriptor>) {
    WellPosedFirst(ds, |ds|) || (|ds| == 1 && EmptyList(ds[0]))
  }

  /** What is compiled parses exactly when the descriptors are parseable. Then it asks of any object exactly what all the
      descriptors ask: no alternative of an IN escapes its parenthesis. */
  lemma {:induction false} CompiledMeansAllDescriptors(ds: seq<Descriptor>, o: Candidate)
    requires ds != [] && AllCompile(ds)
    ensures Compile(ds).Predicate?
    ensures var parsed := ParseText(Compile(ds).tokens);
      && (parsed.Some? <==> Parseable(ds))
      && (parsed.Some? ==> TextMeaning(o, parsed.value) == AskAll(o, ds, |ds|))
  {
    var rest := Rest(Conditions(ds), 1, AndSign);
    ParseConjunction(ds);
    ConditionAsValue(ds[0], rest);
    if WellPosedFirst(ds, |ds|) {
      ConjunctionMeans(o, ds, |ds|);
    } else if |ds| == 1 && EmptyList(ds[0]) {
      assert rest == [] && AskAll(o, ds, 0) == Yes;
    }
  }

  // ------------------------------------------------------------------------------------------------------------
  // Descriptors that compile to no predicate
  // ------------------------------------------------------------------------------------------------------------

  lemma {:induction false} WordsNormalize(key: string)
    requires IsWord(key)
    ensures Normalized(key) == Some(key) && Split(key, '.') == [key]
  {
    SplitFree(key, '.');
  }

  /** A list, or an object, as the value of a comparison is stored as text that does not parse. */
  lemma {:induction false} ListValuesDoNotParse(items: seq<Json>)
    ensures var d := Descriptor("axes", EQUALS, List(items)); CompileCondition(d).Some? && ParseText(Compile([d]).tokens).None?
  {
    var d := Descriptor("axes", EQUALS, List(items));
    WordsNormalize("axes");
    Unparseable(d);
  }

  /** So is a key with a word that starts with a digit. */
  lemma {:induction false} DigitLedKeysDoNotParse()
    ensures var d := Descriptor("3d", EQUALS, Bool(true)); CompileCondition(d).Some? && ParseText(Compile([d]).tokens).None?
  {
    var d := Descriptor("3d", EQUALS, Bool(true));
    WordsNormalize("3d");
    assert Split("3d", '.')[0][0] == '3';
    Unparseable(d);
  }

  /** And an empty list beside another descriptor. */
  lemma {:induction false} EmptyListsDoNotJoin(d: Descriptor, other: Descriptor)
    requires EmptyList(d) && CompileCondition(d).Some? && CompileCondition(other).Some?
    ensures ParseText(Compile([d, other]).tokens).None? && ParseText(Compile([other, d]).tokens).None?
  {
    var yes := Candidate((_, _, _) => Yes, _ => Yes, _ => Yes);
    assert !WellPosed([d, other][0]) && !WellPosed([other, d][1]);
    CompiledMeansAllDescriptors([d, other], yes);
    CompiledMeansAllDescriptors([other, d], yes);
  }

  lemma {:induction false} Unparseable(d: Descriptor)
    requires CompileCondition(d).Some? && !WellPosed(d) && !EmptyList(d)
    ensures Compile([d]).Predicate? && ParseText(Compile([d]).tokens).None?
  {
    assert !WellPosed([d][0]);
    CompiledMeansAllDescriptors([d], Candidate((_, _, _) => Yes, _ => Yes, _ => Yes));
  }
}
