/** Named placeholders turned into positional ones (facade/managers.py), so that a statement can be embedded in another. */
module Positional {
  import opened Common
  import opened Dictionaries
  import opened Ports
  import opened ParamKeys
  import opened PortQuery
  import opened Demands

  predicate IsWord(c: char) {
    'a' <= c <= 'z' || 'A' <= c <= 'Z' || '0' <= c <= '9' || c == '_'
  }

  predicate Wordy(s: string) {
    forall i | 0 <= i < |s| :: IsWord(s[i])
  }

  /** Where the run of word characters starting at `from` ends. */
  function WordEnd(s: string, from: nat): (end: nat)
    requires from <= |s|
    ensures from <= end <= |s| && Wordy(s[from..end]) && (end < |s| ==> !IsWord(s[end]))
    decreases |s| - from
  {
    if from == |s| || !IsWord(s[from]) then from else WordEnd(s, from + 1)
  }

  /** The length of the placeholder `%(word)s` the text starts with, or 0. */
  function PlaceholderLength(s: string): (n: nat)
    ensures n > 0 ==> 5 <= n <= |s| && s[0] == '%' && Wordy(s[2..n - 2])
  {
    if |s| >= 2 && s[0] == '%' && s[1] == '(' then
      var end := WordEnd(s, 2);
      if end > 2 && end + 2 <= |s| && s[end] == ')' && s[end + 1] == 's' then end + 2 else 0
    else 0
  }

  function Key(s: string): string
    requires PlaceholderLength(s) > 0
  {
    s[2..PlaceholderLength(s) - 2]
  }

  /** The keys of all placeholders, leftmost first. */
  function FindAll(s: string): seq<string> {
    if s == "" then []
    else
      var n := PlaceholderLength(s);
      if n > 0 then [Key(s)] + FindAll(s[n..]) else FindAll(s[1..])
  }

  function Substituted(s: string): string {
    if s == "" then ""
    else
      var n := PlaceholderLength(s);
      if n > 0 then ['%', 's'] + Substituted(s[n..]) else [s[0]] + Substituted(s[1..])
  }

  /** The text with `%s` for every placeholder, and the values in their order; fails on a key without value. */
  function ToPositional<V>(sql: string, params: map<string, V>): Option<(string, seq<V>)> {
    var keys := FindAll(sql);
    if exists key | key in keys :: key !in params then None
    else Some((Substituted(sql), ValuesOf(keys, params)))
  }

  function ValuesOf<V>(keys: seq<string>, params: map<string, V>): seq<V>
    requires forall key | key in keys :: key in params
  {
    seq(|keys|, i requires 0 <= i < |keys| => params[keys[i]])
  }

  // ------------------------------------------------------------------------------------------------------------
  // What the driver makes of a statement
  // ------------------------------------------------------------------------------------------------------------

  datatype Token<V> = Character(c: char) | Bound(value: V)

  /** Every named placeholder becomes its value. */
  function BindNamed<V>(s: string, params: map<string, V>): Option<seq<Token<V>>> {
    if s == "" then Some([])
    else
      var n := PlaceholderLength(s);
      if n > 0 then
        var rest := BindNamed(s[n..], params);
        if rest.None? || Key(s) !in params then None else Some([Bound(params[Key(s)])] + rest.value)
      else
        var rest := BindNamed(s[1..], params);
        if rest.None? then None else Some([Character(s[0])] + rest.value)
  }

  /** Every `%s` becomes the next value; their numbers must agree. */
  function BindPositional<V>(s: string, values: seq<V>): Option<seq<Token<V>>> {
    if s == "" then if values == [] then Some([]) else None
    else if StartsBare(s) then
      if values == [] then None
      else
        var rest := BindPositional(s[2..], values[1..]);
        if rest.None? then None else Some([Bound(values[0])] + rest.value)
    else
      var rest := BindPositional(s[1..], values);
      if rest.None? then None else Some([Character(s[0])] + rest.value)
  }

  predicate StartsBare(s: string) {
    |s| >= 2 && s[0] == '%' && s[1] == 's'
  }

  /** How many `%s` stand in the text outside the placeholders. */
  function Bare(s: string): nat {
    if s == "" then 0
    else
      var n := PlaceholderLength(s);
      if n > 0 then Bare(s[n..]) else (if StartsBare(s) then 1 else 0) + Bare(s[1..])
  }

  /** How many `%s` the driver finds. */
  function Marks(s: string): nat {
    if s == "" then 0 else if StartsBare(s) then 1 + Marks(s[2..]) else Marks(s[1..])
  }

  lemma {:induction false} KeysFound<V>(s: string, params: map<string, V>)
    ensures BindNamed(s, params).Some? <==> forall key | key in FindAll(s) :: key in params
  {
    if s != "" {
      var n := PlaceholderLength(s);
      if n > 0 {
        KeysFound(s[n..], params);
      } else {
        KeysFound(s[1..], params);
      }
    }
  }

  lemma {:induction false} SubstitutedStart(s: string)
    requires s != ""
    ensures Substituted(s) != "" && Substituted(s)[0] == s[0]
  {
  }

  /** One character of literal text. */
  lemma {:induction false} SubstitutedLiteral(s: string)
    requires s != "" && PlaceholderLength(s) == 0
    ensures Substituted(s) == [s[0]] + Substituted(s[1..]) && Substituted(s)[1..] == Substituted(s[1..])
    ensures StartsBare(Substituted(s)) <==> StartsBare(s)
  {
    if |s| > 1 {
      SubstitutedStart(s[1..]);
    }
  }

  lemma {:induction false} SubstitutedPlaceholder(s: string, n: nat)
    requires n == PlaceholderLength(s) && n > 0
    ensures Substituted(s) == ['%', 's'] + Substituted(s[n..]) && Substituted(s)[2..] == Substituted(s[n..])
    ensures StartsBare(Substituted(s))
  {
  }

  /** The driver binds a text exactly when there is one value for every `%s`. */
  lemma {:induction false} BindsWhenCountsAgree<V>(s: string, values: seq<V>)
    ensures BindPositional(s, values).Some? <==> |values| == Marks(s)
  {
    if s != "" {
      if StartsBare(s) {
        if values != [] {
          BindsWhenCountsAgree(s[2..], values[1..]);
        }
      } else {
        BindsWhenCountsAgree(s[1..], values);
      }
    }
  }

  /** It finds the placeholders, and what stood there before. */
  lemma {:induction false} MarksAreKeysAndBare(s: string)
    ensures Marks(Substituted(s)) == |FindAll(s)| + Bare(s)
    decreases |s|
  {
    if s != "" {
      var n := PlaceholderLength(s);
      if n > 0 {
        MarksAreKeysAndBare(s[n..]);
        SubstitutedPlaceholder(s, n);
      } else {
        SubstitutedLiteral(s);
        if StartsBare(s) {
          MarksAfterBare(s);
        } else {
          MarksAreKeysAndBare(s[1..]);
        }
      }
    }
  }

  lemma {:induction false} MarksAfterBare(s: string)
    requires StartsBare(s)
    ensures Marks(Substituted(s)) == |FindAll(s)| + Bare(s)
    decreases |s|, 0
  {
    var rest := s[1..];
    assert PlaceholderLength(rest) == 0 && rest[1..] == s[2..];
    SubstitutedLiteral(s);
    SubstitutedLiteral(rest);
    MarksAreKeysAndBare(s[2..]);
    assert Substituted(s)[2..] == Substituted(s[2..]);
    assert FindAll(s) == FindAll(rest) && FindAll(rest) == FindAll(s[2..]);
    assert Bare(s) == 1 + Bare(rest) && Bare(rest) == Bare(s[2..]);
  }

  lemma {:induction false} PositionalBindsAlike<V>(s: string, params: map<string, V>)
    requires Bare(s) == 0 && forall key | key in FindAll(s) :: key in params
    ensures BindPositional(Substituted(s), ValuesOf(FindAll(s), params)) == BindNamed(s, params)
    decreases |s|
  {
    if s != "" {
      var n := PlaceholderLength(s);
      if n > 0 {
        SubstitutedPlaceholder(s, n);
        PositionalBindsAlike(s[n..], params);
        var values := ValuesOf(FindAll(s), params);
        assert values[1..] == ValuesOf(FindAll(s[n..]), params);
      } else {
        SubstitutedLiteral(s);
        PositionalBindsAlike(s[1..], params);
      }
    }
  }

  /** For every statement: the conversion fails exactly when a named placeholder has no value, and otherwise the driver
      makes the same of both forms if and only if no `%s` stands outside the placeholders. */
  lemma {:induction false} ToPositionalBindsAlike<V>(sql: string, params: map<string, V>)
    ensures ToPositional(sql, params).None? <==> BindNamed(sql, params).None?
    ensures ToPositional(sql, params).Some? ==>
      (BindPositional(ToPositional(sql, params).value.0, ToPositional(sql, params).value.1) == BindNamed(sql, params) <==> Bare(sql) == 0)
  {
    KeysFound(sql, params);
    if ToPositional(sql, params).Some? {
      if Bare(sql) == 0 {
        PositionalBindsAlike(sql, params);
      } else {
        MarksAreKeysAndBare(sql);
        BindsWhenCountsAgree(Substituted(sql), ValuesOf(FindAll(sql), params));
      }
    }
  }

  // ------------------------------------------------------------------------------------------------------------
  // The keys of this server's statements
  // ------------------------------------------------------------------------------------------------------------

  /** Statement text put together from literal text and placeholders. */
  datatype Piece = Literal(text: string) | Placeholder(key: string)

  predicate CleanPiece(piece: Piece) {
    match piece
    case Literal(text) => forall i | 0 <= i < |text| :: text[i] != '%'
    case Placeholder(key) => key != "" && Wordy(key)
  }

  function PieceText(piece: Piece): string {
    match piece
    case Literal(text) => text
    case Placeholder(key) => ['%', '('] + key + [')', 's']
  }

  function Spelled(pieces: seq<Piece>): string {
    if pieces == [] then "" else PieceText(pieces[0]) + Spelled(pieces[1..])
  }

  function KeysIn(pieces: seq<Piece>): seq<string> {
    if pieces == [] then []
    else (if pieces[0].Placeholder? then [pieces[0].key] else []) + KeysIn(pieces[1..])
  }

  lemma {:induction false} ScanLiteral(text: string, rest: string)
    requires forall i | 0 <= i < |text| :: text[i] != '%'
    ensures FindAll(text + rest) == FindAll(rest) && Bare(text + rest) == Bare(rest)
  {
    if text == "" {
      assert text + rest == rest;
    } else {
      assert (text + rest)[1..] == text[1..] + rest && (text + rest)[0] == text[0];
      ScanLiteral(text[1..], rest);
    }
  }

  lemma {:induction false} WordEndsAt(s: string, from: nat, end: nat)
    requires from <= end < |s| && Wordy(s[from..end]) && !IsWord(s[end])
    ensures WordEnd(s, from) == end
    decreases end - from
  {
    if from < end {
      assert s[from..end][0] == s[from];
      assert s[from + 1..end] == s[from..end][1..];
      WordEndsAt(s, from + 1, end);
    }
  }

  lemma {:induction false} ScanPlaceholder(key: string, rest: string)
    requires key != "" && Wordy(key)
    ensures var s := PieceText(Placeholder(key)) + rest;
      FindAll(s) == [key] + FindAll(rest) && Bare(s) == Bare(rest)
  {
    var s := PieceText(Placeholder(key)) + rest;
    var end := 2 + |key|;
    assert s[2..end] == key && s[end] == ')' && s[end + 1] == 's';
    WordEndsAt(s, 2, end);
    assert PlaceholderLength(s) == end + 2 && s[end + 2..] == rest;
  }

  lemma {:induction false} ScanPiece(piece: Piece, rest: string)
    requires CleanPiece(piece)
    ensures FindAll(PieceText(piece) + rest) == (if piece.Placeholder? then [piece.key] else []) + FindAll(rest)
    ensures Bare(PieceText(piece) + rest) == Bare(rest)
  {
    match piece
    case Literal(text) => ScanLiteral(text, rest);
    case Placeholder(key) => ScanPlaceholder(key, rest);
  }

  /** Scanning finds exactly the placeholders a statement was put together from, in their order. */
  lemma {:induction false} ScanFindsThePlaceholders(pieces: seq<Piece>)
    requires forall piece | piece in pieces :: CleanPiece(piece)
    ensures FindAll(Spelled(pieces)) == KeysIn(pieces) && Bare(Spelled(pieces)) == 0
  {
    if pieces != [] {
      ScanFindsThePlaceholders(pieces[1..]);
      ScanPiece(pieces[0], Spelled(pieces[1..]));
    }
  }

  /** The keys a clause names. */
  function Used(c: Cond): set<string> {
    match c
    case FieldIs(_, _, param) => {param}
    case Exists(_, _, conds) => set d, key | d in conds && key in Used(d) :: key
    case RootCount(_, _, param) => {param}
    case ActionIs(_, param) => {param}
    case HasProtocol(param) => {param}
    case _ => {}
  }

  /** The anchor of a match names no parameter. */
  lemma {:induction false} AnchorUsesNothing(alias: string, parentAlias: Option<string>, c: Cond)
    requires c in Anchor(alias, parentAlias)
    ensures Used(c) == {}
  {
  }

  /** Every placeholder of a match has a value. */
  lemma {:induction false} MatchBindsWhatItUses(m: Match, table: Side, parentAlias: Option<string>, path: string)
    ensures Used(CondOf(m, table, parentAlias, path)) <= ParamsOf(m, path).Keys
    decreases m
  {
    ParamsKeepOwnAndChildren(m, path);
    var fields, nested := FieldConds(m, path, FIELDS), ChildConds(m.children, |m.children|, table, path);
    forall c, key | c in Anchor(Alias(path), parentAlias) + fields + nested && key in Used(c)
      ensures key in ParamsOf(m, path)
    {
      if c in fields {
        FieldsBindWhatTheyUse(m, path, c, key);
      } else if c in nested {
        var i := ChildCondAt(m.children, |m.children|, table, path, c);
        MatchBindsWhatItUses(m.children[i], table, Some(Alias(path)), ChildPath(path, i));
      } else {
        AnchorUsesNothing(Alias(path), parentAlias, c);
      }
    }
  }

  lemma {:induction false} ChildCondAt(children: seq<Match>, n: nat, table: Side, path: string, c: Cond) returns (i: nat)
    requires n <= |children| && c in ChildConds(children, n, table, path)
    ensures i < n && c == CondOf(children[i], table, Some(Alias(path)), ChildPath(path, i))
  {
    if c == CondOf(children[n - 1], table, Some(Alias(path)), ChildPath(path, n - 1)) {
      i := n - 1;
    } else {
      i := ChildCondAt(children, n - 1, table, path, c);
    }
  }

  lemma {:induction false} FieldsBindWhatTheyUse(m: Match, path: string, c: Cond, key: string)
    requires c in FieldConds(m, path, FIELDS) && key in Used(c)
    ensures key in FieldParams(m, path, FIELDS)
  {
    FieldCondsMembers(m, path, FIELDS, c);
    FieldParamsBind(m, path, FIELDS);
  }

  lemma {:induction false} JoinedIsWordy(a: string, b: string)
    requires Wordy(a) && Wordy(b)
    ensures Wordy(a + "_" + b) && a + "_" + b != ""
  {
  }

  lemma {:induction false} DigitsAreWordy(n: nat)
    ensures Wordy(Digits(n))
  {
  }

  lemma {:induction false} FieldKeysAreWordy(m: Match, path: string, fields: seq<PortField>)
    requires Wordy(path)
    ensures forall key | key in FieldParams(m, path, fields) :: Wordy(key) && key != ""
  {
    FieldParamsBind(m, path, fields);
    forall field: PortField
      ensures Wordy(FieldKey(PortFieldName(field), path)) && FieldKey(PortFieldName(field), path) != ""
    {
      PortFieldNameIsWordy(field);
      JoinedIsWordy(PortFieldName(field), path);
    }
  }

  lemma {:induction false} PortFieldNameIsWordy(field: PortField)
    ensures Wordy(PortFieldName(field))
  {
  }

  lemma {:induction false} MatchKeysAreWordy(m: Match, path: string)
    requires Wordy(path)
    ensures forall key | key in ParamsOf(m, path) :: Wordy(key) && key != ""
    decreases m
  {
    FieldKeysAreWordy(m, path, FIELDS);
    ChildKeysAreWordy(m.children, |m.children|, path);
  }

  lemma {:induction false} ChildKeysAreWordy(children: seq<Match>, n: nat, path: string)
    requires Wordy(path) && n <= |children|
    ensures forall key | key in ChildParams(children, n, path) :: Wordy(key) && key != ""
    decreases children, n
  {
    if n > 0 {
      ChildKeysAreWordy(children, n - 1, path);
      DigitsAreWordy(n - 1);
      JoinedIsWordy(path, Digits(n - 1));
      MatchKeysAreWordy(children[n - 1], ChildPath(path, n - 1));
    }
  }

  lemma {:induction false} FieldNameIsWordy(field: DemandField)
    ensures Wordy(FieldName(field))
  {
  }

  lemma {:induction false} CountNameIsWordy(count: ForcedCount)
    ensures Wordy(CountName(count))
  {
  }

  lemma {:induction false} PrefixIsWordy(demand: nat)
    ensures Wordy(Prefix(demand))
  {
    DigitsAreWordy(demand);
  }

  lemma {:induction false} NameIsWordy(tag: Label)
    ensures Wordy(Name(tag)) && Name(tag) != ""
  {
    match tag
    case Organization =>
    case Named(demand, field) =>
      FieldNameIsWordy(field);
      PrefixIsWordy(demand);
      JoinedIsWordy(Prefix(demand), FieldName(field));
    case Protocol(demand, position) => ThreeAreWordy(demand, "protocol", position);
    case ActionMatch(demand, side, position) => ThreeAreWordy(demand, if side.Args? then "arg" else "ret", position);
    case Forced(demand, count) =>
      DigitsAreWordy(demand);
      CountNameIsWordy(count);
      JoinedIsWordy(CountName(count), Digits(demand));
      JoinedIsWordy("force", CountName(count) + "_" + Digits(demand));
    case PortMatch(demand, position) =>
      DigitsAreWordy(demand);
      DigitsAreWordy(position);
      JoinedIsWordy(Digits(demand), Digits(position));
  }

  lemma {:induction false} ThreeAreWordy(demand: nat, middle: string, position: nat)
    requires Wordy(middle)
    ensures Wordy(Prefix(demand) + "_" + (middle + "_" + Digits(position)))
  {
    DigitsAreWordy(position);
    PrefixIsWordy(demand);
    JoinedIsWordy(middle, Digits(position));
    JoinedIsWordy(Prefix(demand), middle + "_" + Digits(position));
  }

  lemma {:induction false} ItemBindsWhatItUses(item: Item)
    ensures Used(Clause(item)) <= Binding(item).Keys
    ensures forall key | key in Binding(item) :: Wordy(key) && key != ""
  {
    NameIsWordy(item.tag);
    if item.Matching? {
      MatchBindsWhatItUses(item.m, item.table, None, Name(item.tag));
      MatchKeysAreWordy(item.m, Name(item.tag));
    }
  }

  lemma {:induction false} BindingsHaveTheKeys(items: seq<Item>, item: Item)
    requires item in items
    ensures Binding(item).Keys <= Bindings(items).Keys
  {
    var i :| 0 <= i < |items| && items[i] == item;
    forall key | key in Binding(item)
      ensures key in Bindings(items)
    {
      assert key in BindingList(items)[i];
    }
  }

  /** A statement that spells out the clauses of its items, in whatever literal text without percent signs, converts
      without error, and the driver makes the same of it before and after. */
  lemma {:induction false} StatementsConvert(items: seq<Item>, pieces: seq<Piece>)
    requires forall piece | piece in pieces ::
      (piece.Literal? ==> CleanPiece(piece)) && (piece.Placeholder? ==> exists item | item in items :: piece.key in Used(Clause(item)))
    ensures var sql, params := Spelled(pieces), Bindings(items);
      ToPositional(sql, params).Some?
      && BindPositional(ToPositional(sql, params).value.0, ToPositional(sql, params).value.1) == BindNamed(sql, params)
  {
    forall piece | piece in pieces
      ensures CleanPiece(piece) && (piece.Placeholder? ==> piece.key in Bindings(items))
    {
      if piece.Placeholder? {
        var item :| item in items && piece.key in Used(Clause(item));
        ItemBindsWhatItUses(item);
        BindingsHaveTheKeys(items, item);
      }
    }
    ScanFindsThePlaceholders(pieces);
    forall key | key in KeysIn(pieces)
      ensures key in Bindings(items)
    {
      KeysComeFromPlaceholders(pieces, key);
    }
    ToPositionalBindsAlike(Spelled(pieces), Bindings(items));
    KeysFound(Spelled(pieces), Bindings(items));
  }

  lemma {:induction false} KeysComeFromPlaceholders(pieces: seq<Piece>, key: string)
    requires key in KeysIn(pieces)
    ensures Placeholder(key) in pieces
  {
    if pieces[0] != Placeholder(key) {
      KeysComeFromPlaceholders(pieces[1..], key);
    }
  }
}
