/** The relational port matcher (facade/managers.py): a match tree becomes nested correlated EXISTS clauses over the
    port rows, and the clauses mean what the tree means. */
module PortQuery {
  import opened Common
  import opened Dictionaries
  import opened Ports
  import opened ParamKeys

  type Candidate = map<string, Json>

  datatype Descriptor = Descriptor(key: string, value: Json)

  /** What a caller asks of one port; a field left out is not compared. */
  datatype Match = Match(
    at: Option<int>,
    key: Option<string>,
    kind: Option<PortKind>,
    identifier: Option<string>,
    dimension: Option<string>,
    nullable: Option<bool>,
    descriptors: seq<Descriptor>,
    children: seq<Match>)

  /** The value bound to a placeholder. */
  datatype Value = Number(n: int) | Text(s: string) | Kind(k: PortKind) | Flag(b: bool) | Json(o: Candidate)

  type Params = map<string, Value>

  /** SQL's three truth values. */
  datatype Truth = Yes | No | Unknown

  datatype PortField = AtField | KeyField | KindField | IdentifierField | DimensionField | NullableField | ObjectField

  datatype ActionColumn =
    | OrganizationId | HashColumn | KeyColumn | AppIdentifier | VersionColumn | NameColumn
    | ArgCount | ReturnCount | PureColumn | IdempotentColumn | StatefulColumn

  /** The WHERE clauses the builders emit. The outer action row is implicit. */
  datatype Cond =
    | OfAction(alias: string)
    | IsRoot(alias: string)
    | UnderRow(alias: string, parentAlias: string)
    | FieldIs(alias: string, field: PortField, param: string)
    | Exists(table: Side, alias: string, conds: seq<Cond>)
    | RootCount(table: Side, count: ForcedCount, param: string)
    | ActionIs(column: ActionColumn, param: string)
    | HasProtocol(param: string)

  datatype ActionRow = ActionRow(
    id: ActionId,
    organization: string,
    hash: string,
    key: string,
    app: string,
    version: string,
    name: string,
    argCount: int,
    returnCount: int,
    pure: bool,
    idempotent: bool,
    stateful: bool,
    protocols: set<string>)

  /** The two port tables, and how a compiled constraint judges a candidate object. */
  datatype World = World(args: seq<Row>, results: seq<Row>, accepts: (string, Candidate) -> Truth)
  {
    function Rows(table: Side): seq<Row> {
      if table.Args? then args else results
    }
  }

  // ------------------------------------------------------------------------------------------------------------
  // What clauses mean
  // ------------------------------------------------------------------------------------------------------------

  function Is(b: bool): Truth {
    if b then Yes else No
  }

  function TextIs(column: Option<string>, text: string): Truth {
    if column.None? then Unknown else Is(column.value == text)
  }

  function FieldTruth(accepts: (string, Candidate) -> Truth, row: Row, field: PortField, value: Value): Truth {
    match (field, value)
    case (AtField, Number(n)) => Is(row.index == n)
    case (KeyField, Text(s)) => Is(row.key == s)
    case (KindField, Kind(k)) => Is(row.kind == k)
    case (IdentifierField, Text(s)) => TextIs(row.identifier, s)
    case (DimensionField, Text(s)) => TextIs(row.dimension, s)
    case (NullableField, Flag(b)) => Is(row.nullable == b)
    case (ObjectField, Json(o)) => if row.constraint.None? then Yes else accepts(row.constraint.value, o)
    case _ => Unknown
  }

  function ActionTruth(action: ActionRow, column: ActionColumn, value: Value): Truth {
    match (column, value)
    case (OrganizationId, Text(s)) => Is(action.organization == s)
    case (HashColumn, Text(s)) => Is(action.hash == s)
    case (KeyColumn, Text(s)) => Is(action.key == s)
    case (AppIdentifier, Text(s)) => Is(action.app == s)
    case (VersionColumn, Text(s)) => Is(action.version == s)
    case (NameColumn, Text(s)) => Is(action.name == s)
    case (ArgCount, Number(n)) => Is(action.argCount == n)
    case (ReturnCount, Number(n)) => Is(action.returnCount == n)
    case (PureColumn, Flag(b)) => Is(action.pure == b)
    case (IdempotentColumn, Flag(b)) => Is(action.idempotent == b)
    case (StatefulColumn, Flag(b)) => Is(action.stateful == b)
    case _ => Unknown
  }

  predicate Counts(count: ForcedCount, nullable: bool, kind: PortKind) {
    match count
    case AllPorts => true
    case NonNullable => !nullable
    case Structures => kind == STRUCTURE
  }

  function CountRows(rows: seq<Row>, count: ForcedCount): nat {
    if rows == [] then 0
    else CountRows(rows[..|rows| - 1], count) + if Counts(count, Last(rows).nullable, Last(rows).kind) then 1 else 0
  }

  /** An EXISTS is true when its whole WHERE is true of some row; an unknown WHERE selects nothing. */
  ghost function Eval(world: World, action: ActionRow, rows: map<string, Row>, params: Params, cond: Cond): Truth
    decreases cond
  {
    match cond
    case OfAction(alias) => if alias in rows then Is(rows[alias].action == action.id) else Unknown
    case IsRoot(alias) => if alias in rows then Is(rows[alias].parent.None?) else Unknown
    case UnderRow(alias, parentAlias) =>
      if alias in rows && parentAlias in rows && rows[alias].parent.Some? then Is(rows[alias].parent.value == rows[parentAlias].id)
      else Unknown
    case FieldIs(alias, field, param) =>
      if alias in rows && param in params then FieldTruth(world.accepts, rows[alias], field, params[param]) else Unknown
    case Exists(table, alias, conds) =>
      Is(exists row | row in world.Rows(table) :: (forall c | c in conds :: Eval(world, action, rows[alias := row], params, c) == Yes))
    case RootCount(table, count, param) =>
      if param in params && params[param].Number?
      then Is(CountRows(RootRows(world.Rows(table), action.id), count) == params[param].n) else Unknown
    case ActionIs(column, param) => if param in params then ActionTruth(action, column, params[param]) else Unknown
    case HasProtocol(param) => if param in params && params[param].Text? then Is(params[param].s in action.protocols) else Unknown
  }

  /** All clauses, joined by AND, are true. */
  ghost predicate Hold(world: World, action: ActionRow, rows: map<string, Row>, params: Params, conds: seq<Cond>) {
    forall c | c in conds :: Eval(world, action, rows, params, c) == Yes
  }

  // ------------------------------------------------------------------------------------------------------------
  // What a match means on the forest itself
  // ------------------------------------------------------------------------------------------------------------

  /** The object of some descriptors: it has their keys, each with the value of its last descriptor. */
  ghost predicate IsObjectOf(o: Candidate, ds: seq<Descriptor>) {
    && (forall key :: key in o <==> exists i | 0 <= i < |ds| :: ds[i].key == key)
    && (forall i | 0 <= i < |ds| && (forall j | i < j < |ds| :: ds[j].key != ds[i].key) :: o[ds[i].key] == ds[i].value)
  }

  /** Built as the code does, one assignment after the other. */
  function CandidateOf(descriptors: seq<Descriptor>): Candidate {
    if descriptors == [] then map[]
    else CandidateOf(descriptors[..|descriptors| - 1])[Last(descriptors).key := Last(descriptors).value]
  }

  lemma {:induction false} CandidateHasTheKeys(ds: seq<Descriptor>, key: string)
    ensures key in CandidateOf(ds) <==> exists i | 0 <= i < |ds| :: ds[i].key == key
  {
    if ds != [] {
      var front := ds[..|ds| - 1];
      CandidateHasTheKeys(front, key);
      if i :| 0 <= i < |ds| && ds[i].key == key {
        assert i < |front| ==> front[i].key == key;
      }
      if i :| 0 <= i < |front| && front[i].key == key {
        assert ds[i].key == key;
      }
    }
  }

  lemma {:induction false} CandidateHoldsTheLast(ds: seq<Descriptor>, i: nat)
    requires i < |ds| && forall j | i < j < |ds| :: ds[j].key != ds[i].key
    ensures ds[i].key in CandidateOf(ds) && CandidateOf(ds)[ds[i].key] == ds[i].value
  {
    if i < |ds| - 1 {
      CandidateHoldsTheLast(ds[..|ds| - 1], i);
    }
  }

  lemma {:induction false} CandidateIsTheObject(ds: seq<Descriptor>)
    ensures IsObjectOf(CandidateOf(ds), ds)
  {
    forall key
      ensures key in CandidateOf(ds) <==> exists i | 0 <= i < |ds| :: ds[i].key == key
    {
      CandidateHasTheKeys(ds, key);
    }
    forall i | 0 <= i < |ds| && (forall j | i < j < |ds| :: ds[j].key != ds[i].key)
      ensures CandidateOf(ds)[ds[i].key] == ds[i].value
    {
      CandidateHoldsTheLast(ds, i);
    }
  }

  /** The last descriptor of a key. */
  lemma {:induction false} LastOfKey(ds: seq<Descriptor>, n: nat, key: string) returns (i: nat)
    requires n <= |ds| && exists j | 0 <= j < n :: ds[j].key == key
    ensures i < n && ds[i].key == key && forall j | i < j < n :: ds[j].key != key
  {
    if ds[n - 1].key == key {
      i := n - 1;
    } else {
      i := LastOfKey(ds, n - 1, key);
    }
  }

  lemma {:induction false} ObjectIsUnique(o: Candidate, other: Candidate, ds: seq<Descriptor>)
    requires IsObjectOf(o, ds) && IsObjectOf(other, ds)
    ensures o == other
  {
    forall key | key in o
      ensures key in other && o[key] == other[key]
    {
      var i := LastOfKey(ds, |ds|, key);
    }
  }

  /** The constraint accepts the object of the descriptors. */
  ghost predicate AcceptsObject(accepts: (string, Candidate) -> Truth, constraint: string, ds: seq<Descriptor>) {
    exists o | IsObjectOf(o, ds) :: accepts(constraint, o) == Yes
  }

  lemma {:induction false} AcceptsCandidate(accepts: (string, Candidate) -> Truth, constraint: string, ds: seq<Descriptor>)
    ensures AcceptsObject(accepts, constraint, ds) <==> accepts(constraint, CandidateOf(ds)) == Yes
  {
    CandidateIsTheObject(ds);
    if AcceptsObject(accepts, constraint, ds) {
      var o :| IsObjectOf(o, ds) && accepts(constraint, o) == Yes;
      ObjectIsUnique(o, CandidateOf(ds), ds);
    }
  }

  ghost predicate PortMatches(accepts: (string, Candidate) -> Truth, port: Port, index: nat, m: Match)
    decreases m, 0
  {
    && (m.at.Some? ==> index == m.at.value)
    && (m.key.Some? ==> port.key == m.key.value)
    && (m.kind.Some? ==> port.kind == m.kind.value)
    && (m.identifier.Some? ==> port.identifier == m.identifier)
    && (m.dimension.Some? ==> port.dimension == m.dimension)
    && (m.nullable.Some? ==> port.nullable == m.nullable.value)
    && (m.descriptors != [] && port.constraint.Some? ==> AcceptsObject(accepts, port.constraint.value, m.descriptors))
    && (forall c | c in m.children :: ForestMatches(accepts, port.children, c))
  }

  /** Some port of the list matches. */
  ghost predicate ForestMatches(accepts: (string, Candidate) -> Truth, forest: seq<Port>, m: Match)
    decreases m, 1
  {
    exists i: nat | i < |forest| :: PortMatches(accepts, forest[i], i, m)
  }

  // ------------------------------------------------------------------------------------------------------------
  // The clauses of a match
  // ------------------------------------------------------------------------------------------------------------

  function Alias(path: string): string {
    "p_" + path
  }

  function PortFieldName(field: PortField): string {
    match field
    case AtField => "at"
    case KeyField => "key"
    case KindField => "kind"
    case IdentifierField => "ident"
    case DimensionField => "dim"
    case NullableField => "null"
    case ObjectField => "obj"
  }

  /** The value a match puts behind a field, if it sets the field. */
  function Asked(m: Match, field: PortField): Option<Value> {
    match field
    case AtField => if m.at.None? then None else Some(Number(m.at.value))
    case KeyField => if m.key.None? then None else Some(Text(m.key.value))
    case KindField => if m.kind.None? then None else Some(Kind(m.kind.value))
    case IdentifierField => if m.identifier.None? then None else Some(Text(m.identifier.value))
    case DimensionField => if m.dimension.None? then None else Some(Text(m.dimension.value))
    case NullableField => if m.nullable.None? then None else Some(Flag(m.nullable.value))
    case ObjectField => if m.descriptors == [] then None else Some(Json(CandidateOf(m.descriptors)))
  }

  /** A root match with descriptors is refused unless a structural field narrows it. */
  predicate Refused(m: Match, root: bool) {
    root && m.descriptors != []
    && m.at.None? && m.key.None? && m.kind.None? && m.identifier.None? && m.dimension.None?
  }

  const STRUCTURAL := [AtField, KeyField, KindField, IdentifierField, DimensionField, NullableField]

  const FIELDS := STRUCTURAL + [ObjectField]

  function FieldConds(m: Match, path: string, fields: seq<PortField>): seq<Cond> {
    if fields == [] then []
    else FieldConds(m, path, fields[..|fields| - 1]) + FieldCond(m, path, Last(fields))
  }

  function FieldCond(m: Match, path: string, field: PortField): seq<Cond> {
    if Asked(m, field).None? then [] else [FieldIs(Alias(path), field, FieldKey(PortFieldName(field), path))]
  }

  function FieldParams(m: Match, path: string, fields: seq<PortField>): Params {
    if fields == [] then map[]
    else FieldParams(m, path, fields[..|fields| - 1]) + FieldParam(m, path, Last(fields))
  }

  function FieldParam(m: Match, path: string, field: PortField): Params {
    var asked := Asked(m, field);
    if asked.None? then map[] else map[FieldKey(PortFieldName(field), path) := asked.value]
  }

  function Anchor(alias: string, parentAlias: Option<string>): seq<Cond> {
    match parentAlias
    case None => [OfAction(alias), IsRoot(alias)]
    case Some(parent) => [UnderRow(alias, parent)]
  }

  function CondOf(m: Match, table: Side, parentAlias: Option<string>, path: string): Cond
    decreases m
  {
    Exists(table, Alias(path),
           Anchor(Alias(path), parentAlias) + FieldConds(m, path, FIELDS) + ChildConds(m.children, |m.children|, table, path))
  }

  /** The clauses of the first `n` children. */
  function ChildConds(children: seq<Match>, n: nat, table: Side, path: string): (conds: seq<Cond>)
    requires n <= |children|
    ensures |conds| == n
    decreases children, n
  {
    if n == 0 then []
    else ChildConds(children, n - 1, table, path) + [CondOf(children[n - 1], table, Some(Alias(path)), ChildPath(path, n - 1))]
  }

  function ParamsOf(m: Match, path: string): Params
    decreases m
  {
    FieldParams(m, path, FIELDS) + ChildParams(m.children, |m.children|, path)
  }

  function ChildParams(children: seq<Match>, n: nat, path: string): Params
    requires n <= |children|
    decreases children, n
  {
    if n == 0 then map[]
    else ChildParams(children, n - 1, path) + ParamsOf(children[n - 1], ChildPath(path, n - 1))
  }

  // ------------------------------------------------------------------------------------------------------------
  // The builder
  // ------------------------------------------------------------------------------------------------------------

  lemma {:induction false} FieldsSnoc(m: Match, path: string, fields: seq<PortField>, i: nat, params: Params)
    requires i < |fields|
    ensures FieldConds(m, path, fields[..i + 1]) == FieldConds(m, path, fields[..i]) + FieldCond(m, path, fields[i])
    ensures params + FieldParams(m, path, fields[..i + 1]) == (params + FieldParams(m, path, fields[..i])) + FieldParam(m, path, fields[i])
  {
    assert fields[..i + 1][..i] == fields[..i];
    MapsAssociate(params, FieldParams(m, path, fields[..i]), FieldParam(m, path, fields[i]));
  }

  lemma {:induction false} FieldsSplit(m: Match, path: string, params: Params)
    ensures FieldConds(m, path, FIELDS) == FieldConds(m, path, STRUCTURAL) + FieldCond(m, path, ObjectField)
    ensures (params + FieldParams(m, path, STRUCTURAL)) + FieldParam(m, path, ObjectField) == params + FieldParams(m, path, FIELDS)
  {
    assert FIELDS[..|FIELDS| - 1] == STRUCTURAL && Last(FIELDS) == ObjectField;
    MapsAssociate(params, FieldParams(m, path, STRUCTURAL), FieldParam(m, path, ObjectField));
  }

  /** The conditions and the dictionary after the first `n` children. */
  predicate ChildrenPut(conds: seq<Cond>, params: Params, start: Params, children: seq<Match>, n: nat, table: Side, path: string)
    requires n <= |children|
  {
    && conds == ChildConds(children, n, table, path)
    && params == start + ChildParams(children, n, path)
  }

  lemma {:induction false} OneMoreChild(conds: seq<Cond>, params: Params, start: Params, children: seq<Match>, n: nat,
        table: Side, path: string)
    requires n < |children| && ChildrenPut(conds, params, start, children, n, table, path)
    ensures ChildrenPut(conds + [CondOf(children[n], table, Some(Alias(path)), ChildPath(path, n))],
                        params + ParamsOf(children[n], ChildPath(path, n)), start, children, n + 1, table, path)
  {
    MapsAssociate(start, ChildParams(children, n, path), ParamsOf(children[n], ChildPath(path, n)));
  }

  /** The dictionary every clause builder of a statement writes into. */
  class ParamDict {
    var params: Params

    constructor ()
      ensures params == map[]
    {
      params := map[];
    }

    /** The clause of one field, if the match sets it. */
    method PutField(m: Match, path: string, field: PortField) returns (conds: seq<Cond>)
      modifies this
      ensures conds == FieldCond(m, path, field)
      ensures params == old(params) + FieldParam(m, path, field)
    {
      var asked := Asked(m, field);
      conds := [];
      if asked.Some? {
        var key := FieldKey(PortFieldName(field), path);
        params := params[key := asked.value];
        conds := [FieldIs(Alias(path), field, key)];
      }
    }

    method PutFields(m: Match, path: string, fields: seq<PortField>) returns (conds: seq<Cond>)
      modifies this
      ensures conds == FieldConds(m, path, fields)
      ensures params == old(params) + FieldParams(m, path, fields)
    {
      conds := [];
      for i := 0 to |fields|
        invariant conds == FieldConds(m, path, fields[..i])
        invariant params == old(params) + FieldParams(m, path, fields[..i])
      {
        var more := PutField(m, path, fields[i]);
        conds := conds + more;
        FieldsSnoc(m, path, fields, i, old(params));
      }
      assert fields[..|fields|] == fields;
    }

    /** Builds the EXISTS clause of a match and records its parameters; a refused match stops before its descriptors. */
    method BuildMatchExists(m: Match, table: Side, parentAlias: Option<string>, path: string) returns (cond: Option<Cond>)
      modifies this
      ensures cond.None? <==> (parentAlias.None? && m.descriptors != []
        && !(m.at.Some? || m.key.Some? || m.kind.Some? || m.identifier.Some? || m.dimension.Some?))
      ensures cond.Some? ==> cond.value == CondOf(m, table, parentAlias, path)
      ensures params == old(params) + if cond.None? then FieldParams(m, path, STRUCTURAL) else ParamsOf(m, path)
      decreases m
    {
      var alias := Alias(path);
      var conds := Anchor(alias, parentAlias);
      var structural := PutFields(m, path, STRUCTURAL);
      conds := conds + structural;
      if Refused(m, parentAlias.None?) {
        return None;
      }
      var constrained := PutField(m, path, ObjectField);
      conds := conds + constrained;
      FieldsSplit(m, path, old(params));
      MapsAssociate(old(params), FieldParams(m, path, FIELDS), ChildParams(m.children, |m.children|, path));
      var nested := PutChildren(m.children, table, path);
      assert conds == Anchor(alias, parentAlias) + FieldConds(m, path, FIELDS);
      cond := Some(Exists(table, alias, conds + nested));
    }

    method PutChildren(children: seq<Match>, table: Side, path: string) returns (conds: seq<Cond>)
      modifies this
      ensures ChildrenPut(conds, params, old(params), children, |children|, table, path)
      decreases children
    {
      conds := [];
      for i := 0 to |children|
        invariant ChildrenPut(conds, params, old(params), children, i, table, path)
      {
        ghost var before := params;
        var child := BuildMatchExists(children[i], table, Some(Alias(path)), ChildPath(path, i));
        OneMoreChild(conds, before, old(params), children, i, table, path);
        conds := conds + [child.value];
      }
    }
  }

  // ------------------------------------------------------------------------------------------------------------
  // Where parameters end up
  // ------------------------------------------------------------------------------------------------------------

  ghost predicate AllUnder(params: Params, path: string) {
    forall key | key in params :: Under(key, path)
  }

  lemma {:induction false} PortFieldNamesArePlain(field: PortField)
    ensures Plain(PortFieldName(field))
  {
  }

  lemma {:induction false} PortFieldNamesDiffer(a: PortField, b: PortField)
    requires PortFieldName(a) == PortFieldName(b)
    ensures a == b
  {
    assert PortFieldName(a)[0] == PortFieldName(b)[0] && |PortFieldName(a)| == |PortFieldName(b)|;
    if |PortFieldName(a)| > 3 || PortFieldName(a)[0] == 'k' {
      assert PortFieldName(a)[1] == PortFieldName(b)[1];
    }
  }

  lemma {:induction false} FieldParamsBind(m: Match, path: string, fields: seq<PortField>)
    ensures forall key | key in FieldParams(m, path, fields) ::
      exists field | field in fields :: key == FieldKey(PortFieldName(field), path) && Asked(m, field) == Some(FieldParams(m, path, fields)[key])
    ensures forall field | field in fields && Asked(m, field).Some? :: FieldKey(PortFieldName(field), path) in FieldParams(m, path, fields)
  {
    if fields != [] {
      FieldParamsBind(m, path, fields[..|fields| - 1]);
    }
  }

  lemma {:induction false} FieldParamAt(m: Match, path: string, field: PortField)
    requires Asked(m, field).Some?
    ensures FieldKey(PortFieldName(field), path) in FieldParams(m, path, FIELDS)
    ensures FieldParams(m, path, FIELDS)[FieldKey(PortFieldName(field), path)] == Asked(m, field).value
  {
    var key := FieldKey(PortFieldName(field), path);
    AllFields(field);
    FieldParamsBind(m, path, FIELDS);
    var other :| other in FIELDS && key == FieldKey(PortFieldName(other), path) && Asked(m, other) == Some(FieldParams(m, path, FIELDS)[key]);
    PortFieldNamesArePlain(field);
    PortFieldNamesArePlain(other);
    FieldKeysDiffer(PortFieldName(field), PortFieldName(other), path);
    PortFieldNamesDiffer(field, other);
  }

  lemma {:induction false} AllFields(field: PortField)
    ensures field in FIELDS
  {
    assert FIELDS == [AtField, KeyField, KindField, IdentifierField, DimensionField, NullableField, ObjectField];
  }

  lemma {:induction false} FieldParamsAreUnder(m: Match, path: string)
    ensures AllUnder(FieldParams(m, path, FIELDS), path)
    ensures forall key, n: nat | key in FieldParams(m, path, FIELDS) :: !Under(key, ChildPath(path, n))
  {
    FieldParamsBind(m, path, FIELDS);
    forall field: PortField
      ensures Under(FieldKey(PortFieldName(field), path), path)
      ensures forall n: nat :: !Under(FieldKey(PortFieldName(field), path), ChildPath(path, n))
    {
      PortFieldNamesArePlain(field);
      FieldsAreOwn(PortFieldName(field), path);
    }
  }

  /** A builder only writes keys that carry its own path. */
  lemma {:induction false} ParamsAreUnder(m: Match, path: string)
    ensures AllUnder(ParamsOf(m, path), path)
    decreases m
  {
    FieldParamsAreUnder(m, path);
    ChildParamsAreUnder(m.children, |m.children|, path);
  }

  ghost predicate UnderAChild(key: string, path: string, n: nat) {
    exists i: nat | i < n :: Under(key, ChildPath(path, i))
  }

  lemma {:induction false} ChildParamsAreUnder(children: seq<Match>, n: nat, path: string)
    requires n <= |children|
    ensures forall key | key in ChildParams(children, n, path) :: Under(key, path) && UnderAChild(key, path, n)
    decreases children, n
  {
    if n > 0 {
      ChildParamsAreUnder(children, n - 1, path);
      ParamsAreUnder(children[n - 1], ChildPath(path, n - 1));
      var earlier, last := ChildParams(children, n - 1, path), ParamsOf(children[n - 1], ChildPath(path, n - 1));
      forall key | key in earlier + last
        ensures Under(key, path) && UnderAChild(key, path, n)
      {
        if key in last {
          UnderChildIsUnder(key, path, n - 1);
        }
      }
    }
  }

  /** No child overwrites a parameter of a sibling. */
  lemma {:induction false} ChildParamsKeepEachChild(children: seq<Match>, n: nat, path: string, i: nat)
    requires i < n <= |children|
    ensures Included(ParamsOf(children[i], ChildPath(path, i)), ChildParams(children, n, path))
    decreases n
  {
    if i < n - 1 {
      ChildParamsKeepEachChild(children, n - 1, path, i);
      ParamsAreUnder(children[i], ChildPath(path, i));
      ParamsAreUnder(children[n - 1], ChildPath(path, n - 1));
      forall key | key in ParamsOf(children[i], ChildPath(path, i))
        ensures key !in ParamsOf(children[n - 1], ChildPath(path, n - 1))
      {
        if key in ParamsOf(children[n - 1], ChildPath(path, n - 1)) {
          SiblingsAreApart(key, path, i, n - 1);
        }
      }
    }
  }

  lemma {:induction false} ParamsKeepOwnAndChildren(m: Match, path: string)
    ensures Included(FieldParams(m, path, FIELDS), ParamsOf(m, path))
    ensures forall i: nat | i < |m.children| :: Included(ParamsOf(m.children[i], ChildPath(path, i)), ParamsOf(m, path))
  {
    FieldParamsAreUnder(m, path);
    ChildParamsAreUnder(m.children, |m.children|, path);
    forall i: nat | i < |m.children|
      ensures Included(ParamsOf(m.children[i], ChildPath(path, i)), ParamsOf(m, path))
    {
      ChildParamsKeepEachChild(m.children, |m.children|, path, i);
    }
  }

  /** What a match with descriptors binds behind `obj` is their object, whatever else it and its children bind. */
  lemma {:induction false} ObjectIsBound(m: Match, path: string)
    requires m.descriptors != []
    ensures FieldKey("obj", path) in ParamsOf(m, path)
    ensures var bound := ParamsOf(m, path)[FieldKey("obj", path)]; bound.Json? && IsObjectOf(bound.o, m.descriptors)
  {
    ParamsKeepOwnAndChildren(m, path);
    FieldParamAt(m, path, ObjectField);
    CandidateIsTheObject(m.descriptors);
  }

  // ------------------------------------------------------------------------------------------------------------
  // The query over rows means the match on the forest
  // ------------------------------------------------------------------------------------------------------------

  lemma {:induction false} FieldCondsMembers(m: Match, path: string, fields: seq<PortField>, c: Cond)
    ensures c in FieldConds(m, path, fields) <==> exists field | field in fields :: c in FieldCond(m, path, field)
  {
    if fields != [] {
      FieldCondsMembers(m, path, fields[..|fields| - 1], c);
      assert fields == fields[..|fields| - 1] + [Last(fields)];
    }
  }

  lemma {:induction false} ChildCondsMembers(children: seq<Match>, n: nat, table: Side, path: string)
    requires n <= |children|
    ensures forall i: nat | i < n :: ChildConds(children, n, table, path)[i] == CondOf(children[i], table, Some(Alias(path)), ChildPath(path, i))
    decreases n
  {
    if n > 0 {
      ChildCondsMembers(children, n - 1, table, path);
    }
  }

  /** The field clauses compare exactly the fields the match sets. */
  lemma {:induction false} FieldsMean(world: World, action: ActionRow, rows: map<string, Row>, params: Params,
        m: Match, path: string, node: Unsaved)
    requires Alias(path) in rows && rows[Alias(path)] == Saved(node, rows[Alias(path)].id, rows[Alias(path)].action)
    requires Included(FieldParams(m, path, FIELDS), params)
    ensures Hold(world, action, rows, params, FieldConds(m, path, FIELDS))
      <==> PortMatches(world.accepts, node.port, node.index, m.(children := []))
  {
    var row := rows[Alias(path)];
    forall field: PortField
      ensures Hold(world, action, rows, params, FieldCond(m, path, field))
        <==> FieldHolds(world.accepts, row, m, field)
    {
      if Asked(m, field).Some? {
        FieldParamAt(m, path, field);
        var c := FieldIs(Alias(path), field, FieldKey(PortFieldName(field), path));
        assert FieldCond(m, path, field) == [c] && c in [c];
      }
    }
    HoldFields(world, action, rows, params, m, path);
    FieldsAgree(world.accepts, row, m, node);
  }

  lemma {:induction false} HoldFields(world: World, action: ActionRow, rows: map<string, Row>, params: Params, m: Match, path: string)
    ensures Hold(world, action, rows, params, FieldConds(m, path, FIELDS))
      <==> forall field: PortField :: Hold(world, action, rows, params, FieldCond(m, path, field))
  {
    forall field: PortField
      ensures field in FIELDS
    {
      AllFields(field);
    }
    forall c: Cond
      ensures c in FieldConds(m, path, FIELDS) <==> exists field | field in FIELDS :: c in FieldCond(m, path, field)
    {
      FieldCondsMembers(m, path, FIELDS, c);
    }
  }

  predicate FieldHolds(accepts: (string, Candidate) -> Truth, row: Row, m: Match, field: PortField) {
    Asked(m, field).Some? ==> FieldTruth(accepts, row, field, Asked(m, field).value) == Yes
  }

  predicate AllFieldsHold(accepts: (string, Candidate) -> Truth, row: Row, m: Match) {
    && FieldHolds(accepts, row, m, AtField) && FieldHolds(accepts, row, m, KeyField) && FieldHolds(accepts, row, m, KindField)
    && FieldHolds(accepts, row, m, IdentifierField) && FieldHolds(accepts, row, m, DimensionField)
    && FieldHolds(accepts, row, m, NullableField) && FieldHolds(accepts, row, m, ObjectField)
  }

  lemma {:induction false} NamedFieldsAgree(accepts: (string, Candidate) -> Truth, row: Row, m: Match, node: Unsaved)
    requires row == Saved(node, row.id, row.action)
    ensures AllFieldsHold(accepts, row, m) <==> PortMatches(accepts, node.port, node.index, m.(children := []))
  {
    if node.port.constraint.Some? {
      AcceptsCandidate(accepts, node.port.constraint.value, m.descriptors);
    }
  }

  lemma {:induction false} FieldsAgree(accepts: (string, Candidate) -> Truth, row: Row, m: Match, node: Unsaved)
    requires row == Saved(node, row.id, row.action)
    ensures (forall field: PortField :: FieldHolds(accepts, row, m, field))
      <==> PortMatches(accepts, node.port, node.index, m.(children := []))
  {
    NamedFieldsAgree(accepts, row, m, node);
    if AllFieldsHold(accepts, row, m) {
      forall field: PortField
        ensures FieldHolds(accepts, row, m, field)
      {
        match field
        case AtField => case KeyField => case KindField => case IdentifierField =>
        case DimensionField => case NullableField => case ObjectField =>
      }
    }
  }

  lemma {:induction false} HoldConcat(world: World, action: ActionRow, rows: map<string, Row>, params: Params,
        a: seq<Cond>, b: seq<Cond>)
    ensures Hold(world, action, rows, params, a + b)
      <==> Hold(world, action, rows, params, a) && Hold(world, action, rows, params, b)
  {
    if Hold(world, action, rows, params, a + b) {
      forall c | c in a || c in b
        ensures Eval(world, action, rows, params, c) == Yes
      {
        assert c in a + b;
      }
    }
  }

  /** The clauses of a match, read at the row of a port, hold exactly when the port matches. */
  lemma {:induction false} NodeMeans(world: World, action: ActionRow, rows: map<string, Row>, params: Params,
                                     m: Match, table: Side, path: string, forest: seq<Port>, layout: Layout, node: Unsaved)
    requires LaidOut(world.Rows(table), action.id, forest, layout)
    requires Alias(path) in rows && layout.Has(rows[Alias(path)].id) && layout.At(rows[Alias(path)].id) == node
    requires rows[Alias(path)] == Saved(node, rows[Alias(path)].id, action.id)
    requires Included(ParamsOf(m, path), params)
    ensures Hold(world, action, rows, params, FieldConds(m, path, FIELDS) + ChildConds(m.children, |m.children|, table, path))
      <==> PortMatches(world.accepts, node.port, node.index, m)
    decreases m, 0
  {
    ParamsKeepOwnAndChildren(m, path);
    FieldsMean(world, action, rows, params, m, path, node);
    HoldConcat(world, action, rows, params, FieldConds(m, path, FIELDS), ChildConds(m.children, |m.children|, table, path));
    ChildCondsMembers(m.children, |m.children|, table, path);
    forall i: nat | i < |m.children|
      ensures Eval(world, action, rows, params, ChildConds(m.children, |m.children|, table, path)[i]) == Yes
        <==> ForestMatches(world.accepts, node.port.children, m.children[i])
    {
      ChildMeans(world, action, rows, params, m.children[i], table, path, i, forest, layout, node);
    }
    ChildrenMean(world, action, rows, params, m, table, path, node);
  }

  lemma {:induction false} ChildrenMean(world: World, action: ActionRow, rows: map<string, Row>, params: Params,
        m: Match, table: Side, path: string, node: Unsaved)
    requires |ChildConds(m.children, |m.children|, table, path)| == |m.children|
    requires forall i: nat | i < |m.children| ::
      (Eval(world, action, rows, params, ChildConds(m.children, |m.children|, table, path)[i]) == Yes
       <==> ForestMatches(world.accepts, node.port.children, m.children[i]))
    ensures Hold(world, action, rows, params, ChildConds(m.children, |m.children|, table, path))
      <==> forall c | c in m.children :: ForestMatches(world.accepts, node.port.children, c)
  {
    var conds := ChildConds(m.children, |m.children|, table, path);
    if forall c | c in m.children :: ForestMatches(world.accepts, node.port.children, c) {
      forall c | c in conds
        ensures Eval(world, action, rows, params, c) == Yes
      {
        var i: nat :| i < |conds| && conds[i] == c;
        assert m.children[i] in m.children;
      }
    }
    if Hold(world, action, rows, params, conds) {
      forall i: nat | i < |m.children|
        ensures ForestMatches(world.accepts, node.port.children, m.children[i])
      {
        assert conds[i] in conds;
      }
    }
  }

  lemma {:induction false} AliasesDiffer(path: string, n: nat)
    ensures Alias(ChildPath(path, n)) != Alias(path)
  {
    assert |Alias(ChildPath(path, n))| > |Alias(path)|;
  }

  /** A nested EXISTS, read at the row of a port, holds exactly when one of the port's children matches. */
  lemma {:induction false} ChildMeans(world: World, action: ActionRow, rows: map<string, Row>, params: Params,
                                      m: Match, table: Side, path: string, n: nat, forest: seq<Port>, layout: Layout, node: Unsaved)
    requires LaidOut(world.Rows(table), action.id, forest, layout)
    requires Alias(path) in rows && layout.Has(rows[Alias(path)].id) && layout.At(rows[Alias(path)].id) == node
    requires Included(ParamsOf(m, ChildPath(path, n)), params)
    ensures Eval(world, action, rows, params, CondOf(m, table, Some(Alias(path)), ChildPath(path, n))) == Yes
      <==> ForestMatches(world.accepts, node.port.children, m)
    decreases m, 1
  {
    var id := rows[Alias(path)].id;
    var under, kids := ChildRows(world.Rows(table), id), Kids(node, id);
    var alias := Alias(ChildPath(path, n));
    ChildRowsFrom(world.Rows(table), id);
    assert Show(under, kids, action.id, layout);
    AliasesDiffer(path, n);
    forall row | row in world.Rows(table)
      ensures Hold(world, action, rows[alias := row], params, Anchor(alias, Some(Alias(path)))) <==> row in under
    {
      AnchorUnder(world, action, rows[alias := row], params, alias, Alias(path));
    }
    forall i: nat | i < |under|
      ensures Hold(world, action, rows[alias := under[i]], params,
                   FieldConds(m, ChildPath(path, n), FIELDS) + ChildConds(m.children, |m.children|, table, ChildPath(path, n)))
        <==> PortMatches(world.accepts, node.port.children[i], i, m)
    {
      NodeMeans(world, action, rows[alias := under[i]], params, m, table, ChildPath(path, n), forest, layout, kids[i]);
    }
    SomeRowMatches(world, action, rows, params, m, table, Some(Alias(path)), ChildPath(path, n), under, node.port.children);
  }

  lemma {:induction false} AnchorUnder(world: World, action: ActionRow, rows: map<string, Row>, params: Params,
        alias: string, parentAlias: string)
    requires alias in rows && parentAlias in rows
    ensures Hold(world, action, rows, params, Anchor(alias, Some(parentAlias)))
      <==> rows[alias].parent == Some(rows[parentAlias].id)
  {
    var c := UnderRow(alias, parentAlias);
    assert Anchor(alias, Some(parentAlias)) == [c] && c in [c];
  }

  lemma {:induction false} AnchorRoot(world: World, action: ActionRow, rows: map<string, Row>, params: Params, alias: string)
    requires alias in rows
    ensures Hold(world, action, rows, params, Anchor(alias, None)) <==> rows[alias].action == action.id && rows[alias].parent.None?
  {
    var c, d := OfAction(alias), IsRoot(alias);
    assert Anchor(alias, None) == [c, d] && c in [c, d] && d in [c, d];
  }

  /** An EXISTS whose anchor singles out the rows of a list of ports. */
  lemma {:induction false} SomeRowMatches(world: World, action: ActionRow, rows: map<string, Row>, params: Params,
        m: Match, table: Side,
                       parentAlias: Option<string>, path: string, anchored: seq<Row>, ports: seq<Port>)
    requires |anchored| == |ports|
    requires forall row | row in anchored :: row in world.Rows(table)
    requires forall row | row in world.Rows(table) ::
      Hold(world, action, rows[Alias(path) := row], params, Anchor(Alias(path), parentAlias)) <==> row in anchored
    requires forall i: nat | i < |anchored| ::
      (Hold(world, action, rows[Alias(path) := anchored[i]], params, FieldConds(m, path, FIELDS) + ChildConds(m.children, |m.children|, table, path))
       <==> PortMatches(world.accepts, ports[i], i, m))
    ensures Eval(world, action, rows, params, CondOf(m, table, parentAlias, path)) == Yes <==> ForestMatches(world.accepts, ports, m)
  {
    var anchor, rest := Anchor(Alias(path), parentAlias), FieldConds(m, path, FIELDS) + ChildConds(m.children, |m.children|, table, path);
    var cond := CondOf(m, table, parentAlias, path);
    assert cond.conds == anchor + rest;
    forall row | row in world.Rows(table)
      ensures Hold(world, action, rows[Alias(path) := row], params, cond.conds)
        <==> row in anchored && Hold(world, action, rows[Alias(path) := row], params, rest)
    {
      HoldConcat(world, action, rows[Alias(path) := row], params, anchor, rest);
    }
    ExistsMeans(world, action, rows, params, cond);
    if Eval(world, action, rows, params, cond) == Yes {
      var row :| row in world.Rows(table) && Hold(world, action, rows[Alias(path) := row], params, cond.conds);
      var i: nat :| i < |anchored| && anchored[i] == row;
      assert PortMatches(world.accepts, ports[i], i, m);
    }
    if ForestMatches(world.accepts, ports, m) {
      var i: nat :| i < |ports| && PortMatches(world.accepts, ports[i], i, m);
      assert anchored[i] in anchored;
      assert Hold(world, action, rows[Alias(path) := anchored[i]], params, cond.conds);
    }
  }

  lemma {:induction false} ExistsMeans(world: World, action: ActionRow, rows: map<string, Row>, params: Params, cond: Cond)
    requires cond.Exists?
    ensures Eval(world, action, rows, params, cond) == Yes
      <==> exists row | row in world.Rows(cond.table) :: Hold(world, action, rows[cond.alias := row], params, cond.conds)
  {
    var found := exists row | row in world.Rows(cond.table) ::
      (forall c | c in cond.conds :: Eval(world, action, rows[cond.alias := row], params, c) == Yes);
    assert Eval(world, action, rows, params, cond) == Is(found);
    if found {
      var row :| row in world.Rows(cond.table)
        && (forall c | c in cond.conds :: Eval(world, action, rows[cond.alias := row], params, c) == Yes);
      assert Hold(world, action, rows[cond.alias := row], params, cond.conds);
    }
  }

  /** For every forest, every match tree and every dictionary that still holds the match's parameters, the clause over
      the rows is true exactly when the match holds on the forest, and it is never unknown. */
  lemma {:induction false} MatchMeans(world: World, action: ActionRow, params: Params, m: Match, table: Side,
        path: string, forest: seq<Port>, layout: Layout)
    requires LaidOut(world.Rows(table), action.id, forest, layout)
    requires Included(ParamsOf(m, path), params)
    ensures Eval(world, action, map[], params, CondOf(m, table, None, path)) == Is(ForestMatches(world.accepts, forest, m))
  {
    var alias, roots, ports := Alias(path), RootRows(world.Rows(table), action.id), Roots(forest);
    assert Show(roots, ports, action.id, layout);
    RootsAnchored(world, action, params, table, alias);
    forall i: nat | i < |roots|
      ensures Hold(world, action, map[][alias := roots[i]], params, FieldConds(m, path, FIELDS) + ChildConds(m.children, |m.children|, table, path))
        <==> PortMatches(world.accepts, forest[i], i, m)
    {
      RootMeans(world, action, params, m, table, path, forest, layout, roots, i);
    }
    SomeRowMatches(world, action, map[], params, m, table, None, path, roots, forest);
  }

  lemma {:induction false} RootMeans(world: World, action: ActionRow, params: Params, m: Match, table: Side,
        path: string, forest: seq<Port>, layout: Layout,
                                     roots: seq<Row>, i: nat)
    requires LaidOut(world.Rows(table), action.id, forest, layout) && Included(ParamsOf(m, path), params)
    requires Show(roots, Roots(forest), action.id, layout) && i < |roots|
    ensures Hold(world, action, map[][Alias(path) := roots[i]], params,
      FieldConds(m, path, FIELDS) + ChildConds(m.children, |m.children|, table, path))
      <==> PortMatches(world.accepts, forest[i], i, m)
  {
    NodeMeans(world, action, map[][Alias(path) := roots[i]], params, m, table, path, forest, layout, Roots(forest)[i]);
  }

  lemma {:induction false} RootsAnchored(world: World, action: ActionRow, params: Params, table: Side, alias: string)
    ensures forall row | row in world.Rows(table) ::
      (Hold(world, action, map[][alias := row], params, Anchor(alias, None)) <==> row in RootRows(world.Rows(table), action.id))
    ensures forall row | row in RootRows(world.Rows(table), action.id) :: row in world.Rows(table)
  {
    RootRowsFrom(world.Rows(table), action.id);
    forall row | row in world.Rows(table)
      ensures Hold(world, action, map[][alias := row], params, Anchor(alias, None)) <==> row in RootRows(world.Rows(table), action.id)
    {
      AnchorRoot(world, action, map[][alias := row], params, alias);
    }
  }
}
