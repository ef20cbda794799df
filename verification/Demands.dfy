/** Demands (facade/managers.py): several port demands become one conjunction, and several action demands become one
    UNION ALL whose branches share a parameter dictionary. */
module Demands {
  import opened Common
  import opened Dictionaries
  import opened Ports
  import opened ParamKeys
  import opened PortQuery

  /** The text of a demand's kind: "args", "returns", or anything else. */
  datatype DemandKind = ArgsKind | ReturnsKind | OtherKind(text: string)

  datatype PortDemand = PortDemand(
    kind: DemandKind,
    matches: seq<Match>,
    forceLength: Option<int>,
    forceNonNullable: Option<int>,
    forceStructure: Option<int>)

  datatype ActionDemand = ActionDemand(
    hash: Option<string>,
    key: Option<string>,
    app: Option<string>,
    version: Option<string>,
    name: Option<string>,
    argMatches: seq<Match>,
    returnMatches: seq<Match>,
    forceArgLength: Option<int>,
    forceReturnLength: Option<int>,
    protocols: seq<string>,
    pure: Option<bool>,
    idempotent: Option<bool>,
    stateful: Option<bool>)

  function TableOf(kind: DemandKind): Option<Side> {
    match kind
    case ArgsKind => Some(Args)
    case ReturnsKind => Some(Returns)
    case OtherKind(_) => None
  }

  /** Empty strings count as not given. */
  predicate Given(text: Option<string>) {
    text.Some? && text.value != ""
  }

  function Forest(definition: Definition, table: Side): seq<Port> {
    if table.Args? then definition.args else definition.results
  }

  function CountPorts(forest: seq<Port>, count: ForcedCount): nat {
    if forest == [] then 0
    else CountPorts(forest[..|forest| - 1], count) + if Counts(count, Last(forest).nullable, Last(forest).kind) then 1 else 0
  }

  function NonNullablePorts(forest: seq<Port>): nat {
    if forest == [] then 0 else NonNullablePorts(forest[..|forest| - 1]) + if Last(forest).nullable then 0 else 1
  }

  function StructurePorts(forest: seq<Port>): nat {
    if forest == [] then 0 else StructurePorts(forest[..|forest| - 1]) + if Last(forest).kind == STRUCTURE then 1 else 0
  }

  lemma {:induction false} CountsByName(forest: seq<Port>)
    ensures CountPorts(forest, AllPorts) == |forest|
    ensures CountPorts(forest, NonNullable) == NonNullablePorts(forest)
    ensures CountPorts(forest, Structures) == StructurePorts(forest)
  {
    if forest != [] {
      CountsByName(forest[..|forest| - 1]);
    }
  }

  // ------------------------------------------------------------------------------------------------------------
  // What demands mean
  // ------------------------------------------------------------------------------------------------------------

  ghost predicate AllMatch(accepts: (string, Candidate) -> Truth, forest: seq<Port>, matches: seq<Match>) {
    forall m | m in matches :: ForestMatches(accepts, forest, m)
  }

  /** A demand of kind "args" speaks of the arguments, one of kind "returns" of the returns. */
  ghost predicate PortDemandHolds(accepts: (string, Candidate) -> Truth, definition: Definition, d: PortDemand)
    requires !d.kind.OtherKind?
  {
    var forest := if d.kind.ArgsKind? then definition.args else definition.results;
    && AllMatch(accepts, forest, d.matches)
    && (d.forceLength.Some? ==> |forest| == d.forceLength.value)
    && (d.forceNonNullable.Some? ==> NonNullablePorts(forest) == d.forceNonNullable.value)
    && (d.forceStructure.Some? ==> StructurePorts(forest) == d.forceStructure.value)
  }

  /** A hash identifies the action and silences every other field. */
  ghost predicate ActionDemandHolds(accepts: (string, Candidate) -> Truth, action: ActionRow, definition: Definition,
        d: ActionDemand) {
    if d.hash.Some? && d.hash.value != "" then action.hash == d.hash.value
    else
      && Identifies(action, d)
      && AllMatch(accepts, definition.args, d.argMatches)
      && AllMatch(accepts, definition.results, d.returnMatches)
      && (d.forceArgLength.Some? ==> |definition.args| == d.forceArgLength.value)
      && (d.forceReturnLength.Some? ==> |definition.results| == d.forceReturnLength.value)
      && Qualifies(action, d)
  }

  predicate Identifies(action: ActionRow, d: ActionDemand) {
    && (d.key.Some? && d.key.value != "" ==> action.key == d.key.value)
    && (d.app.Some? && d.app.value != "" ==> action.app == d.app.value)
    && (d.version.Some? && d.version.value != "" ==> action.version == d.version.value)
    && (d.name.Some? && d.name.value != "" ==> action.name == d.name.value)
  }

  predicate Qualifies(action: ActionRow, d: ActionDemand) {
    && (forall p | p in d.protocols :: p in action.protocols)
    && (d.pure.Some? ==> action.pure == d.pure.value)
    && (d.idempotent.Some? ==> action.idempotent == d.idempotent.value)
    && (d.stateful.Some? ==> action.stateful == d.stateful.value)
  }

  predicate InOrganization(action: ActionRow, organization: Option<string>) {
    organization.Some? ==> action.organization == organization.value
  }

  // ------------------------------------------------------------------------------------------------------------
  // The clauses of a demand
  // ------------------------------------------------------------------------------------------------------------

  /** One top-level clause with the value it binds. */
  datatype Item =
    | Matching(tag: Label, table: Side, m: Match)
    | Comparing(tag: Label, column: ActionColumn, value: Value)
    | Counting(tag: Label, table: Side, count: ForcedCount, n: int)
    | Implementing(tag: Label, protocol: string)

  function Clause(item: Item): Cond {
    match item
    case Matching(tag, table, m) => CondOf(m, table, None, Name(tag))
    case Comparing(tag, column, _) => ActionIs(column, Name(tag))
    case Counting(tag, table, count, _) => RootCount(table, count, Name(tag))
    case Implementing(tag, _) => HasProtocol(Name(tag))
  }

  function Binding(item: Item): Params {
    match item
    case Matching(tag, _, m) => ParamsOf(m, Name(tag))
    case Comparing(tag, _, value) => map[Name(tag) := value]
    case Counting(tag, _, _, n) => map[Name(tag) := Number(n)]
    case Implementing(tag, protocol) => map[Name(tag) := Text(protocol)]
  }

  function Clauses(items: seq<Item>): seq<Cond> {
    Each(Clause, items)
  }

  /** A statement: one or more selects over the action table, each with its WHERE clauses, and the shared dictionary. */
  datatype Statement = Statement(selects: seq<seq<Cond>>, params: Params)

  function BindingList(items: seq<Item>): seq<Params> {
    Each(Binding, items)
  }

  /** What the items leave in the dictionary. */
  function Bindings(items: seq<Item>): Params {
    Merge(BindingList(items))
  }

  datatype Place = InAction(demand: nat, side: Side) | InPorts(demand: nat)

  function MatchLabel(place: Place, position: nat): Label {
    match place
    case InAction(demand, side) => ActionMatch(demand, side, position)
    case InPorts(demand) => PortMatch(demand, position)
  }

  /** The items of the first `n` matches. */
  function MatchItems(matches: seq<Match>, n: nat, place: Place, table: Side): seq<Item>
    requires n <= |matches|
  {
    seq(n, i requires 0 <= i < n => Matching(MatchLabel(place, i), table, matches[i]))
  }

  function ProtocolItems(protocols: seq<string>, n: nat, demand: nat): seq<Item>
    requires n <= |protocols|
  {
    seq(n, i requires 0 <= i < n => Implementing(Protocol(demand, i), protocols[i]))
  }

  function TextItem(demand: nat, field: DemandField, column: ActionColumn, text: Option<string>): seq<Item> {
    if Given(text) then [Comparing(Named(demand, field), column, Text(text.value))] else []
  }

  function NumberItem(tag: Label, column: ActionColumn, n: Option<int>): seq<Item> {
    if n.Some? then [Comparing(tag, column, Number(n.value))] else []
  }

  function FlagItem(demand: nat, field: DemandField, column: ActionColumn, b: Option<bool>): seq<Item> {
    if b.Some? then [Comparing(Named(demand, field), column, Flag(b.value))] else []
  }

  function CountItem(demand: nat, table: Side, count: ForcedCount, n: Option<int>): seq<Item> {
    if n.Some? then [Counting(Forced(demand, count), table, count, n.value)] else []
  }

  function OrganizationItem(organization: Option<string>): seq<Item> {
    if organization.None? then [] else [Comparing(Organization, OrganizationId, Text(organization.value))]
  }

  function IdentityItems(d: ActionDemand, i: nat): seq<Item> {
    TextItem(i, Key, KeyColumn, d.key) + TextItem(i, App, AppIdentifier, d.app)
    + TextItem(i, Version, VersionColumn, d.version) + TextItem(i, ActionName, NameColumn, d.name)
  }

  function StructureItems(d: ActionDemand, i: nat): seq<Item> {
    MatchItems(d.argMatches, |d.argMatches|, InAction(i, Args), Args) + MatchItems(d.returnMatches, |d.returnMatches|, InAction(i, Returns), Returns)
    + NumberItem(Named(i, ForceArgLength), ArgCount, d.forceArgLength)
    + NumberItem(Named(i, ForceReturnLength), ReturnCount, d.forceReturnLength)
  }

  function QualityItems(d: ActionDemand, i: nat): seq<Item> {
    ProtocolItems(d.protocols, |d.protocols|, i) + FlagItem(i, Pure, PureColumn, d.pure)
    + FlagItem(i, Idempotent, IdempotentColumn, d.idempotent) + FlagItem(i, Stateful, StatefulColumn, d.stateful)
  }

  function ActionItems(d: ActionDemand, i: nat): seq<Item> {
    if Given(d.hash) then TextItem(i, Hash, HashColumn, d.hash)
    else DetailItems(d, i)
  }

  function DetailItems(d: ActionDemand, i: nat): seq<Item> {
    IdentityItems(d, i) + StructureItems(d, i) + QualityItems(d, i)
  }

  function PortItems(d: PortDemand, i: nat): seq<Item> {
    if TableOf(d.kind).None? then []
    else
      var table := TableOf(d.kind).value;
      MatchItems(d.matches, |d.matches|, InPorts(i), table)
      + NumberItem(Forced(i, AllPorts), if table.Args? then ArgCount else ReturnCount, d.forceLength)
      + CountItem(i, table, NonNullable, d.forceNonNullable) + CountItem(i, table, Structures, d.forceStructure)
  }

  /** One select tests the organization, if given, and one action demand. */
  function SelectItems(d: ActionDemand, i: nat, organization: Option<string>): seq<Item> {
    OrganizationItem(organization) + ActionItems(d, i)
  }

  function ActionGroups(demands: seq<ActionDemand>): seq<seq<Item>> {
    seq(|demands|, i requires 0 <= i < |demands| => ActionItems(demands[i], i))
  }

  function PortGroups(demands: seq<PortDemand>): seq<seq<Item>> {
    seq(|demands|, i requires 0 <= i < |demands| => PortItems(demands[i], i))
  }

  /** What the selects of the first `n` demands bind together. */
  function UnionItems(demands: seq<ActionDemand>, n: nat, organization: Option<string>): seq<Item>
    requires n <= |demands|
  {
    Concat(OrganizationItem(organization), ActionGroups(demands), n)
  }

  /** The organization and the first `n` port demands, all in one select. */
  function ConjunctionItems(demands: seq<PortDemand>, n: nat, organization: Option<string>): seq<Item>
    requires n <= |demands|
  {
    Concat(OrganizationItem(organization), PortGroups(demands), n)
  }

  predicate NoneRefused(matches: seq<Match>) {
    forall m | m in matches :: !Refused(m, true)
  }

  predicate AsksNothing(d: ActionDemand) {
    && !Given(d.key) && !Given(d.app) && !Given(d.version) && !Given(d.name)
    && d.argMatches == [] && d.returnMatches == [] && d.forceArgLength.None? && d.forceReturnLength.None?
    && d.protocols == [] && d.pure.None? && d.idempotent.None? && d.stateful.None?
  }

  /** The demand cannot become clauses: a match is refused, or nothing is asked. */
  predicate ActionDemandFails(d: ActionDemand) {
    !Given(d.hash) && (!NoneRefused(d.argMatches) || !NoneRefused(d.returnMatches) || AsksNothing(d))
  }

  predicate PortDemandFails(d: PortDemand) {
    TableOf(d.kind).None? || !NoneRefused(d.matches)
  }

  predicate NoneFails(demands: seq<PortDemand>, n: nat)
    requires n <= |demands|
  {
    forall i | 0 <= i < n :: !PortDemandFails(demands[i])
  }

  predicate EachAsks(demands: seq<ActionDemand>, n: nat)
    requires n <= |demands|
  {
    forall i | 0 <= i < n :: !ActionDemandFails(demands[i])
  }

  // ------------------------------------------------------------------------------------------------------------
  // The builders
  // ------------------------------------------------------------------------------------------------------------

  lemma {:induction false} ClausesSnoc(items: seq<Item>, item: Item)
    ensures Clauses(items + [item]) == Clauses(items) + [Clause(item)]
  {
    EachAppend(Clause, items, [item]);
    EachOne(Clause, item);
  }

  lemma {:induction false} BindingsAppend(a: seq<Item>, b: seq<Item>)
    ensures Bindings(a + b) == Bindings(a) + Bindings(b)
  {
    EachAppend(Binding, a, b);
    MergeAppend(BindingList(a), BindingList(b));
  }

  lemma {:induction false} BindingsOfOne(item: Item)
    ensures Bindings([item]) == Binding(item)
  {
    EachOne(Binding, item);
    MergeOne(Binding(item));
  }

  lemma {:induction false} BindingsSnoc(params: Params, items: seq<Item>, item: Item)
    ensures params + Bindings(items + [item]) == (params + Bindings(items)) + Binding(item)
  {
    EachAppend(Binding, items, [item]);
    EachOne(Binding, item);
    MergeSnoc(params, BindingList(items), Binding(item));
  }

  lemma {:induction false} MatchItemsSnoc(matches: seq<Match>, n: nat, place: Place, table: Side)
    requires n < |matches|
    ensures MatchItems(matches, n + 1, place, table)
      == MatchItems(matches, n, place, table) + [Matching(MatchLabel(place, n), table, matches[n])]
  {
  }

  lemma {:induction false} ProtocolItemsSnoc(protocols: seq<string>, n: nat, demand: nat)
    requires n < |protocols|
    ensures ProtocolItems(protocols, n + 1, demand) == ProtocolItems(protocols, n, demand) + [Implementing(Protocol(demand, n), protocols[n])]
  {
  }

  /** The clauses of one statement under construction; their parameters go into a dictionary it may share. */
  class ClauseList {
    const dict: ParamDict
    var clauses: seq<Cond>
    ghost const base: Params
    ghost var items: seq<Item>

    ghost predicate Valid()
      reads this, dict
    {
      clauses == Clauses(items) && dict.params == base + Bindings(items)
    }

    constructor (dict: ParamDict)
      ensures Valid() && this.dict == dict && items == [] && base == dict.params
    {
      this.dict, clauses, base, items := dict, [], dict.params, [];
    }

    method Append(cond: Cond, ghost item: Item)
      requires clauses == Clauses(items) && dict.params == (base + Bindings(items)) + Binding(item) && cond == Clause(item)
      modifies this
      ensures Valid() && items == old(items) + [item]
    {
      BindingsSnoc(base, items, item);
      ClausesSnoc(items, item);
      clauses := clauses + [cond];
      items := items + [item];
    }

    /** One parameter and the clause that compares it. */
    method Put(item: Item)
      requires Valid() && !item.Matching?
      modifies this, dict
      ensures Valid() && items == old(items) + [item]
    {
      var key := Name(item.tag);
      match item {
        case Comparing(_, column, value) =>
          dict.params := dict.params[key := value];
          Append(ActionIs(column, key), item);
        case Counting(_, table, count, n) =>
          dict.params := dict.params[key := Number(n)];
          Append(RootCount(table, count, key), item);
        case Implementing(_, protocol) =>
          dict.params := dict.params[key := Text(protocol)];
          Append(HasProtocol(key), item);
      }
    }

    method PutText(demand: nat, field: DemandField, column: ActionColumn, text: Option<string>)
      requires Valid()
      modifies this, dict
      ensures Valid() && items == old(items) + TextItem(demand, field, column, text)
    {
      if Given(text) {
        Put(Comparing(Named(demand, field), column, Text(text.value)));
      }
    }

    method PutNumber(tag: Label, column: ActionColumn, n: Option<int>)
      requires Valid()
      modifies this, dict
      ensures Valid() && items == old(items) + NumberItem(tag, column, n)
    {
      if n.Some? {
        Put(Comparing(tag, column, Number(n.value)));
      }
    }

    method PutFlag(demand: nat, field: DemandField, column: ActionColumn, b: Option<bool>)
      requires Valid()
      modifies this, dict
      ensures Valid() && items == old(items) + FlagItem(demand, field, column, b)
    {
      if b.Some? {
        Put(Comparing(Named(demand, field), column, Flag(b.value)));
      }
    }

    method PutCount(demand: nat, table: Side, count: ForcedCount, n: Option<int>)
      requires Valid()
      modifies this, dict
      ensures Valid() && items == old(items) + CountItem(demand, table, count, n)
    {
      if n.Some? {
        Put(Counting(Forced(demand, count), table, count, n.value));
      }
    }

    method PutProtocols(protocols: seq<string>, demand: nat)
      requires Valid()
      modifies this, dict
      ensures Valid() && items == old(items) + ProtocolItems(protocols, |protocols|, demand)
    {
      for i := 0 to |protocols|
        invariant Valid() && items == old(items) + ProtocolItems(protocols, i, demand)
      {
        ProtocolItemsSnoc(protocols, i, demand);
        Put(Implementing(Protocol(demand, i), protocols[i]));
      }
    }

    method PutMatch(m: Match, place: Place, i: nat, table: Side) returns (ok: bool)
      requires Valid()
      modifies this, dict
      ensures ok == !Refused(m, true)
      ensures ok ==> Valid() && items == old(items) + [Matching(MatchLabel(place, i), table, m)]
    {
      var tag := MatchLabel(place, i);
      var cond := dict.BuildMatchExists(m, table, None, Name(tag));
      if cond.Some? {
        Append(cond.value, Matching(tag, table, m));
      }
      ok := cond.Some?;
    }

    /** The EXISTS clauses of a list of root matches, up to the first refused one. */
    method PutMatches(matches: seq<Match>, place: Place, table: Side) returns (ok: bool)
      requires Valid()
      modifies this, dict
      ensures ok == NoneRefused(matches)
      ensures ok ==> Valid() && items == old(items) + MatchItems(matches, |matches|, place, table)
    {
      for i := 0 to |matches|
        invariant Valid() && items == old(items) + MatchItems(matches, i, place, table)
        invariant forall j | 0 <= j < i :: !Refused(matches[j], true)
      {
        MatchItemsSnoc(matches, i, place, table);
        ok := PutMatch(matches[i], place, i, table);
        if !ok {
          return;
        }
      }
      ok := true;
    }

    method PutIdentity(d: ActionDemand, i: nat)
      requires Valid()
      modifies this, dict
      ensures Valid() && items == old(items) + IdentityItems(d, i)
    {
      PutText(i, Key, KeyColumn, d.key);
      PutText(i, App, AppIdentifier, d.app);
      PutText(i, Version, VersionColumn, d.version);
      PutText(i, ActionName, NameColumn, d.name);
      Chain(old(items), TextItem(i, Key, KeyColumn, d.key), TextItem(i, App, AppIdentifier, d.app),
            TextItem(i, Version, VersionColumn, d.version), TextItem(i, ActionName, NameColumn, d.name));
    }

    method PutStructure(d: ActionDemand, i: nat) returns (ok: bool)
      requires Valid()
      modifies this, dict
      ensures ok == (NoneRefused(d.argMatches) && NoneRefused(d.returnMatches))
      ensures ok ==> Valid() && items == old(items) + StructureItems(d, i)
    {
      ok := PutMatches(d.argMatches, InAction(i, Args), Args);
      if !ok {
        return;
      }
      ok := PutMatches(d.returnMatches, InAction(i, Returns), Returns);
      if !ok {
        return;
      }
      PutNumber(Named(i, ForceArgLength), ArgCount, d.forceArgLength);
      PutNumber(Named(i, ForceReturnLength), ReturnCount, d.forceReturnLength);
      Chain(old(items), MatchItems(d.argMatches, |d.argMatches|, InAction(i, Args), Args),
            MatchItems(d.returnMatches, |d.returnMatches|, InAction(i, Returns), Returns),
            NumberItem(Named(i, ForceArgLength), ArgCount, d.forceArgLength),
            NumberItem(Named(i, ForceReturnLength), ReturnCount, d.forceReturnLength));
    }

    method PutQualities(d: ActionDemand, i: nat)
      requires Valid()
      modifies this, dict
      ensures Valid() && items == old(items) + QualityItems(d, i)
    {
      PutProtocols(d.protocols, i);
      PutFlag(i, Pure, PureColumn, d.pure);
      PutFlag(i, Idempotent, IdempotentColumn, d.idempotent);
      PutFlag(i, Stateful, StatefulColumn, d.stateful);
      Chain(old(items), ProtocolItems(d.protocols, |d.protocols|, i), FlagItem(i, Pure, PureColumn, d.pure),
            FlagItem(i, Idempotent, IdempotentColumn, d.idempotent), FlagItem(i, Stateful, StatefulColumn, d.stateful));
    }

    method PutDetails(d: ActionDemand, i: nat) returns (ok: bool)
      requires Valid()
      modifies this, dict
      ensures ok == (NoneRefused(d.argMatches) && NoneRefused(d.returnMatches))
      ensures ok ==> Valid() && items == old(items) + DetailItems(d, i)
    {
      PutIdentity(d, i);
      ok := PutStructure(d, i);
      if ok {
        PutQualities(d, i);
        ChainThree(old(items), IdentityItems(d, i), StructureItems(d, i), QualityItems(d, i));
      }
    }

    /** All clauses of one action demand; fails on a refused match, and when the demand asks for nothing. */
    method PutActionDemand(d: ActionDemand, i: nat) returns (ok: bool)
      requires Valid() && items == []
      modifies this, dict
      ensures ok == !ActionDemandFails(d)
      ensures ok ==> Valid() && items == ActionItems(d, i)
    {
      if Given(d.hash) {
        PutText(i, Hash, HashColumn, d.hash);
      } else {
        ok := PutDetails(d, i);
        if !ok {
          return;
        }
      }
      assert items == ActionItems(d, i);
      NoItemsNoClauses(items);
      AskingNothing(d, i);
      ok := clauses != [];
    }

    /** All clauses of one port demand; fails on an unknown kind and on a refused match. */
    method PutPortDemand(d: PortDemand, i: nat) returns (ok: bool)
      requires Valid()
      modifies this, dict
      ensures ok == !PortDemandFails(d)
      ensures ok ==> Valid() && items == old(items) + PortItems(d, i)
    {
      if TableOf(d.kind).None? {
        return false;
      }
      var table := TableOf(d.kind).value;
      ok := PutMatches(d.matches, InPorts(i), table);
      if !ok {
        return;
      }
      var column := if table.Args? then ArgCount else ReturnCount;
      PutNumber(Forced(i, AllPorts), column, d.forceLength);
      PutCount(i, table, NonNullable, d.forceNonNullable);
      PutCount(i, table, Structures, d.forceStructure);
      Chain(old(items), MatchItems(d.matches, |d.matches|, InPorts(i), table), NumberItem(Forced(i, AllPorts), column, d.forceLength),
            CountItem(i, table, NonNullable, d.forceNonNullable), CountItem(i, table, Structures, d.forceStructure));
    }

    method PutNextPortDemand(demands: seq<PortDemand>, i: nat, organization: Option<string>) returns (ok: bool)
      requires Valid() && i < |demands| && items == ConjunctionItems(demands, i, organization)
      modifies this, dict
      ensures ok == !PortDemandFails(demands[i])
      ensures ok ==> Valid() && items == ConjunctionItems(demands, i + 1, organization)
    {
      ok := PutPortDemand(demands[i], i);
    }

    /** The clauses of all port demands, up to the first that fails. */
    method PutPortDemands(demands: seq<PortDemand>, organization: Option<string>) returns (ok: bool)
      requires Valid() && items == OrganizationItem(organization)
      modifies this, dict
      ensures ok == NoneFails(demands, |demands|)
      ensures ok ==> Valid() && items == ConjunctionItems(demands, |demands|, organization)
    {
      for i := 0 to |demands|
        invariant Valid() && items == ConjunctionItems(demands, i, organization)
        invariant NoneFails(demands, i)
      {
        ok := PutNextPortDemand(demands, i, organization);
        if !ok {
          return;
        }
      }
      ok := true;
    }
  }

  lemma {:induction false} ChainThree<T>(start: seq<T>, a: seq<T>, b: seq<T>, c: seq<T>)
    ensures start + a + b + c == start + (a + b + c)
  {
  }

  lemma {:induction false} NoItemsNoClauses(items: seq<Item>)
    ensures Clauses(items) == [] <==> items == []
  {
  }

  /** All port demands in one select; fails when a demand does, and when nothing is asked at all. */
  method PortDemandSql(demands: seq<PortDemand>, organization: Option<string>) returns (r: Option<Statement>)
    ensures var items := ConjunctionItems(demands, |demands|, organization);
      r == if !NoneFails(demands, |demands|) || items == [] then None
           else Some(Statement([Clauses(items)], Bindings(items)))
  {
    var dict := new ParamDict();
    var where := new ClauseList(dict);
    if organization.Some? {
      where.Put(Comparing(Organization, OrganizationId, Text(organization.value)));
    }
    var ok := where.PutPortDemands(demands, organization);
    if !ok {
      return None;
    }
    NoItemsNoClauses(where.items);
    if where.clauses == [] {
      return None;
    }
    assert map[] + Bindings(where.items) == Bindings(where.items);
    r := Some(Statement([where.clauses], dict.params));
  }

  /** The selects of the first `n` demands. */
  function Selects(demands: seq<ActionDemand>, n: nat, organization: Option<string>): seq<seq<Cond>>
    requires n <= |demands|
  {
    seq(n, i requires 0 <= i < n => Clauses(SelectItems(demands[i], i, organization)))
  }

  lemma {:induction false} SelectsSnoc(demands: seq<ActionDemand>, n: nat, organization: Option<string>)
    requires n < |demands|
    ensures Selects(demands, n + 1, organization) == Selects(demands, n, organization) + [Clauses(SelectItems(demands[n], n, organization))]
  {
  }

  /** One select of the union; it adds to the shared dictionary. */
  method SelectSql(dict: ParamDict, d: ActionDemand, i: nat, organization: Option<string>) returns (select: Option<seq<Cond>>)
    modifies dict
    ensures select == if ActionDemandFails(d) then None else Some(Clauses(SelectItems(d, i, organization)))
    ensures select.Some? ==> dict.params == old(dict.params) + Bindings(ActionItems(d, i))
  {
    var where := new ClauseList(dict);
    var ok := where.PutActionDemand(d, i);
    if !ok {
      return None;
    }
    SelectClauses(d, i, organization);
    if organization.Some? {
      select := Some([ActionIs(OrganizationId, Name(Organization))] + where.clauses);
    } else {
      select := Some(where.clauses);
    }
  }

  /** The selects and the dictionary after the first `n` demands. */
  predicate Joined(params: Params, selects: seq<seq<Cond>>, demands: seq<ActionDemand>, n: nat, organization: Option<string>)
    requires n <= |demands|
  {
    && EachAsks(demands, n)
    && selects == Selects(demands, n, organization)
    && params == Bindings(UnionItems(demands, n, organization))
  }

  method NextSelect(dict: ParamDict, demands: seq<ActionDemand>, i: nat, organization: Option<string>, ghost selects: seq<seq<Cond>>)
    returns (select: Option<seq<Cond>>)
    requires i < |demands| && Joined(dict.params, selects, demands, i, organization)
    modifies dict
    ensures select.None? ==> !EachAsks(demands, |demands|)
    ensures select.Some? ==> Joined(dict.params, selects + [select.value], demands, i + 1, organization)
  {
    select := SelectSql(dict, demands[i], i, organization);
    BindingsAppend(UnionItems(demands, i, organization), ActionItems(demands[i], i));
    SelectsSnoc(demands, i, organization);
  }

  /** One select per action demand, over one dictionary; fails when a demand does. */
  method UnionOfDemands(demands: seq<ActionDemand>, organization: Option<string>) returns (r: Option<Statement>)
    ensures r == if !EachAsks(demands, |demands|) then None
                 else Some(Statement(Selects(demands, |demands|, organization), Bindings(UnionItems(demands, |demands|, organization))))
  {
    var dict := new ParamDict();
    if organization.Some? {
      dict.params := dict.params[Name(Organization) := Text(organization.value)];
    }
    OrganizationBinding(organization);
    r := UnionFrom(dict, demands, organization);
  }

  method UnionFrom(dict: ParamDict, demands: seq<ActionDemand>, organization: Option<string>) returns (r: Option<Statement>)
    requires Joined(dict.params, [], demands, 0, organization)
    modifies dict
    ensures r.None? <==> !EachAsks(demands, |demands|)
    ensures r.Some? ==> Joined(r.value.params, r.value.selects, demands, |demands|, organization)
  {
    var selects := [];
    for i := 0 to |demands|
      invariant Joined(dict.params, selects, demands, i, organization)
    {
      var select := NextSelect(dict, demands, i, organization, selects);
      if select.None? {
        return None;
      }
      selects := selects + [select.value];
    }
    r := Some(Statement(selects, dict.params));
  }

  lemma {:induction false} OrganizationBinding(organization: Option<string>)
    ensures var items := OrganizationItem(organization);
      Bindings(items) == if organization.None? then map[] else map[Name(Organization) := Text(organization.value)]
  {
    if organization.Some? {
      BindingsOfOne(OrganizationItem(organization)[0]);
    }
  }

  lemma {:induction false} SelectClauses(d: ActionDemand, i: nat, organization: Option<string>)
    ensures organization.None? ==> Clauses(SelectItems(d, i, organization)) == Clauses(ActionItems(d, i))
    ensures organization.Some? ==>
      Clauses(SelectItems(d, i, organization)) == [ActionIs(OrganizationId, Name(Organization))] + Clauses(ActionItems(d, i))
  {
    if organization.None? {
      assert SelectItems(d, i, organization) == ActionItems(d, i);
    } else {
      EachAppend(Clause, OrganizationItem(organization), ActionItems(d, i));
      EachOne(Clause, OrganizationItem(organization)[0]);
    }
  }

  lemma {:induction false} Chain<T>(start: seq<T>, a: seq<T>, b: seq<T>, c: seq<T>, d: seq<T>)
    ensures start + a + b + c + d == start + (a + b + c + d)
  {
  }

  lemma {:induction false} AskingNothing(d: ActionDemand, i: nat)
    ensures ActionItems(d, i) == [] <==> !Given(d.hash) && AsksNothing(d)
  {
    assert IdentityItems(d, i) == [] <==> !Given(d.key) && !Given(d.app) && !Given(d.version) && !Given(d.name);
    assert StructureItems(d, i) == []
      <==> d.argMatches == [] && d.returnMatches == [] && d.forceArgLength.None? && d.forceReturnLength.None?;
    assert QualityItems(d, i) == [] <==> d.protocols == [] && d.pure.None? && d.idempotent.None? && d.stateful.None?;
  }
}
