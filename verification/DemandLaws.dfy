/** What the statements of Demands select. */
module DemandLaws {
  import opened Common
  import opened Dictionaries
  import opened Ports
  import opened ParamKeys
  import opened PortQuery
  import opened Demands

  // ------------------------------------------------------------------------------------------------------------
  // Items and their tags
  // ------------------------------------------------------------------------------------------------------------

  predicate IsItem(item: Item) {
    match item
    case Matching(tag, _, _) => IsMatch(tag)
    case _ => !IsMatch(item.tag)
  }

  /** The item is what action demand `tag.demand`, or the organization, asks under its tag. */
  predicate AskedByActions(demands: seq<ActionDemand>, organization: Option<string>, item: Item) {
    match item.tag
    case Organization => organization.Some? && item == Comparing(item.tag, OrganizationId, Text(organization.value))
    case Named(i, field) => i < |demands| && item in FieldItem(demands[i], i, field)
    case Protocol(i, p) => i < |demands| && p < |demands[i].protocols| && item == Implementing(item.tag, demands[i].protocols[p])
    case ActionMatch(i, side, p) =>
      i < |demands| && p < |MatchesOf(demands[i], side)| && item == Matching(item.tag, side, MatchesOf(demands[i], side)[p])
    case _ => false
  }

  function MatchesOf(d: ActionDemand, side: Side): seq<Match> {
    if side.Args? then d.argMatches else d.returnMatches
  }

  function FieldItem(d: ActionDemand, i: nat, field: DemandField): seq<Item> {
    match field
    case Hash => TextItem(i, Hash, HashColumn, d.hash)
    case Key => TextItem(i, Key, KeyColumn, d.key)
    case App => TextItem(i, App, AppIdentifier, d.app)
    case Version => TextItem(i, Version, VersionColumn, d.version)
    case ActionName => TextItem(i, ActionName, NameColumn, d.name)
    case ForceArgLength => NumberItem(Named(i, ForceArgLength), ArgCount, d.forceArgLength)
    case ForceReturnLength => NumberItem(Named(i, ForceReturnLength), ReturnCount, d.forceReturnLength)
    case Pure => FlagItem(i, Pure, PureColumn, d.pure)
    case Idempotent => FlagItem(i, Idempotent, IdempotentColumn, d.idempotent)
    case Stateful => FlagItem(i, Stateful, StatefulColumn, d.stateful)
  }

  predicate AskedByPorts(demands: seq<PortDemand>, organization: Option<string>, item: Item) {
    match item.tag
    case Organization => organization.Some? && item == Comparing(item.tag, OrganizationId, Text(organization.value))
    case Forced(i, count) => i < |demands| && TableOf(demands[i].kind).Some? && item in ForcedItem(demands[i], i, count)
    case PortMatch(i, p) =>
      i < |demands| && TableOf(demands[i].kind).Some? && p < |demands[i].matches|
      && item == Matching(item.tag, TableOf(demands[i].kind).value, demands[i].matches[p])
    case _ => false
  }

  function ForcedItem(d: PortDemand, i: nat, count: ForcedCount): seq<Item>
    requires TableOf(d.kind).Some?
  {
    var table := TableOf(d.kind).value;
    match count
    case AllPorts => NumberItem(Forced(i, AllPorts), if table.Args? then ArgCount else ReturnCount, d.forceLength)
    case NonNullable => CountItem(i, table, NonNullable, d.forceNonNullable)
    case Structures => CountItem(i, table, Structures, d.forceStructure)
  }

  lemma {:induction false} IdentityIsAsked(demands: seq<ActionDemand>, i: nat, organization: Option<string>, item: Item)
    requires i < |demands| && item in IdentityItems(demands[i], i)
    ensures AskedByActions(demands, organization, item)
  {
  }

  lemma {:induction false} StructureIsAsked(demands: seq<ActionDemand>, i: nat, organization: Option<string>, item: Item)
    requires i < |demands| && item in StructureItems(demands[i], i)
    ensures AskedByActions(demands, organization, item)
  {
    var d := demands[i];
    if item in MatchItems(d.argMatches, |d.argMatches|, InAction(i, Args), Args) {
    } else if item in MatchItems(d.returnMatches, |d.returnMatches|, InAction(i, Returns), Returns) {
    }
  }

  lemma {:induction false} QualityIsAsked(demands: seq<ActionDemand>, i: nat, organization: Option<string>, item: Item)
    requires i < |demands| && item in QualityItems(demands[i], i)
    ensures AskedByActions(demands, organization, item)
  {
    if item in ProtocolItems(demands[i].protocols, |demands[i].protocols|, i) {
    }
  }

  lemma {:induction false} InEither<T>(a: seq<T>, b: seq<T>, x: T)
    ensures x in a + b <==> x in a || x in b
  {
  }

  lemma {:induction false} ActionItemsAreAsked(demands: seq<ActionDemand>, i: nat, organization: Option<string>, item: Item)
    requires i < |demands| && item in ActionItems(demands[i], i)
    ensures AskedByActions(demands, organization, item)
  {
    var d := demands[i];
    if !Given(d.hash) {
      InEither(IdentityItems(d, i) + StructureItems(d, i), QualityItems(d, i), item);
      InEither(IdentityItems(d, i), StructureItems(d, i), item);
      if item in IdentityItems(d, i) {
        IdentityIsAsked(demands, i, organization, item);
      } else if item in StructureItems(d, i) {
        StructureIsAsked(demands, i, organization, item);
      } else {
        QualityIsAsked(demands, i, organization, item);
      }
    }
  }

  lemma {:induction false} UnionItemsAreAsked(demands: seq<ActionDemand>, organization: Option<string>, item: Item)
    requires item in UnionItems(demands, |demands|, organization)
    ensures AskedByActions(demands, organization, item)
  {
    ConcatMembers(OrganizationItem(organization), ActionGroups(demands), |demands|, item);
    if item !in OrganizationItem(organization) {
      var i :| 0 <= i < |demands| && item in ActionGroups(demands)[i];
      ActionItemsAreAsked(demands, i, organization, item);
    }
  }

  lemma {:induction false} PortItemsAreAsked(demands: seq<PortDemand>, i: nat, organization: Option<string>, item: Item)
    requires i < |demands| && item in PortItems(demands[i], i)
    ensures AskedByPorts(demands, organization, item)
  {
    var d := demands[i];
    var table := TableOf(d.kind).value;
    if item in MatchItems(d.matches, |d.matches|, InPorts(i), table) {
    }
  }

  lemma {:induction false} ConjunctionItemsAreAsked(demands: seq<PortDemand>, organization: Option<string>, item: Item)
    requires item in ConjunctionItems(demands, |demands|, organization)
    ensures AskedByPorts(demands, organization, item)
  {
    ConcatMembers(OrganizationItem(organization), PortGroups(demands), |demands|, item);
    if item !in OrganizationItem(organization) {
      var i :| 0 <= i < |demands| && item in PortGroups(demands)[i];
      PortItemsAreAsked(demands, i, organization, item);
    }
  }

  /** Two items with one tag are one item. */
  ghost predicate TagsDecide(items: seq<Item>) {
    && (forall x | x in items :: IsItem(x))
    && (forall x, y | x in items && y in items :: SameStatement(x.tag, y.tag) && (x.tag == y.tag ==> x == y))
  }

  lemma {:induction false} ActionTagsDecide(demands: seq<ActionDemand>, organization: Option<string>, x: Item, y: Item)
    requires AskedByActions(demands, organization, x) && AskedByActions(demands, organization, y)
    ensures IsItem(x) && SameStatement(x.tag, y.tag) && (x.tag == y.tag ==> x == y)
  {
    if x.tag.Named? {
      assert |FieldItem(demands[x.tag.demand], x.tag.demand, x.tag.field)| <= 1;
    }
  }

  lemma {:induction false} PortTagsDecide(demands: seq<PortDemand>, organization: Option<string>, x: Item, y: Item)
    requires AskedByPorts(demands, organization, x) && AskedByPorts(demands, organization, y)
    ensures IsItem(x) && SameStatement(x.tag, y.tag) && (x.tag == y.tag ==> x == y)
  {
  }

  lemma {:induction false} UnionTagsDecide(demands: seq<ActionDemand>, organization: Option<string>)
    ensures TagsDecide(UnionItems(demands, |demands|, organization))
  {
    forall x, y | x in UnionItems(demands, |demands|, organization) && y in UnionItems(demands, |demands|, organization)
      ensures IsItem(x) && SameStatement(x.tag, y.tag) && (x.tag == y.tag ==> x == y)
    {
      UnionItemsAreAsked(demands, organization, x);
      UnionItemsAreAsked(demands, organization, y);
      ActionTagsDecide(demands, organization, x, y);
    }
  }

  lemma {:induction false} ConjunctionTagsDecide(demands: seq<PortDemand>, organization: Option<string>)
    ensures TagsDecide(ConjunctionItems(demands, |demands|, organization))
  {
    forall x, y | x in ConjunctionItems(demands, |demands|, organization) && y in ConjunctionItems(demands, |demands|, organization)
      ensures IsItem(x) && SameStatement(x.tag, y.tag) && (x.tag == y.tag ==> x == y)
    {
      ConjunctionItemsAreAsked(demands, organization, x);
      ConjunctionItemsAreAsked(demands, organization, y);
      PortTagsDecide(demands, organization, x, y);
    }
  }

  // ------------------------------------------------------------------------------------------------------------
  // No parameter overwrites another
  // ------------------------------------------------------------------------------------------------------------

  lemma {:induction false} ItemOwnsItsKeys(item: Item, key: string)
    requires IsItem(item) && key in Binding(item)
    ensures Owns(item.tag, key)
  {
    if item.Matching? {
      ParamsAreUnder(item.m, Name(item.tag));
    }
  }

  /** Each item finds in the shared dictionary just what it put there. */
  lemma {:induction false} ItemsKeepTheirParams(items: seq<Item>, item: Item)
    requires TagsDecide(items) && item in items
    ensures Included(Binding(item), Bindings(items))
  {
    var writes := BindingList(items);
    forall j, k, key | 0 <= j < |writes| && 0 <= k < |writes| && key in writes[j] && key in writes[k]
      ensures writes[j][key] == writes[k][key]
    {
      ItemOwnsItsKeys(items[j], key);
      ItemOwnsItsKeys(items[k], key);
      ClausesShareNoKey(items[j].tag, items[k].tag, key);
    }
    var i: nat :| i < |items| && items[i] == item;
    AgreeingWritersAreKept(writes, i);
  }

  // ------------------------------------------------------------------------------------------------------------
  // What one item tests
  // ------------------------------------------------------------------------------------------------------------

  datatype Placed = Placed(definition: Definition, argLayout: Layout, returnLayout: Layout)

  /** The rows and counts of an action are those of its definition. */
  ghost predicate Registered(world: World, action: ActionRow, placed: Placed) {
    && LaidOut(world.args, action.id, placed.definition.args, placed.argLayout)
    && LaidOut(world.results, action.id, placed.definition.results, placed.returnLayout)
    && action.argCount == |placed.definition.args|
    && action.returnCount == |placed.definition.results|
  }

  ghost predicate ItemHolds(accepts: (string, Candidate) -> Truth, action: ActionRow, definition: Definition, item: Item) {
    match item
    case Matching(_, table, m) => ForestMatches(accepts, Forest(definition, table), m)
    case Comparing(_, column, value) => ActionTruth(action, column, value) == Yes
    case Counting(_, table, count, n) => CountPorts(Forest(definition, table), count) == n
    case Implementing(_, protocol) => protocol in action.protocols
  }

  lemma {:induction false} CountsAgree(rows: seq<Row>, forest: seq<Port>, count: ForcedCount)
    requires |rows| == |forest|
    requires forall i | 0 <= i < |rows| :: rows[i].nullable == forest[i].nullable && rows[i].kind == forest[i].kind
    ensures CountRows(rows, count) == CountPorts(forest, count)
  {
    if rows != [] {
      CountsAgree(rows[..|rows| - 1], forest[..|forest| - 1], count);
    }
  }

  lemma {:induction false} RootCountMeans(world: World, action: ActionRow, placed: Placed, table: Side, count: ForcedCount)
    requires Registered(world, action, placed)
    ensures CountRows(RootRows(world.Rows(table), action.id), count) == CountPorts(Forest(placed.definition, table), count)
  {
    var forest := Forest(placed.definition, table);
    var layout := if table.Args? then placed.argLayout else placed.returnLayout;
    assert Show(RootRows(world.Rows(table), action.id), Roots(forest), action.id, layout);
    CountsAgree(RootRows(world.Rows(table), action.id), forest, count);
  }

  lemma {:induction false} CountingMeans(world: World, action: ActionRow, placed: Placed, params: Params, key: string,
        table: Side, count: ForcedCount, n: int)
    requires Registered(world, action, placed) && key in params && params[key] == Number(n)
    ensures Eval(world, action, map[], params, RootCount(table, count, key)) == Yes <==> CountPorts(Forest(placed.definition, table), count) == n
  {
    RootCountMeans(world, action, placed, table, count);
    CountEvaluates(world, action, params, key, table, count, n, CountPorts(Forest(placed.definition, table), count));
  }

  lemma {:induction false} CountEvaluates(world: World, action: ActionRow, params: Params, key: string, table: Side,
        count: ForcedCount, n: int, counted: nat)
    requires key in params && params[key] == Number(n) && CountRows(RootRows(world.Rows(table), action.id), count) == counted
    ensures Eval(world, action, map[], params, RootCount(table, count, key)) == Yes <==> counted == n
  {
  }

  lemma {:induction false} PlainMeans(world: World, action: ActionRow, params: Params, key: string, value: Value)
    requires key in params && params[key] == value
    ensures forall column :: Eval(world, action, map[], params, ActionIs(column, key)) == ActionTruth(action, column, value)
    ensures value.Text? ==> Eval(world, action, map[], params, HasProtocol(key)) == Is(value.s in action.protocols)
  {
  }

  lemma {:induction false} PlainBinding(item: Item, params: Params)
    requires !item.Matching? && Included(Binding(item), params)
    ensures Name(item.tag) in params
    ensures params[Name(item.tag)]
      == match item case Comparing(_, _, value) => value case Counting(_, _, _, n) => Number(n) case _ => Text(item.protocol)
  {
    assert Name(item.tag) in Binding(item);
  }

  lemma {:induction false} ItemMeans(world: World, action: ActionRow, placed: Placed, params: Params, item: Item)
    requires Registered(world, action, placed) && Included(Binding(item), params)
    ensures Eval(world, action, map[], params, Clause(item)) == Yes
      <==> ItemHolds(world.accepts, action, placed.definition, item)
  {
    match item
    case Matching(tag, table, m) => MatchingMeans(world, action, placed, params, tag, table, m);
    case Counting(tag, table, count, n) =>
      PlainBinding(item, params);
      CountingMeans(world, action, placed, params, Name(tag), table, count, n);
    case Comparing(tag, _, value) =>
      PlainBinding(item, params);
      PlainMeans(world, action, params, Name(tag), value);
    case Implementing(tag, protocol) =>
      PlainBinding(item, params);
      PlainMeans(world, action, params, Name(tag), Text(protocol));
  }

  lemma {:induction false} MatchingMeans(world: World, action: ActionRow, placed: Placed, params: Params, tag: Label,
        table: Side, m: Match)
    requires Registered(world, action, placed) && Included(ParamsOf(m, Name(tag)), params)
    ensures Eval(world, action, map[], params, CondOf(m, table, None, Name(tag))) == Yes
      <==> ForestMatches(world.accepts, Forest(placed.definition, table), m)
  {
    var layout := if table.Args? then placed.argLayout else placed.returnLayout;
    MatchMeans(world, action, params, m, table, Name(tag), Forest(placed.definition, table), layout);
  }

  ghost predicate AllHold(accepts: (string, Candidate) -> Truth, action: ActionRow, definition: Definition, items: seq<Item>) {
    forall item | item in items :: ItemHolds(accepts, action, definition, item)
  }

  lemma {:induction false} ClausesMean(world: World, action: ActionRow, placed: Placed, params: Params, items: seq<Item>)
    requires Registered(world, action, placed) && forall item | item in items :: Included(Binding(item), params)
    ensures Hold(world, action, map[], params, Clauses(items)) <==> AllHold(world.accepts, action, placed.definition, items)
  {
    var conds := Clauses(items);
    forall i | 0 <= i < |items|
      ensures Eval(world, action, map[], params, conds[i]) == Yes <==> ItemHolds(world.accepts, action, placed.definition, items[i])
    {
      assert items[i] in items;
      ItemMeans(world, action, placed, params, items[i]);
    }
    if Hold(world, action, map[], params, conds) {
      forall i | 0 <= i < |items|
        ensures ItemHolds(world.accepts, action, placed.definition, items[i])
      {
        assert conds[i] in conds;
      }
    }
  }

  // ------------------------------------------------------------------------------------------------------------
  // What a demand's items test together
  // ------------------------------------------------------------------------------------------------------------

  lemma {:induction false} AllHoldAppend(accepts: (string, Candidate) -> Truth, action: ActionRow,
        definition: Definition, a: seq<Item>, b: seq<Item>)
    ensures AllHold(accepts, action, definition, a + b)
      <==> AllHold(accepts, action, definition, a) && AllHold(accepts, action, definition, b)
  {
    if AllHold(accepts, action, definition, a + b) {
      forall item | item in a || item in b
        ensures ItemHolds(accepts, action, definition, item)
      {
        assert item in a + b;
      }
    }
  }

  lemma {:induction false} AllHoldFour(accepts: (string, Candidate) -> Truth, action: ActionRow, definition: Definition,
                                       a: seq<Item>, b: seq<Item>, c: seq<Item>, d: seq<Item>)
    ensures AllHold(accepts, action, definition, a + b + c + d)
      <==> && AllHold(accepts, action, definition, a) && AllHold(accepts, action, definition, b)
           && AllHold(accepts, action, definition, c) && AllHold(accepts, action, definition, d)
  {
    AllHoldAppend(accepts, action, definition, a + b + c, d);
    AllHoldAppend(accepts, action, definition, a + b, c);
    AllHoldAppend(accepts, action, definition, a, b);
  }

  lemma {:induction false} AllHoldOne(accepts: (string, Candidate) -> Truth, action: ActionRow, definition: Definition, item: Item)
    ensures AllHold(accepts, action, definition, [item]) <==> ItemHolds(accepts, action, definition, item)
  {
    assert item in [item];
  }

  lemma {:induction false} MatchItemsMean(accepts: (string, Candidate) -> Truth, action: ActionRow, definition: Definition,
                                          matches: seq<Match>, place: Place, table: Side)
    ensures AllHold(accepts, action, definition, MatchItems(matches, |matches|, place, table))
      <==> AllMatch(accepts, Forest(definition, table), matches)
  {
    var items := MatchItems(matches, |matches|, place, table);
    forall i | 0 <= i < |matches|
      ensures items[i] in items && matches[i] in matches
      ensures ItemHolds(accepts, action, definition, items[i]) <==> ForestMatches(accepts, Forest(definition, table), matches[i])
    {
    }
  }

  lemma {:induction false} ProtocolItemsMean(accepts: (string, Candidate) -> Truth, action: ActionRow, definition: Definition,
                                             protocols: seq<string>, i: nat)
    ensures AllHold(accepts, action, definition, ProtocolItems(protocols, |protocols|, i))
      <==> forall p | p in protocols :: p in action.protocols
  {
    var items := ProtocolItems(protocols, |protocols|, i);
    forall k | 0 <= k < |protocols|
      ensures items[k] in items && protocols[k] in protocols
      ensures ItemHolds(accepts, action, definition, items[k]) <==> protocols[k] in action.protocols
    {
    }
  }

  lemma {:induction false} TextItemMeans(accepts: (string, Candidate) -> Truth, action: ActionRow, definition: Definition,
                                         i: nat, field: DemandField, column: ActionColumn, text: Option<string>)
    ensures AllHold(accepts, action, definition, TextItem(i, field, column, text))
      <==> (Given(text) ==> ActionTruth(action, column, Text(text.value)) == Yes)
  {
    if Given(text) {
      AllHoldOne(accepts, action, definition, Comparing(Named(i, field), column, Text(text.value)));
    }
  }

  lemma {:induction false} NumberItemMeans(accepts: (string, Candidate) -> Truth, action: ActionRow, definition: Definition,
                                           tag: Label, column: ActionColumn, n: Option<int>)
    ensures AllHold(accepts, action, definition, NumberItem(tag, column, n))
      <==> (n.Some? ==> ActionTruth(action, column, Number(n.value)) == Yes)
  {
    if n.Some? {
      AllHoldOne(accepts, action, definition, Comparing(tag, column, Number(n.value)));
    }
  }

  lemma {:induction false} FlagItemMeans(accepts: (string, Candidate) -> Truth, action: ActionRow, definition: Definition,
                                         i: nat, field: DemandField, column: ActionColumn, b: Option<bool>)
    ensures AllHold(accepts, action, definition, FlagItem(i, field, column, b))
      <==> (b.Some? ==> ActionTruth(action, column, Flag(b.value)) == Yes)
  {
    if b.Some? {
      AllHoldOne(accepts, action, definition, Comparing(Named(i, field), column, Flag(b.value)));
    }
  }

  lemma {:induction false} CountItemMeans(accepts: (string, Candidate) -> Truth, action: ActionRow, definition: Definition,
                                          i: nat, table: Side, count: ForcedCount, n: Option<int>)
    ensures AllHold(accepts, action, definition, CountItem(i, table, count, n))
      <==> (n.Some? ==> CountPorts(Forest(definition, table), count) == n.value)
  {
    if n.Some? {
      AllHoldOne(accepts, action, definition, Counting(Forced(i, count), table, count, n.value));
    }
  }

  lemma {:induction false} IdentityMeans(accepts: (string, Candidate) -> Truth, action: ActionRow,
        definition: Definition, d: ActionDemand, i: nat)
    ensures AllHold(accepts, action, definition, IdentityItems(d, i)) <==> Identifies(action, d)
  {
    AllHoldFour(accepts, action, definition, TextItem(i, Key, KeyColumn, d.key), TextItem(i, App, AppIdentifier, d.app),
                TextItem(i, Version, VersionColumn, d.version), TextItem(i, ActionName, NameColumn, d.name));
    TextItemMeans(accepts, action, definition, i, Key, KeyColumn, d.key);
    TextItemMeans(accepts, action, definition, i, App, AppIdentifier, d.app);
    TextItemMeans(accepts, action, definition, i, Version, VersionColumn, d.version);
    TextItemMeans(accepts, action, definition, i, ActionName, NameColumn, d.name);
  }

  predicate LengthsHold(definition: Definition, d: ActionDemand) {
    && (d.forceArgLength.Some? ==> |definition.args| == d.forceArgLength.value)
    && (d.forceReturnLength.Some? ==> |definition.results| == d.forceReturnLength.value)
  }

  lemma {:induction false} StructureMeans(accepts: (string, Candidate) -> Truth, action: ActionRow,
        definition: Definition, d: ActionDemand, i: nat)
    requires action.argCount == |definition.args| && action.returnCount == |definition.results|
    ensures AllHold(accepts, action, definition, StructureItems(d, i))
      <==> AllMatch(accepts, definition.args, d.argMatches) && AllMatch(accepts, definition.results, d.returnMatches) && LengthsHold(definition, d)
  {
    AllHoldFour(accepts, action, definition, MatchItems(d.argMatches, |d.argMatches|, InAction(i, Args), Args),
                MatchItems(d.returnMatches, |d.returnMatches|, InAction(i, Returns), Returns),
                NumberItem(Named(i, ForceArgLength), ArgCount, d.forceArgLength),
                NumberItem(Named(i, ForceReturnLength), ReturnCount, d.forceReturnLength));
    MatchItemsMean(accepts, action, definition, d.argMatches, InAction(i, Args), Args);
    MatchItemsMean(accepts, action, definition, d.returnMatches, InAction(i, Returns), Returns);
    NumberItemMeans(accepts, action, definition, Named(i, ForceArgLength), ArgCount, d.forceArgLength);
    NumberItemMeans(accepts, action, definition, Named(i, ForceReturnLength), ReturnCount, d.forceReturnLength);
  }

  lemma {:induction false} QualityMeans(accepts: (string, Candidate) -> Truth, action: ActionRow,
        definition: Definition, d: ActionDemand, i: nat)
    ensures AllHold(accepts, action, definition, QualityItems(d, i)) <==> Qualifies(action, d)
  {
    AllHoldFour(accepts, action, definition, ProtocolItems(d.protocols, |d.protocols|, i), FlagItem(i, Pure, PureColumn, d.pure),
                FlagItem(i, Idempotent, IdempotentColumn, d.idempotent), FlagItem(i, Stateful, StatefulColumn, d.stateful));
    ProtocolItemsMean(accepts, action, definition, d.protocols, i);
    FlagItemMeans(accepts, action, definition, i, Pure, PureColumn, d.pure);
    FlagItemMeans(accepts, action, definition, i, Idempotent, IdempotentColumn, d.idempotent);
    FlagItemMeans(accepts, action, definition, i, Stateful, StatefulColumn, d.stateful);
  }

  lemma {:induction false} ActionItemsMean(accepts: (string, Candidate) -> Truth, action: ActionRow,
        definition: Definition, d: ActionDemand, i: nat)
    requires action.argCount == |definition.args| && action.returnCount == |definition.results|
    ensures AllHold(accepts, action, definition, ActionItems(d, i)) <==> ActionDemandHolds(accepts, action, definition, d)
  {
    if Given(d.hash) {
      TextItemMeans(accepts, action, definition, i, Hash, HashColumn, d.hash);
    } else {
      AllHoldAppend(accepts, action, definition, IdentityItems(d, i) + StructureItems(d, i), QualityItems(d, i));
      AllHoldAppend(accepts, action, definition, IdentityItems(d, i), StructureItems(d, i));
      IdentityMeans(accepts, action, definition, d, i);
      StructureMeans(accepts, action, definition, d, i);
      QualityMeans(accepts, action, definition, d, i);
    }
  }

  lemma {:induction false} PortItemsMean(accepts: (string, Candidate) -> Truth, action: ActionRow,
        definition: Definition, d: PortDemand, i: nat)
    requires action.argCount == |definition.args| && action.returnCount == |definition.results| && !d.kind.OtherKind?
    ensures AllHold(accepts, action, definition, PortItems(d, i)) <==> PortDemandHolds(accepts, definition, d)
  {
    var table := TableOf(d.kind).value;
    var column := if table.Args? then ArgCount else ReturnCount;
    AllHoldFour(accepts, action, definition,
                MatchItems(d.matches, |d.matches|, InPorts(i), table), NumberItem(Forced(i, AllPorts), column, d.forceLength),
                CountItem(i, table, NonNullable, d.forceNonNullable), CountItem(i, table, Structures, d.forceStructure));
    MatchItemsMean(accepts, action, definition, d.matches, InPorts(i), table);
    NumberItemMeans(accepts, action, definition, Forced(i, AllPorts), column, d.forceLength);
    CountsByName(Forest(definition, table));
    CountItemMeans(accepts, action, definition, i, table, NonNullable, d.forceNonNullable);
    CountItemMeans(accepts, action, definition, i, table, Structures, d.forceStructure);
  }

  lemma {:induction false} OrganizationMeans(accepts: (string, Candidate) -> Truth, action: ActionRow,
        definition: Definition, organization: Option<string>)
    ensures AllHold(accepts, action, definition, OrganizationItem(organization)) <==> InOrganization(action, organization)
  {
    if organization.Some? {
      AllHoldOne(accepts, action, definition, OrganizationItem(organization)[0]);
    }
  }

  /** Everything in a list of groups holds when every group holds. */
  lemma {:induction false} AllHoldConcat(accepts: (string, Candidate) -> Truth, action: ActionRow,
        definition: Definition, start: seq<Item>, groups: seq<seq<Item>>)
    ensures AllHold(accepts, action, definition, Concat(start, groups, |groups|))
      <==> AllHold(accepts, action, definition, start) && forall i | 0 <= i < |groups| :: AllHold(accepts, action, definition, groups[i])
  {
    forall item: Item
      ensures item in Concat(start, groups, |groups|) <==> item in start || exists i | 0 <= i < |groups| :: item in groups[i]
    {
      ConcatMembers(start, groups, |groups|, item);
    }
  }

  lemma {:induction false} ConjunctionMeans(accepts: (string, Candidate) -> Truth, action: ActionRow, definition: Definition,
                                            demands: seq<PortDemand>, organization: Option<string>)
    requires action.argCount == |definition.args| && action.returnCount == |definition.results|
    requires forall i | 0 <= i < |demands| :: !demands[i].kind.OtherKind?
    ensures AllHold(accepts, action, definition, ConjunctionItems(demands, |demands|, organization))
      <==> InOrganization(action, organization) && forall i | 0 <= i < |demands| :: PortDemandHolds(accepts, definition, demands[i])
  {
    OrganizationMeans(accepts, action, definition, organization);
    AllHoldConcat(accepts, action, definition, OrganizationItem(organization), PortGroups(demands));
    forall i | 0 <= i < |demands|
      ensures AllHold(accepts, action, definition, PortGroups(demands)[i]) <==> PortDemandHolds(accepts, definition, demands[i])
    {
      PortItemsMean(accepts, action, definition, demands[i], i);
    }
  }

  // ------------------------------------------------------------------------------------------------------------
  // Main results
  // ------------------------------------------------------------------------------------------------------------

  /** An action satisfies the port-demand statement exactly when its declared ports satisfy every demand. */
  lemma {:induction false} PortStatementMeans(world: World, action: ActionRow, placed: Placed,
        demands: seq<PortDemand>, organization: Option<string>)
    requires Registered(world, action, placed) && NoneFails(demands, |demands|)
    ensures var items := ConjunctionItems(demands, |demands|, organization);
      Hold(world, action, map[], Bindings(items), Clauses(items))
      <==> InOrganization(action, organization) && forall d | d in demands :: PortDemandHolds(world.accepts, placed.definition, d)
  {
    var items := ConjunctionItems(demands, |demands|, organization);
    ConjunctionTagsDecide(demands, organization);
    forall item | item in items
      ensures Included(Binding(item), Bindings(items))
    {
      ItemsKeepTheirParams(items, item);
    }
    ClausesMean(world, action, placed, Bindings(items), items);
    forall i | 0 <= i < |demands|
      ensures !demands[i].kind.OtherKind?
    {
      assert !PortDemandFails(demands[i]);
    }
    ConjunctionMeans(world.accepts, action, placed.definition, demands, organization);
  }

  lemma {:induction false} SelectItemsAreInTheUnion(demands: seq<ActionDemand>, i: nat, organization: Option<string>, item: Item)
    requires i < |demands| && (item in OrganizationItem(organization) || item in ActionItems(demands[i], i))
    ensures item in UnionItems(demands, |demands|, organization)
  {
    ConcatMembers(OrganizationItem(organization), ActionGroups(demands), |demands|, item);
    assert ActionGroups(demands)[i] == ActionItems(demands[i], i);
  }

  /** In the union, the select of demand i tests demand i and nothing else, although all selects share one dictionary. */
  lemma {:induction false} SelectMeans(world: World, action: ActionRow, placed: Placed, demands: seq<ActionDemand>,
        i: nat, organization: Option<string>)
    requires Registered(world, action, placed) && i < |demands|
    ensures Hold(world, action, map[], Bindings(UnionItems(demands, |demands|, organization)), Clauses(SelectItems(demands[i], i, organization)))
      <==> InOrganization(action, organization) && ActionDemandHolds(world.accepts, action, placed.definition, demands[i])
  {
    var all, items := UnionItems(demands, |demands|, organization), SelectItems(demands[i], i, organization);
    UnionTagsDecide(demands, organization);
    forall item | item in items
      ensures Included(Binding(item), Bindings(all))
    {
      InEither(OrganizationItem(organization), ActionItems(demands[i], i), item);
      SelectItemsAreInTheUnion(demands, i, organization, item);
      ItemsKeepTheirParams(all, item);
    }
    ClausesMean(world, action, placed, Bindings(all), items);
    AllHoldAppend(world.accepts, action, placed.definition, OrganizationItem(organization), ActionItems(demands[i], i));
    OrganizationMeans(world.accepts, action, placed.definition, organization);
    ActionItemsMean(world.accepts, action, placed.definition, demands[i], i);
  }

  // ------------------------------------------------------------------------------------------------------------
  // Sorting the rows of the union back to their demands
  // ------------------------------------------------------------------------------------------------------------

  /** The action ids of the first `n` rows tagged `k`, in order. */
  function Tagged(rows: seq<(nat, ActionId)>, n: nat, k: nat): seq<ActionId>
    requires n <= |rows|
  {
    if n == 0 then [] else Tagged(rows, n - 1, k) + if rows[n - 1].0 == k then [rows[n - 1].1] else []
  }

  lemma {:induction false} TaggedOfFirst(a: seq<(nat, ActionId)>, b: seq<(nat, ActionId)>, n: nat, k: nat)
    requires n <= |a|
    ensures Tagged(a + b, n, k) == Tagged(a, n, k)
  {
    if n > 0 {
      TaggedOfFirst(a, b, n - 1, k);
    }
  }

  /** The rows of a tag stay in their order: what comes later goes behind. */
  lemma {:induction false} TaggedKeepsOrder(a: seq<(nat, ActionId)>, b: seq<(nat, ActionId)>, n: nat, k: nat)
    requires n <= |b|
    ensures Tagged(a + b, |a| + n, k) == Tagged(a, |a|, k) + Tagged(b, n, k)
  {
    if n == 0 {
      TaggedOfFirst(a, b, |a|, k);
    } else {
      TaggedKeepsOrder(a, b, n - 1, k);
      assert (a + b)[|a| + n - 1] == b[n - 1];
    }
  }

  method Distribute(rows: seq<(nat, ActionId)>, demands: nat) returns (results: seq<seq<ActionId>>)
    requires forall i | 0 <= i < |rows| :: rows[i].0 < demands
    ensures |results| == demands && forall k | 0 <= k < demands :: results[k] == Tagged(rows, |rows|, k)
  {
    results := seq(demands, _ => []);
    for i := 0 to |rows|
      invariant |results| == demands && forall k | 0 <= k < demands :: results[k] == Tagged(rows, i, k)
    {
      var (k, id) := rows[i];
      results := results[k := results[k] + [id]];
    }
  }

  lemma {:induction false} TaggedOne(before: seq<(nat, ActionId)>, row: (nat, ActionId), after: seq<(nat, ActionId)>,
                                     kept: seq<ActionId>, kept': seq<ActionId>, k: nat, id: ActionId)
    requires after == before + [row] && kept' == if row.0 == k then kept + [row.1] else kept
    requires multiset(kept)[id] == multiset(before)[(k, id)]
    ensures multiset(kept')[id] == multiset(after)[(k, id)]
  {
    CountSnoc(before, row, after, (k, id));
    if row.0 == k {
      CountSnoc(kept, row.1, kept', id);
    }
  }

  lemma {:induction false} TaggedCounts(rows: seq<(nat, ActionId)>, n: nat, k: nat, id: ActionId)
    requires n <= |rows|
    ensures multiset(Tagged(rows, n, k))[id] == multiset(rows[..n])[(k, id)]
  {
    if n > 0 {
      TaggedCounts(rows, n - 1, k, id);
      TakeSnoc(rows, n);
      TaggedOne(rows[..n - 1], rows[n - 1], rows[..n], Tagged(rows, n - 1, k), Tagged(rows, n, k), k, id);
    }
  }

  ghost predicate Chosen(world: World, actions: seq<ActionRow>, params: Params, select: seq<Cond>, id: ActionId) {
    exists a | a in actions :: a.id == id && Hold(world, a, map[], params, select)
  }

  /** The database returns, in some order, one row per select and action that satisfies it. */
  ghost predicate Answers(rows: seq<(nat, ActionId)>, world: World, actions: seq<ActionRow>, s: Statement) {
    forall k: nat, id: ActionId ::
      multiset(rows)[(k, id)] == if k < |s.selects| && Chosen(world, actions, s.params, s.selects[k], id) then 1 else 0
  }

  ghost predicate Satisfying(world: World, actions: seq<ActionRow>, placed: map<ActionId, Placed>, d: ActionDemand,
        organization: Option<string>, id: ActionId) {
    exists a | a in actions ::
      a.id == id && a.id in placed && InOrganization(a, organization) && ActionDemandHolds(world.accepts, a, placed[a.id].definition, d)
  }

  ghost predicate AllRegistered(world: World, actions: seq<ActionRow>, placed: map<ActionId, Placed>) {
    forall a | a in actions :: a.id in placed && Registered(world, a, placed[a.id])
  }

  /** One run of `rebuild_relational_ports`. */
  datatype Registration = Registration(action: ActionId, placed: Placed)

  function ArgRebuilds(registrations: seq<Registration>): seq<Rebuilt> {
    seq(|registrations|, i requires 0 <= i < |registrations| =>
      Rebuilt(registrations[i].action, registrations[i].placed.definition.args, registrations[i].placed.argLayout))
  }

  function ReturnRebuilds(registrations: seq<Registration>): seq<Rebuilt> {
    seq(|registrations|, i requires 0 <= i < |registrations| =>
      Rebuilt(registrations[i].action, registrations[i].placed.definition.results, registrations[i].placed.returnLayout))
  }

  /** What was registered last for each action. */
  function LatestPlaced(registrations: seq<Registration>, n: nat): map<ActionId, Placed>
    requires n <= |registrations|
  {
    if n == 0 then map[] else LatestPlaced(registrations, n - 1)[registrations[n - 1].action := registrations[n - 1].placed]
  }

  lemma {:induction false} LatestAt(registrations: seq<Registration>, n: nat, id: ActionId) returns (k: nat)
    requires n <= |registrations| && id in LatestPlaced(registrations, n)
    ensures k < n && registrations[k] == Registration(id, LatestPlaced(registrations, n)[id])
    ensures forall j | k < j < n :: registrations[j].action != id
  {
    if registrations[n - 1].action == id {
      k := n - 1;
    } else {
      k := LatestAt(registrations, n - 1, id);
    }
  }

  /** Any actions registered in any order, and again, from empty tables: all are registered, each as it was last. */
  lemma {:induction false} RegistrationsInTurn(world: World, actions: seq<ActionRow>, registrations: seq<Registration>,
                                               argTables: seq<Table>, returnTables: seq<Table>)
    requires |argTables| == |returnTables| == |registrations| + 1
    requires InTurn(argTables, ArgRebuilds(registrations), |registrations|) && world.args == Last(argTables).rows
    requires InTurn(returnTables, ReturnRebuilds(registrations), |registrations|) && world.results == Last(returnTables).rows
    requires var placed := LatestPlaced(registrations, |registrations|);
      forall a | a in actions ::
        && a.id in placed
        && a.argCount == |placed[a.id].definition.args| && a.returnCount == |placed[a.id].definition.results|
    ensures AllRegistered(world, actions, LatestPlaced(registrations, |registrations|))
  {
    var n := |registrations|;
    forall a | a in actions
      ensures Registered(world, a, LatestPlaced(registrations, n)[a.id])
    {
      var k := LatestAt(registrations, n, a.id);
      LatestRebuildsStand(argTables, ArgRebuilds(registrations), n, k);
      LatestRebuildsStand(returnTables, ReturnRebuilds(registrations), n, k);
      assert Stands(ArgRebuilds(registrations)[k], argTables[n]) && Stands(ReturnRebuilds(registrations)[k], returnTables[n]);
    }
  }

  lemma {:induction false} ChosenSatisfy(world: World, actions: seq<ActionRow>, placed: map<ActionId, Placed>,
        demands: seq<ActionDemand>, i: nat,
                                         organization: Option<string>, id: ActionId)
    requires AllRegistered(world, actions, placed) && i < |demands|
    ensures Chosen(world, actions, Bindings(UnionItems(demands, |demands|, organization)), Clauses(SelectItems(demands[i], i, organization)), id)
      <==> Satisfying(world, actions, placed, demands[i], organization, id)
  {
    forall a | a in actions
      ensures Hold(world, a, map[], Bindings(UnionItems(demands, |demands|, organization)), Clauses(SelectItems(demands[i], i, organization)))
        <==> InOrganization(a, organization) && ActionDemandHolds(world.accepts, a, placed[a.id].definition, demands[i])
    {
      SelectMeans(world, a, placed[a.id], demands, i, organization);
    }
  }

  /** However the database orders its rows, result i lists each action that satisfies demand i once, and no other. */
  lemma {:induction false} UnionAnswersEachDemand(rows: seq<(nat, ActionId)>, world: World, actions: seq<ActionRow>,
        placed: map<ActionId, Placed>,
                                                  demands: seq<ActionDemand>, i: nat, organization: Option<string>, id: ActionId)
    requires AllRegistered(world, actions, placed) && i < |demands|
    requires Answers(rows, world, actions,
                     Statement(Selects(demands, |demands|, organization), Bindings(UnionItems(demands, |demands|, organization))))
    ensures multiset(Tagged(rows, |rows|, i))[id] == if Satisfying(world, actions, placed, demands[i], organization, id) then 1 else 0
    ensures forall r | 0 <= r < |rows| :: rows[r].0 < |demands|
  {
    TaggedCounts(rows, |rows|, i, id);
    assert rows[..|rows|] == rows;
    ChosenSatisfy(world, actions, placed, demands, i, organization, id);
    forall r | 0 <= r < |rows|
      ensures rows[r].0 < |demands|
    {
      assert rows[r] in multiset(rows);
      assert multiset(rows)[(rows[r].0, rows[r].1)] > 0;
    }
  }
}
