/** Usages of a structure (facade/types/structure.py): the ancestors of a port row are found again from the dot prefixes
    of its materialized key path. */
module KeyPaths {
  import opened Common
  import opened Splitting
  import opened Ports

  datatype PortUsage = PortUsage(action: ActionId, portKey: string, index: nat, keyPath: string, modifiers: seq<string>)

  // ------------------------------------------------------------------------------------------------------------
  // What the code reconstructs
  // ------------------------------------------------------------------------------------------------------------

  /** Among the first `n` rows, the last one of the action with this path, as a dictionary would keep it. */
  function Lookup(rows: seq<Row>, n: nat, action: ActionId, path: string): Option<Row>
    requires n <= |rows|
  {
    if n == 0 then None
    else if rows[n - 1].action == action && rows[n - 1].keyPath == path then Some(rows[n - 1])
    else Lookup(rows, n - 1, action, path)
  }

  /** The path of the ancestor at a depth, if the row's path were its keys joined by dots. */
  function Prefix(path: string, depth: nat): string
    requires 0 < depth <= |Split(path, '.')|
  {
    Join(Split(path, '.')[..depth], '.')
  }

  function Chain(rows: seq<Row>, row: Row): seq<Option<Row>> {
    var depths := |Split(row.keyPath, '.')| - 1;
    seq(depths, i requires 0 <= i < depths => Lookup(rows, |rows|, row.action, Prefix(row.keyPath, i + 1)))
  }

  function Modifiers(chain: seq<Option<Row>>): seq<string> {
    if chain == [] then []
    else Modifiers(chain[..|chain| - 1]) + Modifier(chain[|chain| - 1])
  }

  function Modifier(ancestor: Option<Row>): seq<string> {
    match ancestor
    case None => []
    case Some(row) => if row.kind == DICT then ["dict"] else if row.kind == LIST then ["list"] else []
  }

  function Usage(row: Row, chain: seq<Option<Row>>): PortUsage {
    var root := if chain != [] && chain[0].Some? then chain[0].value else row;
    PortUsage(row.action, root.key, root.index, row.keyPath, Modifiers(chain))
  }

  function Lower(s: string): string {
    if s == "" then "" else [if 'A' <= s[0] <= 'Z' then s[0] + (32 as char) else s[0]] + Lower(s[1..])
  }

  predicate Uses(row: Row, organization: set<ActionId>, identifier: string, kind: PortKind) {
    row.action in organization && row.kind == kind && row.identifier.Some? && Lower(row.identifier.value) == Lower(identifier)
  }

  function UsagesOf(rows: seq<Row>, n: nat, organization: set<ActionId>, identifier: string, kind: PortKind): seq<PortUsage>
    requires n <= |rows|
  {
    if n == 0 then []
    else
      UsagesOf(rows, n - 1, organization, identifier, kind)
      + if Uses(rows[n - 1], organization, identifier, kind) then [Usage(rows[n - 1], Chain(rows, rows[n - 1]))] else []
  }

  function AncestorKeys(row: Row): set<(ActionId, string)> {
    set depth | 0 < depth < |Split(row.keyPath, '.')| :: (row.action, Prefix(row.keyPath, depth))
  }

  /** One query for the using rows, one for all their ancestors, then one usage per row. */
  method PortUsages(rows: seq<Row>, organization: set<ActionId>, identifier: string, kind: PortKind) returns (usages: seq<PortUsage>)
    ensures usages == UsagesOf(rows, |rows|, organization, identifier, kind)
  {
    var wanted: set<(ActionId, string)> := {};
    for i := 0 to |rows|
      invariant forall j | 0 <= j < i && Uses(rows[j], organization, identifier, kind) :: AncestorKeys(rows[j]) <= wanted
    {
      if Uses(rows[i], organization, identifier, kind) {
        wanted := wanted + AncestorKeys(rows[i]);
      }
    }
    var ancestors: map<(ActionId, string), Row> := map[];
    for i := 0 to |rows|
      invariant forall key | key in wanted :: key in ancestors <==> Lookup(rows, i, key.0, key.1).Some?
      invariant forall key | key in wanted && key in ancestors :: Lookup(rows, i, key.0, key.1) == Some(ancestors[key])
    {
      var key := (rows[i].action, rows[i].keyPath);
      if key in wanted {
        ancestors := ancestors[key := rows[i]];
      }
    }
    usages := [];
    for i := 0 to |rows|
      invariant usages == UsagesOf(rows, i, organization, identifier, kind)
    {
      if Uses(rows[i], organization, identifier, kind) {
        var chain := ChainFrom(ancestors, rows[i]);
        ChainsAgree(rows, wanted, ancestors, rows[i]);
        usages := usages + [Usage(rows[i], chain)];
      }
    }
  }

  function ChainFrom(ancestors: map<(ActionId, string), Row>, row: Row): seq<Option<Row>> {
    var depths := |Split(row.keyPath, '.')| - 1;
    seq(depths, i requires 0 <= i < depths =>
      var key := (row.action, Prefix(row.keyPath, i + 1));
      if key in ancestors then Some(ancestors[key]) else None)
  }

  lemma {:induction false} ChainsAgree(rows: seq<Row>, wanted: set<(ActionId, string)>,
        ancestors: map<(ActionId, string), Row>, row: Row)
    requires AncestorKeys(row) <= wanted
    requires forall key | key in wanted :: key in ancestors <==> Lookup(rows, |rows|, key.0, key.1).Some?
    requires forall key | key in wanted && key in ancestors :: Lookup(rows, |rows|, key.0, key.1) == Some(ancestors[key])
    ensures ChainFrom(ancestors, row) == Chain(rows, row)
  {
    var depths := |Split(row.keyPath, '.')| - 1;
    forall i | 0 <= i < depths
      ensures ChainFrom(ancestors, row)[i] == Chain(rows, row)[i]
    {
      assert (row.action, Prefix(row.keyPath, i + 1)) in AncestorKeys(row);
    }
  }

  // ------------------------------------------------------------------------------------------------------------
  // The true ancestors
  // ------------------------------------------------------------------------------------------------------------

  /** A row with its ancestors, root first, along the parent links. */
  ghost predicate Lineage(rows: seq<Row>, action: ActionId, line: seq<Row>) {
    && |line| > 0
    && (forall i | 0 <= i < |line| :: line[i] in rows && line[i].action == action)
    && line[0].parent.None?
    && (forall i | 0 < i < |line| :: line[i].parent == Some(line[i - 1].id))
  }

  lemma {:induction false} EveryRowHasALineage(rows: seq<Row>, action: ActionId, row: Row) returns (line: seq<Row>)
    requires Rooted(rows, action) && row in rows && row.action == action
    ensures Lineage(rows, action, line) && Last(line) == row
    decreases row.id
  {
    if row.parent.None? {
      line := [row];
    } else {
      var up :| up in rows && up.action == action && up.id == row.parent.value;
      var front := EveryRowHasALineage(rows, action, up);
      line := front + [row];
    }
  }

  function Keys(line: seq<Row>): seq<string> {
    seq(|line|, i requires 0 <= i < |line| => line[i].key)
  }

  /** Keys without dots, distinct among siblings, at every depth. */
  predicate WellKeyed(forest: seq<Port>) {
    && (forall i, j | 0 <= i < j < |forest| :: forest[i].key != forest[j].key)
    && (forall p | p in forest :: Free(p.key, '.') && WellKeyed(p.children))
  }

  /** Every root port that has children has a key. */
  predicate GroupsAreNamed(forest: seq<Port>) {
    forall p | p in forest && p.children != [] :: p.key != ""
  }

  // ------------------------------------------------------------------------------------------------------------
  // Rows of a laid-out action
  // ------------------------------------------------------------------------------------------------------------

  /** `ports` says which declared port each row stands for; a row's index is its position among its siblings. */
  ghost predicate Tree(rows: seq<Row>, action: ActionId, forest: seq<Port>, ports: map<nat, Port>) {
    && (forall row | row in rows && row.action == action :: RowIsPort(row, forest, ports))
    && (forall up, row | up in rows && row in rows && up.action == row.action == action && row.parent == Some(up.id) :: IsChild(up, row, ports))
    && (forall a, b | a in rows && b in rows && a.action == b.action == action && a.parent == b.parent && a.index == b.index :: a == b)
  }

  predicate RowIsPort(row: Row, forest: seq<Port>, ports: map<nat, Port>) {
    && row.id in ports && row.key == ports[row.id].key
    && (row.parent.None? ==> row.index < |forest| && ports[row.id] == forest[row.index] && row.keyPath == row.key)
  }

  predicate IsChild(up: Row, row: Row, ports: map<nat, Port>) {
    && up.id in ports && row.id in ports
    && row.index < |ports[up.id].children| && ports[row.id] == ports[up.id].children[row.index]
    && row.keyPath == ExtendPath(up.keyPath, row.key)
  }

  function PortsOf(layout: Layout): map<nat, Port> {
    map id: nat | layout.base <= id < layout.base + |layout.nodes| :: layout.At(id).port
  }

  lemma {:induction false} LaidOutRow(rows: seq<Row>, action: ActionId, layout: Layout, row: Row)
    requires RowsAreNodes(rows, action, layout) && row in rows && row.action == action
    ensures layout.Has(row.id) && row == Saved(layout.At(row.id), row.id, action)
  {
    var k :| 0 <= k < |rows| && rows[k] == row;
  }

  lemma {:induction false} LaidOutRoot(rows: seq<Row>, action: ActionId, forest: seq<Port>, layout: Layout, row: Row)
    requires Show(RootRows(rows, action), Roots(forest), action, layout)
    requires row in rows && row.action == action && row.parent.None?
    ensures layout.Has(row.id) && row.index < |forest| == |RootRows(rows, action)| && RootRows(rows, action)[row.index] == row
    ensures layout.At(row.id).port == forest[row.index] && row.keyPath == row.key == forest[row.index].key
  {
    RootRowsFrom(rows, action);
    var i :| 0 <= i < |RootRows(rows, action)| && RootRows(rows, action)[i] == row;
  }

  lemma {:induction false} LaidOutChild(rows: seq<Row>, action: ActionId, layout: Layout, up: nat, row: Row)
    requires layout.Has(up) && Show(ChildRows(rows, up), Kids(layout.At(up), up), action, layout)
    requires row in rows && row.parent == Some(up)
    ensures layout.Has(row.id) && row.index < |layout.At(up).port.children| == |ChildRows(rows, up)| && ChildRows(rows, up)[row.index] == row
    ensures layout.At(row.id).port == layout.At(up).port.children[row.index]
    ensures row.keyPath == ExtendPath(layout.At(up).path, row.key)
  {
    ChildRowsFrom(rows, up);
    var i :| 0 <= i < |ChildRows(rows, up)| && ChildRows(rows, up)[i] == row;
  }

  lemma {:induction false} LaidOutIsATree(rows: seq<Row>, action: ActionId, forest: seq<Port>, layout: Layout)
    requires LaidOut(rows, action, forest, layout)
    ensures Tree(rows, action, forest, PortsOf(layout))
  {
    var ports := PortsOf(layout);
    forall row | row in rows && row.action == action
      ensures RowIsPort(row, forest, ports)
    {
      LaidOutRow(rows, action, layout, row);
      if row.parent.None? {
        LaidOutRoot(rows, action, forest, layout, row);
      }
    }
    forall up, row | up in rows && row in rows && up.action == row.action == action && row.parent == Some(up.id)
      ensures IsChild(up, row, ports)
    {
      LaidOutRow(rows, action, layout, up);
      LaidOutChild(rows, action, layout, up.id, row);
    }
    forall a, b | a in rows && b in rows && a.action == b.action == action && a.parent == b.parent && a.index == b.index
      ensures a == b
    {
      if a.parent.None? {
        LaidOutRoot(rows, action, forest, layout, a);
        LaidOutRoot(rows, action, forest, layout, b);
      } else {
        var up :| up in rows && up.action == action && up.id == a.parent.value;
        LaidOutRow(rows, action, layout, up);
        LaidOutChild(rows, action, layout, up.id, a);
        LaidOutChild(rows, action, layout, up.id, b);
      }
    }
  }

  lemma {:induction false} KeysSnoc(line: seq<Row>)
    requires |line| > 0
    ensures Keys(line) == Keys(line[..|line| - 1]) + [Last(line).key]
    ensures |line| > 1 ==> Join(Keys(line), '.') == Join(Keys(line[..|line| - 1]), '.') + "." + Last(line).key
    ensures |line| == 1 ==> Join(Keys(line), '.') == Last(line).key
  {
    assert Keys(line)[..|line| - 1] == Keys(line[..|line| - 1]);
  }

  lemma {:induction false} Front(rows: seq<Row>, action: ActionId, line: seq<Row>)
    requires Lineage(rows, action, line) && |line| > 1
    ensures Lineage(rows, action, line[..|line| - 1]) && Last(line).parent == Some(Last(line[..|line| - 1]).id)
  {
  }

  /** The port of the last row, and what holds of its keys. */
  lemma {:induction false} LineFacts(rows: seq<Row>, action: ActionId, forest: seq<Port>, ports: map<nat, Port>, line: seq<Row>)
    requires Tree(rows, action, forest, ports) && Lineage(rows, action, line) && WellKeyed(forest)
    ensures Last(line).id in ports && WellKeyed(ports[Last(line).id].children) && Free(Last(line).key, '.')
    decreases |line|
  {
    var row := Last(line);
    assert RowIsPort(row, forest, ports);
    if |line| == 1 {
      assert forest[row.index] in forest;
    } else {
      Front(rows, action, line);
      var up := Last(line[..|line| - 1]);
      LineFacts(rows, action, forest, ports, line[..|line| - 1]);
      assert IsChild(up, row, ports);
      assert ports[up.id].children[row.index] in ports[up.id].children;
    }
  }

  lemma {:induction false} LineKeysAreFree(rows: seq<Row>, action: ActionId, forest: seq<Port>, ports: map<nat, Port>, line: seq<Row>)
    requires Tree(rows, action, forest, ports) && Lineage(rows, action, line) && WellKeyed(forest)
    ensures forall i | 0 <= i < |line| :: Free(Keys(line)[i], '.')
    decreases |line|
  {
    LineFacts(rows, action, forest, ports, line);
    if |line| > 1 {
      Front(rows, action, line);
      LineKeysAreFree(rows, action, forest, ports, line[..|line| - 1]);
      KeysSnoc(line);
    }
  }

  /** With named groups, a path is the keys along the line, joined by dots. */
  lemma {:induction false} PathJoinsKeys(rows: seq<Row>, action: ActionId, forest: seq<Port>, ports: map<nat, Port>, line: seq<Row>)
    requires Tree(rows, action, forest, ports) && Lineage(rows, action, line) && GroupsAreNamed(forest)
    ensures Last(line).keyPath == Join(Keys(line), '.')
    ensures Last(line).id in ports && (ports[Last(line).id].children != [] ==> Last(line).keyPath != "")
    decreases |line|
  {
    var row := Last(line);
    assert RowIsPort(row, forest, ports);
    KeysSnoc(line);
    if |line| == 1 {
      assert forest[row.index] in forest;
    } else {
      Front(rows, action, line);
      PathJoinsKeys(rows, action, forest, ports, line[..|line| - 1]);
      assert IsChild(Last(line[..|line| - 1]), row, ports);
    }
  }

  lemma {:induction false} SiblingKeysDecide(rows: seq<Row>, action: ActionId, forest: seq<Port>,
        ports: map<nat, Port>, siblings: seq<Port>, a: Row, b: Row)
    requires Tree(rows, action, forest, ports) && WellKeyed(siblings)
    requires a in rows && b in rows && a.action == b.action == action && a.parent == b.parent
    requires a.index < |siblings| && b.index < |siblings| && siblings[a.index].key == a.key && siblings[b.index].key == b.key
    requires a.key == b.key
    ensures a == b
  {
    assert a.index == b.index;
  }

  lemma {:induction false} SameKeysSameLine(rows: seq<Row>, action: ActionId, forest: seq<Port>, ports: map<nat, Port>,
        a: seq<Row>, b: seq<Row>)
    requires Tree(rows, action, forest, ports) && WellKeyed(forest)
    requires Lineage(rows, action, a) && Lineage(rows, action, b) && Keys(a) == Keys(b)
    ensures a == b
    decreases |a|
  {
    KeysSnoc(a);
    KeysSnoc(b);
    assert |a| == |Keys(a)| == |b|;
    var n := |a| - 1;
    assert a[n].key == Keys(a)[n] == Keys(b)[n] == b[n].key;
    assert a == a[..n] + [a[n]] && b == b[..n] + [b[n]];
    if n == 0 {
      assert RowIsPort(a[0], forest, ports) && RowIsPort(b[0], forest, ports);
      SiblingKeysDecide(rows, action, forest, ports, forest, a[0], b[0]);
    } else {
      Front(rows, action, a);
      Front(rows, action, b);
      assert Keys(a[..n]) == Keys(a)[..n] == Keys(b)[..n] == Keys(b[..n]);
      SameKeysSameLine(rows, action, forest, ports, a[..n], b[..n]);
      LineFacts(rows, action, forest, ports, a[..n]);
      var up := Last(a[..n]);
      assert IsChild(up, a[n], ports) && IsChild(up, b[n], ports) && RowIsPort(a[n], forest, ports) && RowIsPort(b[n], forest, ports);
      SiblingKeysDecide(rows, action, forest, ports, ports[up.id].children, a[n], b[n]);
    }
  }

  lemma {:induction false} LookupFinds(rows: seq<Row>, n: nat, action: ActionId, path: string, row: Row)
    requires n <= |rows| && row in rows[..n] && row.action == action && row.keyPath == path
    ensures var found := Lookup(rows, n, action, path);
      found.Some? && found.value in rows && found.value.action == action && found.value.keyPath == path
  {
    if !(rows[n - 1].action == action && rows[n - 1].keyPath == path) {
      assert rows[..n] == rows[..n - 1] + [rows[n - 1]];
      LookupFinds(rows, n - 1, action, path, row);
    }
  }

  lemma {:induction false} LineOfPath(rows: seq<Row>, action: ActionId, forest: seq<Port>, ports: map<nat, Port>, line: seq<Row>)
    requires Tree(rows, action, forest, ports) && WellKeyed(forest) && GroupsAreNamed(forest) && Lineage(rows, action, line)
    ensures Last(line).keyPath == Join(Keys(line), '.') && Split(Last(line).keyPath, '.') == Keys(line)
  {
    PathJoinsKeys(rows, action, forest, ports, line);
    LineKeysAreFree(rows, action, forest, ports, line);
    SplitOfJoin(Keys(line), '.');
  }

  /** Looking a row up by its path finds that row. */
  lemma {:induction false} LookupFindsTheRow(rows: seq<Row>, action: ActionId, forest: seq<Port>,
        ports: map<nat, Port>, line: seq<Row>)
    requires Tree(rows, action, forest, ports) && Rooted(rows, action)
    requires WellKeyed(forest) && GroupsAreNamed(forest) && Lineage(rows, action, line)
    ensures Lookup(rows, |rows|, action, Join(Keys(line), '.')) == Some(Last(line))
  {
    LineOfPath(rows, action, forest, ports, line);
    assert rows[..|rows|] == rows;
    LookupFinds(rows, |rows|, action, Last(line).keyPath, Last(line));
    var found := Lookup(rows, |rows|, action, Last(line).keyPath).value;
    var other := EveryRowHasALineage(rows, action, found);
    LineOfPath(rows, action, forest, ports, other);
    SameKeysSameLine(rows, action, forest, ports, line, other);
  }

  // ------------------------------------------------------------------------------------------------------------
  // Main results
  // ------------------------------------------------------------------------------------------------------------

  function Found(line: seq<Row>): seq<Option<Row>>
    requires |line| > 0
  {
    seq(|line| - 1, i requires 0 <= i < |line| - 1 => Some(line[i]))
  }

  /** When groups are named, the prefixes of a row's path lead to exactly its ancestors, root first. */
  lemma {:induction false} ChainIsTheLineage(rows: seq<Row>, action: ActionId, forest: seq<Port>, layout: Layout, line: seq<Row>)
    requires LaidOut(rows, action, forest, layout) && WellKeyed(forest) && GroupsAreNamed(forest) && Lineage(rows, action, line)
    ensures Chain(rows, Last(line)) == Found(line)
  {
    LaidOutIsATree(rows, action, forest, layout);
    ChainInTheTree(rows, action, forest, PortsOf(layout), line);
  }

  lemma {:induction false} ChainInTheTree(rows: seq<Row>, action: ActionId, forest: seq<Port>, ports: map<nat, Port>, line: seq<Row>)
    requires Tree(rows, action, forest, ports) && Rooted(rows, action)
    requires WellKeyed(forest) && GroupsAreNamed(forest) && Lineage(rows, action, line)
    ensures Chain(rows, Last(line)) == Found(line)
  {
    LineOfPath(rows, action, forest, ports, line);
    forall i | 0 <= i < |line| - 1
      ensures Lookup(rows, |rows|, action, Join(Keys(line)[..i + 1], '.')) == Some(line[i])
    {
      FrontLine(rows, action, line, i);
      LookupFindsTheRow(rows, action, forest, ports, line[..i + 1]);
    }
    ChainByLookups(rows, action, line);
  }

  lemma {:induction false} FrontLine(rows: seq<Row>, action: ActionId, line: seq<Row>, i: nat)
    requires Lineage(rows, action, line) && i < |line|
    ensures Lineage(rows, action, line[..i + 1]) && Keys(line[..i + 1]) == Keys(line)[..i + 1] && Last(line[..i + 1]) == line[i]
  {
  }

  lemma {:induction false} ChainByLookups(rows: seq<Row>, action: ActionId, line: seq<Row>)
    requires |line| > 0 && Last(line).action == action && Split(Last(line).keyPath, '.') == Keys(line)
    requires forall i | 0 <= i < |line| - 1 :: Lookup(rows, |rows|, action, Join(Keys(line)[..i + 1], '.')) == Some(line[i])
    ensures Chain(rows, Last(line)) == Found(line)
  {
    forall i | 0 <= i < |line| - 1
      ensures Chain(rows, Last(line))[i] == Found(line)[i]
    {
      assert Prefix(Last(line).keyPath, i + 1) == Join(Keys(line)[..i + 1], '.');
    }
  }

  /** The containers among the first `n` ports of a line, by name. */
  function Containers(kinds: seq<PortKind>, n: nat): seq<string>
    requires n <= |kinds|
  {
    if n == 0 then []
    else
      Containers(kinds, n - 1)
      + match kinds[n - 1]
        case DICT => ["dict"]
        case LIST => ["list"]
        case _ => []
  }

  lemma {:induction false} ModifiersAreContainers(line: seq<Row>, kinds: seq<PortKind>, n: nat)
    requires n < |line| == |kinds| && forall i | 0 <= i < |line| :: line[i].kind == kinds[i]
    ensures Modifiers(Found(line)[..n]) == Containers(kinds, n)
  {
    if n > 0 {
      ModifiersAreContainers(line, kinds, n - 1);
      assert Found(line)[..n][..n - 1] == Found(line)[..n - 1];
    }
  }

  /** The declared ports of a line of rows: a root, and each a child of the one before. */
  predicate IsPortLine(line: seq<Row>, forest: seq<Port>, ports: seq<Port>) {
    && |ports| == |line| > 0
    && line[0].index < |forest| && ports[0] == forest[line[0].index]
    && (forall i | 0 < i < |line| :: line[i].index < |ports[i - 1].children| && ports[i] == ports[i - 1].children[line[i].index])
  }

  function PortsAlong(line: seq<Row>, layout: Layout): seq<Port>
    requires forall i | 0 <= i < |line| :: layout.Has(line[i].id)
  {
    seq(|line|, i requires 0 <= i < |line| => layout.At(line[i].id).port)
  }

  function KindsOf(ports: seq<Port>): seq<PortKind> {
    seq(|ports|, i requires 0 <= i < |ports| => ports[i].kind)
  }

  lemma {:induction false} LineHasPorts(rows: seq<Row>, action: ActionId, layout: Layout, line: seq<Row>)
    requires RowsAreNodes(rows, action, layout)
    requires forall i | 0 <= i < |line| :: line[i] in rows && line[i].action == action
    ensures forall i | 0 <= i < |line| :: layout.Has(line[i].id) && line[i].kind == layout.At(line[i].id).port.kind
  {
    forall i | 0 <= i < |line|
      ensures layout.Has(line[i].id) && line[i].kind == layout.At(line[i].id).port.kind
    {
      LaidOutRow(rows, action, layout, line[i]);
    }
  }

  lemma {:induction false} PortsAlongTheLine(rows: seq<Row>, action: ActionId, forest: seq<Port>, layout: Layout, line: seq<Row>)
    requires RowsAreNodes(rows, action, layout) && Show(RootRows(rows, action), Roots(forest), action, layout)
    requires forall id: nat | layout.Has(id) :: Show(ChildRows(rows, id), Kids(layout.At(id), id), action, layout)
    requires Lineage(rows, action, line) && forall i | 0 <= i < |line| :: layout.Has(line[i].id)
    ensures IsPortLine(line, forest, PortsAlong(line, layout)) && line[0].key == forest[line[0].index].key
  {
    LaidOutRoot(rows, action, forest, layout, line[0]);
    var ports := PortsAlong(line, layout);
    forall i | 0 < i < |line|
      ensures line[i].index < |ports[i - 1].children| && ports[i] == ports[i - 1].children[line[i].index]
    {
      LaidOutChild(rows, action, layout, line[i - 1].id, line[i]);
    }
  }

  /** The usage a reader expects: of the declared ports along the line, key and index of the first, and the containers
      before the last, outermost first. */
  lemma {:induction false} UsagesAreTrue(rows: seq<Row>, action: ActionId, forest: seq<Port>, layout: Layout, line: seq<Row>)
    returns (ports: seq<Port>)
    requires LaidOut(rows, action, forest, layout) && WellKeyed(forest) && GroupsAreNamed(forest) && Lineage(rows, action, line)
    ensures IsPortLine(line, forest, ports)
    ensures Usage(Last(line), Chain(rows, Last(line)))
      == PortUsage(action, ports[0].key, line[0].index, Last(line).keyPath, Containers(KindsOf(ports), |line| - 1))
  {
    LineHasPorts(rows, action, layout, line);
    PortsAlongTheLine(rows, action, forest, layout, line);
    ports := PortsAlong(line, layout);
    ChainIsTheLineage(rows, action, forest, layout, line);
    UsageOfTheLine(line, ports);
  }

  lemma {:induction false} UsageOfTheLine(line: seq<Row>, ports: seq<Port>)
    requires |line| == |ports| > 0 && line[0].key == ports[0].key && forall i | 0 <= i < |line| :: line[i].kind == ports[i].kind
    ensures Usage(Last(line), Found(line))
      == PortUsage(Last(line).action, ports[0].key, line[0].index, Last(line).keyPath, Containers(KindsOf(ports), |line| - 1))
  {
    ModifiersAreContainers(line, KindsOf(ports), |line| - 1);
    assert Found(line)[..|line| - 1] == Found(line);
    assert |line| > 1 ==> Found(line)[0] == Some(line[0]);
  }

  predicate SameLetter(a: char, b: char) {
    || a == b
    || ('A' <= a <= 'Z' && b as int == a as int + 32)
    || ('A' <= b <= 'Z' && a as int == b as int + 32)
  }

  predicate SameLetters(a: string, b: string) {
    |a| == |b| && forall i | 0 <= i < |a| :: SameLetter(a[i], b[i])
  }

  lemma {:induction false} LowerComparesLetters(a: string, b: string)
    ensures Lower(a) == Lower(b) <==> SameLetters(a, b)
  {
    if a == "" || b == "" {
      assert Lower(a) == "" <==> a == "";
      assert Lower(b) == "" <==> b == "";
    } else {
      LowerComparesLetters(a[1..], b[1..]);
      var x, y := [if 'A' <= a[0] <= 'Z' then a[0] + (32 as char) else a[0]], [if 'A' <= b[0] <= 'Z' then b[0] + (32 as char) else b[0]];
      assert Lower(a) == x + Lower(a[1..]) && Lower(b) == y + Lower(b[1..]);
      HeadAndTail(x[0], Lower(a[1..]), y[0], Lower(b[1..]));
      assert SameLetters(a, b) <==> SameLetter(a[0], b[0]) && SameLetters(a[1..], b[1..]) by {
        LettersOfHeadAndTail(a, b);
      }
    }
  }

  lemma {:induction false} HeadAndTail(x: char, xs: string, y: char, ys: string)
    ensures [x] + xs == [y] + ys <==> x == y && xs == ys
  {
    if [x] + xs == [y] + ys {
      assert ([x] + xs)[0] == x && ([x] + xs)[1..] == xs && ([y] + ys)[1..] == ys;
    }
  }

  lemma {:induction false} LettersOfHeadAndTail(a: string, b: string)
    requires a != "" && b != ""
    ensures SameLetters(a, b) <==> SameLetter(a[0], b[0]) && SameLetters(a[1..], b[1..])
  {
    if SameLetter(a[0], b[0]) && SameLetters(a[1..], b[1..]) {
      forall i | 0 <= i < |a|
        ensures SameLetter(a[i], b[i])
      {
        assert i > 0 ==> a[i] == a[1..][i - 1] && b[i] == b[1..][i - 1];
      }
    }
    if SameLetters(a, b) {
      forall i | 0 <= i < |a[1..]|
        ensures SameLetter(a[1..][i], b[1..][i])
      {
        assert a[1..][i] == a[i + 1] && b[1..][i] == b[i + 1];
      }
    }
  }

  /** A port of the wanted kind, of an action in the organization, with this identifier whatever the case. */
  predicate IsUse(row: Row, organization: set<ActionId>, identifier: string, kind: PortKind) {
    row.kind == kind && row.action in organization && row.identifier.Some? && SameLetters(row.identifier.value, identifier)
  }

  /** Where the uses among the first `n` rows are. */
  function UsePlaces(rows: seq<Row>, n: nat, organization: set<ActionId>, identifier: string, kind: PortKind): seq<nat>
    requires n <= |rows|
  {
    if n == 0 then []
    else UsePlaces(rows, n - 1, organization, identifier, kind) + if IsUse(rows[n - 1], organization, identifier, kind) then [n - 1] else []
  }

  predicate Ascend(at: seq<nat>, n: nat) {
    (forall i | 0 <= i < |at| :: at[i] < n) && (forall i, j | 0 <= i < j < |at| :: at[i] < at[j])
  }

  lemma {:induction false} AscendSnoc(at: seq<nat>, n: nat)
    requires Ascend(at, n)
    ensures Ascend(at, n + 1) && Ascend(at + [n], n + 1)
  {
  }

  lemma {:induction false} UsePlacesAscend(rows: seq<Row>, n: nat, organization: set<ActionId>, identifier: string, kind: PortKind)
    requires n <= |rows|
    ensures Ascend(UsePlaces(rows, n, organization, identifier, kind), n)
  {
    if n > 0 {
      UsePlacesAscend(rows, n - 1, organization, identifier, kind);
      AscendSnoc(UsePlaces(rows, n - 1, organization, identifier, kind), n - 1);
    }
  }

  lemma {:induction false} EachUseHasAPlace(rows: seq<Row>, n: nat, organization: set<ActionId>, identifier: string, kind: PortKind, k: nat)
    requires n <= |rows|
    ensures k in UsePlaces(rows, n, organization, identifier, kind) <==> k < n && IsUse(rows[k], organization, identifier, kind)
  {
    if n > 0 {
      EachUseHasAPlace(rows, n - 1, organization, identifier, kind, k);
    }
  }

  /** The usages of the rows at these places, in order. */
  predicate AreUsagesAt(usages: seq<PortUsage>, rows: seq<Row>, at: seq<nat>) {
    |usages| == |at| && forall i | 0 <= i < |at| :: at[i] < |rows| && usages[i] == Usage(rows[at[i]], Chain(rows, rows[at[i]]))
  }

  lemma {:induction false} UsagesSnoc(usages: seq<PortUsage>, rows: seq<Row>, at: seq<nat>, k: nat, usage: PortUsage)
    requires AreUsagesAt(usages, rows, at) && k < |rows| && usage == Usage(rows[k], Chain(rows, rows[k]))
    ensures AreUsagesAt(usages + [usage], rows, at + [k])
  {
  }

  lemma {:induction false} UsesIffIsUse(row: Row, organization: set<ActionId>, identifier: string, kind: PortKind)
    ensures Uses(row, organization, identifier, kind) <==> IsUse(row, organization, identifier, kind)
  {
    if row.identifier.Some? {
      LowerComparesLetters(row.identifier.value, identifier);
    }
  }

  lemma {:induction false} UsagesAtPlaces(rows: seq<Row>, n: nat, organization: set<ActionId>, identifier: string, kind: PortKind)
    requires n <= |rows|
    ensures AreUsagesAt(UsagesOf(rows, n, organization, identifier, kind), rows, UsePlaces(rows, n, organization, identifier, kind))
  {
    if n > 0 {
      UsagesAtPlaces(rows, n - 1, organization, identifier, kind);
      OneMoreUsage(rows, n, organization, identifier, kind, Usage(rows[n - 1], Chain(rows, rows[n - 1])));
      UsagesSnoc(UsagesOf(rows, n - 1, organization, identifier, kind), rows, UsePlaces(rows, n - 1, organization, identifier, kind),
                 n - 1, Usage(rows[n - 1], Chain(rows, rows[n - 1])));
    }
  }

  lemma {:induction false} OneMoreUsage(rows: seq<Row>, n: nat, organization: set<ActionId>, identifier: string, kind: PortKind, usage: PortUsage)
    requires 0 < n <= |rows| && usage == Usage(rows[n - 1], Chain(rows, rows[n - 1]))
    ensures var usages, at := UsagesOf(rows, n - 1, organization, identifier, kind), UsePlaces(rows, n - 1, organization, identifier, kind);
      (UsagesOf(rows, n, organization, identifier, kind), UsePlaces(rows, n, organization, identifier, kind))
      == if IsUse(rows[n - 1], organization, identifier, kind) then (usages + [usage], at + [n - 1]) else (usages, at)
  {
    var usages, at := UsagesOf(rows, n - 1, organization, identifier, kind), UsePlaces(rows, n - 1, organization, identifier, kind);
    assert usages + [] == usages && at + [] == at;
    UsesIffIsUse(rows[n - 1], organization, identifier, kind);
  }

  /** There is one usage for each use, and no other, in row order. */
  lemma {:induction false} UsagesAreOfUses(rows: seq<Row>, organization: set<ActionId>, identifier: string, kind: PortKind)
    returns (at: seq<nat>)
    ensures Ascend(at, |rows|) && forall k: nat | k < |rows| :: k in at <==> IsUse(rows[k], organization, identifier, kind)
    ensures AreUsagesAt(UsagesOf(rows, |rows|, organization, identifier, kind), rows, at)
  {
    at := UsePlaces(rows, |rows|, organization, identifier, kind);
    UsePlacesAscend(rows, |rows|, organization, identifier, kind);
    UsagesAtPlaces(rows, |rows|, organization, identifier, kind);
    forall k: nat | k < |rows|
      ensures k in at <==> IsUse(rows[k], organization, identifier, kind)
    {
      EachUseHasAPlace(rows, |rows|, organization, identifier, kind, k);
    }
  }

  ghost predicate EveryChainIsTrue(rows: seq<Row>, action: ActionId) {
    forall line | Lineage(rows, action, line) :: Chain(rows, Last(line)) == Found(line)
  }

  /** The reconstruction is right for every row exactly when no root port with children has the empty key: below such
      a root the path drops the root, and its children look like roots themselves. */
  lemma {:induction false} ChainsAreTrueIffGroupsAreNamed(rows: seq<Row>, action: ActionId, forest: seq<Port>, layout: Layout)
    requires LaidOut(rows, action, forest, layout) && WellKeyed(forest)
    ensures EveryChainIsTrue(rows, action) <==> GroupsAreNamed(forest)
  {
    if GroupsAreNamed(forest) {
      forall line | Lineage(rows, action, line)
        ensures Chain(rows, Last(line)) == Found(line)
      {
        ChainIsTheLineage(rows, action, forest, layout, line);
      }
    } else {
      var p :| p in forest && p.children != [] && p.key == "";
      var k: nat :| k < |forest| && forest[k] == p;
      var line := UnnamedGroup(rows, action, forest, layout, k);
      UnnamedGroupLosesItsChildren(rows, action, line);
    }
  }

  /** A root with the empty key and its first child, as rows. */
  lemma {:induction false} UnnamedGroup(rows: seq<Row>, action: ActionId, forest: seq<Port>, layout: Layout,
        k: nat) returns (line: seq<Row>)
    requires LaidOut(rows, action, forest, layout) && WellKeyed(forest)
    requires k < |forest| && forest[k].children != [] && forest[k].key == ""
    ensures Lineage(rows, action, line) && |line| == 2 && line[1].keyPath == line[1].key && Free(line[1].key, '.')
  {
    var roots := RootRows(rows, action);
    RootRowsFrom(rows, action);
    assert Show(roots, Roots(forest), action, layout);
    var root := roots[k];
    assert root in roots && layout.At(root.id) == Roots(forest)[k];
    var child := FirstChild(rows, action, layout, root.id);
    assert forest[k] in forest && forest[k].children[0] in forest[k].children;
    line := [root, child];
  }

  lemma {:induction false} FirstChild(rows: seq<Row>, action: ActionId, layout: Layout, up: nat) returns (child: Row)
    requires layout.Has(up) && Show(ChildRows(rows, up), Kids(layout.At(up), up), action, layout)
    requires layout.At(up).port.children != [] && layout.At(up).path == ""
    ensures child in rows && child.action == action && child.parent == Some(up)
    ensures child.keyPath == child.key == layout.At(up).port.children[0].key
  {
    ChildRowsFrom(rows, up);
    child := ChildRows(rows, up)[0];
    assert child in ChildRows(rows, up);
  }

  lemma {:induction false} UnnamedGroupLosesItsChildren(rows: seq<Row>, action: ActionId, line: seq<Row>)
    requires Lineage(rows, action, line) && |line| == 2 && line[1].keyPath == line[1].key && Free(line[1].key, '.')
    ensures Chain(rows, Last(line)) != Found(line)
  {
    SplitFree(line[1].key, '.');
    assert |Chain(rows, line[1])| == 0 && |Found(line)| == 1;
  }
}
