/** The relational port rows of an action (facade/mutations/implementation.py): a forest of ports is flattened level
    by level into rows that name their parent row. */
module Ports {
  import opened Common

  type ActionId = nat

  datatype PortKind =
    | INT | STRING | STRUCTURE | LIST | BOOL | DICT | FLOAT | DATE | UNION | ENUM | MODEL
    | MEMORY_STRUCTURE | INTERFACE | QUANTITY

  /** A declared port. `constraint` is its compiled requires/provides predicate, if it declares any. */
  datatype Port = Port(
    key: string,
    kind: PortKind,
    identifier: Option<string>,
    dimension: Option<string>,
    nullable: bool,
    constraint: Option<string>,
    children: seq<Port>)

  datatype Row = Row(
    id: nat,
    action: ActionId,
    parent: Option<nat>,
    index: nat,
    key: string,
    keyPath: string,
    kind: PortKind,
    identifier: Option<string>,
    dimension: Option<string>,
    nullable: bool,
    constraint: Option<string>)

  /** A row of the level under construction: a port, its path, and the row it goes under. */
  datatype Unsaved = Unsaved(port: Port, path: string, parent: Option<nat>, index: nat)

  /** How many ports a forest has, at all depths. */
  function PortCount(forest: seq<Port>): nat {
    if forest == [] then 0 else 1 + PortCount(forest[0].children) + PortCount(forest[1..])
  }

  /** The dot path of a child; an empty parent path counts as none. */
  function ExtendPath(parentPath: string, key: string): string {
    if parentPath == "" then key else parentPath + "." + key
  }

  function Build(port: Port, parent: Option<nat>, index: nat, parentPath: string): Unsaved {
    Unsaved(port, ExtendPath(parentPath, port.key), parent, index)
  }

  function Level(ports: seq<Port>, parent: Option<nat>, parentPath: string): seq<Unsaved> {
    seq(|ports|, i requires 0 <= i < |ports| => Build(ports[i], parent, i, parentPath))
  }

  function Roots(forest: seq<Port>): seq<Unsaved> {
    Level(forest, None, "")
  }

  /** The children of a saved row, to be saved next. */
  function Kids(node: Unsaved, id: nat): seq<Unsaved> {
    Level(node.port.children, Some(id), node.path)
  }

  /** All children of a level whose rows were saved under consecutive ids from `first`. */
  function NextLevel(level: seq<Unsaved>, first: nat): seq<Unsaved> {
    if level == [] then [] else Kids(level[0], first) + NextLevel(level[1..], first + 1)
  }

  function Saved(node: Unsaved, id: nat, action: ActionId): Row {
    Row(id, action, node.parent, node.index, node.port.key, node.path, node.port.kind, node.port.identifier,
        node.port.dimension, node.port.nullable, node.port.constraint)
  }

  function SavedAll(level: seq<Unsaved>, first: nat, action: ActionId): (rows: seq<Row>)
    ensures |rows| == |level| && forall i | 0 <= i < |level| :: rows[i] == Saved(level[i], first + i, action)
  {
    seq(|level|, i requires 0 <= i < |level| => Saved(level[i], first + i, action))
  }

  // ------------------------------------------------------------------------------------------------------------
  // Reading rows back
  // ------------------------------------------------------------------------------------------------------------

  function ChildRows(rows: seq<Row>, parent: nat): seq<Row> {
    if rows == [] then []
    else ChildRows(rows[..|rows| - 1], parent) + if Last(rows).parent == Some(parent) then [Last(rows)] else []
  }

  function RootRows(rows: seq<Row>, action: ActionId): seq<Row> {
    if rows == [] then []
    else
      RootRows(rows[..|rows| - 1], action)
      + if Last(rows).action == action && Last(rows).parent.None? then [Last(rows)] else []
  }

  function OtherRows(rows: seq<Row>, action: ActionId): seq<Row> {
    if rows == [] then []
    else OtherRows(rows[..|rows| - 1], action) + if Last(rows).action != action then [Last(rows)] else []
  }

  /** The nodes of one build, in the order their rows were saved: node k has row id `base + k`. */
  datatype Layout = Layout(base: nat, nodes: seq<Unsaved>)
  {
    predicate Has(id: nat) {
      base <= id < base + |nodes|
    }

    function At(id: nat): Unsaved
      requires Has(id)
    {
      nodes[id - base]
    }

    function Grown(level: seq<Unsaved>): Layout {
      Layout(base, nodes + level)
    }

    function Next(): nat {
      base + |nodes|
    }
  }

  /** These rows are the given nodes, in order. */
  predicate Show(rows: seq<Row>, nodes: seq<Unsaved>, action: ActionId, layout: Layout) {
    && |rows| == |nodes|
    && forall i | 0 <= i < |rows| ::
         layout.Has(rows[i].id) && layout.At(rows[i].id) == nodes[i] && rows[i] == Saved(nodes[i], rows[i].id, action)
  }

  /** The rows of `action` are exactly this forest: `layout` says which node each row id stands for, the rows without
      parent are the roots in order, the rows under any row are the children of its node in order, and every other row
      has its parent among the rows. */
  ghost predicate LaidOut(rows: seq<Row>, action: ActionId, forest: seq<Port>, layout: Layout) {
    && RowsAreNodes(rows, action, layout)
    && Show(RootRows(rows, action), Roots(forest), action, layout)
    && (forall id: nat | layout.Has(id) :: Show(ChildRows(rows, id), Kids(layout.At(id), id), action, layout))
    && Rooted(rows, action)
  }

  /** Every parent is an earlier row of the same action. */
  ghost predicate Rooted(rows: seq<Row>, action: ActionId) {
    forall row | row in rows && row.action == action && row.parent.Some? ::
      row.parent.value < row.id && HasRow(rows, action, row.parent.value)
  }

  ghost predicate HasRow(rows: seq<Row>, action: ActionId, id: nat) {
    exists row | row in rows :: row.action == action && row.id == id
  }

  ghost predicate RowsAreNodes(rows: seq<Row>, action: ActionId, layout: Layout) {
    forall i | 0 <= i < |rows| && rows[i].action == action ::
      layout.Has(rows[i].id) && rows[i] == Saved(layout.At(rows[i].id), rows[i].id, action)
  }

  // ------------------------------------------------------------------------------------------------------------
  // Lists of rows
  // ------------------------------------------------------------------------------------------------------------

  lemma {:induction false} ChildRowsAppend(rows: seq<Row>, more: seq<Row>, parent: nat)
    ensures ChildRows(rows + more, parent) == ChildRows(rows, parent) + ChildRows(more, parent)
  {
    if more == [] {
      assert rows + more == rows;
    } else {
      assert (rows + more)[..|rows + more| - 1] == rows + more[..|more| - 1];
      ChildRowsAppend(rows, more[..|more| - 1], parent);
    }
  }

  lemma {:induction false} RootRowsAppend(rows: seq<Row>, more: seq<Row>, action: ActionId)
    ensures RootRows(rows + more, action) == RootRows(rows, action) + RootRows(more, action)
  {
    if more == [] {
      assert rows + more == rows;
    } else {
      assert (rows + more)[..|rows + more| - 1] == rows + more[..|more| - 1];
      RootRowsAppend(rows, more[..|more| - 1], action);
    }
  }

  lemma {:induction false} OtherRowsAppend(rows: seq<Row>, more: seq<Row>, action: ActionId)
    ensures OtherRows(rows + more, action) == OtherRows(rows, action) + OtherRows(more, action)
  {
    if more == [] {
      assert rows + more == rows;
    } else {
      assert (rows + more)[..|rows + more| - 1] == rows + more[..|more| - 1];
      OtherRowsAppend(rows, more[..|more| - 1], action);
    }
  }

  lemma {:induction false} ChildRowsFrom(rows: seq<Row>, parent: nat)
    ensures forall row :: row in ChildRows(rows, parent) <==> row in rows && row.parent == Some(parent)
  {
    if rows != [] {
      ChildRowsFrom(rows[..|rows| - 1], parent);
      assert rows == rows[..|rows| - 1] + [Last(rows)];
    }
  }

  lemma {:induction false} RootRowsFrom(rows: seq<Row>, action: ActionId)
    ensures forall row :: row in RootRows(rows, action) <==> row in rows && row.action == action && row.parent.None?
  {
    if rows != [] {
      RootRowsFrom(rows[..|rows| - 1], action);
      assert rows == rows[..|rows| - 1] + [Last(rows)];
    }
  }

  lemma {:induction false} OtherRowsDropsAll(rows: seq<Row>, action: ActionId)
    requires forall i | 0 <= i < |rows| :: rows[i].action == action
    ensures OtherRows(rows, action) == []
  {
    if rows != [] {
      OtherRowsDropsAll(rows[..|rows| - 1], action);
    }
  }

  lemma {:induction false} OtherRowsKeepsAll(rows: seq<Row>, action: ActionId)
    requires forall i | 0 <= i < |rows| :: rows[i].action != action
    ensures OtherRows(rows, action) == rows
  {
    if rows != [] {
      OtherRowsKeepsAll(rows[..|rows| - 1], action);
    }
  }

  lemma {:induction false} OtherRowsFrom(rows: seq<Row>, action: ActionId, i: nat) returns (from: nat)
    requires i < |OtherRows(rows, action)|
    ensures from < |rows| && rows[from] == OtherRows(rows, action)[i] && rows[from].action != action
  {
    var earlier := OtherRows(rows[..|rows| - 1], action);
    if i < |earlier| {
      from := OtherRowsFrom(rows[..|rows| - 1], action, i);
    } else {
      from := |rows| - 1;
    }
  }

  lemma {:induction false} NoChildRows(rows: seq<Row>, parent: nat)
    requires forall i | 0 <= i < |rows| :: rows[i].parent != Some(parent)
    ensures ChildRows(rows, parent) == []
  {
    if rows != [] {
      NoChildRows(rows[..|rows| - 1], parent);
    }
  }

  lemma {:induction false} AllChildRows(rows: seq<Row>, parent: nat)
    requires forall i | 0 <= i < |rows| :: rows[i].parent == Some(parent)
    ensures ChildRows(rows, parent) == rows
  {
    if rows != [] {
      AllChildRows(rows[..|rows| - 1], parent);
    }
  }

  lemma {:induction false} NoRootRows(rows: seq<Row>, action: ActionId)
    requires forall i | 0 <= i < |rows| :: rows[i].parent.Some?
    ensures RootRows(rows, action) == []
  {
    if rows != [] {
      NoRootRows(rows[..|rows| - 1], action);
    }
  }

  lemma {:induction false} AllRootRows(rows: seq<Row>, action: ActionId)
    requires forall i | 0 <= i < |rows| :: rows[i].parent.None? && rows[i].action == action
    ensures RootRows(rows, action) == rows
  {
    if rows != [] {
      AllRootRows(rows[..|rows| - 1], action);
    }
  }

  lemma {:induction false} OnlyTheLastHasChildRows(rows: seq<Row>, more: seq<Row>, last: seq<Row>, parent: nat)
    requires forall i | 0 <= i < |rows| :: rows[i].parent != Some(parent)
    requires forall i | 0 <= i < |more| :: more[i].parent != Some(parent)
    ensures ChildRows(rows + (more + last), parent) == ChildRows(last, parent)
  {
    NoChildRows(rows, parent);
    NoChildRows(more, parent);
    ChildRowsAppend(more, last, parent);
    ChildRowsAppend(rows, more + last, parent);
  }

  lemma {:induction false} OnlyTheFirstAreChildRows(rows: seq<Row>, more: seq<Row>, parent: nat)
    requires forall i | 0 <= i < |rows| :: rows[i].parent == Some(parent)
    requires forall i | 0 <= i < |more| :: more[i].parent != Some(parent)
    ensures ChildRows(rows + more, parent) == rows
  {
    AllChildRows(rows, parent);
    NoChildRows(more, parent);
    ChildRowsAppend(rows, more, parent);
  }

  lemma {:induction false} OnlyTheMiddleAreRootRows(rows: seq<Row>, more: seq<Row>, last: seq<Row>, action: ActionId)
    requires forall i | 0 <= i < |rows| :: rows[i].action != action
    requires forall i | 0 <= i < |more| :: more[i].action == action && more[i].parent.None?
    requires forall i | 0 <= i < |last| :: last[i].parent.Some?
    ensures RootRows(rows + (more + last), action) == more
  {
    NoRootsOfAction(rows, action);
    AllRootRows(more, action);
    NoRootRows(last, action);
    RootRowsAppend(more, last, action);
    RootRowsAppend(rows, more + last, action);
  }

  lemma {:induction false} SavedAllAppend(level: seq<Unsaved>, more: seq<Unsaved>, first: nat, action: ActionId)
    ensures SavedAll(level + more, first, action) == SavedAll(level, first, action) + SavedAll(more, first + |level|, action)
  {
  }

  // ------------------------------------------------------------------------------------------------------------
  // One level
  // ------------------------------------------------------------------------------------------------------------

  lemma {:induction false} NextLevelParents(level: seq<Unsaved>, first: nat)
    ensures forall i | 0 <= i < |NextLevel(level, first)| ::
      NextLevel(level, first)[i].parent.Some? && first <= NextLevel(level, first)[i].parent.value < first + |level|
  {
    if level != [] {
      NextLevelParents(level[1..], first + 1);
    }
  }

  /** The children of the rows before the j-th of a level: where its own children start in the next level. */
  function BlockStart(level: seq<Unsaved>, j: nat): nat
    requires j <= |level|
  {
    if j == 0 then 0 else |level[0].port.children| + BlockStart(level[1..], j - 1)
  }

  lemma {:induction false} BlockOfNextLevel(level: seq<Unsaved>, first: nat, j: nat)
    requires j < |level|
    ensures BlockStart(level, j) + |Kids(level[j], first + j)| <= |NextLevel(level, first)|
    ensures var at, kids := BlockStart(level, j), Kids(level[j], first + j);
      forall i | 0 <= i < |kids| :: NextLevel(level, first)[at + i] == kids[i]
  {
    if j > 0 {
      BlockOfNextLevel(level[1..], first + 1, j - 1);
    }
  }

  /** Among the rows of the next level, those under the j-th row of this one are one block: its children in order. */
  lemma {:induction false} ChildrenFormABlock(level: seq<Unsaved>, first: nat, next: nat, action: ActionId, j: nat, id: nat, at: nat)
    requires j < |level| && id == first + j && at == next + BlockStart(level, j)
    ensures ChildRows(SavedAll(NextLevel(level, first), next, action), id) == SavedAll(Kids(level[j], id), at, action)
  {
    if j == 0 {
      FirstChildren(level, first, next, action);
    } else {
      ChildrenFormABlock(level[1..], first + 1, next + |level[0].port.children|, action, j - 1, id, at);
      LaterChildren(level, first, next, action, id);
      assert level[1..][j - 1] == level[j];
    }
  }

  lemma {:induction false} FirstChildren(level: seq<Unsaved>, first: nat, next: nat, action: ActionId)
    requires level != []
    ensures ChildRows(SavedAll(NextLevel(level, first), next, action), first) == SavedAll(Kids(level[0], first), next, action)
  {
    NextLevelParents(level[1..], first + 1);
    FirstBlock(Kids(level[0], first), NextLevel(level[1..], first + 1), first, next, action);
  }

  lemma {:induction false} LaterChildren(level: seq<Unsaved>, first: nat, next: nat, action: ActionId, id: nat)
    requires level != [] && id != first
    ensures ChildRows(SavedAll(NextLevel(level, first), next, action), id)
      == ChildRows(SavedAll(NextLevel(level[1..], first + 1), next + |level[0].port.children|, action), id)
  {
    LaterBlock(Kids(level[0], first), NextLevel(level[1..], first + 1), id, next, action);
  }

  lemma {:induction false} FirstBlock(head: seq<Unsaved>, rest: seq<Unsaved>, id: nat, next: nat, action: ActionId)
    requires forall i | 0 <= i < |head| :: head[i].parent == Some(id)
    ensures (forall i | 0 <= i < |rest| :: rest[i].parent != Some(id))
      ==> ChildRows(SavedAll(head + rest, next, action), id) == SavedAll(head, next, action)
  {
    if forall i | 0 <= i < |rest| :: rest[i].parent != Some(id) {
      SavedAllAppend(head, rest, next, action);
      OnlyTheFirstAreChildRows(SavedAll(head, next, action), SavedAll(rest, next + |head|, action), id);
    }
  }

  lemma {:induction false} LaterBlock(head: seq<Unsaved>, rest: seq<Unsaved>, id: nat, next: nat, action: ActionId)
    requires forall i | 0 <= i < |head| :: head[i].parent != Some(id)
    ensures ChildRows(SavedAll(head + rest, next, action), id) == ChildRows(SavedAll(rest, next + |head|, action), id)
  {
    SavedAllAppend(head, rest, next, action);
    NoChildRows(SavedAll(head, next, action), id);
    ChildRowsAppend(SavedAll(head, next, action), SavedAll(rest, next + |head|, action), id);
  }

  lemma {:induction false} NextLevelAppend(level: seq<Unsaved>, more: seq<Unsaved>, first: nat)
    ensures NextLevel(level + more, first) == NextLevel(level, first) + NextLevel(more, first + |level|)
  {
    if level == [] {
      assert level + more == more;
    } else {
      assert (level + more)[1..] == level[1..] + more;
      NextLevelAppend(level[1..], more, first + 1);
    }
  }

  lemma {:induction false} NoRootsOfAction(rows: seq<Row>, action: ActionId)
    requires forall i | 0 <= i < |rows| :: rows[i].action != action
    ensures RootRows(rows, action) == []
  {
    if rows != [] {
      NoRootsOfAction(rows[..|rows| - 1], action);
    }
  }

  /** The children of node k are a block of `below`, and once `below` is saved after `before` other nodes they are
      the rows under it. */
  ghost predicate Follows(nodes: seq<Unsaved>, base: nat, before: nat, below: seq<Unsaved>, action: ActionId, k: nat)
    requires k < |nodes|
  {
    var kids, at := Kids(nodes[k], base + k), BlockStart(nodes, k);
    && at + |kids| <= |below|
    && (forall i | 0 <= i < |kids| :: below[at + i] == kids[i])
    && ChildRows(SavedAll(below, base + before, action), base + k) == SavedAll(kids, base + before + at, action)
  }

  lemma {:induction false} NextLevelFollows(nodes: seq<Unsaved>, base: nat, before: nat, action: ActionId)
    ensures forall k | 0 <= k < |nodes| :: Follows(nodes, base, before, NextLevel(nodes, base), action, k)
    ensures forall i | 0 <= i < |NextLevel(nodes, base)| :: NextLevel(nodes, base)[i].parent.Some?
  {
    NextLevelParents(nodes, base);
    forall k | 0 <= k < |nodes|
      ensures Follows(nodes, base, before, NextLevel(nodes, base), action, k)
    {
      ChildrenFormABlock(nodes, base, base + before, action, k, base + k, base + before + BlockStart(nodes, k));
      BlockOfNextLevel(nodes, base, k);
    }
  }

  lemma {:induction false} BlockShow(rows: seq<Row>, before: seq<Unsaved>, below: seq<Unsaved>, at: nat, nodes: seq<Unsaved>,
                                     action: ActionId, layout: Layout)
    requires layout.nodes == before + below && at + |nodes| <= |below|
    requires forall i | 0 <= i < |nodes| :: below[at + i] == nodes[i]
    requires rows == SavedAll(nodes, layout.base + |before| + at, action)
    ensures Show(rows, nodes, action, layout)
  {
    forall i | 0 <= i < |rows|
      ensures layout.Has(rows[i].id) && layout.At(rows[i].id) == nodes[i]
    {
      assert layout.nodes[|before| + (at + i)] == below[at + i];
    }
  }

  lemma {:induction false} FirstShow(rows: seq<Row>, nodes: seq<Unsaved>, below: seq<Unsaved>, action: ActionId, layout: Layout)
    requires layout.nodes == nodes + below && rows == SavedAll(nodes, layout.base, action)
    ensures Show(rows, nodes, action, layout)
  {
  }

  lemma {:induction false} RootsShow(kept: seq<Row>, action: ActionId, layout: Layout, roots: seq<Unsaved>, below: seq<Unsaved>)
    requires forall i | 0 <= i < |kept| :: kept[i].action != action
    requires layout.nodes == roots + below
    requires forall i | 0 <= i < |roots| :: roots[i].parent.None?
    requires forall i | 0 <= i < |below| :: below[i].parent.Some?
    ensures Show(RootRows(kept + SavedAll(layout.nodes, layout.base, action), action), roots, action, layout)
  {
    RootRowsSaved(kept, action, layout.base, layout.nodes, roots, below);
    FirstShow(RootRows(kept + SavedAll(layout.nodes, layout.base, action), action), roots, below, action, layout);
  }

  lemma {:induction false} RootRowsSaved(kept: seq<Row>, action: ActionId, base: nat, nodes: seq<Unsaved>,
        roots: seq<Unsaved>, below: seq<Unsaved>)
    requires nodes == roots + below
    requires forall i | 0 <= i < |kept| :: kept[i].action != action
    requires forall i | 0 <= i < |roots| :: roots[i].parent.None?
    requires forall i | 0 <= i < |below| :: below[i].parent.Some?
    ensures RootRows(kept + SavedAll(nodes, base, action), action) == SavedAll(roots, base, action)
  {
    SavedAllAppend(roots, below, base, action);
    OnlyTheMiddleAreRootRows(kept, SavedAll(roots, base, action), SavedAll(below, base + |roots|, action), action);
  }

  /** `kids` is a block of `below`, and its rows are the rows under `id` there. */
  lemma {:induction false} BlockShowsAmongAll(kept: seq<Row>, action: ActionId, layout: Layout, roots: seq<Unsaved>,
        below: seq<Unsaved>,
                                              id: nat, kids: seq<Unsaved>, at: nat)
    requires forall i | 0 <= i < |kept| :: kept[i].parent != Some(id)
    requires layout.nodes == roots + below && forall i | 0 <= i < |roots| :: roots[i].parent.None?
    requires at + |kids| <= |below| && forall i | 0 <= i < |kids| :: below[at + i] == kids[i]
    requires ChildRows(SavedAll(below, layout.base + |roots|, action), id) == SavedAll(kids, layout.base + |roots| + at, action)
    ensures Show(ChildRows(kept + SavedAll(layout.nodes, layout.base, action), id), kids, action, layout)
  {
    ChildRowsSaved(kept, action, layout.base, layout.nodes, roots, below, id);
    BlockShow(ChildRows(kept + SavedAll(layout.nodes, layout.base, action), id), roots, below, at, kids, action, layout);
  }

  lemma {:induction false} ChildRowsSaved(kept: seq<Row>, action: ActionId, base: nat, nodes: seq<Unsaved>,
        roots: seq<Unsaved>, below: seq<Unsaved>, id: nat)
    requires nodes == roots + below
    requires forall i | 0 <= i < |kept| :: kept[i].parent != Some(id)
    requires forall i | 0 <= i < |roots| :: roots[i].parent.None?
    ensures ChildRows(kept + SavedAll(nodes, base, action), id) == ChildRows(SavedAll(below, base + |roots|, action), id)
  {
    SavedAllAppend(roots, below, base, action);
    OnlyTheLastHasChildRows(kept, SavedAll(roots, base, action), SavedAll(below, base + |roots|, action), id);
  }

  lemma {:induction false} BlocksAreLaidOut(kept: seq<Row>, action: ActionId, forest: seq<Port>, layout: Layout, below: seq<Unsaved>)
    requires forall i | 0 <= i < |kept| :: kept[i].action != action && (kept[i].parent.Some? ==> kept[i].parent.value < layout.base)
    requires layout.nodes == Roots(forest) + below
    requires forall i | 0 <= i < |below| :: below[i].parent.Some?
    requires forall k | 0 <= k < |layout.nodes| :: Follows(layout.nodes, layout.base, |forest|, below, action, k)
    requires Rooted(kept + SavedAll(layout.nodes, layout.base, action), action)
    ensures LaidOut(kept + SavedAll(layout.nodes, layout.base, action), action, forest, layout)
  {
    var roots := Roots(forest);
    RootsShow(kept, action, layout, roots, below);
    AllChildrenShow(kept, action, layout, roots, below);
    RowsSavedAreNodes(kept, action, layout);
  }

  lemma {:induction false} AllChildrenShow(kept: seq<Row>, action: ActionId, layout: Layout, roots: seq<Unsaved>, below: seq<Unsaved>)
    requires forall i | 0 <= i < |kept| :: kept[i].parent.Some? ==> kept[i].parent.value < layout.base
    requires layout.nodes == roots + below
    requires forall i | 0 <= i < |roots| :: roots[i].parent.None?
    requires forall k | 0 <= k < |layout.nodes| :: Follows(layout.nodes, layout.base, |roots|, below, action, k)
    ensures forall id: nat | layout.Has(id) ::
      Show(ChildRows(kept + SavedAll(layout.nodes, layout.base, action), id), Kids(layout.At(id), id), action, layout)
  {
    forall id: nat | layout.Has(id)
      ensures Show(ChildRows(kept + SavedAll(layout.nodes, layout.base, action), id), Kids(layout.At(id), id), action, layout)
    {
      var k := id - layout.base;
      assert Follows(layout.nodes, layout.base, |roots|, below, action, k);
      BlockShowsAmongAll(kept, action, layout, roots, below, id, Kids(layout.nodes[k], id), BlockStart(layout.nodes, k));
    }
  }

  /** Rows saved in level order, which is one equation: the roots, followed by the children of every node in turn. */
  lemma {:induction false} LevelOrderIsLaidOut(kept: seq<Row>, action: ActionId, forest: seq<Port>, layout: Layout)
    requires forall i | 0 <= i < |kept| :: kept[i].action != action && (kept[i].parent.Some? ==> kept[i].parent.value < layout.base)
    requires layout.nodes == Roots(forest) + NextLevel(layout.nodes, layout.base)
    requires Rooted(kept + SavedAll(layout.nodes, layout.base, action), action)
    ensures LaidOut(kept + SavedAll(layout.nodes, layout.base, action), action, forest, layout)
  {
    NextLevelFollows(layout.nodes, layout.base, |forest|, action);
    BlocksAreLaidOut(kept, action, forest, layout, NextLevel(layout.nodes, layout.base));
  }

  lemma {:induction false} RowsSavedAreNodes(kept: seq<Row>, action: ActionId, layout: Layout)
    requires forall i | 0 <= i < |kept| :: kept[i].action != action
    ensures RowsAreNodes(kept + SavedAll(layout.nodes, layout.base, action), action, layout)
  {
  }

  // ------------------------------------------------------------------------------------------------------------
  // Sizes
  // ------------------------------------------------------------------------------------------------------------

  function Pending(level: seq<Unsaved>): nat {
    if level == [] then 0 else 1 + PortCount(level[0].port.children) + Pending(level[1..])
  }

  lemma {:induction false} PendingAppend(level: seq<Unsaved>, more: seq<Unsaved>)
    ensures Pending(level + more) == Pending(level) + Pending(more)
  {
    if level == [] {
      assert level + more == more;
    } else {
      assert (level + more)[1..] == level[1..] + more;
      PendingAppend(level[1..], more);
    }
  }

  lemma {:induction false} PendingLevel(ports: seq<Port>, parent: Option<nat>, parentPath: string, from: nat)
    requires from <= |ports|
    ensures Pending(Level(ports, parent, parentPath)[from..]) == PortCount(ports[from..])
    decreases |ports| - from
  {
    if from < |ports| {
      var level := Level(ports, parent, parentPath);
      PendingLevel(ports, parent, parentPath, from + 1);
      assert level[from..][1..] == level[from + 1..] && ports[from..][1..] == ports[from + 1..];
    }
  }

  lemma {:induction false} PendingShrinks(level: seq<Unsaved>, first: nat)
    ensures Pending(NextLevel(level, first)) + |level| == Pending(level)
  {
    if level != [] {
      var kids := Kids(level[0], first);
      PendingAppend(kids, NextLevel(level[1..], first + 1));
      PendingLevel(level[0].port.children, Some(first), level[0].path, 0);
      assert kids[0..] == kids && level[0].port.children[0..] == level[0].port.children;
      PendingShrinks(level[1..], first + 1);
    }
  }

  // ------------------------------------------------------------------------------------------------------------
  // The loop
  // ------------------------------------------------------------------------------------------------------------

  predicate ParentsWithin(nodes: seq<Unsaved>, low: nat, high: nat) {
    forall i | 0 <= i < |nodes| && nodes[i].parent.Some? :: low <= nodes[i].parent.value < high
  }

  predicate ParentsBefore(nodes: seq<Unsaved>, low: nat) {
    forall i | 0 <= i < |nodes| && nodes[i].parent.Some? :: low <= nodes[i].parent.value < low + i
  }

  /** The saved nodes and the pending level are in level order, below saved nodes, and nothing is missing. */
  ghost predicate Flattening(forest: seq<Port>, layout: Layout, level: seq<Unsaved>) {
    && layout.nodes + level == Roots(forest) + NextLevel(layout.nodes, layout.base)
    && ParentsWithin(layout.nodes + level, layout.base, layout.Next())
    && ParentsBefore(layout.nodes, layout.base)
    && |layout.nodes| + Pending(level) == PortCount(forest)
  }

  lemma {:induction false} FlatteningStarts(forest: seq<Port>, base: nat)
    ensures Flattening(forest, Layout(base, []), Roots(forest))
  {
    PendingLevel(forest, None, "", 0);
    assert Roots(forest)[0..] == Roots(forest) && forest[0..] == forest;
    assert [] + Roots(forest) == Roots(forest) + NextLevel([], base);
  }

  lemma {:induction false} FlatteningStep(forest: seq<Port>, layout: Layout, level: seq<Unsaved>)
    requires Flattening(forest, layout, level)
    ensures Flattening(forest, layout.Grown(level), NextLevel(level, layout.Next()))
    ensures Pending(NextLevel(level, layout.Next())) + |level| == Pending(level)
  {
    var below := NextLevel(level, layout.Next());
    NextLevelAppend(layout.nodes, level, layout.base);
    PendingShrinks(level, layout.Next());
    NextLevelParents(level, layout.Next());
    Regroup(layout.nodes + level, Roots(forest), NextLevel(layout.nodes, layout.base), below);
    GrownParents(layout, level, below);
  }

  lemma {:induction false} Regroup(nodes: seq<Unsaved>, roots: seq<Unsaved>, saved: seq<Unsaved>, below: seq<Unsaved>)
    requires nodes == roots + saved
    ensures nodes + below == roots + (saved + below)
  {
  }

  lemma {:induction false} GrownParents(layout: Layout, level: seq<Unsaved>, below: seq<Unsaved>)
    requires ParentsWithin(layout.nodes + level, layout.base, layout.Next())
    requires ParentsWithin(below, layout.Next(), layout.Next() + |level|)
    requires ParentsBefore(layout.nodes, layout.base)
    ensures ParentsWithin(layout.nodes + level + below, layout.base, layout.Next() + |level|)
    ensures ParentsBefore(layout.nodes + level, layout.base)
  {
    forall i | 0 <= i < |level| && level[i].parent.Some?
      ensures layout.base <= level[i].parent.value < layout.Next()
    {
      assert (layout.nodes + level)[|layout.nodes| + i] == level[i];
    }
  }

  lemma {:induction false} SavedAreRooted(kept: seq<Row>, action: ActionId, layout: Layout)
    requires forall i | 0 <= i < |kept| :: kept[i].action != action
    requires ParentsBefore(layout.nodes, layout.base)
    ensures Rooted(kept + SavedAll(layout.nodes, layout.base, action), action)
  {
    var saved := SavedAll(layout.nodes, layout.base, action);
    forall row | row in kept + saved && row.action == action && row.parent.Some?
      ensures row.parent.value < row.id && HasRow(kept + saved, action, row.parent.value)
    {
      var i :| 0 <= i < |saved| && saved[i] == row;
      assert saved[row.parent.value - layout.base] in kept + saved;
    }
  }

  lemma {:induction false} FlatteningEnds(rows: seq<Row>, kept: seq<Row>, action: ActionId, forest: seq<Port>, layout: Layout)
    requires Flattening(forest, layout, []) && rows == kept + SavedAll(layout.nodes, layout.base, action)
    requires forall i | 0 <= i < |kept| :: kept[i].action != action && (kept[i].parent.Some? ==> kept[i].parent.value < layout.base)
    ensures LaidOut(rows, action, forest, layout)
    ensures |layout.nodes| == PortCount(forest) && ParentsWithin(layout.nodes, layout.base, layout.Next())
  {
    assert layout.nodes + [] == layout.nodes;
    SavedAreRooted(kept, action, layout);
    LevelOrderIsLaidOut(kept, action, forest, layout);
  }

  lemma {:induction false} SavedGrow(kept: seq<Row>, layout: Layout, level: seq<Unsaved>, action: ActionId)
    ensures (kept + SavedAll(layout.nodes, layout.base, action)) + SavedAll(level, layout.Next(), action)
      == kept + SavedAll(layout.Grown(level).nodes, layout.base, action)
  {
    SavedAllAppend(layout.nodes, level, layout.base, action);
  }

  predicate IdsBelow(rows: seq<Row>, limit: nat) {
    forall i | 0 <= i < |rows| :: rows[i].id < limit && (rows[i].parent.Some? ==> rows[i].parent.value < limit)
  }

  lemma {:induction false} SavedIdsBelow(rows: seq<Row>, kept: seq<Row>, action: ActionId, layout: Layout)
    requires IdsBelow(kept, layout.base) && ParentsWithin(layout.nodes, layout.base, layout.Next())
    requires rows == kept + SavedAll(layout.nodes, layout.base, action)
    ensures IdsBelow(rows, layout.Next())
  {
  }

  // ------------------------------------------------------------------------------------------------------------
  // Rebuilds
  // ------------------------------------------------------------------------------------------------------------

  /** The rows of a table, and the id the next one gets. */
  datatype Table = Table(rows: seq<Row>, nextId: nat)

  /** A rebuild of an action to a forest. */
  datatype Rebuilt = Rebuilt(action: ActionId, forest: seq<Port>, layout: Layout)

  /** The rows of the action are its forest, under fresh ids; the rows of others are those there were. */
  ghost predicate IsRebuild(before: Table, b: Rebuilt, after: Table) {
    && LaidOut(after.rows, b.action, b.forest, b.layout)
    && after.rows == OtherRows(before.rows, b.action) + SavedAll(b.layout.nodes, b.layout.base, b.action)
    && |b.layout.nodes| == PortCount(b.forest) && b.layout.base == before.nextId && after.nextId == b.layout.Next()
    && ParentsWithin(b.layout.nodes, b.layout.base, b.layout.Next())
  }

  // ------------------------------------------------------------------------------------------------------------
  // The tables
  // ------------------------------------------------------------------------------------------------------------

  class PortTable {
    var rows: seq<Row>
    var nextId: nat

    function View(): Table
      reads this
    {
      Table(rows, nextId)
    }

    /** Ids are handed out in order, and parents are rows that were saved before. */
    ghost predicate Valid()
      reads this
    {
      IdsBelow(rows, nextId)
    }

    constructor ()
      ensures rows == [] && nextId == 0 && Valid()
    {
      rows, nextId := [], 0;
    }

    method BulkCreate(level: seq<Unsaved>, action: ActionId)
      modifies this
      ensures rows == old(rows) + SavedAll(level, old(nextId), action)
      ensures nextId == old(nextId) + |level|
    {
      rows := rows + SavedAll(level, nextId, action);
      nextId := nextId + |level|;
    }

    method BulkCreatePortsLevelByLevel(forest: seq<Port>, action: ActionId) returns (ghost layout: Layout)
      requires Valid() && forall i | 0 <= i < |rows| :: rows[i].action != action
      modifies this
      ensures Valid() && LaidOut(rows, action, forest, layout)
      ensures |layout.nodes| == PortCount(forest) && layout.base == old(nextId) && nextId == layout.Next()
      ensures rows == old(rows) + SavedAll(layout.nodes, old(nextId), action)
      ensures ParentsWithin(layout.nodes, layout.base, layout.Next())
    {
      layout := Layout(nextId, []);
      var level := Roots(forest);
      FlatteningStarts(forest, nextId);
      while level != []
        invariant Flattening(forest, layout, level)
        invariant layout.base == old(nextId) && nextId == layout.Next()
        invariant rows == old(rows) + SavedAll(layout.nodes, old(nextId), action)
        decreases Pending(level)
      {
        FlatteningStep(forest, layout, level);
        SavedGrow(old(rows), layout, level, action);
        layout := layout.Grown(level);
        var first := nextId;
        BulkCreate(level, action);
        level := NextLevel(level, first);
      }
      FlatteningEnds(rows, old(rows), action, forest, layout);
      SavedIdsBelow(rows, old(rows), action, layout);
    }

    /** Delete and rebuild. Deleting cascades to the children of a deleted row, which carry the same action. */
    method Rebuild(forest: seq<Port>, action: ActionId) returns (ghost layout: Layout)
      requires Valid()
      modifies this
      ensures Valid() && IsRebuild(old(View()), Rebuilt(action, forest, layout), View())
    {
      ghost var before := rows;
      var kept := OtherRows(rows, action);
      forall i | 0 <= i < |kept|
        ensures kept[i].action != action && kept[i].id < nextId && (kept[i].parent.Some? ==> kept[i].parent.value < nextId)
      {
        var from := OtherRowsFrom(before, action, i);
      }
      rows := kept;
      layout := BulkCreatePortsLevelByLevel(forest, action);
    }
  }

  datatype Definition = Definition(args: seq<Port>, results: seq<Port>)

  class PortStore {
    const args: PortTable
    const results: PortTable
    var argCount: map<ActionId, nat>
    var returnCount: map<ActionId, nat>

    ghost predicate Valid()
      reads this, args, results
    {
      args != results && args.Valid() && results.Valid()
    }

    constructor ()
      ensures Valid() && fresh(args) && fresh(results)
    {
      args := new PortTable();
      results := new PortTable();
      argCount, returnCount := map[], map[];
    }

    method RebuildRelationalPorts(action: ActionId, definition: Definition)
      returns (ghost argLayout: Layout, ghost returnLayout: Layout)
      requires Valid()
      modifies this, args, results
      ensures Valid()
      ensures IsRebuild(old(args.View()), Rebuilt(action, definition.args, argLayout), args.View())
      ensures IsRebuild(old(results.View()), Rebuilt(action, definition.results, returnLayout), results.View())
      ensures argCount == old(argCount)[action := |definition.args|]
      ensures returnCount == old(returnCount)[action := |definition.results|]
    {
      argLayout := args.Rebuild(definition.args, action);
      returnLayout := results.Rebuild(definition.results, action);
      argCount := argCount[action := |definition.args|];
      returnCount := returnCount[action := |definition.results|];
    }
  }

  // ------------------------------------------------------------------------------------------------------------
  // Other actions
  // ------------------------------------------------------------------------------------------------------------

  lemma {:induction false} ChildRowsIgnoreOthers(rows: seq<Row>, action: ActionId, parent: nat)
    requires forall i | 0 <= i < |rows| && rows[i].action == action :: rows[i].parent != Some(parent)
    ensures ChildRows(OtherRows(rows, action), parent) == ChildRows(rows, parent)
  {
    if rows != [] {
      var front := rows[..|rows| - 1];
      ChildRowsIgnoreOthers(front, action, parent);
      if Last(rows).action != action {
        ChildRowsAppend(OtherRows(front, action), [Last(rows)], parent);
        assert [Last(rows)][..0] == [];
        assert ChildRows([Last(rows)], parent) == if Last(rows).parent == Some(parent) then [Last(rows)] else [];
      } else {
        assert OtherRows(rows, action) == OtherRows(front, action);
        assert ChildRows(rows, parent) == ChildRows(front, parent);
      }
    }
  }

  lemma {:induction false} RootRowsIgnoreOthers(rows: seq<Row>, action: ActionId, other: ActionId)
    requires other != action
    ensures RootRows(OtherRows(rows, action), other) == RootRows(rows, other)
  {
    if rows != [] {
      var front := rows[..|rows| - 1];
      RootRowsIgnoreOthers(front, action, other);
      if Last(rows).action == action {
        assert OtherRows(rows, action) == OtherRows(front, action);
        assert RootRows(rows, other) == RootRows(front, other);
      } else {
        RootRowsAppend(OtherRows(front, action), [Last(rows)], other);
        assert [Last(rows)][..0] == [];
        assert RootRows([Last(rows)], other) == if Last(rows).action == other && Last(rows).parent.None? then [Last(rows)] else [];
      }
    }
  }

  lemma {:induction false} ChildRowsHold(rows: seq<Row>, parent: nat, i: nat)
    requires i < |rows| && rows[i].parent == Some(parent)
    ensures rows[i] in ChildRows(rows, parent)
  {
    if i < |rows| - 1 {
      ChildRowsHold(rows[..|rows| - 1], parent, i);
      assert rows[..|rows| - 1][i] == rows[i];
    }
  }

  lemma {:induction false} OtherRowsHold(rows: seq<Row>, action: ActionId, i: nat)
    requires i < |rows| && rows[i].action != action
    ensures rows[i] in OtherRows(rows, action)
  {
    if i < |rows| - 1 {
      OtherRowsHold(rows[..|rows| - 1], action, i);
      assert rows[..|rows| - 1][i] == rows[i];
    }
  }

  lemma {:induction false} OthersStayRooted(rows: seq<Row>, added: seq<Row>, action: ActionId, other: ActionId)
    requires other != action && Rooted(rows, other) && forall i | 0 <= i < |added| :: added[i].action == action
    ensures Rooted(OtherRows(rows, action) + added, other)
  {
    var rows' := OtherRows(rows, action) + added;
    forall row | row in rows' && row.action == other && row.parent.Some?
      ensures row.parent.value < row.id && HasRow(rows', other, row.parent.value)
    {
      var i: nat :| i < |OtherRows(rows, action)| && OtherRows(rows, action)[i] == row;
      var from := OtherRowsFrom(rows, action, i);
      var up :| up in rows && up.action == other && up.id == row.parent.value;
      var j :| 0 <= j < |rows| && rows[j] == up;
      OtherRowsHold(rows, action, j);
    }
  }

  /** A rebuild of one action leaves every other action laid out as it was. */
  lemma {:induction false} RebuildKeepsOtherActions(rows: seq<Row>, rows': seq<Row>, action: ActionId, other: ActionId,
        forest: seq<Port>, layout: Layout, built: Layout)
    requires other != action && LaidOut(rows, other, forest, layout) && layout.Next() <= built.base
    requires rows' == OtherRows(rows, action) + SavedAll(built.nodes, built.base, action)
    requires ParentsWithin(built.nodes, built.base, built.Next())
    ensures LaidOut(rows', other, forest, layout)
  {
    var kept, added := OtherRows(rows, action), SavedAll(built.nodes, built.base, action);
    RootRowsIgnoreOthers(rows, action, other);
    RootRowsAppend(kept, added, other);
    NoRootsOfAction(added, other);
    assert RootRows(rows', other) == RootRows(rows, other);
    forall id: nat | layout.Has(id)
      ensures ChildRows(rows', id) == ChildRows(rows, id)
    {
      forall i | 0 <= i < |rows| && rows[i].action == action
        ensures rows[i].parent != Some(id)
      {
        if rows[i].parent == Some(id) {
          ChildRowsHold(rows, id, i);
        }
      }
      ChildRowsIgnoreOthers(rows, action, id);
      ChildRowsAppend(kept, added, id);
      NoChildRows(added, id);
    }
    OthersStayRooted(rows, added, action, other);
    forall i | 0 <= i < |rows'| && rows'[i].action == other
      ensures layout.Has(rows'[i].id) && rows'[i] == Saved(layout.At(rows'[i].id), rows'[i].id, other)
    {
      var from := OtherRowsFrom(rows, action, i);
    }
  }

  /** `n` rebuilds of one table, one after the other, from the empty one; `tables` are the table at each point. */
  ghost predicate InTurn(tables: seq<Table>, builds: seq<Rebuilt>, n: nat)
    requires n <= |builds| && n < |tables|
  {
    if n == 0 then tables[0] == Table([], 0)
    else InTurn(tables, builds, n - 1) && IsRebuild(tables[n - 1], builds[n - 1], tables[n])
  }

  predicate IsLatest(builds: seq<Rebuilt>, n: nat, k: nat)
    requires k < n <= |builds|
  {
    forall j | k < j < n :: builds[j].action != builds[k].action
  }

  /** The action is laid out as a rebuild left it, under ids handed out by then. */
  ghost predicate Stands(b: Rebuilt, table: Table) {
    LaidOut(table.rows, b.action, b.forest, b.layout) && b.layout.Next() <= table.nextId
  }

  lemma {:induction false} RebuildStands(before: Table, b: Rebuilt, after: Table)
    requires IsRebuild(before, b, after)
    ensures Stands(b, after)
  {
  }

  lemma {:induction false} StandsThroughOthers(before: Table, b: Rebuilt, after: Table, earlier: Rebuilt)
    requires IsRebuild(before, b, after) && Stands(earlier, before) && earlier.action != b.action
    ensures Stands(earlier, after)
  {
    RebuildKeepsOtherActions(before.rows, after.rows, b.action, earlier.action, earlier.forest, earlier.layout, b.layout);
  }

  /** However many actions are rebuilt, and however often, each stays laid out as its latest rebuild left it. */
  lemma {:induction false} LatestRebuildsStand(tables: seq<Table>, builds: seq<Rebuilt>, n: nat, k: nat)
    requires k < n <= |builds| && n < |tables| && InTurn(tables, builds, n) && IsLatest(builds, n, k)
    ensures Stands(builds[k], tables[n])
  {
    if k == n - 1 {
      RebuildStands(tables[k], builds[k], tables[n]);
    } else {
      LatestRebuildsStand(tables, builds, n - 1, k);
      StandsThroughOthers(tables[n - 1], builds[n - 1], tables[n], builds[k]);
    }
  }
}
