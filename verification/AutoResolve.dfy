/** Recursive dependency resolution over a graph that may be cyclic (facade/logic.py). */
module AutoResolve {
  import opened Common

  type ImplId = nat
  type AgentId = nat
  type ActionId = nat

  /** One action a dependency needs, and the ids of the actions that match it. */
  datatype Demand = Demand(key: string, actions: seq<ActionId>)

  /** A declared dependency, with what the database answers to its filters: whether some state demand matches no state
      definition, and the first agent that satisfies every demand. */
  datatype Dependency = Dependency(id: nat, demands: seq<Demand>, stateUnmatched: bool, agent: Option<AgentId>, preferred: int)
  {
    /** The slots: one per demand key, as a dictionary over the demands has them. */
    function Slots(): (slots: seq<Demand>)
      ensures DistinctKeys(slots)
    {
      SlotsOf(demands, |demands|)
    }
  }

  datatype Resolved = Resolved(key: string, resolution: nat, dependency: nat, implementation: ImplId, downstream: Option<nat>)

  // ------------------------------------------------------------------------------------------------------------
  // Slots of a dependency
  // ------------------------------------------------------------------------------------------------------------

  predicate DistinctKeys(slots: seq<Demand>) {
    forall i, j | 0 <= i < j < |slots| :: slots[i].key != slots[j].key
  }

  /** A dictionary assignment: a known key keeps its place and takes the new value. */
  function Put(slots: seq<Demand>, d: Demand): seq<Demand> {
    seq(|slots|, i requires 0 <= i < |slots| => if slots[i].key == d.key then d else slots[i])
    + if exists i | 0 <= i < |slots| :: slots[i].key == d.key then [] else [d]
  }

  function SlotsOf(demands: seq<Demand>, n: nat): (slots: seq<Demand>)
    requires n <= |demands|
    ensures DistinctKeys(slots)
  {
    if n == 0 then [] else Put(SlotsOf(demands, n - 1), demands[n - 1])
  }

  /** The last demand of its key, which is the one a dictionary keeps. */
  predicate IsLastOfKey(demands: seq<Demand>, j: nat) {
    j < |demands| && forall k | j < k < |demands| :: demands[k].key != demands[j].key
  }

  /** Each slot is the last demand of its key, */
  lemma {:induction false} SlotIsADemand(demands: seq<Demand>, n: nat, s: nat) returns (j: nat)
    requires n <= |demands| && s < |SlotsOf(demands, n)|
    ensures j < n && SlotsOf(demands, n)[s] == demands[j] && forall k | j < k < n :: demands[k].key != demands[j].key
  {
    var before := SlotsOf(demands, n - 1);
    if s < |before| && before[s].key != demands[n - 1].key {
      j := SlotIsADemand(demands, n - 1, s);
    } else {
      j := n - 1;
    }
  }

  /** the last demand of every key is a slot, */
  lemma {:induction false} DemandIsASlot(demands: seq<Demand>, n: nat, j: nat) returns (s: nat)
    requires j < n <= |demands| && forall k | j < k < n :: demands[k].key != demands[j].key
    ensures s < |SlotsOf(demands, n)| && SlotsOf(demands, n)[s] == demands[j]
  {
    var before := SlotsOf(demands, n - 1);
    if j < n - 1 {
      s := DemandIsASlot(demands, n - 1, j);
    } else if i :| 0 <= i < |before| && before[i].key == demands[j].key {
      s := i;
    } else {
      s := |before|;
    }
  }

  /** and the slots come in the order in which their keys are first demanded. */
  lemma {:induction false} SlotsInOrder(demands: seq<Demand>, n: nat, s: nat, t: nat) returns (i: nat)
    requires n <= |demands| && s < t < |SlotsOf(demands, n)|
    ensures i < n && demands[i].key == SlotsOf(demands, n)[s].key
    ensures forall j | 0 <= j < n && demands[j].key == SlotsOf(demands, n)[t].key :: i < j
  {
    var before := SlotsOf(demands, n - 1);
    if t < |before| {
      i := SlotsInOrder(demands, n - 1, s, t);
      if demands[n - 1].key == before[t].key {
        assert i < n - 1;
      }
    } else {
      i := SlotIsADemand(demands, n - 1, s);
      forall j | 0 <= j < n && demands[j].key == SlotsOf(demands, n)[t].key
        ensures i < j
      {
        if j < n - 1 {
          KeysAreSlots(demands, n - 1, j);
        }
      }
    }
  }

  lemma {:induction false} KeysAreSlots(demands: seq<Demand>, n: nat, j: nat)
    requires j < n <= |demands|
    ensures exists s | 0 <= s < |SlotsOf(demands, n)| :: SlotsOf(demands, n)[s].key == demands[j].key
  {
    var before := SlotsOf(demands, n - 1);
    if j < n - 1 {
      KeysAreSlots(demands, n - 1, j);
      var s :| 0 <= s < |before| && before[s].key == demands[j].key;
      assert SlotsOf(demands, n)[s].key == demands[j].key;
    } else {
      var s := DemandIsASlot(demands, n, j);
    }
  }

  predicate Unmatched(demands: seq<Demand>) {
    exists d | d in demands :: d.actions == []
  }

  /** The dependency cannot be resolved at all. */
  predicate Hopeless(d: Dependency) {
    Unmatched(d.demands) || d.stateUnmatched || d.agent.None?
  }

  function Limit(d: Dependency): nat {
    if d.preferred <= 1 then 1 else d.preferred
  }

  // ------------------------------------------------------------------------------------------------------------
  // The rows written so far
  // ------------------------------------------------------------------------------------------------------------

  predicate InSlot(row: Resolved, resolution: nat, dependency: nat, key: string) {
    row.resolution == resolution && row.dependency == dependency && row.key == key
  }

  /** How many of the first `n` rows fill a slot. */
  function SlotCount(rows: seq<Resolved>, n: nat, resolution: nat, dependency: nat, key: string): nat
    requires n <= |rows|
  {
    if n == 0 then 0
    else SlotCount(rows, n - 1, resolution, dependency, key) + if InSlot(rows[n - 1], resolution, dependency, key) then 1 else 0
  }

  lemma {:induction false} SlotCountOfPrefix(rows: seq<Resolved>, rows': seq<Resolved>, n: nat, resolution: nat,
        dependency: nat, key: string)
    requires rows <= rows' && n <= |rows|
    ensures SlotCount(rows', n, resolution, dependency, key) == SlotCount(rows, n, resolution, dependency, key)
  {
    if n > 0 {
      SlotCountOfPrefix(rows, rows', n - 1, resolution, dependency, key);
    }
  }

  /** Rows of other slots do not change a count. */
  lemma {:induction false} SlotCountKept(rows: seq<Resolved>, from: nat, to: nat, resolution: nat, dependency: nat, key: string)
    requires from <= to <= |rows|
    requires forall i | from <= i < to :: !InSlot(rows[i], resolution, dependency, key)
    ensures SlotCount(rows, to, resolution, dependency, key) == SlotCount(rows, from, resolution, dependency, key)
  {
    if from < to {
      SlotCountKept(rows, from, to - 1, resolution, dependency, key);
    }
  }

  /** The state of one outermost call: implementations seen, resolutions by id with the implementation each is for, and
      the resolved-dependency rows. */
  datatype Progress = Progress(visited: set<ImplId>, resolutions: seq<ImplId>, rows: seq<Resolved>)

  /** Later progress, made while working on one resolution: rows are only added, for that resolution or newer ones. */
  ghost predicate Extends(a: Progress, b: Progress, resolution: nat) {
    && a.visited <= b.visited && a.resolutions <= b.resolutions && a.rows <= b.rows
    && forall i | |a.rows| <= i < |b.rows| :: b.rows[i].resolution == resolution || b.rows[i].resolution >= |a.resolutions|
  }

  /** The added rows use implementations that had not been seen. */
  ghost predicate Grown(a: Progress, b: Progress, resolution: nat) {
    Extends(a, b, resolution) && forall i | |a.rows| <= i < |b.rows| :: b.rows[i].implementation !in a.visited
  }

  ghost predicate UsedOnce(p: Progress) {
    && (forall i | 0 <= i < |p.rows| :: p.rows[i].implementation in p.visited)
    && (forall i, j | 0 <= i < j < |p.rows| :: p.rows[i].implementation != p.rows[j].implementation)
  }

  /** Each row belongs to a resolution that exists, and a downstream resolution is newer and for the row's implementation. */
  ghost predicate Linked(p: Progress) {
    forall i | 0 <= i < |p.rows| ::
      && p.rows[i].resolution < |p.resolutions|
      && (p.rows[i].downstream.Some? ==>
            p.rows[i].resolution < p.rows[i].downstream.value < |p.resolutions|
            && p.resolutions[p.rows[i].downstream.value] == p.rows[i].implementation)
  }

  ghost predicate HasParent(p: Progress, resolution: nat) {
    exists i | 0 <= i < |p.rows| :: p.rows[i].downstream == Some(resolution)
  }

  // ------------------------------------------------------------------------------------------------------------
  // The graph
  // ------------------------------------------------------------------------------------------------------------

  /** A way to fill a slot: an implementation, one of its dependencies, a slot key of that, and a candidate for it. */
  type Way = (ImplId, nat, string, ImplId)

  /** The declared dependencies of each implementation, and the implementations of some actions an agent offers. */
  datatype Graph = Graph(
    dependencies: map<ImplId, seq<Dependency>>,
    offers: (AgentId, seq<ActionId>) -> seq<ImplId>,
    all: set<ImplId>)
  {
    ghost predicate Valid() {
      && (forall agent, actions, impl | impl in offers(agent, actions) :: impl in all)
      && (forall impl | impl in dependencies :: DistinctIds(dependencies[impl]))
    }

    function Of(impl: ImplId): seq<Dependency> {
      if impl in dependencies then dependencies[impl] else []
    }

    /** The implementations that may fill a slot, in query order. */
    function Candidates(d: Dependency, slot: Demand): seq<ImplId> {
      if d.agent.None? then [] else offers(d.agent.value, slot.actions)
    }

    /** Every way to fill a slot. */
    ghost function Ways(): iset<Way> {
      iset way: Way | Fills(way)
    }

    ghost predicate Fills(way: Way) {
      exists k: nat, s: nat :: IsWay(way, k, s)
    }

    predicate IsWay(way: Way, k: nat, s: nat) {
      && k < |Of(way.0)| && s < |Of(way.0)[k].Slots()|
      && Of(way.0)[k].id == way.1 && Of(way.0)[k].Slots()[s].key == way.2
      && way.3 in Candidates(Of(way.0)[k], Of(way.0)[k].Slots()[s])
    }
  }

  ghost predicate CandidatesAnswer(g: Graph, ways: iset<Way>, impl: ImplId, d: Dependency, slot: Demand) {
    forall candidate | candidate in g.Candidates(d, slot) :: (impl, d.id, slot.key, candidate) in ways
  }

  lemma {:induction false} CandidateIsAWay(g: Graph, ways: iset<Way>, impl: ImplId, d: Dependency, slot: Demand, m: nat)
    requires g.Valid() && CandidatesAnswer(g, ways, impl, d, slot) && m < |g.Candidates(d, slot)|
    ensures g.Candidates(d, slot)[m] in g.all && (impl, d.id, slot.key, g.Candidates(d, slot)[m]) in ways
  {
  }

  /** The relation has every way to fill a slot. */
  ghost predicate Covers(g: Graph, ways: iset<Way>) {
    forall impl, k: nat, s: nat | k < |g.Of(impl)| && s < |g.Of(impl)[k].Slots()| ::
      CandidatesAnswer(g, ways, impl, g.Of(impl)[k], g.Of(impl)[k].Slots()[s])
  }

  lemma {:induction false} WaysCover(g: Graph)
    ensures Covers(g, g.Ways())
  {
    forall impl: ImplId, k: nat, s: nat | k < |g.Of(impl)| && s < |g.Of(impl)[k].Slots()|
      ensures CandidatesAnswer(g, g.Ways(), impl, g.Of(impl)[k], g.Of(impl)[k].Slots()[s])
    {
      var d, slot := g.Of(impl)[k], g.Of(impl)[k].Slots()[s];
      forall candidate | candidate in g.Candidates(d, slot)
        ensures (impl, d.id, slot.key, candidate) in g.Ways()
      {
        assert g.IsWay((impl, d.id, slot.key, candidate), k, s);
      }
    }
  }

  predicate DistinctIds(deps: seq<Dependency>) {
    forall i, j | 0 <= i < j < |deps| :: deps[i].id != deps[j].id
  }

  /** No slot holds more rows than it may, and every row fills a slot its resolution has, with a candidate for it. */
  ghost predicate Bounded(g: Graph, p: Progress) {
    forall r: nat, k: nat, key | r < |p.resolutions| && k < |g.Of(p.resolutions[r])| ::
      SlotCount(p.rows, |p.rows|, r, g.Of(p.resolutions[r])[k].id, key) <= Limit(g.Of(p.resolutions[r])[k])
  }

  ghost predicate AllAnswer(ways: iset<Way>, p: Progress) {
    forall i | 0 <= i < |p.rows| && p.rows[i].resolution < |p.resolutions| ::
      (p.resolutions[p.rows[i].resolution], p.rows[i].dependency, p.rows[i].key, p.rows[i].implementation) in ways
  }

  ghost predicate Sound(g: Graph, ways: iset<Way>, p: Progress) {
    UsedOnce(p) && Linked(p) && Bounded(g, p) && AllAnswer(ways, p)
  }

  /** A slot is full, or nothing unseen is left that could fill it. */
  ghost predicate Filled(g: Graph, p: Progress, resolution: nat, d: Dependency, slot: Demand) {
    || SlotCount(p.rows, |p.rows|, resolution, d.id, slot.key) == Limit(d)
    || forall impl | impl in g.Candidates(d, slot) :: impl in p.visited
  }

  ghost predicate DependencyFilled(g: Graph, p: Progress, resolution: nat, d: Dependency) {
    !Hopeless(d) && forall s: nat | s < |d.Slots()| :: Filled(g, p, resolution, d, d.Slots()[s])
  }

  ghost predicate Complete(g: Graph, p: Progress, resolution: nat) {
    resolution < |p.resolutions|
    && forall k: nat | k < |g.Of(p.resolutions[resolution])| :: DependencyFilled(g, p, resolution, g.Of(p.resolutions[resolution])[k])
  }

  ghost predicate UsedSince(a: Progress, b: Progress, impl: ImplId) {
    exists i | |a.rows| <= i < |b.rows| :: b.rows[i].implementation == impl
  }

  /** Every implementation seen since `a` is used by a row written since. */
  ghost predicate VisitsAreUses(a: Progress, b: Progress) {
    forall impl | impl in b.visited && impl !in a.visited :: UsedSince(a, b, impl)
  }

  /** Every resolution begun since `a` is complete and downstream of some row, and what was seen since is used. */
  ghost predicate Done(g: Graph, a: Progress, b: Progress) {
    && (forall r: nat | |a.resolutions| <= r < |b.resolutions| :: Complete(g, b, r) && HasParent(b, r))
    && VisitsAreUses(a, b)
  }

  /** Work on a resolution met a dependency that cannot be resolved, there or in a resolution begun since. */
  ghost predicate Stuck(g: Graph, a: Progress, b: Progress, resolution: nat) {
    exists r: nat, k: nat | r < |b.resolutions| && k < |g.Of(b.resolutions[r])| ::
      (r == resolution || r >= |a.resolutions|) && Hopeless(g.Of(b.resolutions[r])[k])
  }

  // ------------------------------------------------------------------------------------------------------------
  // What stays
  // ------------------------------------------------------------------------------------------------------------

  lemma {:induction false} CountStays(a: Progress, b: Progress, resolution: nat, dependency: nat, key: string)
    requires a.rows <= b.rows && forall i | |a.rows| <= i < |b.rows| :: !InSlot(b.rows[i], resolution, dependency, key)
    ensures SlotCount(b.rows, |b.rows|, resolution, dependency, key) == SlotCount(a.rows, |a.rows|, resolution, dependency, key)
  {
    SlotCountKept(b.rows, |a.rows|, |b.rows|, resolution, dependency, key);
    SlotCountOfPrefix(a.rows, b.rows, |a.rows|, resolution, dependency, key);
  }

  lemma {:induction false} FilledStays(g: Graph, a: Progress, b: Progress, resolution: nat, d: Dependency, slot: Demand)
    requires Filled(g, a, resolution, d, slot) && a.visited <= b.visited
    requires a.rows <= b.rows && forall i | |a.rows| <= i < |b.rows| :: !InSlot(b.rows[i], resolution, d.id, slot.key)
    ensures Filled(g, b, resolution, d, slot)
  {
    CountStays(a, b, resolution, d.id, slot.key);
  }

  lemma {:induction false} DependencyFilledStays(g: Graph, a: Progress, b: Progress, resolution: nat, d: Dependency)
    requires DependencyFilled(g, a, resolution, d) && a.visited <= b.visited && a.rows <= b.rows
    requires forall i | |a.rows| <= i < |b.rows| :: b.rows[i].resolution != resolution || b.rows[i].dependency != d.id
    ensures DependencyFilled(g, b, resolution, d)
  {
    var slots := d.Slots();
    forall s: nat | s < |slots|
      ensures Filled(g, b, resolution, d, slots[s])
    {
      assert Filled(g, a, resolution, d, slots[s]);
      FilledStays(g, a, b, resolution, d, slots[s]);
    }
  }

  lemma {:induction false} CompleteStays(g: Graph, a: Progress, b: Progress, resolution: nat, r: nat)
    requires Complete(g, a, r) && Extends(a, b, resolution) && r != resolution
    ensures Complete(g, b, r)
  {
    forall k: nat | k < |g.Of(b.resolutions[r])|
      ensures DependencyFilled(g, b, r, g.Of(b.resolutions[r])[k])
    {
      DependencyFilledStays(g, a, b, r, g.Of(a.resolutions[r])[k]);
    }
  }

  lemma {:induction false} ParentStays(a: Progress, b: Progress, r: nat)
    requires HasParent(a, r) && a.rows <= b.rows
    ensures HasParent(b, r)
  {
    var i :| 0 <= i < |a.rows| && a.rows[i].downstream == Some(r);
    assert b.rows[i] == a.rows[i];
  }

  lemma {:induction false} VisitsTwice(a: Progress, b: Progress, c: Progress)
    requires VisitsAreUses(a, b) && VisitsAreUses(b, c) && a.rows <= b.rows <= c.rows
    ensures VisitsAreUses(a, c)
  {
    forall impl | impl in c.visited && impl !in a.visited
      ensures UsedSince(a, c, impl)
    {
      if impl in b.visited {
        var i :| |a.rows| <= i < |b.rows| && b.rows[i].implementation == impl;
        assert c.rows[i] == b.rows[i];
      }
    }
  }

  /** The row of a use covers the implementation that was marked before it. */
  lemma {:induction false} UseIsSeen(before: Progress, begun: Progress, resolved: Progress, row: Resolved)
    requires begun.visited == before.visited + {row.implementation} && begun.rows == before.rows <= resolved.rows
    requires VisitsAreUses(begun, resolved)
    ensures VisitsAreUses(before, resolved.(rows := resolved.rows + [row]))
  {
    var after := resolved.(rows := resolved.rows + [row]);
    forall impl | impl in after.visited && impl !in before.visited
      ensures UsedSince(before, after, impl)
    {
      if impl == row.implementation {
        assert after.rows[|resolved.rows|] == row;
      } else {
        var i :| |begun.rows| <= i < |resolved.rows| && resolved.rows[i].implementation == impl;
        assert after.rows[i] == resolved.rows[i];
      }
    }
  }

  lemma {:induction false} DoneTwice(g: Graph, a: Progress, b: Progress, c: Progress, resolution: nat)
    requires Extends(a, b, resolution) && Done(g, a, b) && Grown(b, c, resolution) && resolution < |a.resolutions| && Done(g, b, c)
    ensures Done(g, a, c)
  {
    VisitsTwice(a, b, c);
    forall r: nat | |a.resolutions| <= r < |c.resolutions|
      ensures Complete(g, c, r) && HasParent(c, r)
    {
      if r < |b.resolutions| {
        CompleteStays(g, b, c, resolution, r);
        ParentStays(b, c, r);
      }
    }
  }

  lemma {:induction false} FewerUnseen(all: set<ImplId>, visited: set<ImplId>, impl: ImplId)
    requires impl in all && impl !in visited
    ensures |all - (visited + {impl})| < |all - visited|
  {
    assert all - visited == (all - (visited + {impl})) + {impl};
  }

  /** One more row in a slot that has room, for an implementation no row used before. */
  lemma {:induction false} SoundAfterUse(g: Graph, ways: iset<Way>, p: Progress, q: Progress, row: Resolved, k: nat)
    requires g.Valid() && Sound(g, ways, p) && q == p.(rows := p.rows + [row])
    requires row.resolution < |p.resolutions| && k < |g.Of(p.resolutions[row.resolution])|
    requires row.dependency == g.Of(p.resolutions[row.resolution])[k].id
    requires SlotCount(p.rows, |p.rows|, row.resolution, row.dependency, row.key) < Limit(g.Of(p.resolutions[row.resolution])[k])
    requires row.implementation in p.visited && forall i | 0 <= i < |p.rows| :: p.rows[i].implementation != row.implementation
    requires (p.resolutions[row.resolution], row.dependency, row.key, row.implementation) in ways
    requires row.downstream.Some? ==>
      row.resolution < row.downstream.value < |p.resolutions| && p.resolutions[row.downstream.value] == row.implementation
    ensures Sound(g, ways, q)
  {
    BoundedAfterUse(g, p, q, row, k);
  }

  lemma {:induction false} BoundedAfterUse(g: Graph, p: Progress, q: Progress, row: Resolved, k: nat)
    requires g.Valid() && Bounded(g, p) && q == p.(rows := p.rows + [row])
    requires row.resolution < |p.resolutions| && k < |g.Of(p.resolutions[row.resolution])|
    requires row.dependency == g.Of(p.resolutions[row.resolution])[k].id
    requires SlotCount(p.rows, |p.rows|, row.resolution, row.dependency, row.key) < Limit(g.Of(p.resolutions[row.resolution])[k])
    ensures Bounded(g, q)
  {
    forall r: nat, j: nat, key | r < |q.resolutions| && j < |g.Of(q.resolutions[r])|
      ensures SlotCount(q.rows, |q.rows|, r, g.Of(q.resolutions[r])[j].id, key) <= Limit(g.Of(q.resolutions[r])[j])
    {
      var d := g.Of(q.resolutions[r])[j];
      SlotCountOfPrefix(p.rows, q.rows, |p.rows|, r, d.id, key);
      assert SlotCount(q.rows, |q.rows|, r, d.id, key) == SlotCount(p.rows, |p.rows|, r, d.id, key) + if InSlot(row, r, d.id, key) then 1 else 0;
      if InSlot(row, r, d.id, key) {
        assert j == k;
      }
    }
  }

  // ------------------------------------------------------------------------------------------------------------
  // What the steps of the resolver keep
  // ------------------------------------------------------------------------------------------------------------

  ghost predicate Ready(g: Graph, ways: iset<Way>, p: Progress, resolution: nat) {
    g.Valid() && Covers(g, ways) && Sound(g, ways, p) && p.visited <= g.all && resolution < |p.resolutions|
  }

  /** What a step adds, and what its outcome says about the steps since `a`. */
  ghost predicate Moved(g: Graph, a: Progress, b: Progress, resolution: nat, ok: bool) {
    Grown(a, b, resolution) && (if ok then Done(g, a, b) else Stuck(g, a, b, resolution))
  }

  ghost predicate Kept(g: Graph, ways: iset<Way>, a: Progress, b: Progress, resolution: nat, ok: bool) {
    Ready(g, ways, b, resolution) && Moved(g, a, b, resolution, ok)
  }

  lemma {:induction false} KeptAtFirst(g: Graph, ways: iset<Way>, p: Progress, resolution: nat)
    requires Ready(g, ways, p, resolution)
    ensures Kept(g, ways, p, p, resolution, true)
  {
  }

  /** `d` is the k-th dependency of the resolution's implementation. */
  ghost predicate Declares(g: Graph, p: Progress, resolution: nat, k: nat, d: Dependency) {
    resolution < |p.resolutions| && k < |g.Of(p.resolutions[resolution])| && d == g.Of(p.resolutions[resolution])[k]
  }

  /** The rows written since `a` for this resolution are in this slot. */
  ghost predicate OnlyInSlot(a: Progress, b: Progress, resolution: nat, d: Dependency, key: string) {
    forall i | |a.rows| <= i < |b.rows| && b.rows[i].resolution == resolution :: InSlot(b.rows[i], resolution, d.id, key)
  }

  ghost predicate Filling(a: Progress, b: Progress, resolution: nat, d: Dependency, key: string, count: nat) {
    OnlyInSlot(a, b, resolution, d, key) && count == SlotCount(b.rows, |b.rows|, resolution, d.id, key)
  }

  ghost predicate InFirstSlots(a: Progress, b: Progress, resolution: nat, d: Dependency, slots: seq<Demand>, n: nat)
    requires n <= |slots|
  {
    forall i | |a.rows| <= i < |b.rows| && b.rows[i].resolution == resolution ::
      b.rows[i].dependency == d.id && exists t | 0 <= t < n :: b.rows[i].key == slots[t].key
  }

  /** The first `n` slots are filled, and the rows written since `a` for this resolution are in them. */
  ghost predicate SlotsFilled(g: Graph, a: Progress, b: Progress, resolution: nat, d: Dependency, slots: seq<Demand>, n: nat)
    requires n <= |slots|
  {
    (forall t: nat | t < n :: Filled(g, b, resolution, d, slots[t])) && InFirstSlots(a, b, resolution, d, slots, n)
  }

  /** The rows of this resolution are for its first `n` dependencies. */
  ghost predicate InFirstDependencies(p: Progress, resolution: nat, deps: seq<Dependency>, n: nat)
    requires n <= |deps|
  {
    forall i | 0 <= i < |p.rows| && p.rows[i].resolution == resolution :: exists j | 0 <= j < n :: p.rows[i].dependency == deps[j].id
  }

  ghost predicate FirstFilled(g: Graph, p: Progress, resolution: nat, deps: seq<Dependency>, n: nat)
    requires n <= |deps|
  {
    forall j: nat | j < n :: DependencyFilled(g, p, resolution, deps[j])
  }

  /** The rows for the next dependency leave the earlier ones filled. */
  lemma {:induction false} OneMoreFilled(g: Graph, a: Progress, b: Progress, resolution: nat, impl: ImplId, n: nat)
    requires g.Valid() && n < |g.Of(impl)| && FirstFilled(g, a, resolution, g.Of(impl), n)
    requires a.visited <= b.visited && a.rows <= b.rows && DependencyFilled(g, b, resolution, g.Of(impl)[n])
    requires forall i | |a.rows| <= i < |b.rows| && b.rows[i].resolution == resolution :: b.rows[i].dependency == g.Of(impl)[n].id
    ensures FirstFilled(g, b, resolution, g.Of(impl), n + 1)
  {
    forall j: nat | j < n
      ensures DependencyFilled(g, b, resolution, g.Of(impl)[j])
    {
      DependencyFilledStays(g, a, b, resolution, g.Of(impl)[j]);
    }
  }

  lemma {:induction false} InOneMoreDependency(a: Progress, b: Progress, resolution: nat, deps: seq<Dependency>, n: nat)
    requires n < |deps| && InFirstDependencies(a, resolution, deps, n) && a.rows <= b.rows
    requires forall i | |a.rows| <= i < |b.rows| && b.rows[i].resolution == resolution :: b.rows[i].dependency == deps[n].id
    ensures InFirstDependencies(b, resolution, deps, n + 1)
  {
  }

  lemma {:induction false} NextIsFresh(g: Graph, p: Progress, resolution: nat, impl: ImplId, n: nat)
    requires g.Valid() && n < |g.Of(impl)| && InFirstDependencies(p, resolution, g.Of(impl), n)
    ensures forall i | 0 <= i < |p.rows| && p.rows[i].resolution == resolution :: p.rows[i].dependency != g.Of(impl)[n].id
  {
  }

  /** What one use adds. */
  ghost predicate Used(a: Progress, b: Progress, resolution: nat, d: Dependency, key: string, ok: bool) {
    && a.rows <= b.rows
    && (ok ==> |b.rows| > |a.rows| && InSlot(Last(b.rows), resolution, d.id, key))
    && forall i | |a.rows| <= i < |b.rows| - (if ok then 1 else 0) :: b.rows[i].resolution != resolution
  }

  lemma {:induction false} UsedNext(g: Graph, a: Progress, b: Progress, c: Progress, resolution: nat, d: Dependency,
        key: string, count: nat, ok: bool)
    requires resolution < |a.resolutions| && Moved(g, a, b, resolution, true) && Filling(a, b, resolution, d, key, count)
    requires Moved(g, b, c, resolution, ok) && Used(b, c, resolution, d, key, ok)
    ensures Moved(g, a, c, resolution, ok) && OnlyInSlot(a, c, resolution, d, key)
    ensures ok ==> Filling(a, c, resolution, d, key, count + 1)
  {
    KeptTwice(g, a, b, c, resolution, ok);
    if ok {
      CountAfterUse(b, c, resolution, d.id, key);
    }
  }

  lemma {:induction false} FilledNext(g: Graph, a: Progress, b: Progress, c: Progress, resolution: nat, d: Dependency,
        slots: seq<Demand>, s: nat, ok: bool)
    requires resolution < |a.resolutions| && Moved(g, a, b, resolution, true) && s < |slots| && DistinctKeys(slots)
    requires SlotsFilled(g, a, b, resolution, d, slots, s)
    requires Moved(g, b, c, resolution, ok) && OnlyInSlot(b, c, resolution, d, slots[s].key)
    requires ok ==> Filled(g, c, resolution, d, slots[s])
    ensures Moved(g, a, c, resolution, ok) && InFirstSlots(a, c, resolution, d, slots, s + 1)
    ensures ok ==> SlotsFilled(g, a, c, resolution, d, slots, s + 1)
  {
    KeptTwice(g, a, b, c, resolution, ok);
    forall t: nat | t < s
      ensures Filled(g, c, resolution, d, slots[t])
    {
      FilledStays(g, b, c, resolution, d, slots[t]);
    }
  }

  predicate SeenFirst(candidates: seq<ImplId>, n: nat, visited: set<ImplId>)
    requires n <= |candidates|
  {
    forall j | 0 <= j < n :: candidates[j] in visited
  }

  lemma {:induction false} SeenOneMore(candidates: seq<ImplId>, n: nat, visited: set<ImplId>, visited': set<ImplId>)
    requires n < |candidates| && SeenFirst(candidates, n, visited) && visited <= visited' && candidates[n] in visited'
    ensures SeenFirst(candidates, n + 1, visited')
  {
  }

  lemma {:induction false} FilledAtEnd(g: Graph, a: Progress, b: Progress, resolution: nat, d: Dependency, slot: Demand, count: nat)
    requires Filling(a, b, resolution, d, slot.key, count)
    requires count == Limit(d) || SeenFirst(g.Candidates(d, slot), |g.Candidates(d, slot)|, b.visited)
    ensures Filled(g, b, resolution, d, slot)
  {
  }

  /** No row since the empty start of a slot is in it. */
  lemma {:induction false} SlotIsEmpty(p: Progress, resolution: nat, d: Dependency, key: string)
    requires forall i | 0 <= i < |p.rows| :: !InSlot(p.rows[i], resolution, d.id, key)
    ensures Filling(p, p, resolution, d, key, 0)
  {
    SlotCountKept(p.rows, 0, |p.rows|, resolution, d.id, key);
  }

  // ------------------------------------------------------------------------------------------------------------
  // The resolver
  // ------------------------------------------------------------------------------------------------------------

  class Resolver {
    const graph: Graph
    ghost const ways: iset<Way>
    var visited: set<ImplId>
    var resolutions: seq<ImplId>
    var rows: seq<Resolved>

    /** An outermost call: nothing seen, and one resolution to fill. */
    constructor (graph: Graph, ghost ways: iset<Way>, impl: ImplId)
      ensures this.graph == graph && this.ways == ways && Now() == Progress({}, [impl], [])
    {
      this.graph, visited, resolutions, rows := graph, {}, [impl], [];
      this.ways := ways;
    }

    ghost function Now(): Progress
      reads this
    {
      Progress(visited, resolutions, rows)
    }

    /** Uses one unseen implementation for a slot; its own dependencies are resolved first. */
    method Use(impl: ImplId, d: Dependency, key: string, resolution: nat, ghost k: nat) returns (ok: bool)
      requires Ready(graph, ways, Now(), resolution) && impl in graph.all && impl !in visited && Declares(graph, Now(), resolution, k, d)
      requires SlotCount(rows, |rows|, resolution, d.id, key) < Limit(d) && (resolutions[resolution], d.id, key, impl) in ways
      modifies this
      ensures Kept(graph, ways, old(Now()), Now(), resolution, ok) && impl in visited
      ensures Used(old(Now()), Now(), resolution, d, key, ok)
      decreases |graph.all - visited|, 1
    {
      ghost var before := Now();
      if graph.Of(impl) != [] {
        ok := UseAfterItsOwn(impl, d, key, resolution, k);
      } else {
        ghost var row := Resolved(key, resolution, d.id, impl, None);
        LeafIsKept(graph, ways, before, row, d, k);
        rows := rows + [Resolved(key, resolution, d.id, impl, None)];
        visited := visited + {impl};
        ok := true;
      }
    }

    method UseAfterItsOwn(impl: ImplId, d: Dependency, key: string, resolution: nat, ghost k: nat) returns (ok: bool)
      requires Ready(graph, ways, Now(), resolution) && impl in graph.all && impl !in visited && Declares(graph, Now(), resolution, k, d)
      requires SlotCount(rows, |rows|, resolution, d.id, key) < Limit(d) && (resolutions[resolution], d.id, key, impl) in ways
      modifies this
      ensures Kept(graph, ways, old(Now()), Now(), resolution, ok) && impl in visited
      ensures Used(old(Now()), Now(), resolution, d, key, ok)
      decreases |graph.all - visited|, 0
    {
      ghost var before := Now();
      FewerUnseen(graph.all, visited, impl);
      visited := visited + {impl};
      var downstream := |resolutions|;
      resolutions := resolutions + [impl];
      ghost var begun := Now();
      BegunIsSound(graph, ways, before, begun, impl);
      ok := AutoResolve(impl, downstream);
      var row := Resolved(key, resolution, d.id, impl, Some(downstream));
      UseIsKept(graph, ways, before, begun, Now(), row, d, k, ok);
      if ok {
        rows := rows + [row];
      }
    }

    /** Passes over a candidate that has been seen, and uses one that has not. */
    method Consider(impl: ImplId, d: Dependency, key: string, resolution: nat, ghost k: nat, ghost before: Progress, ghost count: nat)
      returns (ok: bool, used: bool)
      requires Kept(graph, ways, before, Now(), resolution, true) && Filling(before, Now(), resolution, d, key, count)
      requires resolution < |before.resolutions|
      requires impl in graph.all && Declares(graph, before, resolution, k, d) && count < Limit(d)
      requires (before.resolutions[resolution], d.id, key, impl) in ways
      modifies this
      ensures Kept(graph, ways, before, Now(), resolution, ok) && OnlyInSlot(before, Now(), resolution, d, key)
      ensures impl in visited && old(visited) <= visited
      ensures ok ==> Filling(before, Now(), resolution, d, key, count + if used then 1 else 0)
      decreases |graph.all - visited|, 2
    {
      ghost var seen := Now();
      if impl in visited {
        return true, false;
      }
      ok := Use(impl, d, key, resolution, k);
      used := true;
      UsedNext(graph, before, seen, Now(), resolution, d, key, count, ok);
    }

    /** Fills one slot with unseen implementations, in query order, until it holds as many as preferred. */
    method FillSlot(d: Dependency, slot: Demand, resolution: nat, ghost k: nat) returns (ok: bool)
      requires Ready(graph, ways, Now(), resolution) && Declares(graph, Now(), resolution, k, d)
      requires CandidatesAnswer(graph, ways, resolutions[resolution], d, slot)
      requires forall i | 0 <= i < |rows| :: !InSlot(rows[i], resolution, d.id, slot.key)
      modifies this
      ensures Kept(graph, ways, old(Now()), Now(), resolution, ok)
      ensures ok ==> Filled(graph, Now(), resolution, d, slot)
      ensures OnlyInSlot(old(Now()), Now(), resolution, d, slot.key)
      decreases |graph.all - visited|, 3
    {
      ghost var before := Now();
      var candidates := graph.Candidates(d, slot);
      var count := 0;
      SlotIsEmpty(before, resolution, d, slot.key);
      KeptAtFirst(graph, ways, before, resolution);
      ok := true;
      for m := 0 to |candidates|
        invariant Kept(graph, ways, before, Now(), resolution, true) && ok
        invariant Filling(before, Now(), resolution, d, slot.key, count) && count < Limit(d)
        invariant SeenFirst(candidates, m, visited)
      {
        StillUnseen(graph.all, before.visited, visited);
        CandidateIsAWay(graph, ways, before.resolutions[resolution], d, slot, m);
        ghost var seen := visited;
        var used;
        ok, used := Consider(candidates[m], d, slot.key, resolution, k, before, count);
        if !ok {
          return;
        }
        SeenOneMore(candidates, m, seen, visited);
        if used {
          count := count + 1;
          if count >= d.preferred {
            break;
          }
        }
      }
      FilledAtEnd(graph, before, Now(), resolution, d, slot, count);
    }

    method FillNextSlot(d: Dependency, slots: seq<Demand>, s: nat, resolution: nat, ghost k: nat,
          ghost before: Progress) returns (ok: bool)
      requires Kept(graph, ways, before, Now(), resolution, true) && resolution < |before.resolutions| && Declares(graph, Now(), resolution, k, d)
      requires slots == d.Slots() && s < |slots| && SlotsFilled(graph, before, Now(), resolution, d, slots, s)
      requires forall i | 0 <= i < |before.rows| && before.rows[i].resolution == resolution :: before.rows[i].dependency != d.id
      modifies this
      ensures Kept(graph, ways, before, Now(), resolution, ok) && InFirstSlots(before, Now(), resolution, d, slots, s + 1)
      ensures old(visited) <= visited && old(resolutions) <= resolutions
      ensures ok ==> SlotsFilled(graph, before, Now(), resolution, d, slots, s + 1)
      decreases |graph.all - visited|, 4
    {
      ghost var seen := Now();
      ok := FillSlot(d, slots[s], resolution, k);
      FilledNext(graph, before, seen, Now(), resolution, d, slots, s, ok);
    }

    /** Fills every slot of one dependency; fails at once when the dependency cannot be resolved. */
    method ResolveDependency(d: Dependency, resolution: nat, ghost k: nat) returns (ok: bool)
      requires Ready(graph, ways, Now(), resolution) && Declares(graph, Now(), resolution, k, d)
      requires forall i | 0 <= i < |rows| && rows[i].resolution == resolution :: rows[i].dependency != d.id
      modifies this
      ensures Kept(graph, ways, old(Now()), Now(), resolution, ok)
      ensures ok ==> DependencyFilled(graph, Now(), resolution, d)
      ensures forall i | |old(rows)| <= i < |rows| && rows[i].resolution == resolution :: rows[i].dependency == d.id
      decreases |graph.all - visited|, 5
    {
      ghost var before := Now();
      if Hopeless(d) {
        return false;
      }
      var slots := d.Slots();
      KeptAtFirst(graph, ways, before, resolution);
      ok := true;
      for s := 0 to |slots|
        invariant Kept(graph, ways, before, Now(), resolution, true) && ok && Declares(graph, Now(), resolution, k, d)
        invariant SlotsFilled(graph, before, Now(), resolution, d, slots, s)
      {
        StillUnseen(graph.all, before.visited, visited);
        ok := FillNextSlot(d, slots, s, resolution, k, before);
        if !ok {
          return;
        }
      }
    }

    /** Resolves all dependencies of an implementation for a resolution that has no rows yet. */
    method AutoResolve(impl: ImplId, resolution: nat) returns (ok: bool)
      requires Ready(graph, ways, Now(), resolution) && resolutions[resolution] == impl
      requires forall i | 0 <= i < |rows| :: rows[i].resolution != resolution
      modifies this
      ensures Kept(graph, ways, old(Now()), Now(), resolution, ok)
      ensures ok ==> Complete(graph, Now(), resolution)
      decreases |graph.all - visited|, 6
    {
      ghost var before := Now();
      var deps := graph.Of(impl);
      KeptAtFirst(graph, ways, before, resolution);
      ok := true;
      for k := 0 to |deps|
        invariant Kept(graph, ways, before, Now(), resolution, true) && ok
        invariant FirstFilled(graph, Now(), resolution, deps, k)
        invariant InFirstDependencies(Now(), resolution, deps, k)
      {
        ghost var seen := Now();
        StillUnseen(graph.all, before.visited, visited);
        NextIsFresh(graph, seen, resolution, impl, k);
        ok := ResolveDependency(deps[k], resolution, k);
        KeptTwice(graph, before, seen, Now(), resolution, ok);
        if !ok {
          return;
        }
        InOneMoreDependency(seen, Now(), resolution, deps, k);
        OneMoreFilled(graph, seen, Now(), resolution, impl, k);
      }
    }
  }

  lemma {:induction false} StillUnseen(all: set<ImplId>, visited: set<ImplId>, visited': set<ImplId>)
    requires visited <= visited'
    ensures |all - visited'| <= |all - visited|
  {
    assert all - visited == (all - visited') + (all * visited' - visited);
  }

  lemma {:induction false} CountAfterUse(a: Progress, b: Progress, resolution: nat, dependency: nat, key: string)
    requires a.rows <= b.rows && |b.rows| > |a.rows| && InSlot(Last(b.rows), resolution, dependency, key)
    requires forall i | |a.rows| <= i < |b.rows| - 1 :: b.rows[i].resolution != resolution
    ensures SlotCount(b.rows, |b.rows|, resolution, dependency, key) == SlotCount(a.rows, |a.rows|, resolution, dependency, key) + 1
  {
    SlotCountKept(b.rows, |a.rows|, |b.rows| - 1, resolution, dependency, key);
    SlotCountOfPrefix(a.rows, b.rows, |a.rows|, resolution, dependency, key);
  }

  lemma {:induction false} KeptTwice(g: Graph, a: Progress, b: Progress, c: Progress, resolution: nat, ok: bool)
    requires resolution < |a.resolutions| && Grown(a, b, resolution) && Done(g, a, b) && Grown(b, c, resolution)
    requires if ok then Done(g, b, c) else Stuck(g, b, c, resolution)
    ensures Grown(a, c, resolution)
    ensures if ok then Done(g, a, c) else Stuck(g, a, c, resolution)
  {
    if ok {
      DoneTwice(g, a, b, c, resolution);
    } else {
      var r: nat, k: nat :| r < |c.resolutions| && k < |g.Of(c.resolutions[r])|
        && (r == resolution || r >= |b.resolutions|) && Hopeless(g.Of(c.resolutions[r])[k]);
    }
  }

  lemma {:induction false} BegunIsSound(g: Graph, ways: iset<Way>, before: Progress, begun: Progress, impl: ImplId)
    requires g.Valid() && Sound(g, ways, before)
    requires begun == Progress(before.visited + {impl}, before.resolutions + [impl], before.rows)
    ensures Sound(g, ways, begun)
    ensures forall i | 0 <= i < |begun.rows| :: begun.rows[i].resolution < |before.resolutions|
  {
    forall k: nat, key | k < |g.Of(impl)|
      ensures SlotCount(begun.rows, |begun.rows|, |before.resolutions|, g.Of(impl)[k].id, key) == 0
    {
      SlotCountKept(begun.rows, 0, |begun.rows|, |before.resolutions|, g.Of(impl)[k].id, key);
    }
  }

  /** Using an implementation without dependencies. */
  lemma {:induction false} LeafIsKept(g: Graph, ways: iset<Way>, before: Progress, row: Resolved, d: Dependency, k: nat)
    requires Ready(g, ways, before, row.resolution) && Declares(g, before, row.resolution, k, d)
    requires row.downstream.None? && row.dependency == d.id && row.implementation in g.all && row.implementation !in before.visited
    requires SlotCount(before.rows, |before.rows|, row.resolution, d.id, row.key) < Limit(d)
    requires (before.resolutions[row.resolution], d.id, row.key, row.implementation) in ways
    ensures var after := Progress(before.visited + {row.implementation}, before.resolutions, before.rows + [row]);
      Kept(g, ways, before, after, row.resolution, true) && Used(before, after, row.resolution, d, row.key, true)
  {
    var seen := before.(visited := before.visited + {row.implementation});
    UseIsSeen(before, seen, seen, row);
    SoundAfterUse(g, ways, seen,
                  Progress(before.visited + {row.implementation}, before.resolutions, before.rows + [row]), row, k);
  }

  /** Using an implementation after a recursive call for its own dependencies. */
  lemma {:induction false} UseIsKept(g: Graph, ways: iset<Way>, before: Progress, begun: Progress, resolved: Progress,
        row: Resolved, d: Dependency, k: nat, ok: bool)
    requires Ready(g, ways, before, row.resolution) && Declares(g, before, row.resolution, k, d)
    requires row.downstream == Some(|before.resolutions|) && row.dependency == d.id && row.implementation !in before.visited
    requires begun == Progress(before.visited + {row.implementation}, before.resolutions + [row.implementation], before.rows)
    requires SlotCount(before.rows, |before.rows|, row.resolution, d.id, row.key) < Limit(d)
    requires (before.resolutions[row.resolution], d.id, row.key, row.implementation) in ways
    requires Kept(g, ways, begun, resolved, |before.resolutions|, ok) && (ok ==> Complete(g, resolved, |before.resolutions|))
    ensures var after := if ok then resolved.(rows := resolved.rows + [row]) else resolved;
      Kept(g, ways, before, after, row.resolution, ok) && Used(before, after, row.resolution, d, row.key, ok)
  {
    if ok {
      UseIsSound(g, ways, before, begun, resolved, row, k);
      UseIsDone(g, before, begun, resolved, row);
    } else {
      UseIsStuck(g, before, begun, resolved, row.resolution, row.implementation);
    }
  }

  /** A failed recursive call is a failure of the call that made it. */
  lemma {:induction false} UseIsStuck(g: Graph, before: Progress, begun: Progress, after: Progress, resolution: nat, impl: ImplId)
    requires begun == Progress(before.visited + {impl}, before.resolutions + [impl], before.rows) && resolution < |before.resolutions|
    requires Grown(begun, after, |before.resolutions|) && Stuck(g, begun, after, |before.resolutions|)
    ensures Grown(before, after, resolution) && Stuck(g, before, after, resolution)
    ensures forall i | |before.rows| <= i < |after.rows| :: after.rows[i].resolution != resolution
  {
    var r: nat, k: nat :| r < |after.resolutions| && k < |g.Of(after.resolutions[r])|
      && (r == |before.resolutions| || r >= |begun.resolutions|) && Hopeless(g.Of(after.resolutions[r])[k]);
  }

  /** The row of a use joins rows that a recursive call kept sound. */
  lemma {:induction false} UseIsSound(g: Graph, ways: iset<Way>, before: Progress, begun: Progress, resolved: Progress,
        row: Resolved, k: nat)
    requires g.Valid() && Sound(g, ways, before) && Sound(g, ways, resolved)
    requires row.downstream == Some(|before.resolutions|) && row.implementation !in before.visited
    requires begun == Progress(before.visited + {row.implementation}, before.resolutions + [row.implementation], before.rows)
    requires Grown(begun, resolved, |before.resolutions|)
    requires row.resolution < |before.resolutions| && k < |g.Of(before.resolutions[row.resolution])|
    requires var d := g.Of(before.resolutions[row.resolution])[k];
      row.dependency == d.id && SlotCount(before.rows, |before.rows|, row.resolution, row.dependency, row.key) < Limit(d)
    requires (before.resolutions[row.resolution], row.dependency, row.key, row.implementation) in ways
    ensures Sound(g, ways, resolved.(rows := resolved.rows + [row]))
  {
    CountStays(before, resolved, row.resolution, row.dependency, row.key);
    SoundAfterUse(g, ways, resolved, resolved.(rows := resolved.rows + [row]), row, k);
  }

  /** After the row of a use, the resolution begun for it has its parent. */
  lemma {:induction false} UseIsDone(g: Graph, before: Progress, begun: Progress, resolved: Progress, row: Resolved)
    requires row.downstream == Some(|before.resolutions|) && row.implementation !in before.visited && row.resolution < |before.resolutions|
    requires begun == Progress(before.visited + {row.implementation}, before.resolutions + [row.implementation], before.rows)
    requires Grown(begun, resolved, |before.resolutions|) && Done(g, begun, resolved) && Complete(g, resolved, |before.resolutions|)
    ensures var after := resolved.(rows := resolved.rows + [row]);
      && Grown(before, after, row.resolution) && Done(g, before, after)
      && forall i | |before.rows| <= i < |after.rows| - 1 :: after.rows[i].resolution != row.resolution
  {
    var after := resolved.(rows := resolved.rows + [row]);
    assert after.rows[|after.rows| - 1] == row;
    UseIsSeen(before, begun, resolved, row);
    forall r: nat | |before.resolutions| <= r < |after.resolutions|
      ensures Complete(g, after, r) && HasParent(after, r)
    {
      CompleteStays(g, resolved, after, row.resolution, r);
      if r > |before.resolutions| {
        ParentStays(resolved, after, r);
      }
    }
  }

  // ------------------------------------------------------------------------------------------------------------
  // The outermost call
  // ------------------------------------------------------------------------------------------------------------

  lemma {:induction false} ParentIsUnique(p: Progress, i: nat, j: nat)
    requires UsedOnce(p) && Linked(p) && i < |p.rows| && j < |p.rows|
    requires p.rows[i].downstream.Some? && p.rows[i].downstream == p.rows[j].downstream
    ensures i == j
  {
    assert p.rows[i].implementation == p.rows[j].implementation;
  }

  /** Resolutions from the first one to `r`, each downstream of a row of the one before. */
  ghost predicate PathTo(p: Progress, r: nat, path: seq<nat>) {
    && |path| > 0 && path[0] == 0 && Last(path) == r
    && forall i | 0 < i < |path| :: Leads(p, path[i - 1], path[i])
  }

  ghost predicate Leads(p: Progress, from: nat, to: nat) {
    exists i | 0 <= i < |p.rows| :: p.rows[i].resolution == from && p.rows[i].downstream == Some(to)
  }

  /** Every resolution is reached from the first one: parents are older, so the links cannot run in a circle. */
  lemma {:induction false} EveryResolutionIsReached(p: Progress, r: nat) returns (path: seq<nat>)
    requires Linked(p) && r < |p.resolutions| && forall q: nat | 0 < q < |p.resolutions| :: HasParent(p, q)
    ensures PathTo(p, r, path)
  {
    if r == 0 {
      path := [0];
    } else {
      assert HasParent(p, r);
      var i: nat :| i < |p.rows| && p.rows[i].downstream == Some(r);
      var front := EveryResolutionIsReached(p, p.rows[i].resolution);
      assert Leads(p, p.rows[i].resolution, r);
      path := front + [r];
    }
  }

  /** What an outermost call leaves: see `ResolveFrom`. */
  ghost predicate IsOutcome(g: Graph, impl: ImplId, ok: bool, p: Progress) {
    && |p.resolutions| > 0 && p.resolutions[0] == impl
    && UsedOnce(p) && Linked(p) && Bounded(g, p) && AllAnswer(g.Ways(), p)
    && (ok <==> NothingHopeless(g, p))
    && (ok ==> forall r: nat | 0 < r < |p.resolutions| :: HasParent(p, r))
    && (ok ==> forall r: nat | r < |p.resolutions| :: Complete(g, p, r))
    && (ok ==> VisitsAreUses(Progress({}, [impl], []), p))
  }

  ghost predicate NothingHopeless(g: Graph, p: Progress) {
    forall r: nat, k: nat | r < |p.resolutions| && k < |g.Of(p.resolutions[r])| :: !Hopeless(g.Of(p.resolutions[r])[k])
  }

  lemma {:induction false} RowsFillSlots(g: Graph, p: Progress, i: nat) returns (d: Dependency, slot: Demand)
    requires Linked(p) && AllAnswer(g.Ways(), p) && i < |p.rows|
    ensures d in g.Of(p.resolutions[p.rows[i].resolution]) && slot in d.Slots()
    ensures p.rows[i].dependency == d.id && p.rows[i].key == slot.key && p.rows[i].implementation in g.Candidates(d, slot)
  {
    var row := p.rows[i];
    var way: Way := (p.resolutions[row.resolution], row.dependency, row.key, row.implementation);
    assert way in g.Ways();
    var k: nat, s: nat :| g.IsWay(way, k, s);
    d, slot := g.Of(way.0)[k], g.Of(way.0)[k].Slots()[s];
  }

  /** Every row fills a declared action demand: that of a dependency of its resolution's implementation, the last of its
      key, with an implementation that the dependency's agent offers of one of its actions. */
  lemma {:induction false} RowsFillDeclaredSlots(g: Graph, p: Progress, i: nat) returns (d: Dependency, j: nat)
    requires Linked(p) && AllAnswer(g.Ways(), p) && i < |p.rows|
    ensures d in g.Of(p.resolutions[p.rows[i].resolution]) && IsLastOfKey(d.demands, j)
    ensures p.rows[i].dependency == d.id && p.rows[i].key == d.demands[j].key
    ensures d.agent.Some? && p.rows[i].implementation in g.offers(d.agent.value, d.demands[j].actions)
  {
    var slot;
    d, slot := RowsFillSlots(g, p, i);
    var s :| 0 <= s < |d.Slots()| && d.Slots()[s] == slot;
    j := SlotIsADemand(d.demands, |d.demands|, s);
  }

  /** The dependency can be resolved: every action demand and every state demand is matched, and some agent meets them. */
  predicate Resolvable(d: Dependency) {
    (forall j | 0 <= j < |d.demands| :: d.demands[j].actions != []) && !d.stateUnmatched && d.agent.Some?
  }

  /** As many rows as preferred, at least one, are for this action demand, or all that the agent offers has been seen. */
  ghost predicate Served(g: Graph, p: Progress, resolution: nat, d: Dependency, j: nat)
    requires j < |d.demands|
  {
    || SlotCount(p.rows, |p.rows|, resolution, d.id, d.demands[j].key) == (if d.preferred > 1 then d.preferred else 1)
    || (d.agent.Some? && forall impl | impl in g.offers(d.agent.value, d.demands[j].actions) :: impl in p.visited)
  }

  ghost predicate EveryDemandServed(g: Graph, p: Progress) {
    forall r: nat, k: nat, j: nat | r < |p.resolutions| && k < |g.Of(p.resolutions[r])| && IsLastOfKey(g.Of(p.resolutions[r])[k].demands, j) ::
      Served(g, p, r, g.Of(p.resolutions[r])[k], j)
  }

  /** No key of a dependency has more rows than preferred, where at least one is. */
  ghost predicate NoneOverserved(g: Graph, p: Progress) {
    forall r: nat, k: nat, key | r < |p.resolutions| && k < |g.Of(p.resolutions[r])| ::
      SlotCount(p.rows, |p.rows|, r, g.Of(p.resolutions[r])[k].id, key)
      <= if g.Of(p.resolutions[r])[k].preferred > 1 then g.Of(p.resolutions[r])[k].preferred else 1
  }

  lemma {:induction false} DemandIsServed(g: Graph, p: Progress, r: nat, k: nat, j: nat)
    requires Complete(g, p, r) && k < |g.Of(p.resolutions[r])| && IsLastOfKey(g.Of(p.resolutions[r])[k].demands, j)
    ensures Served(g, p, r, g.Of(p.resolutions[r])[k], j)
  {
    var d := g.Of(p.resolutions[r])[k];
    var s := DemandIsASlot(d.demands, |d.demands|, j);
    assert DependencyFilled(g, p, r, d) && Filled(g, p, r, d, d.Slots()[s]);
  }

  /** The outcome in terms of what is declared. */
  lemma {:induction false} OutcomeServesEveryDemand(g: Graph, impl: ImplId, ok: bool, p: Progress)
    requires IsOutcome(g, impl, ok, p)
    ensures ok <==> forall r: nat, k: nat | r < |p.resolutions| && k < |g.Of(p.resolutions[r])| :: Resolvable(g.Of(p.resolutions[r])[k])
    ensures ok ==> EveryDemandServed(g, p)
    ensures NoneOverserved(g, p)
  {
    forall r: nat, k: nat | r < |p.resolutions| && k < |g.Of(p.resolutions[r])|
      ensures Resolvable(g.Of(p.resolutions[r])[k]) <==> !Hopeless(g.Of(p.resolutions[r])[k])
    {
      ResolvableIffNotHopeless(g.Of(p.resolutions[r])[k]);
    }
    if ok {
      forall r: nat, k: nat, j: nat | r < |p.resolutions| && k < |g.Of(p.resolutions[r])| && IsLastOfKey(g.Of(p.resolutions[r])[k].demands, j)
        ensures Served(g, p, r, g.Of(p.resolutions[r])[k], j)
      {
        DemandIsServed(g, p, r, k, j);
      }
    }
  }

  lemma {:induction false} ResolvableIffNotHopeless(d: Dependency)
    ensures Resolvable(d) <==> !Hopeless(d)
  {
    if Resolvable(d) {
      forall demand | demand in d.demands
        ensures demand.actions != []
      {
        var j :| 0 <= j < |d.demands| && d.demands[j] == demand;
      }
    }
  }

  // ------------------------------------------------------------------------------------------------------------
  // Slots left empty
  // ------------------------------------------------------------------------------------------------------------

  /** Some row outside the slot uses the implementation. */
  ghost predicate UsedElsewhere(p: Progress, resolution: nat, dependency: nat, key: string, impl: ImplId) {
    exists i | 0 <= i < |p.rows| :: p.rows[i].implementation == impl && !InSlot(p.rows[i], resolution, dependency, key)
  }

  /** Every candidate for the slot is used by some other slot. */
  ghost predicate Taken(g: Graph, p: Progress, resolution: nat, d: Dependency, slot: Demand) {
    forall c | c in g.Candidates(d, slot) :: UsedElsewhere(p, resolution, d.id, slot.key, c)
  }

  lemma {:induction false} SomeRowIsCounted(rows: seq<Resolved>, n: nat, resolution: nat, dependency: nat,
        key: string) returns (i: nat)
    requires n <= |rows| && SlotCount(rows, n, resolution, dependency, key) > 0
    ensures i < n && InSlot(rows[i], resolution, dependency, key)
  {
    if InSlot(rows[n - 1], resolution, dependency, key) {
      i := n - 1;
    } else {
      i := SomeRowIsCounted(rows, n - 1, resolution, dependency, key);
    }
  }

  lemma {:induction false} RowIsCounted(rows: seq<Resolved>, n: nat, resolution: nat, dependency: nat, key: string, i: nat)
    requires i < n <= |rows| && InSlot(rows[i], resolution, dependency, key)
    ensures SlotCount(rows, n, resolution, dependency, key) > 0
  {
    if i < n - 1 {
      RowIsCounted(rows, n - 1, resolution, dependency, key, i);
    }
  }

  /** A row in a slot uses a candidate for that slot: ids and keys tell the slots of a resolution apart. */
  lemma {:induction false} RowUsesCandidate(g: Graph, p: Progress, resolution: nat, d: Dependency, slot: Demand, i: nat)
    requires g.Valid() && Linked(p) && AllAnswer(g.Ways(), p) && resolution < |p.resolutions|
    requires d in g.Of(p.resolutions[resolution]) && slot in d.Slots() && i < |p.rows| && InSlot(p.rows[i], resolution, d.id, slot.key)
    ensures p.rows[i].implementation in g.Candidates(d, slot)
  {
    var d', slot' := RowsFillSlots(g, p, i);
    assert DistinctIds(g.Of(p.resolutions[resolution])) && d' == d;
    assert DistinctKeys(d.Slots()) && slot' == slot;
  }

  lemma {:induction false} EmptySlotsCandidatesAreTaken(g: Graph, start: Progress, p: Progress, resolution: nat,
        d: Dependency, slot: Demand)
    requires start.visited == {} && start.rows == [] && VisitsAreUses(start, p)
    requires Filled(g, p, resolution, d, slot) && SlotCount(p.rows, |p.rows|, resolution, d.id, slot.key) == 0
    ensures Taken(g, p, resolution, d, slot)
  {
    forall c | c in g.Candidates(d, slot)
      ensures UsedElsewhere(p, resolution, d.id, slot.key, c)
    {
      assert UsedSince(start, p, c);
      var i: nat :| i < |p.rows| && p.rows[i].implementation == c;
      if InSlot(p.rows[i], resolution, d.id, slot.key) {
        RowIsCounted(p.rows, |p.rows|, resolution, d.id, slot.key, i);
      }
    }
  }

  lemma {:induction false} SameRow(p: Progress, i: nat, j: nat)
    requires UsedOnce(p) && i < |p.rows| && j < |p.rows| && p.rows[i].implementation == p.rows[j].implementation
    ensures i == j
  {
  }

  lemma {:induction false} TakenCandidatesLeaveTheSlotEmpty(g: Graph, p: Progress, resolution: nat, d: Dependency, slot: Demand)
    requires g.Valid() && UsedOnce(p) && Linked(p) && AllAnswer(g.Ways(), p) && resolution < |p.resolutions|
    requires d in g.Of(p.resolutions[resolution]) && slot in d.Slots()
    requires Taken(g, p, resolution, d, slot)
    ensures SlotCount(p.rows, |p.rows|, resolution, d.id, slot.key) == 0
  {
    if SlotCount(p.rows, |p.rows|, resolution, d.id, slot.key) > 0 {
      var i := SomeRowIsCounted(p.rows, |p.rows|, resolution, d.id, slot.key);
      RowUsesCandidate(g, p, resolution, d, slot, i);
      var j: nat :| j < |p.rows| && p.rows[j].implementation == p.rows[i].implementation && !InSlot(p.rows[j], resolution, d.id, slot.key);
      SameRow(p, i, j);
    }
  }

  lemma {:induction false} SlotIsEmptyIffTaken(g: Graph, impl: ImplId, p: Progress, resolution: nat, k: nat, s: nat)
    requires g.Valid() && IsOutcome(g, impl, true, p) && resolution < |p.resolutions|
    requires k < |g.Of(p.resolutions[resolution])| && s < |g.Of(p.resolutions[resolution])[k].Slots()|
    ensures var d := g.Of(p.resolutions[resolution])[k];
      SlotCount(p.rows, |p.rows|, resolution, d.id, d.Slots()[s].key) == 0 <==> Taken(g, p, resolution, d, d.Slots()[s])
  {
    var d := g.Of(p.resolutions[resolution])[k];
    var slot := d.Slots()[s];
    if SlotCount(p.rows, |p.rows|, resolution, d.id, slot.key) == 0 {
      assert Complete(g, p, resolution) && DependencyFilled(g, p, resolution, d) && Filled(g, p, resolution, d, slot);
      EmptySlotsCandidatesAreTaken(g, Progress({}, [impl], []), p, resolution, d, slot);
    }
    if Taken(g, p, resolution, d, slot) {
      TakenCandidatesLeaveTheSlotEmpty(g, p, resolution, d, slot);
    }
  }

  /** An action demand of a successful resolution gets no row, without an error, if and only if everything the agent offers
      for it is used for some other one. */
  lemma {:induction false} SlotStaysEmptyIffCandidatesAreTaken(g: Graph, impl: ImplId, p: Progress, resolution: nat, k: nat, j: nat)
    requires g.Valid() && IsOutcome(g, impl, true, p) && resolution < |p.resolutions|
    requires k < |g.Of(p.resolutions[resolution])| && IsLastOfKey(g.Of(p.resolutions[resolution])[k].demands, j)
    ensures var d := g.Of(p.resolutions[resolution])[k];
      && d.agent.Some?
      && (SlotCount(p.rows, |p.rows|, resolution, d.id, d.demands[j].key) == 0
          <==> forall c | c in g.offers(d.agent.value, d.demands[j].actions) :: UsedElsewhere(p, resolution, d.id, d.demands[j].key, c))
  {
    var d := g.Of(p.resolutions[resolution])[k];
    var s := DemandIsASlot(d.demands, |d.demands|, j);
    SlotIsEmptyIffTaken(g, impl, p, resolution, k, s);
    assert !Hopeless(d);
  }

  // ------------------------------------------------------------------------------------------------------------
  // A graph on which no slot with a candidate stays empty
  // ------------------------------------------------------------------------------------------------------------

  /** Implementations that include the outermost one and every candidate of one of them. */
  ghost predicate Closed(g: Graph, impl: ImplId, within: iset<ImplId>) {
    impl in within && forall way | way in g.Ways() && way.0 in within :: way.3 in within
  }

  /** Among them no implementation is a candidate for two slots, and the outermost one is a candidate for none. */
  ghost predicate Unshared(g: Graph, impl: ImplId, within: iset<ImplId>) {
    && (forall a, b | a in g.Ways() && b in g.Ways() && a.0 in within && b.0 in within && a.3 == b.3 :: a == b)
    && (forall a | a in g.Ways() && a.0 in within :: a.3 != impl)
  }

  function WayOf(p: Progress, i: nat): Way
    requires i < |p.rows| && p.rows[i].resolution < |p.resolutions|
  {
    (p.resolutions[p.rows[i].resolution], p.rows[i].dependency, p.rows[i].key, p.rows[i].implementation)
  }

  /** What a successful outcome says about its tree. */
  ghost predicate IsTree(g: Graph, impl: ImplId, p: Progress) {
    && |p.resolutions| > 0 && p.resolutions[0] == impl
    && UsedOnce(p) && Linked(p) && AllAnswer(g.Ways(), p)
    && forall r: nat | 0 < r < |p.resolutions| :: HasParent(p, r)
  }

  /** The row a resolution is downstream of. */
  lemma {:induction false} ParentOf(g: Graph, impl: ImplId, p: Progress, r: nat) returns (i: nat)
    requires IsTree(g, impl, p) && 0 < r < |p.resolutions|
    ensures i < |p.rows| && p.rows[i].downstream == Some(r) && p.rows[i].resolution < r
    ensures p.rows[i].implementation == p.resolutions[r] && WayOf(p, i) in g.Ways()
  {
    assert HasParent(p, r);
    i :| 0 <= i < |p.rows| && p.rows[i].downstream == Some(r);
  }

  lemma {:induction false} ResolutionsAreWithin(g: Graph, impl: ImplId, p: Progress, within: iset<ImplId>, r: nat)
    requires IsTree(g, impl, p) && Closed(g, impl, within) && r < |p.resolutions|
    ensures p.resolutions[r] in within
  {
    if r > 0 {
      var i := ParentOf(g, impl, p, r);
      ResolutionsAreWithin(g, impl, p, within, p.rows[i].resolution);
    }
  }

  /** Then the outermost implementation is not resolved again, */
  lemma {:induction false} RootIsResolvedOnce(g: Graph, impl: ImplId, p: Progress, within: iset<ImplId>, r: nat)
    requires IsTree(g, impl, p) && Closed(g, impl, within) && Unshared(g, impl, within) && 0 < r < |p.resolutions|
    ensures p.resolutions[r] != impl
  {
    var i := ParentOf(g, impl, p, r);
    ResolutionsAreWithin(g, impl, p, within, p.rows[i].resolution);
    assert WayOf(p, i).3 != impl;
  }

  /** nor is any other one resolved twice, */
  lemma {:induction false} ResolvedOnce(g: Graph, impl: ImplId, p: Progress, within: iset<ImplId>, q: nat, r: nat)
    requires IsTree(g, impl, p) && Closed(g, impl, within) && Unshared(g, impl, within)
    requires q < |p.resolutions| && r < |p.resolutions| && p.resolutions[q] == p.resolutions[r]
    ensures q == r
  {
    if q > 0 {
      RootIsResolvedOnce(g, impl, p, within, q);
    }
    if r > 0 {
      RootIsResolvedOnce(g, impl, p, within, r);
    }
    if q > 0 && r > 0 {
      var i := ParentOf(g, impl, p, q);
      var j := ParentOf(g, impl, p, r);
      SameRow(p, i, j);
    }
  }

  /** and a row that uses a candidate for a slot is in that slot. */
  lemma {:induction false} CandidatesAreUsedInTheirSlot(g: Graph, impl: ImplId, p: Progress, within: iset<ImplId>,
        resolution: nat, d: Dependency, slot: Demand, i: nat)
    requires IsTree(g, impl, p) && Closed(g, impl, within) && Unshared(g, impl, within) && resolution < |p.resolutions|
    requires i < |p.rows| && (p.resolutions[resolution], d.id, slot.key, p.rows[i].implementation) in g.Ways()
    ensures InSlot(p.rows[i], resolution, d.id, slot.key)
  {
    var way: Way := (p.resolutions[resolution], d.id, slot.key, p.rows[i].implementation);
    ResolutionsAreWithin(g, impl, p, within, resolution);
    ResolutionsAreWithin(g, impl, p, within, p.rows[i].resolution);
    assert WayOf(p, i) in g.Ways() && WayOf(p, i) == way;
    ResolvedOnce(g, impl, p, within, p.rows[i].resolution, resolution);
  }

  lemma {:induction false} OwnCandidateIsNotTaken(g: Graph, impl: ImplId, p: Progress, within: iset<ImplId>,
        resolution: nat, d: Dependency, slot: Demand, c: ImplId)
    requires IsTree(g, impl, p) && Closed(g, impl, within) && Unshared(g, impl, within) && resolution < |p.resolutions|
    requires (p.resolutions[resolution], d.id, slot.key, c) in g.Ways()
    ensures !UsedElsewhere(p, resolution, d.id, slot.key, c)
  {
    forall i | 0 <= i < |p.rows| && p.rows[i].implementation == c
      ensures InSlot(p.rows[i], resolution, d.id, slot.key)
    {
      CandidatesAreUsedInTheirSlot(g, impl, p, within, resolution, d, slot, i);
    }
  }

  lemma {:induction false} CandidateFills(g: Graph, of: ImplId, k: nat, s: nat, c: ImplId)
    requires k < |g.Of(of)| && s < |g.Of(of)[k].Slots()| && c in g.Candidates(g.Of(of)[k], g.Of(of)[k].Slots()[s])
    ensures (of, g.Of(of)[k].id, g.Of(of)[k].Slots()[s].key, c) in g.Ways()
  {
    assert g.IsWay((of, g.Of(of)[k].id, g.Of(of)[k].Slots()[s].key, c), k, s);
  }

  /** On a graph where, as far as candidates lead from the outermost implementation, none is shared by two slots and none
      leads back to it, every successful resolution gives rows to exactly the action demands that something is offered for. */
  lemma {:induction false} UnsharedCandidatesFillEverySlot(g: Graph, impl: ImplId, p: Progress, within: iset<ImplId>,
        resolution: nat, k: nat, j: nat)
    requires g.Valid() && Closed(g, impl, within) && Unshared(g, impl, within)
    requires IsOutcome(g, impl, true, p) && resolution < |p.resolutions|
    requires k < |g.Of(p.resolutions[resolution])| && IsLastOfKey(g.Of(p.resolutions[resolution])[k].demands, j)
    ensures var d := g.Of(p.resolutions[resolution])[k];
      && d.agent.Some?
      && (SlotCount(p.rows, |p.rows|, resolution, d.id, d.demands[j].key) > 0 <==> g.offers(d.agent.value, d.demands[j].actions) != [])
  {
    var d := g.Of(p.resolutions[resolution])[k];
    var s := DemandIsASlot(d.demands, |d.demands|, j);
    var slot := d.Slots()[s];
    assert !Hopeless(d);
    SlotIsEmptyIffTaken(g, impl, p, resolution, k, s);
    if g.Candidates(d, slot) != [] {
      var c := g.Candidates(d, slot)[0];
      CandidateFills(g, p.resolutions[resolution], k, s, c);
      OutcomeIsTree(g, impl, p);
      OwnCandidateIsNotTaken(g, impl, p, within, resolution, d, slot, c);
    }
  }

  lemma {:induction false} OutcomeIsTree(g: Graph, impl: ImplId, p: Progress)
    requires IsOutcome(g, impl, true, p)
    ensures IsTree(g, impl, p)
  {
  }

  const ONE_DEMAND := Demand("run", [0])

  /** Implementation 0 has two dependencies, and implementation 1 is the only one offered, for both. */
  const SHARED := Graph(
    map[0 := [Dependency(0, [ONE_DEMAND], false, Some(0), 1), Dependency(1, [ONE_DEMAND], false, Some(0), 1)]],
    (agent: AgentId, actions: seq<ActionId>) => [1],
    {0, 1})

  lemma {:induction false} SharedIsResolvable(p: Progress)
    ensures SHARED.Valid() && NothingHopeless(SHARED, p)
  {
    assert SHARED.Of(0) == SHARED.dependencies[0];
    forall r: nat, k: nat | r < |p.resolutions| && k < |SHARED.Of(p.resolutions[r])|
      ensures !Hopeless(SHARED.Of(p.resolutions[r])[k])
    {
      assert SHARED.Of(p.resolutions[r])[k].demands == [ONE_DEMAND];
    }
  }

  lemma {:induction false} SharedSlots(impl: ImplId, d: Dependency, slot: Demand)
    requires d in SHARED.Of(impl) && slot in d.Slots()
    ensures impl == 0 && (d.id == 0 || d.id == 1) && slot == ONE_DEMAND && d.preferred == 1 && SHARED.Candidates(d, slot) == [1]
  {
    assert d.demands == [ONE_DEMAND];
    assert SlotsOf(d.demands, 0) == [] && SlotsOf(d.demands, 1) == [ONE_DEMAND];
  }

  lemma {:induction false} SharedRowUses(p: Progress, i: nat)
    requires Linked(p) && AllAnswer(SHARED.Ways(), p) && i < |p.rows|
    ensures p.rows[i].implementation == 1 && p.resolutions[p.rows[i].resolution] == 0
    ensures p.rows[i].key == "run" && (p.rows[i].dependency == 0 || p.rows[i].dependency == 1)
  {
    var d, slot := RowsFillSlots(SHARED, p, i);
    SharedSlots(p.resolutions[p.rows[i].resolution], d, slot);
  }

  /** Rows all use implementation 1, for one of the two slots of the first resolution. */
  lemma {:induction false} SharedRows(p: Progress, i: nat)
    requires Linked(p) && AllAnswer(SHARED.Ways(), p) && i < |p.rows|
    requires forall r: nat | 0 < r < |p.resolutions| :: HasParent(p, r)
    ensures p.rows[i].implementation == 1 && (InSlot(p.rows[i], 0, 0, "run") || InSlot(p.rows[i], 0, 1, "run"))
  {
    var r := p.rows[i].resolution;
    SharedRowUses(p, i);
    if r > 0 {
      assert HasParent(p, r);
      var j: nat :| j < |p.rows| && p.rows[j].downstream == Some(r);
      SharedRowUses(p, j);
    }
  }

  /** One of the two slots holds a row. */
  lemma {:induction false} SharedFillsOne(p: Progress)
    requires IsOutcome(SHARED, 0, true, p)
    ensures SlotCount(p.rows, |p.rows|, 0, 0, "run") > 0 || SlotCount(p.rows, |p.rows|, 0, 1, "run") > 0
  {
    var d := SHARED.Of(0)[0];
    assert SlotsOf(d.demands, 0) == [] && d.Slots() == [ONE_DEMAND];
    SharedIsResolvable(p);
    SlotIsEmptyIffTaken(SHARED, 0, p, 0, 0, 0);
    if SlotCount(p.rows, |p.rows|, 0, 0, "run") == 0 {
      assert UsedElsewhere(p, 0, 0, "run", 1);
      var i: nat :| i < |p.rows| && p.rows[i].implementation == 1 && !InSlot(p.rows[i], 0, 0, "run");
      SharedRows(p, i);
      RowIsCounted(p.rows, |p.rows|, 0, 1, "run", i);
    }
  }

  /** Both together hold no second one. */
  lemma {:induction false} SharedFillsNoMore(p: Progress)
    requires Linked(p) && UsedOnce(p) && AllAnswer(SHARED.Ways(), p)
    ensures SlotCount(p.rows, |p.rows|, 0, 0, "run") == 0 || SlotCount(p.rows, |p.rows|, 0, 1, "run") == 0
  {
    if SlotCount(p.rows, |p.rows|, 0, 0, "run") > 0 && SlotCount(p.rows, |p.rows|, 0, 1, "run") > 0 {
      var i := SomeRowIsCounted(p.rows, |p.rows|, 0, 0, "run");
      var j := SomeRowIsCounted(p.rows, |p.rows|, 0, 1, "run");
      SharedRowUses(p, i);
      SharedRowUses(p, j);
      SameRow(p, i, j);
    }
  }

  /** It resolves without an error, fills one of its two slots, and leaves the other one empty. */
  lemma {:induction false} SharedCandidateLeavesASlotEmpty(ok: bool, p: Progress)
    requires IsOutcome(SHARED, 0, ok, p)
    ensures SHARED.Valid() && ok
    ensures SlotCount(p.rows, |p.rows|, 0, 0, "run") == 0 <==> SlotCount(p.rows, |p.rows|, 0, 1, "run") > 0
  {
    SharedIsResolvable(p);
    SharedFillsOne(p);
    SharedFillsNoMore(p);
  }

  lemma {:induction false} CompleteIsNotHopeless(g: Graph, p: Progress)
    requires forall r: nat | r < |p.resolutions| :: Complete(g, p, r)
    ensures NothingHopeless(g, p)
  {
    forall r: nat, k: nat | r < |p.resolutions| && k < |g.Of(p.resolutions[r])|
      ensures !Hopeless(g.Of(p.resolutions[r])[k])
    {
      assert Complete(g, p, r);
      assert DependencyFilled(g, p, r, g.Of(p.resolutions[r])[k]);
    }
  }

  /** From one implementation: it terminates on every graph. Each implementation is used at most once, each slot at most
      as often as preferred (but may be used once), and always with a candidate. It fails exactly when it meets a
      dependency that cannot be resolved; otherwise the resolutions form a tree under the first one, every slot that is
      not full has no unseen candidate left, and what was seen is used. */
  method ResolveFrom(graph: Graph, impl: ImplId) returns (ok: bool, p: Progress)
    requires graph.Valid()
    ensures IsOutcome(graph, impl, ok, p)
    ensures ok <==> forall r: nat, k: nat | r < |p.resolutions| && k < |graph.Of(p.resolutions[r])| :: Resolvable(graph.Of(p.resolutions[r])[k])
    ensures ok ==> EveryDemandServed(graph, p)
    ensures NoneOverserved(graph, p)
  {
    WaysCover(graph);
    var resolver := new Resolver(graph, graph.Ways(), impl);
    ok := resolver.AutoResolve(impl, 0);
    p := Progress(resolver.visited, resolver.resolutions, resolver.rows);
    assert p.resolutions[0] == impl;
    if ok {
      CompleteIsNotHopeless(graph, p);
    }
    OutcomeServesEveryDemand(graph, impl, ok, p);
  }
}
