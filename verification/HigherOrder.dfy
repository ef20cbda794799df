/** The projection of a higher-order wrapper onto the implementation it wraps (facade/higher_order.py). */
module HigherOrder {
  import opened Common

  type Dict = map<string, Json>

  /** What a wrapper returns for what its lower implementation returns: nothing for nothing, everything through an empty
      map, and otherwise the keys of the map, each with the value under the lower key it names, or null. */
  predicate IsProjection(returnMap: map<string, string>, lower: Option<Dict>, r: Option<Dict>) {
    && (r.None? <==> lower.None?)
    && (lower.Some? && returnMap == map[] ==> r == lower)
    && (lower.Some? && returnMap != map[] ==>
          && r.value.Keys == returnMap.Keys
          && forall key | key in returnMap ::
               r.value[key] == if returnMap[key] in lower.value then lower.value[returnMap[key]] else Null)
  }

  /** `return_map` is wrapper key -> lower key. */
  function ProjectReturns(returnMap: map<string, string>, lowerReturns: Option<Dict>): (r: Option<Dict>)
    ensures IsProjection(returnMap, lowerReturns, r)
  {
    match lowerReturns
    case None => None
    case Some(result) =>
      if returnMap == map[] then Some(result)
      else Some(map key | key in returnMap :: if returnMap[key] in result then result[returnMap[key]] else Null)
  }

  // ------------------------------------------------------------------------------------------------------------
  // Maps of a wrapper's configuration
  // ------------------------------------------------------------------------------------------------------------

  /** Where an entry takes its value from; a caller entry may lack its key. */
  datatype Source = Bound(value: Json) | FromCaller(key: Option<string>) | Neither

  datatype Entry = Entry(key: string, source: Source)

  /** A dictionary, entry by entry. */
  predicate DistinctKeys(entries: seq<Entry>) {
    forall i, j | 0 <= i < j < |entries| :: entries[i].key != entries[j].key
  }

  /** `argsKey` packs the arguments that no entry consumed; an empty one counts as none. */
  datatype Config = Config(bound: Dict, argMap: seq<Entry>, argsKey: Option<string>, dependencyMap: seq<Entry>)

  predicate Packs(config: Config) {
    config.argsKey.Some? && config.argsKey.value != ""
  }

  /** The entry names a supplied caller key. */
  predicate Supplied(source: Source, caller: Dict) {
    source.FromCaller? && source.key.Some? && source.key.value in caller
  }

  predicate Missing(source: Source, caller: Dict) {
    source.FromCaller? && (source.key.None? || source.key.value !in caller)
  }

  predicate AnyMissing(entries: seq<Entry>, n: nat, caller: Dict)
    requires n <= |entries|
  {
    exists i | 0 <= i < n :: Missing(entries[i].source, caller)
  }

  predicate Consumes(entries: seq<Entry>, n: nat, key: string)
    requires n <= |entries|
  {
    exists i | 0 <= i < n :: entries[i].source == FromCaller(Some(key))
  }

  /** The lower key is set by one of the first `n` entries. */
  predicate Sets(entries: seq<Entry>, n: nat, lower: string)
    requires n <= |entries|
  {
    exists i | 0 <= i < n :: entries[i].key == lower && entries[i].source.FromCaller?
  }

  /** The arguments left over, each under its own key. */
  function Remaining(config: Config, caller: Dict): Dict {
    map key | key in caller && !Consumes(config.argMap, |config.argMap|, key) :: caller[key]
  }

  // ------------------------------------------------------------------------------------------------------------
  // Arguments
  // ------------------------------------------------------------------------------------------------------------

  /** An argument that no entry names. */
  predicate LeftOver(config: Config, caller: Dict, key: string) {
    key in caller && forall i | 0 <= i < |config.argMap| :: config.argMap[i].source != FromCaller(Some(key))
  }

  /** The last step of the projection writes this key: the one key of the pack, or each left-over argument's own. */
  predicate Taken(config: Config, caller: Dict, key: string) {
    if config.argsKey.Some? && config.argsKey.value != "" then key == config.argsKey.value else LeftOver(config, caller, key)
  }

  ghost predicate IsPack(config: Config, caller: Dict, pack: Json) {
    && pack.Object?
    && (forall key :: key in pack.fields <==> LeftOver(config, caller, key))
    && (forall key | key in pack.fields :: pack.fields[key] == caller[key])
  }

  /** Key by key: the pack, or a left-over argument, wins over a mapped argument, and that over a bound parameter; no
      other key is set. */
  ghost predicate Projected(config: Config, caller: Dict, lower: Dict) {
    && (if config.argsKey.Some? && config.argsKey.value != ""
        then config.argsKey.value in lower && IsPack(config, caller, lower[config.argsKey.value])
        else forall key | LeftOver(config, caller, key) :: key in lower && lower[key] == caller[key])
    && (forall i | 0 <= i < |config.argMap| && config.argMap[i].source.FromCaller? && !Taken(config, caller, config.argMap[i].key) ::
          config.argMap[i].source.key.Some? && config.argMap[i].source.key.value in caller
          && config.argMap[i].key in lower && lower[config.argMap[i].key] == caller[config.argMap[i].source.key.value])
    && (forall key | !Taken(config, caller, key)
          && (forall i | 0 <= i < |config.argMap| && config.argMap[i].key == key :: !config.argMap[i].source.FromCaller?) ::
          (key in lower <==> key in config.bound) && (key in lower ==> lower[key] == config.bound[key]))
  }

  lemma {:induction false} RemainingAreLeftOver(config: Config, caller: Dict)
    ensures forall key :: key in Remaining(config, caller) <==> LeftOver(config, caller, key)
  {
  }

  /** The mapped arguments over the bound parameters. */
  ghost predicate Mapped(config: Config, caller: Dict, n: nat, lower: Dict)
    requires n <= |config.argMap|
  {
    && (forall i | 0 <= i < n && config.argMap[i].source.FromCaller? ::
          config.argMap[i].source.key.Some? && config.argMap[i].source.key.value in caller
          && config.argMap[i].key in lower && lower[config.argMap[i].key] == caller[config.argMap[i].source.key.value])
    && (forall key | !Sets(config.argMap, n, key) ::
          (key in lower <==> key in config.bound) && (key in lower ==> lower[key] == config.bound[key]))
  }

  lemma {:induction false} PackedIsProjected(config: Config, caller: Dict, mapped: Dict)
    requires Mapped(config, caller, |config.argMap|, mapped) && config.argsKey.Some? && config.argsKey.value != ""
    ensures Projected(config, caller, mapped[config.argsKey.value := Object(Remaining(config, caller))])
  {
    RemainingAreLeftOver(config, caller);
    assert IsPack(config, caller, Object(Remaining(config, caller)));
  }

  lemma {:induction false} SpreadIsProjected(config: Config, caller: Dict, mapped: Dict, lower: Dict)
    requires Mapped(config, caller, |config.argMap|, mapped) && !(config.argsKey.Some? && config.argsKey.value != "")
    requires forall key | LeftOver(config, caller, key) :: key in lower && lower[key] == caller[key]
    requires forall key | !LeftOver(config, caller, key) :: (key in lower <==> key in mapped) && (key in lower ==> lower[key] == mapped[key])
    ensures Projected(config, caller, lower)
  {
    forall key
      ensures Taken(config, caller, key) <==> LeftOver(config, caller, key)
    {
    }
  }

  lemma {:induction false} RemainingSpread(config: Config, caller: Dict, mapped: Dict)
    ensures var lower := mapped + Remaining(config, caller);
      && (forall key | LeftOver(config, caller, key) :: key in lower && lower[key] == caller[key])
      && (forall key | !LeftOver(config, caller, key) :: (key in lower <==> key in mapped) && (key in lower ==> lower[key] == mapped[key]))
  {
    RemainingAreLeftOver(config, caller);
  }

  /** Projects the bound parameters and the caller's arguments onto the lower arguments. It fails exactly when an entry
      names an argument that was not supplied. */
  method BuildLowerArgs(config: Config, caller: Dict) returns (r: Option<Dict>)
    requires DistinctKeys(config.argMap)
    ensures r.None? <==> AnyMissing(config.argMap, |config.argMap|, caller)
    ensures r.Some? ==> Projected(config, caller, r.value)
  {
    var lower := config.bound;
    for i := 0 to |config.argMap|
      invariant !AnyMissing(config.argMap, i, caller) && Mapped(config, caller, i, lower)
    {
      var entry := config.argMap[i];
      if entry.source.FromCaller? {
        if !Supplied(entry.source, caller) {
          return None;
        }
        lower := lower[entry.key := caller[entry.source.key.value]];
      }
      SetsNext(config.argMap, i);
    }
    if Packs(config) {
      PackedIsProjected(config, caller, lower);
      lower := lower[config.argsKey.value := Object(Remaining(config, caller))];
    } else {
      RemainingSpread(config, caller, lower);
      SpreadIsProjected(config, caller, lower, lower + Remaining(config, caller));
      lower := lower + Remaining(config, caller);
    }
    r := Some(lower);
  }

  lemma {:induction false} SetsNext(entries: seq<Entry>, n: nat)
    requires n < |entries|
    ensures forall lower :: Sets(entries, n + 1, lower) <==> (Sets(entries, n, lower) || (entries[n].key == lower && entries[n].source.FromCaller?))
  {
    forall lower
      ensures Sets(entries, n + 1, lower) <==> (Sets(entries, n, lower) || (entries[n].key == lower && entries[n].source.FromCaller?))
    {
      if entries[n].key == lower && entries[n].source.FromCaller? {
        assert entries[n].key == lower;
      }
      if Sets(entries, n, lower) {
        var i :| 0 <= i < n && entries[i].key == lower && entries[i].source.FromCaller?;
      }
    }
  }

  /** A caller argument reaches the lower implementation in the pack, under its own name, or under a name an entry gives
      it; it is lost only when every entry that names it aims at a key the last step takes. */
  ghost predicate Arrives(config: Config, caller: Dict, lower: Dict, key: string)
    requires key in caller
  {
    || (config.argsKey.Some? && config.argsKey.value in lower && lower[config.argsKey.value].Object?
        && key in lower[config.argsKey.value].fields && lower[config.argsKey.value].fields[key] == caller[key])
    || (key in lower && lower[key] == caller[key])
    || exists i | 0 <= i < |config.argMap| :: config.argMap[i].source == FromCaller(Some(key))
         && config.argMap[i].key in lower && lower[config.argMap[i].key] == caller[key]
  }

  lemma {:induction false} NoArgumentIsLost(config: Config, caller: Dict, lower: Dict, key: string)
    requires Projected(config, caller, lower) && key in caller
    ensures Arrives(config, caller, lower, key)
      || (!LeftOver(config, caller, key)
          && forall i | 0 <= i < |config.argMap| && config.argMap[i].source == FromCaller(Some(key)) :: Taken(config, caller, config.argMap[i].key))
  {
    if LeftOver(config, caller, key) {
      assert Arrives(config, caller, lower, key);
    } else if exists i | 0 <= i < |config.argMap| ::
        config.argMap[i].source == FromCaller(Some(key)) && !Taken(config, caller, config.argMap[i].key) {
      var i :| 0 <= i < |config.argMap| && config.argMap[i].source == FromCaller(Some(key)) && !Taken(config, caller, config.argMap[i].key);
      assert config.argMap[i].key in lower && lower[config.argMap[i].key] == caller[key];
    }
  }

  // ------------------------------------------------------------------------------------------------------------
  // Dependencies
  // ------------------------------------------------------------------------------------------------------------

  predicate HasKey(entries: seq<Entry>, n: nat, key: string)
    requires n <= |entries|
  {
    exists i | 0 <= i < n :: entries[i].key == key
  }

  predicate Unusable(source: Source, resolved: Dict) {
    source.Neither? || (source.FromCaller? && (source.key.None? || source.key.value !in resolved))
  }

  predicate AnyUnusable(entries: seq<Entry>, n: nat, resolved: Dict)
    requires n <= |entries|
  {
    exists i | 0 <= i < n :: Unusable(entries[i].source, resolved)
  }

  /** What an entry puts into its lower slot. */
  function ValueOf(source: Source, resolved: Dict): Json
    requires !Unusable(source, resolved)
  {
    match source
    case Bound(value) => value
    case FromCaller(key) => resolved[key.value]
  }

  /** The lower slots: those of the map, each with its bound value or that of its caller key; without a map, the resolved
      ones. */
  ghost predicate SlotsAre(entries: seq<Entry>, resolved: Dict, lower: Dict) {
    && (entries == [] ==> lower == resolved)
    && (entries != [] ==> forall key :: key in lower <==> HasKey(entries, |entries|, key))
    && (forall i | 0 <= i < |entries| ::
          match entries[i].source
          case Bound(value) => entries[i].key in lower && lower[entries[i].key] == value
          case FromCaller(key) =>
            key.Some? && key.value in resolved && entries[i].key in lower && lower[entries[i].key] == resolved[key.value]
          case Neither => false)
  }

  /** Projects the resolved dependencies onto the lower slots; without a map they pass through by key. */
  method BuildLowerDependencies(config: Config, resolved: Dict) returns (r: Option<Dict>)
    requires DistinctKeys(config.dependencyMap)
    ensures r.None? <==> AnyUnusable(config.dependencyMap, |config.dependencyMap|, resolved)
    ensures r.Some? ==> SlotsAre(config.dependencyMap, resolved, r.value)
  {
    if config.dependencyMap == [] {
      return Some(resolved);
    }
    var lower: Dict := map[];
    for i := 0 to |config.dependencyMap|
      invariant !AnyUnusable(config.dependencyMap, i, resolved)
      invariant forall key :: key in lower <==> HasKey(config.dependencyMap, i, key)
      invariant forall j | 0 <= j < i ::
        !Unusable(config.dependencyMap[j].source, resolved)
        && lower[config.dependencyMap[j].key] == ValueOf(config.dependencyMap[j].source, resolved)
    {
      var entry := config.dependencyMap[i];
      if entry.source.Neither? || (entry.source.FromCaller? && !Supplied(entry.source, resolved)) {
        return None;
      }
      lower := lower[entry.key := ValueOf(entry.source, resolved)];
    }
    r := Some(lower);
  }

  /** The declared keys that caller entries name; fails on a caller entry without key. */
  method RequiredSources(entries: seq<Entry>) returns (r: Option<set<string>>)
    ensures r.None? <==> Keyless(entries, |entries|)
    ensures r.Some? ==> forall key :: key in r.value <==> Consumes(entries, |entries|, key)
  {
    var sources := {};
    for i := 0 to |entries|
      invariant !Keyless(entries, i)
      invariant forall key :: key in sources <==> Consumes(entries, i, key)
    {
      if entries[i].source.FromCaller? {
        if entries[i].source.key.None? {
          return None;
        }
        sources := sources + {entries[i].source.key.value};
      }
    }
    r := Some(sources);
  }

  predicate Keyless(entries: seq<Entry>, n: nat)
    requires n <= |entries|
  {
    exists i | 0 <= i < n :: entries[i].source == FromCaller(None)
  }

  /** What the validator of a wrapper accepts. */
  predicate Covered(entries: seq<Entry>, lowerKeys: seq<string>, declared: set<string>) {
    && !Keyless(entries, |entries|)
    && (forall i | 0 <= i < |entries| && entries[i].source.FromCaller? && entries[i].source.key.Some? :: entries[i].source.key.value in declared)
    && (forall key | key in lowerKeys :: if entries == [] then key in declared else HasKey(entries, |entries|, key))
  }

  method ValidateDependencyCoverage(config: Config, lowerKeys: seq<string>, declared: set<string>) returns (ok: bool)
    ensures ok <==> Covered(config.dependencyMap, lowerKeys, declared)
  {
    var entries := config.dependencyMap;
    var sources := RequiredSources(entries);
    if sources.None? {
      return false;
    }
    if !(sources.value <= declared) {
      var key :| key in sources.value && key !in declared;
      assert Consumes(entries, |entries|, key);
      return false;
    }
    assert forall i | 0 <= i < |entries| && entries[i].source.FromCaller? && entries[i].source.key.Some? ::
      Consumes(entries, |entries|, entries[i].source.key.value);
    ok := true;
    for i := 0 to |lowerKeys|
      invariant ok <==> forall j | 0 <= j < i :: if entries == [] then lowerKeys[j] in declared else HasKey(entries, |entries|, lowerKeys[j])
    {
      if entries == [] {
        ok := ok && lowerKeys[i] in declared;
      } else {
        ok := ok && HasKey(entries, |entries|, lowerKeys[i]);
      }
    }
  }

  predicate HasNeither(entries: seq<Entry>) {
    exists i | 0 <= i < |entries| :: entries[i].source.Neither?
  }

  /** The projection of a resolved dictionary succeeds and fills every lower slot. */
  predicate Fills(entries: seq<Entry>, lowerKeys: seq<string>, resolved: Dict) {
    && !AnyUnusable(entries, |entries|, resolved)
    && (forall key | key in lowerKeys :: if entries == [] then key in resolved else HasKey(entries, |entries|, key))
  }

  /** An accepted configuration only fails on an entry that is neither bound nor from the caller, whatever the declared
      dependencies were resolved to. */
  lemma {:induction false} AcceptedConfigurationsFill(entries: seq<Entry>, lowerKeys: seq<string>,
        declared: set<string>, resolved: Dict)
    requires Covered(entries, lowerKeys, declared) && resolved.Keys == declared
    ensures AnyUnusable(entries, |entries|, resolved) <==> HasNeither(entries)
    ensures !HasNeither(entries) ==> Fills(entries, lowerKeys, resolved)
  {
    forall i | 0 <= i < |entries|
      ensures Unusable(entries[i].source, resolved) <==> entries[i].source.Neither?
    {
      if entries[i].source.FromCaller? {
        assert entries[i].source != FromCaller(None);
      }
    }
  }

  /** Without such entries the validator accepts exactly the configurations that fill every lower slot. */
  lemma {:induction false} ValidatorIsExact(entries: seq<Entry>, lowerKeys: seq<string>, declared: set<string>, resolved: Dict)
    requires resolved.Keys == declared && !HasNeither(entries)
    ensures Covered(entries, lowerKeys, declared) <==> Fills(entries, lowerKeys, resolved)
  {
    if Covered(entries, lowerKeys, declared) {
      AcceptedConfigurationsFill(entries, lowerKeys, declared, resolved);
    } else if Fills(entries, lowerKeys, resolved) {
      forall i | 0 <= i < |entries|
        ensures !Unusable(entries[i].source, resolved)
      {
      }
      assert false;
    }
  }

  // ------------------------------------------------------------------------------------------------------------
  // Resolving the declared dependencies (facade/backend.py)
  // ------------------------------------------------------------------------------------------------------------

  /** An action a dependency needs: the caller-facing key, and the action key its demand pins, if any. */
  datatype ActionSlot = ActionSlot(key: string, pinned: Option<string>)
  {
    /** Which action of the agent is meant; an empty pin counts as none. */
    function ActionKey(): string {
      if pinned.Some? && pinned.value != "" then pinned.value else key
    }
  }

  /** An implementation an agent offers, and whether it has dependencies of its own. */
  datatype Offer = Offer(id: string, nested: bool)

  /** An available agent, with what it offers for each action key. */
  datatype Agent = Agent(id: string, offers: map<string, seq<Offer>>)
  {
    function OffersFor(actionKey: string): seq<Offer> {
      if actionKey in offers then offers[actionKey] else []
    }

    /** Exactly one implementation, without dependencies of its own. */
    predicate CanCall(slot: ActionSlot) {
      var found := OffersFor(slot.ActionKey());
      |found| == 1 && !found[0].nested
    }

    predicate CanCallAll(slots: seq<ActionSlot>) {
      forall slot | slot in slots :: CanCall(slot)
    }
  }

  /** How a call names one implementation of an agent. */
  function Callable(offer: Offer): Json {
    Object(map["implementation" := Atom(offer.id), "dependencies" := Object(map[])])
  }

  /** The implementations by slot key, for the first `n` slots; a later slot of the same key wins. */
  function Implementations(agent: Agent, slots: seq<ActionSlot>, n: nat): map<string, Json>
    requires n <= |slots| && agent.CanCallAll(slots)
  {
    if n == 0 then map[]
    else
      var slot := slots[n - 1];
      assert agent.CanCall(slot);
      Implementations(agent, slots, n - 1)[slot.key := Callable(agent.OffersFor(slot.ActionKey())[0])]
  }

  /** What a call is told about an agent; None when some slot has no single implementation there, or one that would need
      dependencies itself. */
  function AgentDict(agent: Agent, slots: seq<ActionSlot>): Option<Json> {
    if !agent.CanCallAll(slots) then None
    else Some(Object(map["agent" := Atom(agent.id), "actions" := Object(Implementations(agent, slots, |slots|))]))
  }

  method BuildAgentDependencyDict(agent: Agent, slots: seq<ActionSlot>) returns (r: Option<Json>)
    ensures r == AgentDict(agent, slots)
  {
    var implementations: map<string, Json> := map[];
    for i := 0 to |slots|
      invariant forall j | 0 <= j < i :: agent.CanCall(slots[j])
      invariant agent.CanCallAll(slots) ==> implementations == Implementations(agent, slots, i)
    {
      var found := agent.OffersFor(slots[i].ActionKey());
      if |found| != 1 || found[0].nested {
        assert slots[i] in slots;
        return None;
      }
      implementations := implementations[slots[i].key := Callable(found[0])];
    }
    r := Some(Object(map["agent" := Atom(agent.id), "actions" := Object(implementations)]));
  }

  /** The keys are those of the slots. */
  lemma {:induction false} ImplementationKeys(agent: Agent, slots: seq<ActionSlot>, n: nat, key: string)
    requires n <= |slots| && agent.CanCallAll(slots)
    ensures key in Implementations(agent, slots, n) <==> exists i | 0 <= i < n :: slots[i].key == key
  {
    if n > 0 {
      ImplementationKeys(agent, slots, n - 1, key);
      assert slots[n - 1].key == key ==> exists i | 0 <= i < n :: slots[i].key == key;
    }
  }

  /** Each key leads to the one implementation, without dependencies, that its last slot means. */
  lemma {:induction false} ImplementationAt(agent: Agent, slots: seq<ActionSlot>, n: nat, i: nat)
    requires i < n <= |slots| && agent.CanCallAll(slots)
    requires forall j | i < j < n :: slots[j].key != slots[i].key
    ensures slots[i].key in Implementations(agent, slots, n) && agent.CanCall(slots[i])
    ensures Implementations(agent, slots, n)[slots[i].key] == Callable(agent.OffersFor(slots[i].ActionKey())[0])
  {
    assert slots[i] in slots;
    if i < n - 1 {
      ImplementationAt(agent, slots, n - 1, i);
    }
  }

  /** A declared dependency: its actions, and the available agents its filter finds. */
  datatype Declared = Declared(
    key: string,
    slots: seq<ActionSlot>,
    autoResolvable: bool,
    most: Option<int>,
    least: Option<int>,
    found: seq<Agent>)

  /** What the caller gives for a dependency: automatic resolution, or the available ones of the agents named. */
  datatype Overwrite = Overwrite(key: string, auto: bool, mapped: seq<Agent>)

  predicate IsFirstFor(overwrites: seq<Overwrite>, n: nat, key: string, r: Option<Overwrite>)
    requires n <= |overwrites|
  {
    match r
    case None => forall i | 0 <= i < n :: overwrites[i].key != key
    case Some(found) =>
      exists i | 0 <= i < n :: overwrites[i] == found && found.key == key && forall j | 0 <= j < i :: overwrites[j].key != key
  }

  /** What is given for a key; the first of several counts. */
  function FirstFor(overwrites: seq<Overwrite>, n: nat, key: string): (r: Option<Overwrite>)
    requires n <= |overwrites|
    ensures IsFirstFor(overwrites, n, key, r)
  {
    if n == 0 then None
    else
      var earlier := FirstFor(overwrites, n - 1, key);
      if earlier.None? && overwrites[n - 1].key == key then Some(overwrites[n - 1]) else earlier
  }

  /** The agents a dependency is about, before its limits. */
  function AgentsFor(d: Declared, overwrite: Option<Overwrite>): seq<Agent> {
    if overwrite.None? || overwrite.value.auto then d.found else overwrite.value.mapped
  }

  /** The agents a dependency is resolved to, or a refusal. A query cannot be cut at a negative length. */
  function Chosen(d: Declared, overwrite: Option<Overwrite>): Option<seq<Agent>> {
    if (overwrite.None? || overwrite.value.auto) && !d.autoResolvable then None
    else if d.most.Some? && d.most.value < 0 then None
    else
      var agents := AgentsFor(d, overwrite);
      var chosen := if d.most.Some? && d.most.value < |agents| then agents[..d.most.value] else agents;
      if d.least.Some? && |chosen| < d.least.value then None else Some(chosen)
  }

  predicate AllCallable(agents: seq<Agent>, slots: seq<ActionSlot>) {
    forall i | 0 <= i < |agents| :: agents[i].CanCallAll(slots)
  }

  /** What a dependency is resolved to: one dictionary for each chosen agent, or a refusal. */
  function Resolve(d: Declared, overwrite: Option<Overwrite>): Option<seq<Json>> {
    var chosen := Chosen(d, overwrite);
    if chosen.None? || !AllCallable(chosen.value, d.slots) then None
    else Some(seq(|chosen.value|, i requires 0 <= i < |chosen.value| => AgentDict(chosen.value[i], d.slots).value))
  }

  method ResolveDependency(d: Declared, overwrite: Option<Overwrite>) returns (r: Option<seq<Json>>)
    ensures r == Resolve(d, overwrite)
  {
    var chosen := Chosen(d, overwrite);
    if chosen.None? {
      return None;
    }
    var dicts := [];
    for i := 0 to |chosen.value|
      invariant |dicts| == i && forall j | 0 <= j < i :: AgentDict(chosen.value[j], d.slots) == Some(dicts[j])
    {
      var built := BuildAgentDependencyDict(chosen.value[i], d.slots);
      if built.None? {
        return None;
      }
      dicts := dicts + [built.value];
    }
    assert forall j | 0 <= j < |chosen.value| :: AgentDict(chosen.value[j], d.slots).Some? && chosen.value[j].CanCallAll(d.slots);
    assert dicts == Resolve(d, overwrite).value;
    r := Some(dicts);
  }

  /** The agent has exactly one implementation of the action a slot means, and that one is `offer`. The slot means what it
      pins, unless that is empty, and its own key otherwise. */
  predicate Offers(agent: Agent, slot: ActionSlot, offer: Offer) {
    var meant := if slot.pinned.Some? && slot.pinned.value != "" then slot.pinned.value else slot.key;
    meant in agent.offers && agent.offers[meant] == [offer]
  }

  ghost predicate HasCallable(agent: Agent, slot: ActionSlot) {
    exists offer | Offers(agent, slot, offer) :: !offer.nested
  }

  lemma {:induction false} CallableIffOffered(agent: Agent, slot: ActionSlot)
    ensures agent.CanCall(slot) <==> HasCallable(agent, slot)
  {
    if agent.CanCall(slot) {
      assert Offers(agent, slot, agent.OffersFor(slot.ActionKey())[0]);
    }
  }

  /** What a call is told about an agent that can be called: its id, and under each slot key the implementation its last
      slot means, to be called without dependencies. */
  lemma {:induction false} AgentDictsSay(agent: Agent, slots: seq<ActionSlot>) returns (actions: Dict)
    requires AgentDict(agent, slots).Some?
    ensures AgentDict(agent, slots) == Some(Object(map["agent" := Atom(agent.id), "actions" := Object(actions)]))
    ensures forall key :: key in actions <==> exists i | 0 <= i < |slots| :: slots[i].key == key
    ensures forall i | 0 <= i < |slots| && (forall j | i < j < |slots| :: slots[j].key != slots[i].key) ::
      exists offer | Offers(agent, slots[i], offer) ::
        !offer.nested && actions[slots[i].key] == Object(map["implementation" := Atom(offer.id), "dependencies" := Object(map[])])
  {
    actions := Implementations(agent, slots, |slots|);
    forall key
      ensures key in actions <==> exists i | 0 <= i < |slots| :: slots[i].key == key
    {
      ImplementationKeys(agent, slots, |slots|, key);
    }
    forall i | 0 <= i < |slots| && (forall j | i < j < |slots| :: slots[j].key != slots[i].key)
      ensures slots[i].key in actions
      ensures exists offer | Offers(agent, slots[i], offer) ::
        !offer.nested && actions[slots[i].key] == Object(map["implementation" := Atom(offer.id), "dependencies" := Object(map[])])
    {
      ImplementationAt(agent, slots, |slots|, i);
      assert Offers(agent, slots[i], agent.OffersFor(slots[i].ActionKey())[0]);
    }
  }

  /** The agents that are kept: those the filter found, or the mapped ones, up to the limit. */
  function Kept(d: Declared, overwrite: Option<Overwrite>): nat {
    var agents := if overwrite.None? || overwrite.value.auto then d.found else overwrite.value.mapped;
    if d.most.Some? && 0 <= d.most.value < |agents| then d.most.value else |agents|
  }

  /** Every way to be refused: nothing was given for a dependency that does not resolve by itself, a negative limit, too
      few agents, or one of the agents kept has no single implementation for some action, or one with dependencies. */
  lemma {:induction false} RefusalsAre(d: Declared, overwrite: Option<Overwrite>)
    ensures var automatic := overwrite.None? || overwrite.value.auto;
      var agents := if automatic then d.found else overwrite.value.mapped;
      Resolve(d, overwrite).None? <==>
        || (automatic && !d.autoResolvable)
        || (d.most.Some? && d.most.value < 0)
        || (d.least.Some? && Kept(d, overwrite) < d.least.value)
        || exists i | 0 <= i < Kept(d, overwrite) :: exists slot | slot in d.slots :: !HasCallable(agents[i], slot)
  {
    var agents := AgentsFor(d, overwrite);
    var kept := Kept(d, overwrite);
    assert Chosen(d, overwrite).Some? ==> Chosen(d, overwrite).value == agents[..kept];
    assert AllCallable(agents[..kept], d.slots) <==> forall i | 0 <= i < kept :: agents[i].CanCallAll(d.slots);
    forall i | 0 <= i < kept
      ensures agents[i].CanCallAll(d.slots) <==> forall slot | slot in d.slots :: HasCallable(agents[i], slot)
    {
      forall slot
        ensures agents[i].CanCall(slot) <==> HasCallable(agents[i], slot)
      {
        CallableIffOffered(agents[i], slot);
      }
    }
  }

  /** Otherwise each agent kept is resolved to its dictionary, in order. */
  lemma {:induction false} ResolvedAre(d: Declared, overwrite: Option<Overwrite>)
    requires Resolve(d, overwrite).Some?
    ensures var agents := if overwrite.None? || overwrite.value.auto then d.found else overwrite.value.mapped;
      && |Resolve(d, overwrite).value| == Kept(d, overwrite)
      && forall i | 0 <= i < Kept(d, overwrite) :: AgentDict(agents[i], d.slots) == Some(Resolve(d, overwrite).value[i])
  {
    var agents := AgentsFor(d, overwrite);
    assert Chosen(d, overwrite).value == agents[..Kept(d, overwrite)];
    assert forall i | 0 <= i < Kept(d, overwrite) :: agents[..Kept(d, overwrite)][i].CanCallAll(d.slots);
  }

  predicate Refused(deps: seq<Declared>, n: nat, overwrites: seq<Overwrite>)
    requires n <= |deps|
  {
    exists i | 0 <= i < n :: Resolve(deps[i], FirstFor(overwrites, |overwrites|, deps[i].key)).None?
  }

  function ListOf(agents: Option<seq<Json>>): Option<Json> {
    if agents.None? then None else Some(List(agents.value))
  }

  /** The keys are those of the first `n` dependencies, and each leads to what its last dependency is resolved to. */
  ghost predicate ResolvedTo(resolved: Dict, deps: seq<Declared>, n: nat, overwrites: seq<Overwrite>)
    requires n <= |deps|
  {
    && (forall key :: key in resolved <==> exists i | 0 <= i < n :: deps[i].key == key)
    && (forall i | 0 <= i < n && (forall j | i < j < n :: deps[j].key != deps[i].key) ::
          Some(resolved[deps[i].key]) == ListOf(Resolve(deps[i], FirstFor(overwrites, |overwrites|, deps[i].key))))
  }

  lemma {:induction false} OneMoreResolved(resolved: Dict, deps: seq<Declared>, n: nat, overwrites: seq<Overwrite>, dicts: seq<Json>)
    requires n < |deps| && ResolvedTo(resolved, deps, n, overwrites)
    requires Resolve(deps[n], FirstFor(overwrites, |overwrites|, deps[n].key)) == Some(dicts)
    ensures ResolvedTo(resolved[deps[n].key := List(dicts)], deps, n + 1, overwrites)
  {
    var more := resolved[deps[n].key := List(dicts)];
    forall i | 0 <= i < n + 1 && (forall j | i < j < n + 1 :: deps[j].key != deps[i].key)
      ensures deps[i].key in more
      ensures Some(more[deps[i].key]) == ListOf(Resolve(deps[i], FirstFor(overwrites, |overwrites|, deps[i].key)))
    {
    }
    forall key
      ensures key in more <==> exists i | 0 <= i < n + 1 :: deps[i].key == key
    {
      assert deps[n].key == key ==> exists i | 0 <= i < n + 1 :: deps[i].key == key;
    }
  }

  /** Resolves every declared dependency or none: the keys of the result are the declared keys. */
  method BuildDependencyDict(deps: seq<Declared>, overwrites: seq<Overwrite>) returns (r: Option<Dict>)
    ensures r.None? <==> Refused(deps, |deps|, overwrites)
    ensures r.Some? ==> ResolvedTo(r.value, deps, |deps|, overwrites)
  {
    var resolved: Dict := map[];
    for i := 0 to |deps|
      invariant !Refused(deps, i, overwrites) && ResolvedTo(resolved, deps, i, overwrites)
    {
      var dicts := ResolveDependency(deps[i], FirstFor(overwrites, |overwrites|, deps[i].key));
      if dicts.None? {
        return None;
      }
      OneMoreResolved(resolved, deps, i, overwrites, dicts.value);
      resolved := resolved[deps[i].key := List(dicts.value)];
    }
    r := Some(resolved);
  }

  // ------------------------------------------------------------------------------------------------------------
  // Linking a wrapper and assigning it (facade/mutations/implementation.py, facade/backend.py)
  // ------------------------------------------------------------------------------------------------------------

  /** An implementation to be wrapped. */
  datatype Lower = Lower(id: nat, agent: nat, generator: bool, wrapper: bool, dependencyKeys: seq<string>)

  /** What a wrapper's task hands to its child. */
  datatype Delegation = Delegation(args: Dict, dependencies: Dict)

  function KeysOf(deps: seq<Declared>): set<string> {
    set i | 0 <= i < |deps| :: deps[i].key
  }

  class Wrapper {
    const id: nat
    const agent: nat
    const generator: bool
    const declared: seq<Declared>
    var lower: Option<Lower>
    var config: Config

    /** The stored configuration was accepted for the wrapped implementation. */
    ghost predicate Valid()
      reads this
    {
      && DistinctKeys(config.argMap) && DistinctKeys(config.dependencyMap)
      && (lower.Some? ==> Covered(config.dependencyMap, lower.value.dependencyKeys, KeysOf(declared)))
    }

    constructor (id: nat, agent: nat, generator: bool, declared: seq<Declared>)
      ensures Valid() && lower == None
      ensures this.id == id && this.agent == agent && this.generator == generator && this.declared == declared
    {
      this.id, this.agent, this.generator, this.declared := id, agent, generator, declared;
      lower, config := None, Config(map[], [], None, []);
    }

    /** Another implementation, of the same agent and kind, that is no wrapper itself. */
    predicate Fits(to: Lower) {
      to.id != id && to.agent == agent && !to.wrapper && to.generator == generator
    }

    /** Links the wrapper to an implementation of its own agent and kind that is no wrapper, if every lower slot is
        covered; otherwise nothing changes. */
    method SetHigherOrder(to: Lower, config: Config) returns (ok: bool)
      requires Valid() && DistinctKeys(config.argMap) && DistinctKeys(config.dependencyMap)
      modifies this
      ensures Valid()
      ensures ok <==> Fits(to) && Covered(config.dependencyMap, to.dependencyKeys, KeysOf(declared))
      ensures lower == (if ok then Some(to) else old(lower)) && this.config == (if ok then config else old(this.config))
    {
      if to.id == id || to.agent != agent || to.wrapper || to.generator != generator {
        return false;
      }
      ok := ValidateDependencyCoverage(config, to.dependencyKeys, KeysOf(declared));
      if ok {
        lower := Some(to);
        this.config := config;
      }
    }

    /** Projects a call of the wrapper onto the wrapped implementation. Whatever was linked, and however dependencies
        are resolved: without sources that are neither bound nor caller it fails only because the agent is away, a
        declared dependency cannot be resolved, or a mapped argument was not supplied; otherwise every slot of the
        wrapped implementation is filled. */
    method AssignHigherOrder(available: bool, args: Dict, overwrites: seq<Overwrite>) returns (r: Option<Delegation>)
      requires Valid() && lower.Some?
      ensures !HasNeither(config.dependencyMap) ==>
        (r.None? <==> !available || Refused(declared, |declared|, overwrites) || AnyMissing(config.argMap, |config.argMap|, args))
      ensures r.Some? ==> Projected(config, args, r.value.args)
      ensures r.Some? ==> exists resolved | ResolvedTo(resolved, declared, |declared|, overwrites) ::
        SlotsAre(config.dependencyMap, resolved, r.value.dependencies)
      ensures r.Some? ==> forall key | key in lower.value.dependencyKeys :: key in r.value.dependencies
    {
      if !available {
        return None;
      }
      var resolved := BuildDependencyDict(declared, overwrites);
      if resolved.None? {
        return None;
      }
      assert resolved.value.Keys == KeysOf(declared);
      AcceptedConfigurationsFill(config.dependencyMap, lower.value.dependencyKeys, KeysOf(declared), resolved.value);
      var lowerArgs := BuildLowerArgs(config, args);
      var dependencies := BuildLowerDependencies(config, resolved.value);
      if lowerArgs.None? || dependencies.None? {
        return None;
      }
      r := Some(Delegation(lowerArgs.value, dependencies.value));
    }
  }
}
