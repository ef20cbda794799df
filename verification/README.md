# Rekuest, modelled in Dafny

Rekuest routes work to remote agents. An agent connects over a websocket, takes a write-lease on its row, answers
heartbeats, and drains a message queue; the server keeps one row and one event log per task, reconciles the work of
agents that went away, and finds actions by the shape of their ports. This project states what that machinery does and
proves the properties it is there for. `dafny verify dfyconfig.toml` checks everything.

| file | models |
|---|---|
| `Common`, `Splitting`, `Dictionaries` | shared types; `str.split` and join; dictionaries that several writers fill |
| `Liveness`, `Lease`, `Session` | the liveness predicates, the lease columns of an agent row, one registered connection with its loops |
| `LeaseRuns` | all runs of any number of connections and sweepers over one row, on one clock: exclusion, fencing, the live verdict |
| `Tasks`, `TaskRuns`, `TaskLaws` | task rows, events and handlers; all interleavings of reports, controls and sweeps; their laws |
| `Reconnect`, `Grace` | what a reconnect or a sweep does to in-flight tasks; the keyed grace timers and what a reclaim protects |
| `HigherOrder` | wrappers: argument, dependency and return projection, the coverage validator, dependency resolution |
| `Ports` | the port forest flattened level by level into rows |
| `ParamKeys`, `PortQuery`, `Demands`, `DemandLaws`, `Positional` | the relational matcher: parameter keys, nested EXISTS clauses with an evaluator, whole statements, positional placeholders |
| `KeyPaths` | structure usages rebuilt from materialized key paths |
| `Descriptors` | descriptors compiled to SQL/JSON path predicates, with a parser and a semantics of those |
| `AutoResolve` | recursive dependency resolution with a shared visited set |
| `StateReplay` | snapshot-plus-patch checkouts |
| `AgentQueue` | the send-then-ack queue under cancellation |

Handlers that change rows, dictionaries or lists in place are methods of classes (`AgentRecord`, `RegisteredSession`,
`TaskStore`, `AgentBackend`, `GraceScheduler`, `Wrapper`, `PortTable`, `PortStore`, `ParamDict`, `ClauseList`, `Resolver`,
`RedisAgentQueue`). Each is proved equal to a function on values, and the runs are built from those functions, so the laws
about runs are laws about the methods.

## Assumptions

- There is one clock, timers fire on time, and sends are instantaneous and do not raise. A renewal reaches the row within
  `latency` of its heartbeat and does not raise; a won registration spawns its loops within `setup`.
- Locked blocks and conditional updates are atomic steps. So is the disconnect handler (facade/persist_backend.py:83-105),
  which reads and saves the row without a lock, and so are full-row saves of an agent elsewhere (facade/backend.py:460-479),
  which could otherwise write back an old epoch.
- Each report handler, the silence handler and each control request is one atomic step, though they read, check and save
  without a lock (facade/persist_backend.py:577-693, facade/backend.py:132-163). That a finished task has exactly one terminal
  event, and that `is_done` never reverts, depends on it: a handler that read its row before a sweep's claim could save over it.
- Frames of one connection are handled one at a time, as its consumer does. A sweeper may be delayed anywhere but does not
  crash between a won claim and its event.
- Message bodies on a queue are distinct: every message carries a fresh uuid (facade/messages.py:120-125), and the only push
  serialises a message just built (facade/transport.py:26-31). This is the hypothesis of `AgentQueue.NothingIsLost`.
- The projection of a wrapper does not change while its tasks run. Deleting a port row deletes its children, which carry the
  same action. Grace timers live in one process.
- Identifiers are kept whole. PostgreSQL cuts them at 63 bytes, so the aliases `p_...` of port matches nested so deep that their
  paths agree in the first 61 characters would collide.
- The database filters, orders and counts as SQL does; JSON patch application and the evaluation of a compiled constraint are
  parameters.

## Findings

Where code and documentation differ, the model follows the code.

- Mutual exclusion is not implied by "interval plus timeout below the stale window". A renewal keeps the stamp of its
  heartbeat, and a slow renewal lets a connection drain longer. The exact condition is
  `setup + interval + timeout + min(latency, interval + timeout) < stale window`
  (`LeaseRuns.MutualExclusionIffWindowExceedsHorizon`); the shipped 10/5/30 seconds leave 15 seconds for the two latencies.
- `agent_is_stale` and `stale_agent_q` are documented as twins, but differ for a row seen exactly one window ago
  (`Liveness.StaleTwinsAgreeExactlyOffTheCutoff`).
- The handler of a yield does not look at `is_done` (facade/persist_backend.py:567-575): a yield that arrives after the terminal
  report takes a done wrapper's latest kind back to YIELD (`TaskLaws.DoneWrapperCanShowYield`). In general a done wrapper shows
  the kind that was last forwarded to it (`TaskLaws.DoneWrapperShowsTheLastForwarded`); a done task that is no wrapper keeps the
  kind of its terminal event.
- The comment at facade/persist_backend.py:276-278 says sweeping a queued task again must not pile up Assigns. A queued
  idempotent task falls through to DISCONNECTED, and the next pass queues it again: n passes push n/2 Assigns, rounded up
  (`Reconnect.PassesPushEverySecondTime`).
- The end of a grace action drops its key, whichever timer that maps to by then. That is how a timer is lost, and the only way:
  along any run every sleeping timer can be found under its key if and only if no action ends while its key maps to a sleeping
  one (`Grace.FindableThroughoutIffNoneIsDropped`). From an idle scheduler two timers of one key can be pending
  (`Grace.TwoPendingTimersFromIdle`). The rule for callers is not to schedule a key whose action runs: where timers stay findable
  whatever follows under that rule, a use keeps it so if and only if it obeys the rule (`Grace.StaysFindableIffNoBusyKey`).
- A root port with the empty key and children drops out of its children's key paths, because an empty parent path counts as
  none; usages below it then name the wrong root (`KeyPaths.ChainsAreTrueIffGroupsAreNamed`).
- Not every descriptor that is accepted compiles to a path predicate. List and object values, keys with a word that starts
  with a digit, floats that JSON does not have, and an empty IN or NOT_IN beside another descriptor give text that does not parse
  (`Descriptors.ListValuesDoNotParse`, `Descriptors.DigitLedKeysDoNotParse`, `Descriptors.EmptyListsDoNotJoin`). The compiled
  text parses if and only if every descriptor has a member accessor for a key and a scalar, or for IN and NOT_IN a non-empty list
  of scalars, for a value, or there is a single descriptor, with an empty list (`Descriptors.CompiledMeansAllDescriptors`).
- A dependency slot can be left empty without an error: two dependencies that share their only candidate resolve with one slot
  empty (`AutoResolve.SharedCandidateLeavesASlotEmpty`). A slot of a successful resolution is empty if and only if everything
  the agent offers for it is used in some other slot (`AutoResolve.SlotStaysEmptyIffCandidatesAreTaken`). What can be checked
  before the call: if, as far as candidates lead from the outermost implementation, none is a candidate for two slots and none
  leads back to it, every slot with a candidate is filled (`AutoResolve.UnsharedCandidatesFillEverySlot`).

## Model

| member | source | states |
|---|---|---|
| Liveness.StaleTwinsAgreeExactlyOffTheCutoff | facade/liveness.py:64-92 | the Python and the query form of "live" agree; those of "stale" agree except for a connected row seen exactly one window ago |
| Lease.AgentRecord.ClaimLease | facade/persist_backend.py:307-340 | wins exactly when forced or not live; a win stores connection, session and time and bumps the epoch, a loss changes nothing |
| Lease.AgentRecord.RenewLease | facade/persist_backend.py:362-375 | compare-and-set on the epoch: touches `last_seen` of the holder's row only, and says whether it matched |
| Lease.AgentRecord.RevokeLease | facade/persist_backend.py:127-154 | wins exactly on a row that is still stale under the lock; disconnects it and bumps the epoch |
| Lease.AgentRecord.OnAgentDisconnected | facade/persist_backend.py:83-95 | releases the row only for the connection it still names |
| RegisteredSessions.RegisteredSession.OnAgentHeartbeat | facade/consumers/agent_protocol.py:187-203 | a heartbeat resolves an armed future and puts a renewal stamped now in flight |
| RegisteredSessions.RegisteredSession.OnRenewalReturned | facade/consumers/agent_protocol.py:204-210 | a lost renewal stops the listen loop at once; a matched one leaves it alone |
| RegisteredSessions.RegisteredSession.OnHeartbeatTimeout | facade/consumers/agent_protocol.py:233-252 | an unanswered heartbeat stops the drain and ends the heartbeat loop |
| RegisteredSessions.RegisteredSession.Shutdown | facade/consumers/agent_protocol.py:267-283 | both loops are cancelled before the release |
| LeaseRuns.MutualExclusion | facade/consumers/agent_protocol.py:187-283 | in every run without force, if the stale window exceeds the horizon, at most one connection of an agent drains its queue |
| LeaseRuns.MutualExclusionIffWindowExceedsHorizon | facade/liveness.py:54-78 | over all unforced runs, exclusion holds if and only if the window exceeds the horizon of the timers |
| LeaseRuns.TwoDrainWhenTheWindowIsShort | facade/persist_backend.py:325-340 | otherwise a concrete run with two draining connections |
| LeaseRuns.UnforcedClaimFindsNobodyDraining | facade/persist_backend.py:325-340 | an unforced claim can be won only when no connection drains or is about to |
| LeaseRuns.DefaultSettingsExclude | rekuest/settings.py:32-39 | the shipped intervals exclude as long as both latencies together stay below 15 seconds |
| LeaseRuns.DueTimersCanFire | facade/consumers/agent_protocol.py:211-252 | the step of a timer that is due is enabled, leaves every other session alone and uses up one of its session's timers |
| LeaseRuns.TimeIsNeverStuck | facade/consumers/agent_protocol.py:187-252 | from every reachable state of any number of sessions, firing only the timers that come due, the run goes on to any later time |
| LeaseRuns.EpochCountsWins | facade/persist_backend.py:127-154 | in every run the epoch is the number of won claims and won revokes |
| LeaseRuns.OneSessionPerEpoch | facade/persist_backend.py:307-340 | no two sessions ever share an epoch |
| LeaseRuns.FencedForever | facade/persist_backend.py:362-375 | a session whose epoch is gone never holds it again and never renews again |
| LeaseRuns.FailedRenewalStopsTheDrain | facade/consumers/agent_protocol.py:187-210 | a renewal matches exactly for the holder; otherwise the row is untouched and the session stops draining |
| LeaseRuns.DisplacedStopsWithinHorizon | facade/consumers/agent_protocol.py:204-252 | a displaced connection that nobody kicked drains no longer than the horizon after its displacement, forced or not |
| LeaseRuns.RevokesHaveAClaimBetween | facade/persist_backend.py:127-180 | however many sweepers run, two revokes are separated by a won claim |
| LeaseRuns.LiveIsNeverForged | facade/liveness.py:64-92 | a live row was last seen at the claim of its epoch or at a renewal by the holder, within the window |
| LeaseRuns.NotLiveUntilTheNextClaim | facade/persist_backend.py:83-95 | the disconnect of the connection the row names, and a sweep over a stale row, disconnect it, and it stays not connected until a claim is won, whatever else happens |
| LeaseRuns.OthersDisconnectsAreIgnored | facade/persist_backend.py:86-91 | a disconnect of any other connection changes nothing |
| LeaseRuns.RowNamesItsLastClaim | facade/persist_backend.py:325-340 | in every run the row names the connection and the session of the last won claim |
| Tasks.TaskStore.RouteFromAgentMessage | facade/message_router.py:47-140 | new store and reply for every agent report: acks even on resends and unknown tasks where the router swallows them, raises elsewhere |
| Tasks.TaskStore.OnTerminalReport | facade/persist_backend.py:577-657 | a terminal report closes an open task, logs one event and is mirrored to its wrapper; on a closed task it does nothing |
| Tasks.TaskStore.UnfoldToHigherOrder | facade/persist_backend.py:46-81 | a child's yield or terminal reaches an open wrapper, projected; the first terminal closes it |
| Tasks.TaskStore.ClaimTaskTransition | facade/persist_backend.py:222-245 | the locked transition: refused on a done task and on the kind to skip |
| Tasks.TaskStore.ReconcileCandidate | facade/persist_backend.py:247-305 | one candidate of the cascade: critical, queued with an Assign, or disconnected, each by a won transition |
| Tasks.TaskStore.FailAndCascadeInflight | facade/persist_backend.py:247-305 | the cascade over a list of candidates, one after the other |
| Tasks.TaskStore.ReconcileSilentPhysicalOp | facade/persist_backend.py:680-693 | a silent physical task is closed as critical unless it is done |
| Tasks.TaskStore.DoRequestControl | facade/backend.py:132-163 | a control request is refused on a done task; otherwise one event and one instruction per target, in order |
| Tasks.DescendantsAreExactlyTheRunningOnes | facade/backend.py:175-184 | an interrupt also targets exactly the running tasks whose root it is |
| Tasks.DescendantsAreInOrder | facade/backend.py:153-157 | each of them once, by id |
| Tasks.ControlsAre | facade/backend.py:153-184 | each control leaves the event of its own kind and sends its own instruction, to the task itself, an interrupt also to its descendants |
| Tasks.CandidatesBecome | facade/persist_backend.py:247-305 | what a sweep makes of one candidate, row, event, message and push: physical work is closed as critical, rebuildable idempotent work not read as queued is queued and pushed, anything else is disconnected |
| Tasks.SilentTasksBecome | facade/persist_backend.py:680-693 | a silent task is closed as critical with its message, a done one stays |
| TaskRuns.TerminalReportsKeepTheirKind | facade/persist_backend.py:517-657 | each of the five terminal reports closes an open task with its own kind at its time, with the error text in the event if it has one, and closes the wrapper alike |
| TaskRuns.OtherReportsKeepTheirKind | facade/persist_backend.py:533-575 | started, paused and resumed move an open task to their own kind; progress and log only leave an event of their own kind with their text |
| TaskRuns.IgnoredReports | facade/message_router.py:47-140 | a terminal report or a confirmation on a done task changes nothing; on an unknown task every report changes nothing and is acked or raises as the router decides |
| TaskRuns.YieldsAreProjected | facade/persist_backend.py:567-575 | a yield leaves its event and, on the wrapper, one with the projected returns |
| TaskRuns.RowsKeptByRun | facade/persist_backend.py:517-657 | over any run `is_done` never reverts, no event disappears, and a finished task that is no wrapper keeps its row |
| TaskLaws.FinishedTasksCloseOnce | facade/persist_backend.py:222-245 | done if and only if finished_at is set; a done task that is no wrapper shows the kind of its terminal event, of which there is exactly one, unless a sweep that won it as critical still owes it |
| TaskLaws.FinishedByItsStep | facade/persist_backend.py:577-693 | in any run a finished task was closed by one step, with the kind of its report, or critical, and at the time of that step; a non-wrapper shows both for good |
| TaskLaws.DoneWrapperShowsTheLastForwarded | facade/persist_backend.py:46-81 | a done wrapper stays done and shows the kind of what was last forwarded to it |
| TaskLaws.DoneWrapperCanShowYield | facade/persist_backend.py:567-575 | a run in which a yield arrives after the terminal report, and the done wrapper shows YIELD |
| TaskLaws.SweepEventsMatchWonClaims | facade/persist_backend.py:222-305 | for any interleaving of sweeps, their events are in bijection with won transitions, and no task is made critical twice |
| TaskLaws.SuccessiveWinsDiffer | facade/persist_backend.py:247-305 | two won transitions of a task with no other write between never have the same kind |
| TaskLaws.CascadeIsARun | facade/persist_backend.py:247-305 | the sequential cascade over any list of candidates is one of the interleavings: a run with the same final store |
| TaskLaws.UninterruptedSweepIsARun | facade/persist_backend.py:107-125 | a whole pass over an agent, from reading its in-flight tasks on, is a run with the same final store, so the laws of runs hold of it |
| TaskLaws.PassesAreARun | facade/management/commands/reconcile_tasks.py:28-51 | so are any number of passes in a row |
| TaskLaws.WrapperSimulatesChild | facade/persist_backend.py:46-81 | in any run the wrapper's delegated events are the yields and the terminal of its child's agent, in order, kind for kind and text for text, each yield's returns mapped key by key; a terminal is forwarded once and closes the wrapper |
| TaskLaws.ResendsChangeNothing | facade/persist_backend.py:577-657 | dropping all resent terminal reports from a run gives the same system |
| TaskLaws.ResendsAreAcked | facade/message_router.py:28-34 | after a terminal report, every later one on that task is acked and changes nothing |
| Reconnect.AgentBackend.OnAgentConnected | facade/persist_backend.py:342-360 | a lost claim changes nothing; a won one hands back all in-flight tasks and changes none, or, for a fresh session, hands back none and sweeps all |
| Reconnect.SecondConnectIsFreshIffSessionsDiffer | facade/persist_backend.py:342-360 | in any run, of two won claims in a row the second finds a fresh session exactly when both gave session ids and these differ |
| Reconnect.AgentBackend.ReconcileOrphanedExecutorWork | facade/persist_backend.py:107-125 | nothing while the agent is live, otherwise the cascade over all its in-flight tasks |
| Reconnect.AgentBackend.ReconcileStaleAgent | facade/persist_backend.py:168-180 | only an agent that the scan listed is healed, and only by the sweeper that wins the revoke |
| Reconnect.AgentBackend.ReconcileTasks | facade/management/commands/reconcile_tasks.py:28-51 | the command heals an agent its scan lists, by the strict cutoff of the query, then reconciles one gone longer than grace |
| Reconnect.CascadeFollowsTheTable | facade/persist_backend.py:247-305 | every swept task ends as the table says: physical critical and done, rebuildable idempotent not yet queued to queued, otherwise disconnected |
| Reconnect.CascadePushes | facade/persist_backend.py:247-305 | the pushes are exactly one Assign per re-queued task, in order |
| Reconnect.PassesPushEverySecondTime | facade/persist_backend.py:270-305 | n passes over a rebuildable idempotent task push n/2 Assigns, rounded up, or down if it starts queued |
| Grace.GraceScheduler.Schedule | facade/grace.py:33-37 | cancels what the dictionary holds for the key, then registers a new sleeping timer |
| Grace.GraceScheduler.Finish | facade/grace.py:45-53 | the end of an action drops the key, whichever timer it maps to by then |
| Grace.FindableUnlessSleepingIsDropped | facade/grace.py:33-53 | of all uses of a scheduler, exactly the end of an action whose key maps to a sleeping timer makes a sleeping timer unfindable |
| Grace.FindableThroughoutIffNoneIsDropped | facade/grace.py:33-53 | so along any uses every sleeping timer can be found if and only if no action drops one at its end |
| Grace.StaysFindableIffSound | facade/grace.py:33-53 | timers stay findable under every continuation that schedules no busy key if and only if they are findable now and none sleeps while another of its key is in its action |
| Grace.StaysFindableIffNoBusyKey | facade/grace.py:33-53 | where they do, a use keeps it so if and only if it does not schedule a key whose action runs |
| Grace.StaysFindableThroughoutIffNoBusyKey | facade/grace.py:33-53 | over a whole run, timers stay findable in that sense at every point if and only if the run schedules no busy key |
| Grace.OnePendingTimerPerKey | facade/grace.py:33-53 | uses of an idle scheduler that schedule no busy key leave each key at most one pending timer, which a cancel finds |
| Grace.ScheduleWhileBusyOrphansTheTimer | facade/grace.py:45-53 | otherwise the new timer is orphaned: no cancel and no reschedule stops it |
| Grace.TwoPendingTimersFromIdle | facade/grace.py:33-53 | a run of uses of an idle scheduler after which two timers of one key are pending |
| Grace.ReclaimWithinGraceProtects | facade/persist_backend.py:97-125 | a same-session reclaim inside the window, live from then on, leaves every task to the other writers: no timer, heal or command touches one |
| Grace.AbsenceEndsInASweep | facade/persist_backend.py:97-125 | an agent that does not come back is swept: with the timer not cancelled, time cannot pass the end of the window before it fires, and then the whole agent is swept |
| Grace.HealSweepsTheListed | facade/persist_backend.py:156-180 | the healing sweep disconnects and sweeps exactly an agent listed by the strict cutoff |
| Grace.CommandSweepsTheLongGone | facade/management/commands/reconcile_tasks.py:28-51 | the command then sweeps an agent gone for longer than grace that has work in flight |
| HigherOrder.BuildLowerArgs | facade/higher_order.py:26-55 | fails exactly on a mapped argument that was not supplied; otherwise pack or left-over over mapped over bound, key by key |
| HigherOrder.NoArgumentIsLost | facade/higher_order.py:26-55 | every caller argument reaches the lower arguments unless every entry naming it aims at a key the last step takes |
| HigherOrder.ProjectReturns | facade/higher_order.py:88-101 | no returns give none and an empty map passes them through; otherwise exactly the keys of the map, each with the value under its lower key, or null |
| HigherOrder.BuildLowerDependencies | facade/higher_order.py:58-85 | fails exactly on an entry that is neither bound nor a resolved caller key; otherwise each slot of the map holds its bound value or that of its caller key |
| HigherOrder.ValidateDependencyCoverage | facade/higher_order.py:104-141 | accepts exactly the covered configurations |
| HigherOrder.AcceptedConfigurationsFill | facade/mutations/implementation.py:388-423 | an accepted configuration fails only on a source that is neither bound nor caller, and otherwise fills every lower slot |
| HigherOrder.ValidatorIsExact | facade/higher_order.py:117-141 | without such sources, acceptance is equivalent to success with every slot filled |
| HigherOrder.Wrapper.SetHigherOrder | facade/mutations/implementation.py:388-423 | links exactly a covered configuration to a non-wrapper of the same agent and kind; a refusal changes nothing |
| HigherOrder.Wrapper.AssignHigherOrder | facade/backend.py:350-380 | a call of a linked wrapper fails only for an agent that is away, a declared dependency that is refused, or a missing argument, and otherwise fills every slot of the wrapped implementation, from the bound values and the resolved dependencies |
| HigherOrder.BuildAgentDependencyDict | facade/backend.py:34-58 | what a call is told about an agent: refused unless each action has exactly one implementation there, without dependencies of its own |
| HigherOrder.ImplementationKeys | facade/backend.py:40-53 | the actions of an agent are named by exactly the slot keys |
| HigherOrder.ImplementationAt | facade/backend.py:40-53 | each slot key leads to the one implementation its last slot means |
| HigherOrder.AgentDictsSay | facade/backend.py:34-58 | what a call is told names the agent and, for each slot key, the id of the one implementation offered for what its last slot means |
| HigherOrder.FirstFor | facade/backend.py:67-69 | of several overwrites of one dependency the first counts |
| HigherOrder.RefusalsAre | facade/backend.py:61-101 | a dependency is refused exactly when nothing is given and it does not resolve by itself, a limit is negative, too few agents are left, or one of those kept cannot be called for some action |
| HigherOrder.ResolvedAre | facade/backend.py:61-101 | otherwise it is resolved to the first agents, as many as the limit allows, of those found or mapped |
| HigherOrder.BuildDependencyDict | facade/backend.py:61-101 | fails exactly when a declared dependency is refused; otherwise it has exactly the declared keys, each with what its dependency is resolved to |
| Ports.PortTable.BulkCreatePortsLevelByLevel | facade/mutations/implementation.py:24-67 | the rows added are the forest: one per port, parents first, siblings in order |
| Ports.PortTable.Rebuild | facade/mutations/implementation.py:70-86 | however often it runs, the action's rows are exactly its forest |
| Ports.PortStore.RebuildRelationalPorts | facade/mutations/implementation.py:70-86 | both tables hold the definition, and the root counts are the list lengths |
| Ports.RebuildKeepsOtherActions | facade/mutations/implementation.py:70-86 | a rebuild leaves every other action laid out as it was |
| Ports.LatestRebuildsStand | facade/mutations/implementation.py:70-86 | however many actions are rebuilt, in any order and again, each stays laid out as its latest rebuild left it |
| ParamKeys.ClausesShareNoKey | facade/managers.py:149-187 | two different clauses of one statement share no parameter key, at any nesting: demand, field and path are encoded injectively |
| PortQuery.ParamDict.BuildMatchExists | facade/managers.py:35-120 | the clause and the parameters of a match tree; refused exactly for a root match with descriptors and neither position, key, kind, identifier nor dimension |
| PortQuery.ParamsKeepOwnAndChildren | facade/managers.py:35-120 | inside one match no field and no child overwrites another's parameter |
| PortQuery.MatchMeans | facade/managers.py:35-120 | for every forest and every match tree, the nested EXISTS over the rows is true exactly when the match holds recursively on the forest; a constraint is asked about the object of the descriptors' last values |
| PortQuery.ObjectIsBound | facade/managers.py:104-114 | what is bound behind `obj` has exactly the descriptors' keys, each with the value of the last descriptor of that key |
| Demands.PortDemandSql | facade/managers.py:149-187 | all port demands in one conjunction; fails on an unknown kind, a refused match, or nothing asked |
| Demands.UnionOfDemands | facade/managers.py:331-358 | one select per action demand over one shared dictionary; fails when a demand is refused or asks nothing |
| Demands.ClauseList.PutActionDemand | facade/managers.py:254-328 | the clauses of one demand: a hash alone, or every field that is set |
| Demands.CountsByName | facade/managers.py:168-178 | the three forced counts are of all root ports, of those that are not nullable, and of the structures |
| DemandLaws.ItemsKeepTheirParams | facade/managers.py:331-358 | each clause finds in the shared dictionary just what it put there |
| DemandLaws.PortStatementMeans | facade/managers.py:149-187 | an action satisfies the port statement exactly when its declared ports satisfy every demand |
| DemandLaws.SelectMeans | facade/managers.py:254-358 | the select of demand i tests demand i and nothing else |
| DemandLaws.UnionAnswersEachDemand | facade/managers.py:331-362 | in whatever order rows come back, result i lists each action satisfying demand i once, and no other |
| DemandLaws.RegistrationsInTurn | facade/mutations/implementation.py:70-86 | registering any actions in turn from empty tables leaves all of them registered as the matching theorems require |
| DemandLaws.Distribute | facade/managers.py:359-362 | rows are sorted back to their demands |
| DemandLaws.TaggedCounts | facade/managers.py:359-362 | each row as often as it came back |
| DemandLaws.TaggedKeepsOrder | facade/managers.py:359-362 | and in the order in which they came back |
| Positional.ToPositionalBindsAlike | facade/managers.py:187-198 | for every statement: fails exactly on a key without value; otherwise the driver makes the same of the named and the positional form if and only if no `%s` stands outside a placeholder |
| Positional.ScanFindsThePlaceholders | facade/managers.py:187-198 | scanning finds exactly the placeholders a statement was put together from, in order |
| Positional.StatementsConvert | facade/managers.py:201-214 | statements over the built clauses convert without error and keep every binding |
| KeyPaths.PortUsages | facade/types/structure.py:34-58 | one usage per using row, its ancestors looked up by the dot prefixes of its path |
| KeyPaths.ChainIsTheLineage | facade/types/structure.py:34-58 | for dot-free sibling-distinct keys and named groups, the prefixes lead to exactly the row's ancestors, root first |
| KeyPaths.UsagesAreTrue | facade/types/structure.py:44-57 | root key and root index of a usage are those of the tree, and its modifiers are the DICTs and LISTs among the ports above it, outermost first |
| KeyPaths.UsagesAreOfUses | facade/types/structure.py:36-58 | there is one usage, in row order, for each port of the wanted kind of an action in the organization whose identifier is the wanted one but for letter case |
| KeyPaths.ChainsAreTrueIffGroupsAreNamed | facade/mutations/implementation.py:38-67 | the reconstruction is right for every row if and only if no root with children has the empty key |
| AutoResolve.Resolver.AutoResolve | facade/logic.py:11-97 | one call with the shared visited set: what it adds, what it completes, and why it fails |
| AutoResolve.ResolveFrom | facade/logic.py:11-97 | terminates on every graph; each implementation is used once; succeeds exactly when every dependency reached is resolvable, and then every action demand has as many rows as preferred, and never more, or everything its agent offers has been seen, and what was seen is used |
| AutoResolve.SlotStaysEmptyIffCandidatesAreTaken | facade/logic.py:52-94 | an action demand of a successful resolution has no row if and only if everything the agent offers for it is used for some other one |
| AutoResolve.SharedCandidateLeavesASlotEmpty | facade/logic.py:60-94 | two dependencies with one shared candidate resolve without an error; exactly one of their slots holds a row |
| AutoResolve.UnsharedCandidatesFillEverySlot | facade/logic.py:52-94 | on a graph whose reachable part shares no candidate between slots and does not lead back to the start, a slot of a successful resolution is filled exactly when it has a candidate |
| AutoResolve.EveryResolutionIsReached | facade/logic.py:66-86 | downstream resolutions form a tree under the first one |
| AutoResolve.ParentIsUnique | facade/logic.py:66-86 | a resolution is downstream of at most one row |
| AutoResolve.RowsFillDeclaredSlots | facade/logic.py:52-94 | every row is for a declared action demand, the last of its key, with an implementation that the agent offers of its actions |
| AutoResolve.SlotIsADemand | facade/logic.py:28-34 | what is matched for a key is the last action demand of that key |
| AutoResolve.DemandIsASlot | facade/logic.py:28-34 | and the last action demand of every key is matched |
| AutoResolve.SlotsInOrder | facade/logic.py:28-55 | keys in the order in which they are first demanded |
| StateReplay.GetLatestState | facade/logic.py:100-186 | values, revision, time and both patch lists of a checkout; fails exactly when a state has no usable snapshot |
| StateReplay.AnchorIsFound | facade/logic.py:123-131 | a checkout fails exactly when the session has no snapshot of the state within the revision |
| StateReplay.AnchorIsTheBest | facade/logic.py:123-129 | otherwise it starts from one of highest revision if a revision is asked, and from a latest one if not |
| StateReplay.CheckoutReplaysByTime | facade/logic.py:137-149 | whatever the log, it replays by time each patch of the state later than the snapshot and within the revision |
| StateReplay.ForwardByRevision | facade/logic.py:169-175 | whatever the log, the forward patches are the first ones beyond the revision, by revision |
| StateReplay.BackwardByRevision | facade/logic.py:177-183 | and the backward patches the last ones up to it, oldest first |
| StateReplay.MaxRevisionIsReached | facade/logic.py:163-165 | the reported revision is 0 or one a state has reached, and none has reached a higher one |
| StateReplay.LatestTimeIsTheLast | facade/logic.py:120-159 | the reported time is that of the last state to which a patch applied, or the session's creation |
| StateReplay.ValuesAreByName | facade/logic.py:167 | the values are named by exactly the states' names |
| StateReplay.AnchoringIsIrrelevant | facade/logic.py:124-160 | whichever faithful snapshot anchors, the checkout is the replay of every patch since the first snapshot, failures skipped |
| StateReplay.QueryIsTheFullReplay | facade/logic.py:124-160 | so the snapshot the query picks does not matter |
| StateReplay.WindowIsContiguous | facade/logic.py:169-183 | backward and forward patches form one contiguous window of the log, split at the reference revision |
| StateReplay.ForwardLeadsToTheLaterCheckout | facade/logic.py:124-176 | applying a state's forward patches to the checkout the query gives at a revision gives the checkout it gives at the last of them, from whichever newer snapshot that starts |
| StateReplay.AnswersLeadOn | facade/logic.py:100-186 | so a client that plays the forward patches of one answer over its states holds the values of the later answer, which is found too |
| StateReplay.ReportedRevision | facade/logic.py:143-158 | revision and time of one checkout are those of the last patch that applied |
| AgentQueue.RedisAgentQueue.Pop | facade/consumers/agent_queue.py:96-105 | moves the oldest message to processing |
| AgentQueue.RedisAgentQueue.Ack | facade/consumers/agent_queue.py:107-109 | removes every equal body from processing |
| AgentQueue.StepsMoveMessages | facade/consumers/agent_queue.py:90-109 | in the runs too: a push comes in at the left, a pop moves the rightmost message, an ack takes out every equal body and nothing else |
| AgentQueue.NothingIsLost | facade/consumers/agent_protocol.py:254-265 | with distinct bodies, as message ids make them, under any interleaving and cancellation: waiting, in flight and acknowledged are the pushed messages, disjointly, and what left both lists was sent |
| AgentQueue.AckConservesIffBodyIsInFlightOnce | facade/consumers/agent_queue.py:107-109 | an ack keeps every message accounted for if and only if its body is in flight once |
| AgentQueue.EqualBodiesAreAcknowledgedTogether | facade/consumers/agent_queue.py:107-109 | why distinct bodies are needed: with equal ones, a run in which an unsent message leaves both lists |
| AgentQueue.SoleConsumerSendsInPushOrder | facade/consumers/agent_protocol.py:254-265 | a sole consumer has always sent a prefix of the pushed messages, empty bodies aside |
| Descriptors.CompiledMeansAllDescriptors | facade/descriptors.py:81-90 | the compiled text parses, with && tighter than the alternative sign, exactly when the descriptors are parseable, and then asks what all descriptors ask |
| Descriptors.AllAskedIsEachAsked | facade/descriptors.py:81-90 | all descriptors hold exactly when each does, and fail exactly when one does |
| Descriptors.InIsSomeEqual | facade/descriptors.py:67-74 | an IN holds exactly when some listed value is equal |
| Descriptors.NotInIsAllUnequal | facade/descriptors.py:75-76 | a NOT_IN holds exactly when every listed value is unequal |
| Descriptors.AcceptedKeys | facade/descriptors.py:17-28 | a key is accepted exactly when it is non-empty words joined by dots, with or without a leading `$.` and one final newline |
| Descriptors.FailsIffOneIsRefused | facade/descriptors.py:31-90 | compilation fails exactly when some descriptor has no such key, an unknown operator, or a value of the wrong type for EXISTS, IN or NOT_IN |
| Descriptors.ParseCondition | facade/descriptors.py:31-78 | a compiled condition is one primary of the language, whatever follows it, exactly when its key is a member accessor and its value a scalar, or for IN and NOT_IN a non-empty list of scalars |
| Descriptors.WellPosedAre | facade/descriptors.py:17-78 | those conditions spelled out: no word of the path starts with a digit, and the value is null, a boolean, a finite number or a text, or for IN and NOT_IN a non-empty list of such |
| Descriptors.ConditionAsValue | facade/descriptors.py:67-76 | alone, the constant of an empty list is a value, and no other condition is one |
| Descriptors.ListValuesDoNotParse | facade/descriptors.py:39-65 | a comparison with a list compiles to text that does not parse |
| Descriptors.DigitLedKeysDoNotParse | facade/descriptors.py:18-29 | a key that starts with a digit compiles to text that does not parse |
| Descriptors.EmptyListsDoNotJoin | facade/descriptors.py:67-90 | an empty IN or NOT_IN beside any other descriptor makes the whole text unparseable |

## Left out

- Instructions on a task (`latest_instruct_kind`) and the escalation of a cancel to an interrupt after a lease: they would add
  columns that no law here mentions.
- Assignment itself, with provenance tokens, hooks and callers: a task row appears with its kind already set.
- The webhook transport, HTTP intake, subscriptions, GraphQL schema, admin and migrations: declarations and plumbing.
- State patches, snapshots, locks and session rows as they arrive: only reading them back is modelled.
- The legacy JSONB scanner for shortcuts and states (facade/managers.py:365-545): it compares coarse fields one level deep.
- SQL text: clauses are an AST. `Positional` takes any text, with percent signs other than `%s` and placeholders as plain text;
  the driver's `%%` escape and its errors on other percent signs are not modelled.
- JSONPath text: `Descriptors` works on tokens; rendering of JSON values and white space are not modelled, nor are strings that
  a JSON column cannot hold (NUL and lone surrogates).
- Case folding beyond ASCII in the search for an identifier.
- Interrupts reach the running tasks whose `root` is the target; assignments that leave `root` unset are outside that set.
- Several processes with grace timers of their own: an older timer of another process can fire early.
- `auto_resolve` takes the answers of its database filters (matching actions, first suitable agent, state demands) as given.
- `get_latest_state` takes one agent's patches as one log; it does not look at the session of a patch, as the code does not.
- Positional.StatementsConvert: literal text is any text without percent signs, not the exact text the builders emit.
