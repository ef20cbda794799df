/** Reconnects and sweeps of one agent: what happens to its in-flight tasks (facade/persist_backend.py,
    facade/management/commands/reconcile_tasks.py). */
module Reconnect {
  import opened Common
  import opened Lease
  import LeaseRuns
  import RegisteredSessions
  import opened Tasks

  // ------------------------------------------------------------------------------------------------------------
  // The table of an uninterrupted sweep
  // ------------------------------------------------------------------------------------------------------------

  /** A candidate list read just now: running tasks, each once, with their current kind. */
  predicate Fresh(tasks: seq<Task>, todo: seq<Candidate>) {
    && (forall i | 0 <= i < |todo| ::
          todo[i].task < |tasks| && !tasks[todo[i].task].isDone && todo[i].kindRead == tasks[todo[i].task].kind)
    && (forall i, j | 0 <= i < j < |todo| :: todo[i].task != todo[j].task)
  }

  predicate Requeues(task: Task, rebuilt: bool) {
    !task.Physical() && task.idempotent && rebuilt && task.kind != QUEUED
  }

  /** physical -> CRITICAL and done; rebuildable idempotent not already QUEUED -> QUEUED; otherwise DISCONNECTED. */
  function Fate(task: Task, rebuilt: bool, now: Time): Task {
    if task.implementation.Some? && task.implementation.value.physical then
      task.(kind := CRITICAL, isDone := true, finishedAt := Some(now))
    else if Requeues(task, rebuilt) then task.(kind := QUEUED)
    else task.(kind := DISCONNECTED)
  }

  /** One Assign per re-queued task, in order. */
  function Redispatches(tasks: seq<Task>, todo: seq<Candidate>, rebuilds: set<TaskId>): seq<Push>
    requires forall i | 0 <= i < |todo| :: todo[i].task < |tasks|
    decreases |todo|
  {
    if todo == [] then []
    else
      var id := todo[0].task;
      (if Requeues(tasks[id], id in rebuilds) then [Assign(tasks[id].agent, id)] else [])
      + Redispatches(tasks, todo[1..], rebuilds)
  }

  lemma {:induction false} RedispatchesDependOnCandidates(tasks: seq<Task>, tasks': seq<Task>, todo: seq<Candidate>,
        rebuilds: set<TaskId>)
    requires forall i | 0 <= i < |todo| :: todo[i].task < |tasks| && todo[i].task < |tasks'| && tasks'[todo[i].task] == tasks[todo[i].task]
    ensures Redispatches(tasks', todo, rebuilds) == Redispatches(tasks, todo, rebuilds)
    decreases |todo|
  {
    if todo != [] {
      RedispatchesDependOnCandidates(tasks, tasks', todo[1..], rebuilds);
    }
  }

  /** The first candidate meets its fate; the rest of the list stays fresh. */
  lemma {:induction false} CascadeUnrolled(db: Db, todo: seq<Candidate>, rebuilds: set<TaskId>, now: Time) returns (once: Db)
    requires Fresh(db.tasks, todo) && todo != []
    ensures var id := todo[0].task;
      && once.tasks == db.tasks[id := Fate(db.tasks[id], id in rebuilds, now)]
      && once.outbox == db.outbox + if Requeues(db.tasks[id], id in rebuilds) then [Assign(db.tasks[id].agent, id)] else []
    ensures Fresh(once.tasks, todo[1..]) && Cascade(db, todo, rebuilds, now) == Cascade(once, todo[1..], rebuilds, now)
  {
    once := ReconcileOne(db, todo[0], todo[0].task in rebuilds, now);
    forall i | 0 <= i < |todo| - 1
      ensures todo[1..][i] == todo[i + 1] && todo[i + 1].task != todo[0].task
    {
    }
  }

  /** Tasks not on the list keep their rows. */
  lemma {:induction false} CascadeLeavesOthers(db: Db, todo: seq<Candidate>, rebuilds: set<TaskId>, now: Time, t: TaskId)
    requires Fresh(db.tasks, todo) && t < |db.tasks|
    requires forall i | 0 <= i < |todo| :: todo[i].task != t
    ensures Cascade(db, todo, rebuilds, now).tasks[t] == db.tasks[t]
    decreases |todo|
  {
    if todo != [] {
      var once := CascadeUnrolled(db, todo, rebuilds, now);
      CascadeLeavesOthers(once, todo[1..], rebuilds, now, t);
    }
  }

  /** Every task on the list ends up with the row the table gives for the row it had. */
  lemma {:induction false} CascadeFollowsTheTable(db: Db, todo: seq<Candidate>, rebuilds: set<TaskId>, now: Time, k: nat)
    requires Fresh(db.tasks, todo) && k < |todo|
    ensures Cascade(db, todo, rebuilds, now).tasks[todo[k].task]
      == Fate(db.tasks[todo[k].task], todo[k].task in rebuilds, now)
    decreases |todo|
  {
    var once := CascadeUnrolled(db, todo, rebuilds, now);
    if k == 0 {
      CascadeLeavesOthers(once, todo[1..], rebuilds, now, todo[0].task);
    } else {
      assert todo[1..][k - 1] == todo[k];
      CascadeFollowsTheTable(once, todo[1..], rebuilds, now, k - 1);
    }
  }

  /** The pushes are exactly the Assigns of the re-queued tasks, in list order. */
  lemma {:induction false} CascadePushes(db: Db, todo: seq<Candidate>, rebuilds: set<TaskId>, now: Time)
    requires Fresh(db.tasks, todo)
    ensures Cascade(db, todo, rebuilds, now).outbox == db.outbox + Redispatches(db.tasks, todo, rebuilds)
    decreases |todo|
  {
    if todo != [] {
      var once := CascadeUnrolled(db, todo, rebuilds, now);
      CascadePushes(once, todo[1..], rebuilds, now);
      forall i | 0 <= i < |todo| - 1
        ensures once.tasks[todo[1..][i].task] == db.tasks[todo[1..][i].task]
      {
        assert todo[1..][i] == todo[i + 1];
      }
      RedispatchesDependOnCandidates(db.tasks, once.tasks, todo[1..], rebuilds);
      PushesFirst(db.outbox, db.tasks, todo, rebuilds);
    }
  }

  lemma {:induction false} PushesFirst(outbox: seq<Push>, tasks: seq<Task>, todo: seq<Candidate>, rebuilds: set<TaskId>)
    requires todo != [] && forall i | 0 <= i < |todo| :: todo[i].task < |tasks|
    ensures var id := todo[0].task;
      outbox + (if Requeues(tasks[id], id in rebuilds) then [Assign(tasks[id].agent, id)] else []) + Redispatches(tasks, todo[1..], rebuilds)
      == outbox + Redispatches(tasks, todo, rebuilds)
  {
  }

  // ------------------------------------------------------------------------------------------------------------
  // Passes over an agent
  // ------------------------------------------------------------------------------------------------------------

  lemma {:induction false} InFlightIsComplete(tasks: seq<Task>, agent: AgentId, from: nat, t: TaskId)
    requires from <= t < |tasks| && tasks[t].agent == agent && !tasks[t].isDone
    ensures exists i | 0 <= i < |InFlight(tasks, agent, from)| :: InFlight(tasks, agent, from)[i].task == t
    decreases |tasks| - from
  {
    var todo := InFlight(tasks, agent, from);
    if from == t {
      assert todo[0].task == t;
    } else {
      InFlightIsComplete(tasks, agent, from + 1, t);
      var rest := InFlight(tasks, agent, from + 1);
      var i :| 0 <= i < |rest| && rest[i].task == t;
      assert todo[i + |todo| - |rest|] == rest[i];
    }
  }

  function Pass(db: Db, agent: AgentId, rebuilds: set<TaskId>, now: Time): (r: Db)
    ensures |r.tasks| == |db.tasks|
  {
    Cascade(db, InFlight(db.tasks, agent, 0), rebuilds, now)
  }

  function Passes(db: Db, agent: AgentId, rebuilds: set<TaskId>, now: Time, n: nat): (r: Db)
    ensures |r.tasks| == |db.tasks|
  {
    if n == 0 then db else Pass(Passes(db, agent, rebuilds, now, n - 1), agent, rebuilds, now)
  }

  /** How often a task has been handed to the queue. */
  function Assigns(outbox: seq<Push>, t: TaskId): nat {
    if outbox == [] then 0
    else Assigns(outbox[..|outbox| - 1], t) + if Last(outbox).Assign? && Last(outbox).task == t then 1 else 0
  }

  lemma {:induction false} AssignsAppend(outbox: seq<Push>, more: seq<Push>, t: TaskId)
    ensures Assigns(outbox + more, t) == Assigns(outbox, t) + Assigns(more, t)
  {
    if more == [] {
      assert outbox + more == outbox;
    } else {
      assert (outbox + more)[..|outbox + more| - 1] == outbox + more[..|more| - 1];
      AssignsAppend(outbox, more[..|more| - 1], t);
    }
  }

  /** Among the redispatches of a fresh list, a listed task occurs once if it is re-queued, and no other task does. */
  lemma {:induction false} RedispatchedOnce(tasks: seq<Task>, todo: seq<Candidate>, rebuilds: set<TaskId>, t: TaskId)
    requires Fresh(tasks, todo) && t < |tasks|
    ensures Assigns(Redispatches(tasks, todo, rebuilds), t)
      == if (exists i | 0 <= i < |todo| :: todo[i].task == t) && Requeues(tasks[t], t in rebuilds) then 1 else 0
    decreases |todo|
  {
    if todo != [] {
      var id := todo[0].task;
      var head := if Requeues(tasks[id], id in rebuilds) then [Assign(tasks[id].agent, id)] else [];
      assert head != [] ==> head[..0] == [];
      RedispatchedOnce(tasks, todo[1..], rebuilds, t);
      AssignsAppend(head, Redispatches(tasks, todo[1..], rebuilds), t);
      assert (exists i | 0 <= i < |todo| :: todo[i].task == t)
        <==> id == t || exists i | 0 <= i < |todo[1..]| :: todo[1..][i].task == t by {
        if i :| 0 <= i < |todo| && todo[i].task == t && i > 0 {
          assert todo[1..][i - 1].task == t;
        }
      }
    }
  }

  /** One pass over a running task of the agent: its fate, and one Assign if and only if it is re-queued. */
  lemma {:induction false} PassOverATask(db: Db, agent: AgentId, rebuilds: set<TaskId>, now: Time, t: TaskId)
    requires t < |db.tasks| && db.tasks[t].agent == agent && !db.tasks[t].isDone
    ensures var after := Pass(db, agent, rebuilds, now);
      && after.tasks[t] == Fate(db.tasks[t], t in rebuilds, now)
      && Assigns(after.outbox, t) == Assigns(db.outbox, t) + if Requeues(db.tasks[t], t in rebuilds) then 1 else 0
  {
    var todo := InFlight(db.tasks, agent, 0);
    InFlightIsComplete(db.tasks, agent, 0, t);
    var k :| 0 <= k < |todo| && todo[k].task == t;
    CascadeFollowsTheTable(db, todo, rebuilds, now, k);
    CascadePushes(db, todo, rebuilds, now);
    RedispatchedOnce(db.tasks, todo, rebuilds, t);
    AssignsAppend(db.outbox, Redispatches(db.tasks, todo, rebuilds), t);
  }

  /** The kind after n passes over a rebuildable idempotent task that starts out as `kind`. */
  function KindAfter(kind: EventKind, n: nat): EventKind {
    if n == 0 then kind
    else if (n % 2 == 1) == (kind != QUEUED) then QUEUED else DISCONNECTED
  }

  lemma {:induction false} KindsAlternate(kind: EventKind, n: nat)
    requires n > 0
    ensures KindAfter(kind, n) == if KindAfter(kind, n - 1) != QUEUED then QUEUED else DISCONNECTED
    ensures (n + 1) / 2 - n / 2 == n % 2 && n / 2 - (n - 1) / 2 == 1 - n % 2
    ensures KindAfter(kind, n - 1) != QUEUED <==> (n % 2 == 1) == (kind != QUEUED)
  {
  }

  /** One pass over a rebuildable idempotent task: queued and pushed, unless it was queued already. */
  lemma {:induction false} PassOverQueueable(db: Db, agent: AgentId, rebuilds: set<TaskId>, now: Time, t: TaskId, row: Task, kind: EventKind)
    requires t < |db.tasks| && db.tasks[t] == row.(kind := kind)
    requires row.agent == agent && !row.isDone && !row.Physical() && row.idempotent && t in rebuilds
    ensures var after := Pass(db, agent, rebuilds, now);
      && after.tasks[t] == row.(kind := if kind != QUEUED then QUEUED else DISCONNECTED)
      && Assigns(after.outbox, t) == Assigns(db.outbox, t) + if kind != QUEUED then 1 else 0
  {
    PassOverATask(db, agent, rebuilds, now, t);
  }

  /** The guard against re-queuing does not stop the sweep from piling up Assigns: a queued task falls through to
      DISCONNECTED and is queued again by the pass after. n passes push ceil(n/2) Assigns, or floor(n/2) when the
      task starts out queued. */
  lemma {:induction false} PassesPushEverySecondTime(db: Db, agent: AgentId, rebuilds: set<TaskId>, now: Time, t: TaskId, n: nat)
    requires t < |db.tasks| && db.tasks[t].agent == agent && !db.tasks[t].isDone
    requires !db.tasks[t].Physical() && db.tasks[t].idempotent && t in rebuilds
    ensures var after := Passes(db, agent, rebuilds, now, n);
      && after.tasks[t] == db.tasks[t].(kind := KindAfter(db.tasks[t].kind, n))
      && Assigns(after.outbox, t) == Assigns(db.outbox, t) + if db.tasks[t].kind != QUEUED then (n + 1) / 2 else n / 2
  {
    if n > 0 {
      var before := Passes(db, agent, rebuilds, now, n - 1);
      PassesPushEverySecondTime(db, agent, rebuilds, now, t, n - 1);
      KindsAlternate(db.tasks[t].kind, n);
      PassOverQueueable(before, agent, rebuilds, now, t, db.tasks[t], KindAfter(db.tasks[t].kind, n - 1));
    }
  }

  // ------------------------------------------------------------------------------------------------------------
  // The backend: one agent row, the task store, and the three triggers of a sweep
  // ------------------------------------------------------------------------------------------------------------

  datatype LeaseClaim = LeaseClaim(claimed: bool, epoch: Option<nat>, tasks: seq<TaskId>, displacedIncumbent: bool)

  function Ids(todo: seq<Candidate>): (ids: seq<TaskId>)
    ensures |ids| == |todo| && forall i | 0 <= i < |ids| :: ids[i] == todo[i].task
  {
    seq(|todo|, i requires 0 <= i < |todo| => todo[i].task)
  }

  /** A different session took over: the old process is gone. */
  predicate FreshSession(prior: Option<SessionId>, session: Option<SessionId>) {
    prior.Some? && session.Some? && prior != session
  }

  /** Of two connects that win one after the other, whatever else happens to the row between, the second finds a fresh
      session, and then sweeps, exactly when both were made with session ids and these differ. */
  lemma {:induction false} SecondConnectIsFreshIffSessionsDiffer(timing: RegisteredSessions.Timing, steps: seq<LeaseRuns.Step>,
        session: Option<SessionId>)
    requires LeaseRuns.After(timing, steps).Some? && LeaseRuns.LastClaim(LeaseRuns.After(timing, steps).value.bumps).Some?
    ensures var s := LeaseRuns.After(timing, steps).value;
      var first := LeaseRuns.LastClaim(s.bumps).value.session;
      FreshSession(s.row.activeSession, session) <==> first.Some? && session.Some? && first.value != session.value
  {
    LeaseRuns.RowNamesItsLastClaim(timing, steps);
  }

  class AgentBackend {
    const agent: AgentId
    const record: AgentRecord
    const store: TaskStore
    const staleAfter: Time

    constructor (agent: AgentId, record: AgentRecord, store: TaskStore, staleAfter: Time)
      ensures this.agent == agent && this.record == record && this.store == store && this.staleAfter == staleAfter
    {
      this.agent, this.record, this.store, this.staleAfter := agent, record, store, staleAfter;
    }

    function InFlightNow(): seq<Candidate>
      reads store
    {
      InFlight(store.tasks, agent, 0)
    }

    /** A lost claim changes nothing. A won one either hands back every in-flight task and changes no task, or, for
        a fresh session, hands back none and sweeps them all. */
    method OnAgentConnected(connection: Option<ConnectionId>, session: Option<SessionId>, force: bool,
          rebuilds: set<TaskId>, now: Time)
      returns (claim: LeaseClaim)
      modifies record, store
      ensures claim.claimed <==> force || !(old(record.connected) && old(record.lastSeen).Some? && old(record.lastSeen).value > now - staleAfter)
      ensures claim.claimed ==> record.activeConnection == connection && record.activeSession == session
      ensures record.Row() == if claim.claimed then old(record.Row()).Claimed(connection, session, now) else old(record.Row())
      ensures claim.epoch == if claim.claimed then Some(old(record.leaseEpoch) + 1) else None
      ensures claim.displacedIncumbent <==> claim.claimed && old(record.connected)
      ensures var other := old(record.activeSession).Some? && session.Some? && old(record.activeSession).value != session.value;
        var reclaimed := claim.claimed && !other;
        && claim.tasks == (if reclaimed then Ids(old(InFlightNow())) else [])
        && store.View() == (if claim.claimed && !reclaimed then Pass(old(store.View()), agent, rebuilds, now) else old(store.View()))
    {
      var claimed, epoch, prior, displaced := record.ClaimLease(connection, session, force, now, staleAfter);
      if !claimed {
        return LeaseClaim(false, None, [], false);
      }
      var inFlight := InFlightNow();
      if FreshSession(prior, session) {
        store.FailAndCascadeInflight(inFlight, rebuilds, now);
        return LeaseClaim(true, epoch, [], displaced);
      }
      claim := LeaseClaim(true, epoch, Ids(inFlight), displaced);
    }

    /** The reconcile shared by every trigger: nothing while the agent is live. */
    method ReconcileOrphanedExecutorWork(rebuilds: set<TaskId>, now: Time)
      modifies store
      ensures store.View()
        == if record.Row().Live(now, staleAfter) then old(store.View()) else Pass(old(store.View()), agent, rebuilds, now)
    {
      if record.Row().Live(now, staleAfter) {
        return;
      }
      store.FailAndCascadeInflight(InFlightNow(), rebuilds, now);
    }

    /** The healing sweep, which scanned at one time and gets the lock at another: a row that was not listed is left
        alone, and only the worker that wins the revoke goes on to reconcile. */
    method ReconcileStaleAgent(listed: bool, rebuilds: set<TaskId>, now: Time) returns (healed: bool)
      modifies record, store
      ensures healed <==> listed && old(record.Row()).Stale(now, staleAfter)
      ensures record.Row() == if healed then old(record.Row()).Revoked() else old(record.Row())
      ensures store.View() == if healed then Pass(old(store.View()), agent, rebuilds, now) else old(store.View())
    {
      if !listed {
        return false;
      }
      healed := record.RevokeLease(now, staleAfter);
      if healed {
        ReconcileOrphanedExecutorWork(rebuilds, now);
      }
    }

    /** The scheduled command: heal, then reconcile an agent gone for longer than the grace window. */
    method ReconcileTasks(grace: Time, rebuilds: set<TaskId>, now: Time)
      modifies record, store
      ensures var listed := old(record.Row()).Listed(now, staleAfter);
        var healed := if listed then Pass(old(store.View()), agent, rebuilds, now) else old(store.View());
        && record.Row() == (if listed then old(record.Row()).Revoked() else old(record.Row()))
        && store.View()
           == (if !record.connected && record.lastSeen.Some? && record.lastSeen.value < now - grace && InFlight(healed.tasks, agent, 0) != []
               then Pass(healed, agent, rebuilds, now) else healed)
    {
      var healed := ReconcileStaleAgent(record.Row().Listed(now, staleAfter), rebuilds, now);
      if InFlightNow() != [] && GoneLongerThan(record.Row(), grace, now) {
        ReconcileOrphanedExecutorWork(rebuilds, now);
      }
    }
  }

  /** The command's filter: disconnected, and last seen before the grace window. */
  predicate GoneLongerThan(row: AgentRow, grace: Time, now: Time) {
    !row.connected && row.lastSeen.Some? && row.lastSeen.value < now - grace
  }
}
