/** Runs of the task lifecycle: agent reports, control requests, progress leases and any number of concurrent
    sweeps, whose claims, events and pushes interleave with everything else. Handlers are atomic steps. */
module TaskRuns {
  import opened Common
  import opened HigherOrder
  import opened Tasks

  /** Where a sweep is: choosing its next candidate, owing the event of a claim it won, or owing the push. */
  datatype Stage = Choosing | Owing(claim: nat) | Pushing(task: TaskId)

  datatype Sweeper = Sweeper(todo: seq<Candidate>, stage: Stage)

  /** `reported` is history: the won claims that have their event. */
  datatype System = System(db: Db, sweepers: map<nat, Sweeper>, reported: set<nat>)

  datatype Step =
    | Create(row: Task)
    | Deliver(report: Report, now: Time)
    | DoControl(task: TaskId, control: Control)
    | LeaseRunsOut(task: TaskId, now: Time)
    | SweepLoads(sweeper: nat, agent: AgentId)
    | SweepClaims(sweeper: nat, rebuilt: bool, now: Time)
    | SweepEmits(sweeper: nat)
    | SweepPushes(sweeper: nat)

  /** A new row: running, and below a parent that exists. */
  predicate Creatable(db: Db, task: Task) {
    && !task.isDone && task.finishedAt.None? && task.kind == STARTED
    && (task.parent.Some? ==> task.parent.value < |db.tasks|)
  }

  /** A sweep reads its candidates. */
  function Loaded(s: System, w: nat, agent: AgentId): System {
    if w in s.sweepers && s.sweepers[w] != Sweeper([], Choosing) then s
    else s.(sweepers := s.sweepers[w := Sweeper(InFlight(s.db.tasks, agent, 0), Choosing)])
  }

  /** A sweep tries the locked transition of its next candidate. */
  function Tried(s: System, w: nat, rebuilt: bool, now: Time): System {
    if w !in s.sweepers || !s.sweepers[w].stage.Choosing? || s.sweepers[w].todo == [] then s
    else
      var candidate, rest := s.sweepers[w].todo[0], s.sweepers[w].todo[1..];
      if candidate.task >= |s.db.tasks| then s
      else
        var task := s.db.tasks[candidate.task];
        var target := SweepTarget(task, candidate.kindRead, rebuilt);
        match SweepClaim(task, target, now)
        case None => s.(sweepers := s.sweepers[w := Sweeper(rest, Choosing)])
        case Some(claimed) =>
          System(s.db.Save(candidate.task, claimed).(won := s.db.won + [Won(candidate.task, target)]),
                 s.sweepers[w := Sweeper(rest, Owing(|s.db.won|))],
                 s.reported)
  }

  /** A sweep writes the event of the claim it won. */
  function Emitted(s: System, w: nat): System {
    if w !in s.sweepers || !s.sweepers[w].stage.Owing? || s.sweepers[w].stage.claim >= |s.db.won| then s
    else
      var claim := s.sweepers[w].stage.claim;
      var won := s.db.won[claim];
      s.(db := s.db.Emit(SweepEvent(claim, won)),
         sweepers := s.sweepers[w := s.sweepers[w].(stage := if won.kind == QUEUED then Pushing(won.task) else Choosing)],
         reported := s.reported + {claim})
  }

  /** A sweep pushes the Assign of the task it re-queued. */
  function Pushed(s: System, w: nat): System {
    if w !in s.sweepers || !s.sweepers[w].stage.Pushing? || s.sweepers[w].stage.task >= |s.db.tasks| then s
    else
      var task := s.sweepers[w].stage.task;
      s.(db := s.db.(outbox := s.db.outbox + [Assign(s.db.tasks[task].agent, task)]),
         sweepers := s.sweepers[w := s.sweepers[w].(stage := Choosing)])
  }

  /** One step; a step that does not apply changes nothing. */
  function Apply(s: System, step: Step): System {
    match step
    case Create(row) => if Creatable(s.db, row) then s.(db := s.db.(tasks := s.db.tasks + [row])) else s
    case Deliver(report, now) => s.(db := Route(s.db, report, now).0)
    case DoControl(task, control) => (match RequestControl(s.db, task, control) case None => s case Some(db) => s.(db := db))
    case LeaseRunsOut(task, now) => if task < |s.db.tasks| then s.(db := Silence(s.db, task, now)) else s
    case SweepLoads(w, agent) => Loaded(s, w, agent)
    case SweepClaims(w, rebuilt, now) => Tried(s, w, rebuilt, now)
    case SweepEmits(w) => Emitted(s, w)
    case SweepPushes(w) => Pushed(s, w)
  }

  function Run(s: System, steps: seq<Step>): System
    decreases |steps|
  {
    if steps == [] then s else Run(Apply(s, steps[0]), steps[1..])
  }

  const START := System(Db([], [], [], []), map[], {})

  // ------------------------------------------------------------------------------------------------------------
  // Rows: what no step undoes
  // ------------------------------------------------------------------------------------------------------------

  /** `later` is a legal continuation of `earlier`: done stays done, and a done row that is no wrapper is frozen. */
  ghost predicate RowKept(earlier: Task, later: Task) {
    && (later.agent, later.parent, later.root, later.implementation, later.idempotent)
       == (earlier.agent, earlier.parent, earlier.root, earlier.implementation, earlier.idempotent)
    && (earlier.isDone ==> later.isDone)
    && (earlier.isDone && !earlier.Wrapper() ==> later == earlier)
  }

  ghost predicate RowsKept(earlier: Db, later: Db) {
    && |earlier.tasks| <= |later.tasks|
    && earlier.events <= later.events
    && forall t | 0 <= t < |earlier.tasks| :: RowKept(earlier.tasks[t], later.tasks[t])
  }

  /** Saving one row and appending events. */
  lemma {:induction false} RowsKeptBySave(db: Db, later: Db, id: TaskId, task: Task)
    requires id < |db.tasks| && RowKept(db.tasks[id], task)
    requires later.tasks == db.tasks[id := task] && db.events <= later.events
    ensures RowsKept(db, later)
  {
  }

  /** The wrapper a task runs for, if any. */
  function WrapperOf(tasks: seq<Task>, child: TaskId): Option<TaskId>
    requires child < |tasks|
  {
    var parent := tasks[child].parent;
    if parent.None? || parent.value >= |tasks| || !tasks[parent.value].Wrapper() then None else parent
  }

  lemma {:induction false} RowsKeptByUnfold(db: Db, child: TaskId, kind: EventKind, result: Option<Dict>,
        message: Option<string>, now: Time)
    requires child < |db.tasks|
    ensures RowsKept(db, Unfold(db, child, kind, result, message, now))
  {
    var wrapper := WrapperOf(db.tasks, child);
    if wrapper.Some? {
      var row := db.tasks[wrapper.value];
      RowsKeptBySave(db, Unfold(db, child, kind, result, message, now), wrapper.value,
                     if Terminal(kind) then row.Finished(kind, now) else row.Moved(kind));
    }
  }

  lemma {:induction false} RowsKeptByTerminate(db: Db, report: Report, now: Time)
    requires report.IsTerminal() && report.task < |db.tasks|
    ensures RowsKept(db, Terminate(db, report, now))
  {
    var task := db.tasks[report.task];
    if !task.isDone {
      var finished := db.Emit(report.AsEvent()).Save(report.task, task.Finished(report.Kind(), now));
      RowsKeptBySave(db, finished, report.task, task.Finished(report.Kind(), now));
      RowsKeptByUnfold(finished, report.task, report.Kind(), None, report.Text(), now);
      RowsKeptTwice(db, finished, Terminate(db, report, now));
    }
  }

  lemma {:induction false} RowsKeptTwice(a: Db, b: Db, c: Db)
    requires RowsKept(a, b) && RowsKept(b, c)
    ensures RowsKept(a, c)
  {
    forall t | 0 <= t < |a.tasks|
      ensures RowKept(a.tasks[t], c.tasks[t])
    {
      assert RowKept(a.tasks[t], b.tasks[t]) && RowKept(b.tasks[t], c.tasks[t]);
    }
  }

  lemma {:induction false} RowsKeptByReport(db: Db, report: Report, now: Time)
    ensures RowsKept(db, Route(db, report, now).0)
  {
    if report.task < |db.tasks| {
      if report.IsTerminal() {
        RowsKeptByTerminate(db, report, now);
      } else if report.Yield? {
        var emitted := db.Emit(report.AsEvent());
        RowsKeptByUnfold(emitted, report.task, YIELD, report.result, None, now);
        RowsKeptTwice(db, emitted, Unfold(emitted, report.task, YIELD, report.result, None, now));
      } else {
        RowsKeptBySave(db, Confirm(db, report), report.task, Confirm(db, report).tasks[report.task]);
      }
    }
  }

  lemma {:induction false} RowsKeptByClaim(s: System, w: nat, rebuilt: bool, now: Time)
    ensures RowsKept(s.db, Tried(s, w, rebuilt, now).db)
  {
    var t := Tried(s, w, rebuilt, now);
    if t.db != s.db {
      var id := s.sweepers[w].todo[0].task;
      RowsKeptBySave(s.db, t.db, id, t.db.tasks[id]);
    }
  }

  lemma {:induction false} RowsKeptBySilence(db: Db, id: TaskId, now: Time)
    requires id < |db.tasks|
    ensures RowsKept(db, Silence(db, id, now))
  {
    RowsKeptBySave(db, Silence(db, id, now), id, Silence(db, id, now).tasks[id]);
  }

  lemma {:induction false} RowsKeptByStep(s: System, step: Step)
    ensures RowsKept(s.db, Apply(s, step).db)
  {
    match step
    case Deliver(report, now) => RowsKeptByReport(s.db, report, now);
    case SweepClaims(w, rebuilt, now) => RowsKeptByClaim(s, w, rebuilt, now);
    case LeaseRunsOut(id, now) => if id < |s.db.tasks| { RowsKeptBySilence(s.db, id, now); }
    case _ =>
  }

  /** Over any run: `is_done` never reverts, no event disappears, and a finished task that is not a wrapper keeps
      its latest kind and finish time for good. */
  lemma {:induction false} RowsKeptByRun(s: System, steps: seq<Step>)
    ensures RowsKept(s.db, Run(s, steps).db)
    decreases |steps|
  {
    if steps != [] {
      RowsKeptByStep(s, steps[0]);
      RowsKeptByRun(Apply(s, steps[0]), steps[1..]);
    }
  }

  // ------------------------------------------------------------------------------------------------------------
  // Events a report leaves behind
  // ------------------------------------------------------------------------------------------------------------

  function MirrorEvent(tasks: seq<Task>, wrapper: TaskId, report: Report): Event
    requires wrapper < |tasks| && tasks[wrapper].Wrapper()
  {
    Event(wrapper, report.Kind(),
          if report.Yield? then ProjectReturns(tasks[wrapper].implementation.value.returnMap.value, report.result) else None,
          if report.Yield? then None else report.Text(),
          Some(report.task), Mirrored)
  }

  predicate Ignored(db: Db, report: Report) {
    report.task >= |db.tasks| || (db.tasks[report.task].isDone && !report.Yield? && !report.Log? && !report.Progress?)
  }

  predicate Forwarded(report: Report) {
    report.Yield? || report.IsTerminal()
  }

  function ReportEvents(db: Db, report: Report): seq<Event> {
    if Ignored(db, report) then []
    else
      [report.AsEvent()]
      + if Forwarded(report) && WrapperOf(db.tasks, report.task).Some?
        then [MirrorEvent(db.tasks, WrapperOf(db.tasks, report.task).value, report)] else []
  }

  lemma {:induction false} ReportAppends(db: Db, report: Report, now: Time)
    ensures Route(db, report, now).0.events == db.events + ReportEvents(db, report)
    ensures |Route(db, report, now).0.tasks| == |db.tasks| && Route(db, report, now).0.won == db.won
  {
    if !Ignored(db, report) {
      var emitted := db.Emit(report.AsEvent());
      if report.IsTerminal() {
        var finished := emitted.Save(report.task, db.tasks[report.task].Finished(report.Kind(), now));
        UnfoldAppends(finished, report, now);
        WrapperUnmoved(db, report, now);
      } else if report.Yield? {
        UnfoldAppends(emitted, report, now);
      }
    }
  }

  /** Finishing the child does not change which wrapper it runs for, nor how that projects. */
  lemma {:induction false} WrapperUnmoved(db: Db, report: Report, now: Time)
    requires report.task < |db.tasks|
    ensures var tasks := db.tasks[report.task := db.tasks[report.task].Finished(report.Kind(), now)];
      && WrapperOf(tasks, report.task) == WrapperOf(db.tasks, report.task)
      && (WrapperOf(tasks, report.task).Some? ==>
            MirrorEvent(tasks, WrapperOf(tasks, report.task).value, report)
            == MirrorEvent(db.tasks, WrapperOf(tasks, report.task).value, report))
  {
  }

  lemma {:induction false} UnfoldAppends(db: Db, report: Report, now: Time)
    requires Forwarded(report) && report.task < |db.tasks|
    ensures var message := if report.Yield? then None else report.Text();
      Unfold(db, report.task, report.Kind(), report.Returns(), message, now).events
      == db.events + if WrapperOf(db.tasks, report.task).Some?
                     then [MirrorEvent(db.tasks, WrapperOf(db.tasks, report.task).value, report)] else []
  {
  }

  // ------------------------------------------------------------------------------------------------------------
  // Every report, spelled out
  // ------------------------------------------------------------------------------------------------------------

  function Closed(task: Task, kind: EventKind, now: Time): Task {
    task.(kind := kind, isDone := true, finishedAt := Some(now))
  }

  /** A task is closed with a kind and a text: one event on it, and the same on its wrapper, which is closed too. */
  function ClosedBy(db: Db, t: TaskId, kind: EventKind, text: Option<string>, now: Time): Db
    requires t < |db.tasks|
  {
    var tasks := db.tasks[t := Closed(db.tasks[t], kind, now)];
    var own := Event(t, kind, None, text, None, ByAgent);
    match WrapperOf(db.tasks, t)
    case None => Db(tasks, db.events + [own], db.outbox, db.won)
    case Some(w) =>
      Db(tasks[w := Closed(tasks[w], kind, now)], db.events + [own, Event(w, kind, None, text, Some(t), Mirrored)], db.outbox, db.won)
  }

  /** Each terminal report closes an open task with its own kind, and with its error text if it has one. */
  lemma {:induction false} TerminalReportsKeepTheirKind(db: Db, t: TaskId, text: string, now: Time)
    requires t < |db.tasks| && !db.tasks[t].isDone
    ensures Route(db, Completed(t), now) == (ClosedBy(db, t, COMPLETED, None, now), Ack)
    ensures Route(db, Cancelled(t), now) == (ClosedBy(db, t, CANCELLED, None, now), Ack)
    ensures Route(db, Interrupted(t), now) == (ClosedBy(db, t, INTERRUPTED, None, now), Ack)
    ensures Route(db, Failed(t, text), now) == (ClosedBy(db, t, FAILED, Some(text), now), Ack)
    ensures Route(db, Critical(t, text), now) == (ClosedBy(db, t, CRITICAL, Some(text), now), Ack)
  {
    TerminalReportKeepsItsKind(db, Completed(t), COMPLETED, None, now);
    TerminalReportKeepsItsKind(db, Cancelled(t), CANCELLED, None, now);
    TerminalReportKeepsItsKind(db, Interrupted(t), INTERRUPTED, None, now);
    TerminalReportKeepsItsKind(db, Failed(t, text), FAILED, Some(text), now);
    TerminalReportKeepsItsKind(db, Critical(t, text), CRITICAL, Some(text), now);
  }

  lemma {:induction false} TerminalReportKeepsItsKind(db: Db, report: Report, kind: EventKind, text: Option<string>, now: Time)
    requires report.IsTerminal() && report.task < |db.tasks| && !db.tasks[report.task].isDone
    requires report.Kind() == kind && report.Text() == text && Terminal(kind)
    ensures Route(db, report, now) == (ClosedBy(db, report.task, kind, text, now), Ack)
  {
    var own := Event(report.task, kind, None, text, None, ByAgent);
    assert report.AsEvent() == own;
    WrapperUnmoved(db, report, now);
    var w := WrapperOf(db.tasks, report.task);
    if w.Some? {
      var mirror := Event(w.value, kind, None, text, Some(report.task), Mirrored);
      assert (db.events + [own]) + [mirror] == db.events + [own, mirror];
    }
  }

  /** The other reports on a known task: a confirmation moves an open one, progress and logs only leave an event. */
  lemma {:induction false} OtherReportsKeepTheirKind(db: Db, t: TaskId, message: Option<string>, text: string, now: Time)
    requires t < |db.tasks|
    ensures !db.tasks[t].isDone ==>
      && Route(db, Started(t), now) == (MovedBy(db, t, STARTED), Ack)
      && Route(db, Paused(t), now) == (MovedBy(db, t, PAUSED), Ack)
      && Route(db, Resumed(t), now) == (MovedBy(db, t, RESUMED), Ack)
    ensures Route(db, Progress(t, message), now) == (db.Emit(Event(t, PROGRESS, None, message, None, ByAgent)), NoReply)
    ensures Route(db, Log(t, text), now) == (db.Emit(Event(t, LOG, None, Some(text), None, ByAgent)), NoReply)
  {
  }

  function MovedBy(db: Db, t: TaskId, kind: EventKind): Db
    requires t < |db.tasks|
  {
    Db(db.tasks[t := db.tasks[t].(kind := kind)], db.events + [Event(t, kind, None, None, None, ByAgent)], db.outbox, db.won)
  }

  /** A yield leaves an event with its returns, on a done task too; its wrapper shows them projected, and moves to YIELD. */
  lemma {:induction false} YieldsAreProjected(db: Db, t: TaskId, result: Option<Dict>, now: Time) returns (projected: Option<Dict>)
    requires t < |db.tasks|
    ensures var own := Event(t, YIELD, result, None, None, ByAgent);
      match WrapperOf(db.tasks, t)
      case None => Route(db, Yield(t, result), now) == (db.Emit(own), NoReply)
      case Some(w) =>
        && IsProjection(db.tasks[w].implementation.value.returnMap.value, result, projected)
        && Route(db, Yield(t, result), now)
           == (Db(db.tasks[w := db.tasks[w].(kind := YIELD)],
                  db.events + [own, Event(w, YIELD, projected, None, Some(t), Mirrored)], db.outbox, db.won), NoReply)
  {
    var w := WrapperOf(db.tasks, t);
    if w.Some? {
      var own := Event(t, YIELD, result, None, None, ByAgent);
      projected := ProjectReturns(db.tasks[w.value].implementation.value.returnMap.value, result);
      var mirror := Event(w.value, YIELD, projected, None, Some(t), Mirrored);
      assert (db.events + [own]) + [mirror] == db.events + [own, mirror];
    } else {
      projected := None;
    }
  }

  /** What changes nothing: a terminal report or a confirmation on a done task, and any report on an unknown one. */
  lemma {:induction false} IgnoredReports(db: Db, report: Report, now: Time)
    requires report.task >= |db.tasks| || (db.tasks[report.task].isDone && !report.Yield? && !report.Log? && !report.Progress?)
    ensures Route(db, report, now).0 == db
    ensures Route(db, report, now).1
      == if report.task < |db.tasks| || report.Started? || report.Paused? || report.Resumed? || report.Interrupted? then Ack else Raised
  {
  }
}
