/** Task rows, their event log and the handlers that write them (facade/persist_backend.py, facade/backend.py,
    facade/message_router.py). Every handler is one function on the database value; `TaskStore` performs it. */
module Tasks {
  import opened Common
  import opened HigherOrder

  /** A row id: rows are numbered in creation order and never deleted. */
  type TaskId = nat
  type AgentId = nat

  datatype EventKind =
    | QUEUED | BOUND | STARTED | UNASSIGN | PROGRESS
    | CANCELLING | CANCELLED | INTERRUPTING | INTERRUPTED
    | PAUSING | PAUSED | RESUMING | RESUMED | DELEGATE
    | FAILED | CRITICAL | DISCONNECTED | YIELD | COMPLETED | LOG

  predicate Terminal(kind: EventKind) {
    kind in {COMPLETED, CANCELLED, INTERRUPTED, FAILED, CRITICAL}
  }

  /** `returnMap` is set exactly on a higher-order wrapper. */
  datatype Implementation = Implementation(physical: bool, returnMap: Option<map<string, string>>)

  datatype Task = Task(
    agent: AgentId,
    parent: Option<TaskId>,
    root: Option<TaskId>,
    implementation: Option<Implementation>,
    idempotent: bool,
    kind: EventKind,
    isDone: bool,
    finishedAt: Option<Time>)
  {
    predicate Physical() {
      implementation.Some? && implementation.value.physical
    }

    predicate Wrapper() {
      implementation.Some? && implementation.value.returnMap.Some?
    }

    function Moved(to: EventKind): Task {
      this.(kind := to)
    }

    function Finished(to: EventKind, now: Time): Task {
      this.(kind := to, isDone := true, finishedAt := Some(now))
    }
  }

  /** History on an event: what produced it. `BySweep` names the won claim it reports. */
  datatype Origin = ByAgent | ByControl | BySweep(claim: nat) | BySilence | Mirrored

  datatype Event = Event(
    task: TaskId,
    kind: EventKind,
    result: Option<Dict>,
    message: Option<string>,
    delegatedTo: Option<TaskId>,
    origin: Origin)

  /** What is pushed to an agent's queue. */
  datatype Push = Assign(agent: AgentId, task: TaskId) | Instruct(agent: AgentId, task: TaskId, control: Control)

  datatype Control = Cancel | Interrupt | Pause | Resume
  {
    function Requested(): EventKind {
      match this
      case Cancel => CANCELLING
      case Interrupt => INTERRUPTING
      case Pause => PAUSING
      case Resume => RESUMING
    }
  }

  /** History: a transition a sweep has won. */
  datatype Won = Won(task: TaskId, kind: EventKind)

  /** The stored rows and the event log, what was pushed, and the history of won claims. */
  datatype Db = Db(tasks: seq<Task>, events: seq<Event>, outbox: seq<Push>, won: seq<Won>)
  {
    function Save(id: TaskId, task: Task): Db
      requires id < |tasks|
    {
      this.(tasks := tasks[id := task])
    }

    function Emit(event: Event): Db {
      this.(events := events + [event])
    }

    /** A sweep won a transition and wrote its event. */
    function Claimed(id: TaskId, task: Task, to: EventKind): Db
      requires id < |tasks|
    {
      Db(tasks[id := task], events + [SweepEvent(|won|, Won(id, to))], outbox, won + [Won(id, to)])
    }
  }

  // ------------------------------------------------------------------------------------------------------------
  // Agent reports
  // ------------------------------------------------------------------------------------------------------------

  datatype Report =
    | Started(task: TaskId)
    | Paused(task: TaskId)
    | Resumed(task: TaskId)
    | Progress(task: TaskId, message: Option<string>)
    | Log(task: TaskId, text: string)
    | Yield(task: TaskId, result: Option<Dict>)
    | Completed(task: TaskId)
    | Cancelled(task: TaskId)
    | Interrupted(task: TaskId)
    | Failed(task: TaskId, error: string)
    | Critical(task: TaskId, error: string)
  {
    predicate IsTerminal() {
      Completed? || Cancelled? || Interrupted? || Failed? || Critical?
    }

    function Kind(): EventKind {
      match this
      case Started(_) => STARTED
      case Paused(_) => PAUSED
      case Resumed(_) => RESUMED
      case Progress(_, _) => PROGRESS
      case Log(_, _) => LOG
      case Yield(_, _) => YIELD
      case Completed(_) => COMPLETED
      case Cancelled(_) => CANCELLED
      case Interrupted(_) => INTERRUPTED
      case Failed(_, _) => FAILED
      case Critical(_, _) => CRITICAL
    }

    function Text(): Option<string> {
      match this
      case Progress(_, message) => message
      case Log(_, text) => Some(text)
      case Failed(_, error) => Some(error)
      case Critical(_, error) => Some(error)
      case _ => None
    }

    function Returns(): Option<Dict> {
      if Yield? then result else None
    }

    function AsEvent(): Event {
      Event(task, Kind(), Returns(), Text(), None, ByAgent)
    }
  }

  datatype Reply = Ack | NoReply | Raised

  /** Re-emit a child's event on the wrapper that runs it; anything else has no wrapper and is left alone. The
      wrapper's row is written whether or not it is already done. */
  function Unfold(db: Db, child: TaskId, kind: EventKind, result: Option<Dict>, message: Option<string>, now: Time): (r: Db)
    requires child < |db.tasks|
    ensures |r.tasks| == |db.tasks|
  {
    var parent := db.tasks[child].parent;
    if parent.None? || parent.value >= |db.tasks| || !db.tasks[parent.value].Wrapper() then db
    else
      var wrapper := db.tasks[parent.value];
      var projected := if kind == YIELD then ProjectReturns(wrapper.implementation.value.returnMap.value, result) else None;
      db.Emit(Event(parent.value, kind, projected, message, Some(child), Mirrored))
        .Save(parent.value, if Terminal(kind) then wrapper.Finished(kind, now) else wrapper.Moved(kind))
  }

  /** A terminal report: ignored when the task is done, else one event, the finished row, and the mirror. */
  function Terminate(db: Db, report: Report, now: Time): (r: Db)
    requires report.IsTerminal() && report.task < |db.tasks|
    ensures |r.tasks| == |db.tasks|
  {
    if db.tasks[report.task].isDone then db
    else
      Unfold(db.Emit(report.AsEvent()).Save(report.task, db.tasks[report.task].Finished(report.Kind(), now)),
             report.task, report.Kind(), None, report.Text(), now)
  }

  /** A non-terminal confirmation: one event and the new kind, unless the task is done. */
  function Confirm(db: Db, report: Report): (r: Db)
    requires report.task < |db.tasks|
    ensures |r.tasks| == |db.tasks|
  {
    if db.tasks[report.task].isDone then db
    else db.Emit(report.AsEvent()).Save(report.task, db.tasks[report.task].Moved(report.Kind()))
  }

  /** The router: the effect of a report and the reply that goes back. A report on an unknown task raises, except
      for the four confirmations that tolerate it and are acknowledged. */
  function Route(db: Db, report: Report, now: Time): (Db, Reply) {
    var known := report.task < |db.tasks|;
    match report
    case Started(_) => (if known then Confirm(db, report) else db, Ack)
    case Paused(_) => (if known then Confirm(db, report) else db, Ack)
    case Resumed(_) => (if known then Confirm(db, report) else db, Ack)
    case Interrupted(_) => (if known then Terminate(db, report, now) else db, Ack)
    case Progress(_, _) => if known then (db.Emit(report.AsEvent()), NoReply) else (db, Raised)
    case Log(_, _) => if known then (db.Emit(report.AsEvent()), NoReply) else (db, Raised)
    case Yield(_, result) =>
      if known then (Unfold(db.Emit(report.AsEvent()), report.task, YIELD, result, None, now), NoReply) else (db, Raised)
    case _ => if known then (Terminate(db, report, now), Ack) else (db, Raised)
  }

  // ------------------------------------------------------------------------------------------------------------
  // The other writers
  // ------------------------------------------------------------------------------------------------------------

  /** The locked claim of a sweep: lost when the task is done or already in the kind to skip. */
  function TryClaim(task: Task, to: EventKind, markDone: bool, skip: Option<EventKind>, now: Time): Option<Task> {
    if task.isDone || skip == Some(task.kind) then None
    else Some(if markDone then task.Finished(to, now) else task.Moved(to))
  }

  /** What a sweep wants to make of an in-flight task, given the kind it read and whether the Assign message could
      be rebuilt. */
  function SweepTarget(task: Task, kindRead: EventKind, rebuilt: bool): EventKind {
    if task.Physical() then CRITICAL
    else if task.idempotent && kindRead != QUEUED && rebuilt then QUEUED
    else DISCONNECTED
  }

  /** The claim a sweep makes for its target: CRITICAL finishes, the others skip a task already there. */
  function SweepClaim(task: Task, target: EventKind, now: Time): Option<Task> {
    TryClaim(task, target, target == CRITICAL, if target == CRITICAL then None else Some(target), now)
  }

  /** A task a sweep loaded, with the kind it had then. */
  datatype Candidate = Candidate(task: TaskId, kindRead: EventKind)

  /** The in-flight tasks of an agent, in row order. */
  function InFlight(tasks: seq<Task>, agent: AgentId, from: nat): (todo: seq<Candidate>)
    requires from <= |tasks|
    ensures forall i | 0 <= i < |todo| ::
      from <= todo[i].task < |tasks| && tasks[todo[i].task].agent == agent && !tasks[todo[i].task].isDone
      && todo[i].kindRead == tasks[todo[i].task].kind
    ensures forall i, j | 0 <= i < j < |todo| :: todo[i].task < todo[j].task
    decreases |tasks| - from
  {
    if from == |tasks| then []
    else
      (if tasks[from].agent == agent && !tasks[from].isDone then [Candidate(from, tasks[from].kind)] else [])
      + InFlight(tasks, agent, from + 1)
  }

  function SweepMessage(kind: EventKind): string {
    if kind == CRITICAL then "Executor lost while running physical-effect work"
    else if kind == QUEUED then "Executor lost, idempotent action re-queued for redelivery"
    else "Agent disconnected. Fate unknown"
  }

  function SweepEvent(claim: nat, won: Won): Event {
    Event(won.task, won.kind, None, Some(SweepMessage(won.kind)), None, BySweep(claim))
  }

  /** One candidate of a sweep that nothing interrupts: claim, then the event, then the push of a re-queued one. */
  function ReconcileOne(db: Db, candidate: Candidate, rebuilt: bool, now: Time): (r: Db)
    requires candidate.task < |db.tasks|
    ensures |r.tasks| == |db.tasks|
  {
    var task := db.tasks[candidate.task];
    var target := SweepTarget(task, candidate.kindRead, rebuilt);
    match SweepClaim(task, target, now)
    case None => db
    case Some(claimed) =>
      var reported := db.Claimed(candidate.task, claimed, target);
      reported.(outbox := db.outbox + if target == QUEUED then [Assign(task.agent, candidate.task)] else [])
  }

  /** A whole sweep that nothing interrupts. `rebuilds` are the tasks whose Assign can be rebuilt. */
  function Cascade(db: Db, todo: seq<Candidate>, rebuilds: set<TaskId>, now: Time): (r: Db)
    requires forall i | 0 <= i < |todo| :: todo[i].task < |db.tasks|
    ensures |r.tasks| == |db.tasks|
    decreases |todo|
  {
    if todo == [] then db
    else Cascade(ReconcileOne(db, todo[0], todo[0].task in rebuilds, now), todo[1..], rebuilds, now)
  }

  function SilenceEvent(id: TaskId): Event {
    Event(id, CRITICAL, None, Some("Physical op went silent past its progress lease"), None, BySilence)
  }

  /** The progress lease of a physical task ran out. */
  function Silence(db: Db, id: TaskId, now: Time): (r: Db)
    requires id < |db.tasks|
    ensures |r.tasks| == |db.tasks|
  {
    if db.tasks[id].isDone then db
    else db.Emit(SilenceEvent(id)).Save(id, db.tasks[id].Finished(CRITICAL, now))
  }

  predicate Below(task: Task, root: TaskId) {
    task.root == Some(root) && !task.isDone
  }

  /** The tasks below `root` that still run, from row `from` on. */
  function Descendants(tasks: seq<Task>, root: TaskId, from: nat): (ids: seq<TaskId>)
    requires from <= |tasks|
    ensures forall i | 0 <= i < |ids| :: from <= ids[i] < |tasks|
    decreases |tasks| - from
  {
    if from == |tasks| then []
    else (if Below(tasks[from], root) then [from] else []) + Descendants(tasks, root, from + 1)
  }

  lemma {:induction false} DescendantsAreExactlyTheRunningOnes(tasks: seq<Task>, root: TaskId, from: nat, id: TaskId)
    requires from <= id < |tasks|
    ensures id in Descendants(tasks, root, from) <==> tasks[id].root == Some(root) && !tasks[id].isDone
    decreases |tasks| - from
  {
    if from < id {
      DescendantsAreExactlyTheRunningOnes(tasks, root, from + 1, id);
    }
  }

  lemma {:induction false} DescendantsAreInOrder(tasks: seq<Task>, root: TaskId, from: nat)
    requires from <= |tasks|
    ensures forall i, j | 0 <= i < j < |Descendants(tasks, root, from)| ::
      Descendants(tasks, root, from)[i] < Descendants(tasks, root, from)[j]
    decreases |tasks| - from
  {
    if from < |tasks| {
      DescendantsAreInOrder(tasks, root, from + 1);
      var later := Descendants(tasks, root, from + 1);
      assert forall i | 0 <= i < |later| :: from < later[i];
      assert Descendants(tasks, root, from) == if Below(tasks[from], root) then [from] + later else later;
    }
  }

  function ControlEvent(id: TaskId, control: Control): Event {
    Event(id, control.Requested(), None, None, None, ByControl)
  }

  function ControlEvents(targets: seq<TaskId>, control: Control): seq<Event> {
    seq(|targets|, i requires 0 <= i < |targets| => ControlEvent(targets[i], control))
  }

  function Instructions(tasks: seq<Task>, targets: seq<TaskId>, control: Control): seq<Push>
    requires forall i | 0 <= i < |targets| :: targets[i] < |tasks|
  {
    seq(|targets|, i requires 0 <= i < |targets| => Instruct(tasks[targets[i]].agent, targets[i], control))
  }

  function ControlTargets(tasks: seq<Task>, id: TaskId, control: Control): (targets: seq<TaskId>)
    requires id < |tasks|
    ensures forall i | 0 <= i < |targets| :: targets[i] < |tasks|
  {
    [id] + if control == Interrupt then Descendants(tasks, id, 0) else []
  }

  /** The request phase of a control operation; None when it raises. */
  function RequestControl(db: Db, id: TaskId, control: Control): Option<Db> {
    if id >= |db.tasks| || db.tasks[id].isDone then None
    else
      var targets := ControlTargets(db.tasks, id, control);
      Some(db.(events := db.events + ControlEvents(targets, control),
               outbox := db.outbox + Instructions(db.tasks, targets, control)))
  }

  /** A cancel, pause or resume goes to its task alone, an interrupt to everything below it too; each target gets the
      event of its own kind and the instruction, in that order. */
  lemma {:induction false} ControlsAre(db: Db, id: TaskId)
    requires id < |db.tasks| && !db.tasks[id].isDone
    ensures RequestControl(db, id, Cancel)
      == Some(Db(db.tasks, db.events + [Event(id, CANCELLING, None, None, None, ByControl)],
                 db.outbox + [Instruct(db.tasks[id].agent, id, Cancel)], db.won))
    ensures RequestControl(db, id, Pause)
      == Some(Db(db.tasks, db.events + [Event(id, PAUSING, None, None, None, ByControl)],
                 db.outbox + [Instruct(db.tasks[id].agent, id, Pause)], db.won))
    ensures RequestControl(db, id, Resume)
      == Some(Db(db.tasks, db.events + [Event(id, RESUMING, None, None, None, ByControl)],
                 db.outbox + [Instruct(db.tasks[id].agent, id, Resume)], db.won))
    ensures var targets := [id] + Descendants(db.tasks, id, 0);
      RequestControl(db, id, Interrupt)
      == Some(Db(db.tasks,
                 db.events + seq(|targets|, i requires 0 <= i < |targets| => Event(targets[i], INTERRUPTING, None, None, None, ByControl)),
                 db.outbox + seq(|targets|, i requires 0 <= i < |targets| => Instruct(db.tasks[targets[i]].agent, targets[i], Interrupt)),
                 db.won))
  {
    OneTarget(db, id, Cancel);
    OneTarget(db, id, Pause);
    OneTarget(db, id, Resume);
    var targets := [id] + Descendants(db.tasks, id, 0);
    assert ControlEvents(targets, Interrupt)
      == seq(|targets|, i requires 0 <= i < |targets| => Event(targets[i], INTERRUPTING, None, None, None, ByControl));
    assert Instructions(db.tasks, targets, Interrupt)
      == seq(|targets|, i requires 0 <= i < |targets| => Instruct(db.tasks[targets[i]].agent, targets[i], Interrupt));
  }

  lemma {:induction false} OneTarget(db: Db, id: TaskId, control: Control)
    requires id < |db.tasks| && !db.tasks[id].isDone && !control.Interrupt?
    ensures RequestControl(db, id, control)
      == Some(Db(db.tasks, db.events + [Event(id, control.Requested(), None, None, None, ByControl)],
                 db.outbox + [Instruct(db.tasks[id].agent, id, control)], db.won))
  {
    assert ControlTargets(db.tasks, id, control) == [id];
    assert ControlEvents([id], control) == [Event(id, control.Requested(), None, None, None, ByControl)];
    assert Instructions(db.tasks, [id], control) == [Instruct(db.tasks[id].agent, id, control)];
  }

  /** What a sweep makes of one candidate: physical work is closed as critical; rebuildable idempotent work that was not
      read as queued is queued and pushed; anything else is marked as disconnected. A done task is left alone, and so is
      one that is already what it would become. */
  lemma {:induction false} CandidatesBecome(db: Db, candidate: Candidate, rebuilt: bool, now: Time)
    requires candidate.task < |db.tasks|
    ensures var id, after := candidate.task, ReconcileOne(db, candidate, rebuilt, now);
      var task := db.tasks[id];
      var physical := task.implementation.Some? && task.implementation.value.physical;
      var requeued := !physical && task.idempotent && candidate.kindRead != QUEUED && rebuilt;
      if task.isDone || (requeued && task.kind == QUEUED) || (!physical && !requeued && task.kind == DISCONNECTED) then after == db
      else if physical then
        after == Db(db.tasks[id := task.(kind := CRITICAL, isDone := true, finishedAt := Some(now))],
                    db.events + [Event(id, CRITICAL, None, Some("Executor lost while running physical-effect work"), None, BySweep(|db.won|))],
                    db.outbox, db.won + [Won(id, CRITICAL)])
      else if requeued then
        after == Db(db.tasks[id := task.(kind := QUEUED)],
                    db.events + [Event(id, QUEUED, None, Some("Executor lost, idempotent action re-queued for redelivery"), None, BySweep(|db.won|))],
                    db.outbox + [Assign(task.agent, id)], db.won + [Won(id, QUEUED)])
      else
        after == Db(db.tasks[id := task.(kind := DISCONNECTED)],
                    db.events + [Event(id, DISCONNECTED, None, Some("Agent disconnected. Fate unknown"), None, BySweep(|db.won|))],
                    db.outbox, db.won + [Won(id, DISCONNECTED)])
  {
  }

  /** A physical task that went silent is closed as critical, with one event, unless it is done. */
  lemma {:induction false} SilentTasksBecome(db: Db, id: TaskId, now: Time)
    requires id < |db.tasks|
    ensures Silence(db, id, now)
      == if db.tasks[id].isDone then db
         else Db(db.tasks[id := db.tasks[id].(kind := CRITICAL, isDone := true, finishedAt := Some(now))],
                 db.events + [Event(id, CRITICAL, None, Some("Physical op went silent past its progress lease"), None, BySilence)],
                 db.outbox, db.won)
  {
  }

  // ------------------------------------------------------------------------------------------------------------
  // The store
  // ------------------------------------------------------------------------------------------------------------

  class TaskStore {
    var tasks: seq<Task>
    var events: seq<Event>
    var outbox: seq<Push>
    var won: seq<Won>

    function View(): Db
      reads this
    {
      Db(tasks, events, outbox, won)
    }

    method Emit(event: Event)
      modifies this`events
      ensures events == old(events) + [event]
    {
      events := events + [event];
    }

    method UnfoldToHigherOrder(child: TaskId, kind: EventKind, result: Option<Dict>, message: Option<string>, now: Time)
      requires child < |tasks|
      modifies this
      ensures View() == Unfold(old(View()), child, kind, result, message, now)
    {
      var parent := tasks[child].parent;
      if parent.None? || parent.value >= |tasks| {
        return;
      }
      var wrapper := tasks[parent.value];
      if !wrapper.Wrapper() {
        return;
      }
      var projected := None;
      if kind == YIELD {
        projected := ProjectReturns(wrapper.implementation.value.returnMap.value, result);
      }
      Emit(Event(parent.value, kind, projected, message, Some(child), Mirrored));
      wrapper := wrapper.Moved(kind);
      if Terminal(kind) {
        wrapper := wrapper.Finished(kind, now);
      }
      tasks := tasks[parent.value := wrapper];
    }

    method OnTerminalReport(report: Report, now: Time)
      requires report.IsTerminal() && report.task < |tasks|
      modifies this
      ensures View() == Terminate(old(View()), report, now)
    {
      var task := tasks[report.task];
      if task.isDone {
        return;
      }
      Emit(report.AsEvent());
      tasks := tasks[report.task := task.Finished(report.Kind(), now)];
      UnfoldToHigherOrder(report.task, report.Kind(), None, report.Text(), now);
    }

    method OnNonterminalConfirm(report: Report)
      requires report.task < |tasks|
      modifies this
      ensures View() == Confirm(old(View()), report)
    {
      var task := tasks[report.task];
      if task.isDone {
        return;
      }
      Emit(report.AsEvent());
      tasks := tasks[report.task := task.Moved(report.Kind())];
    }

    method RouteFromAgentMessage(report: Report, now: Time) returns (reply: Reply)
      modifies this
      ensures (View(), reply) == Route(old(View()), report, now)
    {
      var known := report.task < |tasks|;
      match report {
        case Started(_) | Paused(_) | Resumed(_) =>
          if known {
            OnNonterminalConfirm(report);
          }
          reply := Ack;
        case Interrupted(_) =>
          if known {
            OnTerminalReport(report, now);
          }
          reply := Ack;
        case Progress(_, _) | Log(_, _) =>
          if !known {
            return Raised;
          }
          Emit(report.AsEvent());
          reply := NoReply;
        case Yield(_, result) =>
          if !known {
            return Raised;
          }
          Emit(report.AsEvent());
          UnfoldToHigherOrder(report.task, YIELD, result, None, now);
          reply := NoReply;
        case _ =>
          if !known {
            return Raised;
          }
          OnTerminalReport(report, now);
          reply := Ack;
      }
    }

    method ClaimTaskTransition(id: TaskId, to: EventKind, markDone: bool, skip: Option<EventKind>, now: Time) returns (claimed: bool)
      requires id < |tasks|
      modifies this`tasks, this`won
      ensures var r := TryClaim(old(tasks[id]), to, markDone, skip, now);
        && claimed == r.Some?
        && tasks == (if claimed then old(tasks)[id := r.value] else old(tasks))
        && won == old(won) + if claimed then [Won(id, to)] else []
    {
      var task := tasks[id];
      if task.isDone || (skip.Some? && task.kind == skip.value) {
        return false;
      }
      task := task.(kind := to);
      if markDone {
        task := task.(isDone := true, finishedAt := Some(now));
      }
      tasks := tasks[id := task];
      won := won + [Won(id, to)];
      claimed := true;
    }

    method FailAndCascadeInflight(todo: seq<Candidate>, rebuilds: set<TaskId>, now: Time)
      requires forall i | 0 <= i < |todo| :: todo[i].task < |tasks|
      modifies this
      ensures View() == Cascade(old(View()), todo, rebuilds, now)
    {
      var i := 0;
      while i < |todo|
        invariant i <= |todo|
        invariant |tasks| == old(|tasks|)
        invariant Cascade(View(), todo[i..], rebuilds, now) == Cascade(old(View()), todo, rebuilds, now)
      {
        assert todo[i..][0] == todo[i] && todo[i..][1..] == todo[i + 1..];
        ReconcileCandidate(todo[i], todo[i].task in rebuilds, now);
        i := i + 1;
      }
    }

    /** The locked transition and, when it was won, its event. */
    method ClaimAndReport(id: TaskId, to: EventKind, markDone: bool, skip: Option<EventKind>, now: Time) returns (claimed: bool)
      requires id < |tasks|
      modifies this
      ensures var r := TryClaim(old(tasks[id]), to, markDone, skip, now);
        && claimed == r.Some?
        && View() == if claimed then old(View()).Claimed(id, r.value, to) else old(View())
    {
      claimed := ClaimTaskTransition(id, to, markDone, skip, now);
      if claimed {
        Emit(SweepEvent(|won| - 1, Won(id, to)));
      }
    }

    method ReconcileCandidate(candidate: Candidate, rebuilt: bool, now: Time)
      requires candidate.task < |tasks|
      modifies this
      ensures View() == ReconcileOne(old(View()), candidate, rebuilt, now)
    {
      var task := tasks[candidate.task];
      if task.Physical() {
        var _ := ClaimAndReport(candidate.task, CRITICAL, true, None, now);
      } else if task.idempotent && candidate.kindRead != QUEUED && rebuilt {
        var claimed := ClaimAndReport(candidate.task, QUEUED, false, Some(QUEUED), now);
        if claimed {
          outbox := outbox + [Assign(task.agent, candidate.task)];
        }
      } else {
        var _ := ClaimAndReport(candidate.task, DISCONNECTED, false, Some(DISCONNECTED), now);
      }
    }

    method ReconcileSilentPhysicalOp(id: TaskId, now: Time)
      requires id < |tasks|
      modifies this
      ensures View() == Silence(old(View()), id, now)
    {
      var task := tasks[id];
      if task.isDone {
        return;
      }
      Emit(SilenceEvent(id));
      tasks := tasks[id := task.Finished(CRITICAL, now)];
    }

    method DoRequestControl(id: TaskId, control: Control) returns (accepted: bool)
      modifies this
      ensures accepted <==> id < |old(tasks)| && !old(tasks)[id].isDone
      ensures var r := RequestControl(old(View()), id, control);
        accepted == r.Some? && View() == if accepted then r.value else old(View())
    {
      if id >= |tasks| || tasks[id].isDone {
        return false;
      }
      var targets := ControlTargets(tasks, id, control);
      var i := 0;
      while i < |targets|
        invariant i <= |targets|
        invariant tasks == old(tasks) && won == old(won)
        invariant events == old(events) + ControlEvents(targets[..i], control)
        invariant outbox == old(outbox) + Instructions(tasks, targets[..i], control)
      {
        assert targets[..i + 1] == targets[..i] + [targets[i]];
        Emit(ControlEvent(targets[i], control));
        outbox := outbox + [Instruct(tasks[targets[i]].agent, targets[i], control)];
        i := i + 1;
      }
      assert targets[..i] == targets;
      accepted := true;
    }
  }
}
