/** The laws of the task lifecycle over every run of `TaskRuns`. */
module TaskLaws {
  import opened Common
  import opened HigherOrder
  import Reconnect
  import opened Tasks
  import opened TaskRuns

  // ------------------------------------------------------------------------------------------------------------
  // Well-formed stores
  // ------------------------------------------------------------------------------------------------------------

  ghost predicate WellFormed(db: Db) {
    && RowsWellFormed(db.tasks)
    && (forall i | 0 <= i < |db.events| :: EventWellFormed(db, db.events[i]))
  }

  predicate RowsWellFormed(tasks: seq<Task>) {
    forall t | 0 <= t < |tasks| :: RowWellFormed(tasks[t], t)
  }

  /** Parents come first; a row is done exactly when it has a finish time; a plain finished row shows a terminal
      kind. */
  predicate RowWellFormed(task: Task, id: TaskId) {
    && (task.parent.Some? ==> task.parent.value < id)
    && (task.isDone <==> task.finishedAt.Some?)
    && (task.isDone && !task.Wrapper() ==> Terminal(task.kind))
  }

  /** Mirrored events sit on wrappers and name a child of theirs; a forwarded terminal leaves its wrapper done, an
      agent's terminal report leaves its task done. */
  predicate EventWellFormed(db: Db, event: Event) {
    && event.task < |db.tasks|
    && (event.delegatedTo.Some? <==> event.origin.Mirrored?)
    && (event.origin.Mirrored? ==>
          && db.tasks[event.task].Wrapper()
          && event.delegatedTo.value < |db.tasks|
          && db.tasks[event.delegatedTo.value].parent == Some(event.task)
          && (Terminal(event.kind) ==> db.tasks[event.delegatedTo.value].isDone))
    && (Terminal(event.kind) && (event.origin.Mirrored? || event.origin.ByAgent?) ==> db.tasks[event.task].isDone)
  }

  lemma {:induction false} EventsStayWellFormed(earlier: Db, later: Db)
    requires RowsKept(earlier, later)
    requires forall i | 0 <= i < |earlier.events| :: EventWellFormed(earlier, earlier.events[i])
    ensures forall i | 0 <= i < |earlier.events| :: EventWellFormed(later, earlier.events[i])
  {
  }

  lemma {:induction false} WellFormedReport(db: Db, report: Report, now: Time)
    requires WellFormed(db)
    ensures WellFormed(Route(db, report, now).0)
  {
    var later := Route(db, report, now).0;
    RowsKeptByReport(db, report, now);
    EventsStayWellFormed(db, later);
    ReportAppends(db, report, now);
    WellFormedReportRows(db, report, now);
    WellFormedReportEvents(db, report, now);
    forall i | 0 <= i < |later.events|
      ensures EventWellFormed(later, later.events[i])
    {
      if i < |db.events| {
        assert later.events[i] == db.events[i];
      } else {
        assert later.events[i] == ReportEvents(db, report)[i - |db.events|];
      }
    }
  }

  lemma {:induction false} WellFormedReportRows(db: Db, report: Report, now: Time)
    requires RowsWellFormed(db.tasks)
    ensures RowsWellFormed(Route(db, report, now).0.tasks)
  {
    if report.task < |db.tasks| {
      if report.IsTerminal() {
        var task := db.tasks[report.task];
        var finished := db.Emit(report.AsEvent()).Save(report.task, task.Finished(report.Kind(), now));
        if !task.isDone {
          UnfoldKeepsRows(finished, report.task, report.Kind(), None, report.Text(), now);
        }
      } else if report.Yield? {
        UnfoldKeepsRows(db.Emit(report.AsEvent()), report.task, YIELD, report.result, None, now);
      }
    }
  }

  lemma {:induction false} UnfoldKeepsRows(db: Db, child: TaskId, kind: EventKind, result: Option<Dict>,
        message: Option<string>, now: Time)
    requires child < |db.tasks| && RowsWellFormed(db.tasks)
    ensures RowsWellFormed(Unfold(db, child, kind, result, message, now).tasks)
  {
  }

  lemma {:induction false} WellFormedReportEvents(db: Db, report: Report, now: Time)
    requires WellFormed(db)
    ensures forall i | 0 <= i < |ReportEvents(db, report)| ::
      EventWellFormed(Route(db, report, now).0, ReportEvents(db, report)[i])
  {
  }

  lemma {:induction false} WellFormedStep(s: System, step: Step)
    requires WellFormed(s.db) && (forall k | 0 <= k < |s.db.won| :: s.db.won[k].task < |s.db.tasks|)
    ensures WellFormed(Apply(s, step).db)
  {
    RowsKeptByStep(s, step);
    EventsStayWellFormed(s.db, Apply(s, step).db);
    match step
    case Deliver(report, now) => WellFormedReport(s.db, report, now);
    case _ =>
  }

  // ------------------------------------------------------------------------------------------------------------
  // Sweeps: every won claim gets exactly one event
  // ------------------------------------------------------------------------------------------------------------

  ghost predicate Owes(s: System, w: nat, claim: nat) {
    w in s.sweepers && s.sweepers[w].stage == Owing(claim)
  }

  ghost predicate HasReport(s: System, claim: nat) {
    exists i: nat :: Reports(s, i, claim)
  }

  ghost predicate Reports(s: System, i: nat, claim: nat) {
    i < |s.db.events| && s.db.events[i].origin == BySweep(claim)
  }

  ghost predicate Bookkept(s: System) {
    && (forall k | k in s.reported :: k < |s.db.won| && HasReport(s, k))
    && (forall k | 0 <= k < |s.db.won| && k !in s.reported :: exists w: nat :: Owes(s, w, k))
    && (forall i: nat, k: nat | Reports(s, i, k) ::
          k in s.reported && s.db.events[i].task == s.db.won[k].task && s.db.events[i].kind == s.db.won[k].kind)
    && (forall i: nat, j: nat, k: nat | Reports(s, i, k) && Reports(s, j, k) :: i == j)
    && (forall w: nat, k: nat | Owes(s, w, k) :: k < |s.db.won| && k !in s.reported)
    && (forall v: nat, w: nat, k: nat | Owes(s, v, k) && Owes(s, w, k) :: v == w)
  }

  /** Won claims stay won: their rows exist, and a CRITICAL one closed its task, so there is no second. */
  ghost predicate WinsHold(s: System) {
    && (forall k | 0 <= k < |s.db.won| :: s.db.won[k].task < |s.db.tasks|)
    && (forall k | 0 <= k < |s.db.won| && s.db.won[k].kind == CRITICAL :: s.db.tasks[s.db.won[k].task].isDone)
    && (forall j, k | 0 <= j < k < |s.db.won| && s.db.won[j].kind == s.db.won[k].kind == CRITICAL :: s.db.won[j].task != s.db.won[k].task)
  }

  predicate SameSweeps(s: System, t: System) {
    t.sweepers == s.sweepers && t.db.won == s.db.won && t.reported == s.reported
  }

  /** Whoever else writes appends events that are not a sweep's. */
  lemma {:induction false} BookkeptByOthers(s: System, t: System)
    requires Bookkept(s) && SameSweeps(s, t) && s.db.events <= t.db.events
    requires forall i | |s.db.events| <= i < |t.db.events| :: !t.db.events[i].origin.BySweep?
    ensures Bookkept(t)
  {
    assert forall i | 0 <= i < |s.db.events| :: t.db.events[i] == s.db.events[i];
    assert forall i: nat, k: nat :: Reports(t, i, k) <==> Reports(s, i, k);
    assert forall w: nat, k: nat :: Owes(t, w, k) <==> Owes(s, w, k);
  }

  lemma {:induction false} BookkeptClaim(s: System, w: nat, rebuilt: bool, now: Time)
    requires Bookkept(s)
    ensures Bookkept(Tried(s, w, rebuilt, now))
  {
    var t := Tried(s, w, rebuilt, now);
    assert t.db.events == s.db.events;
    assert forall i: nat, k: nat :: Reports(t, i, k) <==> Reports(s, i, k);
    assert forall v: nat, k: nat | v != w :: Owes(t, v, k) <==> Owes(s, v, k);
    if |t.db.won| > |s.db.won| {
      assert Owes(t, w, |s.db.won|);
    }
  }

  /** The event of a claim is written, the claim marked as reported and no longer owed. */
  ghost predicate Settles(s: System, t: System, w: nat, claim: nat) {
    && claim < |s.db.won| && t.db.won == s.db.won
    && t.db.events == s.db.events + [SweepEvent(claim, s.db.won[claim])]
    && t.reported == s.reported + {claim}
    && (forall v: nat, k: nat :: Owes(t, v, k) <==> v != w && Owes(s, v, k))
  }

  lemma {:induction false} EmitSettlesIt(s: System, w: nat)
    ensures Emitted(s, w) != s ==>
      && w in s.sweepers && s.sweepers[w].stage.Owing?
      && Owes(s, w, s.sweepers[w].stage.claim) && Settles(s, Emitted(s, w), w, s.sweepers[w].stage.claim)
  {
  }

  lemma {:induction false} SettledEvents(s: System, t: System, w: nat, claim: nat)
    requires Settles(s, t, w, claim)
    ensures forall i: nat, k: nat :: Reports(t, i, k) <==> Reports(s, i, k) || (i == |s.db.events| && k == claim)
  {
    assert t.db.events[|s.db.events|].origin == BySweep(claim);
    assert forall i | 0 <= i < |s.db.events| :: t.db.events[i] == s.db.events[i];
  }

  lemma {:induction false} ReportsBySettling(s: System, t: System, w: nat, claim: nat)
    requires Bookkept(s) && Owes(s, w, claim) && Settles(s, t, w, claim)
    ensures forall k | k in t.reported :: k < |t.db.won| && HasReport(t, k)
    ensures forall i: nat, k: nat | Reports(t, i, k) ::
      k in t.reported && t.db.events[i].task == t.db.won[k].task && t.db.events[i].kind == t.db.won[k].kind
    ensures forall i: nat, j: nat, k: nat | Reports(t, i, k) && Reports(t, j, k) :: i == j
  {
    SettledEvents(s, t, w, claim);
    forall k | k in t.reported
      ensures k < |t.db.won| && HasReport(t, k)
    {
      if k == claim {
        assert Reports(t, |s.db.events|, k);
      } else {
        var i: nat :| Reports(s, i, k);
        assert Reports(t, i, k);
      }
    }
    forall i: nat, k: nat | Reports(t, i, k)
      ensures k in t.reported && t.db.events[i].task == t.db.won[k].task && t.db.events[i].kind == t.db.won[k].kind
    {
      assert i < |s.db.events| ==> t.db.events[i] == s.db.events[i];
    }
  }

  lemma {:induction false} DebtsBySettling(s: System, t: System, w: nat, claim: nat)
    requires Bookkept(s) && Owes(s, w, claim) && Settles(s, t, w, claim)
    ensures forall k | 0 <= k < |t.db.won| && k !in t.reported :: exists v: nat :: Owes(t, v, k)
    ensures forall v: nat, k: nat | Owes(t, v, k) :: k < |t.db.won| && k !in t.reported
    ensures forall u: nat, v: nat, k: nat | Owes(t, u, k) && Owes(t, v, k) :: u == v
  {
    forall k | 0 <= k < |t.db.won| && k !in t.reported
      ensures exists v: nat :: Owes(t, v, k)
    {
      var v: nat :| Owes(s, v, k);
      assert Owes(t, v, k);
    }
  }

  lemma {:induction false} BookkeptEmit(s: System, w: nat)
    requires Bookkept(s)
    ensures Bookkept(Emitted(s, w))
  {
    EmitSettlesIt(s, w);
    if Emitted(s, w) != s {
      ReportsBySettling(s, Emitted(s, w), w, s.sweepers[w].stage.claim);
      DebtsBySettling(s, Emitted(s, w), w, s.sweepers[w].stage.claim);
    }
  }

  /** Steps of a sweep that neither win nor settle a claim. */
  lemma {:induction false} BookkeptElsewhere(s: System, t: System)
    requires Bookkept(s) && t.db.events == s.db.events && t.db.won == s.db.won && t.reported == s.reported
    requires forall v: nat, k: nat :: Owes(t, v, k) <==> Owes(s, v, k)
    ensures Bookkept(t)
  {
    assert forall i: nat, k: nat :: Reports(t, i, k) <==> Reports(s, i, k);
  }

  lemma {:induction false} BookkeptStep(s: System, step: Step)
    requires Bookkept(s)
    ensures Bookkept(Apply(s, step))
  {
    match step
    case SweepClaims(w, rebuilt, now) => BookkeptClaim(s, w, rebuilt, now);
    case SweepEmits(w) => BookkeptEmit(s, w);
    case SweepLoads(w, agent) => BookkeptElsewhere(s, Loaded(s, w, agent));
    case SweepPushes(w) => BookkeptElsewhere(s, Pushed(s, w));
    case _ => BookkeptByWriters(s, step);
  }

  lemma {:induction false} BookkeptByWriters(s: System, step: Step)
    requires Bookkept(s) && (step.Create? || step.Deliver? || step.DoControl? || step.LeaseRunsOut?)
    ensures Bookkept(Apply(s, step))
  {
    var more := WritersAppend(s, step);
    BookkeptByOthers(s, Apply(s, step));
  }

  /** What the other writers append: events of reports, controls and silences, and no claims. */
  lemma {:induction false} WritersAppend(s: System, step: Step) returns (more: seq<Event>)
    requires step.Create? || step.Deliver? || step.DoControl? || step.LeaseRunsOut?
    ensures SameSweeps(s, Apply(s, step)) && Apply(s, step).db.events == s.db.events + more
    ensures forall i | 0 <= i < |more| :: !more[i].origin.BySweep?
    ensures !step.Deliver? ==> forall i | 0 <= i < |more| :: !more[i].origin.ByAgent? && more[i].delegatedTo.None?
  {
    match step
    case Create(_) => more := [];
    case Deliver(report, now) =>
      ReportAppends(s.db, report, now);
      more := ReportEvents(s.db, report);
    case DoControl(id, control) =>
      more := if RequestControl(s.db, id, control).None? then [] else ControlEvents(ControlTargets(s.db.tasks, id, control), control);
    case LeaseRunsOut(id, _) =>
      more := if id < |s.db.tasks| && !s.db.tasks[id].isDone then [SilenceEvent(id)] else [];
  }

  lemma {:induction false} WinsHoldKept(s: System, t: System)
    requires WinsHold(s) && RowsKept(s.db, t.db) && t.db.won == s.db.won
    ensures WinsHold(t)
  {
  }

  lemma {:induction false} WinsHoldClaim(s: System, w: nat, rebuilt: bool, now: Time)
    requires WinsHold(s) && RowsKept(s.db, Tried(s, w, rebuilt, now).db)
    ensures WinsHold(Tried(s, w, rebuilt, now))
  {
    var t := Tried(s, w, rebuilt, now);
    if |t.db.won| > |s.db.won| {
      var last := Last(t.db.won);
      assert t.db.won == s.db.won + [last] && last.task < |s.db.tasks| && !s.db.tasks[last.task].isDone;
      assert last.kind == CRITICAL ==> t.db.tasks[last.task].isDone;
    }
  }

  lemma {:induction false} WinsHoldStep(s: System, step: Step)
    requires WinsHold(s)
    ensures WinsHold(Apply(s, step))
  {
    RowsKeptByStep(s, step);
    match step
    case SweepClaims(w, rebuilt, now) => WinsHoldClaim(s, w, rebuilt, now);
    case SweepLoads(w, agent) => WinsHoldKept(s, Loaded(s, w, agent));
    case SweepEmits(w) => WinsHoldKept(s, Emitted(s, w));
    case SweepPushes(w) => WinsHoldKept(s, Pushed(s, w));
    case _ =>
      var more := WritersAppend(s, step);
      WinsHoldKept(s, Apply(s, step));
  }

  // ------------------------------------------------------------------------------------------------------------
  // One terminal event per finished task
  // ------------------------------------------------------------------------------------------------------------

  /** How many terminal events the log holds for a task. */
  function Terminals(events: seq<Event>, t: TaskId): nat {
    if events == [] then 0
    else Terminals(events[..|events| - 1], t) + if Last(events).task == t && Terminal(Last(events).kind) then 1 else 0
  }

  lemma {:induction false} TerminalsAppend(events: seq<Event>, more: seq<Event>, t: TaskId)
    ensures Terminals(events + more, t) == Terminals(events, t) + Terminals(more, t)
  {
    if more == [] {
      assert events + more == events;
    } else {
      assert (events + more)[..|events + more| - 1] == events + more[..|more| - 1];
      TerminalsAppend(events, more[..|more| - 1], t);
    }
  }

  lemma {:induction false} NoTerminals(events: seq<Event>, t: TaskId)
    requires forall i | 0 <= i < |events| :: events[i].task != t || !Terminal(events[i].kind)
    ensures Terminals(events, t) == 0
  {
    if events != [] {
      NoTerminals(events[..|events| - 1], t);
    }
  }

  /** A sweep closed this task and has not written the event yet. */
  ghost predicate OwedCritical(s: System, t: TaskId) {
    exists k | 0 <= k < |s.db.won| :: s.db.won[k] == Won(t, CRITICAL) && k !in s.reported
  }

  /** Terminal events written and owed: one when the task is done, none before. */
  ghost predicate ClosedOnce(s: System, t: TaskId)
    requires t < |s.db.tasks|
  {
    Terminals(s.db.events, t) + (if OwedCritical(s, t) then 1 else 0) == if s.db.tasks[t].isDone then 1 else 0
  }

  ghost predicate PlainTask(s: System, t: TaskId) {
    t < |s.db.tasks| && !s.db.tasks[t].Wrapper()
  }

  predicate WonKinds(s: System) {
    forall k | 0 <= k < |s.db.won| :: s.db.won[k].kind in {CRITICAL, QUEUED, DISCONNECTED}
  }

  /** Steps whose new events are not terminal ones for `t` and that leave its row and the claims alone. */
  lemma {:induction false} ClosedOnceKept(s: System, u: System, t: TaskId, more: seq<Event>)
    requires PlainTask(s, t) && ClosedOnce(s, t)
    requires PlainTask(u, t) && u.db.tasks[t].isDone == s.db.tasks[t].isDone
    requires u.db.events == s.db.events + more && OwedCritical(u, t) == OwedCritical(s, t)
    requires forall i | 0 <= i < |more| :: more[i].task != t || !Terminal(more[i].kind)
    ensures ClosedOnce(u, t)
  {
    TerminalsAppend(s.db.events, more, t);
    NoTerminals(more, t);
  }

  /** One more terminal event for `t`, on a step that finishes it. */
  lemma {:induction false} ClosedOnceNow(s: System, u: System, t: TaskId, event: Event, more: seq<Event>)
    requires PlainTask(s, t) && ClosedOnce(s, t) && !s.db.tasks[t].isDone
    requires PlainTask(u, t) && u.db.tasks[t].isDone
    requires u.db.events == s.db.events + ([event] + more) && OwedCritical(u, t) == OwedCritical(s, t)
    requires event.task == t && Terminal(event.kind)
    requires forall i | 0 <= i < |more| :: more[i].task != t || !Terminal(more[i].kind)
    ensures ClosedOnce(u, t)
  {
    TerminalsAppend(s.db.events, [event] + more, t);
    TerminalsAppend([event], more, t);
    NoTerminals(more, t);
    assert [event][..0] == [];
  }

  lemma {:induction false} ReportFinishes(db: Db, report: Report, now: Time, t: TaskId)
    requires t < |db.tasks| && !db.tasks[t].Wrapper()
    ensures Route(db, report, now).0.tasks[t].isDone == (db.tasks[t].isDone || (report.task == t && report.IsTerminal()))
  {
    if report.task < |db.tasks| {
      if report.IsTerminal() {
        var task := db.tasks[report.task];
        var finished := db.Emit(report.AsEvent()).Save(report.task, task.Finished(report.Kind(), now));
        PlainRowsSurviveUnfold(finished, report.task, report.Kind(), None, report.Text(), now, t);
      } else if report.Yield? {
        PlainRowsSurviveUnfold(db.Emit(report.AsEvent()), report.task, YIELD, report.result, None, now, t);
      }
    }
  }

  lemma {:induction false} PlainRowsSurviveUnfold(db: Db, child: TaskId, kind: EventKind, result: Option<Dict>,
        message: Option<string>, now: Time, t: TaskId)
    requires child < |db.tasks| && t < |db.tasks| && !db.tasks[t].Wrapper()
    ensures Unfold(db, child, kind, result, message, now).tasks[t] == db.tasks[t]
  {
  }

  lemma {:induction false} ClosedOnceReport(s: System, report: Report, now: Time, t: TaskId)
    requires PlainTask(s, t) && ClosedOnce(s, t)
    ensures PlainTask(Apply(s, Deliver(report, now)), t) && ClosedOnce(Apply(s, Deliver(report, now)), t)
  {
    var u := Apply(s, Deliver(report, now));
    var more := ReportEvents(s.db, report);
    ReportAppends(s.db, report, now);
    RowsKeptByReport(s.db, report, now);
    ReportFinishes(s.db, report, now, t);
    assert OwedCritical(u, t) == OwedCritical(s, t);
    if more != [] && report.task == t && report.IsTerminal() {
      assert more == [report.AsEvent()] + more[1..];
      ClosedOnceNow(s, u, t, report.AsEvent(), more[1..]);
    } else {
      ClosedOnceKept(s, u, t, more);
    }
  }

  lemma {:induction false} ClosedOnceClaim(s: System, w: nat, rebuilt: bool, now: Time, t: TaskId)
    requires Bookkept(s) && WinsHold(s) && PlainTask(s, t) && ClosedOnce(s, t)
    ensures var u := Tried(s, w, rebuilt, now); PlainTask(u, t) && ClosedOnce(u, t)
  {
    var u := Tried(s, w, rebuilt, now);
    RowsKeptByStep(s, SweepClaims(w, rebuilt, now));
    assert u.db.events == s.db.events;
    if |u.db.won| > |s.db.won| {
      assert forall k | k in s.reported :: k < |s.db.won|;
      assert forall k | 0 <= k < |s.db.won| :: u.db.won[k] == s.db.won[k];
      assert u.db.won[|s.db.won|] == Last(u.db.won);
    }
  }

  /** Writing the event of a claim settles that claim and no other. */
  lemma {:induction false} SettlingSettles(s: System, u: System, w: nat, claim: nat, t: TaskId)
    requires WinsHold(s) && claim !in s.reported && Settles(s, u, w, claim)
    ensures OwedCritical(s, t) <==> OwedCritical(u, t) || s.db.won[claim] == Won(t, CRITICAL)
    ensures !(OwedCritical(u, t) && s.db.won[claim] == Won(t, CRITICAL))
  {
    if s.db.won[claim] == Won(t, CRITICAL) {
      assert forall k | 0 <= k < |s.db.won| && s.db.won[k] == Won(t, CRITICAL) :: k == claim;
    }
  }

  lemma {:induction false} ClosedOnceEmit(s: System, w: nat, t: TaskId)
    requires Bookkept(s) && WinsHold(s) && WonKinds(s) && PlainTask(s, t) && ClosedOnce(s, t)
    ensures var u := Emitted(s, w); PlainTask(u, t) && ClosedOnce(u, t)
  {
    var u := Emitted(s, w);
    EmitSettlesIt(s, w);
    if u != s {
      var claim := s.sweepers[w].stage.claim;
      SettlingSettles(s, u, w, claim, t);
      TerminalsAppend(s.db.events, [SweepEvent(claim, s.db.won[claim])], t);
      SweepEventCounts(claim, s.db.won[claim], t);
      assert s.db.won[claim].kind in {CRITICAL, QUEUED, DISCONNECTED};
    }
  }

  lemma {:induction false} SweepEventCounts(claim: nat, won: Won, t: TaskId)
    requires won.kind in {CRITICAL, QUEUED, DISCONNECTED}
    ensures Terminals([SweepEvent(claim, won)], t) == if won == Won(t, CRITICAL) then 1 else 0
  {
    OneTerminal(SweepEvent(claim, won), t);
  }

  lemma {:induction false} OneTerminal(event: Event, t: TaskId)
    ensures Terminals([event], t) == if event.task == t && Terminal(event.kind) then 1 else 0
  {
    assert [event][..0] == [];
  }

  lemma {:induction false} ClosedOnceSilence(s: System, id: TaskId, now: Time, t: TaskId)
    requires PlainTask(s, t) && ClosedOnce(s, t)
    ensures var u := Apply(s, LeaseRunsOut(id, now)); PlainTask(u, t) && ClosedOnce(u, t)
  {
    var u := Apply(s, LeaseRunsOut(id, now));
    assert OwedCritical(u, t) == OwedCritical(s, t);
    if u.db != s.db {
      if id == t {
        assert [SilenceEvent(id)] + [] == [SilenceEvent(id)];
        ClosedOnceNow(s, u, t, SilenceEvent(id), []);
      } else {
        ClosedOnceKept(s, u, t, [SilenceEvent(id)]);
      }
    }
  }

  lemma {:induction false} ClosedOnceControl(s: System, id: TaskId, control: Control, t: TaskId)
    requires PlainTask(s, t) && ClosedOnce(s, t)
    ensures var u := Apply(s, DoControl(id, control)); PlainTask(u, t) && ClosedOnce(u, t)
  {
    var u := Apply(s, DoControl(id, control));
    assert OwedCritical(u, t) == OwedCritical(s, t);
    if u.db != s.db {
      ClosedOnceKept(s, u, t, ControlEvents(ControlTargets(s.db.tasks, id, control), control));
    }
  }

  lemma {:induction false} ClosedOnceStep(s: System, step: Step, t: TaskId)
    requires Bookkept(s) && WinsHold(s) && WonKinds(s) && PlainTask(s, t) && ClosedOnce(s, t)
    ensures PlainTask(Apply(s, step), t) && ClosedOnce(Apply(s, step), t)
  {
    var u := Apply(s, step);
    match step
    case Deliver(report, now) => ClosedOnceReport(s, report, now, t);
    case SweepClaims(w, rebuilt, now) => ClosedOnceClaim(s, w, rebuilt, now, t);
    case SweepEmits(w) => ClosedOnceEmit(s, w, t);
    case LeaseRunsOut(id, now) => ClosedOnceSilence(s, id, now, t);
    case DoControl(id, control) => ClosedOnceControl(s, id, control, t);
    case _ =>
      assert OwedCritical(u, t) == OwedCritical(s, t);
      assert u.db.events == s.db.events;
  }

  /** A row just created has no event yet, so it starts out closed zero times. */
  lemma {:induction false} ClosedOnceCreate(s: System, row: Task)
    requires WellFormed(s.db) && WinsHold(s) && Creatable(s.db, row)
    ensures ClosedOnce(Apply(s, Create(row)), |s.db.tasks|)
  {
    NoTerminals(s.db.events, |s.db.tasks|);
  }

  // ------------------------------------------------------------------------------------------------------------
  // A finished task shows the kind it was closed with
  // ------------------------------------------------------------------------------------------------------------

  /** A terminal event on a task that is no wrapper: the task is done, and of that kind. */
  predicate EventAgrees(db: Db, event: Event)
    requires event.task < |db.tasks|
  {
    Terminal(event.kind) && !db.tasks[event.task].Wrapper() ==> db.tasks[event.task].isDone && db.tasks[event.task].kind == event.kind
  }

  predicate WinAgrees(db: Db, won: Won)
    requires won.task < |db.tasks|
  {
    won.kind == CRITICAL && !db.tasks[won.task].Wrapper() ==> db.tasks[won.task].isDone && db.tasks[won.task].kind == CRITICAL
  }

  ghost predicate KindsAgree(db: Db) {
    && (forall i | 0 <= i < |db.events| :: db.events[i].task < |db.tasks| && EventAgrees(db, db.events[i]))
    && (forall k | 0 <= k < |db.won| :: db.won[k].task < |db.tasks| && WinAgrees(db, db.won[k]))
  }

  lemma {:induction false} KindsAgreeLater(earlier: Db, later: Db, more: seq<Event>, wins: seq<Won>)
    requires KindsAgree(earlier) && RowsKept(earlier, later)
    requires later.events == earlier.events + more && later.won == earlier.won + wins
    requires forall i | 0 <= i < |more| :: more[i].task < |later.tasks| && EventAgrees(later, more[i])
    requires forall k | 0 <= k < |wins| :: wins[k].task < |later.tasks| && WinAgrees(later, wins[k])
    ensures KindsAgree(later)
  {
    forall i | 0 <= i < |later.events|
      ensures later.events[i].task < |later.tasks| && EventAgrees(later, later.events[i])
    {
      if i < |earlier.events| {
        assert later.events[i] == earlier.events[i] && EventAgrees(earlier, earlier.events[i]);
      } else {
        assert later.events[i] == more[i - |earlier.events|];
      }
    }
    forall k | 0 <= k < |later.won|
      ensures later.won[k].task < |later.tasks| && WinAgrees(later, later.won[k])
    {
      if k < |earlier.won| {
        assert later.won[k] == earlier.won[k] && WinAgrees(earlier, earlier.won[k]);
      } else {
        assert later.won[k] == wins[k - |earlier.won|];
      }
    }
  }

  lemma {:induction false} ReportAgrees(db: Db, report: Report, now: Time)
    ensures forall i | 0 <= i < |ReportEvents(db, report)| ::
      var event := ReportEvents(db, report)[i];
      event.task < |Route(db, report, now).0.tasks| && EventAgrees(Route(db, report, now).0, event)
  {
    RowsKeptByReport(db, report, now);
    if report.IsTerminal() && !Ignored(db, report) {
      TerminalReportKeepsItsKind(db, report, report.Kind(), report.Text(), now);
    }
  }

  lemma {:induction false} KindsAgreeStep(s: System, step: Step)
    requires KindsAgree(s.db) && WonKinds(s)
    ensures KindsAgree(Apply(s, step).db)
  {
    RowsKeptByStep(s, step);
    match step
    case Deliver(report, now) =>
      KindsAgreeReport(s.db, report, now);
    case SweepClaims(w, rebuilt, now) => KindsAgreeClaim(s, w, rebuilt, now);
    case SweepEmits(w) => KindsAgreeEmit(s, w);
    case LeaseRunsOut(id, now) => KindsAgreeSilence(s, id, now);
    case SweepLoads(w, agent) => KindsAgreeLater(s.db, Loaded(s, w, agent).db, [], []);
    case SweepPushes(w) => KindsAgreeLater(s.db, Pushed(s, w).db, [], []);
    case Create(_) => KindsAgreeLater(s.db, Apply(s, step).db, [], []);
    case DoControl(id, control) => KindsAgreeControl(s, id, control);
  }

  lemma {:induction false} KindsAgreeReport(db: Db, report: Report, now: Time)
    requires KindsAgree(db) && RowsKept(db, Route(db, report, now).0)
    ensures KindsAgree(Route(db, report, now).0)
  {
    ReportAppends(db, report, now);
    ReportAgrees(db, report, now);
    KindsAgreeLater(db, Route(db, report, now).0, ReportEvents(db, report), []);
  }

  lemma {:induction false} KindsAgreeSilence(s: System, id: TaskId, now: Time)
    requires KindsAgree(s.db) && RowsKept(s.db, Apply(s, LeaseRunsOut(id, now)).db)
    ensures KindsAgree(Apply(s, LeaseRunsOut(id, now)).db)
  {
    var more := if id < |s.db.tasks| && !s.db.tasks[id].isDone then [SilenceEvent(id)] else [];
    KindsAgreeLater(s.db, Apply(s, LeaseRunsOut(id, now)).db, more, []);
  }

  lemma {:induction false} KindsAgreeControl(s: System, id: TaskId, control: Control)
    requires KindsAgree(s.db) && RowsKept(s.db, Apply(s, DoControl(id, control)).db)
    ensures KindsAgree(Apply(s, DoControl(id, control)).db)
  {
    var more := if RequestControl(s.db, id, control).None? then [] else ControlEvents(ControlTargets(s.db.tasks, id, control), control);
    KindsAgreeLater(s.db, Apply(s, DoControl(id, control)).db, more, []);
  }

  lemma {:induction false} KindsAgreeClaim(s: System, w: nat, rebuilt: bool, now: Time)
    requires KindsAgree(s.db) && RowsKept(s.db, Tried(s, w, rebuilt, now).db)
    ensures KindsAgree(Tried(s, w, rebuilt, now).db)
  {
    var t := Tried(s, w, rebuilt, now);
    if |t.db.won| > |s.db.won| {
      KindsAgreeLater(s.db, t.db, [], [Last(t.db.won)]);
    } else {
      KindsAgreeLater(s.db, t.db, [], []);
    }
  }

  lemma {:induction false} KindsAgreeEmit(s: System, w: nat)
    requires KindsAgree(s.db) && WonKinds(s) && RowsKept(s.db, Emitted(s, w).db)
    ensures KindsAgree(Emitted(s, w).db)
  {
    EmitSettlesIt(s, w);
    if Emitted(s, w) != s {
      var claim := s.sweepers[w].stage.claim;
      assert WinAgrees(s.db, s.db.won[claim]) && s.db.won[claim].kind in {CRITICAL, QUEUED, DISCONNECTED};
      KindsAgreeLater(s.db, Emitted(s, w).db, [SweepEvent(claim, s.db.won[claim])], []);
    }
  }

  lemma {:induction false} TerminalsHaveAnEvent(events: seq<Event>, t: TaskId) returns (i: nat)
    requires Terminals(events, t) > 0
    ensures i < |events| && events[i].task == t && Terminal(events[i].kind)
  {
    if Last(events).task == t && Terminal(Last(events).kind) {
      i := |events| - 1;
    } else {
      i := TerminalsHaveAnEvent(events[..|events| - 1], t);
    }
  }

  /** How a step closes a task: by the report of its agent or of a child it wraps, by a silence, or by the claim of a sweep
      on physical work. */
  predicate ClosedByStep(s: System, step: Step, t: TaskId, row: Task) {
    match step
    case Deliver(report, now) =>
      && row.finishedAt == Some(now) && report.task < |s.db.tasks|
      && (report.task == t || WrapperOf(s.db.tasks, report.task) == Some(t))
      && (match report
          case Completed(_) => row.kind == COMPLETED
          case Cancelled(_) => row.kind == CANCELLED
          case Interrupted(_) => row.kind == INTERRUPTED
          case Failed(_, _) => row.kind == FAILED
          case Critical(_, _) => row.kind == CRITICAL
          case _ => false)
    case LeaseRunsOut(id, now) => id == t && row.kind == CRITICAL && row.finishedAt == Some(now)
    case SweepClaims(w, _, now) =>
      && w in s.sweepers && s.sweepers[w].todo != [] && s.sweepers[w].todo[0].task == t
      && row.kind == CRITICAL && row.finishedAt == Some(now)
    case _ => false
  }

  lemma {:induction false} ClosingStep(s: System, step: Step, t: TaskId)
    requires t < |s.db.tasks| && !s.db.tasks[t].isDone && t < |Apply(s, step).db.tasks| && Apply(s, step).db.tasks[t].isDone
    ensures ClosedByStep(s, step, t, Apply(s, step).db.tasks[t])
  {
    match step
    case Deliver(report, now) => ClosingReport(s.db, report, now, t);
    case SweepClaims(w, rebuilt, now) =>
    case _ =>
  }

  lemma {:induction false} ClosingReport(db: Db, report: Report, now: Time, t: TaskId)
    requires t < |db.tasks| && !db.tasks[t].isDone && t < |Route(db, report, now).0.tasks| && Route(db, report, now).0.tasks[t].isDone
    ensures report.IsTerminal() && report.task < |db.tasks|
    ensures report.task == t || WrapperOf(db.tasks, report.task) == Some(t)
    ensures Route(db, report, now).0.tasks[t] == Closed(db.tasks[t], report.Kind(), now)
  {
    if report.task < |db.tasks| && report.IsTerminal() && !db.tasks[report.task].isDone {
      TerminalReportKeepsItsKind(db, report, report.Kind(), report.Text(), now);
    }
  }

  /** A finished task was closed by one step, whose kind and time it shows; one that is no wrapper shows them for good. */
  lemma {:induction false} FinishedByItsStep(s: System, steps: seq<Step>, t: TaskId) returns (k: nat)
    requires t >= |s.db.tasks| || !s.db.tasks[t].isDone
    requires t < |Run(s, steps).db.tasks| && Run(s, steps).db.tasks[t].isDone
    ensures k < |steps|
    ensures var before := Run(s, steps[..k]);
      var after := Apply(before, steps[k]);
      && t < |before.db.tasks| && !before.db.tasks[t].isDone
      && t < |after.db.tasks| && ClosedByStep(before, steps[k], t, after.db.tasks[t])
      && (!after.db.tasks[t].Wrapper() ==> Run(s, steps).db.tasks[t] == after.db.tasks[t])
    decreases |steps|
  {
    var next := Apply(s, steps[0]);
    if t < |next.db.tasks| && next.db.tasks[t].isDone {
      NewRowsAreOpen(s, steps[0]);
      k := 0;
      assert steps[..0] == [];
      ClosingStep(s, steps[0], t);
      RowsKeptByRun(next, steps[1..]);
    } else {
      var j := FinishedByItsStep(next, steps[1..], t);
      k := j + 1;
      assert steps[..k][0] == steps[0] && steps[..k][1..] == steps[1..][..j];
    }
  }

  lemma {:induction false} NewRowsAreOpen(s: System, step: Step)
    ensures forall t | |s.db.tasks| <= t < |Apply(s, step).db.tasks| :: !Apply(s, step).db.tasks[t].isDone
  {
    if step.Deliver? {
      ReportAppends(s.db, step.report, step.now);
    }
  }

  // ------------------------------------------------------------------------------------------------------------
  // What a done wrapper shows
  // ------------------------------------------------------------------------------------------------------------

  /** The kind a step forwards to a wrapper: any yield of a child, and the terminal report of an open one. */
  function ForwardedBy(s: System, step: Step, w: TaskId): Option<EventKind> {
    if !step.Deliver? || step.report.task >= |s.db.tasks| || WrapperOf(s.db.tasks, step.report.task) != Some(w) then None
    else if step.report.Yield? then Some(YIELD)
    else if s.db.tasks[step.report.task].isDone then None
    else
      match step.report
      case Completed(_) => Some(COMPLETED)
      case Cancelled(_) => Some(CANCELLED)
      case Interrupted(_) => Some(INTERRUPTED)
      case Failed(_, _) => Some(FAILED)
      case Critical(_, _) => Some(CRITICAL)
      case _ => None
  }

  /** A done wrapper moves only with what its children forward: to YIELD, or to their terminal kind and its time. */
  lemma {:induction false} DoneWrapperStep(s: System, step: Step, w: TaskId)
    requires RowsWellFormed(s.db.tasks) && w < |s.db.tasks| && s.db.tasks[w].Wrapper() && s.db.tasks[w].isDone
    ensures w < |Apply(s, step).db.tasks|
    ensures var row, after := s.db.tasks[w], Apply(s, step).db.tasks[w];
      match ForwardedBy(s, step, w)
      case None => after == row
      case Some(kind) => after == if kind == YIELD then row.(kind := YIELD) else Closed(row, kind, step.now)
  {
    if step.Deliver? {
      ReportAppends(s.db, step.report, step.now);
      DoneWrapperReport(s.db, step.report, step.now, w);
    }
  }

  lemma {:induction false} DoneWrapperReport(db: Db, report: Report, now: Time, w: TaskId)
    requires RowsWellFormed(db.tasks) && w < |db.tasks| && db.tasks[w].Wrapper() && db.tasks[w].isDone
    ensures w < |Route(db, report, now).0.tasks|
    ensures var forwarded := report.task < |db.tasks| && WrapperOf(db.tasks, report.task) == Some(w);
      Route(db, report, now).0.tasks[w]
      == if forwarded && report.Yield? then db.tasks[w].(kind := YIELD)
         else if forwarded && report.IsTerminal() && !db.tasks[report.task].isDone then Closed(db.tasks[w], report.Kind(), now)
         else db.tasks[w]
  {
    ReportAppends(db, report, now);
    if report.task < |db.tasks| {
      assert RowWellFormed(db.tasks[w], w);
      if report.IsTerminal() && !db.tasks[report.task].isDone {
        TerminalReportKeepsItsKind(db, report, report.Kind(), report.Text(), now);
      } else if report.Yield? {
        var projected := YieldsAreProjected(db, report.task, report.result, now);
      }
    }
  }

  /** The kind that was forwarded last, or the one there was. */
  function LastForwarded(s: System, steps: seq<Step>, w: TaskId, kind: EventKind): EventKind
    decreases |steps|
  {
    if steps == [] then kind
    else
      var forwarded := ForwardedBy(s, steps[0], w);
      LastForwarded(Apply(s, steps[0]), steps[1..], w, if forwarded.Some? then forwarded.value else kind)
  }

  /** So it keeps the kind it was closed with exactly as long as nothing else is forwarded. */
  lemma {:induction false} DoneWrapperShowsTheLastForwarded(s: System, steps: seq<Step>, w: TaskId)
    requires WellFormed(s.db) && WinsHold(s) && w < |s.db.tasks| && s.db.tasks[w].Wrapper() && s.db.tasks[w].isDone
    ensures w < |Run(s, steps).db.tasks|
    ensures Run(s, steps).db.tasks[w].isDone && Run(s, steps).db.tasks[w].kind == LastForwarded(s, steps, w, s.db.tasks[w].kind)
    decreases |steps|
  {
    if steps != [] {
      DoneWrapperStep(s, steps[0], w);
      WellFormedStep(s, steps[0]);
      WinsHoldStep(s, steps[0]);
      DoneWrapperShowsTheLastForwarded(Apply(s, steps[0]), steps[1..], w);
    }
  }

  const WRAPPER_ROW := Task(0, None, None, Some(Implementation(false, Some(map[]))), false, STARTED, false, None)

  const CHILD_ROW := Task(0, Some(0), None, None, false, STARTED, false, None)

  lemma {:induction false} ChildEnds(db: Db, now: Time)
    requires db.tasks == [WRAPPER_ROW, CHILD_ROW]
    ensures Route(db, Completed(1), now).0.tasks == [Closed(WRAPPER_ROW, COMPLETED, now), Closed(CHILD_ROW, COMPLETED, now)]
  {
    TerminalReportKeepsItsKind(db, Completed(1), COMPLETED, None, now);
    assert WrapperOf(db.tasks, 1) == Some(0);
  }

  lemma {:induction false} ChildYieldsLate(db: Db, now: Time)
    requires db.tasks == [Closed(WRAPPER_ROW, COMPLETED, now), Closed(CHILD_ROW, COMPLETED, now)]
    ensures Route(db, Yield(1, None), now).0.tasks == [Closed(WRAPPER_ROW, COMPLETED, now).(kind := YIELD), Closed(CHILD_ROW, COMPLETED, now)]
  {
    var projected := YieldsAreProjected(db, 1, None, now);
    assert WrapperOf(db.tasks, 1) == Some(0);
  }

  /** A yield that arrives after the terminal report: the wrapper is done, and shows YIELD. */
  lemma {:induction false} DoneWrapperCanShowYield(now: Time) returns (steps: seq<Step>)
    ensures var s := Run(START, steps); |s.db.tasks| == 2 && s.db.tasks[0].isDone && s.db.tasks[0].kind == YIELD
  {
    var created := Apply(Apply(START, Create(WRAPPER_ROW)), Create(CHILD_ROW));
    assert created.db.tasks == [WRAPPER_ROW, CHILD_ROW];
    var ended := Apply(created, Deliver(Completed(1), now));
    ChildEnds(created.db, now);
    ChildYieldsLate(ended.db, now);
    var first, second := [Create(WRAPPER_ROW), Create(CHILD_ROW)], [Deliver(Completed(1), now), Deliver(Yield(1, None), now)];
    RunTwo(START, Create(WRAPPER_ROW), Create(CHILD_ROW));
    RunTwo(created, Deliver(Completed(1), now), Deliver(Yield(1, None), now));
    RunBoth(START, first, second);
    steps := first + second;
  }

  lemma {:induction false} RunTwo(s: System, a: Step, b: Step)
    ensures Run(s, [a, b]) == Apply(Apply(s, a), b)
  {
    assert [a, b][1..] == [b] && [b][1..] == [];
    assert Run(Apply(s, a), [b]) == Run(Apply(Apply(s, a), b), []);
  }

  // ------------------------------------------------------------------------------------------------------------
  // The wrapper mirrors its child
  // ------------------------------------------------------------------------------------------------------------

  datatype Image = Image(kind: EventKind, result: Option<Dict>, message: Option<string>)

  /** The events a wrapper received from one child, in order. */
  function MirrorOf(events: seq<Event>, wrapper: TaskId, child: TaskId): seq<Image> {
    if events == [] then []
    else
      var e := Last(events);
      MirrorOf(events[..|events| - 1], wrapper, child)
      + if e.task == wrapper && e.delegatedTo == Some(child) then [Image(e.kind, e.result, e.message)] else []
  }

  /** The yields and terminal reports of a child's agent, in order, as its wrapper should show them. */
  function ImagesOf(events: seq<Event>, child: TaskId, returnMap: map<string, string>): seq<Image> {
    if events == [] then []
    else
      var e := Last(events);
      ImagesOf(events[..|events| - 1], child, returnMap)
      + if e.task == child && e.origin.ByAgent? && (e.kind == YIELD || Terminal(e.kind))
        then [Image(e.kind, if e.kind == YIELD then ProjectReturns(returnMap, e.result) else None, e.message)] else []
  }

  ghost predicate Simulates(db: Db, wrapper: TaskId, child: TaskId)
    requires wrapper < |db.tasks| && db.tasks[wrapper].Wrapper()
  {
    MirrorOf(db.events, wrapper, child)
    == ImagesOf(db.events, child, db.tasks[wrapper].implementation.value.returnMap.value)
  }

  predicate Wraps(db: Db, wrapper: TaskId, child: TaskId) {
    && wrapper < |db.tasks| && child < |db.tasks|
    && db.tasks[wrapper].Wrapper() && db.tasks[child].parent == Some(wrapper)
  }

  lemma {:induction false} MirrorAppend(events: seq<Event>, more: seq<Event>, w: TaskId, c: TaskId)
    ensures MirrorOf(events + more, w, c) == MirrorOf(events, w, c) + MirrorOf(more, w, c)
  {
    if more == [] {
      assert events + more == events;
    } else {
      assert (events + more)[..|events + more| - 1] == events + more[..|more| - 1];
      MirrorAppend(events, more[..|more| - 1], w, c);
    }
  }

  lemma {:induction false} ImagesAppend(events: seq<Event>, more: seq<Event>, c: TaskId, m: map<string, string>)
    ensures ImagesOf(events + more, c, m) == ImagesOf(events, c, m) + ImagesOf(more, c, m)
  {
    if more == [] {
      assert events + more == events;
    } else {
      assert (events + more)[..|events + more| - 1] == events + more[..|more| - 1];
      ImagesAppend(events, more[..|more| - 1], c, m);
    }
  }

  /** Events that are neither the child's agent's nor forwarded from the child show up on neither side. */
  lemma {:induction false} Unrelated(events: seq<Event>, w: TaskId, c: TaskId, m: map<string, string>)
    requires forall i | 0 <= i < |events| ::
      && events[i].delegatedTo != Some(c)
      && (events[i].task != c || !events[i].origin.ByAgent? || (events[i].kind != YIELD && !Terminal(events[i].kind)))
    ensures MirrorOf(events, w, c) == [] && ImagesOf(events, c, m) == []
  {
    if events != [] {
      Unrelated(events[..|events| - 1], w, c, m);
    }
  }

  ghost predicate ForwardsTerminal(db: Db, i: nat, c: TaskId) {
    i < |db.events| && db.events[i].delegatedTo == Some(c) && Terminal(db.events[i].kind)
  }

  /** No child has two of its terminal reports forwarded. */
  ghost predicate ForwardedOnce(db: Db) {
    forall i: nat, j: nat, c: nat | ForwardsTerminal(db, i, c) && ForwardsTerminal(db, j, c) :: i == j
  }

  lemma {:induction false} ForwardedOnceReport(db: Db, report: Report, now: Time)
    requires WellFormed(db) && ForwardedOnce(db)
    ensures ForwardedOnce(Route(db, report, now).0)
  {
    var u := Route(db, report, now).0;
    ReportAppends(db, report, now);
    forall i: nat, c: nat | ForwardsTerminal(u, i, c)
      ensures ForwardsTerminal(db, i, c) || (i == |db.events| + 1 && c == report.task && !db.tasks[c].isDone)
    {
      assert i >= |db.events| ==> u.events[i] == ReportEvents(db, report)[i - |db.events|];
    }
    forall i: nat, c: nat | ForwardsTerminal(db, i, c)
      ensures c < |db.tasks| && db.tasks[c].isDone
    {
      assert EventWellFormed(db, db.events[i]);
    }
  }

  lemma {:induction false} ForwardedOnceStep(s: System, step: Step)
    requires WellFormed(s.db) && ForwardedOnce(s.db)
    ensures ForwardedOnce(Apply(s, step).db)
  {
    match step
    case Deliver(report, now) => ForwardedOnceReport(s.db, report, now);
    case _ =>
      var u := Apply(s, step);
      assert forall i: nat, c: nat :: ForwardsTerminal(u.db, i, c) <==> ForwardsTerminal(s.db, i, c);
  }

  lemma {:induction false} SimulatesMore(earlier: Db, later: Db, w: TaskId, c: TaskId, more: seq<Event>)
    requires Wraps(earlier, w, c) && Simulates(earlier, w, c) && RowsKept(earlier, later)
    requires later.events == earlier.events + more
    requires MirrorOf(more, w, c) == ImagesOf(more, c, earlier.tasks[w].implementation.value.returnMap.value)
    ensures Wraps(later, w, c) && Simulates(later, w, c)
  {
    MirrorAppend(earlier.events, more, w, c);
    ImagesAppend(earlier.events, more, c, earlier.tasks[w].implementation.value.returnMap.value);
  }

  /** A forwarded report and its mirror. */
  lemma {:induction false} PairSimulates(event: Event, mirror: Event, w: TaskId, c: TaskId, m: map<string, string>)
    requires w != c && event.task == c && event.origin.ByAgent? && event.delegatedTo.None?
    requires event.kind == YIELD || Terminal(event.kind)
    requires mirror.task == w && mirror.origin.Mirrored? && mirror.delegatedTo == Some(c)
    requires mirror.kind == event.kind && mirror.message == event.message
    requires mirror.result == if event.kind == YIELD then ProjectReturns(m, event.result) else None
    ensures MirrorOf([event, mirror], w, c) == ImagesOf([event, mirror], c, m)
  {
    assert [event, mirror][..1] == [event] && [event][..0] == [];
    assert MirrorOf([event], w, c) == [];
    assert ImagesOf([event, mirror], c, m) == ImagesOf([event], c, m);
  }

  lemma {:induction false} ReportSimulates(db: Db, report: Report, w: TaskId, c: TaskId)
    requires WellFormed(db) && Wraps(db, w, c)
    ensures var more := ReportEvents(db, report);
      MirrorOf(more, w, c) == ImagesOf(more, c, db.tasks[w].implementation.value.returnMap.value)
  {
    var more := ReportEvents(db, report);
    var returnMap := db.tasks[w].implementation.value.returnMap.value;
    if report.task == c && more != [] && Forwarded(report) {
      assert RowWellFormed(db.tasks[c], c) && WrapperOf(db.tasks, c) == Some(w);
      PairSimulates(report.AsEvent(), MirrorEvent(db.tasks, w, report), w, c, returnMap);
      assert more == [report.AsEvent(), MirrorEvent(db.tasks, w, report)];
    } else {
      Unrelated(more, w, c, returnMap);
    }
  }

  /** What every step but a report appends is neither an agent's nor forwarded. */
  lemma {:induction false} OthersAppend(s: System, step: Step) returns (more: seq<Event>)
    requires !step.Deliver?
    ensures Apply(s, step).db.events == s.db.events + more
    ensures forall i | 0 <= i < |more| :: !more[i].origin.ByAgent? && more[i].delegatedTo.None?
  {
    match step
    case SweepClaims(w, rebuilt, now) => more := [];
    case SweepLoads(w, agent) => more := [];
    case SweepPushes(w) => more := [];
    case SweepEmits(w) =>
      EmitSettlesIt(s, w);
      more := if Emitted(s, w) == s then [] else [SweepEvent(s.sweepers[w].stage.claim, s.db.won[s.sweepers[w].stage.claim])];
    case _ => more := WritersAppend(s, step);
  }

  lemma {:induction false} SimulatesStep(s: System, step: Step, w: TaskId, c: TaskId)
    requires WellFormed(s.db) && Wraps(s.db, w, c) && Simulates(s.db, w, c)
    ensures Wraps(Apply(s, step).db, w, c) && Simulates(Apply(s, step).db, w, c)
  {
    RowsKeptByStep(s, step);
    if step.Deliver? {
      ReportAppends(s.db, step.report, step.now);
      ReportSimulates(s.db, step.report, w, c);
      SimulatesMore(s.db, Apply(s, step).db, w, c, ReportEvents(s.db, step.report));
    } else {
      var more := OthersAppend(s, step);
      Unrelated(more, w, c, s.db.tasks[w].implementation.value.returnMap.value);
      SimulatesMore(s.db, Apply(s, step).db, w, c, more);
    }
  }

  /** A child just created has neither images nor a mirror. */
  lemma {:induction false} SimulatesFromTheStart(s: System, row: Task, w: TaskId)
    requires WellFormed(s.db) && Creatable(s.db, row)
    requires Wraps(Apply(s, Create(row)).db, w, |s.db.tasks|)
    ensures Simulates(Apply(s, Create(row)).db, w, |s.db.tasks|)
  {
    var u := Apply(s, Create(row));
    forall i | 0 <= i < |s.db.events|
      ensures s.db.events[i].delegatedTo != Some(|s.db.tasks|) && s.db.events[i].task != |s.db.tasks|
    {
      assert EventWellFormed(s.db, s.db.events[i]);
    }
    Unrelated(s.db.events, w, |s.db.tasks|, u.db.tasks[w].implementation.value.returnMap.value);
  }

  // ------------------------------------------------------------------------------------------------------------
  // Every run
  // ------------------------------------------------------------------------------------------------------------

  ghost predicate Inv(s: System) {
    && WellFormed(s.db) && Bookkept(s) && WinsHold(s) && WonKinds(s) && ForwardedOnce(s.db) && KindsAgree(s.db)
    && (forall t: nat | PlainTask(s, t) :: ClosedOnce(s, t))
    && (forall w: nat, c: nat | Wraps(s.db, w, c) :: Simulates(s.db, w, c))
  }

  lemma {:induction false} WonKindsStep(s: System, step: Step)
    requires WonKinds(s)
    ensures WonKinds(Apply(s, step))
  {
    if step.Deliver? {
      ReportAppends(s.db, step.report, step.now);
    }
  }

  lemma {:induction false} InvStep(s: System, step: Step)
    requires Inv(s)
    ensures Inv(Apply(s, step))
  {
    WellFormedStep(s, step);
    BookkeptStep(s, step);
    WinsHoldStep(s, step);
    WonKindsStep(s, step);
    ForwardedOnceStep(s, step);
    KindsAgreeStep(s, step);
    AllClosedOnceStep(s, step);
    AllSimulateStep(s, step);
  }

  lemma {:induction false} AllClosedOnceStep(s: System, step: Step)
    requires Inv(s)
    ensures forall t: nat | PlainTask(Apply(s, step), t) :: ClosedOnce(Apply(s, step), t)
  {
    RowsKeptByStep(s, step);
    forall t: nat | PlainTask(Apply(s, step), t)
      ensures ClosedOnce(Apply(s, step), t)
    {
      if t < |s.db.tasks| {
        ClosedOnceStep(s, step, t);
      } else {
        ClosedOnceCreate(s, step.row);
      }
    }
  }

  lemma {:induction false} AllSimulateStep(s: System, step: Step)
    requires Inv(s)
    ensures forall w: nat, c: nat | Wraps(Apply(s, step).db, w, c) :: Simulates(Apply(s, step).db, w, c)
  {
    RowsKeptByStep(s, step);
    WellFormedStep(s, step);
    forall w: nat, c: nat | Wraps(Apply(s, step).db, w, c)
      ensures Simulates(Apply(s, step).db, w, c)
    {
      if c < |s.db.tasks| {
        assert RowWellFormed(s.db.tasks[c], c);
        SimulatesStep(s, step, w, c);
      } else {
        SimulatesFromTheStart(s, step.row, w);
      }
    }
  }

  lemma {:induction false} InvRun(s: System, steps: seq<Step>)
    requires Inv(s)
    ensures Inv(Run(s, steps))
    decreases |steps|
  {
    if steps != [] {
      InvStep(s, steps[0]);
      InvRun(Apply(s, steps[0]), steps[1..]);
    }
  }

  lemma {:induction false} InvStart()
    ensures Inv(START)
  {
  }

  ghost predicate Quiet(s: System) {
    forall w | w in s.sweepers :: !s.sweepers[w].stage.Owing?
  }

  /** A finished task that is no wrapper: a finish time, and one terminal event, of the kind the row shows, which is only
      missing while the sweep that closed the task as critical still owes it. An unfinished one has none. */
  lemma {:induction false} FinishedTasksCloseOnce(steps: seq<Step>, t: TaskId)
    requires t < |Run(START, steps).db.tasks|
    ensures var s := Run(START, steps);
      && (s.db.tasks[t].isDone <==> s.db.tasks[t].finishedAt.Some?)
      && (!s.db.tasks[t].Wrapper() ==>
            && (s.db.tasks[t].isDone ==> Terminal(s.db.tasks[t].kind))
            && Terminals(s.db.events, t) + (if OwedCritical(s, t) then 1 else 0) == (if s.db.tasks[t].isDone then 1 else 0)
            && (OwedCritical(s, t) ==> s.db.tasks[t].kind == CRITICAL)
            && (forall i | 0 <= i < |s.db.events| && s.db.events[i].task == t && Terminal(s.db.events[i].kind) ::
                  s.db.tasks[t].isDone && s.db.tasks[t].kind == s.db.events[i].kind)
            && (Quiet(s) ==> Terminals(s.db.events, t) == if s.db.tasks[t].isDone then 1 else 0))
  {
    InvStart();
    InvRun(START, steps);
    var s := Run(START, steps);
    if !s.db.tasks[t].Wrapper() {
      assert ClosedOnce(s, t);
      if OwedCritical(s, t) {
        var k :| 0 <= k < |s.db.won| && s.db.won[k] == Won(t, CRITICAL) && k !in s.reported;
        assert WinAgrees(s.db, s.db.won[k]);
      }
      forall i | 0 <= i < |s.db.events| && s.db.events[i].task == t && Terminal(s.db.events[i].kind)
        ensures s.db.tasks[t].isDone && s.db.tasks[t].kind == s.db.events[i].kind
      {
        assert EventAgrees(s.db, s.db.events[i]);
      }
    }
  }

  /** However sweeps interleave: each event a sweep wrote reports exactly one won claim and agrees with it, no claim
      is reported twice, once no sweep owes an event every claim is reported, and no task is made CRITICAL twice. */
  lemma {:induction false} SweepEventsMatchWonClaims(steps: seq<Step>)
    ensures var s := Run(START, steps);
      && (forall i: nat, k: nat | Reports(s, i, k) ::
            k < |s.db.won| && s.db.events[i].task == s.db.won[k].task && s.db.events[i].kind == s.db.won[k].kind)
      && (forall i: nat, j: nat, k: nat | Reports(s, i, k) && Reports(s, j, k) :: i == j)
      && (Quiet(s) ==> forall k: nat | k < |s.db.won| :: HasReport(s, k))
      && (forall j, k | 0 <= j < k < |s.db.won| && s.db.won[j].kind == s.db.won[k].kind == CRITICAL :: s.db.won[j].task != s.db.won[k].task)
  {
    InvStart();
    InvRun(START, steps);
  }

  /** The yields and terminal reports of a child's agent, in order. */
  function ForwardableOf(events: seq<Event>, child: TaskId): seq<Event> {
    if events == [] then []
    else
      var e := Last(events);
      ForwardableOf(events[..|events| - 1], child) + if e.task == child && e.origin.ByAgent? && (e.kind == YIELD || Terminal(e.kind)) then [e] else []
  }

  /** How a wrapper should show an event of its child: a yield with its returns projected, anything else without returns. */
  predicate Shows(image: Image, e: Event, returnMap: map<string, string>) {
    && image.kind == e.kind && image.message == e.message
    && if e.kind == YIELD then IsProjection(returnMap, e.result, image.result) else image.result == None
  }

  lemma {:induction false} ImagesShow(events: seq<Event>, child: TaskId, returnMap: map<string, string>)
    ensures |ImagesOf(events, child, returnMap)| == |ForwardableOf(events, child)|
    ensures forall i | 0 <= i < |ImagesOf(events, child, returnMap)| ::
      Shows(ImagesOf(events, child, returnMap)[i], ForwardableOf(events, child)[i], returnMap)
  {
    if events != [] {
      ImagesShow(events[..|events| - 1], child, returnMap);
    }
  }

  /** The wrapper shows its child: event for event, in order, the projected yields and the terminal report of the
      child's agent; the terminal is forwarded at most once, and once forwarded the wrapper is done. */
  lemma {:induction false} WrapperSimulatesChild(steps: seq<Step>, w: TaskId, c: TaskId)
    requires Wraps(Run(START, steps).db, w, c)
    ensures var s := Run(START, steps);
      var shown, reported := MirrorOf(s.db.events, w, c), ForwardableOf(s.db.events, c);
      && |shown| == |reported|
      && (forall i | 0 <= i < |shown| :: Shows(shown[i], reported[i], s.db.tasks[w].implementation.value.returnMap.value))
      && (forall i | 0 <= i < |s.db.events| && s.db.events[i].task == w && s.db.events[i].delegatedTo == Some(c)
            && Terminal(s.db.events[i].kind) :: s.db.tasks[w].isDone)
      && (forall i: nat, j: nat | ForwardsTerminal(s.db, i, c) && ForwardsTerminal(s.db, j, c) :: i == j)
  {
    InvStart();
    InvRun(START, steps);
    var s := Run(START, steps);
    assert Simulates(s.db, w, c);
    ImagesShow(s.db.events, c, s.db.tasks[w].implementation.value.returnMap.value);
    forall i | 0 <= i < |s.db.events| && s.db.events[i].delegatedTo == Some(c) && Terminal(s.db.events[i].kind)
      ensures s.db.tasks[s.db.events[i].task].isDone
    {
      assert EventWellFormed(s.db, s.db.events[i]);
    }
  }

  // ------------------------------------------------------------------------------------------------------------
  // Resent terminal reports
  // ------------------------------------------------------------------------------------------------------------

  /** The run without the terminal reports on tasks in `closed`, and on tasks that get a terminal report on the way. */
  function WithoutResends(s: System, steps: seq<Step>, closed: set<TaskId>): seq<Step>
    decreases |steps|
  {
    if steps == [] then []
    else
      var terminal := steps[0].Deliver? && steps[0].report.IsTerminal();
      if terminal && steps[0].report.task in closed then WithoutResends(Apply(s, steps[0]), steps[1..], closed)
      else
        [steps[0]]
        + WithoutResends(Apply(s, steps[0]), steps[1..],
                         closed + if terminal && steps[0].report.task < |s.db.tasks| then {steps[0].report.task} else {})
  }

  lemma {:induction false} TerminalReportCloses(db: Db, report: Report, now: Time)
    requires report.IsTerminal() && report.task < |db.tasks|
    ensures Route(db, report, now).0.tasks[report.task].isDone && Route(db, report, now).1 == Ack
    ensures db.tasks[report.task].isDone ==> Route(db, report, now).0 == db
  {
  }

  /** Dropping every resent terminal report from a run gives the same system. */
  lemma {:induction false} ResendsChangeNothing(s: System, steps: seq<Step>, closed: set<TaskId>)
    requires forall t | t in closed :: t < |s.db.tasks| && s.db.tasks[t].isDone
    ensures Run(s, WithoutResends(s, steps, closed)) == Run(s, steps)
    decreases |steps|
  {
    if steps != [] {
      RowsKeptByStep(s, steps[0]);
      var terminal := steps[0].Deliver? && steps[0].report.IsTerminal();
      if terminal && steps[0].report.task < |s.db.tasks| {
        TerminalReportCloses(s.db, steps[0].report, steps[0].now);
      }
      if terminal && steps[0].report.task in closed {
        ResendsChangeNothing(Apply(s, steps[0]), steps[1..], closed);
      } else {
        var closed' := closed + if terminal && steps[0].report.task < |s.db.tasks| then {steps[0].report.task} else {};
        ResendsChangeNothing(Apply(s, steps[0]), steps[1..], closed');
        var rest := WithoutResends(Apply(s, steps[0]), steps[1..], closed');
        assert ([steps[0]] + rest)[1..] == rest;
      }
    }
  }

  /** The replies along a run: what the agent gets back for the report at each step. */
  function ReplyTo(s: System, report: Report, now: Time): Reply {
    Route(s.db, report, now).1
  }

  /** After a terminal report on a known task, every later terminal report on it is still acknowledged. */
  lemma {:induction false} ResendsAreAcked(s: System, first: Report, now: Time, steps: seq<Step>, again: Report, later: Time)
    requires first.IsTerminal() && again.IsTerminal() && first.task == again.task < |s.db.tasks|
    ensures var t := Run(Apply(s, Deliver(first, now)), steps);
      ReplyTo(t, again, later) == Ack && Apply(t, Deliver(again, later)) == t
  {
    var closed := Apply(s, Deliver(first, now));
    TerminalReportCloses(s.db, first, now);
    RowsKeptByStep(s, Deliver(first, now));
    RowsKeptByRun(closed, steps);
    TerminalReportCloses(Run(closed, steps).db, again, later);
  }

  // ------------------------------------------------------------------------------------------------------------
  // Sweeps never repeat themselves
  // ------------------------------------------------------------------------------------------------------------

  /** Two won claims on one task with no write of its row between them differ in kind. */
  lemma {:induction false} SuccessiveWinsDiffer(s: System, v: nat, w: nat, rebuilt: bool, rebuilt': bool, now: Time,
        later: Time, between: seq<Step>)
    requires var t := Apply(s, SweepClaims(v, rebuilt, now));
      var u := Run(t, between);
      && |t.db.won| > |s.db.won| && |Apply(u, SweepClaims(w, rebuilt', later)).db.won| > |u.db.won|
      && Last(Apply(u, SweepClaims(w, rebuilt', later)).db.won).task == Last(t.db.won).task
      && Last(t.db.won).task < |t.db.tasks| <= |u.db.tasks| && u.db.tasks[Last(t.db.won).task] == t.db.tasks[Last(t.db.won).task]
    ensures var u := Run(Apply(s, SweepClaims(v, rebuilt, now)), between);
      Last(Apply(u, SweepClaims(w, rebuilt', later)).db.won).kind != Last(Apply(s, SweepClaims(v, rebuilt, now)).db.won).kind
  {
  }

  /** One candidate of a sweep that nothing interrupts: claim, event and push, each skipped when nothing is owed. */
  function CandidateSteps(w: nat, rebuilt: bool, now: Time): seq<Step> {
    [SweepClaims(w, rebuilt, now), SweepEmits(w), SweepPushes(w)]
  }

  lemma {:induction false} SettledThenPushed(s: System, w: nat, claim: nat)
    requires w in s.sweepers && s.sweepers[w].stage == Owing(claim) && claim < |s.db.won| && s.db.won[claim].task < |s.db.tasks|
    ensures var t, won := Pushed(Emitted(s, w), w), s.db.won[claim];
      && t.db.tasks == s.db.tasks && t.db.won == s.db.won && t.db.events == s.db.events + [SweepEvent(claim, won)]
      && t.db.outbox == s.db.outbox + (if won.kind == QUEUED then [Assign(s.db.tasks[won.task].agent, won.task)] else [])
      && w in t.sweepers && t.sweepers[w] == Sweeper(s.sweepers[w].todo, Choosing)
  {
  }

  /** Trying one candidate: nothing happens, or one claim is won and owed. */
  lemma {:induction false} TryOne(s: System, w: nat, rebuilt: bool, now: Time)
    requires w in s.sweepers && s.sweepers[w].stage == Choosing && s.sweepers[w].todo != []
    requires s.sweepers[w].todo[0].task < |s.db.tasks|
    ensures var candidate, t := s.sweepers[w].todo[0], Tried(s, w, rebuilt, now);
      var task := s.db.tasks[candidate.task];
      var target := SweepTarget(task, candidate.kindRead, rebuilt);
      && w in t.sweepers && t.sweepers[w].todo == s.sweepers[w].todo[1..]
      && match SweepClaim(task, target, now)
         case None => t.db == s.db && t.sweepers[w].stage == Choosing
         case Some(claimed) =>
           && t.db == s.db.Save(candidate.task, claimed).(won := s.db.won + [Won(candidate.task, target)])
           && t.sweepers[w].stage == Owing(|s.db.won|)
  {
  }

  lemma {:induction false} CandidateIsARun(s: System, w: nat, rebuilt: bool, now: Time)
    requires w in s.sweepers && s.sweepers[w].stage == Choosing && s.sweepers[w].todo != []
    requires s.sweepers[w].todo[0].task < |s.db.tasks|
    ensures var t := Pushed(Emitted(Tried(s, w, rebuilt, now), w), w);
      && t.db == ReconcileOne(s.db, s.sweepers[w].todo[0], rebuilt, now)
      && w in t.sweepers && t.sweepers[w] == Sweeper(s.sweepers[w].todo[1..], Choosing)
  {
    TryOne(s, w, rebuilt, now);
    var tried := Tried(s, w, rebuilt, now);
    if tried.sweepers[w].stage.Owing? {
      assert tried.db.won[|s.db.won|] == Last(tried.db.won);
      SettledThenPushed(tried, w, |s.db.won|);
    }
  }

  /** The three steps of a candidate, ahead of the rest. */
  lemma {:induction false} CandidateThenRest(s: System, w: nat, rebuilt: bool, now: Time, rest: seq<Step>) returns (t: System)
    requires w in s.sweepers && s.sweepers[w].stage == Choosing && s.sweepers[w].todo != []
    requires s.sweepers[w].todo[0].task < |s.db.tasks|
    ensures Run(s, CandidateSteps(w, rebuilt, now) + rest) == Run(t, rest)
    ensures t.db == ReconcileOne(s.db, s.sweepers[w].todo[0], rebuilt, now)
    ensures w in t.sweepers && t.sweepers[w] == Sweeper(s.sweepers[w].todo[1..], Choosing)
  {
    t := Pushed(Emitted(Tried(s, w, rebuilt, now), w), w);
    CandidateIsARun(s, w, rebuilt, now);
    RunThree(s, SweepClaims(w, rebuilt, now), SweepEmits(w), SweepPushes(w), rest);
  }

  lemma {:induction false} RunThree(s: System, a: Step, b: Step, c: Step, rest: seq<Step>)
    ensures Run(s, [a, b, c] + rest) == Run(Apply(Apply(Apply(s, a), b), c), rest)
  {
    var x := Apply(s, a);
    var y := Apply(x, b);
    assert ([c] + rest)[1..] == rest;
    assert Run(y, [c] + rest) == Run(Apply(y, c), rest);
    assert ([b, c] + rest)[1..] == [c] + rest;
    assert Run(x, [b, c] + rest) == Run(y, [c] + rest);
    assert ([a, b, c] + rest)[1..] == [b, c] + rest;
  }

  lemma {:induction false} RunBoth(s: System, a: seq<Step>, b: seq<Step>)
    ensures Run(s, a + b) == Run(Run(s, a), b)
    decreases |a|
  {
    if a == [] {
      assert a + b == b;
    } else {
      assert (a + b)[1..] == a[1..] + b;
      RunBoth(Apply(s, a[0]), a[1..], b);
    }
  }

  /** A sweep over loaded candidates that nothing interrupts, as steps. */
  function SweepSteps(w: nat, todo: seq<Candidate>, rebuilds: set<TaskId>, now: Time): seq<Step>
    decreases |todo|
  {
    if todo == [] then []
    else CandidateSteps(w, todo[0].task in rebuilds, now) + SweepSteps(w, todo[1..], rebuilds, now)
  }

  lemma {:induction false} CascadeIsARun(s: System, w: nat, todo: seq<Candidate>, rebuilds: set<TaskId>, now: Time)
    requires w in s.sweepers && s.sweepers[w] == Sweeper(todo, Choosing)
    requires forall i | 0 <= i < |todo| :: todo[i].task < |s.db.tasks|
    ensures var t := Run(s, SweepSteps(w, todo, rebuilds, now));
      t.db == Cascade(s.db, todo, rebuilds, now) && w in t.sweepers && t.sweepers[w] == Sweeper([], Choosing)
    decreases |todo|
  {
    if todo != [] {
      var t := CandidateThenRest(s, w, todo[0].task in rebuilds, now, SweepSteps(w, todo[1..], rebuilds, now));
      CascadeIsARun(t, w, todo[1..], rebuilds, now);
    }
  }

  predicate Idle(s: System, w: nat) {
    w in s.sweepers ==> s.sweepers[w] == Sweeper([], Choosing)
  }

  /** The steps of one uninterrupted pass over an agent: load, then every candidate. */
  function PassSteps(tasks: seq<Task>, w: nat, agent: AgentId, rebuilds: set<TaskId>, now: Time): seq<Step> {
    [SweepLoads(w, agent)] + SweepSteps(w, InFlight(tasks, agent, 0), rebuilds, now)
  }

  /** The sequential sweep is one of the interleavings: a pass that nothing interrupts is a run, so every law about
      runs holds of what reconnects, grace timers and the command do. */
  lemma {:induction false} UninterruptedSweepIsARun(s: System, w: nat, agent: AgentId, rebuilds: set<TaskId>, now: Time)
    requires Idle(s, w)
    ensures var t := Run(s, PassSteps(s.db.tasks, w, agent, rebuilds, now));
      t.db == Reconnect.Pass(s.db, agent, rebuilds, now) && Idle(t, w)
  {
    var todo := InFlight(s.db.tasks, agent, 0);
    var steps := SweepSteps(w, todo, rebuilds, now);
    CascadeIsARun(Apply(s, SweepLoads(w, agent)), w, todo, rebuilds, now);
    assert ([SweepLoads(w, agent)] + steps)[1..] == steps;
  }

  /** So are any number of passes in a row. */
  lemma {:induction false} PassesAreARun(s: System, w: nat, agent: AgentId, rebuilds: set<TaskId>, now: Time,
        n: nat) returns (steps: seq<Step>)
    requires Idle(s, w)
    ensures Run(s, steps).db == Reconnect.Passes(s.db, agent, rebuilds, now, n) && Idle(Run(s, steps), w)
  {
    if n == 0 {
      return [];
    }
    var before := PassesAreARun(s, w, agent, rebuilds, now, n - 1);
    var last := PassSteps(Run(s, before).db.tasks, w, agent, rebuilds, now);
    UninterruptedSweepIsARun(Run(s, before), w, agent, rebuilds, now);
    RunBoth(s, before, last);
    return before + last;
  }
}
