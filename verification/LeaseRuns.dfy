/** Runs of the lease protocol: any number of connections and sweepers over one agent row, on one clock. */
module LeaseRuns {
  import opened Common
  import opened Liveness
  import opened Lease
  import opened RegisteredSessions

  /** History: every won change of the epoch, in order. */
  datatype Bump =
    | Claim(connection: ConnectionId, session: Option<SessionId>, at: Time, forced: bool)
    | Revoke(at: Time)

  /** History: every renewal that matched the row. */
  datatype Renewal = Renewal(connection: ConnectionId, epoch: nat, stamp: Time)

  datatype System = System(
    now: Time,
    row: AgentRow,
    sessions: map<ConnectionId, Session>,
    bumps: seq<Bump>,
    renewals: seq<Renewal>)

  /** `Tick` lets time pass but never past a timer that is due: timers fire on time. `Register` is the locked
      gate-and-claim, `RenewalLands` the conditional update, `Sweep` one worker's locked re-check and revoke,
      `Disconnected` the release at the end of a shutdown. A kick is a `Close` that may come at any later time. */
  datatype Step =
    | Tick(elapsed: Time)
    | Register(connection: ConnectionId, session: Option<SessionId>, force: bool)
    | SpawnLoops(connection: ConnectionId)
    | Beat(connection: ConnectionId)
    | HeartbeatArrives(connection: ConnectionId)
    | RenewalLands(connection: ConnectionId)
    | AnswerTimesOut(connection: ConnectionId)
    | Close(connection: ConnectionId)
    | Disconnected(connection: ConnectionId)
    | Sweep

  ghost predicate Enabled(timing: Timing, s: System, step: Step) {
    match step
    case Tick(elapsed) => elapsed >= 0.0 && forall c | c in s.sessions :: s.sessions[c].Punctual(timing, s.now + elapsed)
    case Register(c, _, _) => c !in s.sessions
    case SpawnLoops(c) => c in s.sessions && s.sessions[c].phase.Starting?
    case Beat(c) => c in s.sessions && s.sessions[c].phase.Sleeping? && s.now >= s.sessions[c].phase.wake
    // Frames of one connection are handled one at a time, so no renewal is in flight.
    case HeartbeatArrives(c) => c in s.sessions && !s.sessions[c].phase.Starting? && s.sessions[c].renewal.None?
    case RenewalLands(c) => c in s.sessions && s.sessions[c].renewal.Some?
    case AnswerTimesOut(c) => c in s.sessions && s.sessions[c].phase.Awaiting? && s.now >= s.sessions[c].phase.due
    case Close(c) => c in s.sessions && !s.sessions[c].phase.Starting? && s.sessions[c].renewal.None?
    case Disconnected(c) => c in s.sessions && s.sessions[c].phase.Stopped? && !s.sessions[c].listening
    case Sweep => true
  }

  function WithSession(s: System, c: ConnectionId, session: Session): System {
    s.(sessions := s.sessions[c := session])
  }

  ghost function Apply(timing: Timing, s: System, step: Step): System
    requires Enabled(timing, s, step)
  {
    match step
    case Tick(elapsed) => s.(now := s.now + elapsed)
    case Register(c, session, force) =>
      if !s.row.Claimable(force, s.now, timing.staleAfter) then s
      else
        WithSession(s, c, Session(s.row.leaseEpoch + 1, Starting(s.now + timing.setup), false, None))
        .(row := s.row.Claimed(Some(c), session, s.now), bumps := s.bumps + [Claim(c, session, s.now, force)])
    case SpawnLoops(c) => WithSession(s, c, s.sessions[c].Spawned(timing, s.now))
    case Beat(c) => WithSession(s, c, s.sessions[c].Woken(timing, s.now))
    case HeartbeatArrives(c) => WithSession(s, c, s.sessions[c].Answered(timing, s.now))
    case RenewalLands(c) =>
      var session := s.sessions[c];
      var renewed := s.row.leaseEpoch == session.epoch;
      WithSession(s, c, session.RenewalReturned(renewed))
      .(row := s.row.Renewed(session.epoch, session.renewal.value),
        renewals := if renewed then s.renewals + [Renewal(c, session.epoch, session.renewal.value)] else s.renewals)
    case AnswerTimesOut(c) => WithSession(s, c, s.sessions[c].TimedOut())
    case Close(c) => WithSession(s, c, s.sessions[c].ShutDown())
    case Disconnected(c) => s.(row := s.row.Released(Some(c), s.now))
    case Sweep =>
      if !s.row.Stale(s.now, timing.staleAfter) then s
      else s.(row := s.row.Revoked(), bumps := s.bumps + [Revoke(s.now)])
  }

  const START := System(0.0, NEW_AGENT, map[], [], [])

  /** The state after a run, or None when some step of it is not enabled. */
  ghost function After(timing: Timing, steps: seq<Step>): Option<System> {
    if steps == [] then Some(START)
    else
      match After(timing, steps[..|steps| - 1])
      case None => None
      case Some(s) => if Enabled(timing, s, Last(steps)) then Some(Apply(timing, s, Last(steps))) else None
  }

  predicate Unforced(steps: seq<Step>) {
    forall i | 0 <= i < |steps| :: steps[i].Register? ==> !steps[i].force
  }

  ghost predicate Draining(s: System, c: ConnectionId) {
    c in s.sessions && s.sessions[c].listening
  }

  ghost predicate AtMostOneDrains(s: System) {
    forall c, d | Draining(s, c) && Draining(s, d) :: c == d
  }

  // ------------------------------------------------------------------------------------------------------------
  // The invariant of every run, forced or not
  // ------------------------------------------------------------------------------------------------------------

  predicate Active(session: Session) {
    session.listening || session.phase.Starting?
  }

  /** How far the timers reach beyond `base`: the last renewal for the holder, the moment of displacement for a
      connection that lost the epoch. */
  predicate Bounded(timing: Timing, session: Session, base: Time) {
    match session.renewal
    case None =>
      (match session.phase
       case Starting(ready) => ready <= base + timing.setup
       case Sleeping(wake) => wake <= base + timing.setup + timing.interval
       case Awaiting(due) => due <= base + timing.setup + timing.interval + timing.timeout
       case Stopped => true)
    case Some(stamp) => stamp <= base + timing.setup + timing.interval + timing.timeout
  }

  /** The session's timers as seen from the clock, and from a renewal in flight. */
  predicate TimersOk(timing: Timing, now: Time, session: Session) {
    && session.Punctual(timing, now)
    && (session.listening ==> session.phase.Sleeping? || session.phase.Awaiting?)
    && (match session.phase
        case Starting(ready) => ready <= now + timing.setup && !session.listening && session.renewal.None?
        case Sleeping(wake) =>
          wake <= now + timing.interval && (session.renewal.Some? ==> wake <= session.renewal.value + timing.interval)
        case Awaiting(due) =>
          due <= now + timing.timeout
          && (session.renewal.Some? ==> due <= session.renewal.value + timing.interval + timing.timeout)
        case Stopped => true)
    && (session.renewal.Some? ==> session.renewal.value <= now)
  }

  ghost predicate SessionOk(timing: Timing, s: System, c: ConnectionId)
    requires c in s.sessions
  {
    var session := s.sessions[c];
    && 1 <= session.epoch <= |s.bumps|
    && s.bumps[session.epoch - 1].Claim?
    && s.bumps[session.epoch - 1].connection == c
    && TimersOk(timing, s.now, session)
    && (Active(session) ==>
          if session.epoch == |s.bumps|
          then s.row.connected && s.row.lastSeen.Some? && Bounded(timing, session, s.row.lastSeen.value)
          else Bounded(timing, session, s.bumps[session.epoch].at))
  }

  ghost predicate RowOk(s: System) {
    && s.row.leaseEpoch == |s.bumps|
    && (s.row.lastSeen.Some? ==> s.row.lastSeen.value <= s.now)
    && (s.row.connected ==>
          && |s.bumps| > 0 && Last(s.bumps).Claim?
          && s.row.activeConnection == Some(Last(s.bumps).connection)
          && s.row.lastSeen.Some?
          && SeenByHolder(s))
  }

  /** `lastSeen` is the claim time of the current epoch, or the stamp of a renewal that matched it. */
  ghost predicate SeenByHolder(s: System)
    requires |s.bumps| > 0 && Last(s.bumps).Claim? && s.row.lastSeen.Some?
  {
    var holder := Last(s.bumps);
    s.row.lastSeen.value == holder.at || Renewal(holder.connection, s.row.leaseEpoch, s.row.lastSeen.value) in s.renewals
  }

  /** Sweeps and claims alternate: no revoke directly follows a revoke, nor starts the history. */
  ghost predicate RevokesSeparated(bumps: seq<Bump>) {
    forall i | 0 <= i < |bumps| && bumps[i].Revoke? :: i > 0 && bumps[i - 1].Claim?
  }

  ghost predicate Inv(timing: Timing, s: System) {
    && RowOk(s)
    && RevokesSeparated(s.bumps)
    && (forall c | c in s.sessions :: SessionOk(timing, s, c))
  }

  lemma {:induction false} RowStep(timing: Timing, s: System, step: Step)
    requires timing.Valid() && Inv(timing, s) && Enabled(timing, s, step)
    ensures RowOk(Apply(timing, s, step)) && RevokesSeparated(Apply(timing, s, step).bumps)
  {
    match step
    case Register(_, _, _) =>
    case RenewalLands(c) => assert SessionOk(timing, s, c);
    case Sweep =>
    case Disconnected(_) =>
    case _ =>
  }

  /** The session a registration creates. */
  lemma {:induction false} OwnClaim(timing: Timing, s: System, step: Step)
    requires timing.Valid() && RowOk(s) && step.Register? && Enabled(timing, s, step)
    requires step.connection in Apply(timing, s, step).sessions
    ensures SessionOk(timing, Apply(timing, s, step), step.connection)
  {
  }

  /** A session whose renewal lands. */
  lemma {:induction false} OwnRenewal(timing: Timing, s: System, c: ConnectionId)
    requires timing.Valid() && RowOk(s) && Enabled(timing, s, RenewalLands(c)) && SessionOk(timing, s, c)
    ensures SessionOk(timing, Apply(timing, s, RenewalLands(c)), c)
  {
  }

  /** A session whose release lands. */
  lemma {:induction false} OwnRelease(timing: Timing, s: System, c: ConnectionId)
    requires Enabled(timing, s, Disconnected(c)) && SessionOk(timing, s, c)
    ensures SessionOk(timing, Apply(timing, s, Disconnected(c)), c)
  {
  }

  /** A session one of whose timers fires, or that gets a frame or a close. */
  lemma {:induction false} OwnTimer(timing: Timing, s: System, step: Step)
    requires timing.Valid() && RowOk(s) && Enabled(timing, s, step)
    requires step.SpawnLoops? || step.Beat? || step.HeartbeatArrives? || step.AnswerTimesOut? || step.Close?
    requires SessionOk(timing, s, step.connection)
    ensures SessionOk(timing, Apply(timing, s, step), step.connection)
  {
  }

  /** The session a step acts on. */
  lemma {:induction false} OwnSessionStep(timing: Timing, s: System, step: Step)
    requires timing.Valid() && Inv(timing, s) && Enabled(timing, s, step)
    requires !step.Tick? && !step.Sweep?
    requires step.connection in Apply(timing, s, step).sessions
    ensures SessionOk(timing, Apply(timing, s, step), step.connection)
  {
    match step
    case Register(_, _, _) => OwnClaim(timing, s, step);
    case RenewalLands(c) => OwnRenewal(timing, s, c);
    case Disconnected(c) => OwnRelease(timing, s, c);
    case _ => OwnTimer(timing, s, step);
  }

  /** Every other session: only the clock and the row can have moved under it. */
  lemma {:induction false} OtherSessionStep(timing: Timing, s: System, step: Step, c: ConnectionId)
    requires timing.Valid() && Inv(timing, s) && Enabled(timing, s, step)
    requires c in s.sessions
    requires step.Tick? || step.Sweep? || step.connection != c
    ensures SessionOk(timing, Apply(timing, s, step), c)
  {
    assert SessionOk(timing, s, c);
    match step
    case Tick(_) =>
    case Register(_, _, _) =>
    case RenewalLands(d) => assert SessionOk(timing, s, d);
    case Disconnected(d) => assert SessionOk(timing, s, d);
    case Sweep =>
    case _ =>
  }

  lemma {:induction false} InvStep(timing: Timing, s: System, step: Step)
    requires timing.Valid() && Inv(timing, s) && Enabled(timing, s, step)
    ensures Inv(timing, Apply(timing, s, step))
  {
    RowStep(timing, s, step);
    forall c | c in Apply(timing, s, step).sessions
      ensures SessionOk(timing, Apply(timing, s, step), c)
    {
      if step.Tick? || step.Sweep? || step.connection != c {
        OtherSessionStep(timing, s, step, c);
      } else {
        OwnSessionStep(timing, s, step);
      }
    }
  }

  lemma {:induction false} InvRun(timing: Timing, steps: seq<Step>)
    requires timing.Valid() && After(timing, steps).Some?
    ensures Inv(timing, After(timing, steps).value)
  {
    if steps != [] {
      InvRun(timing, steps[..|steps| - 1]);
      InvStep(timing, After(timing, steps[..|steps| - 1]).value, Last(steps));
    }
  }

  // ------------------------------------------------------------------------------------------------------------
  // Mutual exclusion
  // ------------------------------------------------------------------------------------------------------------

  /** A connection that may still execute holds a row every other worker sees as live. */
  lemma {:induction false} HolderIsLive(timing: Timing, s: System, c: ConnectionId)
    requires timing.Valid() && timing.Horizon() < timing.staleAfter && Inv(timing, s)
    requires c in s.sessions && Active(s.sessions[c]) && s.sessions[c].epoch == s.row.leaseEpoch
    ensures s.row.Live(s.now, timing.staleAfter)
  {
    assert SessionOk(timing, s, c);
  }

  ghost predicate OnlyHoldersActive(s: System) {
    forall c | c in s.sessions && Active(s.sessions[c]) :: s.sessions[c].epoch == s.row.leaseEpoch
  }

  lemma {:induction false} HoldersStep(timing: Timing, s: System, step: Step)
    requires timing.Valid() && timing.Horizon() < timing.staleAfter
    requires Inv(timing, s) && OnlyHoldersActive(s) && Enabled(timing, s, step)
    requires step.Register? ==> !step.force
    ensures OnlyHoldersActive(Apply(timing, s, step))
  {
    var t := Apply(timing, s, step);
    forall c | c in t.sessions && Active(t.sessions[c])
      ensures t.sessions[c].epoch == t.row.leaseEpoch
    {
      if c in s.sessions && Active(s.sessions[c]) {
        HolderIsLive(timing, s, c);
      }
    }
  }

  lemma {:induction false} HoldersRun(timing: Timing, steps: seq<Step>)
    requires timing.Valid() && timing.Horizon() < timing.staleAfter
    requires Unforced(steps) && After(timing, steps).Some?
    ensures OnlyHoldersActive(After(timing, steps).value)
  {
    if steps != [] {
      var earlier := steps[..|steps| - 1];
      HoldersRun(timing, earlier);
      InvRun(timing, earlier);
      HoldersStep(timing, After(timing, earlier).value, Last(steps));
    }
  }

  lemma {:induction false} MutualExclusion(timing: Timing, steps: seq<Step>)
    requires timing.Valid() && timing.Horizon() < timing.staleAfter
    requires Unforced(steps) && After(timing, steps).Some?
    ensures AtMostOneDrains(After(timing, steps).value)
  {
    InvRun(timing, steps);
    HoldersRun(timing, steps);
    var s := After(timing, steps).value;
    forall c, d | Draining(s, c) && Draining(s, d)
      ensures c == d
    {
      assert SessionOk(timing, s, c) && SessionOk(timing, s, d);
    }
  }

  /** An unforced claim is won only when nobody drains and nobody is about to: the previous lease was released
      after its loops were cancelled, or it expired later than its heartbeat loop stopped it. */
  lemma {:induction false} UnforcedClaimFindsNobodyDraining(timing: Timing, steps: seq<Step>)
    requires timing.Valid() && timing.Horizon() < timing.staleAfter
    requires Unforced(steps) && After(timing, steps).Some?
    ensures var s := After(timing, steps).value;
      s.row.Claimable(false, s.now, timing.staleAfter) ==> forall c | c in s.sessions :: !Active(s.sessions[c])
  {
    var s := After(timing, steps).value;
    InvRun(timing, steps);
    HoldersRun(timing, steps);
    forall c | c in s.sessions && Active(s.sessions[c])
      ensures s.row.Live(s.now, timing.staleAfter)
    {
      HolderIsLive(timing, s, c);
    }
  }

  lemma {:induction false} OneMore(timing: Timing, steps: seq<Step>, step: Step)
    requires After(timing, steps).Some? && Enabled(timing, After(timing, steps).value, step)
    ensures After(timing, steps + [step]) == Some(Apply(timing, After(timing, steps).value, step))
  {
    assert (steps + [step])[..|steps + [step]| - 1] == steps;
  }

  /** With a window no longer than the horizon: connection 0 answers its first heartbeat at the last moment, the
      renewal is slow, and connection 1 takes the stale lease before the renewal lands. */
  lemma {:induction false} TwoDrainWhenTheWindowIsShort(timing: Timing) returns (steps: seq<Step>)
    requires timing.Valid() && timing.Horizon() >= timing.staleAfter
    ensures Unforced(steps) && After(timing, steps).Some? && !AtMostOneDrains(After(timing, steps).value)
  {
    steps := SlowRenewal(timing);
    var s := After(timing, steps).value;
    OneMore(timing, steps, Register(1, None, false));
    steps := steps + [Register(1, None, false)];
    OneMore(timing, steps, SpawnLoops(1));
    steps := steps + [SpawnLoops(1)];
    s := After(timing, steps).value;
    assert Draining(s, 0) && Draining(s, 1);
  }

  /** Connection 0 alone, having claimed epoch 1 at time 0 and never renewed. */
  function Alone(now: Time, phase: Phase, listening: bool, renewal: Option<Time>): System {
    System(now, AgentRow(true, Some(0.0), 1, Some(0), None), map[0 := Session(1, phase, listening, renewal)],
           [Claim(0, None, 0.0, false)], [])
  }

  lemma {:induction false} AloneUpdated(s: System, phase: Phase, listening: bool, renewal: Option<Time>)
    requires 0 in s.sessions && s == Alone(s.now, s.sessions[0].phase, s.sessions[0].listening, s.sessions[0].renewal)
    ensures WithSession(s, 0, Session(1, phase, listening, renewal)) == Alone(s.now, phase, listening, renewal)
  {
    assert s.sessions[0 := Session(1, phase, listening, renewal)] == map[0 := Session(1, phase, listening, renewal)];
  }

  lemma {:induction false} ReachClaim(timing: Timing) returns (steps: seq<Step>)
    requires timing.Valid()
    ensures Unforced(steps) && After(timing, steps) == Some(Alone(0.0, Starting(timing.setup), false, None))
  {
    OneMore(timing, [], Register(0, None, false));
    steps := [Register(0, None, false)];
    assert [] + steps == steps;
    assert START.bumps + [Claim(0, None, 0.0, false)] == [Claim(0, None, 0.0, false)];
    assert START.sessions[0 := Session(1, Starting(timing.setup), false, None)] == map[0 := Session(1, Starting(timing.setup), false, None)];
  }

  lemma {:induction false} ReachLoops(timing: Timing) returns (steps: seq<Step>)
    requires timing.Valid()
    ensures Unforced(steps)
    ensures After(timing, steps) == Some(Alone(timing.setup, Sleeping(timing.setup + timing.interval), true, None))
  {
    steps := ReachClaim(timing);
    OneMore(timing, steps, Tick(timing.setup));
    steps := steps + [Tick(timing.setup)];
    assert After(timing, steps) == Some(Alone(timing.setup, Starting(timing.setup), false, None));
    OneMore(timing, steps, SpawnLoops(0));
    AloneUpdated(After(timing, steps).value, Sleeping(timing.setup + timing.interval), true, None);
    steps := steps + [SpawnLoops(0)];
  }

  lemma {:induction false} ReachFirstBeat(timing: Timing) returns (steps: seq<Step>)
    requires timing.Valid()
    ensures Unforced(steps)
    ensures var beat := timing.setup + timing.interval;
      After(timing, steps) == Some(Alone(beat, Awaiting(beat + timing.timeout), true, None))
  {
    var beat := timing.setup + timing.interval;
    steps := ReachLoops(timing);
    OneMore(timing, steps, Tick(timing.interval));
    steps := steps + [Tick(timing.interval)];
    assert After(timing, steps) == Some(Alone(beat, Sleeping(beat), true, None));
    OneMore(timing, steps, Beat(0));
    AloneUpdated(After(timing, steps).value, Awaiting(beat + timing.timeout), true, None);
    steps := steps + [Beat(0)];
  }

  lemma {:induction false} ReachLateAnswer(timing: Timing) returns (steps: seq<Step>)
    requires timing.Valid()
    ensures Unforced(steps)
    ensures var answer := timing.setup + timing.interval + timing.timeout;
      After(timing, steps) == Some(Alone(answer, Sleeping(answer + timing.interval), true, Some(answer)))
  {
    var answer := timing.setup + timing.interval + timing.timeout;
    steps := ReachFirstBeat(timing);
    OneMore(timing, steps, Tick(timing.timeout));
    steps := steps + [Tick(timing.timeout)];
    assert After(timing, steps) == Some(Alone(answer, Awaiting(answer), true, None));
    OneMore(timing, steps, HeartbeatArrives(0));
    AloneUpdated(After(timing, steps).value, Sleeping(answer + timing.interval), true, Some(answer));
    steps := steps + [HeartbeatArrives(0)];
  }

  /** The renewal takes longer than the next sleep, which ends in a second heartbeat. */
  lemma {:induction false} ReachSecondBeat(timing: Timing) returns (steps: seq<Step>)
    requires timing.Valid() && timing.latency > timing.interval
    ensures Unforced(steps)
    ensures var answer := timing.setup + timing.interval + timing.timeout;
      var wake := answer + timing.interval;
      After(timing, steps) == Some(Alone(wake, Awaiting(wake + timing.timeout), true, Some(answer)))
  {
    var answer := timing.setup + timing.interval + timing.timeout;
    var wake := answer + timing.interval;
    steps := ReachLateAnswer(timing);
    OneMore(timing, steps, Tick(timing.interval));
    steps := steps + [Tick(timing.interval)];
    assert After(timing, steps) == Some(Alone(wake, Sleeping(wake), true, Some(answer)));
    OneMore(timing, steps, Beat(0));
    AloneUpdated(After(timing, steps).value, Awaiting(wake + timing.timeout), true, Some(answer));
    steps := steps + [Beat(0)];
  }

  lemma {:induction false} SlowRenewal(timing: Timing) returns (steps: seq<Step>)
    requires timing.Valid()
    ensures Unforced(steps) && After(timing, steps).Some?
    ensures var s := After(timing, steps).value;
      s.now == timing.Horizon() && s.row.lastSeen == Some(0.0) && s.sessions.Keys == {0} && s.sessions[0].listening
  {
    if timing.latency <= timing.interval {
      steps := ReachLateAnswer(timing);
      OneMore(timing, steps, Tick(timing.latency));
      steps := steps + [Tick(timing.latency)];
    } else {
      steps := ReachSecondBeat(timing);
      var rest := Min(timing.latency - timing.interval, timing.timeout);
      OneMore(timing, steps, Tick(rest));
      steps := steps + [Tick(rest)];
    }
  }

  /** Mutual exclusion over every unforced run, exactly when the stale window exceeds the horizon. */
  lemma {:induction false} MutualExclusionIffWindowExceedsHorizon(timing: Timing)
    requires timing.Valid()
    ensures (forall steps | Unforced(steps) && After(timing, steps).Some? :: AtMostOneDrains(After(timing, steps).value))
       <==> timing.Horizon() < timing.staleAfter
  {
    if timing.Horizon() < timing.staleAfter {
      forall steps | Unforced(steps) && After(timing, steps).Some?
        ensures AtMostOneDrains(After(timing, steps).value)
      {
        MutualExclusion(timing, steps);
      }
    } else {
      var steps := TwoDrainWhenTheWindowIsShort(timing);
    }
  }

  /** The shipped settings: interval 10, timeout 5, window 30. They leave 15 seconds for the two latencies. */
  lemma {:induction false} DefaultSettingsExclude(setup: Time, latency: Time, steps: seq<Step>)
    requires setup >= 0.0 && latency >= 0.0 && setup + latency < 15.0
    requires Unforced(steps) && After(Timing(10.0, 5.0, 30.0, setup, latency), steps).Some?
    ensures AtMostOneDrains(After(Timing(10.0, 5.0, 30.0, setup, latency), steps).value)
  {
    MutualExclusion(Timing(10.0, 5.0, 30.0, setup, latency), steps);
  }

  // ------------------------------------------------------------------------------------------------------------
  // Time is never stuck
  // ------------------------------------------------------------------------------------------------------------

  /** When the next timer of a session is due. */
  function Deadline(timing: Timing, session: Session): (d: Option<Time>)
    ensures forall t: Time :: session.Punctual(timing, t) <==> (d.Some? ==> t <= d.value)
  {
    var timer := match session.phase
      case Starting(ready) => Some(ready)
      case Sleeping(wake) => Some(wake)
      case Awaiting(due) => Some(due)
      case Stopped => None;
    if session.renewal.None? then timer
    else
      var landing := session.renewal.value + timing.latency;
      Some(if timer.None? then landing else Min(timer.value, landing))
  }

  /** The step of the timer that is due. */
  function Firing(timing: Timing, session: Session, c: ConnectionId, now: Time): Step {
    if session.renewal.Some? && now >= session.renewal.value + timing.latency then RenewalLands(c)
    else
      match session.phase
      case Starting(_) => SpawnLoops(c)
      case Sleeping(_) => Beat(c)
      case Awaiting(_) => AnswerTimesOut(c)
      case Stopped => RenewalLands(c)
  }

  /** Time passing, or a timer that fires: nothing from outside. */
  predicate ByTheClock(step: Step) {
    step.Tick? || step.SpawnLoops? || step.Beat? || step.AnswerTimesOut? || step.RenewalLands?
  }

  /** How many timers a session still fires when no frame arrives. */
  function Remaining(session: Session): nat {
    (match session.phase case Starting(_) => 3 case Sleeping(_) => 2 case Awaiting(_) => 1 case Stopped => 0)
    + if session.renewal.Some? then 1 else 0
  }

  lemma {:induction false} DueTimersCanFire(timing: Timing, s: System, c: ConnectionId) returns (step: Step)
    requires c in s.sessions && Deadline(timing, s.sessions[c]) == Some(s.now)
    ensures Enabled(timing, s, step) && ByTheClock(step)
    ensures var t := Apply(timing, s, step);
      && t.now == s.now && t.sessions.Keys == s.sessions.Keys && Remaining(t.sessions[c]) < Remaining(s.sessions[c])
      && forall d | d in s.sessions && d != c :: t.sessions[d] == s.sessions[d]
  {
    step := Firing(timing, s.sessions[c], c, s.now);
  }

  /** The timers of the listed sessions that are still to fire. */
  function Work(sessions: map<ConnectionId, Session>, listed: seq<ConnectionId>, n: nat): nat
    requires n <= |listed|
  {
    if n == 0 then 0
    else Work(sessions, listed, n - 1) + if listed[n - 1] in sessions then Remaining(sessions[listed[n - 1]]) else 0
  }

  lemma {:induction false} WorkShrinks(before: map<ConnectionId, Session>, after: map<ConnectionId, Session>,
        listed: seq<ConnectionId>, n: nat, c: ConnectionId)
    requires n <= |listed| && c in before && after.Keys == before.Keys && Remaining(after[c]) < Remaining(before[c])
    requires forall d | d in before && d != c :: after[d] == before[d]
    ensures Work(after, listed, n) <= Work(before, listed, n) - if c in listed[..n] then 1 else 0
  {
    if n > 0 {
      WorkShrinks(before, after, listed, n - 1, c);
      assert listed[..n] == listed[..n - 1] + [listed[n - 1]];
    }
  }

  /** The first of the listed sessions' deadlines, if one comes before the target. */
  lemma {:induction false} FirstDeadline(timing: Timing, s: System, listed: seq<ConnectionId>, n: nat, target: Time)
    returns (t: Time, first: Option<ConnectionId>)
    requires n <= |listed| && s.now <= target
    requires forall c | c in s.sessions :: s.sessions[c].Punctual(timing, s.now)
    ensures s.now <= t <= target
    ensures forall i | 0 <= i < n && listed[i] in s.sessions :: s.sessions[listed[i]].Punctual(timing, t)
    ensures first.None? ==> t == target
    ensures first.Some? ==> first.value in s.sessions && Deadline(timing, s.sessions[first.value]) == Some(t)
  {
    if n == 0 {
      return target, None;
    }
    t, first := FirstDeadline(timing, s, listed, n - 1, target);
    if listed[n - 1] in s.sessions {
      var deadline := Deadline(timing, s.sessions[listed[n - 1]]);
      if deadline.Some? && deadline.value < t {
        t, first := deadline.value, Some(listed[n - 1]);
      }
    }
  }

  lemma {:induction false} Listing(keys: set<ConnectionId>) returns (listed: seq<ConnectionId>)
    ensures forall c | c in keys :: c in listed
  {
    if keys == {} {
      return [];
    }
    var c :| c in keys;
    listed := Listing(keys - {c});
    listed := listed + [c];
  }

  lemma {:induction false} TimeGoesOn(timing: Timing, steps: seq<Step>, target: Time,
        listed: seq<ConnectionId>) returns (more: seq<Step>)
    requires timing.Valid() && After(timing, steps).Some?
    requires var s := After(timing, steps).value; s.now <= target && forall c | c in s.sessions :: c in listed
    ensures After(timing, steps + more).Some? && After(timing, steps + more).value.now == target
    ensures forall i | 0 <= i < |more| :: ByTheClock(more[i])
    decreases Work(After(timing, steps).value.sessions, listed, |listed|)
  {
    var s := After(timing, steps).value;
    InvRun(timing, steps);
    var t, first := FirstDeadline(timing, s, listed, |listed|, target);
    var wait := Tick(t - s.now);
    assert Enabled(timing, s, wait);
    OneMore(timing, steps, wait);
    if first.None? {
      return [wait];
    }
    var waited := Apply(timing, s, wait);
    var step := DueTimersCanFire(timing, waited, first.value);
    OneMore(timing, steps + [wait], step);
    var fired := Apply(timing, waited, step);
    WorkShrinks(s.sessions, fired.sessions, listed, |listed|, first.value);
    assert listed[..|listed|] == listed;
    var rest := TimeGoesOn(timing, steps + [wait] + [step], target, listed);
    more := [wait, step] + rest;
    assert steps + more == steps + [wait] + [step] + rest;
  }

  /** Time is never stuck: firing only the timers that come due, every run goes on to any later time. */
  lemma {:induction false} TimeIsNeverStuck(timing: Timing, steps: seq<Step>, target: Time) returns (more: seq<Step>)
    requires timing.Valid() && After(timing, steps).Some? && After(timing, steps).value.now <= target
    ensures After(timing, steps + more).Some? && After(timing, steps + more).value.now == target
    ensures forall i | 0 <= i < |more| :: ByTheClock(more[i])
  {
    var listed := Listing(After(timing, steps).value.sessions.Keys);
    more := TimeGoesOn(timing, steps, target, listed);
  }

  // ------------------------------------------------------------------------------------------------------------
  // Fencing
  // ------------------------------------------------------------------------------------------------------------

  ghost predicate ChangesEpoch(timing: Timing, s: System, step: Step) {
    || (step.Register? && s.row.Claimable(step.force, s.now, timing.staleAfter))
    || (step.Sweep? && s.row.Stale(s.now, timing.staleAfter))
  }

  /** The number of steps of a run that won a claim or a revoke. */
  ghost function Wins(timing: Timing, steps: seq<Step>): nat
    requires After(timing, steps).Some?
  {
    if steps == [] then 0
    else
      var earlier := steps[..|steps| - 1];
      Wins(timing, earlier) + if ChangesEpoch(timing, After(timing, earlier).value, Last(steps)) then 1 else 0
  }

  lemma {:induction false} EpochCountsWins(timing: Timing, steps: seq<Step>)
    requires After(timing, steps).Some?
    ensures After(timing, steps).value.row.leaseEpoch == Wins(timing, steps)
  {
    if steps != [] {
      EpochCountsWins(timing, steps[..|steps| - 1]);
    }
  }

  lemma {:induction false} OneSessionPerEpoch(timing: Timing, steps: seq<Step>, c: ConnectionId, d: ConnectionId)
    requires timing.Valid() && After(timing, steps).Some?
    requires var s := After(timing, steps).value; c in s.sessions && d in s.sessions && s.sessions[c].epoch == s.sessions[d].epoch
    ensures c == d
  {
    InvRun(timing, steps);
    var s := After(timing, steps).value;
    assert SessionOk(timing, s, c) && SessionOk(timing, s, d);
  }

  lemma {:induction false} AfterPrefix(timing: Timing, steps: seq<Step>, more: seq<Step>)
    requires more != [] && After(timing, steps + more).Some?
    ensures After(timing, steps + more[..|more| - 1]).Some?
    ensures var s := After(timing, steps + more[..|more| - 1]).value;
      Enabled(timing, s, Last(more)) && After(timing, steps + more).value == Apply(timing, s, Last(more))
  {
    assert (steps + more)[..|steps + more| - 1] == steps + more[..|more| - 1];
  }

  /** A session whose epoch is gone stays fenced: it never holds the epoch again and no renewal of it ever matches. */
  lemma {:induction false} FencedForever(timing: Timing, steps: seq<Step>, more: seq<Step>, c: ConnectionId)
    requires timing.Valid() && After(timing, steps).Some? && After(timing, steps + more).Some?
    requires var s := After(timing, steps).value; c in s.sessions && s.sessions[c].epoch < s.row.leaseEpoch
    ensures var s, t := After(timing, steps).value, After(timing, steps + more).value;
      && c in t.sessions && t.sessions[c].epoch == s.sessions[c].epoch < t.row.leaseEpoch
      && s.renewals <= t.renewals
      && forall i | |s.renewals| <= i < |t.renewals| :: t.renewals[i].connection != c
  {
    if more == [] {
      assert steps + more == steps;
    } else {
      AfterPrefix(timing, steps, more);
      FencedForever(timing, steps, more[..|more| - 1], c);
    }
  }

  /** Exactly the current holder can renew: the conditional update matches iff the epoch is still the session's. */
  lemma {:induction false} FailedRenewalStopsTheDrain(timing: Timing, steps: seq<Step>, c: ConnectionId)
    requires timing.Valid() && After(timing, steps).Some?
    requires Enabled(timing, After(timing, steps).value, RenewalLands(c))
    ensures var s := After(timing, steps).value;
      var t := Apply(timing, s, RenewalLands(c));
      && (s.sessions[c].epoch == s.row.leaseEpoch ==> t.row.lastSeen == s.sessions[c].renewal && t.sessions[c].listening == s.sessions[c].listening)
      && (s.sessions[c].epoch != s.row.leaseEpoch ==>
            t.row == s.row && !Draining(t, c) && s.sessions[c].epoch < s.row.leaseEpoch && t.renewals == s.renewals)
  {
    InvRun(timing, steps);
    assert SessionOk(timing, After(timing, steps).value, c);
  }

  /** After any displacement, forced or not, and without any kick, the loser stops within the horizon. */
  lemma {:induction false} DisplacedStopsWithinHorizon(timing: Timing, steps: seq<Step>, c: ConnectionId)
    requires timing.Valid() && After(timing, steps).Some?
    requires Draining(After(timing, steps).value, c)
    requires After(timing, steps).value.sessions[c].epoch < After(timing, steps).value.row.leaseEpoch
    ensures var s := After(timing, steps).value;
      |s.bumps| == s.row.leaseEpoch && s.now <= s.bumps[s.sessions[c].epoch].at + timing.Horizon()
  {
    InvRun(timing, steps);
    assert SessionOk(timing, After(timing, steps).value, c);
  }

  lemma {:induction false} RevokesHaveAClaimBetween(timing: Timing, steps: seq<Step>, i: nat, j: nat)
    requires timing.Valid() && After(timing, steps).Some?
    requires i < j < |After(timing, steps).value.bumps|
    requires After(timing, steps).value.bumps[i].Revoke? && After(timing, steps).value.bumps[j].Revoke?
    ensures exists k | i < k < j :: After(timing, steps).value.bumps[k].Claim?
  {
    InvRun(timing, steps);
    var bumps := After(timing, steps).value.bumps;
    assert bumps[j - 1].Claim?;
  }

  // ------------------------------------------------------------------------------------------------------------
  // The live verdict
  // ------------------------------------------------------------------------------------------------------------

  lemma {:induction false} LiveIsNeverForged(timing: Timing, steps: seq<Step>)
    requires timing.Valid() && After(timing, steps).Some?
    requires After(timing, steps).value.row.Live(After(timing, steps).value.now, timing.staleAfter)
    ensures var s := After(timing, steps).value;
      && |s.bumps| == s.row.leaseEpoch > 0 && Last(s.bumps).Claim?
      && s.row.activeConnection == Some(Last(s.bumps).connection)
      && SeenByHolder(s)
      && s.now - timing.staleAfter < s.row.lastSeen.value <= s.now
  {
    InvRun(timing, steps);
  }

  lemma {:induction false} StaysNotLive(timing: Timing, steps: seq<Step>, more: seq<Step>)
    requires After(timing, steps).Some? && After(timing, steps + more).Some?
    requires !After(timing, steps).value.row.connected
    ensures var s, t := After(timing, steps).value, After(timing, steps + more).value;
      && s.bumps <= t.bumps
      && (t.row.connected ==> |s.bumps| < |t.bumps| && t.bumps[|s.bumps|].Claim?)
      && (|s.bumps| < |t.bumps| ==> t.bumps[|s.bumps|].Claim?)
  {
    if more == [] {
      assert steps + more == steps;
    } else {
      AfterPrefix(timing, steps, more);
      StaysNotLive(timing, steps, more[..|more| - 1]);
    }
  }

  /** The row's own connection disconnects, or a sweep finds a connected row that was not seen inside the window. */
  ghost predicate EndsTheLease(timing: Timing, s: System, step: Step) {
    || (step.Disconnected? && s.row.activeConnection == Some(step.connection))
    || (step.Sweep? && s.row.connected && (s.row.lastSeen.Some? ==> s.row.lastSeen.value <= s.now - timing.staleAfter))
  }

  /** A release or a revoke disconnects the row, and it cannot come back to life by itself: late renewals, further sweeps
      and further disconnects leave it not connected until a claim is won. */
  lemma {:induction false} NotLiveUntilTheNextClaim(timing: Timing, steps: seq<Step>, ending: Step, more: seq<Step>)
    requires After(timing, steps).Some? && After(timing, steps + [ending]).Some? && After(timing, steps + [ending] + more).Some?
    requires EndsTheLease(timing, After(timing, steps).value, ending)
    ensures var s, t := After(timing, steps + [ending]).value, After(timing, steps + [ending] + more).value;
      && !s.row.connected && s.bumps <= t.bumps
      && (t.row.connected ==> |s.bumps| < |t.bumps| && t.bumps[|s.bumps|].Claim?)
      && (|s.bumps| < |t.bumps| ==> t.bumps[|s.bumps|].Claim?)
  {
    assert (steps + [ending])[..|steps + [ending]| - 1] == steps;
    StaysNotLive(timing, steps + [ending], more);
  }

  /** A disconnect of any other connection leaves the row alone. */
  lemma {:induction false} OthersDisconnectsAreIgnored(timing: Timing, s: System, c: ConnectionId)
    requires Enabled(timing, s, Disconnected(c)) && s.row.activeConnection != Some(c)
    ensures Apply(timing, s, Disconnected(c)) == s
  {
  }

  // ------------------------------------------------------------------------------------------------------------
  // Sessions
  // ------------------------------------------------------------------------------------------------------------

  /** The last won claim of a history. */
  function LastClaim(bumps: seq<Bump>): (claim: Option<Bump>)
    ensures claim.Some? ==> claim.value.Claim?
  {
    if bumps == [] then None else if Last(bumps).Claim? then Some(Last(bumps)) else LastClaim(bumps[..|bumps| - 1])
  }

  /** In every run the row names the connection and the session that the last won claim was made with, and neither
      before there was one: no release, renewal or revoke touches them. */
  lemma {:induction false} RowNamesItsLastClaim(timing: Timing, steps: seq<Step>)
    requires After(timing, steps).Some?
    ensures var s := After(timing, steps).value;
      match LastClaim(s.bumps)
      case None => s.row.activeConnection == None && s.row.activeSession == None
      case Some(claim) => s.row.activeConnection == Some(claim.connection) && s.row.activeSession == claim.session
  {
    if steps != [] {
      var s := After(timing, steps[..|steps| - 1]).value;
      RowNamesItsLastClaim(timing, steps[..|steps| - 1]);
      var t := Apply(timing, s, Last(steps));
      if |t.bumps| > |s.bumps| {
        assert t.bumps[..|t.bumps| - 1] == s.bumps;
      } else {
        assert t.bumps == s.bumps;
      }
    }
  }
}
