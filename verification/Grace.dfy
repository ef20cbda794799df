/** The keyed single-shot timers of facade/grace.py, and what a reclaim inside the grace window protects. */
module Grace {
  import opened Common
  import opened Lease
  import opened Tasks
  import opened Reconnect

  type Key = nat

  /** A timer task: asleep, in its action, in an action that was asked to cancel, or gone. */
  datatype TimerState = Sleeping | Running | Cancelling | Over

  datatype Timer = Timer(key: Key, due: Time, state: TimerState)
  {
    predicate Busy() {
      state.Running? || state.Cancelling?
    }
  }

  /** A scheduler nobody has used. */
  const IDLE := Scheduler(map[], [])

  /** `tasks` is the dictionary; `timers` are all timer tasks ever created, a timer's id being its position. */
  datatype Scheduler = Scheduler(tasks: map<Key, nat>, timers: seq<Timer>)
  {
    ghost predicate InRange() {
      forall key | key in tasks :: tasks[key] < |timers| && timers[tasks[key]].key == key
    }

    function Cancelled(key: Key): Scheduler {
      if key !in tasks || tasks[key] >= |timers| then this
      else
        var timer := timers[tasks[key]];
        var stopped := match timer.state case Sleeping => Over case Running => Cancelling case other => other;
        Scheduler(tasks - {key}, timers[tasks[key] := timer.(state := stopped)])
    }

    function Scheduled(key: Key, due: Time): Scheduler {
      var cleared := Cancelled(key);
      Scheduler(cleared.tasks[key := |cleared.timers|], cleared.timers + [Timer(key, due, Sleeping)])
    }

    function Woken(id: nat): Scheduler
      requires id < |timers|
    {
      this.(timers := timers[id := timers[id].(state := Running)])
    }

    /** The end of an action, whether it returned or was cancelled: the key is dropped from the dictionary, whatever
        timer it maps to by then. */
    function Finished(id: nat): Scheduler
      requires id < |timers|
    {
      Scheduler(tasks - {timers[id].key}, timers[id := timers[id].(state := Over)])
    }

    predicate BusyKey(key: Key) {
      exists id | 0 <= id < |timers| :: timers[id].key == key && timers[id].Busy()
    }

    /** Every sleeping timer can be found, hence cancelled, under its key. */
    ghost predicate Findable() {
      && InRange()
      && (forall id | 0 <= id < |timers| && timers[id].state.Sleeping? :: timers[id].key in tasks && tasks[timers[id].key] == id)
    }

    /** And no timer sleeps while another one of its key is in its action. */
    ghost predicate Sound() {
      Findable() && forall id | 0 <= id < |timers| && timers[id].state.Sleeping? :: !BusyKey(timers[id].key)
    }

    /** The end of this action takes a sleeping timer out of the dictionary. */
    predicate DropsSleeping(id: nat)
      requires id < |timers|
    {
      var key := timers[id].key;
      key in tasks && tasks[key] < |timers| && timers[tasks[key]].state.Sleeping?
    }
  }

  /** A cancelled timer never fires if it slept; in its action it is asked to cancel. */
  predicate Stopped(before: Timer, after: Timer) {
    && after.key == before.key && after.due == before.due
    && (before.state.Sleeping? || before.state.Over? ==> after.state.Over?)
    && (before.state.Running? || before.state.Cancelling? ==> after.state.Cancelling?)
  }

  class GraceScheduler {
    var tasks: map<Key, nat>
    var timers: seq<Timer>

    function View(): Scheduler
      reads this
    {
      Scheduler(tasks, timers)
    }

    constructor ()
      ensures View() == IDLE
    {
      tasks, timers := map[], [];
    }

    method Cancel(key: Key)
      requires View().InRange()
      modifies this
      ensures View() == old(View()).Cancelled(key)
      ensures tasks == old(tasks) - {key} && |timers| == |old(timers)|
      ensures forall id | 0 <= id < |timers| && !(key in old(tasks) && id == old(tasks)[key]) :: timers[id] == old(timers)[id]
      ensures key in old(tasks) ==> Stopped(old(timers)[old(tasks)[key]], timers[old(tasks)[key]])
    {
      if key !in tasks {
        return;
      }
      var id := tasks[key];
      tasks := tasks - {key};
      match timers[id].state {
        case Sleeping => timers := timers[id := timers[id].(state := Over)];
        case Running => timers := timers[id := timers[id].(state := Cancelling)];
        case _ =>
      }
    }

    method Schedule(key: Key, due: Time)
      requires View().InRange()
      modifies this
      ensures View() == old(View()).Scheduled(key, due)
      ensures tasks == old(tasks)[key := |old(timers)|] && |timers| == |old(timers)| + 1
      ensures Last(timers) == Timer(key, due, Sleeping)
      ensures forall id | 0 <= id < |old(timers)| && !(key in old(tasks) && id == old(tasks)[key]) :: timers[id] == old(timers)[id]
      ensures key in old(tasks) ==> Stopped(old(timers)[old(tasks)[key]], timers[old(tasks)[key]])
    {
      Cancel(key);
      tasks := tasks[key := |timers|];
      timers := timers + [Timer(key, due, Sleeping)];
    }

    /** The sleep of a timer task ended: its action starts. */
    method Wake(id: nat)
      requires id < |timers| && timers[id].state.Sleeping?
      modifies this
      ensures View() == old(View()).Woken(id)
      ensures tasks == old(tasks) && timers == old(timers)[id := Timer(old(timers)[id].key, old(timers)[id].due, Running)]
    {
      timers := timers[id := timers[id].(state := Running)];
    }

    /** The finally clause after the action. */
    method Finish(id: nat)
      requires id < |timers| && timers[id].Busy()
      modifies this
      ensures View() == old(View()).Finished(id)
      ensures tasks == old(tasks) - {old(timers)[id].key}
      ensures timers == old(timers)[id := Timer(old(timers)[id].key, old(timers)[id].due, Over)]
    {
      tasks := tasks - {timers[id].key};
      timers := timers[id := timers[id].(state := Over)];
    }
  }

  datatype Use = Schedule(key: Key, due: Time) | Cancel(key: Key) | Wake(id: nat) | Finish(id: nat)

  ghost predicate Enabled(s: Scheduler, step: Use) {
    match step
    case Schedule(_, _) => true
    case Cancel(_) => true
    case Wake(id) => id < |s.timers| && s.timers[id].state.Sleeping?
    case Finish(id) => id < |s.timers| && s.timers[id].Busy()
  }

  function Apply(s: Scheduler, step: Use): Scheduler
    requires Enabled(s, step)
  {
    match step
    case Schedule(key, due) => s.Scheduled(key, due)
    case Cancel(key) => s.Cancelled(key)
    case Wake(id) => s.Woken(id)
    case Finish(id) => s.Finished(id)
  }

  /** What loses a timer: of all uses, exactly the end of an action whose key maps to a sleeping timer by then. */
  lemma {:induction false} FindableUnlessSleepingIsDropped(s: Scheduler, step: Use)
    requires s.Findable() && Enabled(s, step)
    ensures Apply(s, step).Findable() <==> !(step.Finish? && s.DropsSleeping(step.id))
  {
    var t := Apply(s, step);
    if step.Finish? && s.DropsSleeping(step.id) {
      var lost := s.tasks[s.timers[step.id].key];
      assert t.timers[lost] == s.timers[lost] && t.timers[lost].key !in t.tasks;
    } else {
      forall id | 0 <= id < |t.timers| && t.timers[id].state.Sleeping?
        ensures t.timers[id].key in t.tasks && t.tasks[t.timers[id].key] == id
      {
        assert id < |s.timers| ==> s.timers[id] == t.timers[id];
      }
    }
  }

  /** Scheduling a key keeps the scheduler sound exactly when no timer of that key is in its action; every other use
      keeps it sound always. */
  lemma {:induction false} SoundIffNoScheduleWhileBusy(s: Scheduler, step: Use)
    requires s.Sound() && Enabled(s, step)
    ensures Apply(s, step).Sound() <==> !(step.Schedule? && s.BusyKey(step.key))
  {
    var t := Apply(s, step);
    if step.Schedule? && s.BusyKey(step.key) {
      var id :| 0 <= id < |s.timers| && s.timers[id].key == step.key && s.timers[id].Busy();
      assert t.timers[id].key == step.key && t.timers[id].Busy();
      assert t.BusyKey(step.key) && Last(t.timers).state.Sleeping?;
      assert t.timers[|t.timers| - 1].key == step.key;
    } else {
      forall id | 0 <= id < |t.timers| && t.timers[id].state.Sleeping?
        ensures t.timers[id].key in t.tasks && t.tasks[t.timers[id].key] == id && !t.BusyKey(t.timers[id].key)
      {
        StillRegistered(s, step, id);
      }
    }
  }

  lemma {:induction false} StillRegistered(s: Scheduler, step: Use, id: nat)
    requires s.Sound() && Enabled(s, step) && !(step.Schedule? && s.BusyKey(step.key))
    requires var t := Apply(s, step); id < |t.timers| && t.timers[id].state.Sleeping?
    ensures var t := Apply(s, step);
      t.timers[id].key in t.tasks && t.tasks[t.timers[id].key] == id && !t.BusyKey(t.timers[id].key)
  {
    var t := Apply(s, step);
    var key := t.timers[id].key;
    if id < |s.timers| {
      assert s.timers[id] == t.timers[id];
    }
    forall other | 0 <= other < |t.timers| && t.timers[other].key == key
      ensures !t.timers[other].Busy()
    {
      assert other < |s.timers| ==> s.timers[other].key == t.timers[other].key;
      assert other < |s.timers| && s.timers[other].Busy() ==> s.BusyKey(key);
    }
  }

  /** No two pending timers of one key, and cancelling the key leaves none. */
  ghost predicate OnePending(s: Scheduler, key: Key) {
    && (forall i, j | 0 <= i < j < |s.timers| && s.timers[i].key == s.timers[j].key == key :: !(s.timers[i].state == s.timers[j].state == Sleeping))
    && (forall i | 0 <= i < |s.timers| && s.timers[i].key == key :: !s.Cancelled(key).timers[i].state.Sleeping?)
  }

  /** What a sequence of uses leaves. */
  function Used(s: Scheduler, uses: seq<Use>): Scheduler
    requires Possible(s, uses)
    decreases |uses|
  {
    if uses == [] then s else Used(Apply(s, uses[0]), uses[1..])
  }

  ghost predicate Possible(s: Scheduler, uses: seq<Use>)
    decreases |uses|
  {
    uses == [] || (Enabled(s, uses[0]) && Possible(Apply(s, uses[0]), uses[1..]))
  }

  /** No key is scheduled while a timer of it is in its action. */
  ghost predicate SchedulesNoBusyKey(s: Scheduler, uses: seq<Use>)
    requires Possible(s, uses)
    decreases |uses|
  {
    uses == [] || (!(uses[0].Schedule? && s.BusyKey(uses[0].key)) && SchedulesNoBusyKey(Apply(s, uses[0]), uses[1..]))
  }

  ghost predicate FindableThroughout(s: Scheduler, uses: seq<Use>)
    requires Possible(s, uses)
    decreases |uses|
  {
    s.Findable() && (uses == [] || FindableThroughout(Apply(s, uses[0]), uses[1..]))
  }

  /** No action ends while its key maps to a sleeping timer. */
  ghost predicate DropsNoSleepingTimer(s: Scheduler, uses: seq<Use>)
    requires Possible(s, uses)
    decreases |uses|
  {
    uses == [] || (!(uses[0].Finish? && s.DropsSleeping(uses[0].id)) && DropsNoSleepingTimer(Apply(s, uses[0]), uses[1..]))
  }

  /** Along any uses, every sleeping timer can be found if and only if no action drops one at its end. */
  lemma {:induction false} FindableThroughoutIffNoneIsDropped(s: Scheduler, uses: seq<Use>)
    requires s.Findable() && Possible(s, uses)
    ensures FindableThroughout(s, uses) <==> DropsNoSleepingTimer(s, uses)
    decreases |uses|
  {
    if uses != [] {
      FindableUnlessSleepingIsDropped(s, uses[0]);
      if Apply(s, uses[0]).Findable() {
        FindableThroughoutIffNoneIsDropped(Apply(s, uses[0]), uses[1..]);
      } else {
        assert !FindableThroughout(Apply(s, uses[0]), uses[1..]);
      }
    }
  }

  lemma {:induction false} SoundAfterUses(s: Scheduler, uses: seq<Use>)
    requires s.Sound() && Possible(s, uses) && SchedulesNoBusyKey(s, uses)
    ensures Used(s, uses).Sound()
    decreases |uses|
  {
    if uses != [] {
      SoundIffNoScheduleWhileBusy(s, uses[0]);
      SoundAfterUses(Apply(s, uses[0]), uses[1..]);
    }
  }

  /** Every sleeping timer can be found now, and whatever follows, as long as no busy key is scheduled. */
  ghost predicate StaysFindable(s: Scheduler) {
    forall uses | Possible(s, uses) && SchedulesNoBusyKey(s, uses) :: Used(s, uses).Findable()
  }

  /** What that takes: all timers are findable now, and none sleeps behind a busy one, whose end would drop it. */
  lemma {:induction false} StaysFindableIffSound(s: Scheduler)
    ensures StaysFindable(s) <==> s.Sound()
  {
    if s.Sound() {
      forall uses | Possible(s, uses) && SchedulesNoBusyKey(s, uses)
        ensures Used(s, uses).Findable()
      {
        SoundAfterUses(s, uses);
      }
    }
    if StaysFindable(s) {
      assert Possible(s, []) && SchedulesNoBusyKey(s, []) && Used(s, []).Findable();
      forall id | 0 <= id < |s.timers| && s.timers[id].state.Sleeping?
        ensures !s.BusyKey(s.timers[id].key)
      {
        if s.BusyKey(s.timers[id].key) {
          var busy: nat :| busy < |s.timers| && s.timers[busy].key == s.timers[id].key && s.timers[busy].Busy();
          FinishAlone(s, busy);
          EndLosesSleeping(s, busy, id);
        }
      }
    }
  }

  lemma {:induction false} EndLosesSleeping(s: Scheduler, busy: nat, id: nat)
    requires Enabled(s, Finish(busy)) && id < |s.timers| && s.timers[id].state.Sleeping? && s.timers[id].key == s.timers[busy].key
    ensures !s.Finished(busy).Findable()
  {
    assert s.Finished(busy).timers[id] == s.timers[id];
  }

  lemma {:induction false} FinishAlone(s: Scheduler, id: nat)
    requires Enabled(s, Finish(id))
    ensures Possible(s, [Finish(id)]) && SchedulesNoBusyKey(s, [Finish(id)]) && Used(s, [Finish(id)]) == s.Finished(id)
  {
    assert [Finish(id)][1..] == [];
  }

  /** The rule for callers is exact: where timers stay findable, a use keeps it so if and only if it does not schedule a
      key whose action runs. */
  lemma {:induction false} StaysFindableIffNoBusyKey(s: Scheduler, step: Use)
    requires StaysFindable(s) && Enabled(s, step)
    ensures StaysFindable(Apply(s, step)) <==> !(step.Schedule? && s.BusyKey(step.key))
  {
    StaysFindableIffSound(s);
    SoundIffNoScheduleWhileBusy(s, step);
    StaysFindableIffSound(Apply(s, step));
  }

  ghost predicate StaysFindableThroughout(s: Scheduler, uses: seq<Use>)
    requires Possible(s, uses)
    decreases |uses|
  {
    StaysFindable(s) && (uses == [] || StaysFindableThroughout(Apply(s, uses[0]), uses[1..]))
  }

  /** So over a whole run, timers stay findable at every point if and only if the run schedules no busy key. */
  lemma {:induction false} StaysFindableThroughoutIffNoBusyKey(s: Scheduler, uses: seq<Use>)
    requires StaysFindable(s) && Possible(s, uses)
    ensures StaysFindableThroughout(s, uses) <==> SchedulesNoBusyKey(s, uses)
    decreases |uses|
  {
    if uses != [] {
      StaysFindableIffNoBusyKey(s, uses[0]);
      if StaysFindable(Apply(s, uses[0])) {
        StaysFindableThroughoutIffNoBusyKey(Apply(s, uses[0]), uses[1..]);
      }
    }
  }

  /** From an idle scheduler, uses that schedule no busy key leave each key at most one pending timer, which a cancel
      finds. */
  lemma {:induction false} OnePendingTimerPerKey(uses: seq<Use>, key: Key)
    requires Possible(IDLE, uses) && SchedulesNoBusyKey(IDLE, uses)
    ensures OnePending(Used(IDLE, uses), key)
  {
    SoundAfterUses(IDLE, uses);
  }

  /** Why the condition is needed: a key re-scheduled while its own action runs loses the new timer when the old
      action ends, and one more schedule leaves two pending timers of one key. */
  lemma {:induction false} ScheduleWhileBusyOrphansTheTimer(s: Scheduler, key: Key, busy: nat, due: Time, due': Time)
    requires s.InRange() && busy < |s.timers| && s.timers[busy].key == key && s.timers[busy].Busy()
    ensures var orphaned := s.Scheduled(key, due).Finished(busy);
      var id := |s.timers|;
      && orphaned.timers[id] == Timer(key, due, Sleeping) && key !in orphaned.tasks
      && orphaned.Cancelled(key) == orphaned
      && orphaned.Scheduled(key, due').timers[id].state.Sleeping?
      && orphaned.Scheduled(key, due').timers[id + 1] == Timer(key, due', Sleeping)
  {
  }

  /** Every run that gets a key busy can go on to two pending timers of it. */
  lemma {:induction false} BusyKeysCanBeDoubled(s: Scheduler, key: Key, busy: nat, due: Time, due': Time)
    requires s.InRange() && busy < |s.timers| && s.timers[busy].key == key && s.timers[busy].Busy()
    ensures var uses := [Schedule(key, due), Finish(busy), Schedule(key, due')];
      Possible(s, uses) && !SchedulesNoBusyKey(s, uses) && !OnePending(Used(s, uses), key)
  {
    ScheduleWhileBusyOrphansTheTimer(s, key, busy, due, due');
    var uses := [Schedule(key, due), Finish(busy), Schedule(key, due')];
    var scheduled := s.Scheduled(key, due);
    var orphaned := scheduled.Finished(busy);
    var doubled := orphaned.Scheduled(key, due');
    UsedThree(s, uses, scheduled, orphaned, doubled);
    assert s.BusyKey(key);
    assert doubled.timers[|s.timers|].key == doubled.timers[|s.timers| + 1].key;
  }

  lemma {:induction false} UsedThree(s: Scheduler, uses: seq<Use>, a: Scheduler, b: Scheduler, c: Scheduler)
    requires |uses| == 3 && Enabled(s, uses[0]) && a == Apply(s, uses[0])
    requires Enabled(a, uses[1]) && b == Apply(a, uses[1]) && Enabled(b, uses[2]) && c == Apply(b, uses[2])
    ensures Possible(s, uses) && Used(s, uses) == c
  {
    assert uses[1..][1..] == uses[2..] && uses[2..][1..] == [];
    assert Possible(b, uses[2..]) && Used(b, uses[2..]) == c;
    assert Possible(a, uses[1..]) && Used(a, uses[1..]) == c;
  }

  /** The first time a key fires, re-scheduling it from its action already does. */
  lemma {:induction false} TwoPendingTimersFromIdle(key: Key, due: Time, due': Time, due'': Time)
    ensures var uses := [Schedule(key, due), Wake(0)] + [Schedule(key, due'), Finish(0), Schedule(key, due'')];
      Possible(IDLE, uses) && !OnePending(Used(IDLE, uses), key)
  {
    var fired := Scheduler(map[key := 0], [Timer(key, due, Running)]);
    assert IDLE.Scheduled(key, due).Woken(0) == fired;
    BusyKeysCanBeDoubled(fired, key, 0, due', due'');
    var rest := [Schedule(key, due'), Finish(0), Schedule(key, due'')];
    var uses := [Schedule(key, due), Wake(0)] + rest;
    assert uses[1..] == [Wake(0)] + rest && uses[1..][1..] == rest;
  }

  // ------------------------------------------------------------------------------------------------------------
  // A reclaim inside the window
  // ------------------------------------------------------------------------------------------------------------

  datatype Config = Config(agent: AgentId, staleAfter: Time, grace: Time, rebuilds: set<TaskId>)

  /** One agent: its row, the due time of its executor-grace timer, and the task store. */
  datatype World = World(now: Time, row: AgentRow, timer: Option<Time>, db: Db)

  /** `Write` is any other writer of the store, `Renew` any heartbeat renewal, late ones included. */
  datatype Step =
    | Tick(elapsed: Time)
    | Renew(epoch: nat, stamp: Time)
    | Write(db: Db)
    | CancelTimer
    | TimerFires
    | Heal
    | Command

  predicate MayHappen(w: World, step: Step) {
    match step
    case Tick(elapsed) => elapsed >= 0.0 && (w.timer.Some? ==> w.now + elapsed <= w.timer.value)
    case TimerFires => w.timer.Some? && w.now >= w.timer.value
    case Renew(epoch, stamp) => epoch == w.row.leaseEpoch && w.row.lastSeen.Some? ==> w.row.lastSeen.value <= stamp
    case _ => true
  }

  function Reconciled(config: Config, w: World): World {
    if w.row.Live(w.now, config.staleAfter) then w
    else w.(db := Pass(w.db, config.agent, config.rebuilds, w.now))
  }

  function Healed(config: Config, w: World): World {
    if !w.row.Listed(w.now, config.staleAfter) then w else Reconciled(config, w.(row := w.row.Revoked()))
  }

  function Next(config: Config, w: World, step: Step): World {
    match step
    case Tick(elapsed) => w.(now := w.now + elapsed)
    case Renew(epoch, stamp) => w.(row := w.row.Renewed(epoch, stamp))
    case Write(db) => w.(db := db)
    case CancelTimer => w.(timer := None)
    case TimerFires => Reconciled(config, w.(timer := None))
    case Heal => Healed(config, w)
    case Command =>
      var healed := Healed(config, w);
      if GoneLongerThan(healed.row, config.grace, w.now) && InFlight(healed.db.tasks, config.agent, 0) != []
      then Reconciled(config, healed) else healed
  }

  function Run(config: Config, w: World, steps: seq<Step>): World
    decreases |steps|
  {
    if steps == [] then w else Run(config, Next(config, w, steps[0]), steps[1..])
  }

  predicate Legal(config: Config, w: World, steps: seq<Step>)
    decreases |steps|
  {
    steps == [] || (MayHappen(w, steps[0]) && Legal(config, Next(config, w, steps[0]), steps[1..]))
  }

  /** What the other writers alone make of the store. */
  function Writes(db: Db, steps: seq<Step>): Db
    decreases |steps|
  {
    if steps == [] then db else Writes(if steps[0].Write? then steps[0].db else db, steps[1..])
  }

  predicate LiveThroughout(config: Config, w: World, steps: seq<Step>)
    decreases |steps|
  {
    && w.row.Live(w.now, config.staleAfter)
    && (steps == [] || LiveThroughout(config, Next(config, w, steps[0]), steps[1..]))
  }

  /** Disconnected cleanly at `left`, the timer set for the end of the grace window. */
  predicate AwaySince(config: Config, w: World, left: Time) {
    && !w.row.connected && w.row.lastSeen.Some? && w.row.lastSeen.value >= left
    && left <= w.now <= left + config.grace
    && w.timer == Some(left + config.grace)
  }

  predicate KeepsTimer(steps: seq<Step>) {
    forall i | 0 <= i < |steps| :: !steps[i].CancelTimer?
  }

  /** Before the window closes no trigger touches a task of an absent agent. */
  lemma {:induction false} WaitingTouchesNothing(config: Config, w: World, steps: seq<Step>, left: Time)
    requires AwaySince(config, w, left) && Legal(config, w, steps) && KeepsTimer(steps)
    requires Run(config, w, steps).now < left + config.grace
    ensures AwaySince(config, Run(config, w, steps), left)
    ensures Run(config, w, steps).db == Writes(w.db, steps)
    decreases |steps|
  {
    if steps != [] {
      ClockOnlyAdvances(config, Next(config, w, steps[0]), steps[1..]);
      assert KeepsTimer(steps[1..]);
      WaitingTouchesNothing(config, Next(config, w, steps[0]), steps[1..], left);
    }
  }

  lemma {:induction false} ClockOnlyAdvances(config: Config, w: World, steps: seq<Step>)
    requires Legal(config, w, steps)
    ensures Run(config, w, steps).now >= w.now
    decreases |steps|
  {
    if steps != [] {
      ClockOnlyAdvances(config, Next(config, w, steps[0]), steps[1..]);
    }
  }

  /** While the agent is live no trigger touches its tasks, not even a timer that outlived the reclaim. */
  lemma {:induction false} LiveTouchesNothing(config: Config, w: World, steps: seq<Step>)
    requires LiveThroughout(config, w, steps)
    ensures Run(config, w, steps).db == Writes(w.db, steps)
    decreases |steps|
  {
    if steps != [] {
      LiveTouchesNothing(config, Next(config, w, steps[0]), steps[1..]);
    }
  }

  /** The window closes at this step: the timer fires at its end, and the whole agent is swept. */
  ghost predicate SweepsAtTheEnd(config: Config, w: World, steps: seq<Step>, left: Time, k: nat)
    requires k < |steps|
  {
    var before := Run(config, w, steps[..k]);
    && steps[k].TimerFires? && before.now == left + config.grace
    && Run(config, w, steps[..k + 1]).db == Pass(before.db, config.agent, config.rebuilds, left + config.grace)
  }

  lemma {:induction false} RunSnoc(config: Config, w: World, steps: seq<Step>, k: nat)
    requires k < |steps|
    ensures Run(config, w, steps[..k + 1]) == Next(config, Run(config, w, steps[..k]), steps[k])
    decreases |steps|
  {
    assert steps[..k + 1][1..] == steps[1..][..k];
    if k > 0 {
      RunSnoc(config, Next(config, w, steps[0]), steps[1..], k - 1);
      assert steps[..k][1..] == steps[1..][..k - 1] && steps[1..][..k] == steps[1..][..k - 1 + 1];
    }
  }

  lemma {:induction false} RunCons(config: Config, w: World, steps: seq<Step>, k: nat)
    requires 0 < k <= |steps|
    ensures Run(config, w, steps[..k]) == Run(config, Next(config, w, steps[0]), steps[1..][..k - 1])
  {
    assert steps[..k][1..] == steps[1..][..k - 1];
  }

  /** An agent that does not come back, its timer not cancelled, is swept: time cannot pass the end of the window before
      the timer has fired. */
  lemma {:induction false} AbsenceEndsInASweep(config: Config, w: World, steps: seq<Step>, left: Time) returns (k: nat)
    requires AwaySince(config, w, left) && Legal(config, w, steps) && KeepsTimer(steps)
    requires Run(config, w, steps).now > left + config.grace
    ensures k < |steps| && SweepsAtTheEnd(config, w, steps, left, k)
    decreases |steps|
  {
    var next := Next(config, w, steps[0]);
    if steps[0].TimerFires? {
      k := 0;
      RunSnoc(config, w, steps, 0);
      assert steps[..0] == [];
    } else {
      assert KeepsTimer(steps[1..]);
      k := AbsenceEndsInASweep(config, next, steps[1..], left);
      k := k + 1;
      RunCons(config, w, steps, k);
      RunCons(config, w, steps, k + 1);
    }
  }

  /** The other two triggers. A heal sweeps an agent that the scan lists, and disconnects it; */
  lemma {:induction false} HealSweepsTheListed(config: Config, w: World)
    ensures var listed := w.row.connected && (w.row.lastSeen.Some? ==> w.row.lastSeen.value < w.now - config.staleAfter);
      Next(config, w, Heal)
      == if listed then w.(row := w.row.(connected := false, leaseEpoch := w.row.leaseEpoch + 1),
                           db := Pass(w.db, config.agent, config.rebuilds, w.now))
         else w
  {
  }

  /** and the command, after healing, sweeps an agent away for longer than the grace window, if it has work in flight. */
  lemma {:induction false} CommandSweepsTheLongGone(config: Config, w: World)
    ensures var healed := Next(config, w, Heal);
      var gone := !healed.row.connected && healed.row.lastSeen.Some? && healed.row.lastSeen.value < w.now - config.grace;
      Next(config, w, Command)
      == if gone && InFlight(healed.db.tasks, config.agent, 0) != []
         then healed.(db := Pass(healed.db, config.agent, config.rebuilds, w.now)) else healed
  {
  }

  /** A same-session reclaim before the window closes, by an agent that then stays live: over the whole time, the
      store is what the other writers made of it; no timer, heal or scheduled sweep changed a task, added an event
      or pushed an Assign. */
  lemma {:induction false} ReclaimWithinGraceProtects(config: Config, w: World, before: seq<Step>,
        connection: ConnectionId, after: seq<Step>)
    requires AwaySince(config, w, w.now) && Legal(config, w, before) && KeepsTimer(before)
    requires Run(config, w, before).now < w.now + config.grace
    requires var back := Run(config, w, before);
      LiveThroughout(config, back.(row := back.row.Claimed(Some(connection), back.row.activeSession, back.now)), after)
    ensures var back := Run(config, w, before);
      var reclaimed := back.(row := back.row.Claimed(Some(connection), back.row.activeSession, back.now));
      && back.row.Claimable(false, back.now, config.staleAfter)
      && Run(config, reclaimed, after).db == Writes(Writes(w.db, before), after)
  {
    WaitingTouchesNothing(config, w, before, w.now);
    var back := Run(config, w, before);
    LiveTouchesNothing(config, back.(row := back.row.Claimed(Some(connection), back.row.activeSession, back.now)), after);
  }
}
