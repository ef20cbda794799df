/** One registered connection (facade/consumers/agent_protocol.py): its heartbeat loop, its listen loop and the
    renewal a heartbeat puts in flight. */
module RegisteredSessions {
  import opened Common

  /** The deployment's timing: heartbeat interval and answer timeout, the stale window, and two latencies of the
      surroundings: how long a won registration takes to spawn its loops, how long a renewal takes to land. */
  datatype Timing = Timing(interval: Time, timeout: Time, staleAfter: Time, setup: Time, latency: Time)
  {
    ghost predicate Valid() {
      interval > 0.0 && timeout > 0.0 && setup >= 0.0 && latency >= 0.0
    }

    /** The longest a connection can keep draining without a renewal that lands. */
    function Horizon(): Time {
      setup + interval + timeout + Min(latency, interval + timeout)
    }
  }

  /** Where the heartbeat loop is. `Awaiting` is the state in which the heartbeat future is armed. */
  datatype Phase =
    | Starting(ready: Time)
    | Sleeping(wake: Time)
    | Awaiting(due: Time)
    | Stopped

  datatype Session = Session(epoch: nat, phase: Phase, listening: bool, renewal: Option<Time>)
  {
    function Spawned(timing: Timing, now: Time): Session {
      this.(phase := Sleeping(now + timing.interval), listening := true)
    }

    function Woken(timing: Timing, now: Time): Session {
      this.(phase := Awaiting(now + timing.timeout))
    }

    /** A heartbeat arrived: an armed future is resolved, and a renewal stamped now is sent to the row. */
    function Answered(timing: Timing, now: Time): Session {
      this.(phase := if phase.Awaiting? then Sleeping(now + timing.interval) else phase, renewal := Some(now))
    }

    /** The renewal's row count came back; losing it stops the listen loop and leaves the heartbeat loop running. */
    function RenewalReturned(renewed: bool): Session {
      this.(renewal := None, listening := listening && renewed)
    }

    function TimedOut(): Session {
      this.(phase := Stopped, listening := false)
    }

    function ShutDown(): Session {
      this.(phase := Stopped, listening := false)
    }

    /** No timer of this session is overdue at time `t`. */
    predicate Punctual(timing: Timing, t: Time) {
      && (match phase
          case Starting(ready) => t <= ready
          case Sleeping(wake) => t <= wake
          case Awaiting(due) => t <= due
          case Stopped => true)
      && (renewal.Some? ==> t <= renewal.value + timing.latency)
    }
  }

  class RegisteredSession {
    const leaseEpoch: nat
    const timing: Timing
    var phase: Phase
    var listening: bool
    var renewal: Option<Time>

    function View(): Session
      reads this
    {
      Session(leaseEpoch, phase, listening, renewal)
    }

    constructor (leaseEpoch: nat, timing: Timing, now: Time)
      ensures this.leaseEpoch == leaseEpoch && this.timing == timing
      ensures View() == Session(leaseEpoch, Starting(now + timing.setup), false, None)
    {
      this.leaseEpoch, this.timing := leaseEpoch, timing;
      phase, listening, renewal := Starting(now + timing.setup), false, None;
    }

    method SpawnLoops(now: Time)
      modifies this
      ensures View() == old(View()).Spawned(timing, now)
      ensures listening && phase == Sleeping(now + timing.interval) && renewal == old(renewal)
    {
      listening := true;
      phase := Sleeping(now + timing.interval);
    }

    /** The sleep of the heartbeat loop is over: arm the future, then send. */
    method Beat(now: Time)
      modifies this
      ensures View() == old(View()).Woken(timing, now)
      ensures listening == old(listening) && phase == Awaiting(now + timing.timeout) && renewal == old(renewal)
    {
      phase := Awaiting(now + timing.timeout);
    }

    /** First half of the heartbeat handler, up to the awaited renewal. */
    method OnAgentHeartbeat(now: Time)
      modifies this
      ensures View() == old(View()).Answered(timing, now)
      ensures listening == old(listening) && renewal == Some(now)
      ensures phase == if old(phase).Awaiting? then Sleeping(now + timing.interval) else old(phase)
    {
      if phase.Awaiting? {
        phase := Sleeping(now + timing.interval);
      }
      renewal := Some(now);
    }

    /** Second half: the renewal returned. */
    method OnRenewalReturned(renewed: bool)
      modifies this
      ensures View() == old(View()).RenewalReturned(renewed)
      ensures renewal == None && phase == old(phase) && (listening <==> old(listening) && renewed)
    {
      renewal := None;
      if !renewed {
        StopExecuting();
      }
    }

    method StopExecuting()
      modifies this`listening
      ensures !listening
    {
      listening := false;
    }

    method OnHeartbeatTimeout()
      modifies this
      ensures View() == old(View()).TimedOut()
      ensures !listening && phase == Stopped && renewal == old(renewal)
    {
      StopExecuting();
      phase := Stopped;
    }

    method Shutdown()
      modifies this
      ensures View() == old(View()).ShutDown()
      ensures !listening && phase == Stopped && renewal == old(renewal)
    {
      listening := false;
      phase := Stopped;
    }
  }
}
