/** The write-lease on one agent row (facade/persist_backend.py). Each transition is stated once as a function
    on row values; `AgentRecord` performs it on the stored columns, one locked block per method. */
module Lease {
  import opened Common
  import opened Liveness

  /** A uuid4, read as a number. */
  type ConnectionId = nat
  type SessionId = nat

  datatype AgentRow = AgentRow(
    connected: bool,
    lastSeen: Option<Time>,
    leaseEpoch: nat,
    activeConnection: Option<ConnectionId>,
    activeSession: Option<SessionId>)
  {
    predicate Live(now: Time, staleAfter: Time) {
      AgentIsLive(connected, lastSeen, now, staleAfter)
    }

    predicate Stale(now: Time, staleAfter: Time) {
      AgentIsStale(connected, lastSeen, now, staleAfter)
    }

    /** What the scan of a sweep lists. */
    predicate Listed(now: Time, staleAfter: Time) {
      StaleAgentQ(connected, lastSeen, now, staleAfter)
    }

    predicate Claimable(force: bool, now: Time, staleAfter: Time) {
      force || !Live(now, staleAfter)
    }

    function Claimed(connection: Option<ConnectionId>, session: Option<SessionId>, now: Time): AgentRow {
      AgentRow(true, Some(now), leaseEpoch + 1, connection, session)
    }

    /** The compare-and-set of a heartbeat: it touches `lastSeen` and nothing else. */
    function Renewed(epoch: nat, stamp: Time): AgentRow {
      if leaseEpoch == epoch then this.(lastSeen := Some(stamp)) else this
    }

    function Revoked(): AgentRow {
      this.(connected := false, leaseEpoch := leaseEpoch + 1)
    }

    /** The disconnect handler: only the connection the row still names may release it. */
    function Released(connection: Option<ConnectionId>, now: Time): AgentRow {
      if connection.Some? && activeConnection != connection then this
      else this.(connected := false, lastSeen := Some(now))
    }
  }

  /** A freshly created row: the column defaults. */
  const NEW_AGENT := AgentRow(false, None, 0, None, None)

  class AgentRecord {
    var connected: bool
    var lastSeen: Option<Time>
    var leaseEpoch: nat
    var activeConnection: Option<ConnectionId>
    var activeSession: Option<SessionId>

    function Row(): AgentRow
      reads this
    {
      AgentRow(connected, lastSeen, leaseEpoch, activeConnection, activeSession)
    }

    constructor ()
      ensures Row() == NEW_AGENT
    {
      connected, lastSeen, leaseEpoch, activeConnection, activeSession := false, None, 0, None, None;
    }

    method ClaimLease(connection: Option<ConnectionId>, session: Option<SessionId>, force: bool, now: Time, staleAfter: Time)
      returns (claimed: bool, epoch: Option<nat>, priorSession: Option<SessionId>, displacedIncumbent: bool)
      modifies this
      ensures claimed <==> force || !(old(connected) && old(lastSeen).Some? && old(lastSeen).value > now - staleAfter)
      ensures claimed ==>
        && connected && lastSeen == Some(now) && leaseEpoch == old(leaseEpoch) + 1
        && activeConnection == connection && activeSession == session
      ensures Row() == if claimed then old(Row()).Claimed(connection, session, now) else old(Row())
      ensures epoch == if claimed then Some(old(leaseEpoch) + 1) else None
      ensures priorSession == old(activeSession)
      ensures displacedIncumbent <==> claimed && old(connected)
    {
      if AgentIsLive(connected, lastSeen, now, staleAfter) && !force {
        return false, None, activeSession, false;
      }
      priorSession := activeSession;
      displacedIncumbent := connected;
      leaseEpoch := leaseEpoch + 1;
      connected := true;
      lastSeen := Some(now);
      activeConnection := connection;
      activeSession := session;
      claimed, epoch := true, Some(leaseEpoch);
    }

    /** The row count of the conditional update is the answer. */
    method RenewLease(epoch: nat, stamp: Time) returns (renewed: bool)
      modifies this
      ensures renewed <==> old(leaseEpoch) == epoch
      ensures lastSeen == if renewed then Some(stamp) else old(lastSeen)
      ensures (connected, leaseEpoch, activeConnection, activeSession) == old((connected, leaseEpoch, activeConnection, activeSession))
      ensures Row() == old(Row()).Renewed(epoch, stamp)
    {
      renewed := leaseEpoch == epoch;
      if renewed {
        lastSeen := Some(stamp);
      }
    }

    method RevokeLease(now: Time, staleAfter: Time) returns (won: bool)
      modifies this
      ensures won <==> old(connected) && !(old(lastSeen).Some? && old(lastSeen).value > now - staleAfter)
      ensures won ==> !connected && leaseEpoch == old(leaseEpoch) + 1
      ensures (lastSeen, activeConnection, activeSession) == old((lastSeen, activeConnection, activeSession))
      ensures Row() == if won then old(Row()).Revoked() else old(Row())
    {
      if !AgentIsStale(connected, lastSeen, now, staleAfter) {
        return false;
      }
      connected := false;
      leaseEpoch := leaseEpoch + 1;
      won := true;
    }

    method OnAgentDisconnected(connection: Option<ConnectionId>, now: Time) returns (released: bool)
      modifies this
      ensures Row() == old(Row()).Released(connection, now)
      ensures released ==> !connected && lastSeen == Some(now)
      ensures (leaseEpoch, activeConnection, activeSession) == old((leaseEpoch, activeConnection, activeSession))
      ensures released <==> connection == None || old(activeConnection) == connection
    {
      if connection.Some? && activeConnection != connection {
        return false;
      }
      connected := false;
      lastSeen := Some(now);
      released := true;
    }
  }
}
