/** The liveness predicates of facade/liveness.py, with the clock and the stale window as parameters. */
module Liveness {
  import opened Common

  /** The Python predicate: connected and a heartbeat younger than the window. */
  predicate AgentIsLive(connected: bool, lastSeen: Option<Time>, now: Time, staleAfter: Time) {
    connected && lastSeen.Some? && lastSeen.value > now - staleAfter
  }

  predicate AgentIsStale(connected: bool, lastSeen: Option<Time>, now: Time, staleAfter: Time) {
    connected && !AgentIsLive(connected, lastSeen, now, staleAfter)
  }

  /** The query form of the live predicate: `connected` and `last_seen > cutoff`. */
  predicate LiveAgentQ(connected: bool, lastSeen: Option<Time>, now: Time, staleAfter: Time) {
    connected && match lastSeen { case None => false case Some(seen) => seen > now - staleAfter }
  }

  /** The query form of the stale predicate: `connected` and `last_seen < cutoff` or NULL. */
  predicate StaleAgentQ(connected: bool, lastSeen: Option<Time>, now: Time, staleAfter: Time) {
    connected && match lastSeen { case None => true case Some(seen) => seen < now - staleAfter }
  }

  /** The two stale predicates are documented as twins. They are not: a connected row seen exactly one
      window ago is stale for the locked re-check and not stale for the scan. */
  lemma {:induction false} StaleTwinsAgreeExactlyOffTheCutoff(connected: bool, lastSeen: Option<Time>, now: Time, staleAfter: Time)
    ensures (AgentIsStale(connected, lastSeen, now, staleAfter) <==> StaleAgentQ(connected, lastSeen, now, staleAfter))
       <==> !(connected && lastSeen == Some(now - staleAfter))
    ensures StaleAgentQ(connected, lastSeen, now, staleAfter) ==> AgentIsStale(connected, lastSeen, now, staleAfter)
    ensures AgentIsLive(connected, lastSeen, now, staleAfter) <==> LiveAgentQ(connected, lastSeen, now, staleAfter)
  {
  }
}
