/** The arbiter (internal/controller/arbiter.go): one strategic-planning lease
    with a 30 s time-to-live, and the last action saved per agent for state
    reconstitution. Times are nanoseconds; the empty holder means free. */
module Arbitration {

  import opened Wrappers
  import opened Proto

  /** LockTTL: 30 s in nanoseconds. */
  const LockTTL: int := 30_000_000_000

  /** The lease: who holds it ("" when nobody does) and when it was granted. */
  datatype LockState = LockState(holder: string, lockTime: int)

  /** A lease is stale once strictly more than LockTTL has passed since its grant. */
  predicate Stale(s: LockState, now: int)
  {
    now - s.lockTime > LockTTL
  }

  /** RequestStrategicLock at time `now`: the verdict and the new lease. The
      request is granted exactly when the lease is free, held by the caller
      already, or stale; a grant gives the caller a fresh lease from `now`, and
      a denial changes nothing. */
  function Request(s: LockState, agentId: string, now: int): (r: (bool, LockState))
    ensures r.0 <==> s.holder == "" || s.holder == agentId || Stale(s, now)
    ensures r.0 ==> r.1 == LockState(agentId, now)
    ensures !r.0 ==> r.1 == s
  {
    var reclaimed := if s.holder != "" && s.holder != agentId && Stale(s, now) then s.(holder := "") else s;
    if reclaimed.holder == "" || reclaimed.holder == agentId then (true, LockState(agentId, now))
    else (false, reclaimed)
  }

  /** ReleaseLock: only the holder frees the lease; anyone else changes nothing. */
  function Release(s: LockState, agentId: string): (r: LockState)
    ensures s.holder == agentId ==> r.holder == "" && r.lockTime == s.lockTime
    ensures s.holder != agentId ==> r == s
  {
    if s.holder == agentId then s.(holder := "") else s
  }

  /** While a lease is at most 30 s old, every other agent is denied, and the
      holder keeps it: at most one agent holds the lease at a time. */
  lemma LeaseExcludes(s: LockState, other: string, now: int)
    requires s.holder != "" && other != s.holder && now - s.lockTime <= LockTTL
    ensures Request(s, other, now) == (false, s)
  {
  }

  /** Age exactly 30 s is not stale: the comparison is strict. */
  lemma ExactTtlNotStale(holder: string, other: string, t: int)
    requires holder != "" && other != holder
    ensures !Request(LockState(holder, t), other, t + LockTTL).0
    ensures Request(LockState(holder, t), other, t + LockTTL + 1).0
  {
  }

  /** A lease granted to another agent is lost only when the lease was stale;
      a grant to a new holder never overrides a live lease. */
  lemma NewHolderOnlyAfterExpiry(s: LockState, agentId: string, now: int)
    requires s.holder != "" && s.holder != agentId
    requires Request(s, agentId, now).0
    ensures Stale(s, now)
  {
  }

  /** The holder's re-request renews the lease: afterwards another agent is
      denied for a further 30 s counted from the renewal. */
  lemma RenewalExtendsLease(s: LockState, other: string, t1: int, t2: int)
    requires s.holder != "" && other != s.holder
    requires t1 <= t2 <= t1 + LockTTL
    ensures var (g1, s1) := Request(s, s.holder, t1);
            var (g2, s2) := Request(s1, other, t2);
            g1 && s1 == LockState(s.holder, t1) && !g2 && s2 == s1
  {
  }

  /** The two requests of the phase-4 harness, extended by a release and an
      expiry: from a free lease boss-a is granted and boss-b is then denied
      within 30 s (the harness's part); a release by boss-b changes nothing,
      and boss-b is granted once boss-a's lease has gone stale. */
  lemma CounterbalanceScenario(t0: int, t1: int, t2: int)
    requires t0 <= t1 <= t0 + LockTTL < t2
    ensures var (ga, sa) := Request(LockState("", 0), "boss-a", t0);
            var (gb, sb) := Request(sa, "boss-b", t1);
            var sr := Release(sb, "boss-b");
            var (gc, sc) := Request(sr, "boss-b", t2);
            ga && !gb && sr == sa && gc && sc == LockState("boss-b", t2)
  {
  }

  /** A quirk of the empty id: it is granted a free lease, which stays free. */
  lemma EmptyIdLeavesLeaseFree(t: int, now: int)
    ensures Request(LockState("", t), "", now) == (true, LockState("", now))
  {
  }

  /** The saved action of an agent, if any. */
  function Lookup(states: map<string, AgentAction>, agentId: string): (r: Option<AgentAction>)
    ensures r.Some? <==> agentId in states
    ensures r.Some? ==> r.value == states[agentId]
  {
    if agentId in states then Some(states[agentId]) else None
  }

  /** SaveState then GetState of the same agent returns the saved action; other
      agents' entries are untouched; an agent never saved has none. */
  lemma SaveThenGet(states: map<string, AgentAction>, action: AgentAction, other: string)
    requires other != action.agentId
    ensures Lookup(states[action.agentId := action], action.agentId) == Some(action)
    ensures Lookup(states[action.agentId := action], other) == Lookup(states, other)
    ensures Lookup(map[], other) == None
  {
  }

  class Arbiter {
    var strategicLock: string
    var lockTime: int
    var lastStates: map<string, AgentAction>

    /** NewArbiter: a free lease and no saved states; the zero lock time does
      not matter while the lease is free. */
    constructor ()
      ensures strategicLock == "" && lockTime == 0 && lastStates == map[]
    {
      strategicLock := "";
      lockTime := 0;
      lastStates := map[];
    }

    /** RequestStrategicLock at time `now`. */
    method RequestStrategicLock(agentId: string, now: int) returns (granted: bool)
      modifies this`strategicLock, this`lockTime
      ensures (granted, LockState(strategicLock, lockTime)) == Request(LockState(old(strategicLock), old(lockTime)), agentId, now)
    {
      if strategicLock != "" && strategicLock != agentId {
        if now - lockTime > LockTTL {
          strategicLock := "";
        }
      }
      if strategicLock == "" || strategicLock == agentId {
        strategicLock := agentId;
        lockTime := now;
        return true;
      }
      return false;
    }

    /** ReleaseLock: frees the lease only for its holder. */
    method ReleaseLock(agentId: string)
      modifies this`strategicLock
      ensures LockState(strategicLock, lockTime) == Release(LockState(old(strategicLock), lockTime), agentId)
    {
      if strategicLock == agentId {
        strategicLock := "";
      }
    }

    /** SaveState: files the action under its agent id, replacing the earlier one. */
    method SaveState(state: AgentAction)
      modifies this`lastStates
      ensures lastStates == old(lastStates)[state.agentId := state]
    {
      lastStates := lastStates[state.agentId := state];
    }

    /** GetState: the last action saved for the agent, if any. */
    method GetState(agentId: string) returns (state: Option<AgentAction>)
      ensures state == Lookup(lastStates, agentId)
    {
      if agentId in lastStates {
        return Some(lastStates[agentId]);
      }
      return None;
    }
  }
}
