/** The platform agent's own side of registration: its identity, its retry loop, and what it makes of the
    control plane's replies. */
module Agents {
  import opened Prelude
  import opened Delivery

  /** What the agent holds in memory and, when a save succeeds, on disk. */
  datatype Local = Local(agentID: string, clusterID: string, registered: bool)

  const Empty := Local("", "", false)

  datatype Reply = Accepted(clusterID: string, agentID: string) | Refused(status: int) | Unreachable

  const UNAUTHORIZED := 401
  const FORBIDDEN := 403
  const NOT_FOUND := 404
  const CONFLICT := 409

  // ------------------------------------------------------------------------------------------
  // Identity
  // ------------------------------------------------------------------------------------------

  /** A persisted identity wins, then a configured one, then the pod's, then a generated one. */
  function Resolve(state: Local, configured: string, podUID: string, generated: string): Local {
    state.(agentID :=
      if state.agentID != "" then state.agentID
      else if configured != "" then configured
      else if podUID != "" then "agent-" + podUID
      else "agent-" + generated)
  }

  /** The control plane's answer supersedes whatever identity the agent derived for itself. */
  function Adopt(state: Local, reply: Reply): Local
    requires reply.Accepted?
  {
    Local(if reply.agentID != "" then reply.agentID else state.agentID, reply.clusterID, true)
  }

  // ------------------------------------------------------------------------------------------
  // Waiting
  // ------------------------------------------------------------------------------------------

  /** Doubling in 64 bits: an overflow keeps the current value, a positive maximum caps the result. */
  function NextBackoff(cur: Duration, max: Duration): Duration {
    var doubled := Wrap(cur * 2);
    var next := if doubled <= 0 then cur else doubled;
    if max > 0 && next > max then max else next
  }

  const DEFAULT_RETRY: Duration := 10 * SECOND

  /** The wait after failed attempt `k`. */
  function WaitAfter(first: Duration, max: Duration, k: nat): Duration {
    if k == 0 then if first <= 0 then DEFAULT_RETRY else first
    else NextBackoff(WaitAfter(first, max, k - 1), max)
  }

  /** Whatever is configured, the agent never waits zero or negative time. */
  lemma {:induction false} WaitsArePositive(first: Duration, max: Duration, k: nat)
    ensures WaitAfter(first, max, k) > 0
  {
    if k > 0 {
      WaitsArePositive(first, max, k - 1);
      var cur := WaitAfter(first, max, k - 1);
      if cur < TWO_62 {
        assert Wrap(cur * 2) == cur * 2;
      }
    }
  }

  /** With a maximum of at most 2^62 the waits are the capped doubling of the first one; the first
      wait itself is not capped. */
  lemma {:induction false} WaitsAreCappedDoubling(first: Duration, max: Duration, k: nat)
    requires 0 < first <= TWO_62 && 0 < max <= TWO_62 && k > 0
    ensures WaitAfter(first, max, k) == Capped(first, max, k)
  {
    hide Capped, NextBackoff, Pow2;
    CappedStep(first, max, k - 1);
    if k == 1 {
      OneDoubling(first, max);
    } else {
      WaitsAreCappedDoubling(first, max, k - 1);
      OneDoubling(WaitAfter(first, max, k - 1), max);
    }
  }

  /** Without a maximum the wait doubles as long as 64 bits hold it, and then stays. */
  lemma UncappedWaitsDouble(cur: Duration, max: Duration)
    requires 0 < cur && max <= 0
    ensures NextBackoff(cur, max) == if cur < TWO_62 then 2 * cur else cur
  {
    if cur < TWO_62 {
      assert Wrap(cur * 2) == cur * 2;
    } else {
      assert Wrap(cur * 2) == cur * 2 - TWO_64;
    }
  }

  lemma CappedStep(first: int, max: int, k: nat)
    requires 0 < first && 0 < max
    ensures Capped(first, max, k + 1) == Min(2 * Capped(first, max, k), max)
    ensures 0 < Capped(first, max, k) <= max
    ensures Capped(first, max, 1) == Min(2 * first, max)
  {
    hide Pow2;
    MulPositive(first, Pow2(k));
    DoublingTwice(first, k);
    DoublingTwice(first, 0);
  }

  lemma DoublingTwice(first: int, k: nat)
    ensures first * Pow2(k + 1) == 2 * (first * Pow2(k)) && first * Pow2(0) == first
  {
    assert Pow2(k + 1) == 2 * Pow2(k);
  }

  lemma OneDoubling(cur: Duration, max: Duration)
    requires 0 < cur <= TWO_62 && 0 < max <= TWO_62
    ensures NextBackoff(cur, max) == Min(2 * cur, max)
  {
    if cur == TWO_62 {
      assert Wrap(cur * 2) == -TWO_63;
    } else {
      assert Wrap(cur * 2) == cur * 2;
    }
  }

  // ------------------------------------------------------------------------------------------
  // Registering
  // ------------------------------------------------------------------------------------------

  datatype Verdict = Adopting(reply: Reply) | GiveUp | TryAgain

  /** One attempt: a conflict is answered by recovery; so is a refused token, but if that fails too the
      token is useless. Anything else is worth another attempt. */
  function Attempt(register: Reply, recover: Reply): (v: Verdict)
    ensures v.Adopting? ==> v.reply.Accepted?
  {
    if register.Accepted? then Adopting(register)
    else if register == Refused(CONFLICT) then if recover.Accepted? then Adopting(recover) else TryAgain
    else if register == Refused(UNAUTHORIZED) then if recover.Accepted? then Adopting(recover) else GiveUp
    else TryAgain
  }

  datatype Outcome = Registered | Cancelled | FatalConfig

  ghost predicate WaitsFrom(waits: seq<Duration>, first: Duration, max: Duration) {
    forall k | 0 <= k < |waits| :: waits[k] == WaitAfter(first, max, k) && waits[k] > 0
  }

  lemma OneMoreWait(waits: seq<Duration>, first: Duration, max: Duration, backoff: Duration)
    requires WaitsFrom(waits, first, max) && backoff == WaitAfter(first, max, |waits|)
    ensures WaitsFrom(waits + [backoff], first, max)
    ensures NextBackoff(backoff, max) == WaitAfter(first, max, |waits| + 1)
  {
    WaitsArePositive(first, max, |waits|);
    hide NextBackoff;
  }

  /** Neither accepted nor refused for good: worth another attempt. */
  predicate Inconclusive(register: Reply, recover: Reply) {
    && !register.Accepted?
    && (register == Refused(401) || register == Refused(409) ==> !recover.Accepted?)
    && register != Refused(401)
  }

  /** The answer an attempt ends with: the registration's own, or after a conflict or a refused token the
      recovery's. */
  predicate AnswersWith(register: Reply, recover: Reply, reply: Reply) {
    && reply.Accepted?
    && (reply == register || (reply == recover && (register == Refused(401) || register == Refused(409))))
  }

  lemma AttemptsAre(register: Reply, recover: Reply)
    ensures var v := Attempt(register, recover);
      && (v == TryAgain <==> Inconclusive(register, recover))
      && (v.Adopting? ==> AnswersWith(register, recover, v.reply))
      && (v == GiveUp <==> register == Refused(401) && !recover.Accepted?)
  {
  }

  /** How the retry loop may end after `tries` inconclusive attempts: cancelled, with a refused token that
      cannot recover either, or with an answer whose cluster and name the agent takes over. */
  ghost predicate Settled(register: nat -> Reply, recover: nat -> Reply, saved: bool, patience: nat,
                          outcome: Outcome, tries: nat, before: Local, after: Local, diskBefore: Local, diskAfter: Local) {
    && tries <= patience
    && (forall k | 0 <= k < tries :: Inconclusive(register(k), recover(k)))
    && (outcome == Cancelled <==> tries == patience)
    && match outcome
       case Cancelled => after == before && diskAfter == diskBefore
       case FatalConfig => register(tries) == Refused(401) && !recover(tries).Accepted? && after == before && diskAfter == diskBefore
       case Registered =>
         exists reply :: AnswersWith(register(tries), recover(tries), reply)
           && after == Local(if reply.agentID != "" then reply.agentID else before.agentID, reply.clusterID, true)
           && diskAfter == if saved then after else diskBefore
  }

  class Agent {
    const retryInterval: Duration
    const maxRetryInterval: Duration
    var state: Local
    var disk: Local

    /** Boot: a missing or corrupt state file starts fresh. */
    constructor (loaded: Option<Local>, configured: string, podUID: string, generated: string,
                 retryInterval: Duration, maxRetryInterval: Duration)
      ensures var found := if loaded.Some? then loaded.value else Empty;
              disk == found && state == Resolve(found, configured, podUID, generated)
      ensures loaded.Some? && loaded.value.agentID != "" ==> state == loaded.value
      ensures !(loaded.Some? && loaded.value.agentID != "") ==>
                state.agentID == (if configured != "" then configured else "agent-" + if podUID != "" then podUID else generated)
      ensures this.retryInterval == retryInterval && this.maxRetryInterval == maxRetryInterval
    {
      this.retryInterval, this.maxRetryInterval := retryInterval, maxRetryInterval;
      var found := if loaded.Some? then loaded.value else Empty;
      disk := found;
      var id := found.agentID;
      if id == "" {
        if configured != "" {
          id := configured;
        } else if podUID != "" {
          id := "agent-" + podUID;
        } else {
          id := "agent-" + generated;
        }
      }
      state := found.(agentID := id);
    }

    /** A failed save leaves the file as it was and is not an error. */
    method AdoptRegistration(reply: Reply, saved: bool)
      requires reply.Accepted?
      modifies this
      ensures state == Adopt(old(state), reply)
      ensures disk == if saved then state else old(disk)
    {
      var id := state.agentID;
      if reply.agentID != "" {
        id := reply.agentID;
      }
      state := Local(id, reply.clusterID, true);
      if saved {
        disk := state;
      }
    }

    method TryOnce(resp: Reply, rec: Reply, saved: bool) returns (v: Verdict)
      modifies this
      ensures v == Attempt(resp, rec)
      ensures state == if v.Adopting? then Adopt(old(state), v.reply) else old(state)
      ensures disk == if v.Adopting? && saved then state else old(disk)
    {
      if resp.Accepted? {
        AdoptRegistration(resp, saved);
        return Adopting(resp);
      }
      if resp == Refused(CONFLICT) || resp == Refused(UNAUTHORIZED) {
        if rec.Accepted? {
          AdoptRegistration(rec, saved);
          return Adopting(rec);
        }
        if resp == Refused(UNAUTHORIZED) {
          return GiveUp;
        }
      }
      v := TryAgain;
    }

    /** `register(i)` and `recover(i)` are what the control plane answers in attempt `i`; the context is
        cancelled after `patience` attempts. */
    method EnsureRegistered(register: nat -> Reply, recover: nat -> Reply, saved: bool, patience: nat)
      returns (outcome: Outcome, waits: seq<Duration>)
      modifies this
      ensures WaitsFrom(waits, retryInterval, maxRetryInterval)
      ensures old(state).registered && old(state).clusterID != "" ==>
                outcome == Registered && waits == [] && state == old(state) && disk == old(disk)
      ensures !(old(state).registered && old(state).clusterID != "") ==>
                Settled(register, recover, saved, patience, outcome, |waits|, old(state), state, old(disk), disk)
    {
      waits := [];
      if state.registered && state.clusterID != "" {
        return Registered, waits;
      }
      var backoff := retryInterval;
      if backoff <= 0 {
        backoff := DEFAULT_RETRY;
      }
      while |waits| < patience
        invariant |waits| <= patience && backoff == WaitAfter(retryInterval, maxRetryInterval, |waits|)
        invariant WaitsFrom(waits, retryInterval, maxRetryInterval)
        invariant forall k | 0 <= k < |waits| :: Inconclusive(register(k), recover(k))
        invariant state == old(state) && disk == old(disk)
        decreases patience - |waits|
      {
        hide Attempt, NextBackoff, WaitAfter, WaitsFrom, Inconclusive, AnswersWith;
        AttemptsAre(register(|waits|), recover(|waits|));
        var v := TryOnce(register(|waits|), recover(|waits|), saved);
        if v.Adopting? {
          return Registered, waits;
        }
        if v == GiveUp {
          return FatalConfig, waits;
        }
        OneMoreWait(waits, retryInterval, maxRetryInterval, backoff);
        waits := waits + [backoff];
        backoff := NextBackoff(backoff, maxRetryInterval);
      }
      outcome := Cancelled;
    }

    /** A heartbeat the control plane does not recognise triggers recovery, then registration; a
        mismatch or an outage changes nothing. */
    method SendHeartbeat(heartbeat: Reply, recover: Reply, register: Reply, saved: bool)
      modifies this
      ensures var rebuild := heartbeat == Refused(UNAUTHORIZED) || heartbeat == Refused(NOT_FOUND);
              && state == (if rebuild && recover.Accepted? then Adopt(old(state), recover)
                           else if rebuild && register.Accepted? then Adopt(old(state), register)
                           else old(state))
              && disk == if rebuild && (recover.Accepted? || register.Accepted?) && saved then state else old(disk)
    {
      if heartbeat == Refused(UNAUTHORIZED) || heartbeat == Refused(NOT_FOUND) {
        if recover.Accepted? {
          AdoptRegistration(recover, saved);
        } else if register.Accepted? {
          AdoptRegistration(register, saved);
        }
      }
    }
  }
}
