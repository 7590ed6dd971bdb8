/** The token-bucket rate limiter over exact reals: a Redis script that keeps the tokens left and
    the last refresh time under two keys that both expire, compared with a bucket that never does. */
module TokenBucket {
  import opened Prelude

  /** `rate` tokens per second, at most `capacity` of them. */
  datatype Config = Config(rate: real, capacity: real) {
    ghost predicate Valid() { rate > 0.0 && capacity > 0.0 }
  }

  /** A Redis string key set by SETEX: its value, and the instant from which it is gone. */
  datatype Stored = Stored(value: real, deadline: real)

  datatype Keys = Keys(tokens: Option<Stored>, timestamp: Option<Stored>)

  datatype Decision = Decision(allowed: bool, left: real)

  const NO_KEYS := Keys(None, None)

  function Ceil(x: real): int { -((-x).Floor) }

  function Ttl(cfg: Config): int
    requires cfg.rate > 0.0
  {
    Ceil(cfg.capacity / cfg.rate * 2.0)
  }

  function Get(k: Option<Stored>, now: real): Option<real> {
    if k.Some? && now < k.value.deadline then Some(k.value.value) else None
  }

  function Max(x: real, y: real): real { if x >= y then x else y }

  function Min(x: real, y: real): real { if x <= y then x else y }

  // ------------------------------------------------------------------------------------------
  // The script
  // ------------------------------------------------------------------------------------------

  /** What a bucket holds `delta` seconds later if nothing is taken. */
  function Refill(cfg: Config, tokens: real, delta: real): real {
    Min(cfg.capacity, tokens + delta * cfg.rate)
  }

  /** The refill and the decision, from the two values that were read. */
  function Decide(cfg: Config, tokens: Option<real>, timestamp: Option<real>, now: real, requested: real): Decision {
    var lastTokens := if tokens.Some? then tokens.value else cfg.capacity;
    var lastRefreshed := if timestamp.Some? then timestamp.value else 0.0;
    var filled := Refill(cfg, lastTokens, Max(0.0, now - lastRefreshed));
    Decision(filled >= requested, if filled >= requested then filled - requested else filled)
  }

  function Step(cfg: Config, k: Keys, now: real, requested: real): (Keys, Decision)
    requires cfg.rate > 0.0
  {
    var d := Decide(cfg, Get(k.tokens, now), Get(k.timestamp, now), now, requested);
    var deadline := now + Ttl(cfg) as real;
    (Keys(Some(Stored(d.left, deadline)), Some(Stored(now, deadline))), d)
  }

  /** One bucket, whose two keys every script run rewrites. */
  class Limiter {
    var tokens: Option<Stored>
    var timestamp: Option<Stored>

    ghost function State(): Keys
      reads this
    {
      Keys(tokens, timestamp)
    }

    constructor ()
      ensures State() == NO_KEYS
    {
      tokens, timestamp := None, None;
    }

    method Allow(cfg: Config, now: real, requested: real) returns (d: Decision)
      requires cfg.rate > 0.0
      modifies this
      ensures (State(), d) == Step(cfg, old(State()), now, requested)
    {
      var lastTokens := cfg.capacity;
      if tokens.Some? && now < tokens.value.deadline {
        lastTokens := tokens.value.value;
      }
      var lastRefreshed := 0.0;
      if timestamp.Some? && now < timestamp.value.deadline {
        lastRefreshed := timestamp.value.value;
      }
      var newTokens := Refill(cfg, lastTokens, Max(0.0, now - lastRefreshed));
      var allowed := newTokens >= requested;
      if allowed {
        newTokens := newTokens - requested;
      }
      var ttl := Ttl(cfg) as real;
      tokens := Some(Stored(newTokens, now + ttl));
      timestamp := Some(Stored(now, now + ttl));
      d := Decision(allowed, newTokens);
    }
  }

  // ------------------------------------------------------------------------------------------
  // Runs
  // ------------------------------------------------------------------------------------------

  datatype Call = Call(now: real, requested: real)

  /** The clock starts at or after the epoch and never goes back; nobody asks for less than nothing. */
  ghost predicate WellTimed(calls: seq<Call>) {
    && (forall i | 0 <= i < |calls| :: 0.0 <= calls[i].now && 0.0 <= calls[i].requested)
    && (forall i, j | 0 <= i < j < |calls| :: calls[i].now <= calls[j].now)
  }

  ghost function Run(cfg: Config, calls: seq<Call>): Keys
    requires cfg.rate > 0.0
  {
    if calls == [] then NO_KEYS
    else
      var c := calls[|calls| - 1];
      Step(cfg, Run(cfg, calls[..|calls| - 1]), c.now, c.requested).0
  }

  ghost function Answer(cfg: Config, calls: seq<Call>, c: Call): Decision
    requires cfg.rate > 0.0
  {
    Step(cfg, Run(cfg, calls), c.now, c.requested).1
  }

  /** The same bucket with keys that never expire: its tokens and last refresh, if ever called. */
  datatype Forever = Forever(tokens: Option<real>, timestamp: Option<real>)

  ghost function RunForever(cfg: Config, calls: seq<Call>): Forever
    decreases |calls|, 0
  {
    if calls == [] then Forever(None, None)
    else
      var c := calls[|calls| - 1];
      Forever(Some(AnswerForever(cfg, calls[..|calls| - 1], c).left), Some(c.now))
  }

  ghost function AnswerForever(cfg: Config, calls: seq<Call>, c: Call): Decision
    decreases |calls|, 1
  {
    var b := RunForever(cfg, calls);
    Decide(cfg, b.tokens, b.timestamp, c.now, c.requested)
  }

  /** Tokens handed out by the calls from the `from`-th on. */
  ghost function Granted(cfg: Config, calls: seq<Call>, from: nat): real
    requires cfg.rate > 0.0 && from <= |calls|
    decreases |calls|
  {
    if from == |calls| then 0.0
    else
      var front, c := calls[..|calls| - 1], calls[|calls| - 1];
      Granted(cfg, front, from) + if Answer(cfg, front, c).allowed then c.requested else 0.0
  }

  // ------------------------------------------------------------------------------------------
  // What the limiter promises
  // ------------------------------------------------------------------------------------------

  /** The keys hold a level within the capacity, and expire no earlier than two fill times later. */
  ghost predicate Valid(cfg: Config, k: Keys, now: real) {
    || k == NO_KEYS
    || (&& k.tokens.Some? && k.timestamp.Some?
        && 0.0 <= k.tokens.value.value <= cfg.capacity
        && 0.0 <= k.timestamp.value.value <= now
        && k.tokens.value.deadline == k.timestamp.value.deadline
        && (k.tokens.value.deadline - k.timestamp.value.value) * cfg.rate >= 2.0 * cfg.capacity)
  }

  lemma CeilIsAbove(x: real)
    ensures x <= Ceil(x) as real < x + 1.0
  {
  }

  lemma TtlFillsTwice(cfg: Config)
    requires cfg.Valid()
    ensures Ttl(cfg) as real * cfg.rate >= 2.0 * cfg.capacity && Ttl(cfg) >= 1
  {
    var fill := cfg.capacity / cfg.rate;
    CeilIsAbove(fill * 2.0);
    assert fill * cfg.rate == cfg.capacity;
    ScaleUp(fill * 2.0, Ttl(cfg) as real, cfg.rate);
  }

  lemma ScaleUp(x: real, y: real, k: real)
    requires x <= y && 0.0 <= k
    ensures x * k <= y * k
  {
  }

  lemma RefillInRange(cfg: Config, tokens: real, delta: real)
    requires cfg.Valid() && 0.0 <= tokens <= cfg.capacity && 0.0 <= delta
    ensures tokens <= Refill(cfg, tokens, delta) <= cfg.capacity
    ensures Refill(cfg, tokens, delta) <= tokens + cfg.rate * delta
    ensures delta * cfg.rate >= cfg.capacity ==> Refill(cfg, tokens, delta) == cfg.capacity
  {
    ScaleUp(0.0, delta, cfg.rate);
  }

  lemma StepKeepsValid(cfg: Config, k: Keys, before: real, c: Call)
    requires cfg.Valid() && Valid(cfg, k, before) && before <= c.now && 0.0 <= c.now && 0.0 <= c.requested
    ensures Valid(cfg, Step(cfg, k, c.now, c.requested).0, c.now)
  {
    hide Decide, Ttl;
    TtlFillsTwice(cfg);
    LeftInRange(cfg, Get(k.tokens, c.now), Get(k.timestamp, c.now), c);
    var k' := Step(cfg, k, c.now, c.requested).0;
    assert k'.tokens.value.deadline - c.now == Ttl(cfg) as real;
  }

  lemma LeftInRange(cfg: Config, tokens: Option<real>, timestamp: Option<real>, c: Call)
    requires cfg.Valid() && 0.0 <= c.requested
    requires tokens.Some? ==> 0.0 <= tokens.value <= cfg.capacity
    ensures 0.0 <= Decide(cfg, tokens, timestamp, c.now, c.requested).left <= cfg.capacity
  {
    RefillInRange(cfg, if tokens.Some? then tokens.value else cfg.capacity,
                  Max(0.0, c.now - if timestamp.Some? then timestamp.value else 0.0));
  }

  lemma ValidLater(cfg: Config, k: Keys, before: real, now: real)
    requires Valid(cfg, k, before) && before <= now
    ensures Valid(cfg, k, now)
  {
  }

  lemma RunStep(cfg: Config, calls: seq<Call>, c: Call)
    requires cfg.rate > 0.0
    ensures Run(cfg, calls + [c]) == Step(cfg, Run(cfg, calls), c.now, c.requested).0
  {
    assert (calls + [c])[..|calls|] == calls;
  }

  lemma {:induction false} RunIsValid(cfg: Config, calls: seq<Call>, now: real)
    requires cfg.Valid() && WellTimed(calls)
    requires 0.0 <= now && (calls != [] ==> calls[|calls| - 1].now <= now)
    ensures Valid(cfg, Run(cfg, calls), now)
  {
    if calls != [] {
      var front, c := calls[..|calls| - 1], calls[|calls| - 1];
      hide Valid, Step, Run;
      assert calls == front + [c];
      RunStep(cfg, front, c);
      Extends(front, c);
      RunIsValid(cfg, front, c.now);
      StepKeepsValid(cfg, Run(cfg, front), c.now, c);
      ValidLater(cfg, Run(cfg, calls), c.now, now);
    }
  }

  /** The stored level never leaves [0, capacity], at any point of any run. */
  lemma LevelStaysInRange(cfg: Config, calls: seq<Call>, c: Call)
    requires cfg.Valid() && WellTimed(calls + [c])
    ensures 0.0 <= Answer(cfg, calls, c).left <= cfg.capacity
    ensures Run(cfg, calls + [c]).tokens.value.value == Answer(cfg, calls, c).left
  {
    Extends(calls, c);
    RunIsValid(cfg, calls, c.now);
    StepKeepsValid(cfg, Run(cfg, calls), c.now, c);
    assert (calls + [c])[..|calls|] == calls;
  }

  lemma Extends(calls: seq<Call>, c: Call)
    requires WellTimed(calls + [c])
    ensures WellTimed(calls) && 0.0 <= c.now && 0.0 <= c.requested
    ensures calls != [] ==> calls[|calls| - 1].now <= c.now
  {
    var all := calls + [c];
    assert forall i | 0 <= i < |calls| :: all[i] == calls[i];
    assert all[|calls|] == c;
  }

  /** Keys that have expired had refilled by then: a missing pair decides as the remembered pair would. */
  lemma ExpiredMeansFull(cfg: Config, k: Keys, before: real, c: Call)
    requires cfg.Valid() && Valid(cfg, k, before) && k != NO_KEYS && before <= c.now
    ensures Step(cfg, k, c.now, c.requested).1
            == Decide(cfg, Some(k.tokens.value.value), Some(k.timestamp.value.value), c.now, c.requested)
  {
    if c.now >= k.tokens.value.deadline {
      var since := k.timestamp.value.value;
      ScaleUp(k.tokens.value.deadline - since, c.now - since, cfg.rate);
      RefillInRange(cfg, k.tokens.value.value, c.now - since);
      RefillInRange(cfg, cfg.capacity, c.now);
    }
  }

  lemma {:induction false} SameMemory(cfg: Config, calls: seq<Call>)
    requires cfg.Valid() && WellTimed(calls)
    decreases |calls|, 0
    ensures
      var (k, b) := (Run(cfg, calls), RunForever(cfg, calls));
      if calls == [] then k == NO_KEYS && b == Forever(None, None)
      else k.tokens.Some? && k.timestamp.Some?
           && b == Forever(Some(k.tokens.value.value), Some(k.timestamp.value.value))
  {
    if calls != [] {
      var front, c := calls[..|calls| - 1], calls[|calls| - 1];
      assert calls == front + [c];
      ExpiryIsInvisible(cfg, front, c);
    }
  }

  /** Losing both keys at their TTL never changes a decision: over every run the script answers as the
      bucket that remembers for ever. */
  lemma {:induction false} ExpiryIsInvisible(cfg: Config, calls: seq<Call>, c: Call)
    requires cfg.Valid() && WellTimed(calls + [c])
    ensures Answer(cfg, calls, c) == AnswerForever(cfg, calls, c)
    decreases |calls|, 1
  {
    Extends(calls, c);
    SameMemory(cfg, calls);
    RunIsValid(cfg, calls, c.now);
    if calls != [] {
      ExpiredMeansFull(cfg, Run(cfg, calls), c.now, c);
    }
  }

  /** Tokens that flow in between two instants. */
  ghost function Inflow(cfg: Config, from: real, to: real): real {
    cfg.rate * (to - from)
  }

  ghost function Level(k: Keys): real
    requires k.tokens.Some?
  {
    k.tokens.value.value
  }

  /** One call: what it takes and what it leaves is at most what was there plus what has flowed in. */
  lemma Accounting(cfg: Config, k: Keys, c: Call)
    requires cfg.Valid() && Valid(cfg, k, c.now) && k != NO_KEYS && 0.0 <= c.requested
    ensures
      var d := Step(cfg, k, c.now, c.requested).1;
      d.left + (if d.allowed then c.requested else 0.0) <= Level(k) + Inflow(cfg, k.timestamp.value.value, c.now)
  {
    ExpiredMeansFull(cfg, k, c.now, c);
    RefillInRange(cfg, Level(k), c.now - k.timestamp.value.value);
  }

  lemma {:induction false} GrantedWithLevel(cfg: Config, calls: seq<Call>, from: nat)
    requires cfg.Valid() && WellTimed(calls) && from < |calls|
    ensures Run(cfg, calls).tokens.Some?
    ensures Granted(cfg, calls, from) + Level(Run(cfg, calls))
            <= cfg.capacity + Inflow(cfg, calls[from].now, calls[|calls| - 1].now)
  {
    var front, c := calls[..|calls| - 1], calls[|calls| - 1];
    hide Valid, Step, Run, Granted, Answer, WellTimed, Inflow;
    assert calls == front + [c];
    Extends(front, c);
    RunIsValid(cfg, front, c.now);
    GrantedGrows(cfg, calls, from);
    if from < |front| {
      GrantedWithLevel(cfg, front, from);
      AccountingInRun(cfg, front, c);
      InflowAdds(cfg, calls[from].now, front[|front| - 1].now, c.now);
    } else {
      NothingGranted(cfg, front);
      FirstGrant(cfg, Run(cfg, front), c);
      InflowIs(cfg, c.now, c.now);
    }
  }

  lemma NothingGranted(cfg: Config, calls: seq<Call>)
    requires cfg.rate > 0.0
    ensures Granted(cfg, calls, |calls|) == 0.0
  {
  }

  lemma AccountingInRun(cfg: Config, calls: seq<Call>, c: Call)
    requires cfg.Valid() && Valid(cfg, Run(cfg, calls), c.now) && calls != [] && 0.0 <= c.requested
    requires Run(cfg, calls).tokens.Some?
    ensures
      var d := Answer(cfg, calls, c);
      d.left + (if d.allowed then c.requested else 0.0)
      <= Level(Run(cfg, calls)) + Inflow(cfg, calls[|calls| - 1].now, c.now)
  {
    LastRefresh(cfg, calls);
    hide Valid, Step, Run, Inflow;
    Accounting(cfg, Run(cfg, calls), c);
  }

  lemma InflowAdds(cfg: Config, t0: real, t1: real, t2: real)
    ensures Inflow(cfg, t0, t1) + Inflow(cfg, t1, t2) == Inflow(cfg, t0, t2)
  {
  }

  lemma InflowWidens(cfg: Config, from: real, to: real, from': real, to': real)
    requires cfg.Valid() && from' <= from && to <= to'
    ensures Inflow(cfg, from, to) <= Inflow(cfg, from', to')
  {
    ScaleUp(to - from, to' - from', cfg.rate);
  }

  lemma GrantedGrows(cfg: Config, calls: seq<Call>, from: nat)
    requires cfg.Valid() && from < |calls|
    ensures
      var (front, c) := (calls[..|calls| - 1], calls[|calls| - 1]);
      var d := Answer(cfg, front, c);
      && Granted(cfg, calls, from) == Granted(cfg, front, from) + (if d.allowed then c.requested else 0.0)
      && Run(cfg, calls).tokens.Some? && Level(Run(cfg, calls)) == d.left
  {
  }

  /** One call never takes more than a full bucket holds. */
  lemma FirstGrant(cfg: Config, k: Keys, c: Call)
    requires cfg.Valid() && Valid(cfg, k, c.now) && 0.0 <= c.requested && 0.0 <= c.now
    ensures
      var d := Step(cfg, k, c.now, c.requested).1;
      0.0 <= d.left && d.left + (if d.allowed then c.requested else 0.0) <= cfg.capacity
  {
    if k == NO_KEYS {
      RefillInRange(cfg, cfg.capacity, c.now);
    } else {
      ExpiredMeansFull(cfg, k, c.now, c);
      RefillInRange(cfg, Level(k), c.now - k.timestamp.value.value);
    }
  }

  lemma LastRefresh(cfg: Config, calls: seq<Call>)
    requires cfg.Valid() && calls != []
    ensures Run(cfg, calls).timestamp.Some? && Run(cfg, calls).timestamp.value.value == calls[|calls| - 1].now
  {
  }

  /** Over any stretch of any run that lies in [start, end], the tokens granted never exceed the
      capacity plus what flows in between the two instants. */
  lemma GrantsAreBounded(cfg: Config, calls: seq<Call>, from: nat, start: real, end: real)
    requires cfg.Valid() && WellTimed(calls) && from < |calls|
    requires start <= calls[from].now && calls[|calls| - 1].now <= end
    ensures Granted(cfg, calls, from) <= cfg.capacity + cfg.rate * (end - start)
  {
    var front, c := calls[..|calls| - 1], calls[|calls| - 1];
    hide Valid, Step, Run, Granted, Answer, Inflow, WellTimed;
    assert calls == front + [c];
    GrantedWithLevel(cfg, calls, from);
    LevelStaysInRange(cfg, front, c);
    InflowWidens(cfg, calls[from].now, c.now, start, end);
    InflowIs(cfg, start, end);
  }

  lemma InflowIs(cfg: Config, from: real, to: real)
    ensures Inflow(cfg, from, to) == cfg.rate * (to - from)
  {
  }

  // ------------------------------------------------------------------------------------------
  // Exactly what is granted
  // ------------------------------------------------------------------------------------------

  /** The bucket as it stands when the next call comes. */
  ghost function Filled(cfg: Config, calls: seq<Call>, now: real): real
    requires cfg.Valid()
  {
    var k := Run(cfg, calls);
    if calls == [] || k.tokens.None? then cfg.capacity
    else Min(cfg.capacity, Level(k) + Inflow(cfg, calls[|calls| - 1].now, now))
  }

  lemma DecideFills(cfg: Config, level: real, last: real, now: real, requested: real)
    requires last <= now
    ensures var filled := Min(cfg.capacity, level + Inflow(cfg, last, now));
      Decide(cfg, Some(level), Some(last), now, requested)
        == Decision(filled >= requested, if filled >= requested then filled - requested else filled)
  {
  }

  lemma AnswerByFilling(cfg: Config, calls: seq<Call>, c: Call)
    requires cfg.Valid() && WellTimed(calls + [c])
    ensures var d := Answer(cfg, calls, c); var filled := Filled(cfg, calls, c.now);
      && (d.allowed <==> c.requested <= filled)
      && d.left == filled - if d.allowed then c.requested else 0.0
  {
    Extends(calls, c);
    RunIsValid(cfg, calls, c.now);
    hide Run, Step, Valid, Decide, Inflow;
    if calls == [] {
      EmptyBucketIsFull(cfg, c);
    } else {
      LastRefresh(cfg, calls);
      var k := Run(cfg, calls);
      StoredTogether(cfg, k, c.now);
      ExpiredMeansFull(cfg, k, c.now, c);
      DecideFills(cfg, k.tokens.value.value, k.timestamp.value.value, c.now, c.requested);
    }
  }

  lemma StoredTogether(cfg: Config, k: Keys, now: real)
    requires Valid(cfg, k, now) && k.timestamp.Some?
    ensures k != NO_KEYS && k.tokens.Some?
  {
  }

  lemma EmptyBucketIsFull(cfg: Config, c: Call)
    requires cfg.Valid() && 0.0 <= c.now
    ensures var d := Answer(cfg, [], c);
      (d.allowed <==> c.requested <= cfg.capacity) && d.left == cfg.capacity - if d.allowed then c.requested else 0.0
  {
    ScaleUp(0.0, c.now, cfg.rate);
  }

  /** The level is what one of the calls so far leaves of a full bucket: the last that found it full. */
  lemma {:induction false} LevelIsAttained(cfg: Config, calls: seq<Call>) returns (j: nat)
    requires cfg.Valid() && WellTimed(calls) && calls != []
    ensures j < |calls| && Run(cfg, calls).tokens.Some?
    ensures Granted(cfg, calls, j) + Level(Run(cfg, calls)) == cfg.capacity + Inflow(cfg, calls[j].now, calls[|calls| - 1].now)
  {
    var front, c := calls[..|calls| - 1], calls[|calls| - 1];
    hide Valid, Step, Run, Granted, Answer, WellTimed, Inflow;
    assert calls == front + [c];
    Extends(front, c);
    AnswerByFilling(cfg, front, c);
    j := |front|;
    GrantedGrows(cfg, calls, j);
    NothingGranted(cfg, front);
    InflowIs(cfg, c.now, c.now);
    if front != [] && Filled(cfg, front, c.now) != cfg.capacity {
      var i := LevelIsAttained(cfg, front);
      InflowAdds(cfg, front[i].now, front[|front| - 1].now, c.now);
      j := i;
      GrantedGrows(cfg, calls, j);
    }
  }

  lemma FillingIsBounded(cfg: Config, calls: seq<Call>, now: real, j: nat)
    requires cfg.Valid() && WellTimed(calls) && j < |calls| && calls[|calls| - 1].now <= now
    ensures Granted(cfg, calls, j) + Filled(cfg, calls, now) <= cfg.capacity + Inflow(cfg, calls[j].now, now)
  {
    hide Valid, Step, Run, Granted, WellTimed, Inflow;
    GrantedWithLevel(cfg, calls, j);
    InflowAdds(cfg, calls[j].now, calls[|calls| - 1].now, now);
  }

  lemma FillingIsAttained(cfg: Config, calls: seq<Call>, now: real) returns (j: nat)
    requires cfg.Valid() && WellTimed(calls) && Filled(cfg, calls, now) != cfg.capacity
    ensures j < |calls| && Granted(cfg, calls, j) + Filled(cfg, calls, now) == cfg.capacity + Inflow(cfg, calls[j].now, now)
  {
    hide Valid, Step, Run, Granted, WellTimed, Inflow;
    j := LevelIsAttained(cfg, calls);
    InflowAdds(cfg, calls[j].now, calls[|calls| - 1].now, now);
  }

  lemma FilledFits(cfg: Config, calls: seq<Call>, now: real)
    requires cfg.Valid()
    ensures Filled(cfg, calls, now) <= cfg.capacity
  {
    hide Run, Inflow;
  }

  lemma LastCallBefore(calls: seq<Call>, c: Call)
    requires WellTimed(calls + [c]) && calls != []
    ensures calls[|calls| - 1].now <= c.now
  {
    assert (calls + [c])[|calls| - 1] == calls[|calls| - 1] && (calls + [c])[|calls|] == c;
  }

  /** A request is granted exactly if it fits the bucket and, from every earlier call on, what was granted
      and what is asked for fit the capacity plus what has flowed in since: the limiter grants all that
      its bound allows. */
  lemma GrantsExactlyWithinBound(cfg: Config, calls: seq<Call>, c: Call)
    requires cfg.Valid() && WellTimed(calls + [c])
    ensures Answer(cfg, calls, c).allowed <==>
      c.requested <= cfg.capacity && forall j | 0 <= j < |calls| :: FitsSince(cfg, calls, c, j)
  {
    Extends(calls, c);
    AnswerByFilling(cfg, calls, c);
    FilledFits(cfg, calls, c.now);
    hide Run, Granted, Answer, WellTimed, Inflow, Filled, FitsSince;
    forall j | 0 <= j < |calls| && c.requested <= Filled(cfg, calls, c.now) ensures FitsSince(cfg, calls, c, j) {
      LastCallBefore(calls, c);
      FillingIsBounded(cfg, calls, c.now, j);
      FitsByInflow(cfg, calls, c, j);
    }
    if Filled(cfg, calls, c.now) < c.requested <= cfg.capacity {
      var j := FillingIsAttained(cfg, calls, c.now);
      FitsByInflow(cfg, calls, c, j);
    }
  }

  /** Does the request fit what the bound leaves since call `j`? */
  ghost predicate FitsSince(cfg: Config, calls: seq<Call>, c: Call, j: nat)
    requires cfg.Valid() && j < |calls|
  {
    Granted(cfg, calls, j) + c.requested <= cfg.capacity + cfg.rate * (c.now - calls[j].now)
  }

  lemma FitsByInflow(cfg: Config, calls: seq<Call>, c: Call, j: nat)
    requires cfg.Valid() && j < |calls|
    ensures FitsSince(cfg, calls, c, j) <==> Granted(cfg, calls, j) + c.requested <= cfg.capacity + Inflow(cfg, calls[j].now, c.now)
  {
    hide Granted;
  }

  /** A clock that goes back breaks the bound: the older timestamp is stored, so the same second is
      paid out twice and a bucket of one grants three tokens within one second. */
  lemma ClockGoingBackOverGrants()
    ensures
      var cfg := Config(1.0, 1.0);
      var calls := [Call(1.0, 1.0), Call(2.0, 1.0), Call(1.0, 0.0), Call(2.0, 1.0)];
      Granted(cfg, calls, 0) == 3.0
  {
    hide Run, Step, Granted, Ttl;
    var cfg := Config(1.0, 1.0);
    var a, b, c := Call(1.0, 1.0), Call(2.0, 1.0), Call(1.0, 0.0);
    var k1 := Keys(Some(Stored(0.0, 3.0)), Some(Stored(1.0, 3.0)));
    var k2 := Keys(Some(Stored(0.0, 4.0)), Some(Stored(2.0, 4.0)));
    SecondStep(cfg, NO_KEYS, a);
    SecondStep(cfg, k1, b);
    SecondStep(cfg, k2, c);
    SecondStep(cfg, k1, b);
    EmptyRun(cfg);
    GrantedAppend(cfg, [], a);
    GrantedAppend(cfg, [a], b);
    GrantedAppend(cfg, [a, b], c);
    GrantedAppend(cfg, [a, b, c], b);
    assert [] + [a] == [a] && [a] + [b] == [a, b] && [a, b] + [c] == [a, b, c] && [a, b, c] + [b] == [a, b, c, b];
  }

  /** One script run with a rate and a capacity of one, on unexpired keys. */
  lemma SecondStep(cfg: Config, k: Keys, c: Call)
    requires cfg == Config(1.0, 1.0) && 1.0 <= c.now
    requires k != NO_KEYS ==>
               && k.tokens.Some? && k.timestamp.Some? && k.tokens.value.value == 0.0
               && c.now < k.tokens.value.deadline && c.now < k.timestamp.value.deadline
    ensures
      var since := if k == NO_KEYS then 1.0 else Max(0.0, c.now - k.timestamp.value.value);
      var filled := Min(1.0, since);
      var left := if filled >= c.requested then filled - c.requested else filled;
      Step(cfg, k, c.now, c.requested)
      == (Keys(Some(Stored(left, c.now + 2.0)), Some(Stored(c.now, c.now + 2.0))), Decision(filled >= c.requested, left))
  {
    assert Ttl(cfg) == 2;
  }

  lemma EmptyRun(cfg: Config)
    requires cfg.rate > 0.0
    ensures Run(cfg, []) == NO_KEYS && Granted(cfg, [], 0) == 0.0
  {
  }

  lemma GrantedAppend(cfg: Config, calls: seq<Call>, c: Call)
    requires cfg.rate > 0.0
    ensures Run(cfg, calls + [c]) == Step(cfg, Run(cfg, calls), c.now, c.requested).0
    ensures Granted(cfg, calls + [c], 0)
            == Granted(cfg, calls, 0) + if Step(cfg, Run(cfg, calls), c.now, c.requested).1.allowed then c.requested else 0.0
  {
    assert (calls + [c])[..|calls|] == calls;
  }
}
