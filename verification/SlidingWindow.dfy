/** The sliding-window rate limiter: a Redis sorted set that one Lua script prunes, counts and
    extends atomically, compared with the complete history of admissions that it never stores. */
module SlidingWindow {
  /** One request's sorted-set member, `now .. ':' .. random`. The score is the `now` part. */
  datatype Member = Member(at: int, draw: nat)

  /** Script arguments; the window is in milliseconds. */
  datatype Config = Config(window: nat, limit: int, burst: int) {
    function Effective(): int { limit + burst }
  }

  datatype Decision = Decision(allowed: bool, limit: int, remaining: int, retryAfter: int)

  /** The Redis key: the sorted set, and the instant from which Redis may drop it. */
  datatype Key = Key(scores: map<Member, int>, deadline: int)

  const NO_KEY := Key(map[], 0)

  // ------------------------------------------------------------------------------------------
  // The script
  // ------------------------------------------------------------------------------------------

  function Live(k: Key, now: int): map<Member, int> {
    if now >= k.deadline then map[] else k.scores
  }

  function Prune(scores: map<Member, int>, cutoff: int): map<Member, int> {
    map m | m in scores && scores[m] > cutoff :: scores[m]
  }

  /** `EXPIRE key ceil(window / 1000) + 1`, in seconds, turned into a deadline in milliseconds. */
  function Deadline(window: nat, now: int): int {
    now + ((window + 999) / 1000 + 1) * 1000
  }

  ghost predicate IsOldest(scores: map<Member, int>, score: int) {
    (exists m :: m in scores && scores[m] == score) && forall m | m in scores :: score <= scores[m]
  }

  lemma {:induction false} OldestExists(scores: map<Member, int>)
    requires scores != map[]
    ensures exists score :: IsOldest(scores, score)
    decreases |scores|
  {
    var m :| m in scores;
    var rest := scores - {m};
    if rest == map[] {
      assert forall n | n in scores && n != m :: n in rest;
      assert IsOldest(scores, scores[m]);
    } else {
      assert |rest| < |scores| by { assert scores.Keys == rest.Keys + {m}; }
      OldestExists(rest);
      var score :| IsOldest(rest, score);
      var n :| n in rest && rest[n] == score;
      var least := if scores[m] <= score then m else n;
      assert forall p | p in scores :: scores[least] <= scores[p] by {
        forall p | p in scores ensures scores[least] <= scores[p] { if p != m { assert p in rest; } }
      }
      assert IsOldest(scores, scores[least]);
    }
  }

  ghost function Oldest(scores: map<Member, int>): (score: int)
    requires scores != map[]
    ensures IsOldest(scores, score)
  {
    OldestExists(scores);
    var score :| IsOldest(scores, score); score
  }

  ghost function Step(cfg: Config, k: Key, now: int, draw: nat): (Key, Decision) {
    var kept := Prune(Live(k, now), now - cfg.window);
    if |kept| < cfg.Effective() then
      (Key(kept[Member(now, draw) := now], Deadline(cfg.window, now)),
       Decision(true, cfg.Effective(), cfg.Effective() - |kept| - 1, cfg.window))
    else
      (Key(kept, k.deadline),
       Decision(false, cfg.Effective(), 0, if kept == map[] then 0 else Oldest(kept) + cfg.window - now))
  }

  /** The limiter's state for one key, updated in place by each script run. */
  class Limiter {
    var scores: map<Member, int>
    var deadline: int

    ghost function State(): Key
      reads this
    {
      Key(scores, deadline)
    }

    constructor ()
      ensures State() == NO_KEY
    {
      scores, deadline := map[], 0;
    }

    method Allow(cfg: Config, now: int, draw: nat) returns (d: Decision)
      modifies this
      ensures (State(), d) == Step(cfg, old(State()), now, draw)
    {
      if now >= deadline {
        scores := map[];
      }
      scores := map m | m in scores && scores[m] > now - cfg.window :: scores[m];
      assert scores == Prune(Live(old(State()), now), now - cfg.window);
      var count := |scores|;
      if count < cfg.Effective() {
        scores := scores[Member(now, draw) := now];
        deadline := Deadline(cfg.window, now);
        d := Decision(true, cfg.Effective(), cfg.Effective() - count - 1, cfg.window);
      } else {
        var retryAfter := 0;
        if scores != map[] {
          var oldest := OldestScore(scores);
          retryAfter := oldest + cfg.window - now;
        }
        d := Decision(false, cfg.Effective(), 0, retryAfter);
      }
    }
  }

  /** `ZRANGE key 0 0 WITHSCORES`. */
  method OldestScore(scores: map<Member, int>) returns (score: int)
    requires scores != map[]
    ensures IsOldest(scores, score)
  {
    var todo := scores.Keys;
    var m :| m in todo;
    score, todo := scores[m], todo - {m};
    while todo != {}
      invariant todo <= scores.Keys
      invariant exists m :: m in scores && scores[m] == score
      invariant forall m | m in scores && m !in todo :: score <= scores[m]
      decreases |todo|
    {
      m :| m in todo;
      if scores[m] < score {
        score := scores[m];
      }
      todo := todo - {m};
    }
  }

  // ------------------------------------------------------------------------------------------
  // Runs, and the history the script does not keep
  // ------------------------------------------------------------------------------------------

  datatype Call = Call(now: int, draw: nat)

  /** The key after a run of calls, and every admission so far in order. */
  datatype Trace = Trace(key: Key, admitted: seq<Member>)

  ghost function Run(cfg: Config, calls: seq<Call>): Trace {
    if calls == [] then Trace(NO_KEY, [])
    else
      var before := Run(cfg, calls[..|calls| - 1]);
      var c := calls[|calls| - 1];
      var (key, d) := Step(cfg, before.key, c.now, c.draw);
      Trace(key, if d.allowed then before.admitted + [Member(c.now, c.draw)] else before.admitted)
  }

  /** What the script answers to a call made after a run. */
  ghost function Answer(cfg: Config, calls: seq<Call>, c: Call): Decision {
    Step(cfg, Run(cfg, calls).key, c.now, c.draw).1
  }

  /** The caller's clock never goes back, and no two calls draw the same member. */
  ghost predicate WellTimed(calls: seq<Call>) {
    && (forall i, j | 0 <= i < j < |calls| :: calls[i].now <= calls[j].now)
    && (forall i, j | 0 <= i < j < |calls| :: calls[i] != calls[j])
  }

  /** Admissions in the half-open window (from, to]. */
  ghost function CountIn(admitted: seq<Member>, from: int, to: int): nat {
    if admitted == [] then 0
    else
      CountIn(admitted[..|admitted| - 1], from, to)
      + if from < admitted[|admitted| - 1].at <= to then 1 else 0
  }

  ghost predicate Distinct(admitted: seq<Member>) {
    forall i, j | 0 <= i < j < |admitted| :: admitted[i] != admitted[j]
  }

  ghost function InWindow(admitted: seq<Member>, from: int, to: int): set<Member> {
    set m | m in admitted && from < m.at <= to
  }

  lemma InWindowGrows(admitted: seq<Member>, last: Member, from: int, to: int)
    ensures InWindow(admitted + [last], from, to)
            == InWindow(admitted, from, to) + if from < last.at <= to then {last} else {}
  {
  }

  lemma {:induction false} CountIsCardinality(admitted: seq<Member>, from: int, to: int)
    requires Distinct(admitted)
    ensures CountIn(admitted, from, to) == |InWindow(admitted, from, to)|
  {
    if admitted == [] {
      assert InWindow(admitted, from, to) == {};
    } else {
      var front, last := admitted[..|admitted| - 1], admitted[|admitted| - 1];
      CountIsCardinality(front, from, to);
      assert admitted == front + [last];
      assert last !in front;
      InWindowGrows(front, last, from, to);
    }
  }

  /** The key and the history agree: whatever is stored was admitted, and whatever was admitted
      but is no longer stored (pruned, or dropped with the key) has left every window from `now` on. */
  ghost predicate Agrees(cfg: Config, t: Trace, now: int) {
    && Distinct(t.admitted)
    && (forall m | m in t.key.scores :: m in t.admitted && t.key.scores[m] == m.at)
    && (forall m | m in t.admitted :: m.at <= now)
    && (forall m | m in t.admitted && m !in t.key.scores :: m.at <= now - cfg.window)
    && (forall m | m in t.admitted :: m.at + cfg.window < t.key.deadline)
  }

  lemma PrunedIsWindow(cfg: Config, t: Trace, before: int, now: int)
    requires Agrees(cfg, t, before) && before <= now
    ensures Prune(Live(t.key, now), now - cfg.window).Keys == InWindow(t.admitted, now - cfg.window, now)
    ensures |Prune(Live(t.key, now), now - cfg.window)| == CountIn(t.admitted, now - cfg.window, now)
    ensures forall m | m in Prune(Live(t.key, now), now - cfg.window) :: Prune(Live(t.key, now), now - cfg.window)[m] == m.at
  {
    var kept := Prune(Live(t.key, now), now - cfg.window);
    CountIsCardinality(t.admitted, now - cfg.window, now);
    assert kept.Keys == InWindow(t.admitted, now - cfg.window, now);
    assert |kept| == |kept.Keys|;
  }

  lemma StepAgrees(cfg: Config, t: Trace, before: int, c: Call)
    requires Agrees(cfg, t, before) && before <= c.now
    requires Member(c.now, c.draw) !in t.admitted
    ensures
      var (key, d) := Step(cfg, t.key, c.now, c.draw);
      Agrees(cfg, Trace(key, if d.allowed then t.admitted + [Member(c.now, c.draw)] else t.admitted), c.now)
  {
    hide Prune, Live, Agrees, InWindow, CountIn, Deadline, Oldest;
    var kept := Prune(Live(t.key, c.now), c.now - cfg.window);
    PrunedIsWindow(cfg, t, before, c.now);
    PruningAgrees(cfg, t, before, c.now, kept);
    if |kept| < cfg.Effective() {
      AdmittingAgrees(cfg, Trace(Key(kept, t.key.deadline), t.admitted), c);
    }
  }

  lemma PruningAgrees(cfg: Config, t: Trace, before: int, now: int, kept: map<Member, int>)
    requires Agrees(cfg, t, before) && before <= now
    requires kept.Keys == InWindow(t.admitted, now - cfg.window, now) && forall m | m in kept :: kept[m] == m.at
    ensures Agrees(cfg, Trace(Key(kept, t.key.deadline), t.admitted), now)
  {
    assert forall m | m in kept :: m in kept.Keys;
    forall m | m in t.admitted && m !in kept
      ensures m.at <= now - cfg.window
    {
      assert m !in InWindow(t.admitted, now - cfg.window, now);
    }
  }

  lemma AdmittingAgrees(cfg: Config, t: Trace, c: Call)
    requires Agrees(cfg, t, c.now) && Member(c.now, c.draw) !in t.admitted
    ensures
      var m := Member(c.now, c.draw);
      Agrees(cfg, Trace(Key(t.key.scores[m := c.now], Deadline(cfg.window, c.now)), t.admitted + [m]), c.now)
  {
  }

  ghost function LastTime(calls: seq<Call>): int
    requires calls != []
  {
    calls[|calls| - 1].now
  }

  lemma {:induction false} AdmittedWereCalled(cfg: Config, calls: seq<Call>)
    ensures forall m | m in Run(cfg, calls).admitted :: Call(m.at, m.draw) in calls
  {
    if calls != [] {
      AdmittedWereCalled(cfg, calls[..|calls| - 1]);
    }
  }

  lemma {:induction false} RunAgrees(cfg: Config, calls: seq<Call>, now: int)
    requires WellTimed(calls)
    requires calls != [] ==> LastTime(calls) <= now
    ensures Agrees(cfg, Run(cfg, calls), now)
  {
    if calls != [] {
      var front, c := calls[..|calls| - 1], calls[|calls| - 1];
      RunAgrees(cfg, front, c.now);
      AdmittedWereCalled(cfg, front);
      assert calls == front + [c];
      assert c !in front;
      StepAgrees(cfg, Run(cfg, front), c.now, c);
    }
  }

  // ------------------------------------------------------------------------------------------
  // What the limiter promises
  // ------------------------------------------------------------------------------------------

  /** Pruning and key expiry are invisible: a call is admitted exactly when fewer than limit + burst
      admissions of the whole history lie in the window that ends now. */
  lemma DecidesAsFullHistory(cfg: Config, calls: seq<Call>, c: Call)
    requires WellTimed(calls + [c])
    ensures
      var inWindow := CountIn(Run(cfg, calls).admitted, c.now - cfg.window, c.now);
      && (Answer(cfg, calls, c).allowed <==> inWindow < cfg.limit + cfg.burst)
      && Answer(cfg, calls, c).limit == cfg.limit + cfg.burst
      && (Answer(cfg, calls, c).allowed ==> Answer(cfg, calls, c).remaining == cfg.limit + cfg.burst - inWindow - 1)
      && (Answer(cfg, calls, c).allowed ==> Answer(cfg, calls, c).retryAfter == cfg.window)
      && (!Answer(cfg, calls, c).allowed ==> Answer(cfg, calls, c).remaining == 0)
  {
    Extends(calls, c);
    RunAgrees(cfg, calls, c.now);
    StepDecides(cfg, Run(cfg, calls), c);
  }

  lemma StepDecides(cfg: Config, t: Trace, c: Call)
    requires Agrees(cfg, t, c.now)
    ensures
      var (inWindow, d) := (CountIn(t.admitted, c.now - cfg.window, c.now), Step(cfg, t.key, c.now, c.draw).1);
      && (d.allowed <==> inWindow < cfg.limit + cfg.burst)
      && d.limit == cfg.limit + cfg.burst
      && (d.allowed ==> d.remaining == cfg.limit + cfg.burst - inWindow - 1 && d.retryAfter == cfg.window)
      && (!d.allowed ==> d.remaining == 0)
  {
    PrunedIsWindow(cfg, t, c.now, c.now);
  }

  lemma Extends(calls: seq<Call>, c: Call)
    requires WellTimed(calls + [c])
    ensures WellTimed(calls)
    ensures calls != [] ==> LastTime(calls) <= c.now
  {
    var all := calls + [c];
    assert forall i | 0 <= i < |calls| :: all[i] == calls[i];
    assert all[|calls|] == c;
  }

  lemma RunGrows(cfg: Config, calls: seq<Call>, c: Call)
    ensures Run(cfg, calls + [c]).admitted
            == Run(cfg, calls).admitted + if Answer(cfg, calls, c).allowed then [Member(c.now, c.draw)] else []
  {
    assert (calls + [c])[..|calls|] == calls;
  }

  lemma {:induction false} CountShrinks(admitted: seq<Member>, from: int, to: int, from': int, to': int)
    requires from <= from' && forall m | m in admitted :: m.at <= to
    ensures CountIn(admitted, from', to') <= CountIn(admitted, from, to)
    ensures (exists m :: m in admitted && from < m.at <= from')
            ==> CountIn(admitted, from', to') < CountIn(admitted, from, to)
  {
    if admitted != [] {
      var front := admitted[..|admitted| - 1];
      assert admitted == front + [admitted[|admitted| - 1]];
      CountShrinks(front, from, to, from', to');
    }
  }

  lemma AdmittedInPast(cfg: Config, calls: seq<Call>, now: int)
    requires WellTimed(calls) && (calls != [] ==> LastTime(calls) <= now)
    ensures forall m | m in Run(cfg, calls).admitted :: m.at <= now
  {
    RunAgrees(cfg, calls, now);
  }

  lemma NothingAdmittedYet(cfg: Config)
    ensures Run(cfg, []) == Trace(NO_KEY, [])
  {
  }

  /** No window of the configured length, wherever it ends, holds more than limit + burst admissions. */
  lemma {:induction false} NoWindowOverflows(cfg: Config, calls: seq<Call>, end: int)
    requires WellTimed(calls)
    ensures CountIn(Run(cfg, calls).admitted, end - cfg.window, end)
            <= if cfg.limit + cfg.burst < 0 then 0 else cfg.limit + cfg.burst
  {
    hide Step, Run, Answer, WellTimed;
    if calls == [] {
      assert Run(cfg, calls).admitted == [] by { NothingAdmittedYet(cfg); }
    } else {
      var front, c := calls[..|calls| - 1], calls[|calls| - 1];
      assert calls == front + [c];
      Extends(front, c);
      NoWindowOverflows(cfg, front, end);
      DecidesAsFullHistory(cfg, front, c);
      RunGrows(cfg, front, c);
      var before, after := Run(cfg, front).admitted, Run(cfg, calls).admitted;
      if Answer(cfg, front, c).allowed {
        assert after[..|after| - 1] == before;
        if c.now <= end {
          AdmittedInPast(cfg, front, c.now);
          CountShrinks(before, c.now - cfg.window, c.now, end - cfg.window, end);
        }
      } else {
        assert after == before;
      }
    }
  }

  /** Calls none of which is admitted leave the history as it was. */
  lemma {:induction false} DeniedRunKeepsHistory(cfg: Config, calls: seq<Call>, denied: seq<Call>)
    requires forall i | 0 <= i < |denied| :: !Answer(cfg, calls + denied[..i], denied[i]).allowed
    ensures Run(cfg, calls + denied).admitted == Run(cfg, calls).admitted
  {
    hide Step, Run, Answer;
    if denied == [] {
      assert calls + denied == calls;
    } else {
      var front, c := denied[..|denied| - 1], denied[|denied| - 1];
      assert forall i | 0 <= i < |front| :: front[..i] == denied[..i];
      DeniedRunKeepsHistory(cfg, calls, front);
      assert calls + denied == (calls + front) + [c];
      RunGrows(cfg, calls + front, c);
    }
  }

  /** On denial, `retryAfter` is exactly the wait: as long as nothing else is admitted, a later call
      is admitted if and only if it comes at least `retryAfter` milliseconds after the denied one. */
  lemma RetryAfterIsExact(cfg: Config, calls: seq<Call>, c: Call, between: seq<Call>, later: Call)
    requires cfg.Effective() >= 1
    requires WellTimed(calls + [c] + between + [later])
    requires !Answer(cfg, calls, c).allowed
    requires forall i | 0 <= i < |between| :: !Answer(cfg, calls + [c] + between[..i], between[i]).allowed
    ensures Answer(cfg, calls, c).retryAfter > 0
    ensures Answer(cfg, calls + [c] + between, later).allowed
            <==> later.now >= c.now + Answer(cfg, calls, c).retryAfter
  {
    hide Step, Run, Answer;
    var upToLater := calls + [c] + between;
    Extends(upToLater, later);
    SplitRun(calls + [c], between, later);
    Extends(calls, c);
    var admitted := Run(cfg, calls).admitted;
    RunGrows(cfg, calls, c);
    DeniedRunKeepsHistory(cfg, calls + [c], between);
    assert Run(cfg, upToLater).admitted == admitted;

    RunAgrees(cfg, calls, c.now);
    DecidesAsFullHistory(cfg, calls, c);
    NoWindowOverflows(cfg, calls, c.now);
    DecidesAsFullHistory(cfg, upToLater, later);
    var oldest := DenialNamesOldest(cfg, calls, c);
    if later.now >= oldest.at + cfg.window {
      CountShrinks(admitted, c.now - cfg.window, c.now, later.now - cfg.window, later.now);
    } else {
      SameWindow(admitted, c.now - cfg.window, c.now, later.now - cfg.window, later.now);
    }
  }

  lemma DenialNamesOldest(cfg: Config, calls: seq<Call>, c: Call) returns (oldest: Member)
    requires cfg.Effective() >= 1
    requires WellTimed(calls) && (calls != [] ==> LastTime(calls) <= c.now)
    requires !Answer(cfg, calls, c).allowed
    ensures
      var admitted := Run(cfg, calls).admitted;
      && oldest in admitted && c.now - cfg.window < oldest.at
      && (forall m | m in admitted && c.now - cfg.window < m.at :: oldest.at <= m.at)
      && Answer(cfg, calls, c).retryAfter == oldest.at + cfg.window - c.now
  {
    RunAgrees(cfg, calls, c.now);
    oldest := OldestOfWindow(cfg, Run(cfg, calls), c);
  }

  lemma OldestOfWindow(cfg: Config, t: Trace, c: Call) returns (oldest: Member)
    requires cfg.Effective() >= 1 && Agrees(cfg, t, c.now)
    requires !Step(cfg, t.key, c.now, c.draw).1.allowed
    ensures oldest in t.admitted && c.now - cfg.window < oldest.at
    ensures forall m | m in t.admitted && c.now - cfg.window < m.at :: oldest.at <= m.at
    ensures Step(cfg, t.key, c.now, c.draw).1.retryAfter == oldest.at + cfg.window - c.now
  {
    var kept := Prune(Live(t.key, c.now), c.now - cfg.window);
    PrunedIsWindow(cfg, t, c.now, c.now);
    assert |kept| >= 1;
    oldest := OldestMember(kept);
    LeastInWindow(kept, t.admitted, c.now - cfg.window, c.now, oldest);
  }

  lemma OldestMember(scores: map<Member, int>) returns (oldest: Member)
    requires |scores| >= 1
    ensures scores != map[] && oldest in scores && scores[oldest] == Oldest(scores)
  {
    assert scores != map[];
    oldest :| oldest in scores && scores[oldest] == Oldest(scores);
  }

  lemma LeastInWindow(kept: map<Member, int>, admitted: seq<Member>, from: int, to: int, oldest: Member)
    requires kept.Keys == InWindow(admitted, from, to) && forall m | m in kept :: kept[m] == m.at
    requires forall m | m in admitted :: m.at <= to
    requires oldest in kept && IsOldest(kept, kept[oldest])
    ensures oldest in admitted && from < oldest.at
    ensures forall m | m in admitted && from < m.at :: oldest.at <= m.at
  {
    assert oldest in kept.Keys;
    forall m | m in admitted && from < m.at
      ensures oldest.at <= m.at
    {
      assert m in InWindow(admitted, from, to);
      assert m in kept;
    }
  }

  lemma {:induction false} SameWindow(admitted: seq<Member>, from: int, to: int, from': int, to': int)
    requires from <= from' && to <= to' && forall m | m in admitted :: m.at <= to
    requires forall m | m in admitted && from < m.at :: from' < m.at
    ensures CountIn(admitted, from', to') == CountIn(admitted, from, to)
  {
    if admitted != [] {
      var front := admitted[..|admitted| - 1];
      assert admitted == front + [admitted[|admitted| - 1]];
      SameWindow(front, from, to, from', to');
    }
  }

  lemma SplitRun(calls: seq<Call>, between: seq<Call>, later: Call)
    requires calls != []
    requires WellTimed(calls + between + [later])
    ensures WellTimed(calls) && LastTime(calls) <= later.now
  {
    var all := calls + between + [later];
    assert forall i | 0 <= i < |calls| :: all[i] == calls[i];
    assert all[|all| - 1] == later;
  }

  /** With a limit that admits nothing, `retryAfter` is 0 although no wait ever helps. */
  lemma NothingAdmittedBelowOne(cfg: Config, calls: seq<Call>, c: Call)
    requires cfg.Effective() <= 0
    requires WellTimed(calls + [c])
    ensures Answer(cfg, calls, c) == Decision(false, cfg.Effective(), 0, 0)
  {
    Extends(calls, c);
    RunAgrees(cfg, calls, c.now);
    NothingStored(cfg, calls);
  }

  lemma {:induction false} NothingStored(cfg: Config, calls: seq<Call>)
    requires cfg.Effective() <= 0
    ensures Run(cfg, calls).key.scores == map[]
  {
    if calls != [] {
      NothingStored(cfg, calls[..|calls| - 1]);
    }
  }

  /** Distinct members are needed: two calls in one millisecond that draw the same random number
      share a member, the set under-counts, and a third request is admitted with a limit of two. */
  lemma CollidingDrawsOverAdmit()
    ensures
      var cfg := Config(1000, 2, 0);
      var calls := [Call(5, 7), Call(5, 7), Call(5, 8)];
      CountIn(Run(cfg, calls).admitted, 5 - cfg.window, 5) == 3
  {
    var cfg := Config(1000, 2, 0);
    var m, a, b := Member(5, 7), Call(5, 7), Call(5, 8);
    var once := Key(map[m := 5], 2005);
    FirstCollision(cfg, NO_KEY);
    FirstCollision(cfg, once);
    NothingAdmittedYet(cfg);
    hide Run, Step, CountIn;
    KeyGrows(cfg, [], a);
    RunGrows(cfg, [], a);
    KeyGrows(cfg, [a], a);
    RunGrows(cfg, [a], a);
    RunGrows(cfg, [a, a], b);
    assert [] + [a] == [a] && [a] + [a] == [a, a] && [a, a] + [b] == [a, a, b];
    assert [] + [m] == [m] && [m] + [m] == [m, m] && [m, m] + [Member(5, 8)] == [m, m, Member(5, 8)];
    CountAppend([], m, -995, 5);
    CountAppend([m], m, -995, 5);
    CountAppend([m, m], Member(5, 8), -995, 5);
  }

  lemma FirstCollision(cfg: Config, k: Key)
    requires cfg == Config(1000, 2, 0) && k in {NO_KEY, Key(map[Member(5, 7) := 5], 2005)}
    ensures Step(cfg, k, 5, 7).0 == Key(map[Member(5, 7) := 5], 2005)
    ensures Step(cfg, k, 5, 7).1.allowed && Step(cfg, k, 5, 8).1.allowed
  {
    var kept := Prune(Live(k, 5), 5 - 1000);
    assert kept == k.scores;
    assert kept[Member(5, 7) := 5] == map[Member(5, 7) := 5];
    assert Deadline(1000, 5) == 2005;
  }

  lemma KeyGrows(cfg: Config, calls: seq<Call>, c: Call)
    ensures Run(cfg, calls + [c]).key == Step(cfg, Run(cfg, calls).key, c.now, c.draw).0
  {
    assert (calls + [c])[..|calls|] == calls;
  }

  lemma CountAppend(admitted: seq<Member>, m: Member, from: int, to: int)
    ensures CountIn([], from, to) == 0
    ensures CountIn(admitted + [m], from, to) == CountIn(admitted, from, to) + if from < m.at <= to then 1 else 0
  {
    assert (admitted + [m])[..|admitted|] == admitted;
  }
}
