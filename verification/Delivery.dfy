/** Retry policy and the life of one message on a durable consumer: backoff, acknowledgement,
    redelivery and dead-lettering. */
module Delivery {
  // ------------------------------------------------------------------------------------------
  // Retry policy
  // ------------------------------------------------------------------------------------------

  const TWO_62: int := 0x4000_0000_0000_0000
  const TWO_63: int := 0x8000_0000_0000_0000
  const TWO_64: int := 0x1_0000_0000_0000_0000

  const SECOND: int := 1_000_000_000
  const DEFAULT_ATTEMPTS: int := 5
  const DEFAULT_BASE: int := SECOND
  const DEFAULT_MAX: int := 30 * SECOND

  /** Delays are nanoseconds held in 64 bits. */
  type Duration = d: int | -TWO_63 <= d < TWO_63

  /** Two's complement wrap-around. */
  function Wrap(x: int): (r: Duration)
    ensures -TWO_63 <= x < TWO_63 ==> r == x
  {
    (x + TWO_63) % TWO_64 - TWO_63
  }

  datatype RetryPolicy = RetryPolicy(maxAttempts: int, baseDelay: Duration, maxDelay: Duration) {
    /** Non-positive fields and a maximum below the base are replaced. */
    function Normalized(): (p: RetryPolicy)
      ensures p.Valid() && (Valid() ==> p == this)
      ensures maxAttempts > 0 ==> p.maxAttempts == maxAttempts
      ensures baseDelay > 0 ==> p.baseDelay == baseDelay
      ensures maxAttempts <= 0 && baseDelay <= 0 && maxDelay < p.baseDelay ==> p == RetryPolicy(5, SECOND, 30 * SECOND)
    {
      var attempts := if maxAttempts <= 0 then DEFAULT_ATTEMPTS else maxAttempts;
      var base := if baseDelay <= 0 then DEFAULT_BASE else baseDelay;
      RetryPolicy(attempts, base,
                  if base <= maxDelay then maxDelay else if base <= DEFAULT_MAX then DEFAULT_MAX else base)
    }

    predicate Valid() {
      maxAttempts >= 1 && 0 < baseDelay <= maxDelay
    }
  }

  /** The delay after `doublings` doublings, leaving early once the maximum is reached. */
  function DelayAfter(delay: Duration, max: Duration, doublings: nat): Duration
    decreases doublings
  {
    if doublings == 0 then if delay > max then max else delay
    else if Wrap(delay * 2) >= max then max
    else DelayAfter(Wrap(delay * 2), max, doublings - 1)
  }

  function Delay(p: RetryPolicy, attempt: int): Duration {
    DelayAfter(p.baseDelay, p.maxDelay, if attempt < 1 then 0 else attempt - 1)
  }

  method Backoff(p: RetryPolicy, attempt: int) returns (delay: Duration)
    ensures delay == Delay(p, attempt)
  {
    var k := if attempt < 1 then 1 else attempt;
    delay := p.baseDelay;
    var i := 1;
    while i < k
      invariant 1 <= i <= k && DelayAfter(delay, p.maxDelay, k - i) == Delay(p, attempt)
    {
      delay := Wrap(delay * 2);
      if delay >= p.maxDelay {
        return p.maxDelay;
      }
      i := i + 1;
    }
    if delay > p.maxDelay {
      delay := p.maxDelay;
    }
  }

  /** The gaps between deliveries handed to the consumer; none when nothing is redelivered. */
  method BackoffSchedule(p: RetryPolicy) returns (gaps: seq<Duration>)
    ensures |gaps| == if p.maxAttempts <= 1 then 0 else p.maxAttempts - 1
    ensures forall i | 0 <= i < |gaps| :: gaps[i] == Delay(p, i + 1)
  {
    var n := p.maxAttempts - 1;
    if n < 1 {
      return [];
    }
    var out := new Duration[n];
    for i := 0 to n
      invariant forall j | 0 <= j < i :: out[j] == Delay(p, j + 1)
    {
      var gap := Backoff(p, i + 1);
      out[i] := gap;
    }
    gaps := out[..];
  }

  function Pow2(n: nat): (r: int)
    ensures r >= 1
  {
    if n == 0 then 1 else 2 * Pow2(n - 1)
  }

  function Min(a: int, b: int): int { if a < b then a else b }

  /** `base * 2^n` capped at `max`, over unbounded integers. */
  function Capped(base: int, max: int, n: nat): int { Min(base * Pow2(n), max) }

  /** The largest value that doubling `base` reaches without overflowing. */
  function Top(base: Duration): (top: Duration)
    requires base > 0
    ensures TWO_62 <= top
    decreases TWO_63 - base
  {
    if base >= TWO_62 then base else Top(2 * base)
  }

  /** No doubling before the cap leaves 64 bits: a check on the two configured delays alone. */
  predicate NeverOverflows(p: RetryPolicy)
    requires p.baseDelay > 0
  {
    p.baseDelay < TWO_62 && p.maxDelay <= Top(p.baseDelay)
  }

  lemma CapReached(base: int, max: int, n: nat)
    requires 0 < max <= base
    ensures Capped(base, max, n) == max
  {
    assert base * Pow2(n) >= base * 1;
  }

  lemma {:induction false} ExactBelowTop(base: Duration, max: Duration, n: nat)
    requires 0 < base < TWO_62 && base <= max <= Top(base)
    ensures DelayAfter(base, max, n) == Capped(base, max, n)
    decreases n
  {
    if n > 0 {
      assert Capped(base, max, n) == Capped(2 * base, max, n - 1);
      if 2 * base >= max {
        CapReached(2 * base, max, n - 1);
      } else {
        ExactBelowTop(2 * base, max, n - 1);
      }
    }
  }

  /** Above `Top`, some attempt comes out negative. */
  lemma {:induction false} WrapsAboveTop(base: Duration, max: Duration) returns (n: nat)
    requires 0 < base <= max && (TWO_62 <= base || Top(base) < max)
    ensures DelayAfter(base, max, n) < 0
    decreases TWO_63 - base
  {
    if TWO_62 <= base {
      n := 1;
      assert Wrap(base * 2) == base * 2 - TWO_64;
      assert DelayAfter(Wrap(base * 2), max, 0) == Wrap(base * 2);
    } else {
      assert 2 * base <= Top(2 * base) by { TopIsAbove(2 * base); }
      var m := WrapsAboveTop(2 * base, max);
      n := m + 1;
    }
  }

  lemma TopIsAbove(base: Duration)
    requires base > 0
    ensures base <= Top(base)
    decreases TWO_63 - base
  {
  }

  /** Every delay is the capped doubling of the base exactly when nothing overflows before the cap. */
  lemma BackoffIsCappedDoubling(p: RetryPolicy)
    requires p.Valid()
    ensures (forall k: nat | k >= 1 :: Delay(p, k) == Capped(p.baseDelay, p.maxDelay, k - 1)) <==> NeverOverflows(p)
  {
    if NeverOverflows(p) {
      forall k: nat | k >= 1
        ensures Delay(p, k) == Capped(p.baseDelay, p.maxDelay, k - 1)
      {
        ExactBelowTop(p.baseDelay, p.maxDelay, k - 1);
      }
    } else {
      var n := WrapsAboveTop(p.baseDelay, p.maxDelay);
      assert p.baseDelay * Pow2(n) >= 1 by { MulPositive(p.baseDelay, Pow2(n)); }
      assert Delay(p, n + 1) != Capped(p.baseDelay, p.maxDelay, n);
      assert n + 1 >= 1 && (n + 1) - 1 == n;
    }
  }

  lemma MulPositive(a: int, b: int)
    requires a >= 1 && b >= 1
    ensures a * b >= 1
  {
  }

  /** A maximum of at most (2^63 - 1) / 2 is always safe, whatever the base. */
  lemma HalfRangeNeverOverflows(p: RetryPolicy)
    requires p.Valid() && p.maxDelay <= (TWO_63 - 1) / 2
    ensures NeverOverflows(p)
  {
  }

  lemma {:induction false} CappedGrows(base: int, max: int, n: nat, m: nat)
    requires 0 < base && n <= m
    ensures Capped(base, max, n) <= Capped(base, max, m)
    decreases m - n
  {
    if n < m {
      MulPositive(base, Pow2(n));
      assert base * Pow2(n + 1) == 2 * (base * Pow2(n));
      CappedGrows(base, max, n + 1, m);
    }
  }

  /** Gaps never shrink and stay between the base and the maximum, for any configured values. */
  lemma BackoffNeverShrinks(raw: RetryPolicy, j: int, k: int)
    requires NeverOverflows(raw.Normalized()) && 1 <= j <= k
    ensures var p := raw.Normalized(); p.baseDelay <= Delay(p, j) <= Delay(p, k) <= p.maxDelay
  {
    var p := raw.Normalized();
    BackoffIsCappedDoubling(p);
    CappedGrows(p.baseDelay, p.maxDelay, 0, j - 1);
    CappedGrows(p.baseDelay, p.maxDelay, j - 1, k - 1);
  }

  // ------------------------------------------------------------------------------------------
  // Handling one delivery
  // ------------------------------------------------------------------------------------------

  /** What the handler made of a delivery: unparseable, not upgradable, handled, or failed. */
  datatype Body = Unparseable | NotUpgradable | Handled | Failed

  datatype Reply = Ack | Term | Nak | NakAfter(delay: Duration)

  datatype DeadLetter = DeadLetter(reason: Body, attempts: int)

  /** The reply for a delivery and the dead letter it asks to have written, if any. */
  function Outcome(p: RetryPolicy, attempt: int, body: Body, written: bool): (Reply, seq<DeadLetter>) {
    match body
    case Handled => (Ack, [])
    case Failed =>
      if attempt < p.maxAttempts then (NakAfter(Delay(p, attempt)), [])
      else if written then (Term, [DeadLetter(body, attempt)])
      else (Nak, [])
    case _ => (Term, if written then [DeadLetter(body, attempt)] else [])
  }

  class Consumer {
    const policy: RetryPolicy
    var deadLetters: seq<DeadLetter>

    constructor (configured: RetryPolicy)
      ensures policy == configured.Normalized() && deadLetters == []
    {
      policy, deadLetters := configured.Normalized(), [];
    }

    method WriteDeadLetter(record: DeadLetter, succeeds: bool) returns (ok: bool)
      modifies this
      ensures ok == succeeds
      ensures deadLetters == old(deadLetters) + if succeeds then [record] else []
    {
      if succeeds {
        deadLetters := deadLetters + [record];
      }
      return succeeds;
    }

    /** `numDelivered` is absent when the message metadata cannot be read; `writable` says whether a
        dead-letter write would succeed. */
    method HandleMessage(numDelivered: int, hasMetadata: bool, body: Body, writable: bool) returns (reply: Reply)
      modifies this
      ensures var attempt := if hasMetadata then numDelivered else 1;
              && reply == Outcome(policy, attempt, body, writable).0
              && deadLetters == old(deadLetters) + Outcome(policy, attempt, body, writable).1
    {
      var attempt := 1;
      if hasMetadata {
        attempt := numDelivered;
      }
      if body == Unparseable || body == NotUpgradable {
        var _ := WriteDeadLetter(DeadLetter(body, attempt), writable);
        return Term;
      }
      if body == Handled {
        return Ack;
      }
      if attempt >= policy.maxAttempts {
        var ok := WriteDeadLetter(DeadLetter(body, attempt), writable);
        if !ok {
          return Nak;
        }
        return Term;
      }
      var delay := Backoff(policy, attempt);
      return NakAfter(delay);
    }
  }

  // ------------------------------------------------------------------------------------------
  // The life of a message
  // ------------------------------------------------------------------------------------------

  /** One delivery as it went: `None` crashed before any effect; otherwise what the handler made of it,
      whether a dead-letter write would succeed, and whether the reply reached the broker. */
  datatype Try = Crashed | Ran(body: Body, writable: bool, replied: bool)

  datatype Status = Pending | Acked | Terminated

  /** `runs` counts successful handler runs, `records` the dead letters written for this message. */
  datatype Message = Message(delivered: nat, status: Status, runs: nat, records: seq<DeadLetter>)

  const Fresh := Message(0, Pending, 0, [])

  /** The broker never delivers a message more than `maxAttempts` times. */
  function Deliver(p: RetryPolicy, m: Message, t: Try): Message {
    if m.status != Pending || m.delivered >= p.maxAttempts then m
    else if t.Crashed? then m.(delivered := m.delivered + 1)
    else
      var (reply, written) := Outcome(p, m.delivered + 1, t.body, t.writable);
      Message(m.delivered + 1,
              if !t.replied then Pending else if reply == Ack then Acked else if reply == Term then Terminated else Pending,
              m.runs + if t.body == Handled then 1 else 0,
              m.records + written)
  }

  function Life(p: RetryPolicy, tries: seq<Try>): (m: Message)
    decreases |tries|
  {
    if tries == [] then Fresh else Deliver(p, Life(p, tries[..|tries| - 1]), tries[|tries| - 1])
  }

  /** The delivery that would settle the message if it got that far: attempt number `i + 1`. */
  predicate Settles(p: RetryPolicy, tries: seq<Try>, i: nat)
    requires i < |tries|
  {
    var t := tries[i];
    && t.Ran? && t.replied
    && (t.body == Failed ==> i + 1 == p.maxAttempts && t.writable)
  }

  predicate NoneSettles(p: RetryPolicy, tries: seq<Try>, n: nat)
    requires n <= |tries|
  {
    forall i | 0 <= i < n :: !Settles(p, tries, i)
  }

  lemma {:induction false} PendingUntilSettled(p: RetryPolicy, tries: seq<Try>)
    requires p.Valid() && |tries| <= p.maxAttempts && NoneSettles(p, tries, |tries|)
    ensures Life(p, tries).status == Pending && Life(p, tries).delivered == |tries|
    decreases |tries|
  {
    if tries != [] {
      var init := tries[..|tries| - 1];
      assert forall i: nat | i < |init| :: Settles(p, init, i) == Settles(p, tries, i);
      PendingUntilSettled(p, init);
      assert !Settles(p, tries, |init|);
    }
  }

  lemma {:induction false} SettledStays(p: RetryPolicy, tries: seq<Try>, n: nat)
    requires n <= |tries| && (Life(p, tries[..n]).status != Pending || Life(p, tries[..n]).delivered >= p.maxAttempts)
    ensures Life(p, tries) == Life(p, tries[..n])
    decreases |tries|
  {
    if n == |tries| {
      assert tries[..n] == tries;
    } else {
      var init := tries[..|tries| - 1];
      assert init[..n] == tries[..n];
      SettledStays(p, init, n);
    }
  }

  lemma SettlingDelivery(p: RetryPolicy, tries: seq<Try>, i: nat)
    requires p.Valid() && i < |tries| && i < p.maxAttempts && Settles(p, tries, i) && NoneSettles(p, tries, i)
    ensures var m := Life(p, tries[..i + 1]);
            && m.status == (if tries[i].body == Handled then Acked else Terminated)
            && m.delivered == i + 1
            && (tries[i].writable && tries[i].body != Handled ==> m.records != [] && m.records[|m.records| - 1] == DeadLetter(tries[i].body, i + 1))
            && (tries[i].body == Handled ==> m.runs > 0)
  {
    var init := tries[..i];
    assert forall j: nat | j < |init| :: Settles(p, init, j) == Settles(p, tries, j);
    PendingUntilSettled(p, init);
    assert tries[..i + 1][..i] == init;
  }

  /** The first settling delivery, and only that one, takes the message out of the consumer: before it
      the message is pending, and from it on nothing changes. It is acknowledged after a handler run
      that succeeded, or terminated with a dead letter naming the attempt if that could be written. */
  lemma LeavesExactlyOnce(p: RetryPolicy, tries: seq<Try>, i: nat, n: nat)
    requires p.Valid() && i < |tries| && i < p.maxAttempts && Settles(p, tries, i) && NoneSettles(p, tries, i) && n <= |tries|
    ensures n <= i ==> Life(p, tries[..n]).status == Pending
    ensures n > i ==> Life(p, tries[..n]) == Life(p, tries[..i + 1])
    ensures n > i ==> Life(p, tries[..n]).status == if tries[i].body == Handled then Acked else Terminated
    ensures n > i && tries[i].writable && tries[i].body != Handled ==> DeadLetter(tries[i].body, i + 1) in Life(p, tries[..n]).records
  {
    var prefix := tries[..n];
    if n <= i {
      assert forall j: nat | j < n :: Settles(p, prefix, j) == Settles(p, tries, j);
      PendingUntilSettled(p, prefix);
    } else {
      SettlingDelivery(p, tries, i);
      assert prefix[..i + 1] == tries[..i + 1];
      SettledStays(p, prefix, i + 1);
    }
  }

  /** Used up all deliveries and still unacknowledged: the broker will not deliver it again. */
  predicate Stranded(p: RetryPolicy, m: Message) {
    m.status == Pending && m.delivered >= p.maxAttempts
  }

  /** Given as many deliveries as the policy allows, a message is stranded exactly when none of them
      settles it, and then no further delivery can change that. */
  lemma StrandedExactlyWhenNothingSettles(p: RetryPolicy, tries: seq<Try>)
    requires p.Valid() && |tries| >= p.maxAttempts
    ensures Stranded(p, Life(p, tries)) <==> NoneSettles(p, tries, p.maxAttempts)
  {
    if NoneSettles(p, tries, p.maxAttempts) {
      var prefix := tries[..p.maxAttempts];
      assert forall j: nat | j < |prefix| :: Settles(p, prefix, j) == Settles(p, tries, j);
      PendingUntilSettled(p, prefix);
      SettledStays(p, tries, p.maxAttempts);
    } else {
      var i := FirstSettling(p, tries, p.maxAttempts);
      LeavesExactlyOnce(p, tries, i, |tries|);
      assert tries[..|tries|] == tries;
    }
  }

  lemma {:induction false} FirstSettling(p: RetryPolicy, tries: seq<Try>, n: nat) returns (i: nat)
    requires n <= |tries| && !NoneSettles(p, tries, n)
    ensures i < n && Settles(p, tries, i) && NoneSettles(p, tries, i)
  {
    if NoneSettles(p, tries, n - 1) {
      i := n - 1;
    } else {
      i := FirstSettling(p, tries, n - 1);
    }
  }

  /** If dead-letter writes succeed and the last permitted delivery is not cut off, every message leaves:
      acknowledged after a successful run, or terminated with a dead letter. */
  lemma EveryMessageIsAccountedFor(p: RetryPolicy, tries: seq<Try>)
    requires p.Valid() && |tries| >= p.maxAttempts
    requires forall i | 0 <= i < p.maxAttempts :: tries[i].Ran? ==> tries[i].writable
    requires tries[p.maxAttempts - 1].Ran? && tries[p.maxAttempts - 1].replied
    ensures var m := Life(p, tries); || (m.status == Acked && m.runs > 0) || (m.status == Terminated && m.records != [])
  {
    var last := p.maxAttempts - 1;
    assert Settles(p, tries, last);
    var i := FirstSettling(p, tries, p.maxAttempts);
    SettlingDelivery(p, tries, i);
    LeavesExactlyOnce(p, tries, i, |tries|);
    assert tries[..|tries|] == tries;
  }

  /** Successful runs beyond the acknowledged one are paid for by lost replies, one each. */
  function LostAcks(p: RetryPolicy, tries: seq<Try>): nat
    decreases |tries|
  {
    if tries == [] then 0
    else
      var init, t := tries[..|tries| - 1], tries[|tries| - 1];
      LostAcks(p, init)
        + if Life(p, init).status == Pending && |init| < p.maxAttempts && t.Ran? && t.body == Handled && !t.replied then 1 else 0
  }

  lemma {:induction false} DeliveredCounts(p: RetryPolicy, tries: seq<Try>)
    requires p.Valid()
    ensures Life(p, tries).delivered <= |tries| && Life(p, tries).delivered <= p.maxAttempts
    ensures Life(p, tries).status == Pending ==> Life(p, tries).delivered == Min(|tries|, p.maxAttempts)
    decreases |tries|
  {
    if tries != [] {
      DeliveredCounts(p, tries[..|tries| - 1]);
    }
  }

  lemma {:induction false} RunsAreAckedOrLost(p: RetryPolicy, tries: seq<Try>)
    requires p.Valid()
    ensures var m := Life(p, tries); m.runs == LostAcks(p, tries) + if m.status == Acked then 1 else 0
    decreases |tries|
  {
    if tries != [] {
      RunsAreAckedOrLost(p, tries[..|tries| - 1]);
      DeliveredCounts(p, tries[..|tries| - 1]);
    }
  }

  /** A failed dead-letter write on the last permitted delivery is answered by a Nak that the broker
      cannot honour: the message keeps neither a successful run nor a dead letter. */
  lemma NakOnLastAttemptStrands(p: RetryPolicy, tries: seq<Try>)
    requires p.Valid() && |tries| >= p.maxAttempts
    requires forall i | 0 <= i < p.maxAttempts :: tries[i].Ran? && tries[i].replied && tries[i].body == Failed
    requires !tries[p.maxAttempts - 1].writable
    ensures Stranded(p, Life(p, tries)) && Life(p, tries).runs == 0 && Life(p, tries).records == []
    ensures Outcome(p, p.maxAttempts, Failed, false).0 == Nak
  {
    StrandedExactlyWhenNothingSettles(p, tries);
    NoRecordWithoutWrite(p, tries, p.maxAttempts);
    SettledStays(p, tries, p.maxAttempts) by {
      var prefix := tries[..p.maxAttempts];
      assert forall j: nat | j < |prefix| :: Settles(p, prefix, j) == Settles(p, tries, j);
      PendingUntilSettled(p, prefix);
    }
  }

  lemma {:induction false} NoRecordWithoutWrite(p: RetryPolicy, tries: seq<Try>, n: nat)
    requires p.Valid() && n <= p.maxAttempts <= |tries|
    requires forall i | 0 <= i < n :: tries[i].Ran? && tries[i].body == Failed && (i + 1 == p.maxAttempts ==> !tries[i].writable)
    ensures Life(p, tries[..n]).runs == 0 && Life(p, tries[..n]).records == []
  {
    if n > 0 {
      NoRecordWithoutWrite(p, tries, n - 1);
      assert tries[..n][..n - 1] == tries[..n - 1];
      DeliveredCounts(p, tries[..n - 1]);
    }
  }

  /** The wait after delivery `k` of a message whose handler keeps failing is the capped doubling of the
      base, whether the consumer asks for it or the broker times out and uses its own schedule. */
  lemma GapAfterFailure(raw: RetryPolicy, gaps: seq<Duration>, k: int, writable: bool)
    requires NeverOverflows(raw.Normalized()) && 1 <= k < raw.Normalized().maxAttempts
    requires |gaps| == raw.Normalized().maxAttempts - 1 && forall i | 0 <= i < |gaps| :: gaps[i] == Delay(raw.Normalized(), i + 1)
    ensures var p := raw.Normalized();
            && Outcome(p, k, Failed, writable).0 == NakAfter(gaps[k - 1])
            && gaps[k - 1] == Capped(p.baseDelay, p.maxDelay, k - 1)
  {
    BackoffIsCappedDoubling(raw.Normalized());
    assert gaps[k - 1] == Delay(raw.Normalized(), k);
  }
}
