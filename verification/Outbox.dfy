/** The transactional outbox: business transactions enqueue events, relays drain committed rows to a
    broker stream that drops duplicates within a window. */
module Outbox {
  type Event = string
  type TxID = nat
  type RelayID = nat

  /** Two minutes, in nanoseconds. */
  const WINDOW: int := 120_000_000_000

  /** A committed outbox row; `createdAt` is the start of the transaction that wrote it. */
  datatype Row = Row(createdAt: int, published: bool)

  /** A business transaction that has not ended. */
  datatype OpenTx = OpenTx(startedAt: int, events: set<Event>)

  /** A relay transaction: the rows it locked, and how many of them it has published so far. */
  datatype Drain = Drain(batch: seq<Event>, sent: nat)

  /** A message the stream stored. */
  datatype Copy = Copy(event: Event, at: int)

  datatype State = State(
    now: int,
    open: map<TxID, OpenTx>,
    rows: map<Event, Row>,
    drains: map<RelayID, Drain>,
    stream: seq<Copy>)

  const Start := State(0, map[], map[], map[], [])

  // ------------------------------------------------------------------------------------------
  // Steps
  // ------------------------------------------------------------------------------------------

  datatype Op =
    | Begin(tx: TxID)
    | Enqueue(tx: TxID, event: Event)
    | Commit(tx: TxID)
    | Abort(tx: TxID)
    | Fetch(relay: RelayID, limit: nat, batch: seq<Event>)
    | Publish(relay: RelayID)
    | PublishFails(relay: RelayID, reached: bool)  // rolls back; `reached`: only the reply was lost
    | MarkAndCommit(relay: RelayID)
    | Crash(relay: RelayID)                        // anywhere before the commit
    | Tick(elapsed: nat)

  predicate Locked(s: State, e: Event) {
    exists r | r in s.drains :: e in s.drains[r].batch
  }

  predicate Available(s: State, e: Event) {
    e in s.rows && !s.rows[e].published && !Locked(s, e)
  }

  predicate Distinct(batch: seq<Event>) {
    forall i, j | 0 <= i < j < |batch| :: batch[i] != batch[j]
  }

  /** Oldest first, at most `limit`, skipping locked rows; short only if nothing else is available. */
  ghost predicate Fetches(s: State, limit: nat, batch: seq<Event>) {
    && |batch| <= limit
    && Distinct(batch)
    && (forall i | 0 <= i < |batch| :: Available(s, batch[i]))
    && (forall i, j | 0 <= i < j < |batch| :: s.rows[batch[i]].createdAt <= s.rows[batch[j]].createdAt)
    && (forall e | Available(s, e) && e !in batch ::
          |batch| == limit && forall i | 0 <= i < |batch| :: s.rows[batch[i]].createdAt <= s.rows[e].createdAt)
  }

  predicate InFlight(s: State, e: Event) {
    exists tx | tx in s.open :: e in s.open[tx].events
  }

  ghost predicate Enabled(s: State, op: Op) {
    match op
    case Begin(tx) => tx !in s.open
    case Enqueue(tx, e) => tx in s.open && e !in s.rows && !InFlight(s, e)
    case Commit(tx) => tx in s.open
    case Abort(tx) => tx in s.open
    case Fetch(r, limit, batch) => r !in s.drains && batch != [] && Fetches(s, limit, batch)
    case Publish(r) => r in s.drains && s.drains[r].sent < |s.drains[r].batch|
    case PublishFails(r, _) => r in s.drains && s.drains[r].sent < |s.drains[r].batch|
    case MarkAndCommit(r) => r in s.drains && s.drains[r].sent == |s.drains[r].batch|
    case Crash(r) => r in s.drains
    case Tick(_) => true
  }

  predicate StoredAt(stream: seq<Copy>, e: Event, i: int) {
    0 <= i < |stream| && stream[i].event == e
  }

  predicate InStream(stream: seq<Copy>, e: Event) {
    exists i :: 0 <= i < |stream| && StoredAt(stream, e, i)
  }

  predicate Duplicate(stream: seq<Copy>, e: Event, now: int) {
    exists i | 0 <= i < |stream| :: StoredAt(stream, e, i) && now - stream[i].at < WINDOW
  }

  /** The stream ignores an event it stored less than the window ago. */
  function Offer(stream: seq<Copy>, e: Event, now: int): seq<Copy> {
    if Duplicate(stream, e, now) then stream else stream + [Copy(e, now)]
  }

  function MarkAll(rows: map<Event, Row>, batch: seq<Event>): map<Event, Row> {
    map e | e in rows :: if e in batch then rows[e].(published := true) else rows[e]
  }

  function Insert(rows: map<Event, Row>, tx: OpenTx): map<Event, Row> {
    rows + map e | e in tx.events :: Row(tx.startedAt, false)
  }

  function Effect(s: State, op: Op): State
    requires Enabled(s, op)
  {
    match op
    case Begin(tx) => s.(open := s.open[tx := OpenTx(s.now, {})])
    case Enqueue(tx, e) => s.(open := s.open[tx := s.open[tx].(events := s.open[tx].events + {e})])
    case Commit(tx) => s.(open := s.open - {tx}, rows := Insert(s.rows, s.open[tx]))
    case Abort(tx) => s.(open := s.open - {tx})
    case Fetch(r, _, batch) => s.(drains := s.drains[r := Drain(batch, 0)])
    case Publish(r) =>
      var d := s.drains[r];
      s.(drains := s.drains[r := d.(sent := d.sent + 1)], stream := Offer(s.stream, d.batch[d.sent], s.now))
    case PublishFails(r, reached) =>
      var d := s.drains[r];
      s.(drains := s.drains - {r}, stream := if reached then Offer(s.stream, d.batch[d.sent], s.now) else s.stream)
    case MarkAndCommit(r) => s.(drains := s.drains - {r}, rows := MarkAll(s.rows, s.drains[r].batch))
    case Crash(r) => s.(drains := s.drains - {r})
    case Tick(elapsed) => s.(now := s.now + elapsed)
  }

  /** A step that cannot happen leaves everything as it is. */
  ghost function Step(s: State, op: Op): State {
    if Enabled(s, op) then Effect(s, op) else s
  }

  ghost function Run(s: State, ops: seq<Op>): State
    decreases |ops|
  {
    if ops == [] then s else Step(Run(s, ops[..|ops| - 1]), ops[|ops| - 1])
  }

  // ------------------------------------------------------------------------------------------
  // Safety
  // ------------------------------------------------------------------------------------------

  ghost predicate StreamIsCommitted(s: State) {
    forall i | 0 <= i < |s.stream| :: s.stream[i].event in s.rows
  }

  ghost predicate PublishedIsStored(s: State) {
    forall e | e in s.rows && s.rows[e].published :: InStream(s.stream, e)
  }

  ghost predicate DrainOk(s: State, d: Drain) {
    && d.sent <= |d.batch|
    && Distinct(d.batch)
    && (forall i | 0 <= i < |d.batch| :: d.batch[i] in s.rows && !s.rows[d.batch[i]].published)
    && (forall i | 0 <= i < d.sent :: InStream(s.stream, d.batch[i]))
  }

  ghost predicate DrainsOk(s: State) {
    forall r | r in s.drains :: DrainOk(s, s.drains[r])
  }

  ghost predicate NoSharedRows(s: State) {
    forall r, r' | r in s.drains && r' in s.drains && r != r' ::
      forall e | e in s.drains[r].batch :: e !in s.drains[r'].batch
  }

  ghost predicate Spaced(s: State) {
    && (forall i | 0 <= i < |s.stream| :: s.stream[i].at <= s.now)
    && (forall i, j | 0 <= i < j < |s.stream| && s.stream[i].event == s.stream[j].event ::
          s.stream[j].at - s.stream[i].at >= WINDOW)
  }

  ghost predicate OpenIsNew(s: State) {
    forall tx | tx in s.open :: forall e | e in s.open[tx].events :: e !in s.rows
  }

  ghost predicate OpenIsApart(s: State) {
    forall tx, tx' | tx in s.open && tx' in s.open && tx != tx' :: s.open[tx].events !! s.open[tx'].events
  }

  ghost predicate Safe(s: State) {
    && StreamIsCommitted(s) && PublishedIsStored(s) && DrainsOk(s) && NoSharedRows(s) && Spaced(s)
    && OpenIsNew(s) && OpenIsApart(s)
  }

  lemma OfferStores(stream: seq<Copy>, e: Event, now: int)
    ensures InStream(Offer(stream, e, now), e)
    ensures forall f | InStream(stream, f) :: InStream(Offer(stream, e, now), f)
    ensures forall i | 0 <= i < |Offer(stream, e, now)| ::
      (i < |stream| && Offer(stream, e, now)[i] == stream[i]) || Offer(stream, e, now)[i] == Copy(e, now)
  {
    var s' := Offer(stream, e, now);
    if Duplicate(stream, e, now) {
      var i :| 0 <= i < |stream| && StoredAt(stream, e, i);
    } else {
      assert StoredAt(s', e, |stream|);
      forall f | InStream(stream, f)
        ensures InStream(s', f)
      {
        var i :| 0 <= i < |stream| && StoredAt(stream, f, i);
        assert StoredAt(s', f, i);
      }
    }
  }

  lemma OfferKeepsSpacing(s: State, e: Event)
    requires Spaced(s)
    ensures Spaced(s.(stream := Offer(s.stream, e, s.now)))
  {
    if !Duplicate(s.stream, e, s.now) {
      forall i | 0 <= i < |s.stream| && s.stream[i].event == e
        ensures s.now - s.stream[i].at >= WINDOW
      {
        assert StoredAt(s.stream, e, i);
      }
    }
  }

  lemma StreamOnly(s: State, stream': seq<Copy>)
    requires OpenIsNew(s) && OpenIsApart(s) && NoSharedRows(s)
    ensures OpenIsNew(s.(stream := stream')) && OpenIsApart(s.(stream := stream')) && NoSharedRows(s.(stream := stream'))
  {
  }

  lemma OfferKeepsSafe(s: State, e: Event)
    requires Safe(s) && e in s.rows
    ensures Safe(s.(stream := Offer(s.stream, e, s.now)))
  {
    hide Offer, InStream, Distinct, OpenIsApart, NoSharedRows, OpenIsNew, Spaced;
    OfferStores(s.stream, e, s.now);
    OfferKeepsSpacing(s, e);
    StreamOnly(s, Offer(s.stream, e, s.now));
  }

  lemma DropKeepsSafe(s: State, r: RelayID)
    requires Safe(s) && r in s.drains
    ensures Safe(s.(drains := s.drains - {r}))
  {
    hide InStream, Distinct;
    var s' := s.(drains := s.drains - {r});
    forall q | q in s'.drains ensures DrainOk(s', s'.drains[q]) { assert DrainOk(s, s.drains[q]); }
  }

  lemma AdvanceKeepsSafe(s: State, r: RelayID)
    requires Safe(s) && r in s.drains && s.drains[r].sent < |s.drains[r].batch|
    requires InStream(s.stream, s.drains[r].batch[s.drains[r].sent])
    ensures Safe(s.(drains := s.drains[r := s.drains[r].(sent := s.drains[r].sent + 1)]))
  {
    hide InStream, Distinct;
    var s' := s.(drains := s.drains[r := s.drains[r].(sent := s.drains[r].sent + 1)]);
    assert DrainOk(s, s.drains[r]);
    forall q | q in s'.drains ensures DrainOk(s', s'.drains[q]) { assert q != r ==> DrainOk(s, s.drains[q]); }
  }

  lemma FetchKeepsSafe(s: State, r: RelayID, limit: nat, batch: seq<Event>)
    requires Safe(s) && r !in s.drains && Fetches(s, limit, batch)
    ensures Safe(s.(drains := s.drains[r := Drain(batch, 0)]))
  {
    hide InStream, Distinct;
    var s' := s.(drains := s.drains[r := Drain(batch, 0)]);
    forall q | q in s'.drains ensures DrainOk(s', s'.drains[q]) { assert q != r ==> DrainOk(s, s.drains[q]); }
    forall q, e | q in s.drains && e in s.drains[q].batch ensures e !in batch { assert Locked(s, e); }
    assert NoSharedRows(s');
  }

  lemma MarkKeepsSafe(s: State, r: RelayID)
    requires Safe(s) && r in s.drains && s.drains[r].sent == |s.drains[r].batch|
    ensures Safe(s.(drains := s.drains - {r}, rows := MarkAll(s.rows, s.drains[r].batch)))
  {
    hide InStream, Distinct;
    var d := s.drains[r];
    var s' := s.(drains := s.drains - {r}, rows := MarkAll(s.rows, d.batch));
    assert DrainOk(s, d);
    forall q | q in s'.drains
      ensures DrainOk(s', s'.drains[q])
    {
      assert DrainOk(s, s.drains[q]);
      forall i | 0 <= i < |s.drains[q].batch| ensures s.drains[q].batch[i] !in d.batch {
        assert s.drains[q].batch[i] in s.drains[q].batch;
      }
    }
    assert s'.rows.Keys == s.rows.Keys;
  }

  lemma CommitKeepsSafe(s: State, tx: TxID)
    requires Safe(s) && tx in s.open
    ensures Safe(s.(open := s.open - {tx}, rows := Insert(s.rows, s.open[tx])))
  {
    hide InStream, Distinct;
    var s' := s.(open := s.open - {tx}, rows := Insert(s.rows, s.open[tx]));
    assert forall e | e in s.rows :: e in s'.rows && s'.rows[e] == s.rows[e];
    forall q | q in s'.drains ensures DrainOk(s', s'.drains[q]) { assert DrainOk(s, s.drains[q]); }
    assert OpenIsNew(s');
    assert OpenIsApart(s');
  }

  lemma OpenStepKeepsSafe(s: State, op: Op)
    requires Safe(s) && Enabled(s, op) && (op.Begin? || op.Enqueue? || op.Abort? || op.Tick?)
    ensures Safe(Effect(s, op))
  {
    hide InStream, Distinct, Locked, Fetches;
    var s' := Effect(s, op);
    assert PublishedIsStored(s');
    forall q | q in s'.drains ensures DrainOk(s', s'.drains[q]) { assert DrainOk(s, s.drains[q]); }
    OpenSets(s, op);
  }

  lemma OpenSets(s: State, op: Op)
    requires OpenIsNew(s) && OpenIsApart(s) && Enabled(s, op) && (op.Begin? || op.Enqueue? || op.Abort? || op.Tick?)
    ensures OpenIsNew(Effect(s, op)) && OpenIsApart(Effect(s, op))
  {
    if op.Enqueue? {
      forall tx | tx in s.open ensures op.event !in s.open[tx].events { }
    }
  }

  lemma StepKeepsSafe(s: State, op: Op)
    requires Safe(s)
    ensures Safe(Step(s, op))
  {
    hide Safe, Locked, Fetches, InFlight, Offer, MarkAll, Insert;
    if Enabled(s, op) {
      match op
      case Commit(tx) => CommitKeepsSafe(s, tx);
      case Fetch(r, limit, batch) => FetchKeepsSafe(s, r, limit, batch);
      case Publish(r) => PublishKeepsSafe(s, r);
      case PublishFails(r, reached) => FailKeepsSafe(s, r, reached);
      case MarkAndCommit(r) => MarkKeepsSafe(s, r);
      case Crash(r) => DropKeepsSafe(s, r);
      case _ => OpenStepKeepsSafe(s, op);
    }
  }

  lemma LockedRowExists(s: State, r: RelayID, i: nat)
    requires Safe(s) && r in s.drains && i < |s.drains[r].batch|
    ensures s.drains[r].batch[i] in s.rows
  {
    assert DrainOk(s, s.drains[r]);
  }

  lemma PublishKeepsSafe(s: State, r: RelayID)
    requires Safe(s) && r in s.drains && s.drains[r].sent < |s.drains[r].batch|
    ensures Safe(Effect(s, Publish(r)))
  {
    hide Safe, InStream, Offer;
    var d := s.drains[r];
    LockedRowExists(s, r, d.sent);
    var stored := s.(stream := Offer(s.stream, d.batch[d.sent], s.now));
    OfferKeepsSafe(s, d.batch[d.sent]);
    OfferStores(s.stream, d.batch[d.sent], s.now);
    AdvanceKeepsSafe(stored, r);
  }

  lemma FailKeepsSafe(s: State, r: RelayID, reached: bool)
    requires Safe(s) && r in s.drains && s.drains[r].sent < |s.drains[r].batch|
    ensures Safe(Effect(s, PublishFails(r, reached)))
  {
    hide Safe, InStream, Offer;
    var d := s.drains[r];
    DropKeepsSafe(s, r);
    if reached {
      LockedRowExists(s, r, d.sent);
      OfferKeepsSafe(s.(drains := s.drains - {r}), d.batch[d.sent]);
    }
  }

  lemma {:induction false} RunIsSafe(ops: seq<Op>)
    ensures Safe(Run(Start, ops))
    decreases |ops|
  {
    hide Step;
    if ops != [] {
      RunIsSafe(ops[..|ops| - 1]);
      StepKeepsSafe(Run(Start, ops[..|ops| - 1]), ops[|ops| - 1]);
    }
  }

  /** Over every interleaving of business transactions, relays, failed publishes and crashes: nothing
      reaches the stream without a committed row, nothing is marked published without being in the
      stream, no row is locked by two relays, and two copies of an event are a window apart. */
  lemma OutboxIsSafe(ops: seq<Op>)
    ensures var s := Run(Start, ops);
      && (forall i | 0 <= i < |s.stream| :: s.stream[i].event in s.rows)
      && (forall e | e in s.rows && s.rows[e].published :: InStream(s.stream, e))
      && (forall r, r' | r in s.drains && r' in s.drains && r != r' ::
            forall e | e in s.drains[r].batch :: e !in s.drains[r'].batch)
      && (forall i, j | 0 <= i < j < |s.stream| && s.stream[i].event == s.stream[j].event ::
            s.stream[j].at - s.stream[i].at >= WINDOW)
  {
    hide Run, InStream;
    RunIsSafe(ops);
  }

  // ------------------------------------------------------------------------------------------
  // Nothing is lost
  // ------------------------------------------------------------------------------------------

  /** `later` has every row of `s`, published if it was. */
  ghost predicate KeepsRows(s: State, later: State) {
    forall e | e in s.rows :: e in later.rows && later.rows[e].createdAt == s.rows[e].createdAt && (s.rows[e].published ==> later.rows[e].published)
  }

  lemma StepKeepsRows(s: State, op: Op)
    requires Safe(s)
    ensures KeepsRows(s, Step(s, op))
  {
    assert OpenIsNew(s);
    hide Safe, Fetches, Locked, Offer, InFlight;
  }

  lemma {:induction false} RowsNeverVanish(ops: seq<Op>, more: seq<Op>)
    ensures KeepsRows(Run(Start, ops), Run(Start, ops + more))
    decreases |more|
  {
    hide Step, Safe;
    if more == [] {
      assert ops + more == ops;
    } else {
      var init := more[..|more| - 1];
      RowsNeverVanish(ops, init);
      assert (ops + more)[..|ops + more| - 1] == ops + init;
      RunIsSafe(ops + init);
      StepKeepsRows(Run(Start, ops + init), more[|more| - 1]);
    }
  }

  /** What a transaction enqueued is in the table from its commit on, for good; if it
      aborts instead, the event is nowhere. */
  lemma CommittedEventsAreKept(ops: seq<Op>, tx: TxID, e: Event, more: seq<Op>)
    requires tx in Run(Start, ops).open && e in Run(Start, ops).open[tx].events
    ensures e in Run(Start, ops + [Commit(tx)] + more).rows
    ensures var aborted := Run(Start, ops + [Abort(tx)]); e !in aborted.rows && !InFlight(aborted, e) && !InStream(aborted.stream, e)
  {
    assert (ops + [Commit(tx)])[..|ops|] == ops && (ops + [Abort(tx)])[..|ops|] == ops;
    RunIsSafe(ops);
    RunIsSafe(ops + [Abort(tx)]);
    RowsNeverVanish(ops + [Commit(tx)], more);
    AbortedIsGone(Run(Start, ops), tx, e);
    hide Run, Safe;
  }

  lemma AbortedIsGone(s: State, tx: TxID, e: Event)
    requires Safe(s) && tx in s.open && e in s.open[tx].events
    ensures var s' := Effect(s, Abort(tx)); e !in s'.rows && !InFlight(s', e) && !InStream(s'.stream, e)
  {
    hide DrainsOk, NoSharedRows, Spaced, PublishedIsStored;
  }

  /** An enqueued event belongs to its open transaction and is not yet a row. */
  lemma EnqueueAdds(s: State, tx: TxID, e: Event)
    requires tx in s.open && e !in s.rows && !InFlight(s, e)
    ensures var s' := Step(s, Enqueue(tx, e)); tx in s'.open && s'.open[tx].events == s.open[tx].events + {e} && s'.rows == s.rows
  {
  }

  /** The stream ignores an event exactly if it stored it less than two minutes ago. */
  lemma OfferedIsStoredExactly(stream: seq<Copy>, e: Event, now: int)
    ensures if exists i :: 0 <= i < |stream| && stream[i].event == e && now - stream[i].at < 120_000_000_000
            then Offer(stream, e, now) == stream else Offer(stream, e, now) == stream + [Copy(e, now)]
  {
    assert forall i :: StoredAt(stream, e, i) <==> 0 <= i < |stream| && stream[i].event == e;
  }

  /** A publish whose reply was lost is stored all the same; one that did not arrive stores nothing. */
  lemma LostReplyStores(s: State, r: RelayID)
    requires r in s.drains && s.drains[r].sent < |s.drains[r].batch|
    ensures InStream(Step(s, PublishFails(r, true)).stream, s.drains[r].batch[s.drains[r].sent])
    ensures Step(s, PublishFails(r, false)).stream == s.stream
  {
    OfferStores(s.stream, s.drains[r].batch[s.drains[r].sent], s.now);
    hide Offer, InStream;
  }

  // ------------------------------------------------------------------------------------------
  // How many copies
  // ------------------------------------------------------------------------------------------

  function Copies(stream: seq<Copy>, e: Event): nat {
    if stream == [] then 0
    else Copies(stream[..|stream| - 1], e) + if stream[|stream| - 1].event == e then 1 else 0
  }

  /** Was `e` published by a relay transaction that this step undoes? */
  ghost predicate Undoes(s: State, op: Op, e: Event) {
    && Enabled(s, op)
    && (op.Crash? || op.PublishFails?)
    && var d := s.drains[op.relay];
    || (d.sent <= |d.batch| && e in d.batch[..d.sent])
    || (op.PublishFails? && op.reached && e == d.batch[d.sent])
  }

  ghost function Undone(ops: seq<Op>, e: Event): nat
    decreases |ops|
  {
    if ops == [] then 0
    else Undone(ops[..|ops| - 1], e) + if Undoes(Run(Start, ops[..|ops| - 1]), ops[|ops| - 1], e) then 1 else 0
  }

  /** Has the transaction that will mark, or did mark, row `e` sent it already? */
  ghost predicate Spent(s: State, e: Event) {
    || (e in s.rows && s.rows[e].published)
    || exists r | r in s.drains :: s.drains[r].sent <= |s.drains[r].batch| && e in s.drains[r].batch[..s.drains[r].sent]
  }

  lemma OfferCounts(stream: seq<Copy>, e: Event, now: int, f: Event)
    ensures Copies(Offer(stream, e, now), f) <= Copies(stream, f) + if e == f then 1 else 0
  {
    if !Duplicate(stream, e, now) {
      assert Offer(stream, e, now)[..|stream|] == stream;
    }
  }

  /** One step adds a copy only by spending the row or by undoing a publish. */
  lemma StepCounts(s: State, op: Op, e: Event)
    requires Safe(s)
    ensures var s' := Step(s, op);
      Copies(s'.stream, e) - Copies(s.stream, e)
        <= (if Spent(s', e) then 1 else 0) - (if Spent(s, e) then 1 else 0) + (if Undoes(s, op, e) then 1 else 0)
  {
    hide Safe, Locked, Fetches, InFlight, Offer, MarkAll, Insert, Copies, Spent;
    if Enabled(s, op) {
      match op
      case Publish(r) => PublishSpends(s, r, e);
      case PublishFails(r, reached) =>
        OfferCounts(s.stream, s.drains[r].batch[s.drains[r].sent], s.now, e);
        DropSpends(s, r, e, Effect(s, op));
        if reached { NextIsUnspent(s, r); }
      case MarkAndCommit(r) => MarkSpends(s, r, e);
      case Crash(r) => DropSpends(s, r, e, Effect(s, op));
      case Fetch(r, limit, batch) => FetchSpends(s, r, batch, e);
      case Commit(tx) => CommitSpends(s, tx, e);
      case _ => OtherSpends(s, Effect(s, op), e);
    }
  }

  lemma OtherSpends(s: State, s': State, e: Event)
    requires s'.rows == s.rows && s'.drains == s.drains
    ensures Spent(s', e) == Spent(s, e)
  {
  }

  lemma CommitSpends(s: State, tx: TxID, e: Event)
    requires Safe(s) && tx in s.open
    ensures Spent(s, e) ==> Spent(Effect(s, Commit(tx)), e)
  {
    assert forall f | f in s.rows :: Insert(s.rows, s.open[tx])[f] == s.rows[f] by { assert OpenIsNew(s); }
  }

  lemma FetchSpends(s: State, r: RelayID, batch: seq<Event>, e: Event)
    requires r !in s.drains
    ensures Spent(s, e) ==> Spent(s.(drains := s.drains[r := Drain(batch, 0)]), e)
  {
    var s' := s.(drains := s.drains[r := Drain(batch, 0)]);
    if q :| q in s.drains && s.drains[q].sent <= |s.drains[q].batch| && e in s.drains[q].batch[..s.drains[q].sent] {
      assert q in s'.drains && s'.drains[q] == s.drains[q];
    }
  }

  /** The next row of a batch is neither published nor sent by anyone. */
  lemma NextIsUnspent(s: State, r: RelayID)
    requires Safe(s) && r in s.drains && s.drains[r].sent < |s.drains[r].batch|
    ensures !Spent(s, s.drains[r].batch[s.drains[r].sent])
  {
    hide InStream, Spaced, OpenIsNew, OpenIsApart, StreamIsCommitted, PublishedIsStored;
    var d := s.drains[r];
    var e := d.batch[d.sent];
    assert DrainOk(s, d) && e in d.batch;
    assert e !in d.batch[..d.sent];
    forall q | q in s.drains && q != r ensures e !in s.drains[q].batch { }
  }

  lemma PublishSpends(s: State, r: RelayID, e: Event)
    requires Safe(s) && r in s.drains && s.drains[r].sent < |s.drains[r].batch|
    ensures var s' := Effect(s, Publish(r));
      Copies(s'.stream, e) - Copies(s.stream, e) <= (if Spent(s', e) then 1 else 0) - (if Spent(s, e) then 1 else 0)
  {
    hide Safe, Offer, Copies, InStream;
    var d := s.drains[r];
    var s' := Effect(s, Publish(r));
    OfferCounts(s.stream, d.batch[d.sent], s.now, e);
    assert s'.drains[r].batch[..d.sent + 1] == d.batch[..d.sent] + [d.batch[d.sent]];
    if e == d.batch[d.sent] {
      NextIsUnspent(s, r);
      assert e in s'.drains[r].batch[..s'.drains[r].sent];
    } else {
      forall q | q in s.drains && s.drains[q].sent <= |s.drains[q].batch| && e in s.drains[q].batch[..s.drains[q].sent]
        ensures Spent(s', e)
      {
        assert q in s'.drains && e in s'.drains[q].batch[..s'.drains[q].sent];
      }
    }
  }

  lemma DropSpends(s: State, r: RelayID, e: Event, s': State)
    requires Safe(s) && r in s.drains && s'.drains == s.drains - {r} && s'.rows == s.rows
    ensures Spent(s, e) && !(s.drains[r].sent <= |s.drains[r].batch| && e in s.drains[r].batch[..s.drains[r].sent]) ==> Spent(s', e)
    ensures Spent(s', e) ==> Spent(s, e)
  {
    hide Safe;
    forall q | q in s.drains && q != r ensures q in s'.drains && s'.drains[q] == s.drains[q] { }
  }

  lemma MarkSpends(s: State, r: RelayID, e: Event)
    requires Safe(s) && r in s.drains && s.drains[r].sent == |s.drains[r].batch|
    ensures Spent(s, e) ==> Spent(Effect(s, MarkAndCommit(r)), e)
  {
    hide InStream, Spaced, OpenIsNew, OpenIsApart, StreamIsCommitted, PublishedIsStored;
    var s' := Effect(s, MarkAndCommit(r));
    var d := s.drains[r];
    assert DrainOk(s, d);
    if e in d.batch {
      assert e in s.rows && s'.rows[e].published;
    } else {
      assert d.batch[..d.sent] == d.batch;
      forall q | q in s.drains && q != r ensures q in s'.drains && s'.drains[q] == s.drains[q] { }
    }
  }

  lemma {:induction false} CopiesAreCounted(ops: seq<Op>, e: Event)
    ensures Copies(Run(Start, ops).stream, e) <= Undone(ops, e) + if Spent(Run(Start, ops), e) then 1 else 0
    decreases |ops|
  {
    hide Step, Spent, Undoes, Copies, Safe;
    if ops == [] {
      assert Copies(Run(Start, ops).stream, e) == 0 by { NoCopies(e); }
    } else {
      var s := Run(Start, ops[..|ops| - 1]);
      CopiesAreCounted(ops[..|ops| - 1], e);
      RunIsSafe(ops[..|ops| - 1]);
      StepCounts(s, ops[|ops| - 1], e);
    }
  }

  lemma NoCopies(e: Event)
    ensures Copies([], e) == 0
  {
  }

  /** A marked event is stored at least once, and at most once more than the number of relay
      transactions that published it and were then undone. */
  lemma MarkedEventIsStored(ops: seq<Op>, e: Event)
    requires e in Run(Start, ops).rows && Run(Start, ops).rows[e].published
    ensures 1 <= Copies(Run(Start, ops).stream, e) <= 1 + Undone(ops, e)
  {
    hide Run, Copies, Undone;
    CopiesAreCounted(ops, e);
    OutboxIsSafe(ops);
    var stream := Run(Start, ops).stream;
    var i :| 0 <= i < |stream| && StoredAt(stream, e, i);
    StoredIsCounted(stream, e, i);
  }

  lemma {:induction false} StoredIsCounted(stream: seq<Copy>, e: Event, i: nat)
    requires StoredAt(stream, e, i)
    ensures Copies(stream, e) >= 1
    decreases |stream|
  {
    if i < |stream| - 1 {
      assert StoredAt(stream[..|stream| - 1], e, i);
      StoredIsCounted(stream[..|stream| - 1], e, i);
    }
  }

  /** Retries that all fall within one window leave a single copy, however many there were. */
  lemma {:induction false} OneCopyWithinWindow(ops: seq<Op>, i: int, j: int)
    requires 0 <= i < |Run(Start, ops).stream| && 0 <= j < |Run(Start, ops).stream|
    requires Run(Start, ops).stream[i].event == Run(Start, ops).stream[j].event
    requires Run(Start, ops).now - Run(Start, ops).stream[i].at < WINDOW
    ensures j <= i
  {
    hide Run, InStream;
    RunIsSafe(ops);
  }

  // ------------------------------------------------------------------------------------------
  // The relay
  // ------------------------------------------------------------------------------------------

  datatype PublishResult = Accepted | Rejected | ReplyLost

  lemma RunExtends(s: State, ops: seq<Op>, op: Op)
    ensures Run(s, ops + [op]) == Step(Run(s, ops), op)
  {
    assert (ops + [op])[..|ops|] == ops;
  }

  lemma {:induction false} RunConcat(s: State, ops: seq<Op>, more: seq<Op>)
    ensures Run(s, ops + more) == Run(Run(s, ops), more)
    decreases |more|
  {
    hide Step;
    if more == [] {
      assert ops + more == ops;
    } else {
      var init := more[..|more| - 1];
      assert ops + more == (ops + init) + [more[|more| - 1]];
      RunConcat(s, ops, init);
      RunExtends(s, ops + init, more[|more| - 1]);
    }
  }

  /** Rows that are neither published nor locked. */
  function Backlog(s: State): set<Event> {
    set e | e in s.rows && Available(s, e)
  }

  /** A partial fetch: `left` is the rest of the backlog, none of it older than what was taken. */
  ghost predicate FetchingFrom(s: State, limit: nat, batch: seq<Event>, left: set<Event>) {
    && |batch| <= limit && Distinct(batch) && left <= Backlog(s)
    && (forall e | e in Backlog(s) :: e in left <==> e !in batch)
    && (forall i | 0 <= i < |batch| :: batch[i] in Backlog(s))
    && (forall i, j | 0 <= i < j < |batch| :: s.rows[batch[i]].createdAt <= s.rows[batch[j]].createdAt)
    && (forall i, e | 0 <= i < |batch| && e in left :: s.rows[batch[i]].createdAt <= s.rows[e].createdAt)
  }

  lemma TakeOldest(s: State, limit: nat, batch: seq<Event>, left: set<Event>, e: Event)
    requires FetchingFrom(s, limit, batch, left) && |batch| < limit
    requires e in left && forall f | f in left :: s.rows[e].createdAt <= s.rows[f].createdAt
    ensures FetchingFrom(s, limit, batch + [e], left - {e})
  {
    hide Available;
  }

  lemma FetchingIsFetch(s: State, limit: nat, batch: seq<Event>, left: set<Event>)
    requires FetchingFrom(s, limit, batch, left) && (left == {} || |batch| == limit)
    ensures Fetches(s, limit, batch)
    ensures batch == [] && limit > 0 ==> Backlog(s) == {}
  {
    hide Locked;
    forall e | Available(s, e) && e !in batch ensures e in left { assert e in Backlog(s); }
  }

  lemma StepFetch(s: State, r: RelayID, limit: nat, batch: seq<Event>)
    requires r !in s.drains && batch != [] && Fetches(s, limit, batch)
    ensures Run(s, [Fetch(r, limit, batch)]) == s.(drains := s.drains[r := Drain(batch, 0)])
  {
    hide Fetches;
    RunExtends(s, [], Fetch(r, limit, batch));
    assert [] + [Fetch(r, limit, batch)] == [Fetch(r, limit, batch)];
  }

  lemma StepRelay(s: State, ops: seq<Op>, op: Op)
    requires op.Publish? || op.PublishFails? || op.MarkAndCommit?
    requires Enabled(Run(s, ops), op)
    ensures Run(s, ops + [op]) == Effect(Run(s, ops), op)
  {
    hide Run, Effect;
    RunExtends(s, ops, op);
  }

  lemma DistinctSize(batch: seq<Event>)
    requires Distinct(batch)
    ensures |set e | e in batch| == |batch|
  {
    if batch != [] {
      var init := batch[..|batch| - 1];
      DistinctSize(init);
      assert (set e | e in batch) == (set e | e in init) + {batch[|batch| - 1]};
    }
  }

  /** Marking a fetched batch takes exactly the batch out of the backlog. */
  lemma MarkShrinksBacklog(s: State, limit: nat, batch: seq<Event>, s': State)
    requires Fetches(s, limit, batch) && s'.drains == s.drains && s'.rows == MarkAll(s.rows, batch)
    ensures |Backlog(s')| == |Backlog(s)| - |batch|
    ensures |batch| < limit ==> Backlog(s') == {}
  {
    hide Locked;
    forall e ensures Locked(s', e) == Locked(s, e) { SameLocks(s, s', e); }
    var taken := set e | e in batch;
    DistinctSize(batch);
    forall e | e in batch ensures e in Backlog(s) {
      var i :| 0 <= i < |batch| && batch[i] == e;
      assert Available(s, batch[i]);
    }
    assert Backlog(s') == Backlog(s) - taken;
    assert taken <= Backlog(s);
  }

  lemma SameLocks(s: State, s': State, e: Event)
    requires s'.drains == s.drains
    ensures Locked(s', e) == Locked(s, e)
  {
  }

  class Relay {
    const id: RelayID
    const limit: nat
    var now: int
    var open: map<TxID, OpenTx>
    var rows: map<Event, Row>
    var drains: map<RelayID, Drain>
    var stream: seq<Copy>

    /** The database and the stream this relay works on, other relays' transactions included. */
    ghost function Now(): State
      reads this
    {
      State(now, open, rows, drains, stream)
    }

    constructor (id: RelayID, batch: int)
      ensures this.id == id && limit == (if batch <= 0 then 100 else batch) && Now() == Start
    {
      this.id, limit := id, if batch <= 0 then 100 else batch;
      now, open, rows, drains, stream := 0, map[], map[], map[], [];
    }

    method FetchUnpublished() returns (batch: seq<Event>)
      ensures Fetches(Now(), limit, batch)
      ensures batch == [] && limit > 0 ==> Backlog(Now()) == {}
    {
      ghost var s := Now();
      batch := [];
      var left := set e | e in rows && !rows[e].published && forall r | r in drains :: e !in drains[r].batch;
      assert left == Backlog(s);
      hide Backlog, Fetches;
      assert FetchingFrom(s, limit, batch, left);
      while left != {} && |batch| < limit
        invariant FetchingFrom(s, limit, batch, left) && left <= rows.Keys && |batch| <= limit
        decreases |left|
      {
        var e := Oldest(rows, left);
        TakeOldest(s, limit, batch, left, e);
        batch := batch + [e];
        left := left - {e};
      }
      FetchingIsFetch(s, limit, batch, left);
    }

    /** Publishes the next locked event; on an error the transaction rolls back. */
    method PublishNext(result: PublishResult) returns (ghost op: Op)
      requires id in drains && drains[id].sent < |drains[id].batch|
      modifies this
      ensures op == if result == Accepted then Publish(id) else PublishFails(id, result == ReplyLost)
      ensures Now() == Effect(old(Now()), op)
    {
      hide Offer;
      var d := drains[id];
      if result != Rejected {
        stream := Offer(stream, d.batch[d.sent], now);
      }
      if result == Accepted {
        drains := drains[id := d.(sent := d.sent + 1)];
        op := Publish(id);
      } else {
        drains := drains - {id};
        op := PublishFails(id, result == ReplyLost);
      }
    }

    /** Publishes the locked batch in order, stopping at the first error. */
    method PublishBatch(batch: seq<Event>, results: nat -> PublishResult) returns (ok: bool, ghost ops: seq<Op>)
      requires id in drains && drains[id] == Drain(batch, 0)
      modifies this
      ensures Now() == Run(old(Now()), ops) && rows == old(rows)
      ensures drains == if ok then old(drains)[id := Drain(batch, |batch|)] else old(drains) - {id}
      ensures (forall k: nat :: results(k) == Accepted) ==> ok
    {
      ghost var s := Now();
      ops := [];
      for i := 0 to |batch|
        invariant Now() == Run(s, ops) && rows == s.rows && drains == s.drains[id := Drain(batch, i)]
      {
        hide Run, Offer;
        var op := PublishNext(results(i));
        StepRelay(s, ops, op);
        ops := ops + [op];
        if results(i) != Accepted {
          assert drains == s.drains - {id};
          return false, ops;
        }
      }
      ok := true;
    }

    /** Publishes one batch in one transaction; `results(k)` is what the broker does with the k-th event.
        Whatever happens is a run of this relay's steps. */
    method DrainOnce(results: nat -> PublishResult) returns (n: nat, ok: bool, ghost ops: seq<Op>)
      requires id !in drains && limit > 0
      modifies this
      ensures Now() == Run(old(Now()), ops)
      ensures drains == old(drains)
      ensures ok ==> n <= limit && |Backlog(Now())| == |old(Backlog(Now()))| - n
      ensures ok && n < limit ==> Backlog(Now()) == {}
      ensures !ok ==> rows == old(rows)
      ensures (forall k: nat :: results(k) == Accepted) ==> ok
    {
      var batch := FetchUnpublished();
      if batch == [] {
        return 0, true, [];
      }
      hide Run, Fetches, Backlog, MarkAll, Locked;
      ghost var s := Now();
      StepFetch(s, id, limit, batch);
      drains := drains[id := Drain(batch, 0)];
      ghost var sends;
      ok, sends := PublishBatch(batch, results);
      ops := [Fetch(id, limit, batch)] + sends;
      RunConcat(s, [Fetch(id, limit, batch)], sends);
      if !ok {
        assert drains == s.drains;
        return 0, false, ops;
      }
      StepRelay(s, ops, MarkAndCommit(id));
      ops := ops + [MarkAndCommit(id)];
      rows := MarkAll(rows, batch);
      drains := drains - {id};
      assert drains == s.drains;
      MarkShrinksBacklog(s, limit, batch, Now());
      n := |batch|;
    }

    /** One tick: batches until one comes back short or fails. With every publish accepted, nothing
        that could be locked is left unpublished. */
    method RunTick(results: (nat, nat) -> PublishResult) returns (ghost ops: seq<Op>)
      requires id !in drains && limit > 0
      modifies this
      ensures Now() == Run(old(Now()), ops) && drains == old(drains)
      ensures (forall i, k: nat :: results(i, k) == Accepted) ==> Backlog(Now()) == {}
    {
      ops := [];
      var round: nat := 0;
      while true
        invariant Now() == Run(old(Now()), ops) && drains == old(drains)
        decreases |Backlog(Now())|
      {
        hide Run, Backlog;
        var n, ok, more := DrainOnce((k: nat) => results(round, k));
        RunConcat(old(Now()), ops, more);
        ops := ops + more;
        if !ok || n < limit {
          break;
        }
        round := round + 1;
      }
    }
  }

  method Oldest(rows: map<Event, Row>, among: set<Event>) returns (e: Event)
    requires among != {} && among <= rows.Keys
    ensures e in among && forall f | f in among :: rows[e].createdAt <= rows[f].createdAt
  {
    e :| e in among;
    var left := among - {e};
    while left != {}
      invariant e in among && left <= among
      invariant forall f | f in among && f !in left :: rows[e].createdAt <= rows[f].createdAt
      decreases |left|
    {
      var f :| f in left;
      if rows[f].createdAt < rows[e].createdAt {
        e := f;
      }
      left := left - {f};
    }
  }
}
