/** The consumer that rolls finished builds out to deployments, under redelivery, transaction retries and
    crashes, next to everything else that changes deployments. */
module BuildConsumer {
  import opened Prelude
  import D = Deployments
  import Images

  type EventID = string

  datatype Payload = Payload(buildID: string, digest: string, image: string, registry: string)

  /** `payload` is None if it does not decode. */
  datatype Envelope = Envelope(id: EventID, kind: string, org: string, payload: Option<Payload>)

  const BUILD_SUCCEEDED := "build.succeeded"

  /** Deployment rows with their releases, their listing order, the ledger and the outbox. */
  datatype DB = DB(rows: map<D.DeploymentID, D.Deployment>, order: seq<D.DeploymentID>, processed: set<EventID>, outbox: seq<D.Event>)

  const Empty := DB(map[], [], {}, [])

  datatype Outcome = Processed | Deduplicated | Invalid | Ignored

  // ------------------------------------------------------------------------------------------
  // One event
  // ------------------------------------------------------------------------------------------

  predicate Usable(e: Envelope) {
    && e.kind == BUILD_SUCCEEDED && e.org != "" && e.payload.Some?
    && e.payload.value.digest != "" && e.payload.value.image != ""
  }

  function BuildRepository(p: Payload): string { Images.Repository(Images.Compose(p.registry, p.image)) }

  function PinnedImage(p: Payload): string { Images.Pin(BuildRepository(p), p.digest) }

  predicate Matches(d: D.Deployment, org: string, repository: string) {
    d.org == org && d.status != D.StatusDeleted && Images.Repository(d.image) == repository
  }

  predicate Hits(db: DB, e: Envelope, id: D.DeploymentID)
    requires Usable(e)
  {
    id in db.rows && Matches(db.rows[id], e.org, BuildRepository(e.payload.value))
  }

  ghost function RowAfter(db: DB, e: Envelope, done: seq<D.DeploymentID>, id: D.DeploymentID): D.Deployment
    requires Usable(e) && id in db.rows
  {
    if id in done && Hits(db, e, id) then D.RollOut(id, db.rows[id], PinnedImage(e.payload.value)).row else db.rows[id]
  }

  ghost function EventsOf(db: DB, e: Envelope, id: D.DeploymentID): seq<D.Event>
    requires Usable(e)
  {
    if Hits(db, e, id) then D.RollOut(id, db.rows[id], PinnedImage(e.payload.value)).events else []
  }

  ghost function EventsFor(db: DB, e: Envelope, done: seq<D.DeploymentID>): seq<D.Event>
    requires Usable(e)
  {
    if done == [] then []
    else
      var id := done[|done| - 1];
      EventsFor(db, e, done[..|done| - 1]) + EventsOf(db, e, id)
  }

  /** The event recorded and rolled out to the first `n` listed deployments. */
  ghost function RolledOut(db: DB, e: Envelope, n: nat): DB
    requires Usable(e) && n <= |db.order|
  {
    DB(map id | id in db.rows :: RowAfter(db, e, db.order[..n], id), db.order, db.processed + {e.id},
       db.outbox + EventsFor(db, e, db.order[..n]))
  }

  ghost function RollOutAll(db: DB, e: Envelope): DB
    requires Usable(e)
  {
    RolledOut(db, e, |db.order|)
  }

  /** The guarded transaction: an event in the ledger changes nothing. */
  ghost function Guarded(db: DB, e: Envelope): DB
    requires Usable(e)
  {
    if e.id in db.processed then db else RollOutAll(db, e)
  }

  // ------------------------------------------------------------------------------------------
  // Deliveries and everything else
  // ------------------------------------------------------------------------------------------

  /** How an attempt of the transaction ended: committed; committed, but the reply was lost; or rolled
      back after `reached` listed deployments, with an error that is or is not worth retrying. */
  datatype TxEnd = Committed | Unheard | RolledBack(retryable: bool, reached: nat)

  const MAX_TX_ATTEMPTS: nat := 3

  /** Does the delivery take effect? Too few ends mean the process died. */
  predicate TakesEffect(ends: seq<TxEnd>, attempt: nat)
    decreases |ends| - attempt
  {
    attempt < |ends| && attempt < MAX_TX_ATTEMPTS
    && match ends[attempt]
       case RolledBack(retryable, _) => retryable && TakesEffect(ends, attempt + 1)
       case _ => true
  }

  datatype Op =
    | Deliver(e: Envelope, ends: seq<TxEnd>)
    | Create(id: D.DeploymentID, org: string, image: string, replicas: int, spec: string)
    | Change(id: D.DeploymentID, op: D.Op)

  predicate Counts(op: Op) { op.Deliver? && Usable(op.e) && TakesEffect(op.ends, 0) }

  ghost function Other(db: DB, op: Op): DB
    requires !op.Deliver?
  {
    match op
    case Create(id, org, image, replicas, spec) =>
      if id in db.rows || !D.Valid(image, replicas) then db
      else
        var c := D.NewDeployment(id, org, image, replicas, spec);
        db.(rows := db.rows[id := c.row], order := [id] + db.order, outbox := db.outbox + c.events)
    case Change(id, op) =>
      if id !in db.rows || op.DoRollOut? then db
      else
        var c := D.Apply(id, db.rows[id], op);
        db.(rows := db.rows[id := c.row], outbox := db.outbox + c.events)
  }

  ghost function Step(db: DB, op: Op): DB {
    if op.Deliver? then if Counts(op) then Guarded(db, op.e) else db
    else Other(db, op)
  }

  ghost function Run(ops: seq<Op>): DB
    decreases |ops|
  {
    if ops == [] then Empty else Step(Run(ops[..|ops| - 1]), ops[|ops| - 1])
  }

  // ------------------------------------------------------------------------------------------
  // Apply once
  // ------------------------------------------------------------------------------------------

  /** A machine without a ledger that applies whatever it is handed. */
  ghost function PlainStep(db: DB, op: Op): DB {
    if op.Deliver? then if Usable(op.e) then RollOutAll(db, op.e) else db
    else Other(db, op)
  }

  ghost function PlainRun(ops: seq<Op>): DB
    decreases |ops|
  {
    if ops == [] then Empty else PlainStep(PlainRun(ops[..|ops| - 1]), ops[|ops| - 1])
  }

  /** The events whose delivery took effect. */
  function Effective(ops: seq<Op>): set<EventID>
    decreases |ops|
  {
    if ops == [] then {}
    else Effective(ops[..|ops| - 1]) + if Counts(ops[|ops| - 1]) then {ops[|ops| - 1].e.id} else {}
  }

  /** The schedule with only the first effective delivery of each event left in it. */
  function FirstDeliveries(ops: seq<Op>): seq<Op>
    decreases |ops|
  {
    if ops == [] then []
    else
      var (init, op) := (ops[..|ops| - 1], ops[|ops| - 1]);
      if op.Deliver? && !(Counts(op) && op.e.id !in Effective(init)) then FirstDeliveries(init)
      else FirstDeliveries(init) + [op]
  }

  /** Whatever was delivered how often, with whatever failures, retries and crashes in between: the tables
      and the outbox are those of the machine without a ledger that is given each event once, at its
      first effective delivery; the ledger holds exactly the events that took effect. */
  lemma {:induction false} AppliedOnce(ops: seq<Op>)
    ensures Run(ops) == PlainRun(FirstDeliveries(ops)) && Run(ops).processed == Effective(ops)
    decreases |ops|
  {
    if ops != [] {
      var (init, op) := (ops[..|ops| - 1], ops[|ops| - 1]);
      AppliedOnce(init);
      PlainExtends(FirstDeliveries(init), op);
      hide PlainRun, RollOutAll, Other, TakesEffect, Usable;
      OtherKeepsLedger(Run(init), op);
      RollOutRecords(Run(init), op);
    }
  }

  lemma PlainExtends(ops: seq<Op>, op: Op)
    ensures PlainRun(ops + [op]) == PlainStep(PlainRun(ops), op)
  {
    assert (ops + [op])[..|ops|] == ops;
  }

  lemma OtherKeepsLedger(db: DB, op: Op)
    ensures !op.Deliver? ==> Other(db, op).processed == db.processed
  {
  }

  lemma RollOutRecords(db: DB, op: Op)
    ensures op.Deliver? && Usable(op.e) ==> RollOutAll(db, op.e).processed == db.processed + {op.e.id}
  {
  }

  /** In that schedule every effective event occurs exactly once. */
  lemma {:induction false} FirstDeliveriesAreDistinct(ops: seq<Op>, i: nat, j: nat)
    requires var kept := FirstDeliveries(ops); i < j < |kept| && kept[i].Deliver? && kept[j].Deliver?
    ensures FirstDeliveries(ops)[i].e.id != FirstDeliveries(ops)[j].e.id
    decreases |ops|
  {
    var (init, op) := (ops[..|ops| - 1], ops[|ops| - 1]);
    if j < |FirstDeliveries(init)| {
      FirstDeliveriesAreDistinct(init, i, j);
    } else {
      KeptAreEffective(init, i);
    }
  }

  lemma {:induction false} KeptAreEffective(ops: seq<Op>, i: nat)
    requires i < |FirstDeliveries(ops)| && FirstDeliveries(ops)[i].Deliver?
    ensures FirstDeliveries(ops)[i].e.id in Effective(ops)
    decreases |ops|
  {
    var init := ops[..|ops| - 1];
    if i < |FirstDeliveries(init)| {
      KeptAreEffective(init, i);
    }
  }

  lemma {:induction false} EffectiveAreKept(ops: seq<Op>, id: EventID) returns (i: nat)
    requires id in Effective(ops)
    ensures i < |FirstDeliveries(ops)| && FirstDeliveries(ops)[i].Deliver? && FirstDeliveries(ops)[i].e.id == id
    decreases |ops|
  {
    var (init, op) := (ops[..|ops| - 1], ops[|ops| - 1]);
    if id in Effective(init) {
      i := EffectiveAreKept(init, id);
    } else {
      i := |FirstDeliveries(init)|;
    }
  }

  // ------------------------------------------------------------------------------------------
  // Every deployment lives one of its own histories
  // ------------------------------------------------------------------------------------------

  function About(outbox: seq<D.Event>, id: D.DeploymentID): seq<D.Event>
    decreases |outbox|
  {
    if outbox == [] then []
    else About(outbox[..|outbox| - 1], id) + if outbox[|outbox| - 1].id == id then [outbox[|outbox| - 1]] else []
  }

  lemma {:induction false} AboutConcat(a: seq<D.Event>, b: seq<D.Event>, id: D.DeploymentID)
    ensures About(a + b, id) == About(a, id) + About(b, id)
    decreases |b|
  {
    if b == [] {
      assert a + b == a;
    } else {
      assert (a + b)[..|a + b| - 1] == a + b[..|b| - 1];
      AboutConcat(a, b[..|b| - 1], id);
    }
  }

  ghost predicate AllAbout(events: seq<D.Event>, id: D.DeploymentID) {
    forall i | 0 <= i < |events| :: events[i].id == id
  }

  lemma {:induction false} AboutItself(events: seq<D.Event>, id: D.DeploymentID, other: D.DeploymentID)
    requires AllAbout(events, id)
    ensures About(events, other) == if other == id then events else []
    decreases |events|
  {
    if events != [] {
      AboutItself(events[..|events| - 1], id, other);
    }
  }

  lemma ApplyIsAbout(id: D.DeploymentID, d: D.Deployment, op: D.Op)
    ensures AllAbout(D.Apply(id, d, op).events, id)
  {
    hide D.Latest, D.PreviousSuccessful;
  }

  /** The listing names every row once. */
  ghost predicate Listed(db: DB) {
    && (forall id :: id in db.rows <==> id in db.order)
    && (forall i, j | 0 <= i < j < |db.order| :: db.order[i] != db.order[j])
  }

  lemma {:induction false} ListedRun(ops: seq<Op>)
    ensures Listed(Run(ops))
    decreases |ops|
  {
    hide D.Apply, RowAfter, EventsFor, Usable, TakesEffect;
    if ops != [] {
      ListedRun(ops[..|ops| - 1]);
    }
  }

  lemma EventsOfIsAbout(db: DB, e: Envelope, id: D.DeploymentID)
    requires Usable(e)
    ensures AllAbout(EventsOf(db, e, id), id)
  {
    hide D.Latest, Usable, PinnedImage, Matches;
  }

  /** What a rollout enqueues about one deployment is that deployment's own change. */
  lemma {:induction false} EventsForOne(db: DB, e: Envelope, done: seq<D.DeploymentID>, id: D.DeploymentID)
    requires Usable(e) && forall i, j | 0 <= i < j < |done| :: done[i] != done[j]
    ensures About(EventsFor(db, e, done), id) == if id in done then EventsOf(db, e, id) else []
    decreases |done|
  {
    hide Usable, EventsOf, About;
    if done == [] {
      NothingAtStart(id);
    } else {
      var (init, last) := (done[..|done| - 1], done[|done| - 1]);
      EventsForOne(db, e, init, id);
      AboutConcat(EventsFor(db, e, init), EventsOf(db, e, last), id);
      EventsOfIsAbout(db, e, last);
      AboutItself(EventsOf(db, e, last), last, id);
      assert done == init + [last];
    }
  }

  ghost predicate IsNew(first: D.Change, id: D.DeploymentID) {
    exists org, image, replicas, spec :: D.Valid(image, replicas) && first == D.NewDeployment(id, org, image, replicas, spec)
  }

  ghost predicate Lives(db: DB, id: D.DeploymentID, first: D.Change, own: seq<D.Op>) {
    && id in db.rows && IsNew(first, id)
    && D.History(id, first, own) == D.Change(db.rows[id], About(db.outbox, id))
  }

  /** A history that went on by at most one step, raced only if `raced`. */
  ghost predicate GoesOn(own: seq<D.Op>, own': seq<D.Op>, raced: bool) {
    own' == own || exists op :: own' == own + [op] && (D.Raced(op) ==> raced)
  }

  predicate Races(op: Op) { op.Change? && D.Raced(op.op) }

  ghost predicate NoneRaces(ops: seq<Op>) { forall i | 0 <= i < |ops| :: !Races(ops[i]) }

  lemma LivesOn(db: DB, db': DB, id: D.DeploymentID, first: D.Change, own: seq<D.Op>, op: D.Op)
    requires Lives(db, id, first, own) && id in db'.rows
    requires var c := D.Apply(id, db.rows[id], op);
      db'.rows[id] == c.row && About(db'.outbox, id) == About(db.outbox, id) + c.events
    ensures Lives(db', id, first, own + [op])
  {
    assert (own + [op])[..|own|] == own;
    hide D.Apply;
  }

  lemma RollOutIsApply(db: DB, e: Envelope, id: D.DeploymentID)
    requires Usable(e) && Hits(db, e, id)
    ensures D.Apply(id, db.rows[id], D.DoRollOut(PinnedImage(e.payload.value)))
         == D.RollOut(id, db.rows[id], PinnedImage(e.payload.value))
  {
    hide D.RollOut, PinnedImage;
  }

  lemma DeliveryLivesOn(db: DB, e: Envelope, id: D.DeploymentID, first: D.Change, own: seq<D.Op>) returns (own': seq<D.Op>)
    requires Listed(db) && Usable(e) && Lives(db, id, first, own)
    ensures Lives(RollOutAll(db, e), id, first, own') && GoesOn(own, own', false)
  {
    var db' := RollOutAll(db, e);
    assert db.order[..|db.order|] == db.order;
    EventsForOne(db, e, db.order, id);
    AboutConcat(db.outbox, EventsFor(db, e, db.order), id);
    hide D.History, D.Apply, D.RollOut, EventsFor, Usable, PinnedImage, About;
    if Hits(db, e, id) {
      RollOutIsApply(db, e, id);
      own' := own + [D.DoRollOut(PinnedImage(e.payload.value))];
      LivesOn(db, db', id, first, own, D.DoRollOut(PinnedImage(e.payload.value)));
    } else {
      own' := own;
    }
  }

  lemma OtherLivesOn(db: DB, op: Op, id: D.DeploymentID, first: D.Change, own: seq<D.Op>) returns (own': seq<D.Op>)
    requires !op.Deliver? && Lives(db, id, first, own)
    ensures Lives(Other(db, op), id, first, own') && GoesOn(own, own', Races(op))
  {
    own' := own;
    hide D.History, D.Apply, About, IsNew;
    match op
    case Create(x, org, image, replicas, spec) =>
      if Other(db, op) != db {
        var c := D.NewDeployment(x, org, image, replicas, spec);
        AboutConcat(db.outbox, c.events, id);
        AboutItself(c.events, x, id);
      }
    case Change(x, change) =>
      if Other(db, op) != db {
        var c := D.Apply(x, db.rows[x], change);
        ApplyIsAbout(x, db.rows[x], change);
        AboutConcat(db.outbox, c.events, id);
        AboutItself(c.events, x, id);
        if x == id {
          own' := own + [change];
          LivesOn(db, Other(db, op), id, first, own, change);
        }
      }
  }

  ghost predicate NothingAbout(db: DB, id: D.DeploymentID) { About(db.outbox, id) == [] }

  lemma UnknownStaysSilent(db: DB, op: Op, id: D.DeploymentID)
    requires Listed(db) && id !in db.rows && NothingAbout(db, id) && id !in Step(db, op).rows
    ensures NothingAbout(Step(db, op), id)
  {
    hide D.Apply, Usable, TakesEffect, PinnedImage, About;
    match op
    case Deliver(e, ends) =>
      if Counts(op) && e.id !in db.processed {
        assert db.order[..|db.order|] == db.order;
        EventsForOne(db, e, db.order, id);
        AboutConcat(db.outbox, EventsFor(db, e, db.order), id);
      }
    case Create(x, org, image, replicas, spec) =>
      if x !in db.rows && D.Valid(image, replicas) {
        AboutConcat(db.outbox, D.NewDeployment(x, org, image, replicas, spec).events, id);
        AboutItself(D.NewDeployment(x, org, image, replicas, spec).events, x, id);
      }
    case Change(x, change) =>
      if x in db.rows && !change.DoRollOut? {
        ApplyIsAbout(x, db.rows[x], change);
        AboutConcat(db.outbox, D.Apply(x, db.rows[x], change).events, id);
        AboutItself(D.Apply(x, db.rows[x], change).events, x, id);
      }
  }

  lemma BornNew(db: DB, op: Op, id: D.DeploymentID) returns (first: D.Change)
    requires id !in db.rows && NothingAbout(db, id) && id in Step(db, op).rows
    ensures Lives(Step(db, op), id, first, [])
  {
    hide D.Apply, Usable, TakesEffect, PinnedImage, About, EventsFor, RowAfter;
    assert op.Create? && op.id == id;
    first := D.NewDeployment(id, op.org, op.image, op.replicas, op.spec);
    AboutConcat(db.outbox, first.events, id);
    AboutItself(first.events, id, id);
  }

  lemma {:induction false} SilentBeforeBirth(ops: seq<Op>, id: D.DeploymentID)
    requires id !in Run(ops).rows
    ensures NothingAbout(Run(ops), id)
    decreases |ops|
  {
    hide Step, About;
    if ops == [] {
      NothingAtStart(id);
    } else {
      var init := ops[..|ops| - 1];
      if id in Run(init).rows { RowsStay(Run(init), ops[|ops| - 1], id); }
      SilentBeforeBirth(init, id);
      ListedRun(init);
      UnknownStaysSilent(Run(init), ops[|ops| - 1], id);
    }
  }

  lemma NothingAtStart(id: D.DeploymentID)
    ensures NothingAbout(Empty, id)
  {
  }

  lemma RowsStay(db: DB, op: Op, id: D.DeploymentID)
    requires id in db.rows
    ensures id in Step(db, op).rows
  {
    hide D.Apply, Usable, TakesEffect, PinnedImage, About, EventsFor, RowAfter;
  }

  /** In every schedule each deployment's rows and events are those of one history of its own, built from
      its user changes, reports and rollouts: what holds of all histories holds of all schedules. */
  lemma {:induction false} EachLivesItsHistory(ops: seq<Op>, id: D.DeploymentID) returns (first: D.Change, own: seq<D.Op>)
    requires id in Run(ops).rows
    ensures Lives(Run(ops), id, first, own) && (NoneRaces(ops) ==> D.NoRace(own))
    decreases |ops|
  {
    hide Step, Lives, Listed, About, Other, Guarded;
    var (init, op) := (ops[..|ops| - 1], ops[|ops| - 1]);
    var db := Run(init);
    ListedRun(init);
    if id in db.rows {
      var before;
      first, before := EachLivesItsHistory(init, id);
      own := StepLivesOn(db, op, id, first, before);
      if NoneRaces(ops) {
        assert forall i | 0 <= i < |init| :: init[i] == ops[i];
      }
    } else {
      SilentBeforeBirth(init, id);
      first := BornNew(db, op, id);
      own := [];
    }
  }

  lemma StepLivesOn(db: DB, op: Op, id: D.DeploymentID, first: D.Change, own: seq<D.Op>) returns (own': seq<D.Op>)
    requires Listed(db) && Lives(db, id, first, own)
    ensures Lives(Step(db, op), id, first, own') && GoesOn(own, own', Races(op))
  {
    hide Lives, Listed, Other, RollOutAll, TakesEffect, Usable;
    own' := own;
    if !op.Deliver? {
      own' := OtherLivesOn(db, op, id, first, own);
    } else if Counts(op) && op.e.id !in db.processed {
      own' := DeliveryLivesOn(db, op.e, id, first, own);
    }
  }

  /** Hence in every schedule, builds included, every deployment's revisions are exactly 1..n, and unless a
      report lost a race every row runs its highest revision. */
  lemma AllRevisionsHaveNoGaps(ops: seq<Op>, id: D.DeploymentID)
    requires id in Run(ops).rows
    ensures var d := Run(ops).rows[id];
      && (forall r: nat :: r in d.releases <==> 1 <= r <= |d.releases|)
      && (NoneRaces(ops) ==> |d.releases| in d.releases && d.image == d.releases[|d.releases|].image
                             && d.replicas == d.releases[|d.releases|].replicas)
  {
    var first, own := EachLivesItsHistory(ops, id);
    hide Run, D.History, About;
    var org, image, replicas, spec :| D.Valid(image, replicas) && first == D.NewDeployment(id, org, image, replicas, spec);
    D.RevisionsHaveNoGaps(id, org, image, replicas, spec, own);
  }

  /** And in every schedule a release created by an automatic rollback is never rolled back itself. */
  lemma NoScheduleRollsBackARollback(ops: seq<Op>, id: D.DeploymentID, i: nat, j: nat)
    requires id in Run(ops).rows
    requires var log := About(Run(ops).outbox, id); i < |log| && j < |log| && log[i].RollbackStarted? && log[j].RollbackStarted?
    ensures var log := About(Run(ops).outbox, id); log[i].release != log[j].from && (i != j ==> log[i].from != log[j].from)
  {
    var first, own := EachLivesItsHistory(ops, id);
    hide Run, D.History, About;
    var org, image, replicas, spec :| D.Valid(image, replicas) && first == D.NewDeployment(id, org, image, replicas, spec);
    D.RollbacksStartOnce(id, org, image, replicas, spec, own, i, j);
  }

  // ------------------------------------------------------------------------------------------
  // What a delivery does
  // ------------------------------------------------------------------------------------------

  /** A delivery takes effect exactly if one of its three attempts commits, heard or not, after attempts
      that were rolled back and worth retrying. */
  lemma {:induction false} TakesEffectExactly(ends: seq<TxEnd>, attempt: nat)
    ensures TakesEffect(ends, attempt) <==> CommitsFrom(ends, attempt)
    decreases |ends| - attempt
  {
    if attempt < |ends| && attempt < MAX_TX_ATTEMPTS {
      if ends[attempt].RolledBack? {
        TakesEffectExactly(ends, attempt + 1);
        if CommitsFrom(ends, attempt + 1) && ends[attempt].retryable {
          var k: nat :| CommitsAt(ends, attempt + 1, k);
          assert CommitsAt(ends, attempt, k);
        }
        if CommitsFrom(ends, attempt) {
          var k: nat :| CommitsAt(ends, attempt, k);
          assert CommitsAt(ends, attempt + 1, k);
        }
      } else {
        assert CommitsAt(ends, attempt, attempt);
      }
    }
  }

  ghost predicate CommitsFrom(ends: seq<TxEnd>, attempt: nat) { exists k: nat :: CommitsAt(ends, attempt, k) }

  /** A commit that was heard. */
  ghost predicate Heard(ends: seq<TxEnd>) { exists k: nat :: CommitsAt(ends, 0, k) && ends[k].Committed? }

  predicate CommitsAt(ends: seq<TxEnd>, first: nat, k: nat) {
    && first <= k < |ends| && k < 3 && !ends[k].RolledBack?
    && forall i | first <= i < k :: ends[i].RolledBack? && ends[i].retryable
  }

  /** The image a usable build stands for: its bare repository, pinned to its digest. */
  function BuiltImage(p: Payload): string {
    Images.Repository(Images.Compose(p.registry, p.image)) + "@" + p.digest
  }

  /** Is this a finished build of some image for some organisation? */
  predicate IsBuild(e: Envelope) {
    match e.payload
    case None => false
    case Some(p) => e.kind == "build.succeeded" && e.org != "" && p.digest != "" && p.image != ""
  }

  /** A deployment moved to `image`: the next release and the row run it, everything else is kept. */
  ghost predicate MovedTo(d: D.Deployment, d': D.Deployment, image: string) {
    d' == d.(image := image, status := D.StatusPending,
             releases := d.releases[|d.releases| + 1 := D.Release(image, d.replicas, d.spec, D.RelPending)])
  }

  /** What an effective first delivery does to deployment `id`: if it is a live deployment of the event's
      organisation that runs the built repository, under whatever tag or digest, it moves to the built
      image and one event says so; otherwise nothing about it changes. */
  ghost predicate RollsOutTo(e: Envelope, id: D.DeploymentID, before: DB, after: DB)
    requires IsBuild(e) && id in before.rows && id in after.rows
  {
    var (d, d', p) := (before.rows[id], after.rows[id], e.payload.value);
    if d.org == e.org && d.status != D.StatusDeleted
       && Images.Repository(d.image) == Images.Repository(Images.Compose(p.registry, p.image))
    then MovedTo(d, d', BuiltImage(p))
         && About(after.outbox, id) == About(before.outbox, id) + [D.Created(id, |d.releases| + 1, BuiltImage(p), d.replicas)]
    else d' == d && About(after.outbox, id) == About(before.outbox, id)
  }

  lemma RollOutMoves(id: D.DeploymentID, d: D.Deployment, image: string)
    requires D.Numbered(d)
    ensures MovedTo(d, D.RollOut(id, d, image).row, image)
    ensures D.RollOut(id, d, image).events == [D.Created(id, |d.releases| + 1, image, d.replicas)]
  {
    D.LatestIsSize(d);
    hide D.Latest, D.Numbered;
  }

  lemma RowOfAll(db: DB, e: Envelope, id: D.DeploymentID)
    requires Listed(db) && Usable(e) && id in db.rows
    ensures id in RollOutAll(db, e).rows
    ensures RollOutAll(db, e).rows[id]
         == if Hits(db, e, id) then D.RollOut(id, db.rows[id], PinnedImage(e.payload.value)).row else db.rows[id]
  {
    assert db.order[..|db.order|] == db.order;
    hide D.RollOut, PinnedImage, Usable, Hits, EventsFor;
  }

  lemma EventsOfAll(db: DB, e: Envelope, id: D.DeploymentID)
    requires Listed(db) && Usable(e) && id in db.rows
    ensures About(RollOutAll(db, e).outbox, id) == About(db.outbox, id) + EventsOf(db, e, id)
  {
    assert db.order[..|db.order|] == db.order;
    EventsForOne(db, e, db.order, id);
    AboutConcat(db.outbox, EventsFor(db, e, db.order), id);
    hide Usable, EventsOf, EventsFor, About, RowAfter;
  }

  lemma HitsExactly(db: DB, e: Envelope, id: D.DeploymentID)
    requires Usable(e) && id in db.rows
    ensures var (d, p) := (db.rows[id], e.payload.value);
      Hits(db, e, id) <==> d.org == e.org && d.status != D.StatusDeleted
                           && Images.Repository(d.image) == Images.Repository(Images.Compose(p.registry, p.image))
    ensures PinnedImage(e.payload.value) == BuiltImage(e.payload.value)
  {
    hide Images.Repository, Images.Compose;
  }

  lemma BuildsAreUsable(e: Envelope)
    ensures IsBuild(e) <==> Usable(e)
    ensures IsBuild(e) ==> e.payload.Some?
  {
  }

  lemma RowRollsOut(db: DB, e: Envelope, id: D.DeploymentID)
    requires Listed(db) && IsBuild(e) && id in db.rows && D.Numbered(db.rows[id])
    ensures Usable(e) && id in RollOutAll(db, e).rows && RollsOutTo(e, id, db, RollOutAll(db, e))
  {
    hide *;
    BuildsAreUsable(e);
    RowOfAll(db, e, id);
    EventsOfAll(db, e, id);
    HitsExactly(db, e, id);
    EventsOfHit(db, e, id);
    RollOutMoves(id, db.rows[id], BuiltImage(e.payload.value));
    assert About(db.outbox, id) + [] == About(db.outbox, id);
    RolledOutOrLeft(e, id, db, RollOutAll(db, e), Hits(db, e, id));
  }

  lemma EventsOfHit(db: DB, e: Envelope, id: D.DeploymentID)
    requires Usable(e) && id in db.rows
    ensures EventsOf(db, e, id) == if Hits(db, e, id) then D.RollOut(id, db.rows[id], PinnedImage(e.payload.value)).events else []
  {
    hide Hits, Usable, PinnedImage, D.RollOut;
  }

  lemma RolledOutOrLeft(e: Envelope, id: D.DeploymentID, before: DB, after: DB, hit: bool)
    requires IsBuild(e) && e.payload.Some? && id in before.rows && id in after.rows
    requires var (d, p) := (before.rows[id], e.payload.value);
      hit == (d.org == e.org && d.status != D.StatusDeleted
              && Images.Repository(d.image) == Images.Repository(Images.Compose(p.registry, p.image)))
    requires hit ==> MovedTo(before.rows[id], after.rows[id], BuiltImage(e.payload.value))
    requires var created := D.Created(id, |before.rows[id].releases| + 1, BuiltImage(e.payload.value), before.rows[id].replicas);
      hit ==> About(after.outbox, id) == About(before.outbox, id) + [created]
    requires !hit ==> after.rows[id] == before.rows[id] && About(after.outbox, id) == About(before.outbox, id)
    ensures RollsOutTo(e, id, before, after)
  {
    hide MovedTo, About, BuiltImage, Images.Repository, Images.Compose;
  }

  lemma StepRollsOut(db: DB, e: Envelope, ends: seq<TxEnd>, id: D.DeploymentID)
    requires Listed(db) && IsBuild(e) && e.id !in db.processed && id in db.rows && D.Numbered(db.rows[id])
    requires CommitsFrom(ends, 0)
    ensures var after := Step(db, Deliver(e, ends));
      after.rows.Keys == db.rows.Keys && after.order == db.order && after.processed == db.processed + {e.id} && RollsOutTo(e, id, db, after)
  {
    TakesEffectExactly(ends, 0);
    RowRollsOut(db, e, id);
    hide RollsOutTo, TakesEffect, RowAfter, EventsFor;
  }

  /** Over every schedule: an effective first delivery of a build rolls it out to exactly the deployments
      that run its repository, and every other delivery changes nothing at all. */
  lemma DeliveriesRollOut(ops: seq<Op>, e: Envelope, ends: seq<TxEnd>, id: D.DeploymentID)
    requires id in Run(ops).rows
    ensures var (before, after) := (Run(ops), Run(ops + [Deliver(e, ends)]));
      if IsBuild(e) && e.id !in Effective(ops) && CommitsFrom(ends, 0)
      then id in after.rows && RollsOutTo(e, id, before, after)
      else after == before
  {
    assert (ops + [Deliver(e, ends)])[..|ops|] == ops;
    AppliedOnce(ops);
    TakesEffectExactly(ends, 0);
    if IsBuild(e) && e.id !in Effective(ops) && CommitsFrom(ends, 0) {
      ListedRun(ops);
      RowIsNumbered(ops, id);
      StepRollsOut(Run(ops), e, ends, id);
    }
    hide RollOutAll, TakesEffect, RollsOutTo, Effective;
  }

  lemma RowIsNumbered(ops: seq<Op>, id: D.DeploymentID)
    requires id in Run(ops).rows
    ensures D.Numbered(Run(ops).rows[id])
  {
    var first, own := EachLivesItsHistory(ops, id);
    hide Run, D.History, About, D.Numbered, D.RunsLatest, D.LogOk;
    var org, image, replicas, spec :| D.Valid(image, replicas) && first == D.NewDeployment(id, org, image, replicas, spec);
    D.NewHistoryOk(id, org, image, replicas, spec, own);
  }

  // ------------------------------------------------------------------------------------------
  // The consumer, statement by statement
  // ------------------------------------------------------------------------------------------

  /** Deployments hit among the first `n` listed. */
  function HitsBelow(db: DB, e: Envelope, n: nat): nat
    requires Usable(e) && n <= |db.order|
  {
    if n == 0 then 0 else HitsBelow(db, e, n - 1) + if Hits(db, e, db.order[n - 1]) then 1 else 0
  }

  /** How far an attempt got before it ended. */
  function Reached(db: DB, end: TxEnd): nat {
    if end.RolledBack? && end.reached < |db.order| then end.reached else |db.order|
  }

  /** The releases created over all attempts from `attempt` on, rolled back or not. */
  function CreatedOverall(db: DB, e: Envelope, ends: seq<TxEnd>, attempt: nat): nat
    requires Usable(e)
    decreases |ends| - attempt
  {
    if attempt >= |ends| || attempt >= MAX_TX_ATTEMPTS || e.id in db.processed then 0
    else
      HitsBelow(db, e, Reached(db, ends[attempt]))
        + if ends[attempt].RolledBack? && ends[attempt].retryable then CreatedOverall(db, e, ends, attempt + 1) else 0
  }

  ghost predicate AllRetried(ends: seq<TxEnd>, attempt: nat) {
    attempt <= |ends| && forall i | 0 <= i < attempt :: ends[i].RolledBack? && ends[i].retryable
  }

  lemma ReachedAttempt(ends: seq<TxEnd>, attempt: nat)
    requires attempt < |ends| && attempt < MAX_TX_ATTEMPTS && AllRetried(ends, attempt)
    ensures !ends[attempt].RolledBack? ==> (ends[attempt].Committed? <==> Heard(ends)) && TakesEffect(ends, 0)
    ensures ends[attempt].RolledBack? && !ends[attempt].retryable ==> !Heard(ends) && !TakesEffect(ends, 0)
    ensures ends[attempt].RolledBack? && ends[attempt].retryable ==> AllRetried(ends, attempt + 1)
  {
    TakesEffectExactly(ends, 0);
    hide TakesEffect;
    if !ends[attempt].RolledBack? {
      assert CommitsAt(ends, 0, attempt);
    }
  }

  lemma NeverHeard(ends: seq<TxEnd>, attempt: nat)
    requires AllRetried(ends, attempt) && (attempt == |ends| || attempt >= MAX_TX_ATTEMPTS)
    ensures !Heard(ends) && !TakesEffect(ends, 0)
  {
    TakesEffectExactly(ends, 0);
    hide TakesEffect;
  }

  lemma OneAttempt(db: DB, e: Envelope, ends: seq<TxEnd>, attempt: nat)
    requires Usable(e) && attempt < |ends| && attempt < MAX_TX_ATTEMPTS
    ensures TakesEffect(ends, attempt) == (ends[attempt].RolledBack? ==> ends[attempt].retryable && TakesEffect(ends, attempt + 1))
    ensures CreatedOverall(db, e, ends, attempt) == if e.id in db.processed then 0 else
      HitsBelow(db, e, Reached(db, ends[attempt]))
        + if ends[attempt].RolledBack? && ends[attempt].retryable then CreatedOverall(db, e, ends, attempt + 1) else 0
    ensures e.id in db.processed ==> CreatedOverall(db, e, ends, attempt + 1) == 0
  {
  }

  lemma NoAttemptLeft(db: DB, e: Envelope, ends: seq<TxEnd>)
    requires Usable(e)
    ensures forall k: nat | k >= |ends| || k >= MAX_TX_ATTEMPTS :: !TakesEffect(ends, k) && CreatedOverall(db, e, ends, k) == 0
  {
  }

  lemma RolledOutNone(db: DB, e: Envelope)
    requires Usable(e)
    ensures RolledOut(db, e, 0) == db.(processed := db.processed + {e.id})
  {
    assert RolledOut(db, e, 0).rows == db.rows;
  }

  /** Deployment `id` rolled out on top of `now`. */
  ghost function WithOneMore(now: DB, db: DB, e: Envelope, id: D.DeploymentID): DB
    requires Usable(e)
  {
    if Hits(db, e, id)
    then now.(rows := now.rows[id := D.RollOut(id, db.rows[id], PinnedImage(e.payload.value)).row],
              outbox := now.outbox + EventsOf(db, e, id))
    else now
  }

  lemma RolledOutNext(db: DB, e: Envelope, n: nat)
    requires Usable(e) && Listed(db) && n < |db.order|
    ensures db.order[n] in db.rows && RolledOut(db, e, n).rows.Keys == db.rows.Keys
    ensures RolledOut(db, e, n).rows[db.order[n]] == db.rows[db.order[n]]
    ensures RolledOut(db, e, n + 1) == WithOneMore(RolledOut(db, e, n), db, e, db.order[n])
  {
    var id := db.order[n];
    assert id in db.order && id !in db.order[..n];
    UntouchedSoFar(db, e, n, id);
    EventsNext(db, e, n);
    RowsNextMap(db, e, n);
    var before, after, wanted := RolledOut(db, e, n), RolledOut(db, e, n + 1), WithOneMore(RolledOut(db, e, n), db, e, id);
    RolledOutFields(db, e, n);
    RolledOutFields(db, e, n + 1);
    WithOneMoreFields(before, db, e, id);
    hide *;
    assert db.outbox + (EventsFor(db, e, db.order[..n]) + EventsOf(db, e, id)) == db.outbox + EventsFor(db, e, db.order[..n]) + EventsOf(db, e, id);
    assert after == wanted;
  }

  lemma UntouchedSoFar(db: DB, e: Envelope, n: nat, id: D.DeploymentID)
    requires Usable(e) && n <= |db.order| && id in db.rows && id !in db.order[..n]
    ensures id in RolledOut(db, e, n).rows && RolledOut(db, e, n).rows[id] == db.rows[id]
    ensures RolledOut(db, e, n).rows.Keys == db.rows.Keys
  {
    hide Usable, D.RollOut, PinnedImage, Hits, EventsFor;
  }

  lemma RolledOutFields(db: DB, e: Envelope, n: nat)
    requires Usable(e) && n <= |db.order|
    ensures RolledOut(db, e, n).order == db.order && RolledOut(db, e, n).processed == db.processed + {e.id}
    ensures RolledOut(db, e, n).outbox == db.outbox + EventsFor(db, e, db.order[..n])
  {
    hide Usable, RowAfter, EventsFor;
  }

  lemma WithOneMoreFields(now: DB, db: DB, e: Envelope, id: D.DeploymentID)
    requires Usable(e)
    ensures var next := WithOneMore(now, db, e, id);
      next.order == now.order && next.processed == now.processed && next.outbox == now.outbox + EventsOf(db, e, id)
  {
    hide Usable, D.RollOut, PinnedImage, Matches;
    assert now.outbox + [] == now.outbox;
  }

  lemma RowsNextMap(db: DB, e: Envelope, n: nat)
    requires Usable(e) && n < |db.order| && db.order[n] in db.rows
    ensures RolledOut(db, e, n + 1).rows == WithOneMore(RolledOut(db, e, n), db, e, db.order[n]).rows
  {
    RowsNext(db, e, n);
    hide Usable, D.RollOut, PinnedImage, Hits, EventsOf, EventsFor, RowAfter;
  }

  lemma EventsNext(db: DB, e: Envelope, n: nat)
    requires Usable(e) && n < |db.order|
    ensures EventsFor(db, e, db.order[..n + 1]) == EventsFor(db, e, db.order[..n]) + EventsOf(db, e, db.order[n])
  {
    hide EventsOf;
    assert (db.order[..n + 1])[..n] == db.order[..n];
  }

  lemma RowsNext(db: DB, e: Envelope, n: nat)
    requires Usable(e) && n < |db.order|
    ensures forall x | x in db.rows ::
      RowAfter(db, e, db.order[..n + 1], x)
        == if x == db.order[n] && Hits(db, e, x) then D.RollOut(x, db.rows[x], PinnedImage(e.payload.value)).row
           else RowAfter(db, e, db.order[..n], x)
  {
    hide Usable, D.RollOut, PinnedImage, Hits;
    assert db.order[..n + 1] == db.order[..n] + [db.order[n]];
    assert forall x :: x in db.order[..n + 1] <==> x in db.order[..n] || x == db.order[n];
  }

  lemma HitsBelowNext(db: DB, e: Envelope, n: nat)
    requires Usable(e) && n < |db.order|
    ensures HitsBelow(db, e, n + 1) == HitsBelow(db, e, n) + if Hits(db, e, db.order[n]) then 1 else 0
  {
  }

  class Consumer {
    var rows: map<D.DeploymentID, D.Deployment>
    var order: seq<D.DeploymentID>
    var processed: set<EventID>
    var outbox: seq<D.Event>
    /** The releases-created counter. */
    var releasesCreated: nat

    ghost function Tables(): DB
      reads this
    {
      DB(rows, order, processed, outbox)
    }

    constructor ()
      ensures Tables() == Empty && releasesCreated == 0
    {
      rows, order, processed, outbox, releasesCreated := map[], [], {}, [], 0;
    }

    /** One deployment's share of the transaction. */
    method RollOutOne(id: D.DeploymentID, pinned: string)
      requires id in rows
      modifies this`rows, this`outbox
      ensures var change := D.RollOut(id, old(rows)[id], pinned);
        rows == old(rows)[id := change.row] && outbox == old(outbox) + change.events
    {
      var d := rows[id];
      var nextRevision := 1;
      if d.releases != map[] {
        var latest := D.HighestOf(d.releases.Keys);
        nextRevision := latest + 1;
      }
      d := D.WithRelease(d, nextRevision, D.Release(pinned, d.replicas, d.spec, D.RelPending));
      d := d.(image := pinned, status := D.StatusPending);
      rows := rows[id := d];
      outbox := outbox + [D.Created(id, nextRevision, pinned, d.replicas)];
    }

    /** The body of the transaction, up to where the attempt ends. */
    method Attempt(e: Envelope, end: TxEnd) returns (created: nat)
      requires Usable(e) && Listed(Tables()) && e.id !in processed
      modifies this`rows, this`outbox, this`processed
      ensures Tables() == RolledOut(old(Tables()), e, Reached(old(Tables()), end))
      ensures created == HitsBelow(old(Tables()), e, Reached(old(Tables()), end))
    {
      ghost var db := Tables();
      var repository, pinned := BuildRepository(e.payload.value), PinnedImage(e.payload.value);
      var n := if end.RolledBack? && end.reached < |order| then end.reached else |order|;
      RolledOutNone(db, e);
      processed := processed + {e.id};
      created := 0;
      for i := 0 to n
        invariant order == db.order && Tables() == RolledOut(db, e, i) && created == HitsBelow(db, e, i)
      {
        hide RolledOut, BuildRepository, PinnedImage, Usable, D.RollOut, Listed, HitsBelow;
        RolledOutNext(db, e, i);
        HitsBelowNext(db, e, i);
        var hit := TryRollOut(db, e, order[i], repository, pinned);
        if hit {
          created := created + 1;
        }
      }
    }

    /** One turn of the loop over the listed deployments. */
    method TryRollOut(ghost db: DB, e: Envelope, id: D.DeploymentID, repository: string, pinned: string) returns (hit: bool)
      requires Usable(e) && id in rows && id in db.rows && rows[id] == db.rows[id]
      requires repository == BuildRepository(e.payload.value) && pinned == PinnedImage(e.payload.value)
      modifies this`rows, this`outbox
      ensures hit == Hits(db, e, id)
      ensures Tables() == WithOneMore(old(Tables()), db, e, id)
    {
      hide BuildRepository, PinnedImage, Usable, D.RollOut;
      var d := rows[id];
      hit := d.org == e.org && d.status != D.StatusDeleted && Images.Repository(d.image) == repository;
      if hit {
        RollOutOne(id, pinned);
      }
    }

    /** One attempt with its end: a rollback leaves no trace in the tables. */
    method RunTx(e: Envelope, end: TxEnd) returns (created: nat, outcome: Outcome)
      requires Usable(e) && Listed(Tables())
      modifies this`rows, this`outbox, this`processed
      ensures Tables() == if end.RolledBack? then old(Tables()) else Guarded(old(Tables()), e)
      ensures outcome == if e.id in old(processed) then Deduplicated else Processed
      ensures created == if e.id in old(processed) then 0 else HitsBelow(old(Tables()), e, Reached(old(Tables()), end))
    {
      hide RolledOut, Listed, HitsBelow, Usable;
      if e.id in processed {
        return 0, Deduplicated;
      }
      var kept := (rows, processed, outbox);
      created := Attempt(e, end);
      outcome := Processed;
      if end.RolledBack? {
        rows, processed, outbox := kept.0, kept.1, kept.2;
      }
    }

    /** The retry loop around the transaction. */
    method Process(e: Envelope, ends: seq<TxEnd>) returns (ok: bool, outcome: Outcome, created: nat)
      requires Usable(e) && Listed(Tables())
      modifies this`rows, this`outbox, this`processed
      ensures Tables() == if TakesEffect(ends, 0) then Guarded(old(Tables()), e) else old(Tables())
      ensures created == CreatedOverall(old(Tables()), e, ends, 0)
      ensures ok ==> outcome == if e.id in old(processed) then Deduplicated else Processed
      ensures ok <==> Heard(ends)
    {
      ghost var db := Tables();
      var attempt: nat := 0;
      created, outcome := 0, Processed;
      NoAttemptLeft(db, e, ends);
      assert AllRetried(ends, 0);
      hide *;
      while attempt < MAX_TX_ATTEMPTS && attempt < |ends|
        invariant Tables() == db
        invariant created + CreatedOverall(db, e, ends, attempt) == CreatedOverall(db, e, ends, 0)
        invariant AllRetried(ends, attempt) && attempt <= |ends|
        decreases |ends| - attempt
      {
        ReachedAttempt(ends, attempt);
        OneAttempt(db, e, ends, attempt);
        var end := ends[attempt];
        var more;
        more, outcome := RunTx(e, end);
        created := created + more;
        if !end.RolledBack? {
          return end.Committed?, outcome, created;
        }
        if !end.retryable {
          return false, outcome, created;
        }
        attempt := attempt + 1;
      }
      NeverHeard(ends, attempt);
      ok := false;
    }

    /** One delivery: the whole effect, or none. The counter takes the releases of every attempt, rolled
        back ones too, once the delivery is acknowledged. */
    method Handle(e: Envelope, ends: seq<TxEnd>) returns (acked: bool, outcome: Outcome)
      requires Listed(Tables())
      modifies this
      ensures Tables() == Step(old(Tables()), Deliver(e, ends))
      ensures releasesCreated == old(releasesCreated) + if acked && Usable(e) then CreatedOverall(old(Tables()), e, ends, 0) else 0
      ensures Usable(e) ==> (acked <==> Heard(ends))
      ensures acked && Usable(e) ==> outcome == if e.id in old(processed) then Deduplicated else Processed
      ensures !Usable(e) ==> acked && outcome == if e.kind != BUILD_SUCCEEDED then Ignored else Invalid
    {
      hide Listed, CreatedOverall, Guarded, TakesEffect;
      if e.kind != BUILD_SUCCEEDED {
        return true, Ignored;
      }
      if e.org == "" || e.payload.None? || e.payload.value.digest == "" || e.payload.value.image == "" {
        return true, Invalid;
      }
      var created: nat;
      acked, outcome, created := Process(e, ends);
      if acked {
        releasesCreated := releasesCreated + created;
      }
    }
  }

  // ------------------------------------------------------------------------------------------
  // The counter
  // ------------------------------------------------------------------------------------------

  /** The attempts that were rolled back before the one that took effect, each before its first hit. */
  ghost predicate CleanRetries(db: DB, e: Envelope, ends: seq<TxEnd>)
    requires Usable(e)
  {
    forall k: nat | Preceding(ends, k) :: HitsBelow(db, e, Reached(db, ends[k])) == 0
  }

  /** Was attempt `k` made, rolled back, and followed by another? */
  predicate Preceding(ends: seq<TxEnd>, k: nat) {
    k < |ends| && k < MAX_TX_ATTEMPTS && forall i | 0 <= i <= k :: ends[i].RolledBack? && ends[i].retryable
  }

  /** The releases counted for a delivery that took effect are those it created exactly if no earlier
      attempt got as far as creating one; otherwise they are more. */
  lemma CounterIsExact(db: DB, e: Envelope, ends: seq<TxEnd>)
    requires Usable(e) && e.id !in db.processed && TakesEffect(ends, 0)
    ensures CreatedOverall(db, e, ends, 0) >= HitsBelow(db, e, |db.order|)
    ensures CreatedOverall(db, e, ends, 0) == HitsBelow(db, e, |db.order|) <==> CleanRetries(db, e, ends)
  {
    CounterFrom(db, e, ends, 0);
  }

  lemma {:induction false} CounterFrom(db: DB, e: Envelope, ends: seq<TxEnd>, k: nat)
    requires Usable(e) && e.id !in db.processed && TakesEffect(ends, k) && k <= MAX_TX_ATTEMPTS
    requires forall i | 0 <= i < k :: i < |ends| && ends[i].RolledBack? && ends[i].retryable
    ensures CreatedOverall(db, e, ends, k) >= HitsBelow(db, e, |db.order|)
    ensures CreatedOverall(db, e, ends, k) == HitsBelow(db, e, |db.order|)
      <==> forall j: nat | j >= k && Preceding(ends, j) :: HitsBelow(db, e, Reached(db, ends[j])) == 0
    decreases |ends| - k
  {
    hide HitsBelow, Usable;
    if ends[k].RolledBack? {
      CounterFrom(db, e, ends, k + 1);
      assert Preceding(ends, k);
      assert forall j: nat | j >= k && Preceding(ends, j) :: j == k || j >= k + 1;
    } else {
      assert forall j: nat | j >= k :: !Preceding(ends, j);
    }
  }
}
