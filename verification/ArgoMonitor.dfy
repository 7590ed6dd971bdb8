/** The GitOps monitor: mirroring Argo CD's status into one record per deployment, the events it emits on
    changes, and the health gauge it keeps beside them. */
module ArgoMonitor {
  type ID = string

  /** What Argo CD reports for an application. */
  datatype Observation = Observation(sync: string, health: string, operation: string, revision: string)

  /** `observed` is false until the first reconcile; the columns then hold their defaults. */
  datatype Record = Record(observed: bool, last: Observation, drift: bool)

  const Unobserved := Record(false, Observation("Unknown", "Unknown", "", ""), false)

  datatype Event =
    | SyncStarted(id: ID)
    | SyncCompleted(id: ID)
    | SyncFailed(id: ID)
    | HealthChanged(id: ID, from: string, to: string)
    | DriftDetected(id: ID)

  predicate Drifts(o: Observation) {
    o.sync == "OutOfSync" || o.health == "Degraded" || o.health == "Missing"
  }

  /** The gauge has one bucket for each known status and one for everything else. */
  function Label(health: string): string {
    if health in {"Healthy", "Progressing", "Degraded", "Suspended", "Missing"} then health else "Unknown"
  }

  type Gauge = map<string, int>

  function Get(g: Gauge, l: string): int { if l in g then g[l] else 0 }

  function Add(g: Gauge, l: string, n: int): Gauge { g[l := Get(g, l) + n] }

  function Shift(g: Gauge, from: string, to: string): Gauge {
    var g1 := if from != "" && from != to then Add(g, Label(from), -1) else g;
    if to != "" && from != to then Add(g1, Label(to), 1) else g1
  }

  // ------------------------------------------------------------------------------------------
  // One reconcile
  // ------------------------------------------------------------------------------------------

  function PreviousHealth(r: Record): string { if r.observed then r.last.health else "" }

  function PreviousOperation(r: Record): string { if r.observed then r.last.operation else "" }

  function SyncEvents(id: ID, before: string, now: string): seq<Event> {
    if now == before then []
    else if now == "Running" then [SyncStarted(id)]
    else if now == "Succeeded" then [SyncCompleted(id)]
    else if now == "Failed" || now == "Error" then [SyncFailed(id)]
    else []
  }

  function HealthEvents(id: ID, r: Record, o: Observation): seq<Event> {
    if o.health != PreviousHealth(r) then [HealthChanged(id, PreviousHealth(r), o.health)] else []
  }

  function DriftEvents(id: ID, r: Record, o: Observation): seq<Event> {
    if Drifts(o) && !r.drift then [DriftDetected(id)] else []
  }

  function Events(id: ID, r: Record, o: Observation): seq<Event> {
    SyncEvents(id, PreviousOperation(r), o.operation) + HealthEvents(id, r, o) + DriftEvents(id, r, o)
  }

  /** `log` is the committed outbox; `gauge` lives in the process, outside any transaction. */
  datatype State = State(records: map<ID, Record>, log: seq<Event>, gauge: Gauge)

  const Start := State(map[], [], map[])

  /** How a reconcile's transaction ended: committed, or rolled back before or after the gauge moved. */
  datatype End = Committed | RolledBack(moved: bool)

  datatype Op =
    | Register(id: ID)                                // a binding is created; an existing one keeps its status
    | Reconcile(id: ID, o: Observation, end: End)
    | Restart                                         // a new process starts with an empty gauge

  function Moved(s: State, id: ID, o: Observation): Gauge
    requires id in s.records
  {
    Shift(s.gauge, PreviousHealth(s.records[id]), o.health)
  }

  function Step(s: State, op: Op): State {
    match op
    case Register(id) => if id in s.records then s else s.(records := s.records[id := Unobserved])
    case Reconcile(id, o, end) =>
      if id !in s.records then s
      else if end.RolledBack? then if end.moved then s.(gauge := Moved(s, id, o)) else s
      else State(s.records[id := Record(true, o, Drifts(o))], s.log + Events(id, s.records[id], o), Moved(s, id, o))
    case Restart => s.(gauge := map[])
  }

  function Run(ops: seq<Op>): State
    decreases |ops|
  {
    if ops == [] then Start else Step(Run(ops[..|ops| - 1]), ops[|ops| - 1])
  }

  // ------------------------------------------------------------------------------------------
  // The health log
  // ------------------------------------------------------------------------------------------

  /** The health that replaying the events of a binding leads to, starting from none. */
  function Replay(log: seq<Event>, id: ID): string
    decreases |log|
  {
    if log == [] then ""
    else
      var e := log[|log| - 1];
      if e.HealthChanged? && e.id == id then e.to else Replay(log[..|log| - 1], id)
  }

  /** Every change starts where the previous one of the same binding ended, and is a change. */
  ghost predicate Chained(log: seq<Event>) {
    forall i | 0 <= i < |log| && log[i].HealthChanged? ::
      log[i].from == Replay(log[..i], log[i].id) && log[i].from != log[i].to
  }

  function StoredHealth(s: State, id: ID): string {
    if id in s.records then PreviousHealth(s.records[id]) else ""
  }

  ghost predicate LogOk(s: State) {
    Chained(s.log) && forall id :: Replay(s.log, id) == StoredHealth(s, id)
  }

  lemma ReplayAppend(log: seq<Event>, e: Event, id: ID)
    ensures Replay(log + [e], id) == if e.HealthChanged? && e.id == id then e.to else Replay(log, id)
  {
    assert (log + [e])[..|log|] == log;
  }

  lemma ChainAppend(log: seq<Event>, e: Event)
    requires Chained(log) && (e.HealthChanged? ==> e.from == Replay(log, e.id) && e.from != e.to)
    ensures Chained(log + [e])
  {
    var log' := log + [e];
    hide Replay;
    forall i | 0 <= i < |log'| && log'[i].HealthChanged?
      ensures log'[i].from == Replay(log'[..i], log'[i].id) && log'[i].from != log'[i].to
    {
      assert log'[..i] == log[..i];
      assert log[..|log|] == log;
    }
  }

  /** Events that leave the health log as it is. */
  lemma {:induction false} AppendQuiet(log: seq<Event>, more: seq<Event>)
    requires Chained(log) && forall i | 0 <= i < |more| :: !more[i].HealthChanged?
    ensures Chained(log + more) && forall id :: Replay(log + more, id) == Replay(log, id)
    decreases |more|
  {
    if more == [] {
      assert log + more == log;
    } else {
      var init, e := more[..|more| - 1], more[|more| - 1];
      AppendQuiet(log, init);
      assert log + more == (log + init) + [e];
      ChainAppend(log + init, e);
      forall id ensures Replay(log + more, id) == Replay(log, id) { ReplayAppend(log + init, e, id); }
    }
  }

  lemma AppendHealth(s: State, log: seq<Event>, id: ID, o: Observation)
    requires Chained(log) && (forall x :: Replay(log, x) == StoredHealth(s, x)) && id in s.records
    ensures var more := HealthEvents(id, s.records[id], o);
      && Chained(log + more)
      && forall x :: Replay(log + more, x) == if x == id then o.health else StoredHealth(s, x)
  {
    var more := HealthEvents(id, s.records[id], o);
    if more == [] {
      assert log + more == log;
    } else {
      assert Replay(log, id) == PreviousHealth(s.records[id]);
      ChainAppend(log, more[0]);
      forall x ensures Replay(log + more, x) == if x == id then o.health else StoredHealth(s, x) { ReplayAppend(log, more[0], x); }
    }
  }

  lemma StepLogOk(s: State, op: Op)
    requires LogOk(s)
    ensures LogOk(Step(s, op))
  {
    hide Replay, Chained;
    if op.Reconcile? && op.id in s.records && op.end.Committed? {
      var (id, o, r) := (op.id, op.o, s.records[op.id]);
      var sync := SyncEvents(id, PreviousOperation(r), o.operation);
      var log1 := s.log + sync;
      AppendQuiet(s.log, sync);
      AppendHealth(s, log1, id, o);
      var log2 := log1 + HealthEvents(id, r, o);
      AppendQuiet(log2, DriftEvents(id, r, o));
      assert Step(s, op).log == log2 + DriftEvents(id, r, o);
      hide SyncEvents, HealthEvents, DriftEvents;
    }
  }

  /** Over all committed reconciles, per binding: the health changes form a chain from the empty status,
      each a real change, and replaying them gives the stored health. */
  lemma {:induction false} HealthLogReplays(ops: seq<Op>)
    ensures var s := Run(ops);
      && Chained(s.log)
      && forall id :: Replay(s.log, id) == StoredHealth(s, id)
    decreases |ops|
  {
    hide Step, Replay;
    if ops == [] {
      NothingToReplay();
    } else {
      HealthLogReplays(ops[..|ops| - 1]);
      StepLogOk(Run(ops[..|ops| - 1]), ops[|ops| - 1]);
    }
  }

  lemma NothingToReplay()
    ensures LogOk(Start)
  {
  }

  // ------------------------------------------------------------------------------------------
  // Edges
  // ------------------------------------------------------------------------------------------

  /** The observations of a binding that were committed, in order. */
  function Seen(ops: seq<Op>, id: ID): seq<Observation>
    decreases |ops|
  {
    if ops == [] then []
    else
      var (init, op) := (ops[..|ops| - 1], ops[|ops| - 1]);
      Seen(init, id) + if op.Reconcile? && op.id == id && op.end.Committed? && id in Run(init).records then [op.o] else []
  }

  /** Not in sync with its source, degraded, or with resources missing. */
  predicate OutOfStep(o: Observation) { o.health in {"Degraded", "Missing"} || o.sync == "OutOfSync" }

  /** Observations that are out of step while the one before was not. */
  function RisingEdges(seen: seq<Observation>): nat
    decreases |seen|
  {
    if seen == [] then 0
    else
      var init := seen[..|seen| - 1];
      RisingEdges(init) + if OutOfStep(seen[|seen| - 1]) && !(init != [] && OutOfStep(init[|init| - 1])) then 1 else 0
  }

  /** Observations with operation phase `phase` where the one before had another. */
  function EntriesInto(seen: seq<Observation>, phase: string): nat
    decreases |seen|
  {
    if seen == [] then 0
    else
      var init := seen[..|seen| - 1];
      EntriesInto(init, phase)
        + if seen[|seen| - 1].operation == phase && !(init != [] && init[|init| - 1].operation == phase) then 1 else 0
  }

  function Occurrences(log: seq<Event>, e: Event): nat
    decreases |log|
  {
    if log == [] then 0 else Occurrences(log[..|log| - 1], e) + if log[|log| - 1] == e then 1 else 0
  }

  lemma {:induction false} OccurrencesConcat(a: seq<Event>, b: seq<Event>, e: Event)
    ensures Occurrences(a + b, e) == Occurrences(a, e) + Occurrences(b, e)
    decreases |b|
  {
    if b == [] {
      assert a + b == a;
    } else {
      assert (a + b)[..|a + b| - 1] == a + b[..|b| - 1];
      OccurrencesConcat(a, b[..|b| - 1], e);
    }
  }

  lemma SingleOccurrence(x: Event, e: Event)
    ensures Occurrences([x], e) == if x == e then 1 else 0
  {
    assert [x][..0] == [];
  }

  function FirstIs(s: seq<Event>, e: Event): nat { if s != [] && s[0] == e then 1 else 0 }

  lemma OccurrencesInEvents(id: ID, r: Record, o: Observation, e: Event)
    ensures Occurrences(Events(id, r, o), e)
         == FirstIs(SyncEvents(id, PreviousOperation(r), o.operation), e) + FirstIs(HealthEvents(id, r, o), e) + FirstIs(DriftEvents(id, r, o), e)
  {
    var (a, b, c) := (SyncEvents(id, PreviousOperation(r), o.operation), HealthEvents(id, r, o), DriftEvents(id, r, o));
    assert |a| <= 1 && |b| <= 1 && |c| <= 1;
    hide SyncEvents, HealthEvents, DriftEvents, Occurrences;
    OccurrencesConcat(a + b, c, e);
    OccurrencesConcat(a, b, e);
    AtMostOne(a, e);
    AtMostOne(b, e);
    AtMostOne(c, e);
  }

  lemma EventOccurrences(id: ID, r: Record, o: Observation, x: ID)
    ensures Occurrences(Events(id, r, o), DriftDetected(x)) == if x == id && Drifts(o) && !r.drift then 1 else 0
    ensures Occurrences(Events(id, r, o), SyncStarted(x))
         == if x == id && o.operation == "Running" && PreviousOperation(r) != "Running" then 1 else 0
    ensures Occurrences(Events(id, r, o), SyncCompleted(x))
         == if x == id && o.operation == "Succeeded" && PreviousOperation(r) != "Succeeded" then 1 else 0
    ensures Occurrences(Events(id, r, o), SyncFailed(x))
         == if x == id && o.operation in {"Failed", "Error"} && PreviousOperation(r) != o.operation then 1 else 0
  {
    OccurrencesInEvents(id, r, o, DriftDetected(x));
    OccurrencesInEvents(id, r, o, SyncStarted(x));
    OccurrencesInEvents(id, r, o, SyncCompleted(x));
    OccurrencesInEvents(id, r, o, SyncFailed(x));
    hide Events, Occurrences;
  }

  lemma AtMostOne(s: seq<Event>, e: Event)
    requires |s| <= 1
    ensures Occurrences(s, e) == FirstIs(s, e)
  {
    if s != [] { assert s == [s[0]]; SingleOccurrence(s[0], e); }
  }

  /** A record is the last committed observation of its binding, or untouched if there is none. */
  ghost predicate IsLast(s: State, id: ID, seen: seq<Observation>) {
    if seen == [] then id in s.records ==> s.records[id] == Unobserved
    else id in s.records && s.records[id] == Record(true, seen[|seen| - 1], OutOfStep(seen[|seen| - 1]))
  }

  function SeenAfter(s: State, op: Op, id: ID, seen: seq<Observation>): seq<Observation> {
    seen + if op.Reconcile? && op.id == id && op.end.Committed? && id in s.records then [op.o] else []
  }

  ghost predicate EdgesOk(log: seq<Event>, id: ID, seen: seq<Observation>) {
    && Occurrences(log, DriftDetected(id)) == RisingEdges(seen)
    && Occurrences(log, SyncStarted(id)) == EntriesInto(seen, "Running")
    && Occurrences(log, SyncCompleted(id)) == EntriesInto(seen, "Succeeded")
    && Occurrences(log, SyncFailed(id)) == EntriesInto(seen, "Failed") + EntriesInto(seen, "Error")
  }

  /** Does record `r` say what the last of `seen` said? */
  ghost predicate Remembers(r: Record, seen: seq<Observation>) {
    && r.drift == (seen != [] && OutOfStep(seen[|seen| - 1]))
    && PreviousOperation(r) == if seen == [] then "" else seen[|seen| - 1].operation
  }

  lemma LastIsRemembered(s: State, id: ID, seen: seq<Observation>)
    requires IsLast(s, id, seen) && id in s.records
    ensures Remembers(s.records[id], seen)
  {
    hide OutOfStep;
  }

  lemma CommittedEdges(log: seq<Event>, id: ID, r: Record, o: Observation, seen: seq<Observation>)
    requires EdgesOk(log, id, seen) && Remembers(r, seen)
    ensures EdgesOk(log + Events(id, r, o), id, seen + [o])
  {
    EventOccurrences(id, r, o, id);
    DriftIsOutOfStep(o);
    RisingGrows(seen, o);
    EntriesGrow(seen, o, "Running");
    EntriesGrow(seen, o, "Succeeded");
    EntriesGrow(seen, o, "Failed");
    EntriesGrow(seen, o, "Error");
    OccurrencesConcat(log, Events(id, r, o), DriftDetected(id));
    OccurrencesConcat(log, Events(id, r, o), SyncStarted(id));
    OccurrencesConcat(log, Events(id, r, o), SyncCompleted(id));
    OccurrencesConcat(log, Events(id, r, o), SyncFailed(id));
    hide Events, Occurrences, RisingEdges, EntriesInto, Drifts, OutOfStep;
  }

  lemma OthersEdges(log: seq<Event>, id: ID, other: ID, r: Record, o: Observation, seen: seq<Observation>)
    requires EdgesOk(log, id, seen) && other != id
    ensures EdgesOk(log + Events(other, r, o), id, seen)
  {
    EventOccurrences(other, r, o, id);
    OccurrencesConcat(log, Events(other, r, o), DriftDetected(id));
    OccurrencesConcat(log, Events(other, r, o), SyncStarted(id));
    OccurrencesConcat(log, Events(other, r, o), SyncCompleted(id));
    OccurrencesConcat(log, Events(other, r, o), SyncFailed(id));
    hide Events, Occurrences, RisingEdges, EntriesInto, Drifts, OutOfStep;
  }

  lemma StepEdges(s: State, op: Op, id: ID, seen: seq<Observation>)
    requires IsLast(s, id, seen) && EdgesOk(s.log, id, seen)
    ensures IsLast(Step(s, op), id, SeenAfter(s, op, id, seen)) && EdgesOk(Step(s, op).log, id, SeenAfter(s, op, id, seen))
  {
    if op.Reconcile? { DriftIsOutOfStep(op.o); }
    hide Events, Moved, EdgesOk, Drifts, OutOfStep, Remembers;
    assert seen + [] == seen;
    if op.Reconcile? && op.end.Committed? && op.id in s.records {
      if op.id == id {
        LastIsRemembered(s, id, seen);
        CommittedEdges(s.log, id, s.records[id], op.o, seen);
      } else {
        OthersEdges(s.log, id, op.id, s.records[op.id], op.o, seen);
      }
    }
  }

  lemma DriftIsOutOfStep(o: Observation)
    ensures Drifts(o) <==> OutOfStep(o)
  {
  }

  lemma RisingGrows(seen: seq<Observation>, o: Observation)
    ensures RisingEdges(seen + [o]) == RisingEdges(seen) + if OutOfStep(o) && !(seen != [] && OutOfStep(seen[|seen| - 1])) then 1 else 0
  {
    assert (seen + [o])[..|seen|] == seen;
  }

  lemma EntriesGrow(seen: seq<Observation>, o: Observation, phase: string)
    ensures EntriesInto(seen + [o], phase)
         == EntriesInto(seen, phase) + if o.operation == phase && !(seen != [] && seen[|seen| - 1].operation == phase) then 1 else 0
  {
    assert (seen + [o])[..|seen|] == seen;
  }

  /** Drift is announced once per rising edge of drift, and synchronisations once per entry into the
      running, succeeded and two failing phases, counted over the committed observations of the binding; its record is
      the last of them. */
  lemma {:induction false} EdgesAreAnnouncedOnce(ops: seq<Op>, id: ID)
    ensures var (s, seen) := (Run(ops), Seen(ops, id)); IsLast(s, id, seen) && EdgesOk(s.log, id, seen)
    decreases |ops|
  {
    hide Step, EdgesOk, IsLast;
    if ops == [] {
      NoEdges(id);
    } else {
      var (init, op) := (ops[..|ops| - 1], ops[|ops| - 1]);
      EdgesAreAnnouncedOnce(init, id);
      StepEdges(Run(init), op, id, Seen(init, id));
    }
  }

  lemma NoEdges(id: ID)
    ensures IsLast(Start, id, []) && EdgesOk([], id, [])
  {
  }

  // ------------------------------------------------------------------------------------------
  // The gauge
  // ------------------------------------------------------------------------------------------

  /** Is the binding observed, with a non-empty health in bucket `l`? */
  predicate InBucket(r: Record, l: string) { r.observed && r.last.health != "" && BelongsTo(r.last.health, l) }

  /** A known health belongs to the bucket of its name, any other to the unknown ones. */
  predicate BelongsTo(health: string, l: string) {
    if health == "Healthy" || health == "Progressing" || health == "Degraded" || health == "Suspended" || health == "Missing"
    then l == health else l == "Unknown"
  }

  lemma LabelBelongs(health: string, l: string)
    ensures Label(health) == l <==> BelongsTo(health, l)
  {
  }

  function Bucket(records: map<ID, Record>, l: string): set<ID> {
    set id | id in records && InBucket(records[id], l)
  }

  /** What moving from `from` to `to` adds to bucket `l`. */
  function Delta(from: string, to: string, l: string): int {
    (if to != "" && Label(to) == l then 1 else 0) - if from != "" && Label(from) == l then 1 else 0
  }

  lemma ShiftAddsDelta(g: Gauge, from: string, to: string, l: string)
    ensures Get(Shift(g, from, to), l) == Get(g, l) + Delta(from, to, l)
  {
    hide Label;
  }

  lemma BucketMoves(records: map<ID, Record>, id: ID, r: Record, l: string)
    requires id in records
    ensures |Bucket(records[id := r], l)| - |Bucket(records, l)| == Delta(PreviousHealth(records[id]), PreviousHealth(r), l)
  {
    InBucketDelta(records[id], r, l);
    hide InBucket, Delta, PreviousHealth;
    var rest := Bucket(records, l) - {id};
    assert Bucket(records, l) == if InBucket(records[id], l) then rest + {id} else rest;
    assert Bucket(records[id := r], l) == if InBucket(r, l) then rest + {id} else rest;
  }

  lemma InBucketDelta(before: Record, after: Record, l: string)
    ensures Delta(PreviousHealth(before), PreviousHealth(after), l)
         == (if InBucket(after, l) then 1 else 0) - if InBucket(before, l) then 1 else 0
  {
    LabelBelongs(PreviousHealth(before), l);
    LabelBelongs(PreviousHealth(after), l);
    hide Label, BelongsTo;
  }

  lemma BucketKeeps(records: map<ID, Record>, id: ID, l: string)
    requires id !in records
    ensures Bucket(records[id := Unobserved], l) == Bucket(records, l)
  {
  }

  /** What rolled-back reconciles since the last restart left in bucket `l`. */
  function Leaked(ops: seq<Op>, l: string): int
    decreases |ops|
  {
    if ops == [] then 0
    else
      var (init, op) := (ops[..|ops| - 1], ops[|ops| - 1]);
      match op
      case Restart => 0
      case Register(_) => Leaked(init, l)
      case Reconcile(id, o, end) =>
        Leaked(init, l)
          + if end == RolledBack(true) && id in Run(init).records then Delta(PreviousHealth(Run(init).records[id]), o.health, l) else 0
  }

  /** The bucket's population when the process started. */
  function AtProcessStart(ops: seq<Op>, l: string): nat
    decreases |ops|
  {
    if ops == [] then 0
    else if ops[|ops| - 1].Restart? then |Bucket(Run(ops).records, l)|
    else AtProcessStart(ops[..|ops| - 1], l)
  }

  /** The gauge of every status is the number of bindings with that status, less those the process found
      when it started, plus what rolled-back reconciles left behind. */
  lemma {:induction false} GaugeIsAccounted(ops: seq<Op>, l: string)
    ensures Get(Run(ops).gauge, l) == |Bucket(Run(ops).records, l)| - AtProcessStart(ops, l) + Leaked(ops, l)
    decreases |ops|
  {
    hide Bucket, Delta, Label, Shift, Events, Drifts;
    if ops == [] {
      assert Bucket(map[], l) == {} by { EmptyBucket(l); }
    } else {
      var (init, op) := (ops[..|ops| - 1], ops[|ops| - 1]);
      var s := Run(init);
      GaugeIsAccounted(init, l);
      match op
      case Restart =>
      case Register(id) => if id !in s.records { BucketKeeps(s.records, id, l); }
      case Reconcile(id, o, end) =>
        if id in s.records {
          ShiftAddsDelta(s.gauge, PreviousHealth(s.records[id]), o.health, l);
          BucketMoves(s.records, id, Record(true, o, Drifts(o)), l);
        }
    }
  }

  lemma EmptyBucket(l: string)
    ensures Bucket(map[], l) == {}
  {
  }

  /** Within the first process, the gauge is the number of bindings in every bucket exactly if what was
      rolled back cancels out there; in particular if nothing was rolled back after it moved the gauge. */
  lemma GaugeIsExact(ops: seq<Op>, l: string)
    requires forall i | 0 <= i < |ops| :: !ops[i].Restart?
    ensures Get(Run(ops).gauge, l) == |Bucket(Run(ops).records, l)| <==> Leaked(ops, l) == 0
    ensures (forall i | 0 <= i < |ops| :: ops[i].Reconcile? ==> ops[i].end != RolledBack(true)) ==> Leaked(ops, l) == 0
  {
    GaugeIsAccounted(ops, l);
    OneProcess(ops, l);
  }

  lemma {:induction false} OneProcess(ops: seq<Op>, l: string)
    requires forall i | 0 <= i < |ops| :: !ops[i].Restart?
    ensures AtProcessStart(ops, l) == 0
    ensures (forall i | 0 <= i < |ops| :: ops[i].Reconcile? ==> ops[i].end != RolledBack(true)) ==> Leaked(ops, l) == 0
    decreases |ops|
  {
    hide Run, Delta;
    if ops != [] {
      assert forall i | 0 <= i < |ops| - 1 :: ops[..|ops| - 1][i] == ops[i];
      OneProcess(ops[..|ops| - 1], l);
    }
  }

  /** A reconcile that is rolled back after moving the gauge and then retried counts its binding twice. */
  lemma RetryCountsTwice()
    ensures var ops := [Register("d"), Reconcile("d", Observation("Synced", "Healthy", "", ""), RolledBack(true)),
                        Reconcile("d", Observation("Synced", "Healthy", "", ""), Committed)];
      Get(Run(ops).gauge, "Healthy") == 2 && Bucket(Run(ops).records, "Healthy") == {"d"}
  {
    var o := Observation("Synced", "Healthy", "", "");
    var first, second, third := Register("d"), Reconcile("d", o, RolledBack(true)), Reconcile("d", o, Committed);
    assert [first, second, third] == (([] + [first]) + [second]) + [third];
    RunAppend([], first);
    RunAppend([] + [first], second);
    RunAppend(([] + [first]) + [second], third);
    var s1 := Step(Start, first);
    var s2 := Step(s1, second);
    assert s1.records == map["d" := Unobserved] && Get(s2.gauge, "Healthy") == 1;
    hide Run;
    assert Get(Step(s2, third).gauge, "Healthy") == 2;
    assert Step(s2, third).records == map["d" := Record(true, o, false)];
  }

  lemma RunAppend(ops: seq<Op>, op: Op)
    ensures Run(ops + [op]) == Step(Run(ops), op)
  {
    assert (ops + [op])[..|ops|] == ops;
  }

  // ------------------------------------------------------------------------------------------
  // The monitor, statement by statement
  // ------------------------------------------------------------------------------------------

  class Monitor {
    var records: map<ID, Record>
    var outbox: seq<Event>
    var gauge: Gauge

    ghost function Now(): State
      reads this
    {
      State(records, outbox, gauge)
    }

    constructor ()
      ensures Now() == Start
    {
      records, outbox, gauge := map[], [], map[];
    }

    method RecordHealthGauge(from: string, to: string)
      modifies this`gauge
      ensures gauge == Shift(old(gauge), from, to)
    {
      if from != "" && from != to {
        gauge := Add(gauge, Label(from), -1);
      }
      if to != "" && from != to {
        gauge := Add(gauge, Label(to), 1);
      }
    }

    method EmitSync(id: ID, before: string, now: string)
      modifies this`outbox
      ensures outbox == old(outbox) + SyncEvents(id, before, now)
    {
      if now != before {
        if now == "Running" {
          outbox := outbox + [SyncStarted(id)];
        } else if now == "Succeeded" {
          outbox := outbox + [SyncCompleted(id)];
        } else if now == "Failed" || now == "Error" {
          outbox := outbox + [SyncFailed(id)];
        }
      }
    }

    method EmitHealth(id: ID, previous: Record, o: Observation)
      modifies this`outbox, this`gauge
      ensures outbox == old(outbox) + HealthEvents(id, previous, o)
      ensures gauge == Shift(old(gauge), PreviousHealth(previous), o.health)
    {
      hide Shift;
      var before := if previous.observed then previous.last.health else "";
      if o.health != before {
        RecordHealthGauge(before, o.health);
        outbox := outbox + [HealthChanged(id, before, o.health)];
      } else {
        NoShift(gauge, before);
      }
    }

    method EmitDrift(id: ID, previous: Record, o: Observation)
      modifies this`outbox
      ensures outbox == old(outbox) + DriftEvents(id, previous, o)
    {
      hide Drifts;
      if Drifts(o) && !previous.drift {
        outbox := outbox + [DriftDetected(id)];
      }
    }

    method EmitTransitions(id: ID, previous: Record, o: Observation)
      modifies this`outbox, this`gauge
      ensures outbox == old(outbox) + Events(id, previous, o)
      ensures gauge == Shift(old(gauge), PreviousHealth(previous), o.health)
    {
      hide Shift, SyncEvents, HealthEvents, DriftEvents;
      EmitSync(id, if previous.observed then previous.last.operation else "", o.operation);
      EmitHealth(id, previous, o);
      EmitDrift(id, previous, o);
    }

    /** One application in one transaction; a rollback undoes the rows, not the gauge. */
    method ReconcileOne(id: ID, o: Observation, end: End)
      modifies this
      ensures Now() == Step(old(Now()), Reconcile(id, o, end))
    {
      if id !in records || end == RolledBack(false) {
        return;
      }
      hide Events, Shift, Drifts;
      var kept := (records, outbox);
      var previous := records[id];
      records := records[id := Record(true, o, Drifts(o))];
      EmitTransitions(id, previous, o);
      if end.RolledBack? {
        records, outbox := kept.0, kept.1;
      }
    }
  }

  lemma NoShift(g: Gauge, health: string)
    ensures Shift(g, health, health) == g
  {
  }
}
