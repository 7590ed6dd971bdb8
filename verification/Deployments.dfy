/** Deployments, their numbered releases and rollout snapshots: user changes, agent reports and the
    automatic rollback. Releases are named by (deployment, revision). */
module Deployments {
  import opened Prelude

  type DeploymentID = string
  type Revision = nat

  datatype ReleaseStatus = RelPending | Deploying | RelSucceeded | RelFailed

  /** `spec` stands for the rest of the configuration: resources, port and environment. */
  datatype Release = Release(image: string, replicas: int, spec: string, status: ReleaseStatus)

  datatype Phase = Pending | Scheduling | Reconciling | RollingOut | Healthy | Failed | Rollback

  datatype Rollout = Rollout(phase: Phase, isRollback: bool)

  datatype Status = StatusPending | StatusRunning | StatusSucceeded | StatusFailed | StatusDeleted

  datatype Deployment = Deployment(
    org: string,
    image: string,
    replicas: int,
    spec: string,
    status: Status,
    releases: map<Revision, Release>,
    rollouts: map<Revision, Rollout>)

  datatype Event =
    | Created(id: DeploymentID, revision: Revision, image: string, replicas: int)
    | Progress(id: DeploymentID, revision: Revision, phase: Phase)
    | HealthyNow(id: DeploymentID, revision: Revision)
    | TimedOut(id: DeploymentID, revision: Revision)
    | RollbackStarted(id: DeploymentID, from: Revision, release: Revision, target: Revision)
    | RollbackCompleted(id: DeploymentID, revision: Revision)
    | RolledBack(id: DeploymentID, from: Revision, target: Revision)
    | StatusChanged(id: DeploymentID, revision: Revision, status: ReleaseStatus)
    | Deleted(id: DeploymentID)

  /** What one transaction did to a deployment: its new rows and the events it enqueued. */
  datatype Change = Change(row: Deployment, events: seq<Event>)

  // ------------------------------------------------------------------------------------------
  // Release numbers
  // ------------------------------------------------------------------------------------------

  ghost predicate IsMax(s: set<nat>, m: nat) { m in s && forall x | x in s :: x <= m }

  lemma {:induction false} MaxExists(s: set<nat>) returns (m: nat)
    requires s != {}
    ensures IsMax(s, m)
  {
    var x :| x in s;
    if s == {x} {
      m := x;
    } else {
      var rest := MaxExists(s - {x});
      m := if x < rest then rest else x;
      assert forall y | y in s :: y == x || y in s - {x};
    }
  }

  ghost function Max(s: set<nat>): (m: nat)
    requires s != {}
    ensures IsMax(s, m)
  {
    assert exists m: nat :: IsMax(s, m) by { var m := MaxExists(s); }
    var m: nat :| IsMax(s, m);
    m
  }

  lemma MaxIs(s: set<nat>, m: nat)
    requires IsMax(s, m)
    ensures Max(s) == m
  {
  }

  /** The highest revision, 0 if there is no release. */
  ghost function Latest(d: Deployment): Revision {
    if d.releases == map[] then 0 else Max(d.releases.Keys)
  }

  function SuccessfulBefore(releases: map<Revision, Release>, before: Revision): set<Revision> {
    set r | r in releases && r < before && releases[r].status == RelSucceeded
  }

  ghost function PreviousSuccessful(d: Deployment, before: Revision): Option<Revision> {
    var earlier := SuccessfulBefore(d.releases, before);
    if earlier == {} then None else Some(Max(earlier))
  }

  function WithRelease(d: Deployment, r: Revision, release: Release): Deployment {
    d.(releases := d.releases[r := release])
  }

  /** The rollback marker is never cleared. */
  function Upsert(d: Deployment, r: Revision, phase: Phase, isRollback: bool): Deployment {
    var was := r in d.rollouts && d.rollouts[r].isRollback;
    d.(rollouts := d.rollouts[r := Rollout(phase, was || isRollback)])
  }

  // ------------------------------------------------------------------------------------------
  // User changes
  // ------------------------------------------------------------------------------------------

  predicate Valid(image: string, replicas: int) { image != "" && replicas >= 1 }

  function NewDeployment(id: DeploymentID, org: string, image: string, replicas: int, spec: string): Change {
    Change(Deployment(org, image, replicas, spec, StatusPending, map[1 := Release(image, replicas, spec, RelPending)], map[]),
           [Created(id, 1, image, replicas)])
  }

  ghost function Update(id: DeploymentID, d: Deployment, image: Option<string>, replicas: Option<int>, spec: Option<string>): Change {
    if d.status == StatusDeleted || (replicas.Some? && replicas.value < 1) then Change(d, [])
    else
      var (i, n, s) := (if image.Some? then image.value else d.image,
                        if replicas.Some? then replicas.value else d.replicas,
                        if spec.Some? then spec.value else d.spec);
      var r := Latest(d) + 1;
      Change(WithRelease(d.(image := i, replicas := n, spec := s), r, Release(i, n, s, RelPending)), [Created(id, r, i, n)])
  }

  /** A user's rollback: the target's configuration becomes a new release; the row takes its image and
      replica count only. */
  ghost function UserRollback(id: DeploymentID, d: Deployment, wanted: Option<Revision>): Change {
    if d.status == StatusDeleted || d.releases == map[] then Change(d, [])
    else
      var target := if wanted.Some? then (if wanted.value in d.releases then wanted else None)
                    else PreviousSuccessful(d, Latest(d));
      if target.None? then Change(d, [])
      else
        var goal := d.releases[target.value];
        Change(WithRelease(d.(image := goal.image, replicas := goal.replicas), Latest(d) + 1, goal.(status := RelPending)),
               [RolledBack(id, Latest(d), target.value)])
  }

  function Delete(id: DeploymentID, d: Deployment): Change {
    if d.status == StatusDeleted then Change(d, []) else Change(d.(status := StatusDeleted), [Deleted(id)])
  }

  /** One build rolled out to one deployment. */
  ghost function RollOut(id: DeploymentID, d: Deployment, pinned: string): Change {
    var r := Latest(d) + 1;
    Change(WithRelease(d.(image := pinned, status := StatusPending), r, Release(pinned, d.replicas, d.spec, RelPending)),
           [Created(id, r, pinned, d.replicas)])
  }

  // ------------------------------------------------------------------------------------------
  // Agent reports
  // ------------------------------------------------------------------------------------------

  function ReportStatus(id: DeploymentID, d: Deployment, r: Revision, status: ReleaseStatus): Change {
    if d.status == StatusDeleted || r !in d.releases || status == RelPending then Change(d, [])
    else
      Change(d.(releases := d.releases[r := d.releases[r].(status := status)],
                status := match status
                          case Deploying => StatusRunning
                          case RelSucceeded => StatusSucceeded
                          case _ => StatusFailed),
             [StatusChanged(id, r, status)])
  }

  /** A progress report as it arrives. `raced`: another transaction changed the deployment's version
      after this one read it. `survives`: the store lets a transaction go on after a refused insert. */
  datatype Report = Report(phase: Phase, timeout: bool, autoRollback: bool, raced: bool, survives: bool)

  datatype RollbackOutcome =
    | NoTarget
    | Taken                       // the next revision exists already
    | LostRace(row: Deployment)   // the release was created, the deployment row was not updated
    | Started(change: Change)

  /** The release after the failed one repeats the last successful release before it. The store's update
      does not write the status. */
  ghost function AutoRollback(id: DeploymentID, d: Deployment, failed: Revision, raced: bool): RollbackOutcome {
    var target := PreviousSuccessful(d, failed);
    if target.None? then NoTarget
    else if failed + 1 in d.releases then Taken
    else
      var goal := d.releases[target.value];
      var created := WithRelease(d, failed + 1, goal.(status := RelPending));
      if raced then LostRace(created)
      else
        Started(Change(Upsert(created.(image := goal.image, replicas := goal.replicas), failed + 1, Pending, true),
                       [RollbackStarted(id, failed, failed + 1, target.value)]))
  }

  /** The report's effect once the snapshot is stored: terminal events on a change of phase, and the
      rollback of a forward release that failed. `None`: the transaction is aborted. */
  ghost function Transition(id: DeploymentID, d: Deployment, r: Revision, report: Report, prev: Option<Rollout>): Option<Change> {
    var wasRollback := prev.Some? && prev.value.isRollback;
    if prev.Some? && prev.value.phase == report.phase then Some(Change(d, []))
    else if report.phase == Healthy then
      Some(Change(d, [HealthyNow(id, r)] + if wasRollback then [RollbackCompleted(id, r)] else []))
    else if report.phase == Failed then
      var timeout := if report.timeout then [TimedOut(id, r)] else [];
      if !report.autoRollback || wasRollback then Some(Change(d, timeout))
      else
        match AutoRollback(id, d, r, report.raced)
        case NoTarget => Some(Change(d, timeout))
        case Taken => if report.survives then Some(Change(d, timeout)) else None
        case LostRace(row) => Some(Change(row, timeout))
        case Started(change) => Some(Change(change.row, timeout + change.events))
    else Some(Change(d, []))
  }

  ghost function ReportProgress(id: DeploymentID, d: Deployment, r: Revision, report: Report): Change {
    if d.status == StatusDeleted || r !in d.releases then Change(d, [])
    else
      var prev := if r in d.rollouts then Some(d.rollouts[r]) else None;
      var result := Transition(id, Upsert(d, r, report.phase, false), r, report, prev);
      if result.None? then Change(d, [])
      else Change(result.value.row, [Progress(id, r, report.phase)] + result.value.events)
  }

  // ------------------------------------------------------------------------------------------
  // Numbering
  // ------------------------------------------------------------------------------------------

  /** Revisions are exactly 1..n, and every snapshot belongs to a release. */
  ghost predicate Numbered(d: Deployment) {
    && d.releases != map[]
    && (forall r: nat :: r in d.releases <==> 1 <= r <= Latest(d))
    && (forall r | r in d.rollouts :: r in d.releases)
  }

  /** The row runs what its highest-numbered release says. */
  ghost predicate RunsLatest(d: Deployment) {
    && Latest(d) in d.releases
    && d.image == d.releases[Latest(d)].image && d.replicas == d.releases[Latest(d)].replicas
  }

  lemma NextIsLatest(d: Deployment, r: Revision, release: Release)
    requires Numbered(d) && r == Latest(d) + 1
    ensures Latest(WithRelease(d, r, release)) == r && Numbered(WithRelease(d, r, release))
  {
    hide Max;
    var d' := WithRelease(d, r, release);
    assert d'.releases.Keys == d.releases.Keys + {r};
    MaxIs(d'.releases.Keys, r);
  }

  lemma SameKeysSameLatest(d: Deployment, d': Deployment)
    requires d'.releases.Keys == d.releases.Keys
    ensures Latest(d') == Latest(d)
  {
    if d.releases == map[] {
      assert d'.releases.Keys == {};
    }
  }

  // ------------------------------------------------------------------------------------------
  // Histories of one deployment
  // ------------------------------------------------------------------------------------------

  datatype Op =
    | DoUpdate(image: Option<string>, replicas: Option<int>, spec: Option<string>)
    | DoUserRollback(wanted: Option<Revision>)
    | DoDelete
    | DoRollOut(pinned: string)
    | DoStatus(revision: Revision, status: ReleaseStatus)
    | DoProgress(revision: Revision, report: Report)

  ghost function Apply(id: DeploymentID, d: Deployment, op: Op): Change {
    match op
    case DoUpdate(image, replicas, spec) => Update(id, d, image, replicas, spec)
    case DoUserRollback(wanted) => UserRollback(id, d, wanted)
    case DoDelete => Delete(id, d)
    case DoRollOut(pinned) => if d.status == StatusDeleted then Change(d, []) else RollOut(id, d, pinned)
    case DoStatus(r, status) => ReportStatus(id, d, r, status)
    case DoProgress(r, report) => ReportProgress(id, d, r, report)
  }

  /** A deployment created valid and then changed by `ops`: its rows and all its events. */
  ghost function History(id: DeploymentID, first: Change, ops: seq<Op>): Change
    decreases |ops|
  {
    if ops == [] then first
    else
      var before := History(id, first, ops[..|ops| - 1]);
      var last := Apply(id, before.row, ops[|ops| - 1]);
      Change(last.row, before.events + last.events)
  }

  /** Releases are never removed and only their status changes. */
  ghost predicate Extends(d: Deployment, d': Deployment) {
    forall r | r in d.releases :: r in d'.releases && d'.releases[r] == d.releases[r].(status := d'.releases[r].status)
  }

  predicate Raced(op: Op) { op.DoProgress? && op.report.raced }

  ghost predicate StepFits(d: Deployment, d': Deployment, raced: bool) {
    && Numbered(d') && Extends(d, d')
    && (RunsLatest(d) && !raced ==> RunsLatest(d'))
  }

  /** Adding release `latest + 1` and running it. */
  lemma AddingFits(d: Deployment, d': Deployment, release: Release)
    requires Numbered(d) && d'.releases == d.releases[Latest(d) + 1 := release]
    requires forall r | r in d'.rollouts :: r in d'.releases
    requires d'.image == release.image && d'.replicas == release.replicas
    ensures StepFits(d, d', false) && Latest(d') == Latest(d) + 1
  {
    var r := Latest(d) + 1;
    NextIsLatest(d, r, release);
    SameKeysSameLatest(WithRelease(d, r, release), d');
    hide Latest;
  }

  lemma SameReleasesFit(d: Deployment, d': Deployment)
    requires Numbered(d) && d'.releases.Keys == d.releases.Keys && Extends(d, d')
    requires d'.image == d.image && d'.replicas == d.replicas && forall r | r in d'.rollouts :: r in d'.releases
    ensures StepFits(d, d', false)
  {
    SameKeysSameLatest(d, d');
    hide Latest;
    assert d'.releases != map[] by { assert Latest(d) in d.releases || d.releases.Keys != {}; }
  }

  lemma PreviousExists(d: Deployment, before: Revision)
    ensures var t := PreviousSuccessful(d, before);
      t.Some? ==> t.value in d.releases && t.value < before && d.releases[t.value].status == RelSucceeded
    ensures var t := PreviousSuccessful(d, before);
      forall r | r in d.releases && r < before && d.releases[r].status == RelSucceeded :: t.Some? && r <= t.value
  {
    forall r | r in d.releases && r < before && d.releases[r].status == RelSucceeded
      ensures r in SuccessfulBefore(d.releases, before)
    {
    }
  }

  lemma AutoRollbackFits(id: DeploymentID, d: Deployment, failed: Revision, raced: bool)
    requires Numbered(d) && failed in d.releases
    ensures match AutoRollback(id, d, failed, raced)
      case NoTarget => true
      case Taken => failed < Latest(d)
      case LostRace(row) => raced && failed == Latest(d) && StepFits(d, row, true)
      case Started(change) => !raced && failed == Latest(d) && StepFits(d, change.row, false)
  {
    hide Latest;
    PreviousExists(d, failed);
    var outcome := AutoRollback(id, d, failed, raced);
    if outcome.Started? || outcome.LostRace? {
      assert failed == Latest(d);
      var t := PreviousSuccessful(d, failed).value;
      var release := d.releases[t].(status := RelPending);
      NextIsLatest(d, failed + 1, release);
      hide PreviousSuccessful;
      if outcome.Started? {
        AddingFits(d, outcome.change.row, release);
      }
    }
  }

  lemma UpsertFits(d: Deployment, r: Revision, phase: Phase)
    requires Numbered(d) && r in d.releases
    ensures Numbered(Upsert(d, r, phase, false)) && Extends(d, Upsert(d, r, phase, false)) && Latest(Upsert(d, r, phase, false)) == Latest(d)
  {
    SameKeysSameLatest(d, Upsert(d, r, phase, false));
    hide Latest;
  }

  lemma ProgressFits(id: DeploymentID, d: Deployment, r: Revision, report: Report)
    requires Numbered(d)
    ensures StepFits(d, ReportProgress(id, d, r, report).row, report.raced)
  {
    hide Latest, AutoRollback;
    if d.status != StatusDeleted && r in d.releases {
      var u := Upsert(d, r, report.phase, false);
      UpsertFits(d, r, report.phase);
      AutoRollbackFits(id, u, r, report.raced);
      hide Upsert;
      assert StepFits(d, u, false) by { SameReleasesFit(d, u) by { UpsertRow(d, r, report.phase); } }
    } else {
      SameReleasesFit(d, d);
    }
  }

  lemma UpsertRow(d: Deployment, r: Revision, phase: Phase)
    requires Numbered(d) && r in d.releases
    ensures var u := Upsert(d, r, phase, false);
      u.releases == d.releases && u.image == d.image && u.replicas == d.replicas && forall q | q in u.rollouts :: q in u.releases
  {
  }

  lemma ApplyFits(id: DeploymentID, d: Deployment, op: Op)
    requires Numbered(d)
    ensures StepFits(d, Apply(id, d, op).row, Raced(op))
  {
    hide Latest, ReportProgress;
    var d' := Apply(id, d, op).row;
    match op
    case DoProgress(r, report) => ProgressFits(id, d, r, report);
    case DoStatus(r, status) => SameReleasesFit(d, d');
    case DoDelete => SameReleasesFit(d, d');
    case DoUserRollback(wanted) =>
      PreviousExists(d, Latest(d));
      hide PreviousSuccessful;
      if d' != d { AddingFits(d, d', d'.releases[Latest(d) + 1]); } else { SameReleasesFit(d, d); }
    case _ =>
      if d' != d { AddingFits(d, d', d'.releases[Latest(d) + 1]); } else { SameReleasesFit(d, d); }
  }

  lemma NewFits(id: DeploymentID, org: string, image: string, replicas: int, spec: string)
    ensures var d := NewDeployment(id, org, image, replicas, spec).row; Numbered(d) && RunsLatest(d)
  {
    MaxIs({1}, 1);
    assert NewDeployment(id, org, image, replicas, spec).row.releases.Keys == {1};
  }

  // ------------------------------------------------------------------------------------------
  // What the event log says
  // ------------------------------------------------------------------------------------------

  /** The rollback release repeats an earlier release and carries the marker. */
  ghost predicate StartOk(d: Deployment, e: Event)
    requires e.RollbackStarted?
  {
    && e.release == e.from + 1 && e.target < e.from
    && e.from in d.releases && e.release in d.releases && e.target in d.releases
    && d.releases[e.release] == d.releases[e.target].(status := d.releases[e.release].status)
    && e.release in d.rollouts && d.rollouts[e.release].isRollback
  }

  predicate Starts(e: Event, r: Revision) { e.RollbackStarted? && e.release == r }

  ghost predicate StartsOk(d: Deployment, log: seq<Event>) {
    forall i | 0 <= i < |log| && log[i].RollbackStarted? :: StartOk(d, log[i])
  }

  ghost predicate MarkersAreStarts(d: Deployment, log: seq<Event>) {
    forall r | r in d.rollouts && d.rollouts[r].isRollback :: exists i | 0 <= i < |log| :: Starts(log[i], r)
  }

  /** No release is rolled back twice, and no rollback release is ever rolled back. */
  ghost predicate StartsAreApart(log: seq<Event>) {
    forall i, j | 0 <= i < j < |log| && log[i].RollbackStarted? && log[j].RollbackStarted? ::
      log[i].from != log[j].from && log[i].release != log[j].from && log[j].release != log[i].from
  }

  ghost predicate CompletionsFollow(log: seq<Event>) {
    forall j | 0 <= j < |log| && log[j].RollbackCompleted? :: exists i | 0 <= i < j :: Starts(log[i], log[j].revision)
  }

  /** The last phase reported for release `r`. */
  function LastPhase(log: seq<Event>, r: Revision): Option<Phase>
    decreases |log|
  {
    if log == [] then None
    else
      var e := log[|log| - 1];
      if e.Progress? && e.revision == r then Some(e.phase) else LastPhase(log[..|log| - 1], r)
  }

  /** Reports of release `r` that are healthy while the one before was not. */
  function Entries(log: seq<Event>, r: Revision): nat
    decreases |log|
  {
    if log == [] then 0
    else
      var (init, e) := (log[..|log| - 1], log[|log| - 1]);
      Entries(init, r) + if e.Progress? && e.revision == r && e.phase == Healthy && LastPhase(init, r) != Some(Healthy) then 1 else 0
  }

  function HealthyEvents(log: seq<Event>, r: Revision): nat
    decreases |log|
  {
    if log == [] then 0
    else HealthyEvents(log[..|log| - 1], r) + if log[|log| - 1] == HealthyNow(log[|log| - 1].id, r) then 1 else 0
  }

  /** The stored snapshot is the last reported one; before any report it is absent or pending. */
  ghost predicate PhasesOk(d: Deployment, log: seq<Event>) {
    forall r ::
      var last := LastPhase(log, r);
      if last.Some? then r in d.rollouts && d.rollouts[r].phase == last.value
      else r in d.rollouts ==> d.rollouts[r].phase == Pending
  }

  ghost predicate HealthCounted(log: seq<Event>) {
    forall r :: HealthyEvents(log, r) == Entries(log, r)
  }

  ghost predicate LogOk(d: Deployment, log: seq<Event>) {
    && StartsOk(d, log) && MarkersAreStarts(d, log) && StartsAreApart(log) && CompletionsFollow(log)
    && PhasesOk(d, log) && HealthCounted(log)
  }

  /** An event that says nothing about phases or automatic rollbacks. */
  predicate Plain(e: Event) { !e.Progress? && !e.HealthyNow? && !e.RollbackStarted? && !e.RollbackCompleted? }

  lemma Appended(log: seq<Event>, e: Event, r: Revision)
    ensures LastPhase(log + [e], r) == if e.Progress? && e.revision == r then Some(e.phase) else LastPhase(log, r)
    ensures HealthyEvents(log + [e], r) == HealthyEvents(log, r) + if e.HealthyNow? && e.revision == r then 1 else 0
    ensures Entries(log + [e], r) == Entries(log, r) +
      if e.Progress? && e.revision == r && e.phase == Healthy && LastPhase(log, r) != Some(Healthy) then 1 else 0
  {
    assert (log + [e])[..|log|] == log;
  }

  lemma StartsFound(log: seq<Event>, e: Event, r: Revision)
    requires exists i | 0 <= i < |log| :: Starts(log[i], r)
    ensures exists i | 0 <= i < |log + [e]| :: Starts((log + [e])[i], r)
  {
    var i :| 0 <= i < |log| && Starts(log[i], r);
    assert Starts((log + [e])[i], r);
  }

  lemma AppendKeepsMarkers(d: Deployment, log: seq<Event>, e: Event)
    requires MarkersAreStarts(d, log)
    ensures MarkersAreStarts(d, log + [e])
  {
    forall r | r in d.rollouts && d.rollouts[r].isRollback ensures exists i | 0 <= i < |log + [e]| :: Starts((log + [e])[i], r) {
      StartsFound(log, e, r);
    }
  }

  lemma AppendKeepsCompletions(log: seq<Event>, e: Event)
    requires CompletionsFollow(log)
    requires e.RollbackCompleted? ==> exists i | 0 <= i < |log| :: Starts(log[i], e.revision)
    ensures CompletionsFollow(log + [e])
  {
    var log' := log + [e];
    forall j | 0 <= j < |log'| && log'[j].RollbackCompleted?
      ensures exists i | 0 <= i < j :: Starts(log'[i], log'[j].revision)
    {
      if j < |log| {
        var i :| 0 <= i < j && Starts(log[i], log[j].revision);
        assert Starts(log'[i], log'[j].revision);
      } else {
        var i :| 0 <= i < |log| && Starts(log[i], e.revision);
        assert Starts(log'[i], log'[j].revision);
      }
    }
  }

  lemma AppendPlain(d: Deployment, log: seq<Event>, e: Event)
    requires LogOk(d, log) && Plain(e)
    ensures LogOk(d, log + [e])
  {
    AppendKeepsMarkers(d, log, e);
    AppendKeepsCompletions(log, e);
    forall r { Appended(log, e, r); }
    hide MarkersAreStarts, CompletionsFollow, StartOk, LastPhase, Entries, HealthyEvents;
  }

  lemma AppendCompleted(d: Deployment, log: seq<Event>, id: DeploymentID, r: Revision)
    requires LogOk(d, log) && r in d.rollouts && d.rollouts[r].isRollback
    ensures LogOk(d, log + [RollbackCompleted(id, r)])
  {
    var e := RollbackCompleted(id, r);
    assert exists i | 0 <= i < |log| :: Starts(log[i], r);
    hide MarkersAreStarts, CompletionsFollow, StartOk, LastPhase, Entries, HealthyEvents;
    AppendKeepsMarkers(d, log, e);
    AppendKeepsCompletions(log, e);
    forall r { Appended(log, e, r); }
  }

  predicate BecomesHealthy(d: Deployment, r: Revision, phase: Phase) {
    phase == Healthy && !(r in d.rollouts && d.rollouts[r].phase == Healthy)
  }

  lemma ProgressCounts(id: DeploymentID, d: Deployment, log: seq<Event>, r: Revision, phase: Phase)
    requires PhasesOk(d, log) && HealthCounted(log)
    ensures var log1 := log + [Progress(id, r, phase)];
      && PhasesOk(Upsert(d, r, phase, false), log1)
      && (BecomesHealthy(d, r, phase) ==> PhasesOk(Upsert(d, r, phase, false), log1 + [HealthyNow(id, r)]) && HealthCounted(log1 + [HealthyNow(id, r)]))
      && (!BecomesHealthy(d, r, phase) ==> HealthCounted(log1))
  {
    var e := Progress(id, r, phase);
    var h := HealthyNow(id, r);
    forall q
      ensures LastPhase(log + [e], q) == if q == r then Some(phase) else LastPhase(log, q)
      ensures LastPhase(log + [e] + [h], q) == LastPhase(log + [e], q)
      ensures HealthyEvents(log + [e], q) == HealthyEvents(log, q)
      ensures HealthyEvents(log + [e] + [h], q) == HealthyEvents(log, q) + if q == r then 1 else 0
      ensures Entries(log + [e], q) == Entries(log, q) + if q == r && phase == Healthy && LastPhase(log, r) != Some(Healthy) then 1 else 0
      ensures Entries(log + [e] + [h], q) == Entries(log + [e], q)
    {
      Appended(log, e, q);
      Appended(log + [e], h, q);
      hide LastPhase, Entries, HealthyEvents;
    }
    hide LastPhase, Entries, HealthyEvents;
    assert BecomesHealthy(d, r, phase) <==> phase == Healthy && LastPhase(log, r) != Some(Healthy);
  }

  /** A report of release `r`, with the healthy event it gives rise to. */
  lemma AppendProgress(id: DeploymentID, d: Deployment, log: seq<Event>, r: Revision, phase: Phase)
    requires LogOk(d, log)
    ensures LogOk(Upsert(d, r, phase, false),
                  log + [Progress(id, r, phase)] + if BecomesHealthy(d, r, phase) then [HealthyNow(id, r)] else [])
  {
    var d' := Upsert(d, r, phase, false);
    var (e, h) := (Progress(id, r, phase), HealthyNow(id, r));
    var log1 := log + [e];
    UpsertKeepsMarkers(d, log, r, phase);
    UpsertKeepsStarts(d, log, r, phase);
    ProgressCounts(id, d, log, r, phase);
    hide LastPhase, Entries, HealthyEvents, Upsert, BecomesHealthy, MarkersAreStarts, CompletionsFollow, StartOk, PhasesOk, HealthCounted;
    AppendKeepsMarkers(d', log, e);
    AppendKeepsCompletions(log, e);
    if BecomesHealthy(d, r, phase) {
      AppendKeepsMarkers(d', log1, h);
      AppendKeepsCompletions(log1, h);
    } else {
      assert log1 + [] == log1;
    }
  }

  lemma UpsertKeepsMarkers(d: Deployment, log: seq<Event>, r: Revision, phase: Phase)
    requires MarkersAreStarts(d, log)
    ensures MarkersAreStarts(Upsert(d, r, phase, false), log)
  {
  }

  lemma UpsertKeepsStarts(d: Deployment, log: seq<Event>, r: Revision, phase: Phase)
    requires StartsOk(d, log)
    ensures StartsOk(Upsert(d, r, phase, false), log)
  {
  }

  /** Rows change, nothing is logged. */
  lemma RowChangeOk(d: Deployment, d': Deployment, log: seq<Event>)
    requires LogOk(d, log) && Extends(d, d') && d'.rollouts == d.rollouts
    ensures LogOk(d', log)
  {
    hide LastPhase, Entries, HealthyEvents, CompletionsFollow, StartsAreApart, HealthCounted;
  }

  /** Starting a rollback: the new release exists and is marked only from now on. */
  lemma AppendStarted(d: Deployment, d': Deployment, log: seq<Event>, e: Event)
    requires LogOk(d, log) && e.RollbackStarted? && Extends(d, d')
    requires e.from in d.releases && e.release == e.from + 1 && e.release !in d.releases && StartOk(d', e)
    requires !(e.from in d.rollouts && d.rollouts[e.from].isRollback)
    requires forall r | r in d.rollouts :: r in d.releases
    requires d'.rollouts == d.rollouts[e.release := Rollout(Pending, true)]
    ensures LogOk(d', log + [e])
  {
    var log' := log + [e];
    forall r { Appended(log, e, r); }
    assert CompletionsFollow(log') by { AppendKeepsCompletions(log, e); }
    assert MarkersAreStarts(d', log') by {
      forall r | r in d'.rollouts && d'.rollouts[r].isRollback ensures exists i | 0 <= i < |log'| :: Starts(log'[i], r) {
        if r == e.release { assert Starts(log'[|log|], r); } else { StartsFound(log, e, r); }
      }
    }
    assert StartsAreApart(log') by { StartIsApart(d, log, e); }
    assert StartsOk(d', log') by { StartsStay(d, d', log); }
    assert PhasesOk(d', log') by {
      hide LastPhase;
      assert LastPhase(log, e.release).None?;
    }
    hide LastPhase, Entries, HealthyEvents;
  }

  lemma StartsStay(d: Deployment, d': Deployment, log: seq<Event>)
    requires StartsOk(d, log) && Extends(d, d')
    requires forall r | r in d.rollouts :: r in d'.rollouts && (d.rollouts[r].isRollback ==> d'.rollouts[r].isRollback)
    ensures StartsOk(d', log)
  {
  }

  lemma StartIsApart(d: Deployment, log: seq<Event>, e: Event)
    requires StartsOk(d, log) && StartsAreApart(log) && e.RollbackStarted?
    requires e.release == e.from + 1 && e.release !in d.releases && !(e.from in d.rollouts && d.rollouts[e.from].isRollback)
    ensures StartsAreApart(log + [e])
  {
    forall i | 0 <= i < |log| && log[i].RollbackStarted?
      ensures log[i].from != e.from && log[i].release != e.from && e.release != log[i].from
    {
      assert StartOk(d, log[i]);
    }
  }

  lemma HealthyTransition(id: DeploymentID, d: Deployment, r: Revision, report: Report, prev: Option<Rollout>)
    requires report.phase == Healthy
    ensures Transition(id, d, r, report, prev) == Some(Change(d,
      if prev.Some? && prev.value.phase == Healthy then []
      else [HealthyNow(id, r)] + if prev.Some? && prev.value.isRollback then [RollbackCompleted(id, r)] else []))
  {
  }

  lemma ProgressUnfold(id: DeploymentID, d: Deployment, r: Revision, report: Report)
    ensures var prev := if r in d.rollouts then Some(d.rollouts[r]) else None;
      var change := Transition(id, Upsert(d, r, report.phase, false), r, report, prev);
      ReportProgress(id, d, r, report)
        == if d.status == StatusDeleted || r !in d.releases || change.None? then Change(d, [])
           else Change(change.value.row, [Progress(id, r, report.phase)] + change.value.events)
  {
    hide Transition, Upsert;
  }

  lemma UpsertedRollout(d: Deployment, r: Revision, phase: Phase)
    ensures var u := Upsert(d, r, phase, false);
      r in u.rollouts && u.rollouts[r] == Rollout(phase, r in d.rollouts && d.rollouts[r].isRollback) && u.releases == d.releases
  {
  }

  lemma OnlyHealthyBecomes(d: Deployment, r: Revision, phase: Phase)
    ensures BecomesHealthy(d, r, phase) ==> phase == Healthy
  {
  }

  lemma ProgressTransition(id: DeploymentID, d: Deployment, log: seq<Event>, r: Revision, report: Report)
    requires Numbered(d) && LogOk(d, log) && r in d.releases
    ensures var c := ReportProgress(id, d, r, report); LogOk(c.row, log + c.events)
  {
    var u := Upsert(d, r, report.phase, false);
    var prev := if r in d.rollouts then Some(d.rollouts[r]) else None;
    var log1 := log + [Progress(id, r, report.phase)] + if BecomesHealthy(d, r, report.phase) then [HealthyNow(id, r)] else [];
    AppendProgress(id, d, log, r, report.phase);
    UpsertFits(d, r, report.phase);
    UpsertedRollout(d, r, report.phase);
    ProgressUnfold(id, d, r, report);
    var change := Transition(id, u, r, report, prev);
    assert log + [] == log;
    hide LogOk, Upsert, Latest, Transition, ReportProgress, Numbered, BecomesHealthy;
    assert report.phase != Healthy ==> log1 == log + [Progress(id, r, report.phase)] by { OnlyHealthyBecomes(d, r, report.phase); }
    if d.status != StatusDeleted && change.Some? {
      if report.phase == Healthy {
        HealthyTransition(id, u, r, report, prev);
        HealthyLogOk(id, d, u, log, log1, r, prev);
      } else {
        OtherLogOk(id, u, log, r, report, prev);
      }
    }
  }

  lemma OtherLogOk(id: DeploymentID, u: Deployment, log: seq<Event>, r: Revision, report: Report, prev: Option<Rollout>)
    requires Numbered(u) && LogOk(u, log + [Progress(id, r, report.phase)]) && r in u.releases && report.phase != Healthy
    requires r in u.rollouts && u.rollouts[r].isRollback == (prev.Some? && prev.value.isRollback)
    ensures var change := Transition(id, u, r, report, prev);
      change.Some? ==> LogOk(change.value.row, log + ([Progress(id, r, report.phase)] + change.value.events))
  {
    hide LogOk, Transition, Numbered;
    var p := [Progress(id, r, report.phase)];
    FailureTransition(id, u, log + p, r, report, prev);
    var change := Transition(id, u, r, report, prev);
    if change.Some? {
      assert log + (p + change.value.events) == log + p + change.value.events;
    }
  }

  lemma HealthyLogOk(id: DeploymentID, d: Deployment, u: Deployment, log: seq<Event>, log1: seq<Event>, r: Revision, prev: Option<Rollout>)
    requires LogOk(u, log1) && prev == (if r in d.rollouts then Some(d.rollouts[r]) else None)
    requires r in u.rollouts && u.rollouts[r] == Rollout(Healthy, r in d.rollouts && d.rollouts[r].isRollback)
    requires log1 == log + [Progress(id, r, Healthy)] + if BecomesHealthy(d, r, Healthy) then [HealthyNow(id, r)] else []
    ensures var more := if prev.Some? && prev.value.phase == Healthy then []
                        else [HealthyNow(id, r)] + if prev.Some? && prev.value.isRollback then [RollbackCompleted(id, r)] else [];
      LogOk(u, log + ([Progress(id, r, Healthy)] + more))
  {
    hide LogOk;
    var p := [Progress(id, r, Healthy)];
    if !BecomesHealthy(d, r, Healthy) {
      assert log + (p + []) == log1;
    } else if prev.Some? && prev.value.isRollback {
      AppendCompleted(u, log1, id, r);
      assert log + (p + ([HealthyNow(id, r)] + [RollbackCompleted(id, r)])) == log1 + [RollbackCompleted(id, r)];
    } else {
      assert log + (p + ([HealthyNow(id, r)] + [])) == log1;
    }
  }

  /** What follows a report that is not healthy. */
  lemma FailureTransition(id: DeploymentID, d: Deployment, log: seq<Event>, r: Revision, report: Report, prev: Option<Rollout>)
    requires Numbered(d) && LogOk(d, log) && r in d.releases && report.phase != Healthy
    requires r in d.rollouts && d.rollouts[r].isRollback == (prev.Some? && prev.value.isRollback)
    ensures var change := Transition(id, d, r, report, prev);
      change.Some? ==> LogOk(change.value.row, log + change.value.events)
  {
    hide LogOk, Latest, AutoRollback, PreviousSuccessful;
    var change := Transition(id, d, r, report, prev);
    assert log + [] == log;
    if change.Some? && change.value != Change(d, []) {
      var timeout := if report.timeout then [TimedOut(id, r)] else [];
      var log1 := log + timeout;
      if report.timeout { AppendPlain(d, log, TimedOut(id, r)); }
      if report.autoRollback && !d.rollouts[r].isRollback {
        RollbackLogOk(id, d, log1, r, report.raced);
        var outcome := AutoRollback(id, d, r, report.raced);
        if outcome.Started? { assert log + change.value.events == log1 + outcome.change.events; }
      }
    }
  }

  lemma RollbackLogOk(id: DeploymentID, d: Deployment, log: seq<Event>, failed: Revision, raced: bool)
    requires Numbered(d) && LogOk(d, log) && failed in d.releases && !(failed in d.rollouts && d.rollouts[failed].isRollback)
    ensures match AutoRollback(id, d, failed, raced)
      case LostRace(row) => LogOk(row, log)
      case Started(change) => LogOk(change.row, log + change.events)
      case _ => true
  {
    hide LogOk, Latest;
    PreviousExists(d, failed);
    AutoRollbackFits(id, d, failed, raced);
    hide PreviousSuccessful;
    match AutoRollback(id, d, failed, raced)
    case LostRace(row) => RowChangeOk(d, row, log);
    case Started(change) =>
      assert failed + 1 !in d.rollouts;
      AppendStarted(d, change.row, log, change.events[0]);
    case _ =>
  }

  lemma ApplyLogOk(id: DeploymentID, d: Deployment, log: seq<Event>, op: Op)
    requires Numbered(d) && LogOk(d, log)
    ensures var c := Apply(id, d, op); LogOk(c.row, log + c.events)
  {
    hide LogOk, Latest, PreviousSuccessful;
    var c := Apply(id, d, op);
    assert log + [] == log;
    if op.DoProgress? {
      hide Apply;
      ReportUnfold(id, d, op);
      if op.revision in d.releases { ProgressTransition(id, d, log, op.revision, op.report); }
    } else {
      ApplyFits(id, d, op);
      hide Numbered, RunsLatest;
      if c != Change(d, []) {
        RowChangeOk(d, c.row, log);
        assert |c.events| == 1;
        AppendPlain(c.row, log, c.events[0]);
        assert c.events == [c.events[0]];
      }
    }
  }

  lemma ReportUnfold(id: DeploymentID, d: Deployment, op: Op)
    requires op.DoProgress?
    ensures Apply(id, d, op) == ReportProgress(id, d, op.revision, op.report)
    ensures op.revision !in d.releases ==> Apply(id, d, op) == Change(d, [])
  {
  }

  // ------------------------------------------------------------------------------------------
  // Whole histories
  // ------------------------------------------------------------------------------------------

  lemma NewLogOk(id: DeploymentID, org: string, image: string, replicas: int, spec: string)
    ensures var c := NewDeployment(id, org, image, replicas, spec); LogOk(c.row, c.events)
  {
    var c := NewDeployment(id, org, image, replicas, spec);
    assert LogOk(c.row, []);
    AppendPlain(c.row, [], c.events[0]);
    assert c.events == [] + [c.events[0]];
  }

  ghost predicate NoRace(ops: seq<Op>) {
    forall i | 0 <= i < |ops| :: !Raced(ops[i])
  }

  lemma {:induction false} HistoryOk(id: DeploymentID, first: Change, ops: seq<Op>)
    requires Numbered(first.row) && RunsLatest(first.row) && LogOk(first.row, first.events)
    ensures var h := History(id, first, ops);
      Numbered(h.row) && LogOk(h.row, h.events) && (NoRace(ops) ==> RunsLatest(h.row))
    decreases |ops|
  {
    hide Numbered, RunsLatest, LogOk, Apply;
    if ops != [] {
      var init := ops[..|ops| - 1];
      HistoryOk(id, first, init);
      var h := History(id, first, init);
      ApplyFits(id, h.row, ops[|ops| - 1]);
      ApplyLogOk(id, h.row, h.events, ops[|ops| - 1]);
      if NoRace(ops) {
        assert forall i | 0 <= i < |init| :: init[i] == ops[i];
      }
    }
  }

  lemma NewHistoryOk(id: DeploymentID, org: string, image: string, replicas: int, spec: string, ops: seq<Op>)
    ensures var h := History(id, NewDeployment(id, org, image, replicas, spec), ops);
      Numbered(h.row) && LogOk(h.row, h.events) && (NoRace(ops) ==> RunsLatest(h.row))
  {
    hide LogOk, Numbered, RunsLatest;
    NewFits(id, org, image, replicas, spec);
    NewLogOk(id, org, image, replicas, spec);
    HistoryOk(id, NewDeployment(id, org, image, replicas, spec), ops);
  }

  /** Whatever users, builds and agents do, in any order and for any releases: revisions are 1..n without
      gaps or repeats. Unless a report lost a race, the row runs its highest revision. */
  lemma RevisionsHaveNoGaps(id: DeploymentID, org: string, image: string, replicas: int, spec: string, ops: seq<Op>)
    ensures var d := History(id, NewDeployment(id, org, image, replicas, spec), ops).row;
      && (forall r: nat :: r in d.releases <==> 1 <= r <= |d.releases|)
      && (NoRace(ops) ==> |d.releases| in d.releases && d.image == d.releases[|d.releases|].image
                          && d.replicas == d.releases[|d.releases|].replicas)
  {
    NewHistoryOk(id, org, image, replicas, spec, ops);
    hide History, NewDeployment, LogOk;
    var d := History(id, NewDeployment(id, org, image, replicas, spec), ops).row;
    KeysUpTo(d.releases.Keys, Latest(d));
  }

  lemma {:induction false} KeysUpTo(s: set<nat>, n: nat)
    requires forall r: nat :: r in s <==> 1 <= r <= n
    ensures |s| == n
  {
    if n == 0 {
      assert s == {};
    } else {
      KeysUpTo(s - {n}, n - 1);
    }
  }

  /** Every automatic rollback starts from a release that exists, goes to the next revision, and repeats
      an earlier release; no release is rolled back twice; a release that a rollback created is never
      itself rolled back. */
  lemma RollbacksStartOnce(id: DeploymentID, org: string, image: string, replicas: int, spec: string, ops: seq<Op>, i: nat, j: nat)
    requires var log := History(id, NewDeployment(id, org, image, replicas, spec), ops).events;
      i < |log| && j < |log| && log[i].RollbackStarted? && log[j].RollbackStarted?
    ensures var h := History(id, NewDeployment(id, org, image, replicas, spec), ops); var (a, b) := (h.events[i], h.events[j]);
      && a.release == a.from + 1 && a.target < a.from && a.release in h.row.releases && a.target in h.row.releases
      && h.row.releases[a.release].image == h.row.releases[a.target].image
      && h.row.releases[a.release].replicas == h.row.releases[a.target].replicas
      && a.release != b.from
      && (i != j ==> a.from != b.from)
  {
    NewHistoryOk(id, org, image, replicas, spec, ops);
    hide History, NewDeployment, MarkersAreStarts, CompletionsFollow, PhasesOk, HealthCounted, Numbered, RunsLatest;
    var h := History(id, NewDeployment(id, org, image, replicas, spec), ops);
    assert StartOk(h.row, h.events[i]) && StartOk(h.row, h.events[j]);
  }

  /** A completed rollback was started earlier, by an event naming the release that completed. */
  lemma CompletionsWereStarted(id: DeploymentID, org: string, image: string, replicas: int, spec: string, ops: seq<Op>, j: nat)
    returns (i: nat)
    requires var log := History(id, NewDeployment(id, org, image, replicas, spec), ops).events;
      j < |log| && log[j].RollbackCompleted?
    ensures var log := History(id, NewDeployment(id, org, image, replicas, spec), ops).events;
      i < j && log[i].RollbackStarted? && log[i].release == log[j].revision
  {
    NewHistoryOk(id, org, image, replicas, spec, ops);
    hide History, NewDeployment, MarkersAreStarts, StartsOk, PhasesOk, HealthCounted, Numbered, RunsLatest;
    var log := History(id, NewDeployment(id, org, image, replicas, spec), ops).events;
    i :| 0 <= i < j && Starts(log[i], log[j].revision);
  }

  /** Healthy events of a release are its entries into the healthy phase, one for one. */
  lemma HealthyEventsAreEntries(id: DeploymentID, org: string, image: string, replicas: int, spec: string, ops: seq<Op>, r: Revision)
    ensures var log := History(id, NewDeployment(id, org, image, replicas, spec), ops).events;
      HealthyEvents(log, r) == Entries(log, r)
  {
    NewHistoryOk(id, org, image, replicas, spec, ops);
    hide History, NewDeployment, MarkersAreStarts, StartsOk, PhasesOk, Numbered, RunsLatest;
  }

  /** Once created, a release keeps its number, image, replica count and configuration for good. */
  lemma {:induction false} ReleasesAreImmutable(id: DeploymentID, first: Change, ops: seq<Op>)
    requires Numbered(first.row)
    ensures Numbered(History(id, first, ops).row) && Extends(first.row, History(id, first, ops).row)
    decreases |ops|
  {
    hide Numbered, RunsLatest, Apply;
    if ops != [] {
      var init := ops[..|ops| - 1];
      ReleasesAreImmutable(id, first, init);
      ApplyFits(id, History(id, first, init).row, ops[|ops| - 1]);
    }
  }

  // ------------------------------------------------------------------------------------------
  // What each change amounts to, row and events
  // ------------------------------------------------------------------------------------------

  lemma LatestIsSize(d: Deployment)
    requires Numbered(d)
    ensures Latest(d) == |d.releases| && |d.releases| in d.releases && |d.releases| + 1 !in d.releases
  {
    KeysUpTo(d.releases.Keys, Latest(d));
    hide Latest;
    assert d.releases != map[];
  }

  /** Release `t` is the last successful one below release `r`. */
  ghost predicate LastGoodBelow(d: Deployment, r: Revision, t: Revision) {
    && t in d.releases && t < r && d.releases[t].status == RelSucceeded
    && forall q | q in d.releases && q < r && d.releases[q].status == RelSucceeded :: q <= t
  }

  ghost predicate HasGoodBelow(d: Deployment, r: Revision) {
    exists t :: LastGoodBelow(d, r, t)
  }

  lemma LastGoodIsUnique(d: Deployment, r: Revision, t: Revision)
    requires LastGoodBelow(d, r, t)
    ensures PreviousSuccessful(d, r) == Some(t)
  {
    PreviousExists(d, r);
    hide PreviousSuccessful;
  }

  lemma GoodBelowIsFound(d: Deployment, r: Revision)
    ensures HasGoodBelow(d, r) <==> PreviousSuccessful(d, r).Some?
    ensures PreviousSuccessful(d, r).Some? ==> LastGoodBelow(d, r, PreviousSuccessful(d, r).value)
  {
    PreviousExists(d, r);
    hide PreviousSuccessful;
    if PreviousSuccessful(d, r).Some? {
      assert LastGoodBelow(d, r, PreviousSuccessful(d, r).value);
    }
  }

  /** Is this the first failure report of a release that no rollback created? */
  predicate FirstFailure(d: Deployment, r: Revision, report: Report) {
    && report.phase == Failed
    && (r in d.rollouts ==> d.rollouts[r].phase != Failed)
    && (r in d.rollouts ==> !d.rollouts[r].isRollback)
  }

  /** Row and events of a rollback from release `r` to the configuration of release `t`. */
  ghost predicate RolledBackTo(id: DeploymentID, d: Deployment, r: Revision, report: Report, t: Revision, row: Deployment, events: seq<Event>)
    requires t in d.releases
  {
    var good := d.releases[t];
    && row == Deployment(d.org, good.image, good.replicas, d.spec, d.status,
                         d.releases[r + 1 := Release(good.image, good.replicas, good.spec, RelPending)],
                         d.rollouts[r := Rollout(Failed, false)][r + 1 := Rollout(Pending, true)])
    && events == [Progress(id, r, Failed)] + (if report.timeout then [TimedOut(id, r)] else []) + [RollbackStarted(id, r, r + 1, t)]
  }

  /** A report rolls its release back, to the last successful release below it, exactly if it is the first
      failure of the newest release, no rollback created that release, rollback is on, there is such a
      release, and no other transaction interfered. Row and events are then these. */
  lemma FailureRollsBack(id: DeploymentID, d: Deployment, r: Revision, report: Report)
    requires Numbered(d) && d.status != StatusDeleted && r in d.releases
    ensures (exists t, release :: RollbackStarted(id, r, release, t) in ReportProgress(id, d, r, report).events)
      <==> FirstFailure(d, r, report) && report.autoRollback && !report.raced && r == |d.releases| && HasGoodBelow(d, r)
    ensures FirstFailure(d, r, report) && report.autoRollback && !report.raced && r == |d.releases| ==>
      forall t | LastGoodBelow(d, r, t) ::
        RolledBackTo(id, d, r, report, t, ReportProgress(id, d, r, report).row, ReportProgress(id, d, r, report).events)
  {
    LatestIsSize(d);
    if FirstFailure(d, r, report) && report.autoRollback && !report.raced && r == |d.releases| {
      forall t | LastGoodBelow(d, r, t)
        ensures RolledBackTo(id, d, r, report, t, ReportProgress(id, d, r, report).row, ReportProgress(id, d, r, report).events)
      {
        FailureTarget(id, d, r, report, t);
      }
      if HasGoodBelow(d, r) {
        var t :| LastGoodBelow(d, r, t);
        assert RollbackStarted(id, r, r + 1, t) in ReportProgress(id, d, r, report).events;
      } else {
        NoRollbackOtherwise(id, d, r, report);
      }
    } else {
      NoRollbackOtherwise(id, d, r, report);
    }
    hide ReportProgress, LastGoodBelow, RolledBackTo;
  }

  lemma FailureTarget(id: DeploymentID, d: Deployment, r: Revision, report: Report, t: Revision)
    requires Numbered(d) && d.status != StatusDeleted && r in d.releases && r + 1 !in d.releases
    requires FirstFailure(d, r, report) && report.autoRollback && !report.raced && LastGoodBelow(d, r, t)
    ensures RolledBackTo(id, d, r, report, t, ReportProgress(id, d, r, report).row, ReportProgress(id, d, r, report).events)
  {
    var u := Upsert(d, r, Failed, false);
    UpsertedRollout(d, r, Failed);
    assert u == d.(rollouts := d.rollouts[r := Rollout(Failed, false)]);
    assert LastGoodBelow(u, r, t);
    LastGoodIsUnique(u, r, t);
    ProgressUnfold(id, d, r, report);
    hide PreviousSuccessful, ReportProgress;
    var started := [RollbackStarted(id, r, r + 1, t)];
    var timeout := if report.timeout then [TimedOut(id, r)] else [];
    assert [Progress(id, r, Failed)] + (timeout + started) == [Progress(id, r, Failed)] + timeout + started;
  }

  lemma NoRollbackOtherwise(id: DeploymentID, d: Deployment, r: Revision, report: Report)
    requires Numbered(d) && d.status != StatusDeleted && r in d.releases
    requires !(FirstFailure(d, r, report) && report.autoRollback && !report.raced && r == |d.releases| && HasGoodBelow(d, r))
    ensures forall e | e in ReportProgress(id, d, r, report).events :: !e.RollbackStarted?
  {
    LatestIsSize(d);
    var u := Upsert(d, r, report.phase, false);
    UpsertedRollout(d, r, report.phase);
    GoodBelowIsFound(u, r);
    GoodBelowIsFound(d, r);
    assert forall t :: LastGoodBelow(u, r, t) <==> LastGoodBelow(d, r, t);
    ProgressUnfold(id, d, r, report);
    hide PreviousSuccessful, ReportProgress, Upsert, Latest, LastGoodBelow;
  }

  /** The events of an accepted report that does not fail: a progress event, and when the release becomes
      healthy one healthy event, followed by the completion if a rollback created the release. */
  lemma QuietReport(id: DeploymentID, d: Deployment, r: Revision, report: Report)
    requires d.status != StatusDeleted && r in d.releases && report.phase != Failed
    ensures var c := ReportProgress(id, d, r, report);
      var marked := r in d.rollouts && d.rollouts[r].isRollback;
      && c.row == d.(rollouts := d.rollouts[r := Rollout(report.phase, marked)])
      && c.events == [Progress(id, r, report.phase)]
           + (if report.phase == Healthy && !(r in d.rollouts && d.rollouts[r].phase == Healthy)
              then [HealthyNow(id, r)] + (if marked then [RollbackCompleted(id, r)] else []) else [])
  {
    UpsertedRollout(d, r, report.phase);
    ProgressUnfold(id, d, r, report);
    hide ReportProgress, AutoRollback;
  }

  /** A failure report that is accepted and does not roll back: the snapshot fails, and the first time a
      timeout is announced. Only a lost race leaves more behind. */
  lemma FailureWithoutRollback(id: DeploymentID, d: Deployment, r: Revision, report: Report)
    requires Numbered(d) && d.status != StatusDeleted && r in d.releases && report.phase == Failed
    requires report.survives && !report.raced
    requires !(FirstFailure(d, r, report) && report.autoRollback && r == |d.releases| && HasGoodBelow(d, r))
    ensures var c := ReportProgress(id, d, r, report);
      && c.row == d.(rollouts := d.rollouts[r := Rollout(Failed, r in d.rollouts && d.rollouts[r].isRollback)])
      && c.events == [Progress(id, r, Failed)]
           + (if report.timeout && !(r in d.rollouts && d.rollouts[r].phase == Failed) then [TimedOut(id, r)] else [])
  {
    LatestIsSize(d);
    var u := Upsert(d, r, Failed, false);
    UpsertedRollout(d, r, Failed);
    GoodBelowIsFound(u, r);
    GoodBelowIsFound(d, r);
    assert forall t :: LastGoodBelow(u, r, t) <==> LastGoodBelow(d, r, t);
    ProgressUnfold(id, d, r, report);
    assert u == d.(rollouts := d.rollouts[r := Rollout(Failed, r in d.rollouts && d.rollouts[r].isRollback)]);
    hide PreviousSuccessful, ReportProgress, Latest, LastGoodBelow, Upsert;
  }

  /** Losing the race leaves the failed snapshot and the new release behind, and announces no rollback. */
  lemma RacedFailure(id: DeploymentID, d: Deployment, r: Revision, report: Report, t: Revision)
    requires Numbered(d) && d.status != StatusDeleted && r == |d.releases|
    requires FirstFailure(d, r, report) && report.autoRollback && report.raced && LastGoodBelow(d, r, t)
    ensures var (c, good) := (ReportProgress(id, d, r, report), d.releases[t]);
      && c.row == d.(rollouts := d.rollouts[r := Rollout(Failed, false)],
                     releases := d.releases[r + 1 := Release(good.image, good.replicas, good.spec, RelPending)])
      && c.events == [Progress(id, r, Failed)] + (if report.timeout then [TimedOut(id, r)] else [])
  {
    LatestIsSize(d);
    var u := Upsert(d, r, Failed, false);
    UpsertedRollout(d, r, Failed);
    assert u == d.(rollouts := d.rollouts[r := Rollout(Failed, false)]);
    assert LastGoodBelow(u, r, t);
    LastGoodIsUnique(u, r, t);
    ProgressUnfold(id, d, r, report);
    hide PreviousSuccessful, ReportProgress, Latest, Upsert;
  }

  /** In a whole history: the same report, at the end of any history, adds exactly these events. */
  lemma HistoryRollsBack(id: DeploymentID, org: string, image: string, replicas: int, spec: string, ops: seq<Op>,
                         r: Revision, report: Report, t: Revision)
    requires var d := History(id, NewDeployment(id, org, image, replicas, spec), ops).row;
      d.status != StatusDeleted && r == |d.releases| && FirstFailure(d, r, report) && LastGoodBelow(d, r, t)
    requires report.autoRollback && !report.raced
    ensures var first := NewDeployment(id, org, image, replicas, spec);
      var (before, after) := (History(id, first, ops), History(id, first, ops + [DoProgress(r, report)]));
      && RolledBackTo(id, before.row, r, report, t, after.row, after.events[|before.events|..])
      && before.events <= after.events
      && RunsLatest(after.row) && |after.row.releases| == r + 1
  {
    var first := NewDeployment(id, org, image, replicas, spec);
    var op := DoProgress(r, report);
    NewHistoryOk(id, org, image, replicas, spec, ops);
    HistoryAppend(id, first, ops, op);
    var before := History(id, first, ops);
    var c := ReportProgress(id, before.row, r, report);
    assert Apply(id, before.row, op) == c;
    hide History, NewDeployment, ReportProgress, LogOk, Apply;
    RollbackRunsLatest(id, before.row, r, report, t);
    assert (before.events + c.events)[|before.events|..] == c.events;
  }

  lemma HistoryAppend(id: DeploymentID, first: Change, ops: seq<Op>, op: Op)
    ensures var (before, last) := (History(id, first, ops), Apply(id, History(id, first, ops).row, op));
      History(id, first, ops + [op]) == Change(last.row, before.events + last.events)
  {
    assert (ops + [op])[..|ops|] == ops;
    hide Apply;
  }

  lemma RollbackRunsLatest(id: DeploymentID, d: Deployment, r: Revision, report: Report, t: Revision)
    requires Numbered(d) && d.status != StatusDeleted && r == |d.releases|
    requires FirstFailure(d, r, report) && report.autoRollback && !report.raced && LastGoodBelow(d, r, t)
    ensures var c := ReportProgress(id, d, r, report);
      RolledBackTo(id, d, r, report, t, c.row, c.events) && RunsLatest(c.row) && |c.row.releases| == r + 1
  {
    LatestIsSize(d);
    FailureTarget(id, d, r, report, t);
    ProgressFits(id, d, r, report);
    var row := ReportProgress(id, d, r, report).row;
    LatestIsSize(row);
    assert row.releases.Keys == d.releases.Keys + {r + 1};
    hide ReportProgress, Latest;
    assert row.releases[r + 1].image == row.image;
  }

  /** A user's change: the next release carries what was asked for and, where nothing was asked, what the
      row had; the row runs it. A replica count below one, or a deleted deployment, changes nothing. */
  lemma UpdateTakesEffect(id: DeploymentID, d: Deployment, image: Option<string>, replicas: Option<int>, spec: Option<string>)
    requires Numbered(d)
    ensures var c := Apply(id, d, DoUpdate(image, replicas, spec)); var r := |d.releases| + 1;
      if d.status == StatusDeleted || (replicas.Some? && replicas.value < 1) then c == Change(d, [])
      else
        && (image == Some(c.row.image) || (image.None? && c.row.image == d.image))
        && (replicas == Some(c.row.replicas) || (replicas.None? && c.row.replicas == d.replicas))
        && (spec == Some(c.row.spec) || (spec.None? && c.row.spec == d.spec))
        && c.row.releases == d.releases[r := Release(c.row.image, c.row.replicas, c.row.spec, RelPending)]
        && c.row.rollouts == d.rollouts && c.row.status == d.status && c.row.org == d.org
        && c.events == [Created(id, r, c.row.image, c.row.replicas)]
  {
    LatestIsSize(d);
    hide Latest;
  }

  /** A user's rollback goes to the wanted revision, or without one to the last successful one below the
      newest, and to no other; if that does not exist nothing changes. */
  lemma UserRollbackTakesEffect(id: DeploymentID, d: Deployment, wanted: Option<Revision>, t: Revision)
    requires Numbered(d) && d.status != StatusDeleted
    requires if wanted.Some? then wanted.value in d.releases && t == wanted.value else LastGoodBelow(d, |d.releases|, t)
    ensures var c := Apply(id, d, DoUserRollback(wanted)); var r := |d.releases| + 1; var goal := d.releases[t];
      && c.row == d.(image := goal.image, replicas := goal.replicas,
                     releases := d.releases[r := Release(goal.image, goal.replicas, goal.spec, RelPending)])
      && c.events == [RolledBack(id, r - 1, t)]
  {
    LatestIsSize(d);
    if wanted.None? { LastGoodIsUnique(d, |d.releases|, t); }
    hide Latest, PreviousSuccessful;
  }

  lemma UserRollbackWithoutTarget(id: DeploymentID, d: Deployment, wanted: Option<Revision>)
    requires Numbered(d)
    requires d.status == StatusDeleted || (if wanted.Some? then wanted.value !in d.releases else !HasGoodBelow(d, |d.releases|))
    ensures Apply(id, d, DoUserRollback(wanted)) == Change(d, [])
  {
    LatestIsSize(d);
    GoodBelowIsFound(d, |d.releases|);
    hide Latest, PreviousSuccessful;
  }

  /** A status report moves its release to the reported status and the row to the matching one, and
      nothing else. */
  lemma StatusReportTakesEffect(id: DeploymentID, d: Deployment, r: Revision, status: ReleaseStatus)
    requires r in d.releases && d.status != StatusDeleted && status != RelPending
    ensures var c := Apply(id, d, DoStatus(r, status));
      && c.row.releases == d.releases[r := Release(d.releases[r].image, d.releases[r].replicas, d.releases[r].spec, status)]
      && (status == Deploying ==> c.row.status == StatusRunning)
      && (status == RelSucceeded ==> c.row.status == StatusSucceeded)
      && (status == RelFailed ==> c.row.status == StatusFailed)
      && c.row == d.(releases := c.row.releases, status := c.row.status)
      && c.events == [StatusChanged(id, r, status)]
  {
  }

  /** Once deleted, a deployment keeps its rows and enqueues nothing, whatever is asked or reported. */
  lemma {:induction false} DeletedForGood(id: DeploymentID, first: Change, ops: seq<Op>, more: seq<Op>)
    requires History(id, first, ops).row.status != StatusDeleted
    ensures var (deleted, later) := (History(id, first, ops + [DoDelete]), History(id, first, ops + [DoDelete] + more));
      && deleted.row.status == StatusDeleted && deleted.events == History(id, first, ops).events + [Deleted(id)]
      && later == deleted
    decreases |more|
  {
    assert (ops + [DoDelete])[..|ops|] == ops;
    var deleted := History(id, first, ops + [DoDelete]);
    if more == [] {
      assert ops + [DoDelete] + more == ops + [DoDelete];
    } else {
      var (init, op) := (more[..|more| - 1], more[|more| - 1]);
      DeletedForGood(id, first, ops, init);
      assert (ops + [DoDelete] + more)[..|ops + [DoDelete] + more| - 1] == ops + [DoDelete] + init;
      DeletedIsInert(id, deleted.row, op);
      assert deleted.events + [] == deleted.events;
      hide Apply;
    }
  }

  lemma DeletedIsInert(id: DeploymentID, d: Deployment, op: Op)
    requires d.status == StatusDeleted
    ensures Apply(id, d, op) == Change(d, [])
  {
    hide Latest, PreviousSuccessful;
  }

  // ------------------------------------------------------------------------------------------
  // Where the engine does less than it says
  // ------------------------------------------------------------------------------------------

  /** After a lost race the new release is the highest but was never applied to the row: the row runs it
      only if the target happened to be what the row already ran. */
  lemma LostRaceRunsLatest(id: DeploymentID, d: Deployment, failed: Revision)
    requires Numbered(d) && failed in d.releases && AutoRollback(id, d, failed, true).LostRace?
    ensures var (row, target) := (AutoRollback(id, d, failed, true).row, PreviousSuccessful(d, failed).value);
      && target in d.releases
      && (RunsLatest(row) <==> d.image == d.releases[target].image && d.replicas == d.releases[target].replicas)
  {
    hide Latest;
    PreviousExists(d, failed);
    AutoRollbackFits(id, d, failed, true);
    var t := PreviousSuccessful(d, failed).value;
    NextIsLatest(d, failed + 1, d.releases[t].(status := RelPending));
    hide PreviousSuccessful;
  }

  /** The rollback sets the row's image and replica count, but neither its status nor the rest of its
      configuration, which stay those of the failed release. */
  lemma RollbackKeepsStatusAndSpec(id: DeploymentID, d: Deployment, failed: Revision)
    requires AutoRollback(id, d, failed, false).Started?
    ensures var (row, target) := (AutoRollback(id, d, failed, false).change.row, PreviousSuccessful(d, failed).value);
      && target in d.releases
      && row.image == d.releases[target].image && row.replicas == d.releases[target].replicas
      && row.status == d.status && row.spec == d.spec
      && row.releases[failed + 1].spec == d.releases[target].spec
  {
    PreviousExists(d, failed);
    hide PreviousSuccessful;
  }

  /** Where a refused insert aborts the transaction, a first failure report of a release that is no longer
      the newest is lost altogether: snapshot, events and all. This happens exactly under these conditions. */
  lemma LateFailureReportIsLost(id: DeploymentID, d: Deployment, r: Revision, report: Report)
    requires Numbered(d) && d.status != StatusDeleted && r in d.releases
    ensures ReportProgress(id, d, r, report).events == [] ==> ReportProgress(id, d, r, report).row == d
    ensures ReportProgress(id, d, r, report).events == [] <==>
      && report.phase == Failed && report.autoRollback && !report.survives
      && !(r in d.rollouts && (d.rollouts[r].phase == Failed || d.rollouts[r].isRollback))
      && r < Latest(d) && (exists t | t in d.releases && t < r :: d.releases[t].status == RelSucceeded)
  {
    var u := Upsert(d, r, report.phase, false);
    UpsertFits(d, r, report.phase);
    UpsertedRollout(d, r, report.phase);
    ProgressUnfold(id, d, r, report);
    PreviousExists(u, r);
    assert r + 1 in u.releases <==> r < Latest(d);
    hide Latest, PreviousSuccessful, Upsert, ReportProgress;
  }

  /** Such a race exists: release 2 fails, the rollback to release 1 creates release 3, and the row is left
      running release 2's image. */
  lemma RaceLeavesRowBehind()
    ensures var d := Deployment("o", "b", 1, "", StatusRunning,
                                map[1 := Release("a", 1, "", RelSucceeded), 2 := Release("b", 1, "", RelPending)], map[]);
      && Numbered(d) && RunsLatest(d)
      && !RunsLatest(ReportProgress("d", d, 2, Report(Failed, false, true, true, false)).row)
  {
    var report := Report(Failed, false, true, true, false);
    var d := Deployment("o", "b", 1, "", StatusRunning,
                        map[1 := Release("a", 1, "", RelSucceeded), 2 := Release("b", 1, "", RelPending)], map[]);
    assert d.releases.Keys == {1, 2};
    MaxIs({1, 2}, 2);
    var u := Upsert(d, 2, Failed, false);
    UpsertFits(d, 2, Failed);
    UpsertedRollout(d, 2, Failed);
    assert SuccessfulBefore(u.releases, 2) == {1};
    MaxIs({1}, 1);
    LostRaceRunsLatest("d", u, 2);
    ProgressUnfold("d", d, 2, report);
    hide Upsert, Latest, ReportProgress;
  }

  // ------------------------------------------------------------------------------------------
  // The engine, statement by statement
  // ------------------------------------------------------------------------------------------

  datatype StoreError = NoError | UniqueViolation | OptimisticLock

  class Engine {
    const id: DeploymentID
    var row: Deployment
    var outbox: seq<Event>

    constructor (id: DeploymentID, org: string, image: string, replicas: int, spec: string)
      ensures this.id == id
      ensures Change(row, outbox) == NewDeployment(id, org, image, replicas, spec)
      ensures row.org == org && row.image == image && row.replicas == replicas && row.spec == spec && row.status == StatusPending
      ensures row.releases == map[1 := Release(image, replicas, spec, RelPending)] && outbox == [Created(id, 1, image, replicas)]
    {
      this.id := id;
      row := Deployment(org, image, replicas, spec, StatusPending, map[1 := Release(image, replicas, spec, RelPending)], map[]);
      outbox := [Created(id, 1, image, replicas)];
    }

    method GetLatest() returns (latest: Revision)
      ensures latest == Latest(row)
    {
      if row.releases == map[] {
        return 0;
      }
      latest := HighestOf(row.releases.Keys);
    }

    method GetPreviousSuccessful(before: Revision) returns (found: Option<Revision>)
      ensures found == PreviousSuccessful(row, before)
    {
      var earlier := SuccessfulBefore(row.releases, before);
      if earlier == {} {
        return None;
      }
      var highest := HighestOf(earlier);
      found := Some(highest);
    }

    method CreateRelease(r: Revision, release: Release) returns (err: StoreError)
      modifies this`row
      ensures err == if r in old(row).releases then UniqueViolation else NoError
      ensures row == if r in old(row).releases then old(row) else WithRelease(old(row), r, release)
    {
      if r in row.releases {
        return UniqueViolation;
      }
      row := row.(releases := row.releases[r := release]);
      err := NoError;
    }

    method UpsertRollout(r: Revision, phase: Phase, isRollback: bool)
      modifies this`row
      ensures row == Upsert(old(row), r, phase, isRollback)
    {
      var marked := isRollback;
      if r in row.rollouts && row.rollouts[r].isRollback {
        marked := true;
      }
      row := row.(rollouts := row.rollouts[r := Rollout(phase, marked)]);
    }

    method TriggerAutoRollback(failed: Revision, raced: bool) returns (err: StoreError)
      modifies this
      ensures match AutoRollback(id, old(row), failed, raced)
        case NoTarget => err == NoError && row == old(row) && outbox == old(outbox)
        case Taken => err == UniqueViolation && row == old(row) && outbox == old(outbox)
        case LostRace(left) => err == OptimisticLock && row == left && outbox == old(outbox)
        case Started(change) => err == NoError && row == change.row && outbox == old(outbox) + change.events
    {
      PreviousExists(row, failed);
      hide PreviousSuccessful;
      var target := GetPreviousSuccessful(failed);
      if target.None? {
        return NoError;
      }
      var goal := row.releases[target.value];
      err := CreateRelease(failed + 1, goal.(status := RelPending));
      if err != NoError {
        return;
      }
      if raced {
        return OptimisticLock;
      }
      row := row.(image := goal.image, replicas := goal.replicas);
      UpsertRollout(failed + 1, Pending, true);
      outbox := outbox + [RollbackStarted(id, failed, failed + 1, target.value)];
    }

    /** Whether the transaction can commit. */
    method ApplyTransition(r: Revision, report: Report, prev: Option<Rollout>) returns (ok: bool)
      modifies this
      ensures var result := Transition(id, old(row), r, report, prev);
        && ok == result.Some?
        && (ok ==> row == result.value.row && outbox == old(outbox) + result.value.events)
    {
      hide AutoRollback;
      var wasRollback := prev.Some? && prev.value.isRollback;
      if prev.Some? && prev.value.phase == report.phase {
        return true;
      }
      if report.phase == Healthy {
        outbox := outbox + [HealthyNow(id, r)];
        if wasRollback {
          outbox := outbox + [RollbackCompleted(id, r)];
        }
      } else if report.phase == Failed {
        if report.timeout {
          outbox := outbox + [TimedOut(id, r)];
        }
        if report.autoRollback && !wasRollback {
          var err := TriggerAutoRollback(r, report.raced);
          if err == UniqueViolation && !report.survives {
            return false;
          }
        }
      }
      ok := true;
    }

    /** A report for an unknown or deleted deployment, or for another deployment's release, is refused. */
    method UpdateDeploymentProgress(r: Revision, report: Report) returns (accepted: bool)
      modifies this
      ensures var change := ReportProgress(id, old(row), r, report);
        row == change.row && outbox == old(outbox) + change.events && (accepted <==> change.events != [])
    {
      if row.status == StatusDeleted || r !in row.releases {
        return false;
      }
      ghost var (row0, outbox0) := (row, outbox);
      var kept := (row, outbox);
      var prev := None;
      if r in row.rollouts {
        prev := Some(row.rollouts[r]);
      }
      UpsertRollout(r, report.phase, false);
      outbox := outbox + [Progress(id, r, report.phase)];
      hide Transition, Upsert;
      accepted := ApplyTransition(r, report, prev);
      ProgressUnfold(id, row0, r, report);
      hide ReportProgress;
      if !accepted {
        row, outbox := kept.0, kept.1;
      }
    }

    /** The next revision carries the changed configuration; an invalid replica count changes nothing. */
    method UpdateDeployment(image: Option<string>, replicas: Option<int>, spec: Option<string>) returns (ok: bool)
      modifies this
      ensures var change := Update(id, old(row), image, replicas, spec);
        row == change.row && outbox == old(outbox) + change.events && (ok <==> change.events != [])
    {
      if row.status == StatusDeleted || (replicas.Some? && replicas.value < 1) {
        return false;
      }
      var latest := GetLatest();
      hide Latest;
      var d := row;
      if image.Some? {
        d := d.(image := image.value);
      }
      if replicas.Some? {
        d := d.(replicas := replicas.value);
      }
      if spec.Some? {
        d := d.(spec := spec.value);
      }
      row := WithRelease(d, latest + 1, Release(d.image, d.replicas, d.spec, RelPending));
      outbox := outbox + [Created(id, latest + 1, d.image, d.replicas)];
      ok := true;
    }

    /** A user's rollback to a given revision, or to the last successful one before the newest. */
    method RollbackDeployment(wanted: Option<Revision>) returns (ok: bool)
      modifies this
      ensures var change := UserRollback(id, old(row), wanted);
        row == change.row && outbox == old(outbox) + change.events && (ok <==> change.events != [])
    {
      if row.status == StatusDeleted || row.releases == map[] {
        return false;
      }
      var latest := GetLatest();
      PreviousExists(row, latest);
      hide Latest, PreviousSuccessful;
      var target: Option<Revision>;
      if wanted.Some? {
        target := if wanted.value in row.releases then wanted else None;
      } else {
        target := GetPreviousSuccessful(latest);
      }
      if target.None? {
        return false;
      }
      var goal := row.releases[target.value];
      row := row.(image := goal.image, replicas := goal.replicas);
      row := row.(releases := row.releases[latest + 1 := goal.(status := RelPending)]);
      outbox := outbox + [RolledBack(id, latest, target.value)];
      ok := true;
    }

    method UpdateDeploymentStatus(r: Revision, status: ReleaseStatus) returns (ok: bool)
      modifies this
      ensures var change := ReportStatus(id, old(row), r, status);
        row == change.row && outbox == old(outbox) + change.events && (ok <==> change.events != [])
    {
      if status == RelPending || row.status == StatusDeleted || r !in row.releases {
        return false;
      }
      row := row.(releases := row.releases[r := row.releases[r].(status := status)]);
      if status == Deploying {
        row := row.(status := StatusRunning);
      } else if status == RelSucceeded {
        row := row.(status := StatusSucceeded);
      } else {
        row := row.(status := StatusFailed);
      }
      outbox := outbox + [StatusChanged(id, r, status)];
      ok := true;
    }
  }

  method HighestOf(s: set<nat>) returns (m: nat)
    requires s != {}
    ensures m == Max(s)
  {
    m :| m in s;
    var left := s - {m};
    while left != {}
      invariant m in s && left <= s && forall x | x in s && x !in left :: x <= m
      decreases |left|
    {
      var x :| x in left;
      if m < x {
        m := x;
      }
      left := left - {x};
    }
    MaxIs(s, m);
  }
}
