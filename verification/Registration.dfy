/** Agents and the cluster service together: installation tokens, registration, recovery, heartbeats,
    state loss and lost replies, as one machine. */
module Registration {
  import opened Prelude
  import opened Agents

  type ClusterID = string
  type TokenID = string
  type AgentNo = nat
  type RequestNo = nat

  datatype ClusterStatus = Pending | Connected | Disconnected | Deleted

  /** `agentID` is empty until an agent has registered. */
  datatype Cluster = Cluster(status: ClusterStatus, agentID: string)

  datatype TokenStatus = Active | Used | Revoked

  datatype Token = Token(cluster: ClusterID, status: TokenStatus, expiresAt: int, usedBy: string)

  datatype Event = ClusterRegistered(token: TokenID, cluster: ClusterID, agentID: string)

  /** The cluster service's tables and its cluster.registered events. */
  datatype DB = DB(clusters: map<ClusterID, Cluster>, tokens: map<TokenID, Token>, events: seq<Event>)

  // ------------------------------------------------------------------------------------------
  // The cluster service
  // ------------------------------------------------------------------------------------------

  predicate Live(db: DB, c: ClusterID) { c in db.clusters && db.clusters[c].status != Deleted }

  predicate AwaitsAgent(db: DB, c: ClusterID) {
    c in db.clusters && db.clusters[c].status in {Pending, Disconnected}
  }

  predicate ActiveFor(db: DB, t: TokenID, c: ClusterID) {
    t in db.tokens && db.tokens[t].cluster == c && db.tokens[t].status == Active
  }

  function SetToken(db: DB, t: TokenID, status: TokenStatus): DB
    requires t in db.tokens
  {
    db.(tokens := db.tokens[t := db.tokens[t].(status := status)])
  }

  function SetStatus(db: DB, c: ClusterID, status: ClusterStatus): DB
    requires c in db.clusters
  {
    db.(clusters := db.clusters[c := db.clusters[c].(status := status)])
  }

  /** The partial unique index: a second active token for a cluster is refused. */
  predicate CanInsert(db: DB, c: ClusterID) {
    forall t | t in db.tokens :: !ActiveFor(db, t, c)
  }

  /** A new token; the cluster's active token, if there is one, is revoked first. */
  function Generate(db: DB, c: ClusterID, t: TokenID, expiresAt: int, existing: Option<TokenID>): DB
    requires existing.Some? ==> existing.value in db.tokens
  {
    var revoked := if existing.Some? then SetToken(db, existing.value, Revoked) else db;
    if AwaitsAgent(db, c) && CanInsert(revoked, c)
    then revoked.(tokens := revoked.tokens[t := Token(c, Active, expiresAt, "")]) else db
  }

  datatype Stage = Sent | Registering(seen: Token) | Recovering(seen: Token) | Answered(reply: Reply)

  /** The token read that opens both endpoints, outside any transaction. */
  function ReadToken(db: DB, t: TokenID, recover: bool, agentID: string, now: int): Stage {
    if !recover && agentID == "" then Answered(Refused(400))
    else if t !in db.tokens then Answered(Refused(UNAUTHORIZED))
    else
      var seen := db.tokens[t];
      match seen.status
      case Revoked => Answered(Refused(UNAUTHORIZED))
      case Used => Recovering(seen)
      case Active => if now > seen.expiresAt then Answered(Refused(UNAUTHORIZED))
                     else if recover then Recovering(seen) else Registering(seen)
  }

  /** The registration transaction; only here is the token checked and consumed. */
  function Register(db: DB, t: TokenID, seen: Token, agentID: string): (DB, Reply) {
    var c := seen.cluster;
    if !Live(db, c) then (db, Refused(NOT_FOUND))
    else if !AwaitsAgent(db, c) then (db, Refused(CONFLICT))
    else if t !in db.tokens || db.tokens[t].status != Active then (db, Refused(NOT_FOUND))
    else
      (DB(db.clusters[c := Cluster(Connected, agentID)],
          db.tokens[t := db.tokens[t].(status := Used, usedBy := agentID)],
          db.events + [ClusterRegistered(t, c, agentID)]),
       Accepted(c, agentID))
  }

  /** Recovery changes nothing and answers with the recorded identity. */
  function Recover(db: DB, seen: Token): Reply {
    if !Live(db, seen.cluster) then Refused(NOT_FOUND)
    else
      var recorded := db.clusters[seen.cluster].agentID;
      if recorded == "" && seen.usedBy == "" then Refused(NOT_FOUND) else Accepted(seen.cluster, recorded)
  }

  /** Credential check and heartbeat: a matching agent brings its cluster back to connected. */
  function Heartbeat(db: DB, c: ClusterID, agentID: string): (DB, Reply) {
    if c !in db.clusters then (db, Refused(UNAUTHORIZED))
    else if db.clusters[c].status == Deleted || db.clusters[c].agentID == "" then (db, Refused(FORBIDDEN))
    else if db.clusters[c].agentID != agentID then (db, Refused(UNAUTHORIZED))
    else (SetStatus(db, c, Connected), Accepted(c, agentID))
  }

  // ------------------------------------------------------------------------------------------
  // The machine
  // ------------------------------------------------------------------------------------------

  /** An installation: its token never changes; `memory` is None while the process is down. */
  datatype Installation = Installation(token: TokenID, memory: Option<Local>, disk: Local)

  datatype Request = Request(agent: AgentNo, recover: bool, agentID: string, stage: Stage)

  datatype State = State(db: DB, now: int, agents: map<AgentNo, Installation>, requests: map<RequestNo, Request>)

  const Start := State(DB(map[], map[], []), 0, map[], map[])

  datatype Op =
    | CreateCluster(cluster: ClusterID)
    | GenerateToken(cluster: ClusterID, token: TokenID, expiresAt: int, existing: Option<TokenID>)
    | RevokeToken(token: TokenID)
    | DeleteCluster(cluster: ClusterID)
    | MarkDisconnected(cluster: ClusterID)
    | Beat(cluster: ClusterID, agentID: string)
    | Install(agent: AgentNo, token: TokenID)
    | Boot(agent: AgentNo, configured: string, podUID: string, generated: string)
    | Stop(agent: AgentNo)
    | LoseDisk(agent: AgentNo)
    | Send(request: RequestNo, agent: AgentNo, recover: bool)
    | LookUp(request: RequestNo)                    // the token read
    | Transact(request: RequestNo)                  // the registration transaction
    | ReadCluster(request: RequestNo)               // the cluster read of recovery
    | Receive(request: RequestNo, saved: bool)      // the reply arrives; `saved`: the state file was written
    | Lose(request: RequestNo)                      // the request or its reply is lost
    | Tick(elapsed: nat)

  predicate InStage(s: State, r: RequestNo) {
    r in s.requests && s.requests[r].agent in s.agents
  }

  predicate Enabled(s: State, op: Op) {
    match op
    case CreateCluster(c) => c !in s.db.clusters
    case GenerateToken(c, t, _, existing) =>
      && t !in s.db.tokens
      && if existing.Some? then ActiveFor(s.db, existing.value, c) else CanInsert(s.db, c)
    case RevokeToken(t) => t in s.db.tokens && s.db.tokens[t].status == Active
    case DeleteCluster(c) => Live(s.db, c)
    case MarkDisconnected(c) => c in s.db.clusters && s.db.clusters[c].status == Connected
    case Beat(_, _) => true
    case Install(a, _) => a !in s.agents
    case Boot(a, _, _, _) => a in s.agents && s.agents[a].memory.None?
    case Stop(a) => a in s.agents
    case LoseDisk(a) => a in s.agents
    case Send(r, a, _) => r !in s.requests && a in s.agents && s.agents[a].memory.Some?
    case LookUp(r) => InStage(s, r) && s.requests[r].stage.Sent?
    case Transact(r) => InStage(s, r) && s.requests[r].stage.Registering?
    case ReadCluster(r) => InStage(s, r) && s.requests[r].stage.Recovering?
    case Receive(r, _) => InStage(s, r) && s.requests[r].stage.Answered? && s.agents[s.requests[r].agent].memory.Some?
    case Lose(r) => r in s.requests
    case Tick(_) => true
  }

  function SetStage(s: State, r: RequestNo, stage: Stage): State
    requires r in s.requests
  {
    s.(requests := s.requests[r := s.requests[r].(stage := stage)])
  }

  function SetAgent(s: State, a: AgentNo, i: Installation): State {
    s.(agents := s.agents[a := i])
  }

  function Effect(s: State, op: Op): State
    requires Enabled(s, op)
  {
    match op
    case CreateCluster(c) => s.(db := s.db.(clusters := s.db.clusters[c := Cluster(Pending, "")]))
    case GenerateToken(c, t, expiresAt, existing) => s.(db := Generate(s.db, c, t, expiresAt, existing))
    case RevokeToken(t) => s.(db := SetToken(s.db, t, Revoked))
    case DeleteCluster(c) => s.(db := SetStatus(s.db, c, Deleted))
    case MarkDisconnected(c) => s.(db := SetStatus(s.db, c, Disconnected))
    case Beat(c, id) => s.(db := Heartbeat(s.db, c, id).0)
    case Install(a, t) => SetAgent(s, a, Installation(t, None, Empty))
    case Boot(a, configured, podUID, generated) =>
      SetAgent(s, a, s.agents[a].(memory := Some(Resolve(s.agents[a].disk, configured, podUID, generated))))
    case Stop(a) => SetAgent(s, a, s.agents[a].(memory := None))
    case LoseDisk(a) => SetAgent(s, a, s.agents[a].(disk := Empty))
    case Send(r, a, recover) =>
      s.(requests := s.requests[r := Request(a, recover, s.agents[a].memory.value.agentID, Sent)])
    case LookUp(r) =>
      var q := s.requests[r];
      SetStage(s, r, ReadToken(s.db, s.agents[q.agent].token, q.recover, q.agentID, s.now))
    case Transact(r) =>
      var q := s.requests[r];
      var (db, reply) := Register(s.db, s.agents[q.agent].token, q.stage.seen, q.agentID);
      SetStage(s, r, Answered(reply)).(db := db)
    case ReadCluster(r) => SetStage(s, r, Answered(Recover(s.db, s.requests[r].stage.seen)))
    case Receive(r, saved) =>
      var (a, reply) := (s.requests[r].agent, s.requests[r].stage.reply);
      var i := s.agents[a];
      var memory := if reply.Accepted? then Adopt(i.memory.value, reply) else i.memory.value;
      SetAgent(s, a, Installation(i.token, Some(memory), if reply.Accepted? && saved then memory else i.disk))
        .(requests := s.requests - {r})
    case Lose(r) => s.(requests := s.requests - {r})
    case Tick(elapsed) => s.(now := s.now + elapsed)
  }

  /** A step that cannot happen leaves everything as it is. */
  function Step(s: State, op: Op): State {
    if Enabled(s, op) then Effect(s, op) else s
  }

  function Run(s: State, ops: seq<Op>): State
    decreases |ops|
  {
    if ops == [] then s else Step(Run(s, ops[..|ops| - 1]), ops[|ops| - 1])
  }

  // ------------------------------------------------------------------------------------------
  // Invariants
  // ------------------------------------------------------------------------------------------

  predicate ConsumedBy(db: DB, c: ClusterID, t: TokenID, id: string) {
    t in db.tokens && db.tokens[t] == Token(c, Used, db.tokens[t].expiresAt, id)
  }

  /** Some token of cluster `c` was consumed by an agent calling itself `id`. */
  ghost predicate ConsumedAs(db: DB, c: ClusterID, id: string) {
    id != "" && exists t :: ConsumedBy(db, c, t, id)
  }

  ghost predicate TokensOk(db: DB) {
    forall t | t in db.tokens ::
      && db.tokens[t].cluster in db.clusters
      && (db.tokens[t].status == Used ==> db.tokens[t].usedBy != "" && db.clusters[db.tokens[t].cluster].agentID != "")
      && (db.tokens[t].status == Active ==> db.tokens[t].usedBy == "")
  }

  ghost predicate ClustersOk(db: DB) {
    forall c | c in db.clusters :: db.clusters[c].agentID != "" ==> ConsumedAs(db, c, db.clusters[c].agentID)
  }

  ghost predicate OneActive(db: DB) {
    forall t, t' | t in db.tokens && t' in db.tokens && t != t' ::
      db.tokens[t].status == Active && db.tokens[t'].status == Active ==> db.tokens[t].cluster != db.tokens[t'].cluster
  }

  function EventsFor(events: seq<Event>, t: TokenID): nat {
    if events == [] then 0
    else EventsFor(events[..|events| - 1], t) + if events[|events| - 1].token == t then 1 else 0
  }

  predicate IsUsed(db: DB, t: TokenID) { t in db.tokens && db.tokens[t].status == Used }

  ghost predicate EventsOk(db: DB) {
    forall t :: EventsFor(db.events, t) == if IsUsed(db, t) then 1 else 0
  }

  ghost predicate DBOk(db: DB) {
    TokensOk(db) && ClustersOk(db) && OneActive(db) && EventsOk(db)
  }

  /** What an agent holding token `t` may believe about its registration. */
  ghost predicate Believes(db: DB, t: TokenID, c: ClusterID, id: string) {
    t in db.tokens && db.tokens[t].cluster == c && ConsumedAs(db, c, id)
  }

  ghost predicate LocalOk(db: DB, t: TokenID, l: Local) {
    l.registered ==> Believes(db, t, l.clusterID, l.agentID)
  }

  /** A token row read earlier: its cluster is current, and once used it never changes. */
  ghost predicate SeenOk(db: DB, t: TokenID, seen: Token) {
    t in db.tokens && db.tokens[t].cluster == seen.cluster && (seen.status == Used ==> db.tokens[t] == seen)
    && seen.status != Revoked && (seen.status == Active ==> seen.usedBy == "")
  }

  ghost predicate StageOk(db: DB, t: TokenID, stage: Stage) {
    match stage
    case Sent => true
    case Registering(seen) => SeenOk(db, t, seen)
    case Recovering(seen) => SeenOk(db, t, seen)
    case Answered(reply) => reply.Accepted? ==> Believes(db, t, reply.clusterID, reply.agentID)
  }

  ghost predicate AgentsOk(s: State) {
    forall a | a in s.agents ::
      && LocalOk(s.db, s.agents[a].token, s.agents[a].disk)
      && (s.agents[a].memory.Some? ==> LocalOk(s.db, s.agents[a].token, s.agents[a].memory.value))
  }

  ghost predicate RequestsOk(s: State) {
    forall r | r in s.requests ::
      && s.requests[r].agent in s.agents
      && StageOk(s.db, s.agents[s.requests[r].agent].token, s.requests[r].stage)
      && (s.requests[r].stage.Registering? ==> s.requests[r].agentID != "")
  }

  ghost predicate Safe(s: State) { DBOk(s.db) && AgentsOk(s) && RequestsOk(s) }

  /** How the tables may change: tokens keep their cluster and expiry, and leave active at most once. */
  ghost predicate Evolves(db: DB, db': DB) {
    forall t | t in db.tokens ::
      && t in db'.tokens
      && db'.tokens[t].cluster == db.tokens[t].cluster && db'.tokens[t].expiresAt == db.tokens[t].expiresAt
      && (db.tokens[t].status != Active ==> db'.tokens[t] == db.tokens[t])
  }

  // ------------------------------------------------------------------------------------------
  // The tables keep their invariants
  // ------------------------------------------------------------------------------------------

  lemma ConsumptionLasts(db: DB, db': DB, c: ClusterID, id: string)
    requires Evolves(db, db') && ConsumedAs(db, c, id)
    ensures ConsumedAs(db', c, id)
  {
    var t :| ConsumedBy(db, c, t, id);
    assert ConsumedBy(db', c, t, id);
  }

  /** A change of clusters only, that keeps every recorded identity. */
  lemma StatusChangeIsOk(db: DB, clusters': map<ClusterID, Cluster>)
    requires DBOk(db)
    requires forall c | c in db.clusters :: c in clusters' && clusters'[c].agentID == db.clusters[c].agentID
    requires forall c | c in clusters' && c !in db.clusters :: clusters'[c].agentID == ""
    ensures DBOk(db.(clusters := clusters')) && Evolves(db, db.(clusters := clusters'))
  {
    hide ConsumedAs, EventsFor;
    var db' := db.(clusters := clusters');
    assert Evolves(db, db');
    forall c | c in db'.clusters && db'.clusters[c].agentID != ""
      ensures ConsumedAs(db', c, db'.clusters[c].agentID)
    {
      ConsumptionLasts(db, db', c, db.clusters[c].agentID);
    }
  }

  lemma UsedIsKept(db: DB, t: TokenID, token: Token)
    requires token.status != Used && !IsUsed(db, t) && EventsOk(db)
    ensures EventsOk(db.(tokens := db.tokens[t := token]))
  {
    hide EventsFor;
    var db' := db.(tokens := db.tokens[t := token]);
    forall x ensures IsUsed(db', x) == IsUsed(db, x) { }
  }

  /** Adding an unused token, or revoking an active one. */
  lemma TokenChangeIsOk(db: DB, t: TokenID, token: Token)
    requires DBOk(db) && token.status != Used && token.usedBy == "" && token.cluster in db.clusters
    requires t in db.tokens ==> db.tokens[t].status == Active && token == db.tokens[t].(status := Revoked)
    requires token.status == Active ==> CanInsert(db, token.cluster)
    ensures var db' := db.(tokens := db.tokens[t := token]); DBOk(db') && Evolves(db, db')
  {
    hide ConsumedAs, EventsFor, EventsOk;
    var db' := db.(tokens := db.tokens[t := token]);
    assert Evolves(db, db');
    UsedIsKept(db, t, token);
    forall c | c in db'.clusters && db'.clusters[c].agentID != ""
      ensures ConsumedAs(db', c, db'.clusters[c].agentID)
    {
      ConsumptionLasts(db, db', c, db.clusters[c].agentID);
    }
    forall x | x in db.tokens && x != t && db.tokens[x].status == Active && token.status == Active
      ensures db.tokens[x].cluster != token.cluster
    {
      assert !ActiveFor(db, x, token.cluster);
    }
  }

  lemma EvolvesTwice(db0: DB, db1: DB, db2: DB)
    requires Evolves(db0, db1) && Evolves(db1, db2)
    ensures Evolves(db0, db2)
  {
  }

  lemma GenerateIsOk(db: DB, c: ClusterID, t: TokenID, expiresAt: int, existing: Option<TokenID>)
    requires DBOk(db) && t !in db.tokens
    requires if existing.Some? then ActiveFor(db, existing.value, c) else CanInsert(db, c)
    ensures var db' := Generate(db, c, t, expiresAt, existing); DBOk(db') && Evolves(db, db')
  {
    hide DBOk, Evolves, CanInsert;
    var revoked := if existing.Some? then SetToken(db, existing.value, Revoked) else db;
    if existing.Some? {
      ActiveTokenOk(db, existing.value);
      TokenChangeIsOk(db, existing.value, db.tokens[existing.value].(status := Revoked));
    } else {
      assert Evolves(db, db) by { EvolvesNowhere(db); }
    }
    if AwaitsAgent(db, c) && CanInsert(revoked, c) {
      TokenChangeIsOk(revoked, t, Token(c, Active, expiresAt, ""));
      EvolvesTwice(db, revoked, Generate(db, c, t, expiresAt, existing));
    } else {
      EvolvesNowhere(db);
    }
  }

  lemma EvolvesNowhere(db: DB)
    ensures Evolves(db, db)
  {
  }

  lemma ActiveTokenOk(db: DB, t: TokenID)
    requires DBOk(db) && t in db.tokens && db.tokens[t].status == Active
    ensures db.tokens[t].usedBy == "" && db.tokens[t].cluster in db.clusters
  {
  }

  lemma RegisterIsOk(db: DB, t: TokenID, seen: Token, agentID: string)
    requires DBOk(db) && SeenOk(db, t, seen) && agentID != ""
    ensures var (db', reply) := Register(db, t, seen, agentID);
      DBOk(db') && Evolves(db, db') && (reply.Accepted? ==> Believes(db', t, reply.clusterID, reply.agentID))
  {
    hide ConsumedAs, EventsFor;
    var (db', reply) := Register(db, t, seen, agentID);
    if reply.Accepted? {
      var c := seen.cluster;
      assert Evolves(db, db');
      assert ConsumedAs(db', c, agentID) by { WitnessConsumed(db', c, t, agentID); }
      forall d | d in db'.clusters && db'.clusters[d].agentID != ""
        ensures ConsumedAs(db', d, db'.clusters[d].agentID)
      {
        if d != c { ConsumptionLasts(db, db', d, db.clusters[d].agentID); }
      }
      forall x ensures EventsFor(db'.events, x) == if IsUsed(db', x) then 1 else 0 {
        OneMoreEvent(db.events, ClusterRegistered(t, c, agentID), x);
      }
    }
  }

  lemma WitnessConsumed(db: DB, c: ClusterID, t: TokenID, id: string)
    requires ConsumedBy(db, c, t, id) && id != ""
    ensures ConsumedAs(db, c, id)
  {
  }

  lemma OneMoreEvent(events: seq<Event>, e: Event, t: TokenID)
    ensures EventsFor(events + [e], t) == EventsFor(events, t) + if e.token == t then 1 else 0
  {
    assert (events + [e])[..|events|] == events;
  }

  /** Recovery only ever reports an identity some consumption recorded; in particular the fallback to
      the token's own record is never what makes it answer. */
  lemma RecoverIsOk(db: DB, t: TokenID, seen: Token)
    requires DBOk(db) && SeenOk(db, t, seen)
    ensures var reply := Recover(db, seen); reply.Accepted? ==> Believes(db, t, reply.clusterID, reply.agentID)
    ensures Live(db, seen.cluster) && seen.usedBy != "" ==> db.clusters[seen.cluster].agentID != ""
  {
    hide ConsumedAs, EventsFor;
  }

  // ------------------------------------------------------------------------------------------
  // Every step keeps the machine safe
  // ------------------------------------------------------------------------------------------

  lemma LocalLasts(db: DB, db': DB, t: TokenID, l: Local)
    requires Evolves(db, db') && LocalOk(db, t, l)
    ensures LocalOk(db', t, l)
  {
    hide ConsumedAs;
    if l.registered { ConsumptionLasts(db, db', l.clusterID, l.agentID); }
  }

  lemma StageLasts(db: DB, db': DB, t: TokenID, stage: Stage)
    requires Evolves(db, db') && StageOk(db, t, stage)
    ensures StageOk(db', t, stage)
  {
    hide ConsumedAs;
    if stage.Answered? && stage.reply.Accepted? { ConsumptionLasts(db, db', stage.reply.clusterID, stage.reply.agentID); }
  }

  lemma DBChangeIsSafe(s: State, db': DB)
    requires Safe(s) && Evolves(s.db, db') && DBOk(db')
    ensures Safe(s.(db := db'))
  {
    hide DBOk, Evolves, LocalOk, StageOk;
    forall a | a in s.agents
      ensures LocalOk(db', s.agents[a].token, s.agents[a].disk)
      ensures s.agents[a].memory.Some? ==> LocalOk(db', s.agents[a].token, s.agents[a].memory.value)
    {
      LocalLasts(s.db, db', s.agents[a].token, s.agents[a].disk);
      if s.agents[a].memory.Some? { LocalLasts(s.db, db', s.agents[a].token, s.agents[a].memory.value); }
    }
    forall r | r in s.requests
      ensures StageOk(db', s.agents[s.requests[r].agent].token, s.requests[r].stage)
    {
      StageLasts(s.db, db', s.agents[s.requests[r].agent].token, s.requests[r].stage);
    }
  }

  lemma StageChangeIsSafe(s: State, r: RequestNo, stage: Stage)
    requires Safe(s) && r in s.requests && s.requests[r].agent in s.agents
    requires StageOk(s.db, s.agents[s.requests[r].agent].token, stage) && (stage.Registering? ==> s.requests[r].agentID != "")
    ensures Safe(SetStage(s, r, stage))
  {
    hide DBOk, LocalOk, StageOk;
  }

  lemma AgentChangeIsSafe(s: State, a: AgentNo, i: Installation)
    requires Safe(s) && (a in s.agents ==> s.agents[a].token == i.token)
    requires LocalOk(s.db, i.token, i.disk) && (i.memory.Some? ==> LocalOk(s.db, i.token, i.memory.value))
    ensures Safe(SetAgent(s, a, i))
  {
    hide DBOk, LocalOk, StageOk;
  }

  lemma DropRequestIsSafe(s: State, r: RequestNo)
    requires Safe(s)
    ensures Safe(s.(requests := s.requests - {r}))
  {
    hide DBOk, LocalOk, StageOk;
  }

  lemma RequestIsOk(s: State, r: RequestNo)
    requires Safe(s) && r in s.requests
    ensures s.requests[r].agent in s.agents
    ensures StageOk(s.db, s.agents[s.requests[r].agent].token, s.requests[r].stage)
    ensures s.requests[r].stage.Registering? ==> s.requests[r].agentID != ""
  {
  }

  lemma AgentIsOk(s: State, a: AgentNo)
    requires Safe(s) && a in s.agents
    ensures LocalOk(s.db, s.agents[a].token, s.agents[a].disk)
    ensures s.agents[a].memory.Some? ==> LocalOk(s.db, s.agents[a].token, s.agents[a].memory.value)
  {
  }

  lemma DBStepIsOk(s: State, op: Op)
    requires Safe(s) && Enabled(s, op)
    requires op.CreateCluster? || op.GenerateToken? || op.RevokeToken? || op.DeleteCluster? || op.MarkDisconnected? || op.Beat?
    ensures Safe(Effect(s, op)) && Evolves(s.db, Effect(s, op).db)
  {
    hide DBOk, Evolves, AgentsOk, RequestsOk, Generate, CanInsert;
    var db' := Effect(s, op).db;
    match op {
      case CreateCluster(c) => StatusChangeIsOk(s.db, db'.clusters);
      case GenerateToken(c, t, e, existing) => GenerateIsOk(s.db, c, t, e, existing);
      case RevokeToken(t) => ActiveTokenOk(s.db, t); TokenChangeIsOk(s.db, t, db'.tokens[t]);
      case _ => StatusChangeIsOk(s.db, db'.clusters);
    }
    DBChangeIsSafe(s, db');
  }

  lemma AgentStepIsSafe(s: State, op: Op)
    requires Safe(s) && Enabled(s, op) && (op.Install? || op.Boot? || op.Stop? || op.LoseDisk?)
    ensures Safe(Effect(s, op)) && Effect(s, op).db == s.db
  {
    hide Safe, ConsumedAs;
    if !op.Install? {
      AgentIsOk(s, op.agent);
      var i := s.agents[op.agent];
      if i.disk.registered { BelievesNonEmpty(s.db, i.token, i.disk.clusterID, i.disk.agentID); }
    }
    AgentChangeIsSafe(s, op.agent, Effect(s, op).agents[op.agent]);
  }

  lemma ReceiveIsSafe(s: State, r: RequestNo, saved: bool)
    requires Safe(s) && Enabled(s, Receive(r, saved))
    ensures Safe(Effect(s, Receive(r, saved)))
  {
    hide Safe, ConsumedAs;
    RequestIsOk(s, r);
    var a := s.requests[r].agent;
    AgentIsOk(s, a);
    var reply := s.requests[r].stage.reply;
    if reply.Accepted? { BelievesNonEmpty(s.db, s.agents[a].token, reply.clusterID, reply.agentID); }
    var i := Effect(s, Receive(r, saved)).agents[a];
    AgentChangeIsSafe(s, a, i);
    DropRequestIsSafe(SetAgent(s, a, i), r);
  }

  lemma BelievesNonEmpty(db: DB, t: TokenID, c: ClusterID, id: string)
    requires Believes(db, t, c, id)
    ensures id != ""
  {
  }

  lemma LookUpIsSafe(s: State, r: RequestNo)
    requires Safe(s) && Enabled(s, LookUp(r))
    ensures Safe(Effect(s, LookUp(r)))
  {
    hide Safe, ConsumedAs;
    var q := s.requests[r];
    var t := s.agents[q.agent].token;
    if t in s.db.tokens && s.db.tokens[t].status == Active {
      assert DBOk(s.db) by { SafeHasOkTables(s); }
      hide DBOk;
      ActiveTokenOk(s.db, t);
    }
    StageChangeIsSafe(s, r, ReadToken(s.db, t, q.recover, q.agentID, s.now));
  }

  lemma SafeHasOkTables(s: State)
    requires Safe(s)
    ensures DBOk(s.db)
  {
  }

  lemma TransactIsSafe(s: State, r: RequestNo)
    requires Safe(s) && Enabled(s, Transact(r))
    ensures Safe(Effect(s, Transact(r))) && Evolves(s.db, Effect(s, Transact(r)).db)
  {
    hide Safe, Register, DBOk, Evolves, Believes, SeenOk;
    RequestIsOk(s, r);
    SafeHasOkTables(s);
    var q := s.requests[r];
    var t := s.agents[q.agent].token;
    RegisterIsOk(s.db, t, q.stage.seen, q.agentID);
    var (db, reply) := Register(s.db, t, q.stage.seen, q.agentID);
    DBChangeIsSafe(s, db);
    StageChangeIsSafe(s.(db := db), r, Answered(reply));
  }

  lemma ReadClusterIsSafe(s: State, r: RequestNo)
    requires Safe(s) && Enabled(s, ReadCluster(r))
    ensures Safe(Effect(s, ReadCluster(r)))
  {
    hide Safe, Recover, DBOk, Believes, SeenOk;
    RequestIsOk(s, r);
    SafeHasOkTables(s);
    var q := s.requests[r];
    RecoverIsOk(s.db, s.agents[q.agent].token, q.stage.seen);
    StageChangeIsSafe(s, r, Answered(Recover(s.db, q.stage.seen)));
  }

  lemma SendIsSafe(s: State, r: RequestNo, a: AgentNo, recover: bool)
    requires Safe(s) && Enabled(s, Send(r, a, recover))
    ensures Safe(Effect(s, Send(r, a, recover)))
  {
    hide DBOk, LocalOk;
  }

  lemma StepIsSafe(s: State, op: Op)
    requires Safe(s)
    ensures Safe(Step(s, op)) && Evolves(s.db, Step(s, op).db)
  {
    hide Safe, Evolves, Enabled;
    EvolvesNowhere(s.db);
    if Enabled(s, op) {
      match op
      case Install(_, _) => AgentStepIsSafe(s, op);
      case Boot(_, _, _, _) => AgentStepIsSafe(s, op);
      case Stop(_) => AgentStepIsSafe(s, op);
      case LoseDisk(_) => AgentStepIsSafe(s, op);
      case Send(r, a, recover) => SendIsSafe(s, r, a, recover);
      case LookUp(r) => LookUpIsSafe(s, r);
      case Transact(r) => TransactIsSafe(s, r);
      case ReadCluster(r) => ReadClusterIsSafe(s, r);
      case Receive(r, saved) => ReceiveIsSafe(s, r, saved);
      case Lose(r) => DropRequestIsSafe(s, r);
      case Tick(elapsed) => TickIsSafe(s, elapsed);
      case _ => DBStepIsOk(s, op);
    }
  }

  lemma TickIsSafe(s: State, elapsed: nat)
    requires Safe(s)
    ensures Safe(s.(now := s.now + elapsed))
  {
  }

  lemma StartIsSafe()
    ensures Safe(Start)
  {
  }

  lemma {:induction false} RunIsSafe(s: State, ops: seq<Op>)
    requires Safe(s)
    ensures Safe(Run(s, ops)) && Evolves(s.db, Run(s, ops).db)
    decreases |ops|
  {
    hide Safe, Evolves, Step;
    if ops == [] {
      EvolvesNowhere(s.db);
    } else {
      var init := ops[..|ops| - 1];
      RunIsSafe(s, init);
      StepIsSafe(Run(s, init), ops[|ops| - 1]);
      EvolvesTwice(s.db, Run(s, init).db, Run(s, ops).db);
    }
  }

  lemma {:induction false} RunConcat(s: State, ops: seq<Op>, more: seq<Op>)
    ensures Run(s, ops + more) == Run(Run(s, ops), more)
    decreases |more|
  {
    hide Step;
    if more == [] {
      assert ops + more == ops;
    } else {
      assert (ops + more)[..|ops + more| - 1] == ops + more[..|more| - 1];
      RunConcat(s, ops, more[..|more| - 1]);
    }
  }

  // ------------------------------------------------------------------------------------------
  // Tokens
  // ------------------------------------------------------------------------------------------

  /** From any reachable state on, a token keeps its cluster, leaves active at most once and then never
      changes again; only an active token can ever be consumed or revoked. */
  lemma TokensLeaveActiveOnce(ops: seq<Op>, more: seq<Op>, t: TokenID)
    requires t in Run(Start, ops).db.tokens
    ensures var (before, after) := (Run(Start, ops).db.tokens, Run(Start, ops + more).db.tokens);
      && t in after && after[t].cluster == before[t].cluster
      && (before[t].status != Active ==> after[t] == before[t])
  {
    hide Run, Safe;
    StartIsSafe();
    RunIsSafe(Start, ops);
    RunConcat(Start, ops, more);
    RunIsSafe(Run(Start, ops), more);
  }

  /** Over every run: a token yields one cluster.registered event exactly if it was used, no two active
      tokens share a cluster, and the cluster of a used token has an agent. */
  lemma TokensAreConsumedOnce(ops: seq<Op>)
    ensures var db := Run(Start, ops).db;
      && (forall t :: EventsFor(db.events, t) == if IsUsed(db, t) then 1 else 0)
      && (forall t, t' | t in db.tokens && t' in db.tokens && t != t' ::
            db.tokens[t].status == Active && db.tokens[t'].status == Active ==> db.tokens[t].cluster != db.tokens[t'].cluster)
      && (forall t | IsUsed(db, t) ::
            db.tokens[t].cluster in db.clusters && db.clusters[db.tokens[t].cluster].agentID != "")
  {
    hide Run, EventsFor, ConsumedAs;
    StartIsSafe();
    RunIsSafe(Start, ops);
  }

  // ------------------------------------------------------------------------------------------
  // What each endpoint accepts
  // ------------------------------------------------------------------------------------------

  /** Is a registration under way that read token `t` while it was still good? */
  predicate UnderWay(s: State, t: TokenID) {
    exists r | r in s.requests :: s.requests[r].stage.Registering? && s.requests[r].agent in s.agents
                                  && s.agents[s.requests[r].agent].token == t
  }

  /** Past its expiry, not consumed, and with no registration under way. */
  predicate Lapsed(s: State, t: TokenID) {
    t in s.db.tokens && s.db.tokens[t].status != Used && s.now > s.db.tokens[t].expiresAt && !UnderWay(s, t)
  }

  lemma SameTablesLapse(s: State, s': State, t: TokenID)
    requires Lapsed(s, t) && s'.db.tokens == s.db.tokens && s'.now >= s.now
    requires forall r | r in s'.requests && s'.requests[r].stage.Registering? :: r in s.requests && s.requests[r] == s'.requests[r]
    requires forall a | a in s'.agents :: a in s.agents ==> s'.agents[a].token == s.agents[a].token
    requires forall r | r in s.requests :: s.requests[r].agent in s.agents
    ensures Lapsed(s', t)
  {
  }

  lemma TransactLapsed(s: State, r: RequestNo, t: TokenID)
    requires Safe(s) && Lapsed(s, t) && Enabled(s, Transact(r))
    ensures Lapsed(Effect(s, Transact(r)), t)
  {
    RequestIsOk(s, r);
    hide Safe, StageOk;
    var q := s.requests[r];
    assert s.agents[q.agent].token != t;
    var s' := Effect(s, Transact(r));
    assert s'.db.tokens[t] == s.db.tokens[t];
  }

  lemma LookUpLapsed(s: State, r: RequestNo, t: TokenID)
    requires Lapsed(s, t) && Enabled(s, LookUp(r))
    ensures Lapsed(Effect(s, LookUp(r)), t)
  {
    var s' := Effect(s, LookUp(r));
    var q := s.requests[r];
    if s.agents[q.agent].token == t {
      assert !s'.requests[r].stage.Registering?;
    }
  }

  lemma TablesLapse(s: State, op: Op, t: TokenID)
    requires Safe(s) && Lapsed(s, t) && Enabled(s, op)
    requires op.CreateCluster? || op.GenerateToken? || op.RevokeToken? || op.DeleteCluster? || op.MarkDisconnected? || op.Beat?
    ensures Lapsed(Effect(s, op), t)
  {
    hide Safe, UnderWay;
    var s' := Effect(s, op);
    assert s'.requests == s.requests && s'.agents == s.agents && s'.now == s.now;
    assert UnderWay(s', t) == UnderWay(s, t) by { SameRequestsUnderWay(s, s', t); }
  }

  lemma SameRequestsUnderWay(s: State, s': State, t: TokenID)
    requires s'.requests == s.requests && s'.agents == s.agents
    ensures UnderWay(s', t) == UnderWay(s, t)
  {
  }

  lemma AgentsLapse(s: State, op: Op, t: TokenID)
    requires Safe(s) && Lapsed(s, t) && Enabled(s, op) && (op.Install? || op.Boot? || op.Stop? || op.LoseDisk?)
    ensures Lapsed(Effect(s, op), t)
  {
    assert forall r | r in s.requests :: s.requests[r].agent in s.agents;
    hide Safe, Lapsed;
    SameTablesLapse(s, Effect(s, op), t);
  }

  lemma RequestsLapse(s: State, op: Op, t: TokenID)
    requires Safe(s) && Lapsed(s, t) && Enabled(s, op) && (op.Send? || op.ReadCluster? || op.Lose? || op.Tick?)
    ensures Lapsed(Effect(s, op), t)
  {
    assert forall r | r in s.requests :: s.requests[r].agent in s.agents;
    hide Safe, Lapsed, Recover;
    SameTablesLapse(s, Effect(s, op), t);
  }

  lemma ReceiveLapses(s: State, r: RequestNo, saved: bool, t: TokenID)
    requires Safe(s) && Lapsed(s, t) && Enabled(s, Receive(r, saved))
    ensures Lapsed(Effect(s, Receive(r, saved)), t)
  {
    assert forall r | r in s.requests :: s.requests[r].agent in s.agents;
    hide Safe, Lapsed, Adopt;
    SameTablesLapse(s, Effect(s, Receive(r, saved)), t);
  }

  lemma StepLapsed(s: State, op: Op, t: TokenID)
    requires Safe(s) && Lapsed(s, t)
    ensures Lapsed(Step(s, op), t)
  {
    hide Safe, Lapsed, Enabled, Effect;
    if Enabled(s, op) {
      match op
      case Transact(r) => TransactLapsed(s, r, t);
      case LookUp(r) => LookUpLapsed(s, r, t);
      case Install(_, _) => AgentsLapse(s, op, t);
      case Boot(_, _, _, _) => AgentsLapse(s, op, t);
      case Stop(_) => AgentsLapse(s, op, t);
      case LoseDisk(_) => AgentsLapse(s, op, t);
      case Send(_, _, _) => RequestsLapse(s, op, t);
      case ReadCluster(_) => RequestsLapse(s, op, t);
      case Receive(r, saved) => ReceiveLapses(s, r, saved, t);
      case Lose(_) => RequestsLapse(s, op, t);
      case Tick(_) => RequestsLapse(s, op, t);
      case _ => TablesLapse(s, op, t);
    }
  }

  lemma {:induction false} LapsedForGood(s: State, ops: seq<Op>, t: TokenID)
    requires Safe(s) && Lapsed(s, t)
    ensures Lapsed(Run(s, ops), t)
    decreases |ops|
  {
    hide Safe, Lapsed, Step;
    if ops != [] {
      LapsedForGood(s, ops[..|ops| - 1], t);
      RunIsSafe(s, ops[..|ops| - 1]);
      StepLapsed(Run(s, ops[..|ops| - 1]), ops[|ops| - 1], t);
    }
  }

  /** Once a token is past its expiry and no registration that read it in time is still under way, it is
      never consumed on any continuation of any run. */
  lemma ExpiredTokensAreNeverConsumed(ops: seq<Op>, more: seq<Op>, t: TokenID)
    requires var s := Run(Start, ops);
      t in s.db.tokens && s.db.tokens[t].status == Active && s.now > s.db.tokens[t].expiresAt && !UnderWay(s, t)
    ensures var after := Run(Start, ops + more); t in after.db.tokens && after.db.tokens[t].status != Used
  {
    hide Run, Safe, UnderWay;
    StartIsSafe();
    RunIsSafe(Start, ops);
    RunConcat(Start, ops, more);
    LapsedForGood(Run(Start, ops), more, t);
  }

  /** The token read, for a named agent: revoked tokens and active ones past their expiry are refused by both
      endpoints, unknown ones too; a used token leads to recovery however old it is; an active one in
      time leads to registration, or to recovery where that was asked for. */
  lemma TokenReadDecides(s: State, r: RequestNo)
    requires InStage(s, r) && s.requests[r].stage.Sent? && s.requests[r].agentID != ""
    ensures var q := s.requests[r]; var (t, stage) := (s.agents[q.agent].token, Step(s, LookUp(r)).requests[r].stage);
      && (t !in s.db.tokens ==> stage == Answered(Refused(401)))
      && (t in s.db.tokens ==>
            var token := s.db.tokens[t];
            && (token.status == Revoked ==> stage == Answered(Refused(401)))
            && (token.status == Used ==> stage == Recovering(token))
            && (token.status == Active && s.now > token.expiresAt ==> stage == Answered(Refused(401)))
            && (token.status == Active && s.now <= token.expiresAt ==>
                  stage == if q.recover then Recovering(token) else Registering(token)))
    ensures Step(s, LookUp(r)).db == s.db
  {
  }

  /** A registration succeeds exactly if at that moment the cluster waits for an agent and the token is still
      active; then the cluster is connected under the agent's name and the token is used by it. Otherwise
      no table changes and the request is refused. */
  lemma RegistrationSucceedsExactly(s: State, r: RequestNo)
    requires Safe(s) && InStage(s, r) && s.requests[r].stage.Registering?
    ensures var (q, s') := (s.requests[r], Step(s, Transact(r))); var t := s.agents[q.agent].token;
      && t in s.db.tokens
      && var c := s.db.tokens[t].cluster;
         if c in s.db.clusters && (s.db.clusters[c].status == Pending || s.db.clusters[c].status == Disconnected)
            && s.db.tokens[t].status == Active
         then && s'.db.clusters == s.db.clusters[c := Cluster(Connected, q.agentID)]
              && s'.db.tokens == s.db.tokens[t := Token(c, Used, s.db.tokens[t].expiresAt, q.agentID)]
              && s'.db.events == s.db.events + [ClusterRegistered(t, c, q.agentID)]
              && s'.requests[r].stage == Answered(Accepted(c, q.agentID))
         else s'.db == s.db && s'.requests[r].stage.Answered? && s'.requests[r].stage.reply.Refused?
  {
    RequestIsOk(s, r);
    hide Safe;
  }

  /** A recovery answers with the recorded identity exactly if the cluster is live and has one. */
  lemma RecoveryAnswersExactly(s: State, r: RequestNo)
    requires Safe(s) && InStage(s, r) && s.requests[r].stage.Recovering?
    ensures var s' := Step(s, ReadCluster(r)); var t := s.agents[s.requests[r].agent].token;
      && t in s.db.tokens && s'.db == s.db
      && var c := s.db.tokens[t].cluster;
         if c in s.db.clusters && s.db.clusters[c].status != Deleted && s.db.clusters[c].agentID != ""
         then s'.requests[r].stage == Answered(Accepted(c, s.db.clusters[c].agentID))
         else s'.requests[r].stage == Answered(Refused(404))
  {
    RequestIsOk(s, r);
    SafeHasOkTables(s);
    hide Safe, EventsFor, ConsumedAs;
  }

  /** A token is issued exactly if the cluster waits for an agent; it is then the cluster's only active one,
      the former one being revoked. */
  lemma TokensAreIssuedExactly(s: State, c: ClusterID, t: TokenID, expiresAt: int, existing: Option<TokenID>)
    requires Safe(s) && Enabled(s, GenerateToken(c, t, expiresAt, existing))
    ensures var (before, after) := (s.db, Step(s, GenerateToken(c, t, expiresAt, existing)).db);
      if c in before.clusters && (before.clusters[c].status == Pending || before.clusters[c].status == Disconnected)
      then && t in after.tokens && after.tokens[t] == Token(c, Active, expiresAt, "")
           && (forall x | x in after.tokens && after.tokens[x].cluster == c && after.tokens[x].status == Active :: x == t)
           && (existing.Some? ==> existing.value in after.tokens && after.tokens[existing.value].status == Revoked)
      else after == before
  {
    SafeHasOkTables(s);
    var db := s.db;
    var revoked := if existing.Some? then SetToken(db, existing.value, Revoked) else db;
    assert CanInsert(revoked, c);
    hide Safe, EventsFor, ConsumedAs, EventsOk, TokensOk, ClustersOk;
    assert forall x | x in revoked.tokens :: !ActiveFor(revoked, x, c);
  }

  /** A heartbeat is accepted exactly from the recorded agent of a live cluster, and connects that cluster;
      any other changes nothing. */
  lemma HeartbeatsConnectExactly(s: State, c: ClusterID, agentID: string)
    ensures var after := Step(s, Beat(c, agentID));
      if c in s.db.clusters && s.db.clusters[c].status != Deleted && s.db.clusters[c].agentID == agentID && agentID != ""
      then after == s.(db := s.db.(clusters := s.db.clusters[c := Cluster(Connected, agentID)]))
      else after == s
  {
  }

  // ------------------------------------------------------------------------------------------
  // Identity
  // ------------------------------------------------------------------------------------------

  ghost predicate ConsumedAtMostOnce(db: DB, c: ClusterID) {
    forall t, t' | IsUsed(db, t) && IsUsed(db, t') && db.tokens[t].cluster == c && db.tokens[t'].cluster == c :: t == t'
  }

  lemma OneConsumptionOneName(db: DB, c: ClusterID, id: string, id': string)
    requires ConsumedAtMostOnce(db, c) && ConsumedAs(db, c, id) && ConsumedAs(db, c, id')
    ensures id == id'
  {
    var t :| ConsumedBy(db, c, t, id);
    var t' :| ConsumedBy(db, c, t', id');
    assert IsUsed(db, t) && IsUsed(db, t');
  }

  /** Through lost replies, failed saves, lost state files, restarts under new temporary names and stale
      answers: a registered agent is bound to its token's cluster, and if no second token of that
      cluster was consumed it carries exactly the identity the cluster records. */
  lemma RegisteredAgentsMatch(ops: seq<Op>, a: AgentNo)
    requires var s := Run(Start, ops); a in s.agents && s.agents[a].memory.Some? && s.agents[a].memory.value.registered
    ensures var s := Run(Start, ops); var (t, l) := (s.agents[a].token, s.agents[a].memory.value);
      && t in s.db.tokens && l.clusterID == s.db.tokens[t].cluster && l.clusterID in s.db.clusters
      && ConsumedAs(s.db, l.clusterID, l.agentID)
      && (ConsumedAtMostOnce(s.db, l.clusterID) ==> l.agentID == s.db.clusters[l.clusterID].agentID)
  {
    hide Run, Safe, ConsumedAs, ConsumedAtMostOnce;
    StartIsSafe();
    RunIsSafe(Start, ops);
    var s := Run(Start, ops);
    AgentIsOk(s, a);
    var l := s.agents[a].memory.value;
    ConsumedClusterNamed(s, l.clusterID, l.agentID);
    if ConsumedAtMostOnce(s.db, l.clusterID) {
      OneConsumptionOneName(s.db, l.clusterID, l.agentID, s.db.clusters[l.clusterID].agentID);
    }
  }

  lemma ConsumedClusterNamed(s: State, c: ClusterID, id: string)
    requires Safe(s) && ConsumedAs(s.db, c, id)
    ensures c in s.db.clusters && s.db.clusters[c].agentID != "" && ConsumedAs(s.db, c, s.db.clusters[c].agentID)
  {
    hide EventsFor;
    var t :| ConsumedBy(s.db, c, t, id);
    assert t in s.db.tokens && s.db.tokens[t].status == Used;
  }

  /** The identity recorded for a cluster never changes while only one of its tokens has been consumed. */
  lemma IdentityNeverChanges(ops: seq<Op>, more: seq<Op>, c: ClusterID)
    requires c in Run(Start, ops).db.clusters && Run(Start, ops).db.clusters[c].agentID != ""
    requires ConsumedAtMostOnce(Run(Start, ops + more).db, c)
    ensures c in Run(Start, ops + more).db.clusters
    ensures Run(Start, ops + more).db.clusters[c].agentID == Run(Start, ops).db.clusters[c].agentID
  {
    hide Run, Safe, ConsumedAtMostOnce, Evolves;
    StartIsSafe();
    RunIsSafe(Start, ops);
    RunConcat(Start, ops, more);
    RunIsSafe(Run(Start, ops), more);
    var (s, s') := (Run(Start, ops), Run(Start, ops + more));
    var id := s.db.clusters[c].agentID;
    NamedIsConsumed(s, c);
    ConsumptionLasts(s.db, s'.db, c, id);
    ConsumedClusterNamed(s', c, id);
    OneConsumptionOneName(s'.db, c, id, s'.db.clusters[c].agentID);
  }

  lemma NamedIsConsumed(s: State, c: ClusterID)
    requires Safe(s) && c in s.db.clusters && s.db.clusters[c].agentID != ""
    ensures ConsumedAs(s.db, c, s.db.clusters[c].agentID)
  {
  }

  // ------------------------------------------------------------------------------------------
  // Recovery works
  // ------------------------------------------------------------------------------------------

  /** Once its token is used, an agent that lost everything and woke up under any temporary name gets
      its recorded identity back from either endpoint, whatever else happened before. */
  lemma RecoveryRestoresIdentity(s: State, a: AgentNo, r: RequestNo, recover: bool, generated: string, saved: bool)
    requires Safe(s) && a in s.agents && r !in s.requests
    requires IsUsed(s.db, s.agents[a].token) && Live(s.db, s.db.tokens[s.agents[a].token].cluster)
    ensures var c := s.db.tokens[s.agents[a].token].cluster;
      var s' := Run(s, [Stop(a), LoseDisk(a), Boot(a, "", "", generated), Send(r, a, recover), LookUp(r), ReadCluster(r), Receive(r, saved)]);
      && a in s'.agents && s'.agents[a].memory == Some(Local(s.db.clusters[c].agentID, c, true))
      && s'.db == s.db
  {
    hide Run, Safe, DBOk, Effect, Enabled, Step;
    var t := s.agents[a].token;
    var c := s.db.tokens[t].cluster;
    var lost := Installation(t, Some(Local("agent-" + generated, "", false)), Empty);
    var s3 := LostAndBooted(s, a, generated);
    var s4 := s3.(requests := s3.requests[r := Request(a, recover, "agent-" + generated, Sent)]);
    assert s3.agents[a] == lost;
    assert Step(s3, Send(r, a, recover)) == s4 by { SendStep(s3, r, a, recover); }
    SafeHasOkTables(s);
    UsedTokenNamed(s.db, t);
    var s5 := SetStage(s4, r, Recovering(s.db.tokens[t]));
    assert Step(s4, LookUp(r)) == s5 by { LookUpStep(s4, r); }
    var reply := Accepted(c, s.db.clusters[c].agentID);
    var s6 := SetStage(s5, r, Answered(reply));
    assert Step(s5, ReadCluster(r)) == s6 by { ReadClusterStep(s5, r); }
    var s7 := Step(s6, Receive(r, saved));
    ReceiveStep(s6, r, saved);
    SevenSteps(s, [Stop(a), LoseDisk(a), Boot(a, "", "", generated), Send(r, a, recover), LookUp(r), ReadCluster(r), Receive(r, saved)]);
  }

  lemma LostAndBooted(s: State, a: AgentNo, generated: string) returns (s3: State)
    requires a in s.agents
    ensures s3 == Step(Step(Step(s, Stop(a)), LoseDisk(a)), Boot(a, "", "", generated))
    ensures s3 == SetAgent(s, a, Installation(s.agents[a].token, Some(Local("agent-" + generated, "", false)), Empty))
  {
    var s1 := Step(s, Stop(a));
    var s2 := Step(s1, LoseDisk(a));
    s3 := Step(s2, Boot(a, "", "", generated));
    var i := s.agents[a];
    assert s1 == SetAgent(s, a, Installation(i.token, None, i.disk));
    assert s2.agents == s.agents[a := Installation(i.token, None, Empty)];
    assert s3.agents == s.agents[a := Installation(i.token, Some(Local("agent-" + generated, "", false)), Empty)];
  }

  lemma SendStep(s: State, r: RequestNo, a: AgentNo, recover: bool)
    requires r !in s.requests && a in s.agents && s.agents[a].memory.Some?
    ensures Step(s, Send(r, a, recover))
         == s.(requests := s.requests[r := Request(a, recover, s.agents[a].memory.value.agentID, Sent)])
  {
  }

  lemma LookUpStep(s: State, r: RequestNo)
    requires InStage(s, r) && s.requests[r].stage.Sent? && s.requests[r].agentID != ""
    requires IsUsed(s.db, s.agents[s.requests[r].agent].token)
    ensures Step(s, LookUp(r)) == SetStage(s, r, Recovering(s.db.tokens[s.agents[s.requests[r].agent].token]))
  {
  }

  lemma ReadClusterStep(s: State, r: RequestNo)
    requires InStage(s, r) && s.requests[r].stage.Recovering? && Live(s.db, s.requests[r].stage.seen.cluster)
    requires s.db.clusters[s.requests[r].stage.seen.cluster].agentID != ""
    ensures var c := s.requests[r].stage.seen.cluster;
      Step(s, ReadCluster(r)) == SetStage(s, r, Answered(Accepted(c, s.db.clusters[c].agentID)))
  {
  }

  lemma ReceiveStep(s: State, r: RequestNo, saved: bool)
    requires InStage(s, r) && s.requests[r].stage.Answered? && s.requests[r].stage.reply.Accepted?
    requires s.agents[s.requests[r].agent].memory.Some? && s.requests[r].stage.reply.agentID != ""
    ensures var reply := s.requests[r].stage.reply; var s' := Step(s, Receive(r, saved));
      && s.requests[r].agent in s'.agents && s'.db == s.db
      && s'.agents[s.requests[r].agent].memory == Some(Local(reply.agentID, reply.clusterID, true))
  {
  }

  lemma UsedTokenNamed(db: DB, t: TokenID)
    requires DBOk(db) && IsUsed(db, t)
    ensures db.tokens[t].cluster in db.clusters && db.clusters[db.tokens[t].cluster].agentID != ""
  {
  }

  lemma SevenSteps(s: State, ops: seq<Op>)
    requires |ops| == 7
    ensures Run(s, ops) == Step(Step(Step(Step(Step(Step(Step(s, ops[0]), ops[1]), ops[2]), ops[3]), ops[4]), ops[5]), ops[6])
  {
    hide Step;
    assert ops == ops[..3] + ops[3..];
    RunConcat(s, ops[..3], ops[3..]);
    ThreeSteps(s, ops[..3]);
    var (rest, mid) := (ops[3..], Run(s, ops[..3]));
    assert rest == rest[..3] + rest[3..];
    RunConcat(mid, rest[..3], rest[3..]);
    ThreeSteps(mid, rest[..3]);
    assert rest[3..] == [ops[6]];
    OneStep(Run(mid, rest[..3]), ops[6]);
  }

  lemma OneStep(s: State, op: Op)
    ensures Run(s, [op]) == Step(s, op)
  {
    assert [op][..0] == [];
  }

  lemma ThreeSteps(s: State, ops: seq<Op>)
    requires |ops| == 3
    ensures Run(s, ops) == Step(Step(Step(s, ops[0]), ops[1]), ops[2])
  {
    hide Step;
    assert ops == [ops[0]] + [ops[1]] + [ops[2]];
    OneStep(s, ops[0]);
    RunConcat(s, [ops[0]], [ops[1]]);
    OneStep(Run(s, [ops[0]]), ops[1]);
    RunConcat(s, [ops[0]] + [ops[1]], [ops[2]]);
    OneStep(Run(s, [ops[0]] + [ops[1]]), ops[2]);
  }

  // ------------------------------------------------------------------------------------------
  // A second token
  // ------------------------------------------------------------------------------------------

  function FreshInstall(a: AgentNo, r: RequestNo, t: TokenID, generated: string): seq<Op> {
    [Install(a, t), Boot(a, "", "", generated), Send(r, a, false), LookUp(r), Transact(r), Receive(r, true)]
  }

  function AfterFreshInstall(s: State, a: AgentNo, t: TokenID, generated: string): State
    requires t in s.db.tokens
  {
    var (c, id) := (s.db.tokens[t].cluster, "agent-" + generated);
    State(DB(s.db.clusters[c := Cluster(Connected, id)],
             s.db.tokens[t := s.db.tokens[t].(status := Used, usedBy := id)],
             s.db.events + [ClusterRegistered(t, c, id)]),
          s.now,
          s.agents[a := Installation(t, Some(Local(id, c, true)), Local(id, c, true))],
          s.requests)
  }

  /** A new agent with an active token of a waiting cluster registers under the name it gave itself. */
  lemma FreshInstallRegisters(s: State, a: AgentNo, r: RequestNo, t: TokenID, generated: string)
    requires a !in s.agents && r !in s.requests
    requires t in s.db.tokens && s.db.tokens[t].status == Active && s.now <= s.db.tokens[t].expiresAt
    requires AwaitsAgent(s.db, s.db.tokens[t].cluster)
    ensures Run(s, FreshInstall(a, r, t, generated)) == AfterFreshInstall(s, a, t, generated)
  {
    var (seen, id) := (s.db.tokens[t], "agent-" + generated);
    var c := seen.cluster;
    var up := Installation(t, Some(Local(id, "", false)), Empty);
    var s2 := s.(agents := s.agents[a := up]);
    var s3 := s2.(requests := s.requests[r := Request(a, false, id, Sent)]);
    var s4 := SetStage(s3, r, Registering(seen));
    var after := AfterFreshInstall(s, a, t, generated);
    var s5 := SetStage(s4, r, Answered(Accepted(c, id))).(db := after.db);
    hide Run, Step, AfterFreshInstall;
    assert Step(Step(s, Install(a, t)), Boot(a, "", "", generated)) == s2 by { InstallAndBoot(s, a, t, generated); }
    SendStep(s2, r, a, false);
    assert Step(s3, LookUp(r)) == s4 by { LookUpActive(s3, r); }
    assert Step(s4, Transact(r)) == s5 by { TransactStep(s4, r, after.db); }
    assert Step(s5, Receive(r, true)) == after by { ReceiveFresh(s5, r, a, t, c, id); assert s5.requests - {r} == s.requests; }
    SixSteps(s, FreshInstall(a, r, t, generated));
  }

  lemma InstallAndBoot(s: State, a: AgentNo, t: TokenID, generated: string)
    requires a !in s.agents
    ensures Step(Step(s, Install(a, t)), Boot(a, "", "", generated))
         == s.(agents := s.agents[a := Installation(t, Some(Local("agent-" + generated, "", false)), Empty)])
  {
  }

  lemma LookUpActive(s: State, r: RequestNo)
    requires InStage(s, r) && s.requests[r].stage.Sent? && s.requests[r].agentID != "" && !s.requests[r].recover
    requires var t := s.agents[s.requests[r].agent].token;
      t in s.db.tokens && s.db.tokens[t].status == Active && s.now <= s.db.tokens[t].expiresAt
    ensures Step(s, LookUp(r)) == SetStage(s, r, Registering(s.db.tokens[s.agents[s.requests[r].agent].token]))
  {
  }

  lemma TransactStep(s: State, r: RequestNo, db: DB)
    requires InStage(s, r) && s.requests[r].stage.Registering?
    requires var (q, t) := (s.requests[r], s.agents[s.requests[r].agent].token);
      && t in s.db.tokens && q.stage.seen == s.db.tokens[t] && q.stage.seen.status == Active && AwaitsAgent(s.db, q.stage.seen.cluster)
      && db == DB(s.db.clusters[q.stage.seen.cluster := Cluster(Connected, q.agentID)],
                  s.db.tokens[t := q.stage.seen.(status := Used, usedBy := q.agentID)],
                  s.db.events + [ClusterRegistered(t, q.stage.seen.cluster, q.agentID)])
    ensures Step(s, Transact(r))
         == SetStage(s, r, Answered(Accepted(s.requests[r].stage.seen.cluster, s.requests[r].agentID))).(db := db)
  {
  }

  lemma ReceiveFresh(s: State, r: RequestNo, a: AgentNo, t: TokenID, c: ClusterID, id: string)
    requires InStage(s, r) && s.requests[r].agent == a && s.requests[r].stage == Answered(Accepted(c, id)) && id != ""
    requires s.agents[a].token == t && s.agents[a].memory.Some?
    ensures Step(s, Receive(r, true))
         == s.(agents := s.agents[a := Installation(t, Some(Local(id, c, true)), Local(id, c, true))], requests := s.requests - {r})
  {
  }

  lemma SixSteps(s: State, ops: seq<Op>)
    requires |ops| == 6
    ensures Run(s, ops) == Step(Step(Step(Step(Step(Step(s, ops[0]), ops[1]), ops[2]), ops[3]), ops[4]), ops[5])
  {
    hide Step;
    assert ops == ops[..3] + ops[3..];
    RunConcat(s, ops[..3], ops[3..]);
    ThreeSteps(s, ops[..3]);
    ThreeSteps(Run(s, ops[..3]), ops[3..]);
  }

  /** The proviso on tokens is needed: when a disconnected cluster is given a second token and another
      agent consumes it, the first agent still counts itself registered under a name that is no longer
      the cluster's. */
  lemma SecondTokenLeavesStaleAgent()
    returns (ops: seq<Op>)
    ensures var s := Run(Start, ops);
      && 0 in s.agents && s.agents[0].memory == Some(Local("agent-x", "c", true))
      && "c" in s.db.clusters && s.db.clusters["c"].agentID == "agent-y"
  {
    var open := [CreateCluster("c"), GenerateToken("c", "t", 9, None)];
    var reopen := [MarkDisconnected("c"), GenerateToken("c", "u", 9, None)];
    ops := open + FreshInstall(0, 0, "t", "x") + reopen + FreshInstall(1, 0, "u", "y");
    var s1 := State(DB(map["c" := Cluster(Pending, "")], map["t" := Token("c", Active, 9, "")], []), 0, map[], map[]);
    assert Run(Start, open) == s1 by { Opened(); }
    FreshInstallRegisters(s1, 0, 0, "t", "x");
    var s2 := AfterFreshInstall(s1, 0, "t", "x");
    assert "agent-" + "x" == "agent-x" && "agent-" + "y" == "agent-y";
    var s3 := State(DB(map["c" := Cluster(Disconnected, "agent-x")],
                       map["t" := Token("c", Used, 9, "agent-x"), "u" := Token("c", Active, 9, "")], s2.db.events), 0, s2.agents, map[]);
    assert Run(s2, reopen) == s3 by { Reopened(s2, s3); }
    FreshInstallRegisters(s3, 1, 0, "u", "y");
    hide Run, FreshInstall;
    RunConcat(Start, open, FreshInstall(0, 0, "t", "x"));
    RunConcat(Start, open + FreshInstall(0, 0, "t", "x"), reopen);
    RunConcat(Start, open + FreshInstall(0, 0, "t", "x") + reopen, FreshInstall(1, 0, "u", "y"));
  }

  lemma Opened()
    ensures Run(Start, [CreateCluster("c"), GenerateToken("c", "t", 9, None)])
         == State(DB(map["c" := Cluster(Pending, "")], map["t" := Token("c", Active, 9, "")], []), 0, map[], map[])
  {
    TwoSteps(Start, CreateCluster("c"), GenerateToken("c", "t", 9, None));
  }

  lemma Reopened(s: State, s': State)
    requires s.db.clusters == map["c" := Cluster(Connected, "agent-x")] && s.db.tokens == map["t" := Token("c", Used, 9, "agent-x")]
    requires s' == s.(db := DB(map["c" := Cluster(Disconnected, "agent-x")],
                               map["t" := Token("c", Used, 9, "agent-x"), "u" := Token("c", Active, 9, "")], s.db.events))
    ensures Run(s, [MarkDisconnected("c"), GenerateToken("c", "u", 9, None)]) == s'
  {
    var s1 := s.(db := s.db.(clusters := map["c" := Cluster(Disconnected, "agent-x")]));
    assert Step(s, MarkDisconnected("c")) == s1 by { DisconnectStep(s, s1); }
    assert Step(s1, GenerateToken("c", "u", 9, None)) == s' by { RegenerateStep(s1, s'); }
    hide Step;
    TwoSteps(s, MarkDisconnected("c"), GenerateToken("c", "u", 9, None));
  }

  lemma DisconnectStep(s: State, s': State)
    requires s.db.clusters == map["c" := Cluster(Connected, "agent-x")]
    requires s' == s.(db := s.db.(clusters := map["c" := Cluster(Disconnected, "agent-x")]))
    ensures Step(s, MarkDisconnected("c")) == s'
  {
    assert map["c" := Cluster(Connected, "agent-x")]["c" := Cluster(Disconnected, "agent-x")] == map["c" := Cluster(Disconnected, "agent-x")];
  }

  lemma RegenerateStep(s: State, s': State)
    requires s.db.clusters == map["c" := Cluster(Disconnected, "agent-x")] && s.db.tokens == map["t" := Token("c", Used, 9, "agent-x")]
    requires s' == s.(db := s.db.(tokens := map["t" := Token("c", Used, 9, "agent-x"), "u" := Token("c", Active, 9, "")]))
    ensures Step(s, GenerateToken("c", "u", 9, None)) == s'
  {
    assert CanInsert(s.db, "c");
    assert s.db.tokens["u" := Token("c", Active, 9, "")] == s'.db.tokens;
  }

  lemma TwoSteps(s: State, op: Op, op': Op)
    ensures Run(s, [op, op']) == Step(Step(s, op), op')
  {
    hide Step;
    assert [op, op'] == [op] + [op'];
    RunConcat(s, [op], [op']);
    OneStep(s, op);
    OneStep(Run(s, [op]), op');
  }

  // ------------------------------------------------------------------------------------------
  // The service, statement by statement
  // ------------------------------------------------------------------------------------------

  /** A sweep over `page` marks exactly its stale clusters. */
  function Swept(db: DB, page: seq<ClusterID>, stale: set<ClusterID>): DB {
    db.(clusters := map c | c in db.clusters ::
      if c in page && c in stale then db.clusters[c].(status := Disconnected) else db.clusters[c])
  }

  function StaleIn(page: seq<ClusterID>, stale: set<ClusterID>): set<ClusterID> {
    set c | c in page && c in stale
  }

  lemma SweptNone(db: DB, stale: set<ClusterID>)
    ensures Swept(db, [], stale) == db && StaleIn([], stale) == {}
  {
    assert Swept(db, [], stale).clusters == db.clusters;
  }

  lemma SweptAppend(db: DB, done: seq<ClusterID>, c: ClusterID, stale: set<ClusterID>)
    requires c in db.clusters && c !in done
    ensures Swept(db, done + [c], stale).clusters
         == if c in stale then Swept(db, done, stale).clusters[c := db.clusters[c].(status := Disconnected)]
            else Swept(db, done, stale).clusters
  {
    forall x ensures x in done + [c] <==> x in done || x == c { }
  }

  lemma StaleAppend(done: seq<ClusterID>, c: ClusterID, stale: set<ClusterID>)
    requires c !in done
    ensures |StaleIn(done + [c], stale)| == |StaleIn(done, stale)| + if c in stale then 1 else 0
  {
    if c in stale {
      assert StaleIn(done + [c], stale) == StaleIn(done, stale) + {c};
    } else {
      assert StaleIn(done + [c], stale) == StaleIn(done, stale);
    }
  }

  lemma SweptNext(db: DB, page: seq<ClusterID>, i: nat, stale: set<ClusterID>)
    requires i < |page| && page[i] in db.clusters && forall j | 0 <= j < i :: page[j] != page[i]
    ensures var (now, next) := (Swept(db, page[..i], stale), Swept(db, page[..i + 1], stale));
      && page[i] in now.clusters
      && next == (if page[i] in stale then SetStatus(now, page[i], Disconnected) else now)
      && |StaleIn(page[..i + 1], stale)| == |StaleIn(page[..i], stale)| + if page[i] in stale then 1 else 0
  {
    assert page[..i + 1] == page[..i] + [page[i]];
    assert page[i] !in page[..i];
    SweptAppend(db, page[..i], page[i], stale);
    StaleAppend(page[..i], page[i], stale);
    UnsweptIsSame(db, page[..i], page[i], stale);
    hide StaleIn;
  }

  lemma UnsweptIsSame(db: DB, done: seq<ClusterID>, c: ClusterID, stale: set<ClusterID>)
    requires c in db.clusters && c !in done
    ensures c in Swept(db, done, stale).clusters && Swept(db, done, stale).clusters[c] == db.clusters[c]
    ensures Swept(db, done, stale).tokens == db.tokens && Swept(db, done, stale).events == db.events
  {
  }

  class ClusterService {
    var clusters: map<ClusterID, Cluster>
    var tokens: map<TokenID, Token>
    var events: seq<Event>

    ghost function Tables(): DB
      reads this
    {
      DB(clusters, tokens, events)
    }

    constructor ()
      ensures Tables() == Start.db
    {
      clusters, tokens, events := map[], map[], [];
    }

    method GetActiveByCluster(c: ClusterID) returns (found: Option<TokenID>)
      ensures if found.Some? then ActiveFor(Tables(), found.value, c) else CanInsert(Tables(), c)
    {
      var left := tokens.Keys;
      while left != {}
        invariant left <= tokens.Keys && forall t | t in tokens && t !in left :: !ActiveFor(Tables(), t, c)
        decreases |left|
      {
        var t :| t in left;
        if tokens[t].cluster == c && tokens[t].status == Active {
          return Some(t);
        }
        left := left - {t};
      }
      found := None;
    }

    /** A refused insert rolls the revocation back too. */
    method GenerateRegistrationToken(c: ClusterID, t: TokenID, expiresAt: int) returns (ok: bool)
      requires t !in tokens
      modifies this
      ensures exists existing: Option<TokenID> ::
        && (if existing.Some? then ActiveFor(old(Tables()), existing.value, c) else CanInsert(old(Tables()), c))
        && Tables() == Generate(old(Tables()), c, t, expiresAt, existing)
      ensures ok <==> Tables() != old(Tables())
    {
      hide CanInsert;
      var existing := GetActiveByCluster(c);
      ghost var before := Tables();
      if c !in clusters || clusters[c].status !in {Pending, Disconnected} {
        assert Tables() == Generate(before, c, t, expiresAt, existing);
        return false;
      }
      var kept := tokens;
      if existing.Some? {
        tokens := tokens[existing.value := tokens[existing.value].(status := Revoked)];
      }
      var other := GetActiveByCluster(c);
      if other.Some? {
        tokens := kept;
        assert !CanInsert(if existing.Some? then SetToken(before, existing.value, Revoked) else before, c) by {
          NotInsertable(if existing.Some? then SetToken(before, existing.value, Revoked) else before, c, other.value);
        }
        assert Tables() == Generate(before, c, t, expiresAt, existing);
        return false;
      }
      tokens := tokens[t := Token(c, Active, expiresAt, "")];
      assert Tables() == Generate(before, c, t, expiresAt, existing);
      assert t in tokens && t !in before.tokens;
      ok := true;
    }

    method RevokeRegistrationToken(t: TokenID) returns (ok: bool)
      modifies this
      ensures ok <==> t in old(tokens) && old(tokens[t]).status == Active
      ensures Tables() == if ok then SetToken(old(Tables()), t, Revoked) else old(Tables())
    {
      ok := t in tokens && tokens[t].status == Active;
      if ok {
        tokens := tokens[t := tokens[t].(status := Revoked)];
      }
    }

    method LookUpToken(t: TokenID, recover: bool, agentID: string, now: int) returns (stage: Stage)
      ensures stage == ReadToken(Tables(), t, recover, agentID, now)
      ensures t in tokens && tokens[t].status == Active && now > tokens[t].expiresAt ==> stage.Answered? && stage.reply.Refused?
    {
      if !recover && agentID == "" {
        return Answered(Refused(400));
      }
      if t !in tokens {
        return Answered(Refused(UNAUTHORIZED));
      }
      var seen := tokens[t];
      if seen.status == Revoked {
        return Answered(Refused(UNAUTHORIZED));
      }
      if seen.status == Used {
        return Recovering(seen);
      }
      if now > seen.expiresAt {
        return Answered(Refused(UNAUTHORIZED));
      }
      if recover {
        return Recovering(seen);
      }
      stage := Registering(seen);
    }

    method RegisterAgent(t: TokenID, seen: Token, agentID: string) returns (reply: Reply)
      modifies this
      ensures (Tables(), reply) == Register(old(Tables()), t, seen, agentID)
    {
      var c := seen.cluster;
      if c !in clusters || clusters[c].status == Deleted {
        return Refused(NOT_FOUND);
      }
      if clusters[c].status !in {Pending, Disconnected} {
        return Refused(CONFLICT);
      }
      if t !in tokens || tokens[t].status != Active {
        return Refused(NOT_FOUND);
      }
      tokens := tokens[t := tokens[t].(status := Used, usedBy := agentID)];
      clusters := clusters[c := Cluster(Connected, agentID)];
      events := events + [ClusterRegistered(t, c, agentID)];
      reply := Accepted(c, agentID);
    }

    method RecoverRegisteredCluster(seen: Token) returns (reply: Reply)
      ensures reply == Recover(Tables(), seen)
    {
      var c := seen.cluster;
      if c !in clusters || clusters[c].status == Deleted {
        return Refused(NOT_FOUND);
      }
      var stable := clusters[c].agentID;
      if stable == "" {
        stable := seen.usedBy;
      }
      if stable == "" {
        return Refused(NOT_FOUND);
      }
      reply := Accepted(c, clusters[c].agentID);
    }

    method RecordHeartbeat(c: ClusterID, agentID: string) returns (reply: Reply)
      modifies this
      ensures (Tables(), reply) == Heartbeat(old(Tables()), c, agentID)
    {
      if c !in clusters {
        return Refused(UNAUTHORIZED);
      }
      if clusters[c].status == Deleted || clusters[c].agentID == "" {
        return Refused(FORBIDDEN);
      }
      if clusters[c].agentID != agentID {
        return Refused(UNAUTHORIZED);
      }
      clusters := clusters[c := clusters[c].(status := Connected)];
      reply := Accepted(c, agentID);
    }

    /** `page` is the first page of connected clusters; the count is of those marked. */
    method MarkAllDisconnected(page: seq<ClusterID>, stale: set<ClusterID>) returns (count: nat)
      requires forall i | 0 <= i < |page| :: page[i] in clusters && clusters[page[i]].status == Connected
      requires forall i, j | 0 <= i < j < |page| :: page[i] != page[j]
      modifies this
      ensures Tables() == Swept(old(Tables()), page, stale)
      ensures count == |StaleIn(page, stale)|
    {
      count := 0;
      ghost var before := Tables();
      hide Swept, StaleIn;
      SweptNone(before, stale);
      for i := 0 to |page|
        invariant Tables() == Swept(before, page[..i], stale) && clusters.Keys == before.clusters.Keys
        invariant count == |StaleIn(page[..i], stale)|
      {
        SweptNext(before, page, i, stale);
        if page[i] in stale {
          clusters := clusters[page[i] := clusters[page[i]].(status := Disconnected)];
          count := count + 1;
        }
      }
      assert page[..|page|] == page;
    }

    method DeleteCluster(c: ClusterID) returns (found: bool)
      modifies this
      ensures found <==> Live(old(Tables()), c)
      ensures Tables() == if found then SetStatus(old(Tables()), c, Deleted) else old(Tables())
    {
      found := c in clusters && clusters[c].status != Deleted;
      if found {
        clusters := clusters[c := clusters[c].(status := Deleted)];
      }
    }
  }

  lemma NotInsertable(db: DB, c: ClusterID, t: TokenID)
    requires ActiveFor(db, t, c)
    ensures !CanInsert(db, c)
  {
  }
}
