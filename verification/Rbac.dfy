/** Role-based permission checks with a bounded, expiring cache of verdicts, compared with evaluating
    every check from the role assignments. */
module Rbac {
  type Permission = string

  /** `projectID` is empty for an organisation-level assignment. */
  datatype Assignment = Assignment(userID: string, roleID: string, orgID: string, projectID: string)

  datatype Request = Request(userID: string, orgID: string, projectID: string, perm: Permission)

  datatype Entry = Entry(allowed: bool, expiresAt: int)

  datatype Config = Config(ttl: int, maxSize: nat)

  /** Role definitions by ID, system roles and custom roles together. */
  type Roles = map<string, seq<Permission>>

  /** What the engine changes: the assignment store and the verdict cache. */
  datatype State = State(assignments: seq<Assignment>, cache: map<string, Entry>)

  // ------------------------------------------------------------------------------------------
  // Evaluation without a cache
  // ------------------------------------------------------------------------------------------

  /** The resource part of `resource:action`; none without a colon. */
  function Wildcard(perm: Permission): (w: Permission)
  {
    var i := FirstColon(perm, 0);
    if i == |perm| then "" else perm[..i] + ":*"
  }

  function FirstColon(s: string, i: nat): (j: nat)
    requires i <= |s|
    ensures i <= j <= |s| && (forall k | i <= k < j :: s[k] != ':') && (j < |s| ==> s[j] == ':')
    decreases |s| - i
  {
    if i == |s| || s[i] == ':' then i else FirstColon(s, i + 1)
  }

  /** Does holding permission `p` cover a request for `perm`? */
  predicate Covers(p: Permission, perm: Permission) {
    p == "*:*" || p == perm || (':' in perm && p == Wildcard(perm))
  }

  predicate HasPermission(permissions: seq<Permission>, perm: Permission) {
    exists p | p in permissions :: Covers(p, perm)
  }

  predicate Applies(a: Assignment, r: Request) {
    && a.userID == r.userID && a.orgID == r.orgID
    && (a.projectID == "" || a.projectID == r.projectID)
  }

  predicate Grants(roles: Roles, a: Assignment, perm: Permission) {
    a.roleID in roles && HasPermission(roles[a.roleID], perm)
  }

  predicate Allowed(roles: Roles, assignments: seq<Assignment>, r: Request) {
    exists a | a in assignments :: Applies(a, r) && Grants(roles, a, r.perm)
  }

  // ------------------------------------------------------------------------------------------
  // The cache
  // ------------------------------------------------------------------------------------------

  function CacheKey(r: Request): string {
    r.userID + ":" + r.orgID + ":" + r.projectID + ":" + r.perm
  }

  predicate OccursAt(s: string, p: string, i: nat) {
    i + |p| <= |s| && s[i..i + |p|] == p
  }

  predicate Contains(s: string, p: string) {
    exists i: nat | i <= |s| :: OccursAt(s, p, i)
  }

  ghost predicate IsOldest(cache: map<string, Entry>, key: string) {
    key in cache && forall k | k in cache :: cache[key].expiresAt <= cache[k].expiresAt
  }

  /** Storing a verdict: a full cache first loses one entry that expires no later than any other. */
  ghost predicate Stores(cfg: Config, cache: map<string, Entry>, key: string, e: Entry, cache': map<string, Entry>) {
    if |cache| >= cfg.maxSize && cache != map[] then
      exists victim :: IsOldest(cache, victim) && cache' == (cache - {victim})[key := e]
    else
      cache' == cache[key := e]
  }

  function Invalidate(cache: map<string, Entry>, userID: string): map<string, Entry> {
    map key | key in cache && !Contains(key, userID) :: cache[key]
  }

  predicate Hit(cache: map<string, Entry>, key: string, now: int) {
    key in cache && now <= cache[key].expiresAt
  }

  // ------------------------------------------------------------------------------------------
  // The engine
  // ------------------------------------------------------------------------------------------

  datatype Op =
    | Check(r: Request, now: int, verdict: bool)
    | Assign(a: Assignment)
    | Revoke(userID: string, roleID: string, orgID: string, projectID: string)

  predicate Revokes(op: Op, a: Assignment)
    requires op.Revoke?
  {
    a == Assignment(op.userID, op.roleID, op.orgID, op.projectID)
  }

  ghost predicate Step(roles: Roles, cfg: Config, s: State, op: Op, s': State) {
    match op
    case Check(r, now, verdict) =>
      var key := CacheKey(r);
      && s'.assignments == s.assignments
      && if Hit(s.cache, key, now) then verdict == s.cache[key].allowed && s' == s
         else && verdict == Allowed(roles, s.assignments, r)
              && Stores(cfg, s.cache, key, Entry(verdict, now + cfg.ttl), s'.cache)
    case Assign(a) =>
      s' == State(s.assignments + [a], Invalidate(s.cache, a.userID))
    case Revoke(userID, _, _, _) =>
      && (forall a :: a in s'.assignments <==> a in s.assignments && !Revokes(op, a))
      && s'.cache == Invalidate(s.cache, userID)
  }

  class RBACEngine {
    const roles: Roles
    const cfg: Config
    var assignments: seq<Assignment>
    var entries: map<string, Entry>

    ghost function Now(): State
      reads this
    {
      State(assignments, entries)
    }

    constructor (roles: Roles, cfg: Config)
      ensures this.roles == roles && this.cfg == cfg && Now() == State([], map[])
    {
      this.roles, this.cfg := roles, cfg;
      assignments, entries := [], map[];
    }

    /** The organisation-level assignments, then the project's if a project is named. */
    method ApplicableAssignments(r: Request) returns (found: seq<Assignment>)
      ensures forall a :: a in found <==> a in assignments && Applies(a, r)
    {
      found := [];
      for i := 0 to |assignments|
        invariant forall a :: a in found <==> a in assignments[..i] && Applies(a, r) && a.projectID == ""
      {
        var a := assignments[i];
        if a.userID == r.userID && a.orgID == r.orgID && a.projectID == "" {
          found := found + [a];
        }
      }
      if r.projectID != "" {
        for i := 0 to |assignments|
          invariant forall a :: a in found <==>
            || (a in assignments && Applies(a, r) && a.projectID == "")
            || (a in assignments[..i] && Applies(a, r) && a.projectID != "")
        {
          var a := assignments[i];
          if a.userID == r.userID && a.orgID == r.orgID && a.projectID == r.projectID {
            found := found + [a];
          }
        }
      }
    }

    method CheckPermission(r: Request, now: int) returns (allowed: bool)
      modifies this`entries
      ensures Step(roles, cfg, old(Now()), Check(r, now, allowed), Now())
    {
      var cacheKey := CacheKey(r);
      if cacheKey in entries && now <= entries[cacheKey].expiresAt {
        return entries[cacheKey].allowed;
      }
      var found := ApplicableAssignments(r);
      allowed := false;
      for i := 0 to |found|
        invariant entries == old(entries)
        invariant allowed <==> exists j | 0 <= j < i :: Grants(roles, found[j], r.perm)
      {
        if found[i].roleID in roles && !allowed {
          allowed := RoleHasPermission(roles[found[i].roleID], r.perm);
        }
      }
      assert allowed == Allowed(roles, assignments, r);
      assert !Hit(old(entries), cacheKey, now) && entries == old(entries);
      SetEntry(cacheKey, allowed, now);
      assert Stores(cfg, old(entries), cacheKey, Entry(allowed, now + cfg.ttl), entries);
      hide Stores, Allowed;
    }

    method SetEntry(key: string, allowed: bool, now: int)
      modifies this`entries
      ensures Stores(cfg, old(entries), key, Entry(allowed, now + cfg.ttl), entries)
    {
      if |entries| >= cfg.maxSize && entries != map[] {
        var oldest := OldestKey(entries);
        entries := entries - {oldest};
      }
      entries := entries[key := Entry(allowed, now + cfg.ttl)];
    }

    method AssignRole(a: Assignment)
      modifies this
      ensures Step(roles, cfg, old(Now()), Assign(a), Now())
    {
      assignments := assignments + [a];
      InvalidateUser(a.userID);
    }

    method RevokeRole(userID: string, roleID: string, orgID: string, projectID: string)
      modifies this
      ensures Step(roles, cfg, old(Now()), Revoke(userID, roleID, orgID, projectID), Now())
    {
      var revoked := Assignment(userID, roleID, orgID, projectID);
      var kept: seq<Assignment> := [];
      for i := 0 to |assignments|
        invariant forall a :: a in kept <==> a in assignments[..i] && a != revoked
      {
        if assignments[i] != revoked {
          kept := kept + [assignments[i]];
        }
      }
      assignments := kept;
      InvalidateUser(userID);
    }

    method InvalidateUser(userID: string)
      modifies this`entries
      ensures entries == Invalidate(old(entries), userID)
    {
      var todo := entries.Keys;
      while todo != {}
        invariant todo <= old(entries).Keys && entries.Keys <= old(entries).Keys
        invariant forall k | k in old(entries) :: k in entries <==> k in todo || !Contains(k, userID)
        invariant forall k | k in entries :: entries[k] == old(entries)[k]
        decreases |todo|
      {
        var key :| key in todo;
        if Contains(key, userID) {
          entries := entries - {key};
        }
        todo := todo - {key};
      }
    }

    /** Every permission the user holds: a request is allowed exactly when one of them covers it. */
    method GetUserPermissions(userID: string, orgID: string, projectID: string) returns (held: set<Permission>)
      ensures forall perm :: Allowed(roles, assignments, Request(userID, orgID, projectID, perm))
                             <==> exists p | p in held :: Covers(p, perm)
      ensures forall p :: p in held <==>
        exists a | a in assignments :: Reaches(a, userID, orgID, projectID) && a.roleID in roles && p in roles[a.roleID]
    {
      var who := Request(userID, orgID, projectID, "");
      var found := ApplicableAssignments(who);
      held := {};
      for i := 0 to |found|
        invariant forall p :: p in held <==>
          exists j | 0 <= j < i :: found[j].roleID in roles && p in roles[found[j].roleID]
      {
        if found[i].roleID in roles {
          held := held + set p | p in roles[found[i].roleID];
        }
      }
      forall perm
        ensures Allowed(roles, assignments, Request(userID, orgID, projectID, perm))
                <==> exists p | p in held :: Covers(p, perm)
      {
        var r := Request(userID, orgID, projectID, perm);
        if a :| a in assignments && Applies(a, r) && Grants(roles, a, perm) {
          assert Applies(a, who) && a in found;
          var p :| p in roles[a.roleID] && Covers(p, perm);
          assert p in held;
        }
        if p :| p in held && Covers(p, perm) {
          var j :| 0 <= j < |found| && found[j].roleID in roles && p in roles[found[j].roleID];
          assert found[j] in assignments && Applies(found[j], r) && Grants(roles, found[j], perm);
        }
      }
    }
  }

  method RoleHasPermission(permissions: seq<Permission>, perm: Permission) returns (has: bool)
    ensures has == HasPermission(permissions, perm)
  {
    for i := 0 to |permissions|
      invariant forall j | 0 <= j < i :: !Covers(permissions[j], perm)
    {
      var p := permissions[i];
      if p == "*:*" || p == perm {
        assert Covers(p, perm);
        return true;
      }
      var colon := FirstColon(perm, 0);
      if colon < |perm| && p == perm[..colon] + ":*" {
        assert perm[colon] in perm && Covers(p, perm);
        return true;
      }
    }
    has := false;
  }

  method OldestKey(cache: map<string, Entry>) returns (key: string)
    requires cache != map[]
    ensures IsOldest(cache, key)
  {
    var todo := cache.Keys;
    key :| key in todo;
    todo := todo - {key};
    while todo != {}
      invariant todo <= cache.Keys && key in cache
      invariant forall k | k in cache && k !in todo :: cache[key].expiresAt <= cache[k].expiresAt
      decreases |todo|
    {
      var k :| k in todo;
      if cache[k].expiresAt < cache[key].expiresAt {
        key := k;
      }
      todo := todo - {k};
    }
  }

  // ------------------------------------------------------------------------------------------
  // Cache keys
  // ------------------------------------------------------------------------------------------

  ghost predicate ColonFree(s: string) { ':' !in s }

  /** The identifiers that precede the permission in a cache key contain no colon. */
  ghost predicate Plain(r: Request) {
    ColonFree(r.userID) && ColonFree(r.orgID) && ColonFree(r.projectID)
  }

  lemma FirstFieldIsUnique(a: string, rest: string, a': string, rest': string)
    requires ColonFree(a) && ColonFree(a') && a + ":" + rest == a' + ":" + rest'
    ensures a == a' && rest == rest'
  {
    var s := a + ":" + rest;
    assert s[|a|] == ':' && (a' + ":" + rest')[|a'|] == ':';
    assert forall i | 0 <= i < |a| :: s[i] == a[i];
    assert forall i | 0 <= i < |a'| :: s[i] == a'[i];
    assert |a| == |a'|;
    assert a == s[..|a|] == a';
    assert rest == s[|a| + 1..] == rest';
  }

  /** With colon-free identifiers a cache key belongs to one request only. */
  lemma CacheKeysAreRequests(r: Request, r': Request)
    requires Plain(r) && Plain(r')
    ensures CacheKey(r) == CacheKey(r') <==> r == r'
  {
    if CacheKey(r) == CacheKey(r') {
      var (t3, t3') := (r.projectID + ":" + r.perm, r'.projectID + ":" + r'.perm);
      var (t2, t2') := (r.orgID + ":" + t3, r'.orgID + ":" + t3');
      assert CacheKey(r) == r.userID + ":" + t2 && CacheKey(r') == r'.userID + ":" + t2';
      FirstFieldIsUnique(r.userID, t2, r'.userID, t2');
      FirstFieldIsUnique(r.orgID, t3, r'.orgID, t3');
      FirstFieldIsUnique(r.projectID, r.perm, r'.projectID, r'.perm);
    }
  }

  lemma KeyContainsUser(r: Request)
    ensures Contains(CacheKey(r), r.userID)
  {
    assert OccursAt(CacheKey(r), r.userID, 0);
  }

  // ------------------------------------------------------------------------------------------
  // Coherence
  // ------------------------------------------------------------------------------------------

  ghost predicate IsVerdict(roles: Roles, assignments: seq<Assignment>, key: string, allowed: bool, r: Request) {
    Plain(r) && key == CacheKey(r) && allowed == Allowed(roles, assignments, r)
  }

  /** Every cached verdict, expired or not, is what evaluation would say now. */
  ghost predicate Coherent(roles: Roles, s: State) {
    forall key | key in s.cache :: exists r :: IsVerdict(roles, s.assignments, key, s.cache[key].allowed, r)
  }

  ghost predicate PlainOp(op: Op) { op.Check? ==> Plain(op.r) }

  lemma StoreKeepsCoherence(roles: Roles, cfg: Config, s: State, r: Request, e: Entry, cache': map<string, Entry>)
    requires Coherent(roles, s) && Plain(r) && e.allowed == Allowed(roles, s.assignments, r)
    requires Stores(cfg, s.cache, CacheKey(r), e, cache')
    ensures Coherent(roles, State(s.assignments, cache'))
  {
    hide Allowed, CacheKey;
    assert IsVerdict(roles, s.assignments, CacheKey(r), e.allowed, r);
    forall key | key in cache'
      ensures exists r :: IsVerdict(roles, s.assignments, key, cache'[key].allowed, r)
    {
      if key != CacheKey(r) {
        assert key in s.cache && cache'[key] == s.cache[key];
      }
    }
  }

  lemma InvalidationKeepsCoherence(roles: Roles, s: State, assignments': seq<Assignment>, userID: string)
    requires Coherent(roles, s)
    requires forall a: Assignment | a.userID != userID :: a in assignments' <==> a in s.assignments
    ensures Coherent(roles, State(assignments', Invalidate(s.cache, userID)))
  {
    var cache' := Invalidate(s.cache, userID);
    forall key | key in cache'
      ensures exists r :: IsVerdict(roles, assignments', key, cache'[key].allowed, r)
    {
      var r :| IsVerdict(roles, s.assignments, key, s.cache[key].allowed, r);
      KeyContainsUser(r);
      assert r.userID != userID;
      assert forall a | Applies(a, r) :: a in assignments' <==> a in s.assignments;
      assert IsVerdict(roles, assignments', key, cache'[key].allowed, r);
    }
  }

  lemma StepIsSound(roles: Roles, cfg: Config, s: State, op: Op, s': State)
    requires Coherent(roles, s) && PlainOp(op) && Step(roles, cfg, s, op, s')
    ensures Coherent(roles, s')
    ensures op.Check? ==> op.verdict == Allowed(roles, s.assignments, op.r)
  {
    hide Coherent, Allowed, Invalidate, CacheKey, Stores;
    match op
    case Check(r, now, verdict) =>
      if Hit(s.cache, CacheKey(r), now) {
        HitIsVerdict(roles, s, r);
      } else {
        StoreKeepsCoherence(roles, cfg, s, r, Entry(verdict, now + cfg.ttl), s'.cache);
        assert s' == State(s.assignments, s'.cache);
      }
    case Assign(a) =>
      InvalidationKeepsCoherence(roles, s, s.assignments + [a], a.userID);
    case Revoke(userID, _, _, _) =>
      InvalidationKeepsCoherence(roles, s, s'.assignments, userID);
      assert s' == State(s'.assignments, Invalidate(s.cache, userID));
  }

  lemma HitIsVerdict(roles: Roles, s: State, r: Request)
    requires Coherent(roles, s) && Plain(r) && CacheKey(r) in s.cache
    ensures s.cache[CacheKey(r)].allowed == Allowed(roles, s.assignments, r)
  {
    hide Allowed;
    var r' :| IsVerdict(roles, s.assignments, CacheKey(r), s.cache[CacheKey(r)].allowed, r');
    CacheKeysAreRequests(r, r');
  }

  /** A run: `states[i]` to `states[i + 1]` by `ops[i]`, from an empty cache. */
  ghost predicate IsRun(roles: Roles, cfg: Config, states: seq<State>, ops: seq<Op>) {
    && |states| == |ops| + 1
    && states[0].cache == map[]
    && forall i | 0 <= i < |ops| :: PlainOp(ops[i]) && Step(roles, cfg, states[i], ops[i], states[i + 1])
  }

  lemma {:induction false} RunIsCoherent(roles: Roles, cfg: Config, states: seq<State>, ops: seq<Op>, i: nat)
    requires IsRun(roles, cfg, states, ops) && i <= |ops|
    ensures Coherent(roles, states[i])
  {
    if i > 0 {
      RunIsCoherent(roles, cfg, states, ops, i - 1);
      StepIsSound(roles, cfg, states[i - 1], ops[i - 1], states[i]);
    }
  }

  /** Over any run of checks, assignments, revocations, expiries and evictions, every check answers as
      evaluation without a cache would at that moment. */
  lemma ChecksAreUncachedEvaluation(roles: Roles, cfg: Config, states: seq<State>, ops: seq<Op>, i: nat)
    requires IsRun(roles, cfg, states, ops) && i < |ops| && ops[i].Check?
    ensures ops[i].verdict == Allowed(roles, states[i].assignments, ops[i].r)
  {
    RunIsCoherent(roles, cfg, states, ops, i);
    StepIsSound(roles, cfg, states[i], ops[i], states[i + 1]);
  }

  lemma StoreKeepsSize(cfg: Config, cache: map<string, Entry>, key: string, e: Entry, cache': map<string, Entry>)
    requires Stores(cfg, cache, key, e, cache') && |cache| <= cfg.maxSize && cfg.maxSize >= 1
    ensures |cache'| <= cfg.maxSize
  {
    hide IsOldest;
    if |cache| >= cfg.maxSize {
      var victim :| IsOldest(cache, victim) && cache' == (cache - {victim})[key := e];
      VictimIsThere(cache, victim);
      assert cache'.Keys == cache.Keys - {victim} + {key};
      assert |cache.Keys - {victim}| == |cache.Keys| - 1;
    } else {
      assert cache'.Keys == cache.Keys + {key};
    }
  }

  lemma VictimIsThere(cache: map<string, Entry>, victim: string)
    requires IsOldest(cache, victim)
    ensures victim in cache
  {
  }

  lemma StepKeepsSize(roles: Roles, cfg: Config, s: State, op: Op, s': State)
    requires Step(roles, cfg, s, op, s') && |s.cache| <= cfg.maxSize && cfg.maxSize >= 1
    ensures |s'.cache| <= cfg.maxSize
  {
    hide Allowed, CacheKey, Contains, Stores;
    match op
    case Check(r, now, verdict) =>
      if !Hit(s.cache, CacheKey(r), now) {
        StoreKeepsSize(cfg, s.cache, CacheKey(r), Entry(verdict, now + cfg.ttl), s'.cache);
      }
    case Assign(a) =>
      SubsetIsSmaller(s'.cache.Keys, s.cache.Keys);
    case Revoke(userID, _, _, _) =>
      SubsetIsSmaller(s'.cache.Keys, s.cache.Keys);
  }

  lemma {:induction false} SubsetIsSmaller(a: set<string>, b: set<string>)
    requires a <= b
    ensures |a| <= |b|
  {
    if a != {} {
      var x :| x in a;
      SubsetIsSmaller(a - {x}, b - {x});
    }
  }

  /** The cache never holds more than maxSize entries. */
  lemma {:induction false} CacheStaysBounded(roles: Roles, cfg: Config, states: seq<State>, ops: seq<Op>, i: nat)
    requires IsRun(roles, cfg, states, ops) && i <= |ops| && cfg.maxSize >= 1
    ensures |states[i].cache| <= cfg.maxSize
  {
    if i > 0 {
      CacheStaysBounded(roles, cfg, states, ops, i - 1);
      StepKeepsSize(roles, cfg, states[i - 1], ops[i - 1], states[i]);
    }
  }

  // ------------------------------------------------------------------------------------------
  // Who is allowed what
  // ------------------------------------------------------------------------------------------

  /** Is `i` the first colon of `s`? */
  predicate ColonAt(s: string, i: nat) {
    i < |s| && s[i] == ':' && forall k | 0 <= k < i :: s[k] != ':'
  }

  /** Does role `roleID` list everything, the permission itself, or its whole resource? */
  ghost predicate Lists(roles: Roles, roleID: string, perm: Permission) {
    && roleID in roles
    && (|| "*:*" in roles[roleID]
        || perm in roles[roleID]
        || exists i: nat :: ColonAt(perm, i) && perm[..i] + ":*" in roles[roleID])
  }

  /** An assignment counts for a request of its user in its organisation, and if it is bound to a project
      only for requests that name that project. */
  predicate Reaches(a: Assignment, userID: string, orgID: string, projectID: string) {
    a.userID == userID && a.orgID == orgID && (a.projectID == "" || (projectID != "" && a.projectID == projectID))
  }

  ghost predicate Entitled(roles: Roles, assignments: seq<Assignment>, r: Request) {
    exists a | a in assignments :: Reaches(a, r.userID, r.orgID, r.projectID) && Lists(roles, a.roleID, r.perm)
  }

  lemma FirstColonIs(s: string, i: nat)
    requires ColonAt(s, i)
    ensures FirstColon(s, 0) == i
  {
  }

  lemma CoversExactly(p: Permission, perm: Permission)
    ensures Covers(p, perm) <==> p == "*:*" || p == perm || exists i: nat :: ColonAt(perm, i) && p == perm[..i] + ":*"
  {
    var j := FirstColon(perm, 0);
    if j < |perm| {
      assert ColonAt(perm, j) && perm[j] in perm;
    }
    if i: nat :| ColonAt(perm, i) && p == perm[..i] + ":*" {
      FirstColonIs(perm, i);
    }
  }

  lemma GrantsExactly(roles: Roles, a: Assignment, perm: Permission)
    ensures Grants(roles, a, perm) <==> Lists(roles, a.roleID, perm)
  {
    forall p ensures Covers(p, perm) <==> p == "*:*" || p == perm || exists i: nat :: ColonAt(perm, i) && p == perm[..i] + ":*" {
      CoversExactly(p, perm);
    }
    hide Covers, ColonAt;
  }

  lemma AllowedExactly(roles: Roles, assignments: seq<Assignment>, r: Request)
    ensures Allowed(roles, assignments, r) <==> Entitled(roles, assignments, r)
  {
    forall a ensures Grants(roles, a, r.perm) <==> Lists(roles, a.roleID, r.perm) { GrantsExactly(roles, a, r.perm); }
    hide Grants, Lists;
  }

  /** Over any run, a check says yes exactly if some stored assignment of that user in that organisation,
      made for the organisation or for the very project asked about, has a role that lists everything, the
      permission, or its resource. */
  lemma ChecksAllowTheEntitled(roles: Roles, cfg: Config, states: seq<State>, ops: seq<Op>, i: nat)
    requires IsRun(roles, cfg, states, ops) && i < |ops| && ops[i].Check?
    ensures ops[i].verdict <==> Entitled(roles, states[i].assignments, ops[i].r)
  {
    hide Allowed, Entitled, Step;
    ChecksAreUncachedEvaluation(roles, cfg, states, ops, i);
    AllowedExactly(roles, states[i].assignments, ops[i].r);
  }

  /** An organisation-level role counts in every project and without one; a project's role only there; a
      role of another organisation or another user nowhere. */
  lemma RoleScopes(roles: Roles, a: Assignment, r: Request)
    requires Lists(roles, a.roleID, r.perm)
    ensures Allowed(roles, [a], r) <==>
      a.userID == r.userID && a.orgID == r.orgID && (a.projectID == "" || a.projectID == r.projectID)
    ensures a.userID == r.userID && a.orgID == r.orgID && a.projectID == "" ==>
      forall p :: Allowed(roles, [a], r.(projectID := p))
    ensures a.projectID != "" ==> forall p | p != a.projectID :: !Allowed(roles, [a], r.(projectID := p))
    ensures a.orgID != r.orgID ==> forall p :: !Allowed(roles, [a], r.(projectID := p))
  {
    forall p ensures Allowed(roles, [a], r.(projectID := p)) <==> Entitled(roles, [a], r.(projectID := p)) {
      AllowedExactly(roles, [a], r.(projectID := p));
    }
    assert r.(projectID := r.projectID) == r;
    assert a in [a] && forall b | b in [a] :: b == a;
    hide Allowed, Lists;
  }

  /** A verdict past its expiry is not handed out: the check is evaluated and stored anew. */
  lemma ExpiredVerdictIsNotReused(roles: Roles, cfg: Config, s: State, s': State, r: Request, now: int, verdict: bool)
    requires CacheKey(r) in s.cache && now > s.cache[CacheKey(r)].expiresAt && Step(roles, cfg, s, Check(r, now, verdict), s')
    ensures verdict <==> Entitled(roles, s.assignments, r)
    ensures CacheKey(r) in s'.cache && s'.cache[CacheKey(r)] == Entry(verdict, now + cfg.ttl)
  {
    AllowedExactly(roles, s.assignments, r);
    hide Allowed, CacheKey, IsOldest, Entitled;
  }

  /** A verdict that was evaluated is handed out again until it expires. */
  lemma FreshVerdictIsReused(roles: Roles, cfg: Config, s: State, s': State, s'': State, r: Request, now: int, verdict: bool, later: int, again: bool)
    requires !Hit(s.cache, CacheKey(r), now) && Step(roles, cfg, s, Check(r, now, verdict), s')
    requires later <= now + cfg.ttl && Step(roles, cfg, s', Check(r, later, again), s'')
    ensures again == verdict && s'' == s'
  {
    hide Allowed, CacheKey, IsOldest;
  }

  // ------------------------------------------------------------------------------------------
  // Where the assumptions matter
  // ------------------------------------------------------------------------------------------

  /** With a colon in an identifier two different requests share one entry: a verdict given to one
      user is handed to another who holds nothing. */
  lemma ColonsShareEntries()
    ensures
      var roles: Roles := map["dev" := ["secret:read"]];
      var s := State([Assignment("a", "dev", "b:c", "")], map[]);
      var mine, theirs := Request("a", "b:c", "", "secret:read"), Request("a:b", "c", "", "secret:read");
      var cached := State(s.assignments, map[CacheKey(mine) := Entry(true, 100)]);
      && Step(roles, Config(100, 10), s, Check(mine, 0, true), cached)
      && Step(roles, Config(100, 10), cached, Check(theirs, 1, true), cached)
      && !Allowed(roles, s.assignments, theirs)
  {
    var roles: Roles := map["dev" := ["secret:read"]];
    var a := Assignment("a", "dev", "b:c", "");
    var mine := Request("a", "b:c", "", "secret:read");
    assert Covers("secret:read", "secret:read") && "secret:read" in roles["dev"];
    assert Applies(a, mine) && Grants(roles, a, "secret:read") && a in [a];
    assert CacheKey(mine) == "a:b:c::secret:read";
    assert CacheKey(Request("a:b", "c", "", "secret:read")) == "a:b:c::secret:read";
  }

  /** Changing a role's definition does not invalidate anything: a verdict cached under the old
      definition is still handed out. */
  lemma RoleUpdateLeavesStaleVerdict()
    ensures
      var (before, after) := (map["dev" := ["secret:read"]], map["dev" := [""]]);
      var s := State([Assignment("u", "dev", "o", "")], map[]);
      var r := Request("u", "o", "", "secret:read");
      var cached := State(s.assignments, map[CacheKey(r) := Entry(true, 100)]);
      && Step(before, Config(100, 10), s, Check(r, 0, true), cached)
      && Step(after, Config(100, 10), cached, Check(r, 1, true), cached)
      && !Allowed(after, s.assignments, r)
  {
    var before: Roles := map["dev" := ["secret:read"]];
    var a := Assignment("u", "dev", "o", "");
    assert Covers("secret:read", "secret:read") && "secret:read" in before["dev"];
    assert Applies(a, Request("u", "o", "", "secret:read")) && Grants(before, a, "secret:read") && a in [a];
    assert Wildcard("secret:read") == "secret:*" by { assert "secret:read"[6] == ':'; }
    assert !Covers("", "secret:read");
  }

  /** A check whose evaluation and store are apart: the verdict was computed on `before`, the store
      happens on `s`. The cache stays coherent if no assignment of that user changed in between. */
  lemma DelayedStoreIsCoherent(roles: Roles, cfg: Config, before: seq<Assignment>, s: State, r: Request, now: int, cache': map<string, Entry>)
    requires Coherent(roles, s) && Plain(r)
    requires forall a: Assignment | a.userID == r.userID :: a in before <==> a in s.assignments
    requires Stores(cfg, s.cache, CacheKey(r), Entry(Allowed(roles, before, r), now + cfg.ttl), cache')
    ensures Coherent(roles, State(s.assignments, cache'))
  {
    assert forall a | Applies(a, r) :: a in before <==> a in s.assignments;
    assert Allowed(roles, before, r) == Allowed(roles, s.assignments, r);
    StoreKeepsCoherence(roles, cfg, s, r, Entry(Allowed(roles, before, r), now + cfg.ttl), cache');
  }

  /** If the role was revoked in between, the revoked verdict enters the cache after the revocation
      cleared it and is handed out until it expires. */
  lemma RevocationDuringCheckIsMissed()
    ensures
      var roles: Roles := map["dev" := ["secret:read"]];
      var r := Request("u", "o", "", "secret:read");
      var before := [Assignment("u", "dev", "o", "")];
      var stale := State([], map[CacheKey(r) := Entry(true, 100)]);
      && Step(roles, Config(100, 10), State(before, map[]), Revoke("u", "dev", "o", ""), State([], map[]))
      && Allowed(roles, before, r)
      && Stores(Config(100, 10), map[], CacheKey(r), Entry(true, 100), stale.cache)
      && Step(roles, Config(100, 10), stale, Check(r, 1, true), stale)
      && !Allowed(roles, [], r)
  {
    var roles: Roles := map["dev" := ["secret:read"]];
    var r := Request("u", "o", "", "secret:read");
    var a := Assignment("u", "dev", "o", "");
    assert Covers("secret:read", "secret:read") && "secret:read" in roles["dev"];
    assert Applies(a, r) && Grants(roles, a, "secret:read") && a in [a];
    assert Invalidate(map[], "u") == map[];
  }
}
