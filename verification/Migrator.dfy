/** The schema migrator: ordered up and down scripts, each run in one transaction together with its
    row in the tracking table. */
module Migrations {
  import opened Prelude

  /** One versioned change to a schema of type S. A migration without a down file has no `down`. */
  datatype Migration<!S> = Migration(version: int, up: S -> S, down: Option<S -> S>)

  /** What the transactions change: the tracking table's versions and the schema. */
  datatype Db<S> = Db(applied: set<int>, schema: S)

  // ------------------------------------------------------------------------------------------
  // Sorting by version
  // ------------------------------------------------------------------------------------------

  ghost predicate Ascending<S>(ms: seq<Migration<S>>) {
    forall i, j | 0 <= i < j < |ms| :: ms[i].version < ms[j].version
  }

  ghost predicate DistinctVersions<S>(ms: seq<Migration<S>>) {
    forall i, j | 0 <= i < j < |ms| :: ms[i].version != ms[j].version
  }

  function Insert<S>(m: Migration<S>, ms: seq<Migration<S>>): seq<Migration<S>> {
    if ms == [] || m.version <= ms[0].version then [m] + ms
    else [ms[0]] + Insert(m, ms[1..])
  }

  function SortByVersion<S>(ms: seq<Migration<S>>): seq<Migration<S>> {
    if ms == [] then [] else Insert(ms[0], SortByVersion(ms[1..]))
  }

  lemma {:induction false} InsertKeepsOrder<S>(m: Migration<S>, ms: seq<Migration<S>>)
    requires Ascending(ms) && forall i | 0 <= i < |ms| :: ms[i].version != m.version
    ensures Ascending(Insert(m, ms)) && multiset(Insert(m, ms)) == multiset{m} + multiset(ms)
  {
    if ms != [] && m.version > ms[0].version {
      var rest := ms[1..];
      InsertKeepsOrder(m, rest);
      assert ms == [ms[0]] + rest;
      var inserted := Insert(m, rest);
      forall j | 0 <= j < |inserted|
        ensures ms[0].version < inserted[j].version
      {
        assert inserted[j] in multiset{m} + multiset(rest);
      }
      hide Insert;
    }
  }

  /** The migrator works on the given migrations, each once, in strictly ascending version order. */
  lemma {:induction false} SortSorts<S>(ms: seq<Migration<S>>)
    requires DistinctVersions(ms)
    ensures Ascending(SortByVersion(ms)) && multiset(SortByVersion(ms)) == multiset(ms)
  {
    if ms != [] {
      var rest := ms[1..];
      SortSorts(rest);
      assert ms == [ms[0]] + rest;
      var sorted := SortByVersion(rest);
      forall i | 0 <= i < |sorted|
        ensures sorted[i].version != ms[0].version
      {
        assert sorted[i] in multiset(sorted);
        assert sorted[i] in rest;
      }
      InsertKeepsOrder(ms[0], sorted);
    }
  }

  // ------------------------------------------------------------------------------------------
  // Up and Down. `fails` holds the versions whose transaction would fail during this call.
  // ------------------------------------------------------------------------------------------

  datatype Outcome<S> = Outcome(db: Db<S>, count: nat, ok: bool)

  /** Up, from the i-th migration on: `listed` is the table as it was read when the call began. */
  function UpFrom<S>(ms: seq<Migration<S>>, db: Db<S>, listed: set<int>, fails: set<int>, i: nat): Outcome<S>
    requires i <= |ms|
    decreases |ms| - i
  {
    if i == |ms| then Outcome(db, 0, true)
    else if ms[i].version in listed then UpFrom(ms, db, listed, fails, i + 1)
    else if ms[i].version in fails then Outcome(db, 0, false)
    else
      var o := UpFrom(ms, Db(db.applied + {ms[i].version}, ms[i].up(db.schema)), listed, fails, i + 1);
      o.(count := o.count + 1)
  }

  function UpAll<S>(ms: seq<Migration<S>>, db: Db<S>, fails: set<int>): Outcome<S> {
    UpFrom(ms, db, db.applied, fails, 0)
  }

  /** Down over the first i migrations, newest first, at most `steps` of them. */
  function DownFrom<S>(ms: seq<Migration<S>>, db: Db<S>, listed: set<int>, fails: set<int>, i: nat, steps: int): Outcome<S>
    requires i <= |ms|
    decreases i
  {
    if i == 0 || steps <= 0 then Outcome(db, 0, true)
    else
      var m := ms[i - 1];
      if m.version !in listed then DownFrom(ms, db, listed, fails, i - 1, steps)
      else if m.down.None? || m.version in fails then Outcome(db, 0, false)
      else
        var o := DownFrom(ms, Db(db.applied - {m.version}, m.down.value(db.schema)), listed, fails, i - 1, steps - 1);
        o.(count := o.count + 1)
  }

  function DownSteps<S>(ms: seq<Migration<S>>, db: Db<S>, fails: set<int>, steps: int): Outcome<S> {
    DownFrom(ms, db, db.applied, fails, |ms|, steps)
  }

  class Migrator<S> {
    const migrations: seq<Migration<S>>
    var applied: set<int>
    var schema: S

    ghost function State(): Db<S>
      reads this
    {
      Db(applied, schema)
    }

    constructor (migrations: seq<Migration<S>>, applied: set<int>, schema: S)
      ensures this.migrations == SortByVersion(migrations)
      ensures State() == Db(applied, schema)
    {
      this.migrations := SortByVersion(migrations);
      this.applied, this.schema := applied, schema;
    }

    method Up(fails: set<int>) returns (count: nat, ok: bool)
      modifies this`applied, this`schema
      ensures Outcome(State(), count, ok) == UpAll(migrations, old(State()), fails)
    {
      var listed := applied;
      count := 0;
      for i := 0 to |migrations|
        invariant
          var rest := UpFrom(migrations, State(), listed, fails, i);
          rest.(count := rest.count + count) == UpAll(migrations, old(State()), fails)
      {
        var m := migrations[i];
        if m.version in listed {
          continue;
        }
        if m.version in fails {
          return count, false;
        }
        applied, schema := applied + {m.version}, m.up(schema);
        count := count + 1;
      }
      ok := true;
    }

    method Down(steps: int, fails: set<int>) returns (ghost count: nat, ok: bool)
      modifies this`applied, this`schema
      ensures Outcome(State(), count, ok) == DownSteps(migrations, old(State()), fails, steps)
    {
      var listed := applied;
      var rolledBack := 0;
      count := 0;
      var i := |migrations|;
      while i > 0 && rolledBack < steps
        invariant 0 <= i <= |migrations| && rolledBack == count
        invariant
          var rest := DownFrom(migrations, State(), listed, fails, i, steps - rolledBack);
          rest.(count := rest.count + count) == DownSteps(migrations, old(State()), fails, steps)
      {
        i := i - 1;
        var m := migrations[i];
        if m.version !in listed {
          continue;
        }
        if m.down.None? || m.version in fails {
          return count, false;
        }
        applied, schema := applied - {m.version}, m.down.value(schema);
        rolledBack, count := rolledBack + 1, count + 1;
      }
      ok := true;
    }
  }

  // ------------------------------------------------------------------------------------------
  // Prefixes and the fold of a prefix
  // ------------------------------------------------------------------------------------------

  ghost function Versions<S>(ms: seq<Migration<S>>, k: nat): set<int>
    requires k <= |ms|
  {
    set i | 0 <= i < k :: ms[i].version
  }

  ghost function Fold<S>(ms: seq<Migration<S>>, base: S, k: nat): S
    requires k <= |ms|
  {
    if k == 0 then base else ms[k - 1].up(Fold(ms, base, k - 1))
  }

  /** Exactly the first k migrations are recorded, and the schema is what they build on `base`. */
  ghost predicate AtPrefix<S>(ms: seq<Migration<S>>, base: S, db: Db<S>, k: nat) {
    k <= |ms| && db.applied == Versions(ms, k) && db.schema == Fold(ms, base, k)
  }

  ghost predicate DownsUndoUps<S(!new)>(ms: seq<Migration<S>>) {
    forall i, s | 0 <= i < |ms| && ms[i].down.Some? :: ms[i].down.value(ms[i].up(s)) == s
  }

  lemma VersionsGrow<S>(ms: seq<Migration<S>>, k: nat)
    requires Ascending(ms) && k < |ms|
    ensures Versions(ms, k + 1) == Versions(ms, k) + {ms[k].version}
    ensures ms[k].version !in Versions(ms, k)
  {
  }

  lemma VersionAt<S>(ms: seq<Migration<S>>, k: nat, i: nat)
    requires Ascending(ms) && k <= |ms| && i < |ms|
    ensures ms[i].version in Versions(ms, k) <==> i < k
  {
  }

  lemma {:induction false} VersionsCount<S>(ms: seq<Migration<S>>, k: nat)
    requires Ascending(ms) && k <= |ms|
    ensures |Versions(ms, k)| == k
  {
    if k == 0 {
      assert Versions(ms, 0) == {};
    } else {
      VersionsCount(ms, k - 1);
      VersionsGrow(ms, k - 1);
    }
  }

  function Max(i: nat, k: nat): nat { if i <= k then k else i }

  function Min(i: nat, k: nat): nat { if i <= k then i else k }

  lemma {:induction false} UpFromPrefix<S>(ms: seq<Migration<S>>, base: S, db: Db<S>, fails: set<int>, i: nat, k: nat)
    requires Ascending(ms) && i <= |ms| && k <= |ms| && AtPrefix(ms, base, db, Max(i, k))
    ensures
      var o := UpFrom(ms, db, Versions(ms, k), fails, i);
      AtPrefix(ms, base, o.db, Max(i, k) + o.count)
    decreases |ms| - i
  {
    hide Versions, Ascending;
    if i < |ms| {
      VersionAt(ms, k, i);
      if i < k {
        UpFromPrefix(ms, base, db, fails, i + 1, k);
      } else if ms[i].version !in fails {
        VersionsGrow(ms, i);
        UpFromPrefix(ms, base, Db(db.applied + {ms[i].version}, ms[i].up(db.schema)), fails, i + 1, k);
      }
    }
  }

  lemma UndoLast<S(!new)>(ms: seq<Migration<S>>, base: S, db: Db<S>, i: nat)
    requires Ascending(ms) && DownsUndoUps(ms) && 0 < i <= |ms| && AtPrefix(ms, base, db, i)
    requires ms[i - 1].down.Some?
    ensures AtPrefix(ms, base, Db(db.applied - {ms[i - 1].version}, ms[i - 1].down.value(db.schema)), i - 1)
  {
    VersionsGrow(ms, i - 1);
  }

  lemma {:induction false} DownFromPrefix<S(!new)>(ms: seq<Migration<S>>, base: S, db: Db<S>, fails: set<int>, i: nat, steps: int, k: nat)
    requires Ascending(ms) && DownsUndoUps(ms) && i <= |ms| && k <= |ms| && AtPrefix(ms, base, db, Min(i, k))
    ensures
      var o := DownFrom(ms, db, Versions(ms, k), fails, i, steps);
      o.count <= Min(i, k) && AtPrefix(ms, base, o.db, Min(i, k) - o.count)
    decreases i
  {
    hide Versions, Ascending, DownsUndoUps, AtPrefix;
    if i > 0 && steps > 0 {
      var m := ms[i - 1];
      VersionAt(ms, k, i - 1);
      if i > k {
        DownFromPrefix(ms, base, db, fails, i - 1, steps, k);
      } else if m.down.Some? && m.version !in fails {
        UndoLast(ms, base, db, i);
        DownFromPrefix(ms, base, Db(db.applied - {m.version}, m.down.value(db.schema)), fails, i - 1, steps - 1, k);
      }
    }
  }

  // ------------------------------------------------------------------------------------------
  // What the migrator promises
  // ------------------------------------------------------------------------------------------

  datatype Op = UpOp(fails: set<int>) | DownOp(steps: int, fails: set<int>)

  function Apply<S>(ms: seq<Migration<S>>, db: Db<S>, op: Op): Outcome<S> {
    match op
    case UpOp(fails) => UpAll(ms, db, fails)
    case DownOp(steps, fails) => DownSteps(ms, db, fails, steps)
  }

  function RunOps<S>(ms: seq<Migration<S>>, db: Db<S>, ops: seq<Op>): Db<S>
    decreases |ops|
  {
    if ops == [] then db else RunOps(ms, Apply(ms, db, ops[0]).db, ops[1..])
  }

  /** Whatever Up and Down calls are made, and wherever each of them fails part way, the recorded
      versions stay a prefix of the sorted migrations and the schema stays the fold of that prefix. */
  lemma {:induction false} RunsKeepPrefix<S(!new)>(ms: seq<Migration<S>>, base: S, db: Db<S>, k: nat, ops: seq<Op>)
    requires Ascending(ms) && DownsUndoUps(ms) && AtPrefix(ms, base, db, k)
    ensures exists k' :: AtPrefix(ms, base, RunOps(ms, db, ops), k')
    decreases |ops|
  {
    hide AtPrefix, UpFrom, DownFrom;
    if ops == [] {
      assert AtPrefix(ms, base, RunOps(ms, db, ops), k);
    } else {
      var o := Apply(ms, db, ops[0]);
      AtPrefixMeans(ms, base, db, k);
      assert RunOps(ms, db, ops) == RunOps(ms, o.db, ops[1..]);
      if ops[0].UpOp? {
        UpFromPrefix(ms, base, db, ops[0].fails, 0, k);
        RunsKeepPrefix(ms, base, o.db, k + o.count, ops[1..]);
      } else {
        DownFromPrefix(ms, base, db, ops[0].fails, |ms|, ops[0].steps, k);
        RunsKeepPrefix(ms, base, o.db, k - o.count, ops[1..]);
      }
    }
  }

  lemma AtPrefixMeans<S>(ms: seq<Migration<S>>, base: S, db: Db<S>, k: nat)
    requires AtPrefix(ms, base, db, k)
    ensures k <= |ms| && db.applied == Versions(ms, k) && db.schema == Fold(ms, base, k)
  {
  }

  ghost predicate AllReversible<S>(ms: seq<Migration<S>>) {
    forall i | 0 <= i < |ms| :: ms[i].down.Some?
  }

  lemma {:induction false} UpAppliesMissing<S>(ms: seq<Migration<S>>, db: Db<S>, listed: set<int>, i: nat)
    requires Ascending(ms) && i <= |ms|
    requires listed <= Versions(ms, |ms|) && db.applied == listed + Versions(ms, i)
    ensures
      var o := UpFrom(ms, db, listed, {}, i);
      o.ok && o.db.applied == Versions(ms, |ms|) && |db.applied| + o.count == |ms|
    decreases |ms| - i
  {
    hide Versions, Ascending;
    if i == |ms| {
      assert db.applied == Versions(ms, |ms|);
      VersionsCount(ms, |ms|);
    } else {
      VersionsGrow(ms, i);
      if ms[i].version in listed {
        assert db.applied == listed + Versions(ms, i + 1);
        UpAppliesMissing(ms, db, listed, i + 1);
      } else {
        assert |db.applied + {ms[i].version}| == |db.applied| + 1;
        UpAppliesMissing(ms, Db(db.applied + {ms[i].version}, ms[i].up(db.schema)), listed, i + 1);
      }
    }
  }

  lemma {:induction false} DownRemovesNewest<S>(ms: seq<Migration<S>>, db: Db<S>, i: nat, steps: nat)
    requires Ascending(ms) && AllReversible(ms) && steps <= i <= |ms| && db.applied == Versions(ms, i)
    ensures
      var o := DownFrom(ms, db, Versions(ms, |ms|), {}, i, steps);
      o.ok && o.count == steps && o.db.applied == Versions(ms, i - steps)
    decreases i
  {
    hide Versions, Ascending;
    if steps > 0 {
      var m := ms[i - 1];
      VersionsGrow(ms, i - 1);
      VersionAt(ms, |ms|, i - 1);
      assert db.applied - {m.version} == Versions(ms, i - 1);
      DownRemovesNewest(ms, Db(db.applied - {m.version}, m.down.value(db.schema)), i - 1, steps - 1);
    }
  }

  /** Up fails exactly if some migration that was not applied fails; without a failure everything is
      applied. Only migrations that did not fail are added, and as many as the count says. */
  lemma UpSucceedsExactly<S>(ms: seq<Migration<S>>, db: Db<S>, fails: set<int>)
    requires Ascending(ms)
    ensures var o := UpAll(ms, db, fails);
      && (o.ok <==> forall i | 0 <= i < |ms| :: ms[i].version !in db.applied ==> ms[i].version !in fails)
      && (o.ok ==> forall i | 0 <= i < |ms| :: ms[i].version in o.db.applied)
      && (forall v :: v in o.db.applied ==> v in db.applied || (v !in fails && exists i | 0 <= i < |ms| :: ms[i].version == v))
      && (forall v | v in db.applied :: v in o.db.applied)
      && |o.db.applied| == |db.applied| + o.count
  {
    UpFromSucceeds(ms, db, db.applied, fails, 0);
  }

  lemma AscendsFrom<S>(ms: seq<Migration<S>>, i: nat)
    requires Ascending(ms) && i < |ms|
    ensures forall j | i < j < |ms| :: ms[i].version < ms[j].version
  {
  }

  lemma {:induction false} UpFromSucceeds<S>(ms: seq<Migration<S>>, db: Db<S>, listed: set<int>, fails: set<int>, i: nat)
    requires Ascending(ms) && i <= |ms| && listed <= db.applied
    requires forall j | i <= j < |ms| :: ms[j].version in db.applied ==> ms[j].version in listed
    ensures var o := UpFrom(ms, db, listed, fails, i);
      && (o.ok <==> forall j | i <= j < |ms| :: ms[j].version !in listed ==> ms[j].version !in fails)
      && (o.ok ==> forall j | i <= j < |ms| :: ms[j].version in o.db.applied)
      && (forall v :: v in o.db.applied ==> v in db.applied || (v !in fails && exists j | 0 <= j < |ms| :: ms[j].version == v))
      && (forall v | v in db.applied :: v in o.db.applied)
      && |o.db.applied| == |db.applied| + o.count
    decreases |ms| - i
  {
    hide Ascending;
    if i < |ms| {
      if ms[i].version in listed {
        UpFromSucceeds(ms, db, listed, fails, i + 1);
      } else if ms[i].version !in fails {
        assert forall j | i < j < |ms| :: ms[i].version < ms[j].version by { AscendsFrom(ms, i); }
        UpFromSucceeds(ms, Db(db.applied + {ms[i].version}, ms[i].up(db.schema)), listed, fails, i + 1);
      }
    }
  }

  /** How many of the migrations from `i` up to `n` are applied. */
  function AppliedBetween<S>(ms: seq<Migration<S>>, listed: set<int>, i: nat, n: nat): nat
    requires i <= n <= |ms|
    decreases n - i
  {
    if i == n then 0 else AppliedBetween(ms, listed, i, n - 1) + if ms[n - 1].version in listed then 1 else 0
  }

  /** A migration that Down comes to: applied, with fewer than `steps` applied ones above it. */
  predicate ComesTo<S>(ms: seq<Migration<S>>, listed: set<int>, steps: int, n: nat, i: nat)
    requires i < n <= |ms|
  {
    ms[i].version in listed && AppliedBetween(ms, listed, i + 1, n) < steps
  }

  predicate CannotGoDown<S>(m: Migration<S>, fails: set<int>) { m.down.None? || m.version in fails }

  lemma {:induction false} AppliedSplit<S>(ms: seq<Migration<S>>, listed: set<int>, i: nat, n: nat)
    requires i < n <= |ms|
    ensures AppliedBetween(ms, listed, i, n) == (if ms[i].version in listed then 1 else 0) + AppliedBetween(ms, listed, i + 1, n)
    decreases n - i
  {
    if i + 1 < n {
      AppliedSplit(ms, listed, i, n - 1);
    }
  }

  /** Down fails exactly if among the migrations it comes to, which are the newest applied ones, as many as
      asked for, one has no down script or fails. */
  lemma DownSucceedsExactly<S>(ms: seq<Migration<S>>, db: Db<S>, fails: set<int>, steps: int)
    ensures DownSteps(ms, db, fails, steps).ok <==>
      forall i | 0 <= i < |ms| && ComesTo(ms, db.applied, steps, |ms|, i) :: !CannotGoDown(ms[i], fails)
  {
    DownFromSucceeds(ms, db, db.applied, fails, |ms|, steps);
  }

  lemma {:induction false} DownFromSucceeds<S>(ms: seq<Migration<S>>, db: Db<S>, listed: set<int>, fails: set<int>, n: nat, steps: int)
    requires n <= |ms|
    ensures DownFrom(ms, db, listed, fails, n, steps).ok <==>
      forall i | 0 <= i < n && ComesTo(ms, listed, steps, n, i) :: !CannotGoDown(ms[i], fails)
    decreases n
  {
    if n > 0 && steps > 0 {
      var m := ms[n - 1];
      var step := if m.version in listed then 1 else 0;
      forall i | 0 <= i < n - 1
        ensures ComesTo(ms, listed, steps, n, i) <==> ComesTo(ms, listed, steps - step, n - 1, i)
      {
      }
      assert ComesTo(ms, listed, steps, n, n - 1) <==> m.version in listed;
      if m.version !in listed {
        DownFromSucceeds(ms, db, listed, fails, n - 1, steps);
      } else if !CannotGoDown(m, fails) {
        DownFromSucceeds(ms, Db(db.applied - {m.version}, m.down.value(db.schema)), listed, fails, n - 1, steps - 1);
      }
      hide AppliedBetween;
    } else {
      forall i | 0 <= i < n ensures steps <= 0 ==> !ComesTo(ms, listed, steps, n, i) { }
    }
  }

  /** Up followed by Down of the count it returned gives back the recorded versions if and only if
      those were a prefix to begin with: Down takes the highest versions off, not the ones last applied. */
  lemma UpThenDownRestoresExactlyPrefixes<S>(ms: seq<Migration<S>>, db: Db<S>)
    requires Ascending(ms) && AllReversible(ms) && db.applied <= Versions(ms, |ms|)
    ensures
      var up := UpAll(ms, db, {});
      var down := DownSteps(ms, up.db, {}, up.count);
      && up.ok && down.ok && down.count == up.count
      && (down.db.applied == db.applied <==> exists k: nat :: k <= |ms| && db.applied == Versions(ms, k))
  {
    hide UpFrom, DownFrom, Ascending;
    var up := UpAll(ms, db, {});
    assert Versions(ms, 0) == {};
    UpAppliesMissing(ms, db, db.applied, 0);
    DownRemovesNewest(ms, up.db, |ms|, up.count);
    var kept := |ms| - up.count;
    assert DownSteps(ms, up.db, {}, up.count).db.applied == Versions(ms, kept);
    forall k: nat | k <= |ms| && db.applied == Versions(ms, k)
      ensures k == kept
    {
      VersionsCount(ms, k);
    }
  }

  /** From a prefix, the same round trip gives back the schema as well. */
  lemma UpThenDownRestoresSchema<S(!new)>(ms: seq<Migration<S>>, base: S, db: Db<S>, k: nat)
    requires Ascending(ms) && AllReversible(ms) && DownsUndoUps(ms) && AtPrefix(ms, base, db, k)
    ensures
      var up := UpAll(ms, db, {});
      DownSteps(ms, up.db, {}, up.count).db == db
  {
    hide UpFrom, DownFrom, Ascending, DownsUndoUps;
    var up := UpAll(ms, db, {});
    assert db.applied <= Versions(ms, |ms|);
    UpThenDownRestoresExactlyPrefixes(ms, db);
    UpFromPrefix(ms, base, db, {}, 0, k);
    DownFromPrefix(ms, base, up.db, {}, |ms|, up.count, k + up.count);
  }

  /** A migration added below an applied one: one Up and one Down leave the new one applied and the
      old one rolled back. */
  lemma LateMigrationIsNotRolledBack()
    ensures
      var note := (v: int) => (s: set<int>) => s + {v};
      var forget := (v: int) => (s: set<int>) => s - {v};
      var ms := [Migration(1, note(1), Some(forget(1))), Migration(2, note(2), Some(forget(2)))];
      var up := UpAll(ms, Db({2}, {2}), {});
      up.count == 1 && DownSteps(ms, up.db, {}, up.count).db.applied == {1}
  {
    var note := (v: int) => (s: set<int>) => s + {v};
    var forget := (v: int) => (s: set<int>) => s - {v};
    var ms := [Migration(1, note(1), Some(forget(1))), Migration(2, note(2), Some(forget(2)))];
    var full := Db({1, 2}, {1, 2});
    assert {2} + {1} == {1, 2} && {1, 2} - {2} == {1};
    assert UpFrom(ms, full, {2}, {}, 1) == UpFrom(ms, full, {2}, {}, 2) == Outcome(full, 0, true);
    assert UpAll(ms, Db({2}, {2}), {}) == Outcome(full, 1, true);
    assert DownFrom(ms, Db({1}, {1}), full.applied, {}, 1, 0) == Outcome(Db({1}, {1}), 0, true);
    assert DownSteps(ms, full, {}, 1) == Outcome(Db({1}, {1}), 1, true);
  }
}
