/** Cursor pagination over (created_at, id), newest first, while the table changes between fetches. */
module Keyset {
  import opened Prelude

  /** The position of a row; `id` stands for the identifier's place in its own order. */
  datatype Key = Key(createdAt: int, id: int)

  predicate Less(a: Key, b: Key) {
    a.createdAt < b.createdAt || (a.createdAt == b.createdAt && a.id < b.id)
  }

  predicate Descending(s: seq<Key>) {
    forall i, j | 0 <= i < j < |s| :: Less(s[j], s[i])
  }

  type Cursor = Option<Key>

  datatype Page = Page(items: seq<Key>, next: Cursor)

  const DEFAULT_LIMIT: int := 20
  const MAX_LIMIT: int := 100

  function Normalize(limit: int): (l: nat)
    ensures 1 <= l <= MAX_LIMIT && (1 <= limit <= MAX_LIMIT ==> l == limit)
  {
    if limit <= 0 then DEFAULT_LIMIT else if limit > MAX_LIMIT then MAX_LIMIT else limit
  }

  predicate Past(c: Cursor, k: Key) { c.None? || Less(k, c.value) }

  function Below(table: set<Key>, c: Cursor): set<Key> {
    set k | k in table && Past(c, k)
  }

  // ------------------------------------------------------------------------------------------
  // One fetch
  // ------------------------------------------------------------------------------------------

  ghost predicate IsNewest(t: set<Key>, k: Key) { k in t && forall x | x in t && x != k :: Less(x, k) }

  lemma {:induction false} NewestExists(t: set<Key>) returns (k: Key)
    requires t != {}
    ensures IsNewest(t, k)
  {
    var x :| x in t;
    k := x;
    if t != {x} {
      var rest := NewestExists(t - {x});
      k := if Less(x, rest) then rest else x;
      assert forall y | y in t :: y == x || y in t - {x};
    }
  }

  ghost function Newest(t: set<Key>): (k: Key)
    requires t != {}
    ensures IsNewest(t, k)
  {
    assert exists k :: IsNewest(t, k) by { var k := NewestExists(t); }
    var k :| IsNewest(t, k);
    k
  }

  /** The `n` newest rows, newest first. */
  ghost function Top(t: set<Key>, n: nat): seq<Key> {
    if n == 0 || t == {} then [] else [Newest(t)] + Top(t - {Newest(t)}, n - 1)
  }

  lemma {:induction false} TopIsNewest(t: set<Key>, n: nat)
    ensures var q := Top(t, n);
      && Descending(q) && |q| == (if n < |t| then n else |t|)
      && (forall i | 0 <= i < |q| :: q[i] in t)
      && (forall k | k in t && k !in q :: forall i | 0 <= i < |q| :: Less(k, q[i]))
    decreases n
  {
    if n > 0 && t != {} {
      var k := Newest(t);
      TopIsNewest(t - {k}, n - 1);
      var q := Top(t - {k}, n - 1);
      assert Top(t, n) == [k] + q;
      assert forall x | x in t :: x == k || x in t - {k};
    }
  }

  /** One row more than the limit is read; if it is there, it is dropped and its predecessor becomes the
      cursor. */
  function BuildPage(items: seq<Key>, limit: nat): Page {
    if limit > 0 && |items| > limit then Page(items[..limit], Some(items[limit - 1])) else Page(items, None)
  }

  ghost function List(table: set<Key>, limit: int, c: Cursor): Page {
    var l := Normalize(limit);
    BuildPage(Top(Below(table, c), l + 1), l)
  }

  lemma Differ(s: seq<Key>, i: nat, j: nat)
    requires Descending(s) && i < j < |s|
    ensures s[i] != s[j]
  {
    assert Less(s[j], s[i]);
  }

  lemma InFirst(s: seq<Key>, n: nat, i: nat)
    requires n <= |s| && i < |s|
    ensures i < n ==> s[i] in s[..n]
  {
    if i < n { assert s[..n][i] == s[i]; }
  }

  /** A page holds the newest rows past the cursor; its own cursor separates them from everything else
      past the cursor, and is absent exactly if nothing is left. */
  lemma PageIsExact(table: set<Key>, limit: int, c: Cursor)
    ensures var (p, rest) := (List(table, limit, c), Below(table, c));
      && Descending(p.items) && (forall i | 0 <= i < |p.items| :: p.items[i] in rest)
      && (p.next.None? ==> forall k | k in rest :: k in p.items)
      && (p.next.Some? ==> |p.items| == Normalize(limit) && p.next.value == p.items[|p.items| - 1]
                           && forall k | k in rest :: k in p.items || Less(k, p.next.value))
      && (p.next.None? <==> |rest| <= Normalize(limit))
  {
    var l := Normalize(limit);
    var rest := Below(table, c);
    TopIsNewest(rest, l + 1);
    var q := Top(rest, l + 1);
    var p := List(table, limit, c);
    hide Top, Below;
    if p.next.Some? {
      assert p.items == q[..l];
      forall k | k in rest && k !in p.items ensures Less(k, p.next.value) {
        if k in q {
          var i :| 0 <= i < |q| && q[i] == k;
          InFirst(q, l, i);
        }
      }
    } else {
      forall k | k in rest ensures k in q {
        if k !in q { FewerThanAll(rest, q, k); }
      }
    }
  }

  lemma {:induction false} FewerThanAll(t: set<Key>, q: seq<Key>, k: Key)
    requires Descending(q) && (forall i | 0 <= i < |q| :: q[i] in t) && k in t && k !in q
    ensures |q| < |t|
    decreases |q|
  {
    if q != [] {
      var x := q[|q| - 1];
      var init := q[..|q| - 1];
      assert forall i | 0 <= i < |init| :: init[i] != x by {
        forall i | 0 <= i < |init| ensures init[i] != x { assert Less(q[|q| - 1], q[i]); }
      }
      FewerThanAll(t - {x}, init, k);
    }
  }

  // ------------------------------------------------------------------------------------------
  // Following the cursor
  // ------------------------------------------------------------------------------------------

  /** All rows returned when fetch `i` sees `tables[i]`. */
  ghost function Walk(tables: seq<set<Key>>, limit: int, c: Cursor): seq<Key>
    decreases |tables|
  {
    if tables == [] then []
    else
      var p := List(tables[0], limit, c);
      p.items + if p.next.None? then [] else Walk(tables[1..], limit, p.next)
  }

  /** Did one of these fetches end the listing? */
  ghost predicate Ends(tables: seq<set<Key>>, limit: int, c: Cursor)
    decreases |tables|
  {
    tables != [] && (List(tables[0], limit, c).next.None? || Ends(tables[1..], limit, List(tables[0], limit, c).next))
  }

  lemma DescendingConcat(a: seq<Key>, b: seq<Key>)
    requires Descending(a) && Descending(b)
    requires a != [] && forall i | 0 <= i < |b| :: Less(b[i], a[|a| - 1])
    ensures Descending(a + b)
  {
    forall i | 0 <= i < |a| ensures forall j | 0 <= j < |b| :: Less(b[j], a[i]) {
    }
  }

  /** However the table changes between fetches, rows come in strictly descending order; in particular no
      row is returned twice. */
  lemma {:induction false} WalkDescends(tables: seq<set<Key>>, limit: int, c: Cursor)
    ensures Descending(Walk(tables, limit, c)) && forall i | 0 <= i < |Walk(tables, limit, c)| :: Past(c, Walk(tables, limit, c)[i])
    ensures var w := Walk(tables, limit, c);
      forall i, j | 0 <= i < j < |w| :: w[i].createdAt > w[j].createdAt || (w[i].createdAt == w[j].createdAt && w[i].id > w[j].id)
    decreases |tables|
  {
    hide List;
    if tables != [] {
      var p := List(tables[0], limit, c);
      PageIsExact(tables[0], limit, c);
      if p.next.Some? {
        WalkDescends(tables[1..], limit, p.next);
        DescendingConcat(p.items, Walk(tables[1..], limit, p.next));
      } else {
        assert p.items + [] == p.items;
      }
    }
  }

  /** Every row that is there at every fetch is returned. */
  lemma {:induction false} WalkMissesNothing(tables: seq<set<Key>>, limit: int, c: Cursor, k: Key)
    requires Ends(tables, limit, c) && Past(c, k) && forall i | 0 <= i < |tables| :: k in tables[i]
    ensures k in Walk(tables, limit, c)
    decreases |tables|
  {
    hide List;
    var p := List(tables[0], limit, c);
    PageIsExact(tables[0], limit, c);
    assert k in Below(tables[0], c);
    if k !in p.items {
      WalkMissesNothing(tables[1..], limit, p.next, k);
    }
  }

  /** A listing from the start, whatever happens in between: each row present throughout is returned at
      exactly one place, and the places are in descending order. */
  lemma ListingIsFaithful(tables: seq<set<Key>>, limit: int, k: Key)
    requires Ends(tables, limit, None) && forall i | 0 <= i < |tables| :: k in tables[i]
    ensures var w := Walk(tables, limit, None);
      Descending(w) && exists i :: 0 <= i < |w| && w[i] == k && forall j | 0 <= j < |w| && w[j] == k :: j == i
  {
    hide Walk, Ends;
    WalkDescends(tables, limit, None);
    WalkMissesNothing(tables, limit, None, k);
    var w := Walk(tables, limit, None);
    var i :| 0 <= i < |w| && w[i] == k;
    forall j | 0 <= j < |w| && j != i ensures w[j] != k {
      if j < i { Differ(w, j, i); } else { Differ(w, i, j); }
    }
  }

  /** Nothing is invented either: a returned row was in the table when it was fetched. */
  lemma {:induction false} WalkReturnsRows(tables: seq<set<Key>>, limit: int, c: Cursor, i: nat)
    requires i < |Walk(tables, limit, c)|
    ensures exists f | 0 <= f < |tables| :: Walk(tables, limit, c)[i] in tables[f]
    decreases |tables|
  {
    hide List;
    var p := List(tables[0], limit, c);
    PageIsExact(tables[0], limit, c);
    if i >= |p.items| {
      WalkReturnsRows(tables[1..], limit, p.next, i - |p.items|);
      var f :| 0 <= f < |tables[1..]| && Walk(tables[1..], limit, p.next)[i - |p.items|] in tables[1..][f];
      assert Walk(tables, limit, c)[i] in tables[f + 1];
    } else {
      assert Walk(tables, limit, c)[i] in tables[0];
    }
  }

  // ------------------------------------------------------------------------------------------
  // A table that does not change
  // ------------------------------------------------------------------------------------------

  lemma ShrinksByLimit(table: set<Key>, limit: int, c: Cursor)
    requires List(table, limit, c).next.Some?
    ensures |Below(table, List(table, limit, c).next)| == |Below(table, c)| - Normalize(limit)
  {
    var p := List(table, limit, c);
    PageIsExact(table, limit, c);
    hide List;
    var last := p.items[|p.items| - 1];
    var page := set k | k in p.items;
    DistinctSize(p.items);
    forall k | k in Below(table, p.next) ensures k in Below(table, c) - page {
      assert Less(k, last) && Past(c, last);
      forall i | 0 <= i < |p.items| ensures p.items[i] != k { if i < |p.items| - 1 { assert Less(last, p.items[i]); } }
    }
    assert Below(table, p.next) == Below(table, c) - page;
    assert page <= Below(table, c);
  }

  lemma {:induction false} DistinctSize(s: seq<Key>)
    requires Descending(s)
    ensures |set k | k in s| == |s|
    decreases |s|
  {
    if s == [] {
      assert (set k | k in s) == {};
    } else {
      var init := s[..|s| - 1];
      DistinctSize(init);
      forall i | 0 <= i < |init| ensures init[i] != s[|s| - 1] { assert Less(s[|s| - 1], s[i]); }
      assert (set k | k in s) == (set k | k in init) + {s[|s| - 1]};
    }
  }

  /** Fetches until the cursor is empty. */
  ghost function Fetches(table: set<Key>, limit: int, c: Cursor): nat
    decreases |Below(table, c)|
  {
    var p := List(table, limit, c);
    if p.next.None? then 1
    else
      assert |Below(table, p.next)| < |Below(table, c)| by { ShrinksByLimit(table, limit, c); }
      1 + Fetches(table, limit, p.next)
  }

  /** `pages` is n / limit rounded up: the last page is needed, and no more. */
  predicate IsCeil(pages: nat, n: nat, limit: nat) { (pages - 1) * limit < n <= pages * limit }

  lemma CeilStep(pages: nat, n: nat, limit: nat)
    requires IsCeil(pages, n, limit)
    ensures IsCeil(pages + 1, n + limit, limit)
  {
    assert (pages + 1) * limit == pages * limit + limit && (pages - 1) * limit == pages * limit - limit;
  }

  lemma {:induction false} FetchesAreCeil(table: set<Key>, limit: int, c: Cursor)
    requires Below(table, c) != {}
    ensures IsCeil(Fetches(table, limit, c), |Below(table, c)|, Normalize(limit))
    decreases |Below(table, c)|
  {
    hide List, Below, IsCeil;
    var (n, l) := (|Below(table, c)|, Normalize(limit));
    PageIsExact(table, limit, c);
    var p := List(table, limit, c);
    if p.next.None? {
      assert IsCeil(1, n, l) by { OnePage(n, l); }
    } else {
      ShrinksByLimit(table, limit, c);
      assert |Below(table, p.next)| == n - l > 0;
      FetchesAreCeil(table, limit, p.next);
      CeilStep(Fetches(table, limit, p.next), n - l, l);
    }
  }

  lemma OnePage(n: nat, limit: nat)
    requires 0 < n <= limit
    ensures IsCeil(1, n, limit)
  {
  }

  /** On a fixed table of n > 0 rows a listing takes n / limit fetches, rounded up: a last full page is
      not followed by an empty one. An empty table takes one. */
  lemma FixedTableListing(table: set<Key>, limit: int)
    ensures if table == {} then Fetches(table, limit, None) == 1
            else IsCeil(Fetches(table, limit, None), |table|, Normalize(limit))
  {
    assert Below(table, None) == table;
    if table == {} {
      PageIsExact(table, limit, None);
    } else {
      FetchesAreCeil(table, limit, None);
    }
    hide IsCeil;
  }
}
