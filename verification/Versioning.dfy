/** Event schema versions: the subject an event travels on, and the registry of upcasters that
    migrates old envelopes one version at a time. */
module Versioning {
  import opened Prelude

  const MAX_INT64: int := 0x7FFF_FFFF_FFFF_FFFF

  datatype Envelope = Envelope(eventId: string, kind: string, version: int, payload: string)

  // ------------------------------------------------------------------------------------------
  // Decimal numbers
  // ------------------------------------------------------------------------------------------

  predicate IsDigit(c: char) { '0' <= c <= '9' }

  predicate AllDigits(s: string) { forall i | 0 <= i < |s| :: IsDigit(s[i]) }

  function Digits(n: nat): (s: string)
    ensures |s| >= 1 && AllDigits(s)
  {
    var last := [('0' as int + n % 10) as char];
    if n < 10 then last else Digits(n / 10) + last
  }

  function Itoa(n: int): string {
    if n < 0 then "-" + Digits(-n) else Digits(n)
  }

  function Value(s: string): int {
    if s == [] then 0 else Value(s[..|s| - 1]) * 10 + (s[|s| - 1] as int - '0' as int)
  }

  /** `strconv.Atoi`: an optional sign and at least one digit, within 64 bits. */
  function Atoi(s: string): Option<int> {
    var signed := s != [] && s[0] in {'+', '-'};
    var digits := if signed then s[1..] else s;
    if digits == [] || !AllDigits(digits) then None
    else
      var v := if signed && s[0] == '-' then -Value(digits) else Value(digits);
      if -MAX_INT64 - 1 <= v <= MAX_INT64 then Some(v) else None
  }

  lemma {:induction false} ValueOfDigits(n: nat)
    ensures Value(Digits(n)) == n
  {
    if n >= 10 {
      ValueOfDigits(n / 10);
      var front := Digits(n / 10);
      var all := Digits(n);
      assert all[..|all| - 1] == front;
    }
  }

  lemma AtoiOfItoa(n: nat)
    requires n <= MAX_INT64
    ensures Atoi(Itoa(n)) == Some(n)
  {
    ValueOfDigits(n);
    assert IsDigit(Digits(n)[0]);
  }

  lemma ItoaInjective(m: int, n: int)
    requires Itoa(m) == Itoa(n)
    ensures m == n
  {
    ValueOfDigits(if m < 0 then -m else m);
    ValueOfDigits(if n < 0 then -n else n);
    assert IsDigit(Digits(if m < 0 then -m else m)[0]) && IsDigit(Digits(if n < 0 then -n else n)[0]);
    if m < 0 && n < 0 {
      assert Itoa(m)[1..] == Digits(-m) && Itoa(n)[1..] == Digits(-n);
    }
  }

  // ------------------------------------------------------------------------------------------
  // Subjects
  // ------------------------------------------------------------------------------------------

  function Subject(prefix: string, e: Envelope): string {
    prefix + "." + e.kind + ".v" + Itoa(e.version)
  }

  predicate OccursAt(s: string, p: string, i: int) {
    0 <= i && i + |p| <= |s| && s[i..i + |p|] == p
  }

  /** `strings.LastIndex`, among the positions up to `i`. */
  function LastIndexUpTo(s: string, p: string, i: int): int
    decreases i + 1
  {
    if i < 0 then -1 else if OccursAt(s, p, i) then i else LastIndexUpTo(s, p, i - 1)
  }

  function LastIndex(s: string, p: string): int {
    LastIndexUpTo(s, p, |s|)
  }

  function TrimPrefix(s: string, p: string): string {
    if p <= s then s[|p|..] else s
  }

  function ParseSubject(prefix: string, subject: string): Option<(string, int)> {
    var trimmed := TrimPrefix(subject, prefix + ".");
    if trimmed == subject then None
    else
      var idx := LastIndex(trimmed, ".v");
      if idx < 0 || idx + 2 > |trimmed| then None
      else
        var v := Atoi(trimmed[idx + 2..]);
        if v.None? || v.value < 1 then None else Some((trimmed[..idx], v.value))
  }

  lemma {:induction false} LastIndexIsGreatest(s: string, p: string, i: int, bound: int)
    requires OccursAt(s, p, i) && i <= bound
    requires forall j | i < j <= bound :: !OccursAt(s, p, j)
    ensures LastIndexUpTo(s, p, bound) == i
    decreases bound - i
  {
    if bound > i {
      LastIndexIsGreatest(s, p, i, bound - 1);
    }
  }

  lemma {:induction false} LastIndexOccurs(s: string, p: string, i: int)
    ensures LastIndexUpTo(s, p, i) >= 0 ==> OccursAt(s, p, LastIndexUpTo(s, p, i))
    decreases i + 1
  {
    if i >= 0 {
      LastIndexOccurs(s, p, i - 1);
    }
  }

  /** What follows the type in a subject, with the version spelled `digits`. */
  ghost predicate Spells(prefix: string, subject: string, kind: string, digits: string, version: int) {
    && subject == prefix + "." + kind + ".v" + digits
    && Atoi(digits) == Some(version) && version >= 1
  }

  lemma NumbersHaveNoDot(digits: string)
    requires Atoi(digits).Some?
    ensures forall i | 0 <= i < |digits| :: digits[i] != '.'
  {
    var signed := digits != [] && digits[0] in {'+', '-'};
    var unsigned := if signed then digits[1..] else digits;
    assert AllDigits(unsigned);
    assert forall i | 1 <= i < |digits| :: digits[i] == if signed then unsigned[i - 1] else unsigned[i];
  }

  lemma TypeEndsAtLastMark(kind: string, digits: string)
    requires Atoi(digits).Some?
    ensures LastIndex(kind + ".v" + digits, ".v") == |kind|
  {
    var s := kind + ".v" + digits;
    NumbersHaveNoDot(digits);
    hide Atoi, LastIndexUpTo;
    assert s[|kind|..|kind| + 2] == ".v";
    forall j | |kind| < j <= |s|
      ensures !OccursAt(s, ".v", j)
    {
      assert j + 2 <= |s| ==> s[j..j + 2][0] == s[j];
      assert j < |s| ==> s[j] == if j == |kind| + 1 then 'v' else digits[j - |kind| - 2];
    }
    LastIndexIsGreatest(s, ".v", |kind|, |s|);
  }

  lemma SpelledParses(prefix: string, subject: string, kind: string, digits: string, version: int)
    requires Spells(prefix, subject, kind, digits, version)
    ensures ParseSubject(prefix, subject) == Some((kind, version))
  {
    hide Atoi, LastIndexUpTo;
    var head := prefix + ".";
    var tail := kind + ".v" + digits;
    assert subject == head + tail;
    assert subject[..|head|] == head && subject[|head|..] == tail;
    TypeEndsAtLastMark(kind, digits);
    assert tail[..|kind|] == kind && tail[|kind| + 2..] == digits;
  }

  lemma ParsedIsSpelled(prefix: string, subject: string) returns (digits: string)
    requires ParseSubject(prefix, subject).Some?
    ensures
      var (kind, version) := ParseSubject(prefix, subject).value;
      Spells(prefix, subject, kind, digits, version)
  {
    hide Atoi, LastIndexUpTo;
    var head := prefix + ".";
    var tail := TrimPrefix(subject, head);
    var idx := LastIndex(tail, ".v");
    LastIndexOccurs(tail, ".v", |tail|);
    digits := tail[idx + 2..];
    assert tail == tail[..idx] + ".v" + digits;
    assert subject == head + tail;
  }

  /** ParseSubject accepts exactly the subjects that spell a type and a positive version under the
      prefix, and returns those two, whatever marks the type itself contains. */
  lemma ParseSubjectExactly(prefix: string, subject: string, kind: string, version: int)
    ensures ParseSubject(prefix, subject) == Some((kind, version))
            <==> exists digits :: Spells(prefix, subject, kind, digits, version)
  {
    hide ParseSubject, Spells;
    if digits :| Spells(prefix, subject, kind, digits, version) {
      SpelledParses(prefix, subject, kind, digits, version);
    }
    if ParseSubject(prefix, subject) == Some((kind, version)) {
      var digits := ParsedIsSpelled(prefix, subject);
    }
  }

  /** Every event's subject parses back to its type and version. */
  lemma SubjectRoundTrip(prefix: string, e: Envelope)
    requires 1 <= e.version <= MAX_INT64
    ensures ParseSubject(prefix, Subject(prefix, e)) == Some((e.kind, e.version))
  {
    AtoiOfItoa(e.version);
    assert Spells(prefix, Subject(prefix, e), e.kind, Itoa(e.version), e.version);
    ParseSubjectExactly(prefix, Subject(prefix, e), e.kind, e.version);
  }

  /** The other way round fails: a padded or signed version parses too, so a parsed subject need not
      be the one its type and version produce. */
  lemma ParsedSubjectNeedNotBeCanonical()
    ensures ParseSubject("evt", "evt.a.v01") == Some(("a", 1))
    ensures Subject("evt", Envelope("", "a", 1, "")) == "evt.a.v1"
  {
    assert "01"[..1] == "0" && "0"[..0] == "" && Value("0") == 0;
    assert Value("01") == 1;
    assert AllDigits("01");
    assert Atoi("01") == Some(1);
    assert "evt.a.v01" == "evt" + "." + "a" + ".v" + "01";
    assert Spells("evt", "evt.a.v01", "a", "01", 1);
    SpelledParses("evt", "evt.a.v01", "a", "01", 1);
    assert Digits(1) == "1";
  }

  // ------------------------------------------------------------------------------------------
  // The upcaster registry
  // ------------------------------------------------------------------------------------------

  type Upcaster = Envelope -> Result<Envelope, string>

  function UpcasterKey(kind: string, fromVersion: int): string {
    kind + ":" + Itoa(fromVersion)
  }

  lemma ItoaHasNoColon(n: int)
    ensures forall i | 0 <= i < |Itoa(n)| :: Itoa(n)[i] != ':'
  {
    var digits := Digits(if n < 0 then -n else n);
    assert AllDigits(digits);
  }

  lemma KeysSplitAlike(kind: string, tail: string, kind': string, tail': string)
    requires kind + ":" + tail == kind' + ":" + tail'
    requires forall i | 0 <= i < |tail| :: tail[i] != ':'
    ensures |kind'| <= |kind|
  {
    var key := kind + ":" + tail;
    assert key[|kind'|] == (kind' + ":" + tail')[|kind'|] == ':';
    assert forall j | |kind| < j < |key| :: key[j] == tail[j - |kind| - 1];
  }

  /** Two string keys are equal exactly when type and version both are, even if types contain colons. */
  lemma UpcasterKeysArePairs(kind: string, version: int, kind': string, version': int)
    ensures UpcasterKey(kind, version) == UpcasterKey(kind', version') <==> kind == kind' && version == version'
  {
    if UpcasterKey(kind, version) == UpcasterKey(kind', version') {
      var key := UpcasterKey(kind, version);
      ItoaHasNoColon(version);
      ItoaHasNoColon(version');
      KeysSplitAlike(kind, Itoa(version), kind', Itoa(version'));
      KeysSplitAlike(kind', Itoa(version'), kind, Itoa(version));
      assert kind == key[..|kind|] == kind';
      assert Itoa(version) == key[|kind| + 1..] == Itoa(version');
      ItoaInjective(version, version');
    }
  }

  ghost function Bound(keys: set<(string, int)>): (b: int)
    ensures forall k | k in keys :: k.1 < b
  {
    if keys == {} then 0
    else
      var k :| k in keys;
      var rest := Bound(keys - {k});
      if k.1 < rest then rest else k.1 + 1
  }

  /** Upgrading with upcasters kept by (type, version) pair. */
  ghost function UpgradeByPairs(pairs: map<(string, int), Upcaster>, e: Envelope): Result<Envelope, string>
    decreases Bound(pairs.Keys) - e.version
  {
    if (e.kind, e.version) !in pairs then Success(e)
    else
      assert (e.kind, e.version) in pairs.Keys;
      var next := pairs[(e.kind, e.version)](e);
      if next.Failure? then Failure("upcast")
      else if next.value.version != e.version + 1 then Failure("version")
      else UpgradeByPairs(pairs, next.value)
  }

  class Registry {
    var upcasters: map<string, Upcaster>
    ghost var pairs: map<(string, int), Upcaster>

    ghost predicate Valid()
      reads this
    {
      && (forall p | p in pairs :: UpcasterKey(p.0, p.1) in upcasters && upcasters[UpcasterKey(p.0, p.1)] == pairs[p])
      && (forall key | key in upcasters :: exists p :: p in pairs && UpcasterKey(p.0, p.1) == key)
    }

    constructor ()
      ensures Valid() && pairs == map[]
    {
      upcasters, pairs := map[], map[];
    }

    /** Registering a (type, version) twice panics: nothing is changed and `panicked` is reported. */
    method Register(kind: string, fromVersion: int, up: Upcaster) returns (panicked: bool)
      requires Valid()
      modifies this
      ensures Valid()
      ensures panicked <==> (kind, fromVersion) in old(pairs)
      ensures pairs == if panicked then old(pairs) else old(pairs)[(kind, fromVersion) := up]
    {
      var key := UpcasterKey(kind, fromVersion);
      LookupsAgree(kind, fromVersion);
      panicked := key in upcasters;
      if !panicked {
        upcasters, pairs := upcasters[key := up], pairs[(kind, fromVersion) := up];
        forall p | p in pairs
          ensures UpcasterKey(p.0, p.1) in upcasters && upcasters[UpcasterKey(p.0, p.1)] == pairs[p]
        {
          UpcasterKeysArePairs(p.0, p.1, kind, fromVersion);
        }
        forall k | k in upcasters
          ensures exists p :: p in pairs && UpcasterKey(p.0, p.1) == k
        {
          if k == key {
            assert (kind, fromVersion) in pairs;
          } else {
            var p :| p in old(pairs) && UpcasterKey(p.0, p.1) == k;
            assert p in pairs;
          }
        }
      }
    }

    lemma LookupsAgree(kind: string, version: int)
      requires Valid()
      ensures UpcasterKey(kind, version) in upcasters <==> (kind, version) in pairs
      ensures (kind, version) in pairs ==> upcasters[UpcasterKey(kind, version)] == pairs[(kind, version)]
    {
      if UpcasterKey(kind, version) in upcasters {
        var p :| p in pairs && UpcasterKey(p.0, p.1) == UpcasterKey(kind, version);
        UpcasterKeysArePairs(p.0, p.1, kind, version);
      }
    }

    method Upgrade(e: Envelope) returns (r: Result<Envelope, string>)
      requires Valid()
      ensures r == UpgradeByPairs(pairs, e)
    {
      var current := e;
      while true
        invariant UpgradeByPairs(pairs, current) == UpgradeByPairs(pairs, e)
        decreases Bound(pairs.Keys) - current.version
      {
        LookupsAgree(current.kind, current.version);
        var key := UpcasterKey(current.kind, current.version);
        if key !in upcasters {
          return Success(current);
        }
        assert (current.kind, current.version) in pairs.Keys;
        var prevVersion := current.version;
        var next := upcasters[key](current);
        if next.Failure? {
          return Failure("upcast");
        }
        if next.value.version != prevVersion + 1 {
          return Failure("version");
        }
        current := next.value;
      }
    }
  }

  // ------------------------------------------------------------------------------------------
  // What an upgrade means
  // ------------------------------------------------------------------------------------------

  /** Each envelope is what the upcaster registered for the one before it makes of it, one version up. */
  ghost predicate Chain(pairs: map<(string, int), Upcaster>, path: seq<Envelope>) {
    forall i | 0 <= i < |path| - 1 ::
      && (path[i].kind, path[i].version) in pairs
      && pairs[(path[i].kind, path[i].version)](path[i]) == Success(path[i + 1])
      && path[i + 1].version == path[i].version + 1
  }

  ghost predicate Leads(pairs: map<(string, int), Upcaster>, e: Envelope, e': Envelope, path: seq<Envelope>) {
    path != [] && path[0] == e && path[|path| - 1] == e' && Chain(pairs, path)
  }

  /** The envelope has an upcaster, and it errs or skips to another version. */
  ghost predicate Stuck(pairs: map<(string, int), Upcaster>, e: Envelope) {
    && (e.kind, e.version) in pairs
    && var next := pairs[(e.kind, e.version)](e);
       next.Failure? || next.value.version != e.version + 1
  }

  lemma ChainCons(pairs: map<(string, int), Upcaster>, e: Envelope, next: Envelope, e': Envelope, path: seq<Envelope>)
    requires (e.kind, e.version) in pairs && pairs[(e.kind, e.version)](e) == Success(next)
    requires next.version == e.version + 1 && Leads(pairs, next, e', path)
    ensures Leads(pairs, e, e', [e] + path)
  {
    var all := [e] + path;
    forall i | 0 <= i < |all| - 1
      ensures (all[i].kind, all[i].version) in pairs
      ensures pairs[(all[i].kind, all[i].version)](all[i]) == Success(all[i + 1])
      ensures all[i + 1].version == all[i].version + 1
    {
      if i > 0 {
        assert all[i] == path[i - 1] && all[i + 1] == path[i];
      }
    }
  }

  /** Every upgrade ends. It ends where one chain of registered upcasters leads: in an envelope no
      upcaster is registered for, as many versions up as the chain has steps, or, on an error, in
      one whose upcaster errs or breaks the one-step rule. */
  lemma {:induction false} UpgradeFollowsChain(pairs: map<(string, int), Upcaster>, e: Envelope)
    returns (last: Envelope, path: seq<Envelope>)
    ensures Leads(pairs, e, last, path) && last.version == e.version + |path| - 1
    ensures UpgradeByPairs(pairs, e).Success?
            ==> UpgradeByPairs(pairs, e) == Success(last) && (last.kind, last.version) !in pairs
    ensures UpgradeByPairs(pairs, e).Failure? ==> Stuck(pairs, last)
    ensures |path| - 1 <= if Bound(pairs.Keys) < e.version then 0 else Bound(pairs.Keys) - e.version
    decreases Bound(pairs.Keys) - e.version
  {
    if (e.kind, e.version) !in pairs || Stuck(pairs, e) {
      last, path := e, [e];
    } else {
      assert (e.kind, e.version) in pairs.Keys;
      var next := pairs[(e.kind, e.version)](e).value;
      last, path := UpgradeFollowsChain(pairs, next);
      ChainCons(pairs, e, next, last, path);
      path := [e] + path;
    }
  }

  /** An upgraded envelope is not touched again. */
  lemma UpgradeIsIdempotent(pairs: map<(string, int), Upcaster>, e: Envelope)
    requires UpgradeByPairs(pairs, e).Success?
    ensures UpgradeByPairs(pairs, UpgradeByPairs(pairs, e).value) == UpgradeByPairs(pairs, e)
  {
    var _, _ := UpgradeFollowsChain(pairs, e);
  }
}
