/** Container image references: joining a registry, and stripping tag and digest to the repository. */
module Images {
  /** Unicode white space. */
  predicate IsSpace(c: char) {
    || '\t' <= c <= '\r' || c == ' ' || c == '\U{0085}' || c == '\U{00A0}' || c == '\U{1680}'
    || '\U{2000}' <= c <= '\U{200A}' || c == '\U{2028}' || c == '\U{2029}' || c == '\U{202F}' || c == '\U{205F}' || c == '\U{3000}'
  }

  function SkipSpace(s: string, i: nat): (j: nat)
    requires i <= |s|
    ensures i <= j <= |s| && (j < |s| ==> !IsSpace(s[j]))
    ensures i < |s| && !IsSpace(s[i]) ==> j == i
    decreases |s| - i
  {
    if i < |s| && IsSpace(s[i]) then SkipSpace(s, i + 1) else i
  }

  function DropSpace(s: string, i: nat): (j: nat)
    requires i <= |s|
    ensures j <= i && (j > 0 ==> !IsSpace(s[j - 1])) && forall k | j <= k < i :: IsSpace(s[k])
  {
    if i > 0 && IsSpace(s[i - 1]) then DropSpace(s, i - 1) else i
  }

  function TrimLeft(s: string): string { s[SkipSpace(s, 0)..] }

  function TrimRight(s: string): string { s[..DropSpace(s, |s|)] }

  function TrimSpace(s: string): string { TrimRight(TrimLeft(s)) }

  function FirstFrom(s: string, c: char, i: nat): (j: nat)
    requires i <= |s|
    ensures i <= j <= |s| && (forall k | i <= k < j :: s[k] != c) && (j < |s| ==> s[j] == c)
    decreases |s| - i
  {
    if i < |s| && s[i] != c then FirstFrom(s, c, i + 1) else i
  }

  function LastBefore(s: string, c: char, i: nat): (j: int)
    requires i <= |s|
    ensures -1 <= j < i && (forall k | j < k < i :: s[k] != c) && (j >= 0 ==> s[j] == c)
  {
    if i > 0 && s[i - 1] != c then LastBefore(s, c, i - 1) else i - 1
  }

  /** Index of the first `c`, or the length if there is none. */
  function FirstIndex(s: string, c: char): nat { FirstFrom(s, c, 0) }

  /** Index of the last `c`, or -1 if there is none. */
  function LastIndex(s: string, c: char): int { LastBefore(s, c, |s|) }

  function CutDigest(ref: string): string { ref[..FirstIndex(ref, '@')] }

  function CutTag(ref: string): string {
    if LastIndex(ref, ':') > LastIndex(ref, '/') then ref[..LastIndex(ref, ':')] else ref
  }

  /** The bare repository of a reference. */
  function Repository(ref: string): string { CutTag(CutDigest(TrimSpace(ref))) }

  /** Does the first path segment look like a registry host? */
  predicate HasHost(image: string) {
    var segment := image[..FirstIndex(image, '/')];
    '.' in segment || ':' in segment || segment == "localhost"
  }

  function Compose(registry: string, image: string): string {
    var (host, path) := (TrimSpace(registry), TrimSpace(image));
    if host == "" || path == "" || host + "/" <= path || HasHost(path) then path else host + "/" + path
  }

  /** What a build publishes and a deployment is pointed at. */
  function Pin(repository: string, digest: string): string { repository + "@" + digest }

  // ------------------------------------------------------------------------------------------
  // Matching
  // ------------------------------------------------------------------------------------------

  predicate Lacks(s: string, c: char) { forall k | 0 <= k < |s| :: s[k] != c }

  predicate NoColonInName(repository: string) { LastIndex(repository, ':') <= LastIndex(repository, '/') }

  predicate StartsClean(s: string) { s != [] ==> !IsSpace(s[0]) }

  lemma LastIndexIs(s: string, c: char, i: int)
    requires -1 <= i < |s| && (i >= 0 ==> s[i] == c) && forall k | i < k < |s| :: s[k] != c
    ensures LastIndex(s, c) == i
  {
  }

  /** Trimming a reference that carries a digest only trims the digest. */
  lemma DigestIsCutOff(repository: string, digest: string)
    requires Lacks(repository, '@') && StartsClean(repository)
    ensures CutDigest(TrimSpace(Pin(repository, digest))) == repository
  {
    var ref := Pin(repository, digest);
    var n := |repository|;
    assert ref[n] == '@' && forall k | 0 <= k < n :: ref[k] == repository[k];
    assert !IsSpace(ref[0]);
    assert TrimLeft(ref) == ref;
    var end := DropSpace(ref, |ref|);
    assert end > n;
    hide DropSpace, SkipSpace;
    CutAt(ref[..end], n);
    assert ref[..end][..n] == repository;
  }

  lemma CutAt(t: string, n: nat)
    requires n < |t| && t[n] == '@' && forall k | 0 <= k < n :: t[k] != '@'
    ensures CutDigest(t) == t[..n]
  {
  }

  lemma CutDigestShape(t: string)
    requires StartsClean(t)
    ensures Lacks(CutDigest(t), '@') && StartsClean(CutDigest(t))
  {
  }

  lemma CutTagShape(t: string)
    requires Lacks(t, '@') && StartsClean(t)
    ensures Lacks(CutTag(t), '@') && StartsClean(CutTag(t))
  {
  }

  lemma TrimShape(s: string)
    ensures StartsClean(TrimSpace(s))
  {
    var t := TrimLeft(s);
    if TrimRight(t) != [] {
      assert TrimRight(t)[0] == t[0] == s[SkipSpace(s, 0)];
    }
  }

  lemma RepositoryShape(ref: string)
    ensures Lacks(Repository(ref), '@') && StartsClean(Repository(ref))
  {
    hide TrimSpace, CutDigest, CutTag;
    TrimShape(ref);
    CutDigestShape(TrimSpace(ref));
    CutTagShape(CutDigest(TrimSpace(ref)));
  }

  lemma CutTagKeeps(t: string)
    ensures CutTag(t) == t <==> NoColonInName(t)
  {
  }

  /** A deployment pointed at a build's pinned image matches the next build of the same repository
      exactly when that repository has no colon after its last slash. */
  lemma PinnedImageMatchesAgain(registry: string, image: string, digest: string)
    ensures var repository := Repository(Compose(registry, image));
      Repository(Pin(repository, digest)) == repository <==> NoColonInName(repository)
  {
    var repository := Repository(Compose(registry, image));
    RepositoryShape(Compose(registry, image));
    DigestIsCutOff(repository, digest);
    CutTagKeeps(repository);
    hide TrimSpace, CutDigest, CutTag, NoColonInName, Compose, Pin;
  }

  lemma CleanIsUntrimmed(s: string)
    requires s != [] && !IsSpace(s[0]) && !IsSpace(s[|s| - 1])
    ensures TrimSpace(s) == s
  {
  }

  lemma NoDigestToCut(s: string)
    requires Lacks(s, '@')
    ensures CutDigest(s) == s
  {
  }

  /** Such repositories exist: a name with two colons loses one part each time. */
  lemma TwoColonsAreCutTwice()
    ensures Repository("a:b:c") == "a:b" && Repository(Pin("a:b", "d")) == "a"
  {
    CleanIsUntrimmed("a:b:c");
    NoDigestToCut("a:b:c");
    CutsLastPart("a:b", "c");
    assert "a:b" + ":" + "c" == "a:b:c";
    DigestIsCutOff("a:b", "d");
    CutsLastPart("a", "b");
    assert "a" + ":" + "b" == "a:b";
    hide TrimSpace, CutDigest, CutTag;
  }

  lemma CutsLastPart(name: string, tag: string)
    requires Lacks(tag, '/') && Lacks(tag, ':')
    ensures CutTag(name + ":" + tag) == name
  {
    var t := name + ":" + tag;
    assert t[|name|] == ':' && forall k | |name| < k < |t| :: t[k] == tag[k - |name| - 1];
    LastIndexIs(t, ':', |name|);
    assert LastIndex(t, '/') < |name|;
    assert t[..|name|] == name;
  }

  /** A build matches whatever tag or digest the deployment's image carries. */
  lemma TagAndDigestDoNotMatter(repository: string, tag: string, digest: string)
    requires repository != [] && !IsSpace(repository[0]) && !IsSpace(repository[|repository| - 1])
    requires Lacks(repository, '@') && NoColonInName(repository)
    requires tag != [] && !IsSpace(tag[|tag| - 1]) && Lacks(tag, '@') && Lacks(tag, '/') && Lacks(tag, ':')
    ensures Repository(repository) == repository
    ensures Repository(repository + ":" + tag) == repository
    ensures Repository(Pin(repository, digest)) == repository
    ensures Repository(Pin(repository + ":" + tag, digest)) == repository
  {
    var tagged := repository + ":" + tag;
    assert Lacks(tagged, '@');
    CleanIsUntrimmed(repository);
    CleanIsUntrimmed(tagged);
    NoDigestToCut(repository);
    NoDigestToCut(tagged);
    CutsLastPart(repository, tag);
    CutTagKeeps(repository);
    assert StartsClean(tagged);
    DigestIsCutOff(repository, digest);
    DigestIsCutOff(tagged, digest);
    hide TrimSpace, CutDigest, CutTag, NoColonInName, Pin;
  }

  // ------------------------------------------------------------------------------------------
  // Registries and surrounding space
  // ------------------------------------------------------------------------------------------

  /** Does `path` begin with a segment that looks like a host: with a dot, a colon, or localhost? */
  ghost predicate NamesHost(path: string) {
    exists n: nat :: IsSegment(path, n) && ('.' in path[..n] || ':' in path[..n] || path[..n] == "localhost")
  }

  /** Are the first `n` characters the first path segment? */
  predicate IsSegment(path: string, n: nat) {
    n <= |path| && Lacks(path[..n], '/') && (n < |path| ==> path[n] == '/')
  }

  lemma SegmentIsFirst(path: string, n: nat)
    ensures IsSegment(path, n) <==> n == FirstIndex(path, '/')
  {
    var i := FirstIndex(path, '/');
    assert IsSegment(path, i);
    if IsSegment(path, n) {
      assert forall k | 0 <= k < n :: path[k] == path[..n][k];
    }
  }

  lemma HostIsNamed(path: string)
    ensures HasHost(path) <==> NamesHost(path)
  {
    SegmentIsFirst(path, FirstIndex(path, '/'));
    forall n: nat | IsSegment(path, n) ensures n == FirstIndex(path, '/') { SegmentIsFirst(path, n); }
    hide FirstIndex, IsSegment;
  }

  /** The registry is put in front exactly if there is one, there is an image, and the image names neither
      that registry nor any other host; otherwise the image stays as it is. */
  lemma RegistryIsPrepended(registry: string, image: string)
    ensures var (host, path, full) := (TrimSpace(registry), TrimSpace(image), Compose(registry, image));
      && (full == path || full == host + "/" + path)
      && (full == host + "/" + path <==> host != "" && path != "" && !(host + "/" <= path) && !NamesHost(path))
  {
    HostIsNamed(TrimSpace(image));
    hide TrimSpace, HasHost, NamesHost;
    var (host, path) := (TrimSpace(registry), TrimSpace(image));
    assert |host + "/" + path| > |path|;
  }

  predicate AllSpace(s: string) { forall k | 0 <= k < |s| :: IsSpace(s[k]) }

  lemma SkipsAll(s: string, i: nat, n: nat)
    requires i <= n <= |s| && (forall k | i <= k < n :: IsSpace(s[k])) && (n < |s| ==> !IsSpace(s[n]))
    ensures SkipSpace(s, i) == n
    decreases n - i
  {
    hide IsSpace;
    if i < n { SkipsAll(s, i + 1, n); }
  }

  lemma DropsAll(s: string, n: nat)
    requires n <= |s| && (forall k | n <= k < |s| :: IsSpace(s[k])) && (n > 0 ==> !IsSpace(s[n - 1]))
    ensures DropSpace(s, |s|) == n
  {
    hide IsSpace;
  }

  /** White space around a reference does not matter. */
  lemma SurroundingSpaceIsIgnored(before: string, ref: string, after: string)
    requires AllSpace(before) && AllSpace(after) && ref != [] && !IsSpace(ref[0]) && !IsSpace(ref[|ref| - 1])
    ensures TrimSpace(before + ref + after) == ref && Repository(before + ref + after) == Repository(ref)
  {
    hide IsSpace, CutDigest, CutTag;
    var s := before + ref + after;
    assert forall k | 0 <= k < |before| :: s[k] == before[k];
    SkipsAll(s, 0, |before|);
    var t := TrimLeft(s);
    assert t == ref + after;
    assert forall k | |ref| <= k < |t| :: t[k] == after[k - |ref|];
    DropsAll(t, |ref|);
    CleanIsUntrimmed(ref);
  }
}
