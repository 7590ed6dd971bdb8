/** The Kubernetes objects the platform agent manages: how they are built from desired state, when they
    count as drifted, how they are corrected in place, and which of them the agent owns. */
module Resources {
  import opened Prelude

  type Labels = map<string, string>

  const MANAGED_BY := "app.kubernetes.io/managed-by"
  const MANAGER := "bdsplatform-agent"
  const DEPLOYMENT_ID := "bdsplatform.io/deployment-id"
  const APPLICATION_NAME := "bdsplatform.io/application-name"
  const REVISION := "bdsplatform.io/revision"
  const RELEASE_ID := "bdsplatform.io/release-id"

  datatype Kind = ConfigMapKind | PVCKind | IngressKind | DeploymentKind | ServiceKind

  datatype Key = Key(kind: Kind, namespace: string, name: string)

  datatype Meta = Meta(labels: Labels, annotations: Labels)

  datatype Backend = Backend(service: string, number: int, portName: string)

  datatype Path = Path(path: string, pathType: string, backend: Option<Backend>)

  datatype Rule = Rule(host: string, http: Option<seq<Path>>)

  datatype TLS = TLS(hosts: seq<string>, secret: string)

  /** `storage` is 0 where no request is set; `rest` stands for fields that are written but not compared. */
  datatype Object =
    | ConfigMap(meta: Meta, data: Labels, binary: Labels)
    | PVC(meta: Meta, modes: seq<string>, storageClass: Option<string>, volumeMode: Option<string>, storage: int)
    | Ingress(meta: Meta, className: Option<string>, rules: seq<Rule>, tls: seq<TLS>)
    | Deployment(meta: Meta, images: seq<string>, replicas: Option<int>, rest: string)
    | Service(meta: Meta, ports: seq<int>, rest: string)

  datatype Owner = Owner(deploymentID: string, application: string, slug: string)

  datatype Spec =
    | ConfigMapSpec(owner: Owner, labels: Labels, annotations: Labels, data: Labels, binary: Labels)
    | PVCSpec(owner: Owner, labels: Labels, annotations: Labels, modes: seq<string>, storageClass: Option<string>, volumeMode: Option<string>, storage: int)
    | IngressSpec(owner: Owner, labels: Labels, annotations: Labels, className: Option<string>, rules: seq<Rule>, tls: seq<TLS>)
    | DeploymentSpec(owner: Owner, releaseID: string, revision: string, image: string, replicas: int, rest: string)
    | ServiceSpec(owner: Owner, port: int, rest: string)

  // ------------------------------------------------------------------------------------------
  // Ownership
  // ------------------------------------------------------------------------------------------

  predicate Owned(o: Object) {
    MANAGED_BY in o.meta.labels && o.meta.labels[MANAGED_BY] == MANAGER
  }

  /** Ownership labels win over whatever the desired state brings along. */
  function ManagedLabels(labels: Labels, owner: Owner): Labels {
    var l := labels[MANAGED_BY := MANAGER][DEPLOYMENT_ID := owner.deploymentID][APPLICATION_NAME := owner.application];
    if owner.slug != "" then l["app" := owner.slug] else l
  }

  function FixedLabels(owner: Owner): Labels {
    map[MANAGED_BY := MANAGER, DEPLOYMENT_ID := owner.deploymentID, APPLICATION_NAME := owner.application, "app" := owner.slug]
  }

  /** Kinds whose objects the agent refuses to touch unless it owns them. */
  predicate Guarded(k: Kind) { k in {ConfigMapKind, PVCKind, IngressKind} }

  // ------------------------------------------------------------------------------------------
  // Building, comparing, correcting
  // ------------------------------------------------------------------------------------------

  function Build(s: Spec): Object {
    match s
    case ConfigMapSpec(owner, labels, annotations, data, binary) => ConfigMap(Meta(ManagedLabels(labels, owner), annotations), data, binary)
    case PVCSpec(owner, labels, annotations, modes, storageClass, volumeMode, storage) =>
      PVC(Meta(ManagedLabels(labels, owner), annotations), modes, storageClass, volumeMode, storage)
    case IngressSpec(owner, labels, annotations, className, rules, tls) =>
      Ingress(Meta(ManagedLabels(labels, owner), annotations), className, rules, tls)
    case DeploymentSpec(owner, releaseID, revision, image, replicas, rest) =>
      Deployment(Meta(FixedLabels(owner), map[REVISION := revision, RELEASE_ID := releaseID]), [image], Some(replicas), rest)
    case ServiceSpec(owner, port, rest) => Service(Meta(FixedLabels(owner), map[]), [port], rest)
  }

  function OrEmpty(o: Option<string>): string { if o.Some? then o.value else "" }

  /** Would the claim's fixed fields have to change, or its storage shrink? Unset wishes are not enforced. */
  predicate ImmutableChanged(o: Object, s: Spec)
    requires o.PVC? && s.PVCSpec?
  {
    || (s.modes != [] && multiset(o.modes) != multiset(s.modes))
    || (s.storageClass.Some? && OrEmpty(o.storageClass) != s.storageClass.value)
    || (s.volumeMode.Some? && OrEmpty(o.volumeMode) != s.volumeMode.value)
    || (s.storage != 0 && s.storage < o.storage)
  }

  predicate SameTLS(a: seq<TLS>, b: seq<TLS>) {
    |a| == |b| && forall i | 0 <= i < |a| :: a[i].secret == b[i].secret && multiset(a[i].hosts) == multiset(b[i].hosts)
  }

  /** Does the live object differ from desired state on what the agent compares, in a way it may correct? */
  predicate Drifted(o: Object, s: Spec) {
    match (o, s)
    case (ConfigMap(meta, data, binary), ConfigMapSpec(_, _, _, _, _)) =>
      data != s.data || binary != s.binary || meta != Build(s).meta
    case (PVC(meta, _, _, _, storage), PVCSpec(_, _, _, _, _, _, _)) =>
      !ImmutableChanged(o, s) && (meta != Build(s).meta || (s.storage != 0 && s.storage > storage))
    case (Ingress(meta, className, rules, tls), IngressSpec(_, _, _, _, _, _)) =>
      meta != Build(s).meta || (s.className.Some? && className != s.className) || rules != s.rules || !SameTLS(tls, s.tls)
    case (Deployment(meta, images, replicas, _), DeploymentSpec(_, _, _, _, _, _)) =>
      || (if REVISION in meta.annotations then meta.annotations[REVISION] else "") != s.revision
      || (images != [] && images[0] != s.image)
      || (replicas.Some? && replicas.value != s.replicas)
    case (Service(_, ports, _), ServiceSpec(_, _, _)) => ports != [] && ports[0] != s.port
    case _ => false
  }

  /** The live object with the compared fields overwritten; everything else about it stays. */
  function Corrected(o: Object, s: Spec): Object {
    match (o, s)
    case (PVC(_, modes, storageClass, volumeMode, storage), PVCSpec(_, _, _, _, _, _, _)) =>
      PVC(Build(s).meta, modes, storageClass, volumeMode, if s.storage != 0 then s.storage else storage)
    case (Ingress(_, className, _, _), IngressSpec(_, _, _, _, _, _)) =>
      Ingress(Build(s).meta, if s.className.Some? then s.className else className, s.rules, s.tls)
    case (Service(meta, _, rest), ServiceSpec(_, port, _)) => Service(Meta(Build(s).meta.labels, meta.annotations), [port], rest)
    case _ => Build(s)
  }

  /** Nothing is drifted right after it was built or corrected. */
  lemma CorrectionSettles(o: Object, s: Spec)
    ensures !Drifted(Build(s), s)
    ensures Drifted(o, s) ==> !Drifted(Corrected(o, s), s)
  {
    assert forall a: seq<TLS> :: SameTLS(a, a);
    hide ManagedLabels, FixedLabels;
  }

  /** No desired labels can take ownership away: what the agent builds or corrects, it owns. */
  lemma OwnershipCannotBeOverridden(o: Object, s: Spec)
    ensures Owned(Build(s)) && (Drifted(o, s) ==> Owned(Corrected(o, s)))
  {
  }

  /** Correcting a claim never changes its access modes, storage class or volume mode, and never asks for
      less storage. */
  lemma ClaimsOnlyGrow(o: Object, s: Spec)
    requires o.PVC? && Drifted(o, s)
    ensures var c := Corrected(o, s);
      c.PVC? && c.modes == o.modes && c.storageClass == o.storageClass && c.volumeMode == o.volumeMode && c.storage >= o.storage
  {
  }

  // ------------------------------------------------------------------------------------------
  // The comparison loops
  // ------------------------------------------------------------------------------------------

  lemma SubmultisetOfSameSize(a: multiset<string>, b: multiset<string>)
    requires b <= a && |a| == |b|
    ensures a == b
  {
    assert |a - b| == |a| - |b| by { assert a == (a - b) + b; }
    assert a - b == multiset{};
    assert a == (a - b) + b;
  }

  function Count(counts: map<string, int>, x: string): int { if x in counts then counts[x] else 0 }

  method CountUp(a: seq<string>) returns (counts: map<string, int>)
    ensures forall x :: Count(counts, x) == multiset(a)[x]
  {
    counts := map[];
    for i := 0 to |a|
      invariant forall x :: Count(counts, x) == multiset(a[..i])[x]
    {
      assert a[..i + 1] == a[..i] + [a[i]];
      counts := counts[a[i] := Count(counts, a[i]) + 1];
    }
    assert a[..|a|] == a;
  }

  lemma PrefixIsSubmultiset(b: seq<string>, i: nat)
    requires i <= |b|
    ensures multiset(b[..i]) <= multiset(b)
  {
    assert b == b[..i] + b[i..];
  }

  /** `counts` holds what is left of `a` after taking away `b`. */
  ghost predicate Left(counts: map<string, int>, a: multiset<string>, b: seq<string>) {
    forall x :: Count(counts, x) + multiset(b)[x] == a[x]
  }

  lemma TakeOne(counts: map<string, int>, a: multiset<string>, b: seq<string>, i: nat)
    requires i < |b| && Left(counts, a, b[..i])
    ensures Left(counts[b[i] := Count(counts, b[i]) - 1], a, b[..i + 1])
  {
    assert b[..i + 1] == b[..i] + [b[i]];
  }

  lemma Overdrawn(counts: map<string, int>, a: seq<string>, b: seq<string>, i: nat, x: string)
    requires i <= |b| && Left(counts, multiset(a), b[..i]) && Count(counts, x) < 0
    ensures multiset(a) != multiset(b)
  {
    PrefixIsSubmultiset(b, i);
  }

  lemma NoneLeft(counts: map<string, int>, a: seq<string>, b: seq<string>)
    requires |a| == |b| && Left(counts, multiset(a), b) && forall x :: Count(counts, x) >= 0
    ensures multiset(a) == multiset(b)
  {
    SubmultisetOfSameSize(multiset(a), multiset(b));
  }

  lemma SizesAgree(a: seq<string>, b: seq<string>)
    ensures multiset(a) == multiset(b) ==> |a| == |b|
  {
    assert |multiset(a)| == |a| && |multiset(b)| == |b|;
  }

  /** Counting up over one list and down over the other decides equality as multisets. */
  method SameElements(a: seq<string>, b: seq<string>) returns (same: bool)
    ensures same <==> multiset(a) == multiset(b)
  {
    SizesAgree(a, b);
    if |a| != |b| {
      return false;
    }
    var counts := CountUp(a);
    assert Left(counts, multiset(a), b[..0]);
    for i := 0 to |b|
      invariant Left(counts, multiset(a), b[..i]) && forall x :: Count(counts, x) >= 0
    {
      hide Left;
      TakeOne(counts, multiset(a), b, i);
      counts := counts[b[i] := Count(counts, b[i]) - 1];
      if counts[b[i]] < 0 {
        Overdrawn(counts, a, b, i + 1, b[i]);
        return false;
      }
    }
    assert b[..|b|] == b;
    NoneLeft(counts, a, b);
    same := true;
  }

  method TLSEqual(a: seq<TLS>, b: seq<TLS>) returns (same: bool)
    ensures same == SameTLS(a, b)
  {
    if |a| != |b| {
      return false;
    }
    for i := 0 to |a|
      invariant forall j | 0 <= j < i :: a[j].secret == b[j].secret && multiset(a[j].hosts) == multiset(b[j].hosts)
    {
      if a[i].secret != b[i].secret {
        return false;
      }
      var hosts := SameElements(a[i].hosts, b[i].hosts);
      if !hosts {
        return false;
      }
    }
    same := true;
  }

  method PathsEqual(a: seq<Path>, b: seq<Path>) returns (same: bool)
    ensures same == (a == b)
  {
    if |a| != |b| {
      return false;
    }
    for i := 0 to |a|
      invariant a[..i] == b[..i]
    {
      if a[i] != b[i] {
        return false;
      }
    }
    same := true;
  }

  method RulesEqual(a: seq<Rule>, b: seq<Rule>) returns (same: bool)
    ensures same == (a == b)
  {
    if |a| != |b| {
      return false;
    }
    for i := 0 to |a|
      invariant a[..i] == b[..i]
    {
      if a[i].host != b[i].host || a[i].http.Some? != b[i].http.Some? {
        return false;
      }
      if a[i].http.Some? {
        var paths := PathsEqual(a[i].http.value, b[i].http.value);
        if !paths {
          return false;
        }
      }
    }
    same := true;
  }

  method PVCImmutableChanged(o: Object, s: Spec) returns (changed: bool)
    requires o.PVC? && s.PVCSpec?
    ensures changed == ImmutableChanged(o, s)
  {
    if s.modes != [] {
      var same := SameElements(o.modes, s.modes);
      if !same {
        return true;
      }
    }
    if s.storageClass.Some? && OrEmpty(o.storageClass) != s.storageClass.value {
      return true;
    }
    if s.volumeMode.Some? && OrEmpty(o.volumeMode) != s.volumeMode.value {
      return true;
    }
    changed := s.storage != 0 && s.storage < o.storage;
  }

  method IngressNeedsUpdate(o: Object, s: Spec) returns (needs: bool)
    requires o.Ingress? && s.IngressSpec?
    ensures needs == Drifted(o, s)
  {
    if o.meta.labels != ManagedLabels(s.labels, s.owner) || o.meta.annotations != s.annotations {
      return true;
    }
    if s.className.Some? && o.className != s.className {
      return true;
    }
    var rules := RulesEqual(o.rules, s.rules);
    if !rules {
      return true;
    }
    var tls := TLSEqual(o.tls, s.tls);
    needs := !tls;
  }
}
