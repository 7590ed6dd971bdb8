/** One reconciliation cycle of the platform agent against the objects of a cluster: apply everything that
    is desired, then remove what the agent owns and nobody desires. */
module Reconciler {
  import opened Prelude
  import opened Resources

  type Store = map<Key, Object>

  // ------------------------------------------------------------------------------------------
  // Applying
  // ------------------------------------------------------------------------------------------

  /** The objects after a step, and the create, update and delete calls it made. */
  datatype Result = Result(store: Store, writes: nat)

  function Apply(store: Store, key: Key, s: Spec): Result {
    if key !in store then Result(store[key := Build(s)], 1)
    else if Guarded(key.kind) && !Owned(store[key]) then Result(store, 0)
    else if !Drifted(store[key], s) then Result(store, 0)
    else Result(store[key := Corrected(store[key], s)], 1)
  }

  datatype Want = Want(key: Key, spec: Spec)

  function ApplyAll(store: Store, wants: seq<Want>): Result
    decreases |wants|
  {
    if wants == [] then Result(store, 0)
    else
      var before := ApplyAll(store, wants[..|wants| - 1]);
      var last := Apply(before.store, wants[|wants| - 1].key, wants[|wants| - 1].spec);
      Result(last.store, before.writes + last.writes)
  }

  // ------------------------------------------------------------------------------------------
  // Desired state
  // ------------------------------------------------------------------------------------------

  datatype DesiredConfigMap = DesiredConfigMap(name: string, data: Labels, binary: Labels, labels: Labels, annotations: Labels)

  /** `storage` is None if the request does not parse. */
  datatype DesiredPVC = DesiredPVC(name: string, namespace: string, modes: seq<string>, storageClass: Option<string>,
                                   volumeMode: Option<string>, storage: Option<int>, labels: Labels, annotations: Labels)

  datatype DesiredIngress = DesiredIngress(name: string, namespace: string, className: Option<string>, rules: seq<Rule>,
                                           tls: seq<TLS>, labels: Labels, annotations: Labels)

  datatype Desired = Desired(
    owner: Owner, namespace: string, deleted: bool, releaseID: string, revision: string,
    image: string, replicas: int, port: Option<int>, rest: string,
    configMaps: seq<DesiredConfigMap>, pvcs: seq<DesiredPVC>, ingresses: seq<DesiredIngress>)

  function OrElse(a: string, b: string): string { if a != "" then a else b }

  /** An empty path type means a prefix. */
  function DefaultPath(p: Path): Path { if p.pathType == "" then p.(pathType := "Prefix") else p }

  function DefaultRule(r: Rule): Rule {
    if r.http.None? then r else r.(http := Some(seq(|r.http.value|, i requires 0 <= i < |r.http.value| => DefaultPath(r.http.value[i]))))
  }

  function DefaultRules(rules: seq<Rule>): seq<Rule> {
    seq(|rules|, i requires 0 <= i < |rules| => DefaultRule(rules[i]))
  }

  function ConfigMapWant(ns: string, d: Desired, w: DesiredConfigMap): seq<Want> {
    if w.name == "" then []
    else [Want(Key(ConfigMapKind, OrElse(d.namespace, ns), w.name), ConfigMapSpec(d.owner, w.labels, w.annotations, w.data, w.binary))]
  }

  function PVCWant(ns: string, d: Desired, w: DesiredPVC): seq<Want> {
    if w.name == "" || w.storage.None? then []
    else [Want(Key(PVCKind, OrElse(OrElse(w.namespace, d.namespace), ns), w.name),
               PVCSpec(d.owner, w.labels, w.annotations, w.modes, w.storageClass, w.volumeMode, w.storage.value))]
  }

  function IngressWant(ns: string, d: Desired, w: DesiredIngress): seq<Want> {
    if w.name == "" then []
    else [Want(Key(IngressKind, OrElse(OrElse(w.namespace, d.namespace), ns), w.name),
               IngressSpec(d.owner, w.labels, w.annotations, w.className, DefaultRules(w.rules), w.tls))]
  }

  function ConfigMapWants(ns: string, d: Desired, n: nat): seq<Want>
    requires n <= |d.configMaps|
  {
    if n == 0 then [] else ConfigMapWants(ns, d, n - 1) + ConfigMapWant(ns, d, d.configMaps[n - 1])
  }

  function PVCWants(ns: string, d: Desired, n: nat): seq<Want>
    requires n <= |d.pvcs|
  {
    if n == 0 then [] else PVCWants(ns, d, n - 1) + PVCWant(ns, d, d.pvcs[n - 1])
  }

  function IngressWants(ns: string, d: Desired, n: nat): seq<Want>
    requires n <= |d.ingresses|
  {
    if n == 0 then [] else IngressWants(ns, d, n - 1) + IngressWant(ns, d, d.ingresses[n - 1])
  }

  function WorkloadWants(ns: string, d: Desired): seq<Want> {
    [Want(Key(DeploymentKind, ns, d.owner.slug), DeploymentSpec(d.owner, d.releaseID, d.revision, d.image, d.replicas, d.rest))]
      + if d.port.None? then [] else [Want(Key(ServiceKind, ns, d.owner.slug), ServiceSpec(d.owner, d.port.value, d.rest))]
  }

  /** What one desired deployment asks for, in the order it is applied. */
  function WantsOf(ns: string, d: Desired): seq<Want> {
    if d.deleted then []
    else ConfigMapWants(ns, d, |d.configMaps|) + PVCWants(ns, d, |d.pvcs|) + WorkloadWants(ns, d) + IngressWants(ns, d, |d.ingresses|)
  }

  function Wants(ns: string, desired: seq<Desired>): seq<Want>
    decreases |desired|
  {
    if desired == [] then [] else Wants(ns, desired[..|desired| - 1]) + WantsOf(ns, desired[|desired| - 1])
  }

  /** The names of one kind that some desired deployment lists, applicable or not. */
  function NamesOf(d: Desired, k: Kind): set<string> {
    if d.deleted then {}
    else match k
      case ConfigMapKind => set i | 0 <= i < |d.configMaps| :: d.configMaps[i].name
      case PVCKind => set i | 0 <= i < |d.pvcs| :: d.pvcs[i].name
      case IngressKind => set i | 0 <= i < |d.ingresses| :: d.ingresses[i].name
      case _ => {d.owner.slug}
  }

  function Keep(desired: seq<Desired>, k: Kind): set<string>
    decreases |desired|
  {
    if desired == [] then {} else Keep(desired[..|desired| - 1], k) + NamesOf(desired[|desired| - 1], k)
  }

  // ------------------------------------------------------------------------------------------
  // Collecting
  // ------------------------------------------------------------------------------------------

  /** Objects of kind `k` that the agent owns in its namespace under a name not to be kept. */
  function Orphans(store: Store, ns: string, k: Kind, keep: set<string>): set<Key> {
    set key | key in store && key.kind == k && key.namespace == ns && Owned(store[key]) && key.name !in keep
  }

  function ServicesOf(keys: set<Key>): set<Key> { set key | key in keys :: Key(ServiceKind, key.namespace, key.name) }

  /** An orphaned deployment takes the service of its name with it; two calls are made for each. */
  function CollectDeployments(store: Store, ns: string, keep: set<string>): Result {
    var orphans := Orphans(store, ns, DeploymentKind, keep);
    Result(store - orphans - ServicesOf(orphans), 2 * |orphans|)
  }

  function Collect(store: Store, ns: string, k: Kind, keep: set<string>): Result {
    var orphans := Orphans(store, ns, k, keep);
    Result(store - orphans, |orphans|)
  }

  function CollectAll(store: Store, ns: string, desired: seq<Desired>): Result {
    var a := CollectDeployments(store, ns, Keep(desired, DeploymentKind));
    var b := Collect(a.store, ns, ConfigMapKind, Keep(desired, ConfigMapKind));
    var c := Collect(b.store, ns, PVCKind, Keep(desired, PVCKind));
    var d := Collect(c.store, ns, IngressKind, Keep(desired, IngressKind));
    Result(d.store, a.writes + b.writes + c.writes + d.writes)
  }

  function Cycle(store: Store, ns: string, desired: seq<Desired>): Result {
    var applied := ApplyAll(store, Wants(ns, desired));
    var collected := CollectAll(applied.store, ns, desired);
    Result(collected.store, applied.writes + collected.writes)
  }

  // ------------------------------------------------------------------------------------------
  // Convergence
  // ------------------------------------------------------------------------------------------

  ghost predicate DistinctKeys(wants: seq<Want>) {
    forall i, j | 0 <= i < j < |wants| :: wants[i].key != wants[j].key
  }

  /** Applying `w` again would make no call. */
  predicate Settled(store: Store, w: Want) { w.key in store && Apply(store, w.key, w.spec) == Result(store, 0) }

  lemma ApplySettles(store: Store, w: Want)
    ensures Settled(Apply(store, w.key, w.spec).store, w)
  {
    if w.key in store { CorrectionSettles(store[w.key], w.spec); } else { CorrectionSettles(Build(w.spec), w.spec); }
    hide Build, Drifted, Corrected, Owned;
  }

  lemma ApplyKeepsSettled(store: Store, w: Want, other: Want)
    requires Settled(store, other) && w.key != other.key
    ensures Settled(Apply(store, w.key, w.spec).store, other)
  {
    hide Build, Drifted, Corrected, Owned;
  }

  lemma {:induction false} AllSettle(store: Store, wants: seq<Want>, i: nat)
    requires DistinctKeys(wants) && i < |wants|
    ensures Settled(ApplyAll(store, wants).store, wants[i])
    decreases |wants|
  {
    hide Apply, Settled;
    var init := wants[..|wants| - 1];
    var last := wants[|wants| - 1];
    var before := ApplyAll(store, init).store;
    if i == |init| {
      ApplySettles(before, last);
    } else {
      AllSettle(store, init, i);
      assert wants[i].key != last.key;
      ApplyKeepsSettled(before, last, init[i]);
    }
  }

  lemma {:induction false} SettledIsQuiet(store: Store, wants: seq<Want>)
    requires forall i | 0 <= i < |wants| :: Settled(store, wants[i])
    ensures ApplyAll(store, wants) == Result(store, 0)
    decreases |wants|
  {
    hide Apply;
    if wants != [] {
      assert forall i | 0 <= i < |wants| - 1 :: wants[..|wants| - 1][i] == wants[i];
      SettledIsQuiet(store, wants[..|wants| - 1]);
      assert Settled(store, wants[|wants| - 1]);
    }
  }

  lemma {:induction false} KeepGrows(desired: seq<Desired>, i: nat, k: Kind)
    requires i < |desired|
    ensures NamesOf(desired[i], k) <= Keep(desired, k)
    decreases |desired|
  {
    hide NamesOf;
    if i < |desired| - 1 {
      KeepGrows(desired[..|desired| - 1], i, k);
    }
  }

  lemma {:induction false} ConfigMapWantFrom(ns: string, d: Desired, n: nat, i: nat) returns (j: nat)
    requires n <= |d.configMaps| && i < |ConfigMapWants(ns, d, n)|
    ensures j < n && ConfigMapWant(ns, d, d.configMaps[j]) == [ConfigMapWants(ns, d, n)[i]]
  {
    hide ConfigMapWant;
    if i < |ConfigMapWants(ns, d, n - 1)| {
      j := ConfigMapWantFrom(ns, d, n - 1, i);
    } else {
      j := n - 1;
      ConfigMapWantSingle(ns, d, d.configMaps[j]);
    }
  }

  lemma ConfigMapWantSingle(ns: string, d: Desired, w: DesiredConfigMap)
    ensures |ConfigMapWant(ns, d, w)| <= 1
  {
  }

  lemma {:induction false} PVCWantFrom(ns: string, d: Desired, n: nat, i: nat) returns (j: nat)
    requires n <= |d.pvcs| && i < |PVCWants(ns, d, n)|
    ensures j < n && PVCWant(ns, d, d.pvcs[j]) == [PVCWants(ns, d, n)[i]]
  {
    hide PVCWant;
    if i < |PVCWants(ns, d, n - 1)| {
      j := PVCWantFrom(ns, d, n - 1, i);
    } else {
      j := n - 1;
      PVCWantSingle(ns, d, d.pvcs[j]);
    }
  }

  lemma PVCWantSingle(ns: string, d: Desired, w: DesiredPVC)
    ensures |PVCWant(ns, d, w)| <= 1
  {
  }

  lemma {:induction false} IngressWantFrom(ns: string, d: Desired, n: nat, i: nat) returns (j: nat)
    requires n <= |d.ingresses| && i < |IngressWants(ns, d, n)|
    ensures j < n && IngressWant(ns, d, d.ingresses[j]) == [IngressWants(ns, d, n)[i]]
  {
    hide IngressWant;
    if i < |IngressWants(ns, d, n - 1)| {
      j := IngressWantFrom(ns, d, n - 1, i);
    } else {
      j := n - 1;
      IngressWantSingle(ns, d, d.ingresses[j]);
    }
  }

  lemma IngressWantSingle(ns: string, d: Desired, w: DesiredIngress)
    ensures |IngressWant(ns, d, w)| <= 1
  {
  }

  /** Does desired deployment `d` ask for the object `key`? */
  ghost predicate Asks(ns: string, d: Desired, key: Key) {
    && !d.deleted
    && match key.kind
       case ConfigMapKind => exists j :: 0 <= j < |d.configMaps| && AsksConfigMap(ns, d, d.configMaps[j], key)
       case PVCKind => exists j :: 0 <= j < |d.pvcs| && AsksPVC(ns, d, d.pvcs[j], key)
       case IngressKind => exists j :: 0 <= j < |d.ingresses| && AsksIngress(ns, d, d.ingresses[j], key)
       case DeploymentKind => key == Key(DeploymentKind, ns, d.owner.slug)
       case ServiceKind => d.port.Some? && key == Key(ServiceKind, ns, d.owner.slug)
  }

  /** An object goes where it asks to, else where its deployment does, else to the agent's namespace. */
  function Place(ns: string, d: Desired, own: string): string {
    if own != "" then own else if d.namespace != "" then d.namespace else ns
  }

  predicate AsksConfigMap(ns: string, d: Desired, w: DesiredConfigMap, key: Key) {
    w.name != "" && key == Key(ConfigMapKind, Place(ns, d, ""), w.name)
  }

  predicate AsksPVC(ns: string, d: Desired, w: DesiredPVC, key: Key) {
    w.name != "" && w.storage.Some? && key == Key(PVCKind, Place(ns, d, w.namespace), w.name)
  }

  predicate AsksIngress(ns: string, d: Desired, w: DesiredIngress, key: Key) {
    w.name != "" && key == Key(IngressKind, Place(ns, d, w.namespace), w.name)
  }

  lemma AskedConfigMap(ns: string, d: Desired, i: nat)
    requires i < |ConfigMapWants(ns, d, |d.configMaps|)| && !d.deleted
    ensures Asks(ns, d, ConfigMapWants(ns, d, |d.configMaps|)[i].key)
  {
    var j := ConfigMapWantFrom(ns, d, |d.configMaps|, i);
    hide ConfigMapWants;
    assert AsksConfigMap(ns, d, d.configMaps[j], ConfigMapWants(ns, d, |d.configMaps|)[i].key);
  }

  lemma AskedPVC(ns: string, d: Desired, i: nat)
    requires i < |PVCWants(ns, d, |d.pvcs|)| && !d.deleted
    ensures Asks(ns, d, PVCWants(ns, d, |d.pvcs|)[i].key)
  {
    var j := PVCWantFrom(ns, d, |d.pvcs|, i);
    hide PVCWants;
    assert AsksPVC(ns, d, d.pvcs[j], PVCWants(ns, d, |d.pvcs|)[i].key);
  }

  lemma AskedIngress(ns: string, d: Desired, i: nat)
    requires i < |IngressWants(ns, d, |d.ingresses|)| && !d.deleted
    ensures Asks(ns, d, IngressWants(ns, d, |d.ingresses|)[i].key)
  {
    var j := IngressWantFrom(ns, d, |d.ingresses|, i);
    hide IngressWants, DefaultRules;
    assert AsksIngress(ns, d, d.ingresses[j], IngressWants(ns, d, |d.ingresses|)[i].key);
  }

  lemma AskedWorkload(ns: string, d: Desired, i: nat)
    requires i < |WorkloadWants(ns, d)| && !d.deleted
    ensures Asks(ns, d, WorkloadWants(ns, d)[i].key)
  {
  }

  lemma WantOfIsAsked(ns: string, d: Desired, i: nat)
    requires i < |WantsOf(ns, d)|
    ensures Asks(ns, d, WantsOf(ns, d)[i].key)
  {
    var a, b, c := ConfigMapWants(ns, d, |d.configMaps|), PVCWants(ns, d, |d.pvcs|), WorkloadWants(ns, d);
    hide ConfigMapWants, PVCWants, IngressWants, WorkloadWants, Asks;
    if i < |a| {
      AskedConfigMap(ns, d, i);
    } else if i < |a| + |b| {
      AskedPVC(ns, d, i - |a|);
    } else if i < |a| + |b| + |c| {
      AskedWorkload(ns, d, i - |a| - |b|);
    } else {
      AskedIngress(ns, d, i - |a| - |b| - |c|);
    }
  }

  lemma AskedIsNamed(ns: string, d: Desired, key: Key)
    requires Asks(ns, d, key)
    ensures key.name in NamesOf(d, key.kind)
  {
  }

  lemma WantOfIsNamed(ns: string, d: Desired, i: nat)
    requires i < |WantsOf(ns, d)|
    ensures WantsOf(ns, d)[i].key.name in NamesOf(d, WantsOf(ns, d)[i].key.kind)
  {
    hide *;
    WantOfIsAsked(ns, d, i);
    AskedIsNamed(ns, d, WantsOf(ns, d)[i].key);
  }

  /** Everything applied is kept. */
  lemma {:induction false} WantsAreKept(ns: string, desired: seq<Desired>, i: nat)
    requires i < |Wants(ns, desired)|
    ensures Wants(ns, desired)[i].key.name in Keep(desired, Wants(ns, desired)[i].key.kind)
    decreases |desired|
  {
    hide WantsOf, NamesOf;
    var init := desired[..|desired| - 1];
    if i < |Wants(ns, init)| {
      WantsAreKept(ns, init, i);
    } else {
      WantOfIsNamed(ns, desired[|desired| - 1], i - |Wants(ns, init)|);
    }
  }

  lemma {:induction false} ServicesShareNames(desired: seq<Desired>)
    ensures Keep(desired, ServiceKind) == Keep(desired, DeploymentKind)
    decreases |desired|
  {
    if desired != [] {
      ServicesShareNames(desired[..|desired| - 1]);
    }
  }

  lemma CollectedOne(store: Store, ns: string, k: Kind, keep: set<string>, key: Key)
    ensures var left := Collect(store, ns, k, keep).store;
      && (key in left <==> key in store && !(key.kind == k && key.namespace == ns && Owned(store[key]) && key.name !in keep))
      && (key in left ==> left[key] == store[key])
  {
    hide Owned;
  }

  lemma CollectedDeployment(store: Store, ns: string, keep: set<string>, key: Key)
    ensures var left := CollectDeployments(store, ns, keep).store;
      && (key in left ==> key in store && left[key] == store[key])
      && (key in store && key !in left ==> key.namespace == ns && key.name !in keep && key.kind in {DeploymentKind, ServiceKind})
      && (key in left && key.kind == DeploymentKind && key.namespace == ns && Owned(store[key]) ==> key.name in keep)
  {
    hide Owned;
  }

  /** What a collection leaves: the store without orphans, and without the services of orphaned deployments. */
  lemma CollectedIs(store: Store, ns: string, desired: seq<Desired>, key: Key)
    ensures var left := CollectAll(store, ns, desired).store;
      && (key in left ==> key in store && left[key] == store[key])
      && (key in store && key !in left ==> key.namespace == ns && key.name !in Keep(desired, key.kind))
      && (key in left && key.namespace == ns && key.kind != ServiceKind && Owned(left[key]) ==> key.name in Keep(desired, key.kind))
  {
    ServicesShareNames(desired);
    var a := CollectDeployments(store, ns, Keep(desired, DeploymentKind)).store;
    var b := Collect(a, ns, ConfigMapKind, Keep(desired, ConfigMapKind)).store;
    var c := Collect(b, ns, PVCKind, Keep(desired, PVCKind)).store;
    CollectedDeployment(store, ns, Keep(desired, DeploymentKind), key);
    CollectedOne(a, ns, ConfigMapKind, Keep(desired, ConfigMapKind), key);
    CollectedOne(b, ns, PVCKind, Keep(desired, PVCKind), key);
    CollectedOne(c, ns, IngressKind, Keep(desired, IngressKind), key);
    hide Owned, Keep, Collect, CollectDeployments;
  }

  lemma CollectKeepsSettled(store: Store, ns: string, desired: seq<Desired>, w: Want)
    requires Settled(store, w) && w.key.name in Keep(desired, w.key.kind)
    ensures Settled(CollectAll(store, ns, desired).store, w)
  {
    CollectedIs(store, ns, desired, w.key);
    hide CollectAll, Keep, Owned, Drifted, Build, Corrected;
  }

  lemma NothingToCollect(store: Store, ns: string, desired: seq<Desired>)
    requires forall key | key in store && key.namespace == ns && key.kind != ServiceKind && Owned(store[key]) :: key.name in Keep(desired, key.kind)
    ensures CollectAll(store, ns, desired) == Result(store, 0)
  {
    hide Owned, Keep;
    assert Orphans(store, ns, DeploymentKind, Keep(desired, DeploymentKind)) == {};
    assert Orphans(store, ns, ConfigMapKind, Keep(desired, ConfigMapKind)) == {};
    assert Orphans(store, ns, PVCKind, Keep(desired, PVCKind)) == {};
    assert Orphans(store, ns, IngressKind, Keep(desired, IngressKind)) == {};
    assert ServicesOf({}) == {};
    assert store - {} - {} == store && store - {} == store;
    hide Orphans, ServicesOf;
  }

  /** With unchanged desired state and distinct names, a second cycle makes no create, update or delete
      call and changes nothing; and after the first cycle nothing the agent owns in its namespace, apart
      from services, lies outside the desired names. */
  lemma CyclesConverge(store: Store, ns: string, desired: seq<Desired>)
    requires DistinctKeys(Wants(ns, desired))
    ensures var after := Cycle(store, ns, desired).store;
      && Cycle(after, ns, desired) == Result(after, 0)
      && forall key | key in after && key.namespace == ns && key.kind != ServiceKind && Owned(after[key]) :: key.name in Keep(desired, key.kind)
  {
    var wants := Wants(ns, desired);
    var applied := ApplyAll(store, wants).store;
    var after := CollectAll(applied, ns, desired).store;
    assert after == Cycle(store, ns, desired).store;
    hide Wants, Keep, ApplyAll, CollectAll, Settled, Owned;
    forall i | 0 <= i < |wants| ensures Settled(after, wants[i]) {
      AllSettle(store, wants, i);
      WantsAreKept(ns, desired, i);
      CollectKeepsSettled(applied, ns, desired, wants[i]);
    }
    SettledIsQuiet(after, wants);
    forall key | key in after && key.namespace == ns && key.kind != ServiceKind && Owned(after[key]) ensures key.name in Keep(desired, key.kind) {
      CollectedIs(applied, ns, desired, key);
    }
    NothingToCollect(after, ns, desired);
  }

  /** Distinct names are needed: two wishes for one object that build different objects overwrite each
      other in every cycle, unless the object is someone else's. */
  lemma RivalsNeverSettle(store: Store, a: Want, b: Want)
    requires a.key == b.key && a.spec.ConfigMapSpec? && b.spec.ConfigMapSpec? && Build(a.spec) != Build(b.spec)
    requires a.key in store ==> store[a.key].ConfigMap? && Owned(store[a.key])
    ensures ApplyAll(store, [a, b]).writes > 0
    ensures var after := ApplyAll(store, [a, b]).store; a.key in after && after[a.key] == Build(b.spec) && Owned(after[a.key])
  {
    TwoWants(store, a, b);
    AppliedConfigMap(store, a);
    var middle := Apply(store, a.key, a.spec).store;
    AppliedConfigMap(middle, b);
    hide ApplyAll, Apply, Build, Owned;
  }

  lemma TwoWants(store: Store, a: Want, b: Want)
    ensures var (first, second) := (Apply(store, a.key, a.spec), Apply(Apply(store, a.key, a.spec).store, b.key, b.spec));
      ApplyAll(store, [a, b]) == Result(second.store, first.writes + second.writes)
  {
    hide Apply;
    assert [a, b][..1] == [a] && [a][..0] == [];
    assert ApplyAll(store, [a]) == Apply(store, a.key, a.spec);
  }

  /** A config map the agent may touch is exactly what was asked for afterwards, and was written unless it
      was that before. */
  lemma AppliedConfigMap(store: Store, w: Want)
    requires w.spec.ConfigMapSpec? && (w.key in store ==> store[w.key].ConfigMap? && Owned(store[w.key]))
    ensures var r := Apply(store, w.key, w.spec);
      && w.key in r.store && r.store[w.key] == Build(w.spec) && Build(w.spec).ConfigMap? && Owned(Build(w.spec))
      && (r.writes > 0 <==> w.key !in store || store[w.key] != Build(w.spec))
  {
    OwnershipCannotBeOverridden(Build(w.spec), w.spec);
    hide Owned, ManagedLabels;
  }

  // ------------------------------------------------------------------------------------------
  // The desired state is reached
  // ------------------------------------------------------------------------------------------

  /** No object is asked for twice. */
  ghost predicate DistinctNames(ns: string, desired: seq<Desired>) {
    && (forall i, j, key | 0 <= i < j < |desired| && Asks(ns, desired[i], key) :: !Asks(ns, desired[j], key))
    && (forall i | 0 <= i < |desired| :: NoTwins(ns, desired[i]))
  }

  ghost predicate NoTwins(ns: string, d: Desired) {
    && (forall j, k, key | 0 <= j < k < |d.configMaps| && AsksConfigMap(ns, d, d.configMaps[j], key) :: !AsksConfigMap(ns, d, d.configMaps[k], key))
    && (forall j, k, key | 0 <= j < k < |d.pvcs| && AsksPVC(ns, d, d.pvcs[j], key) :: !AsksPVC(ns, d, d.pvcs[k], key))
    && (forall j, k, key | 0 <= j < k < |d.ingresses| && AsksIngress(ns, d, d.ingresses[j], key) :: !AsksIngress(ns, d, d.ingresses[k], key))
  }

  lemma DistinctConcat(a: seq<Want>, b: seq<Want>)
    requires DistinctKeys(a) && DistinctKeys(b) && forall i, j | 0 <= i < |a| && 0 <= j < |b| :: a[i].key != b[j].key
    ensures DistinctKeys(a + b)
  {
  }

  lemma ConfigMapWantAsks(ns: string, d: Desired, w: DesiredConfigMap)
    ensures ConfigMapWant(ns, d, w) != [] ==> AsksConfigMap(ns, d, w, ConfigMapWant(ns, d, w)[0].key)
    ensures |ConfigMapWant(ns, d, w)| <= 1
  {
  }

  lemma PVCWantAsks(ns: string, d: Desired, w: DesiredPVC)
    ensures PVCWant(ns, d, w) != [] ==> AsksPVC(ns, d, w, PVCWant(ns, d, w)[0].key)
    ensures |PVCWant(ns, d, w)| <= 1
  {
  }

  lemma IngressWantAsks(ns: string, d: Desired, w: DesiredIngress)
    ensures IngressWant(ns, d, w) != [] ==> AsksIngress(ns, d, w, IngressWant(ns, d, w)[0].key)
    ensures |IngressWant(ns, d, w)| <= 1
  {
  }

  lemma {:induction false} ConfigMapWantsDistinct(ns: string, d: Desired, n: nat)
    requires n <= |d.configMaps| && NoTwins(ns, d)
    ensures DistinctKeys(ConfigMapWants(ns, d, n))
  {
    hide ConfigMapWant, AsksConfigMap;
    if n > 0 {
      var (init, last) := (ConfigMapWants(ns, d, n - 1), ConfigMapWant(ns, d, d.configMaps[n - 1]));
      ConfigMapWantsDistinct(ns, d, n - 1);
      ConfigMapWantAsks(ns, d, d.configMaps[n - 1]);
      forall i | 0 <= i < |init| ensures last != [] ==> init[i].key != last[0].key {
        var j := ConfigMapWantFrom(ns, d, n - 1, i);
        ConfigMapWantAsks(ns, d, d.configMaps[j]);
      }
      DistinctConcat(init, last);
    }
  }

  lemma {:induction false} PVCWantsDistinct(ns: string, d: Desired, n: nat)
    requires n <= |d.pvcs| && NoTwins(ns, d)
    ensures DistinctKeys(PVCWants(ns, d, n))
  {
    hide PVCWant, AsksPVC;
    if n > 0 {
      var (init, last) := (PVCWants(ns, d, n - 1), PVCWant(ns, d, d.pvcs[n - 1]));
      PVCWantsDistinct(ns, d, n - 1);
      PVCWantAsks(ns, d, d.pvcs[n - 1]);
      forall i | 0 <= i < |init| ensures last != [] ==> init[i].key != last[0].key {
        var j := PVCWantFrom(ns, d, n - 1, i);
        PVCWantAsks(ns, d, d.pvcs[j]);
      }
      DistinctConcat(init, last);
    }
  }

  lemma {:induction false} IngressWantsDistinct(ns: string, d: Desired, n: nat)
    requires n <= |d.ingresses| && NoTwins(ns, d)
    ensures DistinctKeys(IngressWants(ns, d, n))
  {
    hide IngressWant, AsksIngress;
    if n > 0 {
      var (init, last) := (IngressWants(ns, d, n - 1), IngressWant(ns, d, d.ingresses[n - 1]));
      IngressWantsDistinct(ns, d, n - 1);
      IngressWantAsks(ns, d, d.ingresses[n - 1]);
      forall i | 0 <= i < |init| ensures last != [] ==> init[i].key != last[0].key {
        var j := IngressWantFrom(ns, d, n - 1, i);
        IngressWantAsks(ns, d, d.ingresses[j]);
      }
      DistinctConcat(init, last);
    }
  }

  lemma WantKinds(ns: string, d: Desired)
    ensures forall i | 0 <= i < |ConfigMapWants(ns, d, |d.configMaps|)| :: ConfigMapWants(ns, d, |d.configMaps|)[i].key.kind == ConfigMapKind
    ensures forall i | 0 <= i < |PVCWants(ns, d, |d.pvcs|)| :: PVCWants(ns, d, |d.pvcs|)[i].key.kind == PVCKind
    ensures forall i | 0 <= i < |IngressWants(ns, d, |d.ingresses|)| :: IngressWants(ns, d, |d.ingresses|)[i].key.kind == IngressKind
    ensures forall i | 0 <= i < |WorkloadWants(ns, d)| :: WorkloadWants(ns, d)[i].key.kind in {DeploymentKind, ServiceKind}
  {
    hide ConfigMapWants, PVCWants, IngressWants;
    forall i | 0 <= i < |ConfigMapWants(ns, d, |d.configMaps|)| ensures ConfigMapWants(ns, d, |d.configMaps|)[i].key.kind == ConfigMapKind {
      var j := ConfigMapWantFrom(ns, d, |d.configMaps|, i);
      ConfigMapWantAsks(ns, d, d.configMaps[j]);
    }
    forall i | 0 <= i < |PVCWants(ns, d, |d.pvcs|)| ensures PVCWants(ns, d, |d.pvcs|)[i].key.kind == PVCKind {
      var j := PVCWantFrom(ns, d, |d.pvcs|, i);
      PVCWantAsks(ns, d, d.pvcs[j]);
    }
    forall i | 0 <= i < |IngressWants(ns, d, |d.ingresses|)| ensures IngressWants(ns, d, |d.ingresses|)[i].key.kind == IngressKind {
      var j := IngressWantFrom(ns, d, |d.ingresses|, i);
      IngressWantAsks(ns, d, d.ingresses[j]);
    }
  }

  lemma WantsOfDistinct(ns: string, d: Desired)
    requires NoTwins(ns, d)
    ensures DistinctKeys(WantsOf(ns, d))
  {
    var a, b, c, e := ConfigMapWants(ns, d, |d.configMaps|), PVCWants(ns, d, |d.pvcs|), WorkloadWants(ns, d), IngressWants(ns, d, |d.ingresses|);
    ConfigMapWantsDistinct(ns, d, |d.configMaps|);
    PVCWantsDistinct(ns, d, |d.pvcs|);
    IngressWantsDistinct(ns, d, |d.ingresses|);
    WantKinds(ns, d);
    hide ConfigMapWants, PVCWants, IngressWants, NoTwins;
    assert DistinctKeys(c);
    hide WorkloadWants;
    DistinctConcat(a, b);
    DistinctConcat(a + b, c);
    DistinctConcat(a + b + c, e);
  }

  lemma {:induction false} WantIsAsked(ns: string, desired: seq<Desired>, i: nat) returns (j: nat)
    requires i < |Wants(ns, desired)|
    ensures j < |desired| && Asks(ns, desired[j], Wants(ns, desired)[i].key)
    decreases |desired|
  {
    hide WantsOf, Asks;
    var init := desired[..|desired| - 1];
    if i < |Wants(ns, init)| {
      j := WantIsAsked(ns, init, i);
    } else {
      j := |init|;
      WantOfIsAsked(ns, desired[j], i - |Wants(ns, init)|);
    }
  }

  lemma {:induction false} NamesMakeKeys(ns: string, desired: seq<Desired>)
    requires DistinctNames(ns, desired)
    ensures DistinctKeys(Wants(ns, desired))
    decreases |desired|
  {
    hide WantsOf, Asks, NoTwins;
    if desired != [] {
      var (init, last) := (desired[..|desired| - 1], desired[|desired| - 1]);
      assert forall i | 0 <= i < |init| :: init[i] == desired[i];
      NamesMakeKeys(ns, init);
      WantsOfDistinct(ns, last);
      forall i, j | 0 <= i < |Wants(ns, init)| && 0 <= j < |WantsOf(ns, last)|
        ensures Wants(ns, init)[i].key != WantsOf(ns, last)[j].key
      {
        var k := WantIsAsked(ns, init, i);
        WantOfIsAsked(ns, last, j);
      }
      DistinctConcat(Wants(ns, init), WantsOf(ns, last));
    }
  }

  lemma {:induction false} UnaskedIsUntouched(store: Store, wants: seq<Want>, key: Key)
    requires forall i | 0 <= i < |wants| :: wants[i].key != key
    ensures key in ApplyAll(store, wants).store <==> key in store
    ensures key in store ==> ApplyAll(store, wants).store[key] == store[key]
    decreases |wants|
  {
    if wants != [] {
      assert forall i | 0 <= i < |wants| - 1 :: wants[..|wants| - 1][i] == wants[i];
      UnaskedIsUntouched(store, wants[..|wants| - 1], key);
      hide Owned, Drifted, Build, Corrected;
    }
  }

  /** With distinct keys every wish lands as if it were the only one. */
  lemma {:induction false} AllLand(store: Store, wants: seq<Want>, i: nat)
    requires DistinctKeys(wants) && i < |wants|
    ensures var (w, after) := (wants[i], ApplyAll(store, wants).store);
      w.key in after && w.key in Apply(store, w.key, w.spec).store && after[w.key] == Apply(store, w.key, w.spec).store[w.key]
    decreases |wants|
  {
    var (init, last) := (wants[..|wants| - 1], wants[|wants| - 1]);
    if i == |init| {
      UnaskedIsUntouched(store, init, last.key);
    } else {
      assert init[i] == wants[i] && DistinctKeys(init);
      AllLand(store, init, i);
    }
    hide Owned, Drifted, Build, Corrected;
  }

  lemma {:induction false} WantsContain(ns: string, desired: seq<Desired>, i: nat, w: Want)
    requires i < |desired| && w in WantsOf(ns, desired[i])
    ensures w in Wants(ns, desired)
    decreases |desired|
  {
    hide WantsOf;
    if i < |desired| - 1 {
      WantsContain(ns, desired[..|desired| - 1], i, w);
    }
  }

  /** After a cycle a wished-for object is what applying that one wish to the first state makes of it. */
  lemma WishLands(store: Store, ns: string, desired: seq<Desired>, i: nat, w: Want)
    requires DistinctNames(ns, desired) && i < |desired| && w in WantsOf(ns, desired[i])
    ensures var after := Cycle(store, ns, desired).store;
      w.key in after && w.key in Apply(store, w.key, w.spec).store && after[w.key] == Apply(store, w.key, w.spec).store[w.key]
  {
    WantsContain(ns, desired, i, w);
    NamesMakeKeys(ns, desired);
    var wants := Wants(ns, desired);
    var p :| 0 <= p < |wants| && wants[p] == w;
    AllLand(store, wants, p);
    WantsAreKept(ns, desired, p);
    var applied := ApplyAll(store, wants).store;
    CollectedIs(applied, ns, desired, w.key);
    hide Wants, WantsOf, ApplyAll, CollectAll, Apply, Keep;
  }

  /** An object of a guarded kind that is there and belongs to someone else. */
  predicate Foreign(store: Store, key: Key) { key in store && !Owned(store[key]) }

  /** The deployment object runs the wished image, replicas and revision. An object without containers or
      without a replica count keeps that, if nothing else about it had to change. */
  ghost predicate RunsDeployment(before: Store, after: Store, ns: string, d: Desired) {
    var key := Key(DeploymentKind, ns, d.owner.slug);
    && key in after && after[key].Deployment?
    && var o := after[key];
    && (if REVISION in o.meta.annotations then o.meta.annotations[REVISION] else "") == d.revision
    && (o.images == [] || o.images[0] == d.image)
    && (o.replicas == None || o.replicas == Some(d.replicas))
    && (o.images == [] || o.replicas == None ==> key in before && o == before[key])
  }

  /** The service listens on the wished port; one without ports is left alone. */
  ghost predicate ServesPort(before: Store, after: Store, ns: string, d: Desired) {
    var key := Key(ServiceKind, ns, d.owner.slug);
    d.port.Some? ==>
      && key in after && after[key].Service?
      && (after[key].ports == [] ==> key in before && after[key] == before[key])
      && (after[key].ports != [] ==> after[key].ports[0] == d.port.value)
  }

  ghost predicate HoldsConfigMap(before: Store, after: Store, ns: string, d: Desired, w: DesiredConfigMap) {
    var key := Key(ConfigMapKind, Place(ns, d, ""), w.name);
    w.name != "" ==>
      && key in after
      && if Foreign(before, key) then after[key] == before[key]
         else after[key].ConfigMap? && after[key].data == w.data && after[key].binary == w.binary
              && after[key].meta.annotations == w.annotations && Owned(after[key])
              && OwnerIs(after[key], d.owner)
  }

  /** The object says which deployment and application it belongs to. */
  predicate OwnerIs(o: Object, owner: Owner) {
    && DEPLOYMENT_ID in o.meta.labels && o.meta.labels[DEPLOYMENT_ID] == owner.deploymentID
    && APPLICATION_NAME in o.meta.labels && o.meta.labels[APPLICATION_NAME] == owner.application
  }

  /** Would the wish change a claim's fixed fields, or shrink it? */
  predicate HeldBack(o: Object, w: DesiredPVC) {
    && o.PVC? && w.storage.Some?
    && (|| (w.modes != [] && multiset(w.modes) != multiset(o.modes))
        || (w.storageClass.Some? && w.storageClass.value != (if o.storageClass.Some? then o.storageClass.value else ""))
        || (w.volumeMode.Some? && w.volumeMode.value != (if o.volumeMode.Some? then o.volumeMode.value else ""))
        || (w.storage.value != 0 && w.storage.value < o.storage))
  }

  ghost predicate HoldsClaim(before: Store, after: Store, ns: string, d: Desired, w: DesiredPVC) {
    var key := Key(PVCKind, Place(ns, d, w.namespace), w.name);
    w.name != "" && w.storage.Some? ==>
      && key in after
      && if Foreign(before, key) || (key in before && HeldBack(before[key], w)) then after[key] == before[key]
         else && after[key].PVC? && after[key].meta.annotations == w.annotations && Owned(after[key]) && OwnerIs(after[key], d.owner)
              && (w.storage.value != 0 ==> after[key].storage == w.storage.value)
              && if key in before && before[key].PVC?
                 then after[key].modes == before[key].modes && after[key].storageClass == before[key].storageClass
                      && after[key].volumeMode == before[key].volumeMode
                      && (w.storage.value == 0 ==> after[key].storage == before[key].storage)
                 else after[key].modes == w.modes && after[key].storageClass == w.storageClass && after[key].volumeMode == w.volumeMode
  }

  /** The wished rules, an empty path type read as a prefix. */
  ghost predicate RoutesAs(rules: seq<Rule>, wished: seq<Rule>) {
    && |rules| == |wished|
    && forall i | 0 <= i < |rules| ::
         && rules[i].host == wished[i].host && rules[i].http.Some? == wished[i].http.Some?
         && (rules[i].http.Some? ==> PathsAs(rules[i].http.value, wished[i].http.value))
  }

  ghost predicate PathsAs(paths: seq<Path>, wished: seq<Path>) {
    && |paths| == |wished|
    && forall i | 0 <= i < |paths| ::
         && paths[i].path == wished[i].path && paths[i].backend == wished[i].backend
         && paths[i].pathType == if wished[i].pathType == "" then "Prefix" else wished[i].pathType
  }

  ghost predicate HoldsIngress(before: Store, after: Store, ns: string, d: Desired, w: DesiredIngress) {
    var key := Key(IngressKind, Place(ns, d, w.namespace), w.name);
    w.name != "" ==>
      && key in after
      && if Foreign(before, key) then after[key] == before[key]
         else && after[key].Ingress? && after[key].meta.annotations == w.annotations && Owned(after[key]) && OwnerIs(after[key], d.owner)
              && RoutesAs(after[key].rules, w.rules)
              && |after[key].tls| == |w.tls|
              && (forall i | 0 <= i < |w.tls| ::
                    after[key].tls[i].secret == w.tls[i].secret && multiset(after[key].tls[i].hosts) == multiset(w.tls[i].hosts))
              && (w.className.Some? ==> after[key].className == w.className)
              && (w.className.None? ==> after[key].className == if key in before && before[key].Ingress? then before[key].className else None)
  }

  /** Everything one desired deployment asks for is there. */
  ghost predicate Reached(before: Store, after: Store, ns: string, d: Desired) {
    && RunsDeployment(before, after, ns, d)
    && ServesPort(before, after, ns, d)
    && (forall j | 0 <= j < |d.configMaps| :: HoldsConfigMap(before, after, ns, d, d.configMaps[j]))
    && (forall j | 0 <= j < |d.pvcs| :: HoldsClaim(before, after, ns, d, d.pvcs[j]))
    && (forall j | 0 <= j < |d.ingresses| :: HoldsIngress(before, after, ns, d, d.ingresses[j]))
  }

  lemma DefaultsRoute(rules: seq<Rule>)
    ensures RoutesAs(DefaultRules(rules), rules)
  {
  }

  lemma BuiltForOwner(s: Spec)
    ensures !s.DeploymentSpec? && !s.ServiceSpec? ==> OwnerIs(Build(s), s.owner) && Owned(Build(s))
  {
  }

  lemma {:induction false} ConfigMapWished(ns: string, d: Desired, n: nat, j: nat)
    requires j < n <= |d.configMaps|
    ensures forall w | w in ConfigMapWant(ns, d, d.configMaps[j]) :: w in ConfigMapWants(ns, d, n)
  {
    hide ConfigMapWant;
    if j < n - 1 { ConfigMapWished(ns, d, n - 1, j); }
  }

  lemma {:induction false} PVCWished(ns: string, d: Desired, n: nat, j: nat)
    requires j < n <= |d.pvcs|
    ensures forall w | w in PVCWant(ns, d, d.pvcs[j]) :: w in PVCWants(ns, d, n)
  {
    hide PVCWant;
    if j < n - 1 { PVCWished(ns, d, n - 1, j); }
  }

  lemma {:induction false} IngressWished(ns: string, d: Desired, n: nat, j: nat)
    requires j < n <= |d.ingresses|
    ensures forall w | w in IngressWant(ns, d, d.ingresses[j]) :: w in IngressWants(ns, d, n)
  {
    hide IngressWant;
    if j < n - 1 { IngressWished(ns, d, n - 1, j); }
  }

  /** Every object in `after` that `w` asks for is the one `w` alone would leave. */
  ghost predicate Lands(before: Store, after: Store, w: Want) {
    w.key in after && w.key in Apply(before, w.key, w.spec).store && after[w.key] == Apply(before, w.key, w.spec).store[w.key]
  }

  lemma ConfigMapLands(before: Store, after: Store, ns: string, d: Desired, w: DesiredConfigMap)
    requires Typed(before) && forall x | x in ConfigMapWant(ns, d, w) :: Lands(before, after, x)
    ensures HoldsConfigMap(before, after, ns, d, w)
  {
    if w.name != "" {
      var x := ConfigMapWant(ns, d, w)[0];
      assert Lands(before, after, x);
      BuiltForOwner(x.spec);
      if x.key in before { assert HasKind(before[x.key], ConfigMapKind); }
      hide ManagedLabels, Owned, Typed;
    }
  }

  lemma PVCLands(before: Store, after: Store, ns: string, d: Desired, w: DesiredPVC)
    requires Typed(before) && forall x | x in PVCWant(ns, d, w) :: Lands(before, after, x)
    ensures HoldsClaim(before, after, ns, d, w)
  {
    if w.name != "" && w.storage.Some? {
      var x := PVCWant(ns, d, w)[0];
      assert Lands(before, after, x);
      BuiltForOwner(x.spec);
      if x.key in before { assert HasKind(before[x.key], PVCKind); ClaimLands(before[x.key], x.spec, w); }
      hide ManagedLabels, Owned, Typed, OwnerIs, HeldBack;
    }
  }

  lemma ClaimLands(o: Object, s: Spec, w: DesiredPVC)
    requires o.PVC? && s.PVCSpec? && w.storage.Some?
    requires s.modes == w.modes && s.storageClass == w.storageClass && s.volumeMode == w.volumeMode && s.storage == w.storage.value
    ensures ImmutableChanged(o, s) == HeldBack(o, w)
  {
  }

  lemma IngressLands(before: Store, after: Store, ns: string, d: Desired, w: DesiredIngress)
    requires Typed(before) && forall x | x in IngressWant(ns, d, w) :: Lands(before, after, x)
    ensures HoldsIngress(before, after, ns, d, w)
  {
    if w.name != "" {
      var x := IngressWant(ns, d, w)[0];
      assert Lands(before, after, x);
      BuiltForOwner(x.spec);
      DefaultsRoute(w.rules);
      if x.key in before { assert HasKind(before[x.key], IngressKind); }
      hide ManagedLabels, Owned, Typed, OwnerIs, RoutesAs, DefaultRules;
    }
  }

  lemma WorkloadLands(before: Store, after: Store, ns: string, d: Desired)
    requires Typed(before) && forall x | x in WorkloadWants(ns, d) :: Lands(before, after, x)
    ensures RunsDeployment(before, after, ns, d) && ServesPort(before, after, ns, d)
  {
    var x := WorkloadWants(ns, d)[0];
    assert Lands(before, after, x);
    if x.key in before { assert HasKind(before[x.key], DeploymentKind); }
    if d.port.Some? {
      var y := WorkloadWants(ns, d)[1];
      assert Lands(before, after, y);
      if y.key in before { assert HasKind(before[y.key], ServiceKind); }
    }
    hide FixedLabels, Owned, Typed;
  }

  /** With distinct names, after one cycle every desired deployment that is not deleted has what it asks
      for: its deployment, its service, its config maps, claims and ingresses. */
  lemma CycleReachesDesired(store: Store, ns: string, desired: seq<Desired>, i: nat)
    requires Typed(store) && DistinctNames(ns, desired) && i < |desired| && !desired[i].deleted
    ensures Reached(store, Cycle(store, ns, desired).store, ns, desired[i])
  {
    var d := desired[i];
    var after := Cycle(store, ns, desired).store;
    forall w | w in WantsOf(ns, d) ensures Lands(store, after, w) {
      WishLands(store, ns, desired, i, w);
    }
    WishesLand(store, after, ns, d);
  }

  lemma WishesLand(before: Store, after: Store, ns: string, d: Desired)
    requires Typed(before) && !d.deleted && forall w | w in WantsOf(ns, d) :: Lands(before, after, w)
    ensures Reached(before, after, ns, d)
  {
    hide Lands, Typed, ConfigMapWants, PVCWants, IngressWants, WorkloadWants, ConfigMapWant, PVCWant, IngressWant;
    hide RunsDeployment, ServesPort, HoldsConfigMap, HoldsClaim, HoldsIngress;
    WorkloadLands(before, after, ns, d);
    forall j | 0 <= j < |d.configMaps| ensures HoldsConfigMap(before, after, ns, d, d.configMaps[j]) {
      ConfigMapWished(ns, d, |d.configMaps|, j);
      ConfigMapLands(before, after, ns, d, d.configMaps[j]);
    }
    forall j | 0 <= j < |d.pvcs| ensures HoldsClaim(before, after, ns, d, d.pvcs[j]) {
      PVCWished(ns, d, |d.pvcs|, j);
      PVCLands(before, after, ns, d, d.pvcs[j]);
    }
    forall j | 0 <= j < |d.ingresses| ensures HoldsIngress(before, after, ns, d, d.ingresses[j]) {
      IngressWished(ns, d, |d.ingresses|, j);
      IngressLands(before, after, ns, d, d.ingresses[j]);
    }
  }

  // ------------------------------------------------------------------------------------------
  // What a cycle leaves alone
  // ------------------------------------------------------------------------------------------

  /** Does a desired deployment that is not deleted list this name for this kind, applicable or not? */
  ghost predicate Mentions(desired: seq<Desired>, k: Kind, name: string) {
    exists i :: 0 <= i < |desired| && MentionedBy(desired[i], k, name)
  }

  ghost predicate MentionedBy(d: Desired, k: Kind, name: string) {
    && !d.deleted
    && match k
       case ConfigMapKind => exists j :: 0 <= j < |d.configMaps| && d.configMaps[j].name == name
       case PVCKind => exists j :: 0 <= j < |d.pvcs| && d.pvcs[j].name == name
       case IngressKind => exists j :: 0 <= j < |d.ingresses| && d.ingresses[j].name == name
       case _ => d.owner.slug == name
  }

  lemma {:induction false} KeptIsMentioned(desired: seq<Desired>, k: Kind, name: string)
    ensures name in Keep(desired, k) <==> Mentions(desired, k, name)
    decreases |desired|
  {
    if desired != [] {
      var (init, last) := (desired[..|desired| - 1], desired[|desired| - 1]);
      KeptIsMentioned(init, k, name);
      NamedIsMentioned(last, k, name);
      hide NamesOf, MentionedBy;
      if Mentions(init, k, name) {
        var i :| 0 <= i < |init| && MentionedBy(init[i], k, name);
        assert MentionedBy(desired[i], k, name);
      }
      if Mentions(desired, k, name) {
        var i :| 0 <= i < |desired| && MentionedBy(desired[i], k, name);
        if i < |init| { assert MentionedBy(init[i], k, name); }
      }
    }
  }

  lemma NamedIsMentioned(d: Desired, k: Kind, name: string)
    ensures name in NamesOf(d, k) <==> MentionedBy(d, k, name)
  {
  }

  /** Does the collection take the object `key`? The agent's own in its namespace, if nobody mentions the
      name; a service exactly along with the deployment of its name. */
  ghost predicate Taken(store: Store, ns: string, desired: seq<Desired>, key: Key) {
    var k := if key.kind == ServiceKind then Key(DeploymentKind, key.namespace, key.name) else key;
    k in store && k.namespace == ns && Owned(store[k]) && !Mentions(desired, k.kind, k.name)
  }

  lemma ServicesGoWith(store: Store, ns: string, keep: set<string>, key: Key)
    ensures var left := CollectDeployments(store, ns, keep).store;
      && (key.kind == ServiceKind ==>
            var k := Key(DeploymentKind, key.namespace, key.name);
            (key in left <==> key in store && !(k in store && k.namespace == ns && Owned(store[k]) && k.name !in keep)))
      && (key.kind == DeploymentKind ==>
            (key in left <==> key in store && !(key.namespace == ns && Owned(store[key]) && key.name !in keep)))
      && (key.kind != ServiceKind && key.kind != DeploymentKind ==> (key in left <==> key in store))
      && (key in left ==> left[key] == store[key])
  {
    hide Owned;
    var orphans := Orphans(store, ns, DeploymentKind, keep);
    assert key.kind == ServiceKind ==> (key in ServicesOf(orphans) <==> Key(DeploymentKind, key.namespace, key.name) in orphans);
  }

  lemma CollectionTakes(store: Store, ns: string, desired: seq<Desired>, key: Key)
    ensures var left := CollectAll(store, ns, desired).store;
      && (key in left <==> key in store && !Taken(store, ns, desired, key))
      && (key in left ==> left[key] == store[key])
  {
    var a := CollectDeployments(store, ns, Keep(desired, DeploymentKind)).store;
    var b := Collect(a, ns, ConfigMapKind, Keep(desired, ConfigMapKind)).store;
    var c := Collect(b, ns, PVCKind, Keep(desired, PVCKind)).store;
    ServicesGoWith(store, ns, Keep(desired, DeploymentKind), key);
    CollectedOne(a, ns, ConfigMapKind, Keep(desired, ConfigMapKind), key);
    CollectedOne(b, ns, PVCKind, Keep(desired, PVCKind), key);
    CollectedOne(c, ns, IngressKind, Keep(desired, IngressKind), key);
    KeptIsMentioned(desired, ConfigMapKind, key.name);
    KeptIsMentioned(desired, PVCKind, key.name);
    KeptIsMentioned(desired, IngressKind, key.name);
    KeptIsMentioned(desired, DeploymentKind, key.name);
    hide Owned, Keep, Collect, CollectDeployments, Mentions;
  }

  lemma NobodyAsks(ns: string, desired: seq<Desired>, key: Key)
    requires forall i | 0 <= i < |desired| :: !Asks(ns, desired[i], key)
    ensures forall p | 0 <= p < |Wants(ns, desired)| :: Wants(ns, desired)[p].key != key
  {
    forall p | 0 <= p < |Wants(ns, desired)| ensures Wants(ns, desired)[p].key != key {
      var j := WantIsAsked(ns, desired, p);
    }
    hide Wants, Asks;
  }

  lemma AskedIsMentioned(ns: string, desired: seq<Desired>, i: nat, key: Key)
    requires i < |desired| && Asks(ns, desired[i], key)
    ensures Mentions(desired, key.kind, key.name)
  {
    assert MentionedBy(desired[i], key.kind, key.name);
  }

  /** An object that nobody asks for is left exactly as it was, unless the collection takes it. */
  lemma CycleLeavesTheRest(store: Store, ns: string, desired: seq<Desired>, key: Key)
    requires forall i | 0 <= i < |desired| :: !Asks(ns, desired[i], key)
    ensures var after := Cycle(store, ns, desired).store;
      && (key in after <==> key in store && !Taken(store, ns, desired, key))
      && (key in after ==> after[key] == store[key])
  {
    var applied := ApplyAll(store, Wants(ns, desired)).store;
    NobodyAsks(ns, desired, key);
    UnaskedIsUntouched(store, Wants(ns, desired), key);
    CollectionTakes(applied, ns, desired, key);
    var k := if key.kind == ServiceKind then Key(DeploymentKind, key.namespace, key.name) else key;
    if !Mentions(desired, k.kind, k.name) {
      forall i | 0 <= i < |desired| ensures !Asks(ns, desired[i], k) {
        if Asks(ns, desired[i], k) { AskedIsMentioned(ns, desired, i, k); }
      }
      NobodyAsks(ns, desired, k);
      UnaskedIsUntouched(store, Wants(ns, desired), k);
    }
    hide Wants, ApplyAll, CollectAll, Asks, Mentions, Owned;
  }

  // ------------------------------------------------------------------------------------------
  // Any run of apply and delete steps
  // ------------------------------------------------------------------------------------------

  datatype Op = ApplyOp(key: Key, spec: Spec) | DeleteOp(key: Key)

  /** Deleting is guarded by ownership where applying is; a deployment goes with the service of its name,
      whoever owns either. */
  function Delete(store: Store, key: Key): Store {
    if Guarded(key.kind) then if key in store && Owned(store[key]) then store - {key} else store
    else if key.kind == DeploymentKind then store - {key, Key(ServiceKind, key.namespace, key.name)}
    else store
  }

  function Step(store: Store, op: Op): Store {
    match op
    case ApplyOp(key, s) => Apply(store, key, s).store
    case DeleteOp(key) => Delete(store, key)
  }

  function Run(store: Store, ops: seq<Op>): Store
    decreases |ops|
  {
    if ops == [] then store else Step(Run(store, ops[..|ops| - 1]), ops[|ops| - 1])
  }

  lemma {:induction false} UnownedStays(store: Store, ops: seq<Op>, key: Key)
    requires key in store && Guarded(key.kind) && !Owned(store[key])
    ensures key in Run(store, ops) && Run(store, ops)[key] == store[key]
    decreases |ops|
  {
    hide Owned, Build, Drifted, Corrected;
    if ops != [] {
      UnownedStays(store, ops[..|ops| - 1], key);
    }
  }

  /** However often the agent applies and cleans up: a config map, claim or ingress that does not carry the
      agent's label is left exactly as it is. */
  lemma UnownedIsNeverTouched(store: Store, ops: seq<Op>, key: Key)
    requires key in store && key.kind in {ConfigMapKind, PVCKind, IngressKind}
    requires "app.kubernetes.io/managed-by" in store[key].meta.labels ==>
      store[key].meta.labels["app.kubernetes.io/managed-by"] != "bdsplatform-agent"
    ensures key in Run(store, ops) && Run(store, ops)[key] == store[key]
  {
    assert Guarded(key.kind) && !Owned(store[key]);
    hide *;
    UnownedStays(store, ops, key);
  }

  /** Until it is deleted, a claim keeps its access modes, storage class and volume mode, and its storage
      request never decreases, whatever is applied. */
  lemma {:induction false} ClaimsGrowUntilDeleted(store: Store, ops: seq<Op>, key: Key)
    requires key in store && key.kind == PVCKind && store[key].PVC?
    requires forall i | 0 <= i < |ops| :: ops[i] != DeleteOp(key)
    ensures var after := Run(store, ops);
      && key in after && after[key].PVC?
      && after[key].modes == store[key].modes && after[key].storageClass == store[key].storageClass
      && after[key].volumeMode == store[key].volumeMode && after[key].storage >= store[key].storage
    decreases |ops|
  {
    if ops != [] {
      var (init, op) := (ops[..|ops| - 1], ops[|ops| - 1]);
      assert forall i | 0 <= i < |init| :: init[i] == ops[i];
      ClaimsGrowUntilDeleted(store, init, key);
      var before := Run(store, init);
      if op.ApplyOp? && op.key == key && Drifted(before[key], op.spec) {
        ClaimsOnlyGrow(before[key], op.spec);
      }
      hide Owned, Build, Drifted, Corrected;
    }
  }

  /** Deployments have no such guard: an existing one that is not the agent's is overwritten exactly if it
      differs in revision, image or replica count, and from then on counts as the agent's own. */
  lemma UnownedDeploymentIsTakenOver(store: Store, key: Key, s: Spec)
    requires key in store && key.kind == DeploymentKind && !Owned(store[key])
    ensures Apply(store, key, s).store != store <==> Drifted(store[key], s)
    ensures Drifted(store[key], s) ==> Owned(Apply(store, key, s).store[key])
  {
    OwnershipCannotBeOverridden(store[key], s);
    hide Build, Drifted, Corrected;
  }

  /** Nor is the service guarded that is deleted along with an orphaned deployment. */
  lemma ServiceGoesWithDeployment(store: Store, ns: string, name: string)
    requires Key(ServiceKind, ns, name) in store && !Owned(store[Key(ServiceKind, ns, name)])
    ensures Key(ServiceKind, ns, name) !in Delete(store, Key(DeploymentKind, ns, name))
  {
  }

  // ------------------------------------------------------------------------------------------
  // The cycle, statement by statement
  // ------------------------------------------------------------------------------------------

  predicate HasKind(o: Object, k: Kind) {
    match k
    case ConfigMapKind => o.ConfigMap?
    case PVCKind => o.PVC?
    case IngressKind => o.Ingress?
    case DeploymentKind => o.Deployment?
    case ServiceKind => o.Service?
  }

  predicate SpecHasKind(s: Spec, k: Kind) {
    match k
    case ConfigMapKind => s.ConfigMapSpec?
    case PVCKind => s.PVCSpec?
    case IngressKind => s.IngressSpec?
    case DeploymentKind => s.DeploymentSpec?
    case ServiceKind => s.ServiceSpec?
  }

  /** The API server stores every object under its own kind. */
  ghost predicate Typed(store: Store) { forall key | key in store :: HasKind(store[key], key.kind) }

  lemma ApplyKeepsTyped(store: Store, key: Key, s: Spec)
    requires Typed(store) && SpecHasKind(s, key.kind)
    ensures Typed(Apply(store, key, s).store)
  {
    hide ManagedLabels, FixedLabels, Owned, ImmutableChanged, SameTLS;
  }

  lemma {:induction false} ApplyAllConcat(store: Store, a: seq<Want>, b: seq<Want>)
    ensures ApplyAll(store, a + b).store == ApplyAll(ApplyAll(store, a).store, b).store
    ensures ApplyAll(store, a + b).writes == ApplyAll(store, a).writes + ApplyAll(ApplyAll(store, a).store, b).writes
    decreases |b|
  {
    hide Apply;
    if b == [] {
      assert a + b == a;
    } else {
      assert (a + b)[..|a + b| - 1] == a + b[..|b| - 1];
      ApplyAllConcat(store, a, b[..|b| - 1]);
    }
  }

  lemma ApplyAllOne(store: Store, wants: seq<Want>, w: Want)
    ensures var (before, after) := (ApplyAll(store, wants), ApplyAll(store, wants + [w]));
      var last := Apply(before.store, w.key, w.spec);
      after == Result(last.store, before.writes + last.writes)
  {
    hide Apply;
    assert (wants + [w])[..|wants|] == wants;
  }

  /** From `before` with `calls` made, applying `wants` leads to `after` with `made` calls made. */
  ghost predicate Did(before: Store, calls: nat, wants: seq<Want>, after: Store, made: nat) {
    after == ApplyAll(before, wants).store && made == calls + ApplyAll(before, wants).writes
  }

  lemma DidBoth(s0: Store, w0: nat, a: seq<Want>, s1: Store, w1: nat, b: seq<Want>, s2: Store, w2: nat)
    requires Did(s0, w0, a, s1, w1) && Did(s1, w1, b, s2, w2)
    ensures Did(s0, w0, a + b, s2, w2)
  {
    ApplyAllConcat(s0, a, b);
    hide ApplyAll;
  }

  class Agent {
    const namespace: string
    var store: Store
    /** Create, update and delete calls made so far. */
    var writes: nat

    constructor (namespace: string, store: Store)
      ensures this.namespace == OrElse(namespace, "default") && this.store == store && writes == 0
    {
      this.namespace := if namespace != "" then namespace else "default";
      this.store, writes := store, 0;
    }

    method Put(key: Key, o: Object)
      modifies this
      ensures store == old(store)[key := o] && writes == old(writes) + 1
    {
      store, writes := store[key := o], writes + 1;
    }

    method ApplyConfigMap(key: Key, s: Spec)
      requires Typed(store) && key.kind == ConfigMapKind && s.ConfigMapSpec?
      modifies this
      ensures Result(store, writes) == Result(Apply(old(store), key, s).store, old(writes) + Apply(old(store), key, s).writes)
    {
      hide ManagedLabels, Owned;
      if key !in store {
        Put(key, Build(s));
        return;
      }
      var existing := store[key];
      if !Owned(existing) {
        return;
      }
      assert HasKind(existing, ConfigMapKind);
      var wanted := Build(s);
      if existing.data == wanted.data && existing.binary == wanted.binary
         && existing.meta.labels == wanted.meta.labels && existing.meta.annotations == wanted.meta.annotations {
        return;
      }
      Put(key, ConfigMap(wanted.meta, wanted.data, wanted.binary));
    }

    method ApplyPVC(key: Key, s: Spec)
      requires Typed(store) && key.kind == PVCKind && s.PVCSpec?
      modifies this
      ensures Result(store, writes) == Result(Apply(old(store), key, s).store, old(writes) + Apply(old(store), key, s).writes)
    {
      hide ManagedLabels, Owned, ImmutableChanged;
      if key !in store {
        Put(key, Build(s));
        return;
      }
      var existing := store[key];
      if !Owned(existing) {
        return;
      }
      assert HasKind(existing, PVCKind);
      var immutable := PVCImmutableChanged(existing, s);
      if immutable {
        return;
      }
      if existing.meta == Build(s).meta && (s.storage == 0 || s.storage <= existing.storage) {
        return;
      }
      var storage := existing.storage;
      if s.storage != 0 {
        storage := s.storage;
      }
      Put(key, PVC(Build(s).meta, existing.modes, existing.storageClass, existing.volumeMode, storage));
    }

    method ApplyIngress(key: Key, s: Spec)
      requires Typed(store) && key.kind == IngressKind && s.IngressSpec?
      modifies this
      ensures Result(store, writes) == Result(Apply(old(store), key, s).store, old(writes) + Apply(old(store), key, s).writes)
    {
      hide ManagedLabels, Owned, Drifted;
      if key !in store {
        Put(key, Build(s));
        return;
      }
      var existing := store[key];
      if !Owned(existing) {
        return;
      }
      assert HasKind(existing, IngressKind);
      var needs := IngressNeedsUpdate(existing, s);
      if !needs {
        return;
      }
      var className := existing.className;
      if s.className.Some? {
        className := s.className;
      }
      Put(key, Ingress(Build(s).meta, className, s.rules, s.tls));
    }

    method ApplyDeployment(key: Key, s: Spec)
      requires Typed(store) && key.kind == DeploymentKind && s.DeploymentSpec?
      modifies this
      ensures Result(store, writes) == Result(Apply(old(store), key, s).store, old(writes) + Apply(old(store), key, s).writes)
    {
      hide FixedLabels, Owned;
      if key !in store {
        Put(key, Build(s));
        return;
      }
      var existing := store[key];
      assert HasKind(existing, DeploymentKind);
      var revision := "";
      if REVISION in existing.meta.annotations {
        revision := existing.meta.annotations[REVISION];
      }
      if revision != s.revision
         || (existing.images != [] && existing.images[0] != s.image)
         || (existing.replicas.Some? && existing.replicas.value != s.replicas) {
        Put(key, Build(s));
      }
    }

    method ApplyService(key: Key, s: Spec)
      requires Typed(store) && key.kind == ServiceKind && s.ServiceSpec?
      modifies this
      ensures Result(store, writes) == Result(Apply(old(store), key, s).store, old(writes) + Apply(old(store), key, s).writes)
    {
      hide FixedLabels, Owned;
      if key !in store {
        Put(key, Build(s));
        return;
      }
      var existing := store[key];
      assert HasKind(existing, ServiceKind);
      if existing.ports != [] && existing.ports[0] != s.port {
        Put(key, Service(existing.meta.(labels := Build(s).meta.labels), [s.port], existing.rest));
      }
    }
  
    method ReconcileConfigMap(d: Desired, w: DesiredConfigMap)
      requires Typed(store)
      modifies this
      ensures Typed(store) && Did(old(store), old(writes), ConfigMapWant(namespace, d, w), store, writes)
    {
      hide Apply, ApplyAll, Typed, DefaultRules;
      var wanted := ConfigMapWant(namespace, d, w);
      NothingToApply(store);
      if wanted != [] {
        ApplyAllOne(store, [], wanted[0]);
        assert [] + [wanted[0]] == wanted;
        ApplyKeepsTyped(store, wanted[0].key, wanted[0].spec);
        ApplyConfigMap(wanted[0].key, wanted[0].spec);
      }
    }

    method ReconcileConfigMaps(d: Desired)
      requires Typed(store)
      modifies this
      ensures Typed(store) && Did(old(store), old(writes), ConfigMapWants(namespace, d, |d.configMaps|), store, writes)
    {
      NothingToApply(store);
      for i := 0 to |d.configMaps|
        invariant Typed(store) && Did(old(store), old(writes), ConfigMapWants(namespace, d, i), store, writes)
      {
        hide Apply, ApplyAll, Typed, Did, ConfigMapWant;
        ghost var (s1, w1) := (store, writes);
        ReconcileConfigMap(d, d.configMaps[i]);
        DidBoth(old(store), old(writes), ConfigMapWants(namespace, d, i), s1, w1, ConfigMapWant(namespace, d, d.configMaps[i]), store, writes);
      }
    }

    /** A request that does not parse is skipped, not applied. */
    method ReconcilePVC(d: Desired, w: DesiredPVC)
      requires Typed(store)
      modifies this
      ensures Typed(store) && Did(old(store), old(writes), PVCWant(namespace, d, w), store, writes)
    {
      hide Apply, ApplyAll, Typed, DefaultRules;
      var wanted := PVCWant(namespace, d, w);
      NothingToApply(store);
      if wanted != [] {
        ApplyAllOne(store, [], wanted[0]);
        assert [] + [wanted[0]] == wanted;
        ApplyKeepsTyped(store, wanted[0].key, wanted[0].spec);
        ApplyPVC(wanted[0].key, wanted[0].spec);
      }
    }

    method ReconcilePVCs(d: Desired)
      requires Typed(store)
      modifies this
      ensures Typed(store) && Did(old(store), old(writes), PVCWants(namespace, d, |d.pvcs|), store, writes)
    {
      NothingToApply(store);
      for i := 0 to |d.pvcs|
        invariant Typed(store) && Did(old(store), old(writes), PVCWants(namespace, d, i), store, writes)
      {
        hide Apply, ApplyAll, Typed, Did, PVCWant;
        ghost var (s1, w1) := (store, writes);
        ReconcilePVC(d, d.pvcs[i]);
        DidBoth(old(store), old(writes), PVCWants(namespace, d, i), s1, w1, PVCWant(namespace, d, d.pvcs[i]), store, writes);
      }
    }

    method ReconcileIngress(d: Desired, w: DesiredIngress)
      requires Typed(store)
      modifies this
      ensures Typed(store) && Did(old(store), old(writes), IngressWant(namespace, d, w), store, writes)
    {
      hide Apply, ApplyAll, Typed, DefaultRules;
      var wanted := IngressWant(namespace, d, w);
      NothingToApply(store);
      if wanted != [] {
        ApplyAllOne(store, [], wanted[0]);
        assert [] + [wanted[0]] == wanted;
        ApplyKeepsTyped(store, wanted[0].key, wanted[0].spec);
        ApplyIngress(wanted[0].key, wanted[0].spec);
      }
    }

    method ReconcileIngresses(d: Desired)
      requires Typed(store)
      modifies this
      ensures Typed(store) && Did(old(store), old(writes), IngressWants(namespace, d, |d.ingresses|), store, writes)
    {
      NothingToApply(store);
      for i := 0 to |d.ingresses|
        invariant Typed(store) && Did(old(store), old(writes), IngressWants(namespace, d, i), store, writes)
      {
        hide Apply, ApplyAll, Typed, Did, IngressWant;
        ghost var (s1, w1) := (store, writes);
        ReconcileIngress(d, d.ingresses[i]);
        DidBoth(old(store), old(writes), IngressWants(namespace, d, i), s1, w1, IngressWant(namespace, d, d.ingresses[i]), store, writes);
      }
    }

    method ReconcileWorkload(d: Desired)
      requires Typed(store)
      modifies this
      ensures Typed(store) && Did(old(store), old(writes), WorkloadWants(namespace, d), store, writes)
    {
      hide Apply, ApplyAll, Typed;
      var first := Want(Key(DeploymentKind, namespace, d.owner.slug), DeploymentSpec(d.owner, d.releaseID, d.revision, d.image, d.replicas, d.rest));
      NothingToApply(store);
      ApplyAllOne(store, [], first);
      assert [] + [first] == [first];
      ApplyKeepsTyped(store, first.key, first.spec);
      ApplyDeployment(first.key, first.spec);
      if d.port.Some? {
        var second := Want(Key(ServiceKind, namespace, d.owner.slug), ServiceSpec(d.owner, d.port.value, d.rest));
        ApplyAllOne(old(store), [first], second);
        ApplyKeepsTyped(store, second.key, second.spec);
        ApplyService(second.key, second.spec);
      } else {
        assert [first] + [] == [first];
      }
    }

    method ReconcileDeployment(d: Desired)
      requires Typed(store) && !d.deleted
      modifies this
      ensures Typed(store) && Did(old(store), old(writes), WantsOf(namespace, d), store, writes)
    {
      hide ApplyAll, Typed, Did, ConfigMapWants, PVCWants, WorkloadWants, IngressWants;
      ghost var (s0, w0) := (store, writes);
      ghost var a, b, c, e := ConfigMapWants(namespace, d, |d.configMaps|), PVCWants(namespace, d, |d.pvcs|),
                              WorkloadWants(namespace, d), IngressWants(namespace, d, |d.ingresses|);
      ReconcileConfigMaps(d);
      ghost var (s1, w1) := (store, writes);
      ReconcilePVCs(d);
      DidBoth(s0, w0, a, s1, w1, b, store, writes);
      ghost var (s2, w2) := (store, writes);
      ReconcileWorkload(d);
      DidBoth(s0, w0, a + b, s2, w2, c, store, writes);
      ghost var (s3, w3) := (store, writes);
      ReconcileIngresses(d);
      DidBoth(s0, w0, a + b + c, s3, w3, e, store, writes);
    }

    /** For the kinds whose deletion is guarded. */
    method CleanupOrphaned(k: Kind, keep: set<string>)
      requires Guarded(k)
      modifies this
      ensures Result(store, writes) == Result(Collect(old(store), namespace, k, keep).store, old(writes) + Collect(old(store), namespace, k, keep).writes)
    {
      var s0 := store;
      var orphans := Orphans(s0, namespace, k, keep);
      var left := orphans;
      while left != {}
        invariant left <= orphans && store == s0 - (orphans - left) && writes == old(writes) + |orphans| - |left|
        decreases |left|
      {
        hide Owned;
        var key :| key in left;
        assert key in store && Owned(store[key]);
        if key in store && Owned(store[key]) {
          store, writes := store - {key}, writes + 1;
        }
        assert s0 - (orphans - left) - {key} == s0 - (orphans - (left - {key}));
        left := left - {key};
      }
      assert orphans - left == orphans;
    }

    method CleanupOrphanedDeployments(keep: set<string>)
      modifies this
      ensures Result(store, writes)
           == Result(CollectDeployments(old(store), namespace, keep).store, old(writes) + CollectDeployments(old(store), namespace, keep).writes)
    {
      var s0 := store;
      var orphans := Orphans(s0, namespace, DeploymentKind, keep);
      var left := orphans;
      assert s0 - {} - ServicesOf({}) == s0;
      while left != {}
        invariant left <= orphans && store == s0 - (orphans - left) - ServicesOf(orphans - left)
        invariant writes == old(writes) + 2 * (|orphans| - |left|)
        decreases |left|
      {
        hide Owned;
        var key :| key in left;
        DropOneMore(s0, orphans, left, key);
        store, writes := store - {key} - {Key(ServiceKind, key.namespace, key.name)}, writes + 2;
        left := left - {key};
      }
      assert orphans - left == orphans;
    }

    /** Applies every desired deployment that is not deleted. */
    method ApplyDesired(desired: seq<Desired>)
      requires Typed(store)
      modifies this
      ensures Did(old(store), old(writes), Wants(namespace, desired), store, writes)
    {
      NothingToApply(store);
      for i := 0 to |desired|
        invariant Typed(store) && Did(old(store), old(writes), Wants(namespace, desired[..i]), store, writes)
      {
        hide ApplyAll, Typed, Did, WantsOf;
        ghost var (s1, w1) := (store, writes);
        assert desired[..i + 1][..i] == desired[..i];
        DeletedWantNothing(namespace, desired[i], store, writes);
        if !desired[i].deleted {
          ReconcileDeployment(desired[i]);
        }
        DidBoth(old(store), old(writes), Wants(namespace, desired[..i]), s1, w1, WantsOf(namespace, desired[i]), store, writes);
      }
      assert desired[..|desired|] == desired;
    }

    method NamesToKeep(desired: seq<Desired>, k: Kind) returns (names: set<string>)
      ensures names == Keep(desired, k)
    {
      names := {};
      for i := 0 to |desired|
        invariant names == Keep(desired[..i], k)
      {
        hide NamesOf;
        assert desired[..i + 1][..i] == desired[..i];
        names := names + NamesOf(desired[i], k);
      }
      assert desired[..|desired|] == desired;
    }

    /** One cycle with every API call succeeding. */
    method Reconcile(desired: seq<Desired>)
      requires Typed(store)
      modifies this
      ensures var r := Cycle(old(store), namespace, desired); store == r.store && writes == old(writes) + r.writes
    {
      hide ApplyAll, Wants, Keep, Collect, CollectDeployments;
      ApplyDesired(desired);
      var deployments := NamesToKeep(desired, DeploymentKind);
      var configMaps := NamesToKeep(desired, ConfigMapKind);
      var pvcs := NamesToKeep(desired, PVCKind);
      var ingresses := NamesToKeep(desired, IngressKind);
      CleanupOrphanedDeployments(deployments);
      CleanupOrphaned(ConfigMapKind, configMaps);
      CleanupOrphaned(PVCKind, pvcs);
      CleanupOrphaned(IngressKind, ingresses);
    }
  }

  lemma NothingToApply(store: Store)
    ensures ApplyAll(store, []) == Result(store, 0)
  {
  }

  lemma DeletedWantNothing(ns: string, d: Desired, store: Store, writes: nat)
    ensures d.deleted ==> Did(store, writes, WantsOf(ns, d), store, writes)
  {
    NothingToApply(store);
  }

  lemma DropOneMore(store: Store, orphans: set<Key>, left: set<Key>, key: Key)
    requires left <= orphans && key in left
    ensures var (done, more) := (orphans - left, orphans - (left - {key}));
      store - done - ServicesOf(done) - {key} - {Key(ServiceKind, key.namespace, key.name)} == store - more - ServicesOf(more)
  {
    var (done, more) := (orphans - left, orphans - (left - {key}));
    assert more == done + {key};
    assert ServicesOf(more) == ServicesOf(done) + {Key(ServiceKind, key.namespace, key.name)};
    hide ServicesOf;
  }
}
