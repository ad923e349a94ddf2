/** The Kubernetes objects one application transition owns: annotations, the
    Deployment, its Services, and the ownership marks the executor writes. */
module ManagedObjects {

  /** Annotation keys. `Foreign` stands for every key the executor never names. */
  datatype Key =
    | Owner | Organization | AppId | TemplateHash | Installation | Transition
    | Stopped
    | HelmName | HelmNamespace
    | Foreign(name: string)

  type Annotations = map<Key, string>

  /** Reading a Go map: an absent key reads as the empty string. */
  function Value(a: Annotations, k: Key): string {
    if k in a then a[k] else ""
  }

  /** A Pod template, split into the CPU/memory declarations the station compute
      policy may strip and everything else. */
  datatype Template = Template(core: string, limits: string)

  function ApplyPolicy(enabled: bool, t: Template): Template {
    if enabled then t.(limits := "") else t
  }

  predicate TemplateCompatible(enabled: bool, want: Template, live: Template) {
    want == live || (enabled && ApplyPolicy(true, want) == live)
  }

  datatype Deployment = Deployment(
    uid: string, deleting: bool, ann: Annotations, replicas: int, template: Template, generation: nat)

  /** `Fenced(op)` is the selector that matches no application Pod. */
  datatype Selector = Labels(text: string) | Fenced(operation: string)

  datatype ServiceSpec = ServiceSpec(selector: Selector, ports: string, clusterIP: string, rest: string)

  predicate ServiceCompatible(want: ServiceSpec, live: ServiceSpec) {
    && want.selector == live.selector
    && want.ports == live.ports
    && want.rest == live.rest
    && (want.clusterIP == "" || want.clusterIP == live.clusterIP)
  }

  datatype Service = Service(uid: string, deleting: bool, ann: Annotations, spec: ServiceSpec)

  datatype WantedService = WantedService(uid: string, spec: ServiceSpec)

  /** A registered release. `fence` is the template's own value for the fencing
      label; `helm` says the release came from a chart. */
  datatype Target = Target(
    appId: string, hash: string, installation: string, helm: bool,
    template: Template, fence: string, services: seq<WantedService>)

  /** One replacement operation: both releases, the operation, the identity that
      owns the objects, their namespace, whether the compute policy is enabled,
      and whether this pair of releases changes the Service ports. */
  datatype Driver = Driver(
    source: Target, target: Target, operation: string, station: string, organization: string, namespace: string,
    policy: bool, portsChange: bool)

  /** What the driver's constructor establishes. */
  predicate WellFormed(d: Driver) {
    && d.source.hash != d.target.hash
    && d.source.appId == d.target.appId
    && d.operation != ""
    && |d.source.services| == |d.target.services|
    && (d.portsChange ==>
          && |d.source.services| == 1
          && d.target.services[0].spec.(ports := d.source.services[0].spec.ports) == d.source.services[0].spec)
    && (!d.portsChange ==>
          forall i :: 0 <= i < |d.source.services| ==> d.source.services[i].spec == d.target.services[i].spec)
  }

  /** The ownership marks of a release. */
  function Marks(d: Driver, t: Target): Annotations {
    var marks := map[Owner := d.station, Organization := d.organization, AppId := t.appId, TemplateHash := t.hash];
    if t.installation != "" then marks[Installation := t.installation] else marks
  }

  predicate Owned(d: Driver, a: Annotations, t: Target) {
    forall k :: k in Marks(d, t) ==> Value(a, k) == Marks(d, t)[k]
  }

  /** Chart releases also carry the two Helm annotations. */
  function HelmMarks(d: Driver, t: Target): Annotations {
    if !t.helm then map[]
    else if d.namespace == "" then map[HelmName := t.appId]
    else map[HelmName := t.appId, HelmNamespace := d.namespace]
  }

  function Mark(d: Driver, a: Annotations, t: Target): Annotations {
    a + Marks(d, t) + HelmMarks(d, t)
  }

  predicate TargetMarked(d: Driver, a: Annotations) {
    Owned(d, a, d.target) && Value(a, Transition) == d.operation
  }

  predicate OriginalMarker(live: Annotations, original: Annotations) {
    Value(live, Transition) == Value(original, Transition)
  }

  /** The six keys a restore puts back. */
  const MANAGED: seq<Key> := [Owner, Organization, AppId, TemplateHash, Installation, Transition]

  predicate Managed(k: Key) {
    k.Owner? || k.Organization? || k.AppId? || k.TemplateHash? || k.Installation? || k.Transition?
  }

  /** Two annotation maps agree on the six managed keys, presence included. */
  ghost predicate SameManaged(a: Annotations, b: Annotations) {
    forall k :: Managed(k) ==> (k in a <==> k in b) && (k in a ==> a[k] == b[k])
  }

  ghost predicate SameUnmanaged(a: Annotations, b: Annotations) {
    forall k :: !Managed(k) ==> (k in a <==> k in b) && (k in a ==> a[k] == b[k])
  }

  /** Two annotation maps agree on every key the executor never writes while it
      marks and restores: foreign keys, and the gate's. */
  ghost predicate SameForeign(a: Annotations, b: Annotations) {
    forall k: Key :: k.Foreign? || k.Stopped? ==> (k in a <==> k in b) && (k in a ==> a[k] == b[k])
  }

  /** The managed keys of `original` over the other keys of `live`. */
  function RestoreMarks(live: Annotations, original: Annotations): Annotations {
    map k | k in live.Keys + original.Keys && k in (if Managed(k) then original else live) ::
      if Managed(k) then original[k] else live[k]
  }

  lemma ManagedKeys(k: Key)
    ensures k in MANAGED <==> Managed(k)
  {
    assert MANAGED[0] == Owner && MANAGED[1] == Organization && MANAGED[2] == AppId;
    assert MANAGED[3] == TemplateHash && MANAGED[4] == Installation && MANAGED[5] == Transition;
  }

  lemma RestoredIsUnique(m: Annotations, live: Annotations, original: Annotations)
    requires SameManaged(m, original) && SameUnmanaged(m, live)
    ensures m == RestoreMarks(live, original)
  {
    var r := RestoreMarks(live, original);
    assert forall k :: k in m <==> k in r;
  }

  /** The in-place loop that puts the managed keys back one at a time. */
  method RestoreManagementMarks(live: Annotations, original: Annotations) returns (m: Annotations)
    ensures m == RestoreMarks(live, original)
    ensures SameManaged(m, original) && SameUnmanaged(m, live)
  {
    m := live;
    ghost var done: set<Key> := {};
    for i := 0 to |MANAGED|
      invariant forall k :: k in done <==> exists j :: 0 <= j < i && MANAGED[j] == k
      invariant forall k :: k in done ==> (k in m <==> k in original) && (k in m ==> m[k] == original[k])
      invariant forall k :: k !in done ==> (k in m <==> k in live) && (k in m ==> m[k] == live[k])
    {
      var key := MANAGED[i];
      if key in original {
        m := m[key := original[key]];
      } else {
        m := m - {key};
      }
      done := done + {key};
    }
    forall k ensures k in done <==> Managed(k) {
      ManagedKeys(k);
    }
    RestoredIsUnique(m, live, original);
  }

  /** Marking an object for the target and then restoring its marks gives back
      the managed keys, and gives back the whole map exactly when the release is
      no chart or the object already carried the chart's own annotations. */
  lemma RestoreUndoesMark(d: Driver, a: Annotations, original: Annotations)
    requires SameManaged(a, original)
    ensures SameManaged(RestoreMarks(Mark(d, a, d.target)[Transition := d.operation], original), original)
    ensures RestoreMarks(Mark(d, a, d.target)[Transition := d.operation], original) == a
            <==> forall k :: k in HelmMarks(d, d.target) ==> k in a && a[k] == HelmMarks(d, d.target)[k]
  {
    var h := HelmMarks(d, d.target);
    var r := RestoreMarks(Mark(d, a, d.target)[Transition := d.operation], original);
    if forall k :: k in h ==> k in a && a[k] == h[k] {
      forall k
        ensures k in r <==> k in a
        ensures k in r ==> r[k] == a[k]
      {
        RestoreMarkedAt(d, a, original, k);
      }
      assert r == a;
    } else {
      var k :| k in h && !(k in a && a[k] == h[k]);
      RestoreMarkedAt(d, a, original, k);
    }
  }

  lemma RestoreMarkedAt(d: Driver, a: Annotations, original: Annotations, k: Key)
    requires SameManaged(a, original)
    ensures
      var h := HelmMarks(d, d.target);
      var r := RestoreMarks(Mark(d, a, d.target)[Transition := d.operation], original);
      && (k in r <==> k in a || k in h)
      && (k in r ==> r[k] == if k in h then h[k] else a[k])
  {
    if Managed(k) {
      assert k !in HelmMarks(d, d.target);
    } else {
      assert k !in Marks(d, d.target);
    }
  }

  /** A release is told apart from the other one by its template hash alone. */
  lemma OwnedIsExclusive(d: Driver, a: Annotations)
    requires WellFormed(d)
    ensures !(Owned(d, a, d.source) && Owned(d, a, d.target))
    ensures Owned(d, a, d.source) ==> Value(a, TemplateHash) == d.source.hash
    ensures Owned(d, a, d.target) ==> Value(a, TemplateHash) == d.target.hash
  {
    assert TemplateHash in Marks(d, d.source) && TemplateHash in Marks(d, d.target);
  }

  /** Ownership reads only managed keys. */
  lemma OwnedFollowsManaged(d: Driver, a: Annotations, b: Annotations, t: Target)
    requires forall k :: Managed(k) && k != Transition ==> Value(a, k) == Value(b, k)
    ensures Owned(d, a, t) == Owned(d, b, t)
  {
    assert forall k :: k in Marks(d, t) ==> Managed(k) && k != Transition;
  }

  lemma MarkOwns(d: Driver, a: Annotations, t: Target)
    ensures Owned(d, Mark(d, a, t)[Transition := d.operation], t)
  {
  }

  /** The saved originals every retry compares against. */
  datatype Checkpoint = Checkpoint(deployment: Deployment, services: seq<Service>)

  predicate DeploymentMatches(d: Driver, want: Template, live: Deployment, t: Target) {
    && !live.deleting && live.replicas == 1
    && Owned(d, live.ann, t)
    && TemplateCompatible(d.policy, want, live.template)
  }

  predicate WantedServiceMatches(d: Driver, want: WantedService, s: Service) {
    && s.uid != "" && (want.uid == "" || want.uid == s.uid)
    && !s.deleting
    && Owned(d, s.ann, d.source)
    && ServiceCompatible(want.spec, s.spec)
  }

  predicate ValidCheckpoint(d: Driver, c: Checkpoint) {
    && c.deployment.uid != ""
    && DeploymentMatches(d, d.source.template, c.deployment, d.source)
    && |c.services| == |d.source.services|
    && forall i :: 0 <= i < |c.services| ==> WantedServiceMatches(d, d.source.services[i], c.services[i])
  }
}
