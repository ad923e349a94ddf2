/** The downtime driver: gate the Services, stop the process, start the other
    release, open the Services. Every operation is an imperative method on the
    API server, proved equal to a function on cluster snapshots. */
module StoppedReplacement {
  import opened Wrappers
  import opened ManagedObjects

  /** A Pod runs the template it was made from; `version` is the release its
      Deployment was marked with at that time. */
  datatype Pod = Pod(uid: nat, version: string, template: Template)

  datatype Status = Status(replicas: int, updated: int, ready: int, available: int, stalled: bool)

  /** A cluster snapshot. `view` is the Deployment as the controller last read
      it: its generation is the reported observedGeneration. `endpoints[i]` are
      the Pods Service `i` routes to. */
  datatype Cluster = Cluster(
    deployment: Deployment, status: Status, view: Deployment, services: seq<Service>,
    pods: set<Pod>, endpoints: seq<set<Pod>>)

  /** What a driver call reports: `Pending` is Go's (false, nil). */
  datatype Outcome = Done | Pending | Conflict

  datatype Live = AtSource | AtTarget | Drifted

  datatype Route = Gated | Open | Unknown

  predicate Ready(k: Cluster) {
    && k.deployment.replicas == 1 && !k.deployment.deleting
    && k.view.generation >= k.deployment.generation
    && k.status.replicas == 1 && k.status.updated == 1 && k.status.ready == 1 && k.status.available == 1
  }

  function LiveDeployment(d: Driver, c: Checkpoint, k: Cluster): Live {
    var x := k.deployment;
    if !ValidCheckpoint(d, c) || x.uid != c.deployment.uid || x.deleting || (x.replicas != 0 && x.replicas != 1) then
      Drifted
    else
      var one := x.(replicas := 1);
      if && DeploymentMatches(d, c.deployment.template, one, d.source)
         && (OriginalMarker(x.ann, c.deployment.ann) || Value(x.ann, Transition) == d.operation) then
        AtSource
      else if DeploymentMatches(d, d.target.template, one, d.target) && TargetMarked(d, x.ann) then
        AtTarget
      else
        Drifted
  }

  predicate IsGated(d: Driver, s: Service) {
    s.spec.selector == Fenced(d.operation) && Value(s.ann, Stopped) == d.operation
  }

  /** The ports a Service must show: the target's own only after it was marked. */
  function WantedSpec(d: Driver, original: Service, live: Service): ServiceSpec
    requires WellFormed(d)
  {
    if TargetMarked(d, live.ann) && d.portsChange then
      original.spec.(ports := d.target.services[0].spec.ports)
    else
      original.spec
  }

  function LiveService(d: Driver, original: Service, live: Service): Route
    requires WellFormed(d)
  {
    var gated := IsGated(d, live);
    var compare := if gated then live.spec.(selector := original.spec.selector) else live.spec;
    if live.uid != original.uid || live.deleting then Unknown
    else if !gated && Value(live.ann, Stopped) != "" then Unknown
    else if !ServiceCompatible(WantedSpec(d, original, live), compare) then Unknown
    else if !((Owned(d, live.ann, d.source) && OriginalMarker(live.ann, original.ann))
              || TargetMarked(d, live.ann)) then Unknown
    else if gated then Gated
    else Open
  }

  /** The cluster holds one live object for every checkpointed Service. */
  predicate Aligned(c: Checkpoint, k: Cluster) {
    |c.services| == |k.services| == |k.endpoints|
  }

  // ---- Specification of the driver operations ----

  predicate OnlyServicesChanged(k: Cluster, after: Cluster) {
    after.(services := k.services) == k && |after.services| == |k.services|
  }

  predicate OnlyDeploymentChanged(k: Cluster, after: Cluster) {
    after.(deployment := k.deployment) == k
  }

  function RoutesFrom(d: Driver, c: Checkpoint, k: Cluster, i: nat): Outcome
    requires WellFormed(d) && Aligned(c, k) && i <= |c.services|
    decreases |c.services| - i
  {
    if i == |c.services| then Done
    else match LiveService(d, c.services[i], k.services[i])
      case Unknown => Conflict
      case Open => Pending
      case Gated => if k.endpoints[i] != {} then Pending else RoutesFrom(d, c, k, i + 1)
  }

  function RoutesGatedSpec(d: Driver, c: Checkpoint, k: Cluster): Outcome
    requires WellFormed(d) && Aligned(c, k)
  {
    if |c.services| == 0 then Conflict else RoutesFrom(d, c, k, 0)
  }

  function GateService(d: Driver, s: Service): Service {
    s.(spec := s.spec.(selector := Fenced(d.operation)), ann := s.ann[Stopped := d.operation])
  }

  function PutService(k: Cluster, i: nat, s: Service): Cluster
    requires i < |k.services|
  {
    k.(services := k.services[i := s])
  }

  function GateFrom(d: Driver, c: Checkpoint, k: Cluster, i: nat): (r: (Cluster, Outcome))
    requires WellFormed(d) && Aligned(c, k) && i <= |c.services|
    ensures OnlyServicesChanged(k, r.0)
    ensures !r.1.Pending? ==> r.0 == k
    decreases |c.services| - i
  {
    if i == |c.services| then (k, RoutesGatedSpec(d, c, k))
    else match LiveService(d, c.services[i], k.services[i])
      case Unknown => (k, Conflict)
      case Open => (PutService(k, i, GateService(d, k.services[i])), Pending)
      case Gated => GateFrom(d, c, k, i + 1)
  }

  function GateSpec(d: Driver, c: Checkpoint, k: Cluster): (r: (Cluster, Outcome))
    requires WellFormed(d) && Aligned(c, k)
    ensures OnlyServicesChanged(k, r.0)
    ensures !r.1.Pending? ==> r.0 == k
  {
    if LiveDeployment(d, c, k).Drifted? || |c.services| == 0 || d.source.fence != "" || d.target.fence != "" then
      (k, Conflict)
    else
      GateFrom(d, c, k, 0)
  }

  /** No selected Pod is left and the controller has seen the zero. */
  predicate Gone(k: Cluster) {
    k.deployment.replicas == 0 && k.view.generation >= k.deployment.generation && k.status.replicas == 0 && k.pods == {}
  }

  /** The API server bumps the generation when the spec changes. */
  function PutDeployment(k: Cluster, x: Deployment): Cluster {
    var was := k.deployment;
    var changed := x.template != was.template || x.replicas != was.replicas;
    k.(deployment := x.(generation := if changed then was.generation + 1 else was.generation))
  }

  function StopSpec(d: Driver, c: Checkpoint, k: Cluster): (r: (Cluster, Outcome))
    requires WellFormed(d) && Aligned(c, k)
    ensures OnlyDeploymentChanged(k, r.0)
    ensures !r.1.Pending? ==> r.0 == k
  {
    var x := k.deployment;
    if LiveDeployment(d, c, k).Drifted? || !RoutesGatedSpec(d, c, k).Done? then (k, Conflict)
    else if x.replicas != 0 then
      (PutDeployment(k, x.(replicas := 0, ann := x.ann[Transition := d.operation])), Pending)
    else (k, if Gone(k) then Done else Pending)
  }

  function StartedTarget(d: Driver, x: Deployment): Deployment {
    x.(template := ApplyPolicy(d.policy, d.target.template), replicas := 1,
    ann := Mark(d, x.ann, d.target)[Transition := d.operation])
  }

  function StartedSource(d: Driver, c: Checkpoint, x: Deployment): Deployment {
    x.(template := ApplyPolicy(d.policy, c.deployment.template), replicas := c.deployment.replicas,
    ann := RestoreMarks(x.ann, c.deployment.ann)[Transition := d.operation])
  }

  function StartSpec(d: Driver, c: Checkpoint, k: Cluster, target: bool): (r: (Cluster, Outcome))
    requires WellFormed(d) && Aligned(c, k)
    ensures OnlyDeploymentChanged(k, r.0)
    ensures !r.1.Pending? ==> r.0 == k
  {
    var x := k.deployment;
    var live := LiveDeployment(d, c, k);
    if live.Drifted? || !RoutesGatedSpec(d, c, k).Done? then (k, Conflict)
    else if x.replicas == 1 then
      if live.AtTarget? != target then (k, Conflict)
      else if k.view.generation >= x.generation && k.status.stalled then (k, Conflict)
      else (k, if Ready(k) then Done else Pending)
    else if !Gone(k) then (k, Pending)
    else (PutDeployment(k, if target then StartedTarget(d, x) else StartedSource(d, c, x)), Pending)
  }

  /** A gated Service as it is reopened in one direction. */
  function Opened(d: Driver, original: Service, live: Service, target: bool): Service
    requires WellFormed(d)
  {
    var ports :=
      if !d.portsChange then live.spec.ports
      else if target then d.target.services[0].spec.ports
      else original.spec.ports;
    var cleared := live.ann - {Stopped};
    live.(
    spec := live.spec.(selector := original.spec.selector, ports := ports),
    ann := if target then Mark(d, cleared, d.target)[Transition := d.operation]
      else RestoreMarks(cleared, original.ann))
  }

  function OpenFrom(d: Driver, c: Checkpoint, k: Cluster, target: bool, i: nat): (r: (Cluster, Outcome))
    requires WellFormed(d) && Aligned(c, k) && i <= |c.services|
    ensures OnlyServicesChanged(k, r.0)
    ensures !r.1.Pending? ==> r.0 == k
    decreases |c.services| - i
  {
    if i == |c.services| then (k, Done)
    else match LiveService(d, c.services[i], k.services[i])
      case Unknown => (k, Conflict)
      case Open =>
        if target != TargetMarked(d, k.services[i].ann) then (k, Conflict) else OpenFrom(d, c, k, target, i + 1)
      case Gated => (PutService(k, i, Opened(d, c.services[i], k.services[i], target)), Pending)
  }

  function OpenSpec(d: Driver, c: Checkpoint, k: Cluster, target: bool): (r: (Cluster, Outcome))
    requires WellFormed(d) && Aligned(c, k)
    ensures OnlyServicesChanged(k, r.0)
    ensures !r.1.Pending? ==> r.0 == k
  {
    var live := LiveDeployment(d, c, k);
    if live.Drifted? || live.AtTarget? != target || !Ready(k) then (k, Conflict)
    else OpenFrom(d, c, k, target, 0)
  }

  function CaptureSpec(d: Driver, k: Cluster): Option<Checkpoint>
    requires |k.services| == |d.source.services|
  {
    var x := k.deployment;
    if && x.uid != "" && DeploymentMatches(d, d.source.template, x, d.source) && Ready(k)
       && (forall i :: 0 <= i < |k.services| ==> WantedServiceMatches(d, d.source.services[i], k.services[i])) then
      Some(Checkpoint(x, k.services))
    else
      None
  }

  // ---- The imperative driver ----

  class Kubernetes {
    var deployment: Deployment
    var status: Status
    var view: Deployment
    var services: seq<Service>
    var pods: set<Pod>
    var endpoints: seq<set<Pod>>

    function Snapshot(): Cluster
      reads this
    {
      Cluster(deployment, status, view, services, pods, endpoints)
    }

    constructor (k: Cluster)
      ensures Snapshot() == k
    {
      deployment, status, view := k.deployment, k.status, k.view;
      services, pods, endpoints := k.services, k.pods, k.endpoints;
    }

    /** Copies the live objects into a checkpoint, or refuses any that drifted. */
    method Capture(d: Driver) returns (c: Option<Checkpoint>)
      requires |services| == |d.source.services|
      ensures c == CaptureSpec(d, Snapshot())
      ensures c.Some? ==> ValidCheckpoint(d, c.value)
    {
      if deployment.uid == "" || !DeploymentMatches(d, d.source.template, deployment, d.source) || !Ready(Snapshot()) {
        return None;
      }
      var saved: seq<Service> := [];
      for i := 0 to |services|
        invariant saved == services[..i]
        invariant forall j :: 0 <= j < i ==> WantedServiceMatches(d, d.source.services[j], services[j])
      {
        if !WantedServiceMatches(d, d.source.services[i], services[i]) {
          return None;
        }
        saved := saved + [services[i]];
      }
      assert saved == services;
      c := Some(Checkpoint(deployment, saved));
    }

    method RoutesGated(d: Driver, c: Checkpoint) returns (o: Outcome)
      requires WellFormed(d) && Aligned(c, Snapshot())
      ensures o == RoutesGatedSpec(d, c, Snapshot())
    {
      if |c.services| == 0 {
        return Conflict;
      }
      for i := 0 to |c.services|
        invariant RoutesFrom(d, c, Snapshot(), 0) == RoutesFrom(d, c, Snapshot(), i)
      {
        var route := LiveService(d, c.services[i], services[i]);
        if route.Unknown? {
          return Conflict;
        }
        if route.Open? || endpoints[i] != {} {
          return Pending;
        }
      }
      o := Done;
    }

    /** Closes at most one Service. */
    method Gate(d: Driver, c: Checkpoint) returns (o: Outcome)
      requires WellFormed(d) && Aligned(c, Snapshot())
      modifies this`services
      ensures (Snapshot(), o) == GateSpec(d, c, old(Snapshot()))
    {
      if LiveDeployment(d, c, Snapshot()).Drifted? || |c.services| == 0 || d.source.fence != ""
         || d.target.fence != "" {
        return Conflict;
      }
      for i := 0 to |c.services|
        invariant Snapshot() == old(Snapshot())
        invariant GateFrom(d, c, Snapshot(), 0) == GateFrom(d, c, Snapshot(), i)
      {
        var route := LiveService(d, c.services[i], services[i]);
        if route.Unknown? {
          return Conflict;
        }
        if route.Open? {
          services := services[i := GateService(d, services[i])];
          return Pending;
        }
      }
      o := RoutesGated(d, c);
    }

    method Update(x: Deployment)
      modifies this`deployment
      ensures Snapshot() == PutDeployment(old(Snapshot()), x)
    {
      var changed := x.template != deployment.template || x.replicas != deployment.replicas;
      deployment := x.(generation := if changed then deployment.generation + 1 else deployment.generation);
    }

    /** Scales to zero behind the gate, then waits for every Pod to be gone. */
    method Stop(d: Driver, c: Checkpoint) returns (o: Outcome)
      requires WellFormed(d) && Aligned(c, Snapshot())
      modifies this`deployment
      ensures (Snapshot(), o) == StopSpec(d, c, old(Snapshot()))
    {
      var routes := RoutesGated(d, c);
      if LiveDeployment(d, c, Snapshot()).Drifted? || !routes.Done? {
        return Conflict;
      }
      if deployment.replicas != 0 {
        Update(deployment.(replicas := 0, ann := deployment.ann[Transition := d.operation]));
        return Pending;
      }
      o := if Gone(Snapshot()) then Done else Pending;
    }

    /** Starts one release, only over a fully stopped process. */
    method Start(d: Driver, c: Checkpoint, target: bool) returns (o: Outcome)
      requires WellFormed(d) && Aligned(c, Snapshot())
      modifies this`deployment
      ensures (Snapshot(), o) == StartSpec(d, c, old(Snapshot()), target)
    {
      var live := LiveDeployment(d, c, Snapshot());
      var routes := RoutesGated(d, c);
      if live.Drifted? || !routes.Done? {
        return Conflict;
      }
      if deployment.replicas == 1 {
        if live.AtTarget? != target || (view.generation >= deployment.generation && status.stalled) {
          return Conflict;
        }
        o := if Ready(Snapshot()) then Done else Pending;
        return;
      }
      if !Gone(Snapshot()) {
        return Pending;
      }
      if target {
        Update(StartedTarget(d, deployment));
      } else {
        var marks := RestoreManagementMarks(deployment.ann, c.deployment.ann);
        Update(deployment.(template := ApplyPolicy(d.policy, c.deployment.template),
               replicas := c.deployment.replicas, ann := marks[Transition := d.operation]));
      }
      o := Pending;
    }

    /** Reopens at most one Service, in the direction of the running release. */
    method OpenRoutes(d: Driver, c: Checkpoint, target: bool) returns (o: Outcome)
      requires WellFormed(d) && Aligned(c, Snapshot())
      modifies this`services
      ensures (Snapshot(), o) == OpenSpec(d, c, old(Snapshot()), target)
    {
      var k := Snapshot();
      var live := LiveDeployment(d, c, k);
      if live.Drifted? || live.AtTarget? != target || !Ready(k) {
        return Conflict;
      }
      for i := 0 to |c.services|
        invariant Snapshot() == k
        invariant OpenSpec(d, c, k, target) == OpenFrom(d, c, k, target, i)
      {
        var service := services[i];
        var route := LiveService(d, c.services[i], service);
        if route.Unknown? {
          return Conflict;
        }
        if route.Gated? {
          assert OpenFrom(d, c, k, target, i) == (PutService(k, i, Opened(d, c.services[i], service, target)), Pending);
          services := services[i := Opened(d, c.services[i], service, target)];
          return Pending;
        }
        if target != TargetMarked(d, service.ann) {
          return Conflict;
        }
      }
      o := Done;
    }
  }
}
