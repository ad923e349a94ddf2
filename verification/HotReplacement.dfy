/** The hot driver: mark the Services, replace the Deployment, or restore both
    from the checkpoint, one update per call. */
module HotReplacement {
  import opened ManagedObjects
  import opened StoppedReplacement

  predicate AtOriginal(d: Driver, c: Checkpoint, x: Deployment) {
    DeploymentMatches(d, c.deployment.template, x, d.source) && OriginalMarker(x.ann, c.deployment.ann)
  }

  predicate AtReplacement(d: Driver, x: Deployment) {
    DeploymentMatches(d, d.target.template, x, d.target) && TargetMarked(d, x.ann)
  }

  /** The live object is still the captured one. */
  predicate SameService(original: Service, live: Service) {
    live.uid == original.uid && !live.deleting && ServiceCompatible(original.spec, live.spec)
  }

  predicate Unmoved(d: Driver, original: Service, live: Service) {
    Owned(d, live.ann, d.source) && OriginalMarker(live.ann, original.ann)
  }

  function MarkedService(d: Driver, s: Service): Service {
    s.(ann := Mark(d, s.ann, d.target)[Transition := d.operation])
  }

  function UnmarkedService(original: Service, s: Service): Service {
    s.(ann := RestoreMarks(s.ann, original.ann))
  }

  function UnmarkedDeployment(d: Driver, c: Checkpoint, x: Deployment): Deployment {
    x.(template := ApplyPolicy(d.policy, c.deployment.template), replicas := c.deployment.replicas,
    ann := RestoreMarks(x.ann, c.deployment.ann))
  }

  // ---- Specification ----

  function ApplyDeployment(d: Driver, k: Cluster): (r: (Cluster, Outcome))
    ensures OnlyDeploymentChanged(k, r.0)
    ensures !r.1.Pending? ==> r.0 == k
  {
    if TargetMarked(d, k.deployment.ann) then (k, if Ready(k) then Done else Pending)
    else (PutDeployment(k, StartedTarget(d, k.deployment)), Pending)
  }

  function ApplyFrom(d: Driver, c: Checkpoint, k: Cluster, i: nat): (r: (Cluster, Outcome))
    requires |c.services| == |k.services| && i <= |c.services|
    ensures |r.0.services| == |k.services| && r.0.endpoints == k.endpoints && r.0.status == k.status
            && r.0.view == k.view
    ensures !r.1.Pending? ==> r.0 == k
    decreases |c.services| - i
  {
    if i == |c.services| then ApplyDeployment(d, k)
    else
      var live := k.services[i];
      if !SameService(c.services[i], live) then (k, Conflict)
      else if TargetMarked(d, live.ann) then ApplyFrom(d, c, k, i + 1)
      else if !Unmoved(d, c.services[i], live) then (k, Conflict)
      else (PutService(k, i, MarkedService(d, live)), Pending)
  }

  function ApplySpec(d: Driver, c: Checkpoint, k: Cluster): (r: (Cluster, Outcome))
    requires |k.services| == |d.source.services|
    ensures |r.0.services| == |k.services| && r.0.endpoints == k.endpoints && r.0.status == k.status
            && r.0.view == k.view
  {
    if !ValidCheckpoint(d, c) || k.deployment.uid != c.deployment.uid
       || !(AtOriginal(d, c, k.deployment) || AtReplacement(d, k.deployment)) then
      (k, Conflict)
    else
      ApplyFrom(d, c, k, 0)
  }

  function RestoreFrom(d: Driver, c: Checkpoint, k: Cluster, i: nat): (r: (Cluster, Outcome))
    requires |c.services| == |k.services| && i <= |c.services|
    ensures OnlyServicesChanged(k, r.0)
    ensures !r.1.Pending? ==> r.0 == k
    decreases |c.services| - i
  {
    if i == |c.services| then (k, Done)
    else
      var live := k.services[i];
      if !SameService(c.services[i], live) then (k, Conflict)
      else if Unmoved(d, c.services[i], live) then RestoreFrom(d, c, k, i + 1)
      else if !TargetMarked(d, live.ann) then (k, Conflict)
      else (PutService(k, i, UnmarkedService(c.services[i], live)), Pending)
  }

  function RestoreSpec(d: Driver, c: Checkpoint, k: Cluster): (r: (Cluster, Outcome))
    requires |k.services| == |d.source.services|
    ensures |r.0.services| == |k.services| && r.0.endpoints == k.endpoints && r.0.status == k.status
            && r.0.view == k.view
  {
    if !ValidCheckpoint(d, c) || k.deployment.uid != c.deployment.uid then (k, Conflict)
    else if AtOriginal(d, c, k.deployment) then
      if !Ready(k) then (k, Pending) else RestoreFrom(d, c, k, 0)
    else if !AtReplacement(d, k.deployment) then (k, Conflict)
    else (PutDeployment(k, UnmarkedDeployment(d, c, k.deployment)), Pending)
  }

  // ---- The imperative driver ----

  method Apply(kube: Kubernetes, d: Driver, c: Checkpoint) returns (o: Outcome)
    requires |kube.services| == |d.source.services|
    modifies kube
    ensures (kube.Snapshot(), o) == ApplySpec(d, c, old(kube.Snapshot()))
  {
    var x := kube.deployment;
    if !ValidCheckpoint(d, c) || x.uid != c.deployment.uid || !(AtOriginal(d, c, x) || AtReplacement(d, x)) {
      return Conflict;
    }
    for i := 0 to |c.services|
      invariant kube.Snapshot() == old(kube.Snapshot())
      invariant ApplyFrom(d, c, kube.Snapshot(), 0) == ApplyFrom(d, c, kube.Snapshot(), i)
    {
      var live := kube.services[i];
      if !SameService(c.services[i], live) {
        return Conflict;
      }
      if !TargetMarked(d, live.ann) {
        if !Unmoved(d, c.services[i], live) {
          return Conflict;
        }
        kube.services := kube.services[i := MarkedService(d, live)];
        return Pending;
      }
    }
    if TargetMarked(d, x.ann) {
      o := if Ready(kube.Snapshot()) then Done else Pending;
      return;
    }
    kube.Update(StartedTarget(d, x));
    o := Pending;
  }

  method RestoreObjects(kube: Kubernetes, d: Driver, c: Checkpoint) returns (o: Outcome)
    requires |kube.services| == |d.source.services|
    modifies kube
    ensures (kube.Snapshot(), o) == RestoreSpec(d, c, old(kube.Snapshot()))
  {
    var x := kube.deployment;
    if !ValidCheckpoint(d, c) || x.uid != c.deployment.uid {
      return Conflict;
    }
    if AtOriginal(d, c, x) {
      if !Ready(kube.Snapshot()) {
        return Pending;
      }
    } else {
      if !AtReplacement(d, x) {
        return Conflict;
      }
      var marks := RestoreManagementMarks(x.ann, c.deployment.ann);
      kube.Update(x.(template := ApplyPolicy(d.policy, c.deployment.template), replicas := c.deployment.replicas,
                     ann := marks));
      return Pending;
    }
    for i := 0 to |c.services|
      invariant kube.Snapshot() == old(kube.Snapshot())
      invariant RestoreFrom(d, c, kube.Snapshot(), 0) == RestoreFrom(d, c, kube.Snapshot(), i)
    {
      var live := kube.services[i];
      if !SameService(c.services[i], live) {
        return Conflict;
      }
      if !Unmoved(d, c.services[i], live) {
        if !TargetMarked(d, live.ann) {
          return Conflict;
        }
        var marks := RestoreManagementMarks(live.ann, c.services[i].ann);
        kube.services := kube.services[i := live.(ann := marks)];
        return Pending;
      }
    }
    o := Done;
  }

  // ---- Partial work: what a prefix of applies and restores may leave ----

  /** A Service as captured, or as marked for the target. Foreign annotations are
      left alone; a chart release may leave its own two. */
  ghost predicate ServiceBack(d: Driver, original: Service, s: Service) {
    && s.(ann := original.ann) == original && SameManaged(s.ann, original.ann) && SameForeign(s.ann, original.ann)
    && (!d.target.helm ==> SameUnmanaged(s.ann, original.ann))
  }

  ghost predicate ServiceMoved(d: Driver, original: Service, s: Service) {
    && s.(ann := original.ann) == original && TargetMarked(d, s.ann) && SameForeign(s.ann, original.ann)
    && (!d.target.helm ==> SameUnmanaged(s.ann, original.ann))
  }

  ghost predicate DeploymentBack(d: Driver, c: Checkpoint, x: Deployment) {
    && x.uid == c.deployment.uid && !x.deleting && x.replicas == 1
    && (x.template == c.deployment.template || x.template == ApplyPolicy(d.policy, c.deployment.template))
    && SameManaged(x.ann, c.deployment.ann)
  }

  ghost predicate DeploymentMoved(d: Driver, c: Checkpoint, x: Deployment) {
    && x.uid == c.deployment.uid && !x.deleting && x.replicas == 1
    && x.template == ApplyPolicy(d.policy, d.target.template)
    && TargetMarked(d, x.ann)
  }

  ghost predicate Partial(d: Driver, c: Checkpoint, k: Cluster, i: nat)
    requires |c.services| == |k.services| && i < |c.services|
  {
    ServiceBack(d, c.services[i], k.services[i]) || ServiceMoved(d, c.services[i], k.services[i])
  }

  /** Any mixture of captured and marked objects. */
  ghost predicate PartialWork(d: Driver, c: Checkpoint, k: Cluster) {
    && WellFormed(d) && ValidCheckpoint(d, c) && |c.services| == |k.services| == |k.endpoints|
    && Value(c.deployment.ann, Transition) != d.operation
    && (forall i :: 0 <= i < |c.services| ==> Value(c.services[i].ann, Transition) != d.operation)
    && (DeploymentBack(d, c, k.deployment) || DeploymentMoved(d, c, k.deployment))
    && (forall i :: 0 <= i < |c.services| ==> Partial(d, c, k, i))
  }

  ghost function MovedServices(d: Driver, c: Checkpoint, k: Cluster, i: nat): nat
    requires |c.services| == |k.services| && i <= |c.services|
    decreases |c.services| - i
  {
    if i == |c.services| then 0
    else (if ServiceMoved(d, c.services[i], k.services[i]) then 1 else 0) + MovedServices(d, c, k, i + 1)
  }

  /** How many objects still carry the target's marks. */
  ghost function Moved(d: Driver, c: Checkpoint, k: Cluster): nat
    requires |c.services| == |k.services|
  {
    (if DeploymentMoved(d, c, k.deployment) then 1 else 0) + MovedServices(d, c, k, 0)
  }

  lemma ServiceTold(d: Driver, want: WantedService, original: Service, s: Service)
    requires WellFormed(d) && WantedServiceMatches(d, want, original) && Value(original.ann, Transition) != d.operation
    requires ServiceBack(d, original, s) || ServiceMoved(d, original, s)
    ensures SameService(original, s)
    ensures Unmoved(d, original, s) <==> ServiceBack(d, original, s)
    ensures TargetMarked(d, s.ann) <==> ServiceMoved(d, original, s)
    ensures ServiceBack(d, original, s) <==> !ServiceMoved(d, original, s)
  {
    OwnedIsExclusive(d, s.ann);
    if ServiceBack(d, original, s) {
      OwnedFollowsManaged(d, s.ann, original.ann, d.source);
    }
  }

  lemma ServiceMarks(d: Driver, original: Service, s: Service)
    requires ServiceBack(d, original, s)
    ensures ServiceMoved(d, original, MarkedService(d, s))
  {
    MarkOwns(d, s.ann, d.target);
    MarkTouchesManaged(d, s.ann);
  }

  lemma ServiceUnmarks(d: Driver, original: Service, s: Service)
    requires s.(ann := original.ann) == original && SameForeign(s.ann, original.ann)
    requires !d.target.helm ==> SameUnmanaged(s.ann, original.ann)
    ensures ServiceBack(d, original, UnmarkedService(original, s))
  {
    RestoresManaged(s.ann, original.ann);
  }

  lemma ServiceMoves(d: Driver, original: Service, s: Service)
    requires ServiceBack(d, original, s) || ServiceMoved(d, original, s)
    ensures ServiceBack(d, original, s) ==> ServiceMoved(d, original, MarkedService(d, s))
    ensures ServiceBack(d, original, UnmarkedService(original, s))
  {
    if ServiceBack(d, original, s) {
      ServiceMarks(d, original, s);
    }
    ServiceUnmarks(d, original, s);
  }

  lemma RestoresManaged(live: Annotations, original: Annotations)
    ensures SameManaged(RestoreMarks(live, original), original)
    ensures SameUnmanaged(RestoreMarks(live, original), live) && SameForeign(RestoreMarks(live, original), live)
  {
  }

  lemma MarkTouchesManaged(d: Driver, a: Annotations)
    ensures !d.target.helm ==> SameUnmanaged(Mark(d, a, d.target)[Transition := d.operation], a)
    ensures SameForeign(Mark(d, a, d.target)[Transition := d.operation], a)
  {
  }

  lemma DeploymentTold(d: Driver, c: Checkpoint, x: Deployment)
    requires WellFormed(d) && ValidCheckpoint(d, c) && Value(c.deployment.ann, Transition) != d.operation
    requires DeploymentBack(d, c, x) || DeploymentMoved(d, c, x)
    ensures AtOriginal(d, c, x) <==> DeploymentBack(d, c, x)
    ensures AtReplacement(d, x) <==> DeploymentMoved(d, c, x)
    ensures DeploymentBack(d, c, x) <==> !DeploymentMoved(d, c, x)
    ensures TargetMarked(d, x.ann) <==> DeploymentMoved(d, c, x)
    ensures DeploymentMoved(d, c, StartedTarget(d, x))
    ensures DeploymentBack(d, c, UnmarkedDeployment(d, c, x))
  {
    OwnedIsExclusive(d, x.ann);
    if SameManaged(x.ann, c.deployment.ann) {
      OwnedFollowsManaged(d, x.ann, c.deployment.ann, d.source);
    }
    MarkOwns(d, x.ann, d.target);
  }
}
