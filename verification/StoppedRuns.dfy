/** Whole runs of a downtime transition: reconcile calls in any mode and order,
    calls that die after their cluster update and before their ledger commit,
    Core changing its own rows at will, and the Kubernetes controllers. */
module StoppedRuns {
  import opened Wrappers
  import opened ManagedObjects
  import opened ManagementJournal
  import opened StoppedReplacement
  import opened StoppedJournal

  datatype Job = Job(driver: Driver, binding: Binding, guarded: bool)

  /** Cluster, ledger row and Core's rows together, with the run's history: the
      committed phases, and whether a target check succeeded and the published
      target row was seen by a release call. */
  datatype System = System(
    cluster: Cluster, row: Option<Row>, core: Core, log: seq<Phase>, targetChecked: bool, publicationSeen: bool)

  datatype Event =
    /** A reconcile call; `commits` is false when it dies before its commit.
        `registered` is false when the target's digest no longer matches. */
    | Call(mode: Mode, probe: Probe, registered: bool, commits: bool)
    | CoreMoves(core: Core)
    | ControllerReads
    | ControllerReports(status: Status)
    | ControllerNotes(name: string, text: string)
    | PodCreated(uid: nat)
    | PodRemoved(pod: Pod)
    | Routed(service: nat, to: Pod)
    | Unrouted(service: nat, from: Pod)

  function Version(x: Deployment): string {
    Value(x.ann, TemplateHash)
  }

  ghost predicate Sized(j: Job, k: Cluster) {
    |k.services| == |k.endpoints| == |j.driver.source.services|
  }

  // ---- Steps ----

  function Commit(s: System, k: Cluster, r: Record): System {
    var revision := if s.row.Some? then s.row.value.revision + 1 else 1;
    s.(cluster := k, row := Some(Row(r, revision)), log := s.log + [r.phase])
  }

  function RejectTemplate(s: System, mode: Mode): System {
    if && mode.Prepare? && s.core.phase.CoreChecking?
       && (s.row.Some? ==>
             && s.row.value.record.checkpoint.None?
             && (s.row.value.record.phase.Checking? || s.row.value.record.phase.RejectedPreflight?)) then
      Commit(s, s.cluster, Record(RejectedPreflight, None))
    else s
  }

  /** A call while verifying, to which the target answered that it is well and
      idle: up, ready and under this very checkpoint. */
  ghost predicate TargetAnswers(j: Job, s: System, e: Event)
    requires e.Call?
  {
    && e.mode.Prepare? && e.probe.ProbeOk?
    && s.row.Some? && s.row.value.record.phase.Verifying? && s.row.value.record.checkpoint.Some?
    && LiveDeployment(j.driver, s.row.value.record.checkpoint.value, s.cluster).AtTarget? && Ready(s.cluster)
  }

  /** A release call towards the target that found the target published. */
  ghost predicate TargetPublished(j: Job, s: System, e: Event)
    requires e.Call?
  {
    e.mode.ReleaseTarget? && Published(j.binding, s.core)
  }

  ghost function Reconcile(j: Job, s: System, e: Event): System
    requires e.Call? && WellFormed(j.driver) && Sized(j, s.cluster)
  {
    if !Permitted(j.binding, s.core, e.mode) then s
    else if !e.registered then RejectTemplate(s, e.mode)
    else if s.row.None? then
      if e.mode.ReleaseSource? || e.mode.ReleaseTarget? then s
      else Commit(s, s.cluster, Record(Checking, None))
    else
      var r := s.row.value.record;
      if !Decodable(r) || (r.checkpoint.Some? && !ValidCheckpoint(j.driver, r.checkpoint.value)) then s
      else
        var a := AdvanceSpec(j.driver, j.guarded, s.cluster, r, e.mode, e.probe);
        var seen := s.(
            targetChecked := s.targetChecked || TargetAnswers(j, s, e),
            publicationSeen := s.publicationSeen || TargetPublished(j, s, e));
        if a.failure.NoFailure? && e.commits then Commit(seen, a.cluster, a.record)
        else seen.(cluster := a.cluster)
  }

  ghost function Controlled(j: Job, k: Cluster, e: Event): Cluster
    requires Sized(j, k)
  {
    match e
    case ControllerReads => k.(view := k.deployment)
    case ControllerReports(status) => k.(status := status)
    case ControllerNotes(name, text) =>
      k.(deployment := k.deployment.(ann := k.deployment.ann[Foreign(name) := text]))
    case PodCreated(uid) =>
      if k.view.replicas > 0 then k.(pods := k.pods + {Pod(uid, Version(k.view), k.view.template)}) else k
    case PodRemoved(pod) => k.(pods := k.pods - {pod})
    case Routed(i, pod) =>
      if i < |k.services| && pod in k.pods && k.services[i].spec.selector.Labels? then
        k.(endpoints := k.endpoints[i := k.endpoints[i] + {pod}])
      else k
    case Unrouted(i, pod) =>
      if i < |k.services| then k.(endpoints := k.endpoints[i := k.endpoints[i] - {pod}]) else k
    case _ => k
  }

  ghost function Step(j: Job, s: System, e: Event): System
    requires WellFormed(j.driver) && Sized(j, s.cluster)
  {
    match e
    case Call(_, _, _, _) => Reconcile(j, s, e)
    case CoreMoves(core) => s.(core := core)
    case _ => s.(cluster := Controlled(j, s.cluster, e))
  }

  /** What a call does to ledger and history, whether or not it commits. */
  ghost predicate Books(s: System, t: System, a: Advanced, mode: Mode)
    requires s.row.Some?
  {
    && t.cluster == a.cluster
    && ((t.row == s.row && t.log == s.log) ||
        (t.row.Some? && t.row.value.record == a.record && t.log == s.log + [a.record.phase]))
    && (s.targetChecked || (s.row.value.record.phase.Verifying? && a.record.phase.Prepared?) ==> t.targetChecked)
    && (s.publicationSeen || mode.ReleaseTarget? ==> t.publicationSeen)
  }

  // ---- The invariant ----

  /** Every Pod, and every Pod the controller may still create, is of the version
      and runs the template of the current Deployment. */
  ghost predicate Coherent(k: Cluster) {
    && (forall p :: p in k.pods ==> p.version == Version(k.deployment) && p.template == k.deployment.template)
    && k.view.generation <= k.deployment.generation
    && (k.view.replicas <= 0 || (Version(k.view) == Version(k.deployment) && k.view.template == k.deployment.template))
    && (k.view.generation == k.deployment.generation ==> k.view.replicas == k.deployment.replicas)
  }

  /** Equal but for annotations the executor never names. */
  ghost predicate OnlyNoted(x: Deployment, y: Deployment) {
    && x.(ann := y.ann) == y
    && forall k: Key :: !k.Foreign? ==> (k in x.ann <==> k in y.ann) && (k in x.ann ==> x.ann[k] == y.ann[k])
  }

  ghost predicate Untouched(before: Cluster, k: Cluster) {
    k.services == before.services && OnlyNoted(before.deployment, k.deployment)
  }

  ghost predicate Captured(d: Driver, before: Cluster, c: Checkpoint) {
    ValidCheckpoint(d, c) && c.services == before.services && OnlyNoted(before.deployment, c.deployment)
  }

  ghost predicate SourceShape(d: Driver, c: Checkpoint, x: Deployment) {
    && x.uid == c.deployment.uid && !x.deleting && (x.replicas == 0 || x.replicas == 1)
    && (x.template == c.deployment.template || x.template == ApplyPolicy(d.policy, c.deployment.template))
    && (forall k :: Managed(k) && k != Transition ==> Value(x.ann, k) == Value(c.deployment.ann, k))
    && (OriginalMarker(x.ann, c.deployment.ann) || Value(x.ann, Transition) == d.operation)
  }

  ghost predicate TargetShape(d: Driver, c: Checkpoint, x: Deployment) {
    && x.uid == c.deployment.uid && !x.deleting && (x.replicas == 0 || x.replicas == 1)
    && x.template == ApplyPolicy(d.policy, d.target.template)
    && TargetMarked(d, x.ann)
  }

  ghost predicate IsOriginal(c: Checkpoint, k: Cluster, i: nat)
    requires Aligned(c, k) && i < |c.services|
  {
    k.services[i] == c.services[i]
  }

  ghost predicate IsFenced(d: Driver, c: Checkpoint, k: Cluster, i: nat)
    requires Aligned(c, k) && i < |c.services|
  {
    k.services[i] == GateService(d, c.services[i])
  }

  ghost predicate IsOpened(d: Driver, c: Checkpoint, k: Cluster, i: nat)
    requires WellFormed(d) && Aligned(c, k) && i < |c.services|
  {
    k.services[i] == Opened(d, c.services[i], GateService(d, c.services[i]), true)
  }

  /** Before any release: a Service is as captured, or gated. */
  ghost predicate Closing(d: Driver, c: Checkpoint, k: Cluster, i: nat)
    requires Aligned(c, k) && i < |c.services|
  {
    IsOriginal(c, k, i) || IsFenced(d, c, k, i)
  }

  /** While the target is released: a Service is still gated, or reopened onto it. */
  ghost predicate Opening(d: Driver, c: Checkpoint, k: Cluster, i: nat)
    requires WellFormed(d) && Aligned(c, k) && i < |c.services|
  {
    IsFenced(d, c, k, i) || IsOpened(d, c, k, i)
  }

  /** Gated, and the endpoint controller has drained it. */
  ghost predicate Shut(d: Driver, c: Checkpoint, k: Cluster, i: nat)
    requires Aligned(c, k) && i < |c.services|
  {
    IsFenced(d, c, k, i) && k.endpoints[i] == {}
  }

  ghost predicate AllClosing(d: Driver, c: Checkpoint, k: Cluster)
    requires Aligned(c, k)
  {
    forall i :: 0 <= i < |c.services| ==> Closing(d, c, k, i)
  }

  ghost predicate AllGated(d: Driver, c: Checkpoint, k: Cluster)
    requires Aligned(c, k)
  {
    forall i :: 0 <= i < |c.services| ==> Shut(d, c, k, i)
  }

  /** How the objects may look in each phase that holds a checkpoint. */
  ghost predicate Shaped(d: Driver, before: Cluster, c: Checkpoint, k: Cluster, p: Phase)
    requires WellFormed(d) && Aligned(c, k)
  {
    var x := k.deployment;
    if p.ReleasingTarget? || p.ReleasedTarget? then
      && TargetShape(d, c, x) && x.replicas == 1
      && (forall i :: 0 <= i < |c.services| ==> Opening(d, c, k, i))
      && (p.ReleasedTarget? ==> forall i :: 0 <= i < |c.services| ==> IsOpened(d, c, k, i))
    else
      && !p.Checking? && !p.RejectedPreflight? && !p.CancelingSource?
      && AllClosing(d, c, k)
      && (SourceShape(d, c, x) || TargetShape(d, c, x))
      && (TargetShape(d, c, x) || x.replicas == 0 ==> AllGated(d, c, k) && c.services != [])
      && (p.Sealing? ==> SourceShape(d, c, x))
      && (p.CanceledSource? ==> Untouched(before, k))
      && (p.Applying? ==> AllGated(d, c, k) && (x.replicas == 1 <==> TargetShape(d, c, x)))
      && (p.Verifying? || p.Prepared? ==> TargetShape(d, c, x) && x.replicas == 1)
      && (p.Restored? || p.ReleasingSource? || p.ReleasedSource? ==> SourceShape(d, c, x) && x.replicas == 1)
      && (p.ReleasedSource? ==> forall i :: 0 <= i < |c.services| ==> IsOriginal(c, k, i))
  }

  /** A target Pod is routed to only by a Service reopened onto the target. */
  ghost predicate RoutesSafe(d: Driver, before: Cluster, k: Cluster)
    requires WellFormed(d) && |k.services| == |k.endpoints| == |before.services|
  {
    forall i, p :: 0 <= i < |k.endpoints| && p in k.endpoints[i] && p.version == d.target.hash ==>
      k.services[i] == Opened(d, before.services[i], GateService(d, before.services[i]), true)
  }

  ghost predicate Related(j: Job, before: Cluster, s: System)
    requires WellFormed(j.driver) && Sized(j, s.cluster) && Sized(j, before)
  {
    if s.row.None? then
      Untouched(before, s.cluster) && s.log == []
    else
      var r := s.row.value.record;
      && Decodable(r) && s.log != [] && s.log[|s.log| - 1] == r.phase
      && (r.checkpoint.None? ==> Untouched(before, s.cluster))
      && (r.checkpoint.Some? ==>
            && Captured(j.driver, before, r.checkpoint.value)
            && Shaped(j.driver, before, r.checkpoint.value, s.cluster, r.phase))
  }

  ghost predicate Recorded(j: Job, s: System) {
    && (Version(s.cluster.deployment) == j.driver.target.hash ==> Applying in s.log)
    && (s.row.Some? ==>
          var p := s.row.value.record.phase;
          && (p.Applying? ==> Applying in s.log)
          && (p.Prepared? || p.ReleasingTarget? || p.ReleasedTarget? ==> s.targetChecked)
          && (p.ReleasingTarget? || p.ReleasedTarget? ==> ReleasingTarget in s.log && s.publicationSeen))
  }

  ghost predicate Unmarked(d: Driver, s: Service) {
    Stopped !in s.ann && Value(s.ann, Transition) != d.operation
  }

  /** Not this operation's. A gate another operation left behind is fenced by it,
      since gating writes selector and annotation in one update. */
  ghost predicate Unclaimed(d: Driver, s: Service) {
    && Value(s.ann, Transition) != d.operation
    && (Stopped in s.ann ==> s.spec.selector.Fenced? && s.spec.selector.operation != d.operation)
  }

  /** Nothing carries the operation's marks and nothing runs the target yet; the
      registered Services select Pods by labels. */
  ghost predicate Fresh(d: Driver, k: Cluster) {
    && Value(k.deployment.ann, Transition) != d.operation && Version(k.deployment) != d.target.hash
    && (forall i :: 0 <= i < |d.source.services| ==> d.source.services[i].spec.selector.Labels?)
    && (forall i :: 0 <= i < |k.services| ==> Unclaimed(d, k.services[i]))
    && (forall i, p :: 0 <= i < |k.endpoints| && p in k.endpoints[i] ==> p.version != d.target.hash)
  }

  ghost predicate Initial(j: Job, s: System) {
    && WellFormed(j.driver) && Sized(j, s.cluster) && Fresh(j.driver, s.cluster) && Coherent(s.cluster)
    && s.row.None? && s.log == [] && !s.targetChecked && !s.publicationSeen
  }

  ghost predicate Invariant(j: Job, before: Cluster, s: System) {
    && WellFormed(j.driver) && Sized(j, s.cluster) && Sized(j, before) && Fresh(j.driver, before)
    && Coherent(s.cluster)
    && Related(j, before, s)
    && Recorded(j, s)
    && RoutesSafe(j.driver, before, s.cluster)
  }

  /** The state a run of events leads to. */
  ghost function Run(j: Job, s: System, events: seq<Event>): (t: System)
    requires Initial(j, s)
    ensures Sized(j, t.cluster)
  {
    if events == [] then s
    else
      var t := Run(j, s, events[..|events| - 1]);
      StepKeepsSize(j, t, events[|events| - 1]);
      Step(j, t, events[|events| - 1])
  }

  lemma StepKeepsSize(j: Job, s: System, e: Event)
    requires WellFormed(j.driver) && Sized(j, s.cluster)
    ensures Sized(j, Step(j, s, e).cluster)
  {
  }
}
