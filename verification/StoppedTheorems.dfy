/** What every run of a downtime transition guarantees. */
module StoppedTheorems {
  import opened Wrappers
  import opened ManagedObjects
  import opened ManagementJournal
  import opened StoppedReplacement
  import opened StoppedJournal
  import opened StoppedRuns
  import opened StoppedSafety

  // ---- The phase machine ----

  /** Every phase change one call may commit. */
  predicate Follows(p: Phase, q: Phase, mode: Mode) {
    || p == q
    || (mode.Prepare? && match p
        case Checking => q.Sealing? || q.CanceledSource? || q.RejectedPreflight? || q.RecoveryRequired?
        case Sealing => q.Applying? || q.RecoveryRequired?
        case Applying => q.Verifying? || q.RecoveryRequired?
        case Verifying => q.Prepared? || q.RecoveryRequired?
        case Prepared => q.RecoveryRequired?
        case _ => false)
    || (mode.Restore? && !IsRelease(p) && !p.RejectedPreflight? && !p.Restored? && (q.Restoring? || q.Restored?))
    || (mode.ReleaseSource? && ((p.Restored? && q.ReleasingSource?) || (p.ReleasingSource? && q.ReleasedSource?)))
    || (mode.ReleaseTarget? && ((p.Prepared? && q.ReleasingTarget?) || (p.ReleasingTarget? && q.ReleasedTarget?)))
  }

  lemma ReleaseFollows(d: Driver, k: Cluster, r: Record, target: bool)
    requires Callable(d, k, r)
    ensures
      var q := AdvanceRelease(d, k, r, target).record;
      && Follows(r.phase, q.phase, if target then ReleaseTarget else ReleaseSource)
      && Decodable(q) && q.checkpoint == r.checkpoint && (q.phase.Prepared? ==> r.phase.Prepared?)
  {
  }

  /** What an advance leaves of a record. */
  ghost predicate Progresses(r: Record, q: Record, mode: Mode) {
    && Follows(r.phase, q.phase, mode)
    && Decodable(q)
    && (r.checkpoint.Some? && !r.phase.Checking? ==> q.checkpoint == r.checkpoint)
    && (q.phase.Prepared? && !r.phase.Prepared? ==> r.phase.Verifying?)
  }

  lemma CheckingFollows(d: Driver, k: Cluster, r: Record, probe: Probe)
    requires Callable(d, k, r) && r.phase.Checking?
    ensures Progresses(r, Settle(AdvanceChecking(d, k, r, probe), Prepare).record, Prepare)
  {
  }

  lemma PrepareFollows(d: Driver, guarded: bool, k: Cluster, r: Record, probe: Probe)
    requires Callable(d, k, r)
    ensures Progresses(r, AdvanceSpec(d, guarded, k, r, Prepare, probe).record, Prepare)
  {
    if r.phase.Checking? {
      CheckingFollows(d, k, r, probe);
    } else if r.phase.Sealing? {
      SealingCases(d, guarded, k, r, probe);
    }
  }

  lemma RestoreFollows(d: Driver, guarded: bool, k: Cluster, r: Record, probe: Probe)
    requires Callable(d, k, r)
    ensures Progresses(r, AdvanceSpec(d, guarded, k, r, Restore, probe).record, Restore)
  {
    if r.phase.Restoring? {
      RestoringCases(d, guarded, k, r, probe);
    }
  }

  lemma AdvanceFollows(d: Driver, guarded: bool, k: Cluster, r: Record, mode: Mode, probe: Probe)
    requires Callable(d, k, r)
    ensures Progresses(r, AdvanceSpec(d, guarded, k, r, mode, probe).record, mode)
  {
    match mode
    case Prepare => PrepareFollows(d, guarded, k, r, probe);
    case Restore => RestoreFollows(d, guarded, k, r, probe);
    case _ => ReleaseFollows(d, k, r, mode.ReleaseTarget?);
  }

  /** The named release is up and ready, and its own check answered. */
  ghost predicate Answered(d: Driver, c: Checkpoint, k: Cluster, target: bool, probe: Probe) {
    && Ready(k) && (probe.ProbeOk? || probe.ProbeBusy?)
    && (if target then LiveDeployment(d, c, k).AtTarget? else LiveDeployment(d, c, k).AtSource?)
  }

  /** What a phase change needs of the cluster and of the business check. */
  ghost predicate Licensed(d: Driver, c: Checkpoint, k: Cluster, p: Phase, q: Phase, probe: Probe)
    requires WellFormed(d) && Aligned(c, k)
  {
    match q
    case Sealing => Answered(d, c, k, false, probe) && probe.ProbeOk?
    case CanceledSource => Answered(d, c, k, false, probe) && probe.ProbeBusy?
    case Applying => Gone(k) && RoutesGatedSpec(d, c, k).Done?
    case Verifying => Ready(k) && LiveDeployment(d, c, k).AtTarget? && RoutesGatedSpec(d, c, k).Done?
    case Prepared => Answered(d, c, k, true, probe) && probe.ProbeOk?
    case Restored => Answered(d, c, k, false, probe)
    case ReleasedSource => Ready(k) && LiveDeployment(d, c, k).AtSource?
    case ReleasedTarget => Ready(k) && LiveDeployment(d, c, k).AtTarget?
    case _ => true
  }

  /** The record's phase changed only with what the new one needs. */
  ghost predicate LicensedTo(d: Driver, k: Cluster, r: Record, q: Record, probe: Probe)
    requires WellFormed(d) && |k.services| == |k.endpoints|
  {
    q.phase != r.phase && q.checkpoint.Some? && Aligned(q.checkpoint.value, k) ==>
      Licensed(d, q.checkpoint.value, k, r.phase, q.phase, probe)
  }

  lemma ReleaseIsLicensed(d: Driver, k: Cluster, r: Record, target: bool, probe: Probe)
    requires Callable(d, k, r)
    ensures LicensedTo(d, k, r, AdvanceRelease(d, k, r, target).record, probe)
  {
  }

  lemma CheckingIsLicensed(d: Driver, k: Cluster, r: Record, probe: Probe)
    requires Callable(d, k, r)
    ensures LicensedTo(d, k, r, AdvanceChecking(d, k, r, probe).record, probe)
  {
  }

  lemma SealingIsLicensed(d: Driver, guarded: bool, k: Cluster, r: Record, probe: Probe)
    requires Callable(d, k, r) && r.checkpoint.Some?
    ensures LicensedTo(d, k, r, AdvanceSealing(d, guarded, k, r, probe).0.record, probe)
  {
  }

  lemma RestoringIsLicensed(d: Driver, guarded: bool, k: Cluster, r: Record, probe: Probe)
    requires Callable(d, k, r) && r.checkpoint.Some?
    ensures LicensedTo(d, k, r, AdvanceRestoring(d, guarded, k, r, probe).record, probe)
  {
  }

  lemma ApplyingIsLicensed(d: Driver, guarded: bool, k: Cluster, r: Record, probe: Probe)
    requires Callable(d, k, r) && r.phase.Applying?
    ensures LicensedTo(d, k, r, AdvanceSpec(d, guarded, k, r, Prepare, probe).record, probe)
  {
    StartCases(d, r.checkpoint.value, k, true);
  }

  lemma VerifyingIsLicensed(d: Driver, guarded: bool, k: Cluster, r: Record, probe: Probe)
    requires Callable(d, k, r) && (r.phase.Verifying? || r.phase.Prepared?)
    ensures LicensedTo(d, k, r, AdvanceSpec(d, guarded, k, r, Prepare, probe).record, probe)
  {
  }

  lemma PrepareIsLicensed(d: Driver, guarded: bool, k: Cluster, r: Record, probe: Probe)
    requires Callable(d, k, r)
    ensures LicensedTo(d, k, r, AdvanceSpec(d, guarded, k, r, Prepare, probe).record, probe)
  {
    match r.phase
    case Checking => CheckingIsLicensed(d, k, r, probe);
    case Sealing => SealingIsLicensed(d, guarded, k, r, probe);
    case Applying => ApplyingIsLicensed(d, guarded, k, r, probe);
    case Verifying => VerifyingIsLicensed(d, guarded, k, r, probe);
    case Prepared => VerifyingIsLicensed(d, guarded, k, r, probe);
    case _ =>
  }

  lemma RestoreIsLicensed(d: Driver, guarded: bool, k: Cluster, r: Record, probe: Probe)
    requires Callable(d, k, r)
    ensures LicensedTo(d, k, r, AdvanceSpec(d, guarded, k, r, Restore, probe).record, probe)
  {
    if r.phase.Restoring? {
      RestoringIsLicensed(d, guarded, k, r, probe);
    }
  }

  /** No call changes the phase without what the new one needs. */
  lemma AdvanceIsLicensed(d: Driver, guarded: bool, k: Cluster, r: Record, mode: Mode, probe: Probe)
    requires Callable(d, k, r)
    ensures LicensedTo(d, k, r, AdvanceSpec(d, guarded, k, r, mode, probe).record, probe)
  {
    match mode
    case Prepare => PrepareIsLicensed(d, guarded, k, r, probe);
    case Restore => RestoreIsLicensed(d, guarded, k, r, probe);
    case _ => ReleaseIsLicensed(d, k, r, mode.ReleaseTarget?, probe);
  }

  /** A guarded process is stopped only in a call in which it was up, ready and
      answered that it is idle: the source while sealing, the target while
      restoring. */
  lemma GuardedStopIsChecked(d: Driver, k: Cluster, r: Record, mode: Mode, probe: Probe)
    requires Callable(d, k, r) && k.deployment.replicas != 0
    requires AdvanceSpec(d, true, k, r, mode, probe).cluster.deployment.replicas == 0
    ensures r.checkpoint.Some? && probe.ProbeOk?
    ensures Answered(d, r.checkpoint.value, k, r.phase.Restoring?, probe) && (r.phase.Sealing? || r.phase.Restoring?)
  {
  }

  /** A committed phase change always goes up this order. */
  function Rank(p: Phase): nat {
    match p
    case Checking => 0
    case RejectedPreflight => 10
    case Sealing => 1
    case CancelingSource => 2
    case CanceledSource => 2
    case Applying => 2
    case Verifying => 3
    case Prepared => 4
    case RecoveryRequired => 5
    case Restoring => 6
    case Restored => 7
    case ReleasingSource => 8
    case ReleasingTarget => 8
    case ReleasedSource => 9
    case ReleasedTarget => 9
  }

  // ---- Every step keeps the invariant ----

  /** A preflight reads only; what it saves is what it found. */
  lemma CheckingCases(d: Driver, guarded: bool, k: Cluster, probe: Probe)
    requires Callable(d, k, Record(Checking, None))
    ensures
      var a := AdvanceSpec(d, guarded, k, Record(Checking, None), Prepare, probe);
      && a.cluster == k
      && (a.record.checkpoint.None? ||
          (&& a.record.checkpoint == Some(Checkpoint(k.deployment, k.services))
           && ValidCheckpoint(d, a.record.checkpoint.value)
           && (a.record.phase.Sealing? || a.record.phase.CanceledSource?)))
  {
  }

  lemma CaptureIsShaped(d: Driver, before: Cluster, k: Cluster, p: Phase)
    requires WellFormed(d) && Untouched(before, k) && |k.services| == |k.endpoints| && (p.Sealing? || p.CanceledSource?)
    requires ValidCheckpoint(d, Checkpoint(k.deployment, k.services))
    ensures Shaped(d, before, Checkpoint(k.deployment, k.services), k, p)
  {
    var c := Checkpoint(k.deployment, k.services);
    assert forall i :: 0 <= i < |c.services| ==> Closing(d, c, k, i);
    SourceRecognised(d, c, k);
  }

  lemma CheckingKeeps(j: Job, before: Cluster, s: System, probe: Probe)
    requires Invariant(j, before, s) && s.row.Some?
    requires s.row.value.record == Record(Checking, None)
    ensures
      var d := j.driver;
      var a := AdvanceSpec(d, j.guarded, s.cluster, s.row.value.record, Prepare, probe);
      && a.cluster == s.cluster
      && (a.record.checkpoint.None?
          || (Captured(d, before, a.record.checkpoint.value) && Aligned(a.record.checkpoint.value, s.cluster)
          && Shaped(d, before, a.record.checkpoint.value, s.cluster, a.record.phase)))
  {
    CheckingCases(j.driver, j.guarded, s.cluster, probe);
    var a := AdvanceSpec(j.driver, j.guarded, s.cluster, s.row.value.record, Prepare, probe);
    if a.record.checkpoint.Some? {
      CaptureIsShaped(j.driver, before, s.cluster, a.record.phase);
    }
  }

  lemma CheckpointedCallKeeps(j: Job, before: Cluster, s: System, t: System, a: Advanced, mode: Mode)
    requires Invariant(j, before, s) && s.row.Some? && s.row.value.record.checkpoint.Some?
    requires Underway(j.driver, before, s.row.value.record.checkpoint.value, s.cluster)
    requires Kept(j.driver, before, s.row.value.record.checkpoint.value, s.cluster, s.row.value.record, a)
    requires Follows(s.row.value.record.phase, a.record.phase, mode) && Decodable(a.record)
    requires a.record.phase.Prepared? && !s.row.value.record.phase.Prepared? ==> s.row.value.record.phase.Verifying?
    requires a.cluster.endpoints == s.cluster.endpoints && Books(s, t, a, mode)
    ensures Invariant(j, before, t)
  {
    RoutesStaySafe(j, before, s, a);
    VersionRecorded(j, before, s, a);
    assert Related(j, before, t);
    assert Recorded(j, t);
  }

  lemma UncheckpointedCallKeeps(j: Job, before: Cluster, s: System, t: System, a: Advanced, mode: Mode)
    requires Invariant(j, before, s) && s.row.Some? && s.row.value.record.checkpoint.None?
    requires a.cluster == s.cluster && Books(s, t, a, mode)
    requires Follows(s.row.value.record.phase, a.record.phase, mode) && Decodable(a.record)
    requires a.record.phase.Prepared? && !s.row.value.record.phase.Prepared? ==> s.row.value.record.phase.Verifying?
    requires
      || a.record.checkpoint.None?
      || (&& Captured(j.driver, before, a.record.checkpoint.value) && Aligned(a.record.checkpoint.value, s.cluster)
          && Shaped(j.driver, before, a.record.checkpoint.value, s.cluster, a.record.phase))
    ensures Invariant(j, before, t)
  {
  }

  lemma BooksKept(j: Job, s: System, e: Event)
    requires WellFormed(j.driver) && Sized(j, s.cluster) && e.Call? && s.row.Some?
             && Callable(j.driver, s.cluster, s.row.value.record)
    requires Permitted(j.binding, s.core, e.mode) && e.registered
    ensures Books(s, Reconcile(j, s, e),
                  AdvanceSpec(j.driver, j.guarded, s.cluster, s.row.value.record, e.mode, e.probe), e.mode)
  {
  }

  lemma DrivenKeeps(j: Job, before: Cluster, s: System, t: System, mode: Mode, probe: Probe)
    requires Invariant(j, before, s) && s.row.Some? && Callable(j.driver, s.cluster, s.row.value.record)
    requires Books(s, t, AdvanceSpec(j.driver, j.guarded, s.cluster, s.row.value.record, mode, probe), mode)
    ensures Invariant(j, before, t)
  {
    var r := s.row.value.record;
    var a := AdvanceSpec(j.driver, j.guarded, s.cluster, r, mode, probe);
    AdvanceFollows(j.driver, j.guarded, s.cluster, r, mode, probe);
    if r.checkpoint.Some? {
      AdvanceKeeps(j.driver, j.guarded, before, r.checkpoint.value, s.cluster, r, mode, probe);
      CheckpointedCallKeeps(j, before, s, t, a, mode);
    } else {
      if r.phase.Checking? && mode.Prepare? {
        CheckingKeeps(j, before, s, probe);
      }
      UncheckpointedCallKeeps(j, before, s, t, a, mode);
    }
  }

  /** A lost commit and a made commit both leave a related ledger and cluster. */
  lemma CallKeeps(j: Job, before: Cluster, s: System, e: Event)
    requires Invariant(j, before, s) && e.Call?
    ensures Invariant(j, before, Reconcile(j, s, e))
  {
    if s.row.None? || !Permitted(j.binding, s.core, e.mode) || !e.registered {
      AsideKeeps(j, before, s, e);
    } else {
      BooksKept(j, s, e);
      DrivenKeeps(j, before, s, Reconcile(j, s, e), e.mode, e.probe);
    }
  }

  /** Calls that never reach the driver. */
  lemma AsideKeeps(j: Job, before: Cluster, s: System, e: Event)
    requires Invariant(j, before, s) && e.Call?
    requires s.row.None? || !Permitted(j.binding, s.core, e.mode) || !e.registered
    ensures Invariant(j, before, Reconcile(j, s, e))
  {
    var t := Reconcile(j, s, e);
    assert t.cluster == s.cluster;
    assert Related(j, before, t);
    assert Recorded(j, t);
  }

  lemma RoutesStaySafe(j: Job, before: Cluster, s: System, a: Advanced)
    requires Invariant(j, before, s) && s.row.Some? && s.row.value.record.checkpoint.Some?
    requires Underway(j.driver, before, s.row.value.record.checkpoint.value, s.cluster)
    requires Kept(j.driver, before, s.row.value.record.checkpoint.value, s.cluster, s.row.value.record, a)
    requires a.cluster.endpoints == s.cluster.endpoints
    ensures RoutesSafe(j.driver, before, a.cluster)
  {
    var d, c := j.driver, s.row.value.record.checkpoint.value;
    forall i, p | 0 <= i < |a.cluster.endpoints| && p in a.cluster.endpoints[i] && p.version == d.target.hash
      ensures a.cluster.services[i] == Opened(d, before.services[i], GateService(d, before.services[i]), true)
    {
      assert IsOpened(d, c, s.cluster, i);
      assert IsOpened(d, c, a.cluster, i);
    }
  }

  lemma VersionRecorded(j: Job, before: Cluster, s: System, a: Advanced)
    requires Invariant(j, before, s) && s.row.Some? && s.row.value.record.checkpoint.Some?
    requires Underway(j.driver, before, s.row.value.record.checkpoint.value, s.cluster)
    requires Kept(j.driver, before, s.row.value.record.checkpoint.value, s.cluster, s.row.value.record, a)
    ensures Version(a.cluster.deployment) == j.driver.target.hash ==> Applying in s.log
  {
    var d, c := j.driver, s.row.value.record.checkpoint.value;
    Recognised(d, before, c, s.cluster);
    Recognised(d, before, c, a.cluster);
  }

  /** Controllers touch no Service and no managed annotation, create Pods only
      of the version they read, and never route through a fenced Service. */
  lemma ControllerFrame(j: Job, k: Cluster, e: Event)
    requires WellFormed(j.driver) && Sized(j, k) && Coherent(k)
    ensures
      var k' := Controlled(j, k, e);
      && Coherent(k') && k'.services == k.services && |k'.endpoints| == |k.endpoints|
      && OnlyNoted(k.deployment, k'.deployment)
      && (forall i :: 0 <= i < |k.endpoints| && k.endpoints[i] == {} && k.services[i].spec.selector.Fenced? ==>
          k'.endpoints[i] == {})
      && (forall i, p :: 0 <= i < |k.endpoints| && p in k'.endpoints[i] && p !in k.endpoints[i] ==>
            k.services[i].spec.selector.Labels? && p.version == Version(k.deployment))
  {
  }

  lemma NotedKeepsShapes(d: Driver, c: Checkpoint, x: Deployment, y: Deployment)
    requires OnlyNoted(x, y)
    ensures SourceShape(d, c, x) <==> SourceShape(d, c, y)
    ensures TargetShape(d, c, x) <==> TargetShape(d, c, y)
    ensures Version(x) == Version(y)
  {
    OwnedFollowsManaged(d, y.ann, x.ann, d.target);
  }

  lemma ControllerKeeps(j: Job, before: Cluster, s: System, e: Event)
    requires Invariant(j, before, s) && !e.Call? && !e.CoreMoves?
    ensures Invariant(j, before, Step(j, s, e))
  {
    ControllerFrame(j, s.cluster, e);
    RoutesSurviveController(j, before, s, e);
    NotedKeepsInvariant(j, before, s, Controlled(j, s.cluster, e));
  }

  /** Whatever leaves Services, gates and all managed annotations alone. */
  lemma NotedKeepsInvariant(j: Job, before: Cluster, s: System, k': Cluster)
    requires Invariant(j, before, s) && Coherent(k')
    requires k'.services == s.cluster.services && |k'.endpoints| == |s.cluster.endpoints|
    requires RoutesSafe(j.driver, before, k')
    requires OnlyNoted(s.cluster.deployment, k'.deployment)
    requires forall i :: 0 <= i < |k'.endpoints| ==>
               s.cluster.endpoints[i] == {} && k'.services[i].spec.selector.Fenced? ==> k'.endpoints[i] == {}
    ensures Invariant(j, before, s.(cluster := k'))
  {
    var d, k := j.driver, s.cluster;
    NotedKeepsShapes(d, Checkpoint(k.deployment, []), k.deployment, k'.deployment);
    if s.row.Some? && s.row.value.record.checkpoint.Some? {
      var c := s.row.value.record.checkpoint.value;
      NotedKeepsShapes(d, c, k.deployment, k'.deployment);
      GatedSurvivesController(d, c, k, k');
      ShapeSurvivesController(d, before, c, k, k', s.row.value.record.phase);
    }
  }

  /** A gated and drained Service stays so. */
  lemma GatedSurvivesController(d: Driver, c: Checkpoint, k: Cluster, k': Cluster)
    requires Aligned(c, k) && Aligned(c, k') && k'.services == k.services
    requires forall i :: 0 <= i < |k.endpoints| && k.endpoints[i] == {} && k.services[i].spec.selector.Fenced? ==>
               k'.endpoints[i] == {}
    ensures AllGated(d, c, k) ==> AllGated(d, c, k')
  {
    if AllGated(d, c, k) {
      forall i | 0 <= i < |c.services| ensures Shut(d, c, k', i) {
        assert Shut(d, c, k, i) && k.services[i].spec.selector.Fenced?;
      }
    }
  }

  lemma RoutesSurviveController(j: Job, before: Cluster, s: System, e: Event)
    requires Invariant(j, before, s) && !e.Call? && !e.CoreMoves?
    ensures RoutesSafe(j.driver, before, Controlled(j, s.cluster, e))
  {
    var d, k, k' := j.driver, s.cluster, Controlled(j, s.cluster, e);
    ControllerFrame(j, k, e);
    forall i, p | 0 <= i < |k'.endpoints| && p in k'.endpoints[i] && p.version == d.target.hash
      ensures k'.services[i] == Opened(d, before.services[i], GateService(d, before.services[i]), true)
    {
      if p !in k.endpoints[i] {
        RoutedTargetIsOpened(j, before, s, i);
      }
    }
  }

  lemma ShapeSurvivesController(d: Driver, before: Cluster, c: Checkpoint, k: Cluster, k': Cluster, p: Phase)
    requires WellFormed(d) && Aligned(c, k) && Aligned(c, k') && k'.services == k.services
    requires Shaped(d, before, c, k, p)
    requires k'.deployment.replicas == k.deployment.replicas
    requires SourceShape(d, c, k.deployment) <==> SourceShape(d, c, k'.deployment)
    requires TargetShape(d, c, k.deployment) <==> TargetShape(d, c, k'.deployment)
    requires Untouched(before, k) ==> Untouched(before, k')
    requires AllGated(d, c, k) ==> AllGated(d, c, k')
    ensures Shaped(d, before, c, k', p)
  {
    forall i | 0 <= i < |c.services|
      ensures Closing(d, c, k', i) == Closing(d, c, k, i) && Opening(d, c, k', i) == Opening(d, c, k, i)
      ensures IsOpened(d, c, k', i) == IsOpened(d, c, k, i) && IsOriginal(c, k', i) == IsOriginal(c, k, i)
    {
    }
  }

  /** A label selector in front of a target Pod means the Service was opened. */
  lemma RoutedTargetIsOpened(j: Job, before: Cluster, s: System, i: nat)
    requires Invariant(j, before, s) && i < |s.cluster.services|
    requires s.cluster.services[i].spec.selector.Labels? && Version(s.cluster.deployment) == j.driver.target.hash
    ensures s.cluster.services[i]
            == Opened(j.driver, before.services[i], GateService(j.driver, before.services[i]), true)
  {
    var d, k := j.driver, s.cluster;
    var r := s.row.value.record;
    var c := r.checkpoint.value;
    Recognised(d, before, c, k);
    if r.phase.ReleasingTarget? || r.phase.ReleasedTarget? {
      assert Opening(d, c, k, i);
    } else {
      assert Shut(d, c, k, i);
    }
  }

  lemma {:induction false} RunKeepsInvariant(j: Job, s: System, events: seq<Event>)
    requires Initial(j, s)
    ensures Invariant(j, s.cluster, Run(j, s, events))
  {
    if events != [] {
      RunKeepsInvariant(j, s, events[..|events| - 1]);
      var t, e := Run(j, s, events[..|events| - 1]), events[|events| - 1];
      if e.Call? {
        CallKeeps(j, s.cluster, t, e);
      } else if !e.CoreMoves? {
        ControllerKeeps(j, s.cluster, t, e);
      }
    }
  }

  // ---- The theorems ----

  /** The target's mark stands on the target's own template. */
  lemma TargetVersionRunsTarget(j: Job, before: Cluster, s: System)
    requires Invariant(j, before, s)
    ensures Version(s.cluster.deployment) == j.driver.target.hash ==>
              s.cluster.deployment.template == ApplyPolicy(j.driver.policy, j.driver.target.template)
  {
    if s.row.Some? && s.row.value.record.checkpoint.Some? {
      Recognised(j.driver, before, s.row.value.record.checkpoint.value, s.cluster);
    }
  }

  /** Source and target Pods never coexist: every Pod was made from the current
      Deployment's own template and carries its version, in every state, although
      the controller lags behind; and what carries the target's version runs the
      target's template. */
  lemma VersionsNeverCoexist(j: Job, s: System, events: seq<Event>)
    requires Initial(j, s)
    ensures
      var t := Run(j, s, events);
      && (forall p :: p in t.cluster.pods ==>
            p.version == Version(t.cluster.deployment) && p.template == t.cluster.deployment.template)
      && (forall p, q :: p in t.cluster.pods && q in t.cluster.pods ==> p.template == q.template)
      && (forall p :: p in t.cluster.pods && p.version == j.driver.target.hash ==>
            p.template == ApplyPolicy(j.driver.policy, j.driver.target.template))
      && !exists p, q :: p in t.cluster.pods && q in t.cluster.pods
                         && p.version == j.driver.source.hash && q.version == j.driver.target.hash
  {
    RunKeepsInvariant(j, s, events);
    TargetVersionRunsTarget(j, s.cluster, Run(j, s, events));
  }

  /** Before a checkpoint is sealed, and after a busy or rejected preflight, the
      operation has changed nothing. */
  lemma PreflightChangesNothing(j: Job, s: System, events: seq<Event>)
    requires Initial(j, s)
    requires
      var t := Run(j, s, events);
      || t.row.None? || t.row.value.record.checkpoint.None?
      || t.row.value.record.phase.Checking? || t.row.value.record.phase.RejectedPreflight?
      || t.row.value.record.phase.CanceledSource?
    ensures Untouched(s.cluster, Run(j, s, events).cluster)
  {
    RunKeepsInvariant(j, s, events);
  }

  /** The target template is in place only after `applying` was recorded; and
      from then until a release or a restored source, every Service is gated and
      drained. */
  lemma ReplacementIsRecordedAndGated(j: Job, s: System, events: seq<Event>)
    requires Initial(j, s)
    ensures
      var t := Run(j, s, events);
      && (Version(t.cluster.deployment) == j.driver.target.hash ==> Applying in t.log)
      && (t.row.Some?
          && (t.row.value.record.phase.Applying? || t.row.value.record.phase.Verifying?
              || t.row.value.record.phase.Prepared?) ==>
            && t.row.value.record.checkpoint.Some?
            && forall i :: 0 <= i < |t.cluster.services| ==>
                 t.cluster.services[i] == GateService(j.driver, s.cluster.services[i]) && t.cluster.endpoints[i] == {})
  {
    RunKeepsInvariant(j, s, events);
    var t := Run(j, s, events);
    if t.row.Some?
       && (t.row.value.record.phase.Applying? || t.row.value.record.phase.Verifying?
           || t.row.value.record.phase.Prepared?) {
      var c := t.row.value.record.checkpoint.value;
      forall i | 0 <= i < |t.cluster.services|
        ensures t.cluster.services[i] == GateService(j.driver, s.cluster.services[i]) && t.cluster.endpoints[i] == {}
      {
        assert Shut(j.driver, c, t.cluster, i);
      }
    }
  }

  ghost predicate TowardsTarget(t: System) {
    t.row.Some? && (t.row.value.record.phase.ReleasingTarget? || t.row.value.record.phase.ReleasedTarget?)
  }

  /** Only a release towards the target puts its mark on a Service. */
  lemma UnreleasedIsUnmarked(j: Job, before: Cluster, t: System, i: nat)
    requires Invariant(j, before, t) && i < |t.cluster.services| && !TowardsTarget(t)
    ensures !TargetMarked(j.driver, t.cluster.services[i].ann)
  {
    assert Unclaimed(j.driver, before.services[i]);
    if t.row.Some? && t.row.value.record.checkpoint.Some? {
      assert Closing(j.driver, t.row.value.record.checkpoint.value, t.cluster, i);
    }
  }

  lemma RoutedIsMarked(j: Job, before: Cluster, t: System, i: nat, p: Pod)
    requires Invariant(j, before, t) && i < |t.cluster.services|
    requires p in t.cluster.endpoints[i] && p.version == j.driver.target.hash
    ensures TargetMarked(j.driver, t.cluster.services[i].ann)
  {
    MarkOwns(j.driver, before.services[i].ann, j.driver.target);
    assert t.cluster.services[i]
           == Opened(j.driver, before.services[i], GateService(j.driver, before.services[i]), true);
  }

  /** A Service that carries the target's mark, or routes to a target Pod, was
      opened after the target, up and ready, had answered its check, after a
      recorded `releasing_target`, and after a call that saw the target published
      at the next revision. */
  lemma NoPrematureOpening(j: Job, s: System, events: seq<Event>, i: nat)
    requires Initial(j, s) && i < |s.cluster.services|
    ensures
      var t := Run(j, s, events);
      i < |t.cluster.services| &&
      (TargetMarked(j.driver, t.cluster.services[i].ann)
       || (exists p :: p in t.cluster.endpoints[i] && p.version == j.driver.target.hash) ==>
         t.targetChecked && ReleasingTarget in t.log && t.publicationSeen)
  {
    RunKeepsInvariant(j, s, events);
    var d, t := j.driver, Run(j, s, events);
    if p :| p in t.cluster.endpoints[i] && p.version == d.target.hash {
      RoutedIsMarked(j, s.cluster, t, i, p);
    }
    if !TowardsTarget(t) {
      UnreleasedIsUnmarked(j, s.cluster, t, i);
    }
  }

  /** A finished release has put every Service where its direction says: the
      captured object itself, or the captured object opened onto the target; and
      the one process it routes to is that release's. */
  lemma ReleasedRoutesAreExact(j: Job, s: System, events: seq<Event>, i: nat)
    requires Initial(j, s) && i < |s.cluster.services|
    ensures
      var t := Run(j, s, events);
      i < |t.cluster.services| &&
      (t.row.Some? && t.row.value.record.phase.ReleasedSource? ==> t.cluster.services[i] == s.cluster.services[i]) &&
      (t.row.Some? && t.row.value.record.phase.ReleasedTarget? ==>
         t.cluster.services[i]
           == Opened(j.driver, s.cluster.services[i], GateService(j.driver, s.cluster.services[i]), true)) &&
      (t.row.Some? && t.row.value.record.checkpoint.Some? ==>
         var c, x := t.row.value.record.checkpoint.value, t.cluster.deployment;
         && (t.row.value.record.phase.ReleasedSource? ==> SourceShape(j.driver, c, x) && x.replicas == 1)
         && (t.row.value.record.phase.ReleasedTarget? ==> TargetShape(j.driver, c, x) && x.replicas == 1))
  {
    RunKeepsInvariant(j, s, events);
    var d, t := j.driver, Run(j, s, events);
    if t.row.Some? && t.row.value.record.checkpoint.Some? {
      var c := t.row.value.record.checkpoint.value;
      assert t.row.value.record.phase.ReleasedSource? ==> IsOriginal(c, t.cluster, i);
      assert t.row.value.record.phase.ReleasedTarget? ==> IsOpened(d, c, t.cluster, i);
    }
  }

  /** The protocol never takes its own partial work for someone else's: every
      object is classified, and in the phases that call them the driver's
      operations conflict only for the reasons named here. */
  lemma NeverConflictsWithItself(j: Job, s: System, events: seq<Event>)
    requires Initial(j, s)
    requires Run(j, s, events).row.Some? && Run(j, s, events).row.value.record.checkpoint.Some?
    ensures
      var t := Run(j, s, events);
      var d, k, r := j.driver, t.cluster, t.row.value.record;
      var c, live := r.checkpoint.value, LiveDeployment(d, r.checkpoint.value, k);
      && Aligned(c, k)
      && !live.Drifted?
      && (forall i :: 0 <= i < |c.services| ==> !LiveService(d, c.services[i], k.services[i]).Unknown?)
      && (r.phase.Sealing? ==>
          (GateSpec(d, c, k).1.Conflict? <==> c.services == [] || d.source.fence != "" || d.target.fence != ""))
      && (r.phase.Applying? && c.services != [] ==>
            (StartSpec(d, c, k, true).1.Conflict? <==>
               k.deployment.replicas == 1 && k.view.generation >= k.deployment.generation && k.status.stalled))
      && (r.phase.Restoring? && c.services != [] && live.AtTarget? ==> !StopSpec(d, c, k).1.Conflict?)
      && (r.phase.Restoring? && c.services != [] && k.deployment.replicas == 0 ==>
          !StartSpec(d, c, k, false).1.Conflict?)
      && (r.phase.ReleasingSource? || r.phase.ReleasedSource? ==> (OpenSpec(d, c, k, false).1.Conflict? <==> !Ready(k)))
      && (r.phase.ReleasingTarget? || r.phase.ReleasedTarget? ==> (OpenSpec(d, c, k, true).1.Conflict? <==> !Ready(k)))
  {
    RunKeepsInvariant(j, s, events);
    var t := Run(j, s, events);
    NoConflictIn(j.driver, s.cluster, t.row.value.record.checkpoint.value, t.cluster, t.row.value.record.phase);
  }

  lemma NoConflictIn(d: Driver, before: Cluster, c: Checkpoint, k: Cluster, p: Phase)
    requires Underway(d, before, c, k) && Shaped(d, before, c, k, p)
    ensures !LiveDeployment(d, c, k).Drifted?
    ensures forall i :: 0 <= i < |c.services| ==> !LiveService(d, c.services[i], k.services[i]).Unknown?
    ensures p.Sealing? ==>
            (GateSpec(d, c, k).1.Conflict? <==> c.services == [] || d.source.fence != "" || d.target.fence != "")
    ensures p.Applying? && c.services != [] ==>
              (StartSpec(d, c, k, true).1.Conflict? <==>
               k.deployment.replicas == 1 && k.view.generation >= k.deployment.generation && k.status.stalled)
    ensures p.Restoring? && c.services != [] && LiveDeployment(d, c, k).AtTarget? ==> !StopSpec(d, c, k).1.Conflict?
    ensures p.Restoring? && c.services != [] && k.deployment.replicas == 0 ==> !StartSpec(d, c, k, false).1.Conflict?
    ensures p.ReleasingSource? || p.ReleasedSource? ==> (OpenSpec(d, c, k, false).1.Conflict? <==> !Ready(k))
    ensures p.ReleasingTarget? || p.ReleasedTarget? ==> (OpenSpec(d, c, k, true).1.Conflict? <==> !Ready(k))
  {
    Recognised(d, before, c, k);
    var released := p.ReleasingTarget? || p.ReleasedTarget?;
    forall i | 0 <= i < |c.services|
      ensures Movable(d, c, k, released, i) && !LiveService(d, c.services[i], k.services[i]).Unknown?
    {
      OpenedIsNotClosing(d, before, c, k, i);
      assert if released then Opening(d, c, k, i) else Closing(d, c, k, i);
    }
    if released {
      var _ := OpenRecognised(d, before, c, k, true, 0);
    } else if p.ReleasingSource? || p.ReleasedSource? {
      var _ := OpenRecognised(d, before, c, k, false, 0);
    } else if p.Sealing? {
      GateKeeps(d, before, c, k);
    } else if p.Applying? {
      StartKeeps(d, before, c, k, true);
    } else if p.Restoring? {
      StopKeeps(d, before, c, k);
      StartKeeps(d, before, c, k, false);
    }
  }

  // ---- Order and irreversibility ----

  lemma RunSplit(j: Job, s: System, a: seq<Event>, b: seq<Event>)
    requires Initial(j, s) && b != []
    ensures Run(j, s, a + b) == Step(j, Run(j, s, a + b[..|b| - 1]), b[|b| - 1])
  {
    var longer := a + b;
    assert longer[..|longer| - 1] == a + b[..|b| - 1] && longer[|longer| - 1] == b[|b| - 1];
    RunLast(j, s, longer);
  }

  lemma RunLast(j: Job, s: System, events: seq<Event>)
    requires Initial(j, s) && events != []
    ensures Run(j, s, events) == Step(j, Run(j, s, events[..|events| - 1]), events[|events| - 1])
  {
  }

  /** `releasing_x` may only become `released_x`. */
  predicate SameDirection(p: Phase, q: Phase) {
    match p
    case ReleasingSource => q.ReleasingSource? || q.ReleasedSource?
    case ReleasedSource => q.ReleasedSource?
    case ReleasingTarget => q.ReleasingTarget? || q.ReleasedTarget?
    case ReleasedTarget => q.ReleasedTarget?
    case _ => true
  }

  /** The ledger only moves forward: history grows, the checkpoint is permanent,
      the phase keeps or rises, and a release keeps its direction. */
  ghost predicate Forward(t: System, u: System) {
    && t.row.Some? && u.row.Some? && t.log <= u.log && t.row.value.revision <= u.row.value.revision
    && var r, q := t.row.value.record, u.row.value.record;
       && (q.phase == r.phase || Rank(q.phase) > Rank(r.phase))
       && (r.checkpoint.Some? ==> q.checkpoint == r.checkpoint)
       && (IsRelease(r.phase) ==> SameDirection(r.phase, q.phase))
  }

  lemma StepMovesForward(j: Job, before: Cluster, t: System, e: Event)
    requires Invariant(j, before, t) && t.row.Some?
    ensures Forward(t, Step(j, t, e))
  {
    var r := t.row.value.record;
    if e.Call? && Permitted(j.binding, t.core, e.mode) && e.registered {
      CallMovesForward(j, before, t, e);
    }
  }

  lemma CallMovesForward(j: Job, before: Cluster, t: System, e: Event)
    requires Invariant(j, before, t) && t.row.Some?
    requires e.Call? && Permitted(j.binding, t.core, e.mode) && e.registered
    ensures Forward(t, Reconcile(j, t, e))
  {
    var r := t.row.value.record;
    assert r.checkpoint.Some? ==> !r.phase.Checking?;
    BooksKept(j, t, e);
    AdvanceFollows(j.driver, j.guarded, t.cluster, r, e.mode, e.probe);
    FollowsForward(r.phase, AdvanceSpec(j.driver, j.guarded, t.cluster, r, e.mode, e.probe).record.phase, e.mode);
  }

  lemma FollowsForward(p: Phase, q: Phase, mode: Mode)
    requires Follows(p, q, mode)
    ensures q == p || Rank(q) > Rank(p)
    ensures IsRelease(p) ==> SameDirection(p, q)
  {
  }

  /** The Deployment asks for a process of the target. */
  ghost predicate TargetUp(j: Job, k: Cluster) {
    Version(k.deployment) == j.driver.target.hash && k.deployment.replicas != 0
  }

  /** What an advance outside `applying` kept, told by version. */
  lemma KeptStartsNoTarget(d: Driver, before: Cluster, c: Checkpoint, k: Cluster, r: Record, a: Advanced)
    requires Underway(d, before, c, k) && Shaped(d, before, c, k, r.phase) && !r.phase.Applying?
    requires Kept(d, before, c, k, r, a)
    ensures Version(a.cluster.deployment) == d.target.hash ==> Version(k.deployment) == d.target.hash
    ensures Version(a.cluster.deployment) == d.target.hash && a.cluster.deployment.replicas != 0 ==>
            k.deployment.replicas != 0
  {
    Recognised(d, before, c, k);
    Recognised(d, before, c, a.cluster);
  }

  lemma DrivenStartsNoTarget(j: Job, before: Cluster, t: System, mode: Mode, probe: Probe)
    requires Invariant(j, before, t) && t.row.Some? && !t.row.value.record.phase.Applying?
    ensures
      var after := AdvanceSpec(j.driver, j.guarded, t.cluster, t.row.value.record, mode, probe).cluster;
      && (Version(after.deployment) == j.driver.target.hash ==> Version(t.cluster.deployment) == j.driver.target.hash)
      && (TargetUp(j, after) ==> TargetUp(j, t.cluster))
  {
    var r := t.row.value.record;
    if r.checkpoint.Some? {
      AdvanceKeeps(j.driver, j.guarded, before, r.checkpoint.value, t.cluster, r, mode, probe);
      KeptStartsNoTarget(j.driver, before, r.checkpoint.value, t.cluster, r,
                         AdvanceSpec(j.driver, j.guarded, t.cluster, r, mode, probe));
    } else if r.phase.Checking? && mode.Prepare? {
      CheckingKeeps(j, before, t, probe);
    }
  }

  /** The target becomes current, and gets a process, only in `applying`. */
  lemma StepStartsTargetOnlyApplying(j: Job, before: Cluster, t: System, e: Event)
    requires Invariant(j, before, t) && t.row.Some? && !t.row.value.record.phase.Applying?
    ensures Version(Step(j, t, e).cluster.deployment) == j.driver.target.hash ==>
            Version(t.cluster.deployment) == j.driver.target.hash
    ensures TargetUp(j, Step(j, t, e).cluster) ==> TargetUp(j, t.cluster)
  {
    if e.Call? {
      if Permitted(j.binding, t.core, e.mode) && e.registered {
        BooksKept(j, t, e);
        DrivenStartsNoTarget(j, before, t, e.mode, e.probe);
      }
    } else if !e.CoreMoves? {
      ControllerFrame(j, t.cluster, e);
    }
  }

  /** Over any continuation of any run the ledger moves forward. */
  lemma {:induction false} RunsMoveForward(j: Job, s: System, a: seq<Event>, b: seq<Event>)
    requires Initial(j, s) && Run(j, s, a).row.Some?
    ensures Forward(Run(j, s, a), Run(j, s, a + b))
    decreases |b|
  {
    if b == [] {
      assert a + b == a;
    } else {
      var prefix := b[..|b| - 1];
      RunsMoveForward(j, s, a, prefix);
      RunSplit(j, s, a, b);
      RunKeepsInvariant(j, s, a + prefix);
      StepMovesForward(j, s.cluster, Run(j, s, a + prefix), b[|b| - 1]);
      ForwardChains(Run(j, s, a), Run(j, s, a + prefix), Run(j, s, a + b));
    }
  }

  lemma ForwardChains(t: System, u: System, v: System)
    requires Forward(t, u) && Forward(u, v)
    ensures Forward(t, v)
  {
  }

  predicate TurnedBack(p: Phase) {
    p.CanceledSource? || p.RecoveryRequired? || p.Restoring? || p.Restored? || p.RejectedPreflight?
  }

  /** After a cancelled, recovering or restored record the target is never
      started again: neither does the Deployment become the target's, nor does a
      stopped target get a process. */
  lemma {:induction false} NoStartAfterTurningBack(j: Job, s: System, a: seq<Event>, b: seq<Event>)
    requires Initial(j, s) && Run(j, s, a).row.Some? && TurnedBack(Run(j, s, a).row.value.record.phase)
    ensures Version(Run(j, s, a + b).cluster.deployment) == j.driver.target.hash ==>
            Version(Run(j, s, a).cluster.deployment) == j.driver.target.hash
    ensures TargetUp(j, Run(j, s, a + b).cluster) ==> TargetUp(j, Run(j, s, a).cluster)
    decreases |b|
  {
    if b == [] {
      assert a + b == a;
    } else {
      var prefix := b[..|b| - 1];
      NoStartAfterTurningBack(j, s, a, prefix);
      RunsMoveForward(j, s, a, prefix);
      TurnedBackIsNotApplying(Run(j, s, a), Run(j, s, a + prefix));
      RunSplit(j, s, a, b);
      RunKeepsInvariant(j, s, a + prefix);
      StepStartsTargetOnlyApplying(j, s.cluster, Run(j, s, a + prefix), b[|b| - 1]);
    }
  }

  lemma TurnedBackIsNotApplying(t: System, u: System)
    requires Forward(t, u) && TurnedBack(t.row.value.record.phase)
    ensures !u.row.value.record.phase.Applying?
  {
  }

  // ---- Reads and the write need not be one instant ----

  ghost function Controllers(j: Job, k: Cluster, events: seq<Event>): (k': Cluster)
    requires Sized(j, k)
    ensures Sized(j, k')
  {
    if events == [] then k else Controlled(j, Controllers(j, k, events[..|events| - 1]), events[|events| - 1])
  }

  /** Once the driver has seen the process gone, no controller activity before
      its write can bring a Pod back: a release started on that stale read still
      starts over an empty Deployment. */
  lemma {:induction false} GoneIsStable(j: Job, k: Cluster, events: seq<Event>, x: Deployment)
    requires WellFormed(j.driver) && Sized(j, k) && Coherent(k) && Gone(k) && x.replicas == 1
    ensures
      var late := Controllers(j, k, events);
      && late.pods == {} && late.view.replicas <= 0 && OnlyNoted(k.deployment, late.deployment)
      && Coherent(late) && Coherent(PutDeployment(late, x))
  {
    if events != [] {
      GoneIsStable(j, k, events[..|events| - 1], x);
      ControllerFrame(j, Controllers(j, k, events[..|events| - 1]), events[|events| - 1]);
    }
  }
}
