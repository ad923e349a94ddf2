/** Whole runs of a hot transition: reconcile calls in any mode and order, lost
    commits, Core moving at will, and the controllers. */
module HotTheorems {
  import opened Wrappers
  import opened ManagedObjects
  import opened ManagementJournal
  import opened StoppedReplacement
  import opened StoppedJournal
  import opened StoppedRuns
  import opened HotReplacement
  import opened HotConvergence
  import opened HotJournal

  // ---- Steps ----

  function AdvanceHot(d: Driver, k: Cluster, r: Record, mode: Mode, probe: Probe): (a: Advanced)
    requires HotCallable(d, k, r)
    ensures |a.cluster.services| == |k.services| && a.cluster.endpoints == k.endpoints
  {
    if mode.ReleaseSource? || mode.ReleaseTarget? then AdvanceHotRelease(k, r, mode.ReleaseTarget?, probe)
    else AdvanceHotSpec(d, k, r, mode.Restore?, probe)
  }

  /** A call while verifying, to which the target's maintenance answered well. */
  ghost predicate TargetVerified(s: System, e: Event)
    requires e.Call?
  {
    e.mode.Prepare? && e.probe.ProbeOk? && s.row.Some? && s.row.value.record.phase.Verifying?
  }

  ghost function HotReconcile(j: Job, s: System, e: Event): System
    requires e.Call? && Sized(j, s.cluster)
  {
    if !Permitted(j.binding, s.core, e.mode) then s
    else if !e.registered then RejectTemplate(s, e.mode)
    else if s.row.None? then
      if e.mode.ReleaseSource? || e.mode.ReleaseTarget? then s
      else Commit(s, s.cluster, Record(Checking, None))
    else
      var r := s.row.value.record;
      if !Decodable(r) || (r.checkpoint.Some? && !ValidCheckpoint(j.driver, r.checkpoint.value)) then s
      else
        var a := AdvanceHot(j.driver, s.cluster, r, e.mode, e.probe);
        var seen := s.(
            targetChecked := s.targetChecked || TargetVerified(s, e),
            publicationSeen := s.publicationSeen || TargetPublished(j, s, e));
        if a.failure.NoFailure? && e.commits then Commit(seen, a.cluster, a.record)
        else seen.(cluster := a.cluster)
  }

  ghost function HotStep(j: Job, s: System, e: Event): (t: System)
    requires Sized(j, s.cluster)
  {
    match e
    case Call(_, _, _, _) => HotReconcile(j, s, e)
    case CoreMoves(core) => s.(core := core)
    case _ => s.(cluster := Controlled(j, s.cluster, e))
  }

  // ---- The invariant ----

  ghost predicate AllMoved(d: Driver, c: Checkpoint, k: Cluster) {
    && |c.services| == |k.services| && DeploymentMoved(d, c, k.deployment)
    && forall i :: 0 <= i < |c.services| ==> ServiceMoved(d, c.services[i], k.services[i])
  }

  ghost predicate AllBack(d: Driver, c: Checkpoint, k: Cluster) {
    && |c.services| == |k.services| && DeploymentBack(d, c, k.deployment)
    && forall i :: 0 <= i < |c.services| ==> ServiceBack(d, c.services[i], k.services[i])
  }

  /** How much of the work a phase may show: nothing at all while the source is
      sealed or cancelled, everything from verification on, nothing left after
      a restore. */
  predicate Fits(p: Phase, untouched: bool, moved: nat, objects: nat) {
    && !p.Checking? && !p.RejectedPreflight?
    && (p.Sealing? || p.CancelingSource? || p.CanceledSource? ==> untouched && moved == 0)
    && (p.Verifying? || p.Prepared? || p.ReleasingTarget? || p.ReleasedTarget? ==> moved == objects)
    && (p.Restored? || p.ReleasingSource? || p.ReleasedSource? ==> moved == 0)
  }

  ghost predicate HotShaped(d: Driver, before: Cluster, c: Checkpoint, k: Cluster, p: Phase) {
    PartialWork(d, c, k) && Fits(p, Untouched(before, k), Moved(d, c, k), |c.services| + 1)
  }

  ghost predicate HotRelated(j: Job, before: Cluster, s: System) {
    if s.row.None? then
      Untouched(before, s.cluster) && s.log == []
    else
      var r := s.row.value.record;
      && Decodable(r) && s.log != [] && s.log[|s.log| - 1] == r.phase
      && (r.checkpoint.None? ==> Untouched(before, s.cluster))
      && (r.checkpoint.Some? ==>
            && Captured(j.driver, before, r.checkpoint.value)
            && HotShaped(j.driver, before, r.checkpoint.value, s.cluster, r.phase))
  }

  ghost predicate HotRecorded(s: System) {
    s.row.Some? ==>
      var p := s.row.value.record.phase;
      && (p.Applying? ==> Applying in s.log)
      && (p.Prepared? || p.ReleasingTarget? || p.ReleasedTarget? ==> s.targetChecked)
      && (p.ReleasingTarget? || p.ReleasedTarget? ==> ReleasingTarget in s.log && s.publicationSeen)
  }

  /** Nothing carries this operation's mark yet. */
  ghost predicate HotFresh(d: Driver, k: Cluster) {
    && Value(k.deployment.ann, Transition) != d.operation
    && forall i :: 0 <= i < |k.services| ==> Value(k.services[i].ann, Transition) != d.operation
  }

  ghost predicate HotInitial(j: Job, s: System) {
    && WellFormed(j.driver) && Sized(j, s.cluster) && HotFresh(j.driver, s.cluster)
    && s.row.None? && s.log == [] && !s.targetChecked && !s.publicationSeen
  }

  ghost predicate HotInvariant(j: Job, before: Cluster, s: System) {
    && WellFormed(j.driver) && Sized(j, s.cluster) && Sized(j, before) && HotFresh(j.driver, before)
    && HotRelated(j, before, s) && HotRecorded(s)
  }

  lemma HotStepKeepsSize(j: Job, s: System, e: Event)
    requires Sized(j, s.cluster)
    ensures Sized(j, HotStep(j, s, e).cluster)
  {
  }

  ghost function HotRun(j: Job, s: System, events: seq<Event>): (t: System)
    requires HotInitial(j, s)
    ensures Sized(j, t.cluster)
  {
    if events == [] then s
    else
      var t := HotRun(j, s, events[..|events| - 1]);
      HotStepKeepsSize(j, t, events[|events| - 1]);
      HotStep(j, t, events[|events| - 1])
  }

  // ---- The phase machine ----

  /** Every phase change one call may commit. */
  predicate HotFollows(p: Phase, q: Phase, mode: Mode) {
    || p == q
    || (mode.Prepare? && match p
        case Checking => q.Sealing? || q.RejectedPreflight?
        case Sealing => q.Applying? || q.CancelingSource?
        case CancelingSource => q.CanceledSource?
        case Applying => q.Verifying? || q.RecoveryRequired?
        case Verifying => q.Prepared? || q.RecoveryRequired?
        case Prepared => q.RecoveryRequired?
        case _ => false)
    || (mode.Restore? && match p
        case Checking => q.Restored?
        case RejectedPreflight => q.Restored?
        case Sealing => q.CancelingSource?
        case CancelingSource => q.CanceledSource?
        case CanceledSource => false
        case Restored => q.RecoveryRequired?
        case _ => !IsRelease(p) && (q.Restoring? || q.Restored? || q.RecoveryRequired?))
    || (mode.ReleaseSource?
        && (((p.Restored? || p.CanceledSource?) && q.ReleasingSource?) || (p.ReleasingSource? && q.ReleasedSource?)))
    || (mode.ReleaseTarget? && ((p.Prepared? && q.ReleasingTarget?) || (p.ReleasingTarget? && q.ReleasedTarget?)))
  }

  lemma HotAdvanceFollows(d: Driver, k: Cluster, r: Record, mode: Mode, probe: Probe)
    requires HotCallable(d, k, r) && (r.phase.Checking? ==> r.checkpoint.None?)
    ensures
      var a := AdvanceHot(d, k, r, mode, probe);
      && HotFollows(r.phase, a.record.phase, mode) && Decodable(a.record)
      && (r.checkpoint.Some? ==> a.record.checkpoint == r.checkpoint)
      && (a.record.phase.Prepared? && !r.phase.Prepared? ==> r.phase.Verifying?)
      && (r.checkpoint.None? ==>
            && a.cluster == k
            && (a.record.checkpoint.None? || a.record == Record(Sealing, Some(Checkpoint(k.deployment, k.services)))))
  {
  }

  /** What each phase change needs of the maintenance that answered the call: the
      source sealed before anything is applied, the target verified, the source
      proved well after a restore, and either one opened by a release. */
  predicate HotLicensed(d: Driver, c: Checkpoint, k: Cluster, p: Phase, q: Phase, mode: Mode, probe: Probe)
    requires |k.services| == |d.source.services|
  {
    match q
    case Applying => p.Sealing? && probe.ProbeOk?
    case CancelingSource => p.Sealing? && (probe.ProbeBusy? || mode.Restore?)
    case CanceledSource => p.CancelingSource? && probe.ProbeOk?
    case Verifying => ApplySpec(d, c, k) == (k, Done)
    case Prepared => p.Verifying? && probe.ProbeOk?
    case Restored => p.Restoring? && probe.ProbeOk? && RestoreSpec(d, c, k) == (k, Done)
    case ReleasedSource => p.ReleasingSource? && probe.ProbeOk?
    case ReleasedTarget => p.ReleasingTarget? && probe.ProbeOk?
    case _ => true
  }

  lemma HotReleaseIsLicensed(d: Driver, k: Cluster, r: Record, target: bool, mode: Mode, probe: Probe)
    requires HotCallable(d, k, r) && r.checkpoint.Some?
    ensures
      var q := AdvanceHotRelease(k, r, target, probe).record.phase;
      q != r.phase ==> HotLicensed(d, r.checkpoint.value, k, r.phase, q, mode, probe)
  {
  }

  lemma HotAdvanceIsLicensed(d: Driver, k: Cluster, r: Record, mode: Mode, probe: Probe)
    requires HotCallable(d, k, r) && r.checkpoint.Some?
    ensures
      var q := AdvanceHot(d, k, r, mode, probe).record.phase;
      q != r.phase ==> HotLicensed(d, r.checkpoint.value, k, r.phase, q, mode, probe)
  {
    if mode.ReleaseSource? || mode.ReleaseTarget? {
      HotReleaseIsLicensed(d, k, r, mode.ReleaseTarget?, mode, probe);
    } else if r.phase.Applying? && mode.Prepare? {
      ApplyingIsLicensed(d, k, r, mode, probe);
    } else if r.phase.Restoring? && mode.Restore? {
      RestoringIsLicensed(d, k, r, mode, probe);
    }
  }

  lemma ApplyingIsLicensed(d: Driver, k: Cluster, r: Record, mode: Mode, probe: Probe)
    requires HotCallable(d, k, r) && r.checkpoint.Some? && r.phase.Applying?
    ensures
      var q := AdvanceApplying(d, k, r).record.phase;
      q != r.phase ==> HotLicensed(d, r.checkpoint.value, k, r.phase, q, mode, probe)
  {
  }

  lemma RestoringIsLicensed(d: Driver, k: Cluster, r: Record, mode: Mode, probe: Probe)
    requires HotCallable(d, k, r) && r.checkpoint.Some? && r.phase.Restoring?
    ensures
      var q := AdvanceRestore(d, k, r, probe).record.phase;
      q != r.phase ==> HotLicensed(d, r.checkpoint.value, k, r.phase, q, mode, probe)
  {
  }

  // ---- Every step keeps the invariant ----

  lemma CaptureIsPartialWork(d: Driver, k: Cluster, c: Checkpoint)
    requires WellFormed(d) && |k.services| == |k.endpoints| && HotFresh(d, k)
    requires ValidCheckpoint(d, c) && c == Checkpoint(k.deployment, k.services)
    ensures PartialWork(d, c, k) && Moved(d, c, k) == 0
  {
    DeploymentTold(d, c, k.deployment);
    forall i | 0 <= i < |c.services|
      ensures Partial(d, c, k, i) && !ServiceMoved(d, c.services[i], k.services[i])
    {
      assert ServiceBack(d, c.services[i], k.services[i]);
      ServiceTold(d, d.source.services[i], c.services[i], k.services[i]);
    }
    MovedBound(d, c, k, 0);
  }

  /** Which calls touch the cluster, and how. */
  lemma WorkingAdvance(d: Driver, k: Cluster, r: Record, mode: Mode, probe: Probe)
    requires HotCallable(d, k, r) && r.checkpoint.Some?
    ensures r.phase.Applying? && mode.Prepare? ==> AdvanceHot(d, k, r, mode, probe) == AdvanceApplying(d, k, r)
    ensures r.phase.Restoring? && mode.Restore? ==> AdvanceHot(d, k, r, mode, probe) == AdvanceRestore(d, k, r, probe)
  {
  }

  /** Calls that leave the cluster alone only rename the phase. */
  lemma QuietAdvance(d: Driver, k: Cluster, r: Record, mode: Mode, probe: Probe)
    requires HotCallable(d, k, r) && r.checkpoint.Some? && !r.phase.Checking?
    requires !(r.phase.Applying? && mode.Prepare?) && !(r.phase.Restoring? && mode.Restore?)
    ensures
      var a := AdvanceHot(d, k, r, mode, probe);
      && a.cluster == k && a.record == r.(phase := a.record.phase)
      && forall untouched, moved, objects ::
           Fits(r.phase, untouched, moved, objects) ==> Fits(a.record.phase, untouched, moved, objects)
  {
  }

  lemma ApplyingKeepsShape(d: Driver, before: Cluster, c: Checkpoint, k: Cluster, r: Record)
    requires HotCallable(d, k, r) && r.checkpoint == Some(c) && r.phase.Applying? && HotShaped(d, before, c, k, r.phase)
    ensures
      var a := AdvanceApplying(d, k, r);
      && a.record.checkpoint == Some(c) && HotShaped(d, before, c, a.cluster, r.phase)
      && HotShaped(d, before, c, a.cluster, a.record.phase)
      && (a.cluster == k || Moved(d, c, a.cluster) == Moved(d, c, k) + 1)
  {
    ApplyStep(d, c, k);
  }

  lemma RestoringKeepsShape(d: Driver, before: Cluster, c: Checkpoint, k: Cluster, r: Record, probe: Probe)
    requires HotCallable(d, k, r) && r.checkpoint == Some(c) && r.phase.Restoring?
             && HotShaped(d, before, c, k, r.phase)
    ensures
      var a := AdvanceRestore(d, k, r, probe);
      && a.record.checkpoint == Some(c) && HotShaped(d, before, c, a.cluster, r.phase)
      && HotShaped(d, before, c, a.cluster, a.record.phase)
      && (a.cluster == k || Moved(d, c, a.cluster) == Moved(d, c, k) - 1)
  {
    RestoreStep(d, c, k);
  }

  lemma AdvanceKeepsShape(d: Driver, before: Cluster, c: Checkpoint, k: Cluster, r: Record, mode: Mode, probe: Probe)
    requires HotCallable(d, k, r) && r.checkpoint == Some(c) && HotShaped(d, before, c, k, r.phase)
    ensures
      var a := AdvanceHot(d, k, r, mode, probe);
      && a.record.checkpoint == Some(c)
      && HotShaped(d, before, c, a.cluster, r.phase)
      && HotShaped(d, before, c, a.cluster, a.record.phase)
      && (a.cluster == k || (r.phase.Applying? && mode.Prepare? && Moved(d, c, a.cluster) == Moved(d, c, k) + 1)
          || (r.phase.Restoring? && mode.Restore? && Moved(d, c, a.cluster) == Moved(d, c, k) - 1))
  {
    WorkingAdvance(d, k, r, mode, probe);
    if r.phase.Applying? && mode.Prepare? {
      ApplyingKeepsShape(d, before, c, k, r);
    } else if r.phase.Restoring? && mode.Restore? {
      RestoringKeepsShape(d, before, c, k, r, probe);
    } else {
      QuietAdvance(d, k, r, mode, probe);
    }
  }

  /** Calls that never reach the driver. */
  lemma HotAsideKeeps(j: Job, before: Cluster, s: System, e: Event)
    requires HotInvariant(j, before, s) && e.Call?
    requires s.row.None? || !Permitted(j.binding, s.core, e.mode) || !e.registered
    ensures HotInvariant(j, before, HotStep(j, s, e))
  {
  }

  lemma HotBooksKept(j: Job, s: System, e: Event)
    requires Sized(j, s.cluster) && e.Call? && s.row.Some? && HotCallable(j.driver, s.cluster, s.row.value.record)
    requires Permitted(j.binding, s.core, e.mode) && e.registered
    ensures Books(s, HotStep(j, s, e), AdvanceHot(j.driver, s.cluster, s.row.value.record, e.mode, e.probe), e.mode)
  {
  }

  /** A lost commit and a made commit both leave a related ledger and cluster. */
  lemma BookedCallKeeps(j: Job, before: Cluster, s: System, t: System, a: Advanced, mode: Mode)
    requires HotInvariant(j, before, s) && s.row.Some? && Books(s, t, a, mode) && Sized(j, a.cluster)
    requires HotFollows(s.row.value.record.phase, a.record.phase, mode) && Decodable(a.record)
    requires a.record.phase.Prepared? && !s.row.value.record.phase.Prepared? ==> s.row.value.record.phase.Verifying?
    requires HotRelated(j, before, s.(cluster := a.cluster))
    requires a.record.checkpoint.None? ==> Untouched(before, a.cluster)
    requires a.record.checkpoint.Some? ==>
               && Captured(j.driver, before, a.record.checkpoint.value)
               && HotShaped(j.driver, before, a.record.checkpoint.value, a.cluster, a.record.phase)
    ensures HotInvariant(j, before, t)
  {
    assert HotRelated(j, before, t);
    assert HotRecorded(t);
  }

  lemma CaptureRelated(j: Job, before: Cluster, s: System, mode: Mode, probe: Probe)
    requires HotInvariant(j, before, s) && s.row.Some? && s.row.value.record.checkpoint.None?
    ensures
      var d := j.driver;
      var a := AdvanceHot(d, s.cluster, s.row.value.record, mode, probe);
      && a.cluster == s.cluster
      && (a.record.checkpoint.Some? ==>
            Captured(d, before, a.record.checkpoint.value)
              && HotShaped(d, before, a.record.checkpoint.value, a.cluster, a.record.phase))
  {
    var d, k, r := j.driver, s.cluster, s.row.value.record;
    HotAdvanceFollows(d, k, r, mode, probe);
    var a := AdvanceHot(d, k, r, mode, probe);
    if a.record.checkpoint.Some? {
      CaptureIsPartialWork(d, k, a.record.checkpoint.value);
    }
  }

  /** Where a call's record may come from and what its objects may look like. */
  lemma HotAdvanceRelated(j: Job, before: Cluster, s: System, mode: Mode, probe: Probe)
    requires HotInvariant(j, before, s) && s.row.Some?
    ensures
      var d, r := j.driver, s.row.value.record;
      var a := AdvanceHot(d, s.cluster, r, mode, probe);
      && HotRelated(j, before, s.(cluster := a.cluster))
      && (a.record.checkpoint.None? ==> Untouched(before, a.cluster))
      && (a.record.checkpoint.Some? ==>
            Captured(d, before, a.record.checkpoint.value)
              && HotShaped(d, before, a.record.checkpoint.value, a.cluster, a.record.phase))
  {
    var r := s.row.value.record;
    if r.checkpoint.Some? {
      AdvanceKeepsShape(j.driver, before, r.checkpoint.value, s.cluster, r, mode, probe);
    } else {
      CaptureRelated(j, before, s, mode, probe);
    }
  }

  lemma HotCallKeeps(j: Job, before: Cluster, s: System, e: Event)
    requires HotInvariant(j, before, s) && e.Call?
    ensures HotInvariant(j, before, HotStep(j, s, e))
  {
    if s.row.None? || !Permitted(j.binding, s.core, e.mode) || !e.registered {
      HotAsideKeeps(j, before, s, e);
    } else {
      var d, k, r := j.driver, s.cluster, s.row.value.record;
      HotBooksKept(j, s, e);
      HotAdvanceFollows(d, k, r, e.mode, e.probe);
      HotAdvanceRelated(j, before, s, e.mode, e.probe);
      BookedCallKeeps(j, before, s, HotStep(j, s, e), AdvanceHot(d, k, r, e.mode, e.probe), e.mode);
    }
  }

  lemma NotesKeepDeployment(d: Driver, c: Checkpoint, x: Deployment, y: Deployment)
    requires OnlyNoted(x, y)
    ensures DeploymentBack(d, c, x) <==> DeploymentBack(d, c, y)
    ensures DeploymentMoved(d, c, x) <==> DeploymentMoved(d, c, y)
  {
    OwnedFollowsManaged(d, y.ann, x.ann, d.target);
  }

  lemma NotesKeepPartialWork(d: Driver, c: Checkpoint, k: Cluster, k': Cluster)
    requires PartialWork(d, c, k) && k'.services == k.services && |k'.endpoints| == |k.endpoints|
    requires DeploymentBack(d, c, k.deployment) <==> DeploymentBack(d, c, k'.deployment)
    requires DeploymentMoved(d, c, k.deployment) <==> DeploymentMoved(d, c, k'.deployment)
    ensures PartialWork(d, c, k') && Moved(d, c, k') == Moved(d, c, k)
  {
    MovedIgnoresDeployment(d, c, k, k', 0);
    assert forall i :: 0 <= i < |c.services| ==> Partial(d, c, k, i) == Partial(d, c, k', i);
  }

  /** Whatever leaves the Services and all managed annotations alone. */
  lemma NotesKeepInvariant(j: Job, before: Cluster, s: System, k': Cluster)
    requires HotInvariant(j, before, s) && OnlyNoted(s.cluster.deployment, k'.deployment)
    requires k'.services == s.cluster.services && |k'.endpoints| == |s.cluster.endpoints|
    ensures HotInvariant(j, before, s.(cluster := k'))
    ensures s.row.Some? && s.row.value.record.checkpoint.Some? ==>
              var c := s.row.value.record.checkpoint.value;
              |c.services| == |s.cluster.services| && Moved(j.driver, c, k') == Moved(j.driver, c, s.cluster)
  {
    if s.row.Some? && s.row.value.record.checkpoint.Some? {
      NotesKeepDeployment(j.driver, s.row.value.record.checkpoint.value, s.cluster.deployment, k'.deployment);
      NotesKeepPartialWork(j.driver, s.row.value.record.checkpoint.value, s.cluster, k');
    }
  }

  lemma HotControllerKeeps(j: Job, before: Cluster, s: System, e: Event)
    requires HotInvariant(j, before, s) && !e.Call? && !e.CoreMoves?
    ensures HotInvariant(j, before, HotStep(j, s, e))
    ensures s.row.Some? && s.row.value.record.checkpoint.Some? ==>
              var c := s.row.value.record.checkpoint.value;
              |c.services| == |s.cluster.services| == |HotStep(j, s, e).cluster.services| &&
              Moved(j.driver, c, HotStep(j, s, e).cluster) == Moved(j.driver, c, s.cluster)
  {
    NotesKeepInvariant(j, before, s, Controlled(j, s.cluster, e));
  }

  lemma {:induction false} HotRunKeepsInvariant(j: Job, s: System, events: seq<Event>)
    requires HotInitial(j, s)
    ensures HotInvariant(j, s.cluster, HotRun(j, s, events))
  {
    if events != [] {
      HotRunKeepsInvariant(j, s, events[..|events| - 1]);
      var t, e := HotRun(j, s, events[..|events| - 1]), events[|events| - 1];
      if e.Call? {
        HotCallKeeps(j, s.cluster, t, e);
      } else if !e.CoreMoves? {
        HotControllerKeeps(j, s.cluster, t, e);
      }
    }
  }

  // ---- The theorems ----

  /** Until the source is sealed, and whenever the transition was cancelled, the
      operation has changed nothing. */
  lemma HotPreflightChangesNothing(j: Job, s: System, events: seq<Event>)
    requires HotInitial(j, s)
    requires
      var t := HotRun(j, s, events);
      || t.row.None? || t.row.value.record.checkpoint.None?
      || t.row.value.record.phase.Sealing? || t.row.value.record.phase.CancelingSource?
      || t.row.value.record.phase.CanceledSource?
    ensures Untouched(s.cluster, HotRun(j, s, events).cluster)
  {
    HotRunKeepsInvariant(j, s, events);
  }

  lemma AllOrNothing(d: Driver, c: Checkpoint, k: Cluster)
    requires PartialWork(d, c, k)
    ensures Moved(d, c, k) == |c.services| + 1 ==> AllMoved(d, c, k)
    ensures Moved(d, c, k) == 0 ==> AllBack(d, c, k)
  {
    MovedBound(d, c, k, 0);
    if Moved(d, c, k) == 0 {
      NothingMovedIsBack(d, c, k);
    }
  }

  lemma ApplyingKeepsForeign(d: Driver, k: Cluster, r: Record)
    requires HotCallable(d, k, r) && r.checkpoint.Some?
    ensures SameForeign(k.deployment.ann, AdvanceApplying(d, k, r).cluster.deployment.ann)
  {
    ApplyKeepsForeign(d, r.checkpoint.value, k);
  }

  lemma RestoringKeepsForeign(d: Driver, k: Cluster, r: Record, probe: Probe)
    requires HotCallable(d, k, r) && r.checkpoint.Some?
    ensures SameForeign(k.deployment.ann, AdvanceRestore(d, k, r, probe).cluster.deployment.ann)
  {
    RestoreKeepsOthers(d, r.checkpoint.value, k);
  }

  lemma AdvanceKeepsForeign(d: Driver, k: Cluster, r: Record, mode: Mode, probe: Probe)
    requires HotCallable(d, k, r) && (r.checkpoint.Some? ==> !r.phase.Checking?)
    ensures SameForeign(k.deployment.ann, AdvanceHot(d, k, r, mode, probe).cluster.deployment.ann)
  {
    if r.checkpoint.Some? {
      WorkingAdvance(d, k, r, mode, probe);
      if r.phase.Applying? && mode.Prepare? {
        ApplyingKeepsForeign(d, k, r);
      } else if r.phase.Restoring? && mode.Restore? {
        RestoringKeepsForeign(d, k, r, probe);
      } else {
        QuietAdvance(d, k, r, mode, probe);
      }
    }
  }

  /** The Deployment's annotations as the controllers alone would have left them. */
  function Noted(a: Annotations, events: seq<Event>): Annotations {
    if events == [] then a
    else
      var before, e := Noted(a, events[..|events| - 1]), events[|events| - 1];
      if e.ControllerNotes? then before[Foreign(e.name) := e.text] else before
  }

  lemma StepNotes(j: Job, before: Cluster, s: System, e: Event)
    requires HotInvariant(j, before, s)
    ensures
      var now := HotStep(j, s, e).cluster.deployment.ann;
      if e.ControllerNotes? then now == s.cluster.deployment.ann[Foreign(e.name) := e.text]
      else SameForeign(s.cluster.deployment.ann, now)
  {
    if e.Call? && s.row.Some? && Permitted(j.binding, s.core, e.mode) && e.registered {
      HotBooksKept(j, s, e);
      AdvanceKeepsForeign(j.driver, s.cluster, s.row.value.record, e.mode, e.probe);
    }
  }

  /** In every state of every run the Deployment's foreign annotations are what
      the controllers alone would have made of them. */
  lemma {:induction false} HotLeavesForeignAlone(j: Job, s: System, events: seq<Event>)
    requires HotInitial(j, s)
    ensures SameForeign(Noted(s.cluster.deployment.ann, events), HotRun(j, s, events).cluster.deployment.ann)
  {
    if events != [] {
      HotLeavesForeignAlone(j, s, events[..|events| - 1]);
      HotRunKeepsInvariant(j, s, events[..|events| - 1]);
      StepNotes(j, s.cluster, HotRun(j, s, events[..|events| - 1]), events[|events| - 1]);
    }
  }

  /** A prepared or target-released transition has moved every object, after a
      successful target proof and, for a release, a recorded intent and a
      published target; a restored or source-released one has every object back.
      Either way foreign annotations are left alone, on the Services as captured
      and on the Deployment as its controllers wrote them. */
  lemma HotEndsAreComplete(j: Job, s: System, events: seq<Event>)
    requires HotInitial(j, s) && HotRun(j, s, events).row.Some?
    requires HotRun(j, s, events).row.value.record.checkpoint.Some?
    ensures
      var t := HotRun(j, s, events);
      var p, c := t.row.value.record.phase, t.row.value.record.checkpoint.value;
      && (p.Prepared? || p.ReleasingTarget? || p.ReleasedTarget? ==>
          t.targetChecked && AllMoved(j.driver, c, t.cluster))
      && (p.ReleasingTarget? || p.ReleasedTarget? ==> t.publicationSeen && ReleasingTarget in t.log)
      && (p.Restored? || p.ReleasingSource? || p.ReleasedSource? ==> AllBack(j.driver, c, t.cluster))
      && c.services == s.cluster.services
      && SameForeign(Noted(s.cluster.deployment.ann, events), t.cluster.deployment.ann)
  {
    HotRunKeepsInvariant(j, s, events);
    var t := HotRun(j, s, events);
    AllOrNothing(j.driver, t.row.value.record.checkpoint.value, t.cluster);
    HotLeavesForeignAlone(j, s, events);
  }

  /** The driver never takes its own partial work for someone else's. */
  lemma HotNeverConflictsWithItself(j: Job, s: System, events: seq<Event>)
    requires HotInitial(j, s) && HotRun(j, s, events).row.Some?
    requires HotRun(j, s, events).row.value.record.checkpoint.Some?
    ensures
      var t := HotRun(j, s, events);
      var c := t.row.value.record.checkpoint.value;
      && !ApplySpec(j.driver, c, t.cluster).1.Conflict?
      && !RestoreSpec(j.driver, c, t.cluster).1.Conflict?
      && AtOriginal(j.driver, c, t.cluster.deployment) == !AtReplacement(j.driver, t.cluster.deployment)
  {
    HotRunKeepsInvariant(j, s, events);
    var t := HotRun(j, s, events);
    var c := t.row.value.record.checkpoint.value;
    ApplyStep(j.driver, c, t.cluster);
    RestoreStep(j.driver, c, t.cluster);
    DeploymentTold(j.driver, c, t.cluster.deployment);
  }

  // ---- Order and irreversibility ----

  predicate HotTurnedBack(p: Phase) {
    p.CancelingSource? || p.CanceledSource? || p.RecoveryRequired? || p.Restoring? || p.Restored?
      || p.RejectedPreflight?
  }

  /** A release keeps its direction, and a transition that turned back stays on
      the way to the source. */
  predicate HotDirection(p: Phase, q: Phase) {
    match p
    case ReleasingSource => q.ReleasingSource? || q.ReleasedSource?
    case ReleasedSource => q.ReleasedSource?
    case ReleasingTarget => q.ReleasingTarget? || q.ReleasedTarget?
    case ReleasedTarget => q.ReleasedTarget?
    case _ => HotTurnedBack(p) ==> HotTurnedBack(q) || q.ReleasingSource? || q.ReleasedSource?
  }

  /** Nothing more is moved towards the target. */
  ghost predicate NoFurther(d: Driver, t: System, u: System)
    requires t.row.Some? && t.row.value.record.checkpoint.Some?
  {
    var c := t.row.value.record.checkpoint.value;
    && |c.services| == |t.cluster.services| == |u.cluster.services|
    && Moved(d, c, u.cluster) <= Moved(d, c, t.cluster)
  }

  ghost predicate HotForward(d: Driver, t: System, u: System) {
    && t.row.Some? && u.row.Some? && t.log <= u.log && t.row.value.revision <= u.row.value.revision
    && var r, q := t.row.value.record, u.row.value.record;
       && (r.checkpoint.Some? ==> q.checkpoint == r.checkpoint)
       && HotDirection(r.phase, q.phase)
       && (r.checkpoint.None? && (HotTurnedBack(r.phase) || IsRelease(r.phase)) ==> q.checkpoint.None?)
       && (r.checkpoint.Some? && (HotTurnedBack(r.phase) || IsRelease(r.phase)) ==> NoFurther(d, t, u))
  }

  lemma HotFollowsDirection(p: Phase, q: Phase, mode: Mode)
    requires HotFollows(p, q, mode)
    ensures HotDirection(p, q)
  {
  }

  lemma HotCallMovesForward(j: Job, before: Cluster, t: System, e: Event)
    requires HotInvariant(j, before, t) && t.row.Some? && e.Call? && Permitted(j.binding, t.core, e.mode)
             && e.registered
    ensures HotForward(j.driver, t, HotStep(j, t, e))
  {
    var d, k, r := j.driver, t.cluster, t.row.value.record;
    var a := AdvanceHot(d, k, r, e.mode, e.probe);
    HotBooksKept(j, t, e);
    HotAdvanceFollows(d, k, r, e.mode, e.probe);
    HotFollowsDirection(r.phase, a.record.phase, e.mode);
    if r.checkpoint.Some? {
      AdvanceKeepsShape(d, before, r.checkpoint.value, k, r, e.mode, e.probe);
      assert HotTurnedBack(r.phase) || IsRelease(r.phase) ==> NoFurther(d, t, HotStep(j, t, e));
    }
  }

  lemma HotStepMovesForward(j: Job, before: Cluster, t: System, e: Event)
    requires HotInvariant(j, before, t) && t.row.Some?
    ensures HotForward(j.driver, t, HotStep(j, t, e))
  {
    if e.Call? && Permitted(j.binding, t.core, e.mode) && e.registered {
      HotCallMovesForward(j, before, t, e);
    } else if !e.Call? && !e.CoreMoves? {
      HotControllerKeeps(j, before, t, e);
    }
  }

  lemma HotForwardChains(d: Driver, t: System, u: System, v: System)
    requires HotForward(d, t, u) && HotForward(d, u, v)
    ensures HotForward(d, t, v)
  {
  }

  /** Over any continuation of any run: the checkpoint is permanent, a release
      keeps its direction, and once the transition turned back or is released
      no object is ever moved to the target again. */
  lemma {:induction false} HotRunsMoveForward(j: Job, s: System, a: seq<Event>, b: seq<Event>)
    requires HotInitial(j, s) && HotRun(j, s, a).row.Some?
    ensures HotForward(j.driver, HotRun(j, s, a), HotRun(j, s, a + b))
    decreases |b|
  {
    if b == [] {
      assert a + b == a;
      HotRunKeepsInvariant(j, s, a);
    } else {
      var prefix := b[..|b| - 1];
      HotRunsMoveForward(j, s, a, prefix);
      HotRunSplit(j, s, a, b);
      HotRunKeepsInvariant(j, s, a + prefix);
      HotStepMovesForward(j, s.cluster, HotRun(j, s, a + prefix), b[|b| - 1]);
      HotForwardChains(j.driver, HotRun(j, s, a), HotRun(j, s, a + prefix), HotRun(j, s, a + b));
    }
  }

  lemma HotRunSplit(j: Job, s: System, a: seq<Event>, b: seq<Event>)
    requires HotInitial(j, s) && b != []
    ensures HotRun(j, s, a + b) == HotStep(j, HotRun(j, s, a + b[..|b| - 1]), b[|b| - 1])
  {
    var longer := a + b;
    assert longer[..|longer| - 1] == a + b[..|b| - 1] && longer[|longer| - 1] == b[|b| - 1];
    HotRunLast(j, s, longer);
  }

  lemma HotRunLast(j: Job, s: System, events: seq<Event>)
    requires HotInitial(j, s) && events != []
    ensures HotRun(j, s, events) == HotStep(j, HotRun(j, s, events[..|events| - 1]), events[|events| - 1])
  {
  }
}
