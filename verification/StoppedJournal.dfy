/** The phase machine of a downtime transition, around the driver's effects. */
module StoppedJournal {
  import opened Wrappers
  import opened ManagedObjects
  import opened ManagementJournal
  import opened StoppedReplacement

  /** One call's effect on the cluster and on the record it may commit. */
  datatype Advanced = Advanced(cluster: Cluster, record: Record, failure: Failure)

  function FailureOf(o: Outcome): Failure {
    if o.Conflict? then Conflicted else NoFailure
  }

  /** A business check is bound to the live Deployment: it can only succeed, or
      report activity, while the expected release is up and ready. */
  function Check(d: Driver, c: Checkpoint, k: Cluster, target: bool, idle: bool, probe: Probe): Failure {
    match probe
    case ProbeUnavailable => Unavailable
    case ProbeConflict => Conflicted
    case _ =>
      var live := LiveDeployment(d, c, k);
      if live.Drifted? || live.AtTarget? != target || !Ready(k) then Conflicted
      else if probe.ProbeBusy? && idle then Busy
      else NoFailure
  }

  ghost predicate Callable(d: Driver, k: Cluster, r: Record) {
    && WellFormed(d) && Decodable(r)
    && |k.services| == |k.endpoints| == |d.source.services|
    && (r.checkpoint.Some? ==> ValidCheckpoint(d, r.checkpoint.value))
  }

  /** A call changes Services or the Deployment, never both, and no status. */
  ghost predicate Framed(k: Cluster, after: Cluster) {
    OnlyServicesChanged(k, after) || OnlyDeploymentChanged(k, after)
  }

  function AdvanceRelease(d: Driver, k: Cluster, r: Record, target: bool): (a: Advanced)
    requires Callable(d, k, r)
    ensures Framed(k, a.cluster)
  {
    var prepared := if target then Prepared else Restored;
    var releasing := if target then ReleasingTarget else ReleasingSource;
    var released := if target then ReleasedTarget else ReleasedSource;
    if r.phase == prepared then Advanced(k, r.(phase := releasing), NoFailure)
    else if r.phase != releasing && r.phase != released then Advanced(k, r, Conflicted)
    else if r.checkpoint.None? then
      if target then Advanced(k, r, Conflicted) else Advanced(k, r.(phase := released), NoFailure)
    else
      var (after, o) := OpenSpec(d, r.checkpoint.value, k, target);
      Advanced(after, if o.Done? then r.(phase := released) else r, FailureOf(o))
  }

  function AdvanceChecking(d: Driver, k: Cluster, r: Record, probe: Probe): (a: Advanced)
    requires Callable(d, k, r)
    ensures Framed(k, a.cluster)
  {
    var c := CaptureSpec(d, k);
    var failure := if c.None? then Conflicted else Check(d, c.value, k, false, true, probe);
    match failure
    case NoFailure => Advanced(k, Record(Sealing, c), NoFailure)
    case Busy => Advanced(k, Record(CanceledSource, c), NoFailure)
    case Conflicted =>
      if r.checkpoint.None? then Advanced(k, r.(phase := RejectedPreflight), NoFailure) else Advanced(k, r, Conflicted)
    case Unavailable => Advanced(k, r, Unavailable)
  }

  function AdvanceSealing(d: Driver, guarded: bool, k: Cluster, r: Record, probe: Probe): (a: (Advanced, bool))
    requires Callable(d, k, r) && r.checkpoint.Some?
    ensures Framed(k, a.0.cluster)
  {
    var c := r.checkpoint.value;
    var (gated, o) := GateSpec(d, c, k);
    if !o.Done? then (Advanced(gated, r, FailureOf(o)), false)
    else if guarded && LiveDeployment(d, c, gated).Drifted? then (Advanced(gated, r, Conflicted), true)
    else if guarded && gated.deployment.replicas != 0 && Check(d, c, gated, false, true, probe) != NoFailure then
      (Advanced(gated, r, Check(d, c, gated, false, true, probe)), true)
    else
      var (stopped, p) := StopSpec(d, c, gated);
      (Advanced(stopped, if p.Done? then r.(phase := Applying) else r, FailureOf(p)), false)
  }

  function AdvanceRestoring(d: Driver, guarded: bool, k: Cluster, r: Record, probe: Probe): (a: Advanced)
    requires Callable(d, k, r) && r.checkpoint.Some?
    ensures Framed(k, a.cluster)
  {
    var c := r.checkpoint.value;
    var live := LiveDeployment(d, c, k);
    if live.Drifted? then Advanced(k, r, Conflicted)
    else if live.AtTarget? && guarded && k.deployment.replicas != 0
      && Check(d, c, k, true, true, probe) != NoFailure then
      Advanced(k, r, Check(d, c, k, true, true, probe))
    else if live.AtTarget? && !StopSpec(d, c, k).1.Done? then
      Advanced(StopSpec(d, c, k).0, r, FailureOf(StopSpec(d, c, k).1))
    else if k.deployment.replicas == 0 then
      var (started, o) := StartSpec(d, c, k, false);
      Advanced(started, r, FailureOf(o))
    else
      var failure := Check(d, c, k, false, false, probe);
      Advanced(k, if failure.NoFailure? then r.(phase := Restored) else r, failure)
  }

  /** A definite conflict or late activity becomes a request for recovery. */
  function Settle(a: Advanced, mode: Mode): Advanced {
    if a.record.checkpoint.Some? && !mode.Restore? && (a.failure.Conflicted? || a.failure.Busy?) then
      a.(record := a.record.(phase := RecoveryRequired), failure := NoFailure)
    else a
  }

  /** The whole of one advance. `guarded` applications are re-checked before
      their process is stopped. */
  function AdvanceSpec(d: Driver, guarded: bool, k: Cluster, r: Record, mode: Mode, probe: Probe): (a: Advanced)
    requires Callable(d, k, r)
    ensures Framed(k, a.cluster)
  {
    if r.phase.RejectedPreflight? then
      Advanced(k, r, if mode.Prepare? && r.checkpoint.None? then NoFailure else Conflicted)
    else if mode.ReleaseSource? || mode.ReleaseTarget? then AdvanceRelease(d, k, r, mode.ReleaseTarget?)
    else if IsRelease(r.phase) then Advanced(k, r, Conflicted)
    else if mode.Restore? && !r.phase.Restoring? && !r.phase.Restored? then
      Advanced(k, r.(phase := if r.checkpoint.None? then Restored else Restoring), NoFailure)
    else if !mode.Restore? && (r.phase.Restoring? || r.phase.Restored? || r.phase.RecoveryRequired?) then
      Advanced(k, r, Conflicted)
    else match r.phase
      case Checking => Settle(AdvanceChecking(d, k, r, probe), mode)
      case CanceledSource => Advanced(k, r, NoFailure)
      case Sealing =>
        var (a, early) := AdvanceSealing(d, guarded, k, r, probe);
        if early then a else Settle(a, mode)
      case Applying =>
        var (started, o) := StartSpec(d, r.checkpoint.value, k, true);
        Settle(Advanced(started, if o.Done? then r.(phase := Verifying) else r, FailureOf(o)), mode)
      case Verifying =>
        var failure := Check(d, r.checkpoint.value, k, true, true, probe);
        Settle(Advanced(k, if failure.NoFailure? then r.(phase := Prepared) else r, failure), mode)
      case Prepared =>
        Settle(Advanced(k, r, Check(d, r.checkpoint.value, k, true, true, probe)), mode)
      case Restoring => AdvanceRestoring(d, guarded, k, r, probe)
      case Restored =>
        Advanced(k, r, if r.checkpoint.None? then NoFailure else Check(d, r.checkpoint.value, k, false, false, probe))
      case _ => Advanced(k, r, Conflicted)
  }

  /** The imperative advance, calling the driver step by step. */
  method AdvanceStopped(kube: Kubernetes, d: Driver, guarded: bool, record: Record, mode: Mode, probe: Probe)
    returns (r: Record, failure: Failure)
    requires Callable(d, kube.Snapshot(), record)
    modifies kube
    ensures Advanced(kube.Snapshot(), r, failure) == AdvanceSpec(d, guarded, old(kube.Snapshot()), record, mode, probe)
  {
    r, failure := record, NoFailure;
    if r.phase.RejectedPreflight? {
      failure := if mode.Prepare? && r.checkpoint.None? then NoFailure else Conflicted;
      return;
    }
    if mode.ReleaseSource? || mode.ReleaseTarget? {
      r, failure := Release(kube, d, record, mode.ReleaseTarget?);
      return;
    }
    if IsRelease(r.phase) {
      return r, Conflicted;
    }
    if mode.Restore? && !r.phase.Restoring? && !r.phase.Restored? {
      return r.(phase := if r.checkpoint.None? then Restored else Restoring), NoFailure;
    }
    if !mode.Restore? && (r.phase.Restoring? || r.phase.Restored? || r.phase.RecoveryRequired?) {
      return r, Conflicted;
    }
    match r.phase {
      case Checking =>
        var c := kube.Capture(d);
        failure := if c.None? then Conflicted else Check(d, c.value, kube.Snapshot(), false, true, probe);
        if failure.NoFailure? {
          r := Record(Sealing, c);
        } else if failure.Busy? {
          r, failure := Record(CanceledSource, c), NoFailure;
        }
        if r.checkpoint.None? && failure.Conflicted? {
          r, failure := r.(phase := RejectedPreflight), NoFailure;
        }
      case CanceledSource =>
      case Sealing =>
        var o := kube.Gate(d, r.checkpoint.value);
        failure := FailureOf(o);
        if o.Done? {
          if guarded {
            if LiveDeployment(d, r.checkpoint.value, kube.Snapshot()).Drifted? {
              return r, Conflicted;
            }
            if kube.deployment.replicas != 0 {
              failure := Check(d, r.checkpoint.value, kube.Snapshot(), false, true, probe);
              if !failure.NoFailure? {
                return;
              }
            }
          }
          o := kube.Stop(d, r.checkpoint.value);
          failure := FailureOf(o);
          if o.Done? {
            r := r.(phase := Applying);
          }
        }
      case Applying =>
        var o := kube.Start(d, r.checkpoint.value, true);
        failure := FailureOf(o);
        if o.Done? {
          r := r.(phase := Verifying);
        }
      case Verifying =>
        failure := Check(d, r.checkpoint.value, kube.Snapshot(), true, true, probe);
        if failure.NoFailure? {
          r := r.(phase := Prepared);
        }
      case Prepared =>
        failure := Check(d, r.checkpoint.value, kube.Snapshot(), true, true, probe);
      case Restoring =>
        r, failure := RestoreSource(kube, d, guarded, record, probe);
      case Restored =>
        if r.checkpoint.Some? {
          failure := Check(d, r.checkpoint.value, kube.Snapshot(), false, false, probe);
        }
      case _ =>
        return r, Conflicted;
    }
    if r.checkpoint.Some? && !mode.Restore? && (failure.Conflicted? || failure.Busy?) {
      r, failure := r.(phase := RecoveryRequired), NoFailure;
    }
  }

  method Release(kube: Kubernetes, d: Driver, record: Record, target: bool) returns (r: Record, failure: Failure)
    requires Callable(d, kube.Snapshot(), record)
    modifies kube
    ensures Advanced(kube.Snapshot(), r, failure) == AdvanceRelease(d, old(kube.Snapshot()), record, target)
  {
    var prepared, releasing, released := Restored, ReleasingSource, ReleasedSource;
    if target {
      prepared, releasing, released := Prepared, ReleasingTarget, ReleasedTarget;
    }
    r, failure := record, NoFailure;
    if r.phase == prepared {
      return r.(phase := releasing), NoFailure;
    }
    if r.phase != releasing && r.phase != released {
      return r, Conflicted;
    }
    if r.checkpoint.None? {
      if target {
        return r, Conflicted;
      }
      return r.(phase := released), NoFailure;
    }
    var o := kube.OpenRoutes(d, r.checkpoint.value, target);
    if o.Done? {
      r := r.(phase := released);
    }
    failure := FailureOf(o);
  }

  method RestoreSource(kube: Kubernetes, d: Driver, guarded: bool, record: Record, probe: Probe)
    returns (r: Record, failure: Failure)
    requires Callable(d, kube.Snapshot(), record) && record.checkpoint.Some?
    modifies kube
    ensures Advanced(kube.Snapshot(), r, failure) == AdvanceRestoring(d, guarded, old(kube.Snapshot()), record, probe)
  {
    r, failure := record, NoFailure;
    var c := r.checkpoint.value;
    var live := LiveDeployment(d, c, kube.Snapshot());
    if live.Drifted? {
      return r, Conflicted;
    }
    if live.AtTarget? {
      if guarded && kube.deployment.replicas != 0 {
        failure := Check(d, c, kube.Snapshot(), true, true, probe);
        if !failure.NoFailure? {
          return;
        }
      }
      var o := kube.Stop(d, c);
      if !o.Done? {
        return r, FailureOf(o);
      }
    }
    if kube.deployment.replicas == 0 {
      var o := kube.Start(d, c, false);
      return r, FailureOf(o);
    }
    failure := Check(d, c, kube.Snapshot(), false, false, probe);
    if failure.NoFailure? {
      r := r.(phase := Restored);
    }
  }
}
