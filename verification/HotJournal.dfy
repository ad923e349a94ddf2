/** The phase machine of a hot transition, around the driver's effects and the
    maintenance proofs, which are oracles. */
module HotJournal {
  import opened Wrappers
  import opened ManagedObjects
  import opened ManagementJournal
  import opened StoppedReplacement
  import opened StoppedJournal
  import opened HotReplacement

  ghost predicate HotCallable(d: Driver, k: Cluster, r: Record) {
    && Decodable(r) && |k.services| == |d.source.services|
    && (r.checkpoint.Some? ==> ValidCheckpoint(d, r.checkpoint.value))
  }

  /** The error a maintenance call reports. */
  function Told(probe: Probe): Failure {
    match probe
    case ProbeOk => NoFailure
    case ProbeBusy => Busy
    case ProbeConflict => Conflicted
    case ProbeUnavailable => Unavailable
  }

  /** The record after a proof: one phase further exactly when it succeeded. */
  function Proved(k: Cluster, r: Record, next: Phase, probe: Probe): Advanced {
    Advanced(k, if Told(probe).NoFailure? then r.(phase := next) else r, Told(probe))
  }

  /** A definite conflict after sealing becomes a request for recovery. */
  function SettleHot(a: Advanced): Advanced {
    var p := a.record.phase;
    if a.failure.Conflicted? && a.record.checkpoint.Some? && !p.Sealing? && !p.CancelingSource?
       && !p.CanceledSource? then
      a.(record := a.record.(phase := RecoveryRequired), failure := NoFailure)
    else a
  }

  function AdvanceApplying(d: Driver, k: Cluster, r: Record): (a: Advanced)
    requires HotCallable(d, k, r) && r.checkpoint.Some?
    ensures |a.cluster.services| == |k.services| && a.cluster.endpoints == k.endpoints
  {
    var (after, o) := ApplySpec(d, r.checkpoint.value, k);
    SettleHot(Advanced(after, if o.Done? then r.(phase := Verifying) else r, FailureOf(o)))
  }

  function AdvanceRestore(d: Driver, k: Cluster, r: Record, probe: Probe): (a: Advanced)
    requires HotCallable(d, k, r) && r.checkpoint.Some?
    ensures |a.cluster.services| == |k.services| && a.cluster.endpoints == k.endpoints
  {
    var (after, o) := RestoreSpec(d, r.checkpoint.value, k);
    SettleHot(if o.Done? then Proved(after, r, Restored, probe) else Advanced(after, r, FailureOf(o)))
  }

  function AdvanceHotSpec(d: Driver, k: Cluster, r: Record, restore: bool, probe: Probe): (a: Advanced)
    requires HotCallable(d, k, r)
    ensures |a.cluster.services| == |k.services| && a.cluster.endpoints == k.endpoints
  {
    if IsRelease(r.phase) then Advanced(k, r, Conflicted)
    else if restore && !r.phase.Restoring? && !r.phase.Restored? && !r.phase.CancelingSource?
      && !r.phase.CanceledSource? then
      var next := if r.checkpoint.None? then Restored else if r.phase.Sealing? then CancelingSource else Restoring;
      Advanced(k, r.(phase := next), NoFailure)
    else if !restore && (r.phase.Restoring? || r.phase.Restored? || r.phase.RecoveryRequired?) then
      Advanced(k, r, Conflicted)
    else match r.phase
      case Checking =>
        var c := CaptureSpec(d, k);
        SettleHot(if c.Some? then Advanced(k, Record(Sealing, c), NoFailure) else Advanced(k, r, Conflicted))
      case Sealing =>
        if probe.ProbeBusy? then Advanced(k, r.(phase := CancelingSource), NoFailure) else Proved(k, r, Applying, probe)
      case CancelingSource => Proved(k, r, CanceledSource, probe)
      case CanceledSource => Proved(k, r, CanceledSource, probe)
      case Applying => AdvanceApplying(d, k, r)
      case Verifying => SettleHot(Proved(k, r, Prepared, probe))
      case Prepared => SettleHot(Proved(k, r, Prepared, probe))
      case Restoring => AdvanceRestore(d, k, r, probe)
      case Restored => if r.checkpoint.None? then Advanced(k, r, NoFailure)
        else SettleHot(Proved(k, r, Restored, probe))
      case _ => Advanced(k, r, Conflicted)
  }

  function AdvanceHotRelease(k: Cluster, r: Record, target: bool, probe: Probe): Advanced {
    var prepared := if target then Prepared else Restored;
    var releasing := if target then ReleasingTarget else ReleasingSource;
    var released := if target then ReleasedTarget else ReleasedSource;
    if r.phase == prepared || (!target && r.phase.CanceledSource?) then Advanced(k, r.(phase := releasing), NoFailure)
    else if r.phase != releasing && r.phase != released then Advanced(k, r, Conflicted)
    else if r.checkpoint.None? then
      if target then Advanced(k, r, Conflicted) else Advanced(k, r.(phase := released), NoFailure)
    else Proved(k, r, released, probe)
  }

  // ---- The imperative machine ----

  method AdvanceManagement(kube: Kubernetes, d: Driver, record: Record, restore: bool, probe: Probe)
    returns (r: Record, failure: Failure)
    requires HotCallable(d, kube.Snapshot(), record)
    modifies kube
    ensures Advanced(kube.Snapshot(), r, failure) == AdvanceHotSpec(d, old(kube.Snapshot()), record, restore, probe)
  {
    r, failure := record, NoFailure;
    if IsRelease(r.phase) {
      return r, Conflicted;
    }
    if restore && !r.phase.Restoring? && !r.phase.Restored? && !r.phase.CancelingSource? && !r.phase.CanceledSource? {
      if r.checkpoint.None? {
        r := r.(phase := Restored);
      } else if r.phase.Sealing? {
        r := r.(phase := CancelingSource);
      } else {
        r := r.(phase := Restoring);
      }
      return;
    }
    if !restore && (r.phase.Restoring? || r.phase.Restored? || r.phase.RecoveryRequired?) {
      return r, Conflicted;
    }
    match r.phase {
      case Checking =>
        var c := kube.Capture(d);
        if c.Some? {
          r := Record(Sealing, c);
        } else {
          failure := Conflicted;
        }
      case Sealing =>
        failure := Told(probe);
        if failure.NoFailure? {
          r := r.(phase := Applying);
        } else if failure.Busy? {
          r, failure := r.(phase := CancelingSource), NoFailure;
        }
      case CancelingSource =>
        failure := Told(probe);
        if failure.NoFailure? {
          r := r.(phase := CanceledSource);
        }
      case CanceledSource =>
        failure := Told(probe);
      case Applying =>
        var o := Apply(kube, d, r.checkpoint.value);
        failure := FailureOf(o);
        if o.Done? {
          r := r.(phase := Verifying);
        }
      case Verifying =>
        failure := Told(probe);
        if failure.NoFailure? {
          r := r.(phase := Prepared);
        }
      case Restoring =>
        var o := RestoreObjects(kube, d, r.checkpoint.value);
        failure := FailureOf(o);
        if o.Done? {
          failure := Told(probe);
          if failure.NoFailure? {
            r := r.(phase := Restored);
          }
        }
      case Prepared =>
        failure := Told(probe);
      case Restored =>
        if r.checkpoint.Some? {
          failure := Told(probe);
        }
      case _ =>
        return r, Conflicted;
    }
    if failure.Conflicted? && r.checkpoint.Some? && !r.phase.Sealing? && !r.phase.CancelingSource?
       && !r.phase.CanceledSource? {
      r, failure := r.(phase := RecoveryRequired), NoFailure;
    }
  }

  method AdvanceManagementRelease(kube: Kubernetes, record: Record, target: bool, probe: Probe)
    returns (r: Record, failure: Failure)
    ensures Advanced(kube.Snapshot(), r, failure) == AdvanceHotRelease(kube.Snapshot(), record, target, probe)
  {
    var prepared, releasing, released := Restored, ReleasingSource, ReleasedSource;
    if target {
      prepared, releasing, released := Prepared, ReleasingTarget, ReleasedTarget;
    }
    r, failure := record, NoFailure;
    if r.phase == prepared || (!target && r.phase.CanceledSource?) {
      return r.(phase := releasing), NoFailure;
    }
    if r.phase != releasing && r.phase != released {
      return r, Conflicted;
    }
    if r.checkpoint.None? {
      if target {
        return r, Conflicted;
      }
      return r.(phase := released), NoFailure;
    }
    failure := Told(probe);
    if failure.NoFailure? {
      r := r.(phase := released);
    }
  }
}
