/** The durable transition record, Core's own rows, and the guard every
    reconcile call passes before it may touch the record. */
module ManagementJournal {
  import opened Wrappers
  import opened ManagedObjects

  datatype Phase =
    | Checking | RejectedPreflight | Sealing | CancelingSource | CanceledSource
    | Applying | Verifying | Prepared | Restoring | Restored | RecoveryRequired
    | ReleasingSource | ReleasingTarget | ReleasedSource | ReleasedTarget

  datatype Mode = Prepare | Restore | ReleaseSource | ReleaseTarget

  datatype Record = Record(phase: Phase, checkpoint: Option<Checkpoint>)

  datatype Row = Row(record: Record, revision: nat)

  datatype Failure = NoFailure | Conflicted | Busy | Unavailable

  /** The answer of a business probe, before it is bound to the live Pod. */
  datatype Probe = ProbeOk | ProbeBusy | ProbeConflict | ProbeUnavailable

  predicate IsRelease(p: Phase) {
    p.ReleasingSource? || p.ReleasingTarget? || p.ReleasedSource? || p.ReleasedTarget?
  }

  /** A stored record can be read back: only these phases may lack a checkpoint. */
  predicate Decodable(r: Record) {
    && (r.checkpoint.None? ==>
          r.phase.RejectedPreflight? || r.phase.Checking? || r.phase.Restored? || r.phase.ReleasingSource?
            || r.phase.ReleasedSource?)
    && (r.phase.RejectedPreflight? ==> r.checkpoint.None?)
  }

  // ---- Core's side: the requested transition and the installation row ----

  datatype CorePhase =
    | CoreChecking | CoreSealing | CoreApplying | CoreVerifying | CorePublishing
    | CoreReleasing | CoreRestoring | CoreRecoveryRequired | CoreOther

  datatype CoreStatus = CoreRunning | CoreRecovery | CoreSettled

  datatype Core = Core(phase: CorePhase, status: CoreStatus, version: string, revision: int)

  datatype Binding = Binding(sourceVersion: string, targetVersion: string, expectedRevision: int)

  predicate Recovering(core: Core) {
    core.phase.CoreRestoring? || core.phase.CoreRecoveryRequired?
  }

  /** The installation row shows the target, published exactly once. */
  predicate Published(b: Binding, core: Core) {
    core.version == b.targetVersion && core.revision == b.expectedRevision + 1
  }

  predicate BindingReadable(b: Binding, core: Core) {
    var original := core.version == b.sourceVersion && core.revision == b.expectedRevision;
    var restored := core.version == b.sourceVersion && core.revision == b.expectedRevision + 2;
    && b.sourceVersion != b.targetVersion && b.expectedRevision >= 1
    && (core.status.CoreRunning? || (core.status.CoreRecovery? && Recovering(core)))
    && !core.phase.CoreOther?
    && (original || ((Recovering(core) || core.phase.CoreReleasing?) && (Published(b, core) || restored)))
  }

  /** The direction Core has durably asked for. */
  predicate Permitted(b: Binding, core: Core, mode: Mode) {
    var releasing := mode.ReleaseSource? || mode.ReleaseTarget?;
    && BindingReadable(b, core)
    && releasing == core.phase.CoreReleasing?
    && mode.Restore? == Recovering(core)
    && (releasing ==> Published(b, core) == mode.ReleaseTarget?)
  }

  /** A release call in one direction is never permitted together with the other. */
  lemma OneDirectionPermitted(b: Binding, core: Core)
    ensures !(Permitted(b, core, ReleaseSource) && Permitted(b, core, ReleaseTarget))
    ensures Permitted(b, core, ReleaseTarget) ==> Published(b, core)
  {
  }
}
