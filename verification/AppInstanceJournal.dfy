/** The journal's operations as they run: rows and objects changed one effect at
    a time, stopping at the first one that does not complete. */
module AppInstanceJournal {
  import opened Wrappers
  import opened AppInstances
  import AppInstanceRuns
  import AppInstanceSafety

  class Journal {
    var secret: Object
    var blocked: bool
    var epoch: nat
    var pods: map<Id, Object>
    var services: map<Id, Object>
    var starts: seq<StartRow>
    var stops: map<Id, StopRow>
    var next: Id
    var log: seq<Effect>
    var budget: nat
    var disturbed: bool
    var lossy: bool

    function Snapshot(): World
      reads this
    {
      World(secret, blocked, epoch, pods, services, starts, stops, next, log, budget, disturbed, lossy)
    }

    constructor (w: World)
      ensures Snapshot() == w
    {
      secret, blocked, epoch, pods, services := w.secret, w.blocked, w.epoch, w.pods, w.services;
      starts, stops := w.starts, w.stops;
      next, log, budget, disturbed, lossy := w.next, w.log, w.budget, w.disturbed, w.lossy;
    }

    /** The row of an operation, as the journal's query finds it. */
    method Lookup(operation: Id) returns (i: Option<nat>)
      ensures i == Find(starts, operation)
    {
      for k := 0 to |starts|
        invariant Find(starts, operation) == FindFrom(starts, operation, k)
      {
        if starts[k].operation == operation {
          return Some(k);
        }
      }
      i := None;
    }

    /** `found` is what a read of the Secret in the profile's namespace shows. */
    method Accept(operation: Id, generation: nat, profile: Profile, found: Holder, volume: bool) returns (ok: bool)
      modifies this
      ensures Outcome(Snapshot(), ok) == AcceptStart(old(Snapshot()), operation, generation, profile, found, volume)
      ensures AppInstanceRuns.Invariant(old(Snapshot())) ==> AppInstanceRuns.Invariant(Snapshot())
    {
      if AppInstanceRuns.Invariant(Snapshot()) {
        AppInstanceSafety.AcceptKeeps(Snapshot(), operation, generation, profile, found, volume);
      }
      var known := Lookup(operation);
      if known.Some? {
        return starts[known.value].generation == generation && starts[known.value].profile == profile;
      }
      if generation == 0 || operation == 0 || !volume || budget == 0 {
        return false;
      }
      if |starts| == 0 {
        ok := generation == 1;
        if ok {
          Append(operation, generation, profile, 0);
        }
        return;
      }
      var previous := starts[|starts| - 1];
      if !previous.phase.Stopped? || generation != previous.generation + 1 || previous.observation.secret == 0 {
        return false;
      }
      if profile == previous.profile {
        Append(operation, generation, profile, previous.observation.secret);
      } else {
        Turn(NewHolder(Snapshot(), previous.profile, profile, found));
        Append(operation, generation, profile, Uid(secret));
      }
      ok := true;
    }

    method Append(operation: Id, generation: nat, profile: Profile, credential: Id)
      modifies this
      ensures Snapshot() == Appended(old(Snapshot()), operation, generation, profile, credential)
    {
      var initial := Observation(0, 0, credential, false, 0);
      starts := starts + [StartRow(operation, generation, profile, epoch, Accepted, initial, 1)];
      budget := if budget > 0 then budget - 1 else 0;
    }

    method Turn(h: Holder)
      modifies this
      ensures Snapshot() == Turned(old(Snapshot()), h)
    {
      epoch, blocked := epoch + 1, h.Another?;
      secret := if h.Ours? then Present(h.uid, false) else Absent;
      if h.Ours? {
        log := log + [Made(Secret, epoch, h.uid)];
      }
    }

    method Checkpoint(i: nat, observed: Observation) returns (ok: bool)
      requires i < |starts|
      modifies this
      ensures Outcome(Snapshot(), ok) == CheckpointStart(old(Snapshot()), i, observed)
    {
      var r := starts[i];
      if budget == 0 || !Monotonic(r.observation, observed) || (!r.phase.Accepted? && !r.phase.Launching?) {
        return false;
      }
      var phase := Launching;
      if observed.boot != 0 {
        if !observed.ready {
          return false;
        }
        phase := Running;
      }
      starts := starts[i := r.(observation := observed, phase := phase, revision := r.revision + 1)];
      budget := budget - 1;
      ok := true;
    }

    method Create(kind: Kind, run: Id) returns (ok: bool)
      modifies this
      ensures
        Outcome(Snapshot(), ok) ==
        match kind
        case Secret => CreateSecret(old(Snapshot()))
        case Service => CreateService(old(Snapshot()), run)
        case Pod => CreatePod(old(Snapshot()), run)
    {
      if budget == 0 {
        return false;
      }
      match kind {
        case Secret =>
          if secret.Present? || blocked {
            return false;
          }
          secret, log := Present(next, false), log + [Made(Secret, epoch, next)];
        case Service =>
          if At(services, run).Present? {
            return false;
          }
          services, log := services[run := Present(next, false)], log + [Made(Service, run, next)];
        case Pod =>
          if At(pods, run).Present? {
            return false;
          }
          pods, log := pods[run := Present(next, false)], log + [Made(Pod, run, next)];
      }
      next, budget := next + 1, budget - 1;
      ok := true;
    }

    /** Creates whatever is missing, in order, with a checkpoint after each. */
    method EnsureWorker(i: nat, answers: Answers) returns (ok: bool)
      requires i < |starts|
      modifies this
      ensures Outcome(Snapshot(), ok) == EnsureSpec(old(Snapshot()), i, answers)
    {
      var expected, run := starts[i].observation, starts[i].operation;
      var pod, service, credential := At(pods, run), At(services, run), secret;
      if !ValidObservation(expected) || !Launchable(expected, pod, service, credential) || !answers.volume || blocked {
        return false;
      }
      var progress := Observation(Uid(pod), Uid(service), Uid(credential), false, 0);
      ok := Checkpoint(i, progress);
      if !ok {
        return;
      }
      ok := EnsureMissing(i, progress);
      if !ok {
        return;
      }
      ok := Checkpoint(i, Progress(Snapshot(), run).(ready := answers.ready));
    }

    method EnsureCredential(i: nat, recorded: Observation) returns (ok: bool, progress: Observation)
      requires i < |starts| && recorded == Progress(Snapshot(), starts[i].operation)
      modifies this
      ensures Outcome(Snapshot(), ok) == EnsureSecret(old(Snapshot()), i)
      ensures i < |starts| && (ok ==> progress == Progress(Snapshot(), starts[i].operation))
    {
      ok, progress := true, recorded;
      if secret.Absent? {
        progress := progress.(secret := next);
        ok := Create(Secret, 0);
        if ok {
          ok := Checkpoint(i, progress);
        }
      }
    }

    method EnsureEndpoint(i: nat, recorded: Observation) returns (ok: bool, progress: Observation)
      requires i < |starts| && recorded == Progress(Snapshot(), starts[i].operation)
      modifies this
      ensures Outcome(Snapshot(), ok) == AppInstances.EnsureService(old(Snapshot()), i)
      ensures i < |starts| && (ok ==> progress == Progress(Snapshot(), starts[i].operation))
    {
      var run := starts[i].operation;
      ok, progress := true, recorded;
      if At(services, run).Absent? {
        progress := progress.(service := next);
        ok := Create(Service, run);
        if ok {
          ok := Checkpoint(i, progress);
        }
      }
    }

    method EnsureProcess(i: nat, recorded: Observation) returns (ok: bool)
      requires i < |starts| && recorded == Progress(Snapshot(), starts[i].operation)
      modifies this
      ensures Outcome(Snapshot(), ok) == AppInstances.EnsurePod(old(Snapshot()), i)
    {
      var run := starts[i].operation;
      ok := true;
      if At(pods, run).Absent? {
        var progress := recorded.(pod := next);
        ok := Create(Pod, run);
        if ok {
          ok := Checkpoint(i, progress);
        }
      }
    }

    method EnsureMissing(i: nat, recorded: Observation) returns (ok: bool)
      requires i < |starts| && recorded == Progress(Snapshot(), starts[i].operation)
      modifies this
      ensures Outcome(Snapshot(), ok) == EnsureObjects(old(Snapshot()), i)
    {
      var progress;
      ok, progress := EnsureCredential(i, recorded);
      if ok {
        ok, progress := EnsureEndpoint(i, progress);
      }
      if ok {
        ok := EnsureProcess(i, progress);
      }
    }

    method AdvanceResources(operation: Id, generation: nat, answers: Answers) returns (ok: bool)
      modifies this
      ensures Outcome(Snapshot(), ok) == AdvanceSpec(old(Snapshot()), operation, generation, answers)
      ensures AppInstanceRuns.Invariant(old(Snapshot())) ==> AppInstanceRuns.Invariant(Snapshot())
    {
      if AppInstanceRuns.Invariant(Snapshot()) {
        AppInstanceSafety.AdvanceKeeps(Snapshot(), operation, generation, answers);
      }
      var found := Lookup(operation);
      if found.None? || starts[found.value].generation != generation {
        return false;
      }
      var i := found.value;
      var r := starts[i];
      if !r.phase.Accepted? && !r.phase.Launching? && !r.phase.Running? {
        return false;
      }
      if r.phase.Running? {
        ok := r.observation.boot != 0 && answers.volume && answers.ready && Observable(Snapshot(), r)
          && answers.boot == r.observation.boot;
        return;
      }
      ok := EnsureWorker(i, answers);
      if ok && starts[i].observation.ready {
        if answers.boot == 0 {
          return false;
        }
        ok := Checkpoint(i, starts[i].observation.(boot := answers.boot));
      }
    }

    method CommitStop(i: nat, stop: Id, phase: StopPhase, proof: Proof) returns (ok: bool)
      requires i < |starts| && stop in stops
      modifies this
      ensures Outcome(Snapshot(), ok) == CheckpointStop(old(Snapshot()), i, stop, phase, proof)
    {
      var r, s := starts[i], stops[stop];
      var valid := s.phase.StopAccepted? && phase.Sealed?;
      if !s.phase.StopAccepted? {
        valid := Stage(phase) == Stage(s.phase) + 1 && Some(proof) == s.proof;
      }
      if budget == 0 || !valid || !r.phase.Stopping? || proof.stop != stop || proof.boot != s.boot {
        return false;
      }
      stops := stops[stop := s.(phase := phase, proof := Some(proof), revision := s.revision + 1)];
      if phase.StopDone? {
        starts := starts[i := r.(phase := Stopped, revision := r.revision + 1)];
      }
      log, budget := log + [StopRecorded(s.run, phase, proof)], budget - 1;
      ok := true;
    }

    /** Commits the intent, then deletes the Pod or records that it is gone. */
    method EndPod(i: nat, stop: Id, proof: Proof) returns (ok: bool)
      requires i < |starts| && stop in stops
      modifies this
      ensures Outcome(Snapshot(), ok) == RemovePod(old(Snapshot()), i, stop, proof)
    {
      var run := starts[i].operation;
      var pod := At(pods, run);
      if stops[stop].phase.Sealed? {
        ok := CommitStop(i, stop, PodDeleteRequested, proof);
        if !ok {
          return;
        }
      }
      if stops[stop].phase.PodDeleteRequested? {
        if pod.Absent? {
          ok := CommitStop(i, stop, PodDeleted, proof);
          return;
        }
        if !pod.terminating {
          if budget == 0 {
            return false;
          }
          pods := pods[run := Present(pod.uid, true)];
          log, budget := log + [Deletion(Pod, run, pod.uid)], budget - 1;
        }
      }
      ok := true;
    }

    /** The same for the Service, only once the Pod is recorded as gone. */
    method EndService(i: nat, stop: Id, proof: Proof) returns (ok: bool)
      requires i < |starts| && stop in stops
      modifies this
      ensures Outcome(Snapshot(), ok) == RemoveService(old(Snapshot()), i, stop, proof)
    {
      var run := starts[i].operation;
      var service := At(services, run);
      if stops[stop].phase.PodDeleted? {
        ok := CommitStop(i, stop, ServiceDeleteRequested, proof);
        if !ok {
          return;
        }
      }
      if stops[stop].phase.ServiceDeleteRequested? {
        if service.Absent? {
          ok := CommitStop(i, stop, StopDone, proof);
          return;
        }
        if !service.terminating {
          if budget == 0 {
            return false;
          }
          services := services[run := Present(service.uid, true)];
          log, budget := log + [Deletion(Service, run, service.uid)], budget - 1;
        }
      }
      ok := true;
    }

    /** Validates everything it can read before the first effect. */
    method RemoveWorker(i: nat, stop: Id, answers: Answers) returns (ok: bool)
      requires i < |starts| && stop in stops
      modifies this
      ensures Outcome(Snapshot(), ok) == RemoveSpec(old(Snapshot()), i, stop, answers)
    {
      var r, s := starts[i], stops[stop];
      if s.proof != Some(StopProof(r, stop)) || s.phase.StopAccepted? || r.observation.pod == 0
         || r.observation.boot == 0 || !ValidObservation(r.observation) {
        return false;
      }
      if !answers.node || !Removable(Snapshot(), r, Stage(s.phase)) || !answers.volume {
        return false;
      }
      ok := EndPod(i, stop, s.proof.value);
      if ok {
        ok := EndService(i, stop, s.proof.value);
      }
    }

    /** Stop row and start phase change in one transaction. */
    method BeginStop(i: nat, stop: Id, boot: Id) returns (ok: bool)
      requires i < |starts|
      modifies this
      ensures Outcome(Snapshot(), ok) == AcceptStop(old(Snapshot()), i, stop, boot)
    {
      var r := starts[i];
      if stop in stops {
        return SameStop(r, stop, stops[stop], boot);
      }
      if !r.phase.Running? || r.observation.boot != boot || budget == 0 {
        return false;
      }
      stops := stops[stop := StopRow(r.operation, boot, StopAccepted, None, 1)];
      starts := starts[i := r.(phase := Stopping, revision := r.revision + 1)];
      budget := budget - 1;
      ok := true;
    }

    /** Seals an accepted stop over the worker that is there. */
    method Seal(i: nat, stop: Id, answers: Answers) returns (ok: bool)
      requires i < |starts| && stop in stops
      modifies this
      ensures Outcome(Snapshot(), ok) == SealStop(old(Snapshot()), i, stop, answers)
    {
      if !stops[stop].phase.StopAccepted? {
        return true;
      }
      if !Observable(Snapshot(), starts[i]) || !answers.volume || !answers.sealed {
        return false;
      }
      ok := CommitStop(i, stop, Sealed, StopProof(starts[i], stop));
    }

    method Stop(operation: Id, generation: nat, stop: Id, boot: Id, answers: Answers) returns (ok: bool)
      modifies this
      ensures Outcome(Snapshot(), ok) == StopSpec(old(Snapshot()), operation, generation, stop, boot, answers)
      ensures AppInstanceRuns.Invariant(old(Snapshot())) ==> AppInstanceRuns.Invariant(Snapshot())
    {
      if AppInstanceRuns.Invariant(Snapshot()) {
        AppInstanceSafety.StopKeeps(Snapshot(), operation, generation, stop, boot, answers);
      }
      var found := Lookup(operation);
      if stop == 0 || stop == operation || boot == 0 || found.None? || starts[found.value].generation != generation {
        return false;
      }
      var i := found.value;
      ok := BeginStop(i, stop, boot);
      if !ok {
        return;
      }
      if stops[stop].phase.StopDone? {
        return true;
      }
      ok := Seal(i, stop, answers);
      if !ok {
        return;
      }
      ok := RemoveWorker(i, stop, answers);
    }
  }
}
