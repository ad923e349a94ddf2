/** Nothing an instance has recorded is ever taken back. */
module AppInstanceForward {
  import opened Wrappers
  import opened AppInstances
  import opened AppInstanceRuns
  import opened AppInstanceSafety

  function Rank(p: StartPhase): nat {
    match p
    case Accepted => 0
    case Launching => 1
    case Running => 2
    case Stopping => 3
    case Stopped => 4
  }

  /** An acknowledged object stays the same one, or is gone for good. */
  predicate Lasting(was: Object, recorded: Id, now: Object) {
    recorded != 0 && now.Present? ==> was.Present? && was.uid == now.uid
  }

  /** Recorded UIDs, the boot ID and the run's place never change. */
  predicate RowGrows(r: StartRow, q: StartRow) {
    && q.operation == r.operation && q.generation == r.generation && q.profile == r.profile && q.epoch == r.epoch
    && Rank(r.phase) <= Rank(q.phase)
    && (r.observation.secret != 0 ==> q.observation.secret == r.observation.secret)
    && (r.observation.service != 0 ==> q.observation.service == r.observation.service)
    && (r.observation.pod != 0 ==> q.observation.pod == r.observation.pod)
    && (r.observation.boot != 0 ==> q.observation.boot == r.observation.boot)
  }

  predicate RowForward(w: World, v: World, i: nat)
    requires i < |w.starts| <= |v.starts|
  {
    var r := w.starts[i];
    && RowGrows(r, v.starts[i])
    && Lasting(At(w.pods, r.operation), r.observation.pod, At(v.pods, r.operation))
    && Lasting(At(w.services, r.operation), r.observation.service, At(v.services, r.operation))
    && (r.epoch == w.epoch == v.epoch ==> Lasting(w.secret, r.observation.secret, v.secret))
  }

  predicate StopForward(s: StopRow, t: StopRow) {
    && t.run == s.run && t.boot == s.boot && Stage(s.phase) <= Stage(t.phase)
    && (s.proof.Some? ==> t.proof == s.proof)
  }

  ghost predicate Forward(w: World, v: World) {
    && |w.starts| <= |v.starts| && w.log <= v.log && w.epoch <= v.epoch
    && (forall i :: 0 <= i < |w.starts| ==> RowForward(w, v, i))
    && (forall s :: s in w.stops ==> s in v.stops && StopForward(w.stops[s], v.stops[s]))
  }

  lemma Chains(w: World, u: World, v: World)
    requires Forward(w, u) && Forward(u, v)
    ensures Forward(w, v)
  {
    forall i | 0 <= i < |w.starts| ensures RowForward(w, v, i) {
      assert RowForward(w, u, i) && RowForward(u, v, i);
    }
  }

  lemma CheckpointForward(w: World, i: nat, next: Observation)
    requires i < |w.starts|
    ensures Forward(w, CheckpointStart(w, i, next).world)
  {
  }

  lemma Stays(w: World)
    ensures Forward(w, w)
  {
  }

  /** Creating an object the row has not recorded disturbs no recorded one. */
  lemma CreateServiceForward(w: World, i: nat)
    requires i < |w.starts| && w.starts[i].observation.service == 0
    requires forall j :: 0 <= j < |w.starts| && j != i ==> w.starts[j].operation != w.starts[i].operation
    ensures Forward(w, CreateService(w, w.starts[i].operation).world)
  {
  }

  lemma CreatePodForward(w: World, i: nat)
    requires i < |w.starts| && w.starts[i].observation.pod == 0
    requires forall j :: 0 <= j < |w.starts| && j != i ==> w.starts[j].operation != w.starts[i].operation
    ensures Forward(w, CreatePod(w, w.starts[i].operation).world)
  {
  }

  lemma CreateSecretForward(w: World, i: nat)
    requires Ledger(w) && i < |w.starts| && w.starts[i].observation.secret == 0 && CanLaunch(w.starts[i].phase)
    ensures Forward(w, CreateSecret(w).world)
  {
    assert StartOk(w.starts, i);
    SecretIsInherited(w, i);
  }

  lemma SecretForward(w: World, i: nat)
    requires Invariant(w) && Synced(w, i)
    ensures Forward(w, EnsureSecret(w, i).world)
  {
    if w.secret.Absent? {
      CreateSecretForward(w, i);
      var made := CreateSecret(w);
      if made.ok {
        CheckpointForward(made.world, i, Progress(made.world, w.starts[i].operation));
        Chains(w, made.world, EnsureSecret(w, i).world);
      }
    }
  }

  lemma ServiceForward(w: World, i: nat)
    requires Invariant(w) && Synced(w, i)
    ensures Forward(w, EnsureService(w, i).world)
  {
    var run := w.starts[i].operation;
    if At(w.services, run).Absent? {
      CreateServiceForward(w, i);
      var made := CreateService(w, run);
      if made.ok {
        CheckpointForward(made.world, i, Progress(made.world, run));
        Chains(w, made.world, EnsureService(w, i).world);
      }
    }
  }

  lemma PodForward(w: World, i: nat)
    requires Invariant(w) && Synced(w, i)
    ensures Forward(w, EnsurePod(w, i).world)
  {
    var run := w.starts[i].operation;
    if At(w.pods, run).Absent? {
      CreatePodForward(w, i);
      var made := CreatePod(w, run);
      if made.ok {
        CheckpointForward(made.world, i, Progress(made.world, run));
        Chains(w, made.world, EnsurePod(w, i).world);
      }
    }
  }

  lemma ObjectsForward(w: World, i: nat)
    requires Invariant(w) && Synced(w, i)
    requires Launchable(w.starts[i].observation, At(w.pods, w.starts[i].operation),
                        At(w.services, w.starts[i].operation), w.secret)
    ensures Forward(w, EnsureObjects(w, i).world)
  {
    SecretForward(w, i);
    SecretEnsured(w, i);
    var secret := EnsureSecret(w, i);
    if secret.ok {
      ServiceForward(secret.world, i);
      ServiceEnsured(secret.world, i);
      var service := EnsureService(secret.world, i);
      Chains(w, secret.world, service.world);
      if service.ok {
        PodForward(service.world, i);
        Chains(w, service.world, EnsurePod(service.world, i).world);
      }
    }
  }

  /** Where a launch may have stopped. */
  lemma EnsureCases(w: World, i: nat, answers: Answers) returns (first: World, built: World)
    requires i < |w.starts|
    ensures first == w || (first == CheckpointStart(w, i, Progress(w, w.starts[i].operation)).world
                           && CheckpointStart(w, i, Progress(w, w.starts[i].operation)).ok
                           && !w.blocked
                           && Launchable(w.starts[i].observation, At(w.pods, w.starts[i].operation),
                                         At(w.services, w.starts[i].operation), w.secret))
    ensures |first.starts| == |w.starts| == |built.starts|
    ensures built == first || (first != w && built == EnsureObjects(first, i).world)
    ensures
      var o := EnsureSpec(w, i, answers);
      || o.world == built
      || o.world == CheckpointStart(built, i, Progress(built, w.starts[i].operation).(ready := answers.ready)).world
  {
    var run := w.starts[i].operation;
    var checked := CheckpointStart(w, i, Progress(w, run));
    first, built := w, w;
    if checked.ok && Launchable(w.starts[i].observation, At(w.pods, run), At(w.services, run), w.secret)
       && answers.volume && !w.blocked {
      first := checked.world;
      built := EnsureObjects(first, i).world;
    }
  }

  lemma RelaunchIsLaunchable(w: World, i: nat)
    requires i < |w.starts| && ObjectsOk(w, i) && CheckpointStart(w, i, Progress(w, w.starts[i].operation)).ok
    requires Launchable(w.starts[i].observation, At(w.pods, w.starts[i].operation),
                        At(w.services, w.starts[i].operation), w.secret)
    ensures
      var v := CheckpointStart(w, i, Progress(w, w.starts[i].operation)).world;
      Launchable(v.starts[i].observation, At(v.pods, v.starts[i].operation), At(v.services, v.starts[i].operation),
                 v.secret)
  {
  }

  lemma BuildForward(w: World, i: nat)
    requires Invariant(w) && i < |w.starts| && CheckpointStart(w, i, Progress(w, w.starts[i].operation)).ok
    requires !w.blocked
    requires Launchable(w.starts[i].observation, At(w.pods, w.starts[i].operation),
                        At(w.services, w.starts[i].operation), w.secret)
    ensures Forward(w, EnsureObjects(CheckpointStart(w, i, Progress(w, w.starts[i].operation)).world, i).world)
  {
    var progress := Progress(w, w.starts[i].operation);
    var first := CheckpointStart(w, i, progress).world;
    CheckpointForward(w, i, progress);
    CheckpointKeeps(w, i, progress);
    RelaunchIsLaunchable(w, i);
    ObjectsForward(first, i);
    Chains(w, first, EnsureObjects(first, i).world);
  }

  lemma EnsureForward(w: World, i: nat, answers: Answers)
    requires Invariant(w) && i < |w.starts|
    ensures Forward(w, EnsureSpec(w, i, answers).world)
  {
    var first, built := EnsureCases(w, i, answers);
    if first == w {
      Stays(w);
    } else {
      CheckpointForward(w, i, Progress(w, w.starts[i].operation));
      BuildForward(w, i);
    }
    assert Forward(w, built);
    var last := Progress(built, w.starts[i].operation).(ready := answers.ready);
    CheckpointForward(built, i, last);
    Chains(w, built, CheckpointStart(built, i, last).world);
  }

  lemma LaunchForward(w: World, i: nat, answers: Answers)
    requires Invariant(w) && i < |w.starts|
    ensures
      var built := EnsureSpec(w, i, answers);
      && Forward(w, built.world)
      && Forward(w, CheckpointStart(built.world, i, built.world.starts[i].observation.(boot := answers.boot)).world)
  {
    EnsureForward(w, i, answers);
    var built := EnsureSpec(w, i, answers);
    var last := built.world.starts[i].observation.(boot := answers.boot);
    CheckpointForward(built.world, i, last);
    Chains(w, built.world, CheckpointStart(built.world, i, last).world);
  }

  lemma AdvanceForward(w: World, operation: Id, generation: nat, answers: Answers)
    requires Invariant(w)
    ensures Forward(w, AdvanceSpec(w, operation, generation, answers).world)
  {
    Stays(w);
    var found := Find(w.starts, operation);
    if found.Some? {
      LaunchForward(w, found.value, answers);
    }
  }

  lemma AcceptedForward(w: World, v: World, row: StartRow)
    requires Accepts(w, v, row) && EpochsOk(w)
    ensures Forward(w, v)
  {
  }

  lemma AcceptForward(w: World, operation: Id, generation: nat, profile: Profile, found: Holder, volume: bool)
    requires Invariant(w)
    ensures Forward(w, AcceptStart(w, operation, generation, profile, found, volume).world)
  {
    AcceptCases(w, operation, generation, profile, found, volume);
    var v := AcceptStart(w, operation, generation, profile, found, volume).world;
    if v == w {
      Stays(w);
    } else {
      AcceptedForward(w, v, v.starts[|v.starts| - 1]);
    }
  }

  lemma AcceptStopForward(w: World, i: nat, stop: Id, boot: Id)
    requires i < |w.starts|
    ensures Forward(w, AcceptStop(w, i, stop, boot).world)
  {
  }

  lemma CheckpointStopForward(w: World, i: nat, stop: Id, next: StopPhase, proof: Proof)
    requires i < |w.starts| && stop in w.stops && (w.stops[stop].proof.Some? ==> w.stops[stop].proof == Some(proof))
    ensures Forward(w, CheckpointStop(w, i, stop, next, proof).world)
  {
  }

  lemma DeleteForward(w: World, run: Id)
    ensures Forward(w, DeletePod(w, run).world)
    ensures Forward(w, DeleteService(w, run).world)
  {
  }

  lemma RemovePodForward(w: World, i: nat, stop: Id, proof: Proof)
    requires i < |w.starts| && stop in w.stops && w.stops[stop].proof == Some(proof)
    ensures Forward(w, RemovePod(w, i, stop, proof).world)
  {
    var run := w.starts[i].operation;
    var intent := if w.stops[stop].phase.Sealed? then CheckpointStop(w, i, stop, PodDeleteRequested, proof)
      else Outcome(w, true);
    CheckpointStopForward(w, i, stop, PodDeleteRequested, proof);
    CheckpointStopForward(intent.world, i, stop, PodDeleted, proof);
    DeleteForward(intent.world, run);
    Chains(w, intent.world, CheckpointStop(intent.world, i, stop, PodDeleted, proof).world);
    Chains(w, intent.world, DeletePod(intent.world, run).world);
  }

  lemma RemoveServiceForward(w: World, i: nat, stop: Id, proof: Proof)
    requires i < |w.starts| && stop in w.stops && w.stops[stop].proof == Some(proof)
    ensures Forward(w, RemoveService(w, i, stop, proof).world)
  {
    var run := w.starts[i].operation;
    var intent := if w.stops[stop].phase.PodDeleted? then CheckpointStop(w, i, stop, ServiceDeleteRequested, proof)
      else Outcome(w, true);
    CheckpointStopForward(w, i, stop, ServiceDeleteRequested, proof);
    CheckpointStopForward(intent.world, i, stop, StopDone, proof);
    DeleteForward(intent.world, run);
    Chains(w, intent.world, CheckpointStop(intent.world, i, stop, StopDone, proof).world);
    Chains(w, intent.world, DeleteService(intent.world, run).world);
  }

  lemma RemoveForward(w: World, i: nat, stop: Id, answers: Answers)
    requires i < |w.starts| && stop in w.stops
    ensures Forward(w, RemoveSpec(w, i, stop, answers).world)
  {
    if w.stops[stop].proof == Some(StopProof(w.starts[i], stop)) {
      var proof := w.stops[stop].proof.value;
      var gone := RemovePod(w, i, stop, proof);
      RemovePodForward(w, i, stop, proof);
      RemovePodKeepsProof(w, i, stop, proof);
      RemoveServiceForward(gone.world, i, stop, proof);
      Chains(w, gone.world, RemoveService(gone.world, i, stop, proof).world);
    }
  }

  /** Sealing and removing, after the stop was accepted. */
  lemma FinishForward(w: World, i: nat, stop: Id, answers: Answers)
    requires i < |w.starts| && stop in w.stops && StopOk(w, stop, i) && w.stops[stop].run == w.starts[i].operation
    ensures
      var sealed := SealStop(w, i, stop, answers);
      Forward(w, sealed.world) && Forward(w, RemoveSpec(sealed.world, i, stop, answers).world)
  {
    Stays(w);
    if w.stops[stop].phase.StopAccepted? {
      CheckpointStopForward(w, i, stop, Sealed, StopProof(w.starts[i], stop));
    }
    var sealed := SealStop(w, i, stop, answers);
    RemoveForward(sealed.world, i, stop, answers);
    Chains(w, sealed.world, RemoveSpec(sealed.world, i, stop, answers).world);
  }

  lemma StopForwards(w: World, operation: Id, generation: nat, stop: Id, boot: Id, answers: Answers)
    requires Invariant(w)
    ensures Forward(w, StopSpec(w, operation, generation, stop, boot, answers).world)
  {
    Stays(w);
    var found := Find(w.starts, operation);
    if stop != 0 && stop != operation && found.Some? {
      var i := found.value;
      AcceptStopForward(w, i, stop, boot);
      AcceptStopKeeps(w, i, stop, boot);
      var accepted := AcceptStop(w, i, stop, boot);
      if accepted.ok {
        var sealed := SealStop(accepted.world, i, stop, answers);
        FinishForward(accepted.world, i, stop, answers);
        Chains(w, accepted.world, sealed.world);
        Chains(w, accepted.world, RemoveSpec(sealed.world, i, stop, answers).world);
      }
    }
  }

  lemma BudgetForward(w: World, budget: nat, v: World)
    requires Forward(w.(budget := budget), v)
    ensures Forward(w, v)
  {
    forall i | 0 <= i < |w.starts| ensures RowForward(w, v, i) {
      assert RowForward(w.(budget := budget), v, i);
    }
  }

  /** Objects are kept or gone, and no row changes. */
  ghost predicate Shrinks(w: World, v: World) {
    && v.starts == w.starts && v.stops == w.stops && v.log == w.log && v.epoch == w.epoch
    && (v.secret == w.secret || v.secret.Absent?)
    && (forall run :: At(v.pods, run) == At(w.pods, run) || At(v.pods, run).Absent?)
    && (forall run :: At(v.services, run) == At(w.services, run) || At(v.services, run).Absent?)
  }

  lemma EventShrinks(w: World, e: Event)
    requires !e.AcceptCall? && !e.AdvanceCall? && !e.StopCall?
    ensures Shrinks(w, Step(w, e))
  {
  }

  lemma ShrinkingForward(w: World, v: World)
    requires Shrinks(w, v)
    ensures Forward(w, v)
  {
  }

  lemma DisappearanceForward(w: World, e: Event)
    requires !e.AcceptCall? && !e.AdvanceCall? && !e.StopCall?
    ensures Forward(w, Step(w, e))
  {
    EventShrinks(w, e);
    ShrinkingForward(w, Step(w, e));
  }

  lemma StepForward(w: World, e: Event)
    requires Invariant(w)
    ensures Forward(w, Step(w, e))
  {
    match e {
      case AcceptCall(operation, generation, profile, found, volume, budget) =>
        BudgetIsNeutral(w, budget);
        AcceptForward(w.(budget := budget), operation, generation, profile, found, volume);
        BudgetForward(w, budget, Step(w, e));
      case AdvanceCall(operation, generation, answers, budget) =>
        BudgetIsNeutral(w, budget);
        AdvanceForward(w.(budget := budget), operation, generation, answers);
        BudgetForward(w, budget, Step(w, e));
      case StopCall(operation, generation, stop, boot, answers, budget) =>
        BudgetIsNeutral(w, budget);
        StopForwards(w.(budget := budget), operation, generation, stop, boot, answers);
        BudgetForward(w, budget, Step(w, e));
      case _ =>
        DisappearanceForward(w, e);
    }
  }
}
