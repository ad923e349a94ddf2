/** Which answers of the outside world each durable step of an App instance
    rests on. */
module AppInstanceEvidence {
  import opened Wrappers
  import opened AppInstances

  /** The same stops are sealed, and no start began to run. */
  ghost predicate Unanswered(w: World, v: World) {
    && v.stops.Keys == w.stops.Keys && |v.starts| == |w.starts|
    && (forall s :: s in w.stops ==> v.stops[s].proof.Some? == w.stops[s].proof.Some?)
    && (forall i :: 0 <= i < |w.starts| && v.starts[i].phase.Running? ==> w.starts[i].phase.Running?)
  }

  lemma UnansweredChains(u: World, v: World, w: World)
    requires Unanswered(u, v) && Unanswered(v, w)
    ensures Unanswered(u, w)
  {
    assert forall s :: s in v.stops <==> s in v.stops.Keys;
  }

  lemma RemovalIsUnanswered(w: World, i: nat, stop: Id, answers: Answers)
    requires i < |w.starts| && stop in w.stops
    ensures Unanswered(w, RemoveSpec(w, i, stop, answers).world)
  {
    var s := w.stops[stop];
    if s.proof == Some(StopProof(w.starts[i], stop)) && !s.phase.StopAccepted? {
      PodRemovalIsUnanswered(w, i, stop, s.proof.value);
      var gone := RemovePod(w, i, stop, s.proof.value);
      ServiceRemovalIsUnanswered(gone.world, i, stop, s.proof.value);
      if gone.ok {
        UnansweredChains(w, gone.world, RemoveService(gone.world, i, stop, s.proof.value).world);
      }
    }
  }

  /** A stop commit over an existing proof is no new seal. */
  lemma CommitIsUnanswered(w: World, i: nat, stop: Id, next: StopPhase, proof: Proof)
    requires i < |w.starts| && stop in w.stops && w.stops[stop].proof.Some?
    ensures Unanswered(w, CheckpointStop(w, i, stop, next, proof).world)
    ensures
      var v := CheckpointStop(w, i, stop, next, proof).world;
      |v.starts| == |w.starts| && stop in v.stops && v.stops[stop].proof.Some?
  {
  }

  /** Nor are a commit and what follows it, a second commit or a deletion. */
  lemma CommitsAreUnanswered(w: World, i: nat, stop: Id, intent: World, next: StopPhase, proof: Proof)
    requires i < |w.starts| && stop in w.stops && w.stops[stop].proof.Some?
    requires intent == w || exists first :: intent == CheckpointStop(w, i, stop, first, proof).world
    ensures |intent.starts| == |w.starts| && stop in intent.stops && intent.stops[stop].proof.Some?
    ensures Unanswered(w, intent) && Unanswered(w, CheckpointStop(intent, i, stop, next, proof).world)
    ensures CheckpointStop(intent, i, stop, next, proof).world.stops[stop].proof.Some?
  {
    if intent != w {
      var first :| intent == CheckpointStop(w, i, stop, first, proof).world;
      CommitIsUnanswered(w, i, stop, first, proof);
    }
    CommitIsUnanswered(intent, i, stop, next, proof);
    UnansweredChains(w, intent, CheckpointStop(intent, i, stop, next, proof).world);
  }

  lemma PodRemovalIsUnanswered(w: World, i: nat, stop: Id, proof: Proof)
    requires i < |w.starts| && stop in w.stops && w.stops[stop].proof.Some?
    ensures Unanswered(w, RemovePod(w, i, stop, proof).world)
    ensures RemovePod(w, i, stop, proof).world.stops[stop].proof.Some?
  {
    var intent := if w.stops[stop].phase.Sealed? then CheckpointStop(w, i, stop, PodDeleteRequested, proof).world
      else w;
    CommitsAreUnanswered(w, i, stop, intent, PodDeleted, proof);
  }

  lemma ServiceRemovalIsUnanswered(w: World, i: nat, stop: Id, proof: Proof)
    requires i < |w.starts| && stop in w.stops && w.stops[stop].proof.Some?
    ensures Unanswered(w, RemoveService(w, i, stop, proof).world)
  {
    var intent :=
      if w.stops[stop].phase.PodDeleted? then CheckpointStop(w, i, stop, ServiceDeleteRequested, proof).world else w;
    CommitsAreUnanswered(w, i, stop, intent, StopDone, proof);
  }

  /** A stop is sealed only in a call of its own in which the stopper answered
      over the untouched worker, with its Pod, Service and Secret as recorded. */
  lemma SealIsAnswered(w: World, operation: Id, generation: nat, stop: Id, boot: Id, answers: Answers, s: Id)
    ensures
      var v := StopSpec(w, operation, generation, stop, boot, answers).world;
      s in v.stops && v.stops[s].proof.Some? && (s in w.stops ==> w.stops[s].proof.None?) ==>
        && s == stop && answers.sealed && answers.volume
        && exists i :: 0 <= i < |w.starts| && w.starts[i].operation == operation && Observable(w, w.starts[i])
  {
    var found := Find(w.starts, operation);
    if found.Some? {
      var i := found.value;
      var accepted := AcceptStop(w, i, stop, boot);
      if accepted.ok {
        AcceptedIsUnsealed(w, i, stop, boot, s);
        SealingIsAnswered(accepted.world, i, stop, answers, s);
        RemovalIsUnanswered(SealStop(accepted.world, i, stop, answers).world, i, stop, answers);
      }
    }
  }

  lemma AcceptedIsUnsealed(w: World, i: nat, stop: Id, boot: Id, s: Id)
    requires i < |w.starts|
    ensures
      var v := AcceptStop(w, i, stop, boot).world;
      && (s in v.stops && v.stops[s].proof.Some? ==> s in w.stops && w.stops[s].proof.Some?)
      && v.pods == w.pods && v.services == w.services && v.secret == w.secret
      && v.starts[i].operation == w.starts[i].operation && v.starts[i].observation == w.starts[i].observation
  {
  }

  lemma SealingIsAnswered(w: World, i: nat, stop: Id, answers: Answers, s: Id)
    requires i < |w.starts| && stop in w.stops
    ensures
      var v := SealStop(w, i, stop, answers).world;
      s in v.stops && v.stops[s].proof.Some? ==>
        || (s in w.stops && w.stops[s].proof.Some?)
        || (s == stop && answers.sealed && answers.volume && Observable(w, w.starts[i]))
  {
  }

  lemma CheckpointIsUnanswered(w: World, i: nat, next: Observation)
    requires i < |w.starts| && next.boot == 0
    ensures Unanswered(w, CheckpointStart(w, i, next).world)
  {
  }

  lemma ObjectIsUnanswered(w: World, i: nat, made: World, next: Observation)
    requires i < |w.starts| && made.starts == w.starts && made.stops == w.stops && next.boot == 0
    ensures Unanswered(w, made) && Unanswered(w, CheckpointStart(made, i, next).world)
  {
    CheckpointIsUnanswered(made, i, next);
    UnansweredChains(w, made, CheckpointStart(made, i, next).world);
  }

  lemma ObjectsAreUnanswered(w: World, i: nat)
    requires i < |w.starts|
    ensures Unanswered(w, EnsureSecret(w, i).world) && Unanswered(w, EnsureService(w, i).world)
    ensures Unanswered(w, EnsurePod(w, i).world)
  {
    var run := w.starts[i].operation;
    var secret, service, pod := CreateSecret(w).world, CreateService(w, run).world, CreatePod(w, run).world;
    ObjectIsUnanswered(w, i, w, Progress(w, run));
    ObjectIsUnanswered(w, i, secret, Progress(secret, run));
    ObjectIsUnanswered(w, i, service, Progress(service, run));
    ObjectIsUnanswered(w, i, pod, Progress(pod, run));
  }

  lemma EnsuringIsUnanswered(w: World, i: nat)
    requires i < |w.starts|
    ensures Unanswered(w, EnsureObjects(w, i).world)
  {
    var secret := EnsureSecret(w, i);
    ObjectsAreUnanswered(w, i);
    if secret.ok {
      var service := EnsureService(secret.world, i);
      ObjectsAreUnanswered(secret.world, i);
      UnansweredChains(w, secret.world, service.world);
      if service.ok {
        ObjectsAreUnanswered(service.world, i);
        UnansweredChains(w, service.world, EnsurePod(service.world, i).world);
      }
    }
  }

  lemma LaunchIsUnanswered(w: World, i: nat, answers: Answers)
    requires i < |w.starts|
    ensures Unanswered(w, EnsureSpec(w, i, answers).world)
  {
    var run := w.starts[i].operation;
    var first := CheckpointStart(w, i, Progress(w, run));
    CheckpointIsUnanswered(w, i, Progress(w, run));
    EnsuringIsUnanswered(first.world, i);
    var built := EnsureObjects(first.world, i);
    UnansweredChains(w, first.world, built.world);
    var last := Progress(built.world, run).(ready := answers.ready);
    CheckpointIsUnanswered(built.world, i, last);
    UnansweredChains(w, built.world, CheckpointStart(built.world, i, last).world);
    ObjectIsUnanswered(w, i, w, Progress(w, run));
  }

  lemma CheckpointBoots(w: World, i: nat, next: Observation, j: nat)
    requires i < |w.starts| && j < |w.starts| && !w.starts[j].phase.Running?
    ensures
      var v := CheckpointStart(w, i, next).world;
      && |v.starts| == |w.starts|
      && (v.starts[j].phase.Running? ==> j == i && next.boot != 0 && next.ready && v.starts[j].observation == next)
  {
  }

  lemma EnsuredIsReady(w: World, i: nat, answers: Answers)
    requires i < |w.starts|
    ensures
      var built := EnsureSpec(w, i, answers);
      built.ok ==> answers.volume && built.world.starts[i].observation.ready == answers.ready
  {
  }

  /** A start begins to run only in a call of its own in which its Pod was ready
      and gave the boot ID that is recorded. */
  lemma BootIsAnswered(w: World, operation: Id, generation: nat, answers: Answers, j: nat)
    requires j < |w.starts| && !w.starts[j].phase.Running?
    ensures
      var v := AdvanceSpec(w, operation, generation, answers).world;
      && |v.starts| == |w.starts|
      && (v.starts[j].phase.Running? ==>
            && w.starts[j].operation == operation && w.starts[j].generation == generation
            && answers.ready && answers.volume && answers.boot != 0 && v.starts[j].observation.boot == answers.boot)
  {
    var found := Find(w.starts, operation);
    if found.Some? {
      var i := found.value;
      var built := EnsureSpec(w, i, answers);
      LaunchIsUnanswered(w, i, answers);
      EnsuredIsReady(w, i, answers);
      CheckpointBoots(built.world, i, built.world.starts[i].observation.(boot := answers.boot), j);
    }
  }
}
