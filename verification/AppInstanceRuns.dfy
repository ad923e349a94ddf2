/** Every history of one App instance: calls in any order that may die after any
    effect, deletions that finish in their own time, and foreign deletions. */
module AppInstanceRuns {
  import opened Wrappers
  import opened AppInstances

  datatype Event =
    | AcceptCall(operation: Id, generation: nat, profile: Profile, found: Holder, volume: bool, budget: nat)
    | AdvanceCall(operation: Id, generation: nat, answers: Answers, budget: nat)
    | StopCall(operation: Id, generation: nat, stop: Id, boot: Id, answers: Answers, budget: nat)
    | PodGone(run: Id)
    | ServiceGone(run: Id)
    | PodLost(run: Id)
    | ServiceLost(run: Id)
    | SecretLost
    /** Someone deletes the other profile's Secret that held the name. */
    | NameFreed

  const EMPTY := World(Absent, false, 0, map[], map[], [], map[], 1, [], 0, false, false)

  /** A checkpoint of the current start has recorded this object. */
  predicate Acknowledged(w: World, recorded: Observation -> Id, run: Id) {
    var found := Find(w.starts, run);
    found.Some? && recorded(w.starts[found.value].observation) != 0
  }

  function Lose(w: World, acknowledged: bool): World {
    w.(disturbed := true, lossy := w.lossy || !acknowledged)
  }

  function Step(w: World, e: Event): World {
    match e
    case AcceptCall(operation, generation, profile, found, volume, budget) =>
      AcceptStart(w.(budget := budget), operation, generation, profile, found, volume).world
    case AdvanceCall(operation, generation, answers, budget) =>
      AdvanceSpec(w.(budget := budget), operation, generation, answers).world
    case StopCall(operation, generation, stop, boot, answers, budget) =>
      StopSpec(w.(budget := budget), operation, generation, stop, boot, answers).world
    case PodGone(run) =>
      var o := At(w.pods, run);
      if o.Present? && o.terminating then w.(pods := w.pods[run := Absent]) else w
    case ServiceGone(run) =>
      var o := At(w.services, run);
      if o.Present? && o.terminating then w.(services := w.services[run := Absent]) else w
    case PodLost(run) =>
      if At(w.pods, run).Absent? then w
      else Lose(w, Acknowledged(w, (o: Observation) => o.pod, run)).(pods := w.pods[run := Absent])
    case ServiceLost(run) =>
      if At(w.services, run).Absent? then w
      else Lose(w, Acknowledged(w, (o: Observation) => o.service, run)).(services := w.services[run := Absent])
    case SecretLost =>
      if w.secret.Absent? then w
      else Lose(w, w.starts != [] && w.starts[|w.starts| - 1].observation.secret != 0).(secret := Absent)
    case NameFreed => w.(blocked := false)
  }

  function Run(events: seq<Event>): World {
    if events == [] then EMPTY else Step(Run(events[..|events| - 1]), events[|events| - 1])
  }

  // ---- The rows ----

  ghost predicate Known(starts: seq<StartRow>, run: Id) {
    exists i :: 0 <= i < |starts| && starts[i].operation == run
  }

  ghost predicate StartOk(starts: seq<StartRow>, i: nat)
    requires i < |starts|
  {
    var r := starts[i];
    && r.generation == i + 1 && ValidObservation(r.observation) && r.operation != 0
    && (r.phase.Running? || r.phase.Stopping? || r.phase.Stopped? <==> r.observation.boot != 0)
    && (r.observation.boot != 0 ==> r.observation.ready)
    && (i + 1 < |starts| ==> r.phase.Stopped? && Inherits(r, starts[i + 1]))
  }

  /** A start under the same profile shares the Secret, a changed profile begins
      an epoch of its own. */
  predicate Inherits(r: StartRow, q: StartRow) {
    if q.profile == r.profile then q.epoch == r.epoch && q.observation.secret == r.observation.secret
    else q.epoch == r.epoch + 1
  }

  ghost predicate EpochsOk(w: World) {
    && (forall i, j :: 0 <= i <= j < |w.starts| ==> w.starts[i].epoch <= w.starts[j].epoch)
    && w.epoch == if w.starts == [] then 0 else w.starts[|w.starts| - 1].epoch
  }

  ghost predicate StopOk(w: World, s: Id, i: nat)
    requires s in w.stops && i < |w.starts|
  {
    w.starts[i].operation == w.stops[s].run ==> SameStop(w.starts[i], s, w.stops[s], w.stops[s].boot)
  }

  ghost predicate HasStop(w: World, run: Id) {
    exists s :: s in w.stops && w.stops[s].run == run
  }

  ghost predicate Distinct(starts: seq<StartRow>) {
    forall i, j :: 0 <= i < j < |starts| ==> starts[i].operation != starts[j].operation
  }

  ghost predicate StopsAgree(w: World) {
    forall s, i :: s in w.stops && 0 <= i < |w.starts| ==> StopOk(w, s, i)
  }

  ghost predicate StopsKnown(w: World) {
    forall s :: s in w.stops ==> s != 0 && s != w.stops[s].run && Known(w.starts, w.stops[s].run)
  }

  ghost predicate StopsUnique(stops: map<Id, StopRow>) {
    forall s, t :: s in stops && t in stops && stops[s].run == stops[t].run ==> s == t
  }

  ghost predicate StopsExist(w: World) {
    forall i :: 0 <= i < |w.starts| && (w.starts[i].phase.Stopping? || w.starts[i].phase.Stopped?) ==>
      HasStop(w, w.starts[i].operation)
  }

  ghost predicate RowsOk(starts: seq<StartRow>) {
    forall i :: 0 <= i < |starts| ==> StartOk(starts, i)
  }

  /** Generations, phases and stop records agree. */
  ghost predicate Ledger(w: World) {
    RowsOk(w.starts) && EpochsOk(w) && Distinct(w.starts) && StopsAgree(w) && StopsKnown(w) && StopsUnique(w.stops)
      && StopsExist(w)
  }

  // ---- The objects ----

  /** Object, recorded UID and history agree about one object of a run. */
  ghost predicate Told(o: Object, recorded: Id, kind: Kind, run: Id, log: seq<Effect>) {
    && (recorded != 0 ==> Made(kind, run, recorded) in log)
    && (o.Present? ==> o.uid != 0 && Made(kind, run, o.uid) in log && (recorded == 0 || recorded == o.uid))
  }

  /** Whatever was made is either still there or acknowledged. */
  ghost predicate Accounted(o: Object, recorded: Id, kind: Kind, run: Id, log: seq<Effect>) {
    forall u :: Made(kind, run, u) in log ==> (o.Present? && o.uid == u) || recorded == u
  }

  ghost predicate ObjectsOk(w: World, i: nat)
    requires i < |w.starts|
  {
    var r := w.starts[i];
    var pod, service := At(w.pods, r.operation), At(w.services, r.operation);
    && Told(pod, r.observation.pod, Pod, r.operation, w.log)
    && Told(service, r.observation.service, Service, r.operation, w.log)
    && (r.epoch == w.epoch ==> Told(w.secret, r.observation.secret, Secret, w.epoch, w.log))
    && (!w.lossy ==> Accounted(pod, r.observation.pod, Pod, r.operation, w.log))
    && (!w.lossy ==> Accounted(service, r.observation.service, Service, r.operation, w.log))
    && (r.phase.Accepted? || r.phase.Launching? || r.phase.Running? ==>
          && (pod.Present? ==> !pod.terminating) && (service.Present? ==> !service.terminating))
    && (!w.disturbed && (r.phase.Accepted? || r.phase.Launching? || r.phase.Running?) ==>
          Launchable(r.observation, pod, service, w.secret))
    && (r.phase.Accepted? ==> pod.Absent? && service.Absent?)
    && (service.Present? ==> r.observation.secret != 0)
    && (pod.Present? ==> r.observation.service != 0)
    && (!w.disturbed && r.epoch == w.epoch && r.observation.secret != 0 ==>
          w.secret == Present(r.observation.secret, false))
  }

  /** What a stage of the removal may find, foreign deletions aside. */
  predicate StageShape(stage: int, pod: Object, service: Object, o: Observation) {
    && (stage < 1 ==> pod == Present(o.pod, false))
    && (stage == 1 ==> pod.Absent? || pod.uid == o.pod)
    && (stage < 3 ==> service == Present(o.service, false))
    && (stage == 3 ==> service.Absent? || service.uid == o.service)
  }

  /** Every stage up to the current one was committed with the same proof. */
  ghost predicate Recorded(log: seq<Effect>, stop: StopRow)
    requires stop.proof.Some?
  {
    forall q :: 0 <= Stage(q) <= Stage(stop.phase) ==> StopRecorded(stop.run, q, stop.proof.value) in log
  }

  ghost predicate StopShape(w: World, s: Id, i: nat)
    requires s in w.stops && i < |w.starts|
  {
    var r, stop := w.starts[i], w.stops[s];
    var pod, service := At(w.pods, r.operation), At(w.services, r.operation);
    r.operation == stop.run ==>
      && (stop.proof.Some? ==> Recorded(w.log, stop))
      && (Stage(stop.phase) >= 2 ==> pod.Absent?)
      && (Stage(stop.phase) >= 4 ==> service.Absent?)
      && (service.Present? && service.terminating ==> Stage(stop.phase) >= 3)
      && (pod.Present? && pod.terminating ==> Stage(stop.phase) >= 1)
      && (!w.disturbed ==> StageShape(Stage(stop.phase), pod, service, r.observation))
  }

  ghost predicate ObjectsKnown(w: World) {
    && (forall run :: At(w.pods, run).Present? || At(w.services, run).Present? ==> Known(w.starts, run))
    && (forall kind: Kind, run: Id, u: Id :: Made(kind, run, u) in w.log ==>
          u != 0 && if kind.Secret? then run <= w.epoch else Known(w.starts, run))
  }

  ghost predicate SecretOk(w: World) {
    && w.next > 0 && (w.secret.Present? ==> !w.secret.terminating)
    && (w.starts == [] ==> w.secret.Absent? && !w.blocked && w.log == [])
    && (w.starts != [] && !w.lossy ==>
          Accounted(w.secret, w.starts[|w.starts| - 1].observation.secret, Secret, w.epoch, w.log))
    && (w.blocked ==> w.secret.Absent? && w.starts[|w.starts| - 1].phase.Accepted?)
  }

  ghost predicate RowsMatch(w: World) {
    forall i :: 0 <= i < |w.starts| ==> ObjectsOk(w, i)
  }

  ghost predicate StopsMatch(w: World) {
    forall s, i :: s in w.stops && 0 <= i < |w.starts| ==> StopShape(w, s, i)
  }

  ghost predicate Objects(w: World) {
    SecretOk(w) && ObjectsKnown(w) && RowsMatch(w) && StopsMatch(w)
  }

  // ---- The history ----

  function Previous(p: StopPhase): StopPhase {
    match p
    case PodDeleteRequested => Sealed
    case PodDeleted => PodDeleteRequested
    case ServiceDeleteRequested => PodDeleted
    case StopDone => ServiceDeleteRequested
    case _ => StopAccepted
  }

  /** A committed stop step stands in the history with the given proof. */
  ghost predicate Intended(before: seq<Effect>, run: Id, phase: StopPhase, pod: Option<Id>) {
    exists proof: Proof :: proof.run == run && (pod.Some? ==> proof.pod == pod.value)
      && StopRecorded(run, phase, proof) in before && StopRecorded(run, Sealed, proof) in before
  }

  /** When an effect may follow a history. Creations happen once and in the
      order Secret, Service, Pod; deletions follow their committed intents. */
  ghost predicate Allowed(before: seq<Effect>, e: Effect, lossy: bool) {
    match e
    case Made(kind, run, _) =>
      && (lossy || forall u :: Made(kind, run, u) !in before)
      && (kind.Service? ==> exists epoch, u :: Made(Secret, epoch, u) in before)
      && (kind.Pod? ==> exists u :: Made(Service, run, u) in before)
    case StopRecorded(run, phase, proof) =>
      && proof.run == run
      && (!phase.Sealed? ==> StopRecorded(run, Previous(phase), proof) in before)
    case Deletion(kind, run, uid) =>
      && (kind.Pod? ==> Intended(before, run, PodDeleteRequested, Some(uid)))
      && (kind.Service? ==>
          Intended(before, run, ServiceDeleteRequested, None) && Intended(before, run, PodDeleted, None))
      && !kind.Secret?
  }

  ghost predicate History(log: seq<Effect>, lossy: bool) {
    forall j :: 0 <= j < |log| ==> Allowed(log[..j], log[j], lossy)
  }

  /** The proof is that of a stop accepted for this run, over the process its
      row recorded: generation, boot ID and Pod. */
  ghost predicate Proven(w: World, run: Id, proof: Proof) {
    && proof.stop in w.stops && w.stops[proof.stop].run == run
    && exists i :: 0 <= i < |w.starts| && ProofOf(w.starts[i], run, proof)
  }

  predicate ProofOf(r: StartRow, run: Id, proof: Proof) {
    r.operation == run && r.observation.boot != 0 && proof == StopProof(r, proof.stop)
  }

  ghost predicate ProofsTrue(w: World) {
    forall run, phase, proof :: StopRecorded(run, phase, proof) in w.log ==> Proven(w, run, proof)
  }

  ghost predicate Invariant(w: World) {
    Ledger(w) && Objects(w) && History(w.log, w.lossy) && ProofsTrue(w)
  }

  /** Rows of a started process stand, and no stop step was added. */
  ghost predicate ProofsStand(w: World, v: World) {
    && |w.starts| <= |v.starts|
    && (forall i :: 0 <= i < |w.starts| && w.starts[i].observation.boot != 0 ==>
          v.starts[i].(phase := w.starts[i].phase, revision := w.starts[i].revision) == w.starts[i])
    && (forall s :: s in w.stops ==> s in v.stops && v.stops[s].run == w.stops[s].run)
    && (forall run, phase, proof :: StopRecorded(run, phase, proof) in v.log ==>
        StopRecorded(run, phase, proof) in w.log)
  }

  lemma ProofsKeep(w: World, v: World)
    requires ProofsTrue(w) && ProofsStand(w, v)
    ensures ProofsTrue(v)
  {
    forall run, phase, proof | StopRecorded(run, phase, proof) in v.log ensures Proven(v, run, proof) {
      assert Proven(w, run, proof);
      var i :| 0 <= i < |w.starts| && ProofOf(w.starts[i], run, proof);
      assert ProofOf(v.starts[i], run, proof);
    }
  }

  lemma HistoryGrows(log: seq<Effect>, e: Effect, lossy: bool)
    requires History(log, lossy) && Allowed(log, e, lossy)
    ensures History(log + [e], lossy)
  {
    var longer := log + [e];
    forall j | 0 <= j < |longer| ensures Allowed(longer[..j], longer[j], lossy) {
      assert longer[..j] == log[..j];
      assert j == |log| ==> log[..j] == log;
    }
  }
}
