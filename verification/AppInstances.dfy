/** One App instance: its journal rows, its Kubernetes objects, and the
    primitive effects every operation is made of. The instance lock serialises
    the operations, so the state of one instance is one value. */
module AppInstances {
  import opened Wrappers

  /** UIDs, boot IDs and operation IDs are numbers; 0 is Go's empty string. */
  type Id = nat

  datatype Object = Absent | Present(uid: Id, terminating: bool)

  datatype Observation = Observation(pod: Id, service: Id, secret: Id, ready: bool, boot: Id)

  predicate ValidObservation(o: Observation) {
    && (o.boot != 0 ==> o.pod != 0)
    && (o.pod != 0 ==> o.secret != 0 && o.service != 0)
    && (o.service != 0 ==> o.secret != 0)
    && (o.ready ==> o.pod != 0)
  }

  predicate Monotonic(previous: Observation, next: Observation) {
    && ValidObservation(previous) && ValidObservation(next)
    && (previous.secret == 0 || previous.secret == next.secret)
    && (previous.service == 0 || previous.service == next.service)
    && (previous.pod == 0 || previous.pod == next.pod)
    && (previous.boot == 0 || previous.boot == next.boot)
  }

  /** A profile is known by its hash; it names the namespace its runs live in. */
  datatype Profile = Profile(hash: Id, namespace: Id)

  datatype StartPhase = Accepted | Launching | Running | Stopping | Stopped

  /** `epoch` counts the changes of profile up to this start. */
  datatype StartRow = StartRow(operation: Id, generation: nat, profile: Profile, epoch: nat, phase: StartPhase,
                               observation: Observation, revision: nat)

  /** The stop barrier's proof, bound to one process of one run. */
  datatype Proof = Proof(run: Id, stop: Id, generation: nat, boot: Id, pod: Id)

  datatype StopPhase = StopAccepted | Sealed | PodDeleteRequested | PodDeleted | ServiceDeleteRequested | StopDone

  function Stage(p: StopPhase): int {
    match p
    case StopAccepted => -1
    case Sealed => 0
    case PodDeleteRequested => 1
    case PodDeleted => 2
    case ServiceDeleteRequested => 3
    case StopDone => 4
  }

  datatype StopRow = StopRow(run: Id, boot: Id, phase: StopPhase, proof: Option<Proof>, revision: nat)

  function StopProof(r: StartRow, stop: Id): Proof {
    Proof(r.operation, stop, r.generation, r.observation.boot, r.observation.pod)
  }

  /** The Secret belongs to the instance under one profile, Service and Pod to a
      run. */
  datatype Kind = Secret | Service | Pod

  /** The history of effects on the cluster, with the stop commits between them.
      The Secret's entries carry the epoch for the run; one that is taken over
      when the profile changes enters the history there. */
  datatype Effect =
    | Made(kind: Kind, run: Id, uid: Id)
    | StopRecorded(run: Id, phase: StopPhase, proof: Proof)
    | Deletion(kind: Kind, run: Id, uid: Id)

  /** `secret` is the credential as the newest start's profile sees it; `blocked`
      says that its name is taken by the Secret of another profile. `pods` and
      `services` are keyed by the run that names them. `budget` is how
      many effects the current call completes before it dies or loses an answer.
      `disturbed` and `lossy` remember foreign deletions, of any object and of an
      object not yet acknowledged by a checkpoint. */
  datatype World = World(
    secret: Object, blocked: bool, epoch: nat, pods: map<Id, Object>, services: map<Id, Object>,
    starts: seq<StartRow>, stops: map<Id, StopRow>,
    next: Id, log: seq<Effect>, budget: nat, disturbed: bool, lossy: bool)

  function At(objects: map<Id, Object>, run: Id): Object {
    if run in objects then objects[run] else Absent
  }

  function Uid(o: Object): Id {
    if o.Present? then o.uid else 0
  }

  /** A live object may stand for a recorded UID: alive, and that very one. */
  predicate Matches(o: Object, recorded: Id) {
    o.Present? && !o.terminating && (recorded == 0 || recorded == o.uid)
  }

  datatype Outcome = Outcome(world: World, ok: bool)

  function Refused(w: World): Outcome {
    Outcome(w, false)
  }

  // ---- Primitive effects ----

  function CheckpointStart(w: World, i: nat, next: Observation): Outcome
    requires i < |w.starts|
  {
    var r := w.starts[i];
    if || w.budget == 0 || !Monotonic(r.observation, next)
       || !(r.phase.Accepted? || r.phase.Launching?) || (next.boot != 0 && !next.ready) then
      Refused(w)
    else
      var phase := if next.boot != 0 then Running else Launching;
      Outcome(w.(starts := w.starts[i := r.(observation := next, phase := phase, revision := r.revision + 1)],
        budget := w.budget - 1), true)
  }

  function CreateSecret(w: World): Outcome {
    if w.budget == 0 || w.secret.Present? || w.blocked then Refused(w)
    else
      Outcome(w.(secret := Present(w.next, false), next := w.next + 1, log := w.log + [Made(Secret, w.epoch, w.next)],
        budget := w.budget - 1), true)
  }

  function CreateService(w: World, run: Id): Outcome {
    if w.budget == 0 || At(w.services, run).Present? then Refused(w)
    else
      Outcome(w.(services := w.services[run := Present(w.next, false)], next := w.next + 1,
        log := w.log + [Made(Service, run, w.next)], budget := w.budget - 1), true)
  }

  function CreatePod(w: World, run: Id): Outcome {
    if w.budget == 0 || At(w.pods, run).Present? then Refused(w)
    else
      Outcome(w.(pods := w.pods[run := Present(w.next, false)], next := w.next + 1,
        log := w.log + [Made(Pod, run, w.next)], budget := w.budget - 1), true)
  }

  function CheckpointStop(w: World, i: nat, stop: Id, next: StopPhase, proof: Proof): Outcome
    requires i < |w.starts| && stop in w.stops
  {
    var r, s := w.starts[i], w.stops[stop];
    var valid :=
      if s.phase.StopAccepted? then next.Sealed?
      else Stage(next) == Stage(s.phase) + 1 && Some(proof) == s.proof;
    if w.budget == 0 || !valid || !r.phase.Stopping? || proof.stop != stop || proof.boot != s.boot then Refused(w)
    else
      var row := r.(phase := Stopped, revision := r.revision + 1);
      Outcome(w.(stops := w.stops[stop := s.(phase := next, proof := Some(proof), revision := s.revision + 1)],
        starts := if next.StopDone? then w.starts[i := row] else w.starts,
        log := w.log + [StopRecorded(s.run, next, proof)], budget := w.budget - 1), true)
  }

  function DeletePod(w: World, run: Id): Outcome {
    if w.budget == 0 || !At(w.pods, run).Present? then Refused(w)
    else
      var uid := At(w.pods, run).uid;
      Outcome(w.(pods := w.pods[run := Present(uid, true)], log := w.log + [Deletion(Pod, run, uid)],
        budget := w.budget - 1), true)
  }

  function DeleteService(w: World, run: Id): Outcome {
    if w.budget == 0 || !At(w.services, run).Present? then Refused(w)
    else
      var uid := At(w.services, run).uid;
      Outcome(w.(services := w.services[run := Present(uid, true)], log := w.log + [Deletion(Service, run, uid)],
        budget := w.budget - 1), true)
  }

  function FindFrom(starts: seq<StartRow>, operation: Id, i: nat): (r: Option<nat>)
    requires i <= |starts|
    ensures r.Some? ==> i <= r.value < |starts| && starts[r.value].operation == operation
    ensures r.None? ==> forall j :: i <= j < |starts| ==> starts[j].operation != operation
    decreases |starts| - i
  {
    if i == |starts| then None
    else if starts[i].operation == operation then Some(i)
    else FindFrom(starts, operation, i + 1)
  }

  function Find(starts: seq<StartRow>, operation: Id): (r: Option<nat>)
    ensures r.Some? ==> r.value < |starts| && starts[r.value].operation == operation
    ensures r.None? ==> forall j :: 0 <= j < |starts| ==> starts[j].operation != operation
  {
    FindFrom(starts, operation, 0)
  }

  // ---- Accepting a start ----

  /** Whose Secret holds the instance's name in a namespace. */
  datatype Holder = Nobody | Ours(uid: Id) | Another

  /** In the same namespace the name is still held by the old profile's Secret;
      in a new one the read finds what it finds. */
  function NewHolder(w: World, was: Profile, now: Profile, found: Holder): Holder {
    if now.namespace != was.namespace then (if found == Ours(0) then Nobody else found)
    else if w.secret.Present? then Another
    else Nobody
  }

  /** The credential as another profile sees it. */
  function Turned(w: World, h: Holder): World {
    w.(epoch := w.epoch + 1, blocked := h.Another?, secret := if h.Ours? then Present(h.uid, false) else Absent,
       log := if h.Ours? then w.log + [Made(Secret, w.epoch + 1, h.uid)] else w.log)
  }

  function Appended(w: World, operation: Id, generation: nat, profile: Profile, secret: Id): World {
    var row := StartRow(operation, generation, profile, w.epoch, Accepted, Observation(0, 0, secret, false, 0), 1);
    w.(starts := w.starts + [row], budget := if w.budget > 0 then w.budget - 1 else 0)
  }

  function AcceptStart(w: World, operation: Id, generation: nat, profile: Profile, found: Holder,
                       volume: bool): Outcome {
    var known := Find(w.starts, operation);
    if known.Some? then
      Outcome(w, w.starts[known.value].generation == generation && w.starts[known.value].profile == profile)
    else if generation == 0 || operation == 0 || !volume || w.budget == 0 then Refused(w)
    else if w.starts == [] then
      if generation != 1 then Refused(w) else Outcome(Appended(w, operation, generation, profile, 0), true)
    else
      var last := w.starts[|w.starts| - 1];
      if !last.phase.Stopped? || generation != last.generation + 1 || last.observation.secret == 0 then Refused(w)
      else if profile == last.profile then
        Outcome(Appended(w, operation, generation, profile, last.observation.secret), true)
      else
        var turned := Turned(w, NewHolder(w, last.profile, profile, found));
        Outcome(Appended(turned, operation, generation, profile, Uid(turned.secret)), true)
  }

  // ---- Ensuring the worker ----

  /** What the world outside answers during one call. */
  datatype Answers = Answers(volume: bool, node: bool, ready: bool, boot: Id, sealed: bool)

  /** Every existing object is validated before the first mutation. */
  predicate Launchable(expected: Observation, pod: Object, service: Object, secret: Object) {
    && (if pod.Absent? then expected.pod == 0 else Matches(pod, expected.pod))
    && (if service.Absent? then expected.service == 0 && pod.Absent? else Matches(service, expected.service))
    && (if secret.Absent? then expected.secret == 0 && pod.Absent? && service.Absent?
        else Matches(secret, expected.secret))
  }

  function Progress(w: World, run: Id): Observation {
    Observation(Uid(At(w.pods, run)), Uid(At(w.services, run)), Uid(w.secret), false, 0)
  }

  function EnsureSecret(w: World, i: nat): (o: Outcome)
    requires i < |w.starts|
    ensures |o.world.starts| == |w.starts|
  {
    if w.secret.Present? then Outcome(w, true)
    else
      var made := CreateSecret(w);
      if made.ok then CheckpointStart(made.world, i, Progress(made.world, w.starts[i].operation)) else made
  }

  function EnsureService(w: World, i: nat): (o: Outcome)
    requires i < |w.starts|
    ensures |o.world.starts| == |w.starts|
  {
    var run := w.starts[i].operation;
    if At(w.services, run).Present? then Outcome(w, true)
    else
      var made := CreateService(w, run);
      if made.ok then CheckpointStart(made.world, i, Progress(made.world, run)) else made
  }

  function EnsurePod(w: World, i: nat): (o: Outcome)
    requires i < |w.starts|
    ensures |o.world.starts| == |w.starts|
  {
    var run := w.starts[i].operation;
    if At(w.pods, run).Present? then Outcome(w, true)
    else
      var made := CreatePod(w, run);
      if made.ok then CheckpointStart(made.world, i, Progress(made.world, run)) else made
  }

  function EnsureObjects(w: World, i: nat): (o: Outcome)
    requires i < |w.starts|
    ensures |o.world.starts| == |w.starts|
  {
    var secret := EnsureSecret(w, i);
    if !secret.ok then secret
    else
      var service := EnsureService(secret.world, i);
      if !service.ok then service else EnsurePod(service.world, i)
  }

  function EnsureSpec(w: World, i: nat, answers: Answers): (o: Outcome)
    requires i < |w.starts|
    ensures |o.world.starts| == |w.starts|
  {
    var r := w.starts[i];
    var run := r.operation;
    if || !ValidObservation(r.observation) || !answers.volume || w.blocked
       || !Launchable(r.observation, At(w.pods, run), At(w.services, run), w.secret) then
      Refused(w)
    else
      var first := CheckpointStart(w, i, Progress(w, run));
      if !first.ok then first
      else
        var built := EnsureObjects(first.world, i);
        if !built.ok then built
        else CheckpointStart(built.world, i, Progress(built.world, run).(ready := answers.ready))
  }

  /** The recorded worker is there, object by object. */
  predicate Observable(w: World, r: StartRow) {
    && Matches(At(w.pods, r.operation), r.observation.pod)
    && Matches(At(w.services, r.operation), r.observation.service)
    && Matches(w.secret, r.observation.secret)
  }

  function AdvanceSpec(w: World, operation: Id, generation: nat, answers: Answers): Outcome {
    var found := Find(w.starts, operation);
    if found.None? || w.starts[found.value].generation != generation then Refused(w)
    else
      var i := found.value;
      var r := w.starts[i];
      if r.phase.Running? then
        Outcome(w, r.observation.boot != 0 && answers.volume && answers.ready && Observable(w, r)
                && answers.boot == r.observation.boot)
      else if !(r.phase.Accepted? || r.phase.Launching?) then Refused(w)
      else
        var built := EnsureSpec(w, i, answers);
        if !built.ok || !built.world.starts[i].observation.ready then built
        else if answers.boot == 0 then Refused(built.world)
        else CheckpointStart(built.world, i, built.world.starts[i].observation.(boot := answers.boot))
  }

  // ---- Stopping ----

  /** What each stage lets the reads find. */
  predicate Removable(w: World, r: StartRow, stage: int) {
    var pod, service := At(w.pods, r.operation), At(w.services, r.operation);
    && (if pod.Absent? then stage >= 1
        else pod.uid == r.observation.pod && stage < 2 && (pod.terminating ==> stage == 1))
    && (if service.Absent? then stage >= 3
        else service.uid == r.observation.service && stage < 4 && (service.terminating ==> stage == 3))
    && Matches(w.secret, r.observation.secret)
  }

  function RemovePod(w: World, i: nat, stop: Id, proof: Proof): (o: Outcome)
    requires i < |w.starts| && stop in w.stops
    ensures |o.world.starts| == |w.starts| && stop in o.world.stops
  {
    var run := w.starts[i].operation;
    var pod := At(w.pods, run);
    var intent := if w.stops[stop].phase.Sealed? then CheckpointStop(w, i, stop, PodDeleteRequested, proof)
      else Outcome(w, true);
    if !intent.ok || !intent.world.stops[stop].phase.PodDeleteRequested? then intent
    else if pod.Absent? then CheckpointStop(intent.world, i, stop, PodDeleted, proof)
    else if pod.terminating then intent
    else DeletePod(intent.world, run)
  }

  function RemoveService(w: World, i: nat, stop: Id, proof: Proof): (o: Outcome)
    requires i < |w.starts| && stop in w.stops
    ensures |o.world.starts| == |w.starts| && stop in o.world.stops
  {
    var run := w.starts[i].operation;
    var service := At(w.services, run);
    var intent :=
      if w.stops[stop].phase.PodDeleted? then CheckpointStop(w, i, stop, ServiceDeleteRequested, proof)
      else Outcome(w, true);
    if !intent.ok || !intent.world.stops[stop].phase.ServiceDeleteRequested? then intent
    else if service.Absent? then CheckpointStop(intent.world, i, stop, StopDone, proof)
    else if service.terminating then intent
    else DeleteService(intent.world, run)
  }

  function RemoveSpec(w: World, i: nat, stop: Id, answers: Answers): (o: Outcome)
    requires i < |w.starts| && stop in w.stops
    ensures |o.world.starts| == |w.starts| && stop in o.world.stops
  {
    var r, s := w.starts[i], w.stops[stop];
    if || s.proof != Some(StopProof(r, stop)) || s.phase.StopAccepted?
       || r.observation.pod == 0 || r.observation.boot == 0
       || !ValidObservation(r.observation) || !answers.node || !Removable(w, r, Stage(s.phase)) || !answers.volume then
      Refused(w)
    else
      var gone := RemovePod(w, i, stop, s.proof.value);
      if !gone.ok then gone else RemoveService(gone.world, i, stop, s.proof.value)
  }

  /** An existing stop is resumed only against the run it was accepted for. */
  predicate SameStop(r: StartRow, stop: Id, s: StopRow, boot: Id) {
    && s.run == r.operation && s.boot == boot == r.observation.boot
    && (if s.phase.StopAccepted? then s.proof.None? && r.phase.Stopping?
        else s.proof == Some(StopProof(r, stop)) && (if s.phase.StopDone? then r.phase.Stopped? else r.phase.Stopping?))
  }

  function AcceptStop(w: World, i: nat, stop: Id, boot: Id): (o: Outcome)
    requires i < |w.starts|
    ensures |o.world.starts| == |w.starts| && (o.ok ==> stop in o.world.stops)
  {
    var r := w.starts[i];
    if stop in w.stops then Outcome(w, SameStop(r, stop, w.stops[stop], boot))
    else if !r.phase.Running? || r.observation.boot != boot || w.budget == 0 then Refused(w)
    else
      Outcome(w.(stops := w.stops[stop := StopRow(r.operation, boot, StopAccepted, None, 1)],
        starts := w.starts[i := r.(phase := Stopping, revision := r.revision + 1)], budget := w.budget - 1), true)
  }

  function SealStop(w: World, i: nat, stop: Id, answers: Answers): (o: Outcome)
    requires i < |w.starts| && stop in w.stops
    ensures |o.world.starts| == |w.starts| && stop in o.world.stops
  {
    if !w.stops[stop].phase.StopAccepted? then Outcome(w, true)
    else if !Observable(w, w.starts[i]) || !answers.volume || !answers.sealed then Refused(w)
    else CheckpointStop(w, i, stop, Sealed, StopProof(w.starts[i], stop))
  }

  function StopSpec(w: World, operation: Id, generation: nat, stop: Id, boot: Id, answers: Answers): Outcome {
    var found := Find(w.starts, operation);
    if stop == 0 || stop == operation || boot == 0 || found.None?
       || w.starts[found.value].generation != generation then Refused(w)
    else
      var i := found.value;
      var accepted := AcceptStop(w, i, stop, boot);
      if !accepted.ok || accepted.world.stops[stop].phase.StopDone? then accepted
      else
        var sealed := SealStop(accepted.world, i, stop, answers);
        if !sealed.ok then sealed else RemoveSpec(sealed.world, i, stop, answers)
  }
}
