/** What every history of an App instance guarantees. */
module AppInstanceTheorems {
  import opened Wrappers
  import opened Iteration
  import opened AppInstances
  import opened AppInstanceRuns
  import opened AppInstanceSafety
  import opened AppInstanceForward

  // ---- Rows ----

  /** A stop record of this run, finished or not. */
  ghost predicate StopsWith(w: World, run: Id, finished: bool) {
    exists s :: s in w.stops && w.stops[s].run == run && w.stops[s].phase.StopDone? == finished
  }

  /** Generations are 1..n and all but the last are stopped; a start is stopping
      exactly when its one stop record is unfinished, stopped exactly when that
      record is finished; running means a boot ID on a ready Pod. */
  lemma GenerationsAndStops(events: seq<Event>, i: nat)
    requires i < |Run(events).starts|
    ensures
      var w := Run(events);
      var r := w.starts[i];
      && r.generation == i + 1
      && (i + 1 < |w.starts| ==> r.phase.Stopped?)
      && (r.phase.Stopping? <==> StopsWith(w, r.operation, false))
      && (r.phase.Stopped? <==> StopsWith(w, r.operation, true))
      && (forall s, t :: s in w.stops && t in w.stops && w.stops[s].run == w.stops[t].run ==> s == t)
      && (r.phase.Running? ==> r.observation.boot != 0 && r.observation.ready && r.observation.pod != 0)
  {
    RunKeepsInvariant(events);
    var w := Run(events);
    var r := w.starts[i];
    assert StartOk(w.starts, i);
    forall finished | StopsWith(w, r.operation, finished)
      ensures if finished then r.phase.Stopped? else r.phase.Stopping?
    {
      var s :| s in w.stops && w.stops[s].run == r.operation && w.stops[s].phase.StopDone? == finished;
      assert StopOk(w, s, i);
    }
    if r.phase.Stopping? || r.phase.Stopped? {
      var s :| s in w.stops && w.stops[s].run == r.operation;
      assert StopOk(w, s, i);
    }
  }

  // ---- Creations and deletions ----

  /** One Secret per instance and profile it changed to, one Service and one Pod
      per run, however often calls die or lose an answer; the Service only after
      a Secret, the Pod only after its Service. A second creation needs the foreign deletion of an
      object no checkpoint had recorded yet. */
  lemma CreatedOnceInOrder(events: seq<Event>, j: nat)
    requires j < |Run(events).log| && Run(events).log[j].Made?
    ensures
      var w := Run(events);
      var e := w.log[j];
      && (!w.lossy ==> forall i :: 0 <= i < |w.log| && i != j && w.log[i].Made? ==>
          w.log[i].kind != e.kind || w.log[i].run != e.run)
      && (e.kind.Service? ==> exists i :: 0 <= i < j && w.log[i].Made? && w.log[i].kind.Secret?)
      && (e.kind.Pod? ==> exists i :: 0 <= i < j && w.log[i].Made? && w.log[i].kind.Service? && w.log[i].run == e.run)
  {
    RunKeepsInvariant(events);
    var w := Run(events);
    var e := w.log[j];
    assert Allowed(w.log[..j], e, w.lossy);
    if !w.lossy {
      forall i | 0 <= i < |w.log| && i != j && w.log[i].Made? ensures w.log[i].kind != e.kind || w.log[i].run != e.run {
        OneOfAKind(w.log, if i < j then i else j, if i < j then j else i);
      }
    }
    if e.kind.Service? {
      var epoch: Id, u :| Made(Secret, epoch, u) in w.log[..j];
      var i :| 0 <= i < j && w.log[..j][i] == Made(Secret, epoch, u);
      assert w.log[i].kind.Secret?;
    } else if e.kind.Pod? {
      var u :| Made(Service, e.run, u) in w.log[..j];
      var i :| 0 <= i < j && w.log[..j][i] == Made(Service, e.run, u);
      assert w.log[i].kind.Service?;
    }
  }

  lemma OneOfAKind(log: seq<Effect>, i: nat, j: nat)
    requires History(log, false) && i < j < |log| && log[i].Made? && log[j].Made?
    ensures log[i].kind != log[j].kind || log[i].run != log[j].run
  {
    assert Allowed(log[..j], log[j], false);
    assert log[..j][i] == log[i];
    assert Made(log[i].kind, log[i].run, log[i].uid) in log[..j];
  }

  /** The history held this stop step, and the sealing, with one and the same
      proof of this run's row: its generation, boot ID and Pod. */
  ghost predicate Proved(w: World, before: seq<Effect>, run: Id, phase: StopPhase, proof: Proof) {
    && StopRecorded(run, Sealed, proof) in before && StopRecorded(run, phase, proof) in before
    && Proven(w, run, proof)
  }

  lemma IntendedIsProved(w: World, before: seq<Effect>, run: Id, phase: StopPhase, pod: Option<Id>)
    requires ProofsTrue(w) && before <= w.log && Intended(before, run, phase, pod)
    ensures exists proof: Proof :: Proved(w, before, run, phase, proof) && (pod.Some? ==> proof.pod == pod.value)
  {
    var proof: Proof :| proof.run == run && (pod.Some? ==> proof.pod == pod.value)
      && StopRecorded(run, phase, proof) in before && StopRecorded(run, Sealed, proof) in before;
    assert Proved(w, before, run, phase, proof);
  }

  /** A Pod is deleted only after a sealed proof of that very Pod under the boot
      ID and generation its run recorded, and after the delete intent, both
      committed; a Service only after the Pod's absence was committed too; no
      history ever deletes the Secret. */
  lemma DeletionsAreIntended(events: seq<Event>, j: nat)
    requires j < |Run(events).log| && Run(events).log[j].Deletion?
    ensures
      var w := Run(events);
      var e, before := w.log[j], w.log[..j];
      && !e.kind.Secret?
      && (e.kind.Pod? ==>
            exists proof: Proof :: Proved(w, before, e.run, PodDeleteRequested, proof) && proof.pod == e.uid)
      && (e.kind.Service? ==>
            && (exists proof: Proof :: Proved(w, before, e.run, PodDeleted, proof))
            && (exists proof: Proof :: Proved(w, before, e.run, ServiceDeleteRequested, proof)))
  {
    RunKeepsInvariant(events);
    var w := Run(events);
    var e, before := w.log[j], w.log[..j];
    assert Allowed(before, e, w.lossy);
    if e.kind.Pod? {
      IntendedIsProved(w, before, e.run, PodDeleteRequested, Some(e.uid));
    } else if e.kind.Service? {
      IntendedIsProved(w, before, e.run, PodDeleted, None);
      IntendedIsProved(w, before, e.run, ServiceDeleteRequested, None);
    }
  }

  /** The committed stages describe the cluster: from `pod_deleted` on the Pod is
      gone, at the end the Service is, and the proof names the recorded process. */
  lemma StopStagesAreTrue(events: seq<Event>, s: Id, i: nat)
    requires s in Run(events).stops && i < |Run(events).starts|
    requires Run(events).stops[s].run == Run(events).starts[i].operation
    ensures
      var w := Run(events);
      var r, stop := w.starts[i], w.stops[s];
      && (Stage(stop.phase) >= 2 ==> At(w.pods, r.operation).Absent?)
      && (Stage(stop.phase) >= 4 ==> At(w.services, r.operation).Absent?)
      && (At(w.services, r.operation).Present? && At(w.services, r.operation).terminating ==>
          At(w.pods, r.operation).Absent?)
      && (Stage(stop.phase) >= 0 ==> stop.proof == Some(StopProof(r, s)))
  {
    RunKeepsInvariant(events);
    var w := Run(events);
    assert StopShape(w, s, i) && StopOk(w, s, i);
  }

  /** Every recorded UID is the live object's, or the object is gone; of the Secret
      as long as the instance keeps its profile. */
  lemma RecordedIsLive(events: seq<Event>, i: nat)
    requires i < |Run(events).starts|
    ensures
      var w := Run(events);
      var r := w.starts[i];
      && (r.observation.pod != 0 && At(w.pods, r.operation).Present? ==>
          At(w.pods, r.operation).uid == r.observation.pod)
      && (r.observation.service != 0 && At(w.services, r.operation).Present? ==>
          At(w.services, r.operation).uid == r.observation.service)
      && (r.epoch == w.epoch && r.observation.secret != 0 && w.secret.Present? ==>
            w.secret.uid == r.observation.secret)
  {
    RunKeepsInvariant(events);
    assert ObjectsOk(Run(events), i);
  }

  /** Over any continuation of any history: recorded UIDs, boot IDs, proofs and
      stages are permanent, and an acknowledged object that is gone stays gone,
      the Secret as long as the instance keeps its profile. */
  lemma {:induction false} NothingIsTakenBack(a: seq<Event>, b: seq<Event>)
    ensures Forward(Run(a), Run(a + b))
    decreases |b|
  {
    if b == [] {
      assert a + b == a;
      Stays(Run(a));
    } else {
      var u := Run(a + b[..|b| - 1]);
      NothingIsTakenBack(a, b[..|b| - 1]);
      RunKeepsInvariant(a + b[..|b| - 1]);
      StepForward(u, b[|b| - 1]);
      RunSplit(a, b);
      Chains(Run(a), u, Step(u, b[|b| - 1]));
    }
  }

  lemma RunSplit(a: seq<Event>, b: seq<Event>)
    requires b != []
    ensures Run(a + b) == Step(Run(a + b[..|b| - 1]), b[|b| - 1])
  {
    var longer := a + b;
    assert longer[..|longer| - 1] == a + b[..|b| - 1] && longer[|longer| - 1] == b[|b| - 1];
    RunLast(longer);
  }

  lemma RunLast(events: seq<Event>)
    requires events != []
    ensures Run(events) == Step(Run(events[..|events| - 1]), events[|events| - 1])
  {
  }

  /** An effect of the kind stands among the new entries of the history. */
  ghost predicate Makes(before: seq<Effect>, after: seq<Effect>, kind: Kind, run: Id) {
    before <= after && exists u :: Made(kind, run, u) in after[|before|..]
  }

  // ---- Progress ----

  /** A recorded state from which the next creation can be checkpointed. */
  ghost predicate Sound(w: World, i: nat) {
    && Synced(w, i) && w.next > 0 && ValidObservation(w.starts[i].observation)
    && (w.secret.Present? ==> w.secret.uid != 0)
    && (At(w.services, w.starts[i].operation).Present? ==> At(w.services, w.starts[i].operation).uid != 0)
    && (At(w.pods, w.starts[i].operation).Present? ==> At(w.pods, w.starts[i].operation).uid != 0)
  }

  /** The history grows by one creation exactly when the object is missing. */
  predicate Adds(w: World, v: World, o: Object, e: Effect) {
    v.log == w.log + Entry(o, e)
  }

  function Entry(o: Object, e: Effect): seq<Effect> {
    if o.Absent? then [e] else []
  }

  lemma SecretSucceeds(w: World, i: nat)
    requires Sound(w, i) && w.budget >= 2
    ensures
      var o := EnsureSecret(w, i);
      && o.world.pods == w.pods && o.world.services == w.services
      && Adds(w, o.world, w.secret, Made(Secret, w.epoch, w.next))
      && o.ok && Sound(o.world, i) && o.world.budget >= w.budget - 2 && o.world.secret.Present?
      && o.world.starts[i].operation == w.starts[i].operation
  {
  }

  lemma ServiceSucceeds(w: World, i: nat)
    requires Sound(w, i) && w.budget >= 2 && w.secret.Present?
    ensures
      var o := EnsureService(w, i);
      && o.world.pods == w.pods
      && Adds(w, o.world, At(w.services, w.starts[i].operation), Made(Service, w.starts[i].operation, w.next))
      && o.ok && Sound(o.world, i) && o.world.budget >= w.budget - 2 && o.world.secret.Present?
      && o.world.starts[i].operation == w.starts[i].operation
      && At(o.world.services, w.starts[i].operation).Present?
  {
  }

  lemma PodSucceeds(w: World, i: nat)
    requires Sound(w, i) && w.budget >= 2 && w.secret.Present? && At(w.services, w.starts[i].operation).Present?
    ensures
      var o := EnsurePod(w, i);
      && Adds(w, o.world, At(w.pods, w.starts[i].operation), Made(Pod, w.starts[i].operation, w.next))
      && o.ok && Sound(o.world, i) && o.world.budget >= w.budget - 2
      && o.world.starts[i].operation == w.starts[i].operation
      && At(o.world.pods, w.starts[i].operation).Present?
  {
  }

  lemma FirstCheckpointSucceeds(w: World, i: nat)
    requires i < |w.starts| && CanLaunch(w.starts[i].phase) && w.budget > 0 && !w.blocked
    requires StartOk(w.starts, i) && ObjectsOk(w, i) && w.starts[i].epoch == w.epoch && w.next > 0
    requires Launchable(w.starts[i].observation, At(w.pods, w.starts[i].operation),
                        At(w.services, w.starts[i].operation), w.secret)
    ensures
      var o := CheckpointStart(w, i, Progress(w, w.starts[i].operation));
      && o.ok && o.world.budget == w.budget - 1 && Sound(o.world, i)
      && o.world.starts[i].operation == w.starts[i].operation
  {
  }

  /** What one launch makes is what was missing, of each kind. */
  ghost predicate Completes(w: World, v: World, run: Id) {
    && (Makes(w.log, v.log, Secret, w.epoch) <==> w.secret.Absent?)
    && (Makes(w.log, v.log, Service, run) <==> At(w.services, run).Absent?)
    && (Makes(w.log, v.log, Pod, run) <==> At(w.pods, run).Absent?)
  }

  lemma MakesAppended(log: seq<Effect>, made: seq<Effect>, kind: Kind, run: Id)
    ensures Makes(log, log + made, kind, run) <==> exists u :: Made(kind, run, u) in made
  {
    assert (log + made)[|log|..] == made;
  }

  lemma MadeMissing(log: seq<Effect>, epoch: nat, run: Id, secret: Object, service: Object, pod: Object, uids: seq<Id>)
    requires |uids| == 3
    ensures
      var after := log + Entry(secret, Made(Secret, epoch, uids[0])) + Entry(service, Made(Service, run, uids[1]))
                   + Entry(pod, Made(Pod, run, uids[2]));
      && (Makes(log, after, Secret, epoch) <==> secret.Absent?)
      && (Makes(log, after, Service, run) <==> service.Absent?)
      && (Makes(log, after, Pod, run) <==> pod.Absent?)
  {
    var x, y, z := Made(Secret, epoch, uids[0]), Made(Service, run, uids[1]), Made(Pod, run, uids[2]);
    var made := Entry(secret, x) + Entry(service, y) + Entry(pod, z);
    assert log + Entry(secret, x) + Entry(service, y) + Entry(pod, z) == log + made;
    assert forall e :: e in made <==>
           (secret.Absent? && e == x) || (service.Absent? && e == y) || (pod.Absent? && e == z);
    MakesAppended(log, made, Secret, epoch);
    MakesAppended(log, made, Service, run);
    MakesAppended(log, made, Pod, run);
  }

  lemma ObjectsSucceed(w: World, i: nat)
    requires Sound(w, i) && w.budget >= 6
    ensures
      var o := EnsureObjects(w, i);
      && o.ok && o.world.budget >= w.budget - 6 && Sound(o.world, i)
      && o.world.starts[i].operation == w.starts[i].operation && At(o.world.pods, w.starts[i].operation).Present?
      && Completes(w, o.world, w.starts[i].operation)
  {
    SecretSucceeds(w, i);
    var secret := EnsureSecret(w, i);
    ServiceSucceeds(secret.world, i);
    var service := EnsureService(secret.world, i);
    PodSucceeds(service.world, i);
    var run := w.starts[i].operation;
    MadeMissing(w.log, w.epoch, run, w.secret, At(w.services, run), At(w.pods, run),
      [w.next, secret.world.next, service.world.next]);
  }

  lemma LaunchSucceeds(w: World, i: nat, answers: Answers)
    requires i < |w.starts| && CanLaunch(w.starts[i].phase) && w.budget == 9 && answers.volume && answers.ready
    requires !w.blocked
    requires StartOk(w.starts, i) && ObjectsOk(w, i) && w.starts[i].epoch == w.epoch && w.next > 0
    requires Launchable(w.starts[i].observation, At(w.pods, w.starts[i].operation),
                        At(w.services, w.starts[i].operation), w.secret)
    ensures
      var o := EnsureSpec(w, i, answers);
      && o.ok && o.world.starts[i].phase.Launching? && o.world.starts[i].observation.ready && o.world.budget > 0
      && ValidObservation(o.world.starts[i].observation) && o.world.starts[i].observation.boot == 0
      && Completes(w, o.world, w.starts[i].operation)
  {
    FirstCheckpointSucceeds(w, i);
    ObjectsSucceed(CheckpointStart(w, i, Progress(w, w.starts[i].operation)).world, i);
  }

  /** A launch that nothing hinders ends in a running process. */
  lemma AdvanceLaunches(w: World, i: nat, boot: Id)
    requires i < |w.starts| && CanLaunch(w.starts[i].phase) && w.budget == 9 && boot != 0 && !w.blocked
    requires StartOk(w.starts, i) && ObjectsOk(w, i) && w.starts[i].epoch == w.epoch && w.next > 0
    requires Find(w.starts, w.starts[i].operation) == Some(i)
    requires Launchable(w.starts[i].observation, At(w.pods, w.starts[i].operation),
                        At(w.services, w.starts[i].operation), w.secret)
    ensures
      var r := w.starts[i];
      var v := AdvanceSpec(w, r.operation, r.generation, Answers(true, true, true, boot, true)).world;
      && |v.starts| == |w.starts| && v.starts[i].phase.Running? && v.starts[i].observation.boot == boot
      && Completes(w, v, r.operation)
  {
    LaunchSucceeds(w, i, Answers(true, true, true, boot, true));
  }

  lemma AdvanceRefuses(w: World, i: nat, answers: Answers)
    requires i < |w.starts| && CanLaunch(w.starts[i].phase) && Find(w.starts, w.starts[i].operation) == Some(i)
    requires w.blocked || !Launchable(w.starts[i].observation, At(w.pods, w.starts[i].operation),
                                      At(w.services, w.starts[i].operation), w.secret)
    ensures AdvanceSpec(w, w.starts[i].operation, w.starts[i].generation, answers).world == w
  {
  }

  function Resumed(w: World, r: StartRow, boot: Id): World {
    Step(w, AdvanceCall(r.operation, r.generation, Answers(true, true, true, boot, true), 9))
  }

  /** Whatever crashes came before, and as long as nobody else deleted its
      objects, one uninterrupted call brings an accepted start to running if and
      only if no other profile's Secret holds the instance's name; if one does,
      the call changes nothing. */
  lemma AlwaysResumable(events: seq<Event>, i: nat, boot: Id)
    requires i < |Run(events).starts| && CanLaunch(Run(events).starts[i].phase) && !Run(events).disturbed && boot != 0
    ensures
      var w, r := Run(events), Run(events).starts[i];
      var after := Resumed(w, r, boot);
      && |after.starts| == |w.starts| && (after.starts[i].phase.Running? <==> !w.blocked)
      && if w.blocked then after == w.(budget := 9) else after.starts[i].observation.boot == boot
  {
    RunKeepsInvariant(events);
    ResumedRuns(Run(events), i, boot);
  }

  lemma ResumedRuns(w: World, i: nat, boot: Id)
    requires Invariant(w) && i < |w.starts| && CanLaunch(w.starts[i].phase) && !w.disturbed && boot != 0
    ensures
      var after := Resumed(w, w.starts[i], boot);
      if w.blocked then after == w.(budget := 9)
      else |after.starts| == |w.starts| && after.starts[i].phase.Running? && after.starts[i].observation.boot == boot
  {
    FindIsExact(w, i);
    assert ObjectsOk(w, i) && StartOk(w.starts, i) && i == |w.starts| - 1;
    if w.blocked {
      AdvanceRefuses(w.(budget := 9), i, Answers(true, true, true, boot, true));
    } else {
      AdvanceLaunches(w.(budget := 9), i, boot);
    }
  }

  // ---- Changed profiles ----

  /** A start accepted under a changed profile finds the name taken exactly when
      the profile stays in its namespace and the old Secret is there, or when the
      read of the new namespace shows another profile's Secret. */
  lemma ProfileChangeBlocksIff(w: World, operation: Id, generation: nat, profile: Profile, found: Holder, volume: bool)
    requires Invariant(w) && w.starts != [] && profile != w.starts[|w.starts| - 1].profile
    requires |AcceptStart(w, operation, generation, profile, found, volume).world.starts| > |w.starts|
    ensures
      var v := AcceptStart(w, operation, generation, profile, found, volume).world;
      && v.starts[|w.starts|].observation.secret == Uid(v.secret)
      && (v.blocked <==> if profile.namespace == w.starts[|w.starts| - 1].profile.namespace then w.secret.Present?
                         else found.Another?)
  {
  }

  /** While the name is taken every row but the newest is stopped, and that one
      is accepted. */
  lemma BlockedRow(w: World, i: nat)
    requires Invariant(w) && w.blocked && i < |w.starts|
    ensures w.starts[i].phase.Stopped? || (i == |w.starts| - 1 && w.starts[i].phase.Accepted?)
  {
    assert StartOk(w.starts, i);
  }

  lemma BlockedAdvance(w: World, operation: Id, generation: nat, answers: Answers)
    requires Invariant(w) && w.blocked
    ensures AdvanceSpec(w, operation, generation, answers).world == w
  {
    var found := Find(w.starts, operation);
    if found.Some? {
      BlockedRow(w, found.value);
    }
  }

  lemma BlockedStop(w: World, operation: Id, generation: nat, stop: Id, boot: Id, answers: Answers)
    requires Invariant(w) && w.blocked
    ensures StopSpec(w, operation, generation, stop, boot, answers).world == w
  {
    var found := Find(w.starts, operation);
    if found.Some? {
      BlockedRow(w, found.value);
      if stop in w.stops {
        assert StopOk(w, stop, found.value);
      }
    }
  }

  lemma BlockedStep(w: World, e: Event)
    requires Invariant(w) && w.blocked && !e.NameFreed?
    ensures Step(w, e).blocked && Step(w, e).starts == w.starts
  {
    match e {
      case AcceptCall(operation, generation, profile, found, volume, budget) =>
        BlockedRow(w, |w.starts| - 1);
      case AdvanceCall(operation, generation, answers, budget) =>
        BudgetIsNeutral(w, budget);
        BlockedAdvance(w.(budget := budget), operation, generation, answers);
      case StopCall(operation, generation, stop, boot, answers, budget) =>
        BudgetIsNeutral(w, budget);
        BlockedStop(w.(budget := budget), operation, generation, stop, boot, answers);
      case _ =>
    }
  }

  /** Such a start is stuck: until someone deletes the other Secret no call takes
      it, or the instance, any further. */
  lemma {:induction false} BlockedStaysPut(a: seq<Event>, b: seq<Event>)
    requires Run(a).blocked && forall i :: 0 <= i < |b| ==> !b[i].NameFreed?
    ensures Run(a + b).blocked && Run(a + b).starts == Run(a).starts
    decreases |b|
  {
    if b == [] {
      assert a + b == a;
    } else {
      var u := Run(a + b[..|b| - 1]);
      BlockedStaysPut(a, b[..|b| - 1]);
      RunKeepsInvariant(a + b[..|b| - 1]);
      BlockedStep(u, b[|b| - 1]);
      RunSplit(a, b);
    }
  }

  // ---- Foreign deletions ----

  /** An uninterrupted call makes all that is missing if what is left may stand
      for what was recorded, and otherwise changes nothing. */
  lemma ResumedMakes(w: World, i: nat, boot: Id)
    requires Invariant(w) && i < |w.starts| && CanLaunch(w.starts[i].phase) && boot != 0
    ensures
      var r := w.starts[i];
      var pod, service := At(w.pods, r.operation), At(w.services, r.operation);
      if !w.blocked && Launchable(r.observation, pod, service, w.secret) then
        Completes(w, Resumed(w, r, boot), r.operation)
      else Resumed(w, r, boot) == w.(budget := 9)
  {
    var r := w.starts[i];
    FindIsExact(w, i);
    assert ObjectsOk(w, i) && StartOk(w.starts, i) && i == |w.starts| - 1;
    if !w.blocked && Launchable(r.observation, At(w.pods, r.operation), At(w.services, r.operation), w.secret) {
      AdvanceLaunches(w.(budget := 9), i, boot);
    } else {
      AdvanceRefuses(w.(budget := 9), i, Answers(true, true, true, boot, true));
    }
  }

  /** A launching run's Pod that someone else deletes, from any state that keeps
      the invariant; its Service; the Secret. */
  lemma PodRepairedIff(w: World, i: nat, boot: Id)
    requires Invariant(w) && i < |w.starts| && CanLaunch(w.starts[i].phase) && boot != 0
    requires At(w.pods, w.starts[i].operation).Present?
    ensures
      var r := w.starts[i];
      var lost := Step(w, PodLost(r.operation));
      && lost.log == w.log
      && if r.observation.pod == 0 && At(w.services, r.operation).Present? && w.secret.Present? then
           Makes(w.log, Resumed(lost, r, boot).log, Pod, r.operation)
         else Resumed(lost, r, boot) == lost.(budget := 9)
  {
    var run := w.starts[i].operation;
    assert ObjectsOk(w, i) && StartOk(w.starts, i);
    StepKeeps(w, PodLost(run));
    ResumedMakes(Step(w, PodLost(run)), i, boot);
  }

  lemma ServiceRepairedIff(w: World, i: nat, boot: Id)
    requires Invariant(w) && i < |w.starts| && CanLaunch(w.starts[i].phase) && boot != 0
    requires At(w.services, w.starts[i].operation).Present?
    ensures
      var r := w.starts[i];
      var lost := Step(w, ServiceLost(r.operation));
      && lost.log == w.log
      && if r.observation.service == 0 && w.secret.Present? then
           Makes(w.log, Resumed(lost, r, boot).log, Service, r.operation)
         else Resumed(lost, r, boot) == lost.(budget := 9)
  {
    var run := w.starts[i].operation;
    assert ObjectsOk(w, i) && StartOk(w.starts, i);
    StepKeeps(w, ServiceLost(run));
    ResumedMakes(Step(w, ServiceLost(run)), i, boot);
  }

  lemma SecretRepairedIff(w: World, i: nat, boot: Id)
    requires Invariant(w) && i < |w.starts| && CanLaunch(w.starts[i].phase) && boot != 0 && w.secret.Present?
    ensures
      var lost := Step(w, SecretLost);
      && lost.log == w.log
      && if w.starts[i].observation.secret == 0 then Makes(w.log, Resumed(lost, w.starts[i], boot).log, Secret, w.epoch)
         else Resumed(lost, w.starts[i], boot) == lost.(budget := 9)
  {
    assert ObjectsOk(w, i) && StartOk(w.starts, i);
    StepKeeps(w, SecretLost);
    ResumedMakes(Step(w, SecretLost), i, boot);
  }

  /** After any history, a launching run's Pod that someone else deleted is made
      again exactly when no checkpoint had recorded it and its Service and Secret
      are there; otherwise the call refuses and nothing changes. */
  lemma PodRecreatedIff(events: seq<Event>, i: nat, boot: Id)
    requires i < |Run(events).starts| && CanLaunch(Run(events).starts[i].phase) && boot != 0
    requires At(Run(events).pods, Run(events).starts[i].operation).Present?
    ensures
      var w, r := Run(events), Run(events).starts[i];
      var lost := Step(w, PodLost(r.operation));
      var after := Resumed(lost, r, boot);
      var again := Makes(w.log, after.log, Pod, r.operation);
      && Made(Pod, r.operation, At(w.pods, r.operation).uid) in w.log
      && (again <==> r.observation.pod == 0 && At(w.services, r.operation).Present? && w.secret.Present?)
      && (!w.disturbed ==> (again <==> r.observation.pod == 0))
      && (!again ==> after == lost.(budget := 9))
  {
    RunKeepsInvariant(events);
    var w := Run(events);
    assert ObjectsOk(w, i) && StartOk(w.starts, i);
    PodRepairedIff(w, i, boot);
  }

  /** The Service likewise; while it was unrecorded there was no Pod. */
  lemma ServiceRecreatedIff(events: seq<Event>, i: nat, boot: Id)
    requires i < |Run(events).starts| && CanLaunch(Run(events).starts[i].phase) && boot != 0
    requires At(Run(events).services, Run(events).starts[i].operation).Present?
    ensures
      var w, r := Run(events), Run(events).starts[i];
      var lost := Step(w, ServiceLost(r.operation));
      var after := Resumed(lost, r, boot);
      var again := Makes(w.log, after.log, Service, r.operation);
      && Made(Service, r.operation, At(w.services, r.operation).uid) in w.log
      && (again <==> r.observation.service == 0 && w.secret.Present?)
      && (r.observation.service == 0 ==> At(w.pods, r.operation).Absent?)
      && (!w.disturbed ==> (again <==> r.observation.service == 0))
      && (!again ==> after == lost.(budget := 9))
  {
    RunKeepsInvariant(events);
    var w := Run(events);
    assert ObjectsOk(w, i) && StartOk(w.starts, i);
    ServiceRepairedIff(w, i, boot);
  }

  /** The Secret likewise; while it was unrecorded there was neither. */
  lemma SecretRecreatedIff(events: seq<Event>, i: nat, boot: Id)
    requires i < |Run(events).starts| && CanLaunch(Run(events).starts[i].phase) && boot != 0
    requires Run(events).secret.Present?
    ensures
      var w, r := Run(events), Run(events).starts[i];
      var lost := Step(w, SecretLost);
      var after := Resumed(lost, r, boot);
      var again := Makes(w.log, after.log, Secret, w.epoch);
      && Made(Secret, w.epoch, w.secret.uid) in w.log
      && (again <==> r.observation.secret == 0)
      && (r.observation.secret == 0 ==> At(w.services, r.operation).Absent? && At(w.pods, r.operation).Absent?)
      && (!again ==> after == lost.(budget := 9))
  {
    RunKeepsInvariant(events);
    var w := Run(events);
    assert ObjectsOk(w, i) && StartOk(w.starts, i);
    SecretRepairedIff(w, i, boot);
  }

  /** A call that dies between the creation of the Secret and its checkpoint. */
  lemma SecretUnrecorded()
    ensures
      var good, p := Answers(true, true, true, 1, true), Profile(1, 1);
      Run([AcceptCall(7, 1, p, Nobody, true, 1), AdvanceCall(7, 1, good, 2)])
      == EMPTY.(starts := [StartRow(7, 1, p, 0, Launching, Observation(0, 0, 0, false, 0), 2)],
                secret := Present(1, false), next := 2, log := [Made(Secret, 0, 1)])
  {
    var good, p := Answers(true, true, true, 1, true), Profile(1, 1);
    var e0, e1 := AcceptCall(7, 1, p, Nobody, true, 1), AdvanceCall(7, 1, good, 2);
    assert [e0][..0] == [] && [e0, e1][..1] == [e0];
    assert Run([e0]) == EMPTY.(starts := [StartRow(7, 1, p, 0, Accepted, Observation(0, 0, 0, false, 0), 1)]);
  }

  /** Such a history exists: a Secret that is deleted by someone else before any
      checkpoint has recorded it is created a second time. */
  lemma UnrecordedLossRecreates() returns (a: seq<Event>)
    ensures
      var again := a + [SecretLost, AdvanceCall(7, 1, Answers(true, true, true, 1, true), 9)];
      Made(Secret, 0, 1) in Run(a).log && Makes(Run(a).log, Run(again).log, Secret, 0)
  {
    var good, p := Answers(true, true, true, 1, true), Profile(1, 1);
    a := [AcceptCall(7, 1, p, Nobody, true, 1), AdvanceCall(7, 1, good, 2)];
    SecretUnrecorded();
    RecreatedAfter(a, good);
  }

  lemma RecreatedAfter(a: seq<Event>, good: Answers)
    requires Run(a).starts != [] && Run(a).secret.Present? && Run(a).starts[0].observation.secret == 0
    requires CanLaunch(Run(a).starts[0].phase) && good == Answers(true, true, true, good.boot, true) && good.boot != 0
    ensures
      var r := Run(a).starts[0];
      var again := a + [SecretLost, AdvanceCall(r.operation, r.generation, good, 9)];
      Makes(Run(a).log, Run(again).log, Secret, Run(a).epoch)
  {
    var r := Run(a).starts[0];
    var b := [SecretLost, AdvanceCall(r.operation, r.generation, good, 9)];
    SecretRecreatedIff(a, 0, good.boot);
    RunSplit(a, b);
    RunSplit(a, b[..1]);
    assert b[..1][..0] == [] && a + [] == a && b[..1] == [SecretLost];
  }

  // ---- Three calls ----

  const WILLING := Answers(true, true, true, 0, true)

  /** One stop call with nothing in its way, after which the deletions it asked
      for have finished. */
  function Round(w: World, r: StartRow, stop: Id): World {
    Cleared(Step(w, StopCall(r.operation, r.generation, stop, r.observation.boot, WILLING, 4)), r.operation)
  }

  function Cleared(w: World, run: Id): World {
    Step(Step(w, PodGone(run)), ServiceGone(run))
  }

  function Rounds(w: World, r: StartRow, stop: Id, n: nat): World {
    Iterate((u: World) => Round(u, r, stop), w, n)
  }

  /** Only the run's own terminating objects are gone. */
  lemma ClearedIs(w: World, run: Id)
    ensures
      var v := Cleared(w, run);
      var pod, service := At(w.pods, run), At(w.services, run);
      && v == w.(pods := v.pods, services := v.services)
      && At(v.pods, run) == (if pod.Present? && pod.terminating then Absent else pod)
      && At(v.services, run) == (if service.Present? && service.terminating then Absent else service)
  {
  }

  /** The row, its stop and its objects, as every stage leaves them. */
  ghost predicate Settled(w: World, i: nat, stop: Id, r: StartRow) {
    && i < |w.starts| && stop in w.stops && r.operation != stop && stop != 0
    && (forall j :: 0 <= j < |w.starts| && j != i ==> w.starts[j].operation != r.operation)
    && w.starts[i] == r.(phase := w.starts[i].phase, revision := w.starts[i].revision)
    && ValidObservation(r.observation) && r.observation.boot != 0
    && (!w.stops[stop].phase.StopDone? ==> Matches(w.secret, r.observation.secret))
    && SameStop(w.starts[i], stop, w.stops[stop], r.observation.boot) && Stage(w.stops[stop].phase) >= 0
    && Shape(w, r.operation, r.observation, Stage(w.stops[stop].phase))
  }

  predicate Shape(w: World, run: Id, o: Observation, stage: int) {
    && StageShape(stage, At(w.pods, run), At(w.services, run), o)
    && (stage >= 2 ==> At(w.pods, run).Absent?)
    && (stage >= 4 ==> At(w.services, run).Absent?)
  }

  /** A call on a settled stop is one removal. */
  lemma StopIsRemoval(w: World, i: nat, stop: Id, r: StartRow)
    requires Settled(w, i, stop, r) && !w.stops[stop].phase.StopDone?
    ensures Step(w, StopCall(r.operation, r.generation, stop, r.observation.boot, WILLING, 4))
            == RemoveSpec(w.(budget := 4), i, stop, WILLING).world
  {
    assert Find(w.starts, r.operation) == Some(i);
  }

  /** What one removal leaves behind. */
  ghost predicate Removed(w: World, v: World, i: nat, stop: Id, phase: StopPhase)
    requires i < |w.starts| && stop in w.stops
  {
    && v.secret == w.secret && stop in v.stops && v.stops[stop].phase == phase
    && v.stops[stop].proof == w.stops[stop].proof
    && v.stops[stop].run == w.stops[stop].run && v.stops[stop].boot == w.stops[stop].boot
    && |v.starts| == |w.starts| && v.starts == w.starts[i := v.starts[i]]
    && v.starts[i] == w.starts[i].(phase := if phase.StopDone? then Stopped else Stopping,
                                   revision := v.starts[i].revision)
  }

  lemma RemovalOfPod(w: World, i: nat, stop: Id, r: StartRow)
    requires Settled(w, i, stop, r) && w.budget == 4
    requires Stage(w.stops[stop].phase) <= 1 && At(w.pods, r.operation).Present?
    ensures
      var v := RemoveSpec(w, i, stop, WILLING).world;
      && Removed(w, v, i, stop, PodDeleteRequested)
      && v.pods == w.pods[r.operation := Present(r.observation.pod, true)] && v.services == w.services
  {
    var pod := At(w.pods, r.operation);
    assert pod.terminating ==> w.pods == w.pods[r.operation := Present(r.observation.pod, true)];
  }

  lemma RemovalOfService(w: World, i: nat, stop: Id, r: StartRow)
    requires Settled(w, i, stop, r) && w.budget == 4
    requires 1 <= Stage(w.stops[stop].phase) <= 3 && At(w.pods, r.operation).Absent?
             && At(w.services, r.operation).Present?
    ensures
      var v := RemoveSpec(w, i, stop, WILLING).world;
      && Removed(w, v, i, stop, ServiceDeleteRequested)
      && v.services == w.services[r.operation := Present(r.observation.service, true)] && v.pods == w.pods
  {
    var gone := RemovePod(w, i, stop, w.stops[stop].proof.value);
    PodIsRecordedGone(w, i, stop, r);
    ServiceIsDeleted(gone.world, i, stop, r);
  }

  lemma PodIsRecordedGone(w: World, i: nat, stop: Id, r: StartRow)
    requires Settled(w, i, stop, r) && w.budget == 4
    requires 1 <= Stage(w.stops[stop].phase) <= 3 && At(w.pods, r.operation).Absent?
             && At(w.services, r.operation).Present?
    ensures
      var o := RemovePod(w, i, stop, w.stops[stop].proof.value);
      && o.ok && Settled(o.world, i, stop, r) && o.world.budget >= 3
      && o.world.stops[stop].phase.PodDeleted? == !w.stops[stop].phase.ServiceDeleteRequested?
      && Stage(o.world.stops[stop].phase) >= 2 && o.world.pods == w.pods && o.world.services == w.services
      && Removed(w, o.world, i, stop, o.world.stops[stop].phase)
  {
  }

  lemma ServiceIsDeleted(w: World, i: nat, stop: Id, r: StartRow)
    requires Settled(w, i, stop, r) && w.budget >= 3
    requires 2 <= Stage(w.stops[stop].phase) <= 3 && At(w.services, r.operation).Present?
    ensures
      var v := RemoveService(w, i, stop, w.stops[stop].proof.value).world;
      && Removed(w, v, i, stop, ServiceDeleteRequested)
      && v.services == w.services[r.operation := Present(r.observation.service, true)] && v.pods == w.pods
  {
    var service := At(w.services, r.operation);
    assert service.terminating ==> w.services == w.services[r.operation := Present(r.observation.service, true)];
  }

  lemma RemovalEnds(w: World, i: nat, stop: Id, r: StartRow)
    requires Settled(w, i, stop, r) && w.budget == 4
    requires w.stops[stop].phase.ServiceDeleteRequested? && At(w.services, r.operation).Absent?
    ensures
      var v := RemoveSpec(w, i, stop, WILLING).world;
      && Removed(w, v, i, stop, StopDone) && v.services == w.services && v.pods == w.pods
  {
  }

  lemma SettledAgain(w: World, v: World, i: nat, stop: Id, r: StartRow, phase: StopPhase)
    requires Settled(w, i, stop, r) && !w.stops[stop].phase.StopDone?
    requires Removed(w, v, i, stop, phase) && Stage(phase) >= 0
    requires Shape(v, r.operation, r.observation, Stage(phase))
    ensures Settled(v, i, stop, r)
  {
  }

  lemma RoundAtPod(w: World, i: nat, stop: Id, r: StartRow)
    requires Settled(w, i, stop, r) && Stage(w.stops[stop].phase) <= 1 && At(w.pods, r.operation).Present?
    ensures
      var v := Round(w, r, stop);
      Settled(v, i, stop, r) && v.stops[stop].phase.PodDeleteRequested? && At(v.pods, r.operation).Absent?
  {
    ClearedIs(RemoveSpec(w.(budget := 4), i, stop, WILLING).world, r.operation);
    StopIsRemoval(w, i, stop, r);
    RemovalOfPod(w.(budget := 4), i, stop, r);
    SettledAgain(w, Round(w, r, stop), i, stop, r, PodDeleteRequested);
  }

  lemma RoundAtService(w: World, i: nat, stop: Id, r: StartRow)
    requires Settled(w, i, stop, r) && At(w.pods, r.operation).Absent? && At(w.services, r.operation).Present?
    requires 1 <= Stage(w.stops[stop].phase) <= 3
    ensures
      var v := Round(w, r, stop);
      Settled(v, i, stop, r) && v.stops[stop].phase.ServiceDeleteRequested? && At(v.services, r.operation).Absent?
  {
    ClearedIs(RemoveSpec(w.(budget := 4), i, stop, WILLING).world, r.operation);
    StopIsRemoval(w, i, stop, r);
    RemovalOfService(w.(budget := 4), i, stop, r);
    SettledAgain(w, Round(w, r, stop), i, stop, r, ServiceDeleteRequested);
  }

  lemma RoundAtEnd(w: World, i: nat, stop: Id, r: StartRow)
    requires Settled(w, i, stop, r) && At(w.services, r.operation).Absent? && Stage(w.stops[stop].phase) >= 3
    ensures
      var v := Round(w, r, stop);
      Settled(v, i, stop, r) && v.stops[stop].phase.StopDone?
  {
    if w.stops[stop].phase.StopDone? {
      assert Find(w.starts, r.operation) == Some(i);
      assert Round(w, r, stop) == w.(budget := 4);
    } else {
      ClearedIs(RemoveSpec(w.(budget := 4), i, stop, WILLING).world, r.operation);
    StopIsRemoval(w, i, stop, r);
      RemovalEnds(w.(budget := 4), i, stop, r);
      SettledAgain(w, Round(w, r, stop), i, stop, r, StopDone);
    }
  }

  lemma SettledInRuns(events: seq<Event>, i: nat, stop: Id)
    requires i < |Run(events).starts| && stop in Run(events).stops && !Run(events).disturbed
    requires Run(events).stops[stop].run == Run(events).starts[i].operation && Stage(Run(events).stops[stop].phase) >= 0
    ensures Settled(Run(events), i, stop, Run(events).starts[i])
  {
    RunKeepsInvariant(events);
    var w := Run(events);
    assert StartOk(w.starts, i) && StopOk(w, stop, i) && StopShape(w, stop, i) && ObjectsOk(w, i);
  }

  /** From any committed stage of any undisturbed history, three calls finish the
      stop if the deletions they request finish in between; more change nothing. */
  lemma ThreeCallsStop(events: seq<Event>, i: nat, stop: Id, calls: nat)
    requires i < |Run(events).starts| && stop in Run(events).stops && !Run(events).disturbed
    requires Run(events).stops[stop].run == Run(events).starts[i].operation && Stage(Run(events).stops[stop].phase) >= 0
    requires calls >= 3
    ensures
      var w := Run(events);
      var v := Rounds(w, w.starts[i], stop, calls);
      && stop in v.stops && v.stops[stop].phase.StopDone? && i < |v.starts| && v.starts[i].phase.Stopped?
      && At(v.pods, w.starts[i].operation).Absent? && At(v.services, w.starts[i].operation).Absent?
  {
    SettledInRuns(events, i, stop);
    RoundsFinish(Run(events), i, stop, Run(events).starts[i], calls);
  }

  /** At most `left` more calls finish the stop. */
  ghost predicate Finishing(w: World, i: nat, stop: Id, r: StartRow, left: nat) {
    Settled(w, i, stop, r) && Left(w, r, stop) <= left
  }

  lemma NextRound(w: World, i: nat, stop: Id, r: StartRow, left: nat)
    requires Finishing(w, i, stop, r, left + 1)
    ensures Finishing(Round(w, r, stop), i, stop, r, left)
  {
    if Stage(w.stops[stop].phase) <= 1 && At(w.pods, r.operation).Present? {
      RoundAtPod(w, i, stop, r);
    } else if At(w.services, r.operation).Present? {
      RoundAtService(w, i, stop, r);
    } else {
      RoundAtEnd(w, i, stop, r);
    }
  }

  /** How many calls are left. */
  function Left(w: World, r: StartRow, stop: Id): nat {
    if stop !in w.stops then 3
    else if w.stops[stop].phase.StopDone? then 0
    else if At(w.pods, r.operation).Present? then 3
    else if At(w.services, r.operation).Present? then 2
    else 1
  }

  lemma RoundsFinish(w: World, i: nat, stop: Id, r: StartRow, n: nat)
    requires Finishing(w, i, stop, r, n)
    ensures Finishing(Rounds(w, r, stop, n), i, stop, r, 0)
  {
    var round, bounded := (u: World) => Round(u, r, stop), (u: World, left: nat) => Finishing(u, i, stop, r, left);
    forall u, left: nat | bounded(u, left + 1) ensures bounded(round(u), left) {
      NextRound(u, i, stop, r, left);
    }
    Countdown(round, bounded, w, n, 0);
  }
}
