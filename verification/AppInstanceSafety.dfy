/** Every effect, and so every call however it ends, keeps the invariant. */
module AppInstanceSafety {
  import opened Wrappers
  import opened AppInstances
  import opened AppInstanceRuns

  predicate CanLaunch(p: StartPhase) {
    p.Accepted? || p.Launching?
  }

  /** The row has recorded exactly the live objects. */
  ghost predicate Synced(w: World, i: nat) {
    && i < |w.starts| && w.starts[i].phase.Launching? && !w.blocked
    && w.starts[i].observation == Progress(w, w.starts[i].operation)
  }

  lemma BudgetIsNeutral(w: World, budget: nat)
    requires Invariant(w)
    ensures Invariant(w.(budget := budget))
  {
    var v := w.(budget := budget);
    assert forall i :: 0 <= i < |w.starts| ==> ObjectsOk(w, i) == ObjectsOk(v, i);
    assert forall s, i :: s in w.stops && 0 <= i < |w.starts| ==> StopOk(w, s, i) == StopOk(v, s, i);
    assert forall s, i :: s in w.stops && 0 <= i < |w.starts| ==> StopShape(w, s, i) == StopShape(v, s, i);
    assert forall run :: HasStop(w, run) == HasStop(v, run);
  }

  // ---- Starting ----

  /** An update that keeps a row's place in the instance. */
  lemma UpdateKeepsPlaces(w: World, v: World, i: nat)
    requires EpochsOk(w) && Distinct(w.starts) && i < |w.starts| == |v.starts| && v.starts == w.starts[i := v.starts[i]]
    requires v.starts[i].operation == w.starts[i].operation && v.starts[i].epoch == w.starts[i].epoch
    requires v.epoch == w.epoch
    ensures EpochsOk(v) && Distinct(v.starts)
  {
  }

  lemma CheckpointKeepsStarts(w: World, i: nat, next: Observation)
    requires RowsOk(w.starts) && i < |w.starts| && CheckpointStart(w, i, next).ok
    ensures RowsOk(CheckpointStart(w, i, next).world.starts)
  {
    var v := CheckpointStart(w, i, next).world;
    forall j | 0 <= j < |v.starts| ensures StartOk(v.starts, j) {
      assert StartOk(w.starts, j) && StartOk(w.starts, i);
    }
  }

  lemma CheckpointKeepsLedger(w: World, i: nat, next: Observation)
    requires Ledger(w) && i < |w.starts| && CheckpointStart(w, i, next).ok
    ensures Ledger(CheckpointStart(w, i, next).world)
  {
    var v := CheckpointStart(w, i, next).world;
    CheckpointKeepsStarts(w, i, next);
    UpdateKeepsPlaces(w, v, i);
    assert StartOk(w.starts, i);
    forall s, j | s in v.stops && 0 <= j < |v.starts| ensures StopOk(v, s, j) {
      assert StopOk(w, s, j);
    }
    forall s | s in v.stops ensures Known(v.starts, v.stops[s].run) {
      KnownAfterUpdate(w.starts, i, v.starts[i], v.stops[s].run);
    }
    assert forall run :: HasStop(w, run) == HasStop(v, run);
  }

  lemma KnownAfterUpdate(starts: seq<StartRow>, i: nat, row: StartRow, run: Id)
    requires i < |starts| && row.operation == starts[i].operation
    ensures Known(starts[i := row], run) <==> Known(starts, run)
  {
    if Known(starts, run) {
      var j :| 0 <= j < |starts| && starts[j].operation == run;
      assert starts[i := row][j].operation == run;
    }
    if Known(starts[i := row], run) {
      var j :| 0 <= j < |starts| && starts[i := row][j].operation == run;
      assert starts[j].operation == run;
    }
  }

  lemma CheckpointedRowKeeps(w: World, i: nat, next: Observation)
    requires i < |w.starts| && CheckpointStart(w, i, next).ok && ObjectsOk(w, i) && ObjectsKnown(w)
    requires w.secret.Present? ==> !w.secret.terminating
    requires next == Progress(w, w.starts[i].operation).(ready := next.ready, boot := next.boot)
    ensures ObjectsOk(CheckpointStart(w, i, next).world, i)
  {
  }

  lemma UntouchedRowKeeps(w: World, v: World, j: nat)
    requires j < |w.starts| <= |v.starts| && v.starts[j] == w.starts[j] && ObjectsOk(w, j)
    requires v == w.(starts := v.starts, budget := v.budget)
    ensures ObjectsOk(v, j)
  {
  }

  lemma CheckpointKeepsObjects(w: World, i: nat, next: Observation)
    requires Ledger(w) && Objects(w) && i < |w.starts| && CheckpointStart(w, i, next).ok && !w.blocked
    requires next == Progress(w, w.starts[i].operation).(ready := next.ready, boot := next.boot)
    ensures Objects(CheckpointStart(w, i, next).world)
  {
    var v := CheckpointStart(w, i, next).world;
    assert StartOk(w.starts, i) && i == |w.starts| - 1;
    CheckpointedRowKeeps(w, i, next);
    forall run ensures Known(v.starts, run) <==> Known(w.starts, run) {
      KnownAfterUpdate(w.starts, i, v.starts[i], run);
    }
    forall j | 0 <= j < |v.starts| ensures ObjectsOk(v, j) {
      if j != i {
        UntouchedRowKeeps(w, v, j);
      }
    }
    forall s, j | s in v.stops && 0 <= j < |v.starts| ensures StopShape(v, s, j) {
      if j != i {
        OtherStopSurvives(w, v, s, j);
      } else {
        assert StopOk(w, s, j);
      }
    }
  }

  lemma CheckpointKeeps(w: World, i: nat, next: Observation)
    requires Invariant(w) && i < |w.starts| && !w.blocked
    requires next == Progress(w, w.starts[i].operation).(ready := next.ready, boot := next.boot)
    ensures Invariant(CheckpointStart(w, i, next).world)
    ensures CheckpointStart(w, i, next).ok && !next.ready && next.boot == 0 ==>
            Synced(CheckpointStart(w, i, next).world, i)
  {
    if CheckpointStart(w, i, next).ok {
      CheckpointKeepsLedger(w, i, next);
      CheckpointKeepsObjects(w, i, next);
    }
  }

  lemma LedgerFrame(w: World, v: World)
    requires Ledger(w) && v.starts == w.starts && v.stops == w.stops && v.epoch == w.epoch
    ensures Ledger(v)
  {
    assert forall s, i :: s in w.stops && 0 <= i < |w.starts| ==> StopOk(w, s, i) == StopOk(v, s, i);
    assert forall run :: HasStop(w, run) == HasStop(v, run);
  }

  /** An effect on an object leaves the rows alone and joins the history. */
  lemma RecordsGrow(w: World, v: World, e: Effect)
    requires Invariant(w) && Allowed(w.log, e, w.lossy) && !e.StopRecorded?
    requires v.starts == w.starts && v.stops == w.stops && v.epoch == w.epoch
    requires v.log == w.log + [e] && v.lossy == w.lossy
    ensures Ledger(v) && History(v.log, v.lossy) && ProofsTrue(v)
  {
    HistoryGrows(w.log, e, w.lossy);
    LedgerFrame(w, v);
    ProofsKeep(w, v);
  }

  /** Rows of other runs do not see a change to one run's objects. */
  ghost predicate OthersAlike(w: World, v: World, run: Id) {
    && v.starts == w.starts && v.stops == w.stops && v.epoch == w.epoch && w.log <= v.log
    && v.disturbed == w.disturbed && v.lossy == w.lossy
    && (forall r :: r != run ==> At(v.pods, r) == At(w.pods, r) && At(v.services, r) == At(w.services, r))
    && (forall kind, r, u :: Made(kind, r, u) in v.log && r != run ==> Made(kind, r, u) in w.log)
  }

  lemma OtherRowsKeep(w: World, v: World, run: Id, j: nat)
    requires OthersAlike(w, v, run) && v.secret == w.secret
    requires j < |w.starts| && ObjectsOk(w, j) && w.starts[j].operation != run
    ensures ObjectsOk(v, j)
  {
  }

  lemma OtherStopsKeep(w: World, v: World, s: Id, j: nat, run: Id)
    requires OthersAlike(w, v, run)
    requires s in w.stops && j < |w.starts| && StopShape(w, s, j) && w.starts[j].operation != run
    ensures StopShape(v, s, j)
  {
  }

  /** A start that does not know the Secret is the first of its epoch. */
  lemma SecretIsInherited(w: World, i: nat)
    requires Ledger(w) && i < |w.starts| && w.starts[i].observation.secret == 0
    ensures forall j :: 0 <= j < i ==> w.starts[j].epoch < w.starts[i].epoch
  {
    if i > 0 {
      assert StartOk(w.starts, i - 1) && Inherits(w.starts[i - 1], w.starts[i]);
      assert w.starts[i - 1].epoch == w.starts[i].epoch - 1;
    }
  }

  /** The Secret of a later epoch is none of an earlier row's business. */
  lemma EarlierRowKeeps(w: World, v: World, j: nat)
    requires j < |w.starts| && j < |v.starts| && ObjectsOk(w, j) && v.starts[j] == w.starts[j]
    requires v.pods == w.pods && v.services == w.services && v.disturbed == w.disturbed && v.lossy == w.lossy
    requires w.starts[j].epoch < v.epoch && !CanLaunch(w.starts[j].phase) && !w.starts[j].phase.Running?
    requires w.log <= v.log
    requires forall kind: Kind, r, u :: Made(kind, r, u) in v.log && !kind.Secret? ==> Made(kind, r, u) in w.log
    ensures ObjectsOk(v, j)
  {
  }

  lemma CreatedSecretRow(w: World, i: nat)
    requires Synced(w, i) && CreateSecret(w).ok && ObjectsOk(w, i) && w.starts[i].epoch == w.epoch && w.next > 0
    requires At(w.pods, w.starts[i].operation).Absent? && At(w.services, w.starts[i].operation).Absent?
    ensures ObjectsOk(CreateSecret(w).world, i)
  {
    var v := CreateSecret(w).world;
    assert v.log[|w.log|] == Made(Secret, w.epoch, w.next);
  }

  lemma CreatedSecretRows(w: World, i: nat)
    requires Ledger(w) && RowsMatch(w) && w.next > 0 && Synced(w, i) && CreateSecret(w).ok && i == |w.starts| - 1
    requires At(w.pods, w.starts[i].operation).Absent? && At(w.services, w.starts[i].operation).Absent?
    ensures RowsMatch(CreateSecret(w).world)
  {
    var v := CreateSecret(w).world;
    SecretIsInherited(w, i);
    forall j | 0 <= j < |v.starts| ensures ObjectsOk(v, j) {
      if j == i {
        CreatedSecretRow(w, i);
      } else {
        assert StartOk(w.starts, j);
        EarlierRowKeeps(w, v, j);
      }
    }
  }

  lemma CreateSecretKeeps(w: World, i: nat)
    requires Invariant(w) && Synced(w, i) && CreateSecret(w).ok
    requires At(w.pods, w.starts[i].operation).Absent? && At(w.services, w.starts[i].operation).Absent?
    ensures Invariant(CreateSecret(w).world)
  {
    var v, e := CreateSecret(w).world, Made(Secret, w.epoch, w.next);
    assert StartOk(w.starts, i) && ObjectsOk(w, i) && i == |w.starts| - 1;
    assert Allowed(w.log, e, w.lossy);
    RecordsGrow(w, v, e);
    CreatedSecretRows(w, i);
    StopsIgnoreCreation(w, v);
  }

  /** A stop's shape speaks of its run's own objects only. */
  lemma StopsIgnoreCreation(w: World, v: World)
    requires StopsMatch(w) && v.starts == w.starts && v.stops == w.stops && v.pods == w.pods && v.services == w.services
    requires w.log <= v.log && v.disturbed == w.disturbed
    ensures StopsMatch(v)
  {
    forall s, j | s in v.stops && 0 <= j < |v.starts| ensures StopShape(v, s, j) {
      OtherStopSurvives(w, v, s, j);
    }
  }

  lemma CreateServiceKeeps(w: World, i: nat)
    requires Invariant(w) && Synced(w, i) && w.secret.Present?
    requires At(w.pods, w.starts[i].operation).Absent? && CreateService(w, w.starts[i].operation).ok
    ensures Invariant(CreateService(w, w.starts[i].operation).world)
  {
    var run := w.starts[i].operation;
    var v, e := CreateService(w, run).world, Made(Service, run, w.next);
    assert StartOk(w.starts, i) && ObjectsOk(w, i);
    assert Made(Secret, w.epoch, w.secret.uid) in w.log;
    assert Allowed(w.log, e, w.lossy);
    RecordsGrow(w, v, e);
    CreationKeepsObjects(w, v, i, e);
  }

  lemma CreatePodKeeps(w: World, i: nat)
    requires Invariant(w) && Synced(w, i) && w.secret.Present?
    requires At(w.services, w.starts[i].operation).Present? && CreatePod(w, w.starts[i].operation).ok
    ensures Invariant(CreatePod(w, w.starts[i].operation).world)
  {
    var run := w.starts[i].operation;
    var v, e := CreatePod(w, run).world, Made(Pod, run, w.next);
    assert StartOk(w.starts, i) && ObjectsOk(w, i);
    assert Made(Service, run, At(w.services, run).uid) in w.log;
    assert Allowed(w.log, e, w.lossy);
    RecordsGrow(w, v, e);
    CreationKeepsObjects(w, v, i, e);
  }

  ghost predicate Creates(w: World, v: World, e: Effect) {
    && e.Made? && e.uid == w.next && w.secret.Present?
    && (|| (e.kind.Service? && v == CreateService(w, e.run).world && CreateService(w, e.run).ok
            && At(w.pods, e.run).Absent?)
        || (e.kind.Pod? && v == CreatePod(w, e.run).world && CreatePod(w, e.run).ok && At(w.services, e.run).Present?))
  }

  lemma CreatedRowKeeps(w: World, v: World, i: nat, e: Effect)
    requires Synced(w, i) && Creates(w, v, e) && e.run == w.starts[i].operation && ObjectsOk(w, i) && w.next > 0
    requires w.starts[i].epoch == w.epoch
    ensures ObjectsOk(v, i)
  {
    assert v.log == w.log + [e] && v.log[|w.log|] == e;
  }

  lemma CreationAdds(w: World, v: World, e: Effect)
    requires Creates(w, v, e)
    ensures OthersAlike(w, v, e.run)
    ensures forall kind, r, u :: Made(kind, r, u) in v.log ==> Made(kind, r, u) in w.log || Made(kind, r, u) == e
  {
    assert v.log == w.log + [e];
  }

  lemma CreationKeepsObjects(w: World, v: World, i: nat, e: Effect)
    requires Ledger(w) && Objects(w) && Synced(w, i) && Creates(w, v, e) && e.run == w.starts[i].operation
    ensures Objects(v)
  {
    assert StartOk(w.starts, i);
    CreatedRowKeeps(w, v, i, e);
    CreationAdds(w, v, e);
    forall j | 0 <= j < |v.starts| ensures ObjectsOk(v, j) {
      if j != i {
        OtherRowsKeep(w, v, e.run, j);
      }
    }
    forall s, j | s in v.stops && 0 <= j < |v.starts| ensures StopShape(v, s, j) {
      if j != i {
        OtherStopsKeep(w, v, s, j, e.run);
      } else {
        assert StopOk(w, s, j);
      }
    }
    assert w.starts[i].operation == e.run && Known(v.starts, e.run);
  }

  lemma EnsureKeeps(w: World, i: nat, answers: Answers)
    requires Invariant(w) && i < |w.starts|
    ensures
      var o := EnsureSpec(w, i, answers);
      && Invariant(o.world)
      && (o.ok ==>
          o.world.starts[i].observation == Progress(o.world, o.world.starts[i].operation).(ready := answers.ready))
  {
    var r := w.starts[i];
    var run := r.operation;
    if ValidObservation(r.observation) && answers.volume && !w.blocked
       && Launchable(r.observation, At(w.pods, run), At(w.services, run), w.secret) {
      CheckpointKeeps(w, i, Progress(w, run));
      var first := CheckpointStart(w, i, Progress(w, run));
      if first.ok {
        ObjectsEnsured(first.world, i);
        var built := EnsureObjects(first.world, i);
        if built.ok {
          CheckpointKeeps(built.world, i, Progress(built.world, run).(ready := answers.ready));
        }
      }
    }
  }

  lemma ObjectsEnsured(w: World, i: nat)
    requires Invariant(w) && Synced(w, i)
    requires Launchable(w.starts[i].observation, At(w.pods, w.starts[i].operation),
                        At(w.services, w.starts[i].operation), w.secret)
    ensures Invariant(EnsureObjects(w, i).world)
    ensures EnsureObjects(w, i).world.starts[i].operation == w.starts[i].operation
    ensures EnsureObjects(w, i).ok ==> Synced(EnsureObjects(w, i).world, i)
  {
    SecretEnsured(w, i);
    var secret := EnsureSecret(w, i);
    if secret.ok {
      ServiceEnsured(secret.world, i);
      var service := EnsureService(secret.world, i);
      if service.ok {
        PodEnsured(service.world, i);
      }
    }
  }

  /** A creation and the checkpoint after it. */
  lemma MadeIsCheckpointed(made: World, i: nat)
    requires Invariant(made) && i < |made.starts| && !made.blocked
    ensures
      var o := CheckpointStart(made, i, Progress(made, made.starts[i].operation));
      && Invariant(o.world) && o.world == made.(starts := o.world.starts, budget := o.world.budget)
      && i < |o.world.starts| && o.world.starts[i].operation == made.starts[i].operation
      && (o.ok ==> Synced(o.world, i))
  {
    CheckpointKeeps(made, i, Progress(made, made.starts[i].operation));
  }

  lemma SecretEnsured(w: World, i: nat)
    requires Invariant(w) && Synced(w, i)
    requires w.secret.Present?
             || (At(w.pods, w.starts[i].operation).Absent? && At(w.services, w.starts[i].operation).Absent?)
    ensures
      var o := EnsureSecret(w, i);
      && Invariant(o.world) && o.world.pods == w.pods && o.world.services == w.services
      && o.world.starts[i].operation == w.starts[i].operation
      && (o.ok ==> Synced(o.world, i) && o.world.secret.Present?)
  {
    if w.secret.Absent? && CreateSecret(w).ok {
      CreateSecretKeeps(w, i);
      var made := CreateSecret(w).world;
      MadeIsCheckpointed(made, i);
    }
  }

  lemma ServiceEnsured(w: World, i: nat)
    requires Invariant(w) && Synced(w, i) && w.secret.Present?
    requires At(w.services, w.starts[i].operation).Present? || At(w.pods, w.starts[i].operation).Absent?
    ensures
      var o := EnsureService(w, i);
      && Invariant(o.world) && o.world.pods == w.pods && o.world.secret == w.secret
      && o.world.starts[i].operation == w.starts[i].operation
      && (o.ok ==> Synced(o.world, i) && At(o.world.services, w.starts[i].operation).Present?)
  {
    var run := w.starts[i].operation;
    if At(w.services, run).Absent? && CreateService(w, run).ok {
      CreateServiceKeeps(w, i);
      var made := CreateService(w, run).world;
      MadeIsCheckpointed(made, i);
    }
  }

  lemma PodEnsured(w: World, i: nat)
    requires Invariant(w) && Synced(w, i) && w.secret.Present? && At(w.services, w.starts[i].operation).Present?
    ensures
      var o := EnsurePod(w, i);
      && Invariant(o.world) && o.world.starts[i].operation == w.starts[i].operation
      && (o.ok ==> Synced(o.world, i))
  {
    var run := w.starts[i].operation;
    if At(w.pods, run).Absent? && CreatePod(w, run).ok {
      CreatePodKeeps(w, i);
      var made := CreatePod(w, run).world;
      MadeIsCheckpointed(made, i);
    }
  }

  lemma AdvanceKeeps(w: World, operation: Id, generation: nat, answers: Answers)
    requires Invariant(w)
    ensures Invariant(AdvanceSpec(w, operation, generation, answers).world)
  {
    var found := Find(w.starts, operation);
    if found.Some? && w.starts[found.value].generation == generation && CanLaunch(w.starts[found.value].phase) {
      var i := found.value;
      EnsureKeeps(w, i, answers);
      var built := EnsureSpec(w, i, answers);
      if built.ok && built.world.starts[i].observation.ready && answers.boot != 0 {
        CheckpointKeeps(built.world, i, built.world.starts[i].observation.(boot := answers.boot));
      }
    }
  }

  // ---- Accepting ----

  lemma KnownAfterAppend(starts: seq<StartRow>, row: StartRow, run: Id)
    ensures Known(starts + [row], run) <==> Known(starts, run) || row.operation == run
  {
    var longer := starts + [row];
    assert longer[|starts|] == row;
    if Known(starts, run) {
      var j :| 0 <= j < |starts| && starts[j].operation == run;
      assert longer[j].operation == run;
    }
    if Known(longer, run) {
      var j :| 0 <= j < |longer| && longer[j].operation == run;
      assert j < |starts| ==> starts[j].operation == run;
    }
  }

  /** A new row under the profile of the last one. */
  ghost predicate Continues(w: World, v: World, row: StartRow) {
    && v == w.(starts := v.starts, budget := v.budget)
    && if w.starts == [] then row.observation.secret == 0
       else row.profile == w.starts[|w.starts| - 1].profile
            && row.observation.secret == w.starts[|w.starts| - 1].observation.secret
  }

  /** A new row under another profile, with the Secret it found there. */
  ghost predicate Turns(w: World, v: World, row: StartRow) {
    var secret := row.observation.secret;
    && w.starts != [] && row.profile != w.starts[|w.starts| - 1].profile && v.epoch == w.epoch + 1
    && v.secret == (if secret == 0 then Absent else Present(secret, false)) && (v.blocked ==> secret == 0)
    && v.log == if secret == 0 then w.log else w.log + [Made(Secret, v.epoch, secret)]
  }

  ghost predicate Accepts(w: World, v: World, row: StartRow) {
    && v == w.(starts := w.starts + [row], secret := v.secret, blocked := v.blocked, epoch := v.epoch, log := v.log,
               budget := v.budget)
    && row.operation != 0 && Find(w.starts, row.operation).None? && row.phase.Accepted? && row.epoch == v.epoch
    && row.generation == (if w.starts == [] then 1 else w.starts[|w.starts| - 1].generation + 1)
    && row.observation == Observation(0, 0, row.observation.secret, false, 0)
    && (w.starts != [] ==>
          w.starts[|w.starts| - 1].phase.Stopped? && w.starts[|w.starts| - 1].observation.secret != 0)
    && (Continues(w, v, row) || Turns(w, v, row))
  }

  lemma TurnCases(w: World, operation: Id, generation: nat, profile: Profile, h: Holder)
    requires w.starts != [] && h != Ours(0) && w.budget > 0
    ensures
      var u := Turned(w, h);
      var v := Appended(u, operation, generation, profile, Uid(u.secret));
      var row := StartRow(operation, generation, profile, w.epoch + 1, Accepted,
                          Observation(0, 0, Uid(u.secret), false, 0), 1);
      && v == w.(starts := w.starts + [row], secret := v.secret, blocked := v.blocked, epoch := w.epoch + 1,
                 log := v.log, budget := w.budget - 1)
      && (profile != w.starts[|w.starts| - 1].profile ==> Turns(w, v, row))
  {
  }

  lemma AcceptCases(w: World, operation: Id, generation: nat, profile: Profile, found: Holder, volume: bool)
    requires EpochsOk(w)
    ensures
      var v := AcceptStart(w, operation, generation, profile, found, volume).world;
      v == w || (v.starts != [] && Accepts(w, v, v.starts[|v.starts| - 1]))
  {
    if w.starts != [] && w.budget > 0 {
      var h := NewHolder(w, w.starts[|w.starts| - 1].profile, profile, found);
      TurnCases(w, operation, generation, profile, h);
    }
  }

  lemma AcceptKeepsStarts(w: World, v: World, row: StartRow)
    requires RowsOk(w.starts) && EpochsOk(w) && Accepts(w, v, row)
    ensures RowsOk(v.starts) && EpochsOk(v)
  {
    forall j | 0 <= j < |v.starts| ensures StartOk(v.starts, j) {
      assert j < |w.starts| ==> StartOk(w.starts, j);
      assert w.starts != [] ==> StartOk(w.starts, |w.starts| - 1);
    }
  }

  lemma AcceptKeepsLedger(w: World, v: World, row: StartRow)
    requires Ledger(w) && Accepts(w, v, row)
    ensures Ledger(v)
  {
    AcceptKeepsStarts(w, v, row);
    forall s | s in v.stops ensures Known(v.starts, v.stops[s].run) && v.stops[s].run != row.operation {
      KnownAfterAppend(w.starts, row, v.stops[s].run);
      assert Known(w.starts, w.stops[s].run);
    }
    forall s, j | s in v.stops && 0 <= j < |v.starts| ensures StopOk(v, s, j) {
      assert j < |w.starts| ==> StopOk(w, s, j);
    }
    assert forall run :: HasStop(w, run) == HasStop(v, run);
  }

  lemma AcceptKeepsStops(w: World, v: World, row: StartRow)
    requires StopsMatch(w) && StopsKnown(w) && Accepts(w, v, row)
    ensures StopsMatch(v)
  {
    assert !Known(w.starts, row.operation);
    forall s, j | s in v.stops && 0 <= j < |v.starts| ensures StopShape(v, s, j) {
      if j < |w.starts| {
        OtherStopSurvives(w, v, s, j);
      } else {
        assert Known(w.starts, w.stops[s].run);
      }
    }
  }

  lemma AcceptKeepsRows(w: World, v: World, row: StartRow)
    requires Ledger(w) && Objects(w) && Accepts(w, v, row)
    ensures RowsMatch(v)
  {
    var n := |w.starts|;
    forall j | 0 <= j < n ensures ObjectsOk(v, j) {
      if Continues(w, v, row) {
        UntouchedRowKeeps(w, v, j);
      } else {
        assert StartOk(w.starts, j) && w.starts[j].epoch <= w.starts[n - 1].epoch;
        EarlierRowKeeps(w, v, j);
      }
    }
    assert !Known(w.starts, row.operation);
    assert At(w.pods, row.operation).Absent? && At(w.services, row.operation).Absent?;
    AcceptedRowIsOk(w, v, row);
  }

  lemma AcceptedRowIsOk(w: World, v: World, row: StartRow)
    requires Ledger(w) && Objects(w) && Accepts(w, v, row) && !Known(w.starts, row.operation)
    requires At(w.pods, row.operation).Absent? && At(w.services, row.operation).Absent?
    ensures ObjectsOk(v, |w.starts|)
  {
    assert w.starts != [] ==> ObjectsOk(w, |w.starts| - 1);
    if Turns(w, v, row) && row.observation.secret != 0 {
      assert v.log[|w.log|] == Made(Secret, v.epoch, row.observation.secret);
    }
  }

  lemma AcceptKeepsObjects(w: World, v: World, row: StartRow)
    requires Ledger(w) && Objects(w) && Accepts(w, v, row)
    ensures Objects(v)
  {
    forall run ensures Known(v.starts, run) <==> Known(w.starts, run) || run == row.operation {
      KnownAfterAppend(w.starts, row, run);
    }
    AcceptKeepsRows(w, v, row);
    AcceptKeepsStops(w, v, row);
    assert SecretOk(v) && ObjectsKnown(v);
  }

  lemma AcceptKeepsRecords(w: World, v: World, row: StartRow)
    requires Invariant(w) && Accepts(w, v, row)
    ensures History(v.log, v.lossy) && ProofsTrue(v)
  {
    if v.log != w.log {
      HistoryGrows(w.log, Made(Secret, v.epoch, row.observation.secret), w.lossy);
    }
    ProofsKeep(w, v);
  }

  lemma AcceptKeeps(w: World, operation: Id, generation: nat, profile: Profile, found: Holder, volume: bool)
    requires Invariant(w)
    ensures Invariant(AcceptStart(w, operation, generation, profile, found, volume).world)
  {
    AcceptCases(w, operation, generation, profile, found, volume);
    var v := AcceptStart(w, operation, generation, profile, found, volume).world;
    if v != w {
      var row := v.starts[|v.starts| - 1];
      AcceptKeepsLedger(w, v, row);
      AcceptKeepsObjects(w, v, row);
      AcceptKeepsRecords(w, v, row);
    }
  }

  // ---- Stopping ----

  lemma AcceptedStopExists(w: World, v: World, i: nat, stop: Id)
    requires StopsExist(w) && i < |w.starts| && stop !in w.stops && stop in v.stops
    requires |v.starts| == |w.starts| && v.starts == w.starts[i := v.starts[i]]
    requires v.stops == w.stops[stop := v.stops[stop]]
    requires v.starts[i].operation == w.starts[i].operation == v.stops[stop].run
    ensures StopsExist(v)
  {
    forall j | 0 <= j < |v.starts| && (v.starts[j].phase.Stopping? || v.starts[j].phase.Stopped?)
      ensures HasStop(v, v.starts[j].operation)
    {
      if j == i {
        assert v.stops[stop].run == v.starts[i].operation;
      } else {
        var s :| s in w.stops && w.stops[s].run == w.starts[j].operation;
        assert v.stops[s].run == w.starts[j].operation;
      }
    }
  }

  lemma AcceptStopKeepsLedger(w: World, i: nat, stop: Id, boot: Id)
    requires Ledger(w) && i < |w.starts| && stop !in w.stops && stop != 0 && stop != w.starts[i].operation
             && AcceptStop(w, i, stop, boot).ok
    ensures Ledger(AcceptStop(w, i, stop, boot).world)
  {
    var v, run := AcceptStop(w, i, stop, boot).world, w.starts[i].operation;
    UpdateKeepsPlaces(w, v, i);
    forall j | 0 <= j < |v.starts| ensures StartOk(v.starts, j) {
      assert StartOk(w.starts, j) && StartOk(w.starts, i);
    }
    forall s | s in w.stops ensures w.stops[s].run != run {
      assert StopOk(w, s, i);
    }
    forall s, j | s in v.stops && 0 <= j < |v.starts| ensures StopOk(v, s, j) {
      assert s != stop ==> StopOk(w, s, j);
    }
    forall s | s in v.stops ensures Known(v.starts, v.stops[s].run) {
      KnownAfterUpdate(w.starts, i, v.starts[i], v.stops[s].run);
      assert w.starts[i].operation == run && Known(w.starts, run);
    }
    AcceptedStopExists(w, v, i, stop);
  }

  lemma AcceptStopKeepsObjects(w: World, i: nat, stop: Id, boot: Id)
    requires Ledger(w) && Objects(w) && i < |w.starts| && stop !in w.stops && AcceptStop(w, i, stop, boot).ok
    ensures Objects(AcceptStop(w, i, stop, boot).world)
  {
    var v, run := AcceptStop(w, i, stop, boot).world, w.starts[i].operation;
    assert StartOk(w.starts, i) && ObjectsOk(w, i);
    forall r ensures Known(v.starts, r) <==> Known(w.starts, r) {
      KnownAfterUpdate(w.starts, i, v.starts[i], r);
    }
    forall j | 0 <= j < |v.starts| ensures ObjectsOk(v, j) {
      assert ObjectsOk(w, j);
    }
    forall s, j | s in v.stops && 0 <= j < |v.starts| ensures StopShape(v, s, j) {
      if s != stop {
        assert StopShape(w, s, j) && StopOk(w, s, j);
      }
    }
  }

  lemma AcceptStopKeepsProofs(w: World, i: nat, stop: Id, boot: Id)
    requires ProofsTrue(w) && i < |w.starts| && stop !in w.stops && AcceptStop(w, i, stop, boot).ok
    ensures ProofsTrue(AcceptStop(w, i, stop, boot).world)
  {
    ProofsKeep(w, AcceptStop(w, i, stop, boot).world);
  }

  lemma AcceptStopKeeps(w: World, i: nat, stop: Id, boot: Id)
    requires Invariant(w) && i < |w.starts| && stop != 0 && stop != w.starts[i].operation
    ensures Invariant(AcceptStop(w, i, stop, boot).world)
    ensures AcceptStop(w, i, stop, boot).ok ==>
            AcceptStop(w, i, stop, boot).world.stops[stop].run == w.starts[i].operation
    ensures AcceptStop(w, i, stop, boot).world.starts[i].operation == w.starts[i].operation
  {
    if stop !in w.stops && AcceptStop(w, i, stop, boot).ok {
      AcceptStopKeepsLedger(w, i, stop, boot);
      AcceptStopKeepsObjects(w, i, stop, boot);
      AcceptStopKeepsProofs(w, i, stop, boot);
    }
  }

  /** A stop belongs to the row it is worked on. */
  ghost predicate Working(w: World, i: nat, stop: Id) {
    && Invariant(w) && i < |w.starts| && stop in w.stops && w.stops[stop].run == w.starts[i].operation
  }

  /** What the next stage is entitled to. */
  ghost predicate Due(w: World, i: nat, stop: Id, next: StopPhase, proof: Proof)
    requires i < |w.starts| && stop in w.stops
  {
    var run := w.starts[i].operation;
    && proof == StopProof(w.starts[i], stop)
    && (next.Sealed? ==> Observable(w, w.starts[i]))
    && (next.PodDeleted? ==> At(w.pods, run).Absent?)
    && (next.StopDone? ==> At(w.services, run).Absent?)
  }

  lemma StopRowAdvances(w: World, i: nat, stop: Id, next: StopPhase, proof: Proof, s: Id, j: nat)
    requires i < |w.starts| && stop in w.stops && w.stops[stop].run == w.starts[i].operation
    requires proof == StopProof(w.starts[i], stop) && CheckpointStop(w, i, stop, next, proof).ok
    requires s in w.stops && j < |w.starts| && StopOk(w, s, j) && StopOk(w, stop, i)
    requires w.stops[s].run == w.stops[stop].run ==> s == stop
    requires w.starts[j].operation == w.starts[i].operation ==> j == i
    ensures StopOk(CheckpointStop(w, i, stop, next, proof).world, s, j)
  {
  }

  lemma StartRowsAdvance(w: World, i: nat, stop: Id, next: StopPhase, proof: Proof, j: nat)
    requires i < |w.starts| && stop in w.stops && CheckpointStop(w, i, stop, next, proof).ok
    requires j < |w.starts| && StartOk(w.starts, j) && StartOk(w.starts, i)
    ensures StartOk(CheckpointStop(w, i, stop, next, proof).world.starts, j)
  {
  }

  lemma StopRowsAgree(w: World, i: nat, stop: Id, next: StopPhase, proof: Proof)
    requires StopsAgree(w) && StopsUnique(w.stops) && Distinct(w.starts)
    requires i < |w.starts| && stop in w.stops && w.stops[stop].run == w.starts[i].operation
    requires proof == StopProof(w.starts[i], stop) && CheckpointStop(w, i, stop, next, proof).ok
    ensures StopsAgree(CheckpointStop(w, i, stop, next, proof).world)
  {
    var v := CheckpointStop(w, i, stop, next, proof).world;
    forall s, j | s in v.stops && 0 <= j < |v.starts| ensures StopOk(v, s, j) {
      StopRowAdvances(w, i, stop, next, proof, s, j);
    }
  }

  lemma StopKeysKeep(w: World, v: World, i: nat)
    requires StopsUnique(w.stops) && StopsKnown(w) && StopsExist(w) && Distinct(w.starts)
    requires v.stops.Keys == w.stops.Keys
    requires forall s :: s in w.stops ==> v.stops[s].run == w.stops[s].run
    requires i < |w.starts| && w.starts[i].phase.Stopping?
             && (v.starts == w.starts
                 || v.starts == w.starts[i := w.starts[i].(phase := Stopped, revision := w.starts[i].revision + 1)])
    ensures StopsUnique(v.stops) && StopsKnown(v) && StopsExist(v) && Distinct(v.starts)
  {
    forall r ensures (Known(v.starts, r) <==> Known(w.starts, r)) && (HasStop(w, r) ==> HasStop(v, r)) {
      KnownAfterUpdate(w.starts, i, v.starts[i], r);
      StopsStay(w, v, r);
    }
  }

  /** What a stop commit does to rows and stops. */
  lemma CheckpointStopUpdates(w: World, i: nat, stop: Id, next: StopPhase, proof: Proof)
    requires i < |w.starts| && stop in w.stops && CheckpointStop(w, i, stop, next, proof).ok
    ensures
      var v := CheckpointStop(w, i, stop, next, proof).world;
      && v.stops.Keys == w.stops.Keys && (forall s :: s in w.stops ==> v.stops[s].run == w.stops[s].run)
      && v.epoch == w.epoch && w.starts[i].phase.Stopping?
      && (v.starts == w.starts
          || v.starts == w.starts[i := w.starts[i].(phase := Stopped, revision := w.starts[i].revision + 1)])
  {
  }

  lemma CheckpointStopKeepsKeys(w: World, i: nat, stop: Id, next: StopPhase, proof: Proof)
    requires Ledger(w) && i < |w.starts| && stop in w.stops && CheckpointStop(w, i, stop, next, proof).ok
    ensures
      var v := CheckpointStop(w, i, stop, next, proof).world;
      EpochsOk(v) && StopsUnique(v.stops) && StopsKnown(v) && StopsExist(v) && Distinct(v.starts)
  {
    var v := CheckpointStop(w, i, stop, next, proof).world;
    CheckpointStopUpdates(w, i, stop, next, proof);
    UpdateKeepsPlaces(w, v, i);
    StopKeysKeep(w, v, i);
  }

  lemma CheckpointStopKeepsLedger(w: World, i: nat, stop: Id, next: StopPhase, proof: Proof)
    requires Ledger(w) && i < |w.starts| && stop in w.stops && w.stops[stop].run == w.starts[i].operation
    requires proof == StopProof(w.starts[i], stop) && CheckpointStop(w, i, stop, next, proof).ok
    ensures Ledger(CheckpointStop(w, i, stop, next, proof).world)
  {
    CheckpointStopKeepsStarts(w, i, stop, next, proof);
    CheckpointStopKeepsKeys(w, i, stop, next, proof);
    StopRowsAgree(w, i, stop, next, proof);
  }

  lemma CheckpointStopKeepsStarts(w: World, i: nat, stop: Id, next: StopPhase, proof: Proof)
    requires RowsOk(w.starts) && i < |w.starts| && stop in w.stops && CheckpointStop(w, i, stop, next, proof).ok
    ensures RowsOk(CheckpointStop(w, i, stop, next, proof).world.starts)
  {
    var v := CheckpointStop(w, i, stop, next, proof).world;
    forall j | 0 <= j < |v.starts| ensures StartOk(v.starts, j) {
      assert StartOk(w.starts, i);
      StartRowsAdvance(w, i, stop, next, proof, j);
    }
  }

  lemma StopsStay(w: World, v: World, run: Id)
    requires forall s :: s in w.stops ==> s in v.stops && v.stops[s].run == w.stops[s].run
    ensures HasStop(w, run) ==> HasStop(v, run)
  {
    if HasStop(w, run) {
      var s :| s in w.stops && w.stops[s].run == run;
      assert v.stops[s].run == run;
    }
  }

  /** Stop commits touch no object and record no creation. */
  lemma RowSurvivesStop(w: World, v: World, j: nat)
    requires j < |w.starts| && ObjectsOk(w, j) && j < |v.starts|
    requires v.secret == w.secret && v.epoch == w.epoch && v.pods == w.pods && v.services == w.services
    requires v.disturbed == w.disturbed && v.lossy == w.lossy
    requires v.starts[j] == w.starts[j]
             || v.starts[j] == w.starts[j].(phase := Stopped, revision := v.starts[j].revision)
    requires forall kind, r, u :: Made(kind, r, u) in v.log <==> Made(kind, r, u) in w.log
    ensures ObjectsOk(v, j)
  {
  }

  lemma OtherStopSurvives(w: World, v: World, s: Id, j: nat)
    requires s in w.stops && j < |w.starts| && StopShape(w, s, j) && j < |v.starts| && s in v.stops
    requires v.pods == w.pods && v.services == w.services && v.disturbed == w.disturbed && w.log <= v.log
    requires v.starts[j].observation == w.starts[j].observation && v.starts[j].operation == w.starts[j].operation
    requires v.stops[s] == w.stops[s]
    ensures StopShape(v, s, j)
  {
  }

  lemma StopShapesKeep(w: World, i: nat, stop: Id, next: StopPhase, proof: Proof)
    requires StopsMatch(w) && Distinct(w.starts) && i < |w.starts| && stop in w.stops
    requires w.stops[stop].run == w.starts[i].operation && StopOk(w, stop, i) && ObjectsOk(w, i)
    requires Due(w, i, stop, next, proof) && CheckpointStop(w, i, stop, next, proof).ok
    ensures StopsMatch(CheckpointStop(w, i, stop, next, proof).world)
  {
    var v := CheckpointStop(w, i, stop, next, proof).world;
    forall s, j | s in v.stops && 0 <= j < |v.starts| ensures StopShape(v, s, j) {
      if s != stop {
        OtherStopSurvives(w, v, s, j);
      } else if j == i {
        ShapeAdvances(w, i, stop, next, proof);
      } else {
        assert w.starts[j].operation != w.starts[i].operation;
      }
    }
  }

  lemma StopRowsMatch(w: World, i: nat, stop: Id, next: StopPhase, proof: Proof)
    requires SecretOk(w) && ObjectsKnown(w) && RowsMatch(w) && i < |w.starts| && stop in w.stops
    requires CheckpointStop(w, i, stop, next, proof).ok
    ensures
      var v := CheckpointStop(w, i, stop, next, proof).world;
      SecretOk(v) && ObjectsKnown(v) && RowsMatch(v)
  {
    var v := CheckpointStop(w, i, stop, next, proof).world;
    assert forall kind, r, u :: Made(kind, r, u) in v.log <==> Made(kind, r, u) in w.log;
    forall r ensures Known(v.starts, r) <==> Known(w.starts, r) {
      KnownAfterUpdate(w.starts, i, v.starts[i], r);
    }
    forall j | 0 <= j < |v.starts| ensures ObjectsOk(v, j) {
      RowSurvivesStop(w, v, j);
    }
  }

  lemma ShapeAdvances(w: World, i: nat, stop: Id, next: StopPhase, proof: Proof)
    requires i < |w.starts| && stop in w.stops && w.stops[stop].run == w.starts[i].operation
    requires StopShape(w, stop, i) && StopOk(w, stop, i) && ObjectsOk(w, i)
    requires Due(w, i, stop, next, proof) && CheckpointStop(w, i, stop, next, proof).ok
    ensures StopShape(CheckpointStop(w, i, stop, next, proof).world, stop, i)
  {
    var v, s := CheckpointStop(w, i, stop, next, proof).world, w.stops[stop];
    assert v.log[|w.log|] == StopRecorded(s.run, next, proof);
    forall q | 0 <= Stage(q) <= Stage(next) ensures StopRecorded(s.run, q, proof) in v.log {
      if q != next {
        assert StopRecorded(s.run, q, s.proof.value) in w.log;
      }
    }
  }

  lemma CommitIsAllowed(w: World, i: nat, stop: Id, next: StopPhase, proof: Proof)
    requires i < |w.starts| && stop in w.stops && w.stops[stop].run == w.starts[i].operation
    requires StopShape(w, stop, i) && proof == StopProof(w.starts[i], stop)
             && CheckpointStop(w, i, stop, next, proof).ok
    ensures Allowed(w.log, StopRecorded(w.stops[stop].run, next, proof), w.lossy)
  {
    if !next.Sealed? {
      assert Stage(Previous(next)) == Stage(w.stops[stop].phase);
      assert Recorded(w.log, w.stops[stop]);
    }
  }

  /** The one new entry carries the proof of the row itself. */
  lemma StopProofsKeep(w: World, i: nat, stop: Id, next: StopPhase, proof: Proof)
    requires ProofsTrue(w) && RowsOk(w.starts) && i < |w.starts| && stop in w.stops
    requires w.stops[stop].run == w.starts[i].operation
    requires proof == StopProof(w.starts[i], stop) && CheckpointStop(w, i, stop, next, proof).ok
    ensures ProofsTrue(CheckpointStop(w, i, stop, next, proof).world)
  {
    var v := CheckpointStop(w, i, stop, next, proof).world;
    var e := StopRecorded(w.stops[stop].run, next, proof);
    var u := v.(log := w.log);
    assert StartOk(w.starts, i);
    ProofsKeep(w, u);
    assert ProofOf(v.starts[i], e.run, proof);
    assert v.log == w.log + [e];
    forall run, phase, p | StopRecorded(run, phase, p) in v.log ensures Proven(v, run, p) {
      if StopRecorded(run, phase, p) in w.log {
        assert Proven(u, run, p);
      }
    }
  }

  lemma CheckpointStopKeeps(w: World, i: nat, stop: Id, next: StopPhase, proof: Proof)
    requires Working(w, i, stop) && Due(w, i, stop, next, proof)
    ensures Working(CheckpointStop(w, i, stop, next, proof).world, i, stop)
  {
    if CheckpointStop(w, i, stop, next, proof).ok {
      CheckpointStopKeepsLedger(w, i, stop, next, proof);
      StopRowsMatch(w, i, stop, next, proof);
      StopShapesKeep(w, i, stop, next, proof);
      CommitIsAllowed(w, i, stop, next, proof);
      StopProofsKeep(w, i, stop, next, proof);
      HistoryGrows(w.log, StopRecorded(w.stops[stop].run, next, proof), w.lossy);
    }
  }

  /** The commits of the stop justify its next deletion. */
  lemma DeletionIsIntended(w: World, i: nat, stop: Id)
    requires Ledger(w) && i < |w.starts| && stop in w.stops && w.stops[stop].run == w.starts[i].operation
    requires ObjectsOk(w, i) && StopShape(w, stop, i)
    ensures
      var run, phase := w.starts[i].operation, w.stops[stop].phase;
      && (phase.PodDeleteRequested? && At(w.pods, run).Present? ==>
            Allowed(w.log, Deletion(Pod, run, At(w.pods, run).uid), w.lossy))
      && (phase.ServiceDeleteRequested? && At(w.services, run).Present? ==>
            Allowed(w.log, Deletion(Service, run, At(w.services, run).uid), w.lossy))
  {
    var run, s := w.starts[i].operation, w.stops[stop];
    assert StopOk(w, stop, i) && StartOk(w.starts, i);
    if s.phase.PodDeleteRequested? || s.phase.ServiceDeleteRequested? {
      var proof := s.proof.value;
      assert Recorded(w.log, s);
      assert StopRecorded(run, Sealed, proof) in w.log && StopRecorded(run, PodDeleteRequested, proof) in w.log;
      assert s.phase.ServiceDeleteRequested? ==>
          StopRecorded(run, PodDeleted, proof) in w.log && StopRecorded(run, ServiceDeleteRequested, proof) in w.log;
    }
  }

  /** Only the marked object of the run differs. */
  ghost predicate OnlyMarked(w: World, v: World, i: nat, stage: int)
    requires i < |w.starts|
  {
    var run := w.starts[i].operation;
    && v.secret == w.secret && v.blocked == w.blocked && OthersAlike(w, v, run)
    && (forall kind, r, u :: Made(kind, r, u) in v.log <==> Made(kind, r, u) in w.log)
    && (stage == 1 ==> At(w.pods, run).Present? && At(v.pods, run) == Present(At(w.pods, run).uid, true))
    && (stage != 1 ==> At(v.pods, run) == At(w.pods, run))
    && (stage == 3 ==> At(w.services, run).Present? && At(v.services, run) == Present(At(w.services, run).uid, true))
    && (stage != 3 ==> At(v.services, run) == At(w.services, run))
  }

  lemma MarkedRowKeeps(w: World, v: World, i: nat, stop: Id)
    requires i < |w.starts| && stop in w.stops && OnlyMarked(w, v, i, Stage(w.stops[stop].phase))
    requires w.stops[stop].run == w.starts[i].operation && w.starts[i].phase.Stopping?
    requires ObjectsOk(w, i) && StopShape(w, stop, i)
    ensures ObjectsOk(v, i) && StopShape(v, stop, i)
  {
  }

  lemma MarkedShapesKeep(w: World, v: World, i: nat, stop: Id)
    requires StopsMatch(w) && StopsUnique(w.stops) && Distinct(w.starts) && i < |w.starts| && stop in w.stops
    requires w.stops[stop].run == w.starts[i].operation
    requires OnlyMarked(w, v, i, Stage(w.stops[stop].phase)) && StopShape(v, stop, i)
    ensures StopsMatch(v)
  {
    var run := w.starts[i].operation;
    forall s, j | s in v.stops && 0 <= j < |v.starts| ensures StopShape(v, s, j) {
      if j != i {
        OtherStopsKeep(w, v, s, j, run);
      } else if s != stop {
        assert w.stops[s].run != run;
      }
    }
  }

  lemma MarkedRowsKeep(w: World, v: World, i: nat, stage: int)
    requires SecretOk(w) && ObjectsKnown(w) && RowsMatch(w) && Distinct(w.starts) && i < |w.starts|
    requires OnlyMarked(w, v, i, stage) && v.next == w.next && ObjectsOk(v, i)
    ensures SecretOk(v) && ObjectsKnown(v) && RowsMatch(v)
  {
    var run := w.starts[i].operation;
    forall j | 0 <= j < |v.starts| ensures ObjectsOk(v, j) {
      if j != i {
        OtherRowsKeep(w, v, run, j);
      }
    }
    forall r ensures At(v.pods, r).Present? || At(v.services, r).Present? ==> Known(w.starts, r) {
      assert At(w.pods, r).Present? || At(w.services, r).Present? ==> Known(w.starts, r);
    }
  }

  lemma DeletionKeepsObjects(w: World, v: World, i: nat, stop: Id)
    requires Working(w, i, stop) && OnlyMarked(w, v, i, Stage(w.stops[stop].phase)) && v.next == w.next
    requires 0 <= Stage(w.stops[stop].phase) < 4
    ensures Objects(v)
  {
    assert StopOk(w, stop, i) && StopShape(w, stop, i) && ObjectsOk(w, i);
    MarkedRowKeeps(w, v, i, stop);
    MarkedRowsKeep(w, v, i, Stage(w.stops[stop].phase));
    MarkedShapesKeep(w, v, i, stop);
  }

  lemma PodDeletionMarks(w: World, i: nat)
    requires i < |w.starts| && DeletePod(w, w.starts[i].operation).ok
    ensures OnlyMarked(w, DeletePod(w, w.starts[i].operation).world, i, 1)
  {
  }

  lemma ServiceDeletionMarks(w: World, i: nat)
    requires i < |w.starts| && DeleteService(w, w.starts[i].operation).ok
    ensures OnlyMarked(w, DeleteService(w, w.starts[i].operation).world, i, 3)
  {
  }

  lemma DeletionKeeps(w: World, v: World, i: nat, stop: Id, e: Effect)
    requires Working(w, i, stop) && OnlyMarked(w, v, i, Stage(w.stops[stop].phase)) && v.next == w.next
    requires 0 <= Stage(w.stops[stop].phase) < 4 && e.Deletion? && Allowed(w.log, e, w.lossy) && v.log == w.log + [e]
    ensures Working(v, i, stop)
  {
    RecordsGrow(w, v, e);
    DeletionKeepsObjects(w, v, i, stop);
  }

  lemma DeletePodKeeps(w: World, i: nat, stop: Id)
    requires Working(w, i, stop) && w.stops[stop].phase.PodDeleteRequested?
    ensures Working(DeletePod(w, w.starts[i].operation).world, i, stop)
  {
    var run := w.starts[i].operation;
    if DeletePod(w, run).ok {
      DeletionIsIntended(w, i, stop);
      PodDeletionMarks(w, i);
      DeletionKeeps(w, DeletePod(w, run).world, i, stop, Deletion(Pod, run, At(w.pods, run).uid));
    }
  }

  lemma DeleteServiceKeeps(w: World, i: nat, stop: Id)
    requires Working(w, i, stop) && w.stops[stop].phase.ServiceDeleteRequested?
    ensures Working(DeleteService(w, w.starts[i].operation).world, i, stop)
  {
    var run := w.starts[i].operation;
    if DeleteService(w, run).ok {
      DeletionIsIntended(w, i, stop);
      ServiceDeletionMarks(w, i);
      DeletionKeeps(w, DeleteService(w, run).world, i, stop, Deletion(Service, run, At(w.services, run).uid));
    }
  }

  /** The effects a Pod removal may consist of. */
  lemma RemovePodCases(w: World, i: nat, stop: Id, proof: Proof) returns (intent: World)
    requires i < |w.starts| && stop in w.stops
    ensures intent == w
            || (w.stops[stop].phase.Sealed? && intent == CheckpointStop(w, i, stop, PodDeleteRequested, proof).world)
    ensures i < |intent.starts| && stop in intent.stops && intent.starts == w.starts && intent.pods == w.pods
    ensures intent.stops[stop].proof == w.stops[stop].proof || intent.stops[stop].proof == Some(proof)
    ensures
      var v, run := RemovePod(w, i, stop, proof).world, w.starts[i].operation;
      || v == intent
      || (intent.stops[stop].phase.PodDeleteRequested? && At(w.pods, run).Absent?
          && v == CheckpointStop(intent, i, stop, PodDeleted, proof).world)
      || (intent.stops[stop].phase.PodDeleteRequested? && v == DeletePod(intent, run).world)
  {
    intent := if w.stops[stop].phase.Sealed? then CheckpointStop(w, i, stop, PodDeleteRequested, proof).world else w;
  }

  lemma RemovePodKeeps(w: World, i: nat, stop: Id)
    requires Working(w, i, stop) && w.stops[stop].proof == Some(StopProof(w.starts[i], stop))
    ensures Working(RemovePod(w, i, stop, w.stops[stop].proof.value).world, i, stop)
  {
    var proof := w.stops[stop].proof.value;
    var intent := RemovePodCases(w, i, stop, proof);
    CheckpointStopKeeps(w, i, stop, PodDeleteRequested, proof);
    if intent.stops[stop].phase.PodDeleteRequested? {
      PodStageKeeps(intent, i, stop);
    }
  }

  lemma PodStageKeeps(w: World, i: nat, stop: Id)
    requires Working(w, i, stop) && w.stops[stop].proof == Some(StopProof(w.starts[i], stop))
    requires w.stops[stop].phase.PodDeleteRequested?
    ensures At(w.pods, w.starts[i].operation).Absent? ==>
              Working(CheckpointStop(w, i, stop, PodDeleted, w.stops[stop].proof.value).world, i, stop)
    ensures Working(DeletePod(w, w.starts[i].operation).world, i, stop)
  {
    DeletePodKeeps(w, i, stop);
    if At(w.pods, w.starts[i].operation).Absent? {
      CheckpointStopKeeps(w, i, stop, PodDeleted, w.stops[stop].proof.value);
    }
  }

  lemma RemoveServiceKeeps(w: World, i: nat, stop: Id)
    requires Working(w, i, stop) && w.stops[stop].proof == Some(StopProof(w.starts[i], stop))
    ensures Working(RemoveService(w, i, stop, w.stops[stop].proof.value).world, i, stop)
  {
    var proof, run := w.stops[stop].proof.value, w.starts[i].operation;
    var intent := if w.stops[stop].phase.PodDeleted? then CheckpointStop(w, i, stop, ServiceDeleteRequested, proof)
      else Outcome(w, true);
    if w.stops[stop].phase.PodDeleted? {
      CheckpointStopKeeps(w, i, stop, ServiceDeleteRequested, proof);
    }
    if intent.ok && intent.world.stops[stop].phase.ServiceDeleteRequested? {
      if At(w.services, run).Absent? {
        CheckpointStopKeeps(intent.world, i, stop, StopDone, proof);
      } else if !At(w.services, run).terminating {
        DeleteServiceKeeps(intent.world, i, stop);
      }
    }
  }

  lemma RemovePodKeepsProof(w: World, i: nat, stop: Id, proof: Proof)
    requires i < |w.starts| && stop in w.stops && w.stops[stop].proof == Some(proof)
    ensures
      var o := RemovePod(w, i, stop, proof);
      o.world.stops[stop].proof == Some(proof) && o.world.starts == w.starts
  {
  }

  lemma RemoveKeeps(w: World, i: nat, stop: Id, answers: Answers)
    requires Working(w, i, stop)
    ensures Invariant(RemoveSpec(w, i, stop, answers).world)
  {
    if w.stops[stop].proof == Some(StopProof(w.starts[i], stop)) {
      RemovePodKeeps(w, i, stop);
      RemovePodKeepsProof(w, i, stop, w.stops[stop].proof.value);
      RemoveServiceKeeps(RemovePod(w, i, stop, w.stops[stop].proof.value).world, i, stop);
    }
  }

  lemma StopKeeps(w: World, operation: Id, generation: nat, stop: Id, boot: Id, answers: Answers)
    requires Invariant(w)
    ensures Invariant(StopSpec(w, operation, generation, stop, boot, answers).world)
  {
    var found := Find(w.starts, operation);
    if stop != 0 && stop != operation && boot != 0 && found.Some? && w.starts[found.value].generation == generation {
      var i := found.value;
      AcceptStopKeeps(w, i, stop, boot);
      var accepted := AcceptStop(w, i, stop, boot);
      if accepted.ok && !accepted.world.stops[stop].phase.StopDone? {
        var sealed := SealStop(accepted.world, i, stop, answers);
        if accepted.world.stops[stop].phase.StopAccepted? && Observable(accepted.world, accepted.world.starts[i]) {
          CheckpointStopKeeps(accepted.world, i, stop, Sealed, StopProof(accepted.world.starts[i], stop));
        }
        if sealed.ok {
          RemoveKeeps(sealed.world, i, stop, answers);
        }
      }
    }
  }

  // ---- Deletions that finish, and foreign ones ----

  lemma FindIsExact(w: World, i: nat)
    requires Ledger(w) && i < |w.starts|
    ensures Find(w.starts, w.starts[i].operation) == Some(i)
  {
    var found := Find(w.starts, w.starts[i].operation);
    assert found.Some?;
  }

  /** An object may disappear when its UID is recorded, or history is lossy; and
      quietly only where a removal asked for it. */
  ghost predicate Disappears(w: World, v: World, i: nat)
    requires i < |w.starts|
  {
    var r := w.starts[i];
    var run := r.operation;
    && (w.disturbed ==> v.disturbed) && (w.lossy ==> v.lossy)
    && (|| (&& v == w.(pods := w.pods[run := Absent], disturbed := v.disturbed, lossy := v.lossy)
            && (v.lossy || r.observation.pod != 0)
            && (v.disturbed || (At(w.pods, run).Present? && At(w.pods, run).terminating)))
        || (&& v == w.(services := w.services[run := Absent], disturbed := v.disturbed, lossy := v.lossy)
            && (v.lossy || r.observation.service != 0)
            && (v.disturbed || (At(w.services, run).Present? && At(w.services, run).terminating))))
  }

  lemma DisappearanceAtRow(w: World, v: World, i: nat, j: nat)
    requires i < |w.starts| && Disappears(w, v, i) && j < |w.starts| && ObjectsOk(w, j)
    requires j != i ==> w.starts[j].operation != w.starts[i].operation
    ensures ObjectsOk(v, j)
  {
  }

  lemma DisappearanceAtStop(w: World, v: World, i: nat, s: Id, j: nat)
    requires i < |w.starts| && Disappears(w, v, i) && s in w.stops && j < |w.starts| && StopShape(w, s, j)
    requires j != i ==> w.starts[j].operation != w.starts[i].operation
    ensures StopShape(v, s, j)
  {
  }

  lemma DisappearanceShows(w: World, v: World, i: nat)
    requires i < |w.starts| && Disappears(w, v, i)
    ensures forall run :: At(v.pods, run).Present? || At(v.services, run).Present? ==>
            At(w.pods, run).Present? || At(w.services, run).Present?
    ensures v.starts == w.starts && v.stops == w.stops && v.log == w.log && v.secret == w.secret && v.next == w.next
            && (w.lossy ==> v.lossy)
  {
  }

  lemma DisappearanceKeeps(w: World, v: World, i: nat)
    requires Invariant(w) && i < |w.starts| && Disappears(w, v, i)
    ensures Invariant(v)
  {
    DisappearanceShows(w, v, i);
    LedgerFrame(w, v);
    forall j | 0 <= j < |v.starts| ensures ObjectsOk(v, j) {
      DisappearanceAtRow(w, v, i, j);
    }
    forall s, j | s in v.stops && 0 <= j < |v.starts| ensures StopShape(v, s, j) {
      DisappearanceAtStop(w, v, i, s, j);
    }
    HistoryForgives(w.log, w.lossy, v.lossy);
  }

  lemma HistoryForgives(log: seq<Effect>, lossy: bool, now: bool)
    requires History(log, lossy) && (lossy ==> now)
    ensures History(log, now)
  {
    forall j | 0 <= j < |log| ensures Allowed(log[..j], log[j], now) {
      assert Allowed(log[..j], log[j], lossy);
    }
  }

  lemma SecretLossKeeps(w: World)
    requires Invariant(w)
    ensures Invariant(Step(w, SecretLost))
  {
    var v := Step(w, SecretLost);
    LedgerFrame(w, v);
    forall j | 0 <= j < |v.starts| ensures ObjectsOk(v, j) {
      assert ObjectsOk(w, j);
    }
    forall s, j | s in v.stops && 0 <= j < |v.starts| ensures StopShape(v, s, j) {
      assert StopShape(w, s, j);
    }
    if w.starts != [] {
      assert ObjectsOk(w, |w.starts| - 1);
    }
    HistoryForgives(w.log, w.lossy, v.lossy);
  }

  lemma NameFreedKeeps(w: World)
    requires Invariant(w)
    ensures Invariant(w.(blocked := false))
  {
    var v := w.(blocked := false);
    LedgerFrame(w, v);
    ProofsKeep(w, v);
    forall j | 0 <= j < |v.starts| ensures ObjectsOk(v, j) {
      assert ObjectsOk(w, j);
    }
    forall s, j | s in v.stops && 0 <= j < |v.starts| ensures StopShape(v, s, j) {
      OtherStopSurvives(w, v, s, j);
    }
  }

  /** A terminating object belongs to a run that is being stopped. */
  lemma TerminatingIsStopping(w: World, i: nat)
    requires Invariant(w) && i < |w.starts|
    requires
      var run := w.starts[i].operation;
      || (At(w.pods, run).Present? && At(w.pods, run).terminating)
      || (At(w.services, run).Present? && At(w.services, run).terminating)
    ensures w.starts[i].observation.pod != 0 && w.starts[i].observation.service != 0
  {
    assert ObjectsOk(w, i) && StartOk(w.starts, i);
  }

  lemma ObjectEventKeeps(w: World, e: Event)
    requires Invariant(w) && (e.PodGone? || e.ServiceGone? || e.PodLost? || e.ServiceLost?)
    ensures Invariant(Step(w, e))
  {
    var v := Step(w, e);
    if v != w {
      assert Known(w.starts, e.run);
      var i :| 0 <= i < |w.starts| && w.starts[i].operation == e.run;
      FindIsExact(w, i);
      if e.PodGone? || e.ServiceGone? {
        TerminatingIsStopping(w, i);
      }
      DisappearanceKeeps(w, v, i);
    }
  }

  lemma StepKeeps(w: World, e: Event)
    requires Invariant(w)
    ensures Invariant(Step(w, e))
  {
    match e {
      case AcceptCall(operation, generation, profile, found, volume, budget) =>
        BudgetIsNeutral(w, budget);
        AcceptKeeps(w.(budget := budget), operation, generation, profile, found, volume);
      case AdvanceCall(operation, generation, answers, budget) =>
        BudgetIsNeutral(w, budget);
        AdvanceKeeps(w.(budget := budget), operation, generation, answers);
      case StopCall(operation, generation, stop, boot, answers, budget) =>
        BudgetIsNeutral(w, budget);
        StopKeeps(w.(budget := budget), operation, generation, stop, boot, answers);
      case SecretLost =>
        SecretLossKeeps(w);
      case NameFreed =>
        NameFreedKeeps(w);
      case _ =>
        ObjectEventKeeps(w, e);
    }
  }

  lemma {:induction false} RunKeepsInvariant(events: seq<Event>)
    ensures Invariant(Run(events))
  {
    if events != [] {
      RunKeepsInvariant(events[..|events| - 1]);
      StepKeeps(Run(events[..|events| - 1]), events[|events| - 1]);
    }
  }
}
