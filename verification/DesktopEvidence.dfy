/** Which answers and which Pods each durable step of a desktop instance rests
    on. */
module DesktopEvidence {
  import opened Wrappers
  import opened Desktops
  import opened DesktopRuns

  /** The named Pod is there, as recorded, told to load this content. */
  predicate Seated(w: World, n: Name, uid: Id, source: Source) {
    n in w.pods && w.pods[n].uid == uid && w.pods[n].source == source
  }

  /** What a row may only become in a call that was answered so: a preparation is
      proved by its helper, a start by its loaded worker, a drain is sealed over
      the untouched worker, and nothing ends over a mounted volume. `w` is what
      the call found, `v` what it left. */
  ghost predicate Answered(w: World, v: World, r: Row, q: Row, a: Answers) {
    match r
    case Create(_, status, _, _, _, proved) =>
      && (!proved && q.Create? && q.proved ==> a.ready && a.prepared && Seated(v, Preparer, q.helper.pod, NOTHING))
      && (status.Running? && q.status.Succeeded? ==> proved && a.volume && w.pods == map[])
    case Start(op, status, _, _, _, _, _, _) =>
      status.Running? && q.Start? && q.status.Succeeded? ==>
        && a.volume && a.credential && a.ready && a.loaded && q.proof.Some?
        && Seated(v, Worker(op), q.worker.pod, q.proof.value) && !v.pods[Worker(op)].finished
    case Stop(_, status, _, _, start, loaded, drained, sealed) =>
      && (!sealed && q.Stop? && q.sealed ==>
            && a.sealed && a.volume && a.credential
            && Seated(w, Worker(start), drained.pod, loaded) && !w.pods[Worker(start)].terminating
            && Mountable(w, Some(Worker(start))))
      && (status.Running? && q.status.Succeeded? ==> sealed && a.volume && a.node && w.pods == map[])
    case Destroy(_, status, _) =>
      status.Running? && q.status.Succeeded? ==>
        a.revoked && a.volume && a.node && w.pods == map[] && w.services == map[]
  }

  /** Of the old rows only this one may differ, and then as answered. */
  ghost predicate RowAnswered(w: World, v: World, i: nat, a: Answers)
    requires i < |w.rows|
  {
    && |v.rows| == |w.rows| && (forall j :: 0 <= j < |w.rows| && j != i ==> v.rows[j] == w.rows[j])
    && Answered(w, v, w.rows[i], v.rows[i], a)
  }

  lemma SavedIsAnswered(w: World, v: World, i: nat, r: Row, a: Answers)
    requires OnlyCluster(w, v) && i < |w.rows| && Answered(w, v, w.rows[i], r, a)
    ensures RowAnswered(w, Save(v, i, r), i, a) && RowAnswered(w, v, i, a)
  {
  }

  lemma HelperIsAnswered(w: World, i: nat, a: Answers)
    requires i < |w.rows| && w.rows[i].Create?
    ensures RowAnswered(w, AdvanceHelper(w, i, a), i, a)
    ensures w.rows[i].proved ==> RowAnswered(w, EndHelper(w, i, a), i, a)
  {
    var r := w.rows[i];
    EnsureCases(w, Preparer, NOTHING, r.helper, a.(admitted := true));
    var (v, result) := Ensure(w, Preparer, NOTHING, r.helper, a.(admitted := true));
    SavedIsAnswered(w, v, i, r, a);
    if result.Up? {
      var phase := if !a.ready then Preparing else if a.prepared then CreateRemoving else AwaitingContent;
      SavedIsAnswered(w, v, i, r.(helper := result.seen, preparation := phase, proved := phase.CreateRemoving?), a);
    }
    RemoveCases(w, Preparer, NOTHING, r.helper, true, a);
    var (u, removal) := Remove(w, Preparer, NOTHING, r.helper, true, a);
    SavedIsAnswered(w, u, i, r, a);
    if removal.Gone? && r.proved {
      GoneIsUnmounted(w, Preparer, NOTHING, r.helper, true, a);
      SavedIsAnswered(w, u, i, r.(status := Succeeded, preparation := Created), a);
    }
  }

  /** A removal is over only over an unmounted volume. */
  lemma GoneIsUnmounted(w: World, n: Name, source: Source, expected: Seen, helper: bool, a: Answers)
    requires Remove(w, n, source, expected, helper, a).1.Gone?
    ensures w.pods == map[] && a.volume && (helper || a.node)
  {
    assert Mountable(w, None);
    assert w.pods.Keys == {};
  }

  lemma PreparationIsAnswered(w: World, i: nat, a: Answers)
    requires i < |w.rows| && w.rows[i].Create?
    ensures RowAnswered(w, AdvanceCreate(w, i, a), i, a)
  {
    SavedIsAnswered(w, w, i, w.rows[i], a);
    HelperIsAnswered(w, i, a);
  }

  lemma CreateIsAnswered(w: World, op: Id, source: Source, a: Answers)
    ensures
      var v, found := CreateSpec(w, op, source, a), Find(w.rows, op);
      if found.Some? then RowAnswered(w, v, found.value, a) else w.rows <= v.rows
  {
    var found := Find(w.rows, op);
    if found.Some? {
      SavedIsAnswered(w, w, found.value, w.rows[found.value], a);
      if w.rows[found.value].Create? {
        PreparationIsAnswered(w, found.value, a);
      }
    }
  }

  lemma ReplacementIsAnswered(w: World, i: nat, a: Answers)
    requires i < |w.rows| && w.rows[i].Start? && w.rows[i].status.Running? && w.rows[i].recovery.Some?
    ensures RowAnswered(w, AdvanceReplacement(w, i, a), i, a)
  {
    var r, c := w.rows[i], w.rows[i].recovery.value;
    RemoveCases(w, Worker(c.start), c.source, c.worker, false, a);
    SavedIsAnswered(w, w, i, r, a);
    SavedIsAnswered(w, Remove(w, Worker(c.start), c.source, c.worker, false, a).0, i, r.(recovery := None), a);
  }

  /** Every stage of a recovery leaves the start running. */
  lemma StaysRunning(w: World, v: World, i: nat, r: Row, a: Answers)
    requires OnlyCluster(w, v) && i < |w.rows| && w.rows[i].Start? && r.Start? && r.status.Running?
    ensures RowAnswered(w, Save(v, i, r), i, a)
  {
    SavedIsAnswered(w, v, i, r, a);
  }

  lemma RemovalIsAnswered(w: World, i: nat, a: Answers)
    requires i < |w.rows| && w.rows[i].Start? && w.rows[i].status.Running? && w.rows[i].saved.Some?
    ensures RowAnswered(w, EndFailed(w, i, a), i, a) && RowAnswered(w, EndReader(w, i, a), i, a)
  {
    var r, s := w.rows[i], w.rows[i].saved.value;
    SavedIsAnswered(w, w, i, r, a);
    RemoveCases(w, Worker(r.op), r.source, s.previous, false, a);
    var v := Remove(w, Worker(r.op), r.source, s.previous, false, a).0;
    SavedIsAnswered(w, v, i, r, a);
    StaysRunning(w, v, i, r.(launch := Recovering), a);
    StaysRunning(w, v, i, r.(launch := Recovering, worker := UNSEEN, saved := Some(s.(stage := Observing))), a);
    RemoveCases(w, Reader, NOTHING, s.helper, true, a);
    var u := Remove(w, Reader, NOTHING, s.helper, true, a).0;
    SavedIsAnswered(w, u, i, r, a);
    StaysRunning(w, u, i, r.(launch := Recovering), a);
    StaysRunning(w, u, i, r.(launch := Recovering, saved := Some(s.(stage := Ready))), a);
  }

  lemma ObservationIsAnswered(w: World, i: nat, a: Answers)
    requires i < |w.rows| && w.rows[i].Start? && w.rows[i].status.Running? && w.rows[i].saved.Some?
    ensures RowAnswered(w, ObserveCopy(w, i, a), i, a)
  {
    var r, s := w.rows[i], w.rows[i].saved.value;
    EnsureCases(w, Reader, NOTHING, s.helper, a.(admitted := true));
    var (v, result) := Ensure(w, Reader, NOTHING, s.helper, a.(admitted := true));
    SavedIsAnswered(w, v, i, r, a);
    if result.Up? {
      var seen := s.(helper := result.seen);
      StaysRunning(w, v, i, r.(launch := Recovering, saved := Some(seen)), a);
      StaysRunning(w, v, i, r.(launch := Recovering, saved := Some(seen.(source := a.copy, stage := RemovingHelper))),
                   a);
    }
  }

  lemma RecoveryIsAnswered(w: World, i: nat, a: Answers)
    requires i < |w.rows| && w.rows[i].Start? && w.rows[i].status.Running? && w.rows[i].saved.Some?
    ensures RowAnswered(w, AdvanceSaved(w, i, a), i, a)
  {
    match w.rows[i].saved.value.stage
    case Observing => ObservationIsAnswered(w, i, a);
    case Ready => SavedIsAnswered(w, w, i, w.rows[i], a);
    case _ => RemovalIsAnswered(w, i, a);
  }

  lemma LaunchIsAnswered(w: World, i: nat, a: Answers)
    requires i < |w.rows| && w.rows[i].Start? && w.rows[i].status.Running?
    ensures RowAnswered(w, AdvanceLaunch(w, i, a), i, a)
  {
    var r, source := w.rows[i], Effective(w.rows[i]);
    SavedIsAnswered(w, w, i, r, a);
    if source.Some? {
      EnsureCases(w, Worker(r.op), source.value, r.worker, a);
      var (v, result) := Ensure(w, Worker(r.op), source.value, r.worker, a);
      SavedIsAnswered(w, v, i, r, a);
    }
  }

  lemma StartIsAnswered(w: World, op: Id, source: Source, a: Answers)
    ensures
      var v, found := StartSpec(w, op, source, a), Find(w.rows, op);
      if found.Some? then RowAnswered(w, v, found.value, a) else w.rows <= v.rows
  {
    var found := Find(w.rows, op);
    if found.Some? {
      var i := found.value;
      SavedIsAnswered(w, w, i, w.rows[i], a);
      if w.rows[i].Start? && w.rows[i].status.Running? {
        LaunchIsAnswered(w, i, a);
        if w.rows[i].recovery.Some? {
          ReplacementIsAnswered(w, i, a);
        } else if w.rows[i].saved.Some? {
          RecoveryIsAnswered(w, i, a);
        }
      }
    }
  }

  lemma StopIsAnswered(w: World, op: Id, start: Id, content: Id, a: Answers)
    ensures
      var v, found := StopSpec(w, op, start, content, a), Find(w.rows, op);
      if found.Some? then RowAnswered(w, v, found.value, a) else w.rows <= v.rows
  {
    var found := Find(w.rows, op);
    if found.Some? {
      var i := found.value;
      var r := w.rows[i];
      SavedIsAnswered(w, w, i, r, a);
      if r.Stop? {
        RemoveCases(w, Worker(r.start), r.loaded, r.drained, false, a);
        if Remove(w, Worker(r.start), r.loaded, r.drained, false, a).1.Gone? {
          GoneIsUnmounted(w, Worker(r.start), r.loaded, r.drained, false, a);
        }
      }
    }
  }

  lemma DestroyIsAnswered(w: World, op: Id, previous: Id, a: Answers)
    ensures
      var v, found := DestroySpec(w, op, previous, a), Find(w.rows, op);
      if found.Some? then RowAnswered(w, v, found.value, a) else w.rows <= v.rows
  {
    if Mountable(w, None) {
      assert w.pods.Keys == {};
    }
  }

  /** No call takes a row further than its answers and the Pods it found allow. */
  lemma EveryStepIsAnswered(w: World, e: Event, i: nat)
    requires i < |w.rows|
    ensures
      var v := Step(w, e);
      && i < |v.rows|
      && (v.rows[i] == w.rows[i]
          || (!e.PodFinished? && !e.PodGone? && !e.ServiceGone? && Answered(w, v, w.rows[i], v.rows[i], e.answers)))
  {
    match e
    case CreateCall(op, source, a, budget) => CreateIsAnswered(w.(budget := budget), op, source, a);
    case StartCall(op, source, a, budget) => StartIsAnswered(w.(budget := budget), op, source, a);
    case StopCall(op, start, content, a, budget) => StopIsAnswered(w.(budget := budget), op, start, content, a);
    case DestroyCall(op, previous, a, budget) => DestroyIsAnswered(w.(budget := budget), op, previous, a);
    case _ =>
  }
}
