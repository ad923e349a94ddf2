/** Every call, however it ends, keeps ledger and Pods in agreement. */
module DesktopSafety {
  import opened Wrappers
  import opened Desktops
  import opened DesktopRuns

  lemma EarlierSucceeded(rows: seq<Row>, i: nat)
    requires Ledger(rows) && i < |rows|
    ensures i + 1 < |rows| ==> rows[i].status.Succeeded? && Follows(rows[i], rows[i + 1])
  {
    if i + 1 < |rows| {
      assert Follows(rows[i + 1 - 1], rows[i + 1]);
    }
  }

  /** Only the newest row can still be running. */
  lemma RunningIsLast(rows: seq<Row>, i: nat)
    requires Ledger(rows) && i < |rows| && rows[i].status.Running?
    ensures i == |rows| - 1
  {
    EarlierSucceeded(rows, i);
  }

  lemma UpdateKeepsLedger(rows: seq<Row>, i: nat, r: Row)
    requires Ledger(rows) && i < |rows| && rows[i].status.Running? && r.op == rows[i].op && Terminal(r)
    requires if i == 0 then r.Create? else Follows(rows[i - 1], r)
    ensures Ledger(rows[i := r]) && i == |rows| - 1
  {
    RunningIsLast(rows, i);
    var now := rows[i := r];
    forall j | 1 <= j < |now| ensures Follows(now[j - 1], now[j]) {
      assert Follows(rows[j - 1], rows[j]);
    }
  }

  lemma AppendKeepsLedger(rows: seq<Row>, r: Row)
    requires Ledger(rows) && Terminal(r) && Find(rows, r.op).None?
    requires if rows == [] then r.Create? else Follows(rows[|rows| - 1], r)
    ensures Ledger(rows + [r])
  {
    var now := rows + [r];
    forall j | 1 <= j < |now| ensures Follows(now[j - 1], now[j]) {
      assert j < |rows| ==> Follows(rows[j - 1], rows[j]);
    }
  }

  lemma SamePodsKeep(rows: seq<Row>, a: map<Name, Pod>, b: map<Name, Pod>)
    requires Mounts(rows, a) && SamePods(a, b)
    requires (rows != [] && Condemned(rows[|rows| - 1])) || forall n :: n in b && b[n].terminating ==>
             n in a && a[n].terminating
    ensures Mounts(rows, b)
  {
    forall n | n in b ensures rows != [] && Licensed(rows[|rows| - 1], n, b[n]) {
      assert n in a.Keys;
      assert Licensed(rows[|rows| - 1], n, a[n]);
    }
    forall m, n | m in b && n in b ensures m == n {
      assert m in a.Keys && n in a.Keys;
    }
  }

  /** The newest row changes and what it licenses still covers what is there. */
  lemma SaveKeeps(w: World, i: nat, r: Row)
    requires Ledger(w.rows) && i < |w.rows| && w.rows[i].status.Running? && r.op == w.rows[i].op && Terminal(r)
    requires if i == 0 then r.Create? else Follows(w.rows[i - 1], r)
    requires Mounts(w.rows, w.pods)
    requires forall n :: n in w.pods ==> Licensed(r, n, w.pods[n])
    requires Condemned(w.rows[i]) ==> Condemned(r) || w.pods == map[]
    ensures Invariant(Save(w, i, r))
  {
    UpdateKeepsLedger(w.rows, i, r);
  }

  /** A Pod made over an empty volume, as the newest row licenses it. */
  lemma EnsureKeeps(w: World, n: Name, source: Source, expected: Seen, a: Answers)
    requires Invariant(w) && w.rows != []
    requires forall p: Pod :: p.source == source && (expected.pod == 0 || p.uid == expected.pod) ==>
               Licensed(w.rows[|w.rows| - 1], n, p)
    ensures
      var (v, result) := Ensure(w, n, source, expected, a);
      && Invariant(v) && v.rows == w.rows
      && (!result.Refused? ==> n in v.pods && v.pods[n].source == source && Told(v, n, result))
  {
    EnsureCases(w, n, source, expected, a);
  }

  lemma RemoveKeeps(w: World, n: Name, source: Source, expected: Seen, helper: bool, a: Answers)
    requires Invariant(w) && w.rows != [] && Condemned(w.rows[|w.rows| - 1])
    ensures
      var (v, removal) := Remove(w, n, source, expected, helper, a);
      && Invariant(v) && v.rows == w.rows && SamePods(w.pods, v.pods) && (removal.Gone? ==> v == w && n !in w.pods)
  {
    RemoveCases(w, n, source, expected, helper, a);
    SamePodsKeep(w.rows, w.pods, Remove(w, n, source, expected, helper, a).0.pods);
  }

  // ---- Create ----

  /** The creation is the first row and no other. */
  lemma CreateIsFirst(rows: seq<Row>, i: nat)
    requires Ledger(rows) && i < |rows|
    ensures rows[i].Create? <==> i == 0
  {
    if i > 0 {
      assert Follows(rows[i - 1], rows[i]);
    }
  }

  lemma HelperAdvances(w: World, i: nat, a: Answers)
    requires Invariant(w) && i < |w.rows| && w.rows[i].Create? && w.rows[i].status.Running?
    requires !w.rows[i].preparation.CreateAccepted? && !w.rows[i].preparation.Reserved?
             && !w.rows[i].preparation.Created?
    requires !w.rows[i].preparation.CreateRemoving?
    ensures Invariant(AdvanceHelper(w, i, a))
  {
    CreateIsFirst(w.rows, i);
    RunningIsLast(w.rows, i);
    EnsureKeeps(w, Preparer, NOTHING, w.rows[i].helper, a.(admitted := true));
    var (v, result) := Ensure(w, Preparer, NOTHING, w.rows[i].helper, a.(admitted := true));
    if result.Up? {
      var phase := if !a.ready then Preparing else if a.prepared then CreateRemoving else AwaitingContent;
      SaveKeeps(v, i, w.rows[i].(helper := result.seen, preparation := phase, proved := phase.CreateRemoving?));
    }
  }

  lemma HelperEnds(w: World, i: nat, a: Answers)
    requires Invariant(w) && i < |w.rows| && w.rows[i].Create? && w.rows[i].status.Running?
    requires w.rows[i].preparation.CreateRemoving? && w.rows[i].proved
    ensures Invariant(EndHelper(w, i, a))
  {
    CreateIsFirst(w.rows, i);
    RunningIsLast(w.rows, i);
    RemoveKeeps(w, Preparer, NOTHING, w.rows[i].helper, true, a);
    var (v, removal) := Remove(w, Preparer, NOTHING, w.rows[i].helper, true, a);
    if removal.Waiting? {
      SaveKeeps(v, i, w.rows[i]);
    } else if removal.Gone? {
      SaveKeeps(v, i, w.rows[i].(status := Succeeded, preparation := Created));
    }
  }

  lemma CreateAdvances(w: World, i: nat, a: Answers)
    requires Invariant(w) && i < |w.rows| && w.rows[i].Create? && w.rows[i].status.Running?
    ensures Invariant(AdvanceCreate(w, i, a))
  {
    var r := w.rows[i];
    CreateIsFirst(w.rows, i);
    RunningIsLast(w.rows, i);
    match r.preparation {
      case CreateAccepted => SaveKeeps(w.(reserved := true), i, r.(preparation := Reserved));
      case Reserved =>
        if Mountable(w, None) {
          SaveKeeps(w, i, r.(preparation := Claimed));
        }
      case CreateRemoving =>
        if r.proved {
          HelperEnds(w, i, a);
        }
      case Created =>
      case _ => HelperAdvances(w, i, a);
    }
  }

  lemma CreateKeeps(w: World, op: Id, source: Source, a: Answers)
    requires Invariant(w)
    ensures Invariant(CreateSpec(w, op, source, a))
  {
    var found := Find(w.rows, op);
    if found.None? {
      if w.rows == [] {
        AppendKeepsLedger(w.rows, Create(op, Running, CreateAccepted, source, UNSEEN, false));
      } else {
        assert w.rows[0].Create?;
      }
    } else if w.rows[found.value].Create? && w.rows[found.value].status.Running? {
      CreateAdvances(w, found.value, a);
    }
  }

  // ---- Start ----

  lemma StartHasPredecessor(rows: seq<Row>, i: nat)
    requires Ledger(rows) && i < |rows| && rows[i].Start?
    ensures i > 0 && Follows(rows[i - 1], rows[i])
  {
    CreateIsFirst(rows, i);
    assert i > 0 ==> Follows(rows[i - 1], rows[i]);
  }

  /** Which one Pod the newest row lets exist. */
  function Holder(last: Row): Option<Name> {
    match last
    case Create(_, status, _, _, _, _) => if status.Running? then Some(Preparer) else None
    case Start(op, _, _, _, _, _, recovery, saved) =>
      if recovery.Some? then Some(Worker(recovery.value.start))
      else if saved.Some? && (saved.value.stage.Observing? || saved.value.stage.RemovingHelper?) then Some(Reader)
      else Some(Worker(op))
    case Stop(_, status, _, _, start, _, _, _) => if status.Running? then Some(Worker(start)) else None
    case Destroy(_, _, _) => None
  }

  lemma LicensedIsHolder(last: Row, n: Name, p: Pod)
    ensures Licensed(last, n, p) ==> Holder(last) == Some(n)
  {
  }

  /** Without its holder the volume is free. */
  lemma FreeWithoutHolder(w: World)
    requires Invariant(w) && w.rows != []
    requires var h := Holder(w.rows[|w.rows| - 1]); h.None? || h.value !in w.pods
    ensures w.pods == map[]
  {
    forall n | n in w.pods ensures Holder(w.rows[|w.rows| - 1]) == Some(n) {
      LicensedIsHolder(w.rows[|w.rows| - 1], n, w.pods[n]);
    }
    assert w.pods.Keys == {};
  }

  lemma AppendKeeps(w: World, r: Row)
    requires Invariant(w) && Terminal(r) && Find(w.rows, r.op).None?
    requires if w.rows == [] then r.Create? else Follows(w.rows[|w.rows| - 1], r)
    requires forall n :: n in w.pods ==> Licensed(r, n, w.pods[n])
    requires w.rows != [] && Condemned(w.rows[|w.rows| - 1]) ==> w.pods == map[]
    ensures Invariant(Append(w, r))
  {
    AppendKeepsLedger(w.rows, r);
  }

  lemma AcceptStartKeeps(w: World, op: Id, source: Source, a: Answers)
    requires Invariant(w) && Prepared(w) && Find(w.rows, op).None?
    ensures Invariant(AcceptStart(w, op, source, a))
  {
    var last := w.rows[|w.rows| - 1];
    var row := Start(op, Running, StartAccepted, source, UNSEEN, None, None, None);
    if AcceptStart(w, op, source, a) != w {
      if last.Start? {
        AcceptReplacementKeeps(w, row, a);
      } else {
        CreateIsFirst(w.rows, |w.rows| - 1);
        FreeWithoutHolder(w);
        AppendKeeps(w, row);
      }
    }
  }

  lemma AcceptReplacementKeeps(w: World, row: Row, a: Answers)
    requires Invariant(w) && w.rows != [] && w.rows[|w.rows| - 1].Start? && w.rows[|w.rows| - 1].status.Succeeded?
    requires row.Start? && row == Start(row.op, Running, StartAccepted, row.source, UNSEEN, None, None, None)
             && Find(w.rows, row.op).None?
    requires Replaceable(w, w.rows[|w.rows| - 1], row.source, a)
    ensures
      var last := w.rows[|w.rows| - 1];
      Invariant(Append(w, row.(recovery := Some(Recovery(last.op, row.source, last.worker)))))
  {
    var last := w.rows[|w.rows| - 1];
    var now := row.(recovery := Some(Recovery(last.op, row.source, last.worker)));
    forall n | n in w.pods ensures Licensed(now, n, w.pods[n]) {
      assert n == Worker(last.op);
    }
    AppendKeeps(w, now);
  }

  /** While a failed worker is being replaced, only it may be mounted. */
  lemma ReplacementAdvances(w: World, i: nat, a: Answers)
    requires Invariant(w) && i < |w.rows| && w.rows[i].Start? && w.rows[i].status.Running? && w.rows[i].recovery.Some?
    ensures Invariant(AdvanceReplacement(w, i, a))
  {
    var r := w.rows[i];
    var c := r.recovery.value;
    RunningIsLast(w.rows, i);
    StartHasPredecessor(w.rows, i);
    RemoveKeeps(w, Worker(c.start), c.source, c.worker, false, a);
    var (v, removal) := Remove(w, Worker(c.start), c.source, c.worker, false, a);
    if removal.Gone? {
      FreeWithoutHolder(w);
      SaveKeeps(v, i, r.(recovery := None));
    }
  }

  lemma FailedEnds(w: World, i: nat, a: Answers)
    requires Invariant(w) && i < |w.rows| && w.rows[i].Start? && w.rows[i].status.Running? && w.rows[i].recovery.None?
    requires w.rows[i].saved.Some? && w.rows[i].saved.value.stage.RemovingWorker?
    ensures Invariant(EndFailed(w, i, a))
  {
    var r, s := w.rows[i], w.rows[i].saved.value;
    RunningIsLast(w.rows, i);
    StartHasPredecessor(w.rows, i);
    RemoveKeeps(w, Worker(r.op), r.source, s.previous, false, a);
    var (v, removal) := Remove(w, Worker(r.op), r.source, s.previous, false, a);
    if removal.Waiting? {
      var now := r.(launch := Recovering);
      forall n | n in v.pods ensures Licensed(now, n, v.pods[n]) {
        assert Licensed(r, n, v.pods[n]);
      }
      SaveKeeps(v, i, now);
    } else if removal.Gone? {
      FreeWithoutHolder(w);
      SaveKeeps(v, i, r.(launch := Recovering, worker := UNSEEN, saved := Some(s.(stage := Observing))));
    }
  }

  lemma CopyObserved(w: World, i: nat, a: Answers)
    requires Invariant(w) && i < |w.rows| && w.rows[i].Start? && w.rows[i].status.Running? && w.rows[i].recovery.None?
    requires w.rows[i].saved.Some? && w.rows[i].saved.value.stage.Observing?
    ensures Invariant(ObserveCopy(w, i, a))
  {
    var r, s := w.rows[i], w.rows[i].saved.value;
    RunningIsLast(w.rows, i);
    StartHasPredecessor(w.rows, i);
    EnsureKeeps(w, Reader, NOTHING, s.helper, a.(admitted := true));
    var (v, result) := Ensure(w, Reader, NOTHING, s.helper, a.(admitted := true));
    if result.Up? {
      var waiting := r.(launch := Recovering, saved := Some(s.(helper := result.seen)));
      var copied :=
        r.(launch := Recovering, saved := Some(s.(helper := result.seen, source := a.copy, stage := RemovingHelper)));
      forall n | n in v.pods ensures Licensed(waiting, n, v.pods[n]) && Licensed(copied, n, v.pods[n]) {
        assert n == Reader;
      }
      SaveKeeps(v, i, waiting);
      if Adoptable(a.copy, r.source) {
        SaveKeeps(v, i, copied);
      }
    }
  }

  lemma ReaderEnds(w: World, i: nat, a: Answers)
    requires Invariant(w) && i < |w.rows| && w.rows[i].Start? && w.rows[i].status.Running? && w.rows[i].recovery.None?
    requires w.rows[i].saved.Some? && w.rows[i].saved.value.stage.RemovingHelper?
    ensures Invariant(EndReader(w, i, a))
  {
    var r, s := w.rows[i], w.rows[i].saved.value;
    RunningIsLast(w.rows, i);
    StartHasPredecessor(w.rows, i);
    RemoveKeeps(w, Reader, NOTHING, s.helper, true, a);
    var (v, removal) := Remove(w, Reader, NOTHING, s.helper, true, a);
    if removal.Waiting? {
      var now := r.(launch := Recovering);
      forall n | n in v.pods ensures Licensed(now, n, v.pods[n]) {
        assert Licensed(r, n, v.pods[n]);
      }
      SaveKeeps(v, i, now);
    } else if removal.Gone? {
      FreeWithoutHolder(w);
      SaveKeeps(v, i, r.(launch := Recovering, saved := Some(s.(stage := Ready))));
    }
  }

  lemma SavedAdvances(w: World, i: nat, a: Answers)
    requires Invariant(w) && i < |w.rows| && w.rows[i].Start? && w.rows[i].status.Running? && w.rows[i].recovery.None?
             && w.rows[i].saved.Some?
    ensures Invariant(AdvanceSaved(w, i, a))
  {
    match w.rows[i].saved.value.stage {
      case RemovingWorker => FailedEnds(w, i, a);
      case Observing => CopyObserved(w, i, a);
      case RemovingHelper => ReaderEnds(w, i, a);
      case Ready =>
    }
  }

  /** A running start with its worker launched may move on in these ways. */
  lemma LaunchedKeeps(w: World, i: nat, q: Row)
    requires Invariant(w) && i < |w.rows| && w.rows[i].Start? && w.rows[i].status.Running? && w.rows[i].recovery.None?
    requires Effective(w.rows[i]).Some? && Worker(w.rows[i].op) in w.pods
             && w.pods[Worker(w.rows[i].op)].source == Effective(w.rows[i]).value
    requires q.Start? && q == w.rows[i].(worker := q.worker, launch := q.launch, status := q.status, proof := q.proof)
    requires q.worker.pod == w.pods[Worker(w.rows[i].op)].uid
    requires (q.status.Running? && !q.launch.Started?)
             || (q.status.Succeeded? && q.launch.Started? && q.proof == Effective(w.rows[i]))
    ensures Invariant(Save(w, i, q))
  {
    RunningIsLast(w.rows, i);
    StartHasPredecessor(w.rows, i);
    forall n | n in w.pods ensures Licensed(q, n, w.pods[n]) {
      assert n == Worker(w.rows[i].op);
    }
    SaveKeeps(w, i, q);
  }

  lemma ExitBeginsRecovery(w: World, i: nat, seen: Seen)
    requires Invariant(w) && i < |w.rows| && w.rows[i].Start? && w.rows[i].status.Running? && w.rows[i].recovery.None?
    requires w.rows[i].saved.None? && FollowsFailed(w.rows, i) && seen.pod != 0
    requires Worker(w.rows[i].op) in w.pods && w.pods[Worker(w.rows[i].op)].source == w.rows[i].source
    requires w.pods[Worker(w.rows[i].op)].finished && w.pods[Worker(w.rows[i].op)].uid == seen.pod
    ensures Invariant(Save(w, i,
                           w.rows[i].(launch := Recovering, worker := seen,
                                      saved := Some(Saved(RemovingWorker, seen, UNSEEN, None)))))
  {
    var r := w.rows[i];
    var now := r.(launch := Recovering, worker := seen, saved := Some(Saved(RemovingWorker, seen, UNSEEN, None)));
    RunningIsLast(w.rows, i);
    StartHasPredecessor(w.rows, i);
    forall n | n in w.pods ensures Licensed(now, n, w.pods[n]) {
      assert n == Worker(r.op);
    }
    SaveKeeps(w, i, now);
  }

  lemma LaunchAdvances(w: World, i: nat, a: Answers)
    requires Invariant(w) && i < |w.rows| && w.rows[i].Start? && w.rows[i].status.Running? && !w.rows[i].launch.Started?
    requires w.rows[i].recovery.None? && (w.rows[i].saved.Some? ==> w.rows[i].saved.value.stage.Ready?)
    ensures Invariant(AdvanceLaunch(w, i, a))
  {
    var r, source := w.rows[i], Effective(w.rows[i]);
    RunningIsLast(w.rows, i);
    if source.Some? {
      EnsureKeeps(w, Worker(r.op), source.value, r.worker, a);
      var (v, result) := Ensure(w, Worker(r.op), source.value, r.worker, a);
      if result.Exited? {
        if r.saved.None? && FollowsFailed(w.rows, i) && result.seen.pod != 0 {
          ExitBeginsRecovery(v, i, result.seen);
        }
      } else if result.Up? {
        var q := r.(worker := result.seen);
        LaunchedKeeps(v, i, if !a.ready then q.(launch := Launching) else if !a.loaded then q.(launch := Loading)
                            else q.(launch := Started, status := Succeeded, proof := source));
      }
    }
  }

  lemma StartKeeps(w: World, op: Id, source: Source, a: Answers)
    requires Invariant(w)
    ensures Invariant(StartSpec(w, op, source, a))
  {
    var found := Find(w.rows, op);
    if Prepared(w) {
      if found.None? {
        AcceptStartKeeps(w, op, source, a);
      } else if w.rows[found.value].Start? && w.rows[found.value].status.Running?
        && !w.rows[found.value].launch.Started? {
        var i := found.value;
        if w.rows[i].recovery.Some? {
          ReplacementAdvances(w, i, a);
        } else if w.rows[i].saved.Some? && !w.rows[i].saved.value.stage.Ready? {
          SavedAdvances(w, i, a);
        } else {
          LaunchAdvances(w, i, a);
        }
      }
    }
  }

  // ---- Stop and destroy ----

  lemma AcceptStopKeeps(w: World, op: Id, start: Id, content: Id)
    requires Invariant(w) && Find(w.rows, op).None?
    ensures Invariant(AcceptStop(w, op, start, content))
  {
    if AcceptStop(w, op, start, content) != w {
      var last := w.rows[|w.rows| - 1];
      var row := Stop(op, Running, StopAccepted, Source(last.source.revision, content, false), start,
                      Effective(last).value, last.worker, false);
      forall n | n in w.pods ensures Licensed(row, n, w.pods[n]) {
        assert Licensed(last, n, w.pods[n]) && Terminal(last);
      }
      AppendKeeps(w, row);
    }
  }

  lemma WorkerEnds(w: World, i: nat, a: Answers)
    requires Invariant(w) && i < |w.rows| && w.rows[i].Stop? && w.rows[i].status.Running? && w.rows[i].sealed
    ensures Invariant(EndWorker(w, i, a))
  {
    var r := w.rows[i];
    RunningIsLast(w.rows, i);
    CreateIsFirst(w.rows, i);
    assert Follows(w.rows[i - 1], w.rows[i]) && Terminal(r);
    RemoveKeeps(w, Worker(r.start), r.loaded, r.drained, false, a);
    var (v, removal) := Remove(w, Worker(r.start), r.loaded, r.drained, false, a);
    if removal.Waiting? {
      SaveKeeps(v, i, r);
    } else if removal.Gone? {
      FreeWithoutHolder(w);
      SaveKeeps(v, i, r.(status := Succeeded, drain := Stopped));
    }
  }

  lemma StopKeeps(w: World, op: Id, start: Id, content: Id, a: Answers)
    requires Invariant(w)
    ensures Invariant(StopSpec(w, op, start, content, a))
  {
    var found := Find(w.rows, op);
    if found.None? {
      AcceptStopKeeps(w, op, start, content);
    } else if w.rows[found.value].Stop? && w.rows[found.value].status.Running? {
      var i := found.value;
      var r := w.rows[i];
      if r.sealed {
        WorkerEnds(w, i, a);
      }
      CreateIsFirst(w.rows, i);
      RunningIsLast(w.rows, i);
      assert Follows(w.rows[i - 1], r) && Terminal(r);
      var sealed := r.(sealed := true, drain := StopRemoving);
      forall n | n in w.pods ensures Licensed(sealed, n, w.pods[n]) {
        assert Licensed(r, n, w.pods[n]);
      }
      SaveKeeps(w, i, sealed);
    }
  }

  lemma DestroyKeeps(w: World, op: Id, previous: Id, a: Answers)
    requires Invariant(w)
    ensures Invariant(DestroySpec(w, op, previous, a))
  {
    var found := Find(w.rows, op);
    if found.None? {
      if AcceptDestroy(w, op, previous) != w {
        FreeWithoutHolder(w);
        AppendKeeps(w, Destroy(op, Running, DestroyAccepted));
      }
    } else if w.rows[found.value].Destroy? && w.rows[found.value].status.Running? {
      var i := found.value;
      RunningIsLast(w.rows, i);
      CreateIsFirst(w.rows, i);
      FreeWithoutHolder(w);
      assert Follows(w.rows[i - 1], w.rows[i]);
      SaveKeeps(w, i, w.rows[i].(removal := Revoking));
      SaveKeeps(w.(retained := true), i, w.rows[i].(status := Succeeded, removal := Deleted));
    }
  }

  // ---- Runs ----

  lemma StepKeeps(w: World, e: Event)
    requires Invariant(w)
    ensures Invariant(Step(w, e))
  {
    match e {
      case CreateCall(op, source, a, budget) => CreateKeeps(w.(budget := budget), op, source, a);
      case StartCall(op, source, a, budget) => StartKeeps(w.(budget := budget), op, source, a);
      case StopCall(op, start, content, a, budget) => StopKeeps(w.(budget := budget), op, start, content, a);
      case DestroyCall(op, previous, a, budget) => DestroyKeeps(w.(budget := budget), op, previous, a);
      case PodFinished(n) =>
        if n in w.pods {
          assert Step(w, e).pods.Keys == w.pods.Keys;
          SamePodsKeep(w.rows, w.pods, Step(w, e).pods);
        }
      case PodGone(n) =>
      case ServiceGone(n) =>
    }
  }

  lemma {:induction false} RunFromKeeps(w: World, events: seq<Event>)
    requires Invariant(w)
    ensures Invariant(RunFrom(w, events))
  {
    if events != [] {
      RunFromKeeps(w, events[..|events| - 1]);
      StepKeeps(RunFrom(w, events[..|events| - 1]), events[|events| - 1]);
    }
  }

  lemma RunKeepsInvariant(events: seq<Event>)
    ensures Invariant(Run(events))
  {
    RunFromKeeps(NEW, events);
  }
}
