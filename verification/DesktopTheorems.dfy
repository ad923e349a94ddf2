/** What every history of a desktop instance guarantees. */
module DesktopTheorems {
  import opened Wrappers
  import opened Desktops
  import opened DesktopRuns
  import opened DesktopSafety

  // ---- The volume ----

  /** In every reachable state at most one of preparer, workers and recovery
      reader mounts the volume, through creation, replacement of a failed worker
      and every recovery stage, and after any lost commit. */
  lemma MountedOnce(events: seq<Event>, m: Name, n: Name)
    requires m in Run(events).pods && n in Run(events).pods
    ensures m == n
  {
    RunKeepsInvariant(events);
  }

  /** Once a creation or a stop has succeeded, or a destroy was accepted, no Pod
      is left on the volume. */
  lemma EndedIsUnmounted(events: seq<Event>)
    requires Run(events).rows != []
    requires
      var last := Run(events).rows[|Run(events).rows| - 1];
      last.Destroy? || (!last.Start? && last.status.Succeeded?)
    ensures Run(events).pods == map[]
  {
    RunKeepsInvariant(events);
    FreeWithoutHolder(Run(events));
  }

  /** The runtime deletes a Pod only with the evidence for this very Pod
      committed: a proved preparation, a worker that has run to its end and is
      replaced or recovered from, an observed copy, or a sealed drain. */
  lemma DeletedOnlyWithEvidence(events: seq<Event>, n: Name)
    requires n in Run(events).pods && Run(events).pods[n].terminating
    ensures
      var rows, p := Run(events).rows, Run(events).pods[n];
      && rows != [] && rows[|rows| - 1].status.Running?
      && match rows[|rows| - 1]
         case Create(_, _, _, _, helper, proved) => n == Preparer && proved && p.uid == helper.pod
         case Start(_, _, _, source, _, _, recovery, saved) =>
           || (recovery.Some? && n == Worker(recovery.value.start) && p.finished && p.uid == recovery.value.worker.pod)
           || (recovery.None? && saved.Some? && n == Worker(rows[|rows| - 1].op) && p.finished
               && p.uid == saved.value.previous.pod)
           || (recovery.None? && saved.Some? && n == Reader && Adoptable(saved.value.source, source)
               && p.uid == saved.value.helper.pod)
         case Stop(_, _, _, _, start, _, drained, sealed) => n == Worker(start) && sealed && p.uid == drained.pod
         case Destroy(_, _, _) => false
  {
    RunKeepsInvariant(events);
    var w := Run(events);
    assert Condemned(w.rows[|w.rows| - 1]) && Licensed(w.rows[|w.rows| - 1], n, w.pods[n]);
  }

  /** A worker on the volume was told to load what the ledger says: the effective
      content of its start, or, while that start is being recovered, the content
      it failed on. */
  lemma WorkersLoadTheLedger(events: seq<Event>, op: Id) returns (i: nat)
    requires Worker(op) in Run(events).pods
    ensures
      var w := Run(events);
      && i < |w.rows| && i + 2 >= |w.rows| && w.rows[i].Start? && w.rows[i].op == op
      && (var told := w.pods[Worker(op)].source;
          Effective(w.rows[i]) == Some(told)
            || (w.rows[i].saved.Some? && w.rows[i].saved.value.stage.RemovingWorker? && told == w.rows[i].source))
  {
    RunKeepsInvariant(events);
    var w := Run(events);
    i := |w.rows| - 1;
    var last := w.rows[i];
    assert Licensed(last, Worker(op), w.pods[Worker(op)]);
    if last.Stop? || last.recovery.Some? {
      CreateIsFirst(w.rows, i);
      assert Follows(w.rows[i - 1], w.rows[i]) && Terminal(w.rows[i - 1]);
      i := i - 1;
    } else {
      StartHasPredecessor(w.rows, i);
    }
  }

  // ---- The ledger ----

  /** One create, then rounds of starts and stops, at most one destroy and only
      at the end; at most one row is running and it is the newest; a stop ends
      the start right before it. */
  lemma LedgerIsRounds(events: seq<Event>, i: nat)
    requires i < |Run(events).rows|
    ensures
      var rows := Run(events).rows;
      && (rows[i].Create? <==> i == 0)
      && (rows[i].status.Running? || rows[i].Destroy? ==> i == |rows| - 1)
      && (rows[i].Stop? ==>
          i > 0 && rows[i - 1].Start? && rows[i - 1].op == rows[i].start && rows[i - 1].proof == Some(rows[i].loaded))
      && (rows[i].Stop? && rows[i].status.Succeeded? ==> rows[i].sealed)
      && (rows[i].Destroy? ==> i > 0 && (rows[i - 1].Create? || rows[i - 1].Stop?))
      && (i > 0 ==> rows[i - 1].status.Succeeded?)
      && (forall j :: 0 <= j < |rows| && j != i ==> rows[j].op != rows[i].op)
  {
    RunKeepsInvariant(events);
    var rows := Run(events).rows;
    CreateIsFirst(rows, i);
    EarlierSucceeded(rows, i);
    assert Terminal(rows[i]);
    if i > 0 {
      assert Follows(rows[i - 1], rows[i]) && Terminal(rows[i - 1]);
    }
  }

  /** The content the ledger stands at: the created source, what the last start
      effectively ran with, or what the last stop sealed. */
  function Head(rows: seq<Row>): Option<Source> {
    if rows == [] then None
    else match rows[|rows| - 1]
      case Create(_, _, _, source, _, _) => Some(source)
      case Start(_, _, _, _, _, _, _, _) => Effective(rows[|rows| - 1])
      case Stop(_, _, _, source, _, _, _, _) => Some(source)
      case Destroy(_, _, _) => Head(rows[..|rows| - 1])
  }

  /** A start always continues from where the ledger stood when it was accepted,
      never from anything older. */
  lemma RestartContinues(events: seq<Event>, i: nat)
    requires i < |Run(events).rows| && Run(events).rows[i].Start?
    ensures
      var rows := Run(events).rows;
      && Head(rows[..i]) == Some(rows[i].source)
      && rows[0].Create? && rows[i].source.revision == rows[0].source.revision
  {
    RunKeepsInvariant(events);
    var rows := Run(events).rows;
    StartHasPredecessor(rows, i);
    assert rows[..i][i - 1] == rows[i - 1];
    RevisionIsKept(rows, i);
  }

  /** Every content an instance ever holds belongs to the created revision. */
  lemma {:induction false} RevisionIsKept(rows: seq<Row>, i: nat)
    requires Ledger(rows) && i < |rows| && !rows[i].Destroy?
    ensures rows[0].Create? && rows[i].source.revision == rows[0].source.revision
  {
    CreateIsFirst(rows, i);
    if i > 0 {
      assert Follows(rows[i - 1], rows[i]);
      RevisionIsKept(rows, i - 1);
    }
  }

  // ---- Permanence ----

  /** A row keeps its action, operation and requested content. */
  predicate SameRequest(r: Row, q: Row) {
    && q.op == r.op
    && match r
       case Create(_, _, _, source, _, _) => q.Create? && q.source == source
       case Start(_, _, _, source, _, _, _, _) => q.Start? && q.source == source
       case Stop(_, _, _, source, start, loaded, _, _) =>
         q.Stop? && q.source == source && q.start == start && q.loaded == loaded
       case Destroy(_, _, _) => q.Destroy?
  }

  /** Nothing finished is rewritten and nothing is dropped. */
  ghost predicate Forward(w: World, v: World) {
    && |w.rows| <= |v.rows| && (w.retained ==> v.retained) && (w.reserved ==> v.reserved)
    && forall i :: 0 <= i < |w.rows| ==>
       SameRequest(w.rows[i], v.rows[i]) && (w.rows[i].status.Succeeded? ==> v.rows[i] == w.rows[i])
  }

  lemma ClusterForward(w: World, v: World)
    requires OnlyCluster(w, v)
    ensures Forward(w, v)
  {
  }

  lemma SaveForward(w: World, v: World, i: nat, r: Row)
    requires OnlyCluster(w, v) && i < |w.rows| && w.rows[i].status.Running? && SameRequest(w.rows[i], r)
    ensures Forward(w, Save(v, i, r))
  {
  }

  lemma AppendForward(w: World, r: Row)
    ensures Forward(w, Append(w, r))
  {
  }

  lemma CreateForward(w: World, op: Id, source: Source, a: Answers)
    ensures Forward(w, CreateSpec(w, op, source, a))
  {
    ClusterForward(w, w);
    var found := Find(w.rows, op);
    if found.None? {
      AppendForward(w, Create(op, Running, CreateAccepted, source, UNSEEN, false));
    } else if w.rows[found.value].Create? && w.rows[found.value].status.Running? {
      AdvanceCreateForward(w, found.value, a);
    }
  }

  lemma HelperForward(w: World, i: nat, a: Answers)
    requires i < |w.rows| && w.rows[i].Create? && w.rows[i].status.Running?
    ensures Forward(w, AdvanceHelper(w, i, a)) && Forward(w, EndHelper(w, i, a))
  {
    var r := w.rows[i];
    EnsureCases(w, Preparer, NOTHING, r.helper, a.(admitted := true));
    RemoveCases(w, Preparer, NOTHING, r.helper, true, a);
    ClusterForward(w, Ensure(w, Preparer, NOTHING, r.helper, a.(admitted := true)).0);
    ClusterForward(w, Remove(w, Preparer, NOTHING, r.helper, true, a).0);
  }

  lemma AdvanceCreateForward(w: World, i: nat, a: Answers)
    requires i < |w.rows| && w.rows[i].Create? && w.rows[i].status.Running?
    ensures Forward(w, AdvanceCreate(w, i, a))
  {
    ClusterForward(w, w);
    HelperForward(w, i, a);
    SaveForward(w, w, i, w.rows[i].(preparation := Claimed));
  }

  lemma StartForward(w: World, op: Id, source: Source, a: Answers)
    ensures Forward(w, StartSpec(w, op, source, a))
  {
    ClusterForward(w, w);
    var found := Find(w.rows, op);
    if Prepared(w) && found.Some? && w.rows[found.value].Start? && w.rows[found.value].status.Running? {
      var i := found.value;
      if w.rows[i].recovery.Some? {
        ReplacementForward(w, i, a);
      } else if w.rows[i].saved.Some? && !w.rows[i].saved.value.stage.Ready? {
        SavedForward(w, i, a);
      } else {
        LaunchForward(w, i, a);
      }
    }
  }

  lemma ReplacementForward(w: World, i: nat, a: Answers)
    requires i < |w.rows| && w.rows[i].Start? && w.rows[i].status.Running? && w.rows[i].recovery.Some?
    ensures Forward(w, AdvanceReplacement(w, i, a))
  {
    var c := w.rows[i].recovery.value;
    ClusterForward(w, w);
    RemoveCases(w, Worker(c.start), c.source, c.worker, false, a);
    var v := Remove(w, Worker(c.start), c.source, c.worker, false, a).0;
    ClusterForward(w, v);
    SaveForward(w, v, i, w.rows[i].(recovery := None));
  }

  lemma FailedForward(w: World, i: nat, a: Answers)
    requires i < |w.rows| && w.rows[i].Start? && w.rows[i].status.Running? && w.rows[i].saved.Some?
    ensures Forward(w, EndFailed(w, i, a))
  {
    var r, s := w.rows[i], w.rows[i].saved.value;
    ClusterForward(w, w);
    RemoveCases(w, Worker(r.op), r.source, s.previous, false, a);
    ClusterForward(w, Remove(w, Worker(r.op), r.source, s.previous, false, a).0);
  }

  lemma ReaderForward(w: World, i: nat, a: Answers)
    requires i < |w.rows| && w.rows[i].Start? && w.rows[i].status.Running? && w.rows[i].saved.Some?
    ensures Forward(w, EndReader(w, i, a))
  {
    var s := w.rows[i].saved.value;
    RemoveCases(w, Reader, NOTHING, s.helper, true, a);
    ClusterForward(w, Remove(w, Reader, NOTHING, s.helper, true, a).0);
  }

  lemma ObservationForward(w: World, i: nat, a: Answers)
    requires i < |w.rows| && w.rows[i].Start? && w.rows[i].status.Running? && w.rows[i].saved.Some?
    ensures Forward(w, ObserveCopy(w, i, a))
  {
    var s := w.rows[i].saved.value;
    EnsureCases(w, Reader, NOTHING, s.helper, a.(admitted := true));
    ClusterForward(w, Ensure(w, Reader, NOTHING, s.helper, a.(admitted := true)).0);
  }

  lemma SavedForward(w: World, i: nat, a: Answers)
    requires i < |w.rows| && w.rows[i].Start? && w.rows[i].status.Running? && w.rows[i].saved.Some?
    ensures Forward(w, AdvanceSaved(w, i, a))
  {
    match w.rows[i].saved.value.stage
    case Observing => ObservationForward(w, i, a);
    case Ready => ClusterForward(w, w);
    case RemovingWorker => FailedForward(w, i, a);
    case RemovingHelper => ReaderForward(w, i, a);
  }

  lemma LaunchForward(w: World, i: nat, a: Answers)
    requires i < |w.rows| && w.rows[i].Start? && w.rows[i].status.Running?
    ensures Forward(w, AdvanceLaunch(w, i, a))
  {
    var r := w.rows[i];
    ClusterForward(w, w);
    if Effective(r).Some? {
      EnsureCases(w, Worker(r.op), Effective(r).value, r.worker, a);
      ClusterForward(w, Ensure(w, Worker(r.op), Effective(r).value, r.worker, a).0);
    }
  }

  lemma StopForward(w: World, op: Id, start: Id, content: Id, a: Answers)
    ensures Forward(w, StopSpec(w, op, start, content, a))
  {
    ClusterForward(w, w);
    var found := Find(w.rows, op);
    if found.Some? && w.rows[found.value].Stop? && w.rows[found.value].status.Running? {
      var r := w.rows[found.value];
      RemoveCases(w, Worker(r.start), r.loaded, r.drained, false, a);
      ClusterForward(w, Remove(w, Worker(r.start), r.loaded, r.drained, false, a).0);
    }
  }

  lemma DestroyForward(w: World, op: Id, previous: Id, a: Answers)
    ensures Forward(w, DestroySpec(w, op, previous, a))
  {
    ClusterForward(w, w);
  }

  lemma StepForward(w: World, e: Event)
    ensures Forward(w, Step(w, e))
  {
    match e {
      case CreateCall(op, source, a, budget) => CreateForward(w.(budget := budget), op, source, a);
      case StartCall(op, source, a, budget) => StartForward(w.(budget := budget), op, source, a);
      case StopCall(op, start, content, a, budget) => StopForward(w.(budget := budget), op, start, content, a);
      case DestroyCall(op, previous, a, budget) => DestroyForward(w.(budget := budget), op, previous, a);
      case _ => ClusterForward(w, Step(w, e));
    }
  }

  lemma Chains(w: World, u: World, v: World)
    requires Forward(w, u) && Forward(u, v)
    ensures Forward(w, v)
  {
  }

  lemma OneMore(w: World, u: World, e: Event)
    requires Forward(w, u)
    ensures Forward(w, Step(u, e))
  {
    StepForward(u, e);
    Chains(w, u, Step(u, e));
  }

  /** From any state on: requests are immutable, finished rows are frozen, and a
      retained volume stays retained. */
  lemma {:induction false} NothingIsRewritten(w: World, events: seq<Event>)
    ensures Forward(w, RunFrom(w, events))
  {
    if events == [] {
      ClusterForward(w, w);
    } else {
      NothingIsRewritten(w, events[..|events| - 1]);
      OneMore(w, RunFrom(w, events[..|events| - 1]), events[|events| - 1]);
    }
  }
}
