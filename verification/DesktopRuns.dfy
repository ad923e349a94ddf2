/** Every history of one desktop instance. */
module DesktopRuns {
  import opened Wrappers
  import opened Desktops

  datatype Event =
    | CreateCall(op: Id, source: Source, answers: Answers, budget: nat)
    | StartCall(op: Id, source: Source, answers: Answers, budget: nat)
    | StopCall(op: Id, start: Id, content: Id, answers: Answers, budget: nat)
    | DestroyCall(op: Id, previous: Id, answers: Answers, budget: nat)
    | PodFinished(name: Name)
    /** A Pod or Service object disappears, asked for or not. */
    | PodGone(name: Name)
    | ServiceGone(name: Name)

  function Step(w: World, e: Event): World {
    match e
    case CreateCall(op, source, a, budget) => CreateSpec(w.(budget := budget), op, source, a)
    case StartCall(op, source, a, budget) => StartSpec(w.(budget := budget), op, source, a)
    case StopCall(op, start, content, a, budget) => StopSpec(w.(budget := budget), op, start, content, a)
    case DestroyCall(op, previous, a, budget) => DestroySpec(w.(budget := budget), op, previous, a)
    case PodFinished(n) => if n in w.pods then w.(pods := w.pods[n := w.pods[n].(finished := true)]) else w
    case PodGone(n) => w.(pods := w.pods - {n})
    case ServiceGone(n) => w.(services := w.services - {n})
  }

  const NEW := World([], map[], map[], false, false, 1, 0)

  function RunFrom(w: World, events: seq<Event>): World {
    if events == [] then w else Step(RunFrom(w, events[..|events| - 1]), events[|events| - 1])
  }

  function Run(events: seq<Event>): World {
    RunFrom(NEW, events)
  }

  // ---- The ledger ----

  /** Succeeded rows are at their last phase, and only those. */
  predicate Terminal(r: Row) {
    match r
    case Create(_, status, phase, _, _, proved) =>
      (status.Succeeded? <==> phase.Created?) && (status.Succeeded? ==> proved)
    case Start(_, status, phase, _, _, proof, recovery, _) =>
      && (status.Succeeded? <==> phase.Started?)
      && (status.Succeeded? ==> recovery.None? && proof.Some? && proof == Effective(r))
    case Stop(_, status, phase, _, _, _, _, sealed) =>
      (status.Succeeded? <==> phase.Stopped?) && (!phase.StopAccepted? ==> sealed)
    case Destroy(_, status, phase) => status.Succeeded? <==> phase.Deleted?
  }

  /** Where a start takes its content from. */
  predicate Continues(before: Row, r: Row)
    requires r.Start?
  {
    match before
    case Create(_, _, _, source, _, _) => r.source == source
    case Start(_, _, _, _, _, _, _, _) => Effective(before) == Some(r.source)
    case Stop(_, _, _, source, _, _, _, _) => r.source == source
    case Destroy(_, _, _) => false
  }

  /** A recovery is of the start before, and adopts only a copy it may adopt. */
  predicate RecoversWell(before: Row, r: Row)
    requires r.Start?
  {
    && (r.recovery.Some? ==>
        before.Start? && r.saved.None? && r.recovery.value.start == before.op && r.recovery.value.source == r.source)
    && (r.saved.Some? ==> before.Start?)
    && (r.saved.Some? && r.saved.value.stage.RemovingWorker? ==> r.saved.value.previous.pod != 0)
    && (r.saved.Some? && (r.saved.value.stage.RemovingHelper? || r.saved.value.stage.Ready?) ==>
        Adoptable(r.saved.value.source, r.source))
  }

  predicate Follows(before: Row, r: Row) {
    && before.status.Succeeded?
    && match r
       case Create(_, _, _, _, _, _) => false
       case Start(_, _, _, _, _, _, _, _) => Continues(before, r) && RecoversWell(before, r)
       case Stop(_, _, _, source, start, loaded, _, _) =>
         before.Start? && before.op == start && Effective(before) == Some(loaded)
           && source.revision == before.source.revision && !source.empty
       case Destroy(_, _, _) => before.Create? || before.Stop?
  }

  predicate Ledger(rows: seq<Row>) {
    && (rows != [] ==> rows[0].Create?)
    && (forall i :: 0 <= i < |rows| ==> Terminal(rows[i]))
    && (forall i :: 1 <= i < |rows| ==> Follows(rows[i - 1], rows[i]))
    && (forall i, j :: 0 <= i < j < |rows| ==> rows[i].op != rows[j].op)
  }

  // ---- The Pods ----

  /** What the newest row lets exist on the volume, with which content, and as
      which Pod once its UID was recorded; a worker that is to be removed as
      failed has run to its end. */
  predicate Licensed(last: Row, n: Name, p: Pod) {
    match n
    case Preparer =>
      && last.Create? && last.status.Running? && !last.preparation.CreateAccepted? && !last.preparation.Reserved?
      && (p.uid == last.helper.pod || (last.helper.pod == 0 && !last.preparation.CreateRemoving?))
    case Reader =>
      && last.Start? && last.status.Running? && last.recovery.None? && last.saved.Some?
      && (last.saved.value.stage.Observing? || last.saved.value.stage.RemovingHelper?)
      && (p.uid == last.saved.value.helper.pod
          || (last.saved.value.helper.pod == 0 && last.saved.value.stage.Observing?))
    case Worker(op) =>
      || (&& last.Start? && last.op == op && last.recovery.None? && (last.worker.pod == 0 || p.uid == last.worker.pod)
          && (match last.saved
              case None => p.source == last.source
              case Some(s) =>
                || (s.stage.RemovingWorker? && p.source == last.source && p.uid == s.previous.pod && p.finished)
                || (s.stage.Ready? && Effective(last) == Some(p.source))))
      || (&& last.Start? && last.status.Running? && last.recovery.Some? && last.recovery.value.start == op
          && p.source == last.recovery.value.source && p.uid == last.recovery.value.worker.pod && p.finished)
      || (last.Stop? && last.status.Running? && last.start == op && p.source == last.loaded
          && p.uid == last.drained.pod)
  }

  /** The evidence a deletion needs is in the newest row: the proved content of a
      preparation, the failed worker a start replaces or recovers from, the copy
      a reader observed, or the sealed drain of a stop. */
  predicate Condemned(last: Row) {
    match last
    case Create(_, status, phase, _, _, proved) => status.Running? && phase.CreateRemoving? && proved
    case Start(_, status, _, source, _, _, recovery, saved) =>
      && status.Running?
      && (|| recovery.Some?
          || (saved.Some? && saved.value.stage.RemovingWorker? && saved.value.previous.pod != 0)
          || (saved.Some? && saved.value.stage.RemovingHelper? && Adoptable(saved.value.source, source)))
    case Stop(_, status, _, _, _, _, _, sealed) => status.Running? && sealed
    case Destroy(_, _, _) => false
  }

  predicate Mounts(rows: seq<Row>, pods: map<Name, Pod>) {
    && (forall m, n :: m in pods && n in pods ==> m == n)
    && (forall n :: n in pods ==> rows != [] && Licensed(rows[|rows| - 1], n, pods[n]))
    && (forall n :: n in pods && pods[n].terminating ==> rows != [] && Condemned(rows[|rows| - 1]))
  }

  predicate Invariant(w: World) {
    Ledger(w.rows) && Mounts(w.rows, w.pods)
  }

  // ---- What ensuring and removing may do ----

  /** The very same Pods loading the same content; a finished one stays so. */
  predicate SamePods(a: map<Name, Pod>, b: map<Name, Pod>) {
    && a.Keys == b.Keys
    && forall n :: n in a ==>
         n in b && a[n].uid == b[n].uid && a[n].source == b[n].source && (a[n].finished ==> b[n].finished)
  }

  /** Nothing but Pods, Services, UIDs and the budget differ. */
  predicate OnlyCluster(w: World, v: World) {
    v.rows == w.rows && v.reserved == w.reserved && v.retained == w.retained
  }

  /** What a successful call reports is the Pod that is there. */
  predicate Told(w: World, n: Name, result: Result)
    requires n in w.pods
  {
    match result
    case Refused => true
    case Exited(seen) => seen.pod == w.pods[n].uid && w.pods[n].finished
    case Up(seen) => seen.pod == w.pods[n].uid
  }

  lemma EnsureCases(w: World, n: Name, source: Source, expected: Seen, a: Answers)
    ensures
      var (v, result) := Ensure(w, n, source, expected, a);
      && OnlyCluster(w, v)
      && (v.pods == w.pods
          || (w.pods == map[] && v.pods.Keys == {n} && v.pods[n].source == source && !v.pods[n].terminating
              && expected.pod == 0))
      && (!result.Refused? ==> n in v.pods && v.pods[n].source == source && Told(v, n, result))
  {
    if n !in w.pods && Mountable(w, None) {
      assert w.pods == map[];
    }
  }

  lemma DropsKeepPods(w: World, n: Name)
    ensures n in w.services ==> OnlyCluster(w, DropService(w, n).world) && DropService(w, n).world.pods == w.pods
    ensures n in w.pods ==> OnlyCluster(w, DropPod(w, n).world) && SamePods(w.pods, DropPod(w, n).world.pods)
  {
    if n in w.pods {
      assert DropPod(w, n).world.pods.Keys == w.pods.Keys;
    }
  }

  lemma RemoveCases(w: World, n: Name, source: Source, expected: Seen, helper: bool, a: Answers)
    ensures
      var (v, removal) := Remove(w, n, source, expected, helper, a);
      && OnlyCluster(w, v) && SamePods(w.pods, v.pods)
      && (removal.Gone? ==> v == w && n !in w.pods)
  {
    DropsKeepPods(w, n);
    if n in w.services {
      DropsKeepPods(DropService(w, n).world, n);
    }
  }
}
