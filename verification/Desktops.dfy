/** One desktop instance: its execution ledger, the Pods that mount its volume,
    and what create, start, stop and destroy do to both. The instance lock
    serialises the calls. */
module Desktops {
  import opened Wrappers

  /** Operation IDs, UIDs and content digests are numbers; 0 is Go's empty string. */
  type Id = nat

  datatype Source = Source(revision: Id, content: Id, empty: bool)

  /** The Pods the runtime creates on an instance's volume. */
  datatype Name = Preparer | Reader | Worker(start: Id)

  /** `source` is what the Pod was told to load; helpers load nothing. */
  datatype Pod = Pod(uid: Id, terminating: bool, finished: bool, source: Source)

  datatype Service = Service(uid: Id, terminating: bool)

  datatype Seen = Seen(pod: Id, service: Id)

  const UNSEEN := Seen(0, 0)
  const NOTHING := Source(0, 0, true)

  datatype Status = Running | Succeeded

  datatype CreatePhase = CreateAccepted | Reserved | Claimed | Preparing | AwaitingContent | CreateRemoving | Created

  datatype StartPhase = StartAccepted | Launching | Loading | Recovering | Started

  datatype StopPhase = StopAccepted | StopRemoving | Stopped

  datatype DestroyPhase = DestroyAccepted | Revoking | Deleted

  /** The failed worker a start replaces. */
  datatype Recovery = Recovery(start: Id, source: Source, worker: Seen)

  datatype Stage = RemovingWorker | Observing | RemovingHelper | Ready

  datatype Saved = Saved(stage: Stage, previous: Seen, helper: Seen, source: Option<Source>)

  datatype Row =
    | Create(op: Id, status: Status, preparation: CreatePhase, source: Source, helper: Seen, proved: bool)
    | Start(op: Id, status: Status, launch: StartPhase, source: Source, worker: Seen, proof: Option<Source>,
            recovery: Option<Recovery>, saved: Option<Saved>)
    | Stop(op: Id, status: Status, drain: StopPhase, source: Source, start: Id, loaded: Source, drained: Seen,
           sealed: bool)
    | Destroy(op: Id, status: Status, removal: DestroyPhase)

  /** `rows` is the instance's ledger in commit order. `budget` is how many
      effects the current call completes before it dies or loses an answer. */
  datatype World = World(
    rows: seq<Row>, pods: map<Name, Pod>, services: map<Name, Service>, reserved: bool, retained: bool, next: Id,
    budget: nat)

  /** What the world outside answers during one call: the volume pair passes
      inspection but for its mounts; node, credential, admission and readiness;
      the proofs; and the working copy a reader observes. */
  datatype Answers = Answers(
    volume: bool, node: bool, credential: bool, admitted: bool, ready: bool, prepared: bool, loaded: bool, sealed: bool,
    revoked: bool, copy: Option<Source>)

  /** No Pod object mounts the volume but the allowed one. */
  predicate Mountable(w: World, allow: Option<Name>) {
    forall n :: n in w.pods ==> allow == Some(n)
  }

  datatype Outcome = Outcome(world: World, ok: bool)

  // ---- Effects ----

  function MakeService(w: World, n: Name): Outcome {
    if w.budget == 0 then Outcome(w, false)
    else Outcome(w.(services := w.services[n := Service(w.next, false)], next := w.next + 1, budget := w.budget - 1),
                 true)
  }

  function MakePod(w: World, n: Name, source: Source): Outcome {
    if w.budget == 0 then Outcome(w, false)
    else Outcome(w.(pods := w.pods[n := Pod(w.next, false, false, source)], next := w.next + 1, budget := w.budget - 1),
                 true)
  }

  function DropService(w: World, n: Name): Outcome
    requires n in w.services
  {
    if w.budget == 0 then Outcome(w, false)
    else Outcome(w.(services := w.services[n := w.services[n].(terminating := true)], budget := w.budget - 1), true)
  }

  function DropPod(w: World, n: Name): Outcome
    requires n in w.pods
  {
    if w.budget == 0 then Outcome(w, false)
    else Outcome(w.(pods := w.pods[n := w.pods[n].(terminating := true)], budget := w.budget - 1), true)
  }

  function Save(w: World, i: nat, r: Row): World
    requires i < |w.rows|
  {
    if w.budget == 0 then w else w.(rows := w.rows[i := r], budget := w.budget - 1)
  }

  function Append(w: World, r: Row): World {
    if w.budget == 0 then w else w.(rows := w.rows + [r], budget := w.budget - 1)
  }

  // ---- Ensuring and removing a Pod with its Service ----

  datatype Result = Refused | Exited(seen: Seen) | Up(seen: Seen)

  predicate PodFits(w: World, n: Name, source: Source, expected: Id) {
    if n in w.pods then
      !w.pods[n].terminating && w.pods[n].source == source && (expected == 0 || expected == w.pods[n].uid)
    else expected == 0
  }

  predicate ServiceFits(w: World, n: Name, expected: Id) {
    if n in w.services then !w.services[n].terminating && (expected == 0 || expected == w.services[n].uid)
    else expected == 0
  }

  /** Makes what is missing, the Service first, and reports what is there. */
  function Provide(w: World, n: Name, source: Source): (World, Result) {
    var served := if n in w.services then Outcome(w, true) else MakeService(w, n);
    if !served.ok then (served.world, Refused)
    else
      var made := if n in w.pods then Outcome(served.world, true) else MakePod(served.world, n, source);
      if !made.ok then (made.world, Refused)
      else
        var seen := Seen(made.world.pods[n].uid, made.world.services[n].uid);
        (made.world, if made.world.pods[n].finished then Exited(seen) else Up(seen))
  }

  /** Everything is validated, the mounts included, before the first creation. */
  function Ensure(w: World, n: Name, source: Source, expected: Seen, a: Answers): (World, Result) {
    if || !PodFits(w, n, source, expected.pod) || !a.volume || !a.credential
       || !Mountable(w, if n in w.pods then Some(n) else None) || !ServiceFits(w, n, expected.service)
       || (n !in w.pods && !a.admitted) then
      (w, Refused)
    else
      Provide(w, n, source)
  }

  datatype Removal = Failed | Waiting | Gone

  predicate Ours(w: World, n: Name, source: Source, expected: Seen) {
    && (n in w.pods ==> (expected.pod == 0 || w.pods[n].uid == expected.pod) && w.pods[n].source == source)
    && (n in w.services ==> expected.service == 0 || w.services[n].uid == expected.service)
  }

  /** A worker is removed behind a mount check, a helper is fenced by its UIDs. */
  predicate MayRemove(w: World, n: Name, source: Source, expected: Seen, helper: bool, a: Answers) {
    && Ours(w, n, source, expected)
    && (if helper then expected.pod != 0 && expected.service != 0
        else a.volume && Mountable(w, if n in w.pods then Some(n) else None))
  }

  /** Deletes the Service, then the Pod; `Gone` is reported only by a call that
      found both absent, and the volume unmounted. */
  function Remove(w: World, n: Name, source: Source, expected: Seen, helper: bool, a: Answers): (World, Removal) {
    if !MayRemove(w, n, source, expected, helper, a) then (w, Failed)
    else if n !in w.pods && n !in w.services then
      (w, if (if helper then a.volume && Mountable(w, None) else a.node) then Gone else Failed)
    else
      var unserved := if n in w.services then DropService(w, n) else Outcome(w, true);
      if !unserved.ok then (unserved.world, Failed)
      else
        var dropped := if n in w.pods then DropPod(unserved.world, n) else unserved;
        (dropped.world, if dropped.ok then Waiting else Failed)
  }

  // ---- Looking rows up ----

  function FindFrom(rows: seq<Row>, op: Id, i: nat): (r: Option<nat>)
    requires i <= |rows|
    ensures r.Some? ==> i <= r.value < |rows| && rows[r.value].op == op
    ensures r.None? ==> forall j :: i <= j < |rows| ==> rows[j].op != op
    decreases |rows| - i
  {
    if i == |rows| then None else if rows[i].op == op then Some(i) else FindFrom(rows, op, i + 1)
  }

  function Find(rows: seq<Row>, op: Id): (r: Option<nat>)
    ensures r.Some? ==> r.value < |rows| && rows[r.value].op == op
    ensures r.None? ==> forall j :: 0 <= j < |rows| ==> rows[j].op != op
  {
    FindFrom(rows, op, 0)
  }

  /** The content a start really runs with: its request's, unless a finished
      recovery observed another working copy. */
  function Effective(r: Row): (s: Option<Source>)
    requires r.Start?
  {
    if r.saved.None? then Some(r.source)
    else
      var v := r.saved.value;
      if && v.stage.Ready? && v.source.Some? && !v.source.value.empty && v.source.value.revision == r.source.revision
         && v.source.value != r.source && v.previous.pod != 0 && v.previous.service != 0 && v.helper.pod != 0
         && v.helper.service != 0 then
        v.source
      else None
  }

  /** The succeeded creation every later action builds on. */
  predicate Prepared(w: World) {
    w.rows != [] && w.rows[0].Create? && w.rows[0].status.Succeeded? && w.rows[0].preparation.Created?
      && w.rows[0].proved
  }

  // ---- Create ----

  function AdvanceHelper(w: World, i: nat, a: Answers): World
    requires i < |w.rows| && w.rows[i].Create?
  {
    var r := w.rows[i];
    var (v, result) := Ensure(w, Preparer, NOTHING, r.helper, a.(admitted := true));
    if !result.Up? then v
    else
      var phase := if !a.ready then Preparing else if a.prepared then CreateRemoving else AwaitingContent;
      Save(v, i, r.(helper := result.seen, preparation := phase, proved := phase.CreateRemoving?))
  }

  function EndHelper(w: World, i: nat, a: Answers): World
    requires i < |w.rows| && w.rows[i].Create?
  {
    var r := w.rows[i];
    var (v, removal) := Remove(w, Preparer, NOTHING, r.helper, true, a);
    match removal
    case Failed => v
    case Waiting => Save(v, i, r)
    case Gone => Save(v, i, r.(status := Succeeded, preparation := Created))
  }

  function AdvanceCreate(w: World, i: nat, a: Answers): World
    requires i < |w.rows| && w.rows[i].Create?
  {
    var r := w.rows[i];
    if !r.preparation.CreateAccepted? && (!w.reserved || w.retained) then w
    else match r.preparation
      case CreateAccepted =>
        if a.volume && w.budget > 0 then Save(w.(reserved := true), i, r.(preparation := Reserved)) else w
      case Reserved =>
        if a.volume && a.credential && Mountable(w, None) then Save(w, i, r.(preparation := Claimed)) else w
      case CreateRemoving => if r.proved then EndHelper(w, i, a) else w
      case Created => w
      case _ => AdvanceHelper(w, i, a)
  }

  function CreateSpec(w: World, op: Id, source: Source, a: Answers): World {
    var found := Find(w.rows, op);
    if found.None? then
      if exists i :: 0 <= i < |w.rows| && (w.rows[i].status.Running? || w.rows[i].Create?) then w
      else Append(w, Create(op, Running, CreateAccepted, source, UNSEEN, false))
    else
      var i := found.value;
      var r := w.rows[i];
      if !r.Create? || r.source != source || !r.status.Running? then w else AdvanceCreate(w, i, a)
  }

  // ---- Start ----

  /** The worker of a finished start may be replaced once its Pod has failed. */
  predicate Replaceable(w: World, r: Row, source: Source, a: Answers)
    requires r.Start?
  {
    && r.proof.Some? && r.worker.pod != 0 && r.recovery.None? && Effective(r) == Some(source)
    && Worker(r.op) in w.pods
    && w.pods[Worker(r.op)].uid == r.worker.pod && w.pods[Worker(r.op)].source == source
    && w.pods[Worker(r.op)].finished && a.node
  }

  function AcceptStart(w: World, op: Id, source: Source, a: Answers): World
    requires Prepared(w)
  {
    var last := w.rows[|w.rows| - 1];
    var row := Start(op, Running, StartAccepted, source, UNSEEN, None, None, None);
    match last
    case Create(_, _, _, created, _, _) => if source == created then Append(w, row) else w
    case Start(_, status, phase, _, _, _, _, _) =>
      if status.Succeeded? && phase.Started? && Replaceable(w, last, source, a) then
        Append(w, row.(recovery := Some(Recovery(last.op, source, last.worker))))
      else w
    case Stop(_, status, phase, sealed, _, _, _, _) =>
      if status.Succeeded? && phase.Stopped? && sealed == source then Append(w, row) else w
    case Destroy(_, _, _) => w
  }

  /** A failed worker that is gone, or still there and finished. */
  predicate FailedWorker(w: World, n: Name, expected: Seen, a: Answers) {
    a.node && (n in w.pods ==> w.pods[n].uid == expected.pod && w.pods[n].finished)
  }

  function AdvanceReplacement(w: World, i: nat, a: Answers): World
    requires i < |w.rows| && w.rows[i].Start? && w.rows[i].recovery.Some?
  {
    var r, c := w.rows[i], w.rows[i].recovery.value;
    if !FailedWorker(w, Worker(c.start), c.worker, a) then w
    else
      var (v, removal) := Remove(w, Worker(c.start), c.source, c.worker, false, a);
      match removal
      case Failed => v
      case Waiting => v
      case Gone => Save(v, i, r.(recovery := None))
  }

  /** The working copy a recovery may adopt: complete, of the same revision, and
      not the content that failed. */
  predicate Adoptable(copy: Option<Source>, requested: Source) {
    copy.Some? && !copy.value.empty && copy.value.revision == requested.revision && copy.value != requested
  }

  function EndFailed(w: World, i: nat, a: Answers): World
    requires i < |w.rows| && w.rows[i].Start? && w.rows[i].saved.Some?
  {
    var r, s := w.rows[i], w.rows[i].saved.value;
    if !FailedWorker(w, Worker(r.op), s.previous, a) then w
    else
      var (v, removal) := Remove(w, Worker(r.op), r.source, s.previous, false, a);
      match removal
      case Failed => v
      case Waiting => Save(v, i, r.(launch := Recovering))
      case Gone => Save(v, i, r.(launch := Recovering, worker := UNSEEN, saved := Some(s.(stage := Observing))))
  }

  function ObserveCopy(w: World, i: nat, a: Answers): World
    requires i < |w.rows| && w.rows[i].Start? && w.rows[i].saved.Some?
  {
    var r, s := w.rows[i], w.rows[i].saved.value;
    var (v, result) := Ensure(w, Reader, NOTHING, s.helper, a.(admitted := true));
    if !result.Up? then v
    else if !a.ready then Save(v, i, r.(launch := Recovering, saved := Some(s.(helper := result.seen))))
    else if !Adoptable(a.copy, r.source) then v
    else Save(v, i,
              r.(launch := Recovering,
                 saved := Some(s.(helper := result.seen, source := a.copy, stage := RemovingHelper))))
  }

  function EndReader(w: World, i: nat, a: Answers): World
    requires i < |w.rows| && w.rows[i].Start? && w.rows[i].saved.Some?
  {
    var r, s := w.rows[i], w.rows[i].saved.value;
    var (v, removal) := Remove(w, Reader, NOTHING, s.helper, true, a);
    match removal
    case Failed => v
    case Waiting => Save(v, i, r.(launch := Recovering))
    case Gone => Save(v, i, r.(launch := Recovering, saved := Some(s.(stage := Ready))))
  }

  /** One durable stage per call. */
  function AdvanceSaved(w: World, i: nat, a: Answers): World
    requires i < |w.rows| && w.rows[i].Start? && w.rows[i].saved.Some?
  {
    match w.rows[i].saved.value.stage
    case RemovingWorker => EndFailed(w, i, a)
    case Observing => ObserveCopy(w, i, a)
    case RemovingHelper => EndReader(w, i, a)
    case Ready => w
  }

  /** A recovery may begin only where this start replaced a finished one whose
      proof and effective content are this start's own source. */
  predicate FollowsFailed(rows: seq<Row>, i: nat)
    requires i < |rows| && rows[i].Start?
  {
    && i > 0 && rows[i - 1].Start? && rows[i - 1].status.Succeeded? && rows[i - 1].launch.Started?
    && rows[i - 1].proof.Some? && Effective(rows[i - 1]) == Some(rows[i].source)
    && rows[i - 1].proof == Some(rows[i].source)
  }

  function AdvanceLaunch(w: World, i: nat, a: Answers): World
    requires i < |w.rows| && w.rows[i].Start?
  {
    var r := w.rows[i];
    var source := Effective(r);
    if source.None? then w
    else
      var (v, result) := Ensure(w, Worker(r.op), source.value, r.worker, a);
      match result
      case Refused => v
      case Exited(seen) =>
        if r.saved.None? && r.proof.None? && seen.pod != 0 && FollowsFailed(w.rows, i) && a.node then
          Save(v, i, r.(launch := Recovering, worker := seen, saved := Some(Saved(RemovingWorker, seen, UNSEEN, None))))
        else v
      case Up(seen) =>
        var q := r.(worker := seen);
        if !a.ready then Save(v, i, q.(launch := Launching))
        else if !a.loaded then Save(v, i, q.(launch := Loading))
        else Save(v, i, q.(launch := Started, status := Succeeded, proof := source))
  }

  function StartSpec(w: World, op: Id, source: Source, a: Answers): World {
    var found := Find(w.rows, op);
    if !Prepared(w) || source.revision != w.rows[0].source.revision || !w.reserved || w.retained then w
    else if found.None? then (if op == 0 then w else AcceptStart(w, op, source, a))
    else
      var i := found.value;
      var r := w.rows[i];
      if !r.Start? || r.source != source || !r.status.Running? || r.launch.Started? then w
      else if r.recovery.Some? then AdvanceReplacement(w, i, a)
      else if r.saved.Some? && !r.saved.value.stage.Ready? then AdvanceSaved(w, i, a)
      else AdvanceLaunch(w, i, a)
  }

  // ---- Stop ----

  function AcceptStop(w: World, op: Id, start: Id, content: Id): World {
    if w.rows == [] || op == 0 || op == start then w
    else
      var last := w.rows[|w.rows| - 1];
      if && last.Start? && last.op == start && last.status.Succeeded? && last.launch.Started?
         && last.proof.Some? && last.worker.pod != 0 && last.worker.service != 0 && Effective(last).Some? then
        Append(w, Stop(op, Running, StopAccepted, Source(last.source.revision, content, false), start,
                       Effective(last).value, last.worker, false))
      else w
  }

  /** The worker is there, untouched and alone on the volume. */
  predicate Sealable(w: World, r: Row, a: Answers)
    requires r.Stop?
  {
    var n := Worker(r.start);
    && n in w.pods && !w.pods[n].terminating && w.pods[n].uid == r.drained.pod && w.pods[n].source == r.loaded
    && n in w.services && !w.services[n].terminating && w.services[n].uid == r.drained.service
    && a.volume && Mountable(w, Some(n)) && a.credential && a.sealed
  }

  function EndWorker(w: World, i: nat, a: Answers): World
    requires i < |w.rows| && w.rows[i].Stop?
  {
    var r := w.rows[i];
    var (v, removal) := Remove(w, Worker(r.start), r.loaded, r.drained, false, a);
    match removal
    case Failed => v
    case Waiting => Save(v, i, r)
    case Gone => Save(v, i, r.(status := Succeeded, drain := Stopped))
  }

  function StopSpec(w: World, op: Id, start: Id, content: Id, a: Answers): World {
    var found := Find(w.rows, op);
    if !w.reserved || w.retained then w
    else if found.None? then AcceptStop(w, op, start, content)
    else
      var i := found.value;
      var r := w.rows[i];
      if !r.Stop? || r.start != start || r.source.content != content || !r.status.Running? then w
      else match r.drain
        case StopAccepted => if Sealable(w, r, a) then Save(w, i, r.(sealed := true, drain := StopRemoving)) else w
        case StopRemoving => if r.sealed then EndWorker(w, i, a) else w
        case Stopped => w
  }

  // ---- Destroy ----

  function AcceptDestroy(w: World, op: Id, previous: Id): World {
    if w.rows == [] || op == 0 || op == previous then w
    else
      var last := w.rows[|w.rows| - 1];
      var ended := (last.Create? && last.preparation.Created?) || (last.Stop? && last.drain.Stopped?);
      if last.op == previous && last.status.Succeeded? && ended && Prepared(w) && !w.retained then
        Append(w, Destroy(op, Running, DestroyAccepted))
      else w
  }

  function DestroySpec(w: World, op: Id, previous: Id, a: Answers): World {
    var found := Find(w.rows, op);
    if !w.reserved then w
    else if found.None? then AcceptDestroy(w, op, previous)
    else
      var i := found.value;
      var r := w.rows[i];
      if !r.Destroy? || !r.status.Running? || w.retained then w
      else if !a.volume || !Mountable(w, None) || w.services != map[] || !a.node then w
      else match r.removal
        case DestroyAccepted => if a.credential then Save(w, i, r.(removal := Revoking)) else w
        case Revoking =>
          if !a.revoked || w.budget == 0 then w
          else Save(w.(retained := true), i, r.(status := Succeeded, removal := Deleted))
        case Deleted => w
  }
}
