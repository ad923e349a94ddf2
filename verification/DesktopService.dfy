/** The desktop operations as they run: one lookup, one stage, cluster effects
    one at a time and the ledger row last. */
module DesktopService {
  import opened Wrappers
  import opened Desktops
  import DesktopRuns
  import DesktopSafety

  class Service {
    var rows: seq<Row>
    var pods: map<Name, Pod>
    var services: map<Name, Desktops.Service>
    var reserved: bool
    var retained: bool
    var next: Id
    var budget: nat

    function Snapshot(): World
      reads this
    {
      World(rows, pods, services, reserved, retained, next, budget)
    }

    constructor (w: World)
      ensures Snapshot() == w
    {
      rows, pods, services, reserved := w.rows, w.pods, w.services, w.reserved;
      retained, next, budget := w.retained, w.next, w.budget;
    }

    method Lookup(op: Id) returns (i: Option<nat>)
      ensures i == Find(rows, op)
    {
      for k := 0 to |rows|
        invariant Find(rows, op) == FindFrom(rows, op, k)
      {
        if rows[k].op == op {
          return Some(k);
        }
      }
      i := None;
    }

    method Commit(i: nat, r: Row)
      requires i < |rows|
      modifies this`rows, this`budget
      ensures Snapshot() == Save(old(Snapshot()), i, r)
    {
      if budget > 0 {
        rows, budget := rows[i := r], budget - 1;
      }
    }

    method Insert(r: Row)
      modifies this`rows, this`budget
      ensures Snapshot() == Append(old(Snapshot()), r)
    {
      if budget > 0 {
        rows, budget := rows + [r], budget - 1;
      }
    }

    /** Creates the Service and the Pod where they are missing. */
    method CreateMissing(n: Name, source: Source) returns (result: Result)
      modifies this`pods, this`services, this`next, this`budget
      ensures (Snapshot(), result) == Provide(old(Snapshot()), n, source)
    {
      if n !in services {
        if budget == 0 {
          return Refused;
        }
        services, next, budget := services[n := Desktops.Service(next, false)], next + 1, budget - 1;
      }
      if n !in pods {
        if budget == 0 {
          return Refused;
        }
        pods, next, budget := pods[n := Pod(next, false, false, source)], next + 1, budget - 1;
      }
      var seen := Seen(pods[n].uid, services[n].uid);
      result := if pods[n].finished then Exited(seen) else Up(seen);
    }

    /** Validates Pod, mounts and Service, then creates what is missing. */
    method EnsureMounted(n: Name, source: Source, expected: Seen, a: Answers) returns (result: Result)
      modifies this`pods, this`services, this`next, this`budget
      ensures (Snapshot(), result) == Ensure(old(Snapshot()), n, source, expected, a)
    {
      var w := Snapshot();
      if !PodFits(w, n, source, expected.pod) {
        return Refused;
      }
      if !a.volume || !Mountable(w, if n in pods then Some(n) else None) || !a.credential {
        return Refused;
      }
      if !ServiceFits(w, n, expected.service) || (n !in pods && !a.admitted) {
        return Refused;
      }
      result := CreateMissing(n, source);
    }

    method DeleteService(n: Name) returns (ok: bool)
      requires n in services
      modifies this`services, this`budget
      ensures Outcome(Snapshot(), ok) == DropService(old(Snapshot()), n)
    {
      ok := budget > 0;
      if ok {
        services, budget := services[n := services[n].(terminating := true)], budget - 1;
      }
    }

    method DeletePod(n: Name) returns (ok: bool)
      requires n in pods
      modifies this`pods, this`budget
      ensures Outcome(Snapshot(), ok) == DropPod(old(Snapshot()), n)
    {
      ok := budget > 0;
      if ok {
        pods, budget := pods[n := pods[n].(terminating := true)], budget - 1;
      }
    }

    /** Deletes the Service, then the Pod, and waits for both to be gone. */
    method RemoveMounted(n: Name, source: Source, expected: Seen, helper: bool, a: Answers) returns (removal: Removal)
      modifies this`pods, this`services, this`budget
      ensures (Snapshot(), removal) == Remove(old(Snapshot()), n, source, expected, helper, a)
    {
      if !MayRemove(Snapshot(), n, source, expected, helper, a) {
        return Failed;
      }
      if n !in pods && n !in services {
        if helper {
          removal := if a.volume && Mountable(Snapshot(), None) then Gone else Failed;
        } else {
          removal := if a.node then Gone else Failed;
        }
        return;
      }
      if n in services {
        var ok := DeleteService(n);
        if !ok {
          return Failed;
        }
      }
      if n in pods {
        var ok := DeletePod(n);
        if !ok {
          return Failed;
        }
      }
      removal := Waiting;
    }

    method StepCreate(i: nat, a: Answers)
      requires i < |rows| && rows[i].Create?
      modifies this
      ensures Snapshot() == AdvanceCreate(old(Snapshot()), i, a)
    {
      var r := rows[i];
      if !r.preparation.CreateAccepted? && (!reserved || retained) {
        return;
      }
      match r.preparation {
        case CreateAccepted =>
          if a.volume && budget > 0 {
            reserved := true;
            Commit(i, r.(preparation := Reserved));
          }
        case Reserved =>
          if a.volume && a.credential && Mountable(Snapshot(), None) {
            Commit(i, r.(preparation := Claimed));
          }
        case CreateRemoving =>
          if !r.proved {
            return;
          }
          var removal := RemoveMounted(Preparer, NOTHING, r.helper, true, a);
          if removal.Gone? {
            r := r.(status := Succeeded, preparation := Created);
          }
          if !removal.Failed? {
            Commit(i, r);
          }
        case Created =>
        case _ =>
          var result := EnsureMounted(Preparer, NOTHING, r.helper, a.(admitted := true));
          if !result.Up? {
            return;
          }
          var phase := Preparing;
          if a.ready {
            phase := if a.prepared then CreateRemoving else AwaitingContent;
          }
          Commit(i, r.(helper := result.seen, preparation := phase, proved := phase.CreateRemoving?));
      }
    }

    method CreateInstance(op: Id, source: Source, a: Answers)
      modifies this
      ensures Snapshot() == CreateSpec(old(Snapshot()), op, source, a)
      ensures DesktopRuns.Invariant(old(Snapshot())) ==> DesktopRuns.Invariant(Snapshot())
    {
      if DesktopRuns.Invariant(Snapshot()) {
        DesktopSafety.CreateKeeps(Snapshot(), op, source, a);
      }
      var found := Lookup(op);
      if found.None? {
        for k := 0 to |rows|
          invariant Snapshot() == old(Snapshot())
          invariant forall j :: 0 <= j < k ==> !rows[j].status.Running? && !rows[j].Create?
        {
          if rows[k].status.Running? || rows[k].Create? {
            return;
          }
        }
        Insert(Create(op, Running, CreateAccepted, source, UNSEEN, false));
        return;
      }
      var r := rows[found.value];
      if r.Create? && r.source == source && r.status.Running? {
        StepCreate(found.value, a);
      }
    }

    method RemoveReplaced(i: nat, a: Answers)
      requires i < |rows| && rows[i].Start? && rows[i].recovery.Some?
      modifies this
      ensures Snapshot() == AdvanceReplacement(old(Snapshot()), i, a)
    {
      var r, c := rows[i], rows[i].recovery.value;
      if !FailedWorker(Snapshot(), Worker(c.start), c.worker, a) {
        return;
      }
      var removal := RemoveMounted(Worker(c.start), c.source, c.worker, false, a);
      if removal.Gone? {
        Commit(i, r.(recovery := None));
      }
    }

    method AdvanceSavedRecovery(i: nat, a: Answers)
      requires i < |rows| && rows[i].Start? && rows[i].saved.Some?
      modifies this
      ensures Snapshot() == AdvanceSaved(old(Snapshot()), i, a)
    {
      var r, s := rows[i], rows[i].saved.value;
      match s.stage {
        case RemovingWorker =>
          if !FailedWorker(Snapshot(), Worker(r.op), s.previous, a) {
            return;
          }
          var removal := RemoveMounted(Worker(r.op), r.source, s.previous, false, a);
          if removal.Gone? {
            r := r.(worker := UNSEEN, saved := Some(s.(stage := Observing)));
          }
          if !removal.Failed? {
            Commit(i, r.(launch := Recovering));
          }
        case Observing =>
          var result := EnsureMounted(Reader, NOTHING, s.helper, a.(admitted := true));
          if !result.Up? {
            return;
          }
          s := s.(helper := result.seen);
          if a.ready {
            if !Adoptable(a.copy, r.source) {
              return;
            }
            s := s.(source := a.copy, stage := RemovingHelper);
          }
          Commit(i, r.(launch := Recovering, saved := Some(s)));
        case RemovingHelper =>
          var removal := RemoveMounted(Reader, NOTHING, s.helper, true, a);
          if removal.Gone? {
            r := r.(saved := Some(s.(stage := Ready)));
          }
          if !removal.Failed? {
            Commit(i, r.(launch := Recovering));
          }
        case Ready =>
      }
    }

    method LaunchWorker(i: nat, a: Answers)
      requires i < |rows| && rows[i].Start?
      modifies this
      ensures Snapshot() == AdvanceLaunch(old(Snapshot()), i, a)
    {
      var r, source := rows[i], Effective(rows[i]);
      if source.None? {
        return;
      }
      var result := EnsureMounted(Worker(r.op), source.value, r.worker, a);
      if result.Exited? {
        if r.saved.None? && r.proof.None? && result.seen.pod != 0 && FollowsFailed(rows, i) && a.node {
          Commit(i, r.(launch := Recovering, worker := result.seen,
                       saved := Some(Saved(RemovingWorker, result.seen, UNSEEN, None))));
        }
        return;
      }
      if result.Up? {
        var q := r.(worker := result.seen, launch := Launching);
        if a.ready {
          q := q.(launch := Loading);
          if a.loaded {
            q := q.(launch := Started, status := Succeeded, proof := source);
          }
        }
        Commit(i, q);
      }
    }

    method StartInstance(op: Id, source: Source, a: Answers)
      modifies this
      ensures Snapshot() == StartSpec(old(Snapshot()), op, source, a)
      ensures DesktopRuns.Invariant(old(Snapshot())) ==> DesktopRuns.Invariant(Snapshot())
    {
      if DesktopRuns.Invariant(Snapshot()) {
        DesktopSafety.StartKeeps(Snapshot(), op, source, a);
      }
      var found := Lookup(op);
      if !Prepared(Snapshot()) || source.revision != rows[0].source.revision || !reserved || retained {
        return;
      }
      if found.None? {
        if op != 0 {
          AcceptNewStart(op, source, a);
        }
        return;
      }
      var i := found.value;
      var r := rows[i];
      if !r.Start? || r.source != source || !r.status.Running? || r.launch.Started? {
        return;
      }
      if r.recovery.Some? {
        RemoveReplaced(i, a);
      } else if r.saved.Some? && !r.saved.value.stage.Ready? {
        AdvanceSavedRecovery(i, a);
      } else {
        LaunchWorker(i, a);
      }
    }

    method AcceptNewStart(op: Id, source: Source, a: Answers)
      requires Prepared(Snapshot())
      modifies this
      ensures Snapshot() == AcceptStart(old(Snapshot()), op, source, a)
    {
      var last := rows[|rows| - 1];
      var row := Start(op, Running, StartAccepted, source, UNSEEN, None, None, None);
      if last.Create? {
        if source != last.source {
          return;
        }
      } else if last.Start? && last.status.Succeeded? && last.launch.Started? {
        if !Replaceable(Snapshot(), last, source, a) {
          return;
        }
        row := row.(recovery := Some(Recovery(last.op, source, last.worker)));
      } else if !last.Stop? || !last.status.Succeeded? || !last.drain.Stopped? || last.source != source {
        return;
      }
      Insert(row);
    }

    method StopInstance(op: Id, start: Id, content: Id, a: Answers)
      modifies this
      ensures Snapshot() == StopSpec(old(Snapshot()), op, start, content, a)
      ensures DesktopRuns.Invariant(old(Snapshot())) ==> DesktopRuns.Invariant(Snapshot())
    {
      if DesktopRuns.Invariant(Snapshot()) {
        DesktopSafety.StopKeeps(Snapshot(), op, start, content, a);
      }
      var found := Lookup(op);
      if !reserved || retained {
        return;
      }
      if found.None? {
        if |rows| == 0 || op == 0 || op == start {
          return;
        }
        var last := rows[|rows| - 1];
        if !last.Start? || last.op != start || !last.status.Succeeded? || !last.launch.Started? {
          return;
        }
        if last.proof.None? || last.worker.pod == 0 || last.worker.service == 0 || Effective(last).None? {
          return;
        }
        Insert(Stop(op, Running, StopAccepted, Source(last.source.revision, content, false), start,
                    Effective(last).value, last.worker, false));
        return;
      }
      var i := found.value;
      var r := rows[i];
      if !r.Stop? || r.start != start || r.source.content != content || !r.status.Running? {
        return;
      }
      if r.drain.StopAccepted? {
        if Sealable(Snapshot(), r, a) {
          Commit(i, r.(sealed := true, drain := StopRemoving));
        }
      } else if r.drain.StopRemoving? && r.sealed {
        var removal := RemoveMounted(Worker(r.start), r.loaded, r.drained, false, a);
        if removal.Gone? {
          r := r.(status := Succeeded, drain := Stopped);
        }
        if !removal.Failed? {
          Commit(i, r);
        }
      }
    }

    method DestroyInstance(op: Id, previous: Id, a: Answers)
      modifies this
      ensures Snapshot() == DestroySpec(old(Snapshot()), op, previous, a)
      ensures DesktopRuns.Invariant(old(Snapshot())) ==> DesktopRuns.Invariant(Snapshot())
    {
      if DesktopRuns.Invariant(Snapshot()) {
        DesktopSafety.DestroyKeeps(Snapshot(), op, previous, a);
      }
      var found := Lookup(op);
      if !reserved {
        return;
      }
      if found.None? {
        if |rows| == 0 || op == 0 || op == previous {
          return;
        }
        var last := rows[|rows| - 1];
        var ended := (last.Create? && last.preparation.Created?) || (last.Stop? && last.drain.Stopped?);
        if last.op == previous && last.status.Succeeded? && ended && Prepared(Snapshot()) && !retained {
          Insert(Destroy(op, Running, DestroyAccepted));
        }
        return;
      }
      var i := found.value;
      var r := rows[i];
      if !r.Destroy? || !r.status.Running? || retained {
        return;
      }
      if !a.volume || !Mountable(Snapshot(), None) || services != map[] || !a.node {
        return;
      }
      if r.removal.DestroyAccepted? {
        if a.credential {
          Commit(i, r.(removal := Revoking));
        }
      } else if r.removal.Revoking? && a.revoked && budget > 0 {
        retained := true;
        Commit(i, r.(status := Succeeded, removal := Deleted));
      }
    }
  }
}
