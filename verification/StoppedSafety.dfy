/** Safety of a downtime transition over every run. */
module StoppedSafety {
  import opened Wrappers
  import opened ManagedObjects
  import opened ManagementJournal
  import opened StoppedReplacement
  import opened StoppedJournal
  import opened StoppedRuns

  // ---- The driver recognises its own partial work ----

  lemma SourceRecognised(d: Driver, c: Checkpoint, k: Cluster)
    requires WellFormed(d) && ValidCheckpoint(d, c) && SourceShape(d, c, k.deployment)
    ensures LiveDeployment(d, c, k) == AtSource
    ensures Version(k.deployment) == d.source.hash && !TargetShape(d, c, k.deployment)
  {
    OwnedFollowsManaged(d, k.deployment.ann, c.deployment.ann, d.source);
    OwnedIsExclusive(d, k.deployment.ann);
  }

  lemma TargetRecognised(d: Driver, c: Checkpoint, k: Cluster)
    requires WellFormed(d) && ValidCheckpoint(d, c) && TargetShape(d, c, k.deployment)
    ensures LiveDeployment(d, c, k) == AtTarget
    ensures Version(k.deployment) == d.target.hash && !SourceShape(d, c, k.deployment)
  {
    OwnedIsExclusive(d, k.deployment.ann);
    if SourceShape(d, c, k.deployment) {
      OwnedFollowsManaged(d, k.deployment.ann, c.deployment.ann, d.source);
    }
  }

  lemma OriginalRecognised(d: Driver, want: WantedService, s: Service)
    requires WellFormed(d) && WantedServiceMatches(d, want, s) && Unmarked(d, s)
    ensures LiveService(d, s, s) == Open && !TargetMarked(d, s.ann)
  {
  }

  lemma GatedRecognised(d: Driver, want: WantedService, s: Service)
    requires WellFormed(d) && WantedServiceMatches(d, want, s) && Unmarked(d, s)
    ensures LiveService(d, s, GateService(d, s)) == Gated
    ensures GateService(d, s).ann - {Stopped} == s.ann
  {
    var g := GateService(d, s);
    OwnedFollowsManaged(d, g.ann, s.ann, d.source);
    assert g.ann - {Stopped} == s.ann;
  }

  lemma ReopenedRecognised(d: Driver, s: Service)
    requires WellFormed(d) && !s.deleting && GateService(d, s).ann - {Stopped} == s.ann && Stopped !in s.ann
    ensures Opened(d, s, GateService(d, s), false) == s
    ensures
      var moved := Opened(d, s, GateService(d, s), true);
      LiveService(d, s, moved) == Open && TargetMarked(d, moved.ann)
  {
    assert RestoreMarks(s.ann, s.ann) == s.ann;
    MarkOwns(d, s.ann, d.target);
    assert Stopped !in Mark(d, s.ann, d.target)[Transition := d.operation];
  }

  /** A Service is open as captured, gated, or open onto the target, and each is
      told apart; opening a gated one towards the source gives the original back. */
  lemma ServiceRecognised(d: Driver, want: WantedService, s: Service)
    requires WellFormed(d) && WantedServiceMatches(d, want, s) && Unmarked(d, s)
    ensures LiveService(d, s, s) == Open && !TargetMarked(d, s.ann)
    ensures LiveService(d, s, GateService(d, s)) == Gated
    ensures Opened(d, s, GateService(d, s), false) == s
    ensures
      var moved := Opened(d, s, GateService(d, s), true);
      LiveService(d, s, moved) == Open && TargetMarked(d, moved.ann)
  {
    OriginalRecognised(d, want, s);
    GatedRecognised(d, want, s);
    ReopenedRecognised(d, s);
  }

  /** With every Service original or gated, the routing barrier holds exactly
      when all are gated and drained, and nothing reads as foreign. */
  lemma {:induction false} RoutesRecognised(d: Driver, c: Checkpoint, k: Cluster, i: nat)
    requires WellFormed(d) && ValidCheckpoint(d, c) && Aligned(c, k) && i <= |c.services|
    requires forall j :: 0 <= j < |c.services| ==> Unmarked(d, c.services[j])
    requires AllClosing(d, c, k)
    ensures !RoutesFrom(d, c, k, i).Conflict?
    ensures RoutesFrom(d, c, k, i).Done? <==>
            forall j :: i <= j < |c.services| ==> Shut(d, c, k, j)
    decreases |c.services| - i
  {
    if i < |c.services| {
      assert Closing(d, c, k, i) && Unmarked(d, c.services[i]);
      ServiceRecognised(d, d.source.services[i], c.services[i]);
      assert LiveService(d, c.services[i], k.services[i]).Gated? <==> IsFenced(d, c, k, i);
      assert !Shut(d, c, k, i) ==> RoutesFrom(d, c, k, i).Pending?;
      RoutesRecognised(d, c, k, i + 1);
    }
  }

  lemma {:induction false} GateRecognised(d: Driver, c: Checkpoint, k: Cluster, i: nat) returns (j: nat)
    requires WellFormed(d) && ValidCheckpoint(d, c) && Aligned(c, k) && i <= |c.services| && c.services != []
    requires forall j :: 0 <= j < |c.services| ==> Unmarked(d, c.services[j])
    requires AllClosing(d, c, k)
    ensures
      var (after, o) := GateFrom(d, c, k, i);
      && !o.Conflict?
      && (o.Done? ==> AllGated(d, c, k))
      && (after == k || (j < |c.services| && after == PutService(k, j, GateService(d, c.services[j]))))
    decreases |c.services| - i
  {
    j := 0;
    if i < |c.services| {
      assert Closing(d, c, k, i) && Unmarked(d, c.services[i]);
      ServiceRecognised(d, d.source.services[i], c.services[i]);
      j := GateRecognised(d, c, k, i + 1);
      if LiveService(d, c.services[i], k.services[i]).Open? {
        j := i;
      }
    } else {
      RoutesRecognised(d, c, k, 0);
    }
  }

  // ---- Every call keeps the objects in the shape its phase allows ----

  /** What holds whenever a checkpoint is saved. */
  ghost predicate Underway(d: Driver, before: Cluster, c: Checkpoint, k: Cluster) {
    && WellFormed(d) && Captured(d, before, c) && Fresh(d, before)
    && |before.services| == |before.endpoints| && Aligned(c, k) && Coherent(k)
  }

  ghost predicate RunsTarget(d: Driver, c: Checkpoint, x: Deployment) {
    TargetShape(d, c, x) && x.replicas != 0
  }

  /** The call's effect is allowed both when its record is committed and when
      the commit is lost. */
  ghost predicate Kept(d: Driver, before: Cluster, c: Checkpoint, k: Cluster, r: Record, a: Advanced)
    requires Underway(d, before, c, k)
  {
    && Underway(d, before, c, a.cluster)
    && a.record.checkpoint == Some(c)
    && Shaped(d, before, c, a.cluster, r.phase)
    && Shaped(d, before, c, a.cluster, a.record.phase)
    && (forall i :: 0 <= i < |c.services| && IsOpened(d, c, k, i) ==> IsOpened(d, c, a.cluster, i))
    && (TargetShape(d, c, a.cluster.deployment) ==> TargetShape(d, c, k.deployment) || r.phase.Applying?)
    && (RunsTarget(d, c, a.cluster.deployment) ==> RunsTarget(d, c, k.deployment) || r.phase.Applying?)
  }

  /** A Service some other gate still fences is refused by the capture, so what
      was captured carries no gate at all. */
  lemma CapturedIsUnmarked(d: Driver, before: Cluster, c: Checkpoint, i: nat)
    requires Captured(d, before, c) && Fresh(d, before) && i < |c.services|
    ensures Unmarked(d, c.services[i])
  {
    assert Unclaimed(d, before.services[i]);
    assert WantedServiceMatches(d, d.source.services[i], c.services[i]);
  }

  lemma Recognised(d: Driver, before: Cluster, c: Checkpoint, k: Cluster)
    requires Underway(d, before, c, k)
    requires SourceShape(d, c, k.deployment) || TargetShape(d, c, k.deployment)
    ensures LiveDeployment(d, c, k).AtSource? <==> SourceShape(d, c, k.deployment)
    ensures LiveDeployment(d, c, k).AtTarget? <==> TargetShape(d, c, k.deployment)
    ensures SourceShape(d, c, k.deployment) <==> !TargetShape(d, c, k.deployment)
    ensures Version(k.deployment) == d.target.hash <==> TargetShape(d, c, k.deployment)
  {
    if SourceShape(d, c, k.deployment) {
      SourceRecognised(d, c, k);
    } else {
      TargetRecognised(d, c, k);
    }
  }

  /** No Service is both gated and reopened. */
  lemma OpenedIsNotClosing(d: Driver, before: Cluster, c: Checkpoint, k: Cluster, i: nat)
    requires Underway(d, before, c, k) && i < |c.services|
    ensures !(IsOpened(d, c, k, i) && Closing(d, c, k, i))
    ensures IsOpened(d, c, k, i) ==>
            LiveService(d, c.services[i], k.services[i]).Open? && TargetMarked(d, k.services[i].ann)
    ensures IsFenced(d, c, k, i) ==> LiveService(d, c.services[i], k.services[i]).Gated?
    ensures IsOriginal(c, k, i) ==>
            LiveService(d, c.services[i], k.services[i]).Open? && !TargetMarked(d, k.services[i].ann)
  {
    CapturedIsUnmarked(d, before, c, i);
    ServiceRecognised(d, d.source.services[i], c.services[i]);
  }

  /** What a stop does, by what it finds. */
  lemma StopCases(d: Driver, c: Checkpoint, k: Cluster)
    requires WellFormed(d) && Aligned(c, k)
    ensures
      var (after, o) := StopSpec(d, c, k);
      var x := k.deployment;
      if LiveDeployment(d, c, k).Drifted? || !RoutesGatedSpec(d, c, k).Done? then after == k && o.Conflict?
      else if x.replicas != 0 then
        o.Pending? && after == PutDeployment(k, x.(replicas := 0, ann := x.ann[Transition := d.operation]))
      else after == k && o == if Gone(k) then Done else Pending
  {
  }

  lemma StoppedShape(d: Driver, c: Checkpoint, x: Deployment, y: Deployment)
    requires y == x.(replicas := 0, ann := x.ann[Transition := d.operation], generation := y.generation)
    ensures SourceShape(d, c, x) ==> SourceShape(d, c, y)
    ensures TargetShape(d, c, x) ==> TargetShape(d, c, y)
  {
    OwnedFollowsManaged(d, y.ann, x.ann, d.target);
  }

  lemma StopKeeps(d: Driver, before: Cluster, c: Checkpoint, k: Cluster)
    requires Underway(d, before, c, k) && AllClosing(d, c, k)
    requires SourceShape(d, c, k.deployment) || TargetShape(d, c, k.deployment)
    ensures
      var (after, o) := StopSpec(d, c, k);
      && Underway(d, before, c, after) && after.services == k.services && after.endpoints == k.endpoints
      && (SourceShape(d, c, after.deployment) <==> SourceShape(d, c, k.deployment))
      && (TargetShape(d, c, after.deployment) <==> TargetShape(d, c, k.deployment))
      && (o.Conflict? <==> c.services == [] || !AllGated(d, c, k))
      && (!o.Conflict? ==> after.deployment.replicas == 0)
      && (o.Done? ==> after == k && Gone(k))
  {
    Recognised(d, before, c, k);
    GateIsAllGated(d, before, c, k);
    StopCases(d, c, k);
    var after := StopSpec(d, c, k).0;
    if after != k {
      StoppedShape(d, c, k.deployment, after.deployment);
      Recognised(d, before, c, after);
    }
  }

  /** What a start does, by what it finds. */
  lemma StartCases(d: Driver, c: Checkpoint, k: Cluster, target: bool)
    requires WellFormed(d) && Aligned(c, k)
    ensures
      var (after, o) := StartSpec(d, c, k, target);
      var live, x := LiveDeployment(d, c, k), k.deployment;
      if live.Drifted? || !RoutesGatedSpec(d, c, k).Done? then after == k && o.Conflict?
      else if x.replicas == 1 then
        && after == k && (o.Done? ==> Ready(k))
        && (o.Conflict? <==> live.AtTarget? != target || (k.view.generation >= x.generation && k.status.stalled))
      else
        && o.Pending?
        && (after == k
            || (Gone(k) && after == PutDeployment(k, if target then StartedTarget(d, x) else StartedSource(d, c, x))))
  {
  }

  /** A release started over a stopped process has its shape and no old Pod. */
  lemma StartedKeeps(d: Driver, before: Cluster, c: Checkpoint, k: Cluster, target: bool)
    requires Underway(d, before, c, k) && Gone(k)
    requires SourceShape(d, c, k.deployment) || TargetShape(d, c, k.deployment)
    ensures
      var after :=
        PutDeployment(k, if target then StartedTarget(d, k.deployment) else StartedSource(d, c, k.deployment));
      && Underway(d, before, c, after) && after.deployment.replicas == 1
      && (if target then TargetShape(d, c, after.deployment) else SourceShape(d, c, after.deployment))
  {
    MarkOwns(d, k.deployment.ann, d.target);
  }

  lemma StartKeeps(d: Driver, before: Cluster, c: Checkpoint, k: Cluster, target: bool)
    requires Underway(d, before, c, k) && AllClosing(d, c, k)
    requires SourceShape(d, c, k.deployment) || TargetShape(d, c, k.deployment)
    ensures
      var (after, o) := StartSpec(d, c, k, target);
      && Underway(d, before, c, after) && after.services == k.services && after.endpoints == k.endpoints
      && (o.Conflict? || after == k ||
          (k.deployment.replicas == 0 && after.deployment.replicas == 1 &&
           if target then TargetShape(d, c, after.deployment) else SourceShape(d, c, after.deployment)))
      && (o.Conflict? <==>
          || c.services == [] || !AllGated(d, c, k)
          || (k.deployment.replicas == 1 &&
              (TargetShape(d, c, k.deployment) != target
               || (k.view.generation >= k.deployment.generation && k.status.stalled))))
      && (o.Done? ==>
            after == k && k.deployment.replicas == 1 && TargetShape(d, c, k.deployment) == target && Ready(k))
  {
    Recognised(d, before, c, k);
    GateIsAllGated(d, before, c, k);
    StartCases(d, c, k, target);
    if Gone(k) {
      StartedKeeps(d, before, c, k, target);
    }
  }

  lemma GateIsAllGated(d: Driver, before: Cluster, c: Checkpoint, k: Cluster)
    requires Underway(d, before, c, k) && AllClosing(d, c, k)
    ensures RoutesGatedSpec(d, c, k).Done? <==> c.services != [] && AllGated(d, c, k)
  {
    forall j | 0 <= j < |c.services| ensures Unmarked(d, c.services[j]) {
      CapturedIsUnmarked(d, before, c, j);
    }
    RoutesRecognised(d, c, k, 0);
  }

  /** A Service on its way to one direction, and one that has arrived. */
  ghost predicate Movable(d: Driver, c: Checkpoint, k: Cluster, target: bool, i: nat)
    requires WellFormed(d) && Aligned(c, k) && i < |c.services|
  {
    if target then Opening(d, c, k, i) else Closing(d, c, k, i)
  }

  ghost predicate Arrived(d: Driver, c: Checkpoint, k: Cluster, target: bool, i: nat)
    requires WellFormed(d) && Aligned(c, k) && i < |c.services|
  {
    if target then IsOpened(d, c, k, i) else IsOriginal(c, k, i)
  }

  function Reopened(d: Driver, s: Service, target: bool): Service
    requires WellFormed(d)
  {
    Opened(d, s, GateService(d, s), target)
  }

  /** What reopening does at one Service it may meet. */
  ghost predicate OpensAt(d: Driver, c: Checkpoint, k: Cluster, target: bool, i: nat)
    requires WellFormed(d) && Aligned(c, k) && i < |c.services|
  {
    if IsFenced(d, c, k, i) then
      OpenFrom(d, c, k, target, i) == (PutService(k, i, Reopened(d, c.services[i], target)), Pending)
    else
      Arrived(d, c, k, target, i) && OpenFrom(d, c, k, target, i) == OpenFrom(d, c, k, target, i + 1)
  }

  lemma OpenAt(d: Driver, before: Cluster, c: Checkpoint, k: Cluster, target: bool, i: nat)
    requires Underway(d, before, c, k) && i < |c.services| && Movable(d, c, k, target, i)
    ensures OpensAt(d, c, k, target, i)
  {
    OpenedIsNotClosing(d, before, c, k, i);
  }

  lemma {:induction false} OpenScan(d: Driver, c: Checkpoint, k: Cluster, target: bool, i: nat) returns (j: nat)
    requires WellFormed(d) && Aligned(c, k) && i <= |c.services|
    requires forall n :: 0 <= n < |c.services| ==> OpensAt(d, c, k, target, n)
    ensures
      var (after, o) := OpenFrom(d, c, k, target, i);
      && !o.Conflict?
      && (o.Done? ==> forall n :: i <= n < |c.services| ==> Arrived(d, c, k, target, n))
      && (o.Done?
          || (j < |c.services| && IsFenced(d, c, k, j)
              && after == PutService(k, j, Reopened(d, c.services[j], target))))
    decreases |c.services| - i
  {
    j := i;
    if i < |c.services| {
      assert OpensAt(d, c, k, target, i);
      if !IsFenced(d, c, k, i) {
        j := OpenScan(d, c, k, target, i + 1);
      }
    }
  }

  /** Reopening towards one release: no Service it meets reads as foreign, and
      it either changes one gated Service or finds all of them open. */
  lemma OpenRecognised(d: Driver, before: Cluster, c: Checkpoint, k: Cluster, target: bool, i: nat) returns (j: nat)
    requires Underway(d, before, c, k) && i <= |c.services|
    requires forall n :: 0 <= n < |c.services| ==> Movable(d, c, k, target, n)
    ensures
      var (after, o) := OpenFrom(d, c, k, target, i);
      && !o.Conflict?
      && (o.Done? ==> forall n :: i <= n < |c.services| ==> Arrived(d, c, k, target, n))
      && (o.Done?
          || (j < |c.services| && IsFenced(d, c, k, j)
              && after == PutService(k, j, Reopened(d, c.services[j], target))))
  {
    forall n | 0 <= n < |c.services| ensures OpensAt(d, c, k, target, n) {
      OpenAt(d, before, c, k, target, n);
    }
    j := OpenScan(d, c, k, target, i);
  }

  /** Putting one gated Service in place keeps the others on their way. */
  lemma OneReopened(d: Driver, before: Cluster, c: Checkpoint, k: Cluster, target: bool, j: nat)
    requires Underway(d, before, c, k) && j < |c.services| && IsFenced(d, c, k, j)
    requires forall i :: 0 <= i < |c.services| ==> Movable(d, c, k, target, i)
    ensures
      var after := PutService(k, j, Reopened(d, c.services[j], target));
      && Underway(d, before, c, after)
      && (forall i :: 0 <= i < |c.services| ==> Movable(d, c, after, target, i))
      && (forall i :: 0 <= i < |c.services| && IsOpened(d, c, k, i) ==> IsOpened(d, c, after, i))
    ensures !Arrived(d, c, k, target, j)
  {
    var after := PutService(k, j, Reopened(d, c.services[j], target));
    CapturedIsUnmarked(d, before, c, j);
    ServiceRecognised(d, d.source.services[j], c.services[j]);
    OpenedIsNotClosing(d, before, c, k, j);
    forall i | 0 <= i < |c.services|
      ensures Movable(d, c, after, target, i) && (IsOpened(d, c, k, i) ==> IsOpened(d, c, after, i))
    {
      assert Movable(d, c, k, target, i);
    }
  }

  lemma ReleaseCases(d: Driver, k: Cluster, r: Record, target: bool)
    requires Callable(d, k, r) && r.checkpoint.Some?
    requires if target then r.phase.ReleasingTarget? || r.phase.ReleasedTarget?
             else r.phase.ReleasingSource? || r.phase.ReleasedSource?
    ensures
      var c := r.checkpoint.value;
      var a := AdvanceRelease(d, k, r, target);
      && (a.cluster == k || a.cluster == OpenFrom(d, c, k, target, 0).0)
      && (a.record == r
          || (OpenFrom(d, c, k, target, 0).1.Done?
              && a.record == r.(phase := if target then ReleasedTarget else ReleasedSource)))
  {
  }

  lemma ShapedWhileOpening(d: Driver, before: Cluster, c: Checkpoint, k: Cluster, p: Phase)
    requires Underway(d, before, c, k) && TargetShape(d, c, k.deployment) && k.deployment.replicas == 1
    requires forall i :: 0 <= i < |c.services| ==> Movable(d, c, k, true, i)
    requires p.ReleasingTarget?
             || (p.ReleasedTarget? && forall i :: 0 <= i < |c.services| ==> Arrived(d, c, k, true, i))
    ensures Shaped(d, before, c, k, p)
  {
    assert forall i :: 0 <= i < |c.services| ==> Movable(d, c, k, true, i) == Opening(d, c, k, i);
    assert forall i :: 0 <= i < |c.services| ==> Arrived(d, c, k, true, i) == IsOpened(d, c, k, i);
  }

  lemma ReleaseTargetKeeps(d: Driver, before: Cluster, c: Checkpoint, k: Cluster, r: Record)
    requires Underway(d, before, c, k) && r.checkpoint == Some(c) && Callable(d, k, r)
    requires Shaped(d, before, c, k, r.phase)
    requires r.phase.ReleasingTarget? || r.phase.ReleasedTarget?
    ensures Kept(d, before, c, k, r, AdvanceRelease(d, k, r, true))
  {
    forall i | 0 <= i < |c.services| ensures Movable(d, c, k, true, i) {
      assert Opening(d, c, k, i);
    }
    var j := OpenRecognised(d, before, c, k, true, 0);
    ReleaseCases(d, k, r, true);
    var a := AdvanceRelease(d, k, r, true);
    if a.cluster != k {
      OneReopened(d, before, c, k, true, j);
      assert IsOpened(d, c, k, j) == Arrived(d, c, k, true, j);
      ShapedWhileOpening(d, before, c, a.cluster, ReleasingTarget);
    } else if a.record != r {
      ShapedWhileOpening(d, before, c, k, ReleasedTarget);
    }
  }

  lemma ShapedWhileReopening(d: Driver, before: Cluster, c: Checkpoint, k: Cluster, p: Phase)
    requires Underway(d, before, c, k) && SourceShape(d, c, k.deployment) && k.deployment.replicas == 1
    requires forall i :: 0 <= i < |c.services| ==> Movable(d, c, k, false, i)
    requires p.ReleasingSource?
             || (p.ReleasedSource? && forall i :: 0 <= i < |c.services| ==> Arrived(d, c, k, false, i))
    ensures Shaped(d, before, c, k, p)
  {
    Recognised(d, before, c, k);
    assert forall i :: 0 <= i < |c.services| ==> Movable(d, c, k, false, i) == Closing(d, c, k, i);
    assert forall i :: 0 <= i < |c.services| ==> Arrived(d, c, k, false, i) == IsOriginal(c, k, i);
  }

  lemma ReleaseSourceKeeps(d: Driver, before: Cluster, c: Checkpoint, k: Cluster, r: Record)
    requires Underway(d, before, c, k) && r.checkpoint == Some(c) && Callable(d, k, r)
    requires Shaped(d, before, c, k, r.phase)
    requires r.phase.ReleasingSource? || r.phase.ReleasedSource?
    ensures Kept(d, before, c, k, r, AdvanceRelease(d, k, r, false))
  {
    NoneOpened(d, before, c, k);
    forall i | 0 <= i < |c.services| ensures Movable(d, c, k, false, i) {
      assert Closing(d, c, k, i);
    }
    var j := OpenRecognised(d, before, c, k, false, 0);
    ReleaseCases(d, k, r, false);
    var a := AdvanceRelease(d, k, r, false);
    if a.cluster != k {
      OneReopened(d, before, c, k, false, j);
      assert IsOriginal(c, k, j) == Arrived(d, c, k, false, j);
      ShapedWhileReopening(d, before, c, a.cluster, ReleasingSource);
    } else if a.record != r {
      ShapedWhileReopening(d, before, c, k, ReleasedSource);
    }
  }

  lemma NoneOpened(d: Driver, before: Cluster, c: Checkpoint, k: Cluster)
    requires Underway(d, before, c, k) && AllClosing(d, c, k)
    ensures forall i :: 0 <= i < |c.services| ==> !IsOpened(d, c, k, i)
  {
    forall i | 0 <= i < |c.services| ensures !IsOpened(d, c, k, i) {
      assert Closing(d, c, k, i);
      OpenedIsNotClosing(d, before, c, k, i);
    }
  }

  lemma SameServicesSameShape(d: Driver, c: Checkpoint, k: Cluster, after: Cluster)
    requires WellFormed(d) && Aligned(c, k) && after.services == k.services && after.endpoints == k.endpoints
    ensures AllClosing(d, c, k) <==> AllClosing(d, c, after)
    ensures AllGated(d, c, k) <==> AllGated(d, c, after)
  {
    assert forall i :: 0 <= i < |c.services| ==> Closing(d, c, k, i) == Closing(d, c, after, i);
    assert forall i :: 0 <= i < |c.services| ==> Shut(d, c, k, i) == Shut(d, c, after, i);
  }

  lemma OneGated(d: Driver, before: Cluster, c: Checkpoint, k: Cluster, j: nat)
    requires Underway(d, before, c, k) && AllClosing(d, c, k) && j < |c.services|
    ensures
      var after := PutService(k, j, GateService(d, c.services[j]));
      Underway(d, before, c, after) && AllClosing(d, c, after) && (AllGated(d, c, k) ==> AllGated(d, c, after))
  {
    var after := PutService(k, j, GateService(d, c.services[j]));
    forall i | 0 <= i < |c.services| ensures Closing(d, c, after, i) && (Shut(d, c, k, i) ==> Shut(d, c, after, i)) {
      assert Closing(d, c, k, i);
    }
  }

  /** Closing Services behind a Deployment of either shape fits every phase
      between sealing and a finished restore that asks no more. */
  lemma ShapedWhileClosing(d: Driver, before: Cluster, c: Checkpoint, k: Cluster, p: Phase)
    requires Underway(d, before, c, k) && AllClosing(d, c, k)
    requires SourceShape(d, c, k.deployment) || TargetShape(d, c, k.deployment)
    requires TargetShape(d, c, k.deployment) || k.deployment.replicas == 0 ==> AllGated(d, c, k) && c.services != []
    requires
      || p.RecoveryRequired? || p.Restoring?
      || (p.Sealing? && SourceShape(d, c, k.deployment))
      || (p.Applying? && AllGated(d, c, k) && (k.deployment.replicas == 1 <==> TargetShape(d, c, k.deployment)))
      || (p.Verifying? && TargetShape(d, c, k.deployment) && k.deployment.replicas == 1)
      || (p.Restored? && SourceShape(d, c, k.deployment) && k.deployment.replicas == 1)
    ensures Shaped(d, before, c, k, p)
  {
  }

  lemma SealingCases(d: Driver, guarded: bool, k: Cluster, r: Record, probe: Probe)
    requires Callable(d, k, r) && r.checkpoint.Some?
    ensures
      var c := r.checkpoint.value;
      var a := AdvanceSealing(d, guarded, k, r, probe).0;
      || (a.cluster == GateSpec(d, c, k).0 && a.record == r)
      || (a.cluster == StopSpec(d, c, k).0
          && (a.record == r || (a.record == r.(phase := Applying) && StopSpec(d, c, k).1.Done?)))
  {
  }

  lemma SealingKeeps(d: Driver, guarded: bool, before: Cluster, c: Checkpoint, k: Cluster, r: Record, probe: Probe)
    requires Underway(d, before, c, k) && r.checkpoint == Some(c) && Callable(d, k, r)
    requires r.phase.Sealing? && Shaped(d, before, c, k, r.phase)
    ensures Kept(d, before, c, k, r, AdvanceSealing(d, guarded, k, r, probe).0)
    ensures Kept(d, before, c, k, r, Settle(AdvanceSealing(d, guarded, k, r, probe).0, Prepare))
  {
    NoneOpened(d, before, c, k);
    Recognised(d, before, c, k);
    SealingCases(d, guarded, k, r, probe);
    var a := AdvanceSealing(d, guarded, k, r, probe).0;
    var k' := a.cluster;
    assert Underway(d, before, c, k') && AllClosing(d, c, k') && SourceShape(d, c, k'.deployment)
           && (k'.deployment.replicas == 0 ==> AllGated(d, c, k') && c.services != [])
           && (a.record.phase.Applying? ==> AllGated(d, c, k') && k'.deployment.replicas == 0)
    by {
      if k' == GateSpec(d, c, k).0 && a.record == r {
        GateKeeps(d, before, c, k);
      } else {
        StopKeeps(d, before, c, k);
        SameServicesSameShape(d, c, k, k');
      }
    }
    assert !TargetShape(d, c, k'.deployment) by {
      Recognised(d, before, c, k');
    }
    ShapedWhileClosing(d, before, c, k', Sealing);
    ShapedWhileClosing(d, before, c, k', RecoveryRequired);
    if a.record.phase.Applying? {
      ShapedWhileClosing(d, before, c, k', Applying);
    }
  }

  lemma GateKeeps(d: Driver, before: Cluster, c: Checkpoint, k: Cluster)
    requires Underway(d, before, c, k) && AllClosing(d, c, k)
    requires SourceShape(d, c, k.deployment) || TargetShape(d, c, k.deployment)
    ensures
      var (after, o) := GateSpec(d, c, k);
      && Underway(d, before, c, after) && AllClosing(d, c, after) && after.deployment == k.deployment
      && (AllGated(d, c, k) ==> AllGated(d, c, after))
      && (o.Conflict? <==> c.services == [] || d.source.fence != "" || d.target.fence != "")
  {
    Recognised(d, before, c, k);
    forall j | 0 <= j < |c.services| ensures Unmarked(d, c.services[j]) {
      CapturedIsUnmarked(d, before, c, j);
    }
    if c.services != [] {
      var j := GateRecognised(d, c, k, 0);
      var after := GateSpec(d, c, k).0;
      if after != k {
        OneGated(d, before, c, k, j);
      }
    }
  }

  lemma RestoringCases(d: Driver, guarded: bool, k: Cluster, r: Record, probe: Probe)
    requires Callable(d, k, r) && r.checkpoint.Some?
    ensures
      var c := r.checkpoint.value;
      var a := AdvanceRestoring(d, guarded, k, r, probe);
      || (a.cluster == k && a.record == r)
      || (a.cluster == StopSpec(d, c, k).0 && a.record == r)
      || (a.cluster == StartSpec(d, c, k, false).0 && a.record == r)
      || (a.cluster == k && a.record == r.(phase := Restored) && k.deployment.replicas != 0
          && LiveDeployment(d, c, k).AtSource?)
  {
  }

  /** Stopping and starting the source on the way back keep the gate shut and
      give the target no process. */
  lemma ReturningKeeps(d: Driver, before: Cluster, c: Checkpoint, k: Cluster, k': Cluster)
    requires Underway(d, before, c, k) && Shaped(d, before, c, k, Restoring)
    requires k' == k || k' == StopSpec(d, c, k).0 || k' == StartSpec(d, c, k, false).0
    ensures Underway(d, before, c, k') && AllClosing(d, c, k')
    ensures SourceShape(d, c, k'.deployment) || TargetShape(d, c, k'.deployment)
    ensures TargetShape(d, c, k'.deployment) || k'.deployment.replicas == 0 ==> AllGated(d, c, k') && c.services != []
    ensures TargetShape(d, c, k'.deployment) ==> TargetShape(d, c, k.deployment)
    ensures RunsTarget(d, c, k'.deployment) ==> RunsTarget(d, c, k.deployment)
  {
    if k' == StopSpec(d, c, k).0 {
      StopKeeps(d, before, c, k);
      SameServicesSameShape(d, c, k, k');
    } else if k' != k {
      StartKeeps(d, before, c, k, false);
      SameServicesSameShape(d, c, k, k');
      Recognised(d, before, c, k');
    }
  }

  lemma RestoringKeeps(d: Driver, guarded: bool, before: Cluster, c: Checkpoint, k: Cluster, r: Record, probe: Probe)
    requires Underway(d, before, c, k) && r.checkpoint == Some(c) && Callable(d, k, r)
    requires r.phase.Restoring? && Shaped(d, before, c, k, r.phase)
    ensures Kept(d, before, c, k, r, AdvanceRestoring(d, guarded, k, r, probe))
  {
    RestoringCases(d, guarded, k, r, probe);
    var a := AdvanceRestoring(d, guarded, k, r, probe);
    ReturningKeeps(d, before, c, k, a.cluster);
    NoneOpened(d, before, c, k);
    ShapedWhileClosing(d, before, c, a.cluster, Restoring);
    if a.record.phase.Restored? {
      Recognised(d, before, c, k);
      ShapedWhileClosing(d, before, c, k, Restored);
    }
  }

  lemma ApplyingKeeps(d: Driver, before: Cluster, c: Checkpoint, k: Cluster, r: Record)
    requires Underway(d, before, c, k) && r.checkpoint == Some(c) && Callable(d, k, r)
    requires r.phase.Applying? && Shaped(d, before, c, k, r.phase)
    ensures
      var (started, o) := StartSpec(d, c, k, true);
      var a := Settle(Advanced(started, if o.Done? then r.(phase := Verifying) else r, FailureOf(o)), Prepare);
      Kept(d, before, c, k, r, a)
  {
    NoneOpened(d, before, c, k);
    Recognised(d, before, c, k);
    StartKeeps(d, before, c, k, true);
    var (k', o) := StartSpec(d, c, k, true);
    SameServicesSameShape(d, c, k, k');
    ShapedWhileClosing(d, before, c, k', Applying);
    ShapedWhileClosing(d, before, c, k', RecoveryRequired);
    if o.Done? {
      ShapedWhileClosing(d, before, c, k', Verifying);
    }
  }

  /** The calls that only read the cluster. */
  lemma ReadingKeeps(d: Driver, guarded: bool, before: Cluster, c: Checkpoint, k: Cluster, r: Record, mode: Mode,
                     probe: Probe)
    requires Underway(d, before, c, k) && r.checkpoint == Some(c) && Callable(d, k, r)
    requires Shaped(d, before, c, k, r.phase)
    requires !mode.ReleaseSource? && !mode.ReleaseTarget?
    requires mode.Restore? ==> !r.phase.Restoring?
    requires mode.Prepare? ==> !r.phase.Sealing? && !r.phase.Applying?
    ensures AdvanceSpec(d, guarded, k, r, mode, probe).cluster == k
    ensures Kept(d, before, c, k, r, AdvanceSpec(d, guarded, k, r, mode, probe))
  {
    var a := AdvanceSpec(d, guarded, k, r, mode, probe);
    if a.record.phase.Restoring? && !r.phase.Restoring? {
      Recognised(d, before, c, k);
      ShapedWhileClosing(d, before, c, k, Restoring) by {
        CanceledIsClosing(d, before, c, k, r.phase);
      }
    } else if a.record.phase.RecoveryRequired? && !r.phase.RecoveryRequired? {
      ShapedWhileClosing(d, before, c, k, RecoveryRequired);
    }
  }

  lemma CanceledIsClosing(d: Driver, before: Cluster, c: Checkpoint, k: Cluster, p: Phase)
    requires Underway(d, before, c, k) && !IsRelease(p)
    requires Shaped(d, before, c, k, p)
    ensures AllClosing(d, c, k)
    ensures TargetShape(d, c, k.deployment) || k.deployment.replicas == 0 ==> AllGated(d, c, k) && c.services != []
  {
  }

  /** Every advance over a saved checkpoint, in every phase and mode. */
  lemma AdvanceKeeps(d: Driver, guarded: bool, before: Cluster, c: Checkpoint, k: Cluster, r: Record, mode: Mode,
                     probe: Probe)
    requires Underway(d, before, c, k) && r.checkpoint == Some(c) && Callable(d, k, r)
    requires Shaped(d, before, c, k, r.phase)
    ensures Kept(d, before, c, k, r, AdvanceSpec(d, guarded, k, r, mode, probe))
  {
    if mode.ReleaseSource? || mode.ReleaseTarget? {
      ReleaseKeeps(d, before, c, k, r, mode.ReleaseTarget?);
    } else if mode.Restore? && r.phase.Restoring? {
      RestoringKeeps(d, guarded, before, c, k, r, probe);
    } else if mode.Prepare? && r.phase.Sealing? {
      SealingKeeps(d, guarded, before, c, k, r, probe);
    } else if mode.Prepare? && r.phase.Applying? {
      ApplyingKeeps(d, before, c, k, r);
    } else {
      ReadingKeeps(d, guarded, before, c, k, r, mode, probe);
    }
  }

  lemma ReleaseKeeps(d: Driver, before: Cluster, c: Checkpoint, k: Cluster, r: Record, target: bool)
    requires Underway(d, before, c, k) && r.checkpoint == Some(c) && Callable(d, k, r)
    requires Shaped(d, before, c, k, r.phase)
    ensures Kept(d, before, c, k, r, AdvanceRelease(d, k, r, target))
  {
    if target && (r.phase.ReleasingTarget? || r.phase.ReleasedTarget?) {
      ReleaseTargetKeeps(d, before, c, k, r);
    } else if !target && (r.phase.ReleasingSource? || r.phase.ReleasedSource?) {
      ReleaseSourceKeeps(d, before, c, k, r);
    } else if target && r.phase.Prepared? {
      forall i | 0 <= i < |c.services| ensures Opening(d, c, k, i) {
        assert Shut(d, c, k, i);
      }
    }
  }

  // ---- At most one object per call ----

  ghost predicate AtMostOneService(k: Cluster, after: Cluster) {
    && OnlyServicesChanged(k, after)
    && forall i, j :: 0 <= i < j < |k.services| ==>
         after.services[i] == k.services[i] || after.services[j] == k.services[j]
  }

  lemma {:induction false} GateChangesOne(d: Driver, c: Checkpoint, k: Cluster, i: nat)
    requires WellFormed(d) && Aligned(c, k) && i <= |c.services|
    ensures AtMostOneService(k, GateFrom(d, c, k, i).0)
    decreases |c.services| - i
  {
    if i < |c.services| {
      GateChangesOne(d, c, k, i + 1);
    }
  }

  lemma {:induction false} OpenChangesOne(d: Driver, c: Checkpoint, k: Cluster, target: bool, i: nat)
    requires WellFormed(d) && Aligned(c, k) && i <= |c.services|
    ensures AtMostOneService(k, OpenFrom(d, c, k, target, i).0)
    decreases |c.services| - i
  {
    if i < |c.services| {
      OpenChangesOne(d, c, k, target, i + 1);
    }
  }

  lemma ReleaseScans(d: Driver, k: Cluster, r: Record, target: bool)
    requires Callable(d, k, r)
    ensures
      var after := AdvanceRelease(d, k, r, target).cluster;
      after == k || (r.checkpoint.Some? && after == OpenFrom(d, r.checkpoint.value, k, target, 0).0)
  {
  }

  lemma ReleaseChangesOne(d: Driver, k: Cluster, r: Record, target: bool)
    requires Callable(d, k, r)
    ensures AtMostOneService(k, AdvanceRelease(d, k, r, target).cluster)
  {
    ReleaseScans(d, k, r, target);
    if r.checkpoint.Some? {
      OpenChangesOne(d, r.checkpoint.value, k, target, 0);
    }
  }

  lemma PreparingCases(d: Driver, guarded: bool, k: Cluster, r: Record, mode: Mode, probe: Probe)
    requires Callable(d, k, r) && (mode.Prepare? || mode.Restore?)
    ensures
      var after := AdvanceSpec(d, guarded, k, r, mode, probe).cluster;
      || OnlyDeploymentChanged(k, after)
      || (r.checkpoint.Some? && after == GateSpec(d, r.checkpoint.value, k).0)
  {
    if mode.Prepare? && r.phase.Sealing? {
      SealingCases(d, guarded, k, r, probe);
    } else if mode.Restore? && r.phase.Restoring? {
      RestoringCases(d, guarded, k, r, probe);
    }
  }

  /** Whatever the cluster holds, one call updates at most one object. */
  lemma AtMostOneUpdate(d: Driver, guarded: bool, k: Cluster, r: Record, mode: Mode, probe: Probe)
    requires Callable(d, k, r)
    ensures
      var after := AdvanceSpec(d, guarded, k, r, mode, probe).cluster;
      OnlyDeploymentChanged(k, after) || AtMostOneService(k, after)
  {
    if mode.Prepare? || mode.Restore? {
      PreparingCases(d, guarded, k, r, mode, probe);
      if r.checkpoint.Some? {
        GateChangesOne(d, r.checkpoint.value, k, 0);
      }
    } else {
      ReleaseChangesOne(d, k, r, mode.ReleaseTarget?);
    }
  }
}
