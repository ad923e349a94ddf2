/** A restore undoes an apply from every partial state. */
module HotConvergence {
  import opened ManagedObjects
  import opened StoppedReplacement
  import opened HotReplacement

  /** Replacing one Service changes the count by that Service alone. */
  lemma {:induction false} MovedAfterPut(d: Driver, c: Checkpoint, k: Cluster, i: nat, s: Service, j: nat)
    requires |c.services| == |k.services| && i < |c.services| && j <= |c.services|
    ensures
      var was := if j <= i && ServiceMoved(d, c.services[i], k.services[i]) then 1 else 0;
      var now := if j <= i && ServiceMoved(d, c.services[i], s) then 1 else 0;
      MovedServices(d, c, PutService(k, i, s), j) == MovedServices(d, c, k, j) - was + now
    decreases |c.services| - j
  {
    if j < |c.services| {
      MovedAfterPut(d, c, k, i, s, j + 1);
    }
  }

  lemma {:induction false} MovedBound(d: Driver, c: Checkpoint, k: Cluster, i: nat)
    requires |c.services| == |k.services| && i <= |c.services|
    ensures MovedServices(d, c, k, i) <= |c.services| - i
    ensures MovedServices(d, c, k, i) == 0 <==>
            forall j :: i <= j < |c.services| ==> !ServiceMoved(d, c.services[j], k.services[j])
    ensures MovedServices(d, c, k, i) == |c.services| - i <==>
            forall j :: i <= j < |c.services| ==> ServiceMoved(d, c.services[j], k.services[j])
    decreases |c.services| - i
  {
    if i < |c.services| {
      MovedBound(d, c, k, i + 1);
    }
  }

  lemma MovedIgnoresDeployment(d: Driver, c: Checkpoint, k: Cluster, k': Cluster, i: nat)
    requires |c.services| == |k.services| && k'.services == k.services && i <= |c.services|
    ensures MovedServices(d, c, k', i) == MovedServices(d, c, k, i)
    decreases |c.services| - i
  {
  }

  lemma RestoreAt(d: Driver, c: Checkpoint, k: Cluster, i: nat)
    requires PartialWork(d, c, k) && i < |c.services|
    ensures
      if ServiceMoved(d, c.services[i], k.services[i]) then
        RestoreFrom(d, c, k, i) == (PutService(k, i, UnmarkedService(c.services[i], k.services[i])), Pending)
      else RestoreFrom(d, c, k, i) == RestoreFrom(d, c, k, i + 1)
  {
    assert Partial(d, c, k, i);
    ServiceTold(d, d.source.services[i], c.services[i], k.services[i]);
  }

  /** What a restore does at one Service it may meet. */
  ghost predicate RestoresAt(d: Driver, c: Checkpoint, k: Cluster, i: nat)
    requires |c.services| == |k.services| && i < |c.services|
  {
    if ServiceMoved(d, c.services[i], k.services[i]) then
      RestoreFrom(d, c, k, i) == (PutService(k, i, UnmarkedService(c.services[i], k.services[i])), Pending)
    else RestoreFrom(d, c, k, i) == RestoreFrom(d, c, k, i + 1)
  }

  /** Where a scan ends: at the first Service still to change, or past them all. */
  lemma {:induction false} RestoreScan(d: Driver, c: Checkpoint, k: Cluster, i: nat) returns (j: nat)
    requires |c.services| == |k.services| && i <= |c.services|
    requires forall n :: 0 <= n < |c.services| ==> RestoresAt(d, c, k, n)
    ensures i <= j <= |c.services|
    ensures
      if j < |c.services| then
        && ServiceMoved(d, c.services[j], k.services[j])
        && RestoreFrom(d, c, k, i) == (PutService(k, j, UnmarkedService(c.services[j], k.services[j])), Pending)
      else
        && RestoreFrom(d, c, k, i) == (k, Done)
        && forall n :: i <= n < |c.services| ==> !ServiceMoved(d, c.services[n], k.services[n])
    decreases |c.services| - i
  {
    j := i;
    if i < |c.services| {
      assert RestoresAt(d, c, k, i);
      if !ServiceMoved(d, c.services[i], k.services[i]) {
        j := RestoreScan(d, c, k, i + 1);
      }
    }
  }

  lemma ScanRestore(d: Driver, c: Checkpoint, k: Cluster) returns (j: nat)
    requires PartialWork(d, c, k)
    ensures j <= |c.services|
    ensures
      if j < |c.services| then
        && ServiceMoved(d, c.services[j], k.services[j])
        && RestoreFrom(d, c, k, 0) == (PutService(k, j, UnmarkedService(c.services[j], k.services[j])), Pending)
      else
        && RestoreFrom(d, c, k, 0) == (k, Done)
        && forall n :: 0 <= n < |c.services| ==> !ServiceMoved(d, c.services[n], k.services[n])
  {
    forall n | 0 <= n < |c.services| ensures RestoresAt(d, c, k, n) {
      RestoreAt(d, c, k, n);
    }
    j := RestoreScan(d, c, k, 0);
  }

  lemma ApplyAt(d: Driver, c: Checkpoint, k: Cluster, i: nat)
    requires PartialWork(d, c, k) && i < |c.services|
    ensures
      if ServiceMoved(d, c.services[i], k.services[i]) then ApplyFrom(d, c, k, i) == ApplyFrom(d, c, k, i + 1)
      else
        && ServiceBack(d, c.services[i], k.services[i])
        && ApplyFrom(d, c, k, i) == (PutService(k, i, MarkedService(d, k.services[i])), Pending)
  {
    assert Partial(d, c, k, i);
    ServiceTold(d, d.source.services[i], c.services[i], k.services[i]);
  }

  /** What makes an apply pass a Service by. */
  predicate Passed(d: Driver, original: Service, live: Service) {
    SameService(original, live) && TargetMarked(d, live.ann)
  }

  /** An apply goes on to the next Service. */
  predicate PassesAt(d: Driver, c: Checkpoint, k: Cluster, i: nat)
    requires |c.services| == |k.services| && i < |c.services|
  {
    ApplyFrom(d, c, k, i) == ApplyFrom(d, c, k, i + 1)
  }

  lemma ApplyPasses(d: Driver, c: Checkpoint, k: Cluster, i: nat)
    requires |c.services| == |k.services| && i < |c.services| && Passed(d, c.services[i], k.services[i])
    ensures PassesAt(d, c, k, i)
  {
  }

  lemma {:induction false} ApplySkips(d: Driver, c: Checkpoint, k: Cluster, i: nat, j: nat)
    requires |c.services| == |k.services| && i <= j <= |c.services|
    requires forall n :: i <= n < j ==> PassesAt(d, c, k, n)
    ensures ApplyFrom(d, c, k, i) == ApplyFrom(d, c, k, j)
    decreases j - i
  {
    if i < j {
      assert PassesAt(d, c, k, i);
      ApplySkips(d, c, k, i + 1, j);
    }
  }

  lemma MovedIsPassed(d: Driver, c: Checkpoint, k: Cluster, i: nat)
    requires PartialWork(d, c, k) && i < |c.services| && ServiceMoved(d, c.services[i], k.services[i])
    ensures Passed(d, c.services[i], k.services[i])
  {
    ServiceTold(d, d.source.services[i], c.services[i], k.services[i]);
  }

  /** The first Service an apply still has to mark. */
  ghost function FirstUnmoved(d: Driver, c: Checkpoint, k: Cluster, i: nat): (j: nat)
    requires |c.services| == |k.services| && i <= |c.services|
    ensures i <= j <= |c.services|
    ensures forall n :: i <= n < j ==> ServiceMoved(d, c.services[n], k.services[n])
    ensures j < |c.services| ==> !ServiceMoved(d, c.services[j], k.services[j])
    decreases |c.services| - i
  {
    if i < |c.services| && ServiceMoved(d, c.services[i], k.services[i]) then FirstUnmoved(d, c, k, i + 1) else i
  }

  lemma PutKeepsPartial(d: Driver, c: Checkpoint, k: Cluster, j: nat, s: Service)
    requires PartialWork(d, c, k) && j < |c.services|
    requires ServiceBack(d, c.services[j], s) || ServiceMoved(d, c.services[j], s)
    ensures PartialWork(d, c, PutService(k, j, s))
  {
    var after := PutService(k, j, s);
    forall i | 0 <= i < |c.services| ensures Partial(d, c, after, i) {
      assert Partial(d, c, k, i);
    }
  }

  /** One apply over partial work never conflicts, moves exactly one more object
      or waits, and is done exactly when everything moved and is ready. */
  lemma ApplyStep(d: Driver, c: Checkpoint, k: Cluster)
    requires PartialWork(d, c, k)
    ensures
      var (after, o) := ApplySpec(d, c, k);
      && !o.Conflict? && PartialWork(d, c, after)
      && (if Moved(d, c, k) == |c.services| + 1 then after == k && (o.Done? <==> Ready(k))
          else o.Pending? && Moved(d, c, after) == Moved(d, c, k) + 1)
  {
    DeploymentTold(d, c, k.deployment);
    MovedBound(d, c, k, 0);
    var j := FirstUnmoved(d, c, k, 0);
    forall n | 0 <= n < j ensures PassesAt(d, c, k, n) {
      MovedIsPassed(d, c, k, n);
      ApplyPasses(d, c, k, n);
    }
    ApplySkips(d, c, k, 0, j);
    var after := ApplySpec(d, c, k).0;
    if j < |c.services| {
      ApplyAt(d, c, k, j);
      ServiceTold(d, d.source.services[j], c.services[j], k.services[j]);
      ServiceMoves(d, c.services[j], k.services[j]);
      PutKeepsPartial(d, c, k, j, MarkedService(d, k.services[j]));
      MovedAfterPut(d, c, k, j, MarkedService(d, k.services[j]), 0);
    } else if DeploymentBack(d, c, k.deployment) {
      MovedIgnoresDeployment(d, c, k, after, 0);
      assert forall i :: 0 <= i < |c.services| ==> Partial(d, c, k, i) == Partial(d, c, after, i);
    }
  }

  /** One restore over partial work never conflicts, brings exactly one object
      back or waits for the Deployment, and is done exactly when none is left. */
  lemma RestoreStep(d: Driver, c: Checkpoint, k: Cluster)
    requires PartialWork(d, c, k)
    ensures
      var (after, o) := RestoreSpec(d, c, k);
      && !o.Conflict? && PartialWork(d, c, after)
      && (if DeploymentBack(d, c, k.deployment) && !Ready(k) then after == k && o.Pending?
          else if Moved(d, c, k) == 0 then after == k && o.Done?
          else o.Pending? && Moved(d, c, after) == Moved(d, c, k) - 1)
  {
    DeploymentTold(d, c, k.deployment);
    MovedBound(d, c, k, 0);
    var after := RestoreSpec(d, c, k).0;
    if DeploymentMoved(d, c, k.deployment) {
      DeploymentTold(d, c, after.deployment);
      MovedIgnoresDeployment(d, c, k, after, 0);
      assert forall i :: 0 <= i < |c.services| ==> Partial(d, c, k, i) == Partial(d, c, after, i);
    } else if Ready(k) {
      var j := ScanRestore(d, c, k);
      if j < |c.services| {
        var s := UnmarkedService(c.services[j], k.services[j]);
        ServiceMoves(d, c.services[j], k.services[j]);
        ServiceTold(d, d.source.services[j], c.services[j], s);
        PutKeepsPartial(d, c, k, j, s);
        MovedAfterPut(d, c, k, j, s, 0);
      }
    }
  }

  /** The controllers have finished rolling the current Deployment out. */
  function RolledOut(k: Cluster): Cluster {
    k.(view := k.deployment, status := Status(1, 1, 1, 1, false))
  }

  /** `n` restore calls, each after the rollout finished. */
  ghost function RestoreRounds(d: Driver, c: Checkpoint, k: Cluster, n: nat): (after: Cluster)
    requires |k.services| == |d.source.services|
    ensures |after.services| == |k.services|
  {
    if n == 0 then k else RestoreSpec(d, c, RolledOut(RestoreRounds(d, c, k, n - 1))).0
  }

  lemma RollOutKeepsPartial(d: Driver, c: Checkpoint, k: Cluster)
    requires PartialWork(d, c, k)
    ensures PartialWork(d, c, RolledOut(k)) && Moved(d, c, RolledOut(k)) == Moved(d, c, k) && Ready(RolledOut(k))
  {
    MovedIgnoresDeployment(d, c, k, RolledOut(k), 0);
    assert forall i :: 0 <= i < |c.services| ==> Partial(d, c, k, i) == Partial(d, c, RolledOut(k), i);
  }

  lemma {:induction false} RoundsBringBack(d: Driver, c: Checkpoint, k: Cluster, n: nat)
    requires PartialWork(d, c, k)
    ensures
      var after := RestoreRounds(d, c, k, n);
      PartialWork(d, c, after) && Moved(d, c, after) == (if n <= Moved(d, c, k) then Moved(d, c, k) - n else 0)
  {
    if n > 0 {
      RoundsBringBack(d, c, k, n - 1);
      RollOutKeepsPartial(d, c, RestoreRounds(d, c, k, n - 1));
      RestoreStep(d, c, RolledOut(RestoreRounds(d, c, k, n - 1)));
    }
  }

  lemma NothingMovedIsBack(d: Driver, c: Checkpoint, k: Cluster)
    requires PartialWork(d, c, k) && Moved(d, c, k) == 0
    ensures DeploymentBack(d, c, k.deployment)
    ensures forall i :: 0 <= i < |c.services| ==> ServiceBack(d, c.services[i], k.services[i])
  {
    MovedBound(d, c, k, 0);
    forall i | 0 <= i < |c.services| ensures ServiceBack(d, c.services[i], k.services[i]) {
      assert Partial(d, c, k, i);
    }
  }

  // ---- Other annotations ----

  /** No object's annotations differ outside the six managed keys. */
  ghost predicate OthersKept(k: Cluster, after: Cluster) {
    && SameUnmanaged(k.deployment.ann, after.deployment.ann) && |after.services| == |k.services|
    && forall i :: 0 <= i < |k.services| ==> SameUnmanaged(k.services[i].ann, after.services[i].ann)
  }

  lemma OthersKeptChains(a: Cluster, b: Cluster, c: Cluster)
    requires OthersKept(a, b) && OthersKept(b, c)
    ensures OthersKept(a, c)
  {
    forall i | 0 <= i < |a.services| ensures SameUnmanaged(a.services[i].ann, c.services[i].ann) {
      assert SameUnmanaged(a.services[i].ann, b.services[i].ann) && SameUnmanaged(b.services[i].ann, c.services[i].ann);
    }
  }

  lemma {:induction false} RestoreScanKeepsOthers(d: Driver, c: Checkpoint, k: Cluster, i: nat)
    requires |c.services| == |k.services| && i <= |c.services|
    ensures OthersKept(k, RestoreFrom(d, c, k, i).0)
    decreases |c.services| - i
  {
    if i < |c.services| {
      RestoreScanKeepsOthers(d, c, k, i + 1);
      RestoresManaged(k.services[i].ann, c.services[i].ann);
    }
  }

  /** A restore call leaves every other annotation of every object alone,
      whatever the cluster holds. */
  lemma RestoreKeepsOthers(d: Driver, c: Checkpoint, k: Cluster)
    requires |k.services| == |d.source.services|
    ensures OthersKept(k, RestoreSpec(d, c, k).0)
  {
    RestoresManaged(k.deployment.ann, c.deployment.ann);
    if ValidCheckpoint(d, c) {
      RestoreScanKeepsOthers(d, c, k, 0);
    }
  }

  lemma {:induction false} RoundsKeepOthers(d: Driver, c: Checkpoint, k: Cluster, n: nat)
    requires |k.services| == |d.source.services|
    ensures OthersKept(k, RestoreRounds(d, c, k, n))
  {
    if n > 0 {
      var before := RestoreRounds(d, c, k, n - 1);
      RoundsKeepOthers(d, c, k, n - 1);
      RestoreKeepsOthers(d, c, RolledOut(before));
      assert OthersKept(k, RolledOut(before));
      OthersKeptChains(k, RolledOut(before), RestoreRounds(d, c, k, n));
    }
  }

  /** From every partial state the restore needs exactly as many updates as
      objects were moved, at most one per Service plus the Deployment; it then
      reports done, with every object back at its checkpoint. Along the way it
      leaves every other annotation of every object alone. */
  lemma RestoreConverges(d: Driver, c: Checkpoint, k: Cluster, n: nat)
    requires PartialWork(d, c, k)
    ensures
      var after := RestoreRounds(d, c, k, n);
      && Moved(d, c, k) <= |c.services| + 1
      && (RestoreSpec(d, c, RolledOut(after)).1.Done? <==> n >= Moved(d, c, k))
      && (n >= Moved(d, c, k) ==> DeploymentBack(d, c, after.deployment))
      && (n >= Moved(d, c, k) ==> forall i :: 0 <= i < |c.services| ==>
          ServiceBack(d, c.services[i], after.services[i]))
      && OthersKept(k, after)
  {
    MovedBound(d, c, k, 0);
    RoundsBringBack(d, c, k, n);
    var after := RestoreRounds(d, c, k, n);
    RollOutKeepsPartial(d, c, after);
    RestoreStep(d, c, RolledOut(after));
    if n >= Moved(d, c, k) {
      NothingMovedIsBack(d, c, after);
    }
    RoundsKeepOthers(d, c, k, n);
  }

  lemma {:induction false} ApplyScanKeepsForeign(d: Driver, c: Checkpoint, k: Cluster, i: nat)
    requires |c.services| == |k.services| && i <= |c.services|
    ensures SameForeign(k.deployment.ann, ApplyFrom(d, c, k, i).0.deployment.ann)
    decreases |c.services| - i
  {
    if i < |c.services| {
      ApplyScanKeepsForeign(d, c, k, i + 1);
    } else {
      MarkTouchesManaged(d, k.deployment.ann);
    }
  }

  /** Applying writes no foreign annotation of the Deployment either. */
  lemma ApplyKeepsForeign(d: Driver, c: Checkpoint, k: Cluster)
    requires |k.services| == |d.source.services|
    ensures SameForeign(k.deployment.ann, ApplySpec(d, c, k).0.deployment.ann)
  {
    if ValidCheckpoint(d, c) {
      ApplyScanKeepsForeign(d, c, k, 0);
    }
  }

  /** Releases that are no chart come back to the captured Services exactly. */
  lemma BackIsExact(d: Driver, original: Service, s: Service)
    requires ServiceBack(d, original, s) && !d.target.helm
    ensures s == original
  {
    assert s.ann.Keys == original.ann.Keys;
    assert s.ann == original.ann;
  }
}
