/** A downtime transition always gets where Core wants it: from every reachable
    state a bounded number of willing calls finishes it, if the controllers
    catch up in between. */
module StoppedProgress {
  import opened Wrappers
  import opened Iteration
  import opened ManagedObjects
  import opened ManagementJournal
  import opened StoppedReplacement
  import opened StoppedJournal
  import opened StoppedRuns
  import opened StoppedSafety
  import opened StoppedTheorems

  // ---- Controllers that catch up ----

  function Drained(k: Cluster): (r: seq<set<Pod>>)
    ensures |r| == |k.endpoints|
    ensures forall i :: 0 <= i < |r| ==>
              r[i] == if i < |k.services| && k.services[i].spec.selector.Fenced? then {} else k.endpoints[i]
  {
    seq(|k.endpoints|, i requires 0 <= i < |k.endpoints| =>
      if i < |k.services| && k.services[i].spec.selector.Fenced? then {} else k.endpoints[i])
  }

  function RolledOut(x: Deployment): Status {
    Status(x.replicas, x.replicas, x.replicas, x.replicas, false)
  }

  /** The Deployment is rolled out, the Pods of a stopped one are gone, and no
      fenced Service routes to any Pod. */
  function CaughtUp(k: Cluster): Cluster {
    k.(view := k.deployment, status := RolledOut(k.deployment),
       pods := if k.deployment.replicas == 0 then {} else k.pods, endpoints := Drained(k))
  }

  predicate ByControllers(events: seq<Event>) {
    forall i :: 0 <= i < |events| ==> !events[i].Call? && !events[i].CoreMoves?
  }

  lemma {:induction false} ControllersChain(j: Job, k: Cluster, a: seq<Event>, b: seq<Event>)
    requires Sized(j, k)
    ensures Controllers(j, k, a + b) == Controllers(j, Controllers(j, k, a), b)
    decreases |b|
  {
    if b == [] {
      assert a + b == a;
    } else {
      ControllersChain(j, k, a, b[..|b| - 1]);
      assert (a + b)[..|a + b| - 1] == a + b[..|b| - 1];
    }
  }

  lemma {:induction false} PodsGo(j: Job, k: Cluster, pods: set<Pod>) returns (events: seq<Event>)
    requires Sized(j, k)
    ensures ByControllers(events) && Controllers(j, k, events) == k.(pods := k.pods - pods)
    decreases |pods|
  {
    events := [];
    if pods == {} {
      assert k.pods - pods == k.pods;
    } else {
      var p :| p in pods;
      var rest := PodsGo(j, k, pods - {p});
      events := rest + [PodRemoved(p)];
      assert events[..|events| - 1] == rest;
      assert k.pods - (pods - {p}) - {p} == k.pods - pods;
    }
  }

  lemma {:induction false} RoutesGo(j: Job, k: Cluster, i: nat, pods: set<Pod>) returns (events: seq<Event>)
    requires Sized(j, k) && i < |k.endpoints|
    ensures ByControllers(events)
    ensures Controllers(j, k, events) == k.(endpoints := k.endpoints[i := k.endpoints[i] - pods])
    decreases |pods|
  {
    events := [];
    if pods == {} {
      assert k.endpoints[i] - pods == k.endpoints[i];
    } else {
      var p :| p in pods;
      var rest := RoutesGo(j, k, i, pods - {p});
      events := rest + [Unrouted(i, p)];
      assert events[..|events| - 1] == rest;
      assert k.endpoints[i] - (pods - {p}) - {p} == k.endpoints[i] - pods;
    }
  }

  lemma OneMoreDrained(drained: seq<set<Pod>>, was: seq<set<Pod>>, n: nat)
    requires 0 < n <= |drained| == |was|
    ensures (drained[..n - 1] + was[n - 1..])[n - 1 := drained[n - 1]] == drained[..n] + was[n..]
  {
  }

  lemma {:induction false} RoutesDrain(j: Job, k: Cluster, n: nat) returns (events: seq<Event>)
    requires Sized(j, k) && n <= |k.endpoints|
    ensures ByControllers(events)
    ensures Controllers(j, k, events) == k.(endpoints := Drained(k)[..n] + k.endpoints[n..])
  {
    events := [];
    if n == 0 {
      assert Drained(k)[..0] + k.endpoints[0..] == k.endpoints;
    } else {
      var before := RoutesDrain(j, k, n - 1);
      var k' := Controllers(j, k, before);
      var fenced := k.services[n - 1].spec.selector.Fenced?;
      assert k'.endpoints[n - 1] == k.endpoints[n - 1];
      var last := RoutesGo(j, k', n - 1, if fenced then k.endpoints[n - 1] else {});
      assert Drained(k)[n - 1] == k.endpoints[n - 1] - if fenced then k.endpoints[n - 1] else {};
      events := before + last;
      ControllersChain(j, k, before, last);
      OneMoreDrained(Drained(k), k.endpoints, n);
    }
  }

  /** Catching up is something the controllers can do. */
  lemma CatchesUp(j: Job, k: Cluster) returns (events: seq<Event>)
    requires Sized(j, k)
    ensures ByControllers(events) && Controllers(j, k, events) == CaughtUp(k)
  {
    var routes := RoutesDrain(j, k, |k.endpoints|);
    var k1 := Controllers(j, k, routes);
    assert k1.endpoints == Drained(k);
    var pods := PodsGo(j, k1, if k.deployment.replicas == 0 then k.pods else {});
    ControllersChain(j, k, routes, pods);
    var k2 := Controllers(j, k, routes + pods);
    assert k2.pods == CaughtUp(k).pods;
    var rollout := [ControllerReads, ControllerReports(RolledOut(k.deployment))];
    assert rollout[..1] == [ControllerReads] && [ControllerReads][..0] == [];
    assert Controllers(j, k2, [ControllerReads]) == k2.(view := k.deployment);
    events := routes + pods + rollout;
    ControllersChain(j, k, routes + pods, rollout);
  }

  lemma {:induction false} ControllersKeep(j: Job, before: Cluster, t: System, events: seq<Event>)
    requires Invariant(j, before, t) && ByControllers(events)
    ensures Invariant(j, before, t.(cluster := Controllers(j, t.cluster, events)))
  {
    if events != [] {
      var prefix, e := events[..|events| - 1], events[|events| - 1];
      ControllersKeep(j, before, t, prefix);
      ControllerKeeps(j, before, t.(cluster := Controllers(j, t.cluster, prefix)), e);
    }
  }

  lemma {:induction false} ControllersRun(j: Job, s: System, a: seq<Event>, events: seq<Event>)
    requires Initial(j, s) && ByControllers(events)
    ensures Run(j, s, a + events)
            == Run(j, s, a).(cluster := Controllers(j, Run(j, s, a).cluster, events))
    decreases |events|
  {
    if events == [] {
      assert a + events == a;
    } else {
      ControllersRun(j, s, a, events[..|events| - 1]);
      RunSplit(j, s, a, events);
    }
  }

  // ---- Willing calls ----

  /** The controllers catch up, then one call goes through. */
  ghost function Round(j: Job, t: System, mode: Mode): (u: System)
    requires WellFormed(j.driver) && Sized(j, t.cluster)
    ensures Sized(j, u.cluster)
  {
    var caught := t.(cluster := CaughtUp(t.cluster));
    StepKeepsSize(j, caught, Call(mode, ProbeOk, true, true));
    Reconcile(j, caught, Call(mode, ProbeOk, true, true))
  }

  /** Rounds in one mode, one after the other. */
  ghost function Rounds(j: Job, t: System, mode: Mode, n: nat): System {
    Iterate(Rounding(j, mode), t, n)
  }

  ghost function Rounding(j: Job, mode: Mode): System -> System {
    (t: System) => if WellFormed(j.driver) && Sized(j, t.cluster) then Round(j, t, mode) else t
  }

  function Calls(events: seq<Event>): nat {
    if events == [] then 0 else Calls(events[..|events| - 1]) + if events[|events| - 1].Call? then 1 else 0
  }

  lemma {:induction false} CallsAdd(a: seq<Event>, b: seq<Event>)
    ensures Calls(a + b) == Calls(a) + Calls(b)
    decreases |b|
  {
    if b == [] {
      assert a + b == a;
    } else {
      CallsAdd(a, b[..|b| - 1]);
      assert (a + b)[..|a + b| - 1] == a + b[..|b| - 1];
    }
  }

  lemma {:induction false} ControllersCallNothing(events: seq<Event>)
    requires ByControllers(events)
    ensures Calls(events) == 0
  {
    if events != [] {
      ControllersCallNothing(events[..|events| - 1]);
    }
  }

  /** Every call among the events is of one mode, answered well, and commits. */
  predicate Willing(events: seq<Event>, mode: Mode) {
    forall i :: 0 <= i < |events| && events[i].Call? ==> events[i] == Call(mode, ProbeOk, true, true)
  }

  lemma RoundIsARun(j: Job, s: System, a: seq<Event>, mode: Mode) returns (b: seq<Event>)
    requires Initial(j, s)
    ensures Run(j, s, a + b) == Round(j, Run(j, s, a), mode)
    ensures Calls(b) == 1 && Willing(b, mode)
  {
    var caught := CatchesUp(j, Run(j, s, a).cluster);
    ControllersRun(j, s, a, caught);
    ControllersCallNothing(caught);
    b := caught + [Call(mode, ProbeOk, true, true)];
    assert b[..|b| - 1] == caught;
    RunSplit(j, s, a, b);
  }

  /** Rounds are runs: Core asks, and then, as often as there are rounds, the
      controllers act and a call succeeds. */
  lemma {:induction false} RoundsAreRuns(j: Job, s: System, a: seq<Event>, core: Core, mode: Mode, n: nat)
    returns (b: seq<Event>)
    requires Initial(j, s)
    ensures Run(j, s, a + b) == Rounds(j, Run(j, s, a).(core := core), mode, n)
    ensures Calls(b) == n && Willing(b, mode)
  {
    if n == 0 {
      b := [CoreMoves(core)];
      RunSplit(j, s, a, b);
      assert a + b[..0] == a;
      assert b[..0] == [];
    } else {
      var first := RoundsAreRuns(j, s, a, core, mode, n - 1);
      var last := RoundIsARun(j, s, a + first, mode);
      b := first + last;
      CallsAdd(first, last);
      assert a + b == (a + first) + last;
    }
  }

  // ---- One round ----

  /** A rolled out process is ready; a stopped one is gone. */
  ghost predicate UpToDate(k: Cluster) {
    && (k.deployment.replicas == 1 && !k.deployment.deleting ==> Ready(k) && !k.status.stalled)
    && (k.deployment.replicas == 0 ==> Gone(k))
    && |k.services| == |k.endpoints|
    && forall i :: 0 <= i < |k.services| && k.services[i].spec.selector.Fenced? ==> k.endpoints[i] == {}
  }

  lemma CaughtUpKeeps(j: Job, before: Cluster, t: System)
    requires Invariant(j, before, t)
    ensures Invariant(j, before, t.(cluster := CaughtUp(t.cluster))) && UpToDate(CaughtUp(t.cluster))
  {
    var events := CatchesUp(j, t.cluster);
    ControllersKeep(j, before, t, events);
  }

  /** A round is one advance over an up-to-date cluster. */
  lemma RoundAdvances(j: Job, before: Cluster, t: System, mode: Mode)
    requires Invariant(j, before, t) && t.row.Some? && t.row.value.record.checkpoint.Some?
    requires Permitted(j.binding, t.core, mode)
    ensures
      var k, r, u := CaughtUp(t.cluster), t.row.value.record, Round(j, t, mode);
      && Callable(j.driver, k, r) && UpToDate(k)
      && Invariant(j, before, t.(cluster := k)) && Invariant(j, before, u)
      && var a := AdvanceSpec(j.driver, j.guarded, k, r, mode, ProbeOk);
         && u.core == t.core && u.cluster == a.cluster && u.row.Some?
         && u.row.value.record == if a.failure.NoFailure? then a.record else r
  {
    CaughtUpKeeps(j, before, t);
    CallKeeps(j, before, t.(cluster := CaughtUp(t.cluster)), Call(mode, ProbeOk, true, true));
  }

  // ---- Back to the source ----

  function LeftToRestore(d: Driver, p: Phase, x: Deployment): nat {
    if p.Restored? then 0
    else if !p.Restoring? then 4
    else if x.replicas == 0 then 2
    else if Version(x) == d.target.hash then 3
    else 1
  }

  lemma RestoringAdvances(d: Driver, guarded: bool, before: Cluster, c: Checkpoint, k: Cluster, r: Record)
    requires Underway(d, before, c, k) && Callable(d, k, r) && r == Record(Restoring, Some(c))
    requires Shaped(d, before, c, k, Restoring) && UpToDate(k)
    ensures
      var a := AdvanceRestoring(d, guarded, k, r, ProbeOk);
      && a.failure.NoFailure?
      && LeftToRestore(d, a.record.phase, a.cluster.deployment) < LeftToRestore(d, Restoring, k.deployment)
  {
    Recognised(d, before, c, k);
    StopKeeps(d, before, c, k);
    StopCases(d, c, k);
    StartKeeps(d, before, c, k, false);
    StartCases(d, c, k, false);
    if k.deployment.replicas == 0 {
      var after := StartSpec(d, c, k, false).0;
      StartedKeeps(d, before, c, k, false);
      Recognised(d, before, c, after);
    }
  }

  /** At most `left` more calls restore the source of this checkpoint. */
  ghost predicate Returning(j: Job, before: Cluster, t: System, core: Core, c: Checkpoint, left: int) {
    && Invariant(j, before, t) && t.core == core && t.row.Some?
    && t.row.value.record.checkpoint == Some(c) && !IsRelease(t.row.value.record.phase)
    && LeftToRestore(j.driver, t.row.value.record.phase, t.cluster.deployment) <= left
  }

  lemma RestoreRound(j: Job, before: Cluster, t: System, core: Core, c: Checkpoint, left: nat)
    requires Returning(j, before, t, core, c, left + 1) && Permitted(j.binding, core, Restore)
    ensures Returning(j, before, Rounding(j, Restore)(t), core, c, left)
  {
    RoundAdvances(j, before, t, Restore);
    var k, r := CaughtUp(t.cluster), t.row.value.record;
    AdvanceFollows(j.driver, j.guarded, k, r, Restore, ProbeOk);
    if r.phase.Restoring? {
      RestoringAdvances(j.driver, j.guarded, before, c, k, r);
    }
  }

  lemma RestoreRounds(j: Job, before: Cluster, t: System, core: Core, c: Checkpoint, n: nat)
    requires Returning(j, before, t, core, c, n) && Permitted(j.binding, core, Restore)
    ensures Returning(j, before, Rounds(j, t, Restore, n), core, c, 0)
  {
    var bounded := (u: System, left: nat) => Returning(j, before, u, core, c, left);
    forall u, left: nat | bounded(u, left + 1) ensures bounded(Rounding(j, Restore)(u), left) {
      RestoreRound(j, before, u, core, c, left);
    }
    Countdown(Rounding(j, Restore), bounded, t, n, 0);
  }

  /** From every state of every run that holds a checkpoint and was not released,
      four restore calls bring the source back. */
  lemma ReturnsToSource(j: Job, s: System, a: seq<Event>, core: Core) returns (b: seq<Event>)
    requires Initial(j, s) && Permitted(j.binding, core, Restore)
    requires Run(j, s, a).row.Some? && Run(j, s, a).row.value.record.checkpoint.Some?
    requires !IsRelease(Run(j, s, a).row.value.record.phase)
    ensures Calls(b) == 4 && Willing(b, Restore)
    ensures
      var u := Run(j, s, a + b);
      && u.row.Some? && u.row.value.record == Run(j, s, a).row.value.record.(phase := Restored)
      && SourceShape(j.driver, u.row.value.record.checkpoint.value, u.cluster.deployment)
      && u.cluster.deployment.replicas == 1
  {
    RunKeepsInvariant(j, s, a);
    b := RoundsAreRuns(j, s, a, core, Restore, 4);
    var t := Run(j, s, a).(core := core);
    RestoreRounds(j, s.cluster, t, core, t.row.value.record.checkpoint.value, 4);
  }

  // ---- The release ----

  function Settled(target: bool): Phase {
    if target then Prepared else Restored
  }

  function Releasing(target: bool): Phase {
    if target then ReleasingTarget else ReleasingSource
  }

  function Released(target: bool): Phase {
    if target then ReleasedTarget else ReleasedSource
  }

  function ReleaseMode(target: bool): Mode {
    if target then ReleaseTarget else ReleaseSource
  }

  /** How many of the first `n` Services are still gated. */
  ghost function StillGated(d: Driver, c: Checkpoint, k: Cluster, n: nat): (g: nat)
    requires Aligned(c, k) && n <= |c.services|
    ensures g <= n
  {
    if n == 0 then 0 else StillGated(d, c, k, n - 1) + if IsFenced(d, c, k, n - 1) then 1 else 0
  }

  lemma {:induction false} OneFewerGated(d: Driver, c: Checkpoint, k: Cluster, j: nat, s: Service, n: nat)
    requires Aligned(c, k) && j < |c.services| && n <= |c.services|
    requires IsFenced(d, c, k, j) && s != GateService(d, c.services[j])
    ensures StillGated(d, c, PutService(k, j, s), n) == StillGated(d, c, k, n) - if j < n then 1 else 0
  {
    if n > 0 {
      OneFewerGated(d, c, k, j, s, n - 1);
      assert n - 1 != j ==> IsFenced(d, c, PutService(k, j, s), n - 1) == IsFenced(d, c, k, n - 1);
    }
  }

  lemma {:induction false} GatedFollowsServices(d: Driver, c: Checkpoint, k: Cluster, k': Cluster, n: nat)
    requires Aligned(c, k) && Aligned(c, k') && k.services == k'.services && n <= |c.services|
    ensures StillGated(d, c, k', n) == StillGated(d, c, k, n)
  {
    if n > 0 {
      GatedFollowsServices(d, c, k, k', n - 1);
    }
  }

  ghost function LeftToRelease(d: Driver, c: Checkpoint, k: Cluster, p: Phase, target: bool): nat
    requires Aligned(c, k)
  {
    if p == Released(target) then 0
    else StillGated(d, c, k, |c.services|) + if p == Releasing(target) then 1 else 2
  }

  lemma ReopeningUngates(d: Driver, before: Cluster, c: Checkpoint, k: Cluster, target: bool, j: nat)
    requires Underway(d, before, c, k) && j < |c.services| && IsFenced(d, c, k, j)
    ensures Reopened(d, c.services[j], target) != GateService(d, c.services[j])
  {
    CapturedIsUnmarked(d, before, c, j);
    ServiceRecognised(d, d.source.services[j], c.services[j]);
  }

  lemma MovableWhileReleasing(d: Driver, before: Cluster, c: Checkpoint, k: Cluster, target: bool)
    requires WellFormed(d) && Aligned(c, k) && Shaped(d, before, c, k, Releasing(target))
    ensures forall i :: 0 <= i < |c.services| ==> Movable(d, c, k, target, i)
  {
    forall i | 0 <= i < |c.services| ensures Movable(d, c, k, target, i) {
      assert if target then Opening(d, c, k, i) else Closing(d, c, k, i);
    }
  }

  lemma ReleaseOpens(d: Driver, k: Cluster, r: Record, target: bool)
    requires Callable(d, k, r) && r.phase == Releasing(target) && r.checkpoint.Some? && Ready(k)
    requires LiveDeployment(d, r.checkpoint.value, k) == if target then AtTarget else AtSource
    ensures
      var (after, o) := OpenFrom(d, r.checkpoint.value, k, target, 0);
      AdvanceRelease(d, k, r, target)
      == Advanced(after, if o.Done? then r.(phase := Released(target)) else r, FailureOf(o))
  {
  }

  lemma OpeningUngates(d: Driver, before: Cluster, c: Checkpoint, k: Cluster, target: bool)
    requires Underway(d, before, c, k) && Shaped(d, before, c, k, Releasing(target))
    ensures
      var (after, o) := OpenFrom(d, c, k, target, 0);
      && !o.Conflict? && Aligned(c, after)
      && (!o.Done? ==> StillGated(d, c, after, |c.services|) < StillGated(d, c, k, |c.services|))
  {
    MovableWhileReleasing(d, before, c, k, target);
    var j := OpenRecognised(d, before, c, k, target, 0);
    if !OpenFrom(d, c, k, target, 0).1.Done? {
      ReopeningUngates(d, before, c, k, target, j);
      OneFewerGated(d, c, k, j, Reopened(d, c.services[j], target), |c.services|);
    }
  }

  lemma ReleasingAdvances(d: Driver, before: Cluster, c: Checkpoint, k: Cluster, r: Record, target: bool)
    requires Underway(d, before, c, k) && Callable(d, k, r) && r == Record(Releasing(target), Some(c))
    requires Shaped(d, before, c, k, r.phase) && UpToDate(k)
    ensures
      var a := AdvanceRelease(d, k, r, target);
      && a.failure.NoFailure? && Aligned(c, a.cluster)
      && LeftToRelease(d, c, a.cluster, a.record.phase, target) < LeftToRelease(d, c, k, r.phase, target)
  {
    Recognised(d, before, c, k);
    ReleaseOpens(d, k, r, target);
    OpeningUngates(d, before, c, k, target);
  }

  predicate OnRelease(p: Phase, target: bool) {
    p == Settled(target) || p == Releasing(target) || p == Released(target)
  }

  lemma ReleaseCall(d: Driver, guarded: bool, k: Cluster, r: Record, target: bool)
    requires Callable(d, k, r) && !r.phase.RejectedPreflight?
    ensures AdvanceSpec(d, guarded, k, r, ReleaseMode(target), ProbeOk) == AdvanceRelease(d, k, r, target)
  {
  }

  /** One release call in any phase of it. */
  lemma ReleaseAdvances(d: Driver, guarded: bool, before: Cluster, c: Checkpoint, k: Cluster, r: Record, target: bool)
    requires Underway(d, before, c, k) && Callable(d, k, r) && r == Record(r.phase, Some(c)) && OnRelease(r.phase, target)
    requires Shaped(d, before, c, k, r.phase) && UpToDate(k)
    ensures
      var a := AdvanceSpec(d, guarded, k, r, ReleaseMode(target), ProbeOk);
      var q := if a.failure.NoFailure? then a.record else r;
      && Aligned(c, a.cluster) && q.checkpoint == Some(c) && OnRelease(q.phase, target)
      && (r.phase != Released(target) ==>
            LeftToRelease(d, c, a.cluster, q.phase, target) < LeftToRelease(d, c, k, r.phase, target))
      && (r.phase == Released(target) ==> q.phase == Released(target))
  {
    ReleaseCall(d, guarded, k, r, target);
    if r.phase == Releasing(target) {
      ReleasingAdvances(d, before, c, k, r, target);
    }
  }

  /** At most `left` more calls finish the release. */
  ghost predicate OnTheWay(j: Job, before: Cluster, t: System, core: Core, c: Checkpoint, target: bool, left: int) {
    && Invariant(j, before, t) && t.core == core && t.row.Some? && t.row.value.record.checkpoint == Some(c)
    && Aligned(c, t.cluster)
    && OnRelease(t.row.value.record.phase, target)
    && LeftToRelease(j.driver, c, t.cluster, t.row.value.record.phase, target) <= left
  }

  lemma ReleaseRound(j: Job, before: Cluster, t: System, core: Core, c: Checkpoint, target: bool, left: nat)
    requires OnTheWay(j, before, t, core, c, target, left + 1)
    requires Permitted(j.binding, core, ReleaseMode(target))
    ensures OnTheWay(j, before, Rounding(j, ReleaseMode(target))(t), core, c, target, left)
  {
    RoundAdvances(j, before, t, ReleaseMode(target));
    GatedFollowsServices(j.driver, c, t.cluster, CaughtUp(t.cluster), |c.services|);
    ReleaseAdvances(j.driver, j.guarded, before, c, CaughtUp(t.cluster), t.row.value.record, target);
  }

  lemma ReleaseRounds(j: Job, before: Cluster, t: System, core: Core, c: Checkpoint, target: bool, n: nat)
    requires OnTheWay(j, before, t, core, c, target, n) && Permitted(j.binding, core, ReleaseMode(target))
    ensures OnTheWay(j, before, Rounds(j, t, ReleaseMode(target), n), core, c, target, 0)
  {
    var bounded := (u: System, left: nat) => OnTheWay(j, before, u, core, c, target, left);
    forall u, left: nat | bounded(u, left + 1) ensures bounded(Rounding(j, ReleaseMode(target))(u), left) {
      ReleaseRound(j, before, u, core, c, target, left);
    }
    Countdown(Rounding(j, ReleaseMode(target)), bounded, t, n, 0);
  }

  lemma ReleaseBegins(j: Job, before: Cluster, t: System, core: Core, target: bool)
    requires Invariant(j, before, t) && t.row.Some? && t.row.value.record.checkpoint.Some?
    requires OnRelease(t.row.value.record.phase, target)
    ensures OnTheWay(j, before, t.(core := core), core, t.row.value.record.checkpoint.value, target, |before.services| + 2)
  {
  }

  /** From every prepared or restored state of every run, and from every point of
      a release, one release call for each Service and two more finish it. */
  lemma ReleaseFinishes(j: Job, s: System, a: seq<Event>, core: Core, target: bool) returns (b: seq<Event>)
    requires Initial(j, s) && Permitted(j.binding, core, ReleaseMode(target))
    requires Run(j, s, a).row.Some? && Run(j, s, a).row.value.record.checkpoint.Some?
    requires OnRelease(Run(j, s, a).row.value.record.phase, target)
    ensures Calls(b) == |s.cluster.services| + 2 && Willing(b, ReleaseMode(target))
    ensures
      var u := Run(j, s, a + b);
      u.row.Some? && u.row.value.record == Run(j, s, a).row.value.record.(phase := Released(target))
  {
    RunKeepsInvariant(j, s, a);
    var n := |s.cluster.services| + 2;
    b := RoundsAreRuns(j, s, a, core, ReleaseMode(target), n);
    var t := Run(j, s, a);
    ReleaseBegins(j, s.cluster, t, core, target);
    ReleaseRounds(j, s.cluster, t.(core := core), core, t.row.value.record.checkpoint.value, target, n);
  }

  // ---- On to the target ----

  /** How many calls an undisturbed preparation still takes. */
  ghost function LeftToPrepare(d: Driver, c: Checkpoint, k: Cluster, p: Phase): nat
    requires Aligned(c, k)
  {
    if p.Prepared? then 0
    else if p.Verifying? then 1
    else if p.Applying? then if k.deployment.replicas == 0 then 3 else 2
    else if k.deployment.replicas == 0 then 4
    else 5 + |c.services| - StillGated(d, c, k, |c.services|)
  }

  lemma {:induction false} OneMoreGated(d: Driver, c: Checkpoint, k: Cluster, j: nat, n: nat)
    requires Aligned(c, k) && j < |c.services| && n <= |c.services| && !IsFenced(d, c, k, j)
    ensures StillGated(d, c, PutService(k, j, GateService(d, c.services[j])), n)
         == StillGated(d, c, k, n) + if j < n then 1 else 0
  {
    if n > 0 {
      OneMoreGated(d, c, k, j, n - 1);
      var after := PutService(k, j, GateService(d, c.services[j]));
      assert n - 1 != j ==> IsFenced(d, c, after, n - 1) == IsFenced(d, c, k, n - 1);
    }
  }

  /** What gating does at one Service it may meet. */
  ghost predicate GatesAt(d: Driver, c: Checkpoint, k: Cluster, i: nat)
    requires WellFormed(d) && Aligned(c, k) && i < |c.services|
  {
    if IsFenced(d, c, k, i) then GateFrom(d, c, k, i) == GateFrom(d, c, k, i + 1)
    else GateFrom(d, c, k, i) == (PutService(k, i, GateService(d, c.services[i])), Pending)
  }

  lemma GateAt(d: Driver, before: Cluster, c: Checkpoint, k: Cluster, i: nat)
    requires Underway(d, before, c, k) && i < |c.services| && Closing(d, c, k, i)
    ensures GatesAt(d, c, k, i)
  {
    OpenedIsNotClosing(d, before, c, k, i);
  }

  /** The scan closes the first Service that is still open. */
  lemma {:induction false} GateScan(d: Driver, c: Checkpoint, k: Cluster, i: nat) returns (j: nat)
    requires WellFormed(d) && Aligned(c, k) && i <= |c.services|
    requires forall n :: 0 <= n < |c.services| ==> GatesAt(d, c, k, n)
    ensures i <= j <= |c.services| && forall n :: i <= n < j ==> IsFenced(d, c, k, n)
    ensures
      if j < |c.services| then
        !IsFenced(d, c, k, j) && GateFrom(d, c, k, i) == (PutService(k, j, GateService(d, c.services[j])), Pending)
      else GateFrom(d, c, k, i) == (k, RoutesGatedSpec(d, c, k))
    decreases |c.services| - i
  {
    j := i;
    if i < |c.services| {
      assert GatesAt(d, c, k, i);
      if IsFenced(d, c, k, i) {
        j := GateScan(d, c, k, i + 1);
      }
    }
  }

  lemma GateCloses(d: Driver, before: Cluster, c: Checkpoint, k: Cluster) returns (j: nat)
    requires Underway(d, before, c, k) && AllClosing(d, c, k) && UpToDate(k) && c.services != []
    ensures j <= |c.services|
    ensures
      if j < |c.services| then
        !IsFenced(d, c, k, j) && GateFrom(d, c, k, 0) == (PutService(k, j, GateService(d, c.services[j])), Pending)
      else AllGated(d, c, k) && GateFrom(d, c, k, 0) == (k, Done)
  {
    forall n | 0 <= n < |c.services| ensures GatesAt(d, c, k, n) {
      GateAt(d, before, c, k, n);
    }
    j := GateScan(d, c, k, 0);
    if j == |c.services| {
      forall n | 0 <= n < |c.services| ensures Shut(d, c, k, n) {
        assert IsFenced(d, c, k, n) && k.services[n].spec.selector.Fenced?;
      }
      GateIsAllGated(d, before, c, k);
    }
  }

  /** What sealing does once it knows what the gate did. */
  lemma SealingIs(d: Driver, guarded: bool, k: Cluster, r: Record)
    requires Callable(d, k, r) && r.checkpoint.Some?
    ensures
      var c := r.checkpoint.value;
      var a := AdvanceSealing(d, guarded, k, r, ProbeOk).0;
      && (GateSpec(d, c, k).1.Pending? ==> a == Advanced(GateSpec(d, c, k).0, r, NoFailure))
      && (GateSpec(d, c, k) == (k, Done) && LiveDeployment(d, c, k).AtSource?
          && (k.deployment.replicas == 0 || Ready(k))
          ==> var (stopped, p) := StopSpec(d, c, k);
              a == Advanced(stopped, if p.Done? then r.(phase := Applying) else r, FailureOf(p)))
  {
  }

  lemma SealingAdvances(d: Driver, guarded: bool, before: Cluster, c: Checkpoint, k: Cluster, r: Record)
    requires Underway(d, before, c, k) && Callable(d, k, r) && r == Record(Sealing, Some(c))
    requires Shaped(d, before, c, k, Sealing) && UpToDate(k)
    requires c.services != [] && d.source.fence == "" && d.target.fence == ""
    ensures
      var a := AdvanceSealing(d, guarded, k, r, ProbeOk).0;
      && a.failure.NoFailure? && Aligned(c, a.cluster) && (a.record.phase.Sealing? || a.record.phase.Applying?)
      && LeftToPrepare(d, c, a.cluster, a.record.phase) < LeftToPrepare(d, c, k, Sealing)
  {
    Recognised(d, before, c, k);
    SealingIs(d, guarded, k, r);
    var j := GateCloses(d, before, c, k);
    if j < |c.services| {
      OneMoreGated(d, c, k, j, |c.services|);
      assert AllGated(d, c, k) ==> Shut(d, c, k, j);
    } else {
      StopKeeps(d, before, c, k);
      StopCases(d, c, k);
    }
  }

  lemma ApplyingAdvances(d: Driver, before: Cluster, c: Checkpoint, k: Cluster)
    requires Underway(d, before, c, k) && Shaped(d, before, c, k, Applying) && UpToDate(k) && c.services != []
    ensures
      var (after, o) := StartSpec(d, c, k, true);
      && !o.Conflict? && after.services == k.services
      && if k.deployment.replicas == 0 then o.Pending? && after.deployment.replicas == 1 else o.Done? && after == k
  {
    Recognised(d, before, c, k);
    StartKeeps(d, before, c, k, true);
    StartCases(d, c, k, true);
  }

  ghost predicate Preparing(p: Phase) {
    p.Sealing? || p.Applying? || p.Verifying? || p.Prepared?
  }

  /** An advance that meets no failure is what its phase does. */
  lemma SealingCase(d: Driver, guarded: bool, k: Cluster, r: Record)
    requires Callable(d, k, r) && r.checkpoint.Some? && r.phase.Sealing?
    ensures
      var sealed := AdvanceSealing(d, guarded, k, r, ProbeOk).0;
      sealed.failure.NoFailure? ==> AdvanceSpec(d, guarded, k, r, Prepare, ProbeOk) == sealed
  {
  }

  lemma ApplyingCase(d: Driver, guarded: bool, k: Cluster, r: Record)
    requires Callable(d, k, r) && r.checkpoint.Some? && r.phase.Applying?
    ensures
      var (after, o) := StartSpec(d, r.checkpoint.value, k, true);
      !o.Conflict? ==>
        AdvanceSpec(d, guarded, k, r, Prepare, ProbeOk)
        == Advanced(after, if o.Done? then r.(phase := Verifying) else r, NoFailure)
  {
    var (after, o) := StartSpec(d, r.checkpoint.value, k, true);
    var a := Advanced(after, if o.Done? then r.(phase := Verifying) else r, FailureOf(o));
    assert !o.Conflict? ==> Settle(a, Prepare) == a;
    assert AdvanceSpec(d, guarded, k, r, Prepare, ProbeOk) == Settle(a, Prepare);
  }

  lemma VerifyingCase(d: Driver, guarded: bool, k: Cluster, r: Record)
    requires Callable(d, k, r) && r.checkpoint.Some? && (r.phase.Verifying? || r.phase.Prepared?)
    requires LiveDeployment(d, r.checkpoint.value, k).AtTarget? && Ready(k)
    ensures AdvanceSpec(d, guarded, k, r, Prepare, ProbeOk) == Advanced(k, r.(phase := Prepared), NoFailure)
  {
  }

  lemma PreparingAdvances(d: Driver, guarded: bool, before: Cluster, c: Checkpoint, k: Cluster, r: Record)
    requires Underway(d, before, c, k) && Callable(d, k, r) && r == Record(r.phase, Some(c)) && Preparing(r.phase)
    requires Shaped(d, before, c, k, r.phase) && UpToDate(k)
    requires c.services != [] && d.source.fence == "" && d.target.fence == ""
    ensures
      var a := AdvanceSpec(d, guarded, k, r, Prepare, ProbeOk);
      && a.failure.NoFailure? && Aligned(c, a.cluster) && Preparing(a.record.phase)
      && var left := LeftToPrepare(d, c, k, r.phase);
         LeftToPrepare(d, c, a.cluster, a.record.phase) <= if left == 0 then 0 else left - 1
  {
    if r.phase.Sealing? {
      SealingCase(d, guarded, k, r);
      SealingAdvances(d, guarded, before, c, k, r);
    } else if r.phase.Applying? {
      ApplyingCase(d, guarded, k, r);
      ApplyingAdvances(d, before, c, k);
    } else {
      Recognised(d, before, c, k);
      VerifyingCase(d, guarded, k, r);
    }
  }

  /** At most `left` more calls have the target prepared. */
  ghost predicate Advancing(j: Job, before: Cluster, t: System, core: Core, c: Checkpoint, left: int) {
    && Invariant(j, before, t) && t.core == core && t.row.Some? && t.row.value.record.checkpoint == Some(c)
    && Aligned(c, t.cluster) && Preparing(t.row.value.record.phase)
    && LeftToPrepare(j.driver, c, t.cluster, t.row.value.record.phase) <= left
  }

  lemma PrepareRound(j: Job, before: Cluster, t: System, core: Core, c: Checkpoint, left: nat)
    requires Advancing(j, before, t, core, c, left + 1) && Permitted(j.binding, core, Prepare)
    requires c.services != [] && j.driver.source.fence == "" && j.driver.target.fence == ""
    ensures Advancing(j, before, Rounding(j, Prepare)(t), core, c, left)
  {
    RoundAdvances(j, before, t, Prepare);
    var k, r := CaughtUp(t.cluster), t.row.value.record;
    AdvanceFollows(j.driver, j.guarded, k, r, Prepare, ProbeOk);
    GatedFollowsServices(j.driver, c, t.cluster, k, |c.services|);
    PreparingAdvances(j.driver, j.guarded, before, c, k, r);
  }

  lemma PrepareRounds(j: Job, before: Cluster, t: System, core: Core, c: Checkpoint, n: nat)
    requires Advancing(j, before, t, core, c, n) && Permitted(j.binding, core, Prepare)
    requires c.services != [] && j.driver.source.fence == "" && j.driver.target.fence == ""
    ensures Advancing(j, before, Rounds(j, t, Prepare, n), core, c, 0)
  {
    var bounded := (u: System, left: nat) => Advancing(j, before, u, core, c, left);
    forall u, left: nat | bounded(u, left + 1) ensures bounded(Rounding(j, Prepare)(u), left) {
      PrepareRound(j, before, u, core, c, left);
    }
    Countdown(Rounding(j, Prepare), bounded, t, n, 0);
  }

  /** From every sealed, applying or verifying state of every run, one prepare
      call for each Service and five more have the target running, checked and
      still behind the gate; the releases must have Services and no fencing label
      of their own, or the gate refuses them. */
  lemma PreparationFinishes(j: Job, s: System, a: seq<Event>, core: Core) returns (b: seq<Event>)
    requires Initial(j, s) && Permitted(j.binding, core, Prepare)
    requires Run(j, s, a).row.Some? && Run(j, s, a).row.value.record.checkpoint.Some?
    requires Preparing(Run(j, s, a).row.value.record.phase)
    requires s.cluster.services != [] && j.driver.source.fence == "" && j.driver.target.fence == ""
    ensures Calls(b) == |s.cluster.services| + 5 && Willing(b, Prepare)
    ensures
      var u := Run(j, s, a + b);
      u.row.Some? && u.row.value.record == Run(j, s, a).row.value.record.(phase := Prepared)
  {
    RunKeepsInvariant(j, s, a);
    var n := |s.cluster.services| + 5;
    b := RoundsAreRuns(j, s, a, core, Prepare, n);
    var t := Run(j, s, a).(core := core);
    PrepareRounds(j, s.cluster, t, core, t.row.value.record.checkpoint.value, n);
  }
}
