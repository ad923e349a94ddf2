/** The GPU worker's preflight on one node, and what it guarantees over every
    run in which Pods that can land there are only created behind it. */
module NodeAdmission {
  import opened Wrappers
  import opened Compute

  datatype Health = Ready | MemoryPressure | DiskPressure | PidPressure | OtherCondition

  datatype State = True | False | Unknown

  datatype Condition = Condition(kind: Health, state: State)

  datatype Taint = NoSchedule | NoExecute | PreferNoSchedule

  type Labels = map<string, string>

  /** `named` says the hostname label is the node's own name; `gpuVerified` that
      the GPU sharing mode is proved by labels. */
  datatype Node = Node(
    name: string, present: bool, deleting: bool, unschedulable: bool, named: bool, conditions: seq<Condition>,
    taints: seq<Taint>, gpuVerified: bool, labels: Labels, allocatable: Amounts)

  /** `node` is empty while the Pod is unscheduled. */
  datatype Pod = Pod(name: string, finished: bool, node: string, selector: Labels, spec: Spec)

  datatype Admission = Admitted | NoCapacity | Unverified

  predicate Selects(selector: Labels, labels: Labels) {
    forall k :: k in selector ==> k in labels && labels[k] == selector[k]
  }

  /** A Pod that holds, or may still take, room on the node. */
  predicate Counted(node: Node, p: Pod) {
    !p.finished && if p.node == "" then Selects(p.selector, node.labels) else p.node == node.name
  }

  predicate Pressing(c: Condition) {
    (c.kind.MemoryPressure? || c.kind.DiskPressure? || c.kind.PidPressure?) && !c.state.False?
  }

  /** The last ready condition decides. */
  function IsReady(conditions: seq<Condition>, n: nat): bool
    requires n <= |conditions|
  {
    if n == 0 then false
    else if conditions[n - 1].kind.Ready? then conditions[n - 1].state.True?
    else IsReady(conditions, n - 1)
  }

  predicate Eligible(node: Node) {
    && node.present && !node.deleting && !node.unschedulable && node.named
    && (forall c :: c in node.conditions ==> !Pressing(c))
    && IsReady(node.conditions, |node.conditions|)
    && (forall t :: t in node.taints ==> t.PreferNoSchedule?)
  }

  function Used(node: Node, pods: seq<Pod>, n: nat): Amounts
    requires n <= |pods|
  {
    if n == 0 then map[]
    else if Counted(node, pods[n - 1]) then Sum(Used(node, pods, n - 1), Requests(pods[n - 1].spec))
    else Used(node, pods, n - 1)
  }

  function Slots(node: Node, pods: seq<Pod>, n: nat): nat
    requires n <= |pods|
  {
    if n == 0 then 0 else Slots(node, pods, n - 1) + if Counted(node, pods[n - 1]) then 1 else 0
  }

  function Fits(node: Node, r: Resource, amount: int): Admission {
    if r !in node.allocatable || node.allocatable[r] < 0 then Unverified
    else if node.allocatable[r] < amount then NoCapacity
    else Admitted
  }

  /** The two wanted resources are ranged over in either order. */
  function Admit(node: Node, pods: seq<Pod>, slotsFirst: bool): Admission {
    if !Eligible(node) then NoCapacity
    else if !node.gpuVerified then Unverified
    else
      var gpu := Fits(node, Gpu, 1 + Of(Used(node, pods, |pods|), Gpu));
      var slots := Fits(node, PodSlots, Slots(node, pods, |pods|) + 1);
      if slotsFirst then (if slots.Admitted? then gpu else slots)
      else (if gpu.Admitted? then slots else gpu)
  }

  method AdmitWorker(node: Node, pods: seq<Pod>, slotsFirst: bool) returns (a: Admission)
    ensures a == Admit(node, pods, slotsFirst)
  {
    if !node.present || node.deleting || node.unschedulable || !node.named {
      return NoCapacity;
    }
    var ready := false;
    for i := 0 to |node.conditions|
      invariant ready == IsReady(node.conditions, i)
      invariant forall j :: 0 <= j < i ==> !Pressing(node.conditions[j])
    {
      if node.conditions[i].kind.Ready? {
        ready := node.conditions[i].state.True?;
      }
      if Pressing(node.conditions[i]) {
        return NoCapacity;
      }
    }
    if !ready {
      return NoCapacity;
    }
    for i := 0 to |node.taints|
      invariant forall j :: 0 <= j < i ==> node.taints[j].PreferNoSchedule?
    {
      if !node.taints[i].PreferNoSchedule? {
        return NoCapacity;
      }
    }
    if !node.gpuVerified {
      return Unverified;
    }
    var used: Amounts, count := map[], 1;
    for i := 0 to |pods|
      invariant used == Used(node, pods, i) && count == Slots(node, pods, i) + 1
    {
      if pods[i].finished {
        continue;
      }
      if pods[i].node != "" && pods[i].node != node.name {
        continue;
      }
      if pods[i].node == "" && !Selects(pods[i].selector, node.labels) {
        continue;
      }
      var r := PodRequests(pods[i].spec);
      used := SumResources(used, r);
      count := count + 1;
    }
    var gpu := Fits(node, Gpu, 1 + Of(used, Gpu));
    var slots := Fits(node, PodSlots, count);
    if slotsFirst {
      a := if slots.Admitted? then gpu else slots;
    } else {
      a := if gpu.Admitted? then slots else gpu;
    }
  }

  // ---- Load ----

  function Weight(node: Node, p: Pod, r: Resource): int {
    if !Counted(node, p) then 0 else if r.PodSlots? then 1 else Of(Requests(p.spec), r)
  }

  /** What the counted Pods hold of one resource; slots count as one each. */
  function Load(node: Node, pods: seq<Pod>, r: Resource): int {
    if pods == [] then 0 else Load(node, pods[..|pods| - 1], r) + Weight(node, pods[|pods| - 1], r)
  }

  lemma {:induction false} LoadJoins(node: Node, a: seq<Pod>, b: seq<Pod>, r: Resource)
    ensures Load(node, a + b, r) == Load(node, a, r) + Load(node, b, r)
  {
    if b == [] {
      assert a + b == a;
    } else {
      assert (a + b)[..|a + b| - 1] == a + b[..|b| - 1];
      LoadJoins(node, a, b[..|b| - 1], r);
    }
  }

  /** Replacing one Pod by others changes the load by their weights alone. */
  lemma LoadReplaced(node: Node, pods: seq<Pod>, i: nat, now: seq<Pod>, r: Resource)
    requires i < |pods|
    ensures
      Load(node, pods[..i] + now + pods[i + 1..], r)
      == Load(node, pods, r) - Weight(node, pods[i], r) + Load(node, now, r)
  {
    var one := [pods[i]];
    assert pods == pods[..i] + one + pods[i + 1..];
    LoadJoins(node, pods[..i], now, r);
    LoadJoins(node, pods[..i] + now, pods[i + 1..], r);
    LoadJoins(node, pods[..i], one, r);
    LoadJoins(node, pods[..i] + one, pods[i + 1..], r);
    assert one[..0] == [];
    assert Load(node, one, r) == Weight(node, pods[i], r);
  }

  lemma AppendedLoad(node: Node, pods: seq<Pod>, p: Pod, r: Resource)
    ensures Load(node, pods + [p], r) == Load(node, pods, r) + Weight(node, p, r)
  {
    assert (pods + [p])[..|pods|] == pods;
  }

  lemma UsedGrows(node: Node, pods: seq<Pod>, n: nat)
    requires 0 < n <= |pods|
    ensures Of(Used(node, pods, n), Gpu) == Of(Used(node, pods, n - 1), Gpu) + Weight(node, pods[n - 1], Gpu)
    ensures Slots(node, pods, n) == Slots(node, pods, n - 1) + Weight(node, pods[n - 1], PodSlots)
  {
    OfSum(Used(node, pods, n - 1), Requests(pods[n - 1].spec), Gpu);
  }

  lemma PrefixLoad(node: Node, pods: seq<Pod>, n: nat, r: Resource)
    requires 0 < n <= |pods|
    ensures Load(node, pods[..n], r) == Load(node, pods[..n - 1], r) + Weight(node, pods[n - 1], r)
  {
    assert pods[..n] == pods[..n - 1] + [pods[n - 1]];
    AppendedLoad(node, pods[..n - 1], pods[n - 1], r);
  }

  lemma {:induction false} UsedIsLoad(node: Node, pods: seq<Pod>, n: nat)
    requires n <= |pods|
    ensures Of(Used(node, pods, n), Gpu) == Load(node, pods[..n], Gpu)
    ensures Slots(node, pods, n) == Load(node, pods[..n], PodSlots)
  {
    if n == 0 {
      assert pods[..n] == [];
    } else {
      UsedIsLoad(node, pods, n - 1);
      UsedGrows(node, pods, n);
      PrefixLoad(node, pods, n, Gpu);
      PrefixLoad(node, pods, n, PodSlots);
    }
  }

  lemma RequestsNonNegative(p: Spec, r: Resource)
    requires NonNegativeSpec(p)
    ensures Of(Requests(p), r) >= 0
  {
    RequestsArePeak(p, r);
  }

  // ---- Runs ----

  const WORKER := Spec([Container("blender", map[Gpu := 1], false)], [], [], [], None, map[])

  lemma WorkerTakesOne()
    ensures Of(Requests(WORKER), Gpu) == 1 && NonNegativeSpec(WORKER)
  {
    var c := WORKER.containers[0];
    PassIsStages(WORKER, 0, Gpu);
    assert Demand(WORKER.containers, [], 1, Gpu) == Demand(WORKER.containers, [], 0, Gpu) + Held(c, [], 0, Gpu);
    CombinedAt(Passed(WORKER, 0), None, map[], Gpu);
  }

  datatype Event =
    /** A worker call under the node lock; a call whose create answer was lost is
        replayed under the same name. */
    | Launch(name: string, selector: Labels, slotsFirst: bool)
    | Bound(pod: nat, host: string)
    | Finished(pod: nat)
    | Removed(pod: nat)
    | Resized(pod: nat, spec: Spec)
    /** A Pod created outside the lock, allowed only where it cannot land here. */
    | Elsewhere(other: Pod)
    | NodeChanged(now: Node)

  datatype System = System(node: Node, pods: seq<Pod>)

  predicate Named(pods: seq<Pod>, name: string) {
    exists p :: p in pods && p.name == name
  }

  /** The node may change its health at will, but loses no room and no label. */
  predicate NotWorse(was: Node, now: Node) {
    && now.name == was.name && now.labels == was.labels
    && Of(was.allocatable, Gpu) <= Of(now.allocatable, Gpu)
    && Of(was.allocatable, PodSlots) <= Of(now.allocatable, PodSlots)
  }

  function Put(pods: seq<Pod>, i: nat, now: seq<Pod>): seq<Pod>
    requires i < |pods|
  {
    pods[..i] + now + pods[i + 1..]
  }

  function Step(s: System, e: Event): System {
    match e
    case Launch(name, selector, slotsFirst) =>
      if Named(s.pods, name) || !Admit(s.node, s.pods, slotsFirst).Admitted? then s
      else s.(pods := s.pods + [Pod(name, false, "", selector, WORKER)])
    case Bound(i, node) =>
      if i < |s.pods| && s.pods[i].node == "" && node != ""
         && (node == s.node.name ==> Selects(s.pods[i].selector, s.node.labels)) then
        s.(pods := Put(s.pods, i, [s.pods[i].(node := node)]))
      else s
    case Finished(i) => if i < |s.pods| then s.(pods := Put(s.pods, i, [s.pods[i].(finished := true)])) else s
    case Removed(i) => if i < |s.pods| then s.(pods := Put(s.pods, i, [])) else s
    case Resized(i, spec) =>
      if i < |s.pods| && NonNegativeSpec(spec) && Of(Requests(spec), Gpu) <= Of(Requests(s.pods[i].spec), Gpu) then
        s.(pods := Put(s.pods, i, [s.pods[i].(spec := spec)]))
      else s
    case Elsewhere(p) => if Counted(s.node, p) || !NonNegativeSpec(p.spec) then s else s.(pods := s.pods + [p])
    case NodeChanged(node) => if NotWorse(s.node, node) then s.(node := node) else s
  }

  function Run(s: System, events: seq<Event>): System {
    if events == [] then s else Step(Run(s, events[..|events| - 1]), events[|events| - 1])
  }

  /** Live and matching pending Pods fit into what the node can allocate. */
  ghost predicate WithinCapacity(s: System) {
    && (forall p :: p in s.pods ==> NonNegativeSpec(p.spec))
    && Load(s.node, s.pods, Gpu) <= Of(s.node.allocatable, Gpu)
    && Load(s.node, s.pods, PodSlots) <= Of(s.node.allocatable, PodSlots)
  }

  lemma {:induction false} LoadFollowsLabels(was: Node, now: Node, pods: seq<Pod>, r: Resource)
    requires now.name == was.name && now.labels == was.labels
    ensures Load(now, pods, r) == Load(was, pods, r)
  {
    if pods != [] {
      LoadFollowsLabels(was, now, pods[..|pods| - 1], r);
    }
  }

  /** A Pod replaced by nothing heavier keeps the node within capacity. */
  lemma LighterKeeps(s: System, i: nat, now: seq<Pod>)
    requires WithinCapacity(s) && i < |s.pods| && |now| <= 1
    requires forall p :: p in now ==> NonNegativeSpec(p.spec)
    requires forall p :: p in now ==> Weight(s.node, p, Gpu) <= Weight(s.node, s.pods[i], Gpu)
    requires forall p :: p in now ==> Weight(s.node, p, PodSlots) <= Weight(s.node, s.pods[i], PodSlots)
    ensures WithinCapacity(s.(pods := Put(s.pods, i, now)))
  {
    LoadReplaced(s.node, s.pods, i, now, Gpu);
    LoadReplaced(s.node, s.pods, i, now, PodSlots);
    RequestsNonNegative(s.pods[i].spec, Gpu);
    if now != [] {
      assert now == [now[0]] && now[..0] == [];
      assert now[0] in now;
    }
    forall p | p in Put(s.pods, i, now) ensures NonNegativeSpec(p.spec) {
      assert p in s.pods || p in now;
    }
  }

  lemma AdmittedHasRoom(node: Node, pods: seq<Pod>, slotsFirst: bool)
    requires Admit(node, pods, slotsFirst).Admitted?
    ensures Load(node, pods, Gpu) + 1 <= Of(node.allocatable, Gpu)
    ensures Load(node, pods, PodSlots) + 1 <= Of(node.allocatable, PodSlots)
  {
    UsedIsLoad(node, pods, |pods|);
    assert pods[..|pods|] == pods;
  }

  lemma AdmittedKeeps(s: System, p: Pod)
    requires WithinCapacity(s) && NonNegativeSpec(p.spec) && Of(Requests(p.spec), Gpu) <= 1
    requires Load(s.node, s.pods, Gpu) + 1 <= Of(s.node.allocatable, Gpu)
    requires Load(s.node, s.pods, PodSlots) + 1 <= Of(s.node.allocatable, PodSlots)
    ensures WithinCapacity(s.(pods := s.pods + [p]))
  {
    AppendedLoad(s.node, s.pods, p, Gpu);
    AppendedLoad(s.node, s.pods, p, PodSlots);
  }

  lemma LaunchKeeps(s: System, name: string, selector: Labels, slotsFirst: bool)
    requires WithinCapacity(s)
    ensures WithinCapacity(Step(s, Launch(name, selector, slotsFirst)))
  {
    if Admit(s.node, s.pods, slotsFirst).Admitted? {
      WorkerTakesOne();
      AdmittedHasRoom(s.node, s.pods, slotsFirst);
      AdmittedKeeps(s, Pod(name, false, "", selector, WORKER));
    }
  }

  lemma ElsewhereKeeps(s: System, p: Pod)
    requires WithinCapacity(s) && !Counted(s.node, p) && NonNegativeSpec(p.spec)
    ensures WithinCapacity(s.(pods := s.pods + [p]))
  {
    AppendedLoad(s.node, s.pods, p, Gpu);
    AppendedLoad(s.node, s.pods, p, PodSlots);
  }

  lemma NodeChangeKeeps(s: System, node: Node)
    requires WithinCapacity(s) && NotWorse(s.node, node)
    ensures WithinCapacity(s.(node := node))
  {
    LoadFollowsLabels(s.node, node, s.pods, Gpu);
    LoadFollowsLabels(s.node, node, s.pods, PodSlots);
  }

  lemma StepKeeps(s: System, e: Event)
    requires WithinCapacity(s)
    ensures WithinCapacity(Step(s, e))
  {
    if Step(s, e) != s {
      match e {
        case Launch(name, selector, slotsFirst) => LaunchKeeps(s, name, selector, slotsFirst);
        case Elsewhere(p) => ElsewhereKeeps(s, p);
        case NodeChanged(node) => NodeChangeKeeps(s, node);
        case Removed(i) => LighterKeeps(s, i, []);
        case Bound(i, node) => ChangeKeeps(s, i, s.pods[i].(node := node));
        case Finished(i) => ChangeKeeps(s, i, s.pods[i].(finished := true));
        case Resized(i, spec) => ChangeKeeps(s, i, s.pods[i].(spec := spec));
      }
    }
  }

  lemma ChangeKeeps(s: System, i: nat, now: Pod)
    requires WithinCapacity(s) && i < |s.pods| && NonNegativeSpec(now.spec)
    requires Counted(s.node, now) ==> Counted(s.node, s.pods[i])
    requires Of(Requests(now.spec), Gpu) <= Of(Requests(s.pods[i].spec), Gpu)
    ensures WithinCapacity(s.(pods := Put(s.pods, i, [now])))
  {
    RequestsNonNegative(s.pods[i].spec, Gpu);
    LighterKeeps(s, i, [now]);
  }

  /** Over every run, with lost answers, replays, unscheduled competitors and a
      node that changes its health, the GPU requests and the number of live or
      matching pending Pods never exceed what the node can allocate. */
  lemma {:induction false} NodeNeverOvercommitted(s: System, events: seq<Event>)
    requires WithinCapacity(s)
    ensures WithinCapacity(Run(s, events))
  {
    if events != [] {
      NodeNeverOvercommitted(s, events[..|events| - 1]);
      StepKeeps(Run(s, events[..|events| - 1]), events[|events| - 1]);
    }
  }
}
