/** Pod resource requests: the one-pass computation, and an independent reading
    of the Pod's lifecycle that it has to agree with. */
module Compute {
  import opened Wrappers

  datatype Resource = Gpu | PodSlots | Other(name: string)

  type Amounts = map<Resource, int>

  datatype Container = Container(name: string, requests: Amounts, sidecar: bool)

  datatype Status = Status(name: string, granted: Amounts, resized: Option<Amounts>)

  datatype Spec = Spec(
    containers: seq<Container>, inits: seq<Container>, statuses: seq<Status>, initStatuses: seq<Status>,
    podLevel: Option<Amounts>, overhead: Amounts)

  /** Reading a Go map: an absent resource reads as zero. */
  function Of(a: Amounts, r: Resource): int {
    if r in a then a[r] else 0
  }

  // ---- Adding and maximising resource lists ----

  function Sum(a: Amounts, b: Amounts): Amounts {
    map r | r in a.Keys + b.Keys :: Of(a, r) + Of(b, r)
  }

  function Max(a: Amounts, b: Amounts): Amounts {
    map r | r in a.Keys + b.Keys && (r in a || b[r] > 0) :: if r in b && b[r] > Of(a, r) then b[r] else Of(a, r)
  }

  lemma OfSum(a: Amounts, b: Amounts, r: Resource)
    ensures Of(Sum(a, b), r) == Of(a, r) + Of(b, r)
  {
  }

  lemma OfMax(a: Amounts, b: Amounts, r: Resource)
    requires Of(a, r) >= 0
    ensures Of(Max(a, b), r) == if Of(b, r) > Of(a, r) then Of(b, r) else Of(a, r)
  {
  }

  /** Part of a list is added: everything but the keys in `rest`. */
  ghost predicate Added(a: Amounts, dst: Amounts, src: Amounts, rest: set<Resource>) {
    && (forall r :: r in a <==> r in dst || (r in src && r !in rest))
    && (forall r :: r in a ==> a[r] == Of(dst, r) + (if r in rest then 0 else Of(src, r)))
  }

  lemma AddedAll(a: Amounts, dst: Amounts, src: Amounts)
    requires Added(a, dst, src, {})
    ensures a == Sum(dst, src)
  {
    assert a.Keys == Sum(dst, src).Keys;
  }

  lemma AddedOne(a: Amounts, dst: Amounts, src: Amounts, rest: set<Resource>, r: Resource)
    requires Added(a, dst, src, rest) && r in rest && r in src
    ensures Added(a[r := Of(a, r) + src[r]], dst, src, rest - {r})
  {
    assert Of(a, r) == Of(dst, r);
  }

  /** In-place addition, in whatever order the map is ranged over. */
  method SumResources(dst: Amounts, src: Amounts) returns (a: Amounts)
    ensures a == Sum(dst, src)
  {
    a := dst;
    var rest := src.Keys;
    while rest != {}
      invariant rest <= src.Keys && Added(a, dst, src, rest)
      decreases |rest|
    {
      var r :| r in rest;
      AddedOne(a, dst, src, rest, r);
      a := a[r := Of(a, r) + src[r]];
      rest := rest - {r};
    }
    AddedAll(a, dst, src);
  }

  method MaxResources(dst: Amounts, src: Amounts) returns (a: Amounts)
    ensures a == Max(dst, src)
  {
    a := dst;
    var rest := src.Keys;
    while rest != {}
      invariant rest <= src.Keys
      invariant forall r :: r in a <==> r in dst || (r in src && r !in rest && src[r] > 0)
      invariant forall r :: r in a ==>
                  a[r] == if r in src && r !in rest && src[r] > Of(dst, r) then src[r] else Of(dst, r)
      decreases |rest|
    {
      var r :| r in rest;
      if src[r] > Of(a, r) {
        a := a[r := src[r]];
      }
      rest := rest - {r};
    }
    assert a.Keys == Max(dst, src).Keys;
  }

  // ---- The one-pass computation ----

  function Raised(r: Amounts, s: Status): Amounts {
    var raised := Max(r, s.granted);
    if s.resized.Some? then Max(raised, s.resized.value) else raised
  }

  /** A container's request after its first `n` statuses, which may still hold
      resources kept during a resize. */
  function Effective(c: Container, statuses: seq<Status>, n: nat): Amounts
    requires n <= |statuses|
  {
    if n == 0 then c.requests
    else
      var before, s := Effective(c, statuses, n - 1), statuses[n - 1];
      if s.name == c.name then Raised(before, s) else before
  }

  function Total(cs: seq<Container>, statuses: seq<Status>, n: nat): Amounts
    requires n <= |cs|
  {
    if n == 0 then map[] else Sum(Total(cs, statuses, n - 1), Effective(cs[n - 1], statuses, |statuses|))
  }

  /** The three accumulators. */
  datatype Pass = Pass(total: Amounts, sidecars: Amounts, peak: Amounts)

  function PassOver(p: Pass, c: Container, r: Amounts): Pass {
    if c.sidecar then
      var sidecars := Sum(p.sidecars, r);
      Pass(Sum(p.total, r), sidecars, Max(p.peak, sidecars))
    else
      Pass(p.total, p.sidecars, Max(p.peak, Sum(r, p.sidecars)))
  }

  function Passed(p: Spec, n: nat): Pass
    requires n <= |p.inits|
  {
    if n == 0 then Pass(Total(p.containers, p.statuses, |p.containers|), map[], map[])
    else PassOver(Passed(p, n - 1), p.inits[n - 1], Effective(p.inits[n - 1], p.initStatuses, |p.initStatuses|))
  }

  function Combined(pass: Pass, podLevel: Option<Amounts>, overhead: Amounts): Amounts {
    var running := Max(pass.total, pass.peak);
    Sum(if podLevel.Some? then Max(running, podLevel.value) else running, overhead)
  }

  function Requests(p: Spec): Amounts {
    Combined(Passed(p, |p.inits|), p.podLevel, p.overhead)
  }

  method ContainerRequests(c: Container, statuses: seq<Status>) returns (r: Amounts)
    ensures r == Effective(c, statuses, |statuses|)
  {
    r := c.requests;
    for i := 0 to |statuses|
      invariant r == Effective(c, statuses, i)
    {
      if statuses[i].name == c.name {
        r := MaxResources(r, statuses[i].granted);
        if statuses[i].resized.Some? {
          r := MaxResources(r, statuses[i].resized.value);
        }
      }
    }
  }

  /** What one init container does to the accumulators. */
  method PassInit(p: Pass, c: Container, statuses: seq<Status>) returns (q: Pass)
    ensures q == PassOver(p, c, Effective(c, statuses, |statuses|))
  {
    var r := ContainerRequests(c, statuses);
    if c.sidecar {
      var sidecars := SumResources(p.sidecars, r);
      var total := SumResources(p.total, r);
      var peak := MaxResources(p.peak, sidecars);
      q := Pass(total, sidecars, peak);
    } else {
      r := SumResources(r, p.sidecars);
      var peak := MaxResources(p.peak, r);
      q := p.(peak := peak);
    }
  }

  method TotalRequests(cs: seq<Container>, statuses: seq<Status>) returns (total: Amounts)
    ensures total == Total(cs, statuses, |cs|)
  {
    total := map[];
    for i := 0 to |cs|
      invariant total == Total(cs, statuses, i)
    {
      var r := ContainerRequests(cs[i], statuses);
      total := SumResources(total, r);
    }
  }

  method PodRequests(p: Spec) returns (total: Amounts)
    ensures total == Requests(p)
  {
    total := TotalRequests(p.containers, p.statuses);
    var pass := Pass(total, map[], map[]);
    for i := 0 to |p.inits|
      invariant pass == Passed(p, i)
    {
      pass := PassInit(pass, p.inits[i], p.initStatuses);
    }
    total := MaxResources(pass.total, pass.peak);
    if p.podLevel.Some? {
      total := MaxResources(total, p.podLevel.value);
    }
    total := SumResources(total, p.overhead);
  }

  // ---- The lifecycle, independently ----

  predicate NonNegative(a: Amounts) {
    forall r :: r in a ==> a[r] >= 0
  }

  predicate NonNegativeSpec(p: Spec) {
    && (forall c :: c in p.containers ==> NonNegative(c.requests))
    && (forall c :: c in p.inits ==> NonNegative(c.requests))
    && (p.podLevel.Some? ==> NonNegative(p.podLevel.value)) && NonNegative(p.overhead)
  }

  /** What a container demands of one resource at any time: its request, or more
      where one of its statuses still holds more. */
  function Held(c: Container, statuses: seq<Status>, n: nat, r: Resource): int
    requires n <= |statuses|
  {
    if n == 0 then Of(c.requests, r)
    else
      var before, s := Held(c, statuses, n - 1, r), statuses[n - 1];
      if s.name != c.name then before
      else
        var held := if Of(s.granted, r) > before then Of(s.granted, r) else before;
        if s.resized.Some? && Of(s.resized.value, r) > held then Of(s.resized.value, r) else held
  }

  function Demand(cs: seq<Container>, statuses: seq<Status>, n: nat, r: Resource): int
    requires n <= |cs|
  {
    if n == 0 then 0 else Demand(cs, statuses, n - 1, r) + Held(cs[n - 1], statuses, |statuses|, r)
  }

  /** The sidecars among the first `n` init containers keep running. */
  function SidecarDemand(p: Spec, n: nat, r: Resource): int
    requires n <= |p.inits|
  {
    if n == 0 then 0
    else
      var last := p.inits[n - 1];
      SidecarDemand(p, n - 1, r) + if last.sidecar then Held(last, p.initStatuses, |p.initStatuses|, r) else 0
  }

  /** Init container `stage` runs beside the sidecars started before it; after
      the last one the containers run beside all sidecars. */
  function StageDemand(p: Spec, stage: nat, r: Resource): int
    requires stage <= |p.inits|
  {
    SidecarDemand(p, stage, r)
    + if stage < |p.inits| then Held(p.inits[stage], p.initStatuses, |p.initStatuses|, r)
      else Demand(p.containers, p.statuses, |p.containers|, r)
  }

  /** `n` bounds every stage of the lifecycle and the Pod-level request, and one
      of them reaches it. */
  ghost predicate IsPeak(p: Spec, r: Resource, n: int) {
    var podLevel := if p.podLevel.Some? then Of(p.podLevel.value, r) else 0;
    && (forall stage :: 0 <= stage <= |p.inits| ==> StageDemand(p, stage, r) <= n)
    && podLevel <= n
    && (n == podLevel || exists stage :: 0 <= stage <= |p.inits| && StageDemand(p, stage, r) == n)
  }

  // ---- They agree ----

  lemma {:induction false} EffectiveIsHeld(c: Container, statuses: seq<Status>, n: nat, r: Resource)
    requires n <= |statuses| && NonNegative(c.requests)
    ensures Of(Effective(c, statuses, n), r) == Held(c, statuses, n, r) >= 0
  {
    if n > 0 {
      EffectiveIsHeld(c, statuses, n - 1, r);
      var before, s := Effective(c, statuses, n - 1), statuses[n - 1];
      OfMax(before, s.granted, r);
      if s.resized.Some? {
        OfMax(Max(before, s.granted), s.resized.value, r);
      }
    }
  }

  lemma {:induction false} TotalIsDemand(cs: seq<Container>, statuses: seq<Status>, n: nat, r: Resource)
    requires n <= |cs| && forall c :: c in cs ==> NonNegative(c.requests)
    ensures Of(Total(cs, statuses, n), r) == Demand(cs, statuses, n, r) >= 0
  {
    if n > 0 {
      TotalIsDemand(cs, statuses, n - 1, r);
      EffectiveIsHeld(cs[n - 1], statuses, |statuses|, r);
      OfSum(Total(cs, statuses, n - 1), Effective(cs[n - 1], statuses, |statuses|), r);
    }
  }

  /** The highest demand of the first `n` stages. */
  function Highest(p: Spec, n: nat, r: Resource): int
    requires n <= |p.inits| + 1
  {
    if n == 0 then 0
    else
      var before, demand := Highest(p, n - 1, r), StageDemand(p, n - 1, r);
      if demand > before then demand else before
  }

  lemma {:induction false} HighestBounds(p: Spec, n: nat, r: Resource)
    requires n <= |p.inits| + 1
    ensures Highest(p, n, r) >= 0
    ensures forall stage :: 0 <= stage < n ==> StageDemand(p, stage, r) <= Highest(p, n, r)
    ensures Highest(p, n, r) == 0 || exists stage :: 0 <= stage < n && StageDemand(p, stage, r) == Highest(p, n, r)
  {
    if n > 0 {
      HighestBounds(p, n - 1, r);
    }
  }

  /** One more init container, for one resource. */
  lemma PassOverAt(p: Pass, c: Container, e: Amounts, r: Resource)
    requires Of(p.peak, r) >= 0
    ensures
      var now, held := PassOver(p, c, e), Of(e, r);
      var added, demand := if c.sidecar then held else 0, Of(p.sidecars, r) + held;
      && Of(now.sidecars, r) == Of(p.sidecars, r) + added
      && Of(now.total, r) == Of(p.total, r) + added
      && Of(now.peak, r) == if demand > Of(p.peak, r) then demand else Of(p.peak, r)
  {
    OfSum(p.sidecars, e, r);
    OfSum(e, p.sidecars, r);
    OfSum(p.total, e, r);
    OfMax(p.peak, Sum(p.sidecars, e), r);
    OfMax(p.peak, Sum(e, p.sidecars), r);
  }

  /** What the accumulators mean after the first `n` init containers. */
  ghost predicate AtStage(p: Spec, n: nat, r: Resource, pass: Pass)
    requires n <= |p.inits|
  {
    && Of(pass.sidecars, r) == SidecarDemand(p, n, r) >= 0
    && Of(pass.total, r) == Demand(p.containers, p.statuses, |p.containers|, r) + SidecarDemand(p, n, r)
    && Of(pass.peak, r) == Highest(p, n, r) >= 0
  }

  lemma StageStep(p: Spec, n: nat, r: Resource, pass: Pass, e: Amounts)
    requires 0 < n <= |p.inits| && AtStage(p, n - 1, r, pass)
    requires Of(e, r) == Held(p.inits[n - 1], p.initStatuses, |p.initStatuses|, r) >= 0
    ensures AtStage(p, n, r, PassOver(pass, p.inits[n - 1], e))
  {
    PassOverAt(pass, p.inits[n - 1], e, r);
  }

  lemma {:induction false} PassIsStages(p: Spec, n: nat, r: Resource)
    requires n <= |p.inits| && NonNegativeSpec(p)
    ensures AtStage(p, n, r, Passed(p, n))
  {
    if n == 0 {
      TotalIsDemand(p.containers, p.statuses, |p.containers|, r);
    } else {
      PassIsStages(p, n - 1, r);
      var c, statuses := p.inits[n - 1], p.initStatuses;
      EffectiveIsHeld(c, statuses, |statuses|, r);
      StageStep(p, n, r, Passed(p, n - 1), Effective(c, statuses, |statuses|));
    }
  }

  lemma CombinedAt(pass: Pass, podLevel: Option<Amounts>, overhead: Amounts, r: Resource)
    requires Of(pass.total, r) >= 0
    ensures
      var level := if podLevel.Some? then Of(podLevel.value, r) else 0;
      var running := if Of(pass.peak, r) > Of(pass.total, r) then Of(pass.peak, r) else Of(pass.total, r);
      Of(Combined(pass, podLevel, overhead), r) == Of(overhead, r) + (if level > running then level else running)
  {
    var running := Max(pass.total, pass.peak);
    OfMax(pass.total, pass.peak, r);
    if podLevel.Some? {
      OfMax(running, podLevel.value, r);
      OfSum(Max(running, podLevel.value), overhead, r);
    } else {
      OfSum(running, overhead, r);
    }
  }

  /** The one-pass result is, for every resource, the larger of the Pod-level
      request and the highest demand of any lifecycle stage, plus the overhead. */
  lemma RequestsArePeak(p: Spec, r: Resource)
    requires NonNegativeSpec(p)
    ensures IsPeak(p, r, Of(Requests(p), r) - Of(p.overhead, r))
  {
    var n := |p.inits|;
    PassIsStages(p, n, r);
    TotalIsDemand(p.containers, p.statuses, |p.containers|, r);
    HighestBounds(p, n + 1, r);
    assert StageDemand(p, n, r) == Of(Passed(p, n).total, r);
    CombinedAt(Passed(p, n), p.podLevel, p.overhead, r);
    assert Of(Requests(p), r) - Of(p.overhead, r) >= Highest(p, n + 1, r);
  }

  /** There is only one such number, so the lemma above determines the result. */
  lemma PeakIsUnique(p: Spec, r: Resource, m: int, n: int)
    requires IsPeak(p, r, m) && IsPeak(p, r, n)
    ensures m == n
  {
  }
}
