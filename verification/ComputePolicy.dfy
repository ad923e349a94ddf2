/** The station policy that strips CPU and memory declarations from a Pod. */
module ComputePolicy {
  import opened Wrappers

  datatype Resource = Cpu | Memory | Other(name: string)

  /** Go's nil and empty resource lists both read as the empty map. */
  type Amounts = map<Resource, int>

  datatype Requirements = Requirements(requests: Amounts, limits: Amounts, claims: seq<string>)

  /** `rest` is everything about a container but its resources. */
  datatype Container = Container(rest: string, resources: Requirements)

  datatype PodSpec = PodSpec(
    containers: seq<Container>, inits: seq<Container>, ephemerals: seq<Container>, resources: Option<Requirements>,
    rest: string)

  predicate Restricts(r: Requirements) {
    Cpu in r.requests || Memory in r.requests || Cpu in r.limits || Memory in r.limits
  }

  predicate AnyRestricts(cs: seq<Container>) {
    exists i :: 0 <= i < |cs| && Restricts(cs[i].resources)
  }

  predicate IsDeclared(p: PodSpec) {
    AnyRestricts(p.containers) || AnyRestricts(p.inits) || AnyRestricts(p.ephemerals)
    || (p.resources.Some? && Restricts(p.resources.value))
  }

  function Stripped(r: Requirements): Requirements {
    r.(requests := r.requests - {Cpu, Memory}, limits := r.limits - {Cpu, Memory})
  }

  function StrippedAll(cs: seq<Container>): seq<Container> {
    seq(|cs|, i requires 0 <= i < |cs| => cs[i].(resources := Stripped(cs[i].resources)))
  }

  function StrippedPod(r: Option<Requirements>): Option<Requirements> {
    if r.None? then None
    else
      var s := Stripped(r.value);
      if s.requests == map[] && s.limits == map[] && s.claims == [] then None else Some(s)
  }

  function Applied(enabled: bool, p: PodSpec): PodSpec {
    if !enabled then p
    else
      p.(containers := StrippedAll(p.containers), inits := StrippedAll(p.inits),
         ephemerals := StrippedAll(p.ephemerals), resources := StrippedPod(p.resources))
  }

  // ---- The scans and edits of the source ----

  method ScanGroup(cs: seq<Container>) returns (found: bool)
    ensures found == AnyRestricts(cs)
  {
    for i := 0 to |cs|
      invariant forall j :: 0 <= j < i ==> !Restricts(cs[j].resources)
    {
      if Restricts(cs[i].resources) {
        return true;
      }
    }
    found := false;
  }

  method Declared(p: PodSpec) returns (found: bool)
    ensures found == IsDeclared(p)
  {
    found := ScanGroup(p.containers);
    if !found {
      found := ScanGroup(p.inits);
    }
    if !found {
      found := ScanGroup(p.ephemerals);
    }
    if !found {
      found := p.resources.Some? && Restricts(p.resources.value);
    }
  }

  method StripGroup(cs: seq<Container>) returns (out: seq<Container>)
    ensures out == StrippedAll(cs)
  {
    out := cs;
    for i := 0 to |cs|
      invariant |out| == |cs|
      invariant forall j :: 0 <= j < i ==> out[j] == StrippedAll(cs)[j]
      invariant forall j :: i <= j < |cs| ==> out[j] == cs[j]
    {
      var r := out[i].resources;
      r := r.(requests := r.requests - {Cpu} - {Memory});
      r := r.(limits := r.limits - {Cpu} - {Memory});
      assert r.requests == out[i].resources.requests - {Cpu, Memory}
             && r.limits == out[i].resources.limits - {Cpu, Memory};
      out := out[i := out[i].(resources := r)];
    }
  }

  method Apply(enabled: bool, spec: PodSpec) returns (p: PodSpec)
    ensures p == Applied(enabled, spec)
  {
    p := spec;
    if !enabled {
      return;
    }
    var containers := StripGroup(p.containers);
    var inits := StripGroup(p.inits);
    var ephemerals := StripGroup(p.ephemerals);
    p := p.(containers := containers, inits := inits, ephemerals := ephemerals);
    if p.resources.Some? {
      var r := p.resources.value;
      r := r.(requests := r.requests - {Cpu, Memory}, limits := r.limits - {Cpu, Memory});
      p := p.(resources := if r.requests == map[] && r.limits == map[] && r.claims == [] then None else Some(r));
    }
  }

  // ---- What the policy does ----

  /** Same list but for CPU and memory. */
  ghost predicate KeepsOthers(was: Amounts, now: Amounts) {
    forall r: Resource :: r.Other? ==> (r in now <==> r in was) && (r in now ==> now[r] == was[r])
  }

  ghost predicate GroupKept(was: seq<Container>, now: seq<Container>) {
    && |now| == |was|
    && forall i :: 0 <= i < |was| ==>
         && now[i].rest == was[i].rest && now[i].resources.claims == was[i].resources.claims
         && KeepsOthers(was[i].resources.requests, now[i].resources.requests)
         && KeepsOthers(was[i].resources.limits, now[i].resources.limits)
  }

  lemma StrippedTwice(r: Requirements)
    ensures Stripped(Stripped(r)) == Stripped(r)
  {
    var s := Stripped(r);
    assert s.requests - {Cpu, Memory} == s.requests && s.limits - {Cpu, Memory} == s.limits;
  }

  lemma GroupTwice(cs: seq<Container>)
    ensures StrippedAll(StrippedAll(cs)) == StrippedAll(cs)
  {
    forall i | 0 <= i < |cs| ensures StrippedAll(StrippedAll(cs))[i] == StrippedAll(cs)[i] {
      StrippedTwice(cs[i].resources);
    }
  }

  /** Applying the enabled policy again changes nothing, leaves no CPU or memory
      declaration anywhere, and keeps every other entry, every claim and the
      rest of every container. */
  lemma PolicyIsIdempotent(p: PodSpec)
    ensures Applied(true, Applied(true, p)) == Applied(true, p)
    ensures !IsDeclared(Applied(true, p))
    ensures
      var q := Applied(true, p);
      && GroupKept(p.containers, q.containers) && GroupKept(p.inits, q.inits) && GroupKept(p.ephemerals, q.ephemerals)
      && q.rest == p.rest
      && (q.resources.Some? ==> p.resources.Some?)
      && (p.resources.Some? ==>
            var now := if q.resources.Some? then q.resources.value else Requirements(map[], map[], []);
            && now.claims == p.resources.value.claims
            && KeepsOthers(p.resources.value.requests, now.requests)
            && KeepsOthers(p.resources.value.limits, now.limits))
  {
    GroupTwice(p.containers);
    GroupTwice(p.inits);
    GroupTwice(p.ephemerals);
    if p.resources.Some? {
      PodLevelKept(p.resources.value);
      StrippedTwice(p.resources.value);
    }
  }

  lemma PodLevelKept(r: Requirements)
    ensures KeepsOthers(r.requests, Stripped(r).requests) && KeepsOthers(r.limits, Stripped(r).limits)
    ensures StrippedPod(Some(r)).None? ==> Stripped(r) == Requirements(map[], map[], [])
  {
  }

  /** A Pod the policy leaves alone is exactly one that declares neither, up to a
      Pod-level block that is empty. */
  lemma UndeclaredIsUntouched(p: PodSpec)
    ensures Applied(true, p) == p <==>
              !IsDeclared(p) && p.resources != Some(Requirements(map[], map[], []))
  {
    if !IsDeclared(p) {
      forall cs | cs == p.containers || cs == p.inits || cs == p.ephemerals ensures StrippedAll(cs) == cs {
        UndeclaredGroup(cs);
      }
      if p.resources.Some? {
        UndeclaredStays(p.resources.value);
      }
    } else if Applied(true, p) == p {
      PolicyIsIdempotent(p);
      assert false;
    }
  }

  lemma UndeclaredStays(r: Requirements)
    requires !Restricts(r)
    ensures Stripped(r) == r
  {
    assert r.requests - {Cpu, Memory} == r.requests && r.limits - {Cpu, Memory} == r.limits;
  }

  lemma UndeclaredGroup(cs: seq<Container>)
    requires !AnyRestricts(cs)
    ensures StrippedAll(cs) == cs
  {
    forall i | 0 <= i < |cs| ensures StrippedAll(cs)[i] == cs[i] {
      UndeclaredStays(cs[i].resources);
    }
  }
}
