/** Two recursive comparators over JSON trees: `declaredSubset`, which wants
    every declared field and exact lists, and `specifiedFieldsEqual`, which also
    pairs list elements by name. */
module TemplateComparison {
  import opened Wrappers

  /** Field names: those some code of the comparison names, and all others. */
  datatype Field =
    | Name
    | Replicas | RevisionHistoryLimit | ProgressDeadlineSeconds
    | Strategy | Type | RollingUpdate | MaxUnavailable | MaxSurge
    | Template | Metadata | Annotations | PodSpec
    | RestartPolicy | TerminationGracePeriodSeconds | DnsPolicy | ServiceAccountName | ServiceAccount
    | SchedulerName | SecurityContext | EnableServiceLinks | PreemptionPolicy
    | Containers | InitContainers | Volumes
    | TerminationMessagePath | TerminationMessagePolicy | Ports | Protocol | Env
    | LivenessProbe | ReadinessProbe | StartupProbe
    | TimeoutSeconds | PeriodSeconds | SuccessThreshold | FailureThreshold | HttpGet | Scheme
    | ValueFrom | FieldRef | ApiVersion
    | SecretSource | ConfigMapSource | DownwardApi | Projected | DefaultMode
    | Other(name: string)

  type Fields = map<Field, Json>

  datatype Json = Null | Bool(b: bool) | Num(n: int) | Str(s: string) | Arr(items: seq<Json>) | Obj(fields: Fields)

  /** Indexing a Go map: a missing key gives nil, which is JSON's null. */
  function Get(m: Fields, k: Field): Json {
    if k in m then m[k] else Null
  }

  predicate DeclaredSubset(want: Json, live: Json) {
    match want
    case Obj(fields) => live.Obj? && forall k :: k in fields ==> DeclaredSubset(fields[k], Get(live.fields, k))
    case Arr(items) =>
      live.Arr? && |items| == |live.items| && forall i :: 0 <= i < |items| ==> DeclaredSubset(items[i], live.items[i])
    case _ => want == live
  }

  // ---- A preorder, but for nulls ----

  lemma {:induction false} SubsetReflexive(w: Json)
    ensures DeclaredSubset(w, w)
  {
    match w
    case Obj(fields) =>
      forall k | k in fields ensures DeclaredSubset(fields[k], fields[k]) {
        SubsetReflexive(fields[k]);
      }
    case Arr(items) =>
      forall i | 0 <= i < |items| ensures DeclaredSubset(items[i], items[i]) {
        SubsetReflexive(items[i]);
      }
    case _ =>
  }

  /** No field anywhere is declared as null. */
  predicate NullFree(w: Json) {
    match w
    case Obj(fields) => forall k :: k in fields ==> fields[k] != Null && NullFree(fields[k])
    case Arr(items) => forall i :: 0 <= i < |items| ==> NullFree(items[i])
    case _ => true
  }

  lemma {:induction false} SubsetTransitive(w: Json, l: Json, m: Json)
    requires NullFree(w) && DeclaredSubset(w, l) && DeclaredSubset(l, m)
    ensures DeclaredSubset(w, m)
  {
    match w
    case Obj(fields) =>
      forall k | k in fields ensures DeclaredSubset(fields[k], Get(m.fields, k)) {
        assert DeclaredSubset(fields[k], Get(l.fields, k));
        assert k in l.fields;
        SubsetTransitive(fields[k], Get(l.fields, k), Get(m.fields, k));
      }
    case Arr(items) =>
      forall i | 0 <= i < |items| ensures DeclaredSubset(items[i], m.items[i]) {
        SubsetTransitive(items[i], l.items[i], m.items[i]);
      }
    case _ =>
  }

  /** Null fields left out, at every depth. */
  function Stripped(w: Json): Json {
    match w
    case Obj(fields) => Obj(map k | k in fields && fields[k] != Null :: Stripped(fields[k]))
    case Arr(items) => Arr(seq(|items|, i requires 0 <= i < |items| => Stripped(items[i])))
    case _ => w
  }

  /** Null fields set to something, at every depth. */
  function Filled(w: Json): Json {
    match w
    case Obj(fields) => Obj(map k | k in fields :: if fields[k] == Null then Bool(true) else Filled(fields[k]))
    case Arr(items) => Arr(seq(|items|, i requires 0 <= i < |items| => Filled(items[i])))
    case _ => w
  }

  lemma {:induction false} StrippedBetween(w: Json)
    ensures DeclaredSubset(w, Stripped(w)) && DeclaredSubset(Stripped(w), Filled(w))
    ensures DeclaredSubset(w, Filled(w)) ==> NullFree(w)
  {
    match w
    case Obj(fields) =>
      forall k | k in fields
        ensures fields[k] != Null ==> DeclaredSubset(Stripped(fields[k]), Filled(fields[k]))
        ensures DeclaredSubset(fields[k], Get(Stripped(w).fields, k))
        ensures DeclaredSubset(fields[k], Get(Filled(w).fields, k)) ==> fields[k] != Null && NullFree(fields[k])
      {
        StrippedBetween(fields[k]);
      }
    case Arr(items) =>
      forall i | 0 <= i < |items|
        ensures DeclaredSubset(items[i], Stripped(items[i])) && DeclaredSubset(Stripped(items[i]), Filled(items[i]))
        ensures DeclaredSubset(items[i], Filled(items[i])) ==> NullFree(items[i])
      {
        StrippedBetween(items[i]);
      }
    case _ =>
  }

  predicate CarriedAlong(w: Json, l: Json, m: Json) {
    DeclaredSubset(w, l) && DeclaredSubset(l, m) ==> DeclaredSubset(w, m)
  }

  /** A declaration is carried along every chain of comparisons exactly when it
      declares no field as null. */
  lemma TransitiveIffNullFree(w: Json)
    ensures NullFree(w) <==> forall l, m :: CarriedAlong(w, l, m)
  {
    if NullFree(w) {
      forall l, m ensures CarriedAlong(w, l, m) {
        if DeclaredSubset(w, l) && DeclaredSubset(l, m) {
          SubsetTransitive(w, l, m);
        }
      }
    }
    if forall l, m :: CarriedAlong(w, l, m) {
      StrippedBetween(w);
      assert CarriedAlong(w, Stripped(w), Filled(w));
    }
  }

  /** The smallest broken chain. */
  lemma NullBreaksTransitivity()
    ensures
      var w, l, m := Obj(map[Name := Null]), Obj(map[]), Obj(map[Name := Bool(true)]);
      DeclaredSubset(w, l) && DeclaredSubset(l, m) && !DeclaredSubset(w, m)
  {
    var w, m := Obj(map[Name := Null]), Obj(map[Name := Bool(true)]);
    assert Name in w.fields && w.fields[Name] == Null && Get(m.fields, Name) == Bool(true);
    assert !DeclaredSubset(Null, Bool(true));
  }

  // ---- Pairing list elements by name ----

  predicate Named(j: Json) {
    j.Obj? && Get(j.fields, Name).Str?
  }

  /** The first element from `i` on that carries this very name. */
  function FindNamed(items: seq<Json>, name: Json, i: nat): (r: Option<nat>)
    requires i <= |items|
    ensures r.Some? ==> i <= r.value < |items| && items[r.value].Obj? && Get(items[r.value].fields, Name) == name
    ensures r.Some? ==> forall j :: i <= j < r.value ==> !(items[j].Obj? && Get(items[j].fields, Name) == name)
    ensures r.None? ==> forall j :: i <= j < |items| ==> !(items[j].Obj? && Get(items[j].fields, Name) == name)
    decreases |items| - i
  {
    if i == |items| then None
    else if items[i].Obj? && Get(items[i].fields, Name) == name then Some(i)
    else FindNamed(items, name, i + 1)
  }

  /** The live element a wanted one is compared with, if there is one. */
  function Partner(want: Json, actual: seq<Json>, i: nat): (r: Option<nat>)
    ensures r.Some? ==> r.value < |actual|
  {
    var found := if Named(want) then FindNamed(actual, Get(want.fields, Name), 0) else None;
    if found.Some? then found
    else if i < |actual| then Some(i)
    else None
  }

  predicate SpecifiedEqual(want: Json, have: Json) {
    match want
    case Obj(fields) => have.Obj? && forall k :: k in fields ==> SpecifiedEqual(fields[k], Get(have.fields, k))
    case Arr(items) =>
      have.Arr? && forall i :: 0 <= i < |items| ==>
        var j := Partner(items[i], have.items, i);
        j.Some? && SpecifiedEqual(items[i], have.items[j.value])
    case _ => want == have
  }

  /** The scan of the source: the local search over the live list. */
  method FindPartner(want: Json, actual: seq<Json>, i: nat) returns (j: Option<nat>)
    ensures j == Partner(want, actual, i)
  {
    if Named(want) {
      var name := want.fields[Name];
      for k := 0 to |actual|
        invariant FindNamed(actual, name, 0) == FindNamed(actual, name, k)
      {
        if actual[k].Obj? && Get(actual[k].fields, Name) == name {
          return Some(k);
        }
      }
    }
    j := if i < |actual| then Some(i) else None;
  }

  lemma NameIsDeclared(want: Json, live: Json)
    requires DeclaredSubset(want, live) && Named(want)
    ensures Named(live) && Get(live.fields, Name) == Get(want.fields, Name)
  {
    assert DeclaredSubset(want.fields[Name], Get(live.fields, Name));
  }

  // ---- The exact condition on the live tree ----

  /** The element at `i` stands up to the lenient comparison with `have`: if it is
      named, in the first element of its name and, left nameless, at its index;
      if it is not, at its index. */
  predicate CoversAt(x: Json, have: seq<Json>, i: nat)
    decreases x, 3
  {
    if Named(x) then
      var found := FindNamed(have, x.fields[Name], 0);
      && found.Some? && Covers(x, have[found.value])
      && i < |have| && have[i].Obj? && CoversFields(x, have[i].fields, true)
    else i < |have| && Covers(x, have[i])
  }

  /** Field by field, the name aside if it may be left out; what only `have`
      carries is null, because a declared null matches a missing field. */
  predicate CoversFields(x: Json, have: Fields, nameless: bool)
    requires x.Obj?
    decreases x, 1
  {
    && (forall k :: k in x.fields && !(nameless && k == Name) ==> Covers(x.fields[k], Get(have, k)))
    && (forall k :: k in have && k !in x.fields ==> have[k] == Null)
  }

  /** Whatever is declared of `x` is specified of `have`. */
  predicate Covers(x: Json, have: Json)
    decreases x, 2
  {
    match x
    case Obj(fields) => have.Obj? && CoversFields(x, have.fields, false)
    case Arr(items) => have.Arr? && forall i :: 0 <= i < |items| ==> CoversAt(items[i], have.items, i)
    case _ => x == have
  }

  predicate Implied(want: Json, x: Json, have: Json) {
    DeclaredSubset(want, x) ==> SpecifiedEqual(want, have)
  }

  lemma {:induction false} CoveredIsSpecified(want: Json, x: Json, have: Json)
    requires Covers(x, have) && DeclaredSubset(want, x)
    ensures SpecifiedEqual(want, have)
    decreases x, 1
  {
    match want
    case Obj(fields) =>
      CoveredFields(want, x, have.fields, false);
    case Arr(items) =>
      forall i | 0 <= i < |items|
        ensures Partner(items[i], have.items, i).Some?
                && SpecifiedEqual(items[i], have.items[Partner(items[i], have.items, i).value])
      {
        CoveredElement(items[i], x.items[i], have.items, i);
      }
    case _ =>
  }

  lemma CoveredFields(want: Json, x: Json, have: Fields, nameless: bool)
    requires want.Obj? && x.Obj? && DeclaredSubset(want, x) && CoversFields(x, have, nameless)
    requires nameless ==> Name !in want.fields
    ensures SpecifiedEqual(want, Obj(have))
    decreases x, 0
  {
    forall k | k in want.fields ensures SpecifiedEqual(want.fields[k], Get(have, k)) {
      assert DeclaredSubset(want.fields[k], Get(x.fields, k));
      if k in x.fields {
        CoveredIsSpecified(want.fields[k], x.fields[k], Get(have, k));
      }
    }
  }

  lemma CoveredElement(want: Json, x: Json, have: seq<Json>, i: nat)
    requires DeclaredSubset(want, x) && CoversAt(x, have, i)
    ensures Partner(want, have, i).Some? && SpecifiedEqual(want, have[Partner(want, have, i).value])
    decreases x, 2
  {
    if Named(want) {
      NameIsDeclared(want, x);
      CoveredIsSpecified(want, x, have[FindNamed(have, x.fields[Name], 0).value]);
    } else if Named(x) {
      DeclaredName(want, x);
      CoveredFields(want, x, have[i].fields, true);
    } else {
      CoveredIsSpecified(want, x, have[i]);
    }
  }

  lemma DeclaredName(want: Json, x: Json)
    requires DeclaredSubset(want, x) && Named(x)
    ensures want.Obj? && (Name in want.fields ==> want.fields[Name] == x.fields[Name])
  {
    if Name in want.fields {
      assert DeclaredSubset(want.fields[Name], Get(x.fields, Name));
    }
  }

  /** A declaration of `x` that `have` does not specify. */
  lemma {:induction false} UncoveredWitness(x: Json, have: Json) returns (want: Json)
    requires !Covers(x, have)
    ensures DeclaredSubset(want, x) && !SpecifiedEqual(want, have)
    decreases x, 1
  {
    want := x;
    SubsetReflexive(x);
    match x
    case Obj(fields) =>
      if have.Obj? {
        want := UncoveredField(x, have.fields, false);
      }
    case Arr(items) =>
      if have.Arr? {
        var i :| 0 <= i < |items| && !CoversAt(items[i], have.items, i);
        var w := UncoveredElement(items[i], have.items, i);
        want := Arr(items[i := w]);
        forall j | 0 <= j < |items| ensures DeclaredSubset(items[i := w][j], items[j]) {
          SubsetReflexive(items[j]);
        }
        assert want.items[i] == w;
      }
    case _ =>
  }

  lemma UncoveredField(x: Json, have: Fields, nameless: bool) returns (want: Json)
    requires x.Obj? && !CoversFields(x, have, nameless)
    ensures want.Obj? && DeclaredSubset(want, x) && !SpecifiedEqual(want, Obj(have))
    ensures nameless && Name in x.fields ==> Name !in want.fields
    decreases x, 0
  {
    if k :| k in x.fields && !(nameless && k == Name) && !Covers(x.fields[k], Get(have, k)) {
      var w := UncoveredWitness(x.fields[k], Get(have, k));
      want := Obj(map[k := w]);
      assert want.fields[k] == w;
    } else {
      var k :| k in have && k !in x.fields && have[k] != Null;
      want := Obj(map[k := Null]);
      assert want.fields[k] == Null;
    }
  }

  /** Naming a declaration of a named element keeps it a declaration. */
  lemma WithName(want: Json, x: Json, have: Json) returns (named: Json)
    requires Named(x) && DeclaredSubset(want, x) && !SpecifiedEqual(want, have)
    requires have.Obj? && Get(have.fields, Name) == x.fields[Name]
    ensures Named(named) && named.fields[Name] == x.fields[Name] && DeclaredSubset(named, x)
            && !SpecifiedEqual(named, have)
  {
    named := Obj(want.fields[Name := x.fields[Name]]);
    var k :| k in want.fields && !SpecifiedEqual(want.fields[k], Get(have.fields, k));
    DeclaredName(want, x);
    assert named.fields[k] == want.fields[k];
    forall j | j in named.fields ensures DeclaredSubset(named.fields[j], Get(x.fields, j)) {
      SubsetReflexive(x.fields[Name]);
    }
  }

  lemma UncoveredElement(x: Json, have: seq<Json>, i: nat) returns (want: Json)
    requires !CoversAt(x, have, i)
    ensures DeclaredSubset(want, x)
    ensures Partner(want, have, i).Some? ==> !SpecifiedEqual(want, have[Partner(want, have, i).value])
    decreases x, 2
  {
    want := x;
    SubsetReflexive(x);
    if !Named(x) {
      if i < |have| {
        want := UncoveredWitness(x, have[i]);
        if Named(want) {
          NameIsDeclared(want, x);
        }
      }
    } else {
      var found := FindNamed(have, x.fields[Name], 0);
      if found.None? {
        assert Name in x.fields;
      } else if !Covers(x, have[found.value]) {
        var w := UncoveredWitness(x, have[found.value]);
        want := WithName(w, x, have[found.value]);
      } else if i < |have| && have[i].Obj? {
        want := UncoveredField(x, have[i].fields, true);
      } else {
        want := Obj(map[]);
      }
    }
  }

  /** The strict comparison implies the lenient one for every declaration exactly
      when the live tree covers itself. */
  lemma SubsetIsSpecifiedIff(live: Json)
    ensures Covers(live, live) <==> forall want :: Implied(want, live, live)
  {
    if Covers(live, live) {
      forall want ensures Implied(want, live, live) {
        if DeclaredSubset(want, live) {
          CoveredIsSpecified(want, live, live);
        }
      }
    } else {
      var want := UncoveredWitness(live, live);
      assert !Implied(want, live, live);
    }
  }

  /** In every list, at every depth, the named elements have different names. */
  predicate DistinctNames(l: Json) {
    match l
    case Obj(fields) => forall k :: k in fields ==> DistinctNames(fields[k])
    case Arr(items) =>
      && (forall i :: 0 <= i < |items| ==> DistinctNames(items[i]))
      && (forall i, j :: 0 <= i < j < |items| && Named(items[i]) && Named(items[j]) ==>
            Get(items[i].fields, Name) != Get(items[j].fields, Name))
    case _ => true
  }

  lemma {:induction false} DistinctIsCovered(live: Json)
    requires DistinctNames(live)
    ensures Covers(live, live)
  {
    match live
    case Obj(fields) =>
      forall k | k in fields ensures Covers(fields[k], fields[k]) {
        DistinctIsCovered(fields[k]);
      }
    case Arr(items) =>
      forall i | 0 <= i < |items| ensures CoversAt(items[i], items, i) {
        DistinctIsCovered(items[i]);
        if Named(items[i]) {
          assert FindNamed(items, Get(items[i].fields, Name), 0) == Some(i);
        }
      }
    case _ =>
  }

  /** In particular when the live lists name their elements distinctly. */
  lemma SubsetIsSpecified(want: Json, live: Json)
    requires DeclaredSubset(want, live) && DistinctNames(live)
    ensures SpecifiedEqual(want, live)
  {
    DistinctIsCovered(live);
    CoveredIsSpecified(want, live, live);
  }

  /** Without distinct names it does not: the second element is compared with
      the first of its name, which lacks what the second declares. */
  lemma SameNamesDiffer()
    ensures
      var l := Arr([Obj(map[Name := Str("a")]), Obj(map[Name := Str("a"), Type := Bool(true)])]);
      DeclaredSubset(l, l) && !SpecifiedEqual(l, l)
  {
    var first, second := Obj(map[Name := Str("a")]), Obj(map[Name := Str("a"), Type := Bool(true)]);
    var l := Arr([first, second]);
    SubsetReflexive(l);
    assert Partner(second, [first, second], 1) == Some(0);
    assert Type in second.fields && Get(first.fields, Type) == Null;
    assert !SpecifiedEqual(second.fields[Type], Get(first.fields, Type));
    assert !SpecifiedEqual(second, first);
    assert l.items[1] == second;
  }
}
