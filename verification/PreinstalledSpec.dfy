/** The API defaults written into a Deployment before two are compared: the
    normalisers as they edit nested maps, and what the edited map is, field by
    field. */
module PreinstalledSpec {
  import opened TemplateComparison

  // ---- The helpers of the source ----

  function Defaulted(m: Fields, k: Field, v: Json): Fields {
    if k in m then m else m[k := v]
  }

  type Defaults = seq<(Field, Json)>

  function WithDefaults(m: Fields, ds: Defaults, n: nat): Fields
    requires n <= |ds|
  {
    if n == 0 then m else Defaulted(WithDefaults(m, ds, n - 1), ds[n - 1].0, ds[n - 1].1)
  }

  function Completed(m: Fields, ds: Defaults): Fields {
    WithDefaults(m, ds, |ds|)
  }

  /** Ranges over a table of defaults. */
  method WriteDefaults(m: Fields, ds: Defaults) returns (r: Fields)
    ensures r == Completed(m, ds)
  {
    r := m;
    for i := 0 to |ds|
      invariant r == WithDefaults(m, ds, i)
    {
      if ds[i].0 !in r {
        r := r[ds[i].0 := ds[i].1];
      }
    }
  }

  /** The object at a field; anything else is replaced by an empty one. */
  function ObjectAt(m: Fields, k: Field): Fields {
    if Get(m, k).Obj? then m[k].fields else map[]
  }

  /** Edits the object at a field, if there is one. */
  function Inside(m: Fields, k: Field, f: Fields -> Fields): Fields {
    if Get(m, k).Obj? then m[k := Obj(f(m[k].fields))] else m
  }

  /** Edits every object in a list. */
  function EachIn(j: Json, f: Fields -> Fields): Json {
    if j.Arr? then
      Arr(seq(|j.items|, i requires 0 <= i < |j.items| =>
        if j.items[i].Obj? then Obj(f(j.items[i].fields)) else j.items[i]))
    else j
  }

  function Each(m: Fields, k: Field, f: Fields -> Fields): Fields {
    if k in m then m[k := EachIn(m[k], f)] else m
  }

  method EditList(m: Fields, k: Field, f: Fields -> Fields) returns (r: Fields)
    ensures r == Each(m, k, f)
  {
    r := m;
    if !Get(m, k).Arr? {
      return;
    }
    var items := m[k].items;
    for i := 0 to |items|
      invariant |items| == |m[k].items|
      invariant forall j :: 0 <= j < i ==> items[j] == EachIn(m[k], f).items[j]
      invariant forall j :: i <= j < |items| ==> items[j] == m[k].items[j]
    {
      if items[i].Obj? {
        items := items[i := Obj(f(items[i].fields))];
      }
    }
    assert items == EachIn(m[k], f).items;
    r := r[k := Arr(items)];
  }

  // ---- The nested normalisers ----

  function NormalPort(m: Fields): Fields {
    Defaulted(m, Protocol, Str("TCP"))
  }

  function NormalHttp(m: Fields): Fields {
    Defaulted(m, Scheme, Str("HTTP"))
  }

  function ProbeDefaults(): (ds: Defaults)
    ensures |ds| == 4
  {
    [(TimeoutSeconds, Num(1)), (PeriodSeconds, Num(10)), (SuccessThreshold, Num(1)), (FailureThreshold, Num(3))]
  }

  function NormalProbe(m: Fields): Fields {
    Inside(Completed(m, ProbeDefaults()), HttpGet, NormalHttp)
  }

  function NormalRef(m: Fields): Fields {
    Defaulted(m, ApiVersion, Str("v1"))
  }

  function NormalFrom(m: Fields): Fields {
    Inside(m, FieldRef, NormalRef)
  }

  function NormalEnv(m: Fields): Fields {
    Inside(m, ValueFrom, NormalFrom)
  }

  function NormalSource(m: Fields): Fields {
    Defaulted(m, DefaultMode, Num(420))
  }

  function NormalVolume(m: Fields): Fields {
    var keyed := Inside(Inside(m, SecretSource, NormalSource), ConfigMapSource, NormalSource);
    Inside(Inside(keyed, DownwardApi, NormalSource), Projected, NormalSource)
  }

  function NormalContainer(m: Fields): Fields {
    var path := Defaulted(m, TerminationMessagePath, Str("/dev/termination-log"));
    var messages := Defaulted(path, TerminationMessagePolicy, Str("File"));
    var ports := Each(messages, Ports, NormalPort);
    var probes :=
      Inside(Inside(Inside(ports, LivenessProbe, NormalProbe), ReadinessProbe, NormalProbe), StartupProbe, NormalProbe);
    Each(probes, Env, NormalEnv)
  }

  function PodTable(): (ds: Defaults)
    ensures |ds| == 8
  {
    [(RestartPolicy, Str("Always")), (TerminationGracePeriodSeconds, Num(30)), (DnsPolicy, Str("ClusterFirst")),
     (ServiceAccountName, Str("default")), (SchedulerName, Str("default-scheduler")), (SecurityContext, Obj(map[])),
     (EnableServiceLinks, Bool(true)), (PreemptionPolicy, Str("PreemptLowerPriority"))]
  }

  /** The Pod's own defaults; the service account follows its name. */
  function PodDefaults(m: Fields): Fields {
    var tabled := Completed(m, PodTable());
    Defaulted(tabled, ServiceAccount, Get(tabled, ServiceAccountName))
  }

  function NormalPod(m: Fields): Fields {
    var containers := Each(Each(PodDefaults(m), Containers, NormalContainer), InitContainers, NormalContainer);
    Each(containers, Volumes, NormalVolume)
  }

  function NormalRolling(m: Fields): Fields {
    Defaulted(Defaulted(m, MaxUnavailable, Str("25%")), MaxSurge, Str("25%"))
  }

  function NormalStrategy(m: Fields): Fields {
    var typed := Defaulted(m, Type, Str("RollingUpdate"));
    if typed[Type] != Str("RollingUpdate") then typed
    else typed[RollingUpdate := Obj(NormalRolling(ObjectAt(typed, RollingUpdate)))]
  }

  function Unannotated(m: Fields): Fields {
    m - {Annotations}
  }

  function TemplateWith(m: Fields, pod: Fields -> Fields): Fields {
    var bare := Inside(m, Metadata, Unannotated);
    bare[PodSpec := Obj(pod(ObjectAt(bare, PodSpec)))]
  }

  function NormalTemplate(m: Fields): Fields {
    TemplateWith(m, NormalPod)
  }

  function Unscaled(m: Fields): Fields {
    Defaulted(Defaulted(m - {Replicas}, RevisionHistoryLimit, Num(10)), ProgressDeadlineSeconds, Num(600))
  }

  function DeploymentWith(m: Fields, strategy: Fields -> Fields, template: Fields -> Fields): Fields {
    var strategic := Unscaled(m)[Strategy := Obj(strategy(ObjectAt(Unscaled(m), Strategy)))];
    strategic[Template := Obj(template(ObjectAt(strategic, Template)))]
  }

  function NormalDeployment(m: Fields): Fields {
    DeploymentWith(m, NormalStrategy, NormalTemplate)
  }

  predicate DeploymentExact(want: Fields, live: Fields) {
    NormalDeployment(want) == NormalDeployment(live)
  }

  // ---- The edits, step by step ----

  method NormalizePod(m: Fields) returns (pod: Fields)
    ensures pod == NormalPod(m)
  {
    pod := WriteDefaults(m, PodTable());
    if ServiceAccount !in pod {
      pod := pod[ServiceAccount := Get(pod, ServiceAccountName)];
    }
    pod := EditList(pod, Containers, NormalContainer);
    pod := EditList(pod, InitContainers, NormalContainer);
    pod := EditList(pod, Volumes, NormalVolume);
  }

  method NormalizeDeployment(m: Fields) returns (spec: Fields)
    ensures spec == NormalDeployment(m)
  {
    spec := m - {Replicas};
    spec := Defaulted(spec, RevisionHistoryLimit, Num(10));
    spec := Defaulted(spec, ProgressDeadlineSeconds, Num(600));
    var strategy := Defaulted(ObjectAt(spec, Strategy), Type, Str("RollingUpdate"));
    if strategy[Type] == Str("RollingUpdate") {
      var rolling := Defaulted(ObjectAt(strategy, RollingUpdate), MaxUnavailable, Str("25%"));
      rolling := Defaulted(rolling, MaxSurge, Str("25%"));
      strategy := strategy[RollingUpdate := Obj(rolling)];
    }
    spec := spec[Strategy := Obj(strategy)];
    var template := ObjectAt(spec, Template);
    if Get(template, Metadata).Obj? {
      template := template[Metadata := Obj(template[Metadata].fields - {Annotations})];
    }
    var pod := NormalizePod(ObjectAt(template, PodSpec));
    template := template[PodSpec := Obj(pod)];
    spec := spec[Template := Obj(template)];
  }

  // ---- Normalising twice ----

  predicate Twice(f: Fields -> Fields, m: Fields) {
    f(f(m)) == f(m)
  }

  ghost predicate Idempotent(f: Fields -> Fields) {
    forall m: Fields :: Twice(f, m)
  }

  /** Nothing is left to edit in a value. */
  predicate StaysInside(v: Json, f: Fields -> Fields) {
    v.Obj? ==> f(v.fields) == v.fields
  }

  predicate StaysEach(v: Json, f: Fields -> Fields) {
    v.Arr? ==> forall i :: 0 <= i < |v.items| && v.items[i].Obj? ==> f(v.items[i].fields) == v.items[i].fields
  }

  predicate FixedInside(m: Fields, k: Field, f: Fields -> Fields) {
    StaysInside(Get(m, k), f)
  }

  predicate FixedEach(m: Fields, k: Field, f: Fields -> Fields) {
    StaysEach(Get(m, k), f)
  }

  lemma InsideFixes(m: Fields, k: Field, f: Fields -> Fields)
    requires Idempotent(f)
    ensures FixedInside(Inside(m, k, f), k, f)
    ensures FixedInside(m, k, f) ==> Inside(m, k, f) == m
  {
    if Get(m, k).Obj? {
      assert Twice(f, m[k].fields);
    }
  }

  lemma EachFixes(m: Fields, k: Field, f: Fields -> Fields)
    requires Idempotent(f)
    ensures FixedEach(Each(m, k, f), k, f)
    ensures FixedEach(m, k, f) ==> Each(m, k, f) == m
  {
    if Get(m, k).Arr? {
      forall i | 0 <= i < |m[k].items| && m[k].items[i].Obj?
        ensures f(f(m[k].items[i].fields)) == f(m[k].items[i].fields)
      {
        assert Twice(f, m[k].items[i].fields);
      }
      if FixedEach(m, k, f) {
        assert EachIn(m[k], f).items == m[k].items;
      }
    }
  }

  /** An edit at one field is not seen at another. */
  lemma EditElsewhere(m: Fields, k: Field, f: Fields -> Fields, j: Field)
    ensures j != k ==> Get(Inside(m, k, f), j) == Get(m, j) && Get(Each(m, k, f), j) == Get(m, j)
    ensures (j in Inside(m, k, f) <==> j in m) && (j in Each(m, k, f) <==> j in m)
  {
  }

  lemma {:induction false} DefaultsWrittenUpTo(m: Fields, ds: Defaults, n: nat, k: Field)
    requires n <= |ds|
    ensures
      var r := WithDefaults(m, ds, n);
      && (k in m ==> k in r && r[k] == m[k])
      && (k in r <==> k in m || exists i :: 0 <= i < n && ds[i].0 == k)
      && ((forall i :: 0 <= i < n ==> ds[i].0 in m) ==> r == m)
  {
    if n > 0 {
      DefaultsWrittenUpTo(m, ds, n - 1, k);
    }
  }

  /** Writing a table of defaults keeps what is there, fills every tabled field
      and touches no other; over a map that has them all it does nothing. */
  lemma DefaultsWritten(m: Fields, ds: Defaults, k: Field)
    ensures
      var r := Completed(m, ds);
      && (k in m ==> k in r && r[k] == m[k])
      && (k in r <==> k in m || exists i :: 0 <= i < |ds| && ds[i].0 == k)
      && ((forall i :: 0 <= i < |ds| ==> ds[i].0 in m) ==> r == m)
  {
    DefaultsWrittenUpTo(m, ds, |ds|, k);
  }

  lemma LeavesTwice()
    ensures Idempotent(NormalPort) && Idempotent(NormalHttp) && Idempotent(NormalRef) && Idempotent(NormalSource)
  {
    assert forall m :: Twice(NormalPort, m) && Twice(NormalHttp, m);
    assert forall m :: Twice(NormalRef, m) && Twice(NormalSource, m);
  }

  lemma ProbeTwice()
    ensures Idempotent(NormalProbe)
  {
    LeavesTwice();
    forall m: Fields ensures Twice(NormalProbe, m) {
      ProbeTwiceAt(m);
    }
  }

  lemma ProbeTwiceAt(m: Fields)
    ensures NormalProbe(NormalProbe(m)) == NormalProbe(m)
  {
    LeavesTwice();
    var ds := ProbeDefaults();
    var d := Completed(m, ds);
    var r := NormalProbe(m);
    InsideFixes(d, HttpGet, NormalHttp);
    forall i | 0 <= i < 4 ensures ds[i].0 in r {
      DefaultsWritten(m, ds, ds[i].0);
      EditElsewhere(d, HttpGet, NormalHttp, ds[i].0);
    }
    DefaultsWritten(r, ds, Name);
    InsideFixes(r, HttpGet, NormalHttp);
  }

  lemma EnvTwice()
    ensures Idempotent(NormalEnv)
  {
    LeavesTwice();
    forall m: Fields ensures Twice(NormalFrom, m) {
      InsideFixes(m, FieldRef, NormalRef);
      InsideFixes(NormalFrom(m), FieldRef, NormalRef);
    }
    forall m: Fields ensures Twice(NormalEnv, m) {
      InsideFixes(m, ValueFrom, NormalFrom);
      InsideFixes(NormalEnv(m), ValueFrom, NormalFrom);
    }
  }

  /** One edit of a normaliser: at an object, or at every object of a list. */
  datatype Edit = InObject(key: Field, f: Fields -> Fields) | InList(key: Field, f: Fields -> Fields)

  function Edited(m: Fields, e: Edit): Fields {
    if e.InObject? then Inside(m, e.key, e.f) else Each(m, e.key, e.f)
  }

  predicate Fixed(m: Fields, e: Edit) {
    if e.InObject? then FixedInside(m, e.key, e.f) else FixedEach(m, e.key, e.f)
  }

  function EditedBy(m: Fields, edits: seq<Edit>): Fields {
    if edits == [] then m else Edited(EditedBy(m, edits[..|edits| - 1]), edits[|edits| - 1])
  }

  ghost predicate Separate(edits: seq<Edit>) {
    && (forall i :: 0 <= i < |edits| ==> Idempotent(edits[i].f))
    && (forall i, j :: 0 <= i < j < |edits| ==> edits[i].key != edits[j].key)
  }

  lemma EditFixes(m: Fields, e: Edit, other: Edit, j: Field)
    requires Idempotent(e.f) && other.key != e.key
    ensures Fixed(Edited(m, e), e) && (Fixed(m, other) <==> Fixed(Edited(m, e), other))
            && (Fixed(m, e) ==> Edited(m, e) == m)
    ensures j in Edited(m, e) <==> j in m
  {
    InsideFixes(m, e.key, e.f);
    EachFixes(m, e.key, e.f);
    EditElsewhere(m, e.key, e.f, other.key);
    EditElsewhere(m, e.key, e.f, j);
  }

  /** Idempotent edits at different fields leave each other's work fixed. */
  lemma {:induction false} EditsFix(m: Fields, edits: seq<Edit>)
    requires Separate(edits)
    ensures forall i :: 0 <= i < |edits| ==> Fixed(EditedBy(m, edits), edits[i])
    ensures EditedBy(m, edits).Keys == m.Keys
  {
    if edits != [] {
      var n := |edits| - 1;
      EditsFix(m, edits[..n]);
      var before := EditedBy(m, edits[..n]);
      forall i | 0 <= i < |edits| ensures Fixed(EditedBy(m, edits), edits[i]) {
        var other := if i < n then edits[i] else InObject(if edits[n].key.Name? then Type else Name, NormalPort);
        assert i < n ==> edits[..n][i] == edits[i];
        EditFixes(before, edits[n], other, Name);
      }
      forall j ensures j in EditedBy(m, edits) <==> j in m {
        EditFixes(before, edits[n], InObject(if edits[n].key.Name? then Type else Name, NormalPort), j);
      }
    }
  }

  lemma {:induction false} FixedStays(m: Fields, edits: seq<Edit>)
    requires Separate(edits) && forall i :: 0 <= i < |edits| ==> Fixed(m, edits[i])
    ensures EditedBy(m, edits) == m
  {
    if edits != [] {
      var n := |edits| - 1;
      forall i | 0 <= i < n ensures Fixed(m, edits[..n][i]) {
        assert edits[..n][i] == edits[i];
      }
      FixedStays(m, edits[..n]);
      EditFixes(m, edits[n], InObject(if edits[n].key.Name? then Type else Name, NormalPort), Name);
    }
  }

  lemma EditsTwice(m: Fields, edits: seq<Edit>)
    requires Separate(edits)
    ensures EditedBy(EditedBy(m, edits), edits) == EditedBy(m, edits) && EditedBy(m, edits).Keys == m.Keys
  {
    EditsFix(m, edits);
    FixedStays(EditedBy(m, edits), edits);
  }

  lemma EditsUnroll(m: Fields, edits: seq<Edit>, e: Edit)
    ensures EditedBy(m, edits + [e]) == Edited(EditedBy(m, edits), e)
  {
    assert (edits + [e])[..|edits|] == edits;
  }

  lemma VolumeTwice()
    ensures Idempotent(NormalVolume)
  {
    LeavesTwice();
    var e := [InObject(SecretSource, NormalSource), InObject(ConfigMapSource, NormalSource),
              InObject(DownwardApi, NormalSource), InObject(Projected, NormalSource)];
    forall m: Fields ensures Twice(NormalVolume, m) {
      VolumeIsEdits(m, e);
      VolumeIsEdits(NormalVolume(m), e);
      EditsTwice(m, e);
    }
  }

  lemma VolumeIsEdits(m: Fields, e: seq<Edit>)
    requires e == [InObject(SecretSource, NormalSource), InObject(ConfigMapSource, NormalSource),
                   InObject(DownwardApi, NormalSource), InObject(Projected, NormalSource)]
    ensures EditedBy(m, e) == NormalVolume(m)
  {
    assert e == [e[0]] + [e[1]] + [e[2]] + [e[3]];
    assert [e[0]][..0] == [];
    EditsUnroll(m, [e[0]], e[1]);
    EditsUnroll(m, [e[0]] + [e[1]], e[2]);
    EditsUnroll(m, [e[0]] + [e[1]] + [e[2]], e[3]);
  }

  function Messages(m: Fields): Fields {
    Defaulted(Defaulted(m, TerminationMessagePath, Str("/dev/termination-log")), TerminationMessagePolicy, Str("File"))
  }

  function ContainerEdits(): seq<Edit> {
    [InList(Ports, NormalPort), InObject(LivenessProbe, NormalProbe), InObject(ReadinessProbe, NormalProbe),
     InObject(StartupProbe, NormalProbe), InList(Env, NormalEnv)]
  }

  lemma ContainerIsEdits(m: Fields, e: seq<Edit>)
    requires e == ContainerEdits()
    ensures EditedBy(Messages(m), e) == NormalContainer(m)
  {
    var a := Messages(m);
    assert e == [e[0]] + [e[1]] + [e[2]] + [e[3]] + [e[4]];
    assert [e[0]][..0] == [];
    EditsUnroll(a, [e[0]], e[1]);
    EditsUnroll(a, [e[0]] + [e[1]], e[2]);
    EditsUnroll(a, [e[0]] + [e[1]] + [e[2]], e[3]);
    EditsUnroll(a, [e[0]] + [e[1]] + [e[2]] + [e[3]], e[4]);
  }

  lemma MessagesStay(m: Fields)
    ensures TerminationMessagePath in Messages(m) && TerminationMessagePolicy in Messages(m)
    ensures TerminationMessagePath in m && TerminationMessagePolicy in m ==> Messages(m) == m
  {
  }

  lemma ContainerEditsSeparate()
    ensures Separate(ContainerEdits())
  {
    LeavesTwice();
    ProbeTwice();
    EnvTwice();
  }

  lemma ContainerTwiceAt(m: Fields, e: seq<Edit>)
    requires e == ContainerEdits() && Separate(e)
    ensures NormalContainer(NormalContainer(m)) == NormalContainer(m)
  {
    var a := Messages(m);
    var r := EditedBy(a, e);
    ContainerIsEdits(m, e);
    ContainerIsEdits(r, e);
    EditsTwice(a, e);
    MessagesStay(m);
    assert TerminationMessagePath in r.Keys && TerminationMessagePolicy in r.Keys;
    MessagesStay(r);
  }

  lemma ContainerTwice()
    ensures Idempotent(NormalContainer)
  {
    ContainerEditsSeparate();
    forall m: Fields ensures Twice(NormalContainer, m) {
      ContainerTwiceAt(m, ContainerEdits());
    }
  }

  predicate DefaultsIn(m: Fields) {
    ServiceAccount in m && forall i :: 0 <= i < 8 ==> PodTable()[i].0 in m
  }

  function PodEdits(): seq<Edit> {
    [InList(Containers, NormalContainer), InList(InitContainers, NormalContainer), InList(Volumes, NormalVolume)]
  }

  lemma PodIsEdits(m: Fields, e: seq<Edit>)
    requires e == PodEdits()
    ensures EditedBy(PodDefaults(m), e) == NormalPod(m)
  {
    var a := PodDefaults(m);
    assert e == [e[0]] + [e[1]] + [e[2]];
    assert [e[0]][..0] == [];
    EditsUnroll(a, [e[0]], e[1]);
    EditsUnroll(a, [e[0]] + [e[1]], e[2]);
  }

  lemma DefaultsStay(m: Fields)
    ensures DefaultsIn(PodDefaults(m))
    ensures DefaultsIn(m) ==> PodDefaults(m) == m
  {
    var ds := PodTable();
    forall i | 0 <= i < 8 ensures ds[i].0 in Completed(m, ds) {
      DefaultsWritten(m, ds, ds[i].0);
    }
    DefaultsWritten(m, ds, Name);
  }

  lemma PodEditsSeparate()
    ensures Separate(PodEdits())
  {
    ContainerTwice();
    VolumeTwice();
  }

  lemma KeysStay(m: Fields, r: Fields)
    requires DefaultsIn(m) && r.Keys == m.Keys
    ensures DefaultsIn(r)
  {
    assert forall k :: k in m.Keys ==> k in r;
  }

  lemma PodTwice(m: Fields)
    ensures NormalPod(NormalPod(m)) == NormalPod(m)
  {
    PodEditsSeparate();
    var e, a := PodEdits(), PodDefaults(m);
    var r := EditedBy(a, e);
    PodIsEdits(m, e);
    PodIsEdits(r, e);
    EditsTwice(a, e);
    DefaultsStay(m);
    KeysStay(a, r);
    DefaultsStay(r);
  }

  lemma StrategyTwice(m: Fields)
    ensures NormalStrategy(NormalStrategy(m)) == NormalStrategy(m)
  {
    var r := NormalStrategy(m);
    assert Type in r;
    if r[Type] == Str("RollingUpdate") {
      var rolling := r[RollingUpdate].fields;
      assert MaxUnavailable in rolling && MaxSurge in rolling;
    }
  }

  lemma TemplateWithTwice(m: Fields, pod: Fields -> Fields)
    requires Idempotent(pod)
    ensures TemplateWith(TemplateWith(m, pod), pod) == TemplateWith(m, pod)
  {
    var bare := Inside(m, Metadata, Unannotated);
    var r := TemplateWith(m, pod);
    assert Twice(pod, ObjectAt(bare, PodSpec));
    assert ObjectAt(r, PodSpec) == pod(ObjectAt(bare, PodSpec));
    if Get(m, Metadata).Obj? {
      assert r[Metadata].fields - {Annotations} == r[Metadata].fields;
    }
    assert Inside(r, Metadata, Unannotated) == r;
  }

  lemma UnscaledStays(m: Fields)
    requires Replicas !in m && RevisionHistoryLimit in m && ProgressDeadlineSeconds in m
    ensures Unscaled(m) == m
  {
    assert m - {Replicas} == m;
  }

  lemma DeploymentWithTwice(m: Fields, strategy: Fields -> Fields, template: Fields -> Fields)
    requires Idempotent(strategy) && Idempotent(template)
    ensures DeploymentWith(DeploymentWith(m, strategy, template), strategy, template)
            == DeploymentWith(m, strategy, template)
  {
    var s := ObjectAt(Unscaled(m), Strategy);
    var strategic := Unscaled(m)[Strategy := Obj(strategy(s))];
    assert Twice(strategy, s) && Twice(template, ObjectAt(strategic, Template));
    UnscaledStays(DeploymentWith(m, strategy, template));
  }

  /** Writing the defaults a second time writes nothing. */
  lemma NormalisingTwice(m: Fields)
    ensures NormalDeployment(NormalDeployment(m)) == NormalDeployment(m)
  {
    forall p ensures Twice(NormalPod, p) {
      PodTwice(p);
    }
    forall t ensures Twice(NormalTemplate, t) {
      TemplateWithTwice(t, NormalPod);
    }
    forall s ensures Twice(NormalStrategy, s) {
      StrategyTwice(s);
    }
    DeploymentWithTwice(m, NormalStrategy, NormalTemplate);
  }

  /** Exact comparison is an equivalence that does not see which defaults were
      left out, how far the Deployment is scaled, or annotations on its Pods. */
  lemma ExactIsEquivalence(a: Fields, b: Fields, c: Fields, replicas: Json)
    ensures DeploymentExact(a, a) && (DeploymentExact(a, b) ==> DeploymentExact(b, a))
    ensures DeploymentExact(a, b) && DeploymentExact(b, c) ==> DeploymentExact(a, c)
    ensures DeploymentExact(a, NormalDeployment(a)) && DeploymentExact(a[Replicas := replicas], a)
  {
    NormalisingTwice(a);
    assert a[Replicas := replicas] - {Replicas} == a - {Replicas};
  }

  // ---- Normalising only adds ----

  /** Every declared field is still there, with everything it declared. */
  predicate Adds(f: Fields -> Fields, m: Fields) {
    DeclaredSubset(Obj(m), Obj(f(m)))
  }

  ghost predicate Additive(f: Fields -> Fields) {
    forall m: Fields :: Adds(f, m)
  }

  predicate Extends(m: Fields, d: Fields) {
    forall k :: k in m ==> k in d && d[k] == m[k]
  }

  lemma ExtensionAdds(m: Fields, d: Fields)
    requires Extends(m, d)
    ensures DeclaredSubset(Obj(m), Obj(d))
  {
    forall k | k in m ensures DeclaredSubset(m[k], Get(d, k)) {
      SubsetReflexive(m[k]);
    }
  }

  lemma EditAdds(m: Fields, e: Edit)
    requires Additive(e.f)
    ensures DeclaredSubset(Get(m, e.key), Get(Edited(m, e), e.key))
  {
    var v := Get(m, e.key);
    SubsetReflexive(v);
    if e.InObject? && v.Obj? {
      assert Adds(e.f, v.fields);
    } else if e.InList? && v.Arr? {
      forall i | 0 <= i < |v.items| ensures DeclaredSubset(v.items[i], EachIn(v, e.f).items[i]) {
        SubsetReflexive(v.items[i]);
        if v.items[i].Obj? {
          assert Adds(e.f, v.items[i].fields);
        }
      }
    }
  }

  ghost predicate Adding(edits: seq<Edit>) {
    && (forall i :: 0 <= i < |edits| ==> Additive(edits[i].f))
    && (forall i, j :: 0 <= i < j < |edits| ==> edits[i].key != edits[j].key)
  }

  ghost predicate EditsKey(edits: seq<Edit>, k: Field) {
    exists i :: 0 <= i < |edits| && edits[i].key == k
  }

  lemma PrefixKeys(edits: seq<Edit>, k: Field)
    requires Adding(edits) && edits != []
    ensures EditsKey(edits, k) <==> EditsKey(edits[..|edits| - 1], k) || edits[|edits| - 1].key == k
    ensures edits[|edits| - 1].key == k ==> !EditsKey(edits[..|edits| - 1], k)
  {
    var n := |edits| - 1;
    if EditsKey(edits, k) && edits[n].key != k {
      var i :| 0 <= i < |edits| && edits[i].key == k;
      assert edits[..n][i].key == k;
    }
    if EditsKey(edits[..n], k) {
      var i :| 0 <= i < n && edits[..n][i].key == k;
      assert edits[i].key == k;
    }
  }

  lemma {:induction false} EditsAdd(m: Fields, edits: seq<Edit>, k: Field)
    requires Adding(edits)
    ensures (k in EditedBy(m, edits) <==> k in m) && DeclaredSubset(Get(m, k), Get(EditedBy(m, edits), k))
    ensures !EditsKey(edits, k) ==> Get(EditedBy(m, edits), k) == Get(m, k)
  {
    SubsetReflexive(Get(m, k));
    if edits != [] {
      var n := |edits| - 1;
      var before, e := EditedBy(m, edits[..n]), edits[n];
      EditsAdd(m, edits[..n], k);
      EditElsewhere(before, e.key, e.f, k);
      EditAdds(before, e);
      PrefixKeys(edits, k);
    }
  }

  lemma AddsAfter(m: Fields, d: Fields, edits: seq<Edit>)
    requires Extends(m, d) && Adding(edits)
    ensures DeclaredSubset(Obj(m), Obj(EditedBy(d, edits)))
  {
    var r := EditedBy(d, edits);
    forall k | k in m ensures DeclaredSubset(m[k], Get(r, k)) {
      EditsAdd(d, edits, k);
    }
  }

  lemma LeavesAdd()
    ensures Additive(NormalPort) && Additive(NormalHttp) && Additive(NormalRef) && Additive(NormalSource)
  {
    forall m: Fields ensures Adds(NormalPort, m) && Adds(NormalHttp, m) && Adds(NormalRef, m) && Adds(NormalSource, m) {
      ExtensionAdds(m, NormalPort(m));
      ExtensionAdds(m, NormalHttp(m));
      ExtensionAdds(m, NormalRef(m));
      ExtensionAdds(m, NormalSource(m));
    }
  }

  lemma DefaultsExtend(m: Fields, ds: Defaults)
    ensures Extends(m, Completed(m, ds))
  {
    forall k | k in m ensures k in Completed(m, ds) && Completed(m, ds)[k] == m[k] {
      DefaultsWritten(m, ds, k);
    }
  }

  lemma SingleEdit(m: Fields, e: Edit)
    ensures EditedBy(m, [e]) == Edited(m, e)
  {
    assert [e][..0] == [];
  }

  lemma ProbeAdds()
    ensures Additive(NormalProbe)
  {
    LeavesAdd();
    forall m: Fields ensures Adds(NormalProbe, m) {
      var counted := Completed(m, ProbeDefaults());
      DefaultsExtend(m, ProbeDefaults());
      SingleEdit(counted, InObject(HttpGet, NormalHttp));
      AddsAfter(m, counted, [InObject(HttpGet, NormalHttp)]);
    }
  }

  lemma EnvAdds()
    ensures Additive(NormalEnv)
  {
    LeavesAdd();
    forall m: Fields ensures Adds(NormalFrom, m) {
      SingleEdit(m, InObject(FieldRef, NormalRef));
      AddsAfter(m, m, [InObject(FieldRef, NormalRef)]);
    }
    forall m: Fields ensures Adds(NormalEnv, m) {
      SingleEdit(m, InObject(ValueFrom, NormalFrom));
      AddsAfter(m, m, [InObject(ValueFrom, NormalFrom)]);
    }
  }

  lemma VolumeAdds()
    ensures Additive(NormalVolume)
  {
    LeavesAdd();
    var e := [InObject(SecretSource, NormalSource), InObject(ConfigMapSource, NormalSource),
              InObject(DownwardApi, NormalSource), InObject(Projected, NormalSource)];
    forall m: Fields ensures Adds(NormalVolume, m) {
      VolumeIsEdits(m, e);
      AddsAfter(m, m, e);
    }
  }

  lemma ContainerEditsAdding()
    ensures Adding(ContainerEdits())
  {
    LeavesAdd();
    ProbeAdds();
    EnvAdds();
  }

  lemma ContainerAdds()
    ensures Additive(NormalContainer)
  {
    ContainerEditsAdding();
    forall m: Fields ensures Adds(NormalContainer, m) {
      ContainerIsEdits(m, ContainerEdits());
      AddsAfter(m, Messages(m), ContainerEdits());
    }
  }

  lemma PodEditsAdding()
    ensures Adding(PodEdits())
  {
    ContainerAdds();
    VolumeAdds();
  }

  lemma PodDefaultsExtend(m: Fields)
    ensures Extends(m, PodDefaults(m))
  {
    DefaultsExtend(m, PodTable());
  }

  lemma PodDefaultsElsewhere(m: Fields, k: Field)
    requires k.Other? || k.Containers?
    ensures Get(PodDefaults(m), k) == Get(m, k) && (k in PodDefaults(m) <==> k in m)
  {
    DefaultsWritten(m, PodTable(), k);
    PodTableAvoids(k);
  }

  lemma PodTableAvoids(k: Field)
    requires k.Other? || k.Containers?
    ensures forall i :: 0 <= i < 8 ==> PodTable()[i].0 != k
  {
  }

  /** The defaults written into a Pod change and remove nothing it declares. */
  lemma PodKeepsDeclared(m: Fields)
    ensures DeclaredSubset(Obj(m), Obj(NormalPod(m)))
  {
    PodEditsAdding();
    PodIsEdits(m, PodEdits());
    PodDefaultsExtend(m);
    AddsAfter(m, PodDefaults(m), PodEdits());
  }

  /** Two Pods that compare equal agree on every field without a default, and
      so does each of their containers: unknown fields are never passed over. */
  lemma EqualPodsAgree(a: Fields, b: Fields, k: Field, i: nat, field: Field)
    requires NormalPod(a) == NormalPod(b) && k.Other? && field.Other?
    ensures (k in a <==> k in b) && Get(a, k) == Get(b, k)
    ensures Get(a, Containers).Arr? ==>
              && Get(b, Containers).Arr? && |Get(a, Containers).items| == |Get(b, Containers).items|
              && (i < |Get(a, Containers).items| && Get(a, Containers).items[i].Obj? ==>
                    && Get(b, Containers).items[i].Obj?
                    && Get(Get(a, Containers).items[i].fields, field) == Get(Get(b, Containers).items[i].fields, field))
  {
    PodSeen(a, k);
    PodSeen(b, k);
    var x, y := Get(a, Containers), Get(b, Containers);
    assert EachIn(x, NormalContainer) == EachIn(y, NormalContainer);
    if x.Arr? && i < |x.items| && x.items[i].Obj? {
      assert EachIn(x, NormalContainer).items[i] == EachIn(y, NormalContainer).items[i];
      ContainerSeen(x.items[i].fields, field);
      ContainerSeen(y.items[i].fields, field);
    }
  }

  lemma FiveEditsElsewhere(a: Fields, port: Fields -> Fields, probe: Fields -> Fields, env: Fields -> Fields, k: Field)
    requires k.Other?
    ensures Get(Each(Inside(Inside(Inside(Each(a, Ports, port), LivenessProbe, probe), ReadinessProbe, probe),
                            StartupProbe, probe), Env, env), k) == Get(a, k)
  {
    var b := Each(a, Ports, port);
    var c := Inside(b, LivenessProbe, probe);
    var d := Inside(c, ReadinessProbe, probe);
    EditElsewhere(a, Ports, port, k);
    EditElsewhere(b, LivenessProbe, probe, k);
    EditElsewhere(c, ReadinessProbe, probe, k);
    EditElsewhere(d, StartupProbe, probe, k);
    EditElsewhere(Inside(d, StartupProbe, probe), Env, env, k);
  }

  lemma ContainerSeen(m: Fields, k: Field)
    requires k.Other?
    ensures Get(NormalContainer(m), k) == Get(m, k)
  {
    FiveEditsElsewhere(Messages(m), NormalPort, NormalProbe, NormalEnv, k);
  }

  lemma ThreeListsElsewhere(a: Fields, container: Fields -> Fields, volume: Fields -> Fields, k: Field)
    requires k.Other?
    ensures
      var r := Each(Each(Each(a, Containers, container), InitContainers, container), Volumes, volume);
      && Get(r, k) == Get(a, k) && (k in r <==> k in a)
      && Get(r, Containers) == EachIn(Get(a, Containers), container)
  {
    var b := Each(a, Containers, container);
    var c := Each(b, InitContainers, container);
    EditElsewhere(a, Containers, container, k);
    EditElsewhere(b, InitContainers, container, k);
    EditElsewhere(c, Volumes, volume, k);
    EditElsewhere(b, InitContainers, container, Containers);
    EditElsewhere(c, Volumes, volume, Containers);
  }

  lemma PodSeen(m: Fields, k: Field)
    requires k.Other?
    ensures Get(NormalPod(m), k) == Get(m, k) && (k in NormalPod(m) <==> k in m)
    ensures Get(NormalPod(m), Containers) == EachIn(Get(m, Containers), NormalContainer)
  {
    ThreeListsElsewhere(PodDefaults(m), NormalContainer, NormalVolume, k);
    PodDefaultsElsewhere(m, k);
    PodDefaultsElsewhere(m, Containers);
  }
}
