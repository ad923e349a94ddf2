/** Two allocators hand out the volumes of one station's pools: one for App
    instances, one for desktops. Both search under the station's lock and both
    query both tables. */
module VolumeAllocators {
  import opened Wrappers

  datatype Identity = Identity(station: string, instance: string, owner: string)

  /** A row of either table. Only desktop rows are ever retained. */
  datatype Row = Row(
    identity: Identity, profile: string, namespace: string, claim: string,
    pvcUid: string, pvName: string, pvUid: string, retained: bool)

  datatype Profile = Profile(hash: string, namespace: string, claims: seq<string>)

  datatype Tables = Tables(apps: map<string, Row>, desktops: map<string, Row>)

  datatype Inspection = Bound(pvcUid: string, pvName: string, pvUid: string) | Small | Mounted | Unfit | Failed

  /** What the cluster answers about one claim: the first inspection, whether a
      missing pool claim could be created, and the inspection after that. */
  datatype Answer = Answer(first: Inspection, created: bool, second: Inspection)

  datatype Result = Reserved(row: Row) | NoCapacity | Conflict | Retained | Error

  /** The station, namespace and name a row points at. */
  predicate Holds(r: Row, station: string, namespace: string, claim: string) {
    r.identity.station == station && r.namespace == namespace && r.claim == claim
  }

  predicate NameUsed(t: Tables, station: string, namespace: string, claim: string) {
    || (exists k :: k in t.apps && Holds(t.apps[k], station, namespace, claim))
    || (exists k :: k in t.desktops && Holds(t.desktops[k], station, namespace, claim))
  }

  predicate VolumeUsed(t: Tables, pvcUid: string, pvUid: string) {
    || (exists k :: k in t.apps && (t.apps[k].pvcUid == pvcUid || t.apps[k].pvUid == pvUid))
    || (exists k :: k in t.desktops && (t.desktops[k].pvcUid == pvcUid || t.desktops[k].pvUid == pvUid))
  }

  /** The inspection that counts, or a failure to create the pool claim. */
  function Inspected(a: Answer): Inspection {
    if !a.first.Small? then a.first
    else if !a.created then Failed
    else a.second
  }

  /** Why the search passes a claim by. */
  predicate Skipped(t: Tables, station: string, p: Profile, claim: string, a: Answer) {
    || NameUsed(t, station, p.namespace, claim)
    || Inspected(a).Small? || Inspected(a).Mounted? || Inspected(a).Unfit?
    || (Inspected(a).Bound? && VolumeUsed(t, Inspected(a).pvcUid, Inspected(a).pvUid))
  }

  function NewRow(identity: Identity, p: Profile, claim: string, i: Inspection): Row
    requires i.Bound?
  {
    Row(identity, p.hash, p.namespace, claim, i.pvcUid, i.pvName, i.pvUid, false)
  }

  function Search(t: Tables, identity: Identity, p: Profile, answers: seq<Answer>, i: nat): Result
    requires |answers| == |p.claims| && i <= |p.claims|
    decreases |p.claims| - i
  {
    if i == |p.claims| then NoCapacity
    else if Skipped(t, identity.station, p, p.claims[i], answers[i]) then Search(t, identity, p, answers, i + 1)
    else if Inspected(answers[i]).Bound? then Reserved(NewRow(identity, p, p.claims[i], Inspected(answers[i])))
    else Error
  }

  predicate ValidVolume(identity: Identity, p: Profile, r: Row) {
    r.identity == identity && r.profile == p.hash && r.claim in p.claims && r.pvName != "" && r.pvUid != ""
      && r.pvcUid != ""
  }

  /** The row as another profile sees it: same name, same PV, the PVC found now. */
  function Rebound(r: Row, p: Profile, pvcUid: string): Row {
    r.(profile := p.hash, namespace := p.namespace, pvcUid := pvcUid)
  }

  /** `found` is the PVC of that name in the profile's namespace when it passed
      inspection as this very row's volume. */
  predicate CanRebind(identity: Identity, p: Profile, r: Row, found: Option<string>) {
    r.identity == identity && r.pvUid != "" && r.pvName != "" && r.claim in p.claims && found.Some? && found.value != ""
  }

  function ReserveApp(t: Tables, identity: Identity, p: Profile, answers: seq<Answer>,
                      found: Option<string>): (Tables, Result)
    requires |answers| == |p.claims|
  {
    if identity.instance in t.apps then
      var r := t.apps[identity.instance];
      if ValidVolume(identity, p, r) then (t, Reserved(r))
      else if CanRebind(identity, p, r, found) then
        var now := Rebound(r, p, found.value);
        (t.(apps := t.apps[identity.instance := now]), Reserved(now))
      else (t, Conflict)
    else
      var result := Search(t, identity, p, answers, 0);
      (if result.Reserved? then t.(apps := t.apps[identity.instance := result.row]) else t, result)
  }

  predicate SameReservation(r: Row, identity: Identity, p: Profile) {
    r.identity == identity && r.profile == p.hash && r.namespace == p.namespace
  }

  function ReserveDesktop(t: Tables, identity: Identity, p: Profile, answers: seq<Answer>): (Tables, Result)
    requires |answers| == |p.claims|
  {
    if identity.instance in t.desktops then
      var r := t.desktops[identity.instance];
      if !SameReservation(r, identity, p) then (t, Conflict)
      else if r.retained then (t, Retained)
      else (t, Reserved(r))
    else
      var result := Search(t, identity, p, answers, 0);
      (if result.Reserved? then t.(desktops := t.desktops[identity.instance := result.row]) else t, result)
  }

  /** `fit` says the volume still passes inspection with no Pod on it. */
  function Retain(t: Tables, identity: Identity, p: Profile, fit: bool): (Tables, Result) {
    if identity.instance !in t.desktops
       || !SameReservation(t.desktops[identity.instance], identity, p) then (t, Conflict)
    else if !fit then (t, Error)
    else
      var r := t.desktops[identity.instance].(retained := true);
      (t.(desktops := t.desktops[identity.instance := r]), Reserved(r))
  }

  // ---- The imperative allocators ----

  class Station {
    var apps: map<string, Row>
    var desktops: map<string, Row>

    function Snapshot(): Tables
      reads this
    {
      Tables(apps, desktops)
    }

    constructor (t: Tables)
      ensures Snapshot() == t
    {
      apps, desktops := t.apps, t.desktops;
    }

    /** Walks the claims in their registered order. */
    method FindVolume(identity: Identity, p: Profile, answers: seq<Answer>) returns (r: Result)
      requires |answers| == |p.claims|
      ensures r == Search(Snapshot(), identity, p, answers, 0)
    {
      for i := 0 to |p.claims|
        invariant Search(Snapshot(), identity, p, answers, 0) == Search(Snapshot(), identity, p, answers, i)
      {
        if NameUsed(Snapshot(), identity.station, p.namespace, p.claims[i]) {
          continue;
        }
        var b := answers[i].first;
        if b.Small? {
          if !answers[i].created {
            return Error;
          }
          b := answers[i].second;
        }
        if b.Small? || b.Mounted? || b.Unfit? {
          continue;
        }
        if b.Failed? {
          return Error;
        }
        if VolumeUsed(Snapshot(), b.pvcUid, b.pvUid) {
          continue;
        }
        return Reserved(NewRow(identity, p, p.claims[i], b));
      }
      r := NoCapacity;
    }

    method ReserveForApp(identity: Identity, p: Profile, answers: seq<Answer>, found: Option<string>)
      returns (r: Result)
      requires |answers| == |p.claims|
      modifies this`apps
      ensures (Snapshot(), r) == ReserveApp(old(Snapshot()), identity, p, answers, found)
    {
      if identity.instance in apps {
        var row := apps[identity.instance];
        if ValidVolume(identity, p, row) {
          return Reserved(row);
        }
        if CanRebind(identity, p, row, found) {
          row := row.(profile := p.hash, namespace := p.namespace, pvcUid := found.value);
          apps := apps[identity.instance := row];
          return Reserved(row);
        }
        return Conflict;
      }
      r := FindVolume(identity, p, answers);
      if r.Reserved? {
        apps := apps[identity.instance := r.row];
      }
    }

    method ReserveForDesktop(identity: Identity, p: Profile, answers: seq<Answer>) returns (r: Result)
      requires |answers| == |p.claims|
      modifies this`desktops
      ensures (Snapshot(), r) == ReserveDesktop(old(Snapshot()), identity, p, answers)
    {
      if identity.instance in desktops {
        var row := desktops[identity.instance];
        if !SameReservation(row, identity, p) {
          return Conflict;
        }
        if row.retained {
          return Retained;
        }
        return Reserved(row);
      }
      r := FindVolume(identity, p, answers);
      if r.Reserved? {
        desktops := desktops[identity.instance := r.row];
      }
    }

    method RetainDesktop(identity: Identity, p: Profile, fit: bool) returns (r: Result)
      modifies this`desktops
      ensures (Snapshot(), r) == Retain(old(Snapshot()), identity, p, fit)
    {
      if identity.instance !in desktops || !SameReservation(desktops[identity.instance], identity, p) {
        return Conflict;
      }
      if !fit {
        return Error;
      }
      var row := desktops[identity.instance].(retained := true);
      desktops := desktops[identity.instance := row];
      r := Reserved(row);
    }
  }

  // ---- The search ----

  /** `capacity` is reported exactly when every listed claim is in use or fails
      its inspection; a volume that is found is the first one that does not, and
      collides with no row of either table. */
  lemma {:induction false} SearchIsFirstFit(t: Tables, identity: Identity, p: Profile, answers: seq<Answer>, i: nat)
    requires |answers| == |p.claims| && i <= |p.claims|
    ensures
      var r := Search(t, identity, p, answers, i);
      && (r.NoCapacity? <==> forall j :: i <= j < |p.claims| ==>
          Skipped(t, identity.station, p, p.claims[j], answers[j]))
      && (r.Reserved? ==>
            && (exists j :: i <= j < |p.claims| && p.claims[j] == r.row.claim && Inspected(answers[j]).Bound?
                            && r.row == NewRow(identity, p, p.claims[j], Inspected(answers[j]))
                            && forall h :: i <= h < j ==> Skipped(t, identity.station, p, p.claims[h], answers[h]))
            && !NameUsed(t, identity.station, p.namespace, r.row.claim)
            && !VolumeUsed(t, r.row.pvcUid, r.row.pvUid))
      && !r.Conflict? && !r.Retained?
    decreases |p.claims| - i
  {
    if i < |p.claims| && Skipped(t, identity.station, p, p.claims[i], answers[i]) {
      SearchIsFirstFit(t, identity, p, answers, i + 1);
    }
  }

  // ---- Runs ----

  datatype Event =
    | App(identity: Identity, profile: Profile, answers: seq<Answer>, found: Option<string>, commits: bool)
    | Desktop(identity: Identity, profile: Profile, answers: seq<Answer>, commits: bool)
    | Retention(identity: Identity, profile: Profile, fit: bool)
    /** An administrator releases a workspace and its row is deleted. */
    | Released(key: Key)

  /** Rows are addressed by table and instance. */
  datatype Key = AppKey(instance: string) | DesktopKey(instance: string)

  function Answered(answers: seq<Answer>, claims: seq<string>): seq<Answer> {
    seq(|claims|, i requires 0 <= i < |claims| => if i < |answers| then answers[i] else Answer(Failed, false, Failed))
  }

  function Step(t: Tables, e: Event): Tables {
    match e
    case App(identity, p, answers, found, commits) =>
      if commits then ReserveApp(t, identity, p, Answered(answers, p.claims), found).0 else t
    case Desktop(identity, p, answers, commits) =>
      if commits then ReserveDesktop(t, identity, p, Answered(answers, p.claims)).0 else t
    case Retention(identity, p, fit) => Retain(t, identity, p, fit).0
    case Released(AppKey(instance)) => t.(apps := t.apps - {instance})
    case Released(DesktopKey(instance)) => t.(desktops := t.desktops - {instance})
  }

  function Run(events: seq<Event>): Tables {
    if events == [] then Tables(map[], map[]) else Step(Run(events[..|events| - 1]), events[|events| - 1])
  }

  predicate In(t: Tables, k: Key) {
    if k.AppKey? then k.instance in t.apps else k.instance in t.desktops
  }

  function At(t: Tables, k: Key): Row
    requires In(t, k)
  {
    if k.AppKey? then t.apps[k.instance] else t.desktops[k.instance]
  }

  ghost predicate PVsUnique(t: Tables) {
    forall j, k :: In(t, j) && In(t, k) && j != k ==> At(t, j).pvUid != At(t, k).pvUid
  }

  /** What a step does to the rows: keep a row's PV or drop the row, or insert one that shares
      neither volume nor place with any row there was. */
  ghost predicate RowStep(t: Tables, u: Tables, k: Key) {
    if In(t, k) then
      In(u, k) ==> At(u, k).pvUid == At(t, k).pvUid && At(u, k).identity == At(t, k).identity
    else
      In(u, k) ==> forall j :: In(t, j) ==>
        && At(t, j).pvUid != At(u, k).pvUid && At(t, j).pvcUid != At(u, k).pvcUid
        && !Holds(At(t, j), At(u, k).identity.station, At(u, k).namespace, At(u, k).claim)
  }

  /** At most one row is written by a step. */
  ghost predicate OneWritten(t: Tables, u: Tables) {
    forall j, k :: j != k && In(u, j) && In(u, k) ==>
      (In(t, j) && At(t, j) == At(u, j)) || (In(t, k) && At(t, k) == At(u, k))
  }

  lemma UnusedIsFree(t: Tables, row: Row, k: Key)
    requires !NameUsed(t, row.identity.station, row.namespace, row.claim) && !VolumeUsed(t, row.pvcUid, row.pvUid)
             && In(t, k)
    ensures At(t, k).pvUid != row.pvUid && At(t, k).pvcUid != row.pvcUid
    ensures !Holds(At(t, k), row.identity.station, row.namespace, row.claim)
  {
  }

  lemma OneRowIsWritten(t: Tables, e: Event)
    ensures OneWritten(t, Step(t, e))
    ensures forall k :: In(t, k) && In(Step(t, e), k) ==> RowStep(t, Step(t, e), k)
  {
    if e.App? || e.Desktop? {
      SearchIsFirstFit(t, e.identity, e.profile, Answered(e.answers, e.profile.claims), 0);
    }
  }

  /** What is inserted was found by the search. */
  lemma InsertIsFree(t: Tables, e: Event, k: Key)
    requires !In(t, k) && In(Step(t, e), k)
    ensures
      var row := At(Step(t, e), k);
      !NameUsed(t, row.identity.station, row.namespace, row.claim) && !VolumeUsed(t, row.pvcUid, row.pvUid)
  {
    if e.App? || e.Desktop? {
      SearchIsFirstFit(t, e.identity, e.profile, Answered(e.answers, e.profile.claims), 0);
    }
  }

  /** No insert duplicates a PV, a PVC or a station, namespace and name; no other
      write moves a row to another PV; one call writes one row. */
  lemma InsertsNeverCollide(t: Tables, e: Event)
    ensures forall k :: RowStep(t, Step(t, e), k)
    ensures OneWritten(t, Step(t, e))
  {
    OneRowIsWritten(t, e);
    var u := Step(t, e);
    forall k ensures RowStep(t, u, k) {
      if !In(t, k) && In(u, k) {
        InsertIsFree(t, e, k);
        forall j | In(t, j)
          ensures At(t, j).pvUid != At(u, k).pvUid && At(t, j).pvcUid != At(u, k).pvcUid
          ensures !Holds(At(t, j), At(u, k).identity.station, At(u, k).namespace, At(u, k).claim)
        {
          UnusedIsFree(t, At(u, k), j);
        }
      }
    }
  }

  /** No PV is ever held by two workspace rows, across both tables and including
      the rows that were rebound to another profile. */
  lemma {:induction false} PVsNeverShared(events: seq<Event>)
    ensures PVsUnique(Run(events))
  {
    if events != [] {
      var t, e := Run(events[..|events| - 1]), events[|events| - 1];
      PVsNeverShared(events[..|events| - 1]);
      InsertsNeverCollide(t, e);
      forall j, k | In(Run(events), j) && In(Run(events), k) && j != k
        ensures At(Run(events), j).pvUid != At(Run(events), k).pvUid
      {
        assert RowStep(t, Run(events), j) && RowStep(t, Run(events), k);
      }
    }
  }

  /** Reserving again for the same instance gives the row there is, rebound at
      most, or an error; and after a success it gives the same answer forever. */
  lemma ReservingAgain(t: Tables, identity: Identity, p: Profile, answers: seq<Answer>, more: seq<Answer>,
                       found: Option<string>, later: Option<string>)
    requires |answers| == |more| == |p.claims|
    ensures
      var (u, r) := ReserveApp(t, identity, p, answers, found);
      && (identity.instance in t.apps ==>
            u.apps.Keys == t.apps.Keys
              && (r.Reserved? ==>
                  r.row.pvUid == t.apps[identity.instance].pvUid && r.row.claim == t.apps[identity.instance].claim))
      && (r.Reserved? && ValidVolume(identity, p, r.row) ==> ReserveApp(u, identity, p, more, later) == (u, r))
    ensures
      var (u, r) := ReserveDesktop(t, identity, p, answers);
      && (identity.instance in t.desktops ==> u == t && (r.Reserved? ==> r.row == t.desktops[identity.instance]))
      && (r.Reserved? ==> ReserveDesktop(u, identity, p, more) == (u, r))
  {
    SearchIsFirstFit(t, identity, p, answers, 0);
  }

  // ---- Rebinding and names ----

  ghost predicate PlacesUnique(t: Tables) {
    forall j, k :: In(t, j) && In(t, k) && j != k ==>
      !Holds(At(t, j), At(t, k).identity.station, At(t, k).namespace, At(t, k).claim)
  }

  /** A rebind does not ask whether its new place is taken: it keeps the places
      unique exactly when no other row is there already. */
  lemma RebindKeepsPlacesIff(t: Tables, identity: Identity, p: Profile, answers: seq<Answer>, found: Option<string>)
    requires |answers| == |p.claims| && PlacesUnique(t) && identity.instance in t.apps
    requires !ValidVolume(identity, p, t.apps[identity.instance])
             && CanRebind(identity, p, t.apps[identity.instance], found)
    ensures
      PlacesUnique(ReserveApp(t, identity, p, answers, found).0)
      <==> forall k :: In(t, k) && k != AppKey(identity.instance) ==>
             !Holds(At(t, k), identity.station, p.namespace, t.apps[identity.instance].claim)
  {
    var u, me := ReserveApp(t, identity, p, answers, found).0, AppKey(identity.instance);
    assert forall k :: In(u, k) <==> In(t, k);
    assert forall k :: In(t, k) && k != me ==> At(u, k) == At(t, k);
    if PlacesUnique(u) {
      forall k | In(t, k) && k != me
        ensures !Holds(At(t, k), identity.station, p.namespace, t.apps[identity.instance].claim)
      {
        assert !Holds(At(u, k), At(u, me).identity.station, At(u, me).namespace, At(u, me).claim);
      }
    }
  }

  /** A first reservation takes the profile's one claim when it is free. */
  lemma TakesTheClaim(t: Tables, identity: Identity, p: Profile, b: Inspection)
    requires |p.claims| == 1 && identity.instance !in t.apps && b.Bound?
    requires !NameUsed(t, identity.station, p.namespace, p.claims[0]) && !VolumeUsed(t, b.pvcUid, b.pvUid)
    ensures Step(t, App(identity, p, [Answer(b, false, Failed)], None, true))
         == t.(apps := t.apps[identity.instance := NewRow(identity, p, p.claims[0], b)])
  {
  }

  /** Two instances of one station on the same claim name in two namespaces. */
  function TwoNamespaces(a: Identity, b: Identity, p: Profile, q: Profile, x: Inspection, y: Inspection): Tables
    requires x.Bound? && y.Bound? && |p.claims| == |q.claims| == 1
  {
    Tables(map[a.instance := NewRow(a, p, p.claims[0], x)][b.instance := NewRow(b, q, q.claims[0], y)], map[])
  }

  lemma TwoReservations(a: Identity, b: Identity, p: Profile, q: Profile, x: Inspection, y: Inspection)
    requires x.Bound? && y.Bound? && |p.claims| == |q.claims| == 1 && a.instance != b.instance
    requires p.namespace != q.namespace && x.pvcUid != y.pvcUid && x.pvUid != y.pvUid
    ensures
      var first := App(a, p, [Answer(x, false, Failed)], None, true);
      var second := App(b, q, [Answer(y, false, Failed)], None, true);
      Run([first, second]) == TwoNamespaces(a, b, p, q, x, y)
  {
    var first, second :=
      App(a, p, [Answer(x, false, Failed)], None, true), App(b, q, [Answer(y, false, Failed)], None, true);
    assert [first][..0] == [] && [first, second][..1] == [first];
    TakesTheClaim(Run([]), a, p, x);
    assert Run([first]) == Step(Run([]), first) == Tables(map[a.instance := NewRow(a, p, p.claims[0], x)], map[]);
    TakesTheClaim(Run([first]), b, q, y);
    assert Run([first, second]) == Step(Run([first]), second);
  }

  lemma RebindShares(a: Identity, b: Identity, p: Profile, q: Profile, x: Inspection, y: Inspection, pvcUid: string)
    requires x.Bound? && y.Bound? && p.claims == q.claims && |p.claims| == 1
    requires a.instance != b.instance && a.station == b.station && p.namespace != q.namespace && p.hash != q.hash
    requires x.pvUid != "" && x.pvName != "" && pvcUid != ""
    ensures PlacesUnique(TwoNamespaces(a, b, p, q, x, y))
    ensures !PlacesUnique(Step(TwoNamespaces(a, b, p, q, x, y), App(a, q, [], Some(pvcUid), true)))
  {
    var u := Step(TwoNamespaces(a, b, p, q, x, y), App(a, q, [], Some(pvcUid), true));
    assert In(u, AppKey(a.instance)) && In(u, AppKey(b.instance));
    assert Holds(At(u, AppKey(a.instance)), b.station, q.namespace, q.claims[0]);
  }

  /** Such a rebind is within reach: after three calls two App instances are on
      one claim name. */
  lemma RebindCanShareAPlace()
    ensures
      var a, b := Identity("s", "a", "o"), Identity("s", "b", "o");
      var p, q := Profile("h1", "n1", ["c"]), Profile("h2", "n2", ["c"]);
      var first := App(a, p, [Answer(Bound("u1", "v1", "w1"), false, Failed)], None, true);
      var second := App(b, q, [Answer(Bound("u2", "v2", "w2"), false, Failed)], None, true);
      var rebind := App(a, q, [], Some("u3"), true);
      PlacesUnique(Run([first, second])) && !PlacesUnique(Run([first, second, rebind]))
  {
    var a, b := Identity("s", "a", "o"), Identity("s", "b", "o");
    var p, q := Profile("h1", "n1", ["c"]), Profile("h2", "n2", ["c"]);
    var x, y := Bound("u1", "v1", "w1"), Bound("u2", "v2", "w2");
    assert "a"[0] != "b"[0] && "n1"[1] != "n2"[1] && "h1"[1] != "h2"[1] && "u1"[1] != "u2"[1] && "w1"[1] != "w2"[1];
    TwoReservations(a, b, p, q, x, y);
    RebindShares(a, b, p, q, x, y, "u3");
    var first, second :=
      App(a, p, [Answer(x, false, Failed)], None, true), App(b, q, [Answer(y, false, Failed)], None, true);
    var rebind := App(a, q, [], Some("u3"), true);
    assert [first, second, rebind][..2] == [first, second];
  }
}
