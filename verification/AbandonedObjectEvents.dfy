/**
 The abandoned-object rule against the events themselves: what of an event enters the log, what an alert says
 about the events before it, and when a sighting alerts, with the anchor defined by the sightings alone.
 */
module AbandonedObjectEvents {
  import opened Common
  import opened AbandonedObject

  // ---------- What the log shows of the events ----------

  function PeopleIn(c: Config, cam: string, ts: real, ds: seq<Detection>): seq<Obs>
  {
    if ds == [] then [] else
    var before, d := PeopleIn(c, cam, ts, ds[..|ds| - 1]), ds[|ds| - 1];
    if d.kind == c.personLabel && d.center.Some? then before + [Person(cam, d.center.value, ts)] else before
  }

  function ObjectsIn(c: Config, cam: string, ts: real, ds: seq<Detection>): seq<Obs>
    requires cam in c.zones
  {
    if ds == [] then [] else
    var before, d := ObjectsIn(c, cam, ts, ds[..|ds| - 1]), ds[|ds| - 1];
    if d.kind in c.objectLabels && d.track.Some? && d.center.Some? && c.zones[cam](d.center.value)
    then before + [Seen(cam, d.track.value, d.center.value, ts)] else before
  }

  /** All people of an event, and then all its watched objects inside the zone; nothing of unwatched cameras. */
  function Shown(c: Config, e: Event): seq<Obs>
  {
    if e.cam !in c.zones then [] else
    PeopleIn(c, e.cam, e.ts, e.detections) + ObjectsIn(c, e.cam, e.ts, e.detections)
  }

  function AllShown(c: Config, es: seq<Event>): seq<Obs>
  {
    if es == [] then [] else AllShown(c, es[..|es| - 1]) + Shown(c, es[|es| - 1])
  }

  /** The log without its alerts. */
  function Sightings(log: seq<Obs>): seq<Obs>
  {
    if log == [] then [] else
    var before, x := Sightings(log[..|log| - 1]), log[|log| - 1];
    if x.Fired? then before else before + [x]
  }

  lemma SightingsSnoc(log: seq<Obs>, x: Obs)
    ensures Sightings(log + [x]) == if x.Fired? then Sightings(log) else Sightings(log) + [x]
  {
    assert (log + [x])[..|log|] == log;
  }

  lemma {:induction false} PeopleAreLogged(c: Config, s: State, cam: string, ts: real, ds: seq<Detection>)
    ensures NotePeople(c, s, cam, ts, ds).log == s.log + PeopleIn(c, cam, ts, ds)
  {
    if ds != [] { PeopleAreLogged(c, s, cam, ts, ds[..|ds| - 1]); }
  }

  lemma NoAlertAmongPeople(c: Config, cam: string, ts: real, ds: seq<Detection>)
    ensures forall i :: 0 <= i < |PeopleIn(c, cam, ts, ds)| ==> PeopleIn(c, cam, ts, ds)[i].Person?
  {
  }

  lemma {:induction false} SightingsConcat(log: seq<Obs>, more: seq<Obs>)
    requires forall i :: 0 <= i < |more| ==> !more[i].Fired?
    ensures Sightings(log + more) == Sightings(log) + more
  {
    if more == [] {
      assert log + more == log;
    } else {
      var before, x := more[..|more| - 1], more[|more| - 1];
      SightingsConcat(log, before);
      assert log + more == log + before + [x];
      SightingsSnoc(log + before, x);
    }
  }

  /** One watched object logs its sighting, and an alert behind it, if any. */
  lemma ObjectIsLogged(c: Config, s: State, cam: string, ts: real, d: Detection)
    requires cam in c.zones
    ensures var seen := d.kind in c.objectLabels && d.track.Some? && d.center.Some? && c.zones[cam](d.center.value);
      var log := NoteObject(c, s, cam, ts, d).log;
      if !seen then log == s.log else
      var x := Seen(cam, d.track.value, d.center.value, ts);
      log == s.log + [x] ||
      exists y: Obs :: y.Fired? && y.cam == cam && y.ts == ts && log == s.log + [x] + [y]
  {
    hide Within, PersonNear;
  }

  lemma OneMoreObject(c: Config, s: State, cam: string, ts: real, d: Detection)
    requires cam in c.zones
    ensures Sightings(NoteObject(c, s, cam, ts, d).log) == Sightings(s.log) + ObjectsIn(c, cam, ts, [d])
  {
    ObjectIsLogged(c, s, cam, ts, d);
    var log := NoteObject(c, s, cam, ts, d).log;
    assert [d][..0] == [] && ObjectsIn(c, cam, ts, []) == [];
    hide NoteObject, Sightings;
    if d.kind in c.objectLabels && d.track.Some? && d.center.Some? && c.zones[cam](d.center.value) {
      var x := Seen(cam, d.track.value, d.center.value, ts);
      SightingsSnoc(s.log, x);
      if y: Obs :| y.Fired? && y.cam == cam && y.ts == ts && log == s.log + [x] + [y] {
        SightingsSnoc(s.log + [x], y);
      }
    }
  }

  lemma {:induction false} ObjectsAreLogged(c: Config, s: State, cam: string, ts: real, ds: seq<Detection>)
    requires cam in c.zones
    ensures Sightings(NoteObjects(c, s, cam, ts, ds).log) == Sightings(s.log) + ObjectsIn(c, cam, ts, ds)
  {
    if ds != [] {
      var before, d := ds[..|ds| - 1], ds[|ds| - 1];
      ObjectsAreLogged(c, s, cam, ts, before);
      OneMoreObject(c, NoteObjects(c, s, cam, ts, before), cam, ts, d);
      assert [d][..0] == [];
      hide NoteObject, Sightings;
    }
  }

  /** The log, its alerts left out, is what the events show, event by event in order. */
  lemma {:induction false} LogShowsTheEvents(c: Config, es: seq<Event>)
    ensures Sightings(After(c, es).log) == AllShown(c, es)
  {
    if es != [] {
      var before, e := es[..|es| - 1], es[|es| - 1];
      LogShowsTheEvents(c, before);
      EventIsLogged(c, After(c, before), e);
      hide Step, Sightings, Shown;
    }
  }

  lemma EventIsLogged(c: Config, s: State, e: Event)
    ensures Sightings(Step(c, s, e).log) == Sightings(s.log) + Shown(c, e)
  {
    if e.cam in c.zones {
      var s1 := Collect(c, s, e.cam, e.ts);
      var people := PeopleIn(c, e.cam, e.ts, e.detections);
      PeopleAreLogged(c, s1, e.cam, e.ts, e.detections);
      NoAlertAmongPeople(c, e.cam, e.ts, e.detections);
      ObjectsAreLogged(c, NotePeople(c, s1, e.cam, e.ts, e.detections), e.cam, e.ts, e.detections);
      hide Sightings, NotePeople, NoteObjects, PeopleIn, ObjectsIn;
      SightingsConcat(s.log, people);
    }
  }

  /** The event shows a person at the point. */
  predicate ShowsPerson(c: Config, e: Event, p: Point)
  {
    exists i :: 0 <= i < |e.detections| && e.detections[i].kind == c.personLabel && e.detections[i].center == Some(p)
  }

  /** The event shows a watched object of the track at the point, which is inside the camera's zone. */
  predicate ShowsObject(c: Config, e: Event, track: string, p: Point)
  {
    e.cam in c.zones && c.zones[e.cam](p) &&
    exists i :: 0 <= i < |e.detections| && e.detections[i].kind in c.objectLabels &&
      e.detections[i].track == Some(track) && e.detections[i].center == Some(p)
  }

  lemma {:induction false} InPeople(c: Config, cam: string, ts: real, ds: seq<Detection>, x: Obs)
    ensures x in PeopleIn(c, cam, ts, ds) <==>
      exists i :: 0 <= i < |ds| && ds[i].kind == c.personLabel && ds[i].center.Some? &&
        x == Person(cam, ds[i].center.value, ts)
  {
    if ds != [] {
      InPeople(c, cam, ts, ds[..|ds| - 1], x);
      assert forall i :: 0 <= i < |ds| - 1 ==> ds[..|ds| - 1][i] == ds[i];
    }
  }

  lemma {:induction false} InObjects(c: Config, cam: string, ts: real, ds: seq<Detection>, x: Obs)
    requires cam in c.zones
    ensures x in ObjectsIn(c, cam, ts, ds) <==>
      exists i :: 0 <= i < |ds| && ds[i].kind in c.objectLabels && ds[i].track.Some? && ds[i].center.Some? &&
        c.zones[cam](ds[i].center.value) && x == Seen(cam, ds[i].track.value, ds[i].center.value, ts)
  {
    if ds != [] {
      InObjects(c, cam, ts, ds[..|ds| - 1], x);
      assert forall i :: 0 <= i < |ds| - 1 ==> ds[..|ds| - 1][i] == ds[i];
    }
  }

  /** The event would log the sighting `x`. */
  predicate Shows(c: Config, e: Event, x: Obs)
  {
    match x
    case Person(cam, p, ts) => e.cam == cam && e.ts == ts && e.cam in c.zones && ShowsPerson(c, e, p)
    case Seen(cam, track, p, ts) => e.cam == cam && e.ts == ts && ShowsObject(c, e, track, p)
    case Fired(_, _, _, _) => false
  }

  lemma ShownIsShown(c: Config, e: Event, x: Obs)
    ensures x in Shown(c, e) <==> Shows(c, e, x)
  {
    if e.cam in c.zones {
      InPeople(c, e.cam, e.ts, e.detections, x);
      InObjects(c, e.cam, e.ts, e.detections, x);
      hide PeopleIn, ObjectsIn;
    }
  }

  lemma {:induction false} InSightings(log: seq<Obs>, x: Obs)
    ensures x in Sightings(log) <==> x in log && !x.Fired?
  {
    if log != [] {
      var before := log[..|log| - 1];
      InSightings(before, x);
      assert log == before + [log[|log| - 1]];
    }
  }

  lemma {:induction false} InAllShown(c: Config, es: seq<Event>, x: Obs)
    ensures x in AllShown(c, es) <==> exists i :: 0 <= i < |es| && Shows(c, es[i], x)
  {
    if es != [] {
      var before, e := es[..|es| - 1], es[|es| - 1];
      InAllShown(c, before, x);
      ShownIsShown(c, e, x);
      hide Shown, Shows;
      assert forall i :: 0 <= i < |before| ==> before[i] == es[i];
      assert es[|before|] == e;
    }
  }

  /** A sighting is in the log if and only if an event shows it: a person of a watched camera by label and centre, an
      object by watched label, track and a centre inside the zone. */
  lemma LoggedIffShown(c: Config, es: seq<Event>, x: Obs)
    requires !x.Fired?
    ensures x in After(c, es).log <==> exists i :: 0 <= i < |es| && Shows(c, es[i], x)
  {
    LogShowsTheEvents(c, es);
    InSightings(After(c, es).log, x);
    InAllShown(c, es, x);
    hide *;
  }

  // ---------- What an alert says about the events ----------

  /** Within the grace time before `now` an event of the camera shows a person near the point. */
  ghost predicate PersonShownNear(c: Config, es: seq<Event>, cam: string, point: Point, now: real)
  {
    exists i, p :: 0 <= i < |es| && es[i].cam == cam && es[i].cam in c.zones && es[i].ts >= now - c.grace &&
      ShowsPerson(c, es[i], p) && Within(p, point, c.radius)
  }

  /** All people of an event are logged before its first alert. */
  lemma PeopleComeFirst(c: Config, es: seq<Event>, e: Event, j: nat)
    requires var log := After(c, es + [e]).log; |After(c, es).log| <= j < |log| && log[j].Fired?
    ensures e.cam in c.zones
    ensures var log := After(c, es + [e]).log;
      var people := PeopleIn(c, e.cam, e.ts, e.detections);
      && |After(c, es).log + people| <= j && After(c, es).log + people <= log
      && log[j].cam == e.cam && log[j].ts == e.ts
  {
    var s := After(c, es);
    assert (es + [e])[..|es|] == es;
    assert e.cam in c.zones;
    var s1 := Collect(c, s, e.cam, e.ts);
    PeopleAreLogged(c, s1, e.cam, e.ts, e.detections);
    NoAlertAmongPeople(c, e.cam, e.ts, e.detections);
    ObjectsOnlyAppend(c, NotePeople(c, s1, e.cam, e.ts, e.detections), e.cam, e.ts, e.detections);
    hide NotePeople, NoteObjects, PeopleIn;
  }

  lemma {:induction false} ObjectsOnlyAppend(c: Config, s: State, cam: string, ts: real, ds: seq<Detection>)
    requires cam in c.zones
    ensures var log := NoteObjects(c, s, cam, ts, ds).log;
      s.log <= log && forall j :: |s.log| <= j < |log| && log[j].Fired? ==> log[j].cam == cam && log[j].ts == ts
  {
    if ds != [] {
      var before := NoteObjects(c, s, cam, ts, ds[..|ds| - 1]);
      ObjectsOnlyAppend(c, s, cam, ts, ds[..|ds| - 1]);
      ObjectIsLogged(c, before, cam, ts, ds[|ds| - 1]);
      hide NoteObject;
    }
  }

  /** An alert belongs to the event that raised it, and neither that event nor any before it, within the grace time,
      shows a person near the object's anchor. */
  lemma NobodyWasShownNear(c: Config, es: seq<Event>, e: Event, j: nat)
    requires InOrder(es + [e]) && 0.0 < c.ttl
    requires var log := After(c, es + [e]).log; |After(c, es).log| <= j < |log| && log[j].Fired?
    ensures var log := After(c, es + [e]).log;
      && log[j].cam == e.cam && log[j].ts == e.ts
      && !PersonShownNear(c, es + [e], e.cam, log[j].anchor, e.ts)
  {
    var all, log := es + [e], After(c, es + [e]).log;
    PeopleComeFirst(c, es, e, j);
    AlertsAreEarned(c, all, j);
    hide *;
    var a: nat :| AlertEarned(c, log, j, a);
    AlertNobody(c, log, j, a);
    if PersonShownNear(c, all, e.cam, log[j].anchor, e.ts) {
      ShownIsLogged(c, es, e, log, j, log[j].anchor);
    }
  }

  lemma ShownIsLogged(c: Config, es: seq<Event>, e: Event, log: seq<Obs>, j: nat, point: Point)
    requires PersonShownNear(c, es + [e], e.cam, point, e.ts) && j <= |log|
    requires var upto := After(c, es).log + PeopleIn(c, e.cam, e.ts, e.detections); |upto| <= j && upto <= log
    ensures PersonLogged(c, log[..j], e.cam, point, e.ts)
  {
    var all, upto := es + [e], After(c, es).log + PeopleIn(c, e.cam, e.ts, e.detections);
    var i, p :| 0 <= i < |all| && all[i].cam == e.cam && all[i].cam in c.zones && all[i].ts >= e.ts - c.grace &&
      ShowsPerson(c, all[i], p) && Within(p, point, c.radius);
    var x := Person(e.cam, p, all[i].ts);
    PersonIsAmongThem(c, es, e, i, x);
    hide After, Within, PeopleIn, ShowsPerson;
    var m :| 0 <= m < |upto| && upto[m] == x;
    assert log[..j][m] == x;
  }

  lemma AlertNobody(c: Config, log: seq<Obs>, j: nat, a: nat)
    requires j < |log| && log[j].Fired? && AlertEarned(c, log, j, a)
    ensures !PersonLogged(c, log[..j], log[j].cam, log[j].anchor, log[j].ts)
  {
  }

  lemma PersonIsAmongThem(c: Config, es: seq<Event>, e: Event, i: nat, x: Obs)
    requires i <= |es| && e.cam in c.zones && x.Person? && Shows(c, (es + [e])[i], x)
    ensures x in After(c, es).log + PeopleIn(c, e.cam, e.ts, e.detections)
  {
    if i < |es| {
      assert es[i] == (es + [e])[i];
      LoggedIffShown(c, es, x);
    } else {
      InPeople(c, e.cam, e.ts, e.detections, x);
    }
  }

  // ---------- The anchor, defined by the sightings alone ----------

  /** Sighting `a` begins a stay: it is the track's first, or the first after a gap longer than the TTL, or away from
      the place where the track stayed until then. */
  ghost predicate Opens(c: Config, log: seq<Obs>, key: Key, a: nat)
    decreases a, 0
  {
    SeenAt(log, key, a) &&
    (NeverSeen(log, key, a) || AfterGap(c, log, key, a) ||
     exists b: nat :: b < a && SeenAt(log, key, b) && StaysFrom(c, log, key, b, a) &&
       !Within(log[a].p, log[b].p, c.tolerance))
  }

  ghost predicate NeverSeen(log: seq<Obs>, key: Key, a: nat)
  {
    forall m: nat :: m < a ==> !SeenAt(log, key, m)
  }

  ghost predicate AfterGap(c: Config, log: seq<Obs>, key: Key, a: nat)
    requires SeenAt(log, key, a)
  {
    exists p: nat :: p < a && SeenAt(log, key, p) && NoSightingBetween(log, key, p, a) && log[a].ts - log[p].ts > c.ttl
  }

  /** Before position `n` the track stays where sighting `b` found it: that one began a stay, and every one since is
      within the tolerance of it and at most a TTL after the one before. */
  ghost predicate StaysFrom(c: Config, log: seq<Obs>, key: Key, b: nat, n: nat)
    decreases b, 1
  {
    && b < n && Opens(c, log, key, b)
    && (forall m :: b < m < n && SeenAt(log, key, m) ==> Within(log[m].p, log[b].p, c.tolerance))
    && (forall m, k :: b <= m < k < n ==> GapOK(c, log, key, m, k))
  }

  lemma SeenPrefix(log: seq<Obs>, x: Obs, key: Key, m: nat)
    requires m < |log|
    ensures SeenAt(log + [x], key, m) == SeenAt(log, key, m) && (log + [x])[m] == log[m]
  {
  }

  lemma {:induction false} OpensPrefix(c: Config, log: seq<Obs>, x: Obs, key: Key, a: nat)
    requires a < |log|
    ensures Opens(c, log + [x], key, a) == Opens(c, log, key, a)
    decreases a, 0
  {
    var log' := log + [x];
    SeenPrefix(log, x, key, a);
    if SeenAt(log, key, a) {
      SameBefore(log, x, key, a, a);
      forall m: nat | m < a ensures SeenAt(log', key, m) == SeenAt(log, key, m) && log'[m] == log[m]
        && NoSightingBetween(log', key, m, a) == NoSightingBetween(log, key, m, a)
      {
        SameBefore(log, x, key, m, a);
      }
      assert NeverSeen(log', key, a) == NeverSeen(log, key, a);
      assert AfterGap(c, log', key, a) == AfterGap(c, log, key, a);
      forall b: nat | b < a ensures StaysFrom(c, log', key, b, a) == StaysFrom(c, log, key, b, a) {
        StaysPrefix(c, log, x, key, b, a);
      }
    }
  }

  lemma {:induction false} StaysPrefix(c: Config, log: seq<Obs>, x: Obs, key: Key, b: nat, n: nat)
    requires n <= |log|
    ensures StaysFrom(c, log + [x], key, b, n) == StaysFrom(c, log, key, b, n)
    decreases b, 1
  {
    var log' := log + [x];
    if b < n {
      OpensPrefix(c, log, x, key, b);
      forall m: nat | m < n ensures SeenAt(log', key, m) == SeenAt(log, key, m) && log'[m] == log[m] {
        SeenPrefix(log, x, key, m);
      }
      forall m: nat, k: nat | m < k < n ensures GapOK(c, log', key, m, k) == GapOK(c, log, key, m, k) {
        SameBefore(log, x, key, m, k);
      }
      hide Opens, GapOK, Within, SeenAt;
    }
  }

  lemma {:induction false} StaysIn(c: Config, log: seq<Obs>, key: Key, b: nat, n: nat, m: nat)
    requires n <= m <= |log|
    ensures StaysFrom(c, log[..m], key, b, n) == StaysFrom(c, log, key, b, n)
    decreases |log|
  {
    if m == |log| {
      assert log[..m] == log;
    } else {
      var before := log[..|log| - 1];
      assert before + [log[|log| - 1]] == log && before[..m] == log[..m];
      StaysIn(c, before, key, b, n, m);
      StaysPrefix(c, before, log[|log| - 1], key, b, n);
    }
  }

  /** At any position the track stays at one place only. */
  lemma {:induction false} OneStay(c: Config, log: seq<Obs>, key: Key, b1: nat, b2: nat, n: nat)
    requires n <= |log| && StaysFrom(c, log, key, b1, n) && StaysFrom(c, log, key, b2, n)
    ensures b1 == b2
    decreases n
  {
    if b1 < b2 {
      StayedAlready(c, log, key, b1, b2, n);
    } else if b2 < b1 {
      StayedAlready(c, log, key, b2, b1, n);
    }
  }

  /** Where a stay goes on no later sighting begins one. */
  lemma {:induction false} StayedAlready(c: Config, log: seq<Obs>, key: Key, b1: nat, b2: nat, n: nat)
    requires b1 < b2 < n <= |log| && StaysFrom(c, log, key, b1, n)
    ensures !StaysFrom(c, log, key, b2, n)
    decreases n, 0
  {
    if Opens(c, log, key, b2) {
      assert SeenAt(log, key, b1) && !NeverSeen(log, key, b2);
      NoGapInside(c, log, key, b1, b2, n);
      var b: nat :| b < b2 && SeenAt(log, key, b) && StaysFrom(c, log, key, b, b2) &&
        !Within(log[b2].p, log[b].p, c.tolerance);
      assert StaysFrom(c, log, key, b1, b2);
      OneStay(c, log, key, b, b1, b2);
    }
  }

  lemma NoGapInside(c: Config, log: seq<Obs>, key: Key, b1: nat, b2: nat, n: nat)
    requires b1 < b2 < n <= |log| && StaysFrom(c, log, key, b1, n) && SeenAt(log, key, b2)
    ensures !AfterGap(c, log, key, b2)
  {
    assert SeenAt(log, key, b1);
    forall p: nat | p < b2 && SeenAt(log, key, p) && NoSightingBetween(log, key, p, b2)
      ensures log[b2].ts - log[p].ts <= c.ttl
    {
      assert p >= b1;
      assert GapOK(c, log, key, p, b2);
    }
  }

  // ---------- The track is that stay ----------

  lemma {:induction false} NoTrackNeverSeen(c: Config, log: seq<Obs>, key: Key)
    requires TrackAt(c, log, key).NoTrack?
    ensures NeverSeen(log, key, |log|)
  {
    if log != [] {
      var before := log[..|log| - 1];
      assert before + [log[|log| - 1]] == log;
      TrackAppend(c, before, log[|log| - 1], key);
      NoTrackNeverSeen(c, before, key);
      assert forall m: nat :: m < |before| ==> SeenAt(log, key, m) == SeenAt(before, key, m);
    }
  }

  /** A track's anchor begins a stay. */
  lemma {:induction false} AnchorOpens(c: Config, log: seq<Obs>, key: Key)
    requires TrackAt(c, log, key).Track?
    ensures Opens(c, log, key, TrackAt(c, log, key).anchor)
    decreases |log|
  {
    var before, x := log[..|log| - 1], log[|log| - 1];
    assert before + [x] == log;
    var t, t' := TrackAt(c, before, key), TrackAt(c, log, key);
    TrackAppend(c, before, x, key);
    if t'.anchor < |before| {
      AnchorOpens(c, before, key);
      OpensPrefix(c, before, x, key, t.anchor);
    } else {
      if t.Track? { AnchorOpens(c, before, key); }
      NewAnchorOpens(c, before, x, key);
    }
  }

  lemma NewAnchorOpens(c: Config, log: seq<Obs>, x: Obs, key: Key)
    requires Of(x, key) && x.Seen?
    requires var t := TrackAt(c, log, key);
      t.Track? ==> Opens(c, log, key, t.anchor) && !Continues(c, log + [x], t, |log|)
    ensures Opens(c, log + [x], key, |log|)
  {
    var t, log', n := TrackAt(c, log, key), log + [x], |log|;
    assert forall m: nat :: m < n ==> SeenAt(log', key, m) == SeenAt(log, key, m) && log'[m] == log[m];
    assert SeenAt(log', key, n);
    if t.NoTrack? {
      NoTrackNeverSeen(c, log, key);
    } else {
      TrackAtMeans(c, log, key);
      AnchorStays(c, log, key);
      if x.ts - log[t.last].ts > c.ttl {
        SameBefore(log, x, key, t.last, n);
        assert AfterGap(c, log', key, n);
      } else {
        StaysPrefix(c, log, x, key, t.anchor, n);
        assert SeenAt(log', key, t.anchor) && StaysFrom(c, log', key, t.anchor, n);
      }
    }
  }

  lemma AnchorStays(c: Config, log: seq<Obs>, key: Key)
    requires var t := TrackAt(c, log, key); t.Track? && Opens(c, log, key, t.anchor)
    ensures StaysFrom(c, log, key, TrackAt(c, log, key).anchor, |log|)
  {
    TrackAtMeans(c, log, key);
    hide Opens, GapOK;
  }

  /** The anchor the rule keeps is the sighting that began the stay still going on. */
  lemma AnchorIffStays(c: Config, log: seq<Obs>, key: Key, b: nat)
    ensures var t := TrackAt(c, log, key); t.Track? && t.anchor == b <==> StaysFrom(c, log, key, b, |log|)
  {
    var t := TrackAt(c, log, key);
    hide StaysFrom, Opens;
    if t.Track? {
      AnchorOpens(c, log, key);
      AnchorStays(c, log, key);
      if StaysFrom(c, log, key, b, |log|) { OneStay(c, log, key, b, t.anchor, |log|); }
    } else {
      NoTrackNeverSeen(c, log, key);
      NeverSeenNeverStays(c, log, key, b);
    }
  }

  lemma NeverSeenNeverStays(c: Config, log: seq<Obs>, key: Key, b: nat)
    requires NeverSeen(log, key, |log|)
    ensures !StaysFrom(c, log, key, b, |log|)
  {
  }

  // ---------- When a sighting alerts ----------

  /** At sighting `i` the object has stayed for the dwell time where sighting `a` found it, no alert was raised
      since, and nobody was near that place in the grace time. */
  ghost predicate Abandoned(c: Config, log: seq<Obs>, key: Key, a: nat, i: nat)
  {
    && a < i && SeenAt(log, key, i) && SeenAt(log, key, a) && StaysFrom(c, log, key, a, i + 1)
    && log[i].ts - log[a].ts >= c.dwell
    && (forall m :: a < m < i ==> !FiredAt(log, key, m))
    && !PersonLogged(c, log[..i], key.0, log[a].p, log[i].ts)
  }

  lemma AbandonedIs(c: Config, log: seq<Obs>, key: Key, a: nat, i: nat)
    requires SeenAt(log, key, i)
    ensures var t := TrackAt(c, log[..i], key);
      Abandoned(c, log, key, a, i) <==> ShouldFire(c, log, i) && t.Track? && t.anchor == a
  {
    var before, upto := log[..i], log[..i + 1];
    assert upto == before + [log[i]];
    var t := TrackAt(c, before, key);
    TrackAppend(c, before, log[i], key);
    if t.Track? { TrackAtMeans(c, before, key); }
    assert forall m :: 0 <= m < i ==> before[m] == log[m] && FiredAt(before, key, m) == FiredAt(log, key, m);
    StaysIn(c, log, key, a, i + 1, i + 1);
    AnchorIffStays(c, upto, key, a);
    hide TrackAt, StaysFrom, Within, PersonLogged, GapOK;
  }

  lemma ShouldFireIffAbandoned(c: Config, log: seq<Obs>, key: Key, i: nat)
    requires SeenAt(log, key, i)
    ensures ShouldFire(c, log, i) <==> exists a: nat :: Abandoned(c, log, key, a, i)
  {
    var t := TrackAt(c, log[..i], key);
    assert ShouldFire(c, log, i) ==> t.Track?;
    hide ShouldFire, Abandoned;
    if ShouldFire(c, log, i) { AbandonedIs(c, log, key, t.anchor, i); }
    if a: nat :| Abandoned(c, log, key, a, i) { AbandonedIs(c, log, key, a, i); }
  }

  /** In every run a sighting is followed at once by its alert if and only if the object is abandoned: the rule, read
      off the sightings alone, and both ways. The alert names the place where the object stayed. */
  lemma AlertsIffAbandoned(c: Config, es: seq<Event>, key: Key, i: nat)
    requires InOrder(es) && 0.0 < c.ttl && SeenAt(After(c, es).log, key, i)
    ensures var log := After(c, es).log;
      && (FiresAt(log, i) <==> exists a: nat :: Abandoned(c, log, key, a, i))
      && forall a: nat :: FiresAt(log, i) && Abandoned(c, log, key, a, i) ==> log[i + 1].anchor == log[a].p
  {
    FiresExactlyWhenTheLogSays(c, es);
    hide After, FiresOK;
    FiresIff(c, After(c, es).log, key, i);
  }

  lemma FiresIff(c: Config, log: seq<Obs>, key: Key, i: nat)
    requires FiresOK(c, log) && SeenAt(log, key, i)
    ensures FiresAt(log, i) <==> exists a: nat :: Abandoned(c, log, key, a, i)
    ensures forall a: nat :: FiresAt(log, i) && Abandoned(c, log, key, a, i) ==> log[i + 1].anchor == log[a].p
  {
    ShouldFireIffAbandoned(c, log, key, i);
    assert FiresAt(log, i) <==> ShouldFire(c, log, i);
    hide ShouldFire, Abandoned;
    forall a: nat | FiresAt(log, i) && Abandoned(c, log, key, a, i) ensures log[i + 1].anchor == log[a].p {
      AbandonedIs(c, log, key, a, i);
      AlertNamesAnchor(c, log, key, i);
    }
  }

  lemma AlertNamesAnchor(c: Config, log: seq<Obs>, key: Key, i: nat)
    requires FiresOK(c, log) && SeenAt(log, key, i) && FiresAt(log, i)
    ensures var t := TrackAt(c, log[..i], key); t.Track? && log[i + 1].anchor == log[t.anchor].p
  {
    assert AfterItsSighting(c, log, i + 1);
    hide FiresOK, TrackAt;
  }

  lemma Positive(x: real, y: real)
    requires x > 0.0 && y > 0.0
    ensures x * y > 0.0
  {
  }

  /** Within means no farther than, by the theorem of Pythagoras. */
  lemma WithinIsDistance(a: Point, b: Point, r: real, distance: real)
    requires distance >= 0.0 && distance * distance == (a.x - b.x) * (a.x - b.x) + (a.y - b.y) * (a.y - b.y)
    ensures Within(a, b, r) <==> distance <= r
  {
    if 0.0 <= r {
      if distance <= r {
        assert distance * distance <= r * distance <= r * r;
      } else {
        Positive(distance - r, distance + r);
        assert distance * distance - r * r == (distance - r) * (distance + r);
      }
    }
  }
}
