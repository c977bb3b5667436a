/**
 The abandoned-object rule: per-track anchor, dwell clock and alert latch, with idle tracks and old
 people sightings garbage-collected as events arrive.

 The log lists every person sighting, every in-zone object sighting and every alert. `TrackAt` reads
 the rule off the log alone: no collected state, no TTL sweep, no trimmed buffer. The theorems say that
 the detector fires exactly when that reading says so, and what an alert therefore means.
 */
module AbandonedObject {
  import opened Common

  datatype Point = Point(x: real, y: real)

  type Zone = Point -> bool

  datatype Config = Config(
    dwell: real, tolerance: real, radius: real, grace: real, ttl: real,
    personLabel: string, objectLabels: set<string>, zones: map<string, Zone>)

  /** A detection as the rule reads it: lower-cased label, track id and bbox centre when present. */
  datatype Detection = Detection(kind: string, track: Option<string>, center: Option<Point>)

  datatype Event = Event(cam: string, ts: real, detections: seq<Detection>)

  datatype Record = Record(kind: string, anchor: Point, firstSeen: real, lastSeen: real, alerted: bool)

  datatype Sighting = Sighting(p: Point, ts: real)

  datatype Obs =
    | Person(cam: string, p: Point, ts: real)
    | Seen(cam: string, track: string, p: Point, ts: real)
    | Fired(cam: string, track: string, anchor: Point, ts: real)

  type Key = (string, string)

  /** `clock` is the time of each camera's latest event. */
  datatype State = State(
    objects: map<Key, Record>,
    people: map<string, seq<Sighting>>,
    clock: map<string, real>,
    log: seq<Obs>)

  const Init := State(map[], map[], map[], [])

  // ---------- Geometry: distances compared through their squares ----------

  function Distance2(a: Point, b: Point): real
  {
    (a.x - b.x) * (a.x - b.x) + (a.y - b.y) * (a.y - b.y)
  }

  predicate Within(a: Point, b: Point, r: real)
  {
    0.0 <= r && Distance2(a, b) <= r * r
  }

  // ---------- The rule, one detection at a time ----------

  function DropIdle(c: Config, objects: map<Key, Record>, cam: string, now: real): map<Key, Record>
  {
    map k | k in objects && !(k.0 == cam && objects[k].lastSeen < now - c.ttl) :: objects[k]
  }

  function Recent(bucket: seq<Sighting>, cutoff: real): seq<Sighting>
  {
    if bucket == [] then [] else
    var last, before := bucket[|bucket| - 1], Recent(bucket[..|bucket| - 1], cutoff);
    if last.ts >= cutoff then before + [last] else before
  }

  function Bucket(s: State, cam: string): seq<Sighting>
  {
    if cam in s.people then s.people[cam] else []
  }

  function Collect(c: Config, s: State, cam: string, now: real): State
  {
    s.(objects := DropIdle(c, s.objects, cam, now),
       people := s.people[cam := Recent(Bucket(s, cam), now - c.grace)],
       clock := s.clock[cam := now])
  }

  function NotePerson(c: Config, s: State, cam: string, ts: real, d: Detection): State
  {
    if d.kind != c.personLabel || d.center.None? then s else
    s.(people := s.people[cam := Bucket(s, cam) + [Sighting(d.center.value, ts)]],
       log := s.log + [Person(cam, d.center.value, ts)])
  }

  predicate PersonNear(c: Config, bucket: seq<Sighting>, point: Point, now: real)
  {
    exists i :: 0 <= i < |bucket| && bucket[i].ts >= now - c.grace && Within(bucket[i].p, point, c.radius)
  }

  predicate Watched(c: Config, cam: string, d: Detection)
  {
    d.kind in c.objectLabels && d.track.Some? && d.center.Some? && cam in c.zones && c.zones[cam](d.center.value)
  }

  function NoteObject(c: Config, s: State, cam: string, ts: real, d: Detection): State
  {
    if !Watched(c, cam, d) then s else
    var key, p := (cam, d.track.value), d.center.value;
    var s1 := s.(log := s.log + [Seen(cam, d.track.value, p, ts)]);
    if key !in s.objects then s1.(objects := s.objects[key := Record(d.kind, p, ts, ts, false)]) else
    var r := s.objects[key].(lastSeen := ts);
    if !Within(p, r.anchor, c.tolerance) then
      s1.(objects := s.objects[key := r.(anchor := p, firstSeen := ts, alerted := false)])
    else if ts - r.firstSeen < c.dwell || r.alerted || PersonNear(c, Bucket(s, cam), r.anchor, ts) then
      s1.(objects := s.objects[key := r])
    else
      s1.(objects := s.objects[key := r.(alerted := true)],
          log := s1.log + [Fired(cam, d.track.value, r.anchor, ts)])
  }

  function NotePeople(c: Config, s: State, cam: string, ts: real, ds: seq<Detection>): State
  {
    if ds == [] then s else NotePerson(c, NotePeople(c, s, cam, ts, ds[..|ds| - 1]), cam, ts, ds[|ds| - 1])
  }

  function NoteObjects(c: Config, s: State, cam: string, ts: real, ds: seq<Detection>): State
  {
    if ds == [] then s else NoteObject(c, NoteObjects(c, s, cam, ts, ds[..|ds| - 1]), cam, ts, ds[|ds| - 1])
  }

  function Step(c: Config, s: State, e: Event): State
  {
    if e.cam !in c.zones then s else
    var s1 := NotePeople(c, Collect(c, s, e.cam, e.ts), e.cam, e.ts, e.detections);
    NoteObjects(c, s1, e.cam, e.ts, e.detections)
  }

  function After(c: Config, es: seq<Event>): State
  {
    if es == [] then Init else Step(c, After(c, es[..|es| - 1]), es[|es| - 1])
  }

  /** Event times never go back on a camera. */
  predicate InOrder(es: seq<Event>)
  {
    forall i, j :: 0 <= i < j < |es| && es[i].cam == es[j].cam ==> es[i].ts <= es[j].ts
  }

  // ---------- Reading the rule off the log ----------

  /** Where a track stands: its anchoring sighting, its latest sighting, and whether it has alerted. */
  datatype Track = NoTrack | Track(anchor: nat, last: nat, alerted: bool)

  predicate Of(x: Obs, key: Key)
  {
    !x.Person? && x.cam == key.0 && x.track == key.1
  }

  predicate SeenAt(log: seq<Obs>, key: Key, i: nat)
  {
    i < |log| && log[i].Seen? && Of(log[i], key)
  }

  function TrackAt(c: Config, log: seq<Obs>, key: Key): (t: Track)
    ensures t.Track? ==> SeenAt(log, key, t.anchor) && SeenAt(log, key, t.last) && t.anchor <= t.last
  {
    if log == [] then NoTrack else
    var n := |log| - 1;
    var t := TrackAt(c, log[..n], key);
    if !Of(log[n], key) then t
    else if log[n].Fired? then (if t.Track? then t.(alerted := true) else t)
    else if t.Track? && Continues(c, log, t, n) then t.(last := n)
    else Track(n, n, false)
  }

  /** Sighting `n` continues track `t`: no longer a gap than the TTL, and still at the anchor. */
  predicate Continues(c: Config, log: seq<Obs>, t: Track, n: nat)
    requires t.Track? && n < |log| && log[n].Seen? && t.anchor <= n && t.last <= n
    requires log[t.anchor].Seen? && log[t.last].Seen?
  {
    log[n].ts - log[t.last].ts <= c.ttl && Within(log[n].p, log[t.anchor].p, c.tolerance)
  }

  ghost predicate PersonLogged(c: Config, log: seq<Obs>, cam: string, point: Point, now: real)
  {
    exists m :: 0 <= m < |log| && log[m].Person? && log[m].cam == cam && log[m].ts >= now - c.grace &&
      Within(log[m].p, point, c.radius)
  }

  /** The abandon predicate for sighting `i`, over everything ever seen before it. */
  ghost predicate ShouldFire(c: Config, log: seq<Obs>, i: nat)
    requires i < |log| && log[i].Seen?
  {
    var t := TrackAt(c, log[..i], (log[i].cam, log[i].track));
    && t.Track? && Continues(c, log, t, i)
    && log[i].ts - log[t.anchor].ts >= c.dwell && !t.alerted
    && !PersonLogged(c, log[..i], log[i].cam, log[t.anchor].p, log[i].ts)
  }

  /** Sighting `i` is followed at once by an alert for it. */
  predicate FiresAt(log: seq<Obs>, i: nat)
    requires i < |log| && log[i].Seen?
  {
    i + 1 < |log| && log[i + 1].Fired? && Of(log[i + 1], (log[i].cam, log[i].track)) && log[i + 1].ts == log[i].ts
  }

  // ---------- The inductive invariant ----------

  /** The stored record is the track read off the log; a missing record means none or an expired one. */
  ghost predicate KeyOK(c: Config, s: State, key: Key)
  {
    var t := TrackAt(c, s.log, key);
    if key in s.objects then
      && t.Track? && Matches(s.objects[key], s.log, t)
      && key.0 in s.clock && s.clock[key.0] - c.ttl <= s.log[t.last].ts
    else
      t.Track? ==> key.0 in s.clock && s.log[t.last].ts < s.clock[key.0] - c.ttl
  }

  predicate Matches(r: Record, log: seq<Obs>, t: Track)
    requires t.Track? && t.anchor < |log| && t.last < |log| && log[t.anchor].Seen? && log[t.last].Seen?
  {
    r.anchor == log[t.anchor].p && r.firstSeen == log[t.anchor].ts && r.lastSeen == log[t.last].ts &&
    r.alerted == t.alerted
  }

  ghost predicate KeysOK(c: Config, s: State)
  {
    forall key: Key :: KeyOK(c, s, key)
  }

  /** Everything in the buffer was seen, and everything seen within the grace window is in it. */
  ghost predicate BucketOK(c: Config, s: State, cam: string)
  {
    && (forall x :: x in Bucket(s, cam) ==> PersonIn(s.log, cam, x))
    && (forall m :: 0 <= m < |s.log| && s.log[m].Person? && s.log[m].cam == cam ==>
          cam in s.clock && s.log[m].ts <= s.clock[cam] &&
          (s.log[m].ts >= s.clock[cam] - c.grace ==> Sighting(s.log[m].p, s.log[m].ts) in Bucket(s, cam)))
  }

  ghost predicate PersonIn(log: seq<Obs>, cam: string, x: Sighting)
  {
    exists m :: 0 <= m < |log| && log[m] == Person(cam, x.p, x.ts)
  }

  ghost predicate BucketsOK(c: Config, s: State)
  {
    forall cam: string :: BucketOK(c, s, cam)
  }

  ghost predicate FiresOK(c: Config, log: seq<Obs>)
  {
    && (forall i :: 0 <= i < |log| && log[i].Seen? ==> (FiresAt(log, i) <==> ShouldFire(c, log, i)))
    && (forall j :: 0 <= j < |log| && log[j].Fired? ==> AfterItsSighting(c, log, j))
  }

  /** An alert directly follows the sighting that caused it and names its anchor. */
  ghost predicate AfterItsSighting(c: Config, log: seq<Obs>, j: nat)
    requires j < |log| && log[j].Fired?
  {
    j > 0 && log[j - 1].Seen? && FiresAt(log, j - 1) &&
    var t := TrackAt(c, log[..j - 1], (log[j].cam, log[j].track));
    t.Track? && log[j].anchor == log[t.anchor].p
  }

  ghost predicate Inv(c: Config, s: State)
  {
    KeysOK(c, s) && BucketsOK(c, s) && FiresOK(c, s.log)
  }

  // ---------- One more log entry ----------

  lemma TrackAppend(c: Config, log: seq<Obs>, x: Obs, key: Key)
    ensures var t, t', n := TrackAt(c, log, key), TrackAt(c, log + [x], key), |log|;
      && (!Of(x, key) ==> t' == t)
      && (Of(x, key) && x.Fired? && t.Track? ==> t' == t.(alerted := true))
      && (Of(x, key) && x.Seen? ==>
            t' == if t.Track? && Continues(c, log + [x], t, n) then t.(last := n) else Track(n, n, false))
  {
    assert (log + [x])[..|log|] == log;
  }

  lemma ShouldFirePrefix(c: Config, log: seq<Obs>, x: Obs, i: nat)
    requires i < |log| && log[i].Seen?
    ensures ShouldFire(c, log + [x], i) <==> ShouldFire(c, log, i)
  {
    assert (log + [x])[..i] == log[..i];
    assert forall m :: 0 <= m < |log| ==> (log + [x])[m] == log[m];
  }

  lemma FiresAppend(c: Config, log: seq<Obs>, x: Obs)
    requires FiresOK(c, log) && !x.Fired?
    requires x.Seen? ==> !ShouldFire(c, log + [x], |log|)
    ensures FiresOK(c, log + [x])
  {
    var log' := log + [x];
    forall i | 0 <= i < |log'| && log'[i].Seen? ensures FiresAt(log', i) <==> ShouldFire(c, log', i) {
      if i < |log| { ShouldFirePrefix(c, log, x, i); }
    }
    forall j | 0 <= j < |log'| && log'[j].Fired? ensures AfterItsSighting(c, log', j) {
      assert AfterItsSighting(c, log, j);
      assert log'[..j - 1] == log[..j - 1];
    }
  }

  lemma FiresAlertSightings(c: Config, log: seq<Obs>, x: Obs, y: Obs, i: nat)
    requires FiresOK(c, log) && x.Seen? && ShouldFire(c, log + [x], |log|)
    requires y.Fired? && y.cam == x.cam && y.track == x.track && y.ts == x.ts
    requires i <= |log| && (log + [x])[i].Seen?
    ensures FiresAt(log + [x] + [y], i) <==> ShouldFire(c, log + [x] + [y], i)
  {
    ShouldFirePrefix(c, log + [x], y, i);
    if i < |log| { ShouldFirePrefix(c, log, x, i); }
  }

  /** A sighting that should fire, followed by its alert. */
  lemma FiresAlert(c: Config, log: seq<Obs>, x: Obs, y: Obs)
    requires FiresOK(c, log) && x.Seen? && ShouldFire(c, log + [x], |log|)
    requires y.Fired? && y.cam == x.cam && y.track == x.track && y.ts == x.ts
    requires y.anchor == log[TrackAt(c, log, (x.cam, x.track)).anchor].p
    ensures FiresOK(c, log + [x] + [y])
  {
    var log' := log + [x] + [y];
    forall i | 0 <= i < |log'| && log'[i].Seen? ensures FiresAt(log', i) <==> ShouldFire(c, log', i) {
      FiresAlertSightings(c, log, x, y, i);
    }
    assert (log + [x])[..|log|] == log;
    hide ShouldFire;
    forall j | 0 <= j < |log'| && log'[j].Fired? ensures AfterItsSighting(c, log', j) {
      FiresAlertAlerts(c, log, x, y, j);
    }
  }

  lemma FiresAlertAlerts(c: Config, log: seq<Obs>, x: Obs, y: Obs, j: nat)
    requires FiresOK(c, log) && x.Seen? && y.Fired? && y.cam == x.cam && y.track == x.track && y.ts == x.ts
    requires var t := TrackAt(c, log, (x.cam, x.track)); t.Track? && y.anchor == log[t.anchor].p
    requires j < |log| + 2 && (log + [x] + [y])[j].Fired?
    ensures AfterItsSighting(c, log + [x] + [y], j)
  {
    var log' := log + [x] + [y];
    assert log' == log + [x, y];
    hide FiresOK, TrackAt;
    if j < |log| {
      EarlierAlert(c, log, [x, y], j);
    } else {
      assert log'[..|log|] == log;
    }
  }

  lemma EarlierAlert(c: Config, log: seq<Obs>, more: seq<Obs>, j: nat)
    requires FiresOK(c, log) && j < |log| && log[j].Fired?
    ensures AfterItsSighting(c, log + more, j)
  {
    assert AfterItsSighting(c, log, j);
    hide FiresOK, TrackAt;
    assert (log + more)[..j - 1] == log[..j - 1];
  }

  lemma {:induction false} RecentIs(bucket: seq<Sighting>, cutoff: real)
    ensures forall x :: x in Recent(bucket, cutoff) <==> x in bucket && x.ts >= cutoff
  {
    if bucket != [] {
      var before := bucket[..|bucket| - 1];
      RecentIs(before, cutoff);
      assert bucket == before + [bucket[|bucket| - 1]];
    }
  }

  // ---------- Every step keeps the invariant ----------

  lemma CollectKeepsInv(c: Config, s: State, cam: string, now: real)
    requires Inv(c, s) && (cam in s.clock ==> s.clock[cam] <= now)
    ensures Inv(c, Collect(c, s, cam, now))
  {
    var s' := Collect(c, s, cam, now);
    forall key: Key ensures KeyOK(c, s', key) {
      assert KeyOK(c, s, key);
    }
    forall b: string ensures BucketOK(c, s', b) {
      assert BucketOK(c, s, b);
      RecentIs(Bucket(s, cam), now - c.grace);
    }
  }

  lemma PersonInAppend(log: seq<Obs>, x: Obs, cam: string, y: Sighting)
    requires PersonIn(log, cam, y)
    ensures PersonIn(log + [x], cam, y)
  {
    var m :| 0 <= m < |log| && log[m] == Person(cam, y.p, y.ts);
    assert (log + [x])[m] == log[m];
  }

  /** Buckets do not care about object sightings and alerts. */
  lemma BucketsAppend(c: Config, s: State, s': State, x: Obs)
    requires BucketsOK(c, s) && s'.log == s.log + [x] && s'.people == s.people && s'.clock == s.clock && !x.Person?
    ensures BucketsOK(c, s')
  {
    forall b: string ensures BucketOK(c, s', b) {
      assert BucketOK(c, s, b);
      forall y | y in Bucket(s, b) ensures PersonIn(s'.log, b, y) {
        PersonInAppend(s.log, x, b, y);
      }
    }
  }

  lemma NotePersonKeepsInv(c: Config, s: State, cam: string, ts: real, d: Detection)
    requires Inv(c, s) && cam in s.clock && s.clock[cam] == ts
    ensures Inv(c, NotePerson(c, s, cam, ts, d)) && NotePerson(c, s, cam, ts, d).clock == s.clock
  {
    var s' := NotePerson(c, s, cam, ts, d);
    if s' != s {
      var x := s'.log[|s.log|];
      FiresAppend(c, s.log, x);
      forall key: Key ensures KeyOK(c, s', key) {
        assert KeyOK(c, s, key);
        TrackAppend(c, s.log, x, key);
      }
      forall b: string ensures BucketOK(c, s', b) {
        assert BucketOK(c, s, b);
        assert s'.log[|s.log|] == x;
        forall y | y in Bucket(s', b) ensures PersonIn(s'.log, b, y) {
          if y in Bucket(s, b) { PersonInAppend(s.log, x, b, y); }
        }
      }
    }
  }

  /** Trimming is invisible: the buffer answers as the whole history would. */
  lemma TrimmingIsInvisible(c: Config, s: State, cam: string, point: Point, now: real)
    requires BucketOK(c, s, cam) && cam in s.clock && s.clock[cam] <= now
    ensures PersonNear(c, Bucket(s, cam), point, now) <==> PersonLogged(c, s.log, cam, point, now)
  {
    var bucket := Bucket(s, cam);
    if PersonNear(c, bucket, point, now) {
      var i :| 0 <= i < |bucket| && bucket[i].ts >= now - c.grace && Within(bucket[i].p, point, c.radius);
      assert bucket[i] in bucket;
      assert PersonIn(s.log, cam, bucket[i]);
      var m :| 0 <= m < |s.log| && s.log[m] == Person(cam, bucket[i].p, bucket[i].ts);
    }
    if PersonLogged(c, s.log, cam, point, now) {
      var m :| 0 <= m < |s.log| && s.log[m].Person? && s.log[m].cam == cam && s.log[m].ts >= now - c.grace &&
        Within(s.log[m].p, point, c.radius);
      assert Sighting(s.log[m].p, s.log[m].ts) in bucket;
      var i :| 0 <= i < |bucket| && bucket[i] == Sighting(s.log[m].p, s.log[m].ts);
    }
  }

  /** The stored record makes the same decision as the log. */
  lemma SameDecision(c: Config, s: State, cam: string, ts: real, d: Detection)
    requires Inv(c, s) && cam in s.clock && s.clock[cam] == ts && Watched(c, cam, d)
    ensures var s', key := NoteObject(c, s, cam, ts, d), (cam, d.track.value);
      var x := Seen(cam, d.track.value, d.center.value, ts);
      var t := TrackAt(c, s.log, key);
      && (s'.log == s.log + [x] || s'.log == s.log + [x] + [Fired(cam, d.track.value, s.objects[key].anchor, ts)])
      && (|s'.log| == |s.log| + 2 <==> ShouldFire(c, s.log + [x], |s.log|))
      && (key in s.objects <==> t.Track? && ts - s.log[t.last].ts <= c.ttl)
  {
    var key := (cam, d.track.value);
    var x := Seen(cam, d.track.value, d.center.value, ts);
    assert KeyOK(c, s, key);
    assert (s.log + [x])[..|s.log|] == s.log;
    if key in s.objects {
      assert BucketOK(c, s, cam);
      hide KeysOK, BucketsOK, FiresOK, BucketOK;
      TrimmingIsInvisible(c, s, cam, s.objects[key].anchor, ts) by { assert BucketOK(c, s, cam); }
    }
  }

  lemma OtherKeysUnaffected(c: Config, s: State, cam: string, ts: real, d: Detection, key: Key)
    requires Watched(c, cam, d) && key != (cam, d.track.value) && KeyOK(c, s, key)
    ensures KeyOK(c, NoteObject(c, s, cam, ts, d), key)
  {
    hide PersonNear, Within, TrackAt;
    var s' := NoteObject(c, s, cam, ts, d);
    var log1 := s.log + [Seen(cam, d.track.value, d.center.value, ts)];
    TrackAppend(c, s.log, log1[|s.log|], key);
    if |s'.log| == |s.log| + 2 {
      TrackAppend(c, log1, s'.log[|s.log| + 1], key);
    }
  }

  lemma NoteObjectKeepsKeys(c: Config, s: State, cam: string, ts: real, d: Detection)
    requires Inv(c, s) && cam in s.clock && s.clock[cam] == ts && Watched(c, cam, d) && 0.0 < c.ttl
    ensures KeysOK(c, NoteObject(c, s, cam, ts, d))
  {
    var s' := NoteObject(c, s, cam, ts, d);
    assert KeyOK(c, s, (cam, d.track.value));
    OwnKeyFollows(c, s, cam, ts, d);
    forall key: Key ensures KeyOK(c, s', key) {
      if key != (cam, d.track.value) {
        assert KeyOK(c, s, key);
        OtherKeysUnaffected(c, s, cam, ts, d, key);
      }
    }
  }

  /** A record that fits the track, and the clock bound that goes with it. */
  ghost predicate Stored(c: Config, s: State, key: Key, t: Track)
  {
    key in s.objects && t.Track? && t.anchor < |s.log| && t.last < |s.log| &&
    s.log[t.anchor].Seen? && s.log[t.last].Seen? && Matches(s.objects[key], s.log, t) &&
    key.0 in s.clock && s.clock[key.0] - c.ttl <= s.log[t.last].ts
  }

  /** What the sighting does to the stored record is what it does to the track. */
  lemma RecordFollows(c: Config, s: State, cam: string, ts: real, d: Detection)
    requires cam in s.clock && s.clock[cam] == ts && 0.0 < c.ttl
    requires Watched(c, cam, d) && KeyOK(c, s, (cam, d.track.value))
    ensures var s', key, x, n := NoteObject(c, s, cam, ts, d), (cam, d.track.value),
                Seen(cam, d.track.value, d.center.value, ts), |s.log|;
      var t := TrackAt(c, s.log, key);
      var t1 := if t.Track? && Continues(c, s.log + [x], t, n) then t.(last := n) else Track(n, n, false);
      s.log + [x] <= s'.log && Stored(c, s', key, if |s'.log| == n + 1 then t1 else t1.(alerted := true))
  {
    hide Within, TrackAt, PersonNear;
  }

  lemma OwnKeyFollows(c: Config, s: State, cam: string, ts: real, d: Detection)
    requires cam in s.clock && s.clock[cam] == ts && 0.0 < c.ttl
    requires Watched(c, cam, d) && KeyOK(c, s, (cam, d.track.value))
    ensures KeyOK(c, NoteObject(c, s, cam, ts, d), (cam, d.track.value))
  {
    var s' := NoteObject(c, s, cam, ts, d);
    var key := (cam, d.track.value);
    var x := Seen(cam, d.track.value, d.center.value, ts);
    RecordFollows(c, s, cam, ts, d);
    TrackAppend(c, s.log, x, key);
    NoteObjectLogs(c, s, cam, ts, d);
    hide NoteObject, Within, TrackAt, PersonNear, Continues;
    if |s'.log| == |s.log| + 2 { TrackAppend(c, s.log + [x], s'.log[|s.log| + 1], key); }
  }

  /** The sighting is logged, and behind it the alert, if there is one. */
  lemma NoteObjectLogs(c: Config, s: State, cam: string, ts: real, d: Detection)
    requires Watched(c, cam, d)
    ensures var s', x := NoteObject(c, s, cam, ts, d), Seen(cam, d.track.value, d.center.value, ts);
      s'.log == s.log + [x] || (|s'.log| == |s.log| + 2 && s'.log == s.log + [x] + [s'.log[|s.log| + 1]])
  {
    hide Within, PersonNear, Matches;
  }

  lemma NoteObjectKeepsInv(c: Config, s: State, cam: string, ts: real, d: Detection)
    requires Inv(c, s) && cam in s.clock && s.clock[cam] == ts && 0.0 < c.ttl
    ensures Inv(c, NoteObject(c, s, cam, ts, d)) && NoteObject(c, s, cam, ts, d).clock == s.clock
  {
    if Watched(c, cam, d) {
      var s' := NoteObject(c, s, cam, ts, d);
      var x := Seen(cam, d.track.value, d.center.value, ts);
      SameDecision(c, s, cam, ts, d);
      NoteObjectKeepsKeys(c, s, cam, ts, d);
      assert KeyOK(c, s, (cam, d.track.value));
      hide KeysOK, BucketsOK, FiresOK;
      var mid := s.(log := s.log + [x]);
      BucketsAppend(c, s, mid, x);
      if |s'.log| == |s.log| + 1 {
        FiresAppend(c, s.log, x);
        BucketsAppend(c, s, s', x);
      } else {
        FiresAlert(c, s.log, x, s'.log[|s.log| + 1]);
        BucketsAppend(c, mid, s', s'.log[|s.log| + 1]);
      }
    }
  }

  lemma {:induction false} NotePeopleKeepsInv(c: Config, s: State, cam: string, ts: real, ds: seq<Detection>)
    requires Inv(c, s) && cam in s.clock && s.clock[cam] == ts
    ensures Inv(c, NotePeople(c, s, cam, ts, ds)) && NotePeople(c, s, cam, ts, ds).clock == s.clock
  {
    hide Inv;
    if ds != [] {
      NotePeopleKeepsInv(c, s, cam, ts, ds[..|ds| - 1]);
      NotePersonKeepsInv(c, NotePeople(c, s, cam, ts, ds[..|ds| - 1]), cam, ts, ds[|ds| - 1]);
    }
  }

  lemma {:induction false} NoteObjectsKeepsInv(c: Config, s: State, cam: string, ts: real, ds: seq<Detection>)
    requires Inv(c, s) && cam in s.clock && s.clock[cam] == ts && 0.0 < c.ttl
    ensures Inv(c, NoteObjects(c, s, cam, ts, ds)) && NoteObjects(c, s, cam, ts, ds).clock == s.clock
  {
    hide Inv, NoteObject;
    if ds != [] {
      NoteObjectsKeepsInv(c, s, cam, ts, ds[..|ds| - 1]);
      NoteObjectKeepsInv(c, NoteObjects(c, s, cam, ts, ds[..|ds| - 1]), cam, ts, ds[|ds| - 1]);
    }
  }

  lemma StepKeepsInv(c: Config, s: State, e: Event)
    requires Inv(c, s) && (e.cam in s.clock ==> s.clock[e.cam] <= e.ts) && 0.0 < c.ttl
    ensures Inv(c, Step(c, s, e))
    ensures Step(c, s, e).clock == if e.cam in c.zones then s.clock[e.cam := e.ts] else s.clock
  {
    hide Inv;
    if e.cam in c.zones {
      var s1 := Collect(c, s, e.cam, e.ts);
      CollectKeepsInv(c, s, e.cam, e.ts);
      NotePeopleKeepsInv(c, s1, e.cam, e.ts, e.detections);
      NoteObjectsKeepsInv(c, NotePeople(c, s1, e.cam, e.ts, e.detections), e.cam, e.ts, e.detections);
    }
  }

  lemma {:induction false} Reachable(c: Config, es: seq<Event>)
    requires InOrder(es) && 0.0 < c.ttl
    ensures Inv(c, After(c, es))
    ensures forall cam :: cam in After(c, es).clock ==>
      exists i :: 0 <= i < |es| && es[i].cam == cam && es[i].ts == After(c, es).clock[cam]
  {
    if es != [] {
      var prefix, e := es[..|es| - 1], es[|es| - 1];
      Reachable(c, prefix);
      hide Inv, Step;
      var s := After(c, prefix);
      if e.cam in s.clock {
        var i :| 0 <= i < |prefix| && prefix[i].cam == e.cam && prefix[i].ts == s.clock[e.cam];
        assert es[i] == prefix[i];
      }
      StepKeepsInv(c, s, e);
      forall cam | cam in After(c, es).clock
        ensures exists i :: 0 <= i < |es| && es[i].cam == cam && es[i].ts == After(c, es).clock[cam]
      {
        if cam == e.cam && e.cam in c.zones {
          assert es[|es| - 1].cam == cam;
        } else {
          var i :| 0 <= i < |prefix| && prefix[i].cam == cam && prefix[i].ts == s.clock[cam];
          assert es[i] == prefix[i];
        }
      }
    }
  }

  // ---------- Theorems about every run ----------

  /** The detector, with its garbage collection and trimmed buffers, fires exactly when the rule read
      off the whole log says so, and each alert directly follows its sighting. */
  lemma FiresExactlyWhenTheLogSays(c: Config, es: seq<Event>)
    requires InOrder(es) && 0.0 < c.ttl
    ensures FiresOK(c, After(c, es).log)
  {
    Reachable(c, es);
  }

  /** The proximity test on the trimmed buffer equals the test on the full sighting history. */
  lemma PersonNearIgnoresTrimming(c: Config, es: seq<Event>, cam: string, point: Point, now: real)
    requires InOrder(es) && 0.0 < c.ttl && cam in After(c, es).clock && After(c, es).clock[cam] <= now
    ensures var s := After(c, es);
      PersonNear(c, Bucket(s, cam), point, now) <==> PersonLogged(c, s.log, cam, point, now)
  {
    Reachable(c, es);
    assert BucketOK(c, After(c, es), cam);
    TrimmingIsInvisible(c, After(c, es), cam, point, now);
  }

  ghost predicate NoSightingBetween(log: seq<Obs>, key: Key, i: nat, j: nat)
  {
    forall m :: i < m < j ==> !SeenAt(log, key, m)
  }

  /** If `m` and `n` are consecutive sightings, the gap between them is at most the TTL. */
  ghost predicate GapOK(c: Config, log: seq<Obs>, key: Key, m: nat, n: nat)
  {
    SeenAt(log, key, m) && SeenAt(log, key, n) && NoSightingBetween(log, key, m, n) ==>
      log[n].ts - log[m].ts <= c.ttl
  }

  /** What a track read off the log means: its sightings since the anchor stayed at the anchor without
      a gap over the TTL, and it has alerted exactly if an alert followed the anchor. */
  ghost predicate TrackMeans(c: Config, log: seq<Obs>, key: Key, t: Track)
    requires t.Track?
  {
    && SeenAt(log, key, t.anchor) && SeenAt(log, key, t.last) && t.anchor <= t.last
    && NoSightingBetween(log, key, t.last, |log|)
    && (forall m :: t.anchor < m < |log| && SeenAt(log, key, m) ==>
          Within(log[m].p, log[t.anchor].p, c.tolerance))
    && (forall m, n :: t.anchor <= m < n < |log| ==> GapOK(c, log, key, m, n))
    && (t.alerted <==> exists m :: t.anchor < m < |log| && FiredAt(log, key, m))
  }

  predicate FiredAt(log: seq<Obs>, key: Key, i: nat)
  {
    i < |log| && log[i].Fired? && Of(log[i], key)
  }

  lemma SameBefore(log: seq<Obs>, x: Obs, key: Key, m: nat, n: nat)
    requires n <= |log|
    ensures NoSightingBetween(log + [x], key, m, n) == NoSightingBetween(log, key, m, n)
  {
    assert forall k :: 0 <= k < |log| ==> SeenAt(log + [x], key, k) == SeenAt(log, key, k);
  }

  lemma GapsAppend(c: Config, log: seq<Obs>, x: Obs, key: Key, t: Track, t': Track)
    requires t.Track? && TrackMeans(c, log, key, t)
    requires t'.Track? && t' == TrackAt(c, log + [x], key) && t == TrackAt(c, log, key) && t'.anchor == t.anchor
    ensures forall m, n :: t'.anchor <= m < n < |log + [x]| ==> GapOK(c, log + [x], key, m, n)
  {
    TrackAppend(c, log, x, key);
    var log' := log + [x];
    forall m, n | t'.anchor <= m < n < |log'| ensures GapOK(c, log', key, m, n) {
      SameBefore(log, x, key, m, n);
      if n < |log| {
        assert GapOK(c, log, key, m, n);
      } else if SeenAt(log', key, m) && SeenAt(log', key, n) && NoSightingBetween(log', key, m, n) {
        assert SeenAt(log', key, t.last) && SeenAt(log, key, m);
        assert m == t.last;
      }
    }
  }

  lemma {:induction false} TrackAtMeans(c: Config, log: seq<Obs>, key: Key)
    requires TrackAt(c, log, key).Track?
    ensures TrackMeans(c, log, key, TrackAt(c, log, key))
  {
    var prefix, x := log[..|log| - 1], log[|log| - 1];
    assert log == prefix + [x];
    var t, t' := TrackAt(c, prefix, key), TrackAt(c, log, key);
    TrackAppend(c, prefix, x, key);
    assert forall k :: 0 <= k < |prefix| ==>
      SeenAt(log, key, k) == SeenAt(prefix, key, k) && FiredAt(log, key, k) == FiredAt(prefix, key, k);
    if t'.anchor < |prefix| {
      TrackAtMeans(c, prefix, key);
      GapsAppend(c, prefix, x, key, t, t');
      AlertedAppend(c, prefix, x, key, t, t');
    }
  }

  lemma AlertedAppend(c: Config, log: seq<Obs>, x: Obs, key: Key, t: Track, t': Track)
    requires t.Track? && TrackMeans(c, log, key, t)
    requires t'.Track? && t' == TrackAt(c, log + [x], key) && t == TrackAt(c, log, key) && t'.anchor == t.anchor
    ensures t'.alerted <==> exists m :: t'.anchor < m < |log + [x]| && FiredAt(log + [x], key, m)
  {
    TrackAppend(c, log, x, key);
    assert forall k :: 0 <= k < |log| ==> FiredAt(log + [x], key, k) == FiredAt(log, key, k);
    assert FiredAt(log + [x], key, |log|) <==> x.Fired? && Of(x, key);
  }

  /** What alert `j` of the log promises: an anchoring sighting at least the dwell time earlier, every
      sighting of the track since then at the anchor with no gap over the TTL, no alert since, and
      nobody seen near the anchor during the grace window. */
  ghost predicate AlertEarned(c: Config, log: seq<Obs>, j: nat, a: nat)
    requires j < |log| && log[j].Fired?
  {
    var key := (log[j].cam, log[j].track);
    && a < j && SeenAt(log, key, a) && log[a].p == log[j].anchor
    && log[a].ts <= log[j].ts - c.dwell
    && (forall m :: a < m < j && SeenAt(log, key, m) ==> Within(log[m].p, log[a].p, c.tolerance))
    && (forall m, n :: a <= m < n < j ==> GapOK(c, log, key, m, n))
    && (forall m :: a < m < j ==> !FiredAt(log, key, m))
    && !PersonLogged(c, log[..j], log[j].cam, log[j].anchor, log[j].ts)
  }

  lemma AlertsAreEarned(c: Config, es: seq<Event>, j: nat)
    requires InOrder(es) && 0.0 < c.ttl && j < |After(c, es).log| && After(c, es).log[j].Fired?
    ensures exists a: nat :: AlertEarned(c, After(c, es).log, j, a)
  {
    Reachable(c, es);
    hide Step;
    var log := After(c, es).log;
    assert AfterItsSighting(c, log, j);
    assert FiresAt(log, j - 1) <==> ShouldFire(c, log, j - 1);
    AlertFromDecision(c, log, j);
  }

  lemma AlertFromDecision(c: Config, log: seq<Obs>, j: nat)
    requires j < |log| && log[j].Fired? && AfterItsSighting(c, log, j) && ShouldFire(c, log, j - 1)
    ensures AlertEarned(c, log, j, TrackAt(c, log[..j - 1], (log[j].cam, log[j].track)).anchor)
  {
    var key := (log[j].cam, log[j].track);
    var before := log[..j - 1];
    var t := TrackAt(c, before, key);
    TrackAtMeans(c, before, key);
    var upto := before + [log[j - 1]];
    assert log[..j] == upto;
    TrackAppend(c, before, log[j - 1], key);
    TrackAtMeans(c, upto, key);
    var t' := TrackAt(c, upto, key);
    assert t'.anchor == t.anchor && t'.last == j - 1;
    assert forall k :: 0 <= k < j ==> SeenAt(log, key, k) == SeenAt(upto, key, k);
    assert forall k :: 0 <= k < j ==> FiredAt(log, key, k) == FiredAt(upto, key, k);
    forall m, n | t.anchor <= m < n < j ensures GapOK(c, log, key, m, n) {
      assert GapOK(c, upto, key, m, n);
    }
    assert forall m :: 0 <= m < j - 1 ==> before[m] == log[m];
  }

  /** A sighting that starts a new episode: away from the old anchor, or after a gap over the TTL. */
  ghost predicate StartsAnew(c: Config, log: seq<Obs>, key: Key, anchor: Point, m: nat)
  {
    SeenAt(log, key, m) &&
    (!Within(log[m].p, anchor, c.tolerance) ||
     exists p :: 0 <= p < m && SeenAt(log, key, p) && NoSightingBetween(log, key, p, m) &&
       log[m].ts - log[p].ts > c.ttl)
  }

  /** The track still has the latch and the anchor of alert `i` before position `n`. */
  ghost predicate Latched(c: Config, log: seq<Obs>, key: Key, i: nat, n: nat)
    requires i < |log| && n <= |log| && log[i].Fired?
  {
    var t := TrackAt(c, log[..n], key);
    t.Track? && t.alerted && log[t.anchor].p == log[i].anchor
  }

  ghost predicate AnewBetween(c: Config, log: seq<Obs>, key: Key, i: nat, n: nat)
    requires i < |log| && log[i].Fired?
  {
    exists m :: i < m < n && StartsAnew(c, log, key, log[i].anchor, m)
  }

  lemma LatchStep(c: Config, log: seq<Obs>, key: Key, i: nat, n: nat)
    requires i < n < |log| && log[i].Fired? && Latched(c, log, key, i, n)
    requires !StartsAnew(c, log, key, log[i].anchor, n)
    ensures Latched(c, log, key, i, n + 1)
  {
    var t := TrackAt(c, log[..n], key);
    assert log[..n + 1] == log[..n] + [log[n]];
    TrackAppend(c, log[..n], log[n], key);
    if SeenAt(log, key, n) {
      TrackAtMeans(c, log[..n], key);
      assert SeenAt(log, key, t.last);
      forall m | t.last < m < n ensures !SeenAt(log, key, m) {
        assert !SeenAt(log[..n], key, m);
      }
      assert NoSightingBetween(log, key, t.last, n);
    }
  }

  lemma LatchBegins(c: Config, log: seq<Obs>, key: Key, i: nat)
    requires i < |log| && FiredAt(log, key, i)
    requires var t := TrackAt(c, log[..i], key); t.Track? && log[t.anchor].p == log[i].anchor
    ensures Latched(c, log, key, i, i + 1)
  {
    assert log[..i + 1] == log[..i] + [log[i]];
    TrackAppend(c, log[..i], log[i], key);
  }

  /** After alert `i` the latch holds until the object moves away or the track expires. */
  lemma {:induction false} LatchHolds(c: Config, log: seq<Obs>, key: Key, i: nat, n: nat)
    requires i < n <= |log| && FiredAt(log, key, i)
    requires var t := TrackAt(c, log[..i], key); t.Track? && log[t.anchor].p == log[i].anchor
    ensures AnewBetween(c, log, key, i, n) || Latched(c, log, key, i, n)
  {
    if n == i + 1 {
      LatchBegins(c, log, key, i);
    } else {
      LatchHolds(c, log, key, i, n - 1);
      hide TrackAt, StartsAnew, Latched;
      if Latched(c, log, key, i, n - 1) && !StartsAnew(c, log, key, log[i].anchor, n - 1) {
        LatchStep(c, log, key, i, n - 1);
      }
    }
  }

  /** Two alerts for one track are separated by a sighting that moved beyond tolerance from the first
      alert's anchor, or that came after a gap longer than the TTL. */
  lemma AlertsAreSeparated(c: Config, es: seq<Event>, key: Key, i: nat, j: nat)
    requires InOrder(es) && 0.0 < c.ttl
    requires var log := After(c, es).log; i < j && FiredAt(log, key, i) && FiredAt(log, key, j)
    ensures var log := After(c, es).log;
      AnewBetween(c, log, key, i, j)
  {
    Reachable(c, es);
    hide Step;
    SeparatedInLog(c, After(c, es).log, key, i, j);
  }

  lemma FiredFacts(c: Config, log: seq<Obs>, key: Key, j: nat)
    requires FiresOK(c, log) && FiredAt(log, key, j)
    ensures j > 0 && SeenAt(log, key, j - 1)
    ensures var t := TrackAt(c, log[..j - 1], key); t.Track? && !t.alerted
    ensures var t := TrackAt(c, log[..j], key); t.Track? && log[t.anchor].p == log[j].anchor
  {
    assert AfterItsSighting(c, log, j);
    assert FiresAt(log, j - 1) <==> ShouldFire(c, log, j - 1);
    hide FiresOK, TrackAt;
    assert log[..j] == log[..j - 1] + [log[j - 1]];
    TrackAppend(c, log[..j - 1], log[j - 1], key);
  }

  /** The latch is off again just before the sighting that fires alert `j`. */
  lemma NotLatchedBefore(c: Config, log: seq<Obs>, key: Key, i: nat, j: nat)
    requires FiresOK(c, log) && i < j && FiredAt(log, key, i) && FiredAt(log, key, j)
    ensures i < j - 1 && !Latched(c, log, key, i, j - 1)
  {
    FiredFacts(c, log, key, j);
  }

  lemma SeparatedInLog(c: Config, log: seq<Obs>, key: Key, i: nat, j: nat)
    requires FiresOK(c, log) && i < j && FiredAt(log, key, i) && FiredAt(log, key, j)
    ensures AnewBetween(c, log, key, i, j)
  {
    FiredFacts(c, log, key, i);
    NotLatchedBefore(c, log, key, i, j);
    hide FiresOK, TrackAt, StartsAnew, Latched, Of, SeenAt;
    LatchHolds(c, log, key, i, j - 1);
  }

  /** An event on one camera leaves every other camera's tracks, sightings and clock alone. */
  lemma EventsAreIsolated(c: Config, s: State, e: Event, other: string)
    requires other != e.cam
    ensures var s' := Step(c, s, e);
      && Bucket(s', other) == Bucket(s, other)
      && (forall key: Key :: key.0 == other ==>
            (key in s'.objects <==> key in s.objects) && (key in s.objects ==> s'.objects[key] == s.objects[key]))
  {
    if e.cam in c.zones {
      var s1 := Collect(c, s, e.cam, e.ts);
      var s2 := NotePeople(c, s1, e.cam, e.ts, e.detections);
      PeopleAreIsolated(c, s1, e.cam, e.ts, e.detections, other);
      ObjectsAreIsolated(c, s2, e.cam, e.ts, e.detections, other);
    }
  }

  lemma {:induction false} PeopleAreIsolated(c: Config, s: State, cam: string, ts: real, ds: seq<Detection>,
                                            other: string)
    requires other != cam
    ensures var s' := NotePeople(c, s, cam, ts, ds); Bucket(s', other) == Bucket(s, other) && s'.objects == s.objects
  {
    if ds != [] { PeopleAreIsolated(c, s, cam, ts, ds[..|ds| - 1], other); }
  }

  lemma {:induction false} ObjectsAreIsolated(c: Config, s: State, cam: string, ts: real, ds: seq<Detection>,
                                            other: string)
    requires other != cam
    ensures var s' := NoteObjects(c, s, cam, ts, ds);
      && s'.people == s.people
      && (forall key: Key :: key.0 == other ==>
            (key in s'.objects <==> key in s.objects) && (key in s.objects ==> s'.objects[key] == s.objects[key]))
  {
    if ds != [] { ObjectsAreIsolated(c, s, cam, ts, ds[..|ds| - 1], other); }
  }

  // ---------- The detector object ----------

  class AbandonedObjectDetector {
    const cfg: Config
    var objects: map<Key, Record>
    var recentPeople: map<string, seq<Sighting>>
    ghost var clock: map<string, real>
    ghost var log: seq<Obs>

    ghost function View(): State
      reads this
    {
      State(objects, recentPeople, clock, log)
    }

    constructor (cfg: Config)
      ensures this.cfg == cfg && View() == After(cfg, [])
    {
      this.cfg := cfg;
      objects, recentPeople, clock, log := map[], map[], map[], [];
    }

    /** One event: sweep, note the people, then test every watched object. */
    method OnDetections(e: Event) returns (fired: seq<Obs>)
      modifies this
      ensures View() == Step(cfg, old(View()), e)
      ensures old(log) <= log && fired == Alerts(log[|old(log)|..])
    {
      if e.cam !in cfg.zones {
        assert log[|log|..] == [];
        return [];
      }
      Gc(e.cam, e.ts);
      FirstPass(e.cam, e.ts, e.detections);
      label people:
      fired := SecondPass(e.cam, e.ts, e.detections);
      AlertsSince(old(log), old@people(log), log);
    }

    method Gc(cam: string, now: real)
      modifies this`objects, this`recentPeople, this`clock
      ensures View() == Collect(cfg, old(View()), cam, now)
    {
      clock := clock[cam := now];
      var left := objects.Keys;
      while left != {}
        invariant left <= old(objects).Keys
        invariant objects == map k | k in old(objects) &&
          (k in left || !(k.0 == cam && old(objects)[k].lastSeen < now - cfg.ttl)) :: old(objects)[k]
        invariant recentPeople == old(recentPeople) && clock == old(clock)[cam := now]
        decreases left
      {
        var key :| key in left;
        left := left - {key};
        if key.0 == cam && objects[key].lastSeen < now - cfg.ttl {
          objects := objects - {key};
        }
      }
      assert objects == DropIdle(cfg, old(objects), cam, now);
      var bucket := if cam in recentPeople then recentPeople[cam] else [];
      var kept := [];
      for i := 0 to |bucket|
        invariant kept == Recent(bucket[..i], now - cfg.grace)
        invariant recentPeople == old(recentPeople) && clock == old(clock)[cam := now]
        invariant objects == DropIdle(cfg, old(objects), cam, now)
      {
        assert bucket[..i + 1][..i] == bucket[..i];
        if bucket[i].ts >= now - cfg.grace {
          kept := kept + [bucket[i]];
        }
      }
      assert bucket[..|bucket|] == bucket;
      recentPeople := recentPeople[cam := kept];
    }

    method FirstPass(cam: string, ts: real, ds: seq<Detection>)
      modifies this`recentPeople, this`log
      ensures View() == NotePeople(cfg, old(View()), cam, ts, ds)
      ensures old(log) <= log && Alerts(log[|old(log)|..]) == []
    {
      for i := 0 to |ds|
        invariant View() == NotePeople(cfg, old(View()), cam, ts, ds[..i])
        invariant old(log) <= log && Alerts(log[|old(log)|..]) == []
      {
        assert ds[..i + 1][..i] == ds[..i];
        ghost var before := log;
        NoteOnePerson(cam, ts, ds[i]);
        AlertsSince(old(log), before, log);
      }
      assert ds[..|ds|] == ds;
    }

    method NoteOnePerson(cam: string, ts: real, d: Detection)
      modifies this`recentPeople, this`log
      ensures View() == NotePerson(cfg, old(View()), cam, ts, d)
      ensures old(log) <= log && Alerts(log[|old(log)|..]) == []
    {
      if d.kind == cfg.personLabel {
        if d.center.Some? {
          var bucket := if cam in recentPeople then recentPeople[cam] else [];
          recentPeople := recentPeople[cam := bucket + [Sighting(d.center.value, ts)]];
          log := log + [Person(cam, d.center.value, ts)];
        }
      }
    }

    method PersonNearNow(cam: string, point: Point, now: real) returns (near: bool)
      ensures near == PersonNear(cfg, Bucket(View(), cam), point, now)
    {
      var bucket := if cam in recentPeople then recentPeople[cam] else [];
      for i := 0 to |bucket|
        invariant forall j :: 0 <= j < i ==>
          !(bucket[j].ts >= now - cfg.grace && Within(bucket[j].p, point, cfg.radius))
      {
        if bucket[i].ts >= now - cfg.grace && Within(bucket[i].p, point, cfg.radius) { return true; }
      }
      return false;
    }

    method SecondPass(cam: string, ts: real, ds: seq<Detection>) returns (fired: seq<Obs>)
      modifies this`objects, this`log
      ensures View() == NoteObjects(cfg, old(View()), cam, ts, ds)
      ensures old(log) <= log && fired == Alerts(log[|old(log)|..])
    {
      hide NoteObject, AtMostOneAlert;
      fired := [];
      for i := 0 to |ds|
        invariant View() == NoteObjects(cfg, old(View()), cam, ts, ds[..i])
        invariant old(log) <= log && fired == Alerts(log[|old(log)|..])
      {
        assert ds[..i + 1][..i] == ds[..i];
        ghost var before := log;
        var one := TestObject(cam, ts, ds[i]);
        AlertsOfOne(log[|before|..]);
        AlertsSince(old(log), before, log);
        fired := fired + one;
      }
      assert ds[..|ds|] == ds;
    }

    method TestObject(cam: string, ts: real, d: Detection) returns (fired: seq<Obs>)
      modifies this`objects, this`log
      ensures View() == NoteObject(cfg, old(View()), cam, ts, d)
      ensures old(log) <= log && AtMostOneAlert(log[|old(log)|..])
      ensures fired == if |log| == |old(log)| + 2 then [log[|old(log)| + 1]] else []
    {
      hide PersonNear, Within;
      if !Watched(cfg, cam, d) { return []; }
      var key, center := (cam, d.track.value), d.center.value;
      log := log + [Seen(cam, d.track.value, center, ts)];
      if key !in objects {
        objects := objects[key := Record(d.kind, center, ts, ts, false)];
        return [];
      }
      var track := objects[key].(lastSeen := ts);
      objects := objects[key := track];
      if !Within(center, track.anchor, cfg.tolerance) {
        objects := objects[key := track.(anchor := center, firstSeen := ts, alerted := false)];
        return [];
      }
      if ts - track.firstSeen < cfg.dwell || track.alerted { return []; }
      var near := PersonNearNow(cam, track.anchor, ts);
      if near { return []; }
      fired := [Fired(cam, d.track.value, track.anchor, ts)];
      objects := objects[key := track.(alerted := true)];
      log := log + fired;
    }
  }

  /** The alerts among log entries. */
  function Alerts(log: seq<Obs>): seq<Obs>
  {
    if log == [] then [] else (if log[0].Fired? then [log[0]] else []) + Alerts(log[1..])
  }

  predicate AtMostOneAlert(log: seq<Obs>)
  {
    |log| <= 2 && (|log| > 0 ==> !log[0].Fired?) && (|log| == 2 ==> log[1].Fired?)
  }

  lemma AlertsOfOne(log: seq<Obs>)
    requires AtMostOneAlert(log)
    ensures Alerts(log) == if |log| == 2 then [log[1]] else []
  {
    if |log| == 2 { assert Alerts(log[1..]) == [log[1]] + Alerts(log[1..][1..]); }
  }

  lemma AlertsCons(x: Obs, log: seq<Obs>)
    ensures Alerts([x] + log) == (if x.Fired? then [x] else []) + Alerts(log)
  {
    assert ([x] + log)[1..] == log;
  }

  lemma {:induction false} AlertsConcat(a: seq<Obs>, b: seq<Obs>)
    ensures Alerts(a + b) == Alerts(a) + Alerts(b)
  {
    if a == [] {
      assert a + b == b;
    } else {
      assert a + b == [a[0]] + (a[1..] + b);
      AlertsCons(a[0], a[1..] + b);
      AlertsCons(a[0], a[1..]);
      assert a == [a[0]] + a[1..];
      hide Alerts;
      AlertsConcat(a[1..], b);
    }
  }

  lemma AlertsSince(a: seq<Obs>, b: seq<Obs>, c: seq<Obs>)
    requires a <= b <= c
    ensures Alerts(c[|a|..]) == Alerts(b[|a|..]) + Alerts(c[|b|..])
  {
    hide Alerts;
    assert c[|a|..] == b[|a|..] + c[|b|..];
    AlertsConcat(b[|a|..], c[|b|..]);
  }
}
