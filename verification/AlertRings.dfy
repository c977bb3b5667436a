/**
 The app-alert rings of `CameraContext`: one bounded ring per source app, at most 64 apps, and the app
 whose newest alert is oldest makes room for a new one. The log of records and evictions is the
 reference: rings, evictions and queries are all stated over it.
 */
module AlertRings {
  import opened Common

  datatype Alert = Alert(app: string, receivedAt: real, text: string, seqNo: nat)

  datatype Obs = Recorded(alert: Alert) | Evicted(app: string)

  const MAX_APP_RINGS: nat := 64

  /** `order` is the dict's insertion order. */
  datatype State = State(size: nat, order: seq<string>, rings: map<string, seq<Alert>>, nextSeq: nat, log: seq<Obs>)

  function Init(size: nat): State
  {
    State(size, [], map[], 0, [])
  }

  // ---------- Recording ----------

  predicate Stocked(order: seq<string>, rings: map<string, seq<Alert>>)
  {
    forall k :: k in order ==> k in rings && rings[k] != []
  }

  function Newest(ring: seq<Alert>): real
    requires ring != []
  {
    ring[|ring| - 1].receivedAt
  }

  /** The first app, in dict order, whose newest alert is oldest. */
  function Stalest(order: seq<string>, rings: map<string, seq<Alert>>): (app: string)
    requires order != [] && Stocked(order, rings)
    ensures app in order
  {
    var last := order[|order| - 1];
    if |order| == 1 then last else
    var best := Stalest(order[..|order| - 1], rings);
    if Newest(rings[last]) < Newest(rings[best]) then last else best
  }

  function Evict(s: State, app: string): State
  {
    s.(order := Without(s.order, app), rings := s.rings - {app}, log := s.log + [Evicted(app)])
  }

  predicate MustEvict(s: State, app: string)
  {
    app !in s.rings && |s.rings| >= MAX_APP_RINGS && s.order != [] && Stocked(s.order, s.rings)
  }

  function Put(s: State, app: string, receivedAt: real, text: string): State
  {
    var a := Alert(app, receivedAt, text, s.nextSeq);
    var ring := if app in s.rings then s.rings[app] else [];
    s.(order := if app in s.rings then s.order else s.order + [app],
       rings := s.rings[app := LastN(ring + [a], s.size)],
       nextSeq := s.nextSeq + 1,
       log := s.log + [Recorded(a)])
  }

  function Record(s: State, app: string, receivedAt: real, text: string): State
  {
    Put(if MustEvict(s, app) then Evict(s, Stalest(s.order, s.rings)) else s, app, receivedAt, text)
  }

  /** The arguments of one `record_app_alert`. */
  datatype Arrival = Arrival(app: string, receivedAt: real, text: string)

  function After(size: nat, xs: seq<Arrival>): State
  {
    if xs == [] then Init(size) else
    var x := xs[|xs| - 1];
    Record(After(size, xs[..|xs| - 1]), x.app, x.receivedAt, x.text)
  }

  // ---------- The log as reference ----------

  /** The alerts of `app` since its ring was last created. */
  function Since(log: seq<Obs>, app: string): seq<Alert>
  {
    if log == [] then [] else
    SinceStep(Since(log[..|log| - 1], app), log[|log| - 1], app)
  }

  function SinceStep(before: seq<Alert>, x: Obs, app: string): seq<Alert>
  {
    match x
    case Recorded(a) => if a.app == app then before + [a] else before
    case Evicted(b) => if b == app then [] else before
  }

  /** All alerts ever recorded. */
  function Alerts(log: seq<Obs>): seq<Alert>
  {
    if log == [] then [] else
    var x, before := log[|log| - 1], Alerts(log[..|log| - 1]);
    if x.Recorded? then before + [x.alert] else before
  }

  /** The evicted app had a ring, and no ring had an older newest alert. */
  ghost predicate EvictionJustified(log: seq<Obs>, i: nat)
    requires i < |log| && log[i].Evicted?
  {
    var gone := Since(log[..i], log[i].app);
    gone != [] && forall b: string :: Since(log[..i], b) != [] ==> Newest(gone) <= Newest(Since(log[..i], b))
  }

  ghost predicate RingOK(s: State, app: string)
  {
    && (app in s.rings <==> Since(s.log, app) != [])
    && (app in s.rings ==> s.rings[app] == LastN(Since(s.log, app), s.size))
  }

  ghost predicate RingsOK(s: State)
  {
    forall app: string :: RingOK(s, app)
  }

  ghost predicate OrderOK(s: State)
  {
    && |s.order| <= MAX_APP_RINGS
    && (forall k :: k in s.order <==> k in s.rings)
    && (forall i, j :: 0 <= i < j < |s.order| ==> s.order[i] != s.order[j])
  }

  ghost predicate EvictionsOK(s: State)
  {
    forall i :: 0 <= i < |s.log| && s.log[i].Evicted? ==> EvictionJustified(s.log, i)
  }

  /** Sequence numbers are positions among all recorded alerts. */
  ghost predicate StampsOK(s: State)
  {
    s.nextSeq == |Alerts(s.log)| && forall i :: 0 <= i < |Alerts(s.log)| ==> Alerts(s.log)[i].seqNo == i
  }

  ghost predicate Inv(s: State)
  {
    1 <= s.size && RingsOK(s) && OrderOK(s) && EvictionsOK(s) && StampsOK(s)
  }

  // ---------- Preservation ----------

  lemma SinceAppend(log: seq<Obs>, x: Obs, app: string)
    ensures Since(log + [x], app) == SinceStep(Since(log, app), x, app)
  {
    assert (log + [x])[..|log|] == log;
  }

  lemma AlertsAppend(log: seq<Obs>, x: Obs)
    ensures Alerts(log + [x]) == if x.Recorded? then Alerts(log) + [x.alert] else Alerts(log)
  {
    assert (log + [x])[..|log|] == log;
  }

  lemma {:induction false} StalestIsStalest(order: seq<string>, rings: map<string, seq<Alert>>)
    requires order != [] && Stocked(order, rings)
    ensures forall k :: k in order ==> Newest(rings[Stalest(order, rings)]) <= Newest(rings[k])
  {
    var init := order[..|order| - 1];
    assert order == init + [order[|order| - 1]];
    if |order| > 1 {
      StalestIsStalest(init, rings);
    }
  }

  predicate NoDups(order: seq<string>)
  {
    forall i, j :: 0 <= i < j < |order| ==> order[i] != order[j]
  }

  lemma {:induction false} WithoutRemoves(order: seq<string>, app: string)
    requires NoDups(order) && app in order
    ensures NoDups(Without(order, app)) && |Without(order, app)| == |order| - 1
    ensures forall k :: k in Without(order, app) <==> k in order && k != app
  {
    assert order == [order[0]] + order[1..];
    if order[0] == app {
      assert forall i :: 1 <= i < |order| ==> order[i] != app;
      assert app !in order[1..];
    } else {
      var rest := Without(order[1..], app);
      WithoutRemoves(order[1..], app);
      forall j | 0 <= j < |rest| ensures rest[j] != order[0] {
        assert rest[j] in order[1..];
      }
    }
  }

  lemma NewestOfSince(s: State, app: string)
    requires RingOK(s, app) && 1 <= s.size && app in s.rings
    ensures s.rings[app] != [] && Newest(s.rings[app]) == Newest(Since(s.log, app))
  {
  }

  lemma EvictionsAppend(s: State, s': State, x: Obs)
    requires EvictionsOK(s) && s'.log == s.log + [x]
    requires x.Evicted? ==> EvictionJustified(s'.log, |s.log|)
    ensures EvictionsOK(s')
  {
    forall i | 0 <= i < |s'.log| && s'.log[i].Evicted? ensures EvictionJustified(s'.log, i) {
      if i < |s.log| { assert s'.log[..i] == s.log[..i]; }
    }
  }

  lemma AllStocked(s: State)
    requires RingsOK(s) && 1 <= s.size && OrderOK(s)
    ensures Stocked(s.order, s.rings)
  {
    forall k | k in s.order ensures k in s.rings && s.rings[k] != [] {
      assert RingOK(s, k);
      NewestOfSince(s, k);
    }
  }

  lemma StalestJustified(s: State)
    requires RingsOK(s) && 1 <= s.size && OrderOK(s) && s.order != [] && Stocked(s.order, s.rings)
    ensures EvictionJustified(s.log + [Evicted(Stalest(s.order, s.rings))], |s.log|)
  {
    var app := Stalest(s.order, s.rings);
    var log' := s.log + [Evicted(app)];
    assert log'[..|s.log|] == s.log;
    StalestIsStalest(s.order, s.rings);
    assert RingOK(s, app);
    NewestOfSince(s, app);
    forall b: string | Since(s.log, b) != [] ensures Newest(Since(s.log, app)) <= Newest(Since(s.log, b)) {
      assert RingOK(s, b);
      NewestOfSince(s, b);
    }
  }

  lemma EvictKeepsInv(s: State)
    requires Inv(s) && s.order != [] && Stocked(s.order, s.rings)
    ensures Inv(Evict(s, Stalest(s.order, s.rings)))
    ensures |Evict(s, Stalest(s.order, s.rings)).order| == |s.order| - 1
  {
    var app := Stalest(s.order, s.rings);
    var s' := Evict(s, app);
    StalestIsStalest(s.order, s.rings);
    WithoutRemoves(s.order, app);
    StalestJustified(s);
    EvictionsAppend(s, s', Evicted(app));
    AlertsAppend(s.log, Evicted(app));
    forall b: string ensures RingOK(s', b) {
      assert RingOK(s, b);
      SinceAppend(s.log, Evicted(app), b);
    }
  }

  lemma PutKeepsInv(s: State, app: string, receivedAt: real, text: string)
    requires Inv(s) && (app in s.rings || |s.order| < MAX_APP_RINGS)
    ensures Inv(Put(s, app, receivedAt, text))
  {
    var s' := Put(s, app, receivedAt, text);
    var x := Recorded(Alert(app, receivedAt, text, s.nextSeq));
    EvictionsAppend(s, s', x);
    AlertsAppend(s.log, x);
    forall b: string ensures RingOK(s', b) {
      assert RingOK(s, b);
      SinceAppend(s.log, x, b);
      LastNAppend(Since(s.log, b), x.alert, s.size);
    }
  }

  lemma {:induction false} OrderIsKeys(order: seq<string>, keys: set<string>)
    requires NoDups(order) && forall k :: k in order <==> k in keys
    ensures |order| == |keys|
  {
    if order == [] {
      assert keys == {};
    } else {
      OrderIsKeys(order[1..], keys - {order[0]});
    }
  }

  lemma RecordKeepsInv(s: State, app: string, receivedAt: real, text: string)
    requires Inv(s)
    ensures Inv(Record(s, app, receivedAt, text)) && Record(s, app, receivedAt, text).size == s.size
  {
    AllStocked(s);
    OrderIsKeys(s.order, s.rings.Keys);
    hide RingsOK, EvictionsOK, StampsOK;
    if MustEvict(s, app) {
      EvictKeepsInv(s);
      PutKeepsInv(Evict(s, Stalest(s.order, s.rings)), app, receivedAt, text);
    } else {
      PutKeepsInv(s, app, receivedAt, text);
    }
  }

  lemma {:induction false} Reachable(size: nat, xs: seq<Arrival>)
    requires 1 <= size
    ensures Inv(After(size, xs)) && After(size, xs).size == size
  {
    if xs != [] {
      var x, prefix := xs[|xs| - 1], xs[..|xs| - 1];
      Reachable(size, prefix);
      hide Inv, Record;
      RecordKeepsInv(After(size, prefix), x.app, x.receivedAt, x.text);
    }
  }

  // ---------- Theorems about every run ----------

  /** In every reachable state there are at most 64 rings; an app has one exactly when it has alerts
      since its last eviction, and the ring holds the most recent of those; and every eviction so far
      removed a ring whose newest alert was oldest. */
  lemma RingsHoldTheMostRecent(size: nat, xs: seq<Arrival>)
    requires 1 <= size
    ensures var s := After(size, xs);
      && |s.rings| <= MAX_APP_RINGS
      && (forall app: string :: app in s.rings <==> Since(s.log, app) != [])
      && (forall app: string :: app in s.rings ==> s.rings[app] == LastN(Since(s.log, app), size))
      && (forall i :: 0 <= i < |s.log| && s.log[i].Evicted? ==> EvictionJustified(s.log, i))
  {
    Reachable(size, xs);
    hide Record;
    InvSummary(After(size, xs));
  }

  lemma InvSummary(s: State)
    requires Inv(s)
    ensures |s.rings| <= MAX_APP_RINGS
    ensures forall app: string :: app in s.rings <==> Since(s.log, app) != []
    ensures forall app: string :: app in s.rings ==> s.rings[app] == LastN(Since(s.log, app), s.size)
    ensures EvictionsOK(s)
  {
    OrderIsKeys(s.order, s.rings.Keys);
    forall app: string
      ensures (app in s.rings <==> Since(s.log, app) != []) &&
              (app in s.rings ==> s.rings[app] == LastN(Since(s.log, app), s.size))
    {
      assert RingOK(s, app);
    }
  }

  // ---------- What an arrival does ----------

  lemma AfterOne(size: nat, xs: seq<Arrival>, x: Arrival)
    ensures After(size, xs + [x]) == Record(After(size, xs), x.app, x.receivedAt, x.text)
  {
    assert (xs + [x])[..|xs|] == xs;
  }

  /** What is recorded is what arrived, in order, numbered from zero. */
  lemma {:induction false} AlertsAreArrivals(size: nat, xs: seq<Arrival>)
    requires 1 <= size
    ensures var all := Alerts(After(size, xs).log);
      |all| == |xs| && forall i :: 0 <= i < |xs| ==> all[i] == Alert(xs[i].app, xs[i].receivedAt, xs[i].text, i)
  {
    if xs != [] {
      var before, x := xs[..|xs| - 1], xs[|xs| - 1];
      assert xs == before + [x];
      AlertsAreArrivals(size, before);
      ArrivalIsLogged(size, before, x);
      var log := After(size, before).log;
      AlertsGrow(log, After(size, xs).log, Alert(x.app, x.receivedAt, x.text, |Alerts(log)|));
      hide *;
    }
  }

  lemma AlertsGrow(log: seq<Obs>, log': seq<Obs>, a: Alert)
    requires log' == log + [Recorded(a)] || exists gone :: log' == log + [Evicted(gone), Recorded(a)]
    ensures Alerts(log') == Alerts(log) + [a]
  {
    hide Alerts;
    if gone :| log' == log + [Evicted(gone), Recorded(a)] {
      assert log' == log + [Evicted(gone)] + [Recorded(a)];
      AlertsAppend(log, Evicted(gone));
      AlertsAppend(log + [Evicted(gone)], Recorded(a));
    } else {
      AlertsAppend(log, Recorded(a));
    }
  }

  /** 64 apps have a ring. */
  ghost predicate Full(log: seq<Obs>)
  {
    exists apps: set<string> :: |apps| == 64 && forall app :: app in apps ==> Since(log, app) != []
  }

  lemma Smaller<T>(a: set<T>, b: set<T>)
    requires a <= b
    ensures |a| <= |b|
  {
    assert a + (b - a) == b;
  }

  lemma FullIsFull(s: State)
    requires Inv(s)
    ensures Full(s.log) <==> |s.rings| >= MAX_APP_RINGS
  {
    InvSummary(s);
    if apps: set<string> :| |apps| == 64 && forall app :: app in apps ==> Since(s.log, app) != [] {
      assert apps <= s.rings.Keys;
      Smaller(apps, s.rings.Keys);
    }
    if |s.rings| >= MAX_APP_RINGS {
      assert |s.rings.Keys| == 64 && forall app :: app in s.rings.Keys ==> Since(s.log, app) != [];
    }
  }

  /** An arrival is recorded, and a ring is evicted before it if and only if 64 apps have one and its own app has
      none. */
  lemma ArrivalIsLogged(size: nat, xs: seq<Arrival>, x: Arrival)
    requires 1 <= size
    ensures var log, log' := After(size, xs).log, After(size, xs + [x]).log;
      var a := Alert(x.app, x.receivedAt, x.text, |Alerts(log)|);
      if Full(log) && Since(log, x.app) == [] then exists gone :: log' == log + [Evicted(gone), Recorded(a)]
      else log' == log + [Recorded(a)]
  {
    var s := After(size, xs);
    Reachable(size, xs);
    AfterOne(size, xs, x);
    InvSummary(s);
    FullIsFull(s);
    AllStocked(s);
    OrderIsKeys(s.order, s.rings.Keys);
    hide After, Alerts, Since, Full, RingsOK, EvictionsOK;
    if MustEvict(s, x.app) {
      var gone, a := Stalest(s.order, s.rings), Alert(x.app, x.receivedAt, x.text, s.nextSeq);
      assert s.log + [Evicted(gone)] + [Recorded(a)] == s.log + [Evicted(gone), Recorded(a)];
    }
  }

  /** Of several stalest rings the one first in the dict goes, as with `min`. */
  lemma {:induction false} StalestIsFirst(order: seq<string>, rings: map<string, seq<Alert>>, i: nat)
    requires order != [] && Stocked(order, rings) && i < |order|
    requires forall k :: 0 <= k < i ==> order[k] != Stalest(order, rings)
    ensures order[i] != Stalest(order, rings) ==> Newest(rings[order[i]]) > Newest(rings[Stalest(order, rings)])
  {
    var init := order[..|order| - 1];
    if |order| > 1 {
      StalestIsStalest(init, rings);
      assert Stalest(init, rings) in init;
      if i < |init| {
        assert forall k :: 0 <= k < i ==> init[k] == order[k];
        if Stalest(order, rings) == Stalest(init, rings) {
          StalestIsFirst(init, rings, i);
        } else {
          assert init[i] in init;
        }
      }
    }
  }

  // ---------- Queries ----------

  /** Sort key `(received_at, seq)`, newest first. */
  predicate Newer(a: Alert, b: Alert)
  {
    a.receivedAt > b.receivedAt || (a.receivedAt == b.receivedAt && a.seqNo > b.seqNo)
  }

  predicate NewestFirst(s: seq<Alert>)
  {
    forall i, j :: 0 <= i < j < |s| ==> Newer(s[i], s[j])
  }

  predicate DistinctSeqNos(s: seq<Alert>)
  {
    forall i, j :: 0 <= i < j < |s| ==> s[i].seqNo != s[j].seqNo
  }

  function Insert(a: Alert, s: seq<Alert>): seq<Alert>
  {
    if s == [] || Newer(a, s[0]) then [a] + s else [s[0]] + Insert(a, s[1..])
  }

  function SortNewestFirst(s: seq<Alert>): seq<Alert>
  {
    if s == [] then [] else Insert(s[0], SortNewestFirst(s[1..]))
  }

  lemma {:induction false} InsertSorts(a: Alert, s: seq<Alert>)
    requires NewestFirst(s) && forall b :: b in s ==> b.seqNo != a.seqNo
    ensures NewestFirst(Insert(a, s))
    ensures forall b :: b in Insert(a, s) <==> b == a || b in s
  {
    if s != [] && !Newer(a, s[0]) {
      InsertSorts(a, s[1..]);
      var t := Insert(a, s[1..]);
      assert forall b :: b in s <==> b == s[0] || b in s[1..];
      assert Newer(s[0], a);
      forall k | 0 <= k < |t| ensures Newer(s[0], t[k]) {
        assert t[k] in t;
      }
    }
  }

  lemma {:induction false} SortSorts(s: seq<Alert>)
    requires DistinctSeqNos(s)
    ensures NewestFirst(SortNewestFirst(s))
    ensures forall b :: b in SortNewestFirst(s) <==> b in s
  {
    if s != [] {
      SortSorts(s[1..]);
      InsertSorts(s[0], SortNewestFirst(s[1..]));
      assert forall b :: b in s <==> b == s[0] || b in s[1..];
    }
  }

  /** Membership and strict order leave no choice: there is only one right answer to a query. */
  lemma {:induction false} AnswerIsUnique(s: seq<Alert>, t: seq<Alert>)
    requires NewestFirst(s) && NewestFirst(t) && forall a :: a in s <==> a in t
    ensures s == t
  {
    assert t != [] ==> t[0] in s;
    if s != [] {
      assert s[0] in t;
      assert s[0] == t[0];
      forall a ensures a in s[1..] <==> a in t[1..] {
        if a in s[1..] { assert a in s && a != s[0]; }
        if a in t[1..] { assert a in t && a != t[0]; }
      }
      AnswerIsUnique(s[1..], t[1..]);
    }
  }

  function Kept(ring: seq<Alert>, cutoff: real): seq<Alert>
  {
    if ring == [] then [] else
    var last, before := ring[|ring| - 1], Kept(ring[..|ring| - 1], cutoff);
    if last.receivedAt >= cutoff then before + [last] else before
  }

  lemma {:induction false} KeptIs(ring: seq<Alert>, cutoff: real)
    ensures forall a :: a in Kept(ring, cutoff) <==> a in ring && a.receivedAt >= cutoff
    ensures DistinctSeqNos(ring) ==> DistinctSeqNos(Kept(ring, cutoff))
  {
    if ring != [] {
      var prefix := ring[..|ring| - 1];
      KeptIs(prefix, cutoff);
      assert ring == prefix + [ring[|ring| - 1]];
      forall a | a in Kept(prefix, cutoff) && DistinctSeqNos(ring) ensures a.seqNo != ring[|ring| - 1].seqNo {
        assert a in prefix;
      }
    }
  }

  /** What an alert of a ring says about where it is recorded. */
  ghost predicate Genuine(log: seq<Obs>, app: string, a: Alert)
  {
    a.app == app && a.seqNo < |Alerts(log)| && Alerts(log)[a.seqNo] == a
  }

  ghost predicate Stamped(log: seq<Obs>)
  {
    forall i :: 0 <= i < |Alerts(log)| ==> Alerts(log)[i].seqNo == i
  }

  lemma {:induction false} SinceIsGenuine(log: seq<Obs>, app: string)
    requires Stamped(log)
    ensures forall a :: a in Since(log, app) ==> Genuine(log, app, a)
    ensures forall i, j :: 0 <= i < j < |Since(log, app)| ==> Since(log, app)[i].seqNo < Since(log, app)[j].seqNo
  {
    if log != [] {
      var prefix := log[..|log| - 1];
      assert forall i :: 0 <= i < |Alerts(prefix)| ==> Alerts(log)[i] == Alerts(prefix)[i];
      SinceIsGenuine(prefix, app);
      var x := log[|log| - 1];
      if x.Recorded? { assert Alerts(log)[|Alerts(prefix)|] == x.alert; }
      assert forall i :: 0 <= i < |Since(prefix, app)| ==> Since(prefix, app)[i] in Since(prefix, app);
      forall a | a in Since(log, app) ensures Genuine(log, app, a) {
        assert a in Since(prefix, app) ==> Genuine(prefix, app, a);
      }
    }
  }

  lemma RingIsGenuine(s: State, app: string)
    requires RingsOK(s) && StampsOK(s) && app in s.rings
    ensures DistinctSeqNos(s.rings[app])
    ensures forall a :: a in s.rings[app] ==> Genuine(s.log, app, a)
  {
    assert RingOK(s, app);
    SinceIsGenuine(s.log, app);
  }

  /** The retained alerts a query selects: of one app, or of all. */
  predicate Selected(s: State, which: Option<string>, cutoff: real, a: Alert)
  {
    a.receivedAt >= cutoff && a.app in s.rings && a in s.rings[a.app] && (which.None? || which.value == a.app)
  }

  ghost predicate Gathered(s: State, which: Option<string>, cutoff: real, apps: seq<string>, r: nat, out: seq<Alert>)
    requires r <= |apps|
  {
    DistinctSeqNos(out) &&
    forall a :: a in out <==> Selected(s, which, cutoff, a) && a.app in apps[..r]
  }

  /** Going through one more ring. */
  lemma GatherOne(s: State, which: Option<string>, cutoff: real, apps: seq<string>, r: nat, out: seq<Alert>)
    requires RingsOK(s) && StampsOK(s) && NoDups(apps) && r < |apps|
    requires forall k :: k in apps ==> k in s.rings && (which.None? || which.value == k)
    requires Gathered(s, which, cutoff, apps, r, out)
    ensures Gathered(s, which, cutoff, apps, r + 1, out + Kept(s.rings[apps[r]], cutoff))
  {
    var app := apps[r];
    var kept := Kept(s.rings[app], cutoff);
    RingIsGenuine(s, app);
    KeptIs(s.rings[app], cutoff);
    hide RingsOK, StampsOK, Kept;
    forall a, b | a in out && b in kept ensures a.seqNo != b.seqNo {
      RingIsGenuine(s, a.app);
      assert Genuine(s.log, a.app, a) && Genuine(s.log, app, b);
    }
    assert apps[..r + 1] == apps[..r] + [app];
  }

  // ---------- The object ----------

  class Rings {
    const size: nat
    var order: seq<string>
    var rings: map<string, seq<Alert>>
    var nextSeq: nat
    ghost var log: seq<Obs>

    ghost function View(): State
      reads this
    {
      State(size, order, rings, nextSeq, log)
    }

    constructor (eventRingSize: int)
      ensures size == (if eventRingSize < 1 then 1 else eventRingSize)
      ensures View() == Init(size) && Inv(View())
    {
      size := if eventRingSize < 1 then 1 else eventRingSize;
      order, rings, nextSeq, log := [], map[], 0, [];
    }

    /** `min(self._app_alerts, key=...)`: the first minimum in dict order. */
    method FindStalest() returns (stalest: string)
      requires order != [] && Stocked(order, rings)
      ensures stalest == Stalest(order, rings)
    {
      stalest := order[0];
      for i := 1 to |order|
        invariant stalest == Stalest(order[..i], rings)
      {
        assert order[..i + 1][..i] == order[..i];
        if Newest(rings[order[i]]) < Newest(rings[stalest]) {
          stalest := order[i];
        }
      }
      assert order[..|order|] == order;
    }

    method RecordAppAlert(app: string, receivedAt: real, text: string)
      requires Inv(View())
      modifies this`order, this`rings, this`nextSeq, this`log
      ensures View() == Record(old(View()), app, receivedAt, text) && Inv(View())
    {
      RecordKeepsInv(View(), app, receivedAt, text);
      hide Inv;
      MakeRoom(app);
      Append(app, receivedAt, text);
    }

    method MakeRoom(app: string)
      requires Inv(View())
      modifies this`order, this`rings, this`log
      ensures var s := old(View());
        View() == if MustEvict(s, app) then Evict(s, Stalest(s.order, s.rings)) else s
    {
      AllStocked(View());
      if app !in rings && |rings| >= MAX_APP_RINGS {
        OrderNotEmpty();
        hide Inv;
        var stalest := FindStalest();
        order := Without(order, stalest);
        rings := rings - {stalest};
        log := log + [Evicted(stalest)];
      }
    }

    method Append(app: string, receivedAt: real, text: string)
      modifies this`order, this`rings, this`nextSeq, this`log
      ensures View() == Put(old(View()), app, receivedAt, text)
    {
      if app !in rings {
        order := order + [app];
        rings := rings[app := []];
      }
      var a := Alert(app, receivedAt, text, nextSeq);
      nextSeq := nextSeq + 1;
      rings := rings[app := LastN(rings[app] + [a], size)];
      log := log + [Recorded(a)];
    }

    lemma OrderNotEmpty()
      requires Inv(View()) && |rings| >= MAX_APP_RINGS
      ensures order != []
    {
      OrderIsKeys(order, rings.Keys);
    }

    /** Exactly the retained alerts after the cutoff, strictly newest first. */
    method RecentAppAlerts(which: Option<string>, cutoff: real) returns (out: seq<Alert>)
      requires Inv(View())
      ensures NewestFirst(out)
      ensures forall a :: a in out <==> Selected(View(), which, cutoff, a)
    {
      var apps := if which.None? then order else if which.value in rings then [which.value] else [];
      out := [];
      for r := 0 to |apps|
        invariant Gathered(View(), which, cutoff, apps, r, out)
      {
        GatherOne(View(), which, cutoff, apps, r, out);
        out := out + Kept(rings[apps[r]], cutoff);
      }
      assert apps[..|apps|] == apps;
      SortSorts(out);
      out := SortNewestFirst(out);
    }
  }
}
