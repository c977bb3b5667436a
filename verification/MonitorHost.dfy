/**
 The monitor host: SDK rules run inside the agent's process, one polling coroutine per monitor.

 A hosted monitor is an object of its own: its poll keeps it after the host has forgotten it. `objects`
 numbers these objects, and `monitors` is the host's dict from ids to them. A poll is cut at its awaits
 and may end any time after it started, even after the monitor was stopped. What the SDK rule fires for
 one event is a parameter of the step. A disabled event does nothing, so every sequence of events is a
 run.
 */
module MonitorHost {
  import opened Common
  import opened Text

  datatype Rule = Occupancy | LineCrossing

  /** What `float()` makes of a parameter. */
  datatype Number = Finite(value: real) | NonFinite | Malformed

  /** An alert with the parts the host reads: the camera and the crossing direction in its evidence. */
  datatype Alert = Alert(camera: string, direction: string, title: string)

  datatype Tally = Tally(ins: nat, outs: nat)

  datatype Params = Params(target: string, interval: Option<Number>, line: Option<seq<Number>>,
                           maxCount: Option<int>, minCount: Option<int>, notifyOnAlert: Option<bool>)

  datatype Request = Request(rule: string, cameras: seq<string>, params: Params, monitorId: Option<int>)

  datatype Hosted = Hosted(id: int, rule: Rule, cameras: seq<string>, target: string, interval: real, notifies: bool,
                           active: bool, stopped: bool, crashed: bool, alertsFired: nat, recent: seq<Alert>,
                           tallies: map<string, Tally>)

  datatype Notice = Notice(monitor: nat, id: int, alert: Alert)

  datatype Obs = Delivered(to: nat, alert: Alert) | Dropped(from: nat, lost: Alert) | Halted(monitor: nat)

  datatype State = State(monitors: map<int, nat>, objects: seq<Hosted>, nextId: int, polling: map<nat, string>,
                         notices: seq<Notice>, log: seq<Obs>)

  datatype Event =
    | Create(request: Request)
    | Stop(id: int)
    | PollStarts(starter: nat, camera: string)
    | PollEnds(finisher: nat, fired: seq<Alert>)
    | PollFails(failer: nat)
    | Feed(listener: nat, source: string, heard: seq<Alert>)
    | LoopCrashes(loop: nat)

  const RECENT: nat := 20

  const Init := State(map[], [], 1, map[], [], [])

  // ---------- Creating ----------

  datatype Reason = UnknownRule | NoCamera | NoTarget | BadInterval | IdInUse | BadCounts | BadLine

  function RuleOf(rule: string): Option<Rule>
  {
    if rule == "occupancy" then Some(Occupancy) else if rule == "line_crossing" then Some(LineCrossing) else None
  }

  function NonBlank(cameras: seq<string>): seq<string>
  {
    if cameras == [] then [] else
    var rest, cam := NonBlank(cameras[1..]), Strip(cameras[0]);
    if cam != [] then [cam] + rest else rest
  }

  predicate PositiveNumber(n: Number)
  {
    n.Finite? && n.value > 0.0
  }

  predicate CountsFit(p: Params)
  {
    && (p.maxCount.Some? ==> p.maxCount.value >= 0)
    && (p.minCount.Some? ==> p.minCount.value >= 0)
    && (p.maxCount.Some? && p.minCount.Some? ==> p.minCount.value <= p.maxCount.value)
  }

  /** Four finite numbers whose two end points differ. */
  predicate ProperLine(line: seq<Number>)
  {
    |line| == 4 && (forall n :: n in line ==> n.Finite?) && (line[0] != line[2] || line[1] != line[3])
  }

  function IdFor(s: State, r: Request): int
  {
    if r.monitorId.Some? then r.monitorId.value else s.nextId
  }

  /** The first objection, in the order the checks are made, before an id is allocated. */
  function EarlyRefusal(s: State, r: Request): Option<Reason>
  {
    if RuleOf(r.rule).None? then Some(UnknownRule) else
    if NonBlank(r.cameras) == [] then Some(NoCamera) else
    if Lower(Strip(r.params.target)) == "" then Some(NoTarget) else
    if r.params.interval.Some? && !PositiveNumber(r.params.interval.value) then Some(BadInterval) else
    if IdFor(s, r) in s.monitors then Some(IdInUse) else None
  }

  /** Objections of the rule builders, raised after the id was allocated. */
  function LateRefusal(r: Request): Option<Reason>
  {
    match RuleOf(r.rule)
    case Some(Occupancy) => if CountsFit(r.params) then None else Some(BadCounts)
    case _ => if r.params.line.Some? && ProperLine(r.params.line.value) then None else Some(BadLine)
  }

  predicate WantsAlerts(r: Request)
  {
    if r.params.notifyOnAlert.Some? then r.params.notifyOnAlert.value
    else r.rule == "occupancy" && (r.params.maxCount.Some? || r.params.minCount.Some?)
  }

  function Zeroes(cameras: seq<string>): map<string, Tally>
  {
    map cam | cam in cameras :: Tally(0, 0)
  }

  function IntervalOf(standard: real, p: Params): real
  {
    if p.interval.Some? && p.interval.value.Finite? then p.interval.value.value else standard
  }

  function Built(standard: real, r: Request, id: int): Hosted
    requires RuleOf(r.rule).Some?
  {
    var cams := NonBlank(r.cameras);
    Hosted(id, RuleOf(r.rule).value, cams, Lower(Strip(r.params.target)), IntervalOf(standard, r.params),
      WantsAlerts(r), true, false, false, 0, [], Zeroes(cams))
  }

  function Allocate(s: State, id: int): State
  {
    s.(nextId := (if s.nextId >= id then s.nextId else id) + 1)
  }

  function Start(standard: real, s: State, r: Request): State
    requires RuleOf(r.rule).Some?
  {
    var id := IdFor(s, r);
    var t := Allocate(s, id);
    t.(objects := s.objects + [Built(standard, r, id)], monitors := s.monitors[id := |s.objects|])
  }

  function Refusal(s: State, r: Request): Option<Reason>
  {
    if EarlyRefusal(s, r).Some? then EarlyRefusal(s, r) else LateRefusal(r)
  }

  function DoCreate(standard: real, s: State, r: Request): State
  {
    if EarlyRefusal(s, r).Some? then s else
    if LateRefusal(r).Some? then Allocate(s, IdFor(s, r)) else Start(standard, s, r)
  }

  // ---------- Stopping, alerts and polls ----------

  function DoStop(s: State, id: int): State
  {
    if id !in s.monitors then s else
    var m := s.monitors[id];
    var t := s.(monitors := s.monitors - {id}, log := s.log + [Halted(m)]);
    if m < |s.objects| then t.(objects := s.objects[m := s.objects[m].(stopped := true, active := false)]) else t
  }

  function TallyOf(tallies: map<string, Tally>, cam: string): Tally
  {
    if cam in tallies then tallies[cam] else Tally(0, 0)
  }

  function Flow(t: Tally, direction: string): Tally
  {
    if direction == "b_to_a" then t.(ins := t.ins + 1) else
    if direction == "a_to_b" then t.(outs := t.outs + 1) else t
  }

  function Counted(h: Hosted, a: Alert): Hosted
  {
    h.(alertsFired := h.alertsFired + 1, recent := LastN(h.recent + [a], RECENT),
       tallies := if h.rule.LineCrossing?
                  then h.tallies[a.camera := Flow(TallyOf(h.tallies, a.camera), a.direction)] else h.tallies)
  }

  function OnAlert(s: State, m: nat, a: Alert): State
    requires m < |s.objects|
    ensures |OnAlert(s, m, a).objects| == |s.objects|
  {
    var h := s.objects[m];
    if h.stopped then s.(log := s.log + [Dropped(m, a)]) else
    s.(objects := s.objects[m := Counted(h, a)],
       notices := if h.notifies then s.notices + [Notice(m, h.id, a)] else s.notices,
       log := s.log + [Delivered(m, a)])
  }

  function OnAlerts(s: State, m: nat, fired: seq<Alert>): (t: State)
    requires m < |s.objects|
    ensures |t.objects| == |s.objects|
  {
    if fired == [] then s else OnAlert(OnAlerts(s, m, fired[..|fired| - 1]), m, fired[|fired| - 1])
  }

  /** Reading a crossing monitor's tally for the counts display makes an entry when there is none. */
  function PushCounts(s: State, m: nat, cam: string): State
    requires m < |s.objects|
  {
    var h := s.objects[m];
    if h.rule.Occupancy? then s else
    s.(objects := s.objects[m := h.(tallies := h.tallies[cam := TallyOf(h.tallies, cam)])])
  }

  /** The dict maps the monitor's id to this very object. */
  predicate HeldOK(s: State, m: nat)
    requires m < |s.objects|
  {
    s.objects[m].id in s.monitors && s.monitors[s.objects[m].id] == m
  }

  predicate Enabled(s: State, e: Event)
  {
    match e
    case Create(_) => true
    case Stop(_) => true
    case PollStarts(m, cam) => m < |s.objects| && s.objects[m].active && cam in s.objects[m].cameras && m !in s.polling
    case PollEnds(m, _) => m < |s.objects| && m in s.polling
    case PollFails(m) => m in s.polling
    case Feed(m, _, _) => m < |s.objects| && HeldOK(s, m) && s.objects[m].active
    case LoopCrashes(m) => m < |s.objects|
  }

  function Step(standard: real, s: State, e: Event): State
  {
    if !Enabled(s, e) then s else
    match e
    case Create(r) => DoCreate(standard, s, r)
    case Stop(id) => DoStop(s, id)
    case PollStarts(m, cam) => s.(polling := s.polling[m := cam])
    case PollEnds(m, fired) => PushCounts(OnAlerts(s.(polling := s.polling - {m}), m, fired), m, s.polling[m])
    case PollFails(m) => s.(polling := s.polling - {m})
    case Feed(m, cam, heard) =>
      var t := OnAlerts(s, m, heard);
      if cam in s.objects[m].cameras then PushCounts(t, m, cam) else t
    case LoopCrashes(m) =>
      s.(objects := s.objects[m := s.objects[m].(active := false, crashed := true)], polling := s.polling - {m})
  }

  function RunFrom(standard: real, s: State, es: seq<Event>): State
  {
    if es == [] then s else Step(standard, RunFrom(standard, s, es[..|es| - 1]), es[|es| - 1])
  }

  function After(standard: real, es: seq<Event>): State
  {
    RunFrom(standard, Init, es)
  }

  // ---------- Reading the log ----------

  function DeliveredTo(log: seq<Obs>, m: nat): seq<Alert>
  {
    if log == [] then [] else
    var before, x := DeliveredTo(log[..|log| - 1], m), log[|log| - 1];
    if x.Delivered? && x.to == m then before + [x.alert] else before
  }

  function NoticesOf(notices: seq<Notice>, m: nat): seq<Alert>
  {
    if notices == [] then [] else
    var before, n := NoticesOf(notices[..|notices| - 1], m), notices[|notices| - 1];
    if n.monitor == m then before + [n.alert] else before
  }

  /** How many alerts name this camera and this direction. */
  function Crossings(alerts: seq<Alert>, cam: string, direction: string): nat
  {
    if alerts == [] then 0 else
    var a := alerts[|alerts| - 1];
    Crossings(alerts[..|alerts| - 1], cam, direction) + (if a.camera == cam && a.direction == direction then 1 else 0)
  }

  function Expected(rule: Rule, alerts: seq<Alert>, cam: string): Tally
  {
    if rule.Occupancy? then Tally(0, 0) else
    Tally(Crossings(alerts, cam, "b_to_a"), Crossings(alerts, cam, "a_to_b"))
  }

  ghost predicate TalliesOK(h: Hosted, alerts: seq<Alert>)
  {
    forall cam :: TallyOf(h.tallies, cam) == Expected(h.rule, alerts, cam)
  }

  /** A monitor's counters are what was delivered to it. */
  ghost predicate HostedOK(h: Hosted, alerts: seq<Alert>)
  {
    && h.alertsFired == |alerts|
    && h.recent == LastN(alerts, RECENT)
    && TalliesOK(h, alerts)
    && forall cam :: cam in h.cameras ==> cam in h.tallies
  }

  ghost predicate ObjectOK(s: State, m: nat)
    requires m < |s.objects|
  {
    && HostedOK(s.objects[m], DeliveredTo(s.log, m))
    && NoticesOf(s.notices, m) == (if s.objects[m].notifies then DeliveredTo(s.log, m) else [])
    && (s.objects[m].stopped <==> Halted(m) in s.log)
    && (m in s.polling ==> s.polling[m] in s.objects[m].cameras)
  }

  ghost predicate ObjectsOK(s: State)
  {
    forall m :: 0 <= m < |s.objects| ==> ObjectOK(s, m)
  }

  /** Nothing reaches a monitor after it was stopped. */
  predicate SilentOnceHalted(log: seq<Obs>)
  {
    forall i, j :: 0 <= i < j < |log| && log[i].Halted? && log[j].Delivered? ==> log[j].to != log[i].monitor
  }

  /** The log speaks of known monitors. */
  predicate KnownOK(s: State)
  {
    && (forall i :: 0 <= i < |s.log| ==> Subject(s.log[i]) < |s.objects|)
    && (forall i :: 0 <= i < |s.notices| ==> s.notices[i].monitor < |s.objects|)
    && (forall m :: m in s.polling ==> m < |s.objects|)
  }

  function Subject(x: Obs): nat
  {
    match x
    case Delivered(m, _) => m
    case Dropped(m, _) => m
    case Halted(m) => m
  }

  /** The dict holds exactly the monitors not stopped, each under its own id, below the next free id. */
  ghost predicate DictOK(s: State)
  {
    && (forall id :: id in s.monitors ==> RegisteredOK(s, id))
    && (forall m :: 0 <= m < |s.objects| && !s.objects[m].stopped ==> HeldOK(s, m))
  }

  predicate RegisteredOK(s: State, id: int)
    requires id in s.monitors
  {
    var m := s.monitors[id];
    m < |s.objects| && !s.objects[m].stopped && s.objects[m].id == id && id < s.nextId
  }

  ghost predicate Inv(s: State)
  {
    ObjectsOK(s) && SilentOnceHalted(s.log) && KnownOK(s) && DictOK(s)
  }

  // ---------- Appending to the log ----------

  lemma DeliveredSnoc(log: seq<Obs>, x: Obs, m: nat)
    ensures DeliveredTo(log + [x], m) ==
      if x.Delivered? && x.to == m then DeliveredTo(log, m) + [x.alert] else DeliveredTo(log, m)
  {
    assert (log + [x])[..|log|] == log;
  }

  lemma NoticesSnoc(notices: seq<Notice>, n: Notice, m: nat)
    ensures NoticesOf(notices + [n], m) ==
      if n.monitor == m then NoticesOf(notices, m) + [n.alert] else NoticesOf(notices, m)
  {
    assert (notices + [n])[..|notices|] == notices;
  }

  lemma CrossingsSnoc(alerts: seq<Alert>, a: Alert, cam: string, direction: string)
    ensures Crossings(alerts + [a], cam, direction) ==
      Crossings(alerts, cam, direction) + (if a.camera == cam && a.direction == direction then 1 else 0)
  {
    assert (alerts + [a])[..|alerts|] == alerts;
  }

  lemma ExpectedSnoc(rule: Rule, alerts: seq<Alert>, a: Alert, cam: string)
    ensures Expected(rule, alerts + [a], cam) ==
      if rule.LineCrossing? && a.camera == cam then Flow(Expected(rule, alerts, cam), a.direction)
      else Expected(rule, alerts, cam)
  {
    hide Crossings;
    CrossingsSnoc(alerts, a, cam, "b_to_a");
    CrossingsSnoc(alerts, a, cam, "a_to_b");
    assert "b_to_a"[0] != "a_to_b"[0];
  }

  lemma {:induction false} NothingDelivered(log: seq<Obs>, m: nat)
    requires forall i :: 0 <= i < |log| ==> Subject(log[i]) != m
    ensures DeliveredTo(log, m) == []
  {
    if log != [] { NothingDelivered(log[..|log| - 1], m); }
  }

  lemma {:induction false} NothingNoticed(notices: seq<Notice>, m: nat)
    requires forall i :: 0 <= i < |notices| ==> notices[i].monitor != m
    ensures NoticesOf(notices, m) == []
  {
    if notices != [] { NothingNoticed(notices[..|notices| - 1], m); }
  }

  // ---------- Delivering one alert ----------

  lemma CountedOK(h: Hosted, alerts: seq<Alert>, a: Alert)
    requires HostedOK(h, alerts)
    ensures HostedOK(Counted(h, a), alerts + [a])
  {
    LastNAppend(alerts, a, RECENT);
    var g := Counted(h, a);
    hide LastN, Expected, Flow;
    forall cam ensures TallyOf(g.tallies, cam) == Expected(h.rule, alerts + [a], cam) {
      assert TallyOf(h.tallies, cam) == Expected(h.rule, alerts, cam);
      ExpectedSnoc(h.rule, alerts, a, cam);
    }
  }

  /** A delivery to monitor m leaves every other monitor as it was. */
  lemma OtherUntouched(s: State, t: State, m: nat, x: Obs)
    requires m < |s.objects| && ObjectOK(s, m)
    requires |t.objects| == |s.objects| && t.objects[m] == s.objects[m] && t.log == s.log + [x] && Subject(x) != m
    requires NoticesOf(t.notices, m) == NoticesOf(s.notices, m) && t.polling == s.polling
    ensures ObjectOK(t, m)
  {
    hide HostedOK, DeliveredTo, NoticesOf;
    DeliveredSnoc(s.log, x, m);
    assert Halted(m) in t.log <==> Halted(m) in s.log;
  }

  lemma DeliverOne(s: State, m: nat, a: Alert)
    requires m < |s.objects| && ObjectOK(s, m) && !s.objects[m].stopped
    ensures ObjectOK(OnAlert(s, m, a), m)
  {
    var t, h := OnAlert(s, m, a), s.objects[m];
    CountedOK(h, DeliveredTo(s.log, m), a);
    hide HostedOK, DeliveredTo, NoticesOf;
    DeliveredSnoc(s.log, Delivered(m, a), m);
    NoticesSnoc(s.notices, Notice(m, h.id, a), m);
    assert Halted(m) in t.log <==> Halted(m) in s.log;
  }

  lemma DropOne(s: State, m: nat, a: Alert)
    requires m < |s.objects| && ObjectOK(s, m) && s.objects[m].stopped
    ensures ObjectOK(OnAlert(s, m, a), m)
  {
    hide HostedOK, DeliveredTo, NoticesOf;
    DeliveredSnoc(s.log, Dropped(m, a), m);
  }

  lemma OnAlertObjects(s: State, m: nat, a: Alert)
    requires m < |s.objects| && ObjectsOK(s)
    ensures ObjectsOK(OnAlert(s, m, a))
  {
    var t := OnAlert(s, m, a);
    hide ObjectOK, HostedOK, DeliveredTo, NoticesOf, Counted;
    forall k: nat | k < |t.objects| ensures ObjectOK(t, k) {
      assert ObjectOK(s, k);
      if k == m {
        if s.objects[m].stopped { DropOne(s, m, a); } else { DeliverOne(s, m, a); }
      } else {
        NoticesSnoc(s.notices, Notice(m, s.objects[m].id, a), k);
        OtherUntouched(s, t, k, if s.objects[m].stopped then Dropped(m, a) else Delivered(m, a));
      }
    }
  }

  lemma DeliverLog(s: State, m: nat, a: Alert)
    requires m < |s.objects| && ObjectOK(s, m) && SilentOnceHalted(s.log)
    ensures SilentOnceHalted(OnAlert(s, m, a).log)
  {
    hide HostedOK, DeliveredTo, NoticesOf, Counted;
    var log := OnAlert(s, m, a).log;
    forall i, j | 0 <= i < j < |log| && log[i].Halted? && log[j].Delivered? ensures log[j].to != log[i].monitor {
      assert log[i] == s.log[i];
    }
  }

  lemma OnAlertRest(s: State, m: nat, a: Alert)
    requires m < |s.objects| && KnownOK(s) && DictOK(s)
    ensures KnownOK(OnAlert(s, m, a)) && DictOK(OnAlert(s, m, a))
  {
    var t := OnAlert(s, m, a);
    hide LastN, Flow;
    forall id | id in t.monitors ensures RegisteredOK(t, id) {
      assert RegisteredOK(s, id);
    }
    forall k | 0 <= k < |t.objects| && !t.objects[k].stopped ensures HeldOK(t, k) {
      assert HeldOK(s, k);
    }
  }

  lemma OnAlertKeepsInv(s: State, m: nat, a: Alert)
    requires m < |s.objects| && Inv(s)
    ensures Inv(OnAlert(s, m, a))
  {
    hide ObjectOK, SilentOnceHalted, KnownOK, DictOK, OnAlert;
    OnAlertObjects(s, m, a);
    assert ObjectOK(s, m);
    DeliverLog(s, m, a);
    OnAlertRest(s, m, a);
  }

  lemma {:induction false} OnAlertsKeepInv(s: State, m: nat, fired: seq<Alert>)
    requires m < |s.objects| && Inv(s)
    ensures Inv(OnAlerts(s, m, fired)) && OnAlerts(s, m, fired).polling == s.polling
    ensures OnAlerts(s, m, fired).objects[m].cameras == s.objects[m].cameras
    decreases |fired|
  {
    if fired != [] {
      hide Inv;
      OnAlertsKeepInv(s, m, fired[..|fired| - 1]);
      OnAlertKeepsInv(OnAlerts(s, m, fired[..|fired| - 1]), m, fired[|fired| - 1]);
    }
  }

  // ---------- The other steps ----------

  lemma SameObjectOK(s: State, t: State, m: nat)
    requires m < |s.objects| && ObjectOK(s, m)
    requires m < |t.objects| && t.log == s.log && t.notices == s.notices
    requires HostedOK(t.objects[m], DeliveredTo(s.log, m))
    requires t.objects[m].notifies == s.objects[m].notifies && t.objects[m].stopped == s.objects[m].stopped
    requires t.objects[m].cameras == s.objects[m].cameras
    requires m in t.polling ==> t.polling[m] in s.objects[m].cameras
    ensures ObjectOK(t, m)
  {
    hide HostedOK, DeliveredTo, NoticesOf;
  }

  /** Showing a tally that has an entry already changes nothing; every polled camera has one. */
  lemma PushCountsIsInvisible(s: State, m: nat, cam: string)
    requires Inv(s) && m < |s.objects| && cam in s.objects[m].cameras
    ensures PushCounts(s, m, cam) == s
  {
    assert ObjectOK(s, m);
    hide DeliveredTo, NoticesOf, LastN;
    var h := s.objects[m];
    assert cam in h.tallies;
    assert h.tallies[cam := h.tallies[cam]] == h.tallies;
    assert s.objects[m := h] == s.objects;
  }

  lemma PollingKeepsInv(s: State, t: State)
    requires Inv(s) && t == s.(polling := t.polling)
    requires forall m :: m in t.polling ==> m < |s.objects| && t.polling[m] in s.objects[m].cameras
    ensures Inv(t)
  {
    hide HostedOK, DeliveredTo, NoticesOf;
    forall m: nat | m < |t.objects| ensures ObjectOK(t, m) {
      assert ObjectOK(s, m);
    }
    forall id | id in t.monitors ensures RegisteredOK(t, id) {
      assert RegisteredOK(s, id);
    }
    forall k | 0 <= k < |t.objects| && !t.objects[k].stopped ensures HeldOK(t, k) {
      assert HeldOK(s, k);
    }
  }

  lemma PolledCamera(s: State, m: nat)
    requires Inv(s) && m in s.polling
    ensures m < |s.objects| && s.polling[m] in s.objects[m].cameras
  {
    hide HostedOK, DeliveredTo, NoticesOf;
    assert m < |s.objects|;
    assert ObjectOK(s, m);
  }

  lemma AllPolled(s: State)
    requires Inv(s)
    ensures forall m :: m in s.polling ==> m < |s.objects| && s.polling[m] in s.objects[m].cameras
  {
    hide Inv;
    forall m | m in s.polling ensures m < |s.objects| && s.polling[m] in s.objects[m].cameras {
      PolledCamera(s, m);
    }
  }

  lemma PollEndsKeepsInv(s: State, m: nat, fired: seq<Alert>)
    requires Inv(s) && m < |s.objects| && m in s.polling
    ensures var t := s.(polling := s.polling - {m});
      Inv(OnAlerts(t, m, fired)) && PushCounts(OnAlerts(t, m, fired), m, s.polling[m]) == OnAlerts(t, m, fired)
  {
    hide Inv, PushCounts, OnAlerts;
    AllPolled(s);
    var t := s.(polling := s.polling - {m});
    PollingKeepsInv(s, t);
    OnAlertsKeepInv(t, m, fired);
    PushCountsIsInvisible(OnAlerts(t, m, fired), m, s.polling[m]);
  }

  lemma CrashKeepsInv(s: State, m: nat)
    requires Inv(s) && m < |s.objects|
    ensures var h := s.objects[m].(active := false, crashed := true);
      Inv(s.(objects := s.objects[m := h], polling := s.polling - {m}))
  {
    var h := s.objects[m].(active := false, crashed := true);
    var t := s.(objects := s.objects[m := h], polling := s.polling - {m});
    hide DeliveredTo, NoticesOf, LastN, TalliesOK;
    forall k: nat | k < |t.objects| ensures ObjectOK(t, k) {
      assert ObjectOK(s, k);
      SameTallies(s.objects[k], t.objects[k], DeliveredTo(s.log, k));
      SameObjectOK(s, t, k);
    }
    DictAfterCrash(s, t);
  }

  lemma SameTallies(h: Hosted, g: Hosted, alerts: seq<Alert>)
    requires TalliesOK(h, alerts) && g.tallies == h.tallies && g.rule == h.rule
    ensures TalliesOK(g, alerts)
  {
    hide Expected;
    forall cam ensures TallyOf(g.tallies, cam) == Expected(g.rule, alerts, cam) {
      assert TallyOf(h.tallies, cam) == Expected(h.rule, alerts, cam);
    }
  }

  lemma DictAfterCrash(s: State, t: State)
    requires DictOK(s) && t.monitors == s.monitors && t.nextId == s.nextId && |t.objects| == |s.objects|
    requires forall m :: 0 <= m < |s.objects| ==>
      t.objects[m].stopped == s.objects[m].stopped && t.objects[m].id == s.objects[m].id
    ensures DictOK(t)
  {
    forall id | id in t.monitors ensures RegisteredOK(t, id) {
      assert RegisteredOK(s, id);
    }
    forall k | 0 <= k < |t.objects| && !t.objects[k].stopped ensures HeldOK(t, k) {
      assert HeldOK(s, k);
    }
  }

  lemma StopObjects(s: State, id: int)
    requires ObjectsOK(s) && DictOK(s) && id in s.monitors
    ensures ObjectsOK(DoStop(s, id))
  {
    var t, m := DoStop(s, id), s.monitors[id];
    assert RegisteredOK(s, id);
    hide DeliveredTo, NoticesOf, LastN, TalliesOK;
    forall k: nat | k < |t.objects| ensures ObjectOK(t, k) {
      assert ObjectOK(s, k);
      DeliveredSnoc(s.log, Halted(m), k);
      SameTallies(s.objects[k], t.objects[k], DeliveredTo(s.log, k));
      assert Halted(k) in t.log <==> Halted(k) in s.log || k == m;
    }
  }

  lemma StopRest(s: State, id: int)
    requires KnownOK(s) && DictOK(s) && SilentOnceHalted(s.log) && id in s.monitors
    ensures KnownOK(DoStop(s, id)) && DictOK(DoStop(s, id)) && SilentOnceHalted(DoStop(s, id).log)
  {
    var t, m := DoStop(s, id), s.monitors[id];
    assert RegisteredOK(s, id);
    forall k | k in t.monitors ensures RegisteredOK(t, k) {
      assert RegisteredOK(s, k);
    }
    forall k | 0 <= k < |t.objects| && !t.objects[k].stopped ensures HeldOK(t, k) {
      assert HeldOK(s, k);
    }
  }

  lemma StopKeepsInv(s: State, id: int)
    requires Inv(s)
    ensures Inv(DoStop(s, id))
  {
    hide ObjectsOK, SilentOnceHalted, KnownOK, DictOK;
    if id in s.monitors {
      StopObjects(s, id);
      StopRest(s, id);
    }
  }

  lemma BuiltOK(standard: real, r: Request, id: int)
    requires RuleOf(r.rule).Some?
    ensures HostedOK(Built(standard, r, id), [])
  {
    hide NonBlank, IntervalOf, Strip;
  }

  lemma StartObjects(standard: real, s: State, r: Request)
    requires ObjectsOK(s) && KnownOK(s) && RuleOf(r.rule).Some?
    ensures ObjectsOK(Start(standard, s, r))
  {
    var t := Start(standard, s, r);
    NothingDelivered(s.log, |s.objects|);
    NothingNoticed(s.notices, |s.objects|);
    BuiltOK(standard, r, IdFor(s, r));
    hide HostedOK, DeliveredTo, NoticesOf, NonBlank, Built;
    forall k: nat | k < |t.objects| ensures ObjectOK(t, k) {
      if k < |s.objects| {
        assert ObjectOK(s, k);
      } else {
        FreshMonitorOK(standard, s, r);
      }
    }
  }

  lemma FreshMonitorOK(standard: real, s: State, r: Request)
    requires KnownOK(s) && RuleOf(r.rule).Some?
    requires DeliveredTo(s.log, |s.objects|) == [] && NoticesOf(s.notices, |s.objects|) == []
    ensures ObjectOK(Start(standard, s, r), |s.objects|)
  {
    BuiltOK(standard, r, IdFor(s, r));
    hide HostedOK, DeliveredTo, NoticesOf, NonBlank;
    assert forall i :: 0 <= i < |s.log| ==> s.log[i] != Halted(|s.objects|);
  }

  lemma StartRest(standard: real, s: State, r: Request)
    requires KnownOK(s) && DictOK(s) && RuleOf(r.rule).Some? && IdFor(s, r) !in s.monitors
    ensures KnownOK(Start(standard, s, r)) && DictOK(Start(standard, s, r))
  {
    var t := Start(standard, s, r);
    hide NonBlank;
    forall k | k in t.monitors ensures RegisteredOK(t, k) {
      assert k in s.monitors ==> RegisteredOK(s, k);
    }
    forall k | 0 <= k < |t.objects| && !t.objects[k].stopped ensures HeldOK(t, k) {
      assert k < |s.objects| ==> HeldOK(s, k);
    }
  }

  lemma AllocateKeepsInv(s: State, id: int)
    requires Inv(s)
    ensures Inv(Allocate(s, id))
  {
    var t := Allocate(s, id);
    hide HostedOK, DeliveredTo, NoticesOf;
    forall m: nat | m < |t.objects| ensures ObjectOK(t, m) {
      assert ObjectOK(s, m);
    }
    forall k | k in t.monitors ensures RegisteredOK(t, k) {
      assert RegisteredOK(s, k);
    }
    forall k | 0 <= k < |t.objects| && !t.objects[k].stopped ensures HeldOK(t, k) {
      assert HeldOK(s, k);
    }
  }

  lemma CreateKeepsInv(standard: real, s: State, r: Request)
    requires Inv(s)
    ensures Inv(DoCreate(standard, s, r))
  {
    if EarlyRefusal(s, r).None? {
      hide ObjectsOK, SilentOnceHalted, KnownOK, DictOK, LateRefusal, NonBlank;
      if LateRefusal(r).Some? {
        AllocateKeepsInv(s, IdFor(s, r));
      } else {
        StartObjects(standard, s, r);
        StartRest(standard, s, r);
      }
    }
  }

  lemma StepKeepsInv(standard: real, s: State, e: Event)
    requires Inv(s)
    ensures Inv(Step(standard, s, e))
  {
    AllPolled(s);
    hide Inv, DoCreate, DoStop, OnAlerts, PushCounts;
    if Enabled(s, e) {
      match e
      case Create(r) => CreateKeepsInv(standard, s, r);
      case Stop(id) => StopKeepsInv(s, id);
      case PollStarts(m, cam) => PollingKeepsInv(s, s.(polling := s.polling[m := cam]));
      case PollEnds(m, fired) => PollEndsKeepsInv(s, m, fired);
      case PollFails(m) => PollingKeepsInv(s, s.(polling := s.polling - {m}));
      case Feed(m, cam, heard) =>
        OnAlertsKeepInv(s, m, heard);
        if cam in s.objects[m].cameras { PushCountsIsInvisible(OnAlerts(s, m, heard), m, cam); }
      case LoopCrashes(m) => CrashKeepsInv(s, m);
    }
  }

  lemma {:induction false} RunKeepsInv(standard: real, s: State, es: seq<Event>)
    requires Inv(s)
    ensures Inv(RunFrom(standard, s, es))
  {
    if es != [] {
      hide Inv, Step;
      RunKeepsInv(standard, s, es[..|es| - 1]);
      StepKeepsInv(standard, RunFrom(standard, s, es[..|es| - 1]), es[|es| - 1]);
    }
  }

  lemma Reachable(standard: real, es: seq<Event>)
    ensures Inv(After(standard, es))
  {
    assert Inv(Init);
    hide Inv;
    RunKeepsInv(standard, Init, es);
  }

  // ---------- Theorems about every run ----------

  /** A monitor's alert count, recent alerts and notifications are exactly what was delivered to it. */
  lemma CountersAreDeliveries(standard: real, es: seq<Event>, m: nat)
    requires m < |After(standard, es).objects|
    ensures var s := After(standard, es);
      var ds := DeliveredTo(s.log, m);
      && s.objects[m].alertsFired == |ds|
      && s.objects[m].recent == LastN(ds, RECENT)
      && NoticesOf(s.notices, m) == if s.objects[m].notifies then ds else []
  {
    Reachable(standard, es);
    assert ObjectOK(After(standard, es), m);
  }

  predicate Recognised(direction: string)
  {
    direction == "b_to_a" || direction == "a_to_b"
  }

  /** The delivered alerts of one camera whose direction the host understands. */
  function RecognisedOn(alerts: seq<Alert>, cam: string): nat
  {
    if alerts == [] then 0 else
    var a := alerts[|alerts| - 1];
    RecognisedOn(alerts[..|alerts| - 1], cam) + (if a.camera == cam && Recognised(a.direction) then 1 else 0)
  }

  lemma {:induction false} RecognisedSplit(alerts: seq<Alert>, cam: string)
    ensures RecognisedOn(alerts, cam) == Crossings(alerts, cam, "b_to_a") + Crossings(alerts, cam, "a_to_b")
  {
    if alerts != [] {
      RecognisedSplit(alerts[..|alerts| - 1], cam);
      assert "b_to_a"[0] != "a_to_b"[0];
    }
  }

  /** Of each camera, a crossing monitor counted in the alerts that go from b to a and counted out those
      that go from a to b, so in and out together are the delivered alerts with a recognised direction. */
  lemma TalliesCountCrossings(standard: real, es: seq<Event>, m: nat, cam: string)
    requires m < |After(standard, es).objects| && After(standard, es).objects[m].rule.LineCrossing?
    ensures var s := After(standard, es);
      var ds, tally := DeliveredTo(s.log, m), TallyOf(s.objects[m].tallies, cam);
      && tally.ins == Crossings(ds, cam, "b_to_a") && tally.outs == Crossings(ds, cam, "a_to_b")
      && tally.ins + tally.outs == RecognisedOn(ds, cam)
  {
    Reachable(standard, es);
    var s := After(standard, es);
    assert ObjectOK(s, m);
    RecognisedSplit(DeliveredTo(s.log, m), cam);
    hide DeliveredTo, Crossings, NoticesOf, After;
    assert TallyOf(s.objects[m].tallies, cam) == Expected(LineCrossing, DeliveredTo(s.log, m), cam);
  }

  /** What a stopped monitor keeps. */
  predicate Frozen(s: State, t: State, m: nat)
    requires m < |s.objects|
  {
    m < |t.objects| && t.objects[m].stopped &&
    t.objects[m].alertsFired == s.objects[m].alertsFired && t.objects[m].recent == s.objects[m].recent &&
    t.objects[m].tallies == s.objects[m].tallies && NoticesOf(t.notices, m) == NoticesOf(s.notices, m)
  }

  lemma {:induction false} AlertsFreeze(s: State, to: nat, fired: seq<Alert>, m: nat)
    requires m < |s.objects| && s.objects[m].stopped && to < |s.objects|
    ensures Frozen(s, OnAlerts(s, to, fired), m)
    decreases |fired|
  {
    if fired != [] {
      AlertsFreeze(s, to, fired[..|fired| - 1], m);
      var t, a := OnAlerts(s, to, fired[..|fired| - 1]), fired[|fired| - 1];
      hide NoticesOf, Counted;
      NoticesSnoc(t.notices, Notice(to, t.objects[to].id, a), m);
    }
  }

  lemma PollFreezes(s: State, e: Event, m: nat)
    requires Inv(s) && m < |s.objects| && s.objects[m].stopped && e.PollEnds? && Enabled(s, e)
    ensures Frozen(s, Step(0.0, s, e), m)
  {
    hide Inv, NoticesOf, OnAlerts, PushCounts;
    PollEndsKeepsInv(s, e.finisher, e.fired);
    AlertsFreeze(s.(polling := s.polling - {e.finisher}), e.finisher, e.fired, m);
  }

  lemma StepFreezes(standard: real, s: State, e: Event, m: nat)
    requires Inv(s) && m < |s.objects| && s.objects[m].stopped
    ensures Frozen(s, Step(standard, s, e), m)
  {
    hide Inv, NoticesOf, OnAlerts, PushCounts, NonBlank;
    if Enabled(s, e) {
      match e
      case PollEnds(_, _) => PollFreezes(s, e, m);
      case Feed(to, cam, heard) =>
        AlertsFreeze(s, to, heard, m);
        OnAlertsKeepInv(s, to, heard);
        if cam in s.objects[to].cameras { PushCountsIsInvisible(OnAlerts(s, to, heard), to, cam); }
      case _ =>
    }
  }

  lemma {:induction false} RunFreezes(standard: real, s: State, more: seq<Event>, m: nat)
    requires Inv(s) && m < |s.objects| && s.objects[m].stopped
    ensures Frozen(s, RunFrom(standard, s, more), m)
    decreases |more|
  {
    if more != [] {
      hide Inv, Step, NoticesOf;
      RunFreezes(standard, s, more[..|more| - 1], m);
      RunKeepsInv(standard, s, more[..|more| - 1]);
      StepFreezes(standard, RunFrom(standard, s, more[..|more| - 1]), more[|more| - 1], m);
    }
  }

  lemma {:induction false} RunsCompose(standard: real, s: State, es: seq<Event>, more: seq<Event>)
    ensures RunFrom(standard, s, es + more) == RunFrom(standard, RunFrom(standard, s, es), more)
    decreases |more|
  {
    hide Step;
    if more == [] {
      assert es + more == es;
    } else {
      RunsCompose(standard, s, es, more[..|more| - 1]);
      assert (es + more)[..|es + more| - 1] == es + more[..|more| - 1];
    }
  }

  /** Once a monitor is stopped, no later event changes its alert count, recent alerts, crossing tallies or
      notifications: not even the end of a poll that was suspended at the stop. */
  lemma StoppedMonitorIsFrozen(standard: real, es: seq<Event>, more: seq<Event>, m: nat)
    requires m < |After(standard, es).objects| && After(standard, es).objects[m].stopped
    ensures Frozen(After(standard, es), After(standard, es + more), m)
  {
    hide Inv, Frozen;
    Reachable(standard, es);
    RunFreezes(standard, After(standard, es), more, m);
    RunsCompose(standard, Init, es, more);
  }

  /** The host's dict holds exactly the monitors that were not stopped, each under its own id, and the next
      automatic id is free. */
  lemma DictHoldsTheUnstopped(standard: real, es: seq<Event>)
    ensures var s := After(standard, es);
      && (forall m :: 0 <= m < |s.objects| ==> (HeldOK(s, m) <==> !s.objects[m].stopped))
      && (forall id :: id in s.monitors ==> s.monitors[id] < |s.objects| && s.objects[s.monitors[id]].id == id)
      && s.nextId !in s.monitors
  {
    Reachable(standard, es);
    var s := After(standard, es);
    hide ObjectsOK, KnownOK, SilentOnceHalted, After;
    forall id | id in s.monitors
      ensures s.monitors[id] < |s.objects| && s.objects[s.monitors[id]].id == id && id != s.nextId
    {
      assert RegisteredOK(s, id);
    }
    forall m | 0 <= m < |s.objects| ensures HeldOK(s, m) <==> !s.objects[m].stopped {
      if HeldOK(s, m) { assert RegisteredOK(s, s.objects[m].id); }
    }
  }

  lemma UnstoppedInDict(s: State, id: int)
    requires Inv(s) && id in s.monitors
    ensures s.monitors[id] < |s.objects| && !s.objects[s.monitors[id]].stopped
  {
    assert RegisteredOK(s, id);
  }

  lemma RefusalOnlyCounts(standard: real, s: State, r: Request)
    requires Refusal(s, r).Some?
    ensures var t := DoCreate(standard, s, r);
      && t == s.(nextId := t.nextId)
      && (t.nextId != s.nextId <==> Refusal(s, r).value.BadCounts? || Refusal(s, r).value.BadLine?)
  {
    hide NonBlank;
  }

  lemma OnlyAskedIdsCollide(s: State, r: Request)
    requires s.nextId !in s.monitors && Refusal(s, r) == Some(IdInUse)
    ensures r.monitorId.Some? && r.monitorId.value in s.monitors
  {
    hide NonBlank, Strip, Lower, ProperLine;
  }

  /** After any run a refused request registers nothing and starts nothing, and no monitor notices. It still
      uses up an id exactly when the rule's own parameters were at fault, because the id is allocated before
      the rule is built; and an id is in use only when the request itself asked for that of a monitor that
      is not stopped. */
  lemma RefusedCreateRegistersNothing(standard: real, es: seq<Event>, r: Request)
    requires Refusal(After(standard, es), r).Some?
    ensures var s, t := After(standard, es), After(standard, es + [Create(r)]);
      var reason := Refusal(s, r).value;
      && t == s.(nextId := t.nextId)
      && (t.nextId != s.nextId <==> reason.BadCounts? || reason.BadLine?)
      && (reason.IdInUse? ==> exists m :: 0 <= m < |s.objects| && HeldOK(s, m) && Some(s.objects[m].id) == r.monitorId)
  {
    var s := After(standard, es);
    hide DoCreate, Refusal, HeldOK;
    RunsCompose(standard, Init, es, [Create(r)]);
    OneStep(standard, s, Create(r));
    RefusalOnlyCounts(standard, s, r);
    DictHoldsTheUnstopped(standard, es);
    if Refusal(s, r) == Some(IdInUse) {
      OnlyAskedIdsCollide(s, r);
      Reachable(standard, es);
      HolderOf(s, r.monitorId.value);
    }
  }

  lemma HolderOf(s: State, id: int)
    requires Inv(s) && id in s.monitors
    ensures exists m :: 0 <= m < |s.objects| && HeldOK(s, m) && s.objects[m].id == id
  {
    assert RegisteredOK(s, id);
    assert HeldOK(s, s.monitors[id]);
  }

  lemma OneStep(standard: real, s: State, e: Event)
    ensures RunFrom(standard, s, [e]) == Step(standard, s, e)
  {
    assert [e][..0] == [];
  }

  // ---------- The host object ----------

  class Host {
    const standard: real
    var monitors: map<int, nat>
    var objects: seq<Hosted>
    var nextId: int
    var polling: map<nat, string>
    var notices: seq<Notice>
    ghost var log: seq<Obs>

    ghost function View(): State
      reads this
    {
      State(monitors, objects, nextId, polling, notices, log)
    }

    constructor (standard: real)
      ensures this.standard == standard && View() == After(standard, [])
    {
      this.standard := standard;
      monitors, objects, nextId, polling, notices, log := map[], [], 1, map[], [], [];
    }

    method AllocId(monitorId: Option<int>) returns (id: Option<int>)
      modifies this`nextId
      ensures var want := if monitorId.Some? then monitorId.value else old(nextId);
        if want in monitors then id.None? && unchanged(this)
        else id == Some(want) && View() == Allocate(old(View()), want)
    {
      var want := if monitorId.Some? then monitorId.value else nextId;
      if want in monitors { return None; }
      nextId := (if nextId >= want then nextId else want) + 1;
      return Some(want);
    }

    method CreateMonitor(r: Request) returns (refused: Option<Reason>)
      modifies this
      ensures View() == Step(standard, old(View()), Create(r)) && refused == Refusal(old(View()), r)
    {
      var rule := RuleOf(r.rule);
      if rule.None? { return Some(UnknownRule); }
      var cams := NonBlank(r.cameras);
      if cams == [] { return Some(NoCamera); }
      var target := Lower(Strip(r.params.target));
      if target == "" { return Some(NoTarget); }
      if r.params.interval.Some? && !PositiveNumber(r.params.interval.value) { return Some(BadInterval); }
      hide NonBlank, Strip;
      var id := AllocId(r.monitorId);
      if id.None? { return Some(IdInUse); }
      if rule.value.Occupancy? {
        if !CountsFit(r.params) { return Some(BadCounts); }
      } else if !(r.params.line.Some? && ProperLine(r.params.line.value)) {
        return Some(BadLine);
      }
      var mon := Hosted(id.value, rule.value, cams, target, IntervalOf(standard, r.params), WantsAlerts(r),
        true, false, false, 0, [], Zeroes(cams));
      monitors := monitors[id.value := |objects|];
      objects := objects + [mon];
      return None;
    }

    method StopMonitor(id: int) returns (known: bool)
      modifies this
      ensures View() == Step(standard, old(View()), Stop(id)) && (known <==> id in old(monitors))
    {
      if id !in monitors { return false; }
      var m := monitors[id];
      monitors := monitors - {id};
      if m < |objects| { objects := objects[m := objects[m].(stopped := true, active := false)]; }
      log := log + [Halted(m)];
      return true;
    }

    /** The alert sink of monitor m. */
    method Receive(m: nat, alert: Alert)
      requires m < |objects|
      modifies this`objects, this`notices, this`log
      ensures View() == OnAlert(old(View()), m, alert)
    {
      var mon := objects[m];
      if mon.stopped {
        log := log + [Dropped(m, alert)];
        return;
      }
      mon := mon.(alertsFired := mon.alertsFired + 1, recent := LastN(mon.recent + [alert], RECENT));
      if mon.rule.LineCrossing? {
        var tally := TallyOf(mon.tallies, alert.camera);
        if alert.direction == "b_to_a" {
          tally := tally.(ins := tally.ins + 1);
        } else if alert.direction == "a_to_b" {
          tally := tally.(outs := tally.outs + 1);
        }
        mon := mon.(tallies := mon.tallies[alert.camera := tally]);
      }
      objects := objects[m := mon];
      if mon.notifies { notices := notices + [Notice(m, mon.id, alert)]; }
      log := log + [Delivered(m, alert)];
    }

    method ReceiveAll(m: nat, fired: seq<Alert>)
      requires m < |objects|
      modifies this`objects, this`notices, this`log
      ensures View() == OnAlerts(old(View()), m, fired)
    {
      hide OnAlert;
      for i := 0 to |fired|
        invariant |objects| == |old(objects)|
        invariant View() == OnAlerts(old(View()), m, fired[..i])
      {
        assert fired[..i + 1][..i] == fired[..i];
        Receive(m, fired[i]);
      }
      assert fired[..|fired|] == fired;
    }

    method PollSuspends(m: nat, camera: string)
      requires Enabled(View(), PollStarts(m, camera))
      modifies this`polling
      ensures View() == Step(standard, old(View()), PollStarts(m, camera))
    {
      polling := polling[m := camera];
    }

    /** The rest of `_poll` after its awaits; `fired` is what the rule makes of the detections. */
    method PollResumes(m: nat, fired: seq<Alert>)
      requires Enabled(View(), PollEnds(m, fired))
      modifies this
      ensures View() == Step(standard, old(View()), PollEnds(m, fired))
    {
      hide OnAlerts;
      var cam := polling[m];
      polling := polling - {m};
      ReceiveAll(m, fired);
      var mon := objects[m];
      if mon.rule.LineCrossing? {
        objects := objects[m := mon.(tallies := mon.tallies[cam := TallyOf(mon.tallies, cam)])];
      }
    }

    /** One monitor's share of `feed_event`. */
    method Hear(m: nat, cam: string, heard: seq<Alert>)
      requires Enabled(View(), Feed(m, cam, heard))
      modifies this`objects, this`notices, this`log
      ensures View() == Step(standard, old(View()), Feed(m, cam, heard))
    {
      hide OnAlerts;
      var watched := cam in objects[m].cameras;
      ReceiveAll(m, heard);
      var mon := objects[m];
      if watched && mon.rule.LineCrossing? {
        objects := objects[m := mon.(tallies := mon.tallies[cam := TallyOf(mon.tallies, cam)])];
      }
    }

    method PollGivesUp(m: nat)
      requires Enabled(View(), PollFails(m))
      modifies this`polling
      ensures View() == Step(standard, old(View()), PollFails(m))
    {
      polling := polling - {m};
    }

    method LoopDies(m: nat)
      requires Enabled(View(), LoopCrashes(m))
      modifies this`objects, this`polling
      ensures View() == Step(standard, old(View()), LoopCrashes(m))
    {
      objects := objects[m := objects[m].(active := false, crashed := true)];
      polling := polling - {m};
    }
  }
}
