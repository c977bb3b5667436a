/**
 The monitor manager: a registry of standing monitors, whose count and crossing kinds are run by the
 monitor host and whose other kinds by a task of their own. The two registries must agree whatever is
 created, refused, stopped and evicted while the hosted monitors poll, alert and crash.
 */
module Monitors {
  import opened Common
  import opened FirstPerKey
  import opened Text
  import H = MonitorHost

  /** A request for a monitor, and what is persisted of one. */
  datatype Ask = Ask(kind: string, cameras: seq<string>, target: string, interval: Option<H.Number>,
                     line: Option<seq<H.Number>>)

  datatype Monitor = Monitor(kind: string, cameras: seq<string>, target: string, interval: H.Number,
                             line: Option<seq<H.Number>>, active: bool)

  datatype Config = Config(interval: real, maxMonitors: nat)

  datatype State = State(objects: map<nat, Monitor>, dict: seq<nat>, order: seq<nat>, tasks: set<nat>, nextId: nat,
                         host: H.State)

  datatype Event = Create(ask: Ask) | Stop(id: nat) | HostActs(act: H.Event)

  const Init := State(map[], [], [], {}, 1, H.Init)

  // ---------- One atomic step ----------

  /** The kinds that run on the host, and the rule each becomes. */
  predicate Converged(kind: string)
  {
    kind == "count" || kind == "crossing"
  }

  function RuleName(kind: string): string
  {
    if kind == "count" then "occupancy" else "line_crossing"
  }

  /** No interval, or zero, means the default. */
  function IntervalOf(c: Config, interval: Option<H.Number>): H.Number
  {
    if interval.None? || interval.value == H.Finite(0.0) then H.Finite(c.interval) else interval.value
  }

  function Made(c: Config, ask: Ask): Monitor
  {
    Monitor(ask.kind, ask.cameras, Lower(Strip(ask.target)), IntervalOf(c, ask.interval), ask.line, true)
  }

  function RequestFor(m: Monitor, id: nat): H.Request
  {
    var line := if m.kind == "crossing" then Some(if m.line.Some? then m.line.value else []) else None;
    H.Request(RuleName(m.kind), m.cameras, H.Params(m.target, Some(m.interval), line, None, None, None), Some(id))
  }

  function Register(s: State, m: Monitor): State
  {
    s.(objects := s.objects[s.nextId := m], dict := s.dict + [s.nextId], order := s.order + [s.nextId],
       nextId := s.nextId + 1)
  }

  function Halt(c: Config, s: State, id: nat): State
    requires id in s.objects
  {
    s.(objects := s.objects[id := s.objects[id].(active := false)], tasks := s.tasks - {id},
       host := H.Step(c.interval, s.host, H.Stop(id)))
  }

  function HaltKnown(c: Config, s: State, id: nat): State
  {
    if id in s.dict && id in s.objects then Halt(c, s, id) else s
  }

  function EvictOldest(c: Config, s: State): State
    requires s.order != []
  {
    var oldest := s.order[0];
    var t := HaltKnown(c, s.(order := s.order[1..]), oldest);
    t.(dict := Without(t.dict, oldest))
  }

  function Evict(c: Config, s: State): State
    decreases |s.order|
  {
    if |s.order| > c.maxMonitors then Evict(c, EvictOldest(c, s)) else s
  }

  /** Registering, evicting, and starting the monitor's own task if it needs one. */
  function Enroll(c: Config, s: State, m: Monitor): State
  {
    var t := Evict(c, Register(s, m));
    if Converged(m.kind) then t else t.(tasks := t.tasks + {s.nextId})
  }

  function HostAfter(c: Config, s: State, m: Monitor): H.State
  {
    if Converged(m.kind) then H.Step(c.interval, s.host, H.Create(RequestFor(m, s.nextId))) else s.host
  }

  /** A malformed interval raises at once; the host's objections come before the registration. */
  predicate Refused(c: Config, s: State, ask: Ask)
  {
    IntervalOf(c, ask.interval).Malformed? ||
    (Converged(ask.kind) && H.Refusal(s.host, RequestFor(Made(c, ask), s.nextId)).Some?)
  }

  function DoCreate(c: Config, s: State, ask: Ask): State
  {
    if IntervalOf(c, ask.interval).Malformed? then s else
    var m := Made(c, ask);
    var t := s.(host := HostAfter(c, s, m));
    if Refused(c, s, ask) then t else Enroll(c, t, m)
  }

  predicate Enabled(s: State, e: Event)
  {
    e.HostActs? ==> !e.act.Create? && !e.act.Stop?
  }

  function Step(c: Config, s: State, e: Event): State
  {
    if !Enabled(s, e) then s else
    match e
    case Create(ask) => DoCreate(c, s, ask)
    case Stop(id) => HaltKnown(c, s, id)
    case HostActs(act) => s.(host := H.Step(c.interval, s.host, act))
  }

  function After(c: Config, es: seq<Event>): State
  {
    if es == [] then Init else Step(c, After(c, es[..|es| - 1]), es[|es| - 1])
  }

  // ---------- What every run keeps ----------

  ghost predicate NumbersOK(s: State)
  {
    1 <= s.nextId && forall id :: id in s.objects <==> 1 <= id < s.nextId
  }

  predicate Recent(s: State)
  {
    |s.order| < s.nextId && s.order == Span(s.nextId - |s.order|, s.nextId) && s.dict == s.order
  }

  predicate RunsAlone(s: State, id: nat)
  {
    id in s.objects && s.objects[id].active && !Converged(s.objects[id].kind)
  }

  /** Forgotten monitors are stopped; tasks belong to active monitors of the other kinds, all of which have
      one, but for `pending`. */
  ghost predicate TasksOK(s: State, pending: nat)
  {
    && (forall id :: id in s.objects && id !in s.dict ==> !s.objects[id].active)
    && (forall id :: id in s.tasks ==> RunsAlone(s, id) && id != pending)
    && (forall id :: RunsAlone(s, id) && id != pending ==> id in s.tasks)
  }

  ghost predicate Loose(s: State, pending: nat)
  {
    NumbersOK(s) && Recent(s) && TasksOK(s, pending)
  }

  ghost predicate RegistryInv(c: Config, s: State)
  {
    && NumbersOK(s) && Recent(s)
    && (forall id :: id in s.objects && id !in s.dict ==> !s.objects[id].active)
    && (c.maxMonitors > 0 ==> forall id :: id in s.tasks <==> RunsAlone(s, id))
    && |s.order| == if s.nextId - 1 <= c.maxMonitors then s.nextId - 1 else c.maxMonitors
  }

  /** The hosted monitor runs what the registered one says. */
  predicate Mirrors(m: Monitor, h: H.Hosted, id: int)
  {
    && h.id == id && Converged(m.kind) && H.RuleOf(RuleName(m.kind)) == Some(h.rule)
    && h.cameras == H.NonBlank(m.cameras) && h.target == m.target && H.Finite(h.interval) == m.interval
  }

  predicate RunsHosted(s: State, id: int)
  {
    0 <= id && id in s.objects && s.objects[id].active && Converged(s.objects[id].kind)
  }

  predicate HostedMirrors(s: State, id: int)
  {
    id in s.host.monitors && s.host.monitors[id] < |s.host.objects| && id in s.objects && 0 <= id &&
    Mirrors(s.objects[id], s.host.objects[s.host.monitors[id]], id)
  }

  /** The host holds exactly the active monitors of the converged kinds. */
  ghost predicate HostOK(s: State)
  {
    && (forall id :: id in s.host.monitors <==> RunsHosted(s, id))
    && (forall id :: id in s.host.monitors ==> HostedMirrors(s, id))
  }

  /** What the host needs to accept a request, whatever is registered. */
  predicate Acceptable(c: Config, ask: Ask)
  {
    var interval := IntervalOf(c, ask.interval);
    && !interval.Malformed?
    && (Converged(ask.kind) ==>
          H.NonBlank(ask.cameras) != [] && Strip(ask.target) != "" && H.PositiveNumber(interval))
    && (ask.kind == "crossing" ==> ask.line.Some? && H.ProperLine(ask.line.value))
  }

  ghost predicate Inv(c: Config, s: State)
  {
    RegistryInv(c, s) && HostOK(s) && H.Inv(s.host)
  }

  // ---------- The registry ----------

  /** Evicting the oldest, spelled out. */
  lemma EvictOldestIs(c: Config, s: State, pending: nat)
    requires Loose(s, pending) && s.order != []
    ensures s.order[0] in s.objects && s.order[0] == s.nextId - |s.order| && s.dict == [s.order[0]] + s.dict[1..]
    ensures EvictOldest(c, s) == Halt(c, s, s.order[0]).(order := s.order[1..], dict := s.dict[1..])
  {
    hide H.Step;
  }

  lemma EvictOldestShape(c: Config, s: State, pending: nat)
    requires Loose(s, pending) && s.order != []
    ensures NumbersOK(EvictOldest(c, s)) && Recent(EvictOldest(c, s))
  {
    EvictOldestIs(c, s, pending);
    SpanEnds(s.nextId - |s.order|, s.nextId);
    hide Span, H.Step, EvictOldest, TasksOK;
  }

  lemma EvictOldestTasks(c: Config, s: State, pending: nat)
    requires Loose(s, pending) && s.order != []
    ensures TasksOK(EvictOldest(c, s), pending)
  {
    EvictOldestIs(c, s, pending);
    hide Span, H.Step, EvictOldest, NumbersOK, Recent;
  }

  lemma EvictOldestLoose(c: Config, s: State, pending: nat)
    requires Loose(s, pending) && s.order != []
    ensures Loose(EvictOldest(c, s), pending) && EvictOldest(c, s).order == s.order[1..]
    ensures EvictOldest(c, s).nextId == s.nextId
    ensures |s.order| > 1 && s.nextId - 1 in s.objects ==>
      s.nextId - 1 in EvictOldest(c, s).objects && EvictOldest(c, s).objects[s.nextId - 1] == s.objects[s.nextId - 1]
  {
    EvictOldestIs(c, s, pending);
    EvictOldestShape(c, s, pending);
    EvictOldestTasks(c, s, pending);
    hide NumbersOK, Recent, TasksOK, H.Step, EvictOldest;
  }

  /** Evicting keeps the most recent monitors, and the newest one untouched unless none may stay. */
  lemma {:induction false} EvictLoose(c: Config, s: State, pending: nat)
    requires Loose(s, pending)
    ensures Loose(Evict(c, s), pending) && Evict(c, s).nextId == s.nextId
    ensures |Evict(c, s).order| == if |s.order| <= c.maxMonitors then |s.order| else c.maxMonitors
    ensures c.maxMonitors > 0 && s.nextId - 1 in s.objects ==>
      s.nextId - 1 in Evict(c, s).objects && Evict(c, s).objects[s.nextId - 1] == s.objects[s.nextId - 1]
    decreases |s.order|
  {
    hide Loose, EvictOldest;
    if |s.order| > c.maxMonitors {
      EvictOldestLoose(c, s, pending);
      EvictLoose(c, EvictOldest(c, s), pending);
    }
  }

  lemma RegisterShape(c: Config, s: State, m: Monitor)
    requires RegistryInv(c, s)
    ensures NumbersOK(Register(s, m)) && Recent(Register(s, m))
  {
    SpanEnds(s.nextId - |s.order|, s.nextId);
    hide Span;
  }

  lemma RegisterTasks(c: Config, s: State, m: Monitor)
    requires RegistryInv(c, s) && c.maxMonitors > 0 && m.active
    ensures TasksOK(Register(s, m), s.nextId)
  {
    hide Recent;
  }

  lemma RegisterLoose(c: Config, s: State, m: Monitor)
    requires RegistryInv(c, s) && c.maxMonitors > 0 && m.active
    ensures Loose(Register(s, m), s.nextId)
  {
    hide RegistryInv, NumbersOK, Recent, TasksOK, Register;
    RegisterShape(c, s, m);
    RegisterTasks(c, s, m);
  }

  lemma EnrollRegistry(c: Config, s: State, m: Monitor)
    requires RegistryInv(c, s) && c.maxMonitors > 0 && m.active
    ensures RegistryInv(c, Enroll(c, s, m))
  {
    hide Span, Evict, Loose, NumbersOK, Recent, TasksOK, H.Step;
    var t := Register(s, m);
    var u := Evict(c, t);
    RegisterLoose(c, s, m);
    EvictLoose(c, t, s.nextId);
    assert u.objects[s.nextId] == m;
    NoPending(u, s.nextId, Enroll(c, s, m));
  }

  lemma NoPending(u: State, n: nat, v: State)
    requires Loose(u, n) && n in u.objects && u.objects[n].active
    requires v == if Converged(u.objects[n].kind) then u else u.(tasks := u.tasks + {n})
    ensures NumbersOK(v) && Recent(v)
    ensures forall id :: id in v.objects && id !in v.dict ==> !v.objects[id].active
    ensures forall id :: id in v.tasks <==> RunsAlone(v, id)
  {
    hide Span;
  }

  /** With room for no monitor, the new one is stopped and forgotten at once. */
  lemma EnrollNothing(c: Config, s: State, m: Monitor)
    requires RegistryInv(c, s) && c.maxMonitors == 0
    ensures RegistryInv(c, Enroll(c, s, m))
  {
    var t := Register(s, m);
    assert s.order == [] && t.order == [s.nextId] == t.dict;
    hide Span, H.Step;
    var u := EvictOldest(c, t);
    assert Evict(c, u) == u;
    assert Evict(c, t) == u;
  }

  lemma EnrollKeepsRegistry(c: Config, s: State, m: Monitor)
    requires RegistryInv(c, s) && m.active
    ensures RegistryInv(c, Enroll(c, s, m))
  {
    hide RegistryInv, Enroll;
    if c.maxMonitors > 0 { EnrollRegistry(c, s, m); } else { EnrollNothing(c, s, m); }
  }

  lemma HaltKeepsRegistry(c: Config, s: State, id: nat)
    requires RegistryInv(c, s)
    ensures RegistryInv(c, HaltKnown(c, s, id))
  {
    hide Span, H.Step;
  }

  // ---------- The host follows ----------

  lemma StopOnHost(standard: real, h: H.State, id: int)
    ensures var t := H.Step(standard, h, H.Stop(id));
      && t.monitors == h.monitors - {id}
      && |t.objects| == |h.objects| && forall m :: 0 <= m < |h.objects| ==> SameMonitor(h.objects[m], t.objects[m])
  {
    if id !in h.monitors { assert h.monitors - {id} == h.monitors; }
  }

  /** Whatever happens to a hosted monitor, it stays what it was created as. */
  predicate SameMonitor(a: H.Hosted, b: H.Hosted)
  {
    b.id == a.id && b.rule == a.rule && b.cameras == a.cameras && b.target == a.target && b.interval == a.interval
  }

  predicate SameMonitors(h: H.State, t: H.State)
  {
    && t.monitors == h.monitors && |t.objects| == |h.objects|
    && forall m :: 0 <= m < |h.objects| ==> SameMonitor(h.objects[m], t.objects[m])
  }

  lemma HaltKeepsHost(c: Config, s: State, id: nat)
    requires HostOK(s)
    ensures HostOK(HaltKnown(c, s, id))
  {
    if id in s.dict && id in s.objects {
      var t := Halt(c, s, id);
      StopOnHost(c.interval, s.host, id);
      hide H.Step, H.NonBlank, H.RuleOf;
      forall k | k in t.host.monitors ensures HostedMirrors(t, k) {
        assert HostedMirrors(s, k);
      }
    }
  }

  lemma {:induction false} EvictKeepsHost(c: Config, s: State)
    requires HostOK(s) && H.Inv(s.host)
    ensures HostOK(Evict(c, s)) && H.Inv(Evict(c, s).host)
    decreases |s.order|
  {
    hide H.Inv, HostOK, H.Step;
    if |s.order| > c.maxMonitors {
      var t := s.(order := s.order[1..]);
      SameHostOK(s, t);
      HaltKeepsHost(c, t, s.order[0]);
      H.StepKeepsInv(c.interval, t.host, H.Stop(s.order[0]));
      SameHostOK(HaltKnown(c, t, s.order[0]), EvictOldest(c, s));
      EvictKeepsHost(c, EvictOldest(c, s));
    }
  }

  lemma SameHostOK(s: State, t: State)
    requires HostOK(s) && t.objects == s.objects && t.host == s.host
    ensures HostOK(t)
  {
    forall k | k in t.host.monitors ensures HostedMirrors(t, k) {
      assert HostedMirrors(s, k);
    }
  }

  /** A request is refused exactly when it is not acceptable: in particular its id is always free. */
  lemma RefusedIffUnacceptable(c: Config, s: State, ask: Ask)
    requires HostOK(s) && NumbersOK(s)
    ensures Refused(c, s, ask) <==> !Acceptable(c, ask)
  {
    var m := Made(c, ask);
    IdIsFree(s);
    StripLowerTwice(ask.target);
    assert "line_crossing"[0] != "occupancy"[0] && "count"[1] != "crossing"[1];
    hide H.NonBlank, Strip, HostOK;
    assert Lower(Strip(ask.target)) == "" <==> Strip(ask.target) == "";
  }

  lemma IdIsFree(s: State)
    requires HostOK(s) && NumbersOK(s)
    ensures s.nextId !in s.host.monitors
  {
    assert s.nextId !in s.objects;
  }

  lemma AcceptedStarts(c: Config, s: State, ask: Ask)
    requires Acceptable(c, ask) && Converged(ask.kind) && !Refused(c, s, ask)
    ensures var m := Made(c, ask);
      var t := HostAfter(c, s, m);
      && t.monitors == s.host.monitors[s.nextId := |s.host.objects|]
      && |t.objects| == |s.host.objects| + 1
      && t.objects[..|s.host.objects|] == s.host.objects && Mirrors(m, t.objects[|s.host.objects|], s.nextId)
  {
    StripLowerTwice(ask.target);
    assert "line_crossing"[0] != "occupancy"[0] && "count"[1] != "crossing"[1];
    hide H.NonBlank, Strip, Lower, H.ProperLine;
  }

  lemma RegisterKeepsHost(c: Config, s: State, ask: Ask)
    requires HostOK(s) && NumbersOK(s) && Acceptable(c, ask)
    ensures var m := Made(c, ask); HostOK(Register(s.(host := HostAfter(c, s, m)), m))
  {
    var m := Made(c, ask);
    RefusedIffUnacceptable(c, s, ask);
    IdIsFree(s);
    var t := Register(s.(host := HostAfter(c, s, m)), m);
    if Converged(ask.kind) { AcceptedStarts(c, s, ask); }
    hide H.Step, H.NonBlank, H.RuleOf, Strip, Lower, Acceptable, Refused, IntervalOf, RuleName;
    forall k | k in t.host.monitors ensures HostedMirrors(t, k) {
      if k == s.nextId {
        assert Mirrors(m, t.host.objects[|s.host.objects|], s.nextId);
      } else {
        assert HostedMirrors(s, k);
      }
    }
  }

  lemma {:induction false} AlertsKeepMonitors(h: H.State, m: nat, fired: seq<H.Alert>)
    requires m < |h.objects|
    ensures SameMonitors(h, H.OnAlerts(h, m, fired))
    decreases |fired|
  {
    if fired != [] {
      AlertsKeepMonitors(h, m, fired[..|fired| - 1]);
      hide LastN;
    }
  }

  lemma PushKeepsMonitors(h: H.State, m: nat, cam: string)
    requires m < |h.objects|
    ensures SameMonitors(h, H.PushCounts(h, m, cam))
  {
  }

  lemma ActsKeepMonitors(standard: real, h: H.State, act: H.Event)
    requires !act.Create? && !act.Stop?
    ensures SameMonitors(h, H.Step(standard, h, act))
  {
    hide H.OnAlerts, H.PushCounts;
    if H.Enabled(h, act) {
      match act
      case PollEnds(m, fired) =>
        var g := h.(polling := h.polling - {m});
        AlertsKeepMonitors(g, m, fired);
        PushKeepsMonitors(H.OnAlerts(g, m, fired), m, h.polling[m]);
      case Feed(m, cam, heard) =>
        AlertsKeepMonitors(h, m, heard);
        PushKeepsMonitors(H.OnAlerts(h, m, heard), m, cam);
      case _ =>
    }
  }

  lemma ActsKeepHost(s: State, t: State)
    requires HostOK(s) && t.objects == s.objects && SameMonitors(s.host, t.host)
    ensures HostOK(t)
  {
    hide H.NonBlank, H.RuleOf;
    forall k | k in t.host.monitors ensures HostedMirrors(t, k) {
      assert HostedMirrors(s, k);
    }
  }

  /** A refused request changes nothing but, perhaps, the host's id counter. */
  lemma RefusalLeavesAll(c: Config, s: State, ask: Ask)
    requires Refused(c, s, ask)
    ensures var t := DoCreate(c, s, ask); t == s.(host := s.host.(nextId := t.host.nextId))
  {
    var m := Made(c, ask);
    if !IntervalOf(c, ask.interval).Malformed? {
      H.RefusalOnlyCounts(c.interval, s.host, RequestFor(m, s.nextId));
    }
  }

  lemma CreateKeepsInv(c: Config, s: State, ask: Ask)
    requires Inv(c, s)
    ensures Inv(c, DoCreate(c, s, ask))
  {
    var m := Made(c, ask);
    var t := s.(host := HostAfter(c, s, m));
    H.StepKeepsInv(c.interval, s.host, H.Create(RequestFor(m, s.nextId)));
    if Refused(c, s, ask) {
      RefusalLeavesAll(c, s, ask);
      RefusedKeepsInv(c, s, DoCreate(c, s, ask));
    } else {
      RefusedIffUnacceptable(c, s, ask);
      RegisterKeepsHost(c, s, ask);
      hide H.Inv, HostOK, RegistryInv, Refused, Acceptable, H.Step, Evict;
      EvictKeepsHost(c, Register(t, m));
      SameHostOK(Evict(c, Register(t, m)), Enroll(c, t, m));
      HostOnlyKeepsRegistry(c, s, t);
      EnrollKeepsRegistry(c, t, m);
    }
  }

  lemma HostOnlyKeepsRegistry(c: Config, s: State, t: State)
    requires RegistryInv(c, s) && t == s.(host := t.host)
    ensures RegistryInv(c, t)
  {
    hide Span;
  }

  lemma RefusedKeepsInv(c: Config, s: State, t: State)
    requires Inv(c, s) && t == s.(host := s.host.(nextId := t.host.nextId)) && H.Inv(t.host)
    ensures Inv(c, t)
  {
    HostOnlyKeepsRegistry(c, s, t);
    hide H.Inv, RegistryInv, Mirrors;
    ActsKeepHost2(s, t);
  }

  lemma ActsKeepHost2(s: State, t: State)
    requires HostOK(s) && t.objects == s.objects
    requires t.host.monitors == s.host.monitors && t.host.objects == s.host.objects
    ensures HostOK(t)
  {
    hide Mirrors;
    forall k | k in t.host.monitors ensures HostedMirrors(t, k) {
      assert HostedMirrors(s, k);
    }
  }

  lemma StepKeepsInv(c: Config, s: State, e: Event)
    requires Inv(c, s)
    ensures Inv(c, Step(c, s, e))
  {
    if Enabled(s, e) {
      hide H.Inv, HostOK, RegistryInv, DoCreate, H.Step;
      match e
      case Create(ask) => CreateKeepsInv(c, s, ask);
      case Stop(id) =>
        HaltKeepsRegistry(c, s, id);
        HaltKeepsHost(c, s, id);
        H.StepKeepsInv(c.interval, s.host, H.Stop(id));
      case HostActs(act) =>
        H.StepKeepsInv(c.interval, s.host, act);
        ActsKeepMonitors(c.interval, s.host, act);
        ActsKeepHost(s, Step(c, s, e));
        HostOnlyKeepsRegistry(c, s, Step(c, s, e));
    }
  }

  lemma {:induction false} Reachable(c: Config, es: seq<Event>)
    ensures Inv(c, After(c, es))
  {
    if es == [] {
      H.Reachable(c.interval, []);
    } else {
      hide Inv, Step;
      Reachable(c, es[..|es| - 1]);
      StepKeepsInv(c, After(c, es[..|es| - 1]), es[|es| - 1]);
    }
  }

  // ---------- Theorems about every run ----------

  /** The registry is the most recent monitors, at most `maxMonitors` of them, in order of creation; the
      forgotten ones are stopped, and a task of its own has exactly each active monitor the host does not run. */
  lemma RegistryHoldsNewest(c: Config, es: seq<Event>)
    ensures var s := After(c, es);
      && 1 <= s.nextId && s.dict == s.order == LastN(Span(1, s.nextId), c.maxMonitors)
      && (forall id :: id in s.objects <==> 1 <= id < s.nextId)
      && (forall id :: id in s.objects && id !in s.dict ==> !s.objects[id].active)
      && (c.maxMonitors > 0 ==> forall id :: id in s.tasks <==> RunsAlone(s, id))
  {
    Reachable(c, es);
    var s := After(c, es);
    hide After, HostOK, H.Inv;
    NewestSpan(s.nextId, c.maxMonitors, |s.order|);
  }

  /** The host holds exactly the active count and crossing monitors, each running what was asked for. */
  lemma HostHoldsTheActive(c: Config, es: seq<Event>, id: int)
    ensures var s := After(c, es);
      && (id in s.host.monitors <==> RunsHosted(s, id))
      && (id in s.host.monitors ==> HostedMirrors(s, id) && !s.host.objects[s.host.monitors[id]].stopped)
  {
    Reachable(c, es);
    var s := After(c, es);
    hide After, RegistryInv;
    if id in s.host.monitors { H.UnstoppedInDict(s.host, id); }
  }

  /** A request is refused exactly when it is not acceptable by itself, and then nothing is registered in
      either registry: only the host's id counter can move. */
  lemma RefusalRegistersNothing(c: Config, es: seq<Event>, ask: Ask)
    ensures var s := After(c, es);
      var t := Step(c, s, Create(ask));
      && (Refused(c, s, ask) <==> !Acceptable(c, ask))
      && (!Acceptable(c, ask) ==> t == s.(host := s.host.(nextId := t.host.nextId)))
  {
    Reachable(c, es);
    var s := After(c, es);
    hide After, HostOK, Acceptable, Refused, DoCreate;
    RefusedIffUnacceptable(c, s, ask);
    if Refused(c, s, ask) { RefusalLeavesAll(c, s, ask); }
  }

  /** The counter moves exactly when a crossing monitor is refused for its line alone. */
  lemma RefusalUsesUpHostId(c: Config, s: State, ask: Ask)
    requires HostOK(s) && NumbersOK(s) && Refused(c, s, ask)
    ensures DoCreate(c, s, ask).host.nextId != s.host.nextId <==>
      ask.kind == "crossing" && Acceptable(c, ask.(kind := "count"))
  {
    IdIsFree(s);
    StripLowerTwice(ask.target);
    assert "line_crossing"[0] != "occupancy"[0] && "count"[1] != "crossing"[1];
    hide H.NonBlank, Strip, HostOK, NumbersOK, H.ProperLine;
    assert Lower(Strip(ask.target)) == "" <==> Strip(ask.target) == "";
  }

  // ---------- What is persisted ----------

  function SpecOf(m: Monitor): Ask
  {
    Ask(m.kind, m.cameras, m.target, Some(m.interval), m.line)
  }

  predicate IsActive(m: Monitor)
  {
    m.active
  }

  /** The active monitors among `ids`, in that order. */
  function ExportOf(objects: map<nat, Monitor>, ids: seq<nat>): seq<Ask>
  {
    ActiveSpecs(objects, ids, IsActive, SpecOf)
  }

  function Exported(s: State): seq<Ask>
  {
    ExportOf(s.objects, s.dict)
  }

  /** The interval is not part of the key, and no line is the empty line. */
  datatype MonitorKey = MonitorKey(kind: string, target: string, cameras: set<string>, line: seq<H.Number>)

  function KeyOf(ask: Ask): MonitorKey
  {
    MonitorKey(ask.kind, ask.target, (set cam | cam in ask.cameras), if ask.line.Some? then ask.line.value else [])
  }

  function CreateAll(c: Config, s: State, specs: seq<Ask>): State
  {
    if specs == [] then s else Step(c, CreateAll(c, s, specs[..|specs| - 1]), Create(specs[|specs| - 1]))
  }

  // ---------- The manager object ----------

  class MonitorManager {
    const config: Config
    const host: H.Host
    var objects: map<nat, Monitor>
    var dict: seq<nat>
    var order: seq<nat>
    var tasks: set<nat>
    var nextId: nat

    ghost function View(): State
      reads this, host
    {
      State(objects, dict, order, tasks, nextId, host.View())
    }

    ghost predicate Valid()
      reads this, host
    {
      host.standard == config.interval
    }

    constructor (config: Config)
      ensures this.config == config && Valid() && fresh(host) && View() == After(config, [])
    {
      this.config := config;
      host := new H.Host(config.interval);
      objects, dict, order, tasks, nextId := map[], [], [], {}, 1;
    }

    method CreateMonitor(ask: Ask) returns (refused: bool)
      requires Valid()
      modifies this, host
      ensures Valid() && View() == Step(config, old(View()), Create(ask))
      ensures refused == Refused(config, old(View()), ask)
    {
      hide H.Step, Strip, H.Refusal;
      var interval := IntervalOf(config, ask.interval);
      if interval.Malformed? { return true; }
      var mon := Monitor(ask.kind, ask.cameras, Lower(Strip(ask.target)), interval, ask.line, true);
      if Converged(ask.kind) {
        var reason := host.CreateMonitor(RequestFor(mon, nextId));
        if reason.Some? { return true; }
      }
      refused := false;
      var id := nextId;
      nextId := nextId + 1;
      objects := objects[id := mon];
      dict := dict + [id];
      order := order + [id];
      MakeRoom();
      if !Converged(ask.kind) { tasks := tasks + {id}; }
    }

    /** The eviction loop of `create`. */
    method MakeRoom()
      requires Valid()
      modifies this, host
      ensures Valid() && View() == Evict(config, old(View())) && nextId == old(nextId)
    {
      while |order| > config.maxMonitors
        invariant Valid() && nextId == old(nextId)
        invariant Evict(config, View()) == Evict(config, old(View()))
        decreases |order|
      {
        var oldest := order[0];
        order := order[1..];
        var known := StopMonitor(oldest);
        dict := Without(dict, oldest);
      }
    }

    method StopMonitor(id: nat) returns (known: bool)
      requires Valid()
      modifies this`objects, this`tasks, host
      ensures Valid() && View() == Step(config, old(View()), Stop(id)) && (known <==> id in dict && id in old(objects))
    {
      if !(id in dict && id in objects) { return false; }
      objects := objects[id := objects[id].(active := false)];
      var hosted := host.StopMonitor(id);
      tasks := tasks - {id};
      return true;
    }

    method Export() returns (specs: seq<Ask>)
      ensures specs == Exported(View())
    {
      specs := [];
      for i := 0 to |dict|
        invariant specs == ExportOf(objects, dict[..i])
      {
        assert dict[..i + 1][..i] == dict[..i];
        var id := dict[i];
        if id in objects && objects[id].active { specs := specs + [SpecOf(objects[id])]; }
      }
      assert dict[..|dict|] == dict;
    }

    /** Creates the first monitor of each key; a refused one is skipped. */
    method Restore(specs: seq<Ask>)
      requires Valid()
      modifies this, host
      ensures Valid() && View() == CreateAll(config, old(View()), Firsts(specs, KeyOf))
    {
      hide Step, Keys, Span, KeyOf, Refused;
      var seen := {};
      assert specs[..0] == [];
      NoKeys(KeyOf);
      for i := 0 to |specs|
        invariant Valid()
        invariant seen == Keys(specs[..i], KeyOf)
        invariant View() == CreateAll(config, old(View()), Firsts(specs[..i], KeyOf))
      {
        assert specs[..i + 1] == specs[..i] + [specs[i]];
        KeysSnoc(specs[..i], specs[i], KeyOf);
        FirstsSnoc(specs[..i], specs[i], KeyOf);
        var key := KeyOf(specs[i]);
        if key in seen { continue; }
        seen := seen + {key};
        ghost var kept := Firsts(specs[..i], KeyOf);
        assert (kept + [specs[i]])[..|kept|] == kept;
        var refused := CreateMonitor(specs[i]);
      }
      assert specs[..|specs|] == specs;
    }
  }
}
