/**
 What the events of the monitor manager do: which requests are accepted, what an accepted one registers, and
 what stopping does on both levels.
 */
module MonitorsEffects {
  import opened Common
  import opened Text
  import opened Monitors
  import H = MonitorHost
  import E = MonitorHostEffects

  lemma AfterStep(c: Config, es: seq<Event>, e: Event)
    ensures After(c, es + [e]) == Step(c, After(c, es), e)
  {
    assert (es + [e])[..|es|] == es;
  }

  /** The interval a request asks for: none, or zero, means the manager's own. */
  function Asked(c: Config, ask: Ask): H.Number
  {
    if ask.interval.None? then H.Finite(c.interval) else
    if ask.interval.value.Finite? && ask.interval.value.value == 0.0 then H.Finite(c.interval) else ask.interval.value
  }

  /** A request is accepted if its interval is a number and, for the two kinds that run on the host, it names a
      camera, a target and a positive time, and a line that can be drawn if it is to count crossings. */
  predicate Grantable(c: Config, ask: Ask)
  {
    && !Asked(c, ask).Malformed?
    && (ask.kind in {"count", "crossing"} ==>
          && (exists i :: 0 <= i < |ask.cameras| && Strip(ask.cameras[i]) != "")
          && Strip(ask.target) != "" && Asked(c, ask).Finite? && Asked(c, ask).value > 0.0)
    && (ask.kind == "crossing" ==> ask.line.Some? && E.Drawable(ask.line.value))
  }

  lemma GrantableIsAcceptable(c: Config, ask: Ask)
    ensures Grantable(c, ask) <==> Acceptable(c, ask)
  {
    E.NoCameraLeft(ask.cameras);
    if ask.line.Some? { E.LineIsDrawable(ask.line.value); }
    assert Asked(c, ask) == Monitors.IntervalOf(c, ask.interval);
    hide H.NonBlank, Strip, H.ProperLine, E.Drawable;
  }

  /** A request that cannot be granted registers nothing; any other registers one monitor with the fields asked for,
      tidied, under the next number, and starts its own task unless the host runs it. */
  lemma CreateRegistersIff(c: Config, es: seq<Event>, ask: Ask)
    requires c.maxMonitors > 0
    ensures var s, t := After(c, es), After(c, es + [Create(ask)]);
      var id := s.nextId;
      if Grantable(c, ask) then
        && t.nextId == id + 1 && id in t.dict && id in t.objects
        && t.objects[id] == Monitor(ask.kind, ask.cameras, Lower(Strip(ask.target)), Asked(c, ask), ask.line, true)
        && (id in t.tasks <==> ask.kind != "count" && ask.kind != "crossing")
        && (id in t.host.monitors <==> ask.kind == "count" || ask.kind == "crossing")
      else
        t.nextId == id && t.objects == s.objects && t.dict == s.dict && t.tasks == s.tasks
  {
    var s, m := After(c, es), Made(c, ask);
    AfterStep(c, es, Create(ask));
    GrantableIsAcceptable(c, ask);
    Reachable(c, es);
    RefusedIffUnacceptable(c, s, ask);
    if Acceptable(c, ask) {
      Registered(c, s, ask);
      RegistryHoldsNewest(c, es + [Create(ask)]);
      HostHoldsTheActive(c, es + [Create(ask)], s.nextId);
      NewestIsLast(s.nextId + 1, c.maxMonitors);
    }
    hide After, Inv, Acceptable, Grantable, Enroll, HostAfter, Strip, Lower;
  }

  lemma Registered(c: Config, s: State, ask: Ask)
    requires Inv(c, s) && Acceptable(c, ask) && c.maxMonitors > 0
    ensures var t := DoCreate(c, s, ask);
      t.nextId == s.nextId + 1 && s.nextId in t.objects && t.objects[s.nextId] == Made(c, ask) && 1 <= s.nextId
  {
    var u := s.(host := HostAfter(c, s, Made(c, ask)));
    RefusedIffUnacceptable(c, s, ask);
    HostOnlyKeepsRegistry(c, s, u);
    RegisterLoose(c, u, Made(c, ask));
    EvictLoose(c, Register(u, Made(c, ask)), s.nextId);
    hide Evict, Loose, HostAfter, Acceptable, Refused, HostOK, H.Inv;
  }

  /** Stopping a registered monitor deactivates it, ends its own task, and stops it on the host; stopping another id
      does nothing. */
  lemma StopStopsBoth(c: Config, es: seq<Event>, id: nat)
    ensures var s, t := After(c, es), After(c, es + [Stop(id)]);
      if id in s.dict && id in s.objects then
        && t.objects == s.objects[id := s.objects[id].(active := false)] && t.tasks == s.tasks - {id}
        && t.dict == s.dict && t.nextId == s.nextId
        && t.host == H.Step(c.interval, s.host, H.Stop(id)) && id !in t.host.monitors
      else t == s
  {
    var s := After(c, es);
    AfterStep(c, es, Stop(id));
    hide After, H.Step;
    StopForgets(c.interval, s.host, id);
  }

  lemma StopForgets(standard: real, s: H.State, id: int)
    ensures id !in H.Step(standard, s, H.Stop(id)).monitors
  {
  }
}
