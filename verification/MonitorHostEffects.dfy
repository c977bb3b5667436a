/**
 What the events of the monitor host do: what a request is refused for, what an accepted one starts, which alerts
 reach which monitor, and what stopping and crashing leave behind.
 */
module MonitorHostEffects {
  import opened Common
  import opened Text
  import opened MonitorHost

  lemma AfterStep(standard: real, es: seq<Event>, e: Event)
    ensures After(standard, es + [e]) == Step(standard, After(standard, es), e)
  {
    assert (es + [e])[..|es|] == es;
  }

  // ---------- Requests ----------

  /** Cameras are stripped one by one, and the blank ones dropped. */
  lemma {:induction false} NonBlankConcat(a: seq<string>, b: seq<string>)
    ensures NonBlank(a + b) == NonBlank(a) + NonBlank(b)
  {
    if a == [] {
      assert a + b == b;
    } else {
      assert (a + b)[1..] == a[1..] + b;
      hide Strip;
      NonBlankConcat(a[1..], b);
    }
  }

  lemma NonBlankOne(cam: string)
    ensures NonBlank([cam]) == if Strip(cam) == "" then [] else [Strip(cam)]
  {
    assert [cam][1..] == [];
  }

  /** What a request can be refused for, each by itself. */
  predicate Objectionable(s: State, r: Request, why: Reason)
  {
    match why
    case UnknownRule => r.rule != "occupancy" && r.rule != "line_crossing"
    case NoCamera => forall i :: 0 <= i < |r.cameras| ==> Strip(r.cameras[i]) == ""
    case NoTarget => Strip(r.params.target) == ""
    case BadInterval =>
      r.params.interval.Some? && !(r.params.interval.value.Finite? && r.params.interval.value.value > 0.0)
    case IdInUse => (if r.monitorId.Some? then r.monitorId.value else s.nextId) in s.monitors
    case BadCounts => r.rule == "occupancy" && BadBounds(r.params.minCount, r.params.maxCount)
    case BadLine => r.rule == "line_crossing" && !(r.params.line.Some? && Drawable(r.params.line.value))
  }

  /** A bound below zero, or a least count above the greatest. */
  predicate BadBounds(least: Option<int>, most: Option<int>)
  {
    (least.Some? && least.value < 0) || (most.Some? && most.value < 0) ||
    (least.Some? && most.Some? && least.value > most.value)
  }

  /** Two different points by their four finite coordinates. */
  predicate Drawable(line: seq<Number>)
  {
    |line| == 4 && line[0].Finite? && line[1].Finite? && line[2].Finite? && line[3].Finite? &&
    (line[0].value, line[1].value) != (line[2].value, line[3].value)
  }

  function Rank(why: Reason): nat
  {
    match why
    case UnknownRule => 0
    case NoCamera => 1
    case NoTarget => 2
    case BadInterval => 3
    case IdInUse => 4
    case BadCounts => 5
    case BadLine => 5
  }

  lemma {:induction false} NoCameraLeft(cameras: seq<string>)
    ensures NonBlank(cameras) == [] <==> forall i :: 0 <= i < |cameras| ==> Strip(cameras[i]) == ""
  {
    hide Strip;
    if cameras != [] {
      NoCameraLeft(cameras[1..]);
      assert forall i :: 0 < i < |cameras| ==> cameras[1..][i - 1] == cameras[i];
    }
  }

  lemma LineIsDrawable(line: seq<Number>)
    ensures ProperLine(line) <==> Drawable(line)
  {
    if |line| == 4 {
      assert line == [line[0], line[1], line[2], line[3]];
    }
  }

  /** A request is refused for its first objection in that order, and accepted if it has none. */
  lemma FirstObjectionCounts(s: State, r: Request)
    ensures forall why :: Refusal(s, r) == Some(why) <==>
      Objectionable(s, r, why) && forall other :: Rank(other) < Rank(why) ==> !Objectionable(s, r, other)
  {
    NoCameraLeft(r.cameras);
    if r.params.line.Some? { LineIsDrawable(r.params.line.value); }
    LowerBlank(Strip(r.params.target));
    hide NonBlank, Strip, Lower, ProperLine, Drawable;
    forall why ensures Refusal(s, r) == Some(why) <==>
      Objectionable(s, r, why) && forall other :: Rank(other) < Rank(why) ==> !Objectionable(s, r, other)
    {
      assert Rank(UnknownRule) == 0 && Rank(NoCamera) == 1 && Rank(NoTarget) == 2 && Rank(BadInterval) == 3 &&
        Rank(IdInUse) == 4;
    }
  }

  lemma LowerBlank(s: string)
    ensures Lower(s) == "" <==> s == ""
  {
  }

  /** What a request makes: an accepted one starts one monitor with the fields it asked for, under its id; one refused
      before the rule was built changes nothing, one refused by the rule uses up its id. */
  lemma CreateStartsOneMonitor(standard: real, es: seq<Event>, r: Request)
    ensures var s, t := After(standard, es), After(standard, es + [Create(r)]);
      var id := if r.monitorId.Some? then r.monitorId.value else s.nextId;
      var next := (if id > s.nextId then id else s.nextId) + 1;
      && t.polling == s.polling && t.notices == s.notices && t.log == s.log
      && (Refusal(s, r).None? ==>
            && t.nextId == next && t.monitors == s.monitors[id := |s.objects|]
            && |t.objects| == |s.objects| + 1 && s.objects <= t.objects
            && Asked(standard, r, id, t.objects[|s.objects|]))
      && (Refusal(s, r).Some? ==>
            && t.monitors == s.monitors && t.objects == s.objects
            && t.nextId == if Rank(Refusal(s, r).value) == 5 then next else s.nextId)
  {
    var s := After(standard, es);
    AfterStep(standard, es, Create(r));
    FirstObjectionCounts(s, r);
    if Refusal(s, r).None? { FiniteInterval(s, r); }
    hide After, NonBlank, Strip, Lower, CountsFit, ProperLine, PositiveNumber, Objectionable;
  }

  lemma FiniteInterval(s: State, r: Request)
    requires Refusal(s, r).None?
    ensures r.params.interval.Some? ==> r.params.interval.value.Finite?
  {
    hide NonBlank, Strip, Lower, CountsFit, ProperLine;
  }

  /** The monitor is what was asked for, running and with nothing on its counters. */
  predicate Asked(standard: real, r: Request, id: int, h: Hosted)
  {
    && h.id == id && h.rule == (if r.rule == "occupancy" then Occupancy else LineCrossing)
    && h.cameras == NonBlank(r.cameras) && h.target == Lower(Strip(r.params.target))
    && h.interval == (if r.params.interval.Some? && r.params.interval.value.Finite? then r.params.interval.value.value
                      else standard)
    && h.notifies == (if r.params.notifyOnAlert.Some? then r.params.notifyOnAlert.value
                      else h.rule.Occupancy? && (r.params.maxCount.Some? || r.params.minCount.Some?))
    && h.active && !h.stopped && !h.crashed && h.alertsFired == 0 && h.recent == []
    && h.tallies == map cam | cam in h.cameras :: Tally(0, 0)
  }

  // ---------- Alerts ----------

  /** What an alert does not touch: all but the counters. */
  predicate Same(h: Hosted, g: Hosted)
  {
    g == h.(alertsFired := g.alertsFired, recent := g.recent, tallies := g.tallies)
  }

  /** One entry per alert: delivered, or dropped by a monitor that was stopped. */
  function Fates(m: nat, stopped: bool, fired: seq<Alert>): (r: seq<Obs>)
    ensures |r| == |fired|
    ensures forall i :: 0 <= i < |fired| ==> r[i] == if stopped then Dropped(m, fired[i]) else Delivered(m, fired[i])
  {
    seq(|fired|, i requires 0 <= i < |fired| => if stopped then Dropped(m, fired[i]) else Delivered(m, fired[i]))
  }

  /** The notifications that go with the deliveries of a monitor that asks for them. */
  function NoticesFor(m: nat, h: Hosted, fired: seq<Alert>): (r: seq<Notice>)
    ensures |r| == if h.notifies && !h.stopped then |fired| else 0
    ensures forall i :: 0 <= i < |r| ==> r[i] == Notice(m, h.id, fired[i])
  {
    if h.notifies && !h.stopped then seq(|fired|, i requires 0 <= i < |fired| => Notice(m, h.id, fired[i])) else []
  }

  lemma {:induction false} AlertsAreLogged(s: State, m: nat, fired: seq<Alert>)
    requires m < |s.objects|
    ensures var t := OnAlerts(s, m, fired);
      && t.log == s.log + Fates(m, s.objects[m].stopped, fired) && t.polling == s.polling
      && t.monitors == s.monitors && t.nextId == s.nextId && |t.objects| == |s.objects|
      && Same(s.objects[m], t.objects[m])
      && (forall k :: 0 <= k < |s.objects| && k != m ==> t.objects[k] == s.objects[k])
      && t.notices == s.notices + NoticesFor(m, s.objects[m], fired)
      && (s.objects[m].stopped ==> t.objects == s.objects)
  {
    if fired != [] {
      var before := fired[..|fired| - 1];
      AlertsAreLogged(s, m, before);
      hide LastN, Flow, TallyOf;
      var h := s.objects[m];
      assert h.notifies && !h.stopped ==>
        NoticesFor(m, h, fired) == NoticesFor(m, h, before) + [Notice(m, h.id, fired[|fired| - 1])];
      var stopped := s.objects[m].stopped;
      assert Fates(m, stopped, fired) == Fates(m, stopped, before) +
        [if stopped then Dropped(m, fired[|fired| - 1]) else Delivered(m, fired[|fired| - 1])];
    }
  }

  /** What one event of the camera makes the rule fire reaches its monitor alert by alert, in order, and no other,
      with a notification for each if it asks for them; a monitor that was stopped drops it all. */
  lemma FiredAlertsReachTheirMonitor(standard: real, es: seq<Event>, e: Event, m: nat, fired: seq<Alert>)
    requires e == PollEnds(m, fired) || exists cam :: e == Feed(m, cam, fired)
    requires var s := After(standard, es);
      m < |s.objects| && if e.PollEnds? then m in s.polling
                         else s.objects[m].active && s.objects[m].id in s.monitors && s.monitors[s.objects[m].id] == m
    ensures var s, t := After(standard, es), After(standard, es + [e]);
      && t.log == s.log + Fates(m, s.objects[m].stopped, fired)
      && t.polling == (if e.PollEnds? then s.polling - {m} else s.polling)
      && t.monitors == s.monitors && t.nextId == s.nextId && |t.objects| == |s.objects|
      && (forall k :: 0 <= k < |s.objects| && k != m ==> t.objects[k] == s.objects[k])
      && Same(s.objects[m], t.objects[m]) && t.notices == s.notices + NoticesFor(m, s.objects[m], fired)
  {
    var s := After(standard, es);
    AfterStep(standard, es, e);
    AlertsAreLogged(s.(polling := s.polling - {m}), m, fired);
    AlertsAreLogged(s, m, fired);
    hide After, OnAlerts;
  }

  // ---------- Stopping and crashing ----------

  /** Stopping a known monitor marks it and takes it out of the dict; another id is unknown and changes nothing. */
  lemma StopMarksAndForgets(standard: real, es: seq<Event>, id: int)
    ensures var s, t := After(standard, es), After(standard, es + [Stop(id)]);
      if id in s.monitors then
        && s.monitors[id] < |s.objects| && t.monitors == s.monitors - {id}
        && t.objects == s.objects[s.monitors[id] := s.objects[s.monitors[id]].(stopped := true, active := false)]
        && t.log == s.log + [Halted(s.monitors[id])]
        && t.polling == s.polling && t.notices == s.notices && t.nextId == s.nextId
      else t == s
  {
    AfterStep(standard, es, Stop(id));
    Reachable(standard, es);
    hide After, ObjectsOK, KnownOK, SilentOnceHalted;
    assert id in After(standard, es).monitors ==> RegisteredOK(After(standard, es), id);
  }

  /** A loop that crashes leaves its monitor in the dict, marked and inactive, and its poll is over; a poll begins at
      the camera it names and may come to nothing. */
  lemma LoopsBeginFailAndCrash(standard: real, es: seq<Event>, e: Event)
    requires e.PollStarts? || e.PollFails? || e.LoopCrashes?
    requires var s := After(standard, es);
      && (e.PollStarts? ==>
            e.starter < |s.objects| && s.objects[e.starter].active && e.camera in s.objects[e.starter].cameras &&
            e.starter !in s.polling)
      && (e.PollFails? ==> e.failer in s.polling) && (e.LoopCrashes? ==> e.loop < |s.objects|)
    ensures var s, t := After(standard, es), After(standard, es + [e]);
      && t == s.(polling := t.polling, objects := t.objects)
      && t.polling == (if e.PollStarts? then s.polling[e.starter := e.camera]
                       else if e.PollFails? then s.polling - {e.failer} else s.polling - {e.loop})
      && t.objects == if e.LoopCrashes? then s.objects[e.loop := s.objects[e.loop].(active := false, crashed := true)]
                      else s.objects
  {
    AfterStep(standard, es, e);
    hide After;
  }
}
