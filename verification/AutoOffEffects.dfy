/**
 What the events of the relay do, read off the events themselves: which alerts get a timer, and what every
 other event adds to the log and to the counters.
 */
module AutoOffEffects {
  import opened Common
  import opened AutoOff

  // ---------- The alert in flight ----------

  /** Event `i` is the alert whose ON publish is awaited under handler `h`. */
  ghost predicate AwaitedSince(es: seq<Event>, h: nat, e: Entity, i: nat)
  {
    && i < |es| && es[i] == Alert(h, Some(e)) && h !in After(es[..i]).inFlight
    && forall k :: i < k < |es| && es[k].OnFinished? ==> es[k].handler != h
  }

  /** The handler's map of awaited publishes after one more event. */
  lemma InFlightStep(es: seq<Event>, x: Event)
    ensures var s, t := After(es), After(es + [x]);
      t.inFlight ==
        if x.Alert? && x.handler !in s.inFlight && x.mapped.Some? then s.inFlight[x.handler := x.mapped.value]
        else if x.OnFinished? then s.inFlight - {x.handler}
        else s.inFlight
  {
    AfterStep(es, x);
    hide After, Cancel, CancelAll, HoldsLatest;
  }

  lemma AwaitedSnoc(es: seq<Event>, x: Event, h: nat, e: Entity, i: nat)
    ensures AwaitedSince(es + [x], h, e, i) <==>
      if i < |es| then AwaitedSince(es, h, e, i) && !(x.OnFinished? && x.handler == h)
      else i == |es| && x == Alert(h, Some(e)) && h !in After(es).inFlight
  {
    var all := es + [x];
    assert all[|es|] == x && forall k :: 0 <= k < |es| ==> all[k] == es[k];
    if i <= |es| { assert all[..i] == es[..i]; }
    assert es[..|es|] == es;
  }

  /** A publish is awaited exactly from the alert that started it to its return. */
  lemma {:induction false} InFlightIsAwaited(es: seq<Event>, h: nat, e: Entity)
    ensures h in After(es).inFlight && After(es).inFlight[h] == e <==> exists i :: AwaitedSince(es, h, e, i)
  {
    if es != [] {
      var before, x := es[..|es| - 1], es[|es| - 1];
      assert es == before + [x];
      InFlightIsAwaited(before, h, e);
      InFlightStep(before, x);
      forall i: nat ensures AwaitedSince(es, h, e, i) <==>
        if i < |before| then AwaitedSince(before, h, e, i) && !(x.OnFinished? && x.handler == h)
        else i == |before| && x == Alert(h, Some(e)) && h !in After(before).inFlight
      {
        AwaitedSnoc(before, x, h, e, i);
      }
      hide After;
      AwaitedEnds(before, x, h, e);
    }
  }

  /** The same case distinction without the index. */
  lemma AwaitedEnds(es: seq<Event>, x: Event, h: nat, e: Entity)
    ensures (exists i :: AwaitedSince(es + [x], h, e, i)) <==>
      || (x == Alert(h, Some(e)) && h !in After(es).inFlight)
      || (!(x.OnFinished? && x.handler == h) && exists i :: AwaitedSince(es, h, e, i))
  {
    hide After, AwaitedSince;
    if i: nat :| AwaitedSince(es + [x], h, e, i) {
      AwaitedSnoc(es, x, h, e, i);
    }
    if x == Alert(h, Some(e)) && h !in After(es).inFlight { AwaitedSnoc(es, x, h, e, |es|); }
    if i: nat :| AwaitedSince(es, h, e, i) {
      AwaitedIndex(es, h, e, i);
      AwaitedSnoc(es, x, h, e, i);
    }
  }

  lemma AwaitedIndex(es: seq<Event>, h: nat, e: Entity, i: nat)
    requires AwaitedSince(es, h, e, i)
    ensures i < |es|
  {
  }

  // ---------- Which alerts get a timer ----------

  /** The alert turns a binary sensor on, and asks for it to be turned off again. */
  predicate WantsOff(e: Entity)
  {
    e.binarySensor && e.autoOffSeconds > 0
  }

  /** What a return of an ON publish leaves of the other timers: the one the dict held for the entity is
      cancelled, and nothing else changes. */
  predicate OnlyPredecessorCancelled(s: State, t: State, key: string)
  {
    |s.timers| <= |t.timers| && forall u :: 0 <= u < |s.timers| ==>
      t.timers[u] == s.timers[u].(cancelled := s.timers[u].cancelled || (key in s.tasks && s.tasks[key] == u))
  }

  /** An ON publish returns: the alert gets a timer if and only if it was accepted, turns a binary sensor on and
      asks for a positive time; the timer is for its entity and its time, replaces and cancels the entity's
      pending one, and gets the entity's next generation. Otherwise nothing is scheduled or cancelled. */
  lemma OnFinishedSchedulesIff(es: seq<Event>, h: nat, outcome: Outcome)
    requires h in After(es).inFlight
    ensures var s, t, e := After(es), After(es + [OnFinished(h, outcome)]), After(es).inFlight[h];
      && t.inFlight == s.inFlight - {h} && t.now == s.now
      && if outcome.Accepted? && WantsOff(e) then
           && t.log == s.log + [Scheduled(e.key, |s.timers|, e.autoOffSeconds, s.now)]
           && |t.timers| == |s.timers| + 1 && OnlyPredecessorCancelled(s, t, e.key)
           && t.timers[|s.timers|].phase == Created && !t.timers[|s.timers|].cancelled
           && t.timers[|s.timers|].key == e.key && t.timers[|s.timers|].window == e.autoOffSeconds
           && t.tasks == s.tasks[e.key := |s.timers|]
           && t.generation == s.generation[e.key := t.timers[|s.timers|].gen]
           && t.timers[|s.timers|].gen == (if e.key in s.generation then s.generation[e.key] else 0) + 1
         else
           t.log == s.log && t.timers == s.timers && t.tasks == s.tasks && t.generation == s.generation
  {
    var s, e := After(es), After(es).inFlight[h];
    AfterStep(es, OnFinished(h, outcome));
    Reachable(es);
    assert e.key in s.tasks ==> TaskOK(s, e.key, s.tasks[e.key]);
    hide After, Inv, HoldsLatest;
  }

  /** Nothing but the return of an ON publish schedules anything. */
  lemma OthersScheduleNothing(es: seq<Event>, x: Event)
    requires !x.OnFinished?
    ensures var s, t := After(es), After(es + [x]);
      && t.generation == s.generation && |t.timers| == |s.timers|
      && (t.log == s.log || (|t.log| == |s.log| + 1 && s.log <= t.log && !t.log[|s.log|].Scheduled?))
  {
    AfterStep(es, x);
    hide After, HoldsLatest;
  }

  /** Event `i` is the accepted return of the publish of an alert that came as event `a` for an entity that is to
      be turned off again. */
  ghost predicate Completes(es: seq<Event>, i: nat, a: nat, e: Entity)
  {
    && a < i < |es| && es[i].OnFinished? && es[i].outcome.Accepted? && WantsOff(e)
    && AwaitedSince(es[..i], es[i].handler, e, a)
  }

  ghost predicate Earned(es: seq<Event>, x: Obs, i: nat, a: nat, e: Entity)
    requires x.Scheduled?
  {
    Completes(es, i, a, e) && x.key == e.key && x.window == e.autoOffSeconds && x.at == After(es[..i]).now
  }

  lemma EarnedStays(es: seq<Event>, y: Event, x: Obs, i: nat, a: nat, e: Entity)
    requires x.Scheduled? && Earned(es, x, i, a, e)
    ensures Earned(es + [y], x, i, a, e)
  {
    hide After, AwaitedSince;
    assert (es + [y])[..i] == es[..i] && (es + [y])[i] == es[i];
  }

  /** Every timer of every run goes back to such an alert: its entity, its time, and the moment its ON publish
      was accepted. */
  lemma {:induction false} SchedulingsAreEarned(es: seq<Event>, k: nat)
    requires k < |After(es).log| && After(es).log[k].Scheduled?
    ensures exists i, a, e :: Earned(es, After(es).log[k], i, a, e)
  {
    assert es != [];
    var before, x := es[..|es| - 1], es[|es| - 1];
    assert es == before + [x];
    var s, t := After(before), After(es);
    LogGrows(before, x);
    hide After, AwaitedSince, Earned;
    if k < |s.log| {
      SchedulingsAreEarned(before, k);
      var i, a, e :| Earned(before, s.log[k], i, a, e);
      EarnedStays(before, x, s.log[k], i, a, e);
    } else {
      NewSchedulingIsEarned(before, x, k);
    }
  }

  lemma LogGrows(es: seq<Event>, x: Event)
    ensures After(es).log <= After(es + [x]).log
  {
    AfterStep(es, x);
    hide After, HoldsLatest, CancelAll, Cancel;
  }

  lemma NewSchedulingIsEarned(es: seq<Event>, x: Event, k: nat)
    requires |After(es).log| <= k < |After(es + [x]).log| && After(es + [x]).log[k].Scheduled?
    ensures exists i, a, e :: Earned(es + [x], After(es + [x]).log[k], i, a, e)
  {
    var s := After(es);
    if !x.OnFinished? {
      OthersScheduleNothing(es, x);
    } else if x.handler !in s.inFlight {
      AfterStep(es, x);
    } else {
      var e := s.inFlight[x.handler];
      OnFinishedSchedulesIff(es, x.handler, x.outcome);
      InFlightIsAwaited(es, x.handler, e);
      hide After, AwaitedSince;
      var a :| AwaitedSince(es, x.handler, e, a);
      AwaitedIndex(es, x.handler, e, a);
      assert (es + [x])[..|es|] == es && (es + [x])[|es|] == x;
      assert Earned(es + [x], After(es + [x]).log[k], |es|, a, e);
    }
  }

  /** So every OFF of every run answers an alert of a binary sensor with a positive time, whose ON publish was
      accepted at least that time before. */
  lemma OffsAnswerAlerts(es: seq<Event>, k: nat)
    requires k < |After(es).log| && After(es).log[k].OffStarted?
    ensures exists i: nat, a: nat, e: Entity ::
      Completes(es, i, a, e) && e.key == After(es).log[k].key &&
      After(es[..i]).now + e.autoOffSeconds as real <= After(es).log[k].at
  {
    var log := After(es).log;
    OffsFollowLatestAlert(es);
    hide After, Completes;
    assert OffJustified(log, k);
    var j: nat :| LastScheduling(log, log[k].key, j, k) && log[j].timer == log[k].timer &&
      log[j].at + log[j].window as real <= log[k].at;
    SchedulingsAreEarned(es, j);
    var i, a, e :| Earned(es, log[j], i, a, e);
    assert Completes(es, i, a, e);
  }

  // ---------- What a timer does ----------

  predicate OnlyPhase(s: State, t: State, timer: nat, p: Phase)
    requires timer < |s.timers|
  {
    t.timers == s.timers[timer := s.timers[timer].(phase := p)] && t.now == s.now && t.generation == s.generation
  }

  /** The first step of a timer: a cancelled one ends, any other sleeps for its whole time. */
  lemma TimerSleepsItsTime(es: seq<Event>, timer: nat)
    requires timer < |After(es).timers| && After(es).timers[timer].phase == Created
    ensures var s, t := After(es), After(es + [TimerStarts(timer)]);
      && OnlyPhase(s, t, timer, if s.timers[timer].cancelled then Done
                                else Sleeping(s.now + s.timers[timer].window as real))
      && t.log == s.log && t.tasks == s.tasks
  {
    AfterStep(es, TimerStarts(timer));
    hide After;
  }

  /** A timer wakes up: it starts its OFF, in the name of its entity, if and only if it was not cancelled and no
      later alert of the entity was scheduled; otherwise it ends. */
  lemma WakingTimerFiresIff(es: seq<Event>, timer: nat)
    requires timer < |After(es).timers| && After(es).timers[timer].phase.Sleeping?
    requires After(es).timers[timer].cancelled || After(es).timers[timer].phase.wakeAt <= After(es).now
    requires After(es).timers[timer].born < |After(es).log|
    ensures var s, t := After(es), After(es + [TimerResumes(timer)]);
      var fires := !s.timers[timer].cancelled &&
                   LastScheduling(s.log, s.timers[timer].key, s.timers[timer].born, |s.log|);
      && OnlyPhase(s, t, timer, if fires then Publishing else Done) && t.tasks == s.tasks
      && t.log == if fires then s.log + [OffStarted(s.timers[timer].key, timer, s.now)] else s.log
  {
    AfterStep(es, TimerResumes(timer));
    Reachable(es);
    LatestIsLast(After(es), timer);
    hide After, Inv, LastScheduling;
  }

  /** An OFF publish ends, well or badly: the timer is done and its entity's entry leaves the dict. */
  lemma OffEnds(es: seq<Event>, timer: nat)
    requires timer < |After(es).timers| && After(es).timers[timer].phase == Publishing
    ensures var s, t := After(es), After(es + [OffReturns(timer)]);
      && OnlyPhase(s, t, timer, Done) && t.tasks == s.tasks - {s.timers[timer].key}
      && t.log == s.log + [OffFinished(s.timers[timer].key, timer)]
  {
    AfterStep(es, OffReturns(timer));
    hide After;
  }

  // ---------- The counters ----------

  /** An event counts as received when it brings an alert: one the mapper raises on, or one whose handler is not
      still at another alert. */
  predicate Brings(s: State, x: Event)
  {
    x.MapperRaises? || (x.Alert? && x.handler !in s.inFlight)
  }

  predicate Returns(s: State, x: Event, outcome: Outcome)
  {
    x.OnFinished? && x.handler in s.inFlight && x.outcome == outcome
  }

  function One(b: bool): nat
  {
    if b then 1 else 0
  }

  /** Each counter moves by one exactly at the events it is named after. */
  lemma CountersMoveByOne(es: seq<Event>, x: Event)
    ensures var s, t := After(es), After(es + [x]);
      && t.received == s.received + One(Brings(s, x))
      && t.skipped == s.skipped + One(x.Alert? && Brings(s, x) && x.mapped.None?)
      && t.published == s.published + One(Returns(s, x, Accepted))
      && t.failed == s.failed + One(Returns(s, x, Refused))
      && t.raised == s.raised + One(x.MapperRaises? || Returns(s, x, Raised))
  {
    AfterStep(es, x);
    hide After, HoldsLatest;
  }

  /** Alerts, ticks and publishes that are not accepted leave timers and dict alone; the clock moves by ticks
      only. */
  lemma OthersLeaveTimersAlone(es: seq<Event>, x: Event)
    requires x.Alert? || x.MapperRaises? || x.Tick? || (x.OnFinished? && !x.outcome.Accepted?)
    ensures var s, t := After(es), After(es + [x]);
      && t.timers == s.timers && t.tasks == s.tasks && t.generation == s.generation && t.log == s.log
      && t.now == s.now + if x.Tick? && 0.0 <= x.elapsed then x.elapsed else 0.0
  {
    AfterStep(es, x);
    hide After;
  }
}
