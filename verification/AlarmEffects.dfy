/**
 What the events of the alarm manager do, read off the events and the log before them: when a poll rings an
 alarm, whom an acknowledgement silences, when a pulse stands down, and what a new alarm is.
 */
module AlarmEffects {
  import opened Common
  import opened Text
  import opened Alarms

  lemma AfterStep(c: Config, start: real, es: seq<Event>, e: Event)
    ensures After(c, start, es + [e]) == Step(c, After(c, start, es), e)
  {
    assert (es + [e])[..|es|] == es;
  }

  lemma AlarmByLog(c: Config, start: real, es: seq<Event>, id: nat)
    requires id in After(c, start, es).objects
    ensures var s := After(c, start, es); AlarmOK(s.objects[id], s.log, id)
  {
    LogReachable(c, start, es);
    hide After, AlarmOK;
  }

  // ---------- The end of a poll ----------

  /** The alarm may ring: a siren or pulse not while it rings and not until the re-arm time after it was silenced,
      any other not until the re-arm time after it last rang. */
  predicate Rearmed(c: Config, log: seq<Entry>, id: nat, ring: Ring, now: real)
  {
    && now - QuietSince(log, id) >= c.rearm
    && if ring.Siren? || ring.Pulse? then !Ringing(log, id)
       else now - (if LastFiring(log, id).Some? then LastFiring(log, id).value else 0.0) >= c.rearm
  }

  /** The end of a poll rings the alarm if and only if the target was there and the alarm is re-armed; the ringing is
      logged, and noted with the camera that was polled. Otherwise nothing but the poll ends. */
  lemma PollRingsIff(c: Config, start: real, es: seq<Event>, id: nat, present: bool)
    requires id in After(c, start, es).polling && id !in After(c, start, es).cancelled
    ensures var s, t := After(c, start, es), After(c, start, es + [PollEnds(id, present)]);
      && id in s.objects && t.polling == s.polling - {id}
      && var a := s.objects[id];
         if present && Rearmed(c, s.log, id, a.ring, s.now) then
           && t.log == s.log + [Entry(Fired, id, s.now, a.ring)]
           && t.notes == s.notes + [Note(|s.notes| + 1, id, s.polling[id], s.now, a.ring)]
           && t.objects == s.objects[id := a.(triggered := a.ring.Siren? || a.ring.Pulse?,
                                               lastTriggered := Some(s.now), count := a.count + 1)]
         else
           t.log == s.log && t.notes == s.notes && t.objects == s.objects
  {
    var s := After(c, start, es);
    AfterStep(c, start, es, PollEnds(id, present));
    PolledIsKnown(c, start, es, id);
    AlarmByLog(c, start, es, id);
    TriggeredIffLastFired(c, start, es, id);
    hide After, Ringing, QuietSince, LastFiring, WasStopped;
  }

  lemma PolledIsKnown(c: Config, start: real, es: seq<Event>, id: nat)
    requires id in After(c, start, es).polling
    ensures id in After(c, start, es).objects && After(c, start, es).nextNoteId == |After(c, start, es).notes| + 1
  {
    Reachable(c, start, es);
    hide After, LogInv, RegistryInv, NotesOK, CountsOK;
    assert PollOK(After(c, start, es), id);
  }

  /** Nothing but the end of a poll rings an alarm. */
  lemma OnlyPollsRing(c: Config, start: real, es: seq<Event>, e: Event)
    requires !e.PollEnds?
    ensures var s, t := After(c, start, es), After(c, start, es + [e]);
      t.notes == s.notes && s.log <= t.log && forall k :: |s.log| <= k < |t.log| ==> !t.log[k].kind.Fired?
  {
    AfterStep(c, start, es, e);
    NoRinging(c, After(c, start, es), e);
    hide After, Step;
  }

  lemma NoRinging(c: Config, s: State, e: Event)
    requires !e.PollEnds?
    ensures var t := Step(c, s, e);
      t.notes == s.notes && s.log <= t.log && forall k :: |s.log| <= k < |t.log| ==> !t.log[k].kind.Fired?
  {
    hide Evict, SilenceMatching, MayFire, StandsDown, Made;
    if e.Create? { EvictOnlyStops(c.maxAlarms, Register(s, e.spec)); }
    if e.Acknowledge? { SilenceIs(s, s.dict, e.which); }
  }

  lemma {:induction false} EvictOnlyStops(maxAlarms: nat, s: State)
    ensures var t := Evict(maxAlarms, s);
      && t.notes == s.notes && s.log <= t.log && t.now == s.now && t.polling == s.polling
      && forall k :: |s.log| <= k < |t.log| ==> t.log[k].kind.Stopped?
    decreases |s.order|
  {
    if |s.order| > maxAlarms {
      var next := EvictOldest(s);
      assert s.log <= next.log && forall k :: |s.log| <= k < |next.log| ==> next.log[k].kind.Stopped?;
      hide EvictOldest;
      EvictOnlyStops(maxAlarms, next);
    }
  }

  // ---------- Acknowledging ----------

  /** The acknowledgement reaches the alarm: it asks for all, or for this one, and the alarm rings. */
  predicate Reached(s: State, ids: seq<nat>, which: Option<nat>, id: nat)
  {
    id in ids && (which.None? || which.value == id) && id in s.objects && s.objects[id].triggered
  }

  predicate AckedAmong(log: seq<Entry>, n: nat, id: nat)
  {
    exists k :: n <= k < |log| && log[k].id == id
  }

  /** Exactly the alarms reached are silenced and logged. */
  ghost predicate SilencedBy(s: State, t: State, ids: seq<nat>, which: Option<nat>)
  {
    && t == s.(objects := t.objects, log := t.log) && s.log <= t.log && t.objects.Keys == s.objects.Keys
    && (forall k :: |s.log| <= k < |t.log| ==> t.log[k].kind.Acked? && t.log[k].at == s.now)
    && (forall id :: AckedAmong(t.log, |s.log|, id) <==> Reached(s, ids, which, id))
    && (forall id :: id in s.objects ==>
          t.objects[id] == if Reached(s, ids, which, id)
                           then s.objects[id].(triggered := false, lastAck := s.now) else s.objects[id])
  }

  lemma SilenceOne(s: State, u: State, ids: seq<nat>, id: nat, which: Option<nat>)
    requires SilencedBy(s, u, ids, which)
    ensures SilencedBy(s, if (which.None? || which.value == id) && Rings(u, id) then Silence(u, id, Acked) else u,
                       ids + [id], which)
  {
    var silences := (which.None? || which.value == id) && Rings(u, id);
    var t := if silences then Silence(u, id, Acked) else u;
    forall x: nat ensures AckedAmong(t.log, |s.log|, x) <==> AckedAmong(u.log, |s.log|, x) || (silences && x == id) {
      if silences { AckedOneMore(u.log, |s.log|, Entry(Acked, id, u.now, u.objects[id].ring), x); }
    }
    forall x: nat ensures Reached(s, ids + [id], which, x) <==>
      Reached(s, ids, which, x) || (x == id && (which.None? || which.value == id) && Rings(s, id))
    {
    }
    hide AckedAmong;
  }

  lemma AckedOneMore(log: seq<Entry>, n: nat, e: Entry, id: nat)
    requires n <= |log|
    ensures AckedAmong(log + [e], n, id) <==> AckedAmong(log, n, id) || e.id == id
  {
    var longer := log + [e];
    assert longer[|log|] == e && forall k :: 0 <= k < |log| ==> longer[k] == log[k];
  }

  lemma {:induction false} SilenceIs(s: State, ids: seq<nat>, which: Option<nat>)
    ensures SilencedBy(s, SilenceMatching(s, ids, which), ids, which)
    decreases |ids|
  {
    if ids != [] {
      var before, id := ids[..|ids| - 1], ids[|ids| - 1];
      SilenceIs(s, before, which);
      SilenceOne(s, SilenceMatching(s, before, which), before, id, which);
      assert ids == before + [id];
      hide SilencedBy, Silence, Rings;
    }
  }

  /** An acknowledgement silences, and logs, exactly the registered alarms it asks for that are ringing; the re-arm
      time of those runs from now, and nothing else changes. */
  lemma AcknowledgeSilencesTheRinging(c: Config, start: real, es: seq<Event>, which: Option<nat>, id: nat)
    requires id in After(c, start, es).objects
    ensures var s, t := After(c, start, es), After(c, start, es + [Acknowledge(which)]);
      var reached := id in s.dict && (which.None? || which.value == id) && Ringing(s.log, id);
      && t == s.(objects := t.objects, log := t.log) && s.log <= t.log
      && (AckedAmong(t.log, |s.log|, id) <==> reached)
      && (forall k :: |s.log| <= k < |t.log| ==> t.log[k].kind.Acked? && t.log[k].at == s.now)
      && id in t.objects && t.objects[id] == if reached then s.objects[id].(triggered := false, lastAck := s.now)
                                             else s.objects[id]
  {
    var s := After(c, start, es);
    AfterStep(c, start, es, Acknowledge(which));
    SilenceIs(s, s.dict, which);
    AlarmByLog(c, start, es, id);
    hide After, SilenceMatching, Ringing, QuietSince, LastFiring, WasStopped, AckedAmong;
  }

  // ---------- Stopping, standing down, creating ----------

  /** Stopping a registered alarm silences it for good and cancels its task; stopping another id does nothing. */
  lemma StopHalts(c: Config, start: real, es: seq<Event>, id: nat)
    ensures var s, t := After(c, start, es), After(c, start, es + [Stop(id)]);
      if id in s.dict && id in s.objects then
        && t.objects == s.objects[id := s.objects[id].(active := false, triggered := false)]
        && t.log == s.log + [Entry(Stopped, id, s.now, s.objects[id].ring)]
        && t.tasks == s.tasks - {id} && (id in s.tasks ==> id in t.cancelled) && t.dict == s.dict
        && t.notes == s.notes && t.polling == s.polling
      else t == s
  {
    AfterStep(c, start, es, Stop(id));
    hide After;
  }

  /** An alarm's loop, between two polls, silences it if and only if it is a pulse that rings and has rung for the pulse
      time. */
  lemma PulseStandsDownIff(c: Config, start: real, es: seq<Event>, id: nat)
    requires var s := After(c, start, es); id in s.objects && id !in s.polling && id !in s.cancelled
    ensures var s, t := After(c, start, es), After(c, start, es + [LoopStandsDown(id)]);
      var a := s.objects[id];
      if a.ring.Pulse? && Ringing(s.log, id) && ElapsedSince(LastFiring(s.log, id), s.now, c.pulse) then
        && t.log == s.log + [Entry(StoodDown, id, s.now, a.ring)]
        && t.objects == s.objects[id := a.(triggered := false, lastAck := s.now)] && t.notes == s.notes
      else t == s
  {
    var s := After(c, start, es);
    AfterStep(c, start, es, LoopStandsDown(id));
    AlarmByLog(c, start, es, id);
    if Ringing(s.log, id) { RingingHasFired(s.log, id); }
    hide After, Ringing, QuietSince, LastFiring, WasStopped;
  }

  lemma RingingHasFired(log: seq<Entry>, id: nat)
    requires Ringing(log, id)
    ensures LastFiring(log, id).Some?
  {
    var k := LastOf(log, id, ANY);
    hide LastOf;
    assert log[k].kind in {Fired};
  }

  /** A new alarm, if any may be kept: its fields are the request's, tidied, and it is armed and silent. */
  lemma NewAlarmIs(c: Config, start: real, es: seq<Event>, spec: Spec)
    requires c.maxAlarms > 0
    ensures var s, t := After(c, start, es), After(c, start, es + [Create(spec)]);
      var id := s.nextId;
      && id in t.objects && id in t.tasks && id in t.dict && t.nextId == id + 1
      && t.notes == s.notes && t.polling == s.polling && t.now == s.now
      && var a := t.objects[id];
         && a.name == (if Strip(spec.name) == "" then "Alarm" else Strip(spec.name))
         && a.target == Lower(Strip(spec.target)) && a.cameras == spec.cameras
         && a.after == spec.after && a.before == spec.before
         && a.ring == Level(spec.ring)
         && a.active && !a.triggered && a.count == 0
  {
    var s := After(c, start, es);
    AfterStep(c, start, es, Create(spec));
    Reachable(c, start, es);
    EvictOnlyStops(c.maxAlarms, Register(s, spec));
    NewestStays(c, s, spec);
    hide After, Evict, Inv, Strip, Lower;
  }

  lemma NewestStays(c: Config, s: State, spec: Spec)
    requires RegistryInv(c, s) && c.maxAlarms > 0
    ensures var t := Arm(c, s, spec);
      && t.nextId == s.nextId + 1 && s.nextId in t.objects && t.objects[s.nextId] == Made(spec)
      && s.nextId in t.tasks && s.nextId in t.dict
  {
    RegistryBound(c, s);
    hide Made, Span;
    if |s.order| < c.maxAlarms {
      EvictStops(c.maxAlarms, Register(s, spec));
    } else {
      ArmWhenFull(c, s, spec);
      OldestIsOlder(c, s);
      hide Arm;
    }
  }

  lemma OldestIsOlder(c: Config, s: State)
    requires RegistryInv(c, s) && |s.order| > 0
    ensures s.order[0] < s.nextId
  {
  }

  /** The four levels by name; every other name is the loudest. */
  function Level(name: string): Ring
  {
    if name == "silent" then Silent else if name == "chime" then Chime else if name == "pulse" then Pulse else Siren
  }

  /** A poll begins at the camera it names, if the alarm is at liberty to poll it, and may come to nothing; time
      passes by ticks only. */
  lemma PollsBeginAndFail(c: Config, start: real, es: seq<Event>, e: Event)
    requires e.PollStarts? || e.PollFails? || e.Tick?
    ensures var s, t := After(c, start, es), After(c, start, es + [e]);
      && t == s.(polling := t.polling, now := t.now)
      && t.now == (if e.Tick? && e.elapsed >= 0.0 then s.now + e.elapsed else s.now)
      && (e.Tick? ==> t.polling == s.polling)
      && (e.PollFails? ==> t.polling == s.polling - {e.failer})
      && (e.PollStarts? ==>
            t.polling == if e.poller in s.tasks && e.poller !in s.polling && e.poller in s.objects &&
                            s.objects[e.poller].active && e.camera in s.objects[e.poller].cameras
                         then s.polling[e.poller := e.camera] else s.polling)
  {
    AfterStep(c, start, es, e);
    hide After;
  }
}
