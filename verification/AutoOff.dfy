/**
 The Home Assistant relay: alerts turn a binary sensor ON, and a timer per alert turns it OFF again.

 Every coroutine is cut at its awaits into atomic steps, and the steps of any number of alert
 handlers and timers interleave freely. `Step` says what one event does; a disabled event does
 nothing, so *every* sequence of events is a run. The class `Relay` is the imperative form of the
 same steps over the fields the relay keeps.
 */
module AutoOff {
  import opened Common

  /** What the mapper makes of an alert. */
  datatype Entity = Entity(key: string, binarySensor: bool, autoOffSeconds: int)

  /** Where a timer coroutine stands. `Publishing`: past the generation check, inside `publish_off`. */
  datatype Phase = Created | Sleeping(wakeAt: real) | Publishing | Done

  /** One asyncio task of `_flip_off_later`; `born` is where the log records its scheduling. */
  datatype Timer = Timer(key: string, window: int, gen: nat, phase: Phase, cancelled: bool, born: nat)

  datatype Outcome = Accepted | Refused | Raised

  /** What an observer of the relay sees, in order. A timer's number is its asyncio task. */
  datatype Obs =
    | Scheduled(key: string, timer: nat, window: int, at: real)
    | OffStarted(key: string, timer: nat, at: real)
    | OffFinished(key: string, timer: nat)
    | ShutDown

  datatype Event =
    | Alert(handler: nat, mapped: Option<Entity>)
    | MapperRaises
    | OnFinished(handler: nat, outcome: Outcome)
    | TimerStarts(timer: nat)
    | TimerResumes(timer: nat)
    | OffReturns(timer: nat)
    | Cleanup
    | Tick(elapsed: real)

  datatype State = State(
    now: real,
    inFlight: map<nat, Entity>,
    timers: seq<Timer>,
    tasks: map<string, nat>,
    generation: map<string, nat>,
    received: nat, published: nat, failed: nat, skipped: nat, raised: nat,
    log: seq<Obs>)

  const Init := State(0.0, map[], [], map[], map[], 0, 0, 0, 0, 0, [])

  // ---------- One atomic step ----------

  /** `task.cancel()`: a finished task ignores it, any other gets a CancelledError at its await. */
  function Cancel(ts: seq<Timer>, t: nat): seq<Timer>
  {
    if t < |ts| && ts[t].phase != Done then ts[t := ts[t].(cancelled := true)] else ts
  }

  function CancelAll(ts: seq<Timer>, which: set<nat>): (r: seq<Timer>)
    ensures |r| == |ts|
    ensures forall i :: 0 <= i < |ts| ==>
      r[i] == ts[i].(cancelled := ts[i].cancelled || (i in which && ts[i].phase != Done))
  {
    seq(|ts|, i requires 0 <= i < |ts| =>
      ts[i].(cancelled := ts[i].cancelled || (i in which && ts[i].phase != Done)))
  }

  lemma CancelAllAdd(ts: seq<Timer>, done: set<nat>, t: nat)
    ensures CancelAll(ts, done + {t}) == Cancel(CancelAll(ts, done), t)
    ensures CancelAll(ts, {}) == ts
  {
  }

  function NextGen(s: State, key: string): nat
  {
    (if key in s.generation then s.generation[key] else 0) + 1
  }

  /** The tasks after the pending timer of `key`, if any, was cancelled. */
  function CancelPending(s: State, key: string): seq<Timer>
  {
    if key in s.tasks then Cancel(s.timers, s.tasks[key]) else s.timers
  }

  function Schedule(s: State, e: Entity): State
  {
    if !e.binarySensor || e.autoOffSeconds <= 0 then s else
    var ts := CancelPending(s, e.key);
    var gen := NextGen(s, e.key);
    var t := Timer(e.key, e.autoOffSeconds, gen, Created, false, |s.log|);
    s.(generation := s.generation[e.key := gen],
       timers := ts + [t],
       tasks := s.tasks[e.key := |ts|],
       log := s.log + [Scheduled(e.key, |ts|, e.autoOffSeconds, s.now)])
  }

  function HandleAlert(s: State, handler: nat, mapped: Option<Entity>): State
  {
    var s1 := s.(received := s.received + 1);
    match mapped
    case None => s1.(skipped := s.skipped + 1)
    case Some(e) => s1.(inFlight := s.inFlight[handler := e])
  }

  /** The counters after an ON publish returned, before anything is scheduled. */
  function CountOn(s: State, h: nat, outcome: Outcome): State
  {
    s.(inFlight := s.inFlight - {h},
       published := s.published + (if outcome.Accepted? then 1 else 0),
       failed := s.failed + (if outcome.Refused? then 1 else 0),
       raised := s.raised + (if outcome.Raised? then 1 else 0))
  }

  function FinishOn(s: State, handler: nat, outcome: Outcome): State
    requires handler in s.inFlight
  {
    var s1 := CountOn(s, handler, outcome);
    if outcome.Accepted? then Schedule(s1, s.inFlight[handler]) else s1
  }

  function SetPhase(s: State, t: nat, p: Phase): State
    requires t < |s.timers|
  {
    s.(timers := s.timers[t := s.timers[t].(phase := p)])
  }

  /** The first step of a new task: an early cancel means the coroutine body never runs. */
  function StartTimer(s: State, t: nat): State
    requires t < |s.timers|
  {
    if s.timers[t].cancelled then SetPhase(s, t, Done)
    else SetPhase(s, t, Sleeping(s.now + s.timers[t].window as real))
  }

  /** The generation check after the sleep. */
  function HoldsLatest(s: State, t: nat): bool
    requires t < |s.timers|
  {
    var k := s.timers[t].key;
    k in s.generation && s.generation[k] == s.timers[t].gen
  }

  function ResumeTimer(s: State, t: nat): State
    requires t < |s.timers|
  {
    if s.timers[t].cancelled || !HoldsLatest(s, t) then SetPhase(s, t, Done)
    else SetPhase(s, t, Publishing).(log := s.log + [OffStarted(s.timers[t].key, t, s.now)])
  }

  /** The `finally` clause: it pops the key whichever task the entry now belongs to. */
  function FinishOff(s: State, t: nat): State
    requires t < |s.timers|
  {
    var k := s.timers[t].key;
    SetPhase(s, t, Done).(tasks := s.tasks - {k}, log := s.log + [OffFinished(k, t)])
  }

  function CleanUp(s: State): State
  {
    s.(timers := CancelAll(s.timers, s.tasks.Values), tasks := map[], log := s.log + [ShutDown])
  }

  predicate Enabled(s: State, e: Event)
  {
    match e
    case Alert(h, _) => h !in s.inFlight
    case MapperRaises => true
    case OnFinished(h, _) => h in s.inFlight
    case TimerStarts(t) => t < |s.timers| && s.timers[t].phase == Created
    case TimerResumes(t) =>
      t < |s.timers| && s.timers[t].phase.Sleeping? &&
      (s.timers[t].cancelled || s.timers[t].phase.wakeAt <= s.now)
    case OffReturns(t) => t < |s.timers| && s.timers[t].phase == Publishing
    case Cleanup => true
    case Tick(d) => 0.0 <= d
  }

  function Step(s: State, e: Event): State
  {
    if !Enabled(s, e) then s else
    match e
    case Alert(h, mapped) => HandleAlert(s, h, mapped)
    case MapperRaises => s.(received := s.received + 1, raised := s.raised + 1)
    case OnFinished(h, outcome) => FinishOn(s, h, outcome)
    case TimerStarts(t) => StartTimer(s, t)
    case TimerResumes(t) => ResumeTimer(s, t)
    case OffReturns(t) => FinishOff(s, t)
    case Cleanup => CleanUp(s)
    case Tick(d) => s.(now := s.now + d)
  }

  function After(es: seq<Event>): State
  {
    if es == [] then Init else Step(After(es[..|es| - 1]), es[|es| - 1])
  }

  // ---------- What the log promises ----------

  /** Entry `j` is the last scheduling of `key` before position `n`. */
  ghost predicate LastScheduling(log: seq<Obs>, key: string, j: nat, n: nat)
    requires n <= |log|
  {
    j < n && log[j].Scheduled? && log[j].key == key &&
    forall m :: j < m < n && log[m].Scheduled? ==> log[m].key != key
  }

  /** OFF number `i` of the log was started by the timer of the last alert scheduled for its entity,
      a full window after that alert's ON publish had completed. */
  ghost predicate OffJustified(log: seq<Obs>, i: nat)
    requires i < |log| && log[i].OffStarted?
  {
    exists j: nat :: LastScheduling(log, log[i].key, j, i) && log[j].timer == log[i].timer &&
      log[j].at + log[j].window as real <= log[i].at
  }

  /** Some timer of `key` ran its `finally` clause after log position `n`. */
  ghost predicate PoppedAfter(log: seq<Obs>, key: string, n: nat)
  {
    exists m :: n < m < |log| && log[m].OffFinished? && log[m].key == key
  }

  // ---------- The inductive invariant ----------

  ghost predicate GenerationsOK(ts: seq<Timer>, generation: map<string, nat>)
  {
    && (forall t :: 0 <= t < |ts| ==> ts[t].key in generation && 1 <= ts[t].gen <= generation[ts[t].key])
    && (forall t, u :: 0 <= t < u < |ts| && ts[t].key == ts[u].key ==> ts[t].gen < ts[u].gen)
    && (forall k :: k in generation ==> HasTimer(ts, k, generation[k]))
  }

  ghost predicate HasTimer(ts: seq<Timer>, key: string, gen: nat)
  {
    exists t :: 0 <= t < |ts| && ts[t].key == key && ts[t].gen == gen
  }

  ghost predicate TasksOK(s: State)
  {
    forall k :: k in s.tasks ==> TaskOK(s, k, s.tasks[k])
  }

  /** An entry of the dict is an unfinished, uncancelled task of the key's current generation. */
  predicate TaskOK(s: State, key: string, t: nat)
  {
    t < |s.timers| && s.timers[t].key == key && Live(s, t)
  }

  /** Timer `t` may still send an OFF. */
  predicate Live(s: State, t: nat)
    requires t < |s.timers|
  {
    HoldsLatest(s, t) && s.timers[t].phase != Done && !s.timers[t].cancelled
  }

  /** The log entry that created a timer, and the deadline it implies. */
  ghost predicate BirthOK(ts: seq<Timer>, log: seq<Obs>, now: real, t: nat)
    requires t < |ts|
  {
    var b := ts[t].born;
    && b < |log| && log[b].Scheduled? && log[b].timer == t
    && log[b].key == ts[t].key && log[b].window == ts[t].window && log[b].at <= now
    && (ts[t].phase.Sleeping? ==> log[b].at + ts[t].window as real <= ts[t].phase.wakeAt)
  }

  ghost predicate BirthsOK(ts: seq<Timer>, log: seq<Obs>, now: real)
  {
    && (forall t :: 0 <= t < |ts| ==> BirthOK(ts, log, now, t))
    && (forall i :: 0 <= i < |log| && log[i].Scheduled? ==>
          log[i].timer < |ts| && ts[log[i].timer].born == i)
    && (forall t, u :: 0 <= t < u < |ts| ==> ts[t].born < ts[u].born)
  }

  predicate Fired(t: Timer)
  {
    t.phase == Publishing || t.phase == Done
  }

  ghost predicate OffsOK(ts: seq<Timer>, log: seq<Obs>)
  {
    && (forall i :: 0 <= i < |log| && log[i].OffStarted? ==>
          log[i].timer < |ts| && Fired(ts[log[i].timer]))
    && (forall i :: 0 <= i < |log| && log[i].OffStarted? ==> OffJustified(log, i))
    && (forall i, j :: 0 <= i < j < |log| && log[i].OffStarted? && log[j].OffStarted? ==>
          log[i].timer != log[j].timer)
  }

  /** A live timer of the latest generation is in the dict unless another timer's `finally` took it out. */
  ghost predicate TrackingOK(s: State)
  {
    forall t :: 0 <= t < |s.timers| && Live(s, t) ==>
      ((s.timers[t].key in s.tasks && s.tasks[s.timers[t].key] == t) <==>
       !PoppedAfter(s.log, s.timers[t].key, s.timers[t].born))
  }

  ghost predicate CancelsOK(s: State)
  {
    ShutDown !in s.log ==>
      forall t :: 0 <= t < |s.timers| && s.timers[t].cancelled ==> !HoldsLatest(s, t)
  }

  ghost predicate Inv(s: State)
  {
    && GenerationsOK(s.timers, s.generation) && TasksOK(s)
    && BirthsOK(s.timers, s.log, s.now) && OffsOK(s.timers, s.log)
    && TrackingOK(s) && CancelsOK(s)
    && s.received == s.published + s.failed + s.skipped + s.raised + |s.inFlight|
  }

  // ---------- Every step keeps it ----------

  lemma PoppedAfterAppend(log: seq<Obs>, x: Obs, key: string, n: nat)
    requires n < |log|
    ensures PoppedAfter(log + [x], key, n) <==> PoppedAfter(log, key, n) || (x.OffFinished? && x.key == key)
  {
    var l := log + [x];
    if PoppedAfter(log, key, n) {
      var m :| n < m < |log| && log[m].OffFinished? && log[m].key == key;
      assert l[m] == log[m];
    }
    if x.OffFinished? && x.key == key { assert l[|log|] == x; }
  }

  lemma JustifiedAppend(log: seq<Obs>, x: Obs, i: nat)
    requires i < |log| && log[i].OffStarted? && OffJustified(log, i)
    ensures OffJustified(log + [x], i)
  {
    var j: nat :| LastScheduling(log, log[i].key, j, i) && log[j].timer == log[i].timer &&
      log[j].at + log[j].window as real <= log[i].at;
    var l := log + [x];
    assert LastScheduling(l, l[i].key, j, i);
  }

  /** Appending an entry that starts no OFF. */
  lemma OffsAppend(ts: seq<Timer>, log: seq<Obs>, x: Obs)
    requires OffsOK(ts, log) && !x.OffStarted?
    ensures OffsOK(ts, log + [x])
  {
    forall i | 0 <= i < |log + [x]| && (log + [x])[i].OffStarted?
      ensures OffJustified(log + [x], i)
    {
      JustifiedAppend(log, x, i);
    }
  }

  /** `ts'` is `ts` with other phases and cancel flags. */
  ghost predicate SameTimers(ts: seq<Timer>, ts': seq<Timer>)
  {
    |ts'| == |ts| &&
    forall t :: 0 <= t < |ts| ==> ts'[t] == ts[t].(phase := ts'[t].phase, cancelled := ts'[t].cancelled)
  }

  ghost predicate BornInLog(ts: seq<Timer>, log: seq<Obs>)
  {
    forall t :: 0 <= t < |ts| ==> ts[t].born < |log|
  }

  lemma BirthsAreInLog(ts: seq<Timer>, log: seq<Obs>, now: real)
    requires BirthsOK(ts, log, now)
    ensures BornInLog(ts, log)
  {
    forall t | 0 <= t < |ts| ensures ts[t].born < |log| {
      assert BirthOK(ts, log, now, t);
    }
  }

  lemma GenerationsSame(ts: seq<Timer>, ts': seq<Timer>, g: map<string, nat>)
    requires GenerationsOK(ts, g) && SameTimers(ts, ts')
    ensures GenerationsOK(ts', g)
  {
    forall k | k in g ensures HasTimer(ts', k, g[k]) {
      var t :| 0 <= t < |ts| && ts[t].key == k && ts[t].gen == g[k];
      assert ts'[t].key == k && ts'[t].gen == g[k];
    }
  }

  lemma BirthsSame(ts: seq<Timer>, ts': seq<Timer>, log: seq<Obs>, now: real)
    requires BirthsOK(ts, log, now) && SameTimers(ts, ts')
    requires forall t :: 0 <= t < |ts| && ts'[t].phase.Sleeping? ==>
      ts'[t].phase == ts[t].phase || ts'[t].phase == Sleeping(now + ts[t].window as real)
    ensures BirthsOK(ts', log, now)
  {
    forall t | 0 <= t < |ts| ensures BirthOK(ts', log, now, t) {
      assert BirthOK(ts, log, now, t);
    }
  }

  lemma BirthsAppend(ts: seq<Timer>, log: seq<Obs>, now: real, x: Obs)
    requires BirthsOK(ts, log, now) && !x.Scheduled?
    ensures BirthsOK(ts, log + [x], now)
  {
    forall t | 0 <= t < |ts| ensures BirthOK(ts, log + [x], now, t) {
      assert BirthOK(ts, log, now, t);
    }
  }

  lemma OffsSame(ts: seq<Timer>, ts': seq<Timer>, log: seq<Obs>)
    requires OffsOK(ts, log) && SameTimers(ts, ts')
    requires forall t :: 0 <= t < |ts| && Fired(ts[t]) ==> Fired(ts'[t])
    ensures OffsOK(ts', log)
  {
  }

  /** A timer goes to sleep or gives up: nobody sees it. */
  lemma SetPhaseKeepsTimers(s: State, t: nat, p: Phase)
    requires BirthsOK(s.timers, s.log, s.now) && OffsOK(s.timers, s.log) && GenerationsOK(s.timers, s.generation)
    requires t < |s.timers| && (s.timers[t].phase == Created || s.timers[t].phase.Sleeping?)
    requires p == Done || p == Sleeping(s.now + s.timers[t].window as real)
    ensures var s' := SetPhase(s, t, p);
      BirthsOK(s'.timers, s.log, s.now) && OffsOK(s'.timers, s.log) && GenerationsOK(s'.timers, s.generation)
  {
    hide GenerationsOK, BirthsOK, OffsOK;
    var s' := SetPhase(s, t, p);
    GenerationsSame(s.timers, s'.timers, s.generation);
    BirthsSame(s.timers, s'.timers, s.log, s.now);
    OffsSame(s.timers, s'.timers, s.log);
  }

  lemma SetPhaseKeepsTracking(s: State, t: nat, p: Phase)
    requires TasksOK(s) && TrackingOK(s) && CancelsOK(s)
    requires t < |s.timers|
    requires Live(s, t) ==> p != Done
    requires s.timers[t].phase == Done ==> p == Done
    ensures var s' := SetPhase(s, t, p); TasksOK(s') && TrackingOK(s') && CancelsOK(s')
  {
    var s' := SetPhase(s, t, p);
    assert forall u :: 0 <= u < |s.timers| ==> Live(s', u) == Live(s, u);
    assert forall k :: k in s.tasks ==> TaskOK(s, k, s.tasks[k]);
  }

  lemma ScheduleKeepsTimers(s: State, e: Entity)
    requires BirthsOK(s.timers, s.log, s.now) && OffsOK(s.timers, s.log) && GenerationsOK(s.timers, s.generation)
    requires e.binarySensor && e.autoOffSeconds > 0
    ensures var s' := Schedule(s, e);
      BirthsOK(s'.timers, s'.log, s'.now) && OffsOK(s'.timers, s'.log) && GenerationsOK(s'.timers, s'.generation)
  {
    hide GenerationsOK, BirthsOK, OffsOK;
    var ts := CancelPending(s, e.key);
    var t := Timer(e.key, e.autoOffSeconds, NextGen(s, e.key), Created, false, |s.log|);
    GenerationsSame(s.timers, ts, s.generation);
    BirthsSame(s.timers, ts, s.log, s.now);
    OffsSame(s.timers, ts, s.log);
    AddTimer(ts, s.log, s.now, s.generation, t);
  }

  lemma AddTimer(ts: seq<Timer>, log: seq<Obs>, now: real, g: map<string, nat>, t: Timer)
    requires BirthsOK(ts, log, now) && OffsOK(ts, log) && GenerationsOK(ts, g)
    requires t.born == |log| && t.phase == Created && t.gen == (if t.key in g then g[t.key] else 0) + 1
    ensures var log' := log + [Scheduled(t.key, |ts|, t.window, now)];
      BirthsOK(ts + [t], log', now) && OffsOK(ts + [t], log') && GenerationsOK(ts + [t], g[t.key := t.gen])
  {
    hide GenerationsOK, BirthsOK, OffsOK;
    var x := Scheduled(t.key, |ts|, t.window, now);
    GenerationsAdd(ts, g, t);
    BirthsAdd(ts, log, now, t);
    OffsAppend(ts, log, x);
    OffsPrefix(ts, ts + [t], log + [x]);
  }

  lemma OffsPrefix(ts: seq<Timer>, ts': seq<Timer>, log: seq<Obs>)
    requires OffsOK(ts, log) && ts <= ts'
    ensures OffsOK(ts', log)
  {
  }

  lemma GenerationsAdd(ts: seq<Timer>, g: map<string, nat>, t: Timer)
    requires GenerationsOK(ts, g) && t.gen == (if t.key in g then g[t.key] else 0) + 1
    ensures GenerationsOK(ts + [t], g[t.key := t.gen])
  {
    var ts' := ts + [t];
    var g' := g[t.key := t.gen];
    forall k | k in g' ensures HasTimer(ts', k, g'[k]) {
      if k == t.key {
        assert ts'[|ts|] == t;
      } else {
        var u :| 0 <= u < |ts| && ts[u].key == k && ts[u].gen == g[k];
        assert ts'[u] == ts[u];
      }
    }
  }

  lemma BirthsAdd(ts: seq<Timer>, log: seq<Obs>, now: real, t: Timer)
    requires BirthsOK(ts, log, now) && t.born == |log| && t.phase == Created
    ensures BirthsOK(ts + [t], log + [Scheduled(t.key, |ts|, t.window, now)], now)
  {
    var log' := log + [Scheduled(t.key, |ts|, t.window, now)];
    var ts' := ts + [t];
    forall u | 0 <= u < |ts'| ensures BirthOK(ts', log', now, u) && (u < |ts| ==> ts'[u].born < |log|) {
      if u < |ts| { assert BirthOK(ts, log, now, u); }
    }
  }

  lemma ScheduleAndTimers(s: State, e: Entity)
    requires e.binarySensor && e.autoOffSeconds > 0
    requires GenerationsOK(s.timers, s.generation)
    ensures var s' := Schedule(s, e);
      && |s'.timers| == |s.timers| + 1 && s'.timers[|s.timers|].born == |s.log|
      && s'.timers[|s.timers|].key == e.key && !s'.timers[|s.timers|].cancelled
      && s'.tasks == s.tasks[e.key := |s.timers|]
      && s'.log == s.log + [Scheduled(e.key, |s.timers|, e.autoOffSeconds, s.now)]
      && (forall u :: 0 <= u < |s.timers| ==>
            && s'.timers[u].key == s.timers[u].key && s'.timers[u].born == s.timers[u].born
            && HoldsLatest(s', u) == (HoldsLatest(s, u) && s.timers[u].key != e.key)
            && (s'.timers[u].cancelled ==> s.timers[u].cancelled || (e.key in s.tasks && s.tasks[e.key] == u))
            && (s.timers[u].cancelled ==> s'.timers[u].cancelled)
            && s'.timers[u].phase == s.timers[u].phase)
  {
    var s' := Schedule(s, e);
    forall u | 0 <= u < |s.timers| ensures s'.timers[u] == CancelPending(s, e.key)[u] {
    }
    CancelPendingIs(s, e.key);
    hide CancelPending;
  }

  lemma CancelPendingIs(s: State, key: string)
    ensures var ts := CancelPending(s, key);
      && |ts| == |s.timers|
      && forall u :: 0 <= u < |s.timers| ==>
        && ts[u].key == s.timers[u].key && ts[u].born == s.timers[u].born && ts[u].gen == s.timers[u].gen
        && ts[u].phase == s.timers[u].phase
        && (ts[u].cancelled ==> s.timers[u].cancelled || (key in s.tasks && s.tasks[key] == u))
        && (s.timers[u].cancelled ==> ts[u].cancelled)
  {
  }

  lemma ScheduleKeepsTasks(s: State, e: Entity)
    requires TasksOK(s) && GenerationsOK(s.timers, s.generation)
    requires e.binarySensor && e.autoOffSeconds > 0
    ensures TasksOK(Schedule(s, e))
  {
    var s' := Schedule(s, e);
    ScheduleAndTimers(s, e);
    forall k | k in s'.tasks ensures TaskOK(s', k, s'.tasks[k]) {
      if k != e.key {
        assert TaskOK(s, k, s.tasks[k]);
        assert e.key in s.tasks ==> TaskOK(s, e.key, s.tasks[e.key]);
      }
    }
  }

  lemma ScheduleKeepsTracking(s: State, e: Entity)
    requires TasksOK(s) && TrackingOK(s) && CancelsOK(s)
    requires BornInLog(s.timers, s.log) && GenerationsOK(s.timers, s.generation)
    requires e.binarySensor && e.autoOffSeconds > 0
    ensures var s' := Schedule(s, e); TasksOK(s') && TrackingOK(s') && CancelsOK(s')
  {
    hide GenerationsOK, Schedule;
    var s' := Schedule(s, e);
    ScheduleKeepsTasks(s, e);
    ScheduleAndTimers(s, e);
    assert e.key in s.tasks ==> TaskOK(s, e.key, s.tasks[e.key]);
    var entry := s'.log[|s.log|];
    forall u | 0 <= u < |s'.timers| && Live(s', u)
      ensures (s'.timers[u].key in s'.tasks && s'.tasks[s'.timers[u].key] == u) <==>
              !PoppedAfter(s'.log, s'.timers[u].key, s'.timers[u].born)
    {
      if u < |s.timers| {
        PoppedAfterAppend(s.log, entry, s.timers[u].key, s.timers[u].born);
      }
    }
    assert ShutDown in s.log ==> ShutDown in s'.log;
  }

  lemma PublishKeepsInv(s: State, t: nat)
    requires Inv(s) && Enabled(s, TimerResumes(t)) && !s.timers[t].cancelled && HoldsLatest(s, t)
    ensures Inv(ResumeTimer(s, t))
  {
    hide GenerationsOK, BirthsOK, OffsOK, TasksOK, TrackingOK, CancelsOK;
    var mid := SetPhase(s, t, Publishing);
    var x := OffStarted(s.timers[t].key, t, s.now);
    NewOffIsJustified(s, t);
    PublishKeepsOffs(s, t);
    GenerationsSame(s.timers, mid.timers, s.generation);
    BirthsSame(s.timers, mid.timers, s.log, s.now);
    BirthsAppend(mid.timers, s.log, s.now, x);
    SetPhaseKeepsTracking(s, t, Publishing);
    BirthsAreInLog(mid.timers, s.log, s.now);
    LogKeepsTracking(mid, x);
  }

  /** Recording an entry other than OffFinished and ShutDown leaves the dict bookkeeping alone. */
  lemma LogKeepsTracking(s: State, x: Obs)
    requires TasksOK(s) && TrackingOK(s) && CancelsOK(s) && BornInLog(s.timers, s.log)
    requires !x.OffFinished? && !x.ShutDown?
    ensures var s' := s.(log := s.log + [x]); TasksOK(s') && TrackingOK(s') && CancelsOK(s')
  {
    var s' := s.(log := s.log + [x]);
    assert forall k :: k in s.tasks ==> TaskOK(s, k, s.tasks[k]);
    forall u | 0 <= u < |s.timers| && Live(s', u)
      ensures PoppedAfter(s'.log, s.timers[u].key, s.timers[u].born) ==
              PoppedAfter(s.log, s.timers[u].key, s.timers[u].born)
    {
      PoppedAfterAppend(s.log, x, s.timers[u].key, s.timers[u].born);
    }
    assert ShutDown in s.log ==> ShutDown in s'.log;
  }

  /** The heart of the protocol: the generation check makes the new OFF the last scheduled timer's. */
  lemma NewOffIsJustified(s: State, t: nat)
    requires GenerationsOK(s.timers, s.generation) && BirthsOK(s.timers, s.log, s.now)
    requires t < |s.timers| && s.timers[t].phase.Sleeping? && s.timers[t].phase.wakeAt <= s.now
    requires HoldsLatest(s, t)
    ensures OffJustified(s.log + [OffStarted(s.timers[t].key, t, s.now)], |s.log|)
  {
    var log' := s.log + [OffStarted(s.timers[t].key, t, s.now)];
    LatestIsLast(s, t);
    assert BirthOK(s.timers, s.log, s.now, t);
    hide GenerationsOK, BirthsOK;
    assert LastScheduling(log', s.timers[t].key, s.timers[t].born, |s.log|);
  }

  lemma PublishKeepsOffs(s: State, t: nat)
    requires OffsOK(s.timers, s.log) && t < |s.timers| && s.timers[t].phase.Sleeping?
    requires OffJustified(s.log + [OffStarted(s.timers[t].key, t, s.now)], |s.log|)
    ensures OffsOK(SetPhase(s, t, Publishing).timers, s.log + [OffStarted(s.timers[t].key, t, s.now)])
  {
    var log' := s.log + [OffStarted(s.timers[t].key, t, s.now)];
    forall i | 0 <= i < |log'| && log'[i].OffStarted? ensures OffJustified(log', i) {
      if i < |s.log| { JustifiedAppend(s.log, log'[|s.log|], i); }
    }
    hide OffJustified;
    assert forall i :: 0 <= i < |s.log| && s.log[i].OffStarted? ==> s.log[i].timer != t;
  }

  /** A timer holds the latest generation exactly when no later alert was scheduled for its entity. */
  lemma LatestIsLast(s: State, t: nat)
    requires GenerationsOK(s.timers, s.generation) && BirthsOK(s.timers, s.log, s.now) && t < |s.timers|
    ensures HoldsLatest(s, t) <==> LastScheduling(s.log, s.timers[t].key, s.timers[t].born, |s.log|)
  {
    var key, b := s.timers[t].key, s.timers[t].born;
    assert BirthOK(s.timers, s.log, s.now, t);
    if HoldsLatest(s, t) {
      forall m | b < m < |s.log| && s.log[m].Scheduled? ensures s.log[m].key != key {
        var u := s.log[m].timer;
        assert BirthOK(s.timers, s.log, s.now, u);
        assert t < u;
      }
    } else {
      assert HasTimer(s.timers, key, s.generation[key]);
      var u :| 0 <= u < |s.timers| && s.timers[u].key == key && s.timers[u].gen == s.generation[key];
      assert BirthOK(s.timers, s.log, s.now, u);
      assert t < u;
      assert s.log[s.timers[u].born].key == key;
    }
  }

  lemma FinishOffKeepsInv(s: State, t: nat)
    requires Inv(s) && Enabled(s, OffReturns(t))
    ensures Inv(FinishOff(s, t))
  {
    hide GenerationsOK, BirthsOK, OffsOK, TasksOK, TrackingOK, CancelsOK;
    var s' := FinishOff(s, t);
    var x := OffFinished(s.timers[t].key, t);
    GenerationsSame(s.timers, s'.timers, s.generation);
    BirthsSame(s.timers, s'.timers, s.log, s.now);
    BirthsAppend(s'.timers, s.log, s.now, x);
    OffsSame(s.timers, s'.timers, s.log);
    OffsAppend(s'.timers, s.log, x);
    BirthsAreInLog(s.timers, s.log, s.now);
    FinishOffKeepsTracking(s, t);
  }

  lemma FinishOffKeepsTracking(s: State, t: nat)
    requires TasksOK(s) && TrackingOK(s) && CancelsOK(s)
    requires BornInLog(s.timers, s.log) && t < |s.timers|
    ensures var s' := FinishOff(s, t); TasksOK(s') && TrackingOK(s') && CancelsOK(s')
  {
    var s' := FinishOff(s, t);
    var key := s.timers[t].key;
    var x := OffFinished(key, t);
    assert forall u :: 0 <= u < |s.timers| && u != t ==> Live(s', u) == Live(s, u);
    assert !Live(s', t);
    forall k | k in s'.tasks ensures TaskOK(s', k, s'.tasks[k]) {
      assert TaskOK(s, k, s.tasks[k]);
    }
    forall u | 0 <= u < |s.timers| && Live(s', u)
      ensures (s'.timers[u].key in s'.tasks && s'.tasks[s'.timers[u].key] == u) <==>
              !PoppedAfter(s'.log, s'.timers[u].key, s'.timers[u].born)
    {
      PoppedAfterAppend(s.log, x, s.timers[u].key, s.timers[u].born);
    }
    assert ShutDown in s.log ==> ShutDown in s'.log;
  }

  lemma CleanUpKeepsInv(s: State)
    requires Inv(s)
    ensures Inv(CleanUp(s))
  {
    hide GenerationsOK, BirthsOK, OffsOK, TasksOK, TrackingOK, CancelsOK;
    var s' := CleanUp(s);
    GenerationsSame(s.timers, s'.timers, s.generation);
    BirthsSame(s.timers, s'.timers, s.log, s.now);
    BirthsAppend(s'.timers, s.log, s.now, ShutDown);
    OffsSame(s.timers, s'.timers, s.log);
    OffsAppend(s'.timers, s.log, ShutDown);
    BirthsAreInLog(s.timers, s.log, s.now);
    CleanUpKeepsTracking(s);
  }

  lemma CleanUpKeepsTracking(s: State)
    requires TrackingOK(s) && BornInLog(s.timers, s.log)
    ensures var s' := CleanUp(s); TasksOK(s') && TrackingOK(s') && CancelsOK(s')
  {
    var s' := CleanUp(s);
    assert s'.log[|s.log|] == ShutDown;
    forall u | 0 <= u < |s.timers| && Live(s', u)
      ensures PoppedAfter(s'.log, s'.timers[u].key, s'.timers[u].born)
    {
      assert Live(s, u);
      assert s.timers[u].key in s.tasks ==> s.tasks[s.timers[u].key] in s.tasks.Values;
      PoppedAfterAppend(s.log, ShutDown, s.timers[u].key, s.timers[u].born);
    }
  }

  lemma TimerKeepsInv(s: State, t: nat, p: Phase)
    requires Inv(s) && t < |s.timers| && (s.timers[t].phase == Created || s.timers[t].phase.Sleeping?)
    requires p == Done || p == Sleeping(s.now + s.timers[t].window as real)
    requires p == Done ==> s.timers[t].cancelled || !HoldsLatest(s, t)
    ensures Inv(SetPhase(s, t, p))
  {
    hide GenerationsOK, BirthsOK, OffsOK, TasksOK, TrackingOK, CancelsOK;
    SetPhaseKeepsTimers(s, t, p);
    SetPhaseKeepsTracking(s, t, p);
  }

  lemma AlertKeepsInv(s: State, h: nat, mapped: Option<Entity>)
    requires Inv(s) && h !in s.inFlight
    ensures Inv(HandleAlert(s, h, mapped))
  {
    SameBooksKeepInv(s, HandleAlert(s, h, mapped));
  }

  lemma BadAlertKeepsInv(s: State)
    requires Inv(s)
    ensures Inv(s.(received := s.received + 1, raised := s.raised + 1))
  {
    SameBooksKeepInv(s, s.(received := s.received + 1, raised := s.raised + 1));
  }

  lemma StepKeepsInv(s: State, e: Event)
    requires Inv(s)
    ensures Inv(Step(s, e))
  {
    hide Inv;
    if Enabled(s, e) {
      match e
      case Alert(h, mapped) => AlertKeepsInv(s, h, mapped);
      case MapperRaises => BadAlertKeepsInv(s);
      case OnFinished(h, outcome) => FinishOnKeepsInv(s, h, outcome);
      case TimerStarts(t) => TimerKeepsInv(s, t, StartTimer(s, t).timers[t].phase);
      case TimerResumes(t) =>
        if s.timers[t].cancelled || !HoldsLatest(s, t) {
          TimerKeepsInv(s, t, Done);
        } else {
          PublishKeepsInv(s, t);
        }
      case OffReturns(t) => FinishOffKeepsInv(s, t);
      case Cleanup => CleanUpKeepsInv(s);
      case Tick(d) => TickKeepsInv(s, d);
    }
  }

  lemma CountOnKeepsInv(s: State, h: nat, outcome: Outcome)
    requires Inv(s) && h in s.inFlight
    ensures Inv(CountOn(s, h, outcome))
  {
    assert (s.inFlight - {h}).Keys == s.inFlight.Keys - {h};
    assert |s.inFlight - {h}| == |s.inFlight| - 1;
    SameBooksKeepInv(s, CountOn(s, h, outcome));
  }

  lemma FinishOnKeepsInv(s: State, h: nat, outcome: Outcome)
    requires Inv(s) && h in s.inFlight
    ensures Inv(FinishOn(s, h, outcome))
  {
    hide Inv;
    hide Schedule;
    CountOnKeepsInv(s, h, outcome);
    if outcome.Accepted? {
      ScheduleKeepsInv(CountOn(s, h, outcome), s.inFlight[h]);
    }
  }

  lemma ScheduleKeepsInv(s: State, e: Entity)
    requires Inv(s)
    ensures Inv(Schedule(s, e))
  {
    hide GenerationsOK, BirthsOK, OffsOK, TasksOK, TrackingOK, CancelsOK;
    if e.binarySensor && e.autoOffSeconds > 0 {
      ScheduleKeepsTimers(s, e);
      BirthsAreInLog(s.timers, s.log, s.now);
      ScheduleKeepsTracking(s, e);
    }
  }

  /** Steps that only count or move ON publishes. */
  lemma SameBooksKeepInv(s: State, s': State)
    requires Inv(s)
    requires s' == s.(inFlight := s'.inFlight, received := s'.received, published := s'.published,
                      failed := s'.failed, skipped := s'.skipped, raised := s'.raised)
    requires s'.received == s'.published + s'.failed + s'.skipped + s'.raised + |s'.inFlight|
    ensures Inv(s')
  {
    assert forall u :: 0 <= u < |s.timers| ==> Live(s', u) == Live(s, u) && HoldsLatest(s', u) == HoldsLatest(s, u);
    assert forall k :: k in s.tasks ==> TaskOK(s, k, s.tasks[k]);
  }

  lemma TickKeepsInv(s: State, d: real)
    requires Inv(s) && 0.0 <= d
    ensures Inv(s.(now := s.now + d))
  {
    hide GenerationsOK, OffsOK;
    var s' := s.(now := s.now + d);
    forall t | 0 <= t < |s.timers| ensures BirthOK(s'.timers, s'.log, s'.now, t) {
      assert BirthOK(s.timers, s.log, s.now, t);
    }
    assert forall u :: 0 <= u < |s.timers| ==> Live(s', u) == Live(s, u) && HoldsLatest(s', u) == HoldsLatest(s, u);
    assert forall k :: k in s.tasks ==> TaskOK(s, k, s.tasks[k]);
  }

  lemma {:induction false} Reachable(es: seq<Event>)
    ensures Inv(After(es))
  {
    if es != [] {
      Reachable(es[..|es| - 1]);
      StepKeepsInv(After(es[..|es| - 1]), es[|es| - 1]);
    }
  }

  // ---------- Theorems about every run ----------

  /** Every OFF of every run was started by the timer of the last alert scheduled for its entity and
      a whole window after that alert's ON publish had completed; each scheduled alert has its own
      timer and starts at most one OFF. */
  lemma OffsFollowLatestAlert(es: seq<Event>)
    ensures var log := After(es).log;
      && (forall i :: 0 <= i < |log| && log[i].OffStarted? ==> OffJustified(log, i))
      && (forall i, j :: 0 <= i < j < |log| && log[i].OffStarted? && log[j].OffStarted? ==>
            log[i].timer != log[j].timer)
      && (forall i, j :: 0 <= i < j < |log| && log[i].Scheduled? && log[j].Scheduled? ==>
            log[i].timer != log[j].timer)
  {
    Reachable(es);
  }

  /** Every entry left in the task dict is an unfinished, uncancelled task of the current generation. */
  lemma TrackedTasksAreCurrent(es: seq<Event>, key: string)
    requires key in After(es).tasks
    ensures TaskOK(After(es), key, After(es).tasks[key])
  {
    Reachable(es);
  }

  /** No alert is lost: each is counted once as published, failed, skipped, still in flight, or raised by
      the mapper or the publisher. */
  lemma CountersAddUp(es: seq<Event>)
    ensures var s := After(es);
      s.received == s.published + s.failed + s.skipped + s.raised + |s.inFlight|
  {
    Reachable(es);
  }

  lemma {:induction false} ShutDownIsCleanup(es: seq<Event>)
    requires Cleanup !in es
    ensures ShutDown !in After(es).log
  {
    if es != [] {
      var prefix := es[..|es| - 1];
      ShutDownIsCleanup(prefix);
      assert es[|es| - 1] in es;
      assert forall x :: x in After(es).log && x !in After(prefix).log ==> x != ShutDown;
    }
  }

  /** Until the relay is cleaned up, a timer whose sleep is over starts an OFF exactly when no later
      alert was scheduled for its entity: a cancel never silences the timer that should fire. */
  lemma DueTimerFiresIffLatest(es: seq<Event>, t: nat)
    requires Cleanup !in es
    requires t < |After(es).timers| && After(es).timers[t].phase.Sleeping?
    requires After(es).timers[t].phase.wakeAt <= After(es).now
    requires After(es).timers[t].born < |After(es).log|
    ensures var s := After(es);
      LastScheduling(s.log, s.timers[t].key, s.timers[t].born, |s.log|) <==>
      After(es + [TimerResumes(t)]).log == s.log + [OffStarted(s.timers[t].key, t, s.now)]
  {
    var s := After(es);
    Reachable(es);
    ShutDownIsCleanup(es);
    LatestIsLast(s, t);
    assert (es + [TimerResumes(t)])[..|es|] == es;
    assert After(es + [TimerResumes(t)]) == ResumeTimer(s, t);
  }

  /** A timer that may still send an OFF is missing from the dict exactly when the `finally` clause of
      an older timer of the same entity ran after it was scheduled. */
  lemma UntrackedIffPopped(es: seq<Event>, t: nat)
    requires t < |After(es).timers| && Live(After(es), t)
    ensures var s := After(es);
      !(s.timers[t].key in s.tasks && s.tasks[s.timers[t].key] == t) <==>
      PoppedAfter(s.log, s.timers[t].key, s.timers[t].born)
  {
    Reachable(es);
  }

  /** Cleanup cancels every timer but those that are untracked in this way. */
  lemma CleanupSparesOnlyUntracked(es: seq<Event>, t: nat)
    requires t < |After(es).timers|
    ensures var s := After(es);
      Live(After(es + [Cleanup]), t) <==>
      Live(s, t) && PoppedAfter(s.log, s.timers[t].key, s.timers[t].born)
  {
    hide *;
    ReachableTracking(es);
    AfterStep(es, Cleanup);
    LiveAfterCleanUp(After(es), t);
  }

  lemma ReachableTracking(es: seq<Event>)
    ensures TasksOK(After(es)) && TrackingOK(After(es))
  {
    Reachable(es);
  }

  lemma LiveAfterCleanUp(s: State, t: nat)
    requires TasksOK(s) && TrackingOK(s) && t < |s.timers|
    ensures t < |Step(s, Cleanup).timers|
    ensures Live(Step(s, Cleanup), t) <==> Live(s, t) && PoppedAfter(s.log, s.timers[t].key, s.timers[t].born)
  {
    var key := s.timers[t].key;
    assert forall k :: k in s.tasks ==> s.tasks[k] in s.tasks.Values && TaskOK(s, k, s.tasks[k]);
  }

  lemma {:induction false} AfterStep(es: seq<Event>, e: Event)
    ensures After(es + [e]) == Step(After(es), e)
  {
    assert (es + [e])[..|es|] == es;
  }

  // ---------- Two runs that bound what can be promised ----------

  /** An OFF can start while a newer ON publish of the same entity is still awaited: only completed
      ON publishes are protected. */
  lemma OffMayRaceAnUnfinishedOn(key: string)
    ensures exists es: seq<Event>, s ::
      s == After(es) && |s.log| == 2 && s.log[1] == OffStarted(key, 0, 30.0) &&
      1 in s.inFlight && s.inFlight[1].key == key
  {
    var e := Entity(key, true, 30);
    var e1 := [Alert(0, Some(e))];
    var e2 := e1 + [OnFinished(0, Accepted)];
    var e3 := e2 + [TimerStarts(0)];
    var e4 := e3 + [Tick(30.0)];
    var e5 := e4 + [Alert(1, Some(e))];
    var e6 := e5 + [TimerResumes(0)];
    AfterStep([], e1[0]); AfterStep(e1, e2[1]); AfterStep(e2, e3[2]);
    AfterStep(e3, e4[3]); AfterStep(e4, e5[4]); AfterStep(e5, e6[5]);
    assert [] + e1 == e1;
    var s := After(e6);
    assert s.log == [Scheduled(key, 0, 30, 0.0), OffStarted(key, 0, 30.0)];
  }

  /** When a cancelled timer is already inside its OFF publish, its `finally` drops the entry of its
      successor; the successor then outlives the cleanup and still sends its OFF. */
  lemma SuccessorMaySurviveCleanup(key: string)
    ensures var log := [Scheduled(key, 0, 30, 0.0), OffStarted(key, 0, 30.0), Scheduled(key, 1, 30, 30.0),
                        OffFinished(key, 0), ShutDown, OffStarted(key, 1, 60.0)];
      exists es: seq<Event> :: After(es).log == log
  {
    var e := Entity(key, true, 30);
    hide *;
    var es1 := Extend4([], Alert(0, Some(e)), OnFinished(0, Accepted), TimerStarts(0), Tick(30.0));
    var es2 := Extend4(es1, TimerResumes(0), Alert(1, Some(e)), OnFinished(1, Accepted), OffReturns(0));
    var es3 := Extend4(es2, Cleanup, TimerStarts(1), Tick(30.0), TimerResumes(1));
    AfterNothing();
    FirstOffStarts(e);
    SuccessorLosesEntry(e);
    SuccessorFires(e);
    LogOfEntryLost(key);
  }

  lemma LogOfEntryLost(key: string)
    ensures EntryLost(key).log + [ShutDown, OffStarted(key, 1, 60.0)] ==
      [Scheduled(key, 0, 30, 0.0), OffStarted(key, 0, 30.0), Scheduled(key, 1, 30, 30.0),
       OffFinished(key, 0), ShutDown, OffStarted(key, 1, 60.0)]
  {
  }

  lemma Extend4(es: seq<Event>, a: Event, b: Event, c: Event, d: Event) returns (r: seq<Event>)
    ensures After(r) == Step(Step(Step(Step(After(es), a), b), c), d)
  {
    AfterStep(es, a); AfterStep(es + [a], b); AfterStep(es + [a] + [b], c);
    AfterStep(es + [a] + [b] + [c], d);
    r := es + [a] + [b] + [c] + [d];
  }

  lemma AfterNothing()
    ensures After([]) == Init
  {
  }

  function OffInFlight(key: string): State
  {
    State(30.0, map[], [Timer(key, 30, 1, Publishing, false, 0)], map[key := 0], map[key := 1], 1, 1, 0, 0, 0,
      [Scheduled(key, 0, 30, 0.0), OffStarted(key, 0, 30.0)])
  }

  function EntryLost(key: string): State
  {
    State(30.0, map[], [Timer(key, 30, 1, Done, true, 0), Timer(key, 30, 2, Created, false, 2)],
      map[], map[key := 2], 2, 2, 0, 0, 0,
      OffInFlight(key).log + [Scheduled(key, 1, 30, 30.0), OffFinished(key, 0)])
  }

  lemma FirstOffStarts(e: Entity)
    requires e.binarySensor && e.autoOffSeconds == 30
    ensures Step(Step(Step(Step(Step(Init, Alert(0, Some(e))), OnFinished(0, Accepted)), TimerStarts(0)),
      Tick(30.0)), TimerResumes(0)) == OffInFlight(e.key)
  {
    var s := Step(Step(Init, Alert(0, Some(e))), OnFinished(0, Accepted));
    assert s.inFlight == map[];
  }

  lemma SuccessorLosesEntry(e: Entity)
    requires e.binarySensor && e.autoOffSeconds == 30
    ensures Step(Step(Step(OffInFlight(e.key), Alert(1, Some(e))), OnFinished(1, Accepted)), OffReturns(0)) ==
      EntryLost(e.key)
  {
    var s := Step(Step(OffInFlight(e.key), Alert(1, Some(e))), OnFinished(1, Accepted));
    assert s.inFlight == map[];
    assert s.timers == [Timer(e.key, 30, 1, Publishing, true, 0), Timer(e.key, 30, 2, Created, false, 2)];
    assert s.tasks - {e.key} == map[];
  }

  lemma SuccessorFires(e: Entity)
    ensures Step(Step(Step(Step(EntryLost(e.key), Cleanup), TimerStarts(1)), Tick(30.0)), TimerResumes(1)).log ==
      EntryLost(e.key).log + [ShutDown, OffStarted(e.key, 1, 60.0)]
  {
    var s := Step(EntryLost(e.key), Cleanup);
    assert s.timers == EntryLost(e.key).timers;
  }

  // ---------- The relay object ----------

  /** The fields the relay keeps, the asyncio tasks it created, and a ghost record of what it did. */
  class Relay {
    var now: real
    var inFlight: map<nat, Entity>
    var timers: seq<Timer>
    var autoOffTasks: map<string, nat>
    var entityGeneration: map<string, nat>
    var received: nat
    var published: nat
    var failed: nat
    var skipped: nat
    var raised: nat
    var log: seq<Obs>

    ghost function View(): State
      reads this
    {
      State(now, inFlight, timers, autoOffTasks, entityGeneration, received, published, failed, skipped, raised, log)
    }

    constructor ()
      ensures View() == After([])
    {
      now, inFlight, timers, autoOffTasks, entityGeneration := 0.0, map[], [], map[], map[];
      received, published, failed, skipped, raised, log := 0, 0, 0, 0, 0, [];
    }

    method HandleAlert(handler: nat, mapped: Option<Entity>)
      requires Enabled(View(), Alert(handler, mapped))
      modifies this
      ensures View() == Step(old(View()), Alert(handler, mapped))
    {
      received := received + 1;
      if mapped.None? {
        skipped := skipped + 1;
        return;
      }
      inFlight := inFlight[handler := mapped.value];
    }

    /** The mapper raises: the exception leaves the handler, and `_handle_raw` logs it. */
    method HandleBadAlert()
      modifies this`received, this`raised
      ensures View() == Step(old(View()), MapperRaises)
    {
      received := received + 1;
      raised := raised + 1;
    }

    method PublishReturned(handler: nat, outcome: Outcome)
      requires Enabled(View(), OnFinished(handler, outcome))
      modifies this
      ensures View() == Step(old(View()), OnFinished(handler, outcome))
    {
      var entity := inFlight[handler];
      inFlight := inFlight - {handler};
      match outcome
      case Raised => raised := raised + 1;
      case Refused => failed := failed + 1;
      case Accepted =>
        published := published + 1;
        MaybeScheduleAutoOff(entity);
    }

    method CancelTask(t: nat)
      modifies this`timers
      ensures timers == Cancel(old(timers), t)
    {
      if t < |timers| && timers[t].phase != Done {
        timers := timers[t := timers[t].(cancelled := true)];
      }
    }

    method MaybeScheduleAutoOff(entity: Entity)
      modifies this
      ensures View() == Schedule(old(View()), entity)
    {
      if !entity.binarySensor { return; }
      if entity.autoOffSeconds <= 0 { return; }
      var key := entity.key;
      var generation := (if key in entityGeneration then entityGeneration[key] else 0) + 1;
      entityGeneration := entityGeneration[key := generation];
      if key in autoOffTasks {
        var existing := autoOffTasks[key];
        autoOffTasks := autoOffTasks - {key};
        CancelTask(existing);
      }
      var task := |timers|;
      timers := timers + [Timer(key, entity.autoOffSeconds, generation, Created, false, |log|)];
      autoOffTasks := autoOffTasks[key := task];
      log := log + [Scheduled(key, task, entity.autoOffSeconds, now)];
    }

    /** `_flip_off_later` up to its first await. */
    method TimerFirstStep(t: nat)
      requires Enabled(View(), TimerStarts(t))
      modifies this`timers
      ensures View() == Step(old(View()), TimerStarts(t))
    {
      if timers[t].cancelled {
        timers := timers[t := timers[t].(phase := Done)];
      } else {
        timers := timers[t := timers[t].(phase := Sleeping(now + timers[t].window as real))];
      }
    }

    /** `_flip_off_later` between the two awaits. */
    method TimerAfterSleep(t: nat)
      requires Enabled(View(), TimerResumes(t))
      modifies this`timers, this`log
      ensures View() == Step(old(View()), TimerResumes(t))
    {
      var key := timers[t].key;
      if timers[t].cancelled {
        timers := timers[t := timers[t].(phase := Done)];
        return;
      }
      if !(key in entityGeneration && entityGeneration[key] == timers[t].gen) {
        timers := timers[t := timers[t].(phase := Done)];
        return;
      }
      timers := timers[t := timers[t].(phase := Publishing)];
      log := log + [OffStarted(key, t, now)];
    }

    /** The `finally` clause, on success, failure and cancellation alike. */
    method TimerFinally(t: nat)
      requires Enabled(View(), OffReturns(t))
      modifies this`timers, this`autoOffTasks, this`log
      ensures View() == Step(old(View()), OffReturns(t))
    {
      var key := timers[t].key;
      autoOffTasks := autoOffTasks - {key};
      timers := timers[t := timers[t].(phase := Done)];
      log := log + [OffFinished(key, t)];
    }

    /** The `finally` clause of `run`. */
    method CleanUpOnExit()
      modifies this`timers, this`autoOffTasks, this`log
      ensures View() == Step(old(View()), Cleanup)
    {
      CancelTasks(autoOffTasks.Values);
      autoOffTasks := map[];
      log := log + [ShutDown];
    }

    method CancelTasks(tasks: set<nat>)
      modifies this`timers
      ensures timers == CancelAll(old(timers), tasks)
    {
      var pending := tasks;
      ghost var cancelled := {};
      CancelAllAdd(timers, {}, 0);
      while pending != {}
        invariant cancelled + pending == tasks
        invariant timers == CancelAll(old(timers), cancelled)
        decreases pending
      {
        var t :| t in pending;
        CancelAllAdd(old(timers), cancelled, t);
        CancelTask(t);
        pending := pending - {t};
        cancelled := cancelled + {t};
      }
      assert cancelled == tasks;
    }

    method TimePasses(elapsed: real)
      requires Enabled(View(), Tick(elapsed))
      modifies this`now
      ensures View() == Step(old(View()), Tick(elapsed))
    {
      now := now + elapsed;
    }
  }
}
