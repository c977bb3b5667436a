/**
 What the events of the report scheduler do: when a look runs a report, counted in minutes and midnights, what a
 run by hand does, and what a new schedule is.
 */
module ReportsEffects {
  import opened Common
  import opened Text
  import opened Reports

  /** `midnight` is the last midnight at or before `t`. */
  predicate IsMidnight(midnight: real, t: real)
  {
    midnight == (midnight / 86400.0).Floor as real * 86400.0 && midnight <= t < midnight + 86400.0
  }

  lemma TimeOnIsAfterMidnight(t: real, minute: int)
    ensures exists midnight: real :: IsMidnight(midnight, t) && TimeOn(t, minute) == midnight + minute as real * 60.0
  {
    var day := DayOf(t);
    var midnight := day as real * 86400.0;
    WholeDays(day);
    assert day as real <= t / 86400.0 < day as real + 1.0;
    assert t / 86400.0 * 86400.0 == t;
    assert IsMidnight(midnight, t);
  }

  lemma WholeDays(day: int)
    ensures (day as real * 86400.0 / 86400.0).Floor == day
  {
    assert day as real * 86400.0 / 86400.0 == day as real;
  }

  /** Two midnights at or before `t` and less than a day away from it are the same. */
  lemma OneMidnight(a: real, b: real, t: real)
    requires IsMidnight(a, t) && IsMidnight(b, t)
    ensures a == b
  {
    SameDay((a / 86400.0).Floor, (b / 86400.0).Floor, t);
  }

  lemma SameDay(m: int, n: int, t: real)
    requires m as real * 86400.0 <= t < m as real * 86400.0 + 86400.0
    requires n as real * 86400.0 <= t < n as real * 86400.0 + 86400.0
    ensures m == n
  {
    assert (m - n) as real * 86400.0 < 86400.0;
    assert (n - m) as real * 86400.0 < 86400.0;
  }

  /** A report by interval is due when it never ran, or when so many minutes have passed since; a daily one when its
      minute after midnight has come and it has not run since then. */
  predicate DueByClock(p: Plan, last: Option<real>, now: real, midnight: real)
  {
    if p.every.Some? && p.every.value != 0 then last.None? || now - last.value >= p.every.value as real * 60.0
    else p.at.Some? && 0 <= p.at.value < 1440 && now >= midnight + p.at.value as real * 60.0 &&
         (last.None? || last.value < midnight + p.at.value as real * 60.0)
  }

  predicate OutsideTheDay(p: Plan)
  {
    !(p.every.Some? && p.every.value != 0) && p.at.Some? && !(0 <= p.at.value < 1440)
  }

  /** A look at a known, active report, while the loop lives: it runs it if and only if it is due, passes it over
      otherwise, and kills the loop if the minute is outside the day. Whatever it does is logged, and only a run changes
      the report. */
  lemma LookRunsIffDue(maxSchedules: nat, start: real, es: seq<Event>, id: nat, drift: real, midnight: real)
    requires var s := After(maxSchedules, start, es);
      s.alive && id in s.dict && id in s.objects && s.objects[id].active && drift >= 0.0
    requires IsMidnight(midnight, After(maxSchedules, start, es).now)
    ensures var s, t := After(maxSchedules, start, es), After(maxSchedules, start, es + [Look(id, drift)]);
      var r := s.objects[id];
      && t.dict == s.dict && t.nextId == s.nextId
      && if OutsideTheDay(r.plan) then
           && t.log == s.log + [Entry(id, r.plan, Crashed, s.now, s.now)] && !t.alive
           && t.objects == s.objects && t.now == s.now
         else if DueByClock(r.plan, LastStamp(s.log, id), s.now, midnight) then
           && t.log == s.log + [Entry(id, r.plan, ByLoop, s.now, s.now + drift)] && t.alive
           && t.objects == s.objects[id := r.(lastRun := Some(s.now + drift), runs := r.runs + 1)]
           && t.now == s.now + drift
         else
           && t.log == s.log + [Entry(id, r.plan, Idle, s.now, s.now)] && t.alive
           && t.objects == s.objects && t.now == s.now
  {
    var s := After(maxSchedules, start, es);
    AfterStep(maxSchedules, start, es, Look(id, drift));
    CountIsRuns(maxSchedules, start, es, id);
    JudgedByClock(s.objects[id], s.now, midnight);
    StepLooks(maxSchedules, s, id, drift);
    hide After, Step, Judge, LastStamp, IsMidnight, DueByClock, OutsideTheDay;
  }

  lemma StepLooks(maxSchedules: nat, s: State, id: nat, drift: real)
    requires Enabled(s, Look(id, drift))
    ensures Step(maxSchedules, s, Look(id, drift)) == LookAt(s, id, drift)
  {
    hide LookAt;
  }

  lemma JudgedByClock(r: Schedule, now: real, midnight: real)
    requires IsMidnight(midnight, now)
    ensures Judge(r, now).Raises? <==> OutsideTheDay(r.plan)
    ensures Judge(r, now).Due? <==> DueByClock(r.plan, r.lastRun, now, midnight) && !OutsideTheDay(r.plan)
  {
    if r.plan.at.Some? {
      TimeOnIsAfterMidnight(now, r.plan.at.value);
      hide IsMidnight, TimeOn;
      var other: real :| IsMidnight(other, now) &&
        TimeOn(now, r.plan.at.value) == other + r.plan.at.value as real * 60.0;
      OneMidnight(midnight, other, now);
    }
  }

  /** A run by hand stamps the report at once and counts it, whatever its plan and whether or not it is active. */
  lemma HandRunsAtOnce(maxSchedules: nat, start: real, es: seq<Event>, id: nat)
    requires var s := After(maxSchedules, start, es); id in s.dict && id in s.objects
    ensures var s, t := After(maxSchedules, start, es), After(maxSchedules, start, es + [RunNow(id)]);
      var r := s.objects[id];
      t == s.(objects := s.objects[id := r.(lastRun := Some(s.now), runs := r.runs + 1)],
              log := s.log + [Entry(id, r.plan, ByHand, s.now, s.now)])
  {
    AfterStep(maxSchedules, start, es, RunNow(id));
    hide After;
  }

  /** Stopping deactivates a known report and does nothing else; time passes by ticks. */
  lemma StopOnlyDeactivates(maxSchedules: nat, start: real, es: seq<Event>, e: Event)
    requires e.Stop? || e.Tick?
    ensures var s, t := After(maxSchedules, start, es), After(maxSchedules, start, es + [e]);
      t == if e.Tick? then s.(now := if e.elapsed >= 0.0 then s.now + e.elapsed else s.now)
           else if e.report in s.dict && e.report in s.objects
           then s.(objects := s.objects[e.report := s.objects[e.report].(active := false)]) else s
  {
    AfterStep(maxSchedules, start, es, e);
    hide After;
  }

  /** A new schedule is what was asked for, tidied, and daily at 08:00 if no time was given; it is active and has
      never run. */
  lemma NewReportIs(maxSchedules: nat, start: real, es: seq<Event>, spec: Spec)
    ensures var s, t := After(maxSchedules, start, es), After(maxSchedules, start, es + [Create(spec)]);
      && t.log == s.log && t.now == s.now && t.alive == s.alive && t.nextId == s.nextId + 1
      && (maxSchedules > 0 ==> s.nextId in t.dict)
      && var every := spec.plan.every.Some? && spec.plan.every.value != 0;
         var plan := Plan(spec.plan.every, if spec.plan.at.None? && !every then Some(480) else spec.plan.at);
         var name := if Strip(spec.name) == "" then "Report" else Strip(spec.name);
         t.objects == s.objects[s.nextId := Schedule(name, Strip(spec.query), plan, true, None, 0)]
  {
    var s := After(maxSchedules, start, es);
    AfterStep(maxSchedules, start, es, Create(spec));
    RegistryHoldsNewest(maxSchedules, start, es + [Create(spec)]);
    EvictSame(maxSchedules, Register(s, spec));
    EvictKeepsNumber(maxSchedules, Register(s, spec));
    NextIsPositive(maxSchedules, start, es);
    if maxSchedules > 0 { NewestIsLast(s.nextId + 1, maxSchedules); }
    hide After, Evict, Strip;
  }

  lemma NextIsPositive(maxSchedules: nat, start: real, es: seq<Event>)
    ensures 1 <= After(maxSchedules, start, es).nextId
  {
    RegistryHoldsNewest(maxSchedules, start, es);
  }

  lemma {:induction false} EvictKeepsNumber(maxSchedules: nat, s: State)
    ensures Evict(maxSchedules, s).nextId == s.nextId
    decreases |s.order|
  {
    if |s.order| > maxSchedules { EvictKeepsNumber(maxSchedules, EvictOldest(s)); }
  }
}
