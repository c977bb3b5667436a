/**
 Recurring reports: one loop looks at every schedule in turn and runs those that are due; a report can
 also be run by hand at any time. A look and the time stamp of the run it starts are one step, since no
 await lies between them; `drift` is what the clock advances between the two. Days are 86400 seconds long.
 */
module Reports {
  import opened Common
  import opened FirstPerKey
  import opened Text

  /** When a report is due: every so many minutes, or else daily at a minute of the day. */
  datatype Plan = Plan(every: Option<int>, at: Option<int>)

  /** What the operator asks for, and what is persisted. */
  datatype Spec = Spec(name: string, query: string, plan: Plan)

  datatype Schedule = Schedule(name: string, query: string, plan: Plan, active: bool, lastRun: Option<real>, runs: nat)

  datatype How = Idle | ByLoop | ByHand | Crashed

  /** One look of the loop, or one run by hand: when it was made and the stamp its run got. */
  datatype Entry = Entry(id: nat, plan: Plan, how: How, at: real, stamp: real)

  datatype State = State(now: real, objects: map<nat, Schedule>, dict: seq<nat>, order: seq<nat>, nextId: nat,
                         alive: bool, log: seq<Entry>)

  datatype Event =
    | Create(spec: Spec)
    | Stop(report: nat)
    | RunNow(asked: nat)
    | Look(looked: nat, drift: real)
    | Tick(elapsed: real)

  function Init(start: real): State
  {
    State(start, map[], [], [], 1, true, [])
  }

  // ---------- When a schedule is due ----------

  const DAY: real := 86400.0

  function DayOf(t: real): int
  {
    (t / DAY).Floor
  }

  /** The schedule's time on the day of `t`. */
  function TimeOn(t: real, minute: int): real
  {
    DayOf(t) as real * DAY + minute as real * 60.0
  }

  predicate Every(p: Plan)
  {
    p.every.Some? && p.every.value != 0
  }

  predicate Daily(p: Plan)
  {
    !Every(p) && p.at.Some?
  }

  datatype Verdict = Due | NotDue | Raises

  /** A minute that is not in the day makes the date arithmetic raise. */
  function Judge(s: Schedule, now: real): Verdict
  {
    if Every(s.plan) then
      if s.lastRun.None? || now - s.lastRun.value >= s.plan.every.value as real * 60.0 then Due else NotDue
    else if s.plan.at.Some? then
      if !(0 <= s.plan.at.value < 1440) then Raises else
      var time := TimeOn(now, s.plan.at.value);
      if now < time then NotDue else
      if s.lastRun.None? || s.lastRun.value < time then Due else NotDue
    else NotDue
  }

  // ---------- One atomic step ----------

  function Made(spec: Spec): Schedule
  {
    var name := Strip(spec.name);
    var plan := if spec.plan.at.None? && !Every(spec.plan) then spec.plan.(at := Some(480)) else spec.plan;
    Schedule(if name == "" then "Report" else name, Strip(spec.query), plan, true, None, 0)
  }

  function EvictOldest(s: State): State
    requires s.order != []
  {
    s.(order := s.order[1..], dict := Without(s.dict, s.order[0]))
  }

  function Evict(maxSchedules: nat, s: State): State
    decreases |s.order|
  {
    if |s.order| > maxSchedules then Evict(maxSchedules, EvictOldest(s)) else s
  }

  function Register(s: State, spec: Spec): State
  {
    s.(objects := s.objects[s.nextId := Made(spec)], dict := s.dict + [s.nextId], order := s.order + [s.nextId],
       nextId := s.nextId + 1)
  }

  predicate Known(s: State, id: nat)
  {
    id in s.dict && id in s.objects
  }

  function Run(s: State, id: nat, how: How, stamp: real): State
    requires id in s.objects
  {
    var r := s.objects[id];
    s.(now := stamp, objects := s.objects[id := r.(lastRun := Some(stamp), runs := r.runs + 1)],
       log := s.log + [Entry(id, r.plan, how, s.now, stamp)])
  }

  function LookAt(s: State, id: nat, drift: real): State
    requires id in s.objects
  {
    var r := s.objects[id];
    match Judge(r, s.now)
    case Due => Run(s, id, ByLoop, s.now + drift)
    case NotDue => s.(log := s.log + [Entry(id, r.plan, Idle, s.now, s.now)])
    case Raises => s.(alive := false, log := s.log + [Entry(id, r.plan, Crashed, s.now, s.now)])
  }

  predicate Enabled(s: State, e: Event)
  {
    match e
    case Create(_) => true
    case Stop(_) => true
    case RunNow(id) => Known(s, id)
    case Look(id, drift) => s.alive && Known(s, id) && s.objects[id].active && drift >= 0.0
    case Tick(elapsed) => elapsed >= 0.0
  }

  function Step(maxSchedules: nat, s: State, e: Event): State
  {
    if !Enabled(s, e) then s else
    match e
    case Create(spec) => Evict(maxSchedules, Register(s, spec))
    case Stop(id) => if Known(s, id) then s.(objects := s.objects[id := s.objects[id].(active := false)]) else s
    case RunNow(id) => Run(s, id, ByHand, s.now)
    case Look(id, drift) => LookAt(s, id, drift)
    case Tick(elapsed) => s.(now := s.now + elapsed)
  }

  function After(maxSchedules: nat, start: real, es: seq<Event>): State
  {
    if es == [] then Init(start) else Step(maxSchedules, After(maxSchedules, start, es[..|es| - 1]), es[|es| - 1])
  }

  // ---------- Reading the log ----------

  predicate RunOf(e: Entry, id: nat)
  {
    e.id == id && (e.how.ByLoop? || e.how.ByHand?)
  }

  function LastStamp(log: seq<Entry>, id: nat): Option<real>
  {
    if log == [] then None else
    var e := log[|log| - 1];
    if RunOf(e, id) then Some(e.stamp) else LastStamp(log[..|log| - 1], id)
  }

  function RunsOf(log: seq<Entry>, id: nat): nat
  {
    if log == [] then 0 else
    RunsOf(log[..|log| - 1], id) + (if RunOf(log[|log| - 1], id) then 1 else 0)
  }

  /** What the loop decided, given when the report last ran. */
  predicate Decided(past: seq<Entry>, e: Entry)
  {
    !e.how.ByHand? ==>
      var verdict := Judge(Schedule("", "", e.plan, true, LastStamp(past, e.id), 0), e.at);
      (e.how.ByLoop? <==> verdict.Due?) && (e.how.Crashed? <==> verdict.Raises?)
  }

  predicate EntryOK(log: seq<Entry>, k: nat)
    requires k < |log|
  {
    Decided(log[..k], log[k]) && log[k].at <= log[k].stamp
  }

  predicate LogOK(log: seq<Entry>)
  {
    forall k :: 0 <= k < |log| ==> EntryOK(log, k)
  }

  predicate TimesOK(log: seq<Entry>, now: real)
  {
    && (forall k :: 0 <= k < |log| ==> log[k].stamp <= now)
    && forall i, j :: 0 <= i < j < |log| ==> log[i].stamp <= log[j].at
  }

  predicate KnownOK(objects: map<nat, Schedule>, log: seq<Entry>)
  {
    forall k :: 0 <= k < |log| ==> log[k].id in objects && log[k].plan == objects[log[k].id].plan
  }

  predicate ScheduleOK(r: Schedule, log: seq<Entry>, id: nat)
  {
    r.lastRun == LastStamp(log, id) && r.runs == RunsOf(log, id)
  }

  predicate SchedulesOK(objects: map<nat, Schedule>, log: seq<Entry>)
  {
    forall id :: id in objects ==> ScheduleOK(objects[id], log, id)
  }

  predicate AliveOK(s: State)
  {
    s.alive <==> forall k :: 0 <= k < |s.log| ==> !s.log[k].how.Crashed?
  }

  predicate LogInv(s: State)
  {
    LogOK(s.log) && TimesOK(s.log, s.now) && KnownOK(s.objects, s.log) && SchedulesOK(s.objects, s.log) && AliveOK(s)
  }

  ghost predicate RegistryInv(maxSchedules: nat, s: State)
  {
    && 1 <= s.nextId && (forall id :: id in s.objects <==> 1 <= id < s.nextId)
    && |s.order| == (if s.nextId - 1 <= maxSchedules then s.nextId - 1 else maxSchedules)
    && s.order == Span(s.nextId - |s.order|, s.nextId) && s.dict == s.order
  }

  ghost predicate Inv(maxSchedules: nat, s: State)
  {
    LogInv(s) && RegistryInv(maxSchedules, s)
  }

  // ---------- Every step keeps the log in order ----------

  lemma LastStampSnoc(log: seq<Entry>, e: Entry, id: nat)
    ensures LastStamp(log + [e], id) == if RunOf(e, id) then Some(e.stamp) else LastStamp(log, id)
    ensures RunsOf(log + [e], id) == RunsOf(log, id) + if RunOf(e, id) then 1 else 0
  {
    assert (log + [e])[..|log|] == log;
  }

  lemma LogSnoc(log: seq<Entry>, e: Entry)
    requires LogOK(log) && Decided(log, e) && e.at <= e.stamp
    ensures LogOK(log + [e])
  {
    hide Decided;
    var longer := log + [e];
    forall k | 0 <= k < |longer| ensures EntryOK(longer, k) {
      if k < |log| {
        assert EntryOK(log, k);
        assert longer[..k] == log[..k];
      } else {
        assert longer[..k] == log;
      }
    }
  }

  lemma TimesSnoc(log: seq<Entry>, e: Entry, now: real)
    requires TimesOK(log, now) && now <= e.at <= e.stamp
    ensures TimesOK(log + [e], e.stamp)
  {
  }

  /** The record of the schedule an entry is about, before and after it. */
  predicate Follows(r: Schedule, b: Schedule, e: Entry)
  {
    && b.plan == r.plan == e.plan
    && b.lastRun == (if RunOf(e, e.id) then Some(e.stamp) else r.lastRun)
    && b.runs == r.runs + (if RunOf(e, e.id) then 1 else 0)
  }

  lemma SchedulesSnoc(objects: map<nat, Schedule>, b: Schedule, log: seq<Entry>, e: Entry)
    requires SchedulesOK(objects, log) && KnownOK(objects, log) && e.id in objects && Follows(objects[e.id], b, e)
    ensures SchedulesOK(objects[e.id := b], log + [e]) && KnownOK(objects[e.id := b], log + [e])
  {
    hide LastStamp, RunsOf;
    var t := objects[e.id := b];
    forall id | id in t ensures ScheduleOK(t[id], log + [e], id) {
      assert ScheduleOK(objects[id], log, id);
      LastStampSnoc(log, e, id);
    }
  }

  lemma AliveSnoc(s: State, t: State, e: Entry)
    requires AliveOK(s) && t.log == s.log + [e] && (t.alive <==> s.alive && !e.how.Crashed?)
    ensures AliveOK(t)
  {
    assert forall k :: 0 <= k < |s.log| ==> t.log[k] == s.log[k];
    assert t.log[|s.log|] == e;
  }

  /** One entry, with the change of its schedule's record, keeps everything the log promises. */
  lemma LogsOne(s: State, t: State, b: Schedule, e: Entry)
    requires LogInv(s) && e.id in s.objects && e.at == s.now <= e.stamp
    requires Decided(s.log, e) && Follows(s.objects[e.id], b, e)
    requires t.objects == s.objects[e.id := b] && t.log == s.log + [e] && t.now == e.stamp
    requires t.alive <==> s.alive && !e.how.Crashed?
    ensures LogInv(t)
  {
    hide LogOK, TimesOK, KnownOK, SchedulesOK, AliveOK, Decided, Follows;
    LogSnoc(s.log, e);
    TimesSnoc(s.log, e, s.now);
    SchedulesSnoc(s.objects, b, s.log, e);
    AliveSnoc(s, t, e);
  }

  lemma JudgedByLog(s: State, id: nat)
    requires LogInv(s) && id in s.objects
    ensures Judge(s.objects[id], s.now) ==
      Judge(Schedule("", "", s.objects[id].plan, true, LastStamp(s.log, id), 0), s.now)
  {
    assert ScheduleOK(s.objects[id], s.log, id);
  }

  lemma RunKeepsLog(s: State, id: nat, how: How, stamp: real)
    requires LogInv(s) && id in s.objects && s.now <= stamp && (how.ByLoop? || how.ByHand?)
    requires how.ByLoop? ==> Judge(s.objects[id], s.now).Due?
    ensures LogInv(Run(s, id, how, stamp))
  {
    JudgedByLog(s, id);
    var r := s.objects[id];
    hide LogInv, Judge;
    var b := r.(lastRun := Some(stamp), runs := r.runs + 1);
    LogsOne(s, Run(s, id, how, stamp), b, Entry(id, r.plan, how, s.now, stamp));
  }

  lemma LookKeepsLog(s: State, id: nat, drift: real)
    requires LogInv(s) && id in s.objects && drift >= 0.0
    ensures LogInv(LookAt(s, id, drift))
  {
    JudgedByLog(s, id);
    var r := s.objects[id];
    hide LogInv, Judge, Run;
    assert s.objects[id := r] == s.objects;
    match Judge(r, s.now)
    case Due => RunKeepsLog(s, id, ByLoop, s.now + drift);
    case NotDue => LogsOne(s, LookAt(s, id, drift), r, Entry(id, r.plan, Idle, s.now, s.now));
    case Raises => LogsOne(s, LookAt(s, id, drift), r, Entry(id, r.plan, Crashed, s.now, s.now));
  }

  predicate SameRuns(a: Schedule, b: Schedule)
  {
    b.plan == a.plan && b.lastRun == a.lastRun && b.runs == a.runs
  }

  lemma SameLog(s: State, t: State)
    requires LogInv(s) && t.log == s.log && t.alive == s.alive && s.now <= t.now && t.objects.Keys == s.objects.Keys
    requires forall id :: id in s.objects ==> SameRuns(s.objects[id], t.objects[id])
    ensures LogInv(t)
  {
    hide LogOK, LastStamp, RunsOf;
    forall id | id in t.objects ensures ScheduleOK(t.objects[id], t.log, id) {
      assert ScheduleOK(s.objects[id], s.log, id);
    }
  }

  lemma {:induction false} NeverRun(log: seq<Entry>, id: nat)
    requires forall k :: 0 <= k < |log| ==> log[k].id != id
    ensures LastStamp(log, id) == None && RunsOf(log, id) == 0
  {
    if log != [] { NeverRun(log[..|log| - 1], id); }
  }

  lemma RegisterKeepsLog(s: State, spec: Spec)
    requires LogInv(s) && s.nextId !in s.objects
    ensures LogInv(Register(s, spec))
  {
    var t := Register(s, spec);
    NeverRun(s.log, s.nextId);
    hide LogOK, LastStamp, RunsOf, Strip;
    forall id | id in t.objects ensures ScheduleOK(t.objects[id], t.log, id) {
      assert id != s.nextId ==> ScheduleOK(s.objects[id], s.log, id);
    }
  }

  lemma {:induction false} EvictSame(maxSchedules: nat, s: State)
    ensures var t := Evict(maxSchedules, s); t == s.(order := t.order, dict := t.dict)
    decreases |s.order|
  {
    if |s.order| > maxSchedules { EvictSame(maxSchedules, EvictOldest(s)); }
  }

  predicate Recent(s: State)
  {
    |s.order| < s.nextId && s.order == Span(s.nextId - |s.order|, s.nextId) && s.dict == s.order
  }

  /** Evicting keeps the most recent schedules. */
  lemma {:induction false} EvictShape(maxSchedules: nat, s: State)
    requires Recent(s)
    ensures var t := Evict(maxSchedules, s);
      && |t.order| == (if |s.order| <= maxSchedules then |s.order| else maxSchedules)
      && t.nextId == s.nextId && Recent(t)
    decreases |s.order|
  {
    hide Span;
    if |s.order| > maxSchedules {
      SpanEnds(s.nextId - |s.order|, s.nextId);
      EvictShape(maxSchedules, EvictOldest(s));
    }
  }

  lemma RegisterShape(maxSchedules: nat, s: State, spec: Spec)
    requires RegistryInv(maxSchedules, s)
    ensures var t := Register(s, spec);
      && Recent(t) && |t.order| == |s.order| + 1 && t.nextId == s.nextId + 1
      && forall id :: id in t.objects <==> 1 <= id < t.nextId
  {
    SpanEnds(s.nextId - |s.order|, s.nextId);
    hide Span, Made;
  }

  lemma CreateRegistry(maxSchedules: nat, s: State, spec: Spec)
    requires RegistryInv(maxSchedules, s)
    ensures RegistryInv(maxSchedules, Evict(maxSchedules, Register(s, spec)))
  {
    RegisterShape(maxSchedules, s, spec);
    hide Register, Evict, Span;
    EvictShape(maxSchedules, Register(s, spec));
    EvictSame(maxSchedules, Register(s, spec));
  }

  lemma SameRegistry(maxSchedules: nat, s: State, t: State)
    requires RegistryInv(maxSchedules, s)
    requires t.objects.Keys == s.objects.Keys && t.dict == s.dict && t.order == s.order && t.nextId == s.nextId
    ensures RegistryInv(maxSchedules, t)
  {
    hide Span;
  }

  lemma StepKeepsLog(maxSchedules: nat, s: State, e: Event)
    requires LogInv(s) && s.nextId !in s.objects
    ensures LogInv(Step(maxSchedules, s, e))
  {
    hide LogInv, Register, Run, LookAt, Evict;
    if Enabled(s, e) {
      match e
      case Create(spec) =>
        RegisterKeepsLog(s, spec);
        EvictSame(maxSchedules, Register(s, spec));
        SameLog(Register(s, spec), Step(maxSchedules, s, e));
      case RunNow(id) => RunKeepsLog(s, id, ByHand, s.now);
      case Look(id, drift) => LookKeepsLog(s, id, drift);
      case _ => SameLog(s, Step(maxSchedules, s, e));
    }
  }

  lemma StepKeepsInv(maxSchedules: nat, s: State, e: Event)
    requires Inv(maxSchedules, s)
    ensures Inv(maxSchedules, Step(maxSchedules, s, e))
  {
    hide LogInv, Evict, Span, Judge;
    assert s.nextId !in s.objects;
    StepKeepsLog(maxSchedules, s, e);
    match e
    case Create(spec) => CreateRegistry(maxSchedules, s, spec);
    case _ => SameRegistry(maxSchedules, s, Step(maxSchedules, s, e));
  }

  lemma {:induction false} Reachable(maxSchedules: nat, start: real, es: seq<Event>)
    ensures Inv(maxSchedules, After(maxSchedules, start, es))
  {
    if es != [] {
      hide Inv, Step;
      Reachable(maxSchedules, start, es[..|es| - 1]);
      StepKeepsInv(maxSchedules, After(maxSchedules, start, es[..|es| - 1]), es[|es| - 1]);
    }
  }

  // ---------- Theorems about every run ----------

  predicate InDay(p: Plan)
  {
    p.at.Some? && 0 <= p.at.value < 1440
  }

  /** Entry j of the log is a run of the report that entry k is about. */
  predicate EarlierRun(log: seq<Entry>, j: int, k: nat)
  {
    0 <= j < k < |log| && RunOf(log[j], log[k].id)
  }

  /** The last stamp is the greatest: every earlier run is stamped no later. */
  lemma {:induction false} LastStampIsLatest(log: seq<Entry>, id: nat)
    requires forall i, j :: 0 <= i < j < |log| ==> log[i].stamp <= log[j].stamp
    ensures var last := LastStamp(log, id);
      && (last.None? <==> forall j :: 0 <= j < |log| ==> !RunOf(log[j], id))
      && (last.Some? ==> exists j :: 0 <= j < |log| && RunOf(log[j], id) && log[j].stamp == last.value)
      && (last.Some? ==> forall j :: 0 <= j < |log| && RunOf(log[j], id) ==> log[j].stamp <= last.value)
  {
    if log != [] {
      var before := log[..|log| - 1];
      LastStampIsLatest(before, id);
      assert forall j :: 0 <= j < |before| ==> before[j] == log[j];
      if RunOf(log[|log| - 1], id) { assert log[|log| - 1].stamp == LastStamp(log, id).value; }
    }
  }

  lemma StampsRise(s: State, k: nat)
    requires LogInv(s) && k <= |s.log|
    ensures forall i, j :: 0 <= i < j < k ==> s.log[..k][i].stamp <= s.log[..k][j].stamp
  {
    hide Decided;
    forall i, j | 0 <= i < j < k ensures s.log[..k][i].stamp <= s.log[..k][j].stamp {
      assert EntryOK(s.log, j);
    }
  }

  /** Of the runs before entry k, the last has the greatest stamp. */
  lemma LatestRun(s: State, k: nat)
    requires LogInv(s) && k < |s.log|
    ensures var last := LastStamp(s.log[..k], s.log[k].id);
      && (last.None? ==> forall j :: !EarlierRun(s.log, j, k))
      && (last.Some? ==> exists j :: EarlierRun(s.log, j, k) && s.log[j].stamp == last.value)
      && (last.Some? ==> forall j :: EarlierRun(s.log, j, k) ==> s.log[j].stamp <= last.value)
  {
    var past, id := s.log[..k], s.log[k].id;
    StampsRise(s, k);
    LastStampIsLatest(past, id);
    hide LogInv, LastStamp;
    assert forall j :: 0 <= j < k ==> past[j] == s.log[j];
    var last := LastStamp(past, id);
    if last.Some? {
      var j :| 0 <= j < |past| && RunOf(past[j], id) && past[j].stamp == last.value;
      assert EarlierRun(s.log, j, k);
    }
  }

  lemma DecidedAt(s: State, k: nat)
    requires LogInv(s) && k < |s.log|
    ensures Decided(s.log[..k], s.log[k])
  {
    assert EntryOK(s.log, k);
  }

  lemma LogReachable(maxSchedules: nat, start: real, es: seq<Event>)
    ensures LogInv(After(maxSchedules, start, es))
  {
    Reachable(maxSchedules, start, es);
  }

  /** The loop, looking at a daily report, runs it exactly when its time of that day has come and it has
      not run since, by the loop or by hand: so never before its time, and at the first look after it. */
  lemma DailyRunsIffNotRunSince(maxSchedules: nat, start: real, es: seq<Event>, k: nat)
    requires k < |After(maxSchedules, start, es).log|
    requires var e := After(maxSchedules, start, es).log[k]; Daily(e.plan) && InDay(e.plan) && !e.how.ByHand?
    ensures var log := After(maxSchedules, start, es).log;
      var time := TimeOn(log[k].at, log[k].plan.at.value);
      log[k].how.ByLoop? <==> log[k].at >= time && forall j :: EarlierRun(log, j, k) ==> log[j].stamp < time
  {
    LogReachable(maxSchedules, start, es);
    var s := After(maxSchedules, start, es);
    hide LogInv, After, LastStamp, TimeOn;
    DecidedAt(s, k);
    LatestRun(s, k);
  }

  /** The loop never runs a daily report twice on one calendar day. */
  lemma DailyRunsOncePerDay(maxSchedules: nat, start: real, es: seq<Event>, i: nat, j: nat)
    requires var log := After(maxSchedules, start, es).log; i < j < |log| && log[i].id == log[j].id
    requires var log := After(maxSchedules, start, es).log;
      log[i].how.ByLoop? && log[j].how.ByLoop? && Daily(log[j].plan)
    ensures var log := After(maxSchedules, start, es).log; DayOf(log[i].at) != DayOf(log[j].at)
  {
    LogReachable(maxSchedules, start, es);
    var s := After(maxSchedules, start, es);
    SamePlan(s, i, j);
    StampAfterLook(s, i);
    DecidedAt(s, i);
    DecidedAt(s, j);
    hide LogInv, After, LastStamp;
    DailyRunsIffNotRunSince(maxSchedules, start, es, i);
    DailyRunsIffNotRunSince(maxSchedules, start, es, j);
    assert EarlierRun(s.log, i, j);
  }

  lemma SamePlan(s: State, i: nat, j: nat)
    requires LogInv(s) && i < |s.log| && j < |s.log| && s.log[i].id == s.log[j].id
    ensures s.log[i].plan == s.log[j].plan
  {
  }

  lemma StampAfterLook(s: State, i: nat)
    requires LogInv(s) && i < |s.log|
    ensures s.log[i].at <= s.log[i].stamp
  {
    assert EntryOK(s.log, i);
  }

  function GapOf(p: Plan): real
    requires Every(p)
  {
    p.every.value as real * 60.0
  }

  /** The loop, looking at an interval report, runs it exactly when every run before it, by the loop or by
      hand, is at least the interval in the past. */
  lemma IntervalRunsIffElapsed(maxSchedules: nat, start: real, es: seq<Event>, k: nat)
    requires k < |After(maxSchedules, start, es).log|
    requires var e := After(maxSchedules, start, es).log[k]; Every(e.plan) && !e.how.ByHand?
    ensures var log := After(maxSchedules, start, es).log;
      log[k].how.ByLoop? <==> forall j :: EarlierRun(log, j, k) ==> log[k].at - log[j].stamp >= GapOf(log[k].plan)
  {
    LogReachable(maxSchedules, start, es);
    var s := After(maxSchedules, start, es);
    hide LogInv, After, LastStamp, GapOf;
    DecidedAt(s, k);
    LatestRun(s, k);
    JudgeInterval(s.log[..k], s.log[k]);
  }

  lemma JudgeInterval(past: seq<Entry>, e: Entry)
    requires Decided(past, e) && Every(e.plan) && !e.how.ByHand?
    ensures var last := LastStamp(past, e.id); e.how.ByLoop? <==> last.None? || last.value <= e.at - GapOf(e.plan)
  {
    hide LastStamp;
  }

  /** So the loop starts an interval report no sooner than its interval after any earlier run of it. */
  lemma IntervalRunsAreSpaced(maxSchedules: nat, start: real, es: seq<Event>, i: nat, j: nat)
    requires var log := After(maxSchedules, start, es).log;
      EarlierRun(log, i, j) && log[j].how.ByLoop? && Every(log[j].plan)
    ensures var log := After(maxSchedules, start, es).log; log[j].at - log[i].stamp >= GapOf(log[j].plan)
  {
    hide After;
    IntervalRunsIffElapsed(maxSchedules, start, es, j);
  }

  /** The scheduler loop is alive exactly while it has not looked at a daily report whose minute is not in
      the day: one such report ends the loop for all of them. */
  lemma LoopAliveIffTimesInDay(maxSchedules: nat, start: real, es: seq<Event>)
    ensures var s := After(maxSchedules, start, es);
      s.alive <==>
      forall k :: 0 <= k < |s.log| && !s.log[k].how.ByHand? && Daily(s.log[k].plan) ==> InDay(s.log[k].plan)
  {
    LogReachable(maxSchedules, start, es);
    var s := After(maxSchedules, start, es);
    forall k | 0 <= k < |s.log|
      ensures s.log[k].how.Crashed? <==> !s.log[k].how.ByHand? && Daily(s.log[k].plan) && !InDay(s.log[k].plan)
    {
      DecidedAt(s, k);
    }
    hide LogOK, TimesOK, KnownOK, SchedulesOK, After;
  }

  lemma AfterStep(maxSchedules: nat, start: real, es: seq<Event>, e: Event)
    ensures After(maxSchedules, start, es + [e]) == Step(maxSchedules, After(maxSchedules, start, es), e)
  {
    assert (es + [e])[..|es|] == es;
  }

  /** A minute that the tool's own parser can produce, or none. */
  predicate ProperMinute(p: Plan)
  {
    p.at.Some? ==> InDay(p)
  }

  predicate ProperRequests(es: seq<Event>)
  {
    forall i :: 0 <= i < |es| && es[i].Create? ==> ProperMinute(es[i].spec.plan)
  }

  predicate ProperPlans(s: State)
  {
    forall id :: id in s.objects ==> ProperMinute(s.objects[id].plan)
  }

  lemma StepKeepsPlans(maxSchedules: nat, s: State, e: Event)
    requires ProperPlans(s) && (e.Create? ==> ProperMinute(e.spec.plan))
    ensures ProperPlans(Step(maxSchedules, s, e)) && (s.alive ==> Step(maxSchedules, s, e).alive)
  {
    hide Strip, Evict, TimeOn;
    if e.Create? { EvictSame(maxSchedules, Register(s, e.spec)); }
  }

  /** While every schedule is asked for at a minute of the day, as the tool's parser makes sure, the loop
      stays alive. */
  lemma {:induction false} ProperMinutesKeepLoopAlive(maxSchedules: nat, start: real, es: seq<Event>)
    requires ProperRequests(es)
    ensures After(maxSchedules, start, es).alive && ProperPlans(After(maxSchedules, start, es))
  {
    if es != [] {
      hide Step, ProperPlans, ProperMinute;
      ProperMinutesKeepLoopAlive(maxSchedules, start, es[..|es| - 1]);
      StepKeepsPlans(maxSchedules, After(maxSchedules, start, es[..|es| - 1]), es[|es| - 1]);
    } else {
      assert After(maxSchedules, start, []) == Init(start);
    }
  }

  lemma BadLook(maxSchedules: nat, start: real, spec: Spec)
    requires maxSchedules > 0 && Daily(spec.plan) && !InDay(spec.plan)
    ensures !Step(maxSchedules, Step(maxSchedules, Init(start), Create(spec)), Look(1, 0.0)).alive
  {
    hide Strip;
    var t := Register(Init(start), spec);
    assert Evict(maxSchedules, t) == t;
  }

  /** A minute from outside the day, which only an edited state file can hold, ends the loop at its first look. */
  lemma BadMinuteEndsLoop(maxSchedules: nat, start: real, spec: Spec)
    requires maxSchedules > 0 && Daily(spec.plan) && !InDay(spec.plan)
    ensures !After(maxSchedules, start, [Create(spec), Look(1, 0.0)]).alive
  {
    BadLook(maxSchedules, start, spec);
    NothingYet(maxSchedules, start);
    hide Step, After, Init;
    AfterStep(maxSchedules, start, [], Create(spec));
    AfterStep(maxSchedules, start, [Create(spec)], Look(1, 0.0));
    assert [] + [Create(spec)] == [Create(spec)];
    assert [Create(spec)] + [Look(1, 0.0)] == [Create(spec), Look(1, 0.0)];
  }

  lemma NothingYet(maxSchedules: nat, start: real)
    ensures After(maxSchedules, start, []) == Init(start)
  {
  }

  /** A report's run count and last run are what the log says. */
  lemma CountIsRuns(maxSchedules: nat, start: real, es: seq<Event>, id: nat)
    requires id in After(maxSchedules, start, es).objects
    ensures var s := After(maxSchedules, start, es);
      s.objects[id].runs == RunsOf(s.log, id) && s.objects[id].lastRun == LastStamp(s.log, id)
  {
    LogReachable(maxSchedules, start, es);
    var s := After(maxSchedules, start, es);
    assert ScheduleOK(s.objects[id], s.log, id);
  }

  /** The registry is the most recent schedules, at most `maxSchedules` of them, in order of creation. */
  lemma RegistryHoldsNewest(maxSchedules: nat, start: real, es: seq<Event>)
    ensures var s := After(maxSchedules, start, es);
      1 <= s.nextId && s.dict == s.order == LastN(Span(1, s.nextId), maxSchedules)
  {
    Reachable(maxSchedules, start, es);
    var s := After(maxSchedules, start, es);
    hide LogInv, After;
    NewestSpan(s.nextId, maxSchedules, |s.order|);
  }

  // ---------- What is persisted ----------

  function SpecOf(r: Schedule): Spec
  {
    Spec(r.name, r.query, r.plan)
  }

  predicate IsActive(r: Schedule)
  {
    r.active
  }

  /** The active schedules among `ids`, in that order. */
  function ExportOf(objects: map<nat, Schedule>, ids: seq<nat>): seq<Spec>
  {
    ActiveSpecs(objects, ids, IsActive, SpecOf)
  }

  function Exported(s: State): seq<Spec>
  {
    ExportOf(s.objects, s.dict)
  }

  datatype ReportKey = ReportKey(name: string, query: string, plan: Plan)

  function KeyOf(spec: Spec): ReportKey
  {
    ReportKey(Lower(Strip(spec.name)), spec.query, spec.plan)
  }

  function CreateAll(maxSchedules: nat, s: State, specs: seq<Spec>): State
  {
    if specs == [] then s else
    Step(maxSchedules, CreateAll(maxSchedules, s, specs[..|specs| - 1]), Create(specs[|specs| - 1]))
  }

  // ---------- The scheduler object ----------

  class ReportScheduler {
    const maxSchedules: nat
    var now: real
    var objects: map<nat, Schedule>
    var dict: seq<nat>
    var order: seq<nat>
    var nextId: nat
    var alive: bool
    ghost var log: seq<Entry>

    ghost function View(): State
      reads this
    {
      State(now, objects, dict, order, nextId, alive, log)
    }

    constructor (maxSchedules: nat, start: real)
      ensures this.maxSchedules == maxSchedules && View() == After(maxSchedules, start, [])
    {
      this.maxSchedules := maxSchedules;
      now, objects, dict, order, nextId, alive, log := start, map[], [], [], 1, true, [];
    }

    method CreateSchedule(spec: Spec) returns (id: nat)
      modifies this
      ensures View() == Step(maxSchedules, old(View()), Create(spec)) && id == old(nextId)
    {
      hide Strip;
      id := nextId;
      var plan := spec.plan;
      if plan.at.None? && !Every(plan) { plan := plan.(at := Some(480)); }
      var name := Strip(spec.name);
      objects := objects[id := Schedule(if name == "" then "Report" else name, Strip(spec.query), plan, true, None, 0)];
      nextId := nextId + 1;
      dict := dict + [id];
      order := order + [id];
      ghost var registered := View();
      assert registered == Register(old(View()), spec);
      while |order| > maxSchedules
        invariant Evict(maxSchedules, View()) == Evict(maxSchedules, registered)
        decreases |order|
      {
        var oldest := order[0];
        order := order[1..];
        dict := Without(dict, oldest);
      }
    }

    method StopSchedule(id: nat) returns (known: bool)
      modifies this`objects
      ensures View() == Step(maxSchedules, old(View()), Stop(id)) && (known <==> Known(old(View()), id))
    {
      if !(id in dict && id in objects) { return false; }
      objects := objects[id := objects[id].(active := false)];
      return true;
    }

    /** The start of `_run`, up to its first await. */
    method BeginRun(id: nat, how: How, stamp: real)
      requires id in objects
      modifies this`now, this`objects, this`log
      ensures View() == Run(old(View()), id, how, stamp)
    {
      var report := objects[id];
      log := log + [Entry(id, report.plan, how, now, stamp)];
      now := stamp;
      objects := objects[id := report.(lastRun := Some(stamp), runs := report.runs + 1)];
    }

    method RunByHand(id: nat) returns (known: bool)
      modifies this`now, this`objects, this`log
      ensures View() == Step(maxSchedules, old(View()), RunNow(id)) && (known <==> Known(old(View()), id))
    {
      if !(id in dict && id in objects) { return false; }
      BeginRun(id, ByHand, now);
      return true;
    }

    /** One turn of the loop over the schedules. */
    method LoopLooks(id: nat, drift: real)
      requires alive && drift >= 0.0
      modifies this`now, this`objects, this`log, this`alive
      ensures View() == Step(maxSchedules, old(View()), Look(id, drift))
    {
      if !(id in dict && id in objects) { return; }
      var report := objects[id];
      if !report.active { return; }
      hide Judge;
      match Judge(report, now)
      case Due => BeginRun(id, ByLoop, now + drift);
      case NotDue => log := log + [Entry(id, report.plan, Idle, now, now)];
      case Raises =>
        alive := false;
        log := log + [Entry(id, report.plan, Crashed, now, now)];
    }

    method Export() returns (specs: seq<Spec>)
      ensures specs == Exported(View())
    {
      specs := [];
      for i := 0 to |dict|
        invariant specs == ExportOf(objects, dict[..i])
      {
        assert dict[..i + 1][..i] == dict[..i];
        var id := dict[i];
        if id in objects && objects[id].active { specs := specs + [SpecOf(objects[id])]; }
      }
      assert dict[..|dict|] == dict;
    }

    /** Creates the first schedule of each key. */
    method Restore(specs: seq<Spec>)
      modifies this
      ensures View() == CreateAll(maxSchedules, old(View()), Firsts(specs, KeyOf))
    {
      hide Step, Keys, Span, KeyOf;
      var seen := {};
      assert specs[..0] == [];
      NoKeys(KeyOf);
      for i := 0 to |specs|
        invariant seen == Keys(specs[..i], KeyOf)
        invariant View() == CreateAll(maxSchedules, old(View()), Firsts(specs[..i], KeyOf))
      {
        assert specs[..i + 1] == specs[..i] + [specs[i]];
        KeysSnoc(specs[..i], specs[i], KeyOf);
        FirstsSnoc(specs[..i], specs[i], KeyOf);
        var key := KeyOf(specs[i]);
        if key in seen { continue; }
        seen := seen + {key};
        ghost var kept := Firsts(specs[..i], KeyOf);
        assert (kept + [specs[i]])[..|kept|] == kept;
        var id := CreateSchedule(specs[i]);
      }
      assert specs[..|specs|] == specs;
    }

    method TimePasses(elapsed: real)
      requires Enabled(View(), Tick(elapsed))
      modifies this`now
      ensures View() == Step(maxSchedules, old(View()), Tick(elapsed))
    {
      now := now + elapsed;
    }
  }
}
