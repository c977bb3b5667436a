/**
 The alarm manager: watched alarms that ring, latch, are acknowledged, stand down and are evicted.

 Every alarm has one polling task. A poll is cut at its awaits: it starts while the alarm is active and
 may end any time later. Its second half does not look at `active` again; what keeps a stopped alarm
 silent is that stopping cancels the task, so a suspended poll only gets a CancelledError at its await.
 A disabled event does nothing, so every sequence of events is a run.
 The log of firings, acknowledgements, stand-downs and stops is the reference for all theorems.
 */
module Alarms {
  import opened Common
  import opened FirstPerKey
  import opened Text

  datatype Ring = Siren | Pulse | Chime | Silent

  /** Siren and pulse alarms latch: they stay triggered until acknowledged or stood down. */
  predicate Latches(r: Ring)
  {
    r.Siren? || r.Pulse?
  }

  /** An unknown ring level is raised to the siren. */
  function RingOf(level: string): Ring
  {
    if level == "pulse" then Pulse else if level == "chime" then Chime else
    if level == "silent" then Silent else Siren
  }

  function RingName(r: Ring): string
  {
    match r
    case Siren => "siren"
    case Pulse => "pulse"
    case Chime => "chime"
    case Silent => "silent"
  }

  /** What the operator asks for, and what is persisted. */
  datatype Spec = Spec(name: string, target: string, cameras: seq<string>,
                       after: Option<int>, before: Option<int>, ring: string)

  datatype Alarm = Alarm(name: string, target: string, cameras: seq<string>, after: Option<int>,
                         before: Option<int>, ring: Ring, active: bool, triggered: bool,
                         lastAck: real, lastTriggered: Option<real>, count: nat)

  /** One element of the events feed. */
  datatype Note = Note(number: nat, alarm: nat, camera: string, at: real, ring: Ring)

  datatype Kind = Fired | Acked | StoodDown | Stopped

  datatype Entry = Entry(kind: Kind, id: nat, at: real, ring: Ring)

  datatype Config = Config(rearm: real, pulse: real, maxAlarms: nat)

  /** `objects` holds every alarm ever made, since a poll keeps its alarm when the manager forgets it;
      `dict` is the keys of the manager's dict, `polling` the camera each suspended poll looks at, and
      `cancelled` the alarms whose task was cancelled. */
  datatype State = State(now: real, objects: map<nat, Alarm>, dict: seq<nat>, order: seq<nat>,
                         tasks: set<nat>, cancelled: set<nat>, polling: map<nat, string>, notes: seq<Note>, nextId: nat,
                         nextNoteId: nat, log: seq<Entry>)

  datatype Event =
    | Create(spec: Spec)
    | Stop(alarm: nat)
    | Acknowledge(which: Option<nat>)
    | PollStarts(poller: nat, camera: string)
    | PollEnds(finisher: nat, present: bool)
    | PollFails(failer: nat)
    | LoopStandsDown(stander: nat)
    | Tick(elapsed: real)

  function Init(start: real): State
  {
    State(start, map[], [], [], {}, {}, map[], [], 1, 1, [])
  }

  // ---------- One atomic step ----------

  function Made(spec: Spec): Alarm
  {
    var name := Strip(spec.name);
    Alarm(if name == "" then "Alarm" else name, Lower(Strip(spec.target)), spec.cameras, spec.after, spec.before,
      RingOf(spec.ring), true, false, 0.0, None, 0)
  }

  function Halt(s: State, id: nat): State
    requires id in s.objects
  {
    var a := s.objects[id];
    s.(objects := s.objects[id := a.(active := false, triggered := false)], tasks := s.tasks - {id},
       cancelled := if id in s.tasks then s.cancelled + {id} else s.cancelled,
       log := s.log + [Entry(Stopped, id, s.now, a.ring)])
  }

  function HaltKnown(s: State, id: nat): State
  {
    if id in s.dict && id in s.objects then Halt(s, id) else s
  }

  function EvictOldest(s: State): State
    requires s.order != []
  {
    var oldest := s.order[0];
    var t := HaltKnown(s.(order := s.order[1..]), oldest);
    t.(dict := Without(t.dict, oldest))
  }

  function Evict(maxAlarms: nat, s: State): State
    decreases |s.order|
  {
    if |s.order| > maxAlarms then Evict(maxAlarms, EvictOldest(s)) else s
  }

  function Register(s: State, spec: Spec): State
  {
    s.(objects := s.objects[s.nextId := Made(spec)], dict := s.dict + [s.nextId], order := s.order + [s.nextId],
       nextId := s.nextId + 1)
  }

  function Arm(c: Config, s: State, spec: Spec): State
  {
    var t := Evict(c.maxAlarms, Register(s, spec));
    t.(tasks := t.tasks + {s.nextId})
  }

  predicate Rings(s: State, id: nat)
  {
    id in s.objects && s.objects[id].triggered
  }

  function Silence(s: State, id: nat, kind: Kind): State
    requires id in s.objects
  {
    var a := s.objects[id];
    s.(objects := s.objects[id := a.(triggered := false, lastAck := s.now)],
       log := s.log + [Entry(kind, id, s.now, a.ring)])
  }

  function SilenceMatching(s: State, ids: seq<nat>, which: Option<nat>): State
  {
    if ids == [] then s else
    var before, id := SilenceMatching(s, ids[..|ids| - 1], which), ids[|ids| - 1];
    if (which.None? || which.value == id) && Rings(before, id) then Silence(before, id, Acked) else before
  }

  function Max(x: real, y: real): real
  {
    if x >= y then x else y
  }

  predicate MayFire(c: Config, a: Alarm, now: real)
  {
    if Latches(a.ring) then !a.triggered && now - a.lastAck >= c.rearm
    else now - Max(a.lastAck, if a.lastTriggered.Some? then a.lastTriggered.value else 0.0) >= c.rearm
  }

  function Fire(s: State, id: nat, camera: string): State
    requires id in s.objects
  {
    var a := s.objects[id];
    s.(objects := s.objects[id := a.(triggered := a.triggered || Latches(a.ring), lastTriggered := Some(s.now),
                                     count := a.count + 1)],
       notes := s.notes + [Note(s.nextNoteId, id, camera, s.now, a.ring)],
       nextNoteId := s.nextNoteId + 1,
       log := s.log + [Entry(Fired, id, s.now, a.ring)])
  }

  function EndPoll(c: Config, s: State, id: nat, present: bool): State
    requires id in s.polling
  {
    var t := s.(polling := s.polling - {id});
    if present && id in s.objects && MayFire(c, s.objects[id], s.now) then Fire(t, id, s.polling[id]) else t
  }

  predicate StandsDown(c: Config, a: Alarm, now: real)
  {
    a.ring.Pulse? && a.triggered && a.lastTriggered.Some? && now - a.lastTriggered.value >= c.pulse
  }

  predicate Enabled(s: State, e: Event)
  {
    match e
    case Create(_) => true
    case Stop(_) => true
    case Acknowledge(_) => true
    case PollStarts(id, camera) =>
      id in s.tasks && id !in s.polling && id in s.objects && s.objects[id].active && camera in s.objects[id].cameras
    case PollEnds(id, _) => id in s.polling && id !in s.cancelled
    case PollFails(id) => id in s.polling
    case LoopStandsDown(id) => id in s.objects && id !in s.polling && id !in s.cancelled
    case Tick(elapsed) => elapsed >= 0.0
  }

  function Step(c: Config, s: State, e: Event): State
  {
    if !Enabled(s, e) then s else
    match e
    case Create(spec) => Arm(c, s, spec)
    case Stop(id) => HaltKnown(s, id)
    case Acknowledge(which) => SilenceMatching(s, s.dict, which)
    case PollStarts(id, camera) => s.(polling := s.polling[id := camera])
    case PollEnds(id, present) => EndPoll(c, s, id, present)
    case PollFails(id) => s.(polling := s.polling - {id})
    case LoopStandsDown(id) => if StandsDown(c, s.objects[id], s.now) then Silence(s, id, StoodDown) else s
    case Tick(elapsed) => s.(now := s.now + elapsed)
  }

  function After(c: Config, start: real, es: seq<Event>): State
  {
    if es == [] then Init(start) else Step(c, After(c, start, es[..|es| - 1]), es[|es| - 1])
  }

  // ---------- Reading the log ----------

  const ANY := {Fired, Acked, StoodDown, Stopped}
  const QUIET := {Acked, StoodDown}

  /** The position of the last entry about `id` of one of the `kinds`, or -1. */
  function LastOf(log: seq<Entry>, id: nat, kinds: set<Kind>): (k: int)
    ensures -1 <= k < |log|
    ensures k >= 0 ==> log[k].id == id && log[k].kind in kinds
    ensures forall j :: k < j < |log| ==> !(log[j].id == id && log[j].kind in kinds)
  {
    if log == [] then -1 else
    var e := log[|log| - 1];
    if e.id == id && e.kind in kinds then |log| - 1 else LastOf(log[..|log| - 1], id, kinds)
  }

  /** The last thing that happened to the alarm is that it fired, and it is of a kind that latches. */
  predicate Ringing(log: seq<Entry>, id: nat)
  {
    var k := LastOf(log, id, ANY);
    k >= 0 && log[k].kind.Fired? && Latches(log[k].ring)
  }

  function QuietSince(log: seq<Entry>, id: nat): real
  {
    var k := LastOf(log, id, QUIET);
    if k < 0 then 0.0 else log[k].at
  }

  function LastFiring(log: seq<Entry>, id: nat): Option<real>
  {
    var k := LastOf(log, id, {Fired});
    if k < 0 then None else Some(log[k].at)
  }

  predicate WasStopped(log: seq<Entry>, id: nat)
  {
    LastOf(log, id, {Stopped}) >= 0
  }

  predicate ElapsedSince(t: Option<real>, now: real, gap: real)
  {
    t.Some? ==> now - t.value >= gap
  }

  /** What had to be true of the past for this entry to be logged. */
  predicate Justified(c: Config, past: seq<Entry>, e: Entry)
  {
    match e.kind
    case Fired =>
      && !WasStopped(past, e.id)
      && (Latches(e.ring) ==> !Ringing(past, e.id) && e.at - QuietSince(past, e.id) >= c.rearm)
      && (!Latches(e.ring) ==> ElapsedSince(LastFiring(past, e.id), e.at, c.rearm))
    case Acked => Ringing(past, e.id)
    case StoodDown =>
      e.ring.Pulse? && Ringing(past, e.id) && ElapsedSince(LastFiring(past, e.id), e.at, c.pulse)
    case Stopped => true
  }

  predicate EntryOK(c: Config, log: seq<Entry>, k: nat)
    requires k < |log|
  {
    Justified(c, log[..k], log[k])
  }

  predicate LogOK(c: Config, log: seq<Entry>)
  {
    forall k :: 0 <= k < |log| ==> EntryOK(c, log, k)
  }

  predicate TimesOK(log: seq<Entry>, now: real)
  {
    (forall k :: 0 <= k < |log| ==> log[k].at <= now) && forall i, j :: 0 <= i < j < |log| ==> log[i].at <= log[j].at
  }

  predicate KnownOK(objects: map<nat, Alarm>, log: seq<Entry>)
  {
    forall k :: 0 <= k < |log| ==> log[k].id in objects && log[k].ring == objects[log[k].id].ring
  }

  /** An alarm's flags and times are what the log says. */
  predicate AlarmOK(a: Alarm, log: seq<Entry>, id: nat)
  {
    && (a.triggered <==> Ringing(log, id))
    && (a.active <==> !WasStopped(log, id))
    && a.lastAck == QuietSince(log, id)
    && a.lastTriggered == LastFiring(log, id)
  }

  predicate AlarmsOK(objects: map<nat, Alarm>, log: seq<Entry>)
  {
    forall id :: id in objects ==> AlarmOK(objects[id], log, id)
  }

  /** A suspended poll is cancelled, or its alarm is active and has its task. */
  predicate PollOK(s: State, id: nat)
  {
    id in s.objects && (id in s.cancelled || (id in s.tasks && s.objects[id].active))
  }

  predicate PollsOK(s: State)
  {
    forall id :: id in s.polling ==> PollOK(s, id)
  }

  /** What the log records and the alarms' own fields. */
  predicate LogInv(c: Config, s: State)
  {
    && LogOK(c, s.log) && TimesOK(s.log, s.now) && KnownOK(s.objects, s.log)
    && AlarmsOK(s.objects, s.log)
  }

  function Firings(log: seq<Entry>): seq<Entry>
  {
    if log == [] then [] else
    var before, e := Firings(log[..|log| - 1]), log[|log| - 1];
    if e.kind.Fired? then before + [e] else before
  }

  function NotesFor(notes: seq<Note>, id: nat): nat
  {
    if notes == [] then 0 else
    NotesFor(notes[..|notes| - 1], id) + (if notes[|notes| - 1].alarm == id then 1 else 0)
  }

  /** The feed is the firings of the log, numbered from one. */
  predicate NotesOK(notes: seq<Note>, log: seq<Entry>)
  {
    |notes| == |Firings(log)| && forall k :: 0 <= k < |notes| ==> NoteOK(notes[k], k, Firings(log)[k])
  }

  predicate NoteOK(n: Note, k: nat, e: Entry)
  {
    n.number == k + 1 && n.alarm == e.id && n.at == e.at && n.ring == e.ring
  }

  predicate CountsOK(objects: map<nat, Alarm>, notes: seq<Note>)
  {
    forall id :: id in objects ==> objects[id].count == NotesFor(notes, id)
  }

  predicate FeedInv(s: State)
  {
    && NotesOK(s.notes, s.log) && s.nextNoteId == |s.notes| + 1 && CountsOK(s.objects, s.notes)
    && forall k :: 0 <= k < |s.notes| ==> s.notes[k].alarm in s.objects
  }

  ghost predicate NumbersOK(s: State)
  {
    1 <= s.nextId && forall id :: id in s.objects <==> 1 <= id < s.nextId
  }

  /** The dict and the order list hold the same most recent ids. */
  predicate Recent(s: State)
  {
    |s.order| < s.nextId && s.order == Span(s.nextId - |s.order|, s.nextId) && s.dict == s.order
  }

  /** Forgotten alarms are stopped; an alarm has a task exactly while it is active (unless no alarm may
      be kept at all). */
  ghost predicate TasksOK(maxAlarms: nat, s: State)
  {
    && (forall id :: id in s.objects && id !in s.dict ==> !s.objects[id].active)
    && (maxAlarms > 0 ==> forall id :: id in s.tasks <==> id in s.objects && s.objects[id].active)
  }

  ghost predicate RegistryInv(c: Config, s: State)
  {
    NumbersOK(s) && Recent(s) && TasksOK(c.maxAlarms, s) &&
    |s.order| == if s.nextId - 1 <= c.maxAlarms then s.nextId - 1 else c.maxAlarms
  }

  // ---------- Appending one entry ----------

  lemma LastOfSnoc(log: seq<Entry>, e: Entry, id: nat, kinds: set<Kind>)
    ensures LastOf(log + [e], id, kinds) == if e.id == id && e.kind in kinds then |log| else LastOf(log, id, kinds)
  {
    assert (log + [e])[..|log|] == log;
  }

  lemma RingingSnoc(log: seq<Entry>, e: Entry, id: nat)
    ensures Ringing(log + [e], id) <==>
      if e.id == id then e.kind.Fired? && Latches(e.ring) else Ringing(log, id)
  {
    hide LastOf;
    LastOfSnoc(log, e, id, ANY);
  }

  lemma QuietSnoc(log: seq<Entry>, e: Entry, id: nat)
    ensures QuietSince(log + [e], id) == if e.id == id && e.kind in QUIET then e.at else QuietSince(log, id)
  {
    hide LastOf;
    LastOfSnoc(log, e, id, QUIET);
  }

  lemma FiringSnoc(log: seq<Entry>, e: Entry, id: nat)
    ensures LastFiring(log + [e], id) == if e.id == id && e.kind.Fired? then Some(e.at) else LastFiring(log, id)
  {
    hide LastOf;
    LastOfSnoc(log, e, id, {Fired});
  }

  lemma StoppedSnoc(log: seq<Entry>, e: Entry, id: nat)
    ensures WasStopped(log + [e], id) <==> (e.id == id && e.kind.Stopped?) || WasStopped(log, id)
  {
    hide LastOf;
    LastOfSnoc(log, e, id, {Stopped});
  }

  lemma LogSnoc(c: Config, log: seq<Entry>, e: Entry)
    requires LogOK(c, log) && Justified(c, log, e)
    ensures LogOK(c, log + [e])
  {
    hide Justified;
    var longer := log + [e];
    forall k | 0 <= k < |longer| ensures EntryOK(c, longer, k) {
      if k < |log| {
        assert EntryOK(c, log, k);
        assert longer[..k] == log[..k];
      } else {
        assert longer[..k] == log;
      }
    }
  }

  /** The record of the alarm an entry is about, before and after it. */
  predicate Follows(a: Alarm, b: Alarm, e: Entry)
  {
    && b.ring == a.ring == e.ring
    && (b.triggered <==> e.kind.Fired? && Latches(e.ring))
    && (b.active <==> a.active && !e.kind.Stopped?)
    && b.lastAck == (if e.kind in QUIET then e.at else a.lastAck)
    && b.lastTriggered == (if e.kind.Fired? then Some(e.at) else a.lastTriggered)
  }

  lemma AlarmSnoc(a: Alarm, b: Alarm, log: seq<Entry>, e: Entry)
    requires AlarmOK(a, log, e.id) && Follows(a, b, e)
    ensures AlarmOK(b, log + [e], e.id)
  {
    hide Ringing, WasStopped, QuietSince, LastFiring;
    RingingSnoc(log, e, e.id);
    StoppedSnoc(log, e, e.id);
    QuietSnoc(log, e, e.id);
    FiringSnoc(log, e, e.id);
  }

  lemma OtherAlarmSnoc(a: Alarm, log: seq<Entry>, e: Entry, id: nat)
    requires AlarmOK(a, log, id) && e.id != id
    ensures AlarmOK(a, log + [e], id)
  {
    hide Ringing, WasStopped, QuietSince, LastFiring;
    RingingSnoc(log, e, id);
    StoppedSnoc(log, e, id);
    QuietSnoc(log, e, id);
    FiringSnoc(log, e, id);
  }

  lemma AlarmsSnoc(objects: map<nat, Alarm>, b: Alarm, log: seq<Entry>, e: Entry)
    requires AlarmsOK(objects, log) && e.id in objects && Follows(objects[e.id], b, e)
    ensures AlarmsOK(objects[e.id := b], log + [e])
  {
    hide AlarmOK, Follows;
    forall id | id in objects ensures AlarmOK(objects[e.id := b][id], log + [e], id) {
      if id == e.id {
        AlarmSnoc(objects[id], b, log, e);
      } else {
        OtherAlarmSnoc(objects[id], log, e, id);
      }
    }
  }

  lemma KnownSnoc(objects: map<nat, Alarm>, b: Alarm, log: seq<Entry>, e: Entry)
    requires KnownOK(objects, log) && e.id in objects && Follows(objects[e.id], b, e)
    ensures KnownOK(objects[e.id := b], log + [e])
  {
  }

  lemma TimesSnoc(log: seq<Entry>, e: Entry)
    requires TimesOK(log, e.at)
    ensures TimesOK(log + [e], e.at)
  {
  }

  /** One entry, with the change of its alarm's record, keeps everything the log promises. */
  lemma LogsOne(c: Config, s: State, t: State, b: Alarm, e: Entry)
    requires LogInv(c, s) && e.id in s.objects && e.at == s.now && Justified(c, s.log, e)
    requires Follows(s.objects[e.id], b, e)
    requires t.objects == s.objects[e.id := b] && t.log == s.log + [e] && t.now == s.now
    ensures LogInv(c, t)
  {
    hide LogOK, TimesOK, KnownOK, AlarmsOK, Justified, Follows;
    LogSnoc(c, s.log, e);
    TimesSnoc(s.log, e);
    KnownSnoc(s.objects, b, s.log, e);
    AlarmsSnoc(s.objects, b, s.log, e);
  }

  // ---------- Every step keeps what the log says ----------

  lemma HaltKeepsLog(c: Config, s: State, id: nat)
    requires LogInv(c, s) && id in s.objects
    ensures LogInv(c, Halt(s, id))
  {
    var a := s.objects[id];
    hide LogInv;
    LogsOne(c, s, Halt(s, id), a.(active := false, triggered := false), Entry(Stopped, id, s.now, a.ring));
  }

  lemma SilenceKeepsLog(c: Config, s: State, id: nat, kind: Kind)
    requires LogInv(c, s) && id in s.objects && kind in QUIET
    requires Justified(c, s.log, Entry(kind, id, s.now, s.objects[id].ring))
    ensures LogInv(c, Silence(s, id, kind))
  {
    var a := s.objects[id];
    hide LogInv, Justified;
    LogsOne(c, s, Silence(s, id, kind), a.(triggered := false, lastAck := s.now), Entry(kind, id, s.now, a.ring));
  }

  lemma TriggeredIsRinging(c: Config, s: State, id: nat)
    requires LogInv(c, s) && id in s.objects
    ensures AlarmOK(s.objects[id], s.log, id)
  {
  }

  lemma AckKeepsLog(c: Config, s: State, id: nat)
    requires LogInv(c, s) && Rings(s, id)
    ensures LogInv(c, Silence(s, id, Acked))
  {
    hide LogInv, Ringing;
    TriggeredIsRinging(c, s, id);
    SilenceKeepsLog(c, s, id, Acked);
  }

  lemma StandDownKeepsLog(c: Config, s: State, id: nat)
    requires LogInv(c, s) && id in s.objects && StandsDown(c, s.objects[id], s.now)
    ensures LogInv(c, Silence(s, id, StoodDown))
  {
    hide LogInv, Ringing, LastFiring;
    TriggeredIsRinging(c, s, id);
    SilenceKeepsLog(c, s, id, StoodDown);
  }

  lemma {:induction false} SilenceMatchingKeepsLog(c: Config, s: State, ids: seq<nat>, which: Option<nat>)
    requires LogInv(c, s)
    ensures LogInv(c, SilenceMatching(s, ids, which))
    decreases |ids|
  {
    if ids != [] {
      hide LogInv;
      SilenceMatchingKeepsLog(c, s, ids[..|ids| - 1], which);
      var before, id := SilenceMatching(s, ids[..|ids| - 1], which), ids[|ids| - 1];
      if Rings(before, id) { AckKeepsLog(c, before, id); }
    }
  }

  lemma FireIsJustified(c: Config, s: State, id: nat)
    requires LogInv(c, s) && id in s.objects && s.objects[id].active && MayFire(c, s.objects[id], s.now)
    ensures Justified(c, s.log, Entry(Fired, id, s.now, s.objects[id].ring))
    ensures Latches(s.objects[id].ring) || !s.objects[id].triggered
  {
    assert AlarmOK(s.objects[id], s.log, id);
    hide LogOK, KnownOK, AlarmsOK, Ringing, QuietSince, LastFiring, WasStopped;
  }

  lemma FireKeepsLog(c: Config, s: State, id: nat, camera: string)
    requires LogInv(c, s) && id in s.objects
    requires Justified(c, s.log, Entry(Fired, id, s.now, s.objects[id].ring))
    requires Latches(s.objects[id].ring) || !s.objects[id].triggered
    ensures LogInv(c, Fire(s, id, camera))
  {
    hide LogInv, Justified;
    var a := s.objects[id];
    var b := a.(triggered := a.triggered || Latches(a.ring), lastTriggered := Some(s.now), count := a.count + 1);
    LogsOne(c, s, Fire(s, id, camera), b, Entry(Fired, id, s.now, a.ring));
  }

  lemma EndPollKeepsLog(c: Config, s: State, id: nat, present: bool)
    requires LogInv(c, s) && PollsOK(s) && id in s.polling && id !in s.cancelled
    ensures LogInv(c, EndPoll(c, s, id, present))
  {
    hide LogInv, Justified, MayFire, Fire;
    var t := s.(polling := s.polling - {id});
    assert PollOK(s, id);
    ForgetKeepsLog(c, s, t);
    if present && id in s.objects && MayFire(c, s.objects[id], s.now) {
      FireIsJustified(c, s, id);
      FireKeepsLog(c, t, id, s.polling[id]);
    }
  }

  lemma ForgetKeepsLog(c: Config, s: State, t: State)
    requires LogInv(c, s) && t.log == s.log && t.objects == s.objects && s.now <= t.now
    ensures LogInv(c, t)
  {
  }

  lemma HaltKnownKeepsLog(c: Config, s: State, id: nat)
    requires LogInv(c, s)
    ensures LogInv(c, HaltKnown(s, id))
  {
    hide LogInv;
    if id in s.dict && id in s.objects { HaltKeepsLog(c, s, id); }
  }

  lemma {:induction false} EvictKeepsLog(c: Config, maxAlarms: nat, s: State)
    requires LogInv(c, s)
    ensures LogInv(c, Evict(maxAlarms, s))
    decreases |s.order|
  {
    hide LogInv;
    if |s.order| > maxAlarms {
      var t := s.(order := s.order[1..]);
      ForgetKeepsLog(c, s, t);
      HaltKnownKeepsLog(c, t, s.order[0]);
      ForgetKeepsLog(c, HaltKnown(t, s.order[0]), EvictOldest(s));
      EvictKeepsLog(c, maxAlarms, EvictOldest(s));
    }
  }

  /** Nothing was logged about an id not yet given out. */
  lemma UnknownIsQuiet(log: seq<Entry>, id: nat)
    requires forall k :: 0 <= k < |log| ==> log[k].id != id
    ensures !Ringing(log, id) && !WasStopped(log, id) && QuietSince(log, id) == 0.0 && LastFiring(log, id) == None
  {
    hide LastOf;
  }

  lemma FreshAlarmOK(objects: map<nat, Alarm>, log: seq<Entry>, id: nat, spec: Spec)
    requires AlarmsOK(objects, log) && KnownOK(objects, log) && id !in objects
    ensures AlarmsOK(objects[id := Made(spec)], log) && KnownOK(objects[id := Made(spec)], log)
  {
    UnknownIsQuiet(log, id);
    hide Ringing, QuietSince, LastFiring, WasStopped;
    forall k | k in objects ensures k != id && AlarmOK(objects[k], log, k) {
    }
  }

  lemma RegisterKeepsLog(c: Config, s: State, spec: Spec)
    requires LogInv(c, s) && s.nextId !in s.objects
    ensures LogInv(c, Register(s, spec))
  {
    FreshAlarmOK(s.objects, s.log, s.nextId, spec);
    hide LogOK, AlarmsOK, KnownOK, TimesOK;
  }

  lemma ArmKeepsLog(c: Config, s: State, spec: Spec)
    requires LogInv(c, s) && s.nextId !in s.objects
    ensures LogInv(c, Arm(c, s, spec))
  {
    hide LogInv, Register;
    RegisterKeepsLog(c, s, spec);
    EvictKeepsLog(c, c.maxAlarms, Register(s, spec));
    ForgetKeepsLog(c, Evict(c.maxAlarms, Register(s, spec)), Arm(c, s, spec));
  }

  lemma StepKeepsLog(c: Config, s: State, e: Event)
    requires LogInv(c, s) && PollsOK(s) && s.nextId !in s.objects
    ensures LogInv(c, Step(c, s, e))
  {
    hide LogInv, PollsOK, Arm, EndPoll, SilenceMatching, HaltKnown, Silence, StandsDown;
    if Enabled(s, e) {
      match e
      case Create(spec) => ArmKeepsLog(c, s, spec);
      case Stop(id) => HaltKnownKeepsLog(c, s, id);
      case Acknowledge(which) => SilenceMatchingKeepsLog(c, s, s.dict, which);
      case PollEnds(id, present) => EndPollKeepsLog(c, s, id, present);
      case LoopStandsDown(id) =>
        if StandsDown(c, s.objects[id], s.now) { StandDownKeepsLog(c, s, id); }
      case _ => ForgetKeepsLog(c, s, Step(c, s, e));
    }
  }

  // ---------- Every step keeps the polls ----------

  /** No poll begins, no task goes without being cancelled, and no alarm with a poll falls silent otherwise. */
  ghost predicate PollsCarryOver(s: State, t: State)
  {
    && (forall id :: id in t.polling ==> id in s.polling)
    && (forall id :: id in s.polling && PollOK(s, id) ==> PollOK(t, id))
  }

  lemma HaltKnownPolls(s: State, id: nat)
    ensures PollsCarryOver(s, HaltKnown(s, id))
  {
  }

  lemma {:induction false} EvictPolls(maxAlarms: nat, s: State)
    ensures PollsCarryOver(s, Evict(maxAlarms, s))
    decreases |s.order|
  {
    if |s.order| > maxAlarms {
      HaltKnownPolls(s.(order := s.order[1..]), s.order[0]);
      hide HaltKnown;
      EvictPolls(maxAlarms, EvictOldest(s));
    }
  }

  lemma {:induction false} SilencePolls(s: State, ids: seq<nat>, which: Option<nat>)
    ensures PollsCarryOver(s, SilenceMatching(s, ids, which))
    decreases |ids|
  {
    if ids != [] { SilencePolls(s, ids[..|ids| - 1], which); }
  }

  lemma CarryKeepsPolls(s: State, t: State)
    requires PollsOK(s) && PollsCarryOver(s, t)
    ensures PollsOK(t)
  {
    hide PollOK;
  }

  lemma ArmPolls(c: Config, s: State, spec: Spec)
    requires PollsOK(s) && s.nextId !in s.objects
    ensures PollsOK(Arm(c, s, spec))
  {
    var t := Register(s, spec);
    assert PollsCarryOver(s, t);
    EvictPolls(c.maxAlarms, t);
    hide Evict, Made;
    CarryKeepsPolls(s, t);
    CarryKeepsPolls(t, Evict(c.maxAlarms, t));
    CarryKeepsPolls(Evict(c.maxAlarms, t), Arm(c, s, spec));
  }

  lemma StepKeepsPolls(c: Config, s: State, e: Event)
    requires PollsOK(s) && s.nextId !in s.objects
    ensures PollsOK(Step(c, s, e))
  {
    hide Arm, HaltKnown, SilenceMatching, MayFire, StandsDown, PollsOK;
    if Enabled(s, e) {
      match e
      case Create(spec) => ArmPolls(c, s, spec);
      case Stop(id) => HaltKnownPolls(s, id); CarryKeepsPolls(s, HaltKnown(s, id));
      case Acknowledge(which) =>
        SilencePolls(s, s.dict, which);
        CarryKeepsPolls(s, SilenceMatching(s, s.dict, which));
      case PollStarts(id, camera) => StartKeepsPolls(s, id, camera);
      case _ => CarryKeepsPolls(s, Step(c, s, e));
    }
  }

  lemma StartKeepsPolls(s: State, id: nat, camera: string)
    requires PollsOK(s) && Enabled(s, PollStarts(id, camera))
    ensures PollsOK(s.(polling := s.polling[id := camera]))
  {
    var t := s.(polling := s.polling[id := camera]);
    forall k | k in t.polling ensures PollOK(t, k) {
      assert k != id ==> PollOK(s, k);
    }
  }

  // ---------- Every step keeps the feed and the registry ----------

  lemma FiringsSnoc(log: seq<Entry>, e: Entry)
    ensures Firings(log + [e]) == if e.kind.Fired? then Firings(log) + [e] else Firings(log)
  {
    assert (log + [e])[..|log|] == log;
  }

  lemma NotesForSnoc(notes: seq<Note>, n: Note, id: nat)
    ensures NotesFor(notes + [n], id) == NotesFor(notes, id) + (if n.alarm == id then 1 else 0)
  {
    assert (notes + [n])[..|notes|] == notes;
  }

  lemma {:induction false} NoNotesFor(notes: seq<Note>, id: nat)
    requires forall k :: 0 <= k < |notes| ==> notes[k].alarm != id
    ensures NotesFor(notes, id) == 0
  {
    if notes != [] { NoNotesFor(notes[..|notes| - 1], id); }
  }

  /** Neither a firing nor a change of the registry. */
  ghost predicate SameFeed(s: State, t: State)
  {
    && t.notes == s.notes && t.nextNoteId == s.nextNoteId && Firings(t.log) == Firings(s.log)
    && t.objects.Keys == s.objects.Keys
    && forall id :: id in s.objects ==> t.objects[id].count == s.objects[id].count
  }

  lemma SameFeedKeeps(s: State, t: State)
    requires FeedInv(s) && SameFeed(s, t)
    ensures FeedInv(t)
  {
    hide NotesFor, Firings;
  }

  lemma HaltKnownFeed(s: State, id: nat)
    ensures SameFeed(s, HaltKnown(s, id))
  {
    if id in s.dict && id in s.objects { FiringsSnoc(s.log, Entry(Stopped, id, s.now, s.objects[id].ring)); }
  }

  lemma {:induction false} EvictFeed(maxAlarms: nat, s: State)
    ensures SameFeed(s, Evict(maxAlarms, s))
    decreases |s.order|
  {
    if |s.order| > maxAlarms {
      HaltKnownFeed(s.(order := s.order[1..]), s.order[0]);
      hide HaltKnown, Firings;
      EvictFeed(maxAlarms, EvictOldest(s));
    }
  }

  /** Silencing changes neither the feed nor the registry. */
  ghost predicate SameRegistry(s: State, t: State)
  {
    && t.dict == s.dict && t.order == s.order && t.tasks == s.tasks && t.nextId == s.nextId
    && t.objects.Keys == s.objects.Keys
    && forall id :: id in s.objects ==> t.objects[id].active == s.objects[id].active
  }

  lemma SilenceSame(s: State, id: nat, kind: Kind)
    requires id in s.objects && kind in QUIET
    ensures SameFeed(s, Silence(s, id, kind)) && SameRegistry(s, Silence(s, id, kind))
  {
    FiringsSnoc(s.log, Entry(kind, id, s.now, s.objects[id].ring));
  }

  lemma {:induction false} SilenceMatchingSame(s: State, ids: seq<nat>, which: Option<nat>)
    ensures SameFeed(s, SilenceMatching(s, ids, which)) && SameRegistry(s, SilenceMatching(s, ids, which))
    decreases |ids|
  {
    if ids != [] {
      SilenceMatchingSame(s, ids[..|ids| - 1], which);
      var before, id := SilenceMatching(s, ids[..|ids| - 1], which), ids[|ids| - 1];
      if Rings(before, id) { SilenceSame(before, id, Acked); }
      hide Silence, Firings;
    }
  }

  lemma SameRegistryKeeps(c: Config, s: State, t: State)
    requires RegistryInv(c, s) && SameRegistry(s, t)
    ensures RegistryInv(c, t)
  {
    hide Span;
  }

  lemma FireFeed(s: State, id: nat, camera: string)
    requires FeedInv(s) && id in s.objects
    ensures FeedInv(Fire(s, id, camera)) && SameRegistry(s, Fire(s, id, camera))
  {
    var t := Fire(s, id, camera);
    var n := Note(s.nextNoteId, id, camera, s.now, s.objects[id].ring);
    FiringsSnoc(s.log, Entry(Fired, id, s.now, s.objects[id].ring));
    hide Firings, NotesFor;
    forall k | k in s.objects ensures t.objects[k].count == NotesFor(t.notes, k) {
      NotesForSnoc(s.notes, n, k);
    }
  }

  lemma EndPollFeed(c: Config, s: State, id: nat, present: bool)
    requires FeedInv(s) && RegistryInv(c, s) && id in s.polling
    ensures FeedInv(EndPoll(c, s, id, present)) && RegistryInv(c, EndPoll(c, s, id, present))
  {
    hide FeedInv, RegistryInv, Fire, MayFire;
    var t := s.(polling := s.polling - {id});
    SameKeepsAll(c, s, t);
    if present && id in s.objects && MayFire(c, s.objects[id], s.now) {
      FireFeed(t, id, s.polling[id]);
      SameRegistryKeeps(c, t, Fire(t, id, s.polling[id]));
    }
  }

  lemma SameKeepsAll(c: Config, s: State, t: State)
    requires FeedInv(s) && RegistryInv(c, s) && SameFeed(s, t) && SameRegistry(s, t)
    ensures FeedInv(t) && RegistryInv(c, t)
  {
    SameFeedKeeps(s, t);
    SameRegistryKeeps(c, s, t);
  }

  lemma RegisterFeed(s: State, spec: Spec)
    requires FeedInv(s) && s.nextId !in s.objects
    ensures FeedInv(Register(s, spec))
  {
    NoNotesFor(s.notes, s.nextId);
    hide Firings, NotesFor;
  }

  lemma ArmFeed(c: Config, s: State, spec: Spec)
    requires FeedInv(s) && s.nextId !in s.objects
    ensures FeedInv(Arm(c, s, spec))
  {
    RegisterFeed(s, spec);
    EvictFeed(c.maxAlarms, Register(s, spec));
    hide FeedInv, Register, Firings;
    SameFeedKeeps(Register(s, spec), Evict(c.maxAlarms, Register(s, spec)));
    SameFeedKeeps(Evict(c.maxAlarms, Register(s, spec)), Arm(c, s, spec));
  }

  lemma HaltRegistry(c: Config, s: State, id: nat)
    requires RegistryInv(c, s)
    ensures RegistryInv(c, HaltKnown(s, id))
  {
    hide Span;
  }

  /** Arming one more alarm when there is room. */
  lemma ArmWithRoom(c: Config, s: State, spec: Spec)
    requires RegistryInv(c, s) && |s.order| < c.maxAlarms
    ensures RegistryInv(c, Arm(c, s, spec))
  {
    SpanEnds(s.nextId - |s.order|, s.nextId);
    hide Span;
    var t := Register(s, spec);
    assert Evict(c.maxAlarms, t) == t;
  }

  /** What arming does when the registry is full: the oldest alarm is stopped and forgotten. */
  function ArmedFull(s: State, spec: Spec): State
    requires |s.order| > 0 && |s.dict| > 0 && s.order[0] in s.objects && s.nextId !in s.objects
  {
    var oldest := s.order[0];
    var a := s.objects[oldest];
    s.(objects := s.objects[s.nextId := Made(spec)][oldest := a.(active := false, triggered := false)],
       dict := s.dict[1..] + [s.nextId], order := s.order[1..] + [s.nextId],
       tasks := s.tasks - {oldest} + {s.nextId}, nextId := s.nextId + 1,
       cancelled := if oldest in s.tasks then s.cancelled + {oldest} else s.cancelled,
       log := s.log + [Entry(Stopped, oldest, s.now, a.ring)])
  }

  lemma ArmWhenFull(c: Config, s: State, spec: Spec)
    requires RegistryInv(c, s) && |s.order| == c.maxAlarms > 0
    ensures |s.dict| > 0 && s.order[0] in s.objects && s.nextId !in s.objects && Arm(c, s, spec) == ArmedFull(s, spec)
  {
    var n, oldest := s.nextId, s.order[0];
    assert oldest == n - |s.order|;
    hide Span;
    assert (s.order + [n])[1..] == s.order[1..] + [n];
    assert Without(s.dict + [n], oldest) == s.dict[1..] + [n];
    var u := EvictOldest(Register(s, spec));
    EvictStops(c.maxAlarms, u);
    EvictStops2(c.maxAlarms, Register(s, spec));
  }

  lemma EvictStops(maxAlarms: nat, s: State)
    requires |s.order| <= maxAlarms
    ensures Evict(maxAlarms, s) == s
  {
  }

  lemma EvictStops2(maxAlarms: nat, s: State)
    requires |s.order| == maxAlarms + 1
    ensures Evict(maxAlarms, s) == EvictOldest(s)
  {
    EvictStops(maxAlarms, EvictOldest(s));
  }

  lemma ArmedFullRecent(c: Config, s: State, spec: Spec)
    requires RegistryInv(c, s) && |s.order| == c.maxAlarms > 0
    requires |s.dict| > 0 && s.order[0] in s.objects && s.nextId !in s.objects
    ensures NumbersOK(ArmedFull(s, spec)) && Recent(ArmedFull(s, spec))
  {
    var n := s.nextId;
    SpanEnds(n - |s.order|, n);
    SpanEnds(n - |s.order| + 1, n);
    hide Span, TasksOK, Made;
  }

  lemma ArmedFullTasks(c: Config, s: State, spec: Spec)
    requires RegistryInv(c, s) && |s.order| == c.maxAlarms > 0
    requires |s.dict| > 0 && s.order[0] in s.objects && s.nextId !in s.objects
    ensures TasksOK(c.maxAlarms, ArmedFull(s, spec))
  {
    var t := ArmedFull(s, spec);
    assert s.dict == [s.order[0]] + s.dict[1..];
    assert s.order[0] != s.nextId;
    hide Span, NumbersOK;
    forall id | id in t.objects && id !in t.dict ensures !t.objects[id].active {
      assert id != s.nextId;
    }
  }

  lemma ArmedFullRegistry(c: Config, s: State, spec: Spec)
    requires RegistryInv(c, s) && |s.order| == c.maxAlarms > 0
    requires |s.dict| > 0 && s.order[0] in s.objects && s.nextId !in s.objects
    ensures RegistryInv(c, ArmedFull(s, spec))
  {
    ArmedFullRecent(c, s, spec);
    ArmedFullTasks(c, s, spec);
    hide NumbersOK, Recent, TasksOK;
  }

  /** With room for no alarm at all, the new one is forgotten at once. */
  lemma ArmWithNoRoom(c: Config, s: State, spec: Spec)
    requires RegistryInv(c, s) && c.maxAlarms == 0
    ensures RegistryInv(c, Arm(c, s, spec))
  {
    hide Span;
    var t := Register(s, spec);
    assert t.order == [s.nextId] == t.dict;
    EvictStops2(0, t);
  }

  lemma ArmRegistry(c: Config, s: State, spec: Spec)
    requires RegistryInv(c, s)
    ensures RegistryInv(c, Arm(c, s, spec))
  {
    RegistryBound(c, s);
    hide RegistryInv, Arm;
    if |s.order| < c.maxAlarms {
      ArmWithRoom(c, s, spec);
    } else if c.maxAlarms == 0 {
      ArmWithNoRoom(c, s, spec);
    } else {
      ArmWhenFull(c, s, spec);
      ArmedFullRegistry(c, s, spec);
    }
  }

  lemma RegistryBound(c: Config, s: State)
    requires RegistryInv(c, s)
    ensures |s.order| <= c.maxAlarms && s.nextId !in s.objects
  {
  }

  ghost predicate Inv(c: Config, s: State)
  {
    LogInv(c, s) && PollsOK(s) && FeedInv(s) && RegistryInv(c, s)
  }

  lemma StepKeepsFeed(c: Config, s: State, e: Event)
    requires FeedInv(s) && RegistryInv(c, s)
    ensures FeedInv(Step(c, s, e)) && RegistryInv(c, Step(c, s, e))
  {
    RegistryBound(c, s);
    hide FeedInv, RegistryInv, Arm, EndPoll, SilenceMatching, HaltKnown, Silence, StandsDown, Firings;
    if Enabled(s, e) {
      match e
      case Create(spec) => ArmFeed(c, s, spec); ArmRegistry(c, s, spec);
      case Stop(id) => HaltKnownFeed(s, id); SameFeedKeeps(s, HaltKnown(s, id)); HaltRegistry(c, s, id);
      case Acknowledge(which) =>
        SilenceMatchingSame(s, s.dict, which);
        SameKeepsAll(c, s, SilenceMatching(s, s.dict, which));
      case PollEnds(id, present) => EndPollFeed(c, s, id, present);
      case LoopStandsDown(id) =>
        if StandsDown(c, s.objects[id], s.now) {
          SilenceSame(s, id, StoodDown);
          SameKeepsAll(c, s, Silence(s, id, StoodDown));
        }
      case _ => SameKeepsAll(c, s, Step(c, s, e));
    }
  }

  lemma StepKeepsInv(c: Config, s: State, e: Event)
    requires Inv(c, s)
    ensures Inv(c, Step(c, s, e))
  {
    RegistryBound(c, s);
    hide LogInv, PollsOK, FeedInv, RegistryInv, Step;
    StepKeepsLog(c, s, e);
    StepKeepsPolls(c, s, e);
    StepKeepsFeed(c, s, e);
  }

  lemma {:induction false} Reachable(c: Config, start: real, es: seq<Event>)
    ensures Inv(c, After(c, start, es))
  {
    if es != [] {
      hide Inv, Step;
      Reachable(c, start, es[..|es| - 1]);
      StepKeepsInv(c, After(c, start, es[..|es| - 1]), es[|es| - 1]);
    }
  }

  // ---------- Theorems about every run ----------

  lemma LogReachable(c: Config, start: real, es: seq<Event>)
    ensures LogInv(c, After(c, start, es))
  {
    Reachable(c, start, es);
  }

  /** The registry is the most recent alarms, at most `maxAlarms` of them, in order of creation; every
      alarm it has forgotten is stopped. */
  lemma RegistryHoldsNewest(c: Config, start: real, es: seq<Event>)
    ensures var s := After(c, start, es);
      && 1 <= s.nextId && s.dict == s.order == LastN(Span(1, s.nextId), c.maxAlarms)
      && (forall id :: id in s.objects <==> 1 <= id < s.nextId)
      && (forall id :: id in s.objects && id !in s.dict ==> !s.objects[id].active)
      && (c.maxAlarms > 0 ==> forall id :: id in s.tasks <==> id in s.objects && s.objects[id].active)
  {
    Reachable(c, start, es);
    var s := After(c, start, es);
    hide LogInv, FeedInv, After;
    NewestSpan(s.nextId, c.maxAlarms, |s.order|);
  }

  /** An alarm is triggered exactly when it latches and the last thing that happened to it, among firing,
      acknowledgement, stand-down and stop, is that it fired. Chime and silent alarms never are. */
  lemma TriggeredIffLastFired(c: Config, start: real, es: seq<Event>, id: nat)
    requires id in After(c, start, es).objects
    ensures var s := After(c, start, es);
      && (s.objects[id].triggered <==> Ringing(s.log, id))
      && (s.objects[id].triggered ==> Latches(s.objects[id].ring))
      && (s.objects[id].active <==> !WasStopped(s.log, id))
  {
    LogReachable(c, start, es);
    var s := After(c, start, es);
    assert AlarmOK(s.objects[id], s.log, id);
  }

  /** The trigger count of an alarm is the number of its events in the feed, which is the log of firings
      numbered from one. */
  lemma CountIsRecordedEvents(c: Config, start: real, es: seq<Event>, id: nat)
    requires id in After(c, start, es).objects
    ensures var s := After(c, start, es);
      s.objects[id].count == NotesFor(s.notes, id) && NotesOK(s.notes, s.log)
  {
    Reachable(c, start, es);
  }

  predicate Between(log: seq<Entry>, i: nat, k: int, j: nat, kinds: set<Kind>)
  {
    i < k < j <= |log| && log[k].id == log[i].id && log[k].kind in kinds
  }

  /** Entries i and j of the log are firings of one alarm. */
  predicate TwoFirings(log: seq<Entry>, i: nat, j: nat)
  {
    i < j < |log| && log[i].kind.Fired? && log[j].kind.Fired? && log[i].id == log[j].id
  }

  lemma FiringJustified(c: Config, s: State, i: nat, j: nat)
    requires LogInv(c, s) && TwoFirings(s.log, i, j)
    ensures Justified(c, s.log[..j], s.log[j]) && s.log[i].ring == s.log[j].ring
  {
    assert EntryOK(c, s.log, j);
  }

  lemma StandDownJustified(c: Config, s: State, k: nat)
    requires LogInv(c, s) && k < |s.log| && s.log[k].kind.StoodDown?
    ensures Justified(c, s.log[..k], s.log[k])
  {
    assert EntryOK(c, s.log, k);
  }

  /** What ended the ringing before the second of two firings of a latching alarm. */
  lemma RingingEnded(c: Config, s: State, i: nat, j: nat) returns (k: nat)
    requires LogInv(c, s) && TwoFirings(s.log, i, j) && Latches(s.log[i].ring)
    ensures Between(s.log, i, k, j, QUIET) && s.log[j].at - s.log[k].at >= c.rearm
  {
    hide LogInv, LastOf, QuietSince, LastFiring, WasStopped;
    FiringJustified(c, s, i, j);
    var past, id := s.log[..j], s.log[j].id;
    LatchesThroughout(c, s, i, j);
    k := LastIsNotFiring(past, i);
    assert s.log[k] == past[k];
    LastQuiet(past, id, k);
  }

  lemma NoStopsIn(log: seq<Entry>, id: nat)
    requires !WasStopped(log, id)
    ensures forall j :: 0 <= j < |log| && log[j].id == id ==> !log[j].kind.Stopped?
  {
    hide LastOf;
    assert forall j :: 0 <= j < |log| && log[j].id == id ==> log[j].kind !in {Stopped};
  }

  lemma LastIsNotFiring(past: seq<Entry>, i: nat) returns (k: nat)
    requires i < |past| && past[i].kind.Fired? && !Ringing(past, past[i].id) && !WasStopped(past, past[i].id)
    requires forall j :: 0 <= j < |past| && past[j].id == past[i].id ==> Latches(past[j].ring)
    ensures i < k < |past| && past[k].id == past[i].id && k == LastOf(past, past[i].id, ANY)
    ensures past[k].kind in QUIET
  {
    NoStopsIn(past, past[i].id);
    hide LastOf, WasStopped;
    assert past[i].kind in ANY;
    k := LastOf(past, past[i].id, ANY);
  }

  lemma LatchesThroughout(c: Config, s: State, i: nat, j: nat)
    requires LogInv(c, s) && i < j <= |s.log| && Latches(s.log[i].ring)
    ensures forall k :: 0 <= k < j && s.log[k].id == s.log[i].id ==> Latches(s.log[k].ring)
  {
  }

  lemma LastQuiet(log: seq<Entry>, id: nat, k: nat)
    requires k < |log| && k == LastOf(log, id, ANY) && log[k].kind in QUIET
    ensures QuietSince(log, id) == log[k].at
  {
    hide LastOf;
    var q := LastOf(log, id, QUIET);
    assert log[k].id == id && log[k].kind in QUIET;
    assert forall j :: k < j < |log| ==> !(log[j].id == id && log[j].kind in ANY);
  }

  /** Between two firings of a siren somebody acknowledged it, at least the re-arm time before the second:
      a siren never stands down by itself. */
  lemma SirenWaitsForAck(c: Config, start: real, es: seq<Event>, i: nat, j: nat)
    requires var log := After(c, start, es).log; TwoFirings(log, i, j) && log[i].ring.Siren?
    ensures var log := After(c, start, es).log;
      exists k :: Between(log, i, k, j, {Acked}) && log[j].at - log[k].at >= c.rearm
  {
    var s := After(c, start, es);
    LogReachable(c, start, es);
    var k := RingingEnded(c, s, i, j);
    SameRing(c, s, i, k);
    if s.log[k].kind.StoodDown? { StandDownJustified(c, s, k); }
    hide LogInv, After;
    assert Between(s.log, i, k, j, {Acked});
  }

  lemma SameRing(c: Config, s: State, i: nat, k: nat)
    requires LogInv(c, s) && i < |s.log| && k < |s.log| && s.log[i].id == s.log[k].id
    ensures s.log[i].ring == s.log[k].ring
  {
  }

  /** Two firings of a pulse alarm that nobody acknowledged in between are at least the pulse time and the
      re-arm time apart. */
  lemma UnackedPulsesAreSpaced(c: Config, start: real, es: seq<Event>, i: nat, j: nat)
    requires var log := After(c, start, es).log; TwoFirings(log, i, j) && log[i].ring.Pulse?
    requires var log := After(c, start, es).log; forall k :: !Between(log, i, k, j, {Acked})
    ensures var log := After(c, start, es).log; log[j].at - log[i].at >= c.pulse + c.rearm
  {
    var s := After(c, start, es);
    LogReachable(c, start, es);
    var k := RingingEnded(c, s, i, j);
    assert !Between(s.log, i, k, j, {Acked});
    hide After;
    StoodDownLate(c, s, i, k);
  }

  lemma StoodDownLate(c: Config, s: State, i: nat, k: nat)
    requires LogInv(c, s) && i < k < |s.log| && s.log[i].id == s.log[k].id
    requires s.log[i].kind.Fired? && s.log[k].kind.StoodDown?
    ensures s.log[k].at - s.log[i].at >= c.pulse
  {
    StandDownJustified(c, s, k);
    LaterFiring(c, s, i, k);
  }

  /** The last firing before position k is at or after any firing before k. */
  lemma LaterFiring(c: Config, s: State, i: nat, k: nat)
    requires LogInv(c, s) && i < k <= |s.log| && s.log[i].kind.Fired?
    ensures var t := LastFiring(s.log[..k], s.log[i].id); t.Some? && t.value >= s.log[i].at
  {
    FiringFrom(s.log[..k], i);
    hide LogOK, KnownOK, AlarmsOK, LastFiring;
  }

  lemma FiringFrom(log: seq<Entry>, i: nat)
    requires i < |log| && log[i].kind.Fired? && forall j, k :: 0 <= j < k < |log| ==> log[j].at <= log[k].at
    ensures var t := LastFiring(log, log[i].id); t.Some? && t.value >= log[i].at
  {
    hide LastOf;
    var p := LastOf(log, log[i].id, {Fired});
    assert log[i].kind in {Fired};
    assert p >= i;
  }

  /** Firings of one chime or silent alarm are at least the re-arm time apart. */
  lemma NoticesAreSpaced(c: Config, start: real, es: seq<Event>, i: nat, j: nat)
    requires var log := After(c, start, es).log; TwoFirings(log, i, j) && !Latches(log[i].ring)
    ensures var log := After(c, start, es).log; log[j].at - log[i].at >= c.rearm
  {
    var s := After(c, start, es);
    LogReachable(c, start, es);
    FiringJustified(c, s, i, j);
    LaterFiring(c, s, i, j);
  }

  // ---------- Stopping ----------

  lemma FiringMeansUnstopped(c: Config, log: seq<Entry>, id: nat)
    requires LogOK(c, log) && LastOf(log, id, ANY) >= 0 && log[LastOf(log, id, ANY)].kind.Fired?
    ensures !WasStopped(log, id)
  {
    var k := LastOf(log, id, ANY);
    assert EntryOK(c, log, k);
    NoStopsIn(log[..k], id);
    hide LogOK, LastOf;
    assert forall j :: 0 <= j < k ==> log[..k][j] == log[j];
  }

  /** A stopped alarm is not ringing: nothing fired after its first stop. */
  lemma StoppedIsQuiet(c: Config, log: seq<Entry>, id: nat)
    requires LogOK(c, log) && WasStopped(log, id)
    ensures !Ringing(log, id)
  {
    hide LogOK, WasStopped, LastOf;
    if Ringing(log, id) { FiringMeansUnstopped(c, log, id); }
  }

  /** After an alarm was stopped nothing happens to it but further stops: it is never rung, acknowledged or
      stood down again. */
  lemma NothingAfterStop(c: Config, start: real, es: seq<Event>, i: nat, j: nat)
    requires var log := After(c, start, es).log;
      i < j < |log| && log[i].kind.Stopped? && log[j].id == log[i].id
    ensures After(c, start, es).log[j].kind.Stopped?
  {
    var log := After(c, start, es).log;
    LogReachable(c, start, es);
    hide After;
    NothingAfterStopIn(c, log, i, j);
  }

  lemma NothingAfterStopIn(c: Config, log: seq<Entry>, i: nat, j: nat)
    requires LogOK(c, log) && i < j < |log| && log[i].kind.Stopped? && log[j].id == log[i].id
    ensures log[j].kind.Stopped?
  {
    assert EntryOK(c, log, j);
    var past := log[..j];
    assert past[i] == log[i] && past[i].kind in {Stopped};
    assert WasStopped(past, log[i].id);
    LogPrefix(c, log, j);
    hide LogOK, Ringing, WasStopped;
    StoppedIsQuiet(c, past, log[i].id);
  }

  lemma LogPrefix(c: Config, log: seq<Entry>, j: nat)
    requires LogOK(c, log) && j <= |log|
    ensures LogOK(c, log[..j])
  {
    hide Justified;
    forall k | 0 <= k < j ensures EntryOK(c, log[..j], k) {
      assert EntryOK(c, log, k);
      assert log[..j][..k] == log[..k];
    }
  }

  predicate AtRest(s: State, id: nat)
  {
    id in s.objects && !s.objects[id].active && !s.objects[id].triggered
  }

  lemma InactiveIsAtRest(c: Config, s: State, id: nat)
    requires LogInv(c, s) && id in s.objects && !s.objects[id].active
    ensures AtRest(s, id)
  {
    assert AlarmOK(s.objects[id], s.log, id);
    hide LogOK, TimesOK, KnownOK, AlarmsOK, Ringing, WasStopped, QuietSince, LastFiring;
    StoppedIsQuiet(c, s.log, id);
  }

  ghost predicate Unmoved(s: State, t: State, id: nat)
    requires id in s.objects
  {
    id in t.objects && t.objects[id] == s.objects[id]
  }

  lemma {:induction false} SilenceLeaves(s: State, ids: seq<nat>, which: Option<nat>, id: nat)
    requires AtRest(s, id)
    ensures Unmoved(s, SilenceMatching(s, ids, which), id)
    decreases |ids|
  {
    if ids != [] { SilenceLeaves(s, ids[..|ids| - 1], which, id); }
  }

  lemma {:induction false} EvictLeaves(maxAlarms: nat, s: State, id: nat)
    requires AtRest(s, id)
    ensures Unmoved(s, Evict(maxAlarms, s), id)
    decreases |s.order|
  {
    if |s.order| > maxAlarms { EvictLeaves(maxAlarms, EvictOldest(s), id); }
  }

  lemma StepLeavesStopped(c: Config, s: State, e: Event, id: nat)
    requires AtRest(s, id) && PollsOK(s) && s.nextId !in s.objects
    ensures Unmoved(s, Step(c, s, e), id)
  {
    hide SilenceMatching, Evict, Made, MayFire;
    if Enabled(s, e) {
      match e
      case Create(spec) => EvictLeaves(c.maxAlarms, Register(s, spec), id);
      case Acknowledge(which) => SilenceLeaves(s, s.dict, which, id);
      case PollEnds(k, present) => assert PollOK(s, k);
      case _ =>
    }
  }

  /** Once an alarm is stopped, or evicted, no later event changes it in any way: it is not triggered, its
      count stands still, and a poll that was suspended at the stop never rings it. */
  lemma {:induction false} StoppedAlarmIsFrozen(c: Config, start: real, es: seq<Event>, more: seq<Event>, id: nat)
    requires id in After(c, start, es).objects && !After(c, start, es).objects[id].active
    ensures !After(c, start, es).objects[id].triggered
    ensures Unmoved(After(c, start, es), After(c, start, es + more), id)
    decreases |more|
  {
    hide Step, LogInv, PollsOK, FeedInv;
    Reachable(c, start, es);
    InactiveIsAtRest(c, After(c, start, es), id);
    if more == [] {
      assert es + more == es;
    } else {
      var before, e := more[..|more| - 1], more[|more| - 1];
      StoppedAlarmIsFrozen(c, start, es, before, id);
      assert (es + more)[..|es + more| - 1] == es + before;
      Reachable(c, start, es + before);
      StepLeavesStopped(c, After(c, start, es + before), e, id);
    }
  }

  // ---------- What is persisted ----------

  function SpecOf(a: Alarm): Spec
  {
    Spec(a.name, a.target, a.cameras, a.after, a.before, RingName(a.ring))
  }

  predicate IsActive(a: Alarm)
  {
    a.active
  }

  /** The active alarms among `ids`, in that order. */
  function ExportOf(objects: map<nat, Alarm>, ids: seq<nat>): seq<Spec>
  {
    ActiveSpecs(objects, ids, IsActive, SpecOf)
  }

  function Exported(s: State): seq<Spec>
  {
    ExportOf(s.objects, s.dict)
  }

  /** The ring level is not part of the key. */
  datatype AlarmKey = AlarmKey(name: string, target: string, cameras: set<string>,
                               after: Option<int>, before: Option<int>)

  function KeyOf(spec: Spec): AlarmKey
  {
    AlarmKey(Lower(Strip(spec.name)), spec.target, (set cam | cam in spec.cameras), spec.after, spec.before)
  }

  function CreateAll(c: Config, s: State, specs: seq<Spec>): State
  {
    if specs == [] then s else Step(c, CreateAll(c, s, specs[..|specs| - 1]), Create(specs[|specs| - 1]))
  }

  // ---------- The manager object ----------

  class AlarmManager {
    const config: Config
    var now: real
    var objects: map<nat, Alarm>
    var dict: seq<nat>
    var order: seq<nat>
    var tasks: set<nat>
    var cancelled: set<nat>
    var polling: map<nat, string>
    var events: seq<Note>
    var nextId: nat
    var nextEventId: nat
    ghost var log: seq<Entry>

    ghost function View(): State
      reads this
    {
      State(now, objects, dict, order, tasks, cancelled, polling, events, nextId, nextEventId, log)
    }

    constructor (config: Config, start: real)
      ensures this.config == config && View() == After(config, start, [])
    {
      this.config := config;
      now, objects, dict, order, tasks, cancelled := start, map[], [], [], {}, {};
      polling, events, nextId, nextEventId, log := map[], [], 1, 1, [];
    }

    method Create(spec: Spec) returns (id: nat)
      modifies this
      ensures View() == Step(config, old(View()), Event.Create(spec)) && id == old(nextId)
    {
      hide Evict, Strip, Lower, RingOf;
      id := nextId;
      var name := Strip(spec.name);
      var alarm := Alarm(if name == "" then "Alarm" else name, Lower(Strip(spec.target)), spec.cameras, spec.after,
        spec.before, RingOf(spec.ring), true, false, 0.0, None, 0);
      nextId := nextId + 1;
      objects := objects[id := alarm];
      dict := dict + [id];
      order := order + [id];
      assert View() == Register(old(View()), spec);
      MakeRoom();
      tasks := tasks + {id};
    }

    /** The eviction loop of `create`. */
    method MakeRoom()
      modifies this`objects, this`dict, this`order, this`tasks, this`cancelled, this`log
      ensures View() == Evict(config.maxAlarms, old(View()))
    {
      while |order| > config.maxAlarms
        invariant Evict(config.maxAlarms, View()) == Evict(config.maxAlarms, old(View()))
        decreases |order|
      {
        var oldest := order[0];
        order := order[1..];
        var known := Stop(oldest);
        dict := Without(dict, oldest);
      }
    }

    method Stop(id: nat) returns (known: bool)
      modifies this`objects, this`tasks, this`cancelled, this`log
      ensures View() == Step(config, old(View()), Event.Stop(id))
      ensures known <==> id in dict && id in old(objects)
    {
      if !(id in dict && id in objects) { return false; }
      objects := objects[id := objects[id].(active := false, triggered := false)];
      if id in tasks {
        tasks := tasks - {id};
        cancelled := cancelled + {id};
      }
      log := log + [Entry(Stopped, id, now, objects[id].ring)];
      return true;
    }

    /** Silences one alarm, or all of them, and says how many were ringing. */
    method Acknowledge(which: Option<nat>) returns (n: nat)
      modifies this`objects, this`log
      ensures View() == Step(config, old(View()), Event.Acknowledge(which))
      ensures n == |log| - |old(log)|
    {
      n := 0;
      for i := 0 to |dict|
        invariant View() == SilenceMatching(old(View()), dict[..i], which)
        invariant n == |log| - |old(log)|
      {
        assert dict[..i + 1][..i] == dict[..i];
        var id := dict[i];
        if (which.None? || which.value == id) && id in objects && objects[id].triggered {
          objects := objects[id := objects[id].(triggered := false, lastAck := now)];
          log := log + [Entry(Acked, id, now, objects[id].ring)];
          n := n + 1;
        }
      }
      assert dict[..|dict|] == dict;
    }

    /** The loop sees the alarm active and its poll suspends at the frame fetch. */
    method PollSuspends(id: nat, camera: string)
      requires Enabled(View(), PollStarts(id, camera))
      modifies this`polling
      ensures View() == Step(config, old(View()), PollStarts(id, camera))
    {
      polling := polling[id := camera];
    }

    /** The rest of `_poll`, after its awaits. */
    method PollResumes(id: nat, present: bool)
      requires Enabled(View(), PollEnds(id, present)) && id in objects
      modifies this`polling, this`objects, this`events, this`nextEventId, this`log
      ensures View() == Step(config, old(View()), PollEnds(id, present))
    {
      var camera := polling[id];
      polling := polling - {id};
      if !present { return; }
      var alarm := objects[id];
      if Latches(alarm.ring) {
        if alarm.triggered || now - alarm.lastAck < config.rearm { return; }
        alarm := alarm.(triggered := true);
      } else {
        var anchor := Max(alarm.lastAck, if alarm.lastTriggered.Some? then alarm.lastTriggered.value else 0.0);
        if now - anchor < config.rearm { return; }
      }
      objects := objects[id := alarm.(lastTriggered := Some(now), count := alarm.count + 1)];
      events := events + [Note(nextEventId, id, camera, now, alarm.ring)];
      nextEventId := nextEventId + 1;
      log := log + [Entry(Fired, id, now, alarm.ring)];
    }

    method PollGivesUp(id: nat)
      requires Enabled(View(), PollFails(id))
      modifies this`polling
      ensures View() == Step(config, old(View()), PollFails(id))
    {
      polling := polling - {id};
    }

    method MaybeStandDown(id: nat)
      requires Enabled(View(), LoopStandsDown(id))
      modifies this`objects, this`log
      ensures View() == Step(config, old(View()), LoopStandsDown(id))
    {
      var alarm := objects[id];
      if !alarm.ring.Pulse? || !alarm.triggered { return; }
      if alarm.lastTriggered.None? { return; }
      if now - alarm.lastTriggered.value >= config.pulse {
        objects := objects[id := alarm.(triggered := false, lastAck := now)];
        log := log + [Entry(StoodDown, id, now, alarm.ring)];
      }
    }

    method Export() returns (specs: seq<Spec>)
      ensures specs == Exported(View())
    {
      specs := [];
      for i := 0 to |dict|
        invariant specs == ExportOf(objects, dict[..i])
      {
        assert dict[..i + 1][..i] == dict[..i];
        var id := dict[i];
        if id in objects && objects[id].active { specs := specs + [SpecOf(objects[id])]; }
      }
      assert dict[..|dict|] == dict;
    }

    /** Creates the first alarm of each key. */
    method Restore(specs: seq<Spec>)
      modifies this
      ensures View() == CreateAll(config, old(View()), Firsts(specs, KeyOf))
    {
      hide Step, Keys, Span, KeyOf;
      var seen := {};
      assert specs[..0] == [];
      NoKeys(KeyOf);
      for i := 0 to |specs|
        invariant seen == Keys(specs[..i], KeyOf)
        invariant View() == CreateAll(config, old(View()), Firsts(specs[..i], KeyOf))
      {
        assert specs[..i + 1] == specs[..i] + [specs[i]];
        KeysSnoc(specs[..i], specs[i], KeyOf);
        FirstsSnoc(specs[..i], specs[i], KeyOf);
        var key := KeyOf(specs[i]);
        if key in seen { continue; }
        seen := seen + {key};
        ghost var kept := Firsts(specs[..i], KeyOf);
        assert (kept + [specs[i]])[..|kept|] == kept;
        var id := Create(specs[i]);
      }
      assert specs[..|specs|] == specs;
    }

    method TimePasses(elapsed: real)
      requires Enabled(View(), Tick(elapsed))
      modifies this`now
      ensures View() == Step(config, old(View()), Tick(elapsed))
    {
      now := now + elapsed;
    }
  }
}
