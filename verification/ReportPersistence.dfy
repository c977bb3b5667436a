/** Export, restore, export again: what survives of the report schedules. */
module ReportPersistence {
  import opened Common
  import opened FirstPerKey
  import opened Text
  import opened Reports

  /** What becomes of a spec when a schedule is made of it and exported. */
  function Normal(spec: Spec): Spec
  {
    SpecOf(Made(spec))
  }

  // ---------- What a run of creations leaves ----------

  /** Schedule n was made of the n-th spec. */
  ghost predicate MadeOf(s: State, specs: seq<Spec>)
  {
    s.nextId == |specs| + 1 &&
    forall id :: id in s.objects ==> 1 <= id <= |specs| && s.objects[id] == Made(specs[id - 1])
  }

  lemma CreateOne(maxSchedules: nat, s: State, specs: seq<Spec>, spec: Spec)
    requires Inv(maxSchedules, s) && MadeOf(s, specs)
    ensures Inv(maxSchedules, Step(maxSchedules, s, Create(spec)))
    ensures MadeOf(Step(maxSchedules, s, Create(spec)), specs + [spec])
  {
    hide Made, Evict, Inv;
    StepKeepsInv(maxSchedules, s, Create(spec));
    EvictSame(maxSchedules, Register(s, spec));
  }

  lemma CreateNone(maxSchedules: nat, start: real)
    ensures Inv(maxSchedules, Init(start)) && MadeOf(Init(start), [])
  {
    Reachable(maxSchedules, start, []);
  }

  lemma {:induction false} CreateAllMakes(maxSchedules: nat, start: real, specs: seq<Spec>)
    ensures Inv(maxSchedules, CreateAll(maxSchedules, Init(start), specs))
    ensures MadeOf(CreateAll(maxSchedules, Init(start), specs), specs)
    decreases |specs|
  {
    hide Inv, MadeOf, Init, Step;
    if specs == [] {
      CreateNone(maxSchedules, start);
    } else {
      var before, spec := specs[..|specs| - 1], specs[|specs| - 1];
      CreateAllMakes(maxSchedules, start, before);
      CreateOne(maxSchedules, CreateAll(maxSchedules, Init(start), before), before, spec);
      assert before + [spec] == specs;
    }
  }

  lemma RegistryLength(maxSchedules: nat, s: State)
    requires Inv(maxSchedules, s)
    ensures 1 <= s.nextId && |s.dict| == if s.nextId - 1 <= maxSchedules then s.nextId - 1 else maxSchedules
    ensures forall k :: 0 <= k < |s.dict| ==> s.dict[k] == s.nextId - |s.dict| + k
    ensures forall id :: id in s.dict ==> id in s.objects
  {
    hide LogInv;
  }

  lemma MadeAreActive(s: State, specs: seq<Spec>)
    requires MadeOf(s, specs)
    ensures forall id :: id in s.objects ==> s.objects[id].active
  {
    hide Strip;
  }

  /** The k-th exported spec is the normal form of the one its schedule was made of. */
  lemma ExportOfMade(maxSchedules: nat, s: State, specs: seq<Spec>, k: nat)
    requires Inv(maxSchedules, s) && MadeOf(s, specs) && k < |s.dict|
    ensures |Exported(s)| == |s.dict| && 0 <= |specs| - |s.dict| + k < |specs|
    ensures Exported(s)[k] == Normal(specs[|specs| - |s.dict| + k])
  {
    hide Inv, Made, SpecOf, ActiveSpecs;
    RegistryLength(maxSchedules, s);
    MadeAreActive(s, specs);
    AllAreExported(s.objects, s.dict, IsActive, SpecOf);
    assert s.dict[k] in s.dict;
  }

  lemma NextIdOf(s: State, specs: seq<Spec>)
    requires MadeOf(s, specs)
    ensures s.nextId == |specs| + 1 && (|s.dict| == 0 ==> Exported(s) == [])
  {
  }

  /** Creating schedules from any specs in a fresh scheduler and exporting them gives the last specs that
      fit, each in its normal form. */
  lemma CreateThenExport(maxSchedules: nat, start: real, specs: seq<Spec>)
    ensures Exported(CreateAll(maxSchedules, Init(start), specs)) == LastN(Mapped(specs, Normal), maxSchedules)
  {
    hide Inv, CreateAll, Normal, MadeOf, Exported, Mapped, Init;
    CreateAllMakes(maxSchedules, start, specs);
    var s := CreateAll(maxSchedules, Init(start), specs);
    RegistryLength(maxSchedules, s);
    NextIdOf(s, specs);
    if |s.dict| > 0 { ExportOfMade(maxSchedules, s, specs, 0); }
    forall k | 0 <= k < |s.dict| ensures Exported(s)[k] == Normal(specs[|specs| - |s.dict| + k]) {
      ExportOfMade(maxSchedules, s, specs, k);
    }
    NewestSpecs(specs, Normal, maxSchedules, Exported(s));
  }

  // ---------- Exported specs are in normal form ----------

  /** The name, query and plan of a schedule are as `create` leaves them. */
  predicate Proper(r: Schedule)
  {
    r.name != "" && Strip(r.name) == r.name && Strip(r.query) == r.query && (r.plan.at.Some? || Every(r.plan))
  }

  lemma MadeIsProper(spec: Spec)
    ensures Proper(Made(spec))
  {
    StripTwice(spec.name);
    StripTwice(spec.query);
    TrimmedStays("Report");
    hide Strip;
  }

  lemma ProperIsNormal(r: Schedule)
    requires Proper(r)
    ensures Normal(SpecOf(r)) == SpecOf(r)
  {
    hide Strip;
  }

  ghost predicate AllProper(s: State)
  {
    forall id :: id in s.objects ==> Proper(s.objects[id])
  }

  lemma StepKeepsProper(maxSchedules: nat, s: State, e: Event)
    requires AllProper(s)
    ensures AllProper(Step(maxSchedules, s, e))
  {
    hide Strip, Judge, Made, Evict;
    if e.Create? {
      MadeIsProper(e.spec);
      EvictSame(maxSchedules, Register(s, e.spec));
      hide Proper;
    }
  }

  lemma {:induction false} AlwaysProper(maxSchedules: nat, start: real, es: seq<Event>)
    ensures AllProper(After(maxSchedules, start, es))
  {
    if es != [] {
      hide Step, AllProper;
      AlwaysProper(maxSchedules, start, es[..|es| - 1]);
      StepKeepsProper(maxSchedules, After(maxSchedules, start, es[..|es| - 1]), es[|es| - 1]);
    } else {
      assert After(maxSchedules, start, []) == Init(start);
    }
  }

  predicate Steady(spec: Spec)
  {
    Normal(spec) == spec
  }

  lemma ExportIsSteady(objects: map<nat, Schedule>, ids: seq<nat>)
    requires forall id :: id in objects ==> Proper(objects[id])
    ensures forall spec :: spec in ExportOf(objects, ids) ==> Steady(spec)
  {
    hide Proper, Normal, SpecOf;
    forall id | id in objects ensures Steady(SpecOf(objects[id])) {
      ProperIsNormal(objects[id]);
    }
    ExportedAreGood(objects, ids, IsActive, SpecOf, Steady);
  }

  /** After any run, exactly the active schedules of the registry are exported, each by name, query and times. */
  lemma ExportsTheActive(maxSchedules: nat, start: real, es: seq<Event>, spec: Spec)
    ensures var s := After(maxSchedules, start, es);
      spec in Exported(s) <==>
        exists id :: id in s.dict && id in s.objects && s.objects[id].active && Describes(spec, s.objects[id])
  {
    var s := After(maxSchedules, start, es);
    ExportedIff(s.objects, s.dict, IsActive, SpecOf, spec);
    assert forall r: Schedule :: SpecOf(r) == spec <==> Describes(spec, r);
    hide After, ActiveSpecs, SpecOf, Describes;
  }

  predicate Describes(spec: Spec, r: Schedule)
  {
    spec.name == r.name && spec.query == r.query && spec.plan == r.plan
  }

  // ---------- The round trip ----------

  lemma SteadySpecsSurvive(maxSchedules: nat, start: real, specs: seq<Spec>)
    requires |specs| <= maxSchedules && forall k :: 0 <= k < |specs| ==> Steady(specs[k])
    ensures Exported(CreateAll(maxSchedules, Init(start), specs)) == specs
  {
    hide Normal, Exported, CreateAll;
    CreateThenExport(maxSchedules, start, specs);
    assert Mapped(specs, Normal) == specs;
  }

  /** Restoring an export into a fresh scheduler and exporting again gives the first spec of each key, in
      order; doing it once more changes nothing. */
  lemma RestoreKeepsFirstPerKey(maxSchedules: nat, start: real, es: seq<Event>, fresh1: real, fresh2: real)
    ensures var specs := Exported(After(maxSchedules, start, es));
      var kept := Firsts(specs, KeyOf);
      && Exported(CreateAll(maxSchedules, Init(fresh1), Firsts(specs, KeyOf))) == kept
      && Exported(CreateAll(maxSchedules, Init(fresh2), Firsts(kept, KeyOf))) == kept
  {
    var s := After(maxSchedules, start, es);
    var specs := Exported(s);
    var kept := Firsts(specs, KeyOf);
    KeptAreSteady(maxSchedules, start, es);
    Reachable(maxSchedules, start, es);
    RegistryLength(maxSchedules, s);
    assert |specs| <= |s.dict|;
    FirstsAreShorter(specs, KeyOf);
    FirstsIdempotent(specs, KeyOf);
    hide After, Inv, Steady, CreateAll, KeyOf, ExportOf, Firsts;
    SteadySpecsSurvive(maxSchedules, fresh1, kept);
    SteadySpecsSurvive(maxSchedules, fresh2, kept);
  }

  /** Two specs have one key if and only if they agree in name, up to case and outer whitespace, in query and in both
      times. */
  lemma KeysAgreeIff(a: Spec, b: Spec)
    ensures KeyOf(a) == KeyOf(b) <==>
      && Lower(Strip(a.name)) == Lower(Strip(b.name)) && a.query == b.query
      && a.plan.every == b.plan.every && a.plan.at == b.plan.at
  {
    hide Strip, Lower;
  }

  /** What a spec becomes: name and query without outer whitespace, a stock name for a blank one, and 08:00 for no
      time. */
  lemma NormalIs(spec: Spec)
    ensures var every := spec.plan.every.Some? && spec.plan.every.value != 0;
      Normal(spec) == Spec(if Strip(spec.name) == "" then "Report" else Strip(spec.name), Strip(spec.query),
                           Plan(spec.plan.every, if spec.plan.at.None? && !every then Some(480) else spec.plan.at))
  {
    hide Strip;
  }

  // ---------- What does not survive: the last run ----------

  /** The creations of a restore, as events. */
  function Openings(specs: seq<Spec>): seq<Event>
  {
    if specs == [] then [] else Openings(specs[..|specs| - 1]) + [Create(specs[|specs| - 1])]
  }

  /** Restoring into a fresh scheduler is a run of its own. */
  lemma {:induction false} RestoreIsARun(maxSchedules: nat, fresh0: real, specs: seq<Spec>)
    ensures CreateAll(maxSchedules, Init(fresh0), specs) == After(maxSchedules, fresh0, Openings(specs))
  {
    if specs != [] {
      hide Step, Init;
      RestoreIsARun(maxSchedules, fresh0, specs[..|specs| - 1]);
      AfterStep(maxSchedules, fresh0, Openings(specs[..|specs| - 1]), Create(specs[|specs| - 1]));
    }
  }

  /** The event looks at the report or runs it by hand. */
  predicate Concerns(e: Event, id: nat)
  {
    (e.Look? && e.looked == id) || (e.RunNow? && e.asked == id)
  }

  predicate Unconcerned(es: seq<Event>, id: nat)
  {
    forall i :: 0 <= i < |es| ==> !Concerns(es[i], id)
  }

  lemma {:induction false} OpeningsAreUnconcerned(specs: seq<Spec>, id: nat)
    ensures Unconcerned(Openings(specs), id)
  {
    if specs != [] { OpeningsAreUnconcerned(specs[..|specs| - 1], id); }
  }

  predicate NoEntry(log: seq<Entry>, id: nat)
  {
    forall k :: 0 <= k < |log| ==> log[k].id != id
  }

  lemma StepLogsOthers(maxSchedules: nat, s: State, e: Event, id: nat)
    requires NoEntry(s.log, id) && !Concerns(e, id)
    ensures NoEntry(Step(maxSchedules, s, e).log, id)
  {
    hide Judge, Made, Evict;
    if e.Create? { EvictSame(maxSchedules, Register(s, e.spec)); }
  }

  lemma {:induction false} UnconcernedLeavesNoEntry(maxSchedules: nat, start: real, es: seq<Event>, id: nat)
    requires Unconcerned(es, id)
    ensures NoEntry(After(maxSchedules, start, es).log, id)
  {
    if es != [] {
      hide Step;
      UnconcernedLeavesNoEntry(maxSchedules, start, es[..|es| - 1], id);
      StepLogsOthers(maxSchedules, After(maxSchedules, start, es[..|es| - 1]), es[|es| - 1], id);
    }
  }

  ghost predicate KeepsSpecs(s: State, t: State)
  {
    forall id :: id in s.objects ==> id in t.objects && SpecOf(t.objects[id]) == SpecOf(s.objects[id])
  }

  lemma StepKeepsSpecs(maxSchedules: nat, s: State, e: Event)
    requires s.nextId !in s.objects
    ensures KeepsSpecs(s, Step(maxSchedules, s, e))
  {
    hide Judge, Made, Evict;
    if e.Create? { EvictSame(maxSchedules, Register(s, e.spec)); }
  }

  lemma {:induction false} RunKeepsSpecs(maxSchedules: nat, start: real, es: seq<Event>, more: seq<Event>)
    ensures KeepsSpecs(After(maxSchedules, start, es), After(maxSchedules, start, es + more))
    decreases |more|
  {
    hide Step, LogInv, SpecOf;
    if more == [] {
      assert es + more == es;
    } else {
      var before, e := more[..|more| - 1], more[|more| - 1];
      RunKeepsSpecs(maxSchedules, start, es, before);
      assert (es + before) + [e] == es + more;
      AfterStep(maxSchedules, start, es + before, e);
      Reachable(maxSchedules, start, es + before);
      StepKeepsSpecs(maxSchedules, After(maxSchedules, start, es + before), e);
    }
  }

  /** What a scheduler restored from the export of any run does at its first look at a daily report, after
      anything that does not concern that report: it runs it if and only if the report's time of that day
      has come, whatever the old process ran that day, or ever. */
  lemma RestoredReportIsDueAgain(maxSchedules: nat, start: real, es: seq<Event>, fresh0: real, more: seq<Event>,
                                 id: nat, drift: real)
    requires var kept := Firsts(Exported(After(maxSchedules, start, es)), KeyOf);
      1 <= id <= |kept| && Daily(kept[id - 1].plan) && InDay(kept[id - 1].plan)
    requires Unconcerned(more, id)
    requires var kept := Firsts(Exported(After(maxSchedules, start, es)), KeyOf);
      Enabled(After(maxSchedules, fresh0, Openings(kept) + more), Look(id, drift))
    ensures var kept := Firsts(Exported(After(maxSchedules, start, es)), KeyOf);
      var s := After(maxSchedules, fresh0, Openings(kept) + more);
      var log := After(maxSchedules, fresh0, Openings(kept) + more + [Look(id, drift)]).log;
      && CreateAll(maxSchedules, Init(fresh0), kept) == After(maxSchedules, fresh0, Openings(kept))
      && SpecOf(s.objects[id]) == kept[id - 1]
      && |log| == |s.log| + 1 && log[|s.log|].id == id
      && (log[|s.log|].how.ByLoop? <==> s.now >= TimeOn(s.now, kept[id - 1].plan.at.value))
  {
    var kept := Firsts(Exported(After(maxSchedules, start, es)), KeyOf);
    var opening := Openings(kept);
    var s := After(maxSchedules, fresh0, opening + more);
    RestoreIsARun(maxSchedules, fresh0, kept);
    RestoredSpec(maxSchedules, start, es, fresh0, more, id);
    OpeningsAreUnconcerned(kept, id);
    UnconcernedLeavesNoEntry(maxSchedules, fresh0, opening + more, id);
    AfterStep(maxSchedules, fresh0, opening + more, Look(id, drift));
    Reachable(maxSchedules, fresh0, opening + more);
    hide After, Step, Firsts, Exported, CreateAll, Openings, RegistryInv;
    FirstLook(maxSchedules, s, id, drift);
  }

  lemma FirstLook(maxSchedules: nat, s: State, id: nat, drift: real)
    requires LogInv(s) && NoEntry(s.log, id) && Enabled(s, Look(id, drift))
    requires Daily(s.objects[id].plan) && InDay(s.objects[id].plan)
    ensures var log := Step(maxSchedules, s, Look(id, drift)).log;
      && |log| == |s.log| + 1 && log[|s.log|].id == id
      && (log[|s.log|].how.ByLoop? <==> s.now >= TimeOn(s.now, s.objects[id].plan.at.value))
  {
    NeverRun(s.log, id);
    assert ScheduleOK(s.objects[id], s.log, id);
    hide LogInv, TimeOn;
  }

  /** The restored report is the kept spec, and stays it. */
  lemma RestoredSpec(maxSchedules: nat, start: real, es: seq<Event>, fresh0: real, more: seq<Event>, id: nat)
    requires 1 <= id <= |Firsts(Exported(After(maxSchedules, start, es)), KeyOf)|
    ensures var kept := Firsts(Exported(After(maxSchedules, start, es)), KeyOf);
      var s := After(maxSchedules, fresh0, Openings(kept) + more);
      id in s.objects && SpecOf(s.objects[id]) == kept[id - 1]
  {
    var specs := Exported(After(maxSchedules, start, es));
    var kept := Firsts(specs, KeyOf);
    KeptAreSteady(maxSchedules, start, es);
    hide After, Step, Firsts, Exported, CreateAll, Normal;
    RestoreIsARun(maxSchedules, fresh0, kept);
    CreateAllMakes(maxSchedules, fresh0, kept);
    RunKeepsSpecs(maxSchedules, fresh0, Openings(kept), more);
    var t := CreateAll(maxSchedules, Init(fresh0), kept);
    assert Steady(kept[id - 1]);
    MadeSpec(maxSchedules, t, kept, id);
  }

  lemma MadeSpec(maxSchedules: nat, t: State, kept: seq<Spec>, id: nat)
    requires Inv(maxSchedules, t) && MadeOf(t, kept) && 1 <= id <= |kept| && Steady(kept[id - 1])
    ensures id in t.objects && SpecOf(t.objects[id]) == kept[id - 1]
  {
    hide LogInv, Made;
  }

  lemma KeptAreSteady(maxSchedules: nat, start: real, es: seq<Event>)
    ensures var kept := Firsts(Exported(After(maxSchedules, start, es)), KeyOf);
      forall k :: 0 <= k < |kept| ==> Steady(kept[k])
  {
    var s := After(maxSchedules, start, es);
    var specs := Exported(s);
    AlwaysProper(maxSchedules, start, es);
    ExportIsSteady(s.objects, s.dict);
    hide After, Proper, Steady, KeyOf, ExportOf, Firsts;
    var kept := Firsts(specs, KeyOf);
    forall k | 0 <= k < |kept| ensures Steady(kept[k]) {
      FirstsAreSome(specs, KeyOf, k);
    }
  }
}
