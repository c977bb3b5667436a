/** Export, restore, export again: what survives of the alarms. */
module AlarmPersistence {
  import opened Common
  import opened FirstPerKey
  import opened Text
  import opened Alarms

  /** What becomes of a spec when an alarm is made of it and exported. */
  function Normal(spec: Spec): Spec
  {
    SpecOf(Made(spec))
  }

  // ---------- What a run of creations leaves ----------

  /** A registered alarm is the new one, or was registered before and is unchanged. */
  predicate NewOrKept(s: State, t: State, spec: Spec, id: nat)
  {
    && id in t.objects
    && (id == s.nextId ==> t.objects[id] == Made(spec))
    && (id != s.nextId ==> id in s.dict && id in s.objects && t.objects[id] == s.objects[id])
  }

  lemma ArmRecords(c: Config, s: State, spec: Spec)
    requires RegistryInv(c, s)
    ensures var t := Arm(c, s, spec);
      t.nextId == s.nextId + 1 && forall id :: id in t.dict ==> NewOrKept(s, t, spec, id)
  {
    RegistryBound(c, s);
    hide Made, Span;
    if |s.order| < c.maxAlarms {
      EvictStops(c.maxAlarms, Register(s, spec));
    } else if c.maxAlarms == 0 {
      EvictStops2(0, Register(s, spec));
    } else {
      ArmWhenFull(c, s, spec);
      OldestIsApart(c, s);
      hide Arm;
    }
  }

  lemma OldestIsApart(c: Config, s: State)
    requires RegistryInv(c, s) && |s.order| > 0
    ensures s.dict == s.order && s.order[0] !in s.dict[1..] && forall id :: id in s.dict ==> id in s.objects
  {
  }

  /** Alarm n was made of the n-th spec and is active while it is registered. */
  ghost predicate MadeOf(s: State, specs: seq<Spec>)
  {
    s.nextId == |specs| + 1 &&
    forall id :: id in s.dict ==> 1 <= id <= |specs| && id in s.objects && s.objects[id] == Made(specs[id - 1])
  }

  lemma MadeOfSnoc(c: Config, s: State, specs: seq<Spec>, spec: Spec)
    requires RegistryInv(c, s) && MadeOf(s, specs)
    ensures MadeOf(Arm(c, s, spec), specs + [spec])
  {
    ArmRecords(c, s, spec);
    hide Made, Arm, RegistryInv;
    forall id | id in Arm(c, s, spec).dict
      ensures 1 <= id <= |specs| + 1 && id in Arm(c, s, spec).objects
      ensures Arm(c, s, spec).objects[id] == Made((specs + [spec])[id - 1])
    {
      assert NewOrKept(s, Arm(c, s, spec), spec, id);
    }
  }

  lemma CreateOne(c: Config, s: State, specs: seq<Spec>, spec: Spec)
    requires Inv(c, s) && MadeOf(s, specs)
    ensures Inv(c, Step(c, s, Create(spec))) && MadeOf(Step(c, s, Create(spec)), specs + [spec])
  {
    hide Inv, MadeOf, Arm;
    StepKeepsInv(c, s, Create(spec));
    RegistryOf(c, s);
    MadeOfSnoc(c, s, specs, spec);
  }

  lemma CreateNone(c: Config, start: real)
    ensures Inv(c, Init(start)) && MadeOf(Init(start), [])
  {
    Reachable(c, start, []);
  }

  lemma {:induction false} CreateAllMakes(c: Config, start: real, specs: seq<Spec>)
    ensures Inv(c, CreateAll(c, Init(start), specs)) && MadeOf(CreateAll(c, Init(start), specs), specs)
    decreases |specs|
  {
    hide Inv, MadeOf, Init, Step;
    if specs == [] {
      CreateNone(c, start);
    } else {
      var before, spec := specs[..|specs| - 1], specs[|specs| - 1];
      CreateAllMakes(c, start, before);
      CreateOne(c, CreateAll(c, Init(start), before), before, spec);
      assert before + [spec] == specs;
    }
  }

  lemma RegistryOf(c: Config, s: State)
    requires Inv(c, s)
    ensures RegistryInv(c, s)
  {
  }

  lemma RegistryLength(c: Config, s: State)
    requires RegistryInv(c, s)
    ensures 1 <= s.nextId && |s.dict| == if s.nextId - 1 <= c.maxAlarms then s.nextId - 1 else c.maxAlarms
    ensures forall k :: 0 <= k < |s.dict| ==> s.dict[k] == s.nextId - |s.dict| + k
  {
  }

  lemma MadeAreActive(s: State, specs: seq<Spec>)
    requires MadeOf(s, specs)
    ensures forall id :: id in s.dict ==> id in s.objects && s.objects[id].active
  {
    hide Strip, Lower;
  }

  /** The k-th exported spec is the normal form of the one its alarm was made of. */
  lemma ExportOfMade(c: Config, s: State, specs: seq<Spec>, k: nat)
    requires RegistryInv(c, s) && MadeOf(s, specs) && k < |s.dict|
    ensures |Exported(s)| == |s.dict| && 0 <= |specs| - |s.dict| + k < |specs|
    ensures Exported(s)[k] == Normal(specs[|specs| - |s.dict| + k])
  {
    hide RegistryInv, Made, SpecOf, ActiveSpecs;
    RegistryLength(c, s);
    MadeAreActive(s, specs);
    AllAreExported(s.objects, s.dict, IsActive, SpecOf);
    assert s.dict[k] in s.dict;
  }

  lemma NothingMade(s: State, specs: seq<Spec>)
    requires MadeOf(s, specs) && |s.dict| == 0
    ensures Exported(s) == []
  {
  }

  /** Creating alarms from any specs in a fresh manager and exporting them gives the last specs that fit,
      each in its normal form. */
  lemma CreateThenExport(c: Config, start: real, specs: seq<Spec>)
    ensures Exported(CreateAll(c, Init(start), specs)) == LastN(Mapped(specs, Normal), c.maxAlarms)
  {
    hide Inv, RegistryInv, CreateAll, Normal, MadeOf, Exported, Mapped, Init;
    CreateAllMakes(c, start, specs);
    var s := CreateAll(c, Init(start), specs);
    RegistryOf(c, s);
    RegistryLength(c, s);
    NextIdOf(s, specs);
    if |s.dict| == 0 { NothingMade(s, specs); } else { ExportOfMade(c, s, specs, 0); }
    forall k | 0 <= k < |s.dict| ensures Exported(s)[k] == Normal(specs[|specs| - |s.dict| + k]) {
      ExportOfMade(c, s, specs, k);
    }
    NewestSpecs(specs, Normal, c.maxAlarms, Exported(s));
  }

  lemma NextIdOf(s: State, specs: seq<Spec>)
    requires MadeOf(s, specs)
    ensures s.nextId == |specs| + 1
  {
  }

  // ---------- Exported specs are in normal form ----------

  /** The name, target and ring level of an alarm are as `create` leaves them. */
  predicate Proper(a: Alarm)
  {
    a.name != "" && Strip(a.name) == a.name && Lower(Strip(a.target)) == a.target
  }

  lemma MadeIsProper(spec: Spec)
    ensures Proper(Made(spec))
  {
    StripTwice(spec.name);
    StripLowerTwice(spec.target);
    assert Strip("Alarm") == "Alarm";
  }

  lemma ProperIsNormal(a: Alarm)
    requires Proper(a)
    ensures Normal(SpecOf(a)) == SpecOf(a)
  {
    hide Strip, Lower;
  }

  ghost predicate AllProper(s: State)
  {
    forall id :: id in s.objects ==> Proper(s.objects[id])
  }

  /** The identity of an alarm never changes. */
  predicate SameIdentity(a: Alarm, b: Alarm)
  {
    SpecOf(a) == SpecOf(b)
  }

  ghost predicate KeepsIdentities(s: State, t: State)
  {
    t.objects.Keys == s.objects.Keys && forall id :: id in s.objects ==> SameIdentity(s.objects[id], t.objects[id])
  }

  lemma {:induction false} SilenceKeepsIdentities(s: State, ids: seq<nat>, which: Option<nat>)
    ensures KeepsIdentities(s, SilenceMatching(s, ids, which))
    decreases |ids|
  {
    if ids != [] { SilenceKeepsIdentities(s, ids[..|ids| - 1], which); }
  }

  lemma {:induction false} EvictKeepsIdentities(maxAlarms: nat, s: State)
    ensures KeepsIdentities(s, Evict(maxAlarms, s))
    decreases |s.order|
  {
    if |s.order| > maxAlarms { EvictKeepsIdentities(maxAlarms, EvictOldest(s)); }
  }

  lemma KeepsProper(s: State, t: State)
    requires AllProper(s) && KeepsIdentities(s, t)
    ensures AllProper(t)
  {
    hide Strip, Lower;
    forall id | id in t.objects ensures Proper(t.objects[id]) {
      assert SameIdentity(s.objects[id], t.objects[id]);
    }
  }

  lemma ArmKeepsProper(c: Config, s: State, spec: Spec)
    requires AllProper(s)
    ensures AllProper(Arm(c, s, spec))
  {
    MadeIsProper(spec);
    hide Proper, Made;
    var t := Register(s, spec);
    EvictKeepsIdentities(c.maxAlarms, t);
    KeepsProper(t, Evict(c.maxAlarms, t));
  }

  lemma StepKeepsProper(c: Config, s: State, e: Event)
    requires AllProper(s)
    ensures AllProper(Step(c, s, e))
  {
    hide AllProper, Arm, SilenceMatching;
    if Enabled(s, e) {
      match e
      case Create(spec) => ArmKeepsProper(c, s, spec);
      case Acknowledge(which) =>
        SilenceKeepsIdentities(s, s.dict, which);
        KeepsProper(s, SilenceMatching(s, s.dict, which));
      case _ => KeepsProper(s, Step(c, s, e));
    }
  }

  lemma {:induction false} AlwaysProper(c: Config, start: real, es: seq<Event>)
    ensures AllProper(After(c, start, es))
  {
    if es != [] {
      hide Step, AllProper;
      AlwaysProper(c, start, es[..|es| - 1]);
      StepKeepsProper(c, After(c, start, es[..|es| - 1]), es[|es| - 1]);
    } else {
      assert After(c, start, []) == Init(start);
    }
  }

  predicate Steady(spec: Spec)
  {
    Normal(spec) == spec
  }

  lemma ExportIsSteady(objects: map<nat, Alarm>, ids: seq<nat>)
    requires forall id :: id in objects ==> Proper(objects[id])
    ensures forall spec :: spec in ExportOf(objects, ids) ==> Steady(spec)
  {
    hide Proper, Normal, SpecOf;
    forall id | id in objects ensures Steady(SpecOf(objects[id])) {
      ProperIsNormal(objects[id]);
    }
    ExportedAreGood(objects, ids, IsActive, SpecOf, Steady);
  }

  /** After any run, exactly the active alarms of the registry are exported, each by its name, target, cameras, times of
      day and ring level. */
  lemma ExportsTheActive(c: Config, start: real, es: seq<Event>, spec: Spec)
    ensures var s := After(c, start, es);
      spec in Exported(s) <==>
        exists id :: id in s.dict && id in s.objects && s.objects[id].active && Describes(spec, s.objects[id])
  {
    var s := After(c, start, es);
    ExportedIff(s.objects, s.dict, IsActive, SpecOf, spec);
    assert forall a: Alarm :: SpecOf(a) == spec <==> Describes(spec, a);
    hide After, ActiveSpecs, SpecOf, Describes;
  }

  predicate Describes(spec: Spec, a: Alarm)
  {
    && spec.name == a.name && spec.target == a.target && spec.cameras == a.cameras
    && spec.after == a.after && spec.before == a.before
    && spec.ring == if a.ring.Siren? then "siren" else if a.ring.Pulse? then "pulse"
                    else if a.ring.Chime? then "chime" else "silent"
  }

  // ---------- The round trip ----------

  lemma SteadySpecsSurvive(c: Config, start: real, specs: seq<Spec>)
    requires |specs| <= c.maxAlarms && forall k :: 0 <= k < |specs| ==> Steady(specs[k])
    ensures Exported(CreateAll(c, Init(start), specs)) == specs
  {
    hide Normal, Exported, CreateAll;
    CreateThenExport(c, start, specs);
    assert Mapped(specs, Normal) == specs;
  }

  /** Restoring an export into a fresh manager and exporting again gives the first spec of each key, in
      order, whatever the ring levels were; doing it once more changes nothing. */
  lemma RestoreKeepsFirstPerKey(c: Config, start: real, es: seq<Event>, fresh1: real, fresh2: real)
    ensures var specs := Exported(After(c, start, es));
      var kept := Firsts(specs, KeyOf);
      && Exported(CreateAll(c, Init(fresh1), Firsts(specs, KeyOf))) == kept
      && Exported(CreateAll(c, Init(fresh2), Firsts(kept, KeyOf))) == kept
  {
    var s := After(c, start, es);
    var specs := Exported(s);
    var kept := Firsts(specs, KeyOf);
    AlwaysProper(c, start, es);
    Reachable(c, start, es);
    RegistryOf(c, s);
    RegistryLength(c, s);
    ExportIsSteady(s.objects, s.dict);
    assert |specs| <= |s.dict|;
    FirstsAreShorter(specs, KeyOf);
    FirstsIdempotent(specs, KeyOf);
    hide After, Inv, RegistryInv, Proper, Steady, CreateAll, KeyOf, ExportOf, Firsts;
    forall k | 0 <= k < |kept| ensures Steady(kept[k]) {
      FirstsAreSome(specs, KeyOf, k);
    }
    SteadySpecsSurvive(c, fresh1, kept);
    SteadySpecsSurvive(c, fresh2, kept);
  }

  /** Two specs have one key if and only if they agree in name, up to case and outer whitespace, in target, in the set
      of cameras and in both times of day. */
  lemma KeysAgreeIff(a: Spec, b: Spec)
    ensures KeyOf(a) == KeyOf(b) <==>
      && Lower(Strip(a.name)) == Lower(Strip(b.name)) && a.target == b.target
      && (forall cam :: cam in a.cameras <==> cam in b.cameras)
      && a.after == b.after && a.before == b.before
  {
    hide Strip, Lower;
    SameMembers(a.cameras, b.cameras);
  }

  /** What a spec becomes: a name without outer whitespace, or a stock one, a tidied target, and one of the four ring
      levels. */
  lemma NormalIs(spec: Spec)
    ensures Normal(spec) == Spec(if Strip(spec.name) == "" then "Alarm" else Strip(spec.name),
                                 Lower(Strip(spec.target)), spec.cameras, spec.after, spec.before,
                                 if spec.ring in {"pulse", "chime", "silent"} then spec.ring else "siren")
  {
    hide Strip, Lower;
  }

  /** The ring level is outside the key: of two alarms that differ only in it, the first wins. */
  lemma FirstRingWins(spec: Spec, ring: string)
    ensures KeyOf(spec) == KeyOf(spec.(ring := ring))
    ensures Firsts([spec, spec.(ring := ring)], KeyOf) == [spec]
  {
    FirstOfTwoWins(spec, spec.(ring := ring), KeyOf);
  }
}
