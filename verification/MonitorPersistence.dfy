/** Export, restore, export again: what survives of the monitors. */
module MonitorPersistence {
  import opened Common
  import opened FirstPerKey
  import opened Text
  import opened Monitors
  import H = MonitorHost

  /** What becomes of a request when a monitor is made of it and exported. */
  function Normal(c: Config, ask: Ask): Ask
  {
    SpecOf(Made(c, ask))
  }

  function Accepted(c: Config, specs: seq<Ask>): seq<Ask>
  {
    if specs == [] then [] else
    var before, x := Accepted(c, specs[..|specs| - 1]), specs[|specs| - 1];
    if Acceptable(c, x) then before + [x] else before
  }

  // ---------- What a run of creations leaves ----------

  /** A registered monitor is the new one, or was registered before and is unchanged. */
  predicate NewOrKept(s: State, t: State, m: Monitor, id: nat)
  {
    && id in t.objects
    && (id == s.nextId ==> t.objects[id] == m)
    && (id != s.nextId ==> id in s.dict && id in s.objects && t.objects[id] == s.objects[id])
  }

  ghost predicate Keeps(s: State, t: State)
  {
    forall id :: id in t.dict ==> id in s.dict && id in s.objects && id in t.objects && t.objects[id] == s.objects[id]
  }

  lemma EvictOldestKeeps(c: Config, s: State, pending: nat)
    requires Loose(s, pending) && s.order != []
    ensures Keeps(s, EvictOldest(c, s))
  {
    EvictOldestIs(c, s, pending);
    OldestIsApart(s);
    hide Span, EvictOldest, H.Step, TasksOK;
  }

  lemma OldestIsApart(s: State)
    requires NumbersOK(s) && Recent(s) && |s.order| > 0
    ensures s.order[0] !in s.dict[1..] && forall id :: id in s.dict ==> id in s.objects
  {
  }

  lemma {:induction false} EvictKeeps(c: Config, s: State, pending: nat)
    requires Loose(s, pending)
    ensures Keeps(s, Evict(c, s))
    decreases |s.order|
  {
    hide Loose, EvictOldest;
    if |s.order| > c.maxMonitors {
      EvictOldestLoose(c, s, pending);
      EvictOldestKeeps(c, s, pending);
      EvictKeeps(c, EvictOldest(c, s), pending);
    } else {
      AllKnown(s, pending);
    }
  }

  lemma AllKnown(s: State, pending: nat)
    requires Loose(s, pending)
    ensures forall id :: id in s.dict ==> id in s.objects
  {
  }

  lemma EnrollRecords(c: Config, s: State, m: Monitor)
    requires RegistryInv(c, s) && m.active
    ensures var t := Enroll(c, s, m);
      t.nextId == s.nextId + 1 && forall id :: id in t.dict ==> NewOrKept(s, t, m, id)
  {
    hide Evict, RegistryInv, Loose;
    var t := Register(s, m);
    if c.maxMonitors > 0 {
      RegisterLoose(c, s, m);
      EvictLoose(c, t, s.nextId);
      EvictKeeps(c, t, s.nextId);
    } else {
      EnrollNothing(c, s, m);
      EnrollNextId(c, s, m);
      hide Enroll;
    }
  }

  lemma EnrollNextId(c: Config, s: State, m: Monitor)
    requires RegistryInv(c, s) && c.maxMonitors == 0
    ensures Enroll(c, s, m).nextId == s.nextId + 1 && Enroll(c, s, m).dict == []
  {
    var t := Register(s, m);
    assert s.order == [] && t.order == [s.nextId] == t.dict;
    hide Span, H.Step;
    assert Evict(c, EvictOldest(c, t)) == EvictOldest(c, t);
  }

  /** Monitor n was made of the n-th accepted request and is active while it is registered. */
  ghost predicate MadeOf(c: Config, s: State, specs: seq<Ask>)
  {
    s.nextId == |specs| + 1 &&
    forall id :: id in s.dict ==> 1 <= id <= |specs| && id in s.objects && s.objects[id] == Made(c, specs[id - 1])
  }

  lemma EnrolledMadeOf(c: Config, s: State, specs: seq<Ask>, ask: Ask)
    requires RegistryInv(c, s) && MadeOf(c, s, specs)
    ensures MadeOf(c, Enroll(c, s, Made(c, ask)), specs + [ask])
  {
    var t := Enroll(c, s, Made(c, ask));
    assert Made(c, ask).active;
    EnrollRecords(c, s, Made(c, ask));
    hide Made, Enroll, RegistryInv;
    forall id | id in t.dict
      ensures 1 <= id <= |specs| + 1 && id in t.objects && t.objects[id] == Made(c, (specs + [ask])[id - 1])
    {
      assert NewOrKept(s, t, Made(c, ask), id);
    }
  }

  lemma CreateMadeOf(c: Config, s: State, specs: seq<Ask>, ask: Ask)
    requires Inv(c, s) && MadeOf(c, s, specs)
    ensures MadeOf(c, DoCreate(c, s, ask), if Acceptable(c, ask) then specs + [ask] else specs)
  {
    var t := s.(host := HostAfter(c, s, Made(c, ask)));
    RefusedIffUnacceptable(c, s, ask);
    if Acceptable(c, ask) {
      HostOnlyKeepsRegistry(c, s, t);
      assert MadeOf(c, t, specs);
      EnrolledMadeOf(c, t, specs, ask);
    }
    hide H.Inv, HostOK, RegistryInv, Acceptable, Refused, Enroll, HostAfter, Made;
  }

  lemma CreateOne(c: Config, s: State, specs: seq<Ask>, ask: Ask)
    requires Inv(c, s) && MadeOf(c, s, specs)
    ensures Inv(c, Step(c, s, Create(ask)))
    ensures MadeOf(c, Step(c, s, Create(ask)), if Acceptable(c, ask) then specs + [ask] else specs)
  {
    hide Inv, MadeOf, DoCreate, Acceptable;
    StepKeepsInv(c, s, Create(ask));
    CreateMadeOf(c, s, specs, ask);
  }

  lemma CreateNone(c: Config)
    ensures Inv(c, Init) && MadeOf(c, Init, [])
  {
    Reachable(c, []);
  }

  lemma {:induction false} CreateAllMakes(c: Config, specs: seq<Ask>)
    ensures Inv(c, CreateAll(c, Init, specs)) && MadeOf(c, CreateAll(c, Init, specs), Accepted(c, specs))
    decreases |specs|
  {
    hide Inv, MadeOf, Step, Acceptable;
    if specs == [] {
      CreateNone(c);
    } else {
      var before, ask := specs[..|specs| - 1], specs[|specs| - 1];
      CreateAllMakes(c, before);
      CreateOne(c, CreateAll(c, Init, before), Accepted(c, before), ask);
    }
  }

  lemma RegistryLength(c: Config, s: State)
    requires Inv(c, s)
    ensures 1 <= s.nextId && |s.dict| == if s.nextId - 1 <= c.maxMonitors then s.nextId - 1 else c.maxMonitors
    ensures forall k :: 0 <= k < |s.dict| ==> s.dict[k] == s.nextId - |s.dict| + k
  {
    hide HostOK, H.Inv;
  }

  lemma MadeAreActive(c: Config, s: State, specs: seq<Ask>)
    requires MadeOf(c, s, specs)
    ensures forall id :: id in s.dict ==> id in s.objects && s.objects[id].active
  {
    hide Strip, Lower, IntervalOf;
  }

  /** The k-th exported spec is the normal form of the one its monitor was made of. */
  lemma ExportOfMade(c: Config, s: State, specs: seq<Ask>, k: nat)
    requires Inv(c, s) && MadeOf(c, s, specs) && k < |s.dict|
    ensures |Exported(s)| == |s.dict| && 0 <= |specs| - |s.dict| + k < |specs|
    ensures Exported(s)[k] == Normal(c, specs[|specs| - |s.dict| + k])
  {
    hide Inv, Made, SpecOf, ActiveSpecs;
    RegistryLength(c, s);
    MadeAreActive(c, s, specs);
    AllAreExported(s.objects, s.dict, IsActive, SpecOf);
    assert s.dict[k] in s.dict;
  }

  lemma NothingMade(c: Config, s: State, specs: seq<Ask>)
    requires MadeOf(c, s, specs) && |s.dict| == 0
    ensures Exported(s) == []
  {
  }

  lemma NextIdOf(c: Config, s: State, specs: seq<Ask>)
    requires MadeOf(c, s, specs)
    ensures s.nextId == |specs| + 1
  {
  }

  /** Creating monitors from any requests in a fresh manager and exporting them gives the last accepted
      ones that fit, each in its normal form. */
  lemma CreateThenExport(c: Config, specs: seq<Ask>)
    ensures Exported(CreateAll(c, Init, specs)) ==
      LastN(Mapped(Accepted(c, specs), ask => Normal(c, ask)), c.maxMonitors)
  {
    hide Inv, CreateAll, Normal, MadeOf, Exported, Mapped, Accepted;
    CreateAllMakes(c, specs);
    var s, kept := CreateAll(c, Init, specs), Accepted(c, specs);
    RegistryLength(c, s);
    NextIdOf(c, s, kept);
    if |s.dict| == 0 { NothingMade(c, s, kept); } else { ExportOfMade(c, s, kept, 0); }
    forall k | 0 <= k < |s.dict| ensures Exported(s)[k] == Normal(c, kept[|kept| - |s.dict| + k]) {
      ExportOfMade(c, s, kept, k);
    }
    NewestSpecs(kept, ask => Normal(c, ask), c.maxMonitors, Exported(s));
  }

  // ---------- Exported specs are in normal form and acceptable ----------

  predicate Proper(c: Config, m: Monitor)
  {
    Lower(Strip(m.target)) == m.target && IntervalOf(c, Some(m.interval)) == m.interval && Acceptable(c, SpecOf(m))
  }

  lemma MadeIsProper(c: Config, ask: Ask)
    requires Acceptable(c, ask)
    ensures Proper(c, Made(c, ask))
  {
    StripLowerTwice(ask.target);
    StripTrims(ask.target);
    hide H.NonBlank, H.ProperLine;
    LowerEmpty(ask.target);
  }

  lemma LowerEmpty(target: string)
    ensures Strip(Lower(Strip(target))) == "" <==> Strip(target) == ""
  {
    StripLowerTwice(target);
    hide Strip;
    assert |Lower(Strip(Lower(Strip(target))))| == |Strip(target)|;
  }

  lemma ProperIsNormal(c: Config, m: Monitor)
    requires Proper(c, m)
    ensures Normal(c, SpecOf(m)) == SpecOf(m) && Acceptable(c, SpecOf(m))
  {
    hide Strip, Lower, Acceptable, IntervalOf;
  }

  ghost predicate AllProper(c: Config, s: State)
  {
    forall id :: id in s.objects ==> Proper(c, s.objects[id])
  }

  /** The identity of a monitor never changes. */
  ghost predicate KeepsIdentities(s: State, t: State)
  {
    t.objects.Keys == s.objects.Keys && forall id :: id in s.objects ==> SpecOf(t.objects[id]) == SpecOf(s.objects[id])
  }

  lemma {:induction false} EvictKeepsIdentities(c: Config, s: State)
    ensures KeepsIdentities(s, Evict(c, s))
    decreases |s.order|
  {
    hide H.Step;
    if |s.order| > c.maxMonitors { EvictKeepsIdentities(c, EvictOldest(c, s)); }
  }

  lemma KeepsProper(c: Config, s: State, t: State)
    requires AllProper(c, s) && KeepsIdentities(s, t)
    ensures AllProper(c, t)
  {
    hide Strip, Lower, Acceptable, IntervalOf;
    forall id | id in t.objects ensures Proper(c, t.objects[id]) {
      assert Proper(c, s.objects[id]);
    }
  }

  lemma CreateKeepsProper(c: Config, s: State, ask: Ask)
    requires AllProper(c, s) && Inv(c, s)
    ensures AllProper(c, DoCreate(c, s, ask))
  {
    var m := Made(c, ask);
    RefusedIffUnacceptable(c, s, ask);
    hide Proper, Acceptable, Refused, H.Step, Made, Inv;
    if Acceptable(c, ask) {
      MadeIsProper(c, ask);
      var t := Register(s.(host := HostAfter(c, s, m)), m);
      EvictKeepsIdentities(c, t);
      KeepsProper(c, t, Evict(c, t));
    }
  }

  lemma StepKeepsProper(c: Config, s: State, e: Event)
    requires AllProper(c, s) && Inv(c, s)
    ensures AllProper(c, Step(c, s, e))
  {
    hide AllProper, DoCreate, Inv, H.Step;
    if Enabled(s, e) {
      match e
      case Create(ask) => CreateKeepsProper(c, s, ask);
      case _ => KeepsProper(c, s, Step(c, s, e));
    }
  }

  lemma {:induction false} AlwaysProper(c: Config, es: seq<Event>)
    ensures AllProper(c, After(c, es))
  {
    if es != [] {
      hide Step, AllProper, Inv;
      AlwaysProper(c, es[..|es| - 1]);
      Reachable(c, es[..|es| - 1]);
      StepKeepsProper(c, After(c, es[..|es| - 1]), es[|es| - 1]);
    }
  }

  predicate Steady(c: Config, ask: Ask)
  {
    Normal(c, ask) == ask && Acceptable(c, ask)
  }

  lemma ExportIsSteady(c: Config, objects: map<nat, Monitor>, ids: seq<nat>)
    requires forall id :: id in objects ==> Proper(c, objects[id])
    ensures forall ask :: ask in ExportOf(objects, ids) ==> Steady(c, ask)
  {
    hide Proper, Normal, SpecOf, Acceptable;
    forall id | id in objects ensures Steady(c, SpecOf(objects[id])) {
      ProperIsNormal(c, objects[id]);
    }
    ExportedAreGood(objects, ids, IsActive, SpecOf, ask => Steady(c, ask));
  }

  /** After any run, exactly the active monitors of the registry are exported, each by what it was asked for. */
  lemma ExportsTheActive(c: Config, es: seq<Event>, ask: Ask)
    ensures var s := After(c, es);
      ask in Exported(s) <==>
        exists id :: id in s.dict && id in s.objects && s.objects[id].active && Describes(ask, s.objects[id])
  {
    var s := After(c, es);
    ExportedIff(s.objects, s.dict, IsActive, SpecOf, ask);
    assert forall m: Monitor :: SpecOf(m) == ask <==> Describes(ask, m);
    hide After, ActiveSpecs, SpecOf, Describes;
  }

  predicate Describes(ask: Ask, m: Monitor)
  {
    && ask.kind == m.kind && ask.cameras == m.cameras && ask.target == m.target
    && ask.interval == Some(m.interval) && ask.line == m.line
  }

  // ---------- The round trip ----------

  lemma {:induction false} SteadyAreAccepted(c: Config, specs: seq<Ask>)
    requires forall k :: 0 <= k < |specs| ==> Steady(c, specs[k])
    ensures Accepted(c, specs) == specs
  {
    hide Normal, Acceptable;
    if specs != [] {
      SteadyAreAccepted(c, specs[..|specs| - 1]);
      assert specs[..|specs| - 1] + [specs[|specs| - 1]] == specs;
      assert Steady(c, specs[|specs| - 1]);
    }
  }

  lemma SteadySpecsSurvive(c: Config, specs: seq<Ask>)
    requires |specs| <= c.maxMonitors && forall k :: 0 <= k < |specs| ==> Steady(c, specs[k])
    ensures Exported(CreateAll(c, Init, specs)) == specs
  {
    hide Normal, Exported, CreateAll, Acceptable;
    CreateThenExport(c, specs);
    SteadyAreAccepted(c, specs);
    assert Mapped(specs, ask => Normal(c, ask)) == specs;
  }

  /** Restoring an export into a fresh manager and exporting again gives the first spec of each key, in
      order, whatever the intervals were; doing it once more changes nothing. */
  lemma RestoreKeepsFirstPerKey(c: Config, es: seq<Event>)
    ensures var specs := Exported(After(c, es));
      var kept := Firsts(specs, KeyOf);
      && Exported(CreateAll(c, Init, Firsts(specs, KeyOf))) == kept
      && Exported(CreateAll(c, Init, Firsts(kept, KeyOf))) == kept
  {
    var s := After(c, es);
    var specs := Exported(s);
    var kept := Firsts(specs, KeyOf);
    AlwaysProper(c, es);
    Reachable(c, es);
    RegistryLength(c, s);
    ExportIsSteady(c, s.objects, s.dict);
    assert |specs| <= |s.dict|;
    FirstsAreShorter(specs, KeyOf);
    FirstsIdempotent(specs, KeyOf);
    hide After, Inv, Proper, Steady, CreateAll, KeyOf, ExportOf, Firsts;
    forall k | 0 <= k < |kept| ensures Steady(c, kept[k]) {
      FirstsAreSome(specs, KeyOf, k);
    }
    SteadySpecsSurvive(c, kept);
  }

  /** Two requests have one key if and only if they agree in kind, target, the set of cameras and the line, where no
      line counts as the empty one. */
  lemma KeysAgreeIff(a: Ask, b: Ask)
    ensures KeyOf(a) == KeyOf(b) <==>
      && a.kind == b.kind && a.target == b.target && (forall cam :: cam in a.cameras <==> cam in b.cameras)
      && (a.line == b.line || (a.line in {None, Some([])} && b.line in {None, Some([])}))
  {
    SameMembers(a.cameras, b.cameras);
  }

  /** What a request becomes: a tidied target, and the manager's interval for none or zero. */
  lemma NormalIs(c: Config, ask: Ask)
    ensures var own := ask.interval.None? || ask.interval.value == H.Finite(0.0);
      Normal(c, ask) == ask.(target := Lower(Strip(ask.target)),
                             interval := Some(if own then H.Finite(c.interval) else ask.interval.value))
  {
    hide Strip, Lower;
  }

  /** The interval is outside the key: of two monitors that differ only in it, the first wins. */
  lemma FirstIntervalWins(ask: Ask, interval: Option<H.Number>)
    ensures KeyOf(ask) == KeyOf(ask.(interval := interval))
    ensures Firsts([ask, ask.(interval := interval)], KeyOf) == [ask]
  {
    FirstOfTwoWins(ask, ask.(interval := interval), KeyOf);
  }
}
