/**
 The synthetic demo pipeline: a scene spec is parsed, embedded behind a JPEG between two markers, read
 back by the demo detector, de-duplicated and counted.

 Bytes are modelled as characters. The JSON codec and the integer parser are parameters; of the codec
 only two facts are used: it is invertible on the scene, and its text has no upper-case letters.
 */
module Synthetic {
  import opened Common
  import opened Text
  import opened Dedup

  type Bytes = string

  /** One entry of the scene dict, in insertion order. */
  datatype Item = Item(name: string, count: nat)

  type Scene = seq<Item>

  const OPEN: Bytes := "<SYNTH>"
  const CLOSE: Bytes := "</SYNTH>"

  // ---------- Parsing the spec ----------

  /** Aliases and plurals reduced to the label the detector emits. */
  function Singular(name: string): string
  {
    var n := if name == "people" || name == "persons" || name == "ppl" then "person" else name;
    if n != [] && n[|n| - 1] == 's' && n != "bus" then n[..|n| - 1] else n
  }

  /** What one comma-separated part contributes, if anything. */
  function PartOf(part: string, toInt: string -> Option<int>): Option<Item>
  {
    var p := Strip(part);
    if '=' !in p then None else
    var i := IndexOf(p, '=');
    var name := Singular(Lower(Strip(p[..i])));
    match toInt(Strip(p[i + 1..]))
    case None => None
    case Some(n) => if n > 0 && name != [] then Some(Item(name, n)) else None
  }

  /** A label and a number around the first equals sign, each with or without whitespace: an item, if the number is
      positive and something is left of the label. */
  lemma PairIsRead(key: string, amount: string, toInt: string -> Option<int>)
    requires '=' !in key
    ensures var name, n := Singular(Lower(Strip(key))), toInt(Strip(amount));
      PartOf(key + "=" + amount, toInt) ==
        if n.Some? && n.value > 0 && name != "" then Some(Item(name, n.value)) else None
  {
    var left, right := StripLeft(key), StripRight(amount);
    PairStrips(key, amount);
    LeftHasNoMore(key, '=');
    PairSplits(left, right);
    StripTwiceLeft(key);
    StripTwiceRight(amount);
    hide Strip, Lower, Singular, StripLeft, StripRight, IndexOf;
  }

  lemma PairStrips(key: string, amount: string)
    ensures Strip(key + "=" + amount) == StripLeft(key) + "=" + StripRight(amount)
  {
    var left, right := StripLeft(key), StripRight(amount);
    var a := StripLeftCuts(key);
    var b := StripRightCuts(amount);
    PairIsTrimmed(key, amount);
    hide *;
    StripIsUnique(a, left + "=" + right, b);
    Regroup(a, left, "=", right, b);
  }

  lemma PairIsTrimmed(key: string, amount: string)
    ensures Trimmed(StripLeft(key) + "=" + StripRight(amount))
  {
    StripLeftStarts(key);
    StripRightEnds(amount);
    hide StripLeft, StripRight;
    assert !IsSpace('=');
  }

  lemma Regroup(a: string, left: string, middle: string, right: string, b: string)
    ensures (a + left) + middle + (right + b) == a + (left + middle + right) + b
  {
  }

  lemma LeftHasNoMore(s: string, c: char)
    requires c !in s
    ensures c !in StripLeft(s)
  {
    var a := StripLeftCuts(s);
    hide StripLeft;
    assert forall i :: 0 <= i < |StripLeft(s)| ==> StripLeft(s)[i] == s[|a| + i];
  }

  lemma PairSplits(left: string, right: string)
    requires '=' !in left
    ensures var p := left + "=" + right;
      '=' in p && IndexOf(p, '=') == |left| && p[..|left|] == left && p[|left| + 1..] == right
  {
    var p := left + "=" + right;
    assert p[..|left|] == left && p[|left|] == '=' && p[|left| + 1..] == right;
    FirstIndex(p, '=', |left|);
  }

  lemma StripTwiceLeft(s: string)
    ensures Strip(StripLeft(s)) == Strip(s)
  {
    StripLeftStarts(s);
    StripLeftOf("", StripLeft(s));
    assert "" + StripLeft(s) == StripLeft(s);
  }

  lemma StripTwiceRight(s: string)
    ensures Strip(StripRight(s)) == Strip(s)
  {
    var b := StripRightCuts(s);
    var a, c := StripCutsWhitespace(StripRight(s));
    var t := Strip(StripRight(s));
    assert s == a + t + (c + b);
    StripIsUnique(a, t, c + b);
  }

  lemma NoPairIsSkipped(part: string, toInt: string -> Option<int>)
    requires '=' !in part
    ensures PartOf(part, toInt) == None
  {
    var a, b := StripCutsWhitespace(part);
    assert forall i :: 0 <= i < |Strip(part)| ==> Strip(part)[i] == part[|a| + i];
  }

  /** Three names for people mean a person; otherwise a final s is dropped, but not that of a bus. */
  lemma SingularDropsTheS(name: string)
    ensures name in {"people", "persons", "ppl"} ==> Singular(name) == "person"
    ensures name !in {"people", "persons", "ppl", "bus"} ==>
      (Singular(name) == name && (name == "" || name[|name| - 1] != 's')) || Singular(name) + "s" == name
    ensures Singular("bus") == "bus"
  {
  }

  /** `out[label] = out.get(label, 0) + n` */
  function AddItem(scene: Scene, item: Item): Scene
  {
    if scene == [] then [item]
    else if scene[0].name == item.name then [Item(item.name, scene[0].count + item.count)] + scene[1..]
    else [scene[0]] + AddItem(scene[1..], item)
  }

  function ParseParts(parts: seq<string>, toInt: string -> Option<int>): Scene
  {
    if parts == [] then [] else
    var before := ParseParts(parts[..|parts| - 1], toInt);
    match PartOf(parts[|parts| - 1], toInt)
    case None => before
    case Some(item) => AddItem(before, item)
  }

  method ParseSynthSpec(spec: string, toInt: string -> Option<int>) returns (scene: Scene)
    ensures scene == ParseParts(SplitOn(spec, ','), toInt)
    ensures ProperScene(scene)
  {
    scene := [];
    var parts := SplitOn(spec, ',');
    for k := 0 to |parts|
      invariant scene == ParseParts(parts[..k], toInt)
    {
      assert parts[..k + 1][..k] == parts[..k];
      var part := PartOf(parts[k], toInt);
      if part.Some? {
        scene := AddItem(scene, part.value);
      }
    }
    assert parts[..|parts|] == parts;
    ParsedIsProper(parts, toInt);
  }

  /** A label as parsing leaves it: not empty, starting with a non-space, without upper-case letters. */
  predicate ProperItem(x: Item)
  {
    x.count > 0 && x.name != [] && !IsSpace(x.name[0]) && NoUpper(x.name)
  }

  predicate ProperScene(scene: Scene)
  {
    && (forall x :: x in scene ==> ProperItem(x))
    && (forall i, j :: 0 <= i < j < |scene| ==> scene[i].name != scene[j].name)
  }

  /** How many objects named `name` a scene, or a list of parts, asks for. */
  function CountNamed(scene: Scene, name: string): nat
  {
    if scene == [] then 0 else (if scene[0].name == name then scene[0].count else 0) + CountNamed(scene[1..], name)
  }

  function PartsNamed(parts: seq<string>, toInt: string -> Option<int>, name: string): nat
  {
    if parts == [] then 0 else
    var before := PartsNamed(parts[..|parts| - 1], toInt, name);
    match PartOf(parts[|parts| - 1], toInt)
    case None => before
    case Some(item) => if item.name == name then before + item.count else before
  }

  lemma PartIsProper(part: string, toInt: string -> Option<int>)
    ensures PartOf(part, toInt).Some? ==> ProperItem(PartOf(part, toInt).value)
  {
    var p := Strip(part);
    if '=' in p {
      var raw := p[..IndexOf(p, '=')];
      StripTrims(raw);
      var low := Lower(Strip(raw));
      assert low != [] ==> low[0] == LowerChar(Strip(raw)[0]);
      assert NoUpper(low);
      assert NoUpper("person");
    }
  }

  predicate HasName(scene: Scene, name: string)
  {
    exists i :: 0 <= i < |scene| && scene[i].name == name
  }

  lemma {:induction false} AddItemNames(scene: Scene, item: Item, name: string)
    ensures HasName(AddItem(scene, item), name) <==> HasName(scene, name) || name == item.name
  {
    if scene == [] {
      assert AddItem(scene, item)[0] == item;
    } else {
      HasNameCons(scene[0], scene[1..], name);
      assert scene == [scene[0]] + scene[1..];
      if scene[0].name == item.name {
        HasNameCons(Item(item.name, scene[0].count + item.count), scene[1..], name);
      } else {
        AddItemNames(scene[1..], item, name);
        HasNameCons(scene[0], AddItem(scene[1..], item), name);
      }
    }
  }

  lemma HasNameCons(x: Item, scene: Scene, name: string)
    ensures HasName([x] + scene, name) <==> x.name == name || HasName(scene, name)
  {
    var all := [x] + scene;
    assert all[0] == x && forall i :: 0 <= i < |scene| ==> all[i + 1] == scene[i];
    if HasName(all, name) && x.name != name {
      var i :| 0 <= i < |all| && all[i].name == name;
      assert scene[i - 1].name == name;
    }
  }

  lemma {:induction false} AddItemKeepsProper(scene: Scene, item: Item)
    requires ProperScene(scene) && ProperItem(item)
    ensures ProperScene(AddItem(scene, item))
  {
    if scene != [] && scene[0].name != item.name {
      hide ProperItem;
      AddItemKeepsProper(scene[1..], item);
      AddItemNames(scene[1..], item, scene[0].name);
      var rest := AddItem(scene[1..], item);
      assert !HasName(scene[1..], scene[0].name);
      assert forall j :: 0 <= j < |rest| ==> rest[j].name != scene[0].name;
    }
  }

  lemma {:induction false} AddItemCounts(scene: Scene, item: Item, name: string)
    ensures CountNamed(AddItem(scene, item), name) ==
      CountNamed(scene, name) + (if name == item.name then item.count else 0)
  {
    if scene != [] && scene[0].name != item.name {
      AddItemCounts(scene[1..], item, name);
      var rest := AddItem(scene[1..], item);
      assert ([scene[0]] + rest)[1..] == rest;
    }
  }

  lemma {:induction false} ParsedIsProper(parts: seq<string>, toInt: string -> Option<int>)
    ensures ProperScene(ParseParts(parts, toInt))
  {
    if parts != [] {
      hide ProperScene, ProperItem, PartOf;
      assert ProperScene([]) by { EmptyIsProper(); }
      ParsedIsProper(parts[..|parts| - 1], toInt);
      PartIsProper(parts[|parts| - 1], toInt);
      if PartOf(parts[|parts| - 1], toInt).Some? {
        AddItemKeepsProper(ParseParts(parts[..|parts| - 1], toInt), PartOf(parts[|parts| - 1], toInt).value);
      }
    }
  }

  lemma EmptyIsProper()
    ensures ProperScene([])
  {
  }

  /** The parsed scene asks for each label as often as all parts naming it together. */
  lemma {:induction false} ParsedCounts(parts: seq<string>, toInt: string -> Option<int>, name: string)
    ensures CountNamed(ParseParts(parts, toInt), name) == PartsNamed(parts, toInt, name)
  {
    if parts != [] {
      hide PartOf;
      ParsedCounts(parts[..|parts| - 1], toInt, name);
      if PartOf(parts[|parts| - 1], toInt).Some? {
        AddItemCounts(ParseParts(parts[..|parts| - 1], toInt), PartOf(parts[|parts| - 1], toInt).value, name);
      }
    }
  }

  // ---------- The frame ----------

  /** `bytes.rfind`: searches downwards from `from`. */
  function RFindFrom(hay: Bytes, needle: Bytes, from: int): (i: int)
    ensures i == -1 || OccursAt(hay, needle, i)
    ensures forall k :: i < k <= from ==> !OccursAt(hay, needle, k)
    decreases from + 1
  {
    if from < 0 then -1
    else if OccursAt(hay, needle, from) then from
    else RFindFrom(hay, needle, from - 1)
  }

  function RFind(hay: Bytes, needle: Bytes): (i: int)
    ensures i == -1 || OccursAt(hay, needle, i)
    ensures forall k :: OccursAt(hay, needle, k) ==> k <= i
  {
    RFindFrom(hay, needle, |hay| - |needle|)
  }

  /** A frame: any JPEG followed by the scene between its markers. */
  function Frame(jpeg: Bytes, text: Bytes): Bytes
  {
    jpeg + (OPEN + text + CLOSE)
  }

  /** The labels of the scene, each repeated by its count. */
  function Labels(scene: Scene): seq<string>
  {
    if scene == [] then [] else seq(scene[0].count, _ => scene[0].name) + Labels(scene[1..])
  }

  const WIDTH := 0.14
  const HEIGHT := 0.45

  function SynthBox(idx: nat, total: nat): BBox
  {
    Box((idx + 1) as real / (total + 1) as real, 0.5, WIDTH, HEIGHT)
  }

  function Expand(labels: seq<string>): (ds: seq<Det>)
    ensures |ds| == |labels|
    ensures forall i :: 0 <= i < |labels| ==>
      ds[i] == Det(labels[i], "", Some(0.95), None, SynthBox(i, |labels|))
  {
    seq(|labels|, i requires 0 <= i < |labels| =>
      Det(labels[i], "", Some(0.95), None, SynthBox(i, |labels|)))
  }

  /** What the demo detector makes of a frame. */
  function Detections(frame: Bytes, decode: Bytes -> Option<Scene>): seq<Det>
  {
    var i, j := RFind(frame, OPEN), RFind(frame, CLOSE);
    if i == -1 || j == -1 || j < i then [] else
    var text := if i + |OPEN| <= j then frame[i + |OPEN|..j] else [];
    match decode(text)
    case None => []
    case Some(scene) => Expand(Labels(scene))
  }

  method SynthDetectionsFromFrame(frame: Bytes, decode: Bytes -> Option<Scene>) returns (dets: seq<Det>)
    ensures dets == Detections(frame, decode)
  {
    var i, j := RFind(frame, OPEN), RFind(frame, CLOSE);
    if i == -1 || j == -1 || j < i { return []; }
    var text := if i + |OPEN| <= j then frame[i + |OPEN|..j] else [];
    var spec := decode(text);
    if spec.None? { return []; }
    var labels: seq<string> := [];
    for k := 0 to |spec.value|
      invariant labels == Labels(spec.value[..k])
    {
      LabelsSnoc(spec.value[..k], spec.value[k]);
      assert spec.value[..k + 1] == spec.value[..k] + [spec.value[k]];
      labels := labels + seq(spec.value[k].count, _ => spec.value[k].name);
    }
    assert spec.value[..|spec.value|] == spec.value;
    dets := [];
    for idx := 0 to |labels|
      invariant |dets| == idx
      invariant forall m :: 0 <= m < idx ==>
        dets[m] == Det(labels[m], "", Some(0.95), None, SynthBox(m, |labels|))
    {
      dets := dets + [Det(labels[idx], "", Some(0.95), None, SynthBox(idx, |labels|))];
    }
    assert dets == Expand(labels);
  }

  lemma {:induction false} LabelsSnoc(scene: Scene, x: Item)
    ensures Labels(scene + [x]) == Labels(scene) + seq(x.count, _ => x.name)
  {
    var tail := seq(x.count, _ => x.name);
    if scene == [] {
      assert [] + [x] == [x];
      assert Labels([x]) == tail + Labels([]);
    } else {
      assert (scene + [x])[1..] == scene[1..] + [x];
      LabelsSnoc(scene[1..], x);
      var head := seq(scene[0].count, _ => scene[0].name);
      assert head + (Labels(scene[1..]) + tail) == head + Labels(scene[1..]) + tail;
    }
  }

  /** After its first byte the payload never has '<' directly before 'S'. */
  lemma NoSecondOpen(text: Bytes, m: nat)
    requires NoUpper(text) && 0 < m && m + 1 < |OPEN + text + CLOSE|
    ensures var p := OPEN + text + CLOSE; p[m] != '<' || p[m + 1] != 'S'
  {
    var p := OPEN + text + CLOSE;
    assert p[m] == if m < 7 then OPEN[m] else if m < 7 + |text| then text[m - 7] else CLOSE[m - 7 - |text|];
    assert p[m + 1] == if m < 6 then OPEN[m + 1] else if m < 6 + |text| then text[m - 6] else CLOSE[m - 6 - |text|];
  }

  /** The opening marker found from the right is the real one, whatever the JPEG contains. */
  lemma OpenIsFound(jpeg: Bytes, text: Bytes)
    requires NoUpper(text)
    ensures RFind(Frame(jpeg, text), OPEN) == |jpeg|
  {
    var f, n := Frame(jpeg, text), |jpeg|;
    assert f[n..n + 7] == OPEN;
    assert OccursAt(f, OPEN, n);
    forall k | n < k && k + 7 <= |f| ensures !OccursAt(f, OPEN, k) {
      NoSecondOpen(text, k - n);
      assert f[k..k + 7][0] == f[k] && f[k..k + 7][1] == f[k + 1];
      assert f[k] == (OPEN + text + CLOSE)[k - n] && f[k + 1] == (OPEN + text + CLOSE)[k + 1 - n];
    }
  }

  /** The closing marker found from the right is the last eight bytes. */
  lemma CloseIsFound(jpeg: Bytes, text: Bytes)
    ensures RFind(Frame(jpeg, text), CLOSE) == |jpeg| + 7 + |text|
  {
    var f := Frame(jpeg, text);
    assert f[|f| - 8..] == CLOSE;
    assert OccursAt(f, CLOSE, |f| - 8);
  }

  /** Reading a synthetic frame gives back its scene, for any JPEG prefix, even one with markers in it. */
  lemma FrameRoundTrip(jpeg: Bytes, scene: Scene, encode: Scene -> Bytes, decode: Bytes -> Option<Scene>)
    requires decode(encode(scene)) == Some(scene) && NoUpper(encode(scene))
    ensures Detections(Frame(jpeg, encode(scene)), decode) == Expand(Labels(scene))
  {
    var f, text := Frame(jpeg, encode(scene)), encode(scene);
    OpenIsFound(jpeg, text);
    CloseIsFound(jpeg, text);
    hide RFind, Expand, Labels, Frame;
    TextIsThere(jpeg, text);
  }

  lemma TextIsThere(jpeg: Bytes, text: Bytes)
    ensures var f := Frame(jpeg, text); |f| == |jpeg| + 15 + |text| && f[|jpeg| + 7..|jpeg| + 7 + |text|] == text
  {
    SliceRight(jpeg, OPEN + text + CLOSE, |jpeg| + 7, |jpeg| + 7 + |text|);
    SliceLeft(OPEN + text, CLOSE, 7, 7 + |text|);
    SliceRight(OPEN, text, 7, 7 + |text|);
    assert text[0..|text|] == text;
  }

  // ---------- Which scenes survive de-duplication ----------

  /** Same-label boxes `i < j` of `n` are far enough apart: (j - i) / (n + 1) >= 63 / 1550. */
  predicate SpacedApart(i: nat, j: nat, n: nat)
    requires i < j
  {
    63 * (n + 1) <= 1550 * (j - i)
  }

  lemma OverlapShifted(c: real, d: real, size: real)
    requires d >= 0.0 && size >= 0.0
    ensures Overlap(c + d, size, c, size) == if d < size then size - d else 0.0
  {
  }

  lemma MulOrder(p: real, q: real, r: real)
    requires r > 0.0
    ensures p < q <==> p * r < q * r
  {
    if p < q {
      assert (q - p) * r > 0.0;
    } else {
      assert (p - q) * r >= 0.0;
    }
  }

  lemma QuotientOrder(a: real, b: real, c: real)
    requires b > 0.0
    ensures a / b > c <==> a > c * b
  {
    var q := a / b;
    assert q * b == a;
    MulOrder(c, q, b);
  }

  lemma RatioAbove(inter: real, areas: real)
    requires inter <= areas / 2.0 && areas > 0.0
    ensures Ratio(inter, areas) > IOU_THRESHOLD <==> 1.55 * inter > 0.55 * areas
  {
    if inter > 0.0 {
      var rest := areas - inter;
      QuotientOrder(inter, rest, IOU_THRESHOLD);
    }
  }

  lemma SceneBoxArea(x: real)
    ensures Area(Box(x, 0.5, WIDTH, HEIGHT)) == 0.063
  {
    AreaIsProduct(Box(x, 0.5, WIDTH, HEIGHT));
  }

  /** Two boxes of the scene's size, `d` apart, pass the threshold exactly when d < 63 / 1550. */
  lemma ShiftedIou(x: real, d: real)
    requires d >= 0.0
    ensures Iou(Box(x + d, 0.5, WIDTH, HEIGHT), Box(x, 0.5, WIDTH, HEIGHT)) > IOU_THRESHOLD <==> d * 1550.0 < 63.0
  {
    SceneBoxArea(x + d);
    SceneBoxArea(x);
    ShiftedIntersection(x, d);
    hide Intersection, Area, Ratio;
    RatioAbove(if d < 0.14 then (0.14 - d) * 0.45 else 0.0, 0.126);
  }

  lemma ShiftedIntersection(x: real, d: real)
    requires d >= 0.0
    ensures Intersection(Box(x + d, 0.5, WIDTH, HEIGHT), Box(x, 0.5, WIDTH, HEIGHT)) ==
      if d < 0.14 then (0.14 - d) * 0.45 else 0.0
  {
    OverlapShifted(x, d, WIDTH);
    OverlapShifted(0.5, 0.0, HEIGHT);
    hide Overlap;
  }

  lemma BoxDistance(i: nat, j: nat, n: nat)
    requires i < j
    ensures var d := SynthBox(j, n).x - SynthBox(i, n).x;
      d >= 0.0 && (d * 1550.0 < 63.0 <==> !SpacedApart(i, j, n))
  {
    var m := (n + 1) as real;
    var d := SynthBox(j, n).x - SynthBox(i, n).x;
    FractionDifference((j + 1) as real, (i + 1) as real, m);
    ScaledOrder(d, m, j - i, n + 1);
  }

  lemma ScaledOrder(d: real, m: real, k: nat, total: nat)
    requires m == total as real && total > 0 && d * m == k as real
    ensures d >= 0.0 && (d * 1550.0 < 63.0 <==> 1550 * k < 63 * total)
  {
    MulOrder(d, 0.0, m);
    MulOrder(d, 63.0 / 1550.0, m);
    assert d < 63.0 / 1550.0 <==> k as real < 63.0 / 1550.0 * m;
    assert 63.0 / 1550.0 * m == 63.0 * m / 1550.0;
    assert k as real * 1550.0 == (1550 * k) as real && 63.0 * m == (63 * total) as real;
  }

  lemma FractionDifference(a: real, b: real, m: real)
    requires m > 0.0
    ensures (a / m - b / m) * m == a - b
  {
    assert a / m * m == a;
    assert b / m * m == b;
  }

  /** Two detections of a scene repeat each other exactly when label and distance say so. */
  lemma SynthDup(labels: seq<string>, i: nat, j: nat)
    requires i < j < |labels|
    ensures var ds := Expand(labels);
      Dup(ds[j], ds[i], IOU_THRESHOLD) <==> Kind(ds[i]) == Kind(ds[j]) && !SpacedApart(i, j, |labels|)
  {
    var n := |labels|;
    BoxDistance(i, j, n);
    ShiftedIou(SynthBox(i, n).x, SynthBox(j, n).x - SynthBox(i, n).x);
  }

  /** What the tools count: at most 64 detections, de-duplicated. */
  function Counted(ds: seq<Det>): seq<Det>
  {
    Deduped(if |ds| <= 64 then ds else ds[..64], IOU_THRESHOLD)
  }

  /** The exact condition under which every object of a scene survives. */
  predicate Survives(labels: seq<string>)
  {
    |labels| <= 64 &&
    forall i, j :: 0 <= i < j < |labels| && Kind(Expand(labels)[i]) == Kind(Expand(labels)[j]) ==>
      SpacedApart(i, j, |labels|)
  }

  lemma SmallScenesSurvive(labels: seq<string>)
    requires |labels| <= 23
    ensures Survives(labels)
  {
  }

  lemma SortOfEquals(labels: seq<string>)
    ensures Descending(Expand(labels))
  {
  }

  lemma PairwiseDup(labels: seq<string>)
    ensures NoRepeats(Expand(labels), IOU_THRESHOLD) <==>
      forall i, j :: 0 <= i < j < |labels| && Kind(Expand(labels)[i]) == Kind(Expand(labels)[j]) ==>
        SpacedApart(i, j, |labels|)
  {
    var ds := Expand(labels);
    forall i, j | 0 <= i < j < |labels|
      ensures Dup(ds[j], ds[i], IOU_THRESHOLD) <==> Kind(ds[i]) == Kind(ds[j]) && !SpacedApart(i, j, |labels|)
    {
      SynthDup(labels, i, j);
    }
    hide Dup, Kind, SpacedApart;
  }

  /** Everything drawn is kept exactly when the scene is small or spread out enough. */
  lemma CountedIsAllIffSurvives(labels: seq<string>)
    ensures Counted(Expand(labels)) == Expand(labels) <==> Survives(labels)
  {
    var ds := Expand(labels);
    SortOfEquals(labels);
    SortOfSorted(ds);
    CountedIsNoLonger(ds);
    PairwiseDup(labels);
    hide NoRepeats, Expand, SpacedApart, Kind;
    if |labels| <= 64 {
      GreedyHasNoRepeats(ds, IOU_THRESHOLD);
      if NoRepeats(ds, IOU_THRESHOLD) { GreedyOfClean(ds, IOU_THRESHOLD); }
    }
  }

  lemma SubmultisetIsSmaller<T>(a: multiset<T>, b: multiset<T>)
    requires a <= b
    ensures |a| <= |b| && (|a| == |b| ==> a == b)
  {
    assert b == a + (b - a);
    assert |b| == |a| + |b - a|;
  }

  lemma CountedIsNoLonger(ds: seq<Det>)
    ensures multiset(Counted(ds)) <= multiset(ds) && |Counted(ds)| <= 64
  {
    var head := if |ds| <= 64 then ds else ds[..64];
    DedupIsSoundAndDominating(head, IOU_THRESHOLD);
    SubmultisetIsSmaller(multiset(Counted(ds)), multiset(head));
    if |ds| > 64 { assert ds == ds[..64] + ds[64..]; }
  }

  // ---------- Counts ----------

  /** `_summarize_detections` up to its per-label counts. */
  method CountLabels(ds: seq<Det>) returns (counts: map<string, nat>)
    ensures forall k :: k in counts <==> k != [] && OfKind(Counted(ds), k) != []
    ensures forall k :: k in counts ==> counts[k] == |OfKind(Counted(ds), k)|
  {
    hide Kind, Deduped;
    var deduped := DedupDetections(if |ds| <= 64 then ds else ds[..64], IOU_THRESHOLD);
    counts := map[];
    for i := 0 to |deduped|
      invariant forall k :: k in counts <==> k != [] && OfKind(deduped[..i], k) != []
      invariant forall k :: k in counts ==> counts[k] == |OfKind(deduped[..i], k)|
    {
      assert deduped[..i + 1] == deduped[..i] + [deduped[i]];
      forall k ensures OfKind(deduped[..i + 1], k) ==
        if Kind(deduped[i]) == k then OfKind(deduped[..i], k) + [deduped[i]] else OfKind(deduped[..i], k)
      {
        OfKindSnoc(deduped[..i], deduped[i], k);
      }
      var kind := Kind(deduped[i]);
      if kind != [] {
        counts := counts[kind := (if kind in counts then counts[kind] else 0) + 1];
      }
    }
    assert deduped[..|deduped|] == deduped;
  }

  /** How many objects of a scene carry a label that strips to `kind`. */
  function SceneCount(scene: Scene, kind: string): nat
  {
    if scene == [] then 0 else
    (if Strip(scene[0].name) == kind then scene[0].count else 0) + SceneCount(scene[1..], kind)
  }

  function Stripped(labels: seq<string>, kind: string): nat
  {
    if labels == [] then 0 else (if Strip(labels[0]) == kind then 1 else 0) + Stripped(labels[1..], kind)
  }

  lemma {:induction false} StrippedConcat(a: seq<string>, b: seq<string>, kind: string)
    ensures Stripped(a + b, kind) == Stripped(a, kind) + Stripped(b, kind)
  {
    if a == [] {
      assert a + b == b;
    } else {
      assert (a + b)[1..] == a[1..] + b;
      StrippedConcat(a[1..], b, kind);
    }
  }

  lemma {:induction false} StrippedRepeat(name: string, n: nat, kind: string)
    ensures Stripped(seq(n, _ => name), kind) == if Strip(name) == kind then n else 0
  {
    if n > 0 {
      assert seq(n, _ => name)[1..] == seq(n - 1, _ => name);
      StrippedRepeat(name, n - 1, kind);
    }
  }

  lemma {:induction false} LabelsCount(scene: Scene, kind: string)
    ensures Stripped(Labels(scene), kind) == SceneCount(scene, kind)
  {
    if scene != [] {
      LabelsCount(scene[1..], kind);
      StrippedRepeat(scene[0].name, scene[0].count, kind);
      StrippedConcat(seq(scene[0].count, _ => scene[0].name), Labels(scene[1..]), kind);
    }
  }

  lemma {:induction false} KindsCount(ds: seq<Det>, labels: seq<string>, kind: string)
    requires |ds| == |labels| && forall i :: 0 <= i < |ds| ==> Kind(ds[i]) == Strip(labels[i])
    ensures |OfKind(ds, kind)| == Stripped(labels, kind)
  {
    hide Kind, Strip;
    if ds != [] { KindsCount(ds[1..], labels[1..], kind); }
  }

  lemma {:induction false} LabelsAreProper(scene: Scene)
    requires forall x :: x in scene ==> ProperItem(x)
    ensures forall i :: 0 <= i < |Labels(scene)| ==> Labels(scene)[i] != []
  {
    if scene != [] {
      LabelsAreProper(scene[1..]);
      assert scene[0] in scene;
    }
  }

  lemma SceneKinds(scene: Scene, kind: string)
    requires ProperScene(scene)
    ensures |OfKind(Expand(Labels(scene)), kind)| == SceneCount(scene, kind)
  {
    var labels := Labels(scene);
    LabelsAreProper(scene);
    forall i | 0 <= i < |labels| ensures Kind(Expand(labels)[i]) == Strip(labels[i]) {
      assert Expand(labels)[i].name == labels[i];
    }
    hide Kind, Strip;
    KindsCount(Expand(labels), labels, kind);
    LabelsCount(scene, kind);
  }

  /** The pipeline is exact for scenes of at most 23 objects: whatever JPEG comes first, the counts read
      off the frame are the counts of the scene. */
  lemma PipelineIsExact(jpeg: Bytes, scene: Scene, encode: Scene -> Bytes, decode: Bytes -> Option<Scene>, kind: string)
    requires decode(encode(scene)) == Some(scene) && NoUpper(encode(scene))
    requires ProperScene(scene) && |Labels(scene)| <= 23
    ensures |OfKind(Counted(Detections(Frame(jpeg, encode(scene)), decode)), kind)| == SceneCount(scene, kind)
  {
    FrameRoundTrip(jpeg, scene, encode, decode);
    SmallScenesSurvive(Labels(scene));
    CountedIsAllIffSurvives(Labels(scene));
    SceneKinds(scene, kind);
  }

  lemma {:induction false} OfKindMultiset(s: seq<Det>, kind: string, d: Det)
    ensures multiset(OfKind(s, kind))[d] == if Kind(d) == kind then multiset(s)[d] else 0
  {
    hide Kind;
    if s != [] {
      assert s == [s[0]] + s[1..];
      OfKindMultiset(s[1..], kind, d);
    }
  }

  lemma {:induction false} FullGreedyIsIdentity(s: seq<Det>, threshold: real)
    ensures |Greedy(s, threshold)| <= |s|
    ensures |Greedy(s, threshold)| == |s| ==> Greedy(s, threshold) == s
  {
    hide Suppressed;
    if s != [] {
      FullGreedyIsIdentity(s[..|s| - 1], threshold);
      assert s == s[..|s| - 1] + [s[|s| - 1]];
    }
  }

  lemma SameSizeIsAll(labels: seq<string>)
    requires |Counted(Expand(labels))| == |labels|
    ensures Counted(Expand(labels)) == Expand(labels)
  {
    CountedIsNoLonger(Expand(labels));
    SortOfEquals(labels);
    SortOfSorted(Expand(labels));
    FullGreedyIsIdentity(Expand(labels), IOU_THRESHOLD);
  }

  /** If anything is lost, some label's count is too low. */
  lemma LossShowsInACount(labels: seq<string>) returns (kind: string)
    requires Counted(Expand(labels)) != Expand(labels)
    ensures |OfKind(Counted(Expand(labels)), kind)| < |OfKind(Expand(labels), kind)|
  {
    var ds := Expand(labels);
    var kept := Counted(ds);
    CountedIsNoLonger(ds);
    if |kept| == |ds| { SameSizeIsAll(labels); }
    hide Expand, Kind, Counted;
    SubmultisetIsSmaller(multiset(kept), multiset(ds));
    assert |multiset(kept)| == |kept| && |multiset(ds)| == |ds|;
    var d := MissingOne(multiset(kept), multiset(ds));
    FewerOfKind(kept, ds, d);
    kind := Kind(d);
  }

  lemma MissingOne<T>(a: multiset<T>, b: multiset<T>) returns (x: T)
    requires a <= b && a != b
    ensures a[x] < b[x]
  {
    assert b == a + (b - a);
    assert b - a != multiset{};
    x :| x in b - a;
  }

  lemma FewerOfKind(kept: seq<Det>, ds: seq<Det>, d: Det)
    requires multiset(kept) <= multiset(ds) && multiset(kept)[d] < multiset(ds)[d]
    ensures |OfKind(kept, Kind(d))| < |OfKind(ds, Kind(d))|
  {
    var a, b := OfKind(kept, Kind(d)), OfKind(ds, Kind(d));
    forall x ensures multiset(a)[x] <= multiset(b)[x] {
      OfKindMultiset(kept, Kind(d), x);
      OfKindMultiset(ds, Kind(d), x);
    }
    OfKindMultiset(kept, Kind(d), d);
    OfKindMultiset(ds, Kind(d), d);
    SubmultisetIsSmaller(multiset(a), multiset(b));
    assert |multiset(a)| == |a| && |multiset(b)| == |b|;
  }

  /** The pipeline is exact on a scene if and only if its labels survive: at most 64 objects, same-label
      ones far enough apart. */
  lemma PipelineIsExactIffSurvives(jpeg: Bytes, scene: Scene, encode: Scene -> Bytes, decode: Bytes -> Option<Scene>)
    requires decode(encode(scene)) == Some(scene) && NoUpper(encode(scene)) && ProperScene(scene)
    ensures (forall kind :: |OfKind(Counted(Detections(Frame(jpeg, encode(scene)), decode)), kind)| ==
                            SceneCount(scene, kind))
      <==> Survives(Labels(scene))
  {
    var labels := Labels(scene);
    FrameRoundTrip(jpeg, scene, encode, decode);
    CountedIsAllIffSurvives(labels);
    forall kind ensures |OfKind(Expand(labels), kind)| == SceneCount(scene, kind) {
      SceneKinds(scene, kind);
    }
    if Counted(Expand(labels)) != Expand(labels) {
      var kind := LossShowsInACount(labels);
    }
  }

  lemma {:induction false} RepeatedLabel(scene: Scene, p: nat) returns (o: nat)
    requires p < |scene| && scene[p].count >= 2
    ensures o + 1 < |Labels(scene)| && Labels(scene)[o] == Labels(scene)[o + 1]
  {
    if p == 0 {
      o := 0;
    } else {
      var o1 := RepeatedLabel(scene[1..], p - 1);
      o := scene[0].count + o1;
      assert Labels(scene)[o] == Labels(scene[1..])[o1];
      assert Labels(scene)[o + 1] == Labels(scene[1..])[o1 + 1];
    }
  }

  lemma {:induction false} SingleLabels(scene: Scene)
    requires forall p :: 0 <= p < |scene| ==> scene[p].count == 1
    ensures |Labels(scene)| == |scene|
    ensures forall p :: 0 <= p < |scene| ==> Labels(scene)[p] == scene[p].name
  {
    if scene != [] {
      SingleLabels(scene[1..]);
      forall p | 0 < p < |scene| ensures Labels(scene)[p] == scene[p].name {
        assert Labels(scene)[p] == Labels(scene[1..])[p - 1];
      }
    }
  }

  /** When no label ends in whitespace, the exact condition can be read off the scene: at most 23
      objects, or at most 64 of which no two share a label. */
  lemma SurvivesIffSmallOrDistinct(scene: Scene)
    requires ProperScene(scene) && forall p :: 0 <= p < |scene| ==> Strip(scene[p].name) == scene[p].name
    ensures var n := |Labels(scene)|;
      Survives(Labels(scene)) <==> n <= 23 || (n <= 64 && forall p :: 0 <= p < |scene| ==> scene[p].count == 1)
  {
    var labels := Labels(scene);
    if |labels| <= 23 {
      SmallScenesSurvive(labels);
    } else if p :| 0 <= p < |scene| && scene[p].count != 1 {
      assert scene[p] in scene;
      var o := RepeatedLabel(scene, p);
      assert Kind(Expand(labels)[o]) == Kind(Expand(labels)[o + 1]);
      assert !SpacedApart(o, o + 1, |labels|);
    } else {
      SingleLabels(scene);
      forall i, j | 0 <= i < j < |labels| ensures Kind(Expand(labels)[i]) != Kind(Expand(labels)[j]) {
        assert scene[i] in scene && scene[j] in scene;
        assert Kind(Expand(labels)[i]) == scene[i].name && Kind(Expand(labels)[j]) == scene[j].name;
      }
    }
  }

  // ---------- The frame source ----------

  class SyntheticFrameSource {
    const spec: Scene
    var cached: Option<Bytes>

    constructor (spec: string, toInt: string -> Option<int>)
      ensures this.spec == ParseParts(SplitOn(spec, ','), toInt) && ProperScene(this.spec) && cached.None?
    {
      var scene := ParseSynthSpec(spec, toInt);
      this.spec := scene;
      cached := None;
    }

    /** `drawn` is the rendered JPEG, or nothing when the renderer is missing: the first rendered frame is
        returned by every later call, whatever the renderer would produce then. */
    method Fetch(drawn: Option<Bytes>, encode: Scene -> Bytes) returns (frame: Option<Bytes>)
      modifies this`cached
      ensures frame == cached
      ensures old(cached).Some? ==> cached == old(cached)
      ensures old(cached).None? ==>
        cached == if drawn.None? then None else Some(Frame(drawn.value, encode(spec)))
    {
      if cached.Some? { return cached; }
      if drawn.None? { return None; }
      cached := Some(drawn.value + (OPEN + encode(spec) + CLOSE));
      frame := cached;
    }
  }
}
