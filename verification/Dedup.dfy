/**
 Greedy per-label non-maximum suppression over centre-form boxes, and the count per label built on it.
 */
module Dedup {
  import opened Common
  import opened Text

  /** `bbox` as found in a detection: not a dict, a dict without the four numbers, or a box. */
  datatype BBox = NotADict | Partial | Box(x: real, y: real, w: real, h: real)

  /** An empty `name` or `cls` stands for a missing or falsy "label" or "class". */
  datatype Det = Det(name: string, cls: string, confidence: Option<real>, score: Option<real>, bbox: BBox)

  const IOU_THRESHOLD := 0.55

  // ---------- Intersection over union ----------

  function Max(a: real, b: real): real
  {
    if a < b then b else a
  }

  function Min(a: real, b: real): real
  {
    if b < a then b else a
  }

  /** Length of the overlap of two intervals given by centre and size. */
  function Overlap(c1: real, s1: real, c2: real, s2: real): real
  {
    Max(0.0, Min(c1 + s1 / 2.0, c2 + s2 / 2.0) - Max(c1 - s1 / 2.0, c2 - s2 / 2.0))
  }

  function Area(b: BBox): real
    requires b.Box?
  {
    (b.x + b.w / 2.0 - (b.x - b.w / 2.0)) * (b.y + b.h / 2.0 - (b.y - b.h / 2.0))
  }

  function Intersection(a: BBox, b: BBox): real
    requires a.Box? && b.Box?
  {
    Overlap(a.x, a.w, b.x, b.w) * Overlap(a.y, a.h, b.y, b.h)
  }

  function Ratio(inter: real, areas: real): real
  {
    if inter <= 0.0 || areas - inter <= 0.0 then 0.0 else inter / (areas - inter)
  }

  function Iou(a: BBox, b: BBox): real
  {
    if a.Box? && b.Box? then Ratio(Intersection(a, b), Area(a) + Area(b)) else 0.0
  }

  lemma IouSymmetric(a: BBox, b: BBox)
    ensures Iou(a, b) == Iou(b, a)
  {
    if a.Box? && b.Box? {
      assert Overlap(a.x, a.w, b.x, b.w) == Overlap(b.x, b.w, a.x, a.w);
      assert Overlap(a.y, a.h, b.y, b.h) == Overlap(b.y, b.h, a.y, a.h);
      hide Overlap, Ratio;
      assert Intersection(a, b) == Intersection(b, a);
    }
  }

  lemma ProductMonotone(a: real, b: real, c: real, d: real)
    requires 0.0 <= a <= c && 0.0 <= b <= d
    ensures 0.0 <= a * b <= c * d
  {
    assert a * b <= c * b;
    assert c * b <= c * d;
  }

  lemma AreaIsProduct(b: BBox)
    requires b.Box?
    ensures Area(b) == b.w * b.h
  {
    assert b.x + b.w / 2.0 - (b.x - b.w / 2.0) == b.w;
    assert b.y + b.h / 2.0 - (b.y - b.h / 2.0) == b.h;
  }

  lemma OverlapBounds(c1: real, s1: real, c2: real, s2: real)
    requires s1 >= 0.0 && s2 >= 0.0
    ensures 0.0 <= Overlap(c1, s1, c2, s2) <= s1 && Overlap(c1, s1, c2, s2) <= s2
  {
  }

  lemma FitsInside(iw: real, ih: real, b: BBox)
    requires b.Box? && 0.0 <= iw <= b.w && 0.0 <= ih <= b.h
    ensures 0.0 <= iw * ih <= Area(b)
  {
    AreaIsProduct(b);
    hide Area;
    ProductMonotone(iw, ih, b.w, b.h);
  }

  lemma IntersectionBounds(a: BBox, b: BBox)
    requires a.Box? && b.Box? && a.w >= 0.0 && a.h >= 0.0 && b.w >= 0.0 && b.h >= 0.0
    ensures 0.0 <= Intersection(a, b) <= Area(a) && Intersection(a, b) <= Area(b)
  {
    OverlapBounds(a.x, a.w, b.x, b.w);
    OverlapBounds(a.y, a.h, b.y, b.h);
    hide Area, Overlap;
    FitsInside(Overlap(a.x, a.w, b.x, b.w), Overlap(a.y, a.h, b.y, b.h), a);
    FitsInside(Overlap(a.x, a.w, b.x, b.w), Overlap(a.y, a.h, b.y, b.h), b);
  }

  lemma RatioInUnit(inter: real, areas: real)
    requires 0.0 <= inter && 2.0 * inter <= areas
    ensures 0.0 <= Ratio(inter, areas) <= 1.0
  {
    if inter > 0.0 {
      var rest := areas - inter;
      assert inter / rest * rest == inter;
    }
  }

  /** For boxes of non-negative size the overlap ratio lies in [0, 1]. */
  lemma IouInUnit(a: BBox, b: BBox)
    requires a.Box? ==> a.w >= 0.0 && a.h >= 0.0
    requires b.Box? ==> b.w >= 0.0 && b.h >= 0.0
    ensures 0.0 <= Iou(a, b) <= 1.0
  {
    if a.Box? && b.Box? {
      IntersectionBounds(a, b);
      hide Intersection, Area, Ratio;
      RatioInUnit(Intersection(a, b), Area(a) + Area(b));
    }
  }

  lemma RatioOfEquals(x: real)
    requires x > 0.0
    ensures Ratio(x, x + x) == 1.0
  {
    assert x / x == 1.0;
  }

  /** A box of positive size overlaps itself completely: exact repeats always exceed the threshold. */
  lemma IouSelf(a: BBox)
    requires a.Box? && a.w > 0.0 && a.h > 0.0
    ensures Iou(a, a) == 1.0
  {
    AreaIsProduct(a);
    assert Overlap(a.x, a.w, a.x, a.w) == a.w;
    assert Overlap(a.y, a.h, a.y, a.h) == a.h;
    hide Overlap, Area;
    assert Intersection(a, a) == a.w * a.h;
    RatioOfEquals(a.w * a.h);
  }

  // ---------- What the ratio is ----------

  /** The point lies inside the box, edges excluded. */
  predicate Inside(b: BBox, px: real, py: real)
    requires b.Box?
  {
    b.x - b.w / 2.0 < px < b.x + b.w / 2.0 && b.y - b.h / 2.0 < py < b.y + b.h / 2.0
  }

  ghost predicate ShareAPoint(a: BBox, b: BBox)
    requires a.Box? && b.Box?
  {
    exists px: real, py: real :: Inside(a, px, py) && Inside(b, px, py)
  }

  predicate Between(lo: real, p: real, hi: real)
  {
    lo < p < hi
  }

  /** Two intervals by centre and size have exactly the points between `lo` and `hi` in common. */
  lemma CommonInterval(c1: real, s1: real, c2: real, s2: real) returns (lo: real, hi: real)
    ensures forall p: real :: Between(lo, p, hi) <==>
      Between(c1 - s1 / 2.0, p, c1 + s1 / 2.0) && Between(c2 - s2 / 2.0, p, c2 + s2 / 2.0)
    ensures Overlap(c1, s1, c2, s2) == if lo < hi then hi - lo else 0.0
    ensures lo < hi ==> Between(lo, (lo + hi) / 2.0, hi)
  {
    lo := Max(c1 - s1 / 2.0, c2 - s2 / 2.0);
    hi := Min(c1 + s1 / 2.0, c2 + s2 / 2.0);
  }

  lemma PositiveProduct(a: real, b: real)
    requires a >= 0.0 && b >= 0.0
    ensures a * b >= 0.0 && (a * b > 0.0 <==> a > 0.0 && b > 0.0)
  {
  }

  lemma RatioIsShare(inter: real, areas: real)
    requires 0.0 <= inter && 2.0 * inter <= areas
    ensures Ratio(inter, areas) * (areas - inter) == inter
    ensures Ratio(inter, areas) == 0.0 <==> inter == 0.0
  {
    if inter > 0.0 {
      var rest := areas - inter;
      assert inter / rest * rest == inter;
    }
  }

  lemma InsideIsBetween(b: BBox, px: real, py: real)
    requires b.Box?
    ensures Inside(b, px, py) <==>
      Between(b.x - b.w / 2.0, px, b.x + b.w / 2.0) && Between(b.y - b.h / 2.0, py, b.y + b.h / 2.0)
  {
  }

  /** What two boxes have in common is a box, and the ratio is its share of the area both cover together. */
  lemma IouIsShare(a: BBox, b: BBox) returns (lx: real, hx: real, ly: real, hy: real)
    requires a.Box? && b.Box? && a.w >= 0.0 && a.h >= 0.0 && b.w >= 0.0 && b.h >= 0.0
    ensures forall px: real, py: real ::
      Inside(a, px, py) && Inside(b, px, py) <==> Between(lx, px, hx) && Between(ly, py, hy)
    ensures ShareAPoint(a, b) <==> lx < hx && ly < hy
    ensures Iou(a, b) == 0.0 <==> !ShareAPoint(a, b)
    ensures ShareAPoint(a, b) ==>
      var common := (hx - lx) * (hy - ly);
      Iou(a, b) * (a.w * a.h + b.w * b.h - common) == common
  {
    lx, hx := CommonInterval(a.x, a.w, b.x, b.w);
    ly, hy := CommonInterval(a.y, a.h, b.y, b.h);
    forall px: real, py: real
      ensures Inside(a, px, py) && Inside(b, px, py) <==> Between(lx, px, hx) && Between(ly, py, hy)
    {
      InsideIsBetween(a, px, py);
      InsideIsBetween(b, px, py);
    }
    if lx < hx && ly < hy {
      assert Between(lx, (lx + hx) / 2.0, hx) && Between(ly, (ly + hy) / 2.0, hy);
      assert Inside(a, (lx + hx) / 2.0, (ly + hy) / 2.0) && Inside(b, (lx + hx) / 2.0, (ly + hy) / 2.0);
    }
    assert ShareAPoint(a, b) <==> lx < hx && ly < hy by {
      if px: real, py: real :| Inside(a, px, py) && Inside(b, px, py) {
        assert Between(lx, px, hx) && Between(ly, py, hy);
      }
    }
    ShareOfArea(a, b, lx, hx, ly, hy);
  }

  lemma IouIsRatio(a: BBox, b: BBox)
    requires a.Box? && b.Box? && a.w >= 0.0 && a.h >= 0.0 && b.w >= 0.0 && b.h >= 0.0
    ensures 2.0 * Intersection(a, b) <= Area(a) + Area(b)
    ensures Iou(a, b) == Ratio(Intersection(a, b), Area(a) + Area(b))
  {
    IntersectionBounds(a, b);
    hide Intersection, Area, Ratio;
  }

  lemma IntersectionIsProduct(a: BBox, b: BBox)
    requires a.Box? && b.Box? && a.w >= 0.0 && a.h >= 0.0 && b.w >= 0.0 && b.h >= 0.0
    ensures Overlap(a.x, a.w, b.x, b.w) >= 0.0 && Overlap(a.y, a.h, b.y, b.h) >= 0.0
    ensures Intersection(a, b) == Overlap(a.x, a.w, b.x, b.w) * Overlap(a.y, a.h, b.y, b.h)
  {
    OverlapBounds(a.x, a.w, b.x, b.w);
    OverlapBounds(a.y, a.h, b.y, b.h);
    hide Overlap;
  }

  lemma ShareOfArea(a: BBox, b: BBox, lx: real, hx: real, ly: real, hy: real)
    requires a.Box? && b.Box? && a.w >= 0.0 && a.h >= 0.0 && b.w >= 0.0 && b.h >= 0.0
    requires Overlap(a.x, a.w, b.x, b.w) == if lx < hx then hx - lx else 0.0
    requires Overlap(a.y, a.h, b.y, b.h) == if ly < hy then hy - ly else 0.0
    ensures Iou(a, b) == 0.0 <==> !(lx < hx && ly < hy)
    ensures lx < hx && ly < hy ==>
      var common := (hx - lx) * (hy - ly);
      Iou(a, b) * (a.w * a.h + b.w * b.h - common) == common
  {
    hide *;
    IouIsRatio(a, b);
    IntersectionIsProduct(a, b);
    AreaIsProduct(a);
    AreaIsProduct(b);
    var iw, ih := Overlap(a.x, a.w, b.x, b.w), Overlap(a.y, a.h, b.y, b.h);
    ShareOfProduct(iw, ih, Area(a) + Area(b));
    if lx < hx && ly < hy {
      SameShare(Iou(a, b), Area(a) + Area(b), iw * ih, a.w * a.h + b.w * b.h, (hx - lx) * (hy - ly));
    }
  }

  lemma SameShare(r: real, areas: real, common: real, areas': real, common': real)
    requires areas == areas' && common == common' && r * (areas - common) == common
    ensures r * (areas' - common') == common'
  {
  }

  lemma ShareOfProduct(iw: real, ih: real, areas: real)
    requires iw >= 0.0 && ih >= 0.0 && 2.0 * (iw * ih) <= areas
    ensures Ratio(iw * ih, areas) == 0.0 <==> !(iw > 0.0 && ih > 0.0)
    ensures Ratio(iw * ih, areas) * (areas - iw * ih) == iw * ih
  {
    PositiveProduct(iw, ih);
    var inter := iw * ih;
    hide Ratio;
    RatioIsShare(inter, areas);
  }

  // ---------- The de-duplication ----------

  /** `str(det.get("label") or det.get("class") or "?").strip()` */
  function Kind(d: Det): string
  {
    Strip(if d.name != "" then d.name else if d.cls != "" then d.cls else "?")
  }

  function Conf(d: Det): real
  {
    if d.confidence.Some? && d.confidence.value != 0.0 then d.confidence.value
    else if d.score.Some? then d.score.value else 0.0
  }

  /** What a detection is called and how sure it is: the label before the class before a question mark, and the
      confidence before the score before nothing, where an empty text or a zero is passed over. */
  lemma FieldsAreRead(d: Det)
    ensures d.name != "" ==> Kind(d) == Strip(d.name)
    ensures d.name == "" && d.cls != "" ==> Kind(d) == Strip(d.cls)
    ensures d.name == "" && d.cls == "" ==> Kind(d) == "?"
    ensures d.confidence.Some? && d.confidence.value != 0.0 ==> Conf(d) == d.confidence.value
    ensures d.confidence in {None, Some(0.0)} ==> Conf(d) == if d.score.Some? then d.score.value else 0.0
  {
    TrimmedStays("?");
  }

  /** `d` repeats the already kept `k`. */
  predicate Dup(d: Det, k: Det, threshold: real)
  {
    Kind(k) == Kind(d) && Iou(d.bbox, k.bbox) > threshold
  }

  predicate Suppressed(d: Det, kept: seq<Det>, threshold: real)
  {
    !d.bbox.NotADict? && exists k :: k in kept && Dup(d, k, threshold)
  }

  function Insert(d: Det, s: seq<Det>): seq<Det>
  {
    if s == [] || Conf(d) >= Conf(s[0]) then [d] + s else [s[0]] + Insert(d, s[1..])
  }

  /** The stable sort by confidence, highest first. */
  function ByConfidence(s: seq<Det>): seq<Det>
  {
    if s == [] then [] else Insert(s[0], ByConfidence(s[1..]))
  }

  /** The greedy pass over detections in order. */
  function Greedy(s: seq<Det>, threshold: real): seq<Det>
  {
    if s == [] then [] else
    var kept, d := Greedy(s[..|s| - 1], threshold), s[|s| - 1];
    if Suppressed(d, kept, threshold) then kept else kept + [d]
  }

  function Deduped(ds: seq<Det>, threshold: real): seq<Det>
  {
    Greedy(ByConfidence(ds), threshold)
  }

  method DedupDetections(ds: seq<Det>, threshold: real) returns (kept: seq<Det>)
    ensures kept == Deduped(ds, threshold)
  {
    hide Iou, Kind;
    kept := [];
    var ordered := ByConfidence(ds);
    for i := 0 to |ordered|
      invariant kept == Greedy(ordered[..i], threshold)
    {
      assert ordered[..i + 1][..i] == ordered[..i];
      var det := ordered[i];
      if det.bbox.NotADict? {
        kept := kept + [det];
        continue;
      }
      var dup := false;
      for j := 0 to |kept|
        invariant !dup && forall k :: 0 <= k < j ==> !Dup(det, kept[k], threshold)
      {
        if Dup(det, kept[j], threshold) {
          dup := true;
          break;
        }
      }
      if !dup {
        kept := kept + [det];
      }
    }
    assert ordered[..|ordered|] == ordered;
  }

  // ---------- What it guarantees ----------

  predicate Descending(s: seq<Det>)
  {
    forall i, j :: 0 <= i < j < |s| ==> Conf(s[i]) >= Conf(s[j])
  }

  lemma {:induction false} InsertPermutes(d: Det, s: seq<Det>)
    ensures multiset(Insert(d, s)) == multiset(s) + multiset{d}
    ensures forall x :: x in Insert(d, s) ==> x == d || x in s
  {
    hide Conf;
    if s != [] {
      assert s == [s[0]] + s[1..];
      InsertPermutes(d, s[1..]);
    }
  }

  lemma {:induction false} InsertSorts(d: Det, s: seq<Det>)
    requires Descending(s)
    ensures Descending(Insert(d, s))
  {
    hide Conf;
    if s != [] && Conf(d) < Conf(s[0]) {
      InsertSorts(d, s[1..]);
      InsertPermutes(d, s[1..]);
      var t := Insert(d, s[1..]);
      forall k | 0 <= k < |t| ensures Conf(s[0]) >= Conf(t[k]) {
        assert t[k] in t;
      }
    }
  }

  lemma {:induction false} SortSorts(s: seq<Det>)
    ensures Descending(ByConfidence(s)) && multiset(ByConfidence(s)) == multiset(s)
  {
    hide Conf;
    if s != [] {
      assert s == [s[0]] + s[1..];
      SortSorts(s[1..]);
      InsertSorts(s[0], ByConfidence(s[1..]));
      InsertPermutes(s[0], ByConfidence(s[1..]));
    }
  }

  /** The detections of one confidence, in order. */
  function OfConfidence(s: seq<Det>, c: real): seq<Det>
  {
    if s == [] then [] else
    var rest := OfConfidence(s[1..], c);
    if Conf(s[0]) == c then [s[0]] + rest else rest
  }

  lemma {:induction false} InsertIsStable(d: Det, s: seq<Det>, c: real)
    ensures OfConfidence(Insert(d, s), c) ==
      if Conf(d) == c then [d] + OfConfidence(s, c) else OfConfidence(s, c)
  {
    hide Conf;
    if s == [] || Conf(d) >= Conf(s[0]) {
      assert ([d] + s)[1..] == s;
    } else {
      var t := Insert(d, s[1..]);
      assert ([s[0]] + t)[1..] == t;
      InsertIsStable(d, s[1..], c);
    }
  }

  /** The ordering is stable: detections of equal confidence keep their order. */
  lemma {:induction false} SortIsStable(s: seq<Det>, c: real)
    ensures OfConfidence(ByConfidence(s), c) == OfConfidence(s, c)
  {
    hide Conf;
    if s != [] {
      SortIsStable(s[1..], c);
      InsertIsStable(s[0], ByConfidence(s[1..]), c);
    }
  }

  /** No kept detection repeats an earlier kept one. */
  predicate NoRepeats(s: seq<Det>, threshold: real)
  {
    forall i, j :: 0 <= i < j < |s| ==> s[j].bbox.NotADict? || !Dup(s[j], s[i], threshold)
  }

  /** Every occurrence missing from `kept` is dominated: a kept detection of the same label overlaps it
      beyond the threshold and is at least as confident. */
  ghost predicate Dominates(kept: seq<Det>, all: multiset<Det>, threshold: real)
  {
    multiset(kept) <= all &&
    forall d :: multiset(kept)[d] < all[d] ==> Dominated(kept, d, threshold)
  }

  ghost predicate Dominated(kept: seq<Det>, d: Det, threshold: real)
  {
    exists k :: k in kept && Dup(d, k, threshold) && Conf(k) >= Conf(d)
  }

  lemma {:induction false} GreedyIsSubset(s: seq<Det>, threshold: real)
    ensures multiset(Greedy(s, threshold)) <= multiset(s)
    ensures forall k :: k in Greedy(s, threshold) ==> k in s
  {
    hide Suppressed;
    if s != [] {
      assert s == s[..|s| - 1] + [s[|s| - 1]];
      GreedyIsSubset(s[..|s| - 1], threshold);
    }
  }

  lemma {:induction false} GreedyHasNoRepeats(s: seq<Det>, threshold: real)
    ensures NoRepeats(Greedy(s, threshold), threshold)
  {
    hide Dup;
    if s != [] {
      GreedyHasNoRepeats(s[..|s| - 1], threshold);
      var kept := Greedy(s[..|s| - 1], threshold);
      assert forall i :: 0 <= i < |kept| ==> kept[i] in kept;
    }
  }

  lemma {:induction false} GreedyDescends(s: seq<Det>, threshold: real)
    requires Descending(s)
    ensures Descending(Greedy(s, threshold))
  {
    hide Suppressed, Conf;
    if s != [] {
      var prefix := s[..|s| - 1];
      GreedyDescends(prefix, threshold);
      GreedyIsSubset(prefix, threshold);
      var kept := Greedy(prefix, threshold);
      assert forall i :: 0 <= i < |kept| ==> kept[i] in kept && kept[i] in prefix;
    }
  }

  lemma StaysDominated(kept: seq<Det>, kept': seq<Det>, d: Det, threshold: real)
    requires Dominated(kept, d, threshold) && forall k :: k in kept ==> k in kept'
    ensures Dominated(kept', d, threshold)
  {
    var k :| k in kept && Dup(d, k, threshold) && Conf(k) >= Conf(d);
    assert k in kept';
  }

  /** The detection that was just suppressed is dominated by the one that suppressed it. */
  lemma SuppressedIsDominated(s: seq<Det>, threshold: real)
    requires s != [] && Descending(s)
    requires Suppressed(s[|s| - 1], Greedy(s[..|s| - 1], threshold), threshold)
    ensures Dominated(Greedy(s[..|s| - 1], threshold), s[|s| - 1], threshold)
  {
    var prefix, d := s[..|s| - 1], s[|s| - 1];
    var kept := Greedy(prefix, threshold);
    GreedyIsSubset(prefix, threshold);
    hide Conf, Dup;
    var k :| k in kept && Dup(d, k, threshold);
    assert k in prefix;
  }

  lemma {:induction false} GreedyDominates(s: seq<Det>, threshold: real)
    requires Descending(s)
    ensures Dominates(Greedy(s, threshold), multiset(s), threshold)
  {
    GreedyIsSubset(s, threshold);
    if s != [] {
      var prefix, d := s[..|s| - 1], s[|s| - 1];
      var kept, kept' := Greedy(prefix, threshold), Greedy(s, threshold);
      assert s == prefix + [d];
      GreedyDominates(prefix, threshold);
      hide Suppressed, Conf, Dominated;
      assert forall k :: k in kept ==> k in kept';
      forall x | multiset(kept')[x] < multiset(s)[x] ensures Dominated(kept', x, threshold) {
        if multiset(kept)[x] >= multiset(prefix)[x] {
          SuppressedIsDominated(s, threshold);
        }
        StaysDominated(kept, kept', x, threshold);
      }
    }
  }

  /** The result has no same-label pair over the threshold, is sorted by confidence, is a sub-multiset of
      the input, and dominates whatever was dropped. */
  lemma DedupIsSoundAndDominating(ds: seq<Det>, threshold: real)
    ensures var kept := Deduped(ds, threshold);
      NoRepeats(kept, threshold) && Descending(kept) && Dominates(kept, multiset(ds), threshold)
  {
    SortSorts(ds);
    GreedyHasNoRepeats(ByConfidence(ds), threshold);
    GreedyDescends(ByConfidence(ds), threshold);
    GreedyDominates(ByConfidence(ds), threshold);
  }

  lemma {:induction false} SortOfSorted(s: seq<Det>)
    requires Descending(s)
    ensures ByConfidence(s) == s
  {
    hide Conf;
    if s != [] {
      SortOfSorted(s[1..]);
      assert s == [s[0]] + s[1..];
    }
  }

  lemma {:induction false} GreedyOfClean(s: seq<Det>, threshold: real)
    requires NoRepeats(s, threshold)
    ensures Greedy(s, threshold) == s
  {
    hide Iou, Kind;
    if s != [] {
      GreedyOfClean(s[..|s| - 1], threshold);
      assert s == s[..|s| - 1] + [s[|s| - 1]];
    }
  }

  lemma DedupIsIdempotent(ds: seq<Det>, threshold: real)
    ensures Deduped(Deduped(ds, threshold), threshold) == Deduped(ds, threshold)
  {
    DedupIsSoundAndDominating(ds, threshold);
    SortOfSorted(Deduped(ds, threshold));
    GreedyOfClean(Deduped(ds, threshold), threshold);
  }

  function OfKind(s: seq<Det>, kind: string): seq<Det>
  {
    if s == [] then [] else
    var rest := OfKind(s[1..], kind);
    if Kind(s[0]) == kind then [s[0]] + rest else rest
  }

  lemma {:induction false} OfKindConcat(s: seq<Det>, t: seq<Det>, kind: string)
    ensures OfKind(s + t, kind) == OfKind(s, kind) + OfKind(t, kind)
  {
    hide Kind;
    if s == [] {
      assert s + t == t;
    } else {
      assert (s + t)[1..] == s[1..] + t;
      OfKindConcat(s[1..], t, kind);
    }
  }

  lemma {:induction false} OfKindIs(s: seq<Det>, kind: string)
    ensures forall d :: d in OfKind(s, kind) <==> d in s && Kind(d) == kind
  {
    hide Kind;
    if s != [] {
      OfKindIs(s[1..], kind);
      assert s == [s[0]] + s[1..];
    }
  }

  lemma {:induction false} OfKindInsert(d: Det, s: seq<Det>, kind: string)
    requires Descending(s)
    ensures OfKind(Insert(d, s), kind) ==
      if Kind(d) == kind then Insert(d, OfKind(s, kind)) else OfKind(s, kind)
  {
    hide Kind, Conf;
    if s == [] || Conf(d) >= Conf(s[0]) {
      assert ([d] + s)[1..] == s;
      OfKindIs(s, kind);
      var f := OfKind(s, kind);
      assert f != [] ==> f[0] in f;
    } else {
      OfKindInsert(d, s[1..], kind);
      var t := Insert(d, s[1..]);
      assert ([s[0]] + t)[1..] == t;
      var rest := OfKind(s[1..], kind);
      assert ([s[0]] + rest)[1..] == rest;
    }
  }

  lemma {:induction false} OfKindSort(s: seq<Det>, kind: string)
    ensures OfKind(ByConfidence(s), kind) == ByConfidence(OfKind(s, kind))
  {
    hide Kind, Conf;
    if s != [] {
      OfKindSort(s[1..], kind);
      SortSorts(s[1..]);
      OfKindInsert(s[0], ByConfidence(s[1..]), kind);
      var rest := OfKind(s[1..], kind);
      assert ([s[0]] + rest)[1..] == rest;
    }
  }

  lemma OfKindSnoc(s: seq<Det>, d: Det, kind: string)
    ensures OfKind(s + [d], kind) == if Kind(d) == kind then OfKind(s, kind) + [d] else OfKind(s, kind)
  {
    hide Kind;
    OfKindConcat(s, [d], kind);
    assert OfKind([d], kind) == if Kind(d) == kind then [d] else [];
  }

  /** Only kept detections of its own label can suppress a detection. */
  lemma SuppressedPerLabel(d: Det, kept: seq<Det>, threshold: real)
    ensures Suppressed(d, kept, threshold) == Suppressed(d, OfKind(kept, Kind(d)), threshold)
  {
    OfKindIs(kept, Kind(d));
    hide Kind, Iou, OfKind;
  }

  lemma {:induction false} OfKindGreedy(s: seq<Det>, threshold: real, kind: string)
    ensures OfKind(Greedy(s, threshold), kind) == Greedy(OfKind(s, kind), threshold)
  {
    if s != [] {
      hide Suppressed, Kind;
      var prefix, d := s[..|s| - 1], s[|s| - 1];
      var kept, f := Greedy(prefix, threshold), OfKind(prefix, kind);
      OfKindGreedy(prefix, threshold, kind);
      OfKindSnoc(prefix, d, kind);
      OfKindSnoc(kept, d, kind);
      SuppressedPerLabel(d, kept, threshold);
      hide OfKind;
      assert s == prefix + [d];
      assert (f + [d])[..|f|] == f;
    }
  }

  /** Labels are independent: de-duplicating and selecting one label commute. */
  lemma DedupActsPerLabel(ds: seq<Det>, threshold: real, kind: string)
    ensures OfKind(Deduped(ds, threshold), kind) == Deduped(OfKind(ds, kind), threshold)
  {
    OfKindSort(ds, kind);
    OfKindGreedy(ByConfidence(ds), threshold, kind);
  }
}
