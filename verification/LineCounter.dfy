/**
 Counting tracks across a virtual line. The counter keeps one last side per track; the reference is the
 list of sides each track was seen on, read off the whole sample history.
 */
module LineCounter {
  import opened Common

  datatype Line = Line(x1: real, y1: real, x2: real, y2: real)

  type Id = string

  /** One tracked detection: the id may be missing, absent coordinates count as zero. */
  datatype Sample = Sample(id: Option<Id>, x: real, y: real)

  datatype State = State(lastSide: map<Id, real>, ins: nat, outs: nat)

  const Init := State(map[], 0, 0)

  /** Signed side of a point relative to the directed line. */
  function Side(line: Line, x: real, y: real): real
  {
    (line.x2 - line.x1) * (y - line.y1) - (line.y2 - line.y1) * (x - line.x1)
  }

  /** A point at `along` of the way from the first end to the second, and `off` of the line's length to its left, has
      the side `off` times the square of that length: zero on the line, positive to the left of someone walking along
      it, negative to the right, wherever along the line it is. */
  lemma SideIsLeft(line: Line, along: real, off: real)
    ensures var dx, dy := line.x2 - line.x1, line.y2 - line.y1;
      Side(line, line.x1 + along * dx - off * dy, line.y1 + along * dy + off * dx) == off * (dx * dx + dy * dy)
  {
    var dx, dy := line.x2 - line.x1, line.y2 - line.y1;
    CrossProduct(dx, dy, along, off);
  }

  lemma CrossProduct(dx: real, dy: real, along: real, off: real)
    ensures dx * (along * dy + off * dx) - dy * (along * dx - off * dy) == off * (dx * dx + dy * dy)
  {
  }

  predicate CrossesIn(before: real, now: real)
  {
    before < 0.0 && now > 0.0
  }

  predicate CrossesOut(before: real, now: real)
  {
    before > 0.0 && now < 0.0
  }

  function Observe(line: Line, s: State, t: Sample): State
  {
    if t.id.None? then s else
    var side, id := Side(line, t.x, t.y), t.id.value;
    State(s.lastSide[id := side],
      if id in s.lastSide && CrossesIn(s.lastSide[id], side) then s.ins + 1 else s.ins,
      if id in s.lastSide && CrossesOut(s.lastSide[id], side) then s.outs + 1 else s.outs)
  }

  function After(line: Line, ts: seq<Sample>): State
  {
    if ts == [] then Init else Observe(line, After(line, ts[..|ts| - 1]), ts[|ts| - 1])
  }

  // ---------- The reference: each track on its own ----------

  /** The sides track `id` was sampled on, in order. */
  function SidesOf(line: Line, ts: seq<Sample>, id: Id): seq<real>
  {
    if ts == [] then [] else
    var before, t := SidesOf(line, ts[..|ts| - 1], id), ts[|ts| - 1];
    if t.id == Some(id) then before + [Side(line, t.x, t.y)] else before
  }

  /** Consecutive samples on strictly opposite sides, ending on the positive one. */
  function InCrossings(sides: seq<real>): nat
  {
    if |sides| < 2 then 0 else
    InCrossings(sides[..|sides| - 1]) + (if CrossesIn(sides[|sides| - 2], sides[|sides| - 1]) then 1 else 0)
  }

  function OutCrossings(sides: seq<real>): nat
  {
    if |sides| < 2 then 0 else
    OutCrossings(sides[..|sides| - 1]) + (if CrossesOut(sides[|sides| - 2], sides[|sides| - 1]) then 1 else 0)
  }

  function TotalIn(line: Line, ts: seq<Sample>, ids: seq<Id>): nat
  {
    if ids == [] then 0 else InCrossings(SidesOf(line, ts, ids[0])) + TotalIn(line, ts, ids[1..])
  }

  function TotalOut(line: Line, ts: seq<Sample>, ids: seq<Id>): nat
  {
    if ids == [] then 0 else OutCrossings(SidesOf(line, ts, ids[0])) + TotalOut(line, ts, ids[1..])
  }

  predicate Distinct(ids: seq<Id>)
  {
    forall i, j :: 0 <= i < j < |ids| ==> ids[i] != ids[j]
  }

  predicate Covers(ids: seq<Id>, ts: seq<Sample>)
  {
    forall i :: 0 <= i < |ts| && ts[i].id.Some? ==> ts[i].id.value in ids
  }

  // ---------- The counter agrees with the reference ----------

  lemma SidesSnoc(line: Line, ts: seq<Sample>, t: Sample, id: Id)
    ensures SidesOf(line, ts + [t], id) ==
      if t.id == Some(id) then SidesOf(line, ts, id) + [Side(line, t.x, t.y)] else SidesOf(line, ts, id)
  {
    assert (ts + [t])[..|ts|] == ts;
  }

  lemma CrossingsSnoc(sides: seq<real>, side: real)
    ensures InCrossings(sides + [side]) == InCrossings(sides) +
      (if sides != [] && CrossesIn(sides[|sides| - 1], side) then 1 else 0)
    ensures OutCrossings(sides + [side]) == OutCrossings(sides) +
      (if sides != [] && CrossesOut(sides[|sides| - 1], side) then 1 else 0)
  {
    assert (sides + [side])[..|sides|] == sides;
  }

  /** The stored side of a track is the last one it was sampled on. */
  lemma {:induction false} LastSideIsLast(line: Line, ts: seq<Sample>, id: Id)
    ensures var sides := SidesOf(line, ts, id);
      var m := After(line, ts).lastSide;
      (id in m <==> sides != []) && (id in m ==> m[id] == sides[|sides| - 1])
  {
    hide Side;
    if ts != [] { LastSideIsLast(line, ts[..|ts| - 1], id); }
  }

  /** One more sample changes the totals by what it changes its own track. */
  lemma {:induction false} TotalsSnoc(line: Line, ts: seq<Sample>, t: Sample, ids: seq<Id>)
    requires Distinct(ids)
    ensures var sides := if t.id.Some? then SidesOf(line, ts, t.id.value) else [];
      var side := Side(line, t.x, t.y);
      var mine := t.id.Some? && t.id.value in ids && sides != [];
      && TotalIn(line, ts + [t], ids) ==
           TotalIn(line, ts, ids) + (if mine && CrossesIn(sides[|sides| - 1], side) then 1 else 0)
      && TotalOut(line, ts + [t], ids) ==
           TotalOut(line, ts, ids) + (if mine && CrossesOut(sides[|sides| - 1], side) then 1 else 0)
  {
    hide Side, SidesOf, InCrossings, OutCrossings, CrossesIn, CrossesOut;
    if ids != [] {
      assert ids == [ids[0]] + ids[1..];
      TotalsSnoc(line, ts, t, ids[1..]);
      SidesSnoc(line, ts, t, ids[0]);
      CrossingsSnoc(SidesOf(line, ts, ids[0]), Side(line, t.x, t.y));
    }
  }

  /** The counts are exactly the consecutive strictly-opposite-side samples of each track, however the
      tracks' samples were interleaved; `ids` may be any list of the tracks without repeats. */
  lemma {:induction false} CountsAreExact(line: Line, ts: seq<Sample>, ids: seq<Id>)
    requires Distinct(ids) && Covers(ids, ts)
    ensures After(line, ts).ins == TotalIn(line, ts, ids) && After(line, ts).outs == TotalOut(line, ts, ids)
  {
    if ts == [] {
      TotalsOfNothing(line, ids);
    } else {
      var prefix, t := ts[..|ts| - 1], ts[|ts| - 1];
      assert ts == prefix + [t];
      CountsAreExact(line, prefix, ids);
      TotalsSnoc(line, prefix, t, ids);
      if t.id.Some? { LastSideIsLast(line, prefix, t.id.value); }
      hide Side, SidesOf, CrossesIn, CrossesOut, TotalIn, TotalOut;
    }
  }

  lemma {:induction false} TotalsOfNothing(line: Line, ids: seq<Id>)
    ensures TotalIn(line, [], ids) == 0 && TotalOut(line, [], ids) == 0
  {
    if ids != [] { TotalsOfNothing(line, ids[1..]); }
  }

  /** The tracks of a history, each once. */
  function Tracks(ts: seq<Sample>): (ids: seq<Id>)
    ensures Distinct(ids) && Covers(ids, ts)
    ensures forall id :: id in ids ==> exists i :: 0 <= i < |ts| && ts[i].id == Some(id)
  {
    if ts == [] then [] else
    var before, t := Tracks(ts[..|ts| - 1]), ts[|ts| - 1];
    if t.id.Some? && t.id.value !in before then before + [t.id.value] else before
  }

  lemma {:induction false} TotalsDependOnSides(line: Line, ts: seq<Sample>, us: seq<Sample>, ids: seq<Id>)
    requires forall id :: SidesOf(line, ts, id) == SidesOf(line, us, id)
    ensures TotalIn(line, ts, ids) == TotalIn(line, us, ids) && TotalOut(line, ts, ids) == TotalOut(line, us, ids)
  {
    if ids != [] { TotalsDependOnSides(line, ts, us, ids[1..]); }
  }

  lemma {:induction false} TracksHaveSides(line: Line, ts: seq<Sample>, i: nat)
    requires i < |ts| && ts[i].id.Some?
    ensures SidesOf(line, ts, ts[i].id.value) != []
  {
    if i < |ts| - 1 { TracksHaveSides(line, ts[..|ts| - 1], i); }
  }

  lemma {:induction false} SidesHaveTracks(line: Line, ts: seq<Sample>, id: Id)
    requires SidesOf(line, ts, id) != []
    ensures exists i :: 0 <= i < |ts| && ts[i].id == Some(id)
  {
    var t := ts[|ts| - 1];
    if t.id != Some(id) {
      SidesHaveTracks(line, ts[..|ts| - 1], id);
      var i :| 0 <= i < |ts| - 1 && ts[..|ts| - 1][i].id == Some(id);
      assert ts[i].id == Some(id);
    }
  }

  /** Two histories that agree track by track give the same counts, whatever the interleaving. */
  lemma InterleavingDoesNotMatter(line: Line, ts: seq<Sample>, us: seq<Sample>)
    requires forall id :: SidesOf(line, ts, id) == SidesOf(line, us, id)
    ensures After(line, ts).ins == After(line, us).ins && After(line, ts).outs == After(line, us).outs
  {
    var ids := Tracks(ts);
    forall i | 0 <= i < |us| && us[i].id.Some? ensures us[i].id.value in ids {
      TracksHaveSides(line, us, i);
      SidesHaveTracks(line, ts, us[i].id.value);
    }
    CountsAreExact(line, ts, ids);
    CountsAreExact(line, us, ids);
    TotalsDependOnSides(line, ts, us, ids);
  }

  // ---------- Net flow ----------

  function Sign(r: real): int
  {
    if r > 0.0 then 1 else if r < 0.0 then -1 else 0
  }

  predicate OffTheLine(sides: seq<real>)
  {
    forall i :: 0 <= i < |sides| ==> sides[i] != 0.0
  }

  /** A track never sampled on the line: twice its net flow is the difference of its end signs. */
  lemma {:induction false} NetIsSignDifference(sides: seq<real>)
    requires sides != [] && OffTheLine(sides)
    ensures 2 * (InCrossings(sides) - OutCrossings(sides)) == Sign(sides[|sides| - 1]) - Sign(sides[0])
  {
    if |sides| > 1 { NetIsSignDifference(sides[..|sides| - 1]); }
  }

  lemma {:induction false} NetOfTotals(line: Line, ts: seq<Sample>, ids: seq<Id>)
    requires forall id :: id in ids ==> OffTheLine(SidesOf(line, ts, id))
    ensures -|ids| <= TotalIn(line, ts, ids) - TotalOut(line, ts, ids) <= |ids|
  {
    if ids != [] {
      NetOfTotals(line, ts, ids[1..]);
      var sides := SidesOf(line, ts, ids[0]);
      if sides != [] { NetIsSignDifference(sides); }
    }
  }

  /** When no sample lies on the line, the net count is at most the number of tracks, either way. */
  lemma NetIsBoundedByTracks(line: Line, ts: seq<Sample>)
    requires forall id :: OffTheLine(SidesOf(line, ts, id))
    ensures var s := After(line, ts); -|Tracks(ts)| <= s.ins - s.outs <= |Tracks(ts)|
  {
    CountsAreExact(line, ts, Tracks(ts));
    NetOfTotals(line, ts, Tracks(ts));
  }

  function Reversed(line: Line): Line
  {
    Line(line.x2, line.y2, line.x1, line.y1)
  }

  lemma SideReverses(line: Line, x: real, y: real)
    ensures Side(Reversed(line), x, y) == -Side(line, x, y)
  {
    var dx, dy := line.x2 - line.x1, line.y2 - line.y1;
    assert (line.x1 - line.x2) * (y - line.y2) == -dx * (y - line.y1) + dx * dy;
    assert (line.y1 - line.y2) * (x - line.x2) == -dy * (x - line.x1) + dy * dx;
  }

  /** Reversing the line swaps in and out. */
  lemma {:induction false} ReversingSwaps(line: Line, ts: seq<Sample>)
    ensures var s, r := After(line, ts), After(Reversed(line), ts);
      && r.ins == s.outs && r.outs == s.ins
      && r.lastSide.Keys == s.lastSide.Keys
      && forall id :: id in s.lastSide ==> r.lastSide[id] == -s.lastSide[id]
  {
    if ts != [] {
      ReversingSwaps(line, ts[..|ts| - 1]);
      var t := ts[|ts| - 1];
      SideReverses(line, t.x, t.y);
      hide Side, Reversed;
    }
  }

  // ---------- Samples on the line ----------

  /** The samples that are not on the line. */
  function OffLine(sides: seq<real>): seq<real>
  {
    if sides == [] then [] else
    var before, last := OffLine(sides[..|sides| - 1]), sides[|sides| - 1];
    if last == 0.0 then before else before + [last]
  }

  /** Between samples i and j, on opposite sides, there are only samples on the line, and at least one. */
  predicate Hides(sides: seq<real>, i: int, j: int)
  {
    && 0 <= i < j - 1 && j < |sides|
    && (CrossesIn(sides[i], sides[j]) || CrossesOut(sides[i], sides[j]))
    && forall k :: i < k < j ==> sides[k] == 0.0
  }

  ghost predicate HidesNothing(sides: seq<real>)
  {
    forall i, j :: !Hides(sides, i, j)
  }

  lemma OffLineSnoc(sides: seq<real>, x: real)
    ensures OffLine(sides + [x]) == if x == 0.0 then OffLine(sides) else OffLine(sides) + [x]
  {
    assert (sides + [x])[..|sides|] == sides;
  }

  /** The last sample off the line: only samples on the line follow it. */
  lemma {:induction false} LastOffLine(sides: seq<real>) returns (i: int)
    ensures -1 <= i < |sides| && (i == -1 <==> OffLine(sides) == [])
    ensures i >= 0 ==> sides[i] != 0.0 && OffLine(sides)[|OffLine(sides)| - 1] == sides[i]
    ensures forall k :: i < k < |sides| ==> sides[k] == 0.0
  {
    if sides == [] {
      i := -1;
    } else if sides[|sides| - 1] != 0.0 {
      i := |sides| - 1;
    } else {
      i := LastOffLine(sides[..|sides| - 1]);
    }
  }

  /** What a further sample adds: it can complete a hidden crossing only with the last sample off the line. */
  lemma HidesSnoc(sides: seq<real>, x: real, last: int)
    requires -1 <= last < |sides| && (last >= 0 ==> sides[last] != 0.0)
    requires forall k :: last < k < |sides| ==> sides[k] == 0.0
    ensures HidesNothing(sides + [x]) <==>
      HidesNothing(sides) &&
      !(0 <= last < |sides| - 1 && (CrossesIn(sides[last], x) || CrossesOut(sides[last], x)))
  {
    var longer := sides + [x];
    assert last >= 0 ==> longer[last] == sides[last];
    forall i, j | Hides(sides, i, j) ensures Hides(longer, i, j) {
    }
    forall i, j | Hides(longer, i, j) ensures Hides(sides, i, j) || (j == |sides| && i == last) {
      if j < |sides| {
        assert forall k :: i < k < j ==> longer[k] == sides[k];
      } else {
        assert longer[i] == sides[i];
      }
    }
    if 0 <= last < |sides| - 1 && (CrossesIn(sides[last], x) || CrossesOut(sides[last], x)) {
      assert forall k :: last < k < |sides| ==> longer[k] == sides[k];
      assert Hides(longer, last, |sides|);
    }
  }

  lemma SnocCounts(sides: seq<real>, x: real, last: int)
    requires -1 <= last < |sides| && (last == -1 <==> OffLine(sides) == [])
    requires last >= 0 ==> sides[last] != 0.0 && OffLine(sides)[|OffLine(sides)| - 1] == sides[last]
    requires forall k :: last < k < |sides| ==> sides[k] == 0.0
    ensures var off, off' := OffLine(sides), OffLine(sides + [x]);
      var hidden := 0 <= last < |sides| - 1;
      && InCrossings(off') - InCrossings(sides + [x]) ==
           InCrossings(off) - InCrossings(sides) + (if hidden && CrossesIn(sides[last], x) then 1 else 0)
      && OutCrossings(off') - OutCrossings(sides + [x]) ==
           OutCrossings(off) - OutCrossings(sides) + (if hidden && CrossesOut(sides[last], x) then 1 else 0)
  {
    OffLineSnoc(sides, x);
    CrossingsSnoc(sides, x);
    CrossingsSnoc(OffLine(sides), x);
    hide OffLine, InCrossings, OutCrossings;
  }

  /** One track: no more is counted than the sign changes among its samples off the line, and exactly that
      if and only if no sample on the line stands between samples on opposite sides. */
  lemma {:induction false} CountsAllIffNothingHidden(sides: seq<real>)
    ensures InCrossings(sides) <= InCrossings(OffLine(sides)) && OutCrossings(sides) <= OutCrossings(OffLine(sides))
    ensures InCrossings(sides) == InCrossings(OffLine(sides)) && OutCrossings(sides) == OutCrossings(OffLine(sides))
      <==> HidesNothing(sides)
    decreases |sides|
  {
    if sides != [] {
      var before, x := sides[..|sides| - 1], sides[|sides| - 1];
      assert before + [x] == sides;
      CountsAllIffNothingHidden(before);
      var last := LastOffLine(before);
      SnocCounts(before, x, last);
      HidesSnoc(before, x, last);
      hide HidesNothing, OffLine, InCrossings, OutCrossings;
    }
  }

  function SignChangesIn(line: Line, ts: seq<Sample>, ids: seq<Id>): nat
  {
    if ids == [] then 0 else InCrossings(OffLine(SidesOf(line, ts, ids[0]))) + SignChangesIn(line, ts, ids[1..])
  }

  function SignChangesOut(line: Line, ts: seq<Sample>, ids: seq<Id>): nat
  {
    if ids == [] then 0 else OutCrossings(OffLine(SidesOf(line, ts, ids[0]))) + SignChangesOut(line, ts, ids[1..])
  }

  ghost predicate NoneHidden(line: Line, ts: seq<Sample>, ids: seq<Id>)
  {
    forall i :: 0 <= i < |ids| ==> HidesNothing(SidesOf(line, ts, ids[i]))
  }

  lemma NoneHiddenSplit(line: Line, ts: seq<Sample>, ids: seq<Id>)
    requires ids != []
    ensures NoneHidden(line, ts, ids) <==> HidesNothing(SidesOf(line, ts, ids[0])) && NoneHidden(line, ts, ids[1..])
  {
    hide HidesNothing, SidesOf;
    assert forall i :: 0 < i < |ids| ==> ids[1..][i - 1] == ids[i];
  }

  lemma {:induction false} TotalsAgainstSignChanges(line: Line, ts: seq<Sample>, ids: seq<Id>)
    ensures TotalIn(line, ts, ids) <= SignChangesIn(line, ts, ids)
    ensures TotalOut(line, ts, ids) <= SignChangesOut(line, ts, ids)
    ensures TotalIn(line, ts, ids) == SignChangesIn(line, ts, ids) &&
      TotalOut(line, ts, ids) == SignChangesOut(line, ts, ids)
      <==> NoneHidden(line, ts, ids)
  {
    if ids != [] {
      hide SidesOf, HidesNothing, NoneHidden, OffLine, InCrossings, OutCrossings;
      NoneHiddenSplit(line, ts, ids);
      CountsAllIffNothingHidden(SidesOf(line, ts, ids[0]));
      TotalsAgainstSignChanges(line, ts, ids[1..]);
    }
  }

  /** Over any history the counts are the sign changes of all tracks, samples on the line left out, if and
      only if no track was sampled on the line on its way across; otherwise they fall short. */
  lemma CountsAreSignChangesIffNothingHidden(line: Line, ts: seq<Sample>, ids: seq<Id>)
    requires Distinct(ids) && Covers(ids, ts)
    ensures var s := After(line, ts);
      && s.ins <= SignChangesIn(line, ts, ids) && s.outs <= SignChangesOut(line, ts, ids)
      && (s.ins == SignChangesIn(line, ts, ids) && s.outs == SignChangesOut(line, ts, ids)
          <==> NoneHidden(line, ts, ids))
  {
    hide After, NoneHidden, SidesOf;
    CountsAreExact(line, ts, ids);
    TotalsAgainstSignChanges(line, ts, ids);
  }

  lemma OneHiddenChange()
    ensures InCrossings(OffLine([-1.0, 0.0, 1.0])) == 1
  {
    var sides := [-1.0, 0.0, 1.0];
    assert sides[..2] == [-1.0, 0.0] && sides[..2][..1] == [-1.0] && sides[..2][..1][..0] == [];
    assert OffLine(sides[..2][..1]) == [-1.0] && OffLine(sides[..2]) == [-1.0];
    assert OffLine(sides) == [-1.0, 1.0] && InCrossings([-1.0, 1.0]) == 1;
  }

  const X_AXIS := Line(0.0, 0.0, 1.0, 0.0)

  /** A track below the line, on it, above it. */
  function OverTheAxis(id: Id): seq<Sample>
  {
    [Sample(Some(id), 0.5, -1.0), Sample(Some(id), 0.5, 0.0), Sample(Some(id), 0.5, 1.0)]
  }

  lemma OverTheAxisCounts(id: Id)
    ensures After(X_AXIS, OverTheAxis(id)).ins == 0 && After(X_AXIS, OverTheAxis(id)).outs == 0
  {
    var ts := OverTheAxis(id);
    assert ts[..2][..1][..0] == [] && ts[..2][..1] == [ts[0]] && ts[..2] == [ts[0], ts[1]];
    assert After(X_AXIS, ts[..2][..1]).lastSide == map[id := -1.0];
    assert After(X_AXIS, ts[..2]).lastSide == map[id := 0.0];
  }

  lemma OverTheAxisSides(id: Id)
    ensures SidesOf(X_AXIS, OverTheAxis(id), id) == [-1.0, 0.0, 1.0]
  {
    var ts := OverTheAxis(id);
    assert ts[..2][..1][..0] == [] && ts[..2][..1] == [ts[0]] && ts[..2] == [ts[0], ts[1]];
    assert SidesOf(X_AXIS, ts[..2][..1], id) == [-1.0];
    assert SidesOf(X_AXIS, ts[..2], id) == [-1.0, 0.0];
  }

  /** An input that is missed: one sample on the line on the way across, and neither count moves. */
  lemma SampleOnTheLineHidesACrossing(id: Id)
    ensures var s := After(X_AXIS, OverTheAxis(id)); s.ins == 0 && s.outs == 0
    ensures SignChangesIn(X_AXIS, OverTheAxis(id), [id]) == 1
  {
    OverTheAxisCounts(id);
    OverTheAxisSides(id);
    OneHiddenChange();
    hide After, SidesOf, OffLine, InCrossings, OverTheAxis;
    assert [id][1..] == [];
  }

  // ---------- The counter object ----------

  class Counter {
    const line: Line
    var lastSide: map<Id, real>
    var inCount: nat
    var outCount: nat

    ghost function View(): State
      reads this
    {
      State(lastSide, inCount, outCount)
    }

    constructor (line: Line)
      ensures this.line == line && View() == After(line, [])
    {
      this.line := line;
      lastSide, inCount, outCount := map[], 0, 0;
    }

    /** One poll; `history` is every sample of the polls before it. */
    method Update(tracks: seq<Sample>, ghost history: seq<Sample>)
      requires View() == After(line, history)
      modifies this
      ensures View() == After(line, history + tracks)
    {
      assert history + tracks[..0] == history;
      for i := 0 to |tracks|
        invariant View() == After(line, history + tracks[..i])
      {
        assert (history + tracks[..i + 1])[..|history| + i] == history + tracks[..i];
        var t := tracks[i];
        if t.id.None? { continue; }
        var tid := t.id.value;
        var s := Side(line, t.x, t.y);
        if tid in lastSide {
          var prev := lastSide[tid];
          if prev != 0.0 && s != 0.0 && (prev > 0.0) != (s > 0.0) {
            if s > 0.0 {
              inCount := inCount + 1;
            } else {
              outCount := outCount + 1;
            }
          }
        }
        lastSide := lastSide[tid := s];
      }
      assert history + tracks[..|tracks|] == history + tracks;
    }
  }
}
