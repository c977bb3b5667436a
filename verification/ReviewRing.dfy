/**
 The per-camera review ring: the last few minutes of frames, bounded by count and by bytes.
 Adding a frame and dropping from the left until both bounds hold always leaves the longest suffix
 of *all* accepted frames that fits.
 */
module ReviewRing {
  type Jpeg = seq<bv8>

  datatype Entry = Entry(wall: real, jpeg: Jpeg)

  const RING_SIZE: nat := 90
  const BYTE_BUDGET: nat := 24 * 1024 * 1024
  const FRAME_CAP: nat := 2_000_000

  function Total(ring: seq<Entry>): nat
  {
    if ring == [] then 0 else |ring[0].jpeg| + Total(ring[1..])
  }

  predicate Fits(ring: seq<Entry>)
  {
    |ring| <= RING_SIZE && Total(ring) <= BYTE_BUDGET
  }

  /** The longest suffix of `s` within both bounds. */
  function LongestFit(s: seq<Entry>): (r: seq<Entry>)
  {
    if Fits(s) then s else LongestFit(s[1..])
  }

  predicate Accepted(e: Entry)
  {
    |e.jpeg| <= FRAME_CAP
  }

  /** `LongestFit` is what its name says: a suffix that fits, and no longer suffix does. */
  lemma {:induction false} LongestFitIsLongest(s: seq<Entry>)
    ensures var r := LongestFit(s);
      && |r| <= |s| && r == s[|s| - |r|..] && Fits(r)
      && forall k :: 0 <= k < |s| - |r| ==> !Fits(s[k..])
  {
    if !Fits(s) {
      var r := LongestFit(s[1..]);
      LongestFitIsLongest(s[1..]);
      forall k | 0 <= k < |s| - |r| ensures !Fits(s[k..]) {
        if k > 0 { assert s[1..][k - 1..] == s[k..]; }
      }
    }
  }

  /** At most 90 frames and 24 MiB of them, none over two million bytes. */
  lemma BoundsAre(ring: seq<Entry>, e: Entry)
    ensures Fits(ring) <==> |ring| <= 90 && Total(ring) <= 25_165_824
    ensures Accepted(e) <==> |e.jpeg| <= 2_000_000
    ensures Total([e]) == |e.jpeg|
  {
    assert [e][1..] == [];
  }

  lemma {:induction false} TotalAppend(s: seq<Entry>, t: seq<Entry>)
    ensures Total(s + t) == Total(s) + Total(t)
  {
    if s == [] {
      assert s + t == t;
    } else {
      assert (s + t)[1..] == s[1..] + t;
      TotalAppend(s[1..], t);
    }
  }

  /** What does not fit alone does not fit with one more frame: trimming early never drops too much. */
  lemma {:induction false} TrimThenAppend(s: seq<Entry>, e: Entry)
    ensures LongestFit(LongestFit(s) + [e]) == LongestFit(s + [e])
  {
    if !Fits(s) {
      TotalAppend(s, [e]);
      assert (s + [e])[1..] == s[1..] + [e];
      TrimThenAppend(s[1..], e);
    }
  }

  /** An accepted frame is never trimmed away by its own arrival. */
  lemma {:induction false} NewestIsKept(s: seq<Entry>, e: Entry)
    requires Accepted(e)
    ensures LongestFit(s + [e]) != [] && LongestFit(s + [e])[|LongestFit(s + [e])| - 1] == e
  {
    if s == [] {
      assert s + [e] == [e];
      assert Total([e]) == |e.jpeg|;
    } else if !Fits(s + [e]) {
      assert (s + [e])[1..] == s[1..] + [e];
      NewestIsKept(s[1..], e);
    }
  }

  /** The trimming loop: `total` is the byte counter kept beside the ring. */
  method Feed(ring: seq<Entry>, stored: nat, e: Entry) returns (trimmed: seq<Entry>, total: nat)
    requires stored == Total(ring)
    ensures trimmed == LongestFit(ring + [e])
    ensures total == Total(trimmed)
  {
    trimmed := ring + [e];
    TotalAppend(ring, [e]);
    total := stored + |e.jpeg|;
    while trimmed != [] && (|trimmed| > RING_SIZE || total > BYTE_BUDGET)
      invariant total == Total(trimmed)
      invariant LongestFit(trimmed) == LongestFit(ring + [e])
      decreases |trimmed|
    {
      total := total - |trimmed[0].jpeg|;
      trimmed := trimmed[1..];
    }
  }
}
