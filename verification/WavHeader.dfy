/**
 Finding the PCM data in a RIFF WAVE file by walking its chunks (RIFF chunk layout: chapter 2 of the
 IBM/Microsoft Multimedia Programming Interface and Data Specifications 1.0).
 */
module WavHeader {
  type byte = x: int | 0 <= x < 256

  const RIFF: seq<byte> := [0x52, 0x49, 0x46, 0x46]
  const WAVE: seq<byte> := [0x57, 0x41, 0x56, 0x45]
  const DATA: seq<byte> := [0x64, 0x61, 0x74, 0x61]

  const SIZE_LIMIT: int := 0x1_0000_0000

  /** `int.from_bytes(b, "little")` for four bytes. */
  function LittleEndian(b: seq<byte>): nat
    requires |b| == 4
  {
    (b[0] as int) + 0x100 * ((b[1] as int) + 0x100 * ((b[2] as int) + 0x100 * (b[3] as int)))
  }

  function ChunkSize(audio: seq<byte>, pos: nat): nat
    requires pos + 8 <= |audio|
  {
    LittleEndian(audio[pos + 4..pos + 8])
  }

  /** A Python slice: the upper bound is cut to the length. */
  function Slice(s: seq<byte>, lo: nat, hi: nat): seq<byte>
    requires lo <= hi && lo <= |s|
  {
    if hi <= |s| then s[lo..hi] else s[lo..]
  }

  function Walk(audio: seq<byte>, pos: nat): seq<byte>
    decreases |audio| - pos
  {
    if pos + 8 > |audio| then audio
    else if audio[pos..pos + 4] == DATA then Slice(audio, pos + 8, pos + 8 + ChunkSize(audio, pos))
    else Walk(audio, pos + 8 + ChunkSize(audio, pos))
  }

  lemma WalkUnfolds(audio: seq<byte>, pos: nat)
    requires pos + 8 <= |audio|
    ensures var next := pos + 8 + ChunkSize(audio, pos);
      Walk(audio, pos) == if audio[pos..pos + 4] == DATA then Slice(audio, pos + 8, next) else Walk(audio, next)
  {
    hide ChunkSize, Slice;
  }

  lemma WalkEnds(audio: seq<byte>, pos: nat)
    requires pos + 8 > |audio|
    ensures Walk(audio, pos) == audio
  {
  }

  predicate LooksLikeWave(audio: seq<byte>)
  {
    |audio| >= 44 && audio[..4] == RIFF && audio[8..12] == WAVE
  }

  function Stripped(audio: seq<byte>): seq<byte>
  {
    if LooksLikeWave(audio) then Walk(audio, 12) else audio
  }

  /** The loop as written; it ends on every byte string because each chunk header is eight bytes. */
  method StripWavHeader(audio: seq<byte>) returns (pcm: seq<byte>)
    ensures pcm == Stripped(audio)
  {
    hide ChunkSize, Slice, Walk;
    if |audio| < 44 || audio[..4] != RIFF || audio[8..12] != WAVE { return audio; }
    var pos: nat := 12;
    while pos + 8 <= |audio|
      invariant Walk(audio, pos) == Stripped(audio)
      decreases |audio| - pos
    {
      var chunkId := audio[pos..pos + 4];
      var size := ChunkSize(audio, pos);
      WalkUnfolds(audio, pos);
      if chunkId == DATA {
        var start := pos + 8;
        return Slice(audio, start, start + size);
      }
      pos := pos + 8 + size;
    }
    WalkEnds(audio, pos);
    return audio;
  }

  /** The result is the input itself or one contiguous piece of it, after the first chunk header. */
  lemma {:induction false} WalkGivesSlice(audio: seq<byte>, pos: nat)
    ensures Walk(audio, pos) == audio ||
      exists lo, hi :: pos + 8 <= lo <= hi <= |audio| && Walk(audio, pos) == audio[lo..hi]
    decreases |audio| - pos
  {
    if pos + 8 <= |audio| {
      var next := pos + 8 + ChunkSize(audio, pos);
      if audio[pos..pos + 4] == DATA {
        assert Walk(audio, pos) == audio[pos + 8..if next <= |audio| then next else |audio|];
      } else {
        WalkGivesSlice(audio, next);
      }
    }
  }

  /** The three marks are the ASCII codes of their letters. */
  lemma MarksAreAscii(i: nat)
    requires i < 4
    ensures RIFF[i] as int == "RIFF"[i] as int && WAVE[i] as int == "WAVE"[i] as int
    ensures DATA[i] as int == "data"[i] as int
  {
  }

  /** Anything that is too short for a header, or not marked as a WAVE file, comes back as it is. */
  lemma OthersComeBack(audio: seq<byte>)
    requires |audio| < 44 || audio[0..4] != RIFF || audio[8..12] != WAVE
    ensures Stripped(audio) == audio
  {
  }

  // ---------- The writer it inverts ----------

  datatype Chunk = Chunk(id: seq<byte>, payload: seq<byte>)

  predicate WellFormed(c: Chunk)
  {
    |c.id| == 4 && c.id != DATA && |c.payload| < SIZE_LIMIT
  }

  predicate Odd(c: Chunk)
  {
    |c.payload| % 2 == 1
  }

  predicate AllWellFormed(cs: seq<Chunk>)
  {
    forall i :: 0 <= i < |cs| ==> WellFormed(cs[i])
  }

  predicate AllEven(cs: seq<Chunk>)
  {
    forall i :: 0 <= i < |cs| ==> !Odd(cs[i])
  }

  function Encode4(n: nat): (b: seq<byte>)
    requires n < SIZE_LIMIT
    ensures |b| == 4
  {
    var q1 := n / 0x100;
    var q2 := q1 / 0x100;
    [n % 0x100, q1 % 0x100, q2 % 0x100, q2 / 0x100]
  }

  lemma Encode4RoundTrip(n: nat)
    requires n < SIZE_LIMIT
    ensures LittleEndian(Encode4(n)) == n
  {
  }

  function Header(id: seq<byte>, n: nat): (b: seq<byte>)
    requires |id| == 4 && n < SIZE_LIMIT
    ensures |b| == 8
  {
    id + Encode4(n)
  }

  /** Chunks of odd size are followed by a pad byte, as the format demands. */
  function ChunkBytes(c: Chunk): (b: seq<byte>)
    requires WellFormed(c)
    ensures |b| == 8 + |c.payload| + |c.payload| % 2
  {
    Header(c.id, |c.payload|) + (c.payload + (if |c.payload| % 2 == 1 then [0] else []))
  }

  function ChunksBytes(cs: seq<Chunk>): seq<byte>
    requires AllWellFormed(cs)
  {
    if cs == [] then [] else ChunkBytes(cs[0]) + ChunksBytes(cs[1..])
  }

  function DataBytes(pcm: seq<byte>): (b: seq<byte>)
    requires |pcm| < SIZE_LIMIT
    ensures |b| == 8 + |pcm|
  {
    Header(DATA, |pcm|) + pcm
  }

  function FileHead(riffSize: seq<byte>): (b: seq<byte>)
    requires |riffSize| == 4
    ensures |b| == 12
  {
    RIFF + riffSize + WAVE
  }

  /** A WAVE file: any chunks, the data chunk, and anything after it. */
  function WaveFile(riffSize: seq<byte>, cs: seq<Chunk>, pcm: seq<byte>, tail: seq<byte>): seq<byte>
    requires |riffSize| == 4 && AllWellFormed(cs) && |pcm| < SIZE_LIMIT
  {
    FileHead(riffSize) + ChunksBytes(cs) + DataBytes(pcm) + tail
  }

  // ---------- Reading back what was written ----------

  predicate HeaderAt(audio: seq<byte>, pos: nat, id: seq<byte>, n: nat)
    requires |id| == 4 && n < SIZE_LIMIT
  {
    pos + 8 <= |audio| && audio[pos..pos + 8] == Header(id, n)
  }

  lemma HeaderReads(audio: seq<byte>, pos: nat, id: seq<byte>, n: nat)
    requires |id| == 4 && n < SIZE_LIMIT && HeaderAt(audio, pos, id, n)
    ensures audio[pos..pos + 4] == id && ChunkSize(audio, pos) == n
  {
    hide LittleEndian, Encode4;
    var h := audio[pos..pos + 8];
    assert audio[pos..pos + 4] == h[..4] == id;
    assert audio[pos + 4..pos + 8] == h[4..] == Encode4(n);
    Encode4RoundTrip(n);
  }

  lemma WalkSteps(audio: seq<byte>, pos: nat, id: seq<byte>, n: nat)
    requires |id| == 4 && n < SIZE_LIMIT && HeaderAt(audio, pos, id, n) && id != DATA
    ensures Walk(audio, pos) == Walk(audio, pos + 8 + n)
  {
    hide HeaderAt, ChunkSize;
    HeaderReads(audio, pos, id, n);
    assert pos + 8 <= |audio| by { HeaderFits(audio, pos, id, n); }
  }

  lemma HeaderFits(audio: seq<byte>, pos: nat, id: seq<byte>, n: nat)
    requires |id| == 4 && n < SIZE_LIMIT && HeaderAt(audio, pos, id, n)
    ensures pos + 8 <= |audio|
  {
  }

  lemma MiddleIsThere(before: seq<byte>, middle: seq<byte>, rest: seq<byte>)
    ensures (before + (middle + rest))[|before|..|before| + |middle|] == middle
  {
  }

  lemma HeaderIsThere(before: seq<byte>, id: seq<byte>, n: nat, rest: seq<byte>)
    requires |id| == 4 && n < SIZE_LIMIT
    ensures HeaderAt(before + (Header(id, n) + rest), |before|, id, n)
  {
    hide Header;
    MiddleIsThere(before, Header(id, n), rest);
  }

  lemma Associates(a: seq<byte>, b: seq<byte>, c: seq<byte>)
    ensures a + b + c == a + (b + c)
  {
  }

  lemma ChunkHeaderAt(before: seq<byte>, c: Chunk, rest: seq<byte>)
    requires WellFormed(c)
    ensures HeaderAt(before + (ChunkBytes(c) + rest), |before|, c.id, |c.payload|)
  {
    hide Header, HeaderAt;
    var body := c.payload + (if |c.payload| % 2 == 1 then [0] else []);
    Associates(Header(c.id, |c.payload|), body, rest);
    HeaderIsThere(before, c.id, |c.payload|, body + rest);
  }

  /** Walking over one even chunk: what stands before position `|before|` does not matter. */
  lemma WalkSkipsEvenChunk(before: seq<byte>, c: Chunk, rest: seq<byte>)
    requires WellFormed(c) && !Odd(c)
    ensures var audio := before + (ChunkBytes(c) + rest);
      Walk(audio, |before|) == Walk(audio, |before + ChunkBytes(c)|)
  {
    hide Walk, HeaderAt, ChunkBytes;
    ChunkHeaderAt(before, c, rest);
    WalkSteps(before + (ChunkBytes(c) + rest), |before|, c.id, |c.payload|);
  }

  lemma WalkStops(audio: seq<byte>, pos: nat, n: nat)
    requires n < SIZE_LIMIT && HeaderAt(audio, pos, DATA, n)
    ensures pos + 8 <= |audio| && Walk(audio, pos) == Slice(audio, pos + 8, pos + 8 + n)
  {
    HeaderFits(audio, pos, DATA, n);
    HeaderReads(audio, pos, DATA, n);
    hide Header, HeaderAt, ChunkSize, Slice;
  }

  lemma WalkFindsData(before: seq<byte>, pcm: seq<byte>, tail: seq<byte>)
    requires |pcm| < SIZE_LIMIT
    ensures Walk(before + (DataBytes(pcm) + tail), |before|) == pcm
  {
    hide Header, HeaderAt, Walk;
    Associates(Header(DATA, |pcm|), pcm, tail);
    HeaderIsThere(before, DATA, |pcm|, pcm + tail);
    WalkStops(before + (DataBytes(pcm) + tail), |before|, |pcm|);
    Associates(before, Header(DATA, |pcm|), pcm + tail);
    MiddleIsThere(before + Header(DATA, |pcm|), pcm, tail);
  }

  lemma FirstAndRest(cs: seq<Chunk>)
    requires cs != []
    ensures AllEven(cs) <==> !Odd(cs[0]) && AllEven(cs[1..])
    ensures AllWellFormed(cs) <==> WellFormed(cs[0]) && AllWellFormed(cs[1..])
  {
    hide Odd, WellFormed;
    assert forall i :: 0 < i < |cs| ==> cs[1..][i - 1] == cs[i];
  }

  lemma {:induction false} WalkSkipsEvenChunks(before: seq<byte>, cs: seq<Chunk>, rest: seq<byte>)
    requires AllWellFormed(cs) && AllEven(cs)
    ensures var audio := before + (ChunksBytes(cs) + rest);
      Walk(audio, |before|) == Walk(audio, |before + ChunksBytes(cs)|)
    decreases |cs|
  {
    hide Walk, ChunkBytes, WellFormed, AllEven, AllWellFormed, Odd;
    if cs == [] {
      assert before + ChunksBytes(cs) == before;
    } else {
      FirstAndRest(cs);
      var one, more := ChunkBytes(cs[0]), ChunksBytes(cs[1..]);
      Associates(one, more, rest);
      WalkSkipsEvenChunk(before, cs[0], more + rest);
      Associates(before, one, more + rest);
      Associates(before, one, more);
      WalkSkipsEvenChunks(before + one, cs[1..], rest);
    }
  }

  lemma FileLooksLikeWave(riffSize: seq<byte>, rest: seq<byte>)
    requires |riffSize| == 4 && 12 + |rest| >= 44
    ensures LooksLikeWave(FileHead(riffSize) + rest)
  {
    var audio := FileHead(riffSize) + rest;
    assert audio[..4] == RIFF && audio[8..12] == WAVE;
  }

  lemma StrippedIsWalk(riffSize: seq<byte>, rest: seq<byte>)
    requires |riffSize| == 4 && 12 + |rest| >= 44
    ensures Stripped(FileHead(riffSize) + rest) == Walk(FileHead(riffSize) + rest, |FileHead(riffSize)|)
  {
    hide LooksLikeWave, FileHead, Walk;
    FileLooksLikeWave(riffSize, rest);
  }

  /** Stripping inverts the writer: with even-sized chunks before the data chunk, exactly the PCM comes
      back from every file of at least 44 bytes. */
  lemma StripInvertsWriter(riffSize: seq<byte>, cs: seq<Chunk>, pcm: seq<byte>, tail: seq<byte>)
    requires |riffSize| == 4 && |pcm| < SIZE_LIMIT
    requires AllWellFormed(cs) && AllEven(cs)
    requires |WaveFile(riffSize, cs, pcm, tail)| >= 44
    ensures Stripped(WaveFile(riffSize, cs, pcm, tail)) == pcm
  {
    hide Walk, LooksLikeWave, ChunksBytes, DataBytes, WellFormed, FileHead, Stripped;
    var head, chunks, rest := FileHead(riffSize), ChunksBytes(cs), DataBytes(pcm) + tail;
    Associates(head + chunks, DataBytes(pcm), tail);
    Associates(head, chunks, rest);
    StrippedIsWalk(riffSize, chunks + rest);
    WalkSkipsEvenChunks(head, cs, rest);
    WalkFindsData(head + chunks, pcm, tail);
  }

  // ---------- The pad byte ----------

  lemma PadIsThere(before: seq<byte>, c: Chunk, rest: seq<byte>)
    requires WellFormed(c) && Odd(c)
    ensures var audio, next := before + (ChunkBytes(c) + rest), |before| + 8 + |c.payload|;
      next <= |audio| && audio[next..] == [0] + rest
  {
    hide Header;
    assert ChunkBytes(c)[8 + |c.payload|..] == [0];
  }

  /** The size read behind a pad byte, from the bytes 3 to 6 of what follows the pad. */
  function Misread(rest: seq<byte>): nat
    requires |rest| >= 7
  {
    LittleEndian(rest[3..7])
  }

  /** Read from one byte too early, the bytes `rest` behind a pad byte have no room for a header, or the size
      read there leaves no room for another header with `room` bytes behind it. */
  predicate Overshoots(rest: seq<byte>, room: nat)
  {
    |rest| < 7 || Misread(rest) + 15 + room > |rest|
  }

  /** At the pad byte the walk sees a chunk id that starts with a zero, and a size shifted by one byte. */
  lemma PadMisread(audio: seq<byte>, next: nat, rest: seq<byte>)
    requires next <= |audio| && audio[next..] == [0] + rest && |rest| >= 7
    ensures next + 8 <= |audio| && audio[next..next + 4] != DATA && ChunkSize(audio, next) == Misread(rest)
  {
    hide LittleEndian;
    var left := audio[next..];
    assert audio[next..next + 4][0] == left[0] == 0;
    assert audio[next + 4..next + 8] == left[4..8] == rest[3..7];
  }

  /** From `start` the walk reads the pad byte at `pad` as the start of a header, and goes on where the size read
      there says; `left` is what stands behind the pad byte. */
  ghost predicate GoesOnMisread(audio: seq<byte>, start: nat, pad: nat, left: seq<byte>)
  {
    && |audio| == pad + 1 + |left|
    && Walk(audio, start) == if |left| < 7 then audio else Walk(audio, pad + 8 + Misread(left))
  }

  lemma WalkFromPad(audio: seq<byte>, next: nat, rest: seq<byte>)
    requires next <= |audio| && audio[next..] == [0] + rest
    ensures GoesOnMisread(audio, next, next, rest)
  {
    hide ChunkSize, Walk, Misread;
    assert |audio[next..]| == |audio| - next;
    if |rest| < 7 {
      WalkEnds(audio, next);
    } else {
      PadMisread(audio, next, rest);
      WalkUnfolds(audio, next);
    }
  }

  /** The walk does not step over the pad byte of an odd chunk: it goes on where the misread size says. */
  lemma WalkMisreadsPad(before: seq<byte>, c: Chunk, rest: seq<byte>)
    requires WellFormed(c) && Odd(c)
    ensures GoesOnMisread(before + (ChunkBytes(c) + rest), |before|, |before| + 8 + |c.payload|, rest)
  {
    hide ChunkBytes, HeaderAt, Walk, Misread, Odd;
    var audio, next := before + (ChunkBytes(c) + rest), |before| + 8 + |c.payload|;
    ChunkHeaderAt(before, c, rest);
    WalkSteps(audio, |before|, c.id, |c.payload|);
    PadIsThere(before, c, rest);
    WalkFromPad(audio, next, rest);
  }

  /** The chunks behind the first odd one. */
  function AfterFirstOdd(cs: seq<Chunk>): seq<byte>
    requires AllWellFormed(cs)
  {
    if cs == [] then [] else if Odd(cs[0]) then ChunksBytes(cs[1..]) else AfterFirstOdd(cs[1..])
  }

  /** Where the pad byte of the first odd chunk is. */
  function PadAt(cs: seq<Chunk>): nat
    requires AllWellFormed(cs)
  {
    if cs == [] then 0
    else if Odd(cs[0]) then 8 + |cs[0].payload| else |ChunkBytes(cs[0])| + PadAt(cs[1..])
  }

  lemma FirstOddStep(cs: seq<Chunk>)
    requires cs != [] && AllWellFormed(cs)
    ensures WellFormed(cs[0]) && ChunksBytes(cs) == ChunkBytes(cs[0]) + ChunksBytes(cs[1..])
    ensures AfterFirstOdd(cs) == if Odd(cs[0]) then ChunksBytes(cs[1..]) else AfterFirstOdd(cs[1..])
    ensures PadAt(cs) == if Odd(cs[0]) then 8 + |cs[0].payload| else |ChunkBytes(cs[0])| + PadAt(cs[1..])
  {
    hide ChunkBytes, WellFormed, Odd;
  }

  /** The walk over the chunks misreads the pad byte of the first odd one. */
  ghost predicate MisreadsPadOf(before: seq<byte>, cs: seq<Chunk>, rest: seq<byte>)
    requires AllWellFormed(cs)
  {
    GoesOnMisread(before + (ChunksBytes(cs) + rest), |before|, |before| + PadAt(cs), AfterFirstOdd(cs) + rest)
  }

  lemma OddFirst(before: seq<byte>, cs: seq<Chunk>, rest: seq<byte>)
    requires AllWellFormed(cs) && cs != [] && Odd(cs[0])
    ensures MisreadsPadOf(before, cs, rest)
  {
    FirstOddStep(cs);
    hide Walk, ChunkBytes, WellFormed, AllWellFormed, GoesOnMisread, ChunksBytes, AfterFirstOdd, PadAt, Odd;
    PadHere(before, cs[0], ChunksBytes(cs[1..]), rest);
  }

  lemma EvenFirst(before: seq<byte>, cs: seq<Chunk>, rest: seq<byte>)
    requires AllWellFormed(cs) && cs != [] && !Odd(cs[0])
    requires AllWellFormed(cs[1..]) && MisreadsPadOf(before + ChunkBytes(cs[0]), cs[1..], rest)
    ensures MisreadsPadOf(before, cs, rest)
  {
    FirstOddStep(cs);
    hide Walk, ChunkBytes, WellFormed, AllWellFormed, GoesOnMisread, ChunksBytes, AfterFirstOdd, PadAt, Odd;
    PadLater(before, cs[0], ChunksBytes(cs[1..]), rest, |before| + PadAt(cs), AfterFirstOdd(cs) + rest);
  }

  lemma {:induction false} WalkMisreadsFirstPad(before: seq<byte>, cs: seq<Chunk>, rest: seq<byte>)
    requires AllWellFormed(cs) && !AllEven(cs)
    ensures MisreadsPadOf(before, cs, rest)
    decreases |cs|
  {
    assert cs != [];
    FirstAndRest(cs);
    hide WellFormed, AllWellFormed, AllEven, Odd, MisreadsPadOf, ChunkBytes;
    if Odd(cs[0]) {
      OddFirst(before, cs, rest);
    } else {
      WalkMisreadsFirstPad(before + ChunkBytes(cs[0]), cs[1..], rest);
      EvenFirst(before, cs, rest);
    }
  }

  lemma PadHere(before: seq<byte>, c: Chunk, more: seq<byte>, rest: seq<byte>)
    requires WellFormed(c) && Odd(c)
    ensures GoesOnMisread(before + (ChunkBytes(c) + more + rest), |before|, |before| + 8 + |c.payload|, more + rest)
  {
    hide WellFormed, Odd, ChunkBytes, GoesOnMisread;
    Associates(ChunkBytes(c), more, rest);
    WalkMisreadsPad(before, c, more + rest);
  }

  lemma PadLater(before: seq<byte>, c: Chunk, more: seq<byte>, rest: seq<byte>, pad: nat, left: seq<byte>)
    requires WellFormed(c) && !Odd(c)
    requires GoesOnMisread(before + ChunkBytes(c) + (more + rest), |before + ChunkBytes(c)|, pad, left)
    ensures GoesOnMisread(before + (ChunkBytes(c) + more + rest), |before|, pad, left)
  {
    hide WellFormed, ChunkBytes, GoesOnMisread, Walk;
    Associates(ChunkBytes(c), more, rest);
    Associates(before, ChunkBytes(c), more + rest);
    WalkSkipsEvenChunk(before, c, more + rest);
    SameWalk(before + ChunkBytes(c) + (more + rest), |before|, |before + ChunkBytes(c)|, pad, left);
  }

  lemma SameWalk(audio: seq<byte>, start: nat, later: nat, pad: nat, left: seq<byte>)
    requires Walk(audio, start) == Walk(audio, later) && GoesOnMisread(audio, later, pad, left)
    ensures GoesOnMisread(audio, start, pad, left)
  {
    hide Walk;
  }

  /** A walk from a place with less than a header and `|pcm|` bytes left cannot give a shorter string `pcm`. */
  lemma TooLateFor(audio: seq<byte>, pos: nat, pcm: seq<byte>)
    requires pos + 8 + |pcm| > |audio| > |pcm|
    ensures Walk(audio, pos) != pcm
  {
    WalkGivesSlice(audio, pos);
    hide Walk;
  }

  lemma LostFrom(file: seq<byte>, pad: nat, left: seq<byte>, pcm: seq<byte>)
    requires |file| == pad + 1 + |left| && |left| >= 8 + |pcm| && Overshoots(left, |pcm|)
    ensures Walk(file, pad + 8 + Misread(left)) != pcm
    ensures Overshoots(left, 0) ==> Walk(file, pad + 8 + Misread(left)) == file
  {
    hide Walk, Misread;
    TooLateFor(file, pad + 8 + Misread(left), pcm);
    if Overshoots(left, 0) { WalkEnds(file, pad + 8 + Misread(left)); }
  }

  /** What becomes of a file with an odd chunk before the data chunk: the walk goes on at the misread place. */
  lemma StripMisreadsOddChunk(riffSize: seq<byte>, cs: seq<Chunk>, pcm: seq<byte>, tail: seq<byte>)
    requires |riffSize| == 4 && |pcm| < SIZE_LIMIT && AllWellFormed(cs) && !AllEven(cs)
    requires |WaveFile(riffSize, cs, pcm, tail)| >= 44
    ensures var file, left := WaveFile(riffSize, cs, pcm, tail), AfterFirstOdd(cs) + (DataBytes(pcm) + tail);
      && |file| == 12 + PadAt(cs) + 1 + |left| && |left| >= 8 + |pcm|
      && Stripped(file) == Walk(file, 12 + PadAt(cs) + 8 + Misread(left))
  {
    hide Walk, LooksLikeWave, ChunksBytes, DataBytes, WellFormed, FileHead, Stripped, AllEven, Misread;
    var head, chunks, rest := FileHead(riffSize), ChunksBytes(cs), DataBytes(pcm) + tail;
    Associates(head + chunks, DataBytes(pcm), tail);
    Associates(head, chunks, rest);
    StrippedIsWalk(riffSize, chunks + rest);
    WalkMisreadsFirstPad(head, cs, rest);
  }

  /** Stripping a WAVE file, whatever its chunks, PCM and tail, gives back the PCM if and only if no chunk
      before the data chunk is odd, provided that what is misread behind the first odd one leads past the last
      place a data header could stand; if it leads off the end, the file comes back whole. */
  lemma StripWorksIffAllEven(riffSize: seq<byte>, cs: seq<Chunk>, pcm: seq<byte>, tail: seq<byte>)
    requires |riffSize| == 4 && |pcm| < SIZE_LIMIT && AllWellFormed(cs)
    requires |WaveFile(riffSize, cs, pcm, tail)| >= 44
    requires !AllEven(cs) ==> Overshoots(AfterFirstOdd(cs) + (DataBytes(pcm) + tail), |pcm|)
    ensures Stripped(WaveFile(riffSize, cs, pcm, tail)) == pcm <==> AllEven(cs)
    ensures !AllEven(cs) && Overshoots(AfterFirstOdd(cs) + (DataBytes(pcm) + tail), 0) ==>
      Stripped(WaveFile(riffSize, cs, pcm, tail)) == WaveFile(riffSize, cs, pcm, tail)
  {
    hide Stripped, WaveFile, AllWellFormed, AllEven, Overshoots;
    if AllEven(cs) {
      StripInvertsWriter(riffSize, cs, pcm, tail);
    } else {
      OddFileIsLost(riffSize, cs, pcm, tail);
    }
  }

  lemma OddFileIsLost(riffSize: seq<byte>, cs: seq<Chunk>, pcm: seq<byte>, tail: seq<byte>)
    requires |riffSize| == 4 && |pcm| < SIZE_LIMIT && AllWellFormed(cs) && !AllEven(cs)
    requires |WaveFile(riffSize, cs, pcm, tail)| >= 44
    requires Overshoots(AfterFirstOdd(cs) + (DataBytes(pcm) + tail), |pcm|)
    ensures var file, left := WaveFile(riffSize, cs, pcm, tail), AfterFirstOdd(cs) + (DataBytes(pcm) + tail);
      Stripped(file) != pcm && (Overshoots(left, 0) ==> Stripped(file) == file)
  {
    hide *;
    StripMisreadsOddChunk(riffSize, cs, pcm, tail);
    var file, left := WaveFile(riffSize, cs, pcm, tail), AfterFirstOdd(cs) + (DataBytes(pcm) + tail);
    LostFrom(file, 12 + PadAt(cs), left, pcm);
  }

  lemma MisreadSize(x: byte, n: nat)
    requires n < 0x100_0000
    ensures var size := Encode4(n); LittleEndian([x, size[0], size[1], size[2]]) == (x as int) + 0x100 * n
  {
  }

  /** If the header behind the odd chunk is of a chunk under 16 MiB, the misread size is that chunk's times 256,
      plus the last letter of its id: from a data chunk that overshoots unless the file goes on for more than
      256 bytes per byte of PCM, from another chunk if it is not far from the end. */
  lemma HeaderOvershoots(id: seq<byte>, n: nat, more: seq<byte>, room: nat)
    requires |id| == 4 && n < 0x100_0000
    ensures Overshoots(Header(id, n) + more, room) <==> (id[3] as int) + 0x100 * n + 7 + room > |more|
  {
    var rest, size := Header(id, n) + more, Encode4(n);
    hide LittleEndian, Encode4;
    assert rest[3..7] == [id[3], size[0], size[1], size[2]];
    MisreadSize(id[3], n);
  }
}
