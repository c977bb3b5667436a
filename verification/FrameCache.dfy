/**
 `CameraContext`: concurrent `get_frame` calls over a per-camera locked TTL cache, operator pins with
 owner tokens, cache invalidation and the review ring.

 A call is cut at its awaits: entering, getting the camera's lock, the fetch thread returning, or the
 caller being cancelled in between. A cancelled caller lets go of the lock while its fetch thread runs
 on. Steps interleave in any order, and a disabled event does nothing, so every sequence of events is
 a run. The log records what happened.
 */
module FrameCache {
  import opened Common
  import opened ReviewRing

  datatype Cached = Cached(jpeg: Jpeg, fetchedAt: real)

  datatype Pinned = Pinned(token: nat, jpeg: Jpeg)

  /** A suspended `get_frame` coroutine. */
  datatype Call =
    | Waiting(cam: string, allowPinned: bool, entered: real)
    | Fetching(cam: string, allowPinned: bool, entered: real, since: real)

  /** Where a returned frame came from. */
  datatype Via = FromPin(token: nat) | FromCache(fetchedAt: real) | FromFetch(startedAt: real)

  datatype Obs =
    | FetchStarted(cam: string, call: nat, at: real)
    | FetchOk(cam: string, call: nat, startedAt: real, entry: Entry)
    | FetchFailed(cam: string, call: nat)
    | Returned(cam: string, call: nat, allowPinned: bool, entered: real, at: real, via: Via, jpeg: Jpeg)
    | Invalidated(which: Option<string>)
    | PinSet(cam: string, token: nat, jpeg: Jpeg)
    | PinsCleared(owner: Option<nat>)

  datatype Event =
    | Configure(cam: string)
    | RegisterSource(cam: string)
    | Enter(cam: string, allowPinned: bool)
    | LockGranted(call: nat)
    | FetchReturns(call: nat, result: Option<Entry>)
    | CallCancelled(call: nat)
    | AbandonedFetchEnds(call: nat)
    | Pin(cam: string, jpeg: Jpeg)
    | ClearPins(owner: Option<nat>)
    | Invalidate(which: Option<string>)
    | Tick(elapsed: real)

  datatype State = State(
    ttl: real,
    now: real,
    cameras: set<string>,
    sources: set<string>,
    cache: map<string, Cached>,
    pinned: map<string, Pinned>,
    pinSeq: nat,
    review: map<string, seq<Entry>>,
    locks: map<string, nat>,
    entered: nat,
    calls: map<nat, Call>,
    threads: map<nat, string>,
    log: seq<Obs>)

  function Init(ttl: real): State
  {
    State(ttl, 0.0, {}, {}, map[], map[], 0, map[], map[], 0, map[], map[], [])
  }

  function Note(s: State, x: Obs): State
  {
    s.(log := s.log + [x])
  }

  // ---------- One atomic step ----------

  function EnterCall(s: State, cam: string, allowPinned: bool): State
  {
    var s1 := s.(entered := s.entered + 1);
    if cam !in s.cameras then s1
    else if allowPinned && cam in s.pinned then
      var p := s.pinned[cam];
      Note(s1, Returned(cam, s.entered, true, s.now, s.now, FromPin(p.token), p.jpeg))
    else if cam !in s.sources then s1
    else s1.(calls := s.calls[s.entered := Waiting(cam, allowPinned, s.now)])
  }

  predicate Fresh(s: State, cam: string)
  {
    cam in s.cache && s.now - s.cache[cam].fetchedAt < s.ttl
  }

  function GrantLock(s: State, call: nat): State
    requires call in s.calls
  {
    var c := s.calls[call];
    if Fresh(s, c.cam) then
      var hit := s.cache[c.cam];
      Note(s.(calls := s.calls - {call}),
        Returned(c.cam, call, c.allowPinned, c.entered, s.now, FromCache(hit.fetchedAt), hit.jpeg))
    else
      Note(s.(calls := s.calls[call := Fetching(c.cam, c.allowPinned, c.entered, s.now)],
              locks := s.locks[c.cam := call],
              threads := s.threads[call := c.cam]),
        FetchStarted(c.cam, call, s.now))
  }

  /** The call is over: its lock, its coroutine and its fetch thread are gone. */
  function Release(s: State, call: nat): State
    requires call in s.calls
  {
    s.(calls := s.calls - {call}, locks := s.locks - {s.calls[call].cam}, threads := s.threads - {call})
  }

  function RingOf(review: map<string, seq<Entry>>, cam: string): seq<Entry>
  {
    if cam in review then review[cam] else []
  }

  function Ring(s: State, cam: string): seq<Entry>
  {
    RingOf(s.review, cam)
  }

  /** The review rings after camera `cam` delivered `e`: oversized frames are skipped. */
  function FeedRing(review: map<string, seq<Entry>>, cam: string, e: Entry): map<string, seq<Entry>>
  {
    if Accepted(e) then review[cam := LongestFit(RingOf(review, cam) + [e])] else review
  }

  function FinishFetch(s: State, call: nat, result: Option<Entry>): State
    requires call in s.calls && s.calls[call].Fetching?
  {
    var c := s.calls[call];
    var s1 := Release(s, call);
    match result
    case None => Note(s1, FetchFailed(c.cam, call))
    case Some(e) =>
      var s2 := s1.(
        cache := s.cache[c.cam := Cached(e.jpeg, c.since)],
        review := FeedRing(s.review, c.cam, e));
      Note(Note(s2, FetchOk(c.cam, call, c.since, e)),
        Returned(c.cam, call, c.allowPinned, c.entered, s.now, FromFetch(c.since), e.jpeg))
  }

  function Cancel(s: State, call: nat): State
    requires call in s.calls
  {
    if s.calls[call].Waiting? then s.(calls := s.calls - {call})
    else s.(calls := s.calls - {call}, locks := s.locks - {s.calls[call].cam})
  }

  function PinFrame(s: State, cam: string, jpeg: Jpeg): State
  {
    if cam !in s.cameras then s else
    var token := s.pinSeq + 1;
    Note(s.(pinSeq := token, pinned := s.pinned[cam := Pinned(token, jpeg)]), PinSet(cam, token, jpeg))
  }

  function DropOwned(pinned: map<string, Pinned>, token: nat): map<string, Pinned>
  {
    map c | c in pinned && pinned[c].token != token :: pinned[c]
  }

  function Unpin(s: State, owner: Option<nat>): State
  {
    Note(s.(pinned := if owner.None? then map[] else DropOwned(s.pinned, owner.value)), PinsCleared(owner))
  }

  function DropCache(s: State, which: Option<string>): State
  {
    Note(s.(cache := if which.None? then map[] else s.cache - {which.value}), Invalidated(which))
  }

  predicate Enabled(s: State, e: Event)
  {
    match e
    case LockGranted(call) =>
      call in s.calls && s.calls[call].Waiting? && s.calls[call].cam !in s.locks
    case FetchReturns(call, _) => call in s.calls && s.calls[call].Fetching?
    case CallCancelled(call) => call in s.calls
    case AbandonedFetchEnds(call) => call in s.threads && call !in s.calls
    case Tick(d) => 0.0 <= d
    case _ => true
  }

  function Step(s: State, e: Event): State
  {
    if !Enabled(s, e) then s else
    match e
    case Configure(cam) => s.(cameras := s.cameras + {cam})
    case RegisterSource(cam) => s.(sources := s.sources + {cam})
    case Enter(cam, allowPinned) => EnterCall(s, cam, allowPinned)
    case LockGranted(call) => GrantLock(s, call)
    case FetchReturns(call, result) => FinishFetch(s, call, result)
    case CallCancelled(call) => Cancel(s, call)
    case AbandonedFetchEnds(call) => s.(threads := s.threads - {call})
    case Pin(cam, jpeg) => PinFrame(s, cam, jpeg)
    case ClearPins(owner) => Unpin(s, owner)
    case Invalidate(which) => DropCache(s, which)
    case Tick(d) => s.(now := s.now + d)
  }

  function After(ttl: real, es: seq<Event>): State
  {
    if es == [] then Init(ttl) else Step(After(ttl, es[..|es| - 1]), es[|es| - 1])
  }

  // ---------- What the log says ----------

  /** `x` ends the life of the cache entry made by fetch `f`. */
  predicate Replaces(x: Obs, f: Obs)
    requires f.FetchOk?
  {
    (x.FetchOk? && x.cam == f.cam) || (x.Invalidated? && (x.which.None? || x.which.value == f.cam))
  }

  /** Log entry `k` is a fetch whose frame was neither replaced nor invalidated before position `n`. */
  ghost predicate StillCached(log: seq<Obs>, k: nat, n: nat)
    requires n <= |log|
  {
    k < n && log[k].FetchOk? && forall m :: k < m < n ==> !Replaces(log[m], log[k])
  }

  /** `x` ends the life of pin `p`: a newer pin of the camera, a clear of its own token or of all. */
  predicate Unpins(x: Obs, p: Obs)
    requires p.PinSet?
  {
    (x.PinSet? && x.cam == p.cam) || (x.PinsCleared? && (x.owner.None? || x.owner.value == p.token))
  }

  ghost predicate StillPinned(log: seq<Obs>, k: nat, n: nat)
    requires n <= |log|
  {
    k < n && log[k].PinSet? && forall m :: k < m < n ==> !Unpins(log[m], log[k])
  }

  /** Every accepted frame of a camera, in the order fetched. */
  function AcceptedFrames(log: seq<Obs>, cam: string): seq<Entry>
  {
    if log == [] then [] else
    var x, before := log[|log| - 1], AcceptedFrames(log[..|log| - 1], cam);
    if x.FetchOk? && x.cam == cam && Accepted(x.entry) then before + [x.entry] else before
  }

  /** What a return may hand out: a pin that still stands (and only to a caller that allows pins), the
      newest frame fetched from this camera while younger than the TTL, or the caller's own fetch. */
  ghost predicate ReturnJustified(log: seq<Obs>, ttl: real, i: nat)
    requires i < |log| && log[i].Returned?
  {
    var r := log[i];
    match r.via
    case FromPin(token) => r.allowPinned && HasPin(log, r.cam, token, r.jpeg, i)
    case FromCache(a) => HasCached(log, r.cam, a, r.jpeg, i) && r.at - a < ttl
    case FromFetch(a) => HasCached(log, r.cam, a, r.jpeg, i) && r.entered <= a
  }

  ghost predicate HasCached(log: seq<Obs>, cam: string, startedAt: real, jpeg: Jpeg, n: nat)
    requires n <= |log|
  {
    exists k: nat :: StillCached(log, k, n) && log[k].cam == cam && log[k].startedAt == startedAt &&
      log[k].entry.jpeg == jpeg
  }

  ghost predicate HasPin(log: seq<Obs>, cam: string, token: nat, jpeg: Jpeg, n: nat)
    requires n <= |log|
  {
    exists k: nat :: StillPinned(log, k, n) && log[k] == PinSet(cam, token, jpeg)
  }

  ghost predicate NoInvalidation(log: seq<Obs>, cam: string, i: nat, j: nat)
    requires j <= |log|
  {
    forall m :: i < m < j && log[m].Invalidated? ==> log[m].which.Some? && log[m].which.value != cam
  }

  /** Fetch `j` started at least one TTL after the completed fetch `i` of the same camera had started. */
  ghost predicate SpacedFrom(log: seq<Obs>, ttl: real, i: nat, j: nat)
    requires i < j < |log|
  {
    log[i].FetchOk? && log[j].FetchStarted? && log[i].cam == log[j].cam && NoInvalidation(log, log[i].cam, i, j)
    ==> ttl <= log[j].at - log[i].startedAt
  }

  // ---------- The inductive invariant ----------

  /** Call `t` and the lock, thread and clock facts that go with its stage. */
  ghost predicate CallOK(s: State, t: nat)
    requires t in s.calls
  {
    var c := s.calls[t];
    && t < s.entered && c.entered <= s.now
    && (c.Waiting? ==> t !in s.threads)
    && (c.Fetching? ==>
          && c.cam in s.locks && s.locks[c.cam] == t && t in s.threads && s.threads[t] == c.cam
          && c.entered <= c.since <= s.now)
  }

  ghost predicate LocksOK(s: State)
  {
    && (forall t :: t in s.calls ==> CallOK(s, t))
    && (forall c :: c in s.locks ==> s.locks[c] in s.calls && IsFetching(s, s.locks[c], c))
    && (forall t :: t in s.threads ==> t < s.entered)
  }

  predicate IsFetching(s: State, t: nat, cam: string)
  {
    t in s.calls && s.calls[t].Fetching? && s.calls[t].cam == cam
  }

  /** No completed fetch of the camera started after the one now running, nor after now. */
  ghost predicate StartsOK(s: State, i: nat)
    requires i < |s.log| && s.log[i].FetchOk?
  {
    s.log[i].startedAt <= s.now &&
    forall t :: IsFetching(s, t, s.log[i].cam) ==> s.log[i].startedAt <= s.calls[t].since
  }

  /** An un-invalidated fetch is in the cache, or something newer is. */
  ghost predicate NewestOK(s: State, i: nat)
    requires i < |s.log| && s.log[i].FetchOk?
  {
    NoInvalidation(s.log, s.log[i].cam, i, |s.log|) ==>
      s.log[i].cam in s.cache && s.log[i].startedAt <= s.cache[s.log[i].cam].fetchedAt
  }

  ghost predicate FetchesOK(s: State)
  {
    forall i :: 0 <= i < |s.log| && s.log[i].FetchOk? ==> StartsOK(s, i) && NewestOK(s, i)
  }

  ghost predicate CacheOK(s: State)
  {
    forall c :: c in s.cache ==> HasCached(s.log, c, s.cache[c].fetchedAt, s.cache[c].jpeg, |s.log|)
  }

  ghost predicate PinsOK(s: State)
  {
    && (forall c :: c in s.pinned ==> HasPin(s.log, c, s.pinned[c].token, s.pinned[c].jpeg, |s.log|))
    && (forall k :: 0 <= k < |s.log| && StillPinned(s.log, k, |s.log|) ==> InPins(s, s.log[k]))
    && (forall k :: 0 <= k < |s.log| && s.log[k].PinSet? ==> s.log[k].token <= s.pinSeq)
    && (forall j, k :: 0 <= j < k < |s.log| && s.log[j].PinSet? && s.log[k].PinSet? ==>
          s.log[j].token < s.log[k].token)
  }

  predicate InPins(s: State, p: Obs)
    requires p.PinSet?
  {
    p.cam in s.pinned && s.pinned[p.cam] == Pinned(p.token, p.jpeg)
  }

  ghost predicate RingsOK(s: State)
  {
    forall c: string :: RingOK(s, c)
  }

  ghost predicate RingOK(s: State, cam: string)
  {
    Ring(s, cam) == LongestFit(AcceptedFrames(s.log, cam))
  }

  ghost predicate ReturnsOK(s: State)
  {
    forall i :: 0 <= i < |s.log| && s.log[i].Returned? ==> ReturnJustified(s.log, s.ttl, i)
  }

  ghost predicate SpacingOK(s: State)
  {
    forall i, j :: 0 <= i < j < |s.log| ==> SpacedFrom(s.log, s.ttl, i, j)
  }

  // ---------- What one more log entry does ----------

  lemma StillCachedAppend(log: seq<Obs>, x: Obs, k: nat)
    requires k < |log| && log[k].FetchOk?
    ensures StillCached(log + [x], k, |log| + 1) <==> StillCached(log, k, |log|) && !Replaces(x, log[k])
  {
    var l := log + [x];
    assert forall m :: 0 <= m < |log| ==> l[m] == log[m];
    assert l[|log|] == x;
  }

  lemma StillPinnedAppend(log: seq<Obs>, x: Obs, k: nat)
    requires k < |log| && log[k].PinSet?
    ensures StillPinned(log + [x], k, |log| + 1) <==> StillPinned(log, k, |log|) && !Unpins(x, log[k])
  {
    var l := log + [x];
    assert forall m :: 0 <= m < |log| ==> l[m] == log[m];
    assert l[|log|] == x;
  }

  lemma HasCachedAppend(log: seq<Obs>, x: Obs, cam: string, a: real, jpeg: Jpeg)
    requires HasCached(log, cam, a, jpeg, |log|)
    requires forall f: Obs :: f.FetchOk? && f.cam == cam ==> !Replaces(x, f)
    ensures HasCached(log + [x], cam, a, jpeg, |log| + 1)
  {
    var k: nat :| StillCached(log, k, |log|) && log[k].cam == cam && log[k].startedAt == a &&
      log[k].entry.jpeg == jpeg;
    StillCachedAppend(log, x, k);
    assert (log + [x])[k] == log[k];
  }

  lemma HasPinAppend(log: seq<Obs>, x: Obs, cam: string, token: nat, jpeg: Jpeg)
    requires HasPin(log, cam, token, jpeg, |log|) && !Unpins(x, PinSet(cam, token, jpeg))
    ensures HasPin(log + [x], cam, token, jpeg, |log| + 1)
  {
    var k: nat :| StillPinned(log, k, |log|) && log[k] == PinSet(cam, token, jpeg);
    StillPinnedAppend(log, x, k);
    assert (log + [x])[k] == log[k];
  }

  lemma HasCachedPrefix(log: seq<Obs>, x: Obs, cam: string, a: real, jpeg: Jpeg, n: nat)
    requires n <= |log| && HasCached(log, cam, a, jpeg, n)
    ensures HasCached(log + [x], cam, a, jpeg, n)
  {
    var k: nat :| StillCached(log, k, n) && log[k].cam == cam && log[k].startedAt == a && log[k].entry.jpeg == jpeg;
    assert forall m :: 0 <= m < |log| ==> (log + [x])[m] == log[m];
    assert StillCached(log + [x], k, n);
  }

  lemma HasPinPrefix(log: seq<Obs>, x: Obs, cam: string, token: nat, jpeg: Jpeg, n: nat)
    requires n <= |log| && HasPin(log, cam, token, jpeg, n)
    ensures HasPin(log + [x], cam, token, jpeg, n)
  {
    var k: nat :| StillPinned(log, k, n) && log[k] == PinSet(cam, token, jpeg);
    assert forall m :: 0 <= m < |log| ==> (log + [x])[m] == log[m];
    assert StillPinned(log + [x], k, n);
  }

  /** What was justified by the log so far stays justified. */
  lemma ReturnJustifiedAppend(log: seq<Obs>, x: Obs, ttl: real, i: nat)
    requires i < |log| && log[i].Returned? && ReturnJustified(log, ttl, i)
    ensures ReturnJustified(log + [x], ttl, i)
  {
    var r := log[i];
    assert (log + [x])[i] == r;
    match r.via
    case FromPin(token) => HasPinPrefix(log, x, r.cam, token, r.jpeg, i);
    case FromCache(a) => HasCachedPrefix(log, x, r.cam, a, r.jpeg, i);
    case FromFetch(a) => HasCachedPrefix(log, x, r.cam, a, r.jpeg, i);
  }

  lemma AcceptedAppend(log: seq<Obs>, x: Obs, cam: string)
    ensures AcceptedFrames(log + [x], cam) ==
      if x.FetchOk? && x.cam == cam && Accepted(x.entry) then AcceptedFrames(log, cam) + [x.entry]
      else AcceptedFrames(log, cam)
  {
    assert (log + [x])[..|log|] == log;
  }

  // ---------- Quiet steps: the log grows by an entry that nothing depends on ----------

  /** Entries that touch neither cache nor pins, and start no fetch. */
  predicate Quiet(x: Obs)
  {
    x.Returned? || x.FetchFailed?
  }

  lemma ReturnsAppend(s: State, s': State, x: Obs)
    requires ReturnsOK(s) && s'.log == s.log + [x] && s'.ttl == s.ttl
    requires x.Returned? ==> ReturnJustified(s'.log, s.ttl, |s.log|)
    ensures ReturnsOK(s')
  {
    forall i | 0 <= i < |s'.log| && s'.log[i].Returned? ensures ReturnJustified(s'.log, s'.ttl, i) {
      if i < |s.log| { ReturnJustifiedAppend(s.log, x, s.ttl, i); }
    }
  }

  lemma NoInvalidationPrefix(log: seq<Obs>, x: Obs, cam: string, i: nat, j: nat)
    requires j <= |log|
    ensures NoInvalidation(log + [x], cam, i, j) == NoInvalidation(log, cam, i, j)
  {
    assert forall m :: 0 <= m < |log| ==> (log + [x])[m] == log[m];
  }

  lemma NoInvalidationAppend(log: seq<Obs>, x: Obs, cam: string, i: nat)
    requires i < |log|
    ensures NoInvalidation(log + [x], cam, i, |log| + 1) <==>
      NoInvalidation(log, cam, i, |log|) && (x.Invalidated? ==> x.which.Some? && x.which.value != cam)
  {
    assert forall m :: 0 <= m < |log| ==> (log + [x])[m] == log[m];
    assert (log + [x])[|log|] == x;
  }

  lemma SpacingAppend(s: State, s': State, x: Obs)
    requires SpacingOK(s) && s'.log == s.log + [x] && s'.ttl == s.ttl
    requires forall i :: 0 <= i < |s.log| ==> SpacedFrom(s'.log, s.ttl, i, |s.log|)
    ensures SpacingOK(s')
  {
    forall i, j | 0 <= i < j < |s'.log| ensures SpacedFrom(s'.log, s'.ttl, i, j) {
      if j < |s.log| {
        assert SpacedFrom(s.log, s.ttl, i, j);
        if s.log[i].FetchOk? { NoInvalidationPrefix(s.log, x, s.log[i].cam, i, j); }
      }
    }
  }

  /** The running fetches of `s'` were already running in `s`, and the clock did not go back. */
  ghost predicate NoNewFetch(s: State, s': State)
  {
    s.now <= s'.now &&
    forall t, c :: IsFetching(s', t, c) ==> IsFetching(s, t, c) && s'.calls[t].since == s.calls[t].since
  }

  predicate SameData(s: State, s': State)
  {
    s'.cache == s.cache && s'.pinned == s.pinned && s'.pinSeq == s.pinSeq && s'.review == s.review && s'.ttl == s.ttl
  }

  ghost predicate DataOK(s: State)
  {
    FetchesOK(s) && CacheOK(s) && PinsOK(s) && RingsOK(s) && ReturnsOK(s) && SpacingOK(s)
  }

  lemma FetchesSilent(s: State, s': State)
    requires FetchesOK(s) && s'.log == s.log && s'.cache == s.cache && NoNewFetch(s, s')
    ensures FetchesOK(s')
  {
    forall i | 0 <= i < |s.log| && s.log[i].FetchOk? ensures StartsOK(s', i) && NewestOK(s', i) {
      assert StartsOK(s, i) && NewestOK(s, i);
    }
  }

  /** A step that logs nothing and leaves the data alone. */
  lemma SilentKeepsData(s: State, s': State)
    requires DataOK(s) && s'.log == s.log && SameData(s, s') && NoNewFetch(s, s')
    ensures DataOK(s')
  {
    FetchesSilent(s, s');
    forall c: string ensures RingOK(s', c) {
      assert RingOK(s, c);
    }
    assert forall k :: 0 <= k < |s.log| && StillPinned(s.log, k, |s.log|) ==> InPins(s, s.log[k]);
  }

  lemma FetchesAppend(s: State, s': State, x: Obs)
    requires FetchesOK(s) && s'.log == s.log + [x] && s'.cache == s.cache && NoNewFetch(s, s')
    requires !x.FetchOk? && !x.Invalidated?
    ensures FetchesOK(s')
  {
    forall i | 0 <= i < |s'.log| && s'.log[i].FetchOk? ensures StartsOK(s', i) && NewestOK(s', i) {
      assert StartsOK(s, i) && NewestOK(s, i);
      NoInvalidationAppend(s.log, x, s.log[i].cam, i);
    }
  }

  lemma CacheAppend(s: State, s': State, x: Obs)
    requires CacheOK(s) && s'.log == s.log + [x]
    requires forall c :: c in s'.cache ==> c in s.cache && s'.cache[c] == s.cache[c]
    requires forall f: Obs :: f.FetchOk? && f.cam in s'.cache ==> !Replaces(x, f)
    ensures CacheOK(s')
  {
    forall c | c in s'.cache ensures HasCached(s'.log, c, s'.cache[c].fetchedAt, s'.cache[c].jpeg, |s'.log|) {
      assert HasCached(s.log, c, s.cache[c].fetchedAt, s.cache[c].jpeg, |s.log|);
      HasCachedAppend(s.log, x, c, s.cache[c].fetchedAt, s.cache[c].jpeg);
    }
  }

  lemma PinsAppend(s: State, s': State, x: Obs)
    requires PinsOK(s) && s'.log == s.log + [x] && s'.pinned == s.pinned && s'.pinSeq == s.pinSeq
    requires !x.PinSet? && !x.PinsCleared?
    ensures PinsOK(s')
  {
    forall c | c in s'.pinned ensures HasPin(s'.log, c, s'.pinned[c].token, s'.pinned[c].jpeg, |s'.log|) {
      HasPinAppend(s.log, x, c, s.pinned[c].token, s.pinned[c].jpeg);
    }
    forall k | 0 <= k < |s'.log| && StillPinned(s'.log, k, |s'.log|) ensures InPins(s', s'.log[k]) {
      StillPinnedAppend(s.log, x, k);
      assert InPins(s, s.log[k]);
    }
  }

  lemma RingsAppend(s: State, s': State, x: Obs)
    requires RingsOK(s) && s'.log == s.log + [x] && s'.review == s.review && !x.FetchOk?
    ensures RingsOK(s')
  {
    forall c: string ensures RingOK(s', c) {
      assert RingOK(s, c);
      AcceptedAppend(s.log, x, c);
    }
  }

  /** A step that only logs a return or a failed fetch. */
  lemma QuietKeepsData(s: State, s': State, x: Obs)
    requires DataOK(s) && s'.log == s.log + [x] && SameData(s, s') && NoNewFetch(s, s') && Quiet(x)
    requires x.Returned? ==> ReturnJustified(s'.log, s.ttl, |s.log|)
    ensures DataOK(s')
  {
    hide FetchesOK, CacheOK, PinsOK, RingsOK, ReturnsOK, SpacingOK;
    FetchesAppend(s, s', x);
    CacheAppend(s, s', x);
    PinsAppend(s, s', x);
    RingsAppend(s, s', x);
    ReturnsAppend(s, s', x);
    SpacingAppend(s, s', x);
  }

  // ---------- Every step keeps the invariant ----------

  lemma PinnedEnterKeepsData(s: State, cam: string)
    requires DataOK(s) && cam in s.cameras && cam in s.pinned
    ensures DataOK(EnterCall(s, cam, true))
  {
    var p := s.pinned[cam];
    var x := Returned(cam, s.entered, true, s.now, s.now, FromPin(p.token), p.jpeg);
    assert HasPin(s.log, cam, p.token, p.jpeg, |s.log|);
    hide FetchesOK, CacheOK, PinsOK, RingsOK, ReturnsOK, SpacingOK;
    HasPinPrefix(s.log, x, cam, p.token, p.jpeg, |s.log|);
    QuietKeepsData(s, EnterCall(s, cam, true), x);
  }

  lemma WaitingIsNoFetch(s: State, s': State, cam: string, allowPinned: bool)
    requires LocksOK(s) && s'.now == s.now
    requires s'.calls == s.calls || s'.calls == s.calls[s.entered := Waiting(cam, allowPinned, s.now)]
    ensures NoNewFetch(s, s')
  {
    LocksAreOld(s);
  }

  lemma EnterKeepsData(s: State, cam: string, allowPinned: bool)
    requires DataOK(s) && LocksOK(s)
    ensures DataOK(EnterCall(s, cam, allowPinned))
  {
    hide LocksOK, DataOK, NoNewFetch;
    if cam in s.cameras && allowPinned && cam in s.pinned {
      PinnedEnterKeepsData(s, cam);
    } else {
      var s' := EnterCall(s, cam, allowPinned);
      WaitingIsNoFetch(s, s', cam, allowPinned);
      SilentKeepsData(s, s');
    }
  }

  lemma LocksAreOld(s: State)
    requires LocksOK(s)
    ensures s.entered !in s.calls
  {
    assert s.entered in s.calls ==> CallOK(s, s.entered);
  }

  lemma HitKeepsData(s: State, call: nat)
    requires DataOK(s) && call in s.calls && Fresh(s, s.calls[call].cam)
    ensures DataOK(GrantLock(s, call))
  {
    var s' := GrantLock(s, call);
    var c, hit := s.calls[call], s.cache[s.calls[call].cam];
    HasCachedPrefix(s.log, s'.log[|s.log|], c.cam, hit.fetchedAt, hit.jpeg, |s.log|);
    hide DataOK;
    QuietKeepsData(s, s', s'.log[|s.log|]);
  }

  /** A stale or empty cache starts a fetch: a TTL has passed since any un-invalidated one started. */
  lemma MissKeepsData(s: State, call: nat)
    requires DataOK(s) && LocksOK(s) && Enabled(s, LockGranted(call)) && !Fresh(s, s.calls[call].cam)
    ensures DataOK(GrantLock(s, call))
  {
    var s' := GrantLock(s, call);
    var cam := s.calls[call].cam;
    var x := FetchStarted(cam, call, s.now);
    forall i | 0 <= i < |s'.log| && s'.log[i].FetchOk? ensures StartsOK(s', i) && NewestOK(s', i) {
      assert StartsOK(s, i) && NewestOK(s, i);
      NoInvalidationAppend(s.log, x, s.log[i].cam, i);
      assert forall t :: IsFetching(s', t, s.log[i].cam) && t != call ==> IsFetching(s, t, s.log[i].cam);
    }
    forall i | 0 <= i < |s.log| ensures SpacedFrom(s'.log, s.ttl, i, |s.log|) {
      if s.log[i].FetchOk? {
        assert NewestOK(s, i);
        NoInvalidationPrefix(s.log, x, s.log[i].cam, i, |s.log|);
      }
    }
    hide FetchesOK, CacheOK, PinsOK, RingsOK, ReturnsOK, SpacingOK;
    CacheAppend(s, s', x);
    PinsAppend(s, s', x);
    RingsAppend(s, s', x);
    ReturnsAppend(s, s', x);
    SpacingAppend(s, s', x);
  }

  /** The state between logging a completed fetch and logging the return it leads to. */
  function Fetched(s: State, call: nat, e: Entry): State
    requires call in s.calls && s.calls[call].Fetching?
  {
    var c := s.calls[call];
    Note(Release(s, call).(
        cache := s.cache[c.cam := Cached(e.jpeg, c.since)],
        review := FeedRing(s.review, c.cam, e)),
      FetchOk(c.cam, call, c.since, e))
  }

  lemma FetchedKeepsFetches(s: State, call: nat, e: Entry)
    requires FetchesOK(s) && LocksOK(s) && call in s.calls && s.calls[call].Fetching?
    ensures FetchesOK(Fetched(s, call, e))
  {
    var s' := Fetched(s, call, e);
    var x := s'.log[|s.log|];
    assert CallOK(s, call);
    assert forall t, c :: IsFetching(s', t, c) ==> IsFetching(s, t, c) && CallOK(s, t);
    forall i | 0 <= i < |s'.log| && s'.log[i].FetchOk? ensures StartsOK(s', i) && NewestOK(s', i) {
      if i < |s.log| {
        assert StartsOK(s, i) && NewestOK(s, i);
        NoInvalidationAppend(s.log, x, s.log[i].cam, i);
      }
    }
  }

  lemma FetchedKeepsCache(s: State, call: nat, e: Entry)
    requires CacheOK(s) && call in s.calls && s.calls[call].Fetching?
    ensures CacheOK(Fetched(s, call, e))
  {
    var s' := Fetched(s, call, e);
    var x := s'.log[|s.log|];
    forall c | c in s'.cache ensures HasCached(s'.log, c, s'.cache[c].fetchedAt, s'.cache[c].jpeg, |s'.log|) {
      if c == x.cam {
        assert s'.log[|s.log|] == x;
        assert StillCached(s'.log, |s.log|, |s'.log|);
      } else {
        HasCachedAppend(s.log, x, c, s.cache[c].fetchedAt, s.cache[c].jpeg);
      }
    }
  }

  lemma FetchedKeepsRings(s: State, call: nat, e: Entry)
    requires RingsOK(s) && call in s.calls && s.calls[call].Fetching?
    ensures RingsOK(Fetched(s, call, e))
  {
    var s' := Fetched(s, call, e);
    forall c: string ensures RingOK(s', c) {
      assert RingOK(s, c);
      AcceptedAppend(s.log, s'.log[|s.log|], c);
      TrimThenAppend(AcceptedFrames(s.log, c), e);
    }
  }

  lemma FetchedKeepsData(s: State, call: nat, e: Entry)
    requires DataOK(s) && LocksOK(s) && call in s.calls && s.calls[call].Fetching?
    ensures DataOK(Fetched(s, call, e))
  {
    hide FetchesOK, CacheOK, PinsOK, RingsOK, ReturnsOK, SpacingOK;
    var s' := Fetched(s, call, e);
    var x := s'.log[|s.log|];
    FetchedKeepsFetches(s, call, e);
    FetchedKeepsCache(s, call, e);
    FetchedKeepsRings(s, call, e);
    PinsAppend(s, s', x);
    ReturnsAppend(s, s', x);
    SpacingAppend(s, s', x);
  }

  lemma FinishKeepsData(s: State, call: nat, result: Option<Entry>)
    requires DataOK(s) && LocksOK(s) && call in s.calls && s.calls[call].Fetching?
    ensures DataOK(FinishFetch(s, call, result))
  {
    var s' := FinishFetch(s, call, result);
    var c := s.calls[call];
    assert CallOK(s, call);
    hide DataOK, LocksOK;
    match result
    case None => QuietKeepsData(s, s', FetchFailed(c.cam, call));
    case Some(e) =>
      var mid := Fetched(s, call, e);
      FetchedKeepsData(s, call, e);
      assert s' == Note(mid, s'.log[|mid.log|]);
      assert StillCached(s'.log, |s.log|, |mid.log|);
      assert HasCached(s'.log, c.cam, c.since, e.jpeg, |mid.log|);
      QuietKeepsData(mid, s', s'.log[|mid.log|]);
  }

  lemma PinKeepsData(s: State, cam: string, jpeg: Jpeg)
    requires DataOK(s) && cam in s.cameras
    ensures DataOK(PinFrame(s, cam, jpeg))
  {
    var s' := PinFrame(s, cam, jpeg);
    var x := PinSet(cam, s.pinSeq + 1, jpeg);
    PinKeepsPins(s, cam, jpeg);
    hide FetchesOK, CacheOK, PinsOK, RingsOK, ReturnsOK, SpacingOK;
    FetchesAppend(s, s', x);
    CacheAppend(s, s', x);
    RingsAppend(s, s', x);
    ReturnsAppend(s, s', x);
    SpacingAppend(s, s', x);
  }

  lemma PinKeepsPins(s: State, cam: string, jpeg: Jpeg)
    requires PinsOK(s) && cam in s.cameras
    ensures PinsOK(PinFrame(s, cam, jpeg))
  {
    var s' := PinFrame(s, cam, jpeg);
    var x := PinSet(cam, s.pinSeq + 1, jpeg);
    assert s'.log[|s.log|] == x && StillPinned(s'.log, |s.log|, |s'.log|);
    assert HasPin(s'.log, cam, s.pinSeq + 1, jpeg, |s'.log|);
    hide HasPin, StillPinned;
    forall c | c in s'.pinned ensures HasPin(s'.log, c, s'.pinned[c].token, s'.pinned[c].jpeg, |s'.log|) {
      if c != cam { HasPinAppend(s.log, x, c, s.pinned[c].token, s.pinned[c].jpeg); }
    }
    forall k | 0 <= k < |s'.log| && StillPinned(s'.log, k, |s'.log|) ensures InPins(s', s'.log[k]) {
      if k < |s.log| {
        StillPinnedAppend(s.log, x, k);
        assert InPins(s, s.log[k]);
      }
    }
  }

  lemma UnpinKeepsPins(s: State, owner: Option<nat>)
    requires PinsOK(s)
    ensures PinsOK(Unpin(s, owner))
  {
    var s' := Unpin(s, owner);
    forall c | c in s'.pinned ensures HasPin(s'.log, c, s'.pinned[c].token, s'.pinned[c].jpeg, |s'.log|) {
      HasPinAppend(s.log, PinsCleared(owner), c, s.pinned[c].token, s.pinned[c].jpeg);
    }
    forall k | 0 <= k < |s'.log| && StillPinned(s'.log, k, |s'.log|) ensures InPins(s', s'.log[k]) {
      StillPinnedAppend(s.log, PinsCleared(owner), k);
      assert InPins(s, s.log[k]);
    }
  }

  lemma UnpinKeepsData(s: State, owner: Option<nat>)
    requires DataOK(s)
    ensures DataOK(Unpin(s, owner))
  {
    var s' := Unpin(s, owner);
    var x := PinsCleared(owner);
    UnpinKeepsPins(s, owner);
    hide FetchesOK, CacheOK, PinsOK, RingsOK, ReturnsOK, SpacingOK;
    FetchesAppend(s, s', x);
    CacheAppend(s, s', x);
    RingsAppend(s, s', x);
    ReturnsAppend(s, s', x);
    SpacingAppend(s, s', x);
  }

  lemma DropKeepsFetches(s: State, which: Option<string>)
    requires FetchesOK(s)
    ensures FetchesOK(DropCache(s, which))
  {
    var s' := DropCache(s, which);
    forall i | 0 <= i < |s'.log| && s'.log[i].FetchOk? ensures StartsOK(s', i) && NewestOK(s', i) {
      assert StartsOK(s, i) && NewestOK(s, i);
      assert forall t, c :: IsFetching(s', t, c) ==> IsFetching(s, t, c);
      NoInvalidationAppend(s.log, Invalidated(which), s.log[i].cam, i);
    }
  }

  lemma DropKeepsData(s: State, which: Option<string>)
    requires DataOK(s)
    ensures DataOK(DropCache(s, which))
  {
    var s' := DropCache(s, which);
    var x := Invalidated(which);
    DropKeepsFetches(s, which);
    hide FetchesOK, CacheOK, PinsOK, RingsOK, ReturnsOK, SpacingOK;
    CacheAppend(s, s', x);
    PinsAppend(s, s', x);
    RingsAppend(s, s', x);
    ReturnsAppend(s, s', x);
    SpacingAppend(s, s', x);
  }

  lemma StepKeepsData(s: State, e: Event)
    requires DataOK(s) && LocksOK(s)
    ensures DataOK(Step(s, e))
  {
    hide DataOK, LocksOK;
    if Enabled(s, e) {
      match e
      case Configure(cam) => SilentKeepsData(s, Step(s, e));
      case RegisterSource(cam) => SilentKeepsData(s, Step(s, e));
      case Enter(cam, allowPinned) => EnterKeepsData(s, cam, allowPinned);
      case LockGranted(call) =>
        if Fresh(s, s.calls[call].cam) { HitKeepsData(s, call); } else { MissKeepsData(s, call); }
      case FetchReturns(call, result) => FinishKeepsData(s, call, result);
      case CallCancelled(call) => SilentKeepsData(s, Step(s, e));
      case AbandonedFetchEnds(call) => SilentKeepsData(s, Step(s, e));
      case Pin(cam, jpeg) => if cam in s.cameras { PinKeepsData(s, cam, jpeg); }
      case ClearPins(owner) => UnpinKeepsData(s, owner);
      case Invalidate(which) => DropKeepsData(s, which);
      case Tick(d) => SilentKeepsData(s, Step(s, e));
    }
  }

  /** Calls, locks and threads stay consistent when a call leaves, and its lock with it. */
  lemma LeaveKeepsLocks(s: State, s': State, call: nat)
    requires LocksOK(s) && call in s.calls
    requires s'.calls == s.calls - {call} && s'.entered == s.entered && s'.now == s.now
    requires s'.locks == if s.calls[call].Fetching? then s.locks - {s.calls[call].cam} else s.locks
    requires s'.threads == s.threads || s'.threads == s.threads - {call}
    ensures LocksOK(s')
  {
    assert CallOK(s, call);
    forall t | t in s'.calls ensures CallOK(s', t) {
      assert CallOK(s, t);
    }
  }

  lemma WaitingKeepsLocks(s: State, s': State, c: Call)
    requires LocksOK(s) && c.Waiting? && c.entered <= s.now
    requires s'.entered == s.entered + 1 && s'.calls == s.calls[s.entered := c]
    requires s'.locks == s.locks && s'.threads == s.threads && s'.now == s.now
    ensures LocksOK(s')
  {
    LocksAreOld(s);
    assert s.entered !in s.threads;
    forall t | t in s'.calls ensures CallOK(s', t) {
      assert t in s.calls ==> CallOK(s, t);
    }
  }

  lemma EnterKeepsLocks(s: State, cam: string, allowPinned: bool)
    requires LocksOK(s)
    ensures LocksOK(EnterCall(s, cam, allowPinned))
  {
    hide LocksOK;
    var s' := EnterCall(s, cam, allowPinned);
    if cam in s.cameras && cam in s.sources && !(allowPinned && cam in s.pinned) {
      WaitingKeepsLocks(s, s', Waiting(cam, allowPinned, s.now));
    } else {
      SameCallsKeepLocks(s, s');
    }
  }

  lemma GrantKeepsLocks(s: State, call: nat)
    requires LocksOK(s) && Enabled(s, LockGranted(call))
    ensures LocksOK(GrantLock(s, call))
  {
    assert CallOK(s, call);
    if Fresh(s, s.calls[call].cam) {
      LeaveKeepsLocks(s, GrantLock(s, call), call);
    } else {
      var s' := GrantLock(s, call);
      forall t | t in s'.calls ensures CallOK(s', t) {
        assert CallOK(s, t);
      }
    }
  }

  lemma SameCallsKeepLocks(s: State, s': State)
    requires LocksOK(s) && s'.calls == s.calls && s'.locks == s.locks && s.entered <= s'.entered && s.now <= s'.now
    requires s'.threads == s.threads
    ensures LocksOK(s')
  {
    forall t | t in s'.calls ensures CallOK(s', t) {
      assert CallOK(s, t);
    }
  }

  lemma AbandonKeepsLocks(s: State, call: nat)
    requires LocksOK(s) && call !in s.calls
    ensures LocksOK(s.(threads := s.threads - {call}))
  {
    var s' := s.(threads := s.threads - {call});
    forall t | t in s'.calls ensures CallOK(s', t) {
      assert CallOK(s, t);
    }
  }

  lemma StepKeepsLocks(s: State, e: Event)
    requires LocksOK(s)
    ensures LocksOK(Step(s, e))
  {
    hide LocksOK, EnterCall, GrantLock;
    if Enabled(s, e) {
      match e
      case Enter(cam, allowPinned) => EnterKeepsLocks(s, cam, allowPinned);
      case LockGranted(call) => GrantKeepsLocks(s, call);
      case FetchReturns(call, result) => FinishKeepsLocks(s, call, result);
      case CallCancelled(call) => LeaveKeepsLocks(s, Cancel(s, call), call);
      case AbandonedFetchEnds(call) => AbandonKeepsLocks(s, call);
      case _ => SameCallsKeepLocks(s, Step(s, e));
    }
  }

  lemma FinishKeepsLocks(s: State, call: nat, result: Option<Entry>)
    requires LocksOK(s) && call in s.calls && s.calls[call].Fetching?
    ensures LocksOK(FinishFetch(s, call, result))
  {
    LeaveKeepsLocks(s, FinishFetch(s, call, result), call);
  }

  ghost predicate Inv(s: State)
  {
    LocksOK(s) && DataOK(s)
  }

  lemma StepKeepsInv(s: State, e: Event)
    requires Inv(s)
    ensures Inv(Step(s, e)) && Step(s, e).ttl == s.ttl
  {
    hide LocksOK, DataOK;
    StepKeepsLocks(s, e);
    StepKeepsData(s, e);
  }

  lemma {:induction false} Reachable(ttl: real, es: seq<Event>)
    ensures Inv(After(ttl, es)) && After(ttl, es).ttl == ttl
  {
    if es == [] {
      InitOK(ttl);
    } else {
      hide Inv, Step;
      var prefix := es[..|es| - 1];
      Reachable(ttl, prefix);
      StepKeepsInv(After(ttl, prefix), es[|es| - 1]);
    }
  }

  lemma InitOK(ttl: real)
    ensures LocksOK(Init(ttl)) && DataOK(Init(ttl))
  {
    assert RingsOK(Init(ttl)) by {
      forall c: string ensures RingOK(Init(ttl), c) { }
    }
  }

  // ---------- Theorems about every run ----------

  /** At most one of the calls whose fetch threads run for a camera is still suspended. */
  lemma OnlyOneIsStillWaited(s: State, t: nat, u: nat)
    requires LocksOK(s) && t != u && t in s.threads && u in s.threads && s.threads[t] == s.threads[u]
    ensures t !in s.calls || u !in s.calls
  {
    assert t in s.calls ==> CallOK(s, t);
    assert u in s.calls ==> CallOK(s, u);
  }

  predicate FetchingIn(s: State, t: nat)
  {
    t in s.calls && s.calls[t].Fetching?
  }

  /** Event `i` of the run cancels call `t` while it waits for its fetch, after the lock was granted to it. */
  ghost predicate CancelsFetch(ttl: real, es: seq<Event>, i: int, t: nat)
  {
    0 <= i < |es| && es[i] == CallCancelled(t) && FetchingIn(After(ttl, es[..i]), t)
  }

  ghost predicate Abandoned(ttl: real, es: seq<Event>, t: nat)
  {
    exists i :: CancelsFetch(ttl, es, i, t)
  }

  /** All a step can do to suspended calls and fetch threads. */
  ghost predicate CallsMove(s: State, e: Event, s': State)
  {
    && s.entered <= s'.entered
    && (forall t :: t in s'.calls ==> t in s.calls || t == s.entered < s'.entered)
    && (forall t :: t in s'.threads ==> t in s.threads || t in s'.calls)
    && (forall t :: t in s'.threads && t in s.calls && t !in s'.calls ==> e == CallCancelled(t) || s.calls[t].Waiting?)
  }

  lemma EnterMovesCalls(s: State, cam: string, allowPinned: bool)
    ensures CallsMove(s, Enter(cam, allowPinned), EnterCall(s, cam, allowPinned))
  {
  }

  lemma GrantMovesCalls(s: State, call: nat)
    requires call in s.calls
    ensures CallsMove(s, LockGranted(call), GrantLock(s, call)) || !s.calls[call].Waiting?
  {
    hide Fresh;
  }

  lemma FinishMovesCalls(s: State, call: nat, result: Option<Entry>)
    requires call in s.calls && s.calls[call].Fetching?
    ensures CallsMove(s, FetchReturns(call, result), FinishFetch(s, call, result))
  {
    hide FeedRing;
  }

  lemma SameCallsMove(s: State, e: Event, s': State)
    requires s'.calls == s.calls && s'.entered == s.entered && forall t :: t in s'.threads ==> t in s.threads
    ensures CallsMove(s, e, s')
  {
  }

  lemma StepMovesCalls(s: State, e: Event)
    ensures CallsMove(s, e, Step(s, e))
  {
    hide CallsMove, EnterCall, GrantLock, FinishFetch, Cancel;
    if !Enabled(s, e) {
      SameCallsMove(s, e, s);
    } else {
      match e
      case Enter(cam, allowPinned) => EnterMovesCalls(s, cam, allowPinned);
      case LockGranted(call) => GrantMovesCalls(s, call);
      case FetchReturns(call, result) => FinishMovesCalls(s, call, result);
      case CallCancelled(call) => CancelMovesCalls(s, call);
      case _ => SameCallsMove(s, e, Step(s, e));
    }
  }

  lemma CancelMovesCalls(s: State, call: nat)
    requires call in s.calls
    ensures CallsMove(s, CallCancelled(call), Cancel(s, call))
  {
  }

  /** A call that is over never comes back. */
  lemma GoneStaysGone(s: State, e: Event, t: nat)
    requires t < s.entered && t !in s.calls
    ensures t < Step(s, e).entered && t !in Step(s, e).calls
  {
    hide Step;
    StepMovesCalls(s, e);
  }

  /** A fetch thread without its caller was left behind by this very step, or before it. */
  lemma LeftBehind(s: State, e: Event, t: nat)
    requires LocksOK(s) && t in Step(s, e).threads && t !in Step(s, e).calls
    ensures t in s.threads && (t !in s.calls || (e == CallCancelled(t) && FetchingIn(s, t)))
  {
    hide Step;
    StepMovesCalls(s, e);
    assert t in s.calls ==> CallOK(s, t);
  }

  lemma CancelsFetchPrefix(ttl: real, es: seq<Event>, e: Event, i: int, t: nat)
    requires i < |es|
    ensures CancelsFetch(ttl, es + [e], i, t) <==> CancelsFetch(ttl, es, i, t)
  {
    if 0 <= i { assert (es + [e])[..i] == es[..i]; }
  }

  lemma LocksReachable(ttl: real, es: seq<Event>)
    ensures LocksOK(After(ttl, es))
  {
    Reachable(ttl, es);
  }

  lemma {:induction false} AbandonedIsGone(ttl: real, es: seq<Event>, t: nat)
    requires Abandoned(ttl, es, t)
    ensures t < After(ttl, es).entered && t !in After(ttl, es).calls
    decreases |es|
  {
    var i :| CancelsFetch(ttl, es, i, t);
    var before, e := es[..|es| - 1], es[|es| - 1];
    var s := After(ttl, before);
    assert before + [e] == es;
    LocksReachable(ttl, before);
    if i < |before| {
      hide Step;
      CancelsFetchPrefix(ttl, before, e, i, t);
      AbandonedIsGone(ttl, before, t);
      GoneStaysGone(s, e, t);
    } else {
      assert CallOK(s, t);
    }
  }

  lemma {:induction false} GoneIsAbandoned(ttl: real, es: seq<Event>, t: nat)
    requires t in After(ttl, es).threads && t !in After(ttl, es).calls
    ensures Abandoned(ttl, es, t)
    decreases |es|
  {
    hide Step;
    var before, e := es[..|es| - 1], es[|es| - 1];
    var s := After(ttl, before);
    assert before + [e] == es;
    LocksReachable(ttl, before);
    LeftBehind(s, e, t);
    if t !in s.calls {
      GoneIsAbandoned(ttl, before, t);
      var i :| CancelsFetch(ttl, before, i, t);
      CancelsFetchPrefix(ttl, before, e, i, t);
    } else {
      assert CancelsFetch(ttl, es, |before|, t);
    }
  }

  /** A running fetch thread has lost its caller if and only if the run cancelled the caller during that fetch. */
  lemma GoneIffAbandoned(ttl: real, es: seq<Event>, t: nat)
    requires t in After(ttl, es).threads
    ensures t !in After(ttl, es).calls <==> Abandoned(ttl, es, t)
  {
    hide Step, After, Abandoned;
    if t !in After(ttl, es).calls { GoneIsAbandoned(ttl, es, t); }
    if Abandoned(ttl, es, t) { AbandonedIsGone(ttl, es, t); }
  }

  /** Two fetches of one camera overlap only if the run cancelled the caller of one of them during its fetch. */
  lemma FetchesOverlapOnlyIfAbandoned(ttl: real, es: seq<Event>, t: nat, u: nat)
    requires var s := After(ttl, es);
      t != u && t in s.threads && u in s.threads && s.threads[t] == s.threads[u]
    ensures Abandoned(ttl, es, t) || Abandoned(ttl, es, u)
  {
    hide After, Abandoned, LocksOK;
    LocksReachable(ttl, es);
    OnlyOneIsStillWaited(After(ttl, es), t, u);
    GoneIffAbandoned(ttl, es, t);
    GoneIffAbandoned(ttl, es, u);
  }

  /** While no call is cancelled, no two fetches of one camera ever run at once. */
  lemma NoOverlapWithoutCancellation(ttl: real, es: seq<Event>, t: nat, u: nat)
    requires forall i :: 0 <= i < |es| ==> !es[i].CallCancelled?
    requires t != u && t in After(ttl, es).threads && u in After(ttl, es).threads
    ensures After(ttl, es).threads[t] != After(ttl, es).threads[u]
  {
    hide After, FetchingIn;
    if After(ttl, es).threads[t] == After(ttl, es).threads[u] {
      FetchesOverlapOnlyIfAbandoned(ttl, es, t, u);
    }
  }

  ghost predicate Overlap(s: State, cam: string)
  {
    exists t, u :: t != u && RunsFor(s, t, cam) && RunsFor(s, u, cam)
  }

  predicate RunsFor(s: State, t: nat, cam: string)
  {
    t in s.threads && s.threads[t] == cam
  }

  /** The event lets a call of the camera fetch. */
  predicate GrantsFetch(s: State, e: Event, cam: string)
  {
    e.LockGranted? && Enabled(s, e) && s.calls[e.call].cam == cam && !Fresh(s, cam)
  }

  lemma OnlyGrantsAddThreads(s: State, e: Event, t: nat, cam: string)
    requires RunsFor(Step(s, e), t, cam) && !RunsFor(s, t, cam)
    ensures GrantsFetch(s, e, cam) && t == e.call
  {
    hide LongestFit;
  }

  lemma GrantedRuns(s: State, e: Event, t: nat, cam: string)
    requires LocksOK(s) && GrantsFetch(s, e, cam) && RunsFor(s, t, cam)
    ensures t !in s.calls && t != e.call && RunsFor(Step(s, e), t, cam) && RunsFor(Step(s, e), e.call, cam)
  {
    assert t in s.calls ==> CallOK(s, t);
    assert CallOK(s, e.call);
  }

  /** Exactly when an overlap begins: a call of the camera is let through to fetch while the thread of a
      caller that was cancelled during its own fetch still runs. */
  lemma OverlapBeginsIff(ttl: real, es: seq<Event>, e: Event, cam: string)
    requires !Overlap(After(ttl, es), cam)
    ensures var s := After(ttl, es);
      Overlap(After(ttl, es + [e]), cam) <==>
      GrantsFetch(s, e, cam) && exists t :: RunsFor(s, t, cam) && Abandoned(ttl, es, t)
  {
    var s := After(ttl, es);
    var s' := After(ttl, es + [e]);
    hide Step, After, LocksOK, Abandoned, GrantsFetch;
    AfterStep(ttl, es, e);
    LocksReachable(ttl, es);
    if Overlap(s', cam) {
      var t, u :| t != u && RunsFor(s', t, cam) && RunsFor(s', u, cam);
      if !RunsFor(s, t, cam) { OnlyGrantsAddThreads(s, e, t, cam); }
      if !RunsFor(s, u, cam) { OnlyGrantsAddThreads(s, e, u, cam); }
      var other := if RunsFor(s, t, cam) then t else u;
      GrantedRuns(s, e, other, cam);
      GoneIffAbandoned(ttl, es, other);
    }
    if GrantsFetch(s, e, cam) && exists t :: RunsFor(s, t, cam) && Abandoned(ttl, es, t) {
      var t :| RunsFor(s, t, cam) && Abandoned(ttl, es, t);
      GrantedRuns(s, e, t, cam);
    }
  }

  /** A fetch starts at least one TTL after any earlier completed fetch of the camera had started,
      unless the cache was invalidated in between. */
  lemma FetchesAreSpaced(ttl: real, es: seq<Event>, i: nat, j: nat)
    requires i < j < |After(ttl, es).log|
    ensures SpacedFrom(After(ttl, es).log, ttl, i, j)
  {
    Reachable(ttl, es);
  }

  /** Every frame handed out is justified; so a call that refuses pins gets bytes fetched from its own
      camera, by a fetch that started less than a TTL ago or after the call was made. */
  lemma UnpinnedCallsSeeTheRealFrame(ttl: real, es: seq<Event>, i: nat)
    requires i < |After(ttl, es).log| && After(ttl, es).log[i].Returned?
    ensures var log := After(ttl, es).log;
      && ReturnJustified(log, ttl, i)
      && (!log[i].allowPinned ==>
            exists k: nat :: StillCached(log, k, i) && log[k].cam == log[i].cam &&
              log[k].entry.jpeg == log[i].jpeg &&
              (log[i].at - log[k].startedAt < ttl || log[i].entered <= log[k].startedAt))
  {
    var log := After(ttl, es).log;
    Reachable(ttl, es);
    assert ReturnJustified(log, ttl, i);
  }

  /** A camera has a pin exactly when that pin was set, not replaced, and cleared neither by its own
      token nor wholesale: one request's cleanup never removes another request's pin. */
  lemma PinnedIffStillStanding(ttl: real, es: seq<Event>, cam: string, token: nat, jpeg: Jpeg)
    ensures var s := After(ttl, es);
      (cam in s.pinned && s.pinned[cam] == Pinned(token, jpeg)) <==> HasPin(s.log, cam, token, jpeg, |s.log|)
  {
    var s := After(ttl, es);
    Reachable(ttl, es);
    if HasPin(s.log, cam, token, jpeg, |s.log|) {
      var k: nat :| StillPinned(s.log, k, |s.log|) && s.log[k] == PinSet(cam, token, jpeg);
      assert InPins(s, s.log[k]);
    }
  }

  /** No two pins ever share an owner token. */
  lemma PinTokensAreDistinct(ttl: real, es: seq<Event>, j: nat, k: nat)
    requires j < k < |After(ttl, es).log| && After(ttl, es).log[j].PinSet? && After(ttl, es).log[k].PinSet?
    ensures After(ttl, es).log[j].token != After(ttl, es).log[k].token
  {
    Reachable(ttl, es);
  }

  lemma {:induction false} AcceptedAreAccepted(log: seq<Obs>, cam: string, k: nat)
    requires k < |AcceptedFrames(log, cam)|
    ensures Accepted(AcceptedFrames(log, cam)[k])
  {
    var before := AcceptedFrames(log[..|log| - 1], cam);
    if k < |before| { AcceptedAreAccepted(log[..|log| - 1], cam, k); }
  }

  lemma RingReachable(ttl: real, es: seq<Event>, cam: string)
    ensures RingOK(After(ttl, es), cam)
  {
    Reachable(ttl, es);
  }

  /** After any run each camera's review ring is the longest suffix of all its accepted frames within
      both bounds, and the newest accepted frame is in it. */
  lemma RingIsLongestFit(ttl: real, es: seq<Event>, cam: string)
    ensures var s := After(ttl, es);
      var all := AcceptedFrames(s.log, cam);
      && Ring(s, cam) == LongestFit(all)
      && (all != [] ==> Ring(s, cam) != [] && Ring(s, cam)[|Ring(s, cam)| - 1] == all[|all| - 1])
  {
    var all := AcceptedFrames(After(ttl, es).log, cam);
    RingReachable(ttl, es, cam);
    hide Step;
    if all != [] {
      AcceptedAreAccepted(After(ttl, es).log, cam, |all| - 1);
      NewestIsKept(all[..|all| - 1], all[|all| - 1]);
      assert all[..|all| - 1] + [all[|all| - 1]] == all;
    }
  }

  /** A fetch of the camera that completed and was not invalidated since. */
  ghost predicate Standing(log: seq<Obs>, i: int, cam: string)
  {
    0 <= i < |log| && log[i].FetchOk? && log[i].cam == cam && NoInvalidation(log, cam, i, |log|)
  }

  lemma CacheFacts(ttl: real, es: seq<Event>, cam: string)
    ensures var s := After(ttl, es);
      && (cam in s.cache ==> HasCached(s.log, cam, s.cache[cam].fetchedAt, s.cache[cam].jpeg, |s.log|))
      && forall i: nat :: Standing(s.log, i, cam) ==> cam in s.cache && s.log[i].startedAt <= s.cache[cam].fetchedAt
  {
    Reachable(ttl, es);
    var s := After(ttl, es);
    hide After, LocksOK, PinsOK, RingsOK, ReturnsOK, SpacingOK;
    forall i: nat | Standing(s.log, i, cam)
      ensures cam in s.cache && s.log[i].startedAt <= s.cache[cam].fetchedAt
    {
      assert NewestOK(s, i);
    }
  }

  lemma CachedIsStanding(log: seq<Obs>, k: nat)
    requires StillCached(log, k, |log|)
    ensures Standing(log, k, log[k].cam)
  {
  }

  /** A call that gets the lock fetches if and only if every completed fetch of its camera that was not
      invalidated since started at least a TTL ago: the converse of `FetchesAreSpaced`. */
  lemma GrantFetchesIffAllAreOld(ttl: real, es: seq<Event>, call: nat)
    requires Enabled(After(ttl, es), LockGranted(call))
    ensures var s := After(ttl, es);
      FetchingIn(After(ttl, es + [LockGranted(call)]), call) <==>
      forall i :: Standing(s.log, i, s.calls[call].cam) ==> ttl <= s.now - s.log[i].startedAt
  {
    var s := After(ttl, es);
    var cam := s.calls[call].cam;
    CacheFacts(ttl, es, cam);
    Reachable(ttl, es);
    hide After, Inv, Standing;
    AfterStep(ttl, es, LockGranted(call));
    if Fresh(s, cam) {
      var k: nat :| StillCached(s.log, k, |s.log|) && s.log[k].cam == cam &&
        s.log[k].startedAt == s.cache[cam].fetchedAt && s.log[k].entry.jpeg == s.cache[cam].jpeg;
      CachedIsStanding(s.log, k);
    }
  }

  /** The cache holds the latest fetch that stands. */
  lemma CachedIsLatest(ttl: real, es: seq<Event>, k: nat)
    requires StillCached(After(ttl, es).log, k, |After(ttl, es).log|)
    ensures var s := After(ttl, es);
      s.log[k].cam in s.cache && s.cache[s.log[k].cam] == Cached(s.log[k].entry.jpeg, s.log[k].startedAt)
  {
    var s := After(ttl, es);
    var cam := s.log[k].cam;
    CacheFacts(ttl, es, cam);
    CachedIsStanding(s.log, k);
    hide After, Standing;
    var m: nat :| StillCached(s.log, m, |s.log|) && s.log[m].cam == cam &&
      s.log[m].startedAt == s.cache[cam].fetchedAt && s.log[m].entry.jpeg == s.cache[cam].jpeg;
    assert k == m;
  }

  lemma GrantFromCache(s: State, call: nat, cached: Cached)
    requires Enabled(s, LockGranted(call)) && s.calls[call].cam in s.cache && s.cache[s.calls[call].cam] == cached
    ensures var c := s.calls[call];
      Step(s, LockGranted(call)).log ==
        s.log + [Returned(c.cam, call, c.allowPinned, c.entered, s.now, FromCache(cached.fetchedAt), cached.jpeg)]
      <==> s.now - cached.fetchedAt < s.ttl
  {
    var c := s.calls[call];
    assert (s.log + [FetchStarted(c.cam, call, s.now)])[|s.log|].FetchStarted?;
  }

  /** So a waiter shares the frame of the latest standing fetch, however long it then queued, if and only
      if that fetch started less than a TTL before the waiter gets the lock. */
  lemma WaiterSharesIffFetchIsYoung(ttl: real, es: seq<Event>, call: nat, k: nat)
    requires Enabled(After(ttl, es), LockGranted(call))
    requires var s := After(ttl, es); StillCached(s.log, k, |s.log|) && s.log[k].cam == s.calls[call].cam
    ensures var s := After(ttl, es);
      var c, f := s.calls[call], s.log[k];
      After(ttl, es + [LockGranted(call)]).log ==
        s.log + [Returned(c.cam, call, c.allowPinned, c.entered, s.now, FromCache(f.startedAt), f.entry.jpeg)]
      <==> s.now - f.startedAt < ttl
  {
    var s := After(ttl, es);
    hide After, Step, Inv;
    Reachable(ttl, es);
    CachedIsLatest(ttl, es, k);
    AfterStep(ttl, es, LockGranted(call));
    GrantFromCache(s, call, Cached(s.log[k].entry.jpeg, s.log[k].startedAt));
  }

  // ---------- A run that bounds what can be promised ----------

  lemma {:induction false} AfterStep(ttl: real, es: seq<Event>, e: Event)
    ensures After(ttl, es + [e]) == Step(After(ttl, es), e)
  {
    assert (es + [e])[..|es|] == es;
  }

  /** Cancelling a caller frees the lock while its fetch thread runs on: the next caller fetches too. */
  lemma CancelledCallerLetsFetchesOverlap(ttl: real, cam: string)
    ensures exists es: seq<Event> :: After(ttl, es).threads == map[0 := cam, 1 := cam]
  {
    hide *;
    var es1 := Extend4(ttl, [], Configure(cam), RegisterSource(cam), Enter(cam, false), LockGranted(0));
    var es2 := Extend4(ttl, es1, CallCancelled(0), Enter(cam, false), LockGranted(1), Tick(0.0));
    FirstFetch(ttl, cam);
    SecondFetch(ttl, cam);
  }

  lemma Extend4(ttl: real, es: seq<Event>, a: Event, b: Event, c: Event, d: Event) returns (r: seq<Event>)
    ensures After(ttl, r) == Step(Step(Step(Step(After(ttl, es), a), b), c), d)
  {
    hide Step;
    AfterStep(ttl, es, a); AfterStep(ttl, es + [a], b); AfterStep(ttl, es + [a] + [b], c);
    AfterStep(ttl, es + [a] + [b] + [c], d);
    r := es + [a] + [b] + [c] + [d];
  }

  /** One call is fetching. */
  function OneFetching(ttl: real, cam: string): State
  {
    State(ttl, 0.0, {cam}, {cam}, map[], map[], 0, map[], map[cam := 0], 1,
      map[0 := Fetching(cam, false, 0.0, 0.0)], map[0 := cam], [FetchStarted(cam, 0, 0.0)])
  }

  lemma FirstFetch(ttl: real, cam: string)
    ensures Step(Step(Step(Step(After(ttl, []), Configure(cam)), RegisterSource(cam)), Enter(cam, false)),
      LockGranted(0)) == OneFetching(ttl, cam)
  {
    var s := Step(Step(Step(Init(ttl), Configure(cam)), RegisterSource(cam)), Enter(cam, false));
    assert s.calls == map[0 := Waiting(cam, false, 0.0)];
  }

  lemma SecondFetch(ttl: real, cam: string)
    ensures Step(Step(Step(Step(OneFetching(ttl, cam), CallCancelled(0)), Enter(cam, false)), LockGranted(1)),
      Tick(0.0)).threads == map[0 := cam, 1 := cam]
  {
    var s := Step(Step(OneFetching(ttl, cam), CallCancelled(0)), Enter(cam, false));
    assert s.calls == map[1 := Waiting(cam, false, 0.0)] && s.locks == map[];
  }

  // ---------- The context object ----------

  datatype EnterResult = LookupError | Got(jpeg: Jpeg) | Suspended(call: nat)

  class CameraContext {
    const cacheTtl: real
    var now: real
    var cameras: set<string>
    var frameSources: set<string>
    var frameCache: map<string, Cached>
    var pinned: map<string, Pinned>
    var pinSeq: nat
    var review: map<string, seq<Entry>>
    var reviewBytes: map<string, nat>
    var cacheLocks: map<string, nat>
    var entered: nat
    var calls: map<nat, Call>
    var threads: map<nat, string>
    ghost var log: seq<Obs>

    ghost function View(): State
      reads this
    {
      State(cacheTtl, now, cameras, frameSources, frameCache, pinned, pinSeq, review, cacheLocks, entered,
            calls, threads, log)
    }

    /** The byte counters agree with the rings they count. */
    ghost predicate Valid()
      reads this
    {
      reviewBytes.Keys == review.Keys && forall c :: c in review ==> reviewBytes[c] == Total(review[c])
    }

    constructor (ttl: real)
      ensures Valid() && View() == After(ttl, [])
    {
      cacheTtl, now, cameras, frameSources := ttl, 0.0, {}, {};
      frameCache, pinned, pinSeq, review, reviewBytes := map[], map[], 0, map[], map[];
      cacheLocks, entered, calls, threads, log := map[], 0, map[], map[], [];
    }

    method AddCamera(cam: string)
      modifies this`cameras
      ensures View() == Step(old(View()), Configure(cam))
    {
      cameras := cameras + {cam};
    }

    method RegisterFrameSource(cam: string)
      modifies this`frameSources
      ensures View() == Step(old(View()), RegisterSource(cam))
    {
      frameSources := frameSources + {cam};
    }

    /** `get_frame` up to the camera's lock. */
    method GetFrameEnters(cam: string, allowPinned: bool) returns (r: EnterResult)
      modifies this`entered, this`calls, this`log
      ensures View() == Step(old(View()), Enter(cam, allowPinned))
      ensures r.LookupError? <==> cam !in cameras || (cam !in frameSources && !(allowPinned && cam in pinned))
      ensures r.Got? <==> cam in cameras && allowPinned && cam in pinned
      ensures r.Got? ==> r.jpeg == pinned[cam].jpeg
      ensures r.Suspended? ==> r.call == old(entered) && r.call in calls && calls[r.call].cam == cam
    {
      var call := entered;
      entered := entered + 1;
      if cam !in cameras { return LookupError; }
      if allowPinned {
        if cam in pinned {
          var p := pinned[cam];
          log := log + [Returned(cam, call, true, now, now, FromPin(p.token), p.jpeg)];
          return Got(p.jpeg);
        }
      }
      if cam !in frameSources { return LookupError; }
      calls := calls[call := Waiting(cam, allowPinned, now)];
      r := Suspended(call);
    }

    /** `get_frame` from the lock to the fetch: a fresh cache entry ends the call here. */
    method GetFrameLocked(call: nat) returns (hit: Option<Jpeg>)
      requires Enabled(View(), LockGranted(call))
      modifies this`calls, this`cacheLocks, this`threads, this`log
      ensures View() == Step(old(View()), LockGranted(call))
      ensures var cam := old(calls)[call].cam;
        hit == if Fresh(old(View()), cam) then Some(frameCache[cam].jpeg) else None
    {
      var c := calls[call];
      if c.cam in frameCache {
        var cached := frameCache[c.cam];
        if now - cached.fetchedAt < cacheTtl {
          calls := calls - {call};
          log := log + [Returned(c.cam, call, c.allowPinned, c.entered, now, FromCache(cached.fetchedAt), cached.jpeg)];
          return Some(cached.jpeg);
        }
      }
      calls := calls[call := Fetching(c.cam, c.allowPinned, c.entered, now)];
      cacheLocks := cacheLocks[c.cam := call];
      threads := threads[call := c.cam];
      log := log + [FetchStarted(c.cam, call, now)];
      hit := None;
    }

    /** Oversized frames are skipped; the others enter the ring, which is then trimmed. */
    method FeedReview(cam: string, e: Entry)
      requires Valid()
      modifies this`review, this`reviewBytes
      ensures Valid()
      ensures review == FeedRing(old(review), cam, e)
    {
      if |e.jpeg| <= FRAME_CAP {
        var ring := if cam in review then review[cam] else [];
        var stored := if cam in reviewBytes then reviewBytes[cam] else 0;
        var trimmed, total := Feed(ring, stored, e);
        review := review[cam := trimmed];
        reviewBytes := reviewBytes[cam := total];
      }
    }

    /** The coroutine ends: leaving `async with` frees the lock, and the fetch thread is done. */
    method LetGo(call: nat)
      requires call in calls
      modifies this`calls, this`cacheLocks, this`threads
      ensures View() == Release(old(View()), call)
    {
      var c := calls[call];
      calls := calls - {call};
      cacheLocks := cacheLocks - {c.cam};
      threads := threads - {call};
    }

    /** `get_frame` from the fetch to its end; `None` is a `FrameSourceError`. */
    method GetFrameFetched(call: nat, result: Option<Entry>)
      requires Valid() && Enabled(View(), FetchReturns(call, result))
      modifies this`calls, this`cacheLocks, this`threads, this`frameCache, this`review, this`reviewBytes, this`log
      ensures Valid() && View() == Step(old(View()), FetchReturns(call, result))
    {
      hide FeedRing, LongestFit, Total, RingOf;
      var c := calls[call];
      LetGo(call);
      if result.None? {
        log := log + [FetchFailed(c.cam, call)];
        return;
      }
      var e := result.value;
      frameCache := frameCache[c.cam := Cached(e.jpeg, c.since)];
      FeedReview(c.cam, e);
      log := log + [FetchOk(c.cam, call, c.since, e)] +
        [Returned(c.cam, call, c.allowPinned, c.entered, now, FromFetch(c.since), e.jpeg)];
    }

    /** A CancelledError at either await; leaving `async with` frees a lock that is held. */
    method GetFrameCancelled(call: nat)
      requires call in calls
      modifies this`calls, this`cacheLocks
      ensures View() == Step(old(View()), CallCancelled(call))
    {
      var c := calls[call];
      calls := calls - {call};
      if c.Fetching? {
        cacheLocks := cacheLocks - {c.cam};
      }
    }

    method PinFrame(cam: string, jpeg: Jpeg) returns (token: Option<nat>)
      modifies this`pinned, this`pinSeq, this`log
      ensures View() == Step(old(View()), Pin(cam, jpeg))
      ensures token == if cam in cameras then Some(old(pinSeq) + 1) else None
    {
      if cam !in cameras { return None; }
      pinSeq := pinSeq + 1;
      pinned := pinned[cam := Pinned(pinSeq, jpeg)];
      log := log + [PinSet(cam, pinSeq, jpeg)];
      token := Some(pinSeq);
    }

    method ClearPins(owner: Option<nat>)
      modifies this`pinned, this`log
      ensures View() == Step(old(View()), Event.ClearPins(owner))
    {
      log := log + [PinsCleared(owner)];
      if owner.None? {
        pinned := map[];
        return;
      }
      var owned := set c | c in pinned && pinned[c].token == owner.value;
      var left := owned;
      while left != {}
        invariant left <= owned
        invariant pinned == old(pinned) - (owned - left) && log == old(log) + [PinsCleared(owner)]
        decreases left
      {
        var cam :| cam in left;
        pinned := pinned - {cam};
        left := left - {cam};
      }
      assert owned - left == owned;
      assert pinned == DropOwned(old(pinned), owner.value);
    }

    method InvalidateFrameCache(which: Option<string>)
      modifies this`frameCache, this`log
      ensures View() == Step(old(View()), Invalidate(which))
    {
      if which.None? {
        frameCache := map[];
      } else {
        frameCache := frameCache - {which.value};
      }
      log := log + [Invalidated(which)];
    }

    /** The ring frame nearest to `at`; the oldest of equally near ones. */
    method ReviewFrameAt(cam: string, at: real) returns (r: Option<Jpeg>)
      ensures r.None? <==> cam !in review || review[cam] == []
      ensures r.Some? ==>
        exists i :: 0 <= i < |review[cam]| && r.value == review[cam][i].jpeg && FirstNearest(review[cam], at, i)
    {
      if cam !in review { return None; }
      var ring := review[cam];
      if ring == [] { return None; }
      var best := 0;
      for i := 1 to |ring|
        invariant 0 <= best < i
        invariant FirstNearest(ring[..i], at, best)
      {
        if Away(ring[i], at) < Away(ring[best], at) {
          best := i;
        }
      }
      assert ring[..|ring|] == ring;
      r := Some(ring[best].jpeg);
    }
  }

  function Away(e: Entry, at: real): real
  {
    if e.wall < at then at - e.wall else e.wall - at
  }

  /** Entry `i` is nearest to `at`, and strictly nearer than any older one. */
  ghost predicate FirstNearest(ring: seq<Entry>, at: real, i: nat)
    requires i < |ring|
  {
    && (forall j :: 0 <= j < |ring| ==> Away(ring[i], at) <= Away(ring[j], at))
    && (forall j :: 0 <= j < i ==> Away(ring[i], at) < Away(ring[j], at))
  }
}
