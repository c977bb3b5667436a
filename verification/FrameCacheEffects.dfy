/**
 What the events of the camera context do, read off the events before them and off the log: who gets the
 pinned frame, who waits, who gets which fetched frame, and what is logged.
 */
module FrameCacheEffects {
  import opened Common
  import opened FrameCache
  import opened ReviewRing

  function Count(es: seq<Event>): nat
  {
    if es == [] then 0 else Count(es[..|es| - 1]) + (if es[|es| - 1].Enter? then 1 else 0)
  }

  /** The context knows the cameras and sources it was told of, and numbers the calls in the order they came. */
  lemma {:induction false} KnownIsTold(ttl: real, es: seq<Event>, cam: string)
    ensures var s := After(ttl, es);
      && (cam in s.cameras <==> Configure(cam) in es)
      && (cam in s.sources <==> RegisterSource(cam) in es)
      && s.entered == Count(es) && s.ttl == ttl
  {
    if es != [] {
      var before, e := es[..|es| - 1], es[|es| - 1];
      assert es == before + [e];
      KnownIsTold(ttl, before, cam);
      AfterStep(ttl, before, e);
      StepKnows(After(ttl, before), e);
      hide Step, After;
    }
  }

  lemma StepKnows(s: State, e: Event)
    ensures var t := Step(s, e);
      && t.cameras == (if e.Configure? then s.cameras + {e.cam} else s.cameras)
      && t.sources == (if e.RegisterSource? then s.sources + {e.cam} else s.sources)
      && t.entered == s.entered + (if e.Enter? then 1 else 0) && t.ttl == s.ttl
  {
    hide GrantLock, FinishFetch;
    if Enabled(s, e) {
      match e
      case LockGranted(call) => GrantKnows(s, call);
      case FetchReturns(call, result) => FinishKnows(s, call, result);
      case _ => hide Fresh, DropOwned;
    }
  }

  predicate SameKnowledge(s: State, t: State)
  {
    t.cameras == s.cameras && t.sources == s.sources && t.entered == s.entered && t.ttl == s.ttl && t.now == s.now
  }

  lemma GrantKnows(s: State, call: nat)
    requires call in s.calls
    ensures SameKnowledge(s, GrantLock(s, call))
  {
    hide Fresh;
  }

  lemma FinishKnows(s: State, call: nat, result: Option<Entry>)
    requires call in s.calls && s.calls[call].Fetching?
    ensures SameKnowledge(s, FinishFetch(s, call, result))
  {
    hide FeedRing;
  }

  /** A pin of the camera stands: it was set, and since then neither replaced nor cleared. */
  ghost predicate PinStands(log: seq<Obs>, cam: string)
  {
    exists token, jpeg :: HasPin(log, cam, token, jpeg, |log|)
  }

  lemma PinStandsIffPinned(ttl: real, es: seq<Event>, cam: string)
    ensures var s := After(ttl, es);
      && (PinStands(s.log, cam) <==> cam in s.pinned)
      && (cam in s.pinned ==> HasPin(s.log, cam, s.pinned[cam].token, s.pinned[cam].jpeg, |s.log|))
  {
    var s := After(ttl, es);
    hide After, HasPin;
    forall token: nat, jpeg: Jpeg
      ensures HasPin(s.log, cam, token, jpeg, |s.log|) <==> cam in s.pinned && s.pinned[cam] == Pinned(token, jpeg)
    {
      PinnedIffStillStanding(ttl, es, cam, token, jpeg);
    }
    if cam in s.pinned { assert s.pinned[cam] == Pinned(s.pinned[cam].token, s.pinned[cam].jpeg); }
  }

  /** Entering a configured camera with pins allowed returns at once the pin that stands, whether or not the camera
      has a source, and starts or awaits no fetch. */
  lemma StandingPinIsReturned(ttl: real, es: seq<Event>, cam: string, token: nat, jpeg: Jpeg)
    requires Configure(cam) in es && HasPin(After(ttl, es).log, cam, token, jpeg, |After(ttl, es).log|)
    ensures var s, t := After(ttl, es), After(ttl, es + [Enter(cam, true)]);
      && t.log == s.log + [Returned(cam, Count(es), true, s.now, s.now, FromPin(token), jpeg)]
      && t.calls == s.calls && t.threads == s.threads
  {
    KnownIsTold(ttl, es, cam);
    PinnedIffStillStanding(ttl, es, cam, token, jpeg);
    AfterStep(ttl, es, Enter(cam, true));
    hide After, HasPin;
  }

  /** Any other call waits for the camera's lock if and only if the camera is configured and has a source; if it
      does not, nothing is returned and nothing changes but the numbering. */
  lemma OthersWaitIffServed(ttl: real, es: seq<Event>, cam: string, allowPinned: bool)
    requires !(allowPinned && Configure(cam) in es && PinStands(After(ttl, es).log, cam))
    ensures var s, t := After(ttl, es), After(ttl, es + [Enter(cam, allowPinned)]);
      && t.log == s.log && t.threads == s.threads && t.locks == s.locks
      && t.calls == if Configure(cam) in es && RegisterSource(cam) in es
                    then s.calls[Count(es) := Waiting(cam, allowPinned, s.now)] else s.calls
  {
    KnownIsTold(ttl, es, cam);
    PinStandsIffPinned(ttl, es, cam);
    AfterStep(ttl, es, Enter(cam, allowPinned));
    hide After, PinStands, GrantLock, FinishFetch, Cancel, PinFrame, Unpin, DropCache;
  }

  /** A call that gets the lock either is answered from the cache and is over, or starts its own fetch on a thread
      that is logged. */
  lemma GrantAnswersOrFetches(ttl: real, es: seq<Event>, call: nat)
    requires var s := After(ttl, es); call in s.calls && s.calls[call].Waiting? && s.calls[call].cam !in s.locks
    ensures var s, t, c := After(ttl, es), After(ttl, es + [LockGranted(call)]), After(ttl, es).calls[call];
      if FetchingIn(t, call) then
        && t.calls == s.calls[call := Fetching(c.cam, c.allowPinned, c.entered, s.now)]
        && t.locks == s.locks[c.cam := call] && t.threads == s.threads[call := c.cam]
        && t.log == s.log + [FetchStarted(c.cam, call, s.now)]
      else
        && t.calls == s.calls - {call} && t.locks == s.locks && t.threads == s.threads
        && |t.log| == |s.log| + 1 && s.log <= t.log && t.log[|s.log|].Returned? && t.log[|s.log|].call == call
  {
    AfterStep(ttl, es, LockGranted(call));
    hide After;
  }

  /** A fetch returns a frame: it is logged with the time the fetch began, handed to the call that made it, and the
      call is over, its lock and its thread free. */
  lemma FetchedFrameIsHandedOut(ttl: real, es: seq<Event>, call: nat, e: Entry)
    requires FetchingIn(After(ttl, es), call)
    ensures var s, t := After(ttl, es), After(ttl, es + [FetchReturns(call, Some(e))]);
      var c := s.calls[call];
      && t.log == s.log + [FetchOk(c.cam, call, c.since, e),
                           Returned(c.cam, call, c.allowPinned, c.entered, s.now, FromFetch(c.since), e.jpeg)]
      && t.calls == s.calls - {call} && t.locks == s.locks - {c.cam} && t.threads == s.threads - {call}
  {
    var s, c := After(ttl, es), After(ttl, es).calls[call];
    AfterStep(ttl, es, FetchReturns(call, Some(e)));
    hide After, FeedRing;
    var x, y := FetchOk(c.cam, call, c.since, e),
                Returned(c.cam, call, c.allowPinned, c.entered, s.now, FromFetch(c.since), e.jpeg);
    assert s.log + [x] + [y] == s.log + [x, y];
  }

  /** A fetch fails: the call is over, its lock and its thread free, nothing is returned, and cache and ring stay. */
  lemma FailedFetchOnlyFrees(ttl: real, es: seq<Event>, call: nat)
    requires FetchingIn(After(ttl, es), call)
    ensures var s, t := After(ttl, es), After(ttl, es + [FetchReturns(call, None)]);
      var c := s.calls[call];
      && t.log == s.log + [FetchFailed(c.cam, call)] && t.cache == s.cache && t.review == s.review
      && t.calls == s.calls - {call} && t.locks == s.locks - {c.cam} && t.threads == s.threads - {call}
  {
    AfterStep(ttl, es, FetchReturns(call, None));
    hide After;
  }

  /** A cancelled call is over without an answer; if it was fetching, its lock is free and its thread runs on until
      it ends by itself. */
  lemma CancelledCallIsOver(ttl: real, es: seq<Event>, call: nat)
    requires call in After(ttl, es).calls
    ensures var s, t := After(ttl, es), After(ttl, es + [CallCancelled(call)]);
      && t.log == s.log && t.calls == s.calls - {call} && t.threads == s.threads && t.cache == s.cache
      && t.locks == if s.calls[call].Fetching? then s.locks - {s.calls[call].cam} else s.locks
  {
    AfterStep(ttl, es, CallCancelled(call));
    StepCancels(After(ttl, es), call);
    hide After, Step;
  }

  lemma StepCancels(s: State, call: nat)
    requires call in s.calls
    ensures Step(s, CallCancelled(call)) == Cancel(s, call)
  {
  }

  lemma AbandonedThreadEnds(ttl: real, es: seq<Event>, call: nat)
    requires call in After(ttl, es).threads && call !in After(ttl, es).calls
    ensures var s, t := After(ttl, es), After(ttl, es + [AbandonedFetchEnds(call)]);
      t == s.(threads := s.threads - {call})
  {
    AfterStep(ttl, es, AbandonedFetchEnds(call));
    hide After;
  }

  /** How an act of the operator shows in the log. */
  function ActOf(es: seq<Event>, e: Event, token: nat): seq<Obs>
    requires e.Pin? || e.ClearPins? || e.Invalidate?
  {
    match e
    case Pin(cam, jpeg) => if Configure(cam) in es then [PinSet(cam, token, jpeg)] else []
    case ClearPins(owner) => [PinsCleared(owner)]
    case Invalidate(which) => [Invalidated(which)]
  }

  /** Pins of configured cameras are set, with a token of their own; pins of others are not. Clearing pins and
      invalidating the cache are what they say, and neither touches calls, locks or threads. */
  lemma OperatorActsAreLogged(ttl: real, es: seq<Event>, e: Event)
    requires e.Pin? || e.ClearPins? || e.Invalidate?
    ensures var s, t := After(ttl, es), After(ttl, es + [e]);
      && t.calls == s.calls && t.locks == s.locks && t.threads == s.threads && t.review == s.review
      && t.log == s.log + ActOf(es, e, t.pinSeq)
  {
    if e.Pin? { KnownIsTold(ttl, es, e.cam); }
    AfterStep(ttl, es, e);
    hide After, DropOwned;
  }

  /** Time passes by ticks only, and nothing else of the context moves with it. */
  lemma TicksOnlyMoveTheClock(ttl: real, es: seq<Event>, e: Event)
    ensures var s, t := After(ttl, es), After(ttl, es + [e]);
      && t.now == (if e.Tick? && 0.0 <= e.elapsed then s.now + e.elapsed else s.now)
      && (e.Tick? || e.Configure? || e.RegisterSource? ==>
            t.log == s.log && t.calls == s.calls && t.locks == s.locks && t.threads == s.threads &&
            t.cache == s.cache && t.pinned == s.pinned && t.review == s.review)
  {
    AfterStep(ttl, es, e);
    if !e.Tick? { StepKeepsTime(After(ttl, es), e); }
    hide After, EnterCall, GrantLock, FinishFetch, Cancel, PinFrame, Unpin, DropCache;
  }

  lemma StepKeepsTime(s: State, e: Event)
    requires !e.Tick?
    ensures Step(s, e).now == s.now
  {
    hide GrantLock, FinishFetch;
    if Enabled(s, e) {
      match e
      case LockGranted(call) => GrantKnows(s, call);
      case FetchReturns(call, result) => FinishKnows(s, call, result);
      case _ => hide Fresh, DropOwned;
    }
  }
}
