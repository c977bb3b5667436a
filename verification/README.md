# Verification models of the OpenNVR example apps

This project models the small stateful cores of the OpenNVR example applications in Dafny and proves
what they promise over whole runs. `dafny verify dfyconfig.toml` checks everything.

| file | what it models |
|---|---|
| `AutoOff.dfy`, `AutoOffEffects.dfy` | the Home Assistant relay: alerts turn a binary sensor ON, one timer per alert turns it OFF |
| `FrameCache.dfy`, `FrameCacheEffects.dfy`, `ReviewRing.dfy` | the camera context: per-camera locked frame cache, pins, review ring |
| `AlertRings.dfy` | the camera context: bounded per-app alert rings with eviction |
| `AbandonedObject.dfy`, `AbandonedObjectEvents.dfy` | the abandoned-object rule: anchor, dwell, latch, proximity suppression, garbage collection |
| `Dedup.dfy`, `Synthetic.dfy` | greedy per-label suppression, and the synthetic scene pipeline from spec to counts |
| `FootageStore.dfy`, `FootageSearch.dfy` | the footage index: keyed merging of rows, and what the search finds of what was added |
| `LineCounter.dfy` | counting tracks across a line |
| `Alarms.dfy`, `AlarmEffects.dfy` | the alarm manager: polls, latches, acknowledgement, stand-down, eviction |
| `MonitorHost.dfy`, `MonitorHostEffects.dfy`, `Monitors.dfy`, `MonitorsEffects.dfy` | the two-level monitor registry and the hosted monitors |
| `Reports.dfy`, `ReportsEffects.dfy` | recurring reports |
| `FirstPerKey.dfy`, `AlarmPersistence.dfy`, `MonitorPersistence.dfy`, `ReportPersistence.dfy` | export and restore |
| `WavHeader.dfy` | the WAV chunk walker |
| `Common.dfy`, `Text.dfy` | shared vocabulary |

Each stateful component has the same shape. A coroutine is cut at its awaits into atomic steps; `Step`
says what one event does to the component's state; an event that is not enabled does nothing, so *every*
sequence of events is a run, with any number of tasks interleaved. Where the code keeps no history, the
state carries a log of what an observer sees, and the theorems are about that log. A class beside it
holds the fields the source object holds, and each of its methods is proved to do exactly one step; the
theorems about `After` therefore hold of the object. The log is tied to the events in turn: the modules named
`…Effects` and `…Events` say, after any run, what each event adds to the log and changes of the state, and when,
in terms of the events and the log before it. Time is a real number that advances by explicit
steps, or comes with the events.

Some promises turn out to have conditions; the code was kept as it is, and the theorem gives the
condition:

* cancelling a `get_frame` caller during its fetch frees the camera's lock while the fetch thread runs on;
  then, and only then, two fetches of one camera can overlap, although the comment at
  `examples/camera-agent/context.py:219-222` says callers coalesce;
* the `finally` of an auto-off timer can remove its successor's dict entry, and that successor survives
  the cleanup that is meant to cancel all pending timers;
* a label of several words is found until a second keyframe of the same key makes the index rewrite the row
  from sorted tokens; from then on it is found only if its words are neighbours in that order, so `cell phone`
  is lost beside `person`;
* conversely, a word that whitespace other than a space separates from the rest of its label is not found
  until such a rewrite;
* a `_` or `%` in a query label is a wildcard and finds labels that were never added;
  `FootageSearch.LabelTestIsMatch` says what it matches, the theorems over histories are for labels without;
* the WAV walk does not step over the pad byte of an odd chunk;
* a track sampled exactly on the counting line on its way across is not counted;
* a crossing monitor refused for its line uses up one of the host's ids;
* a daily report whose minute is outside the day ends the report loop for every report; the tool's own
  parser never produces such a minute, so only an edited state file can hold one;
* the last run of a report is not persisted, so once a day holds only within one process.

## Model

| member | source | states |
|---|---|---|
| `AutoOff.OffsFollowLatestAlert` | examples/home-assistant-relay/home_assistant_relay.py:448-491 | In every interleaving each OFF is started by the timer of the last alert scheduled for its entity, at least that alert's whole window after its ON publish completed; every scheduled alert has its own timer, and no timer starts two OFFs |
| `AutoOff.NewOffIsJustified` | examples/home-assistant-relay/home_assistant_relay.py:476-483 | A timer that passes the generation check when its sleep is over is the timer of the last scheduling of its entity, a whole window ago |
| `AutoOff.LatestIsLast` | examples/home-assistant-relay/home_assistant_relay.py:456-461 | The generation counter means what it is for: a timer holds the latest generation if and only if no later alert was scheduled for its entity |
| `AutoOff.DueTimerFiresIffLatest` | examples/home-assistant-relay/home_assistant_relay.py:463-483 | Until cleanup, a timer whose sleep is over starts an OFF if and only if no later alert was scheduled: the cancellations never silence the timer that should fire |
| `AutoOff.TrackedTasksAreCurrent` | examples/home-assistant-relay/home_assistant_relay.py:467-495 | Every entry left in the task dict is an unfinished, uncancelled task of the entity's current generation |
| `AutoOff.UntrackedIffPopped` | examples/home-assistant-relay/home_assistant_relay.py:488-491 | A timer that may still send an OFF is missing from the dict if and only if the `finally` of an older timer of its entity ran after it was scheduled |
| `AutoOff.CleanupSparesOnlyUntracked` | examples/home-assistant-relay/home_assistant_relay.py:375-380 | Cleanup on exit leaves a timer alive if and only if it was untracked in that way |
| `AutoOff.SuccessorMaySurviveCleanup` | examples/home-assistant-relay/home_assistant_relay.py:375-380 | A run in which the surviving timer does send its OFF after cleanup |
| `AutoOff.OffMayRaceAnUnfinishedOn` | examples/home-assistant-relay/home_assistant_relay.py:433-483 | A run in which an OFF starts while a newer ON publish of the same entity is still awaited, so only completed ON publishes are protected |
| `AutoOff.CountersAddUp` | examples/home-assistant-relay/home_assistant_relay.py:405-437 | No alert is lost: received = published + failed + skipped + raised (by mapper or publisher) + in flight, in every interleaving |
| `AutoOff.Reachable` | examples/home-assistant-relay/home_assistant_relay.py:405-495 | The invariant behind these theorems holds after every sequence of events |
| `AutoOff.Relay.constructor` | examples/home-assistant-relay/home_assistant_relay.py:323-337 | The relay starts in the state of the empty run |
| `AutoOff.Relay.HandleAlert` | examples/home-assistant-relay/home_assistant_relay.py:427-433 | Refines the step of an alert up to the ON publish, counters included |
| `AutoOff.Relay.HandleBadAlert` | examples/home-assistant-relay/home_assistant_relay.py:415-429 | Refines an alert whose mapping raises: counted as received, and the exception ends it |
| `AutoOff.Relay.PublishReturned` | examples/home-assistant-relay/home_assistant_relay.py:433-444 | Refines the rest of the handler for an accepted, refused or raising publish |
| `AutoOff.Relay.MaybeScheduleAutoOff` | examples/home-assistant-relay/home_assistant_relay.py:448-495 | Refines scheduling: generation bump, cancellation of the tracked predecessor, new tracked timer, or nothing for other components and windows |
| `AutoOff.Relay.TimerFirstStep` | examples/home-assistant-relay/home_assistant_relay.py:471-473 | Refines the timer up to its sleep, or its end when cancelled before it began |
| `AutoOff.Relay.TimerAfterSleep` | examples/home-assistant-relay/home_assistant_relay.py:474-483 | Refines the timer between its awaits: cancelled, outdated, or starting its OFF |
| `AutoOff.Relay.TimerFinally` | examples/home-assistant-relay/home_assistant_relay.py:482-491 | Refines the unconditional pop that ends every OFF publish |
| `AutoOff.Relay.CleanUpOnExit` | examples/home-assistant-relay/home_assistant_relay.py:375-380 | Refines cleanup: exactly the tracked unfinished tasks are cancelled and the dict is emptied |
| `AutoOffEffects.InFlightIsAwaited` | examples/home-assistant-relay/home_assistant_relay.py:427-433 | A publish is in flight under a handler if and only if an event of the run brought its alert there and none since was its return |
| `AutoOffEffects.OnFinishedSchedulesIff` | examples/home-assistant-relay/home_assistant_relay.py:448-469 | The return of an ON publish schedules a timer if and only if the alert was accepted, is for a binary sensor and asks for a positive time; the timer has its entity, its time and the next generation, and its tracked predecessor is cancelled. Otherwise log, timers, dict and generations stay as they are |
| `AutoOffEffects.OthersScheduleNothing` | examples/home-assistant-relay/home_assistant_relay.py:405-495 | No other event schedules anything or moves a generation |
| `AutoOffEffects.SchedulingsAreEarned` | examples/home-assistant-relay/home_assistant_relay.py:433-463 | Every timer of every run goes back to an alert among its events, for a binary sensor with a positive time, scheduled at the moment its ON publish was accepted |
| `AutoOffEffects.OffsAnswerAlerts` | examples/home-assistant-relay/home_assistant_relay.py:448-483 | So every OFF answers such an alert, and starts at least its time after that moment: a plain sensor never gets one |
| `AutoOffEffects.TimerSleepsItsTime` | examples/home-assistant-relay/home_assistant_relay.py:471-473 | A timer sleeps for the whole time its alert asked for, or ends if it was cancelled before its first step |
| `AutoOffEffects.WakingTimerFiresIff` | examples/home-assistant-relay/home_assistant_relay.py:474-483 | A timer that wakes starts the OFF of its entity if and only if it was not cancelled and no later alert of the entity was scheduled; otherwise it ends |
| `AutoOffEffects.OffEnds` | examples/home-assistant-relay/home_assistant_relay.py:482-491 | At the end of an OFF the timer is done and the dict entry of its entity gone, whoever it belonged to |
| `AutoOffEffects.CountersMoveByOne` | examples/home-assistant-relay/home_assistant_relay.py:405-444 | Each counter moves by one exactly at the events it is named after, whatever else is in flight |
| `AutoOffEffects.OthersLeaveTimersAlone` | examples/home-assistant-relay/home_assistant_relay.py:405-444 | Alerts, refused and raising publishes and the passing of time leave timers, dict and generations alone |
| `ReviewRing.LongestFitIsLongest` | examples/camera-agent/context.py:236-244 | The reference ring is a suffix of the accepted frames within the count and byte limits, and no longer suffix is |
| `ReviewRing.BoundsAre` | examples/camera-agent/context.py:120-122 | The limits are 90 frames and 24 MiB, and two million bytes for one frame |
| `ReviewRing.TrimThenAppend` | examples/camera-agent/context.py:236-244 | Trimming at every arrival loses nothing against trimming the whole history once |
| `ReviewRing.NewestIsKept` | examples/camera-agent/context.py:236-244 | A frame under the frame cap is never trimmed away by its own arrival |
| `ReviewRing.Feed` | examples/camera-agent/context.py:236-244 | The popleft loop leaves exactly the longest fitting suffix of ring and new frame, and its byte counter is the sum of the frame sizes |
| `FrameCache.NoOverlapWithoutCancellation` | examples/camera-agent/context.py:208-228 | In every run in which no call is cancelled, no two fetches of one camera ever run at once |
| `FrameCache.OverlapBeginsIff` | examples/camera-agent/context.py:208-228 | Exactly when an overlap begins: a call of the camera is let through to fetch while the thread still runs of a caller that the run cancelled during its own fetch |
| `FrameCache.GoneIffAbandoned` | examples/camera-agent/context.py:213-224 | A running fetch thread has lost its caller if and only if the run cancelled that call after the lock was granted to it |
| `FrameCache.FetchesOverlapOnlyIfAbandoned` | examples/camera-agent/context.py:208-228 | Of two fetches of one camera that run at once, the run cancelled the caller of one during its fetch |
| `FrameCache.CancelledCallerLetsFetchesOverlap` | examples/camera-agent/context.py:213-224 | A run in which that happens: cancellation frees the lock while the fetch thread runs on |
| `FrameCache.FetchesAreSpaced` | examples/camera-agent/context.py:214-229 | A fetch starts at least one TTL after the start of any earlier completed fetch of the camera, unless the cache was invalidated in between |
| `FrameCache.UnpinnedCallsSeeTheRealFrame` | examples/camera-agent/context.py:180-245 | A call that refuses pins only ever returns bytes fetched from its own camera, by a fetch that started less than a TTL ago or after the call was made; every other returned frame has its pin, cache entry or fetch in the log |
| `FrameCache.GrantFetchesIffAllAreOld` | examples/camera-agent/context.py:213-224 | After any run, a call that gets the lock fetches if and only if every completed fetch of its camera that was not invalidated since started at least a TTL ago |
| `FrameCache.WaiterSharesIffFetchIsYoung` | examples/camera-agent/context.py:213-229 | After any run, a waiter that gets the lock shares the frame of the latest standing fetch, however long it queued, if and only if that fetch started less than a TTL ago: the entry is stamped with the start |
| `FrameCache.PinnedIffStillStanding` | examples/camera-agent/context.py:259-290 | A camera shows a pin if and only if that pin was set and since then neither replaced, nor cleared by its own token, nor cleared wholesale |
| `FrameCache.PinTokensAreDistinct` | examples/camera-agent/context.py:274-276 | No two pins ever share an owner token |
| `FrameCache.RingIsLongestFit` | examples/camera-agent/context.py:230-244 | After any run each camera's review ring is the longest suffix of all its accepted frames within both limits, newest included |
| `FrameCache.StepKeepsInv` | examples/camera-agent/context.py:180-313 | Every step, in any interleaving, keeps the invariant of locks, cache, pins and rings |
| `FrameCache.Reachable` | examples/camera-agent/context.py:180-313 | So every run satisfies it |
| `FrameCache.CameraContext.constructor` | examples/camera-agent/context.py:91-160 | The context starts in the state of the empty run |
| `FrameCache.CameraContext.AddCamera` | examples/camera-agent/context.py:162-165 | Refines adding a camera |
| `FrameCache.CameraContext.RegisterFrameSource` | examples/camera-agent/context.py:173-176 | Refines registering a source |
| `FrameCache.CameraContext.GetFrameEnters` | examples/camera-agent/context.py:191-213 | Refines `get_frame` up to the lock: unknown camera, pinned frame, missing source, or waiting |
| `FrameCache.CameraContext.GetFrameLocked` | examples/camera-agent/context.py:213-224 | Refines the locked cache check and returns the cached frame exactly when its entry is fresh; otherwise a fetch starts |
| `FrameCache.CameraContext.FeedReview` | examples/camera-agent/context.py:236-244 | Leaves the longest fitting suffix of ring and new frame, or skips an oversized frame |
| `FrameCache.CameraContext.LetGo` | examples/camera-agent/context.py:213-224 | Refines the end of the coroutine: call, lock and thread are gone |
| `FrameCache.CameraContext.GetFrameFetched` | examples/camera-agent/context.py:223-245 | Refines the end of a fetch, successful or not: cache entry, ring and released lock |
| `FrameCache.CameraContext.GetFrameCancelled` | examples/camera-agent/context.py:213-224 | Refines cancellation at either await |
| `FrameCache.CameraContext.PinFrame` | examples/camera-agent/context.py:259-281 | Refines pinning and returns the fresh owner token |
| `FrameCache.CameraContext.ClearPins` | examples/camera-agent/context.py:283-290 | Refines clearing by token or wholesale |
| `FrameCache.CameraContext.InvalidateFrameCache` | examples/camera-agent/context.py:307-313 | Refines invalidating one camera or all |
| `FrameCache.CameraContext.ReviewFrameAt` | examples/camera-agent/context.py:298-305 | Returns the ring frame nearest to the given time, the oldest of equally near ones, or nothing for an empty ring |
| `FrameCacheEffects.KnownIsTold` | examples/camera-agent/context.py:162-176 | After any run a camera is known, or has a source, if and only if an event configured it, or registered one; calls are numbered as they came |
| `FrameCacheEffects.StandingPinIsReturned` | examples/camera-agent/context.py:191-201 | After any run, entering a configured camera with pins allowed returns at once the pin that still stands in the log, source or no source, and starts or awaits no fetch |
| `FrameCacheEffects.OthersWaitIffServed` | examples/camera-agent/context.py:191-213 | Any other call, pins refused or none standing, waits for the lock if and only if the camera is configured and has a source; otherwise it returns nothing and changes nothing |
| `FrameCacheEffects.GrantAnswersOrFetches` | examples/camera-agent/context.py:213-224 | A call that gets the lock is answered and over, or starts one fetch of its own camera |
| `FrameCacheEffects.FetchedFrameIsHandedOut` | examples/camera-agent/context.py:223-245 | A fetched frame goes to the call that fetched it, is logged with the start of its fetch, and frees lock and thread |
| `FrameCacheEffects.FailedFetchOnlyFrees` | examples/camera-agent/context.py:213-224 | A failed fetch frees lock and thread and returns nothing; cache and ring stay |
| `FrameCacheEffects.CancelledCallIsOver` | examples/camera-agent/context.py:213-224 | A cancelled call is over without an answer; its lock is free and its thread runs on |
| `FrameCacheEffects.AbandonedThreadEnds` | examples/camera-agent/context.py:213-224 | The thread of a cancelled call changes nothing when it ends: its frame reaches neither cache nor ring |
| `FrameCacheEffects.TicksOnlyMoveTheClock` | examples/camera-agent/context.py:162-176 | Time passes by ticks only; ticks, new cameras and new sources change nothing else of calls, locks, cache, pins and rings |
| `FrameCacheEffects.OperatorActsAreLogged` | examples/camera-agent/context.py:259-313 | A pin is set if and only if its camera is configured; clearing and invalidating are logged as asked; none touches calls, locks, threads or rings |
| `AlertRings.RingsHoldTheMostRecent` | examples/camera-agent/context.py:353-373 | In every reachable state there are at most 64 rings; an app has one if and only if it has alerts since its last eviction; it holds the most recent of those; and every eviction took a ring whose newest alert was oldest |
| `AlertRings.StalestIsStalest` | examples/camera-agent/context.py:362-366 | The app chosen for eviction has the oldest newest alert of all |
| `AlertRings.AnswerIsUnique` | examples/camera-agent/context.py:392-398 | Membership and strictly descending (received_at, seq) order leave only one right answer to a query |
| `AlertRings.SortSorts` | examples/camera-agent/context.py:397 | The sort returns a strictly newest-first permutation |
| `AlertRings.RecordKeepsInv` | examples/camera-agent/context.py:353-373 | Recording keeps rings, order, evictions and sequence numbers in agreement with the log |
| `AlertRings.Reachable` | examples/camera-agent/context.py:353-373 | So every sequence of recorded alerts does |
| `AlertRings.Rings.constructor` | examples/camera-agent/context.py:146-154 | The rings start empty |
| `AlertRings.Rings.FindStalest` | examples/camera-agent/context.py:362-366 | Finds the first app, in dict order, whose newest alert is oldest |
| `AlertRings.Rings.RecordAppAlert` | examples/camera-agent/context.py:353-373 | Refines recording with eviction at capacity |
| `AlertRings.Rings.RecentAppAlerts` | examples/camera-agent/context.py:375-398 | Returns exactly the retained alerts at or after the cutoff, of one app or all, in strictly descending (received_at, seq) order |
| `AlertRings.AlertsAreArrivals` | examples/camera-agent/context.py:371-373 | The alerts of the log are the arrivals, all of them, in order and numbered from zero |
| `AlertRings.ArrivalIsLogged` | examples/camera-agent/context.py:353-373 | An arrival evicts a ring if and only if 64 apps have one and its own app has none, and is recorded in either case |
| `AlertRings.StalestIsFirst` | examples/camera-agent/context.py:362-366 | Of several equally stale apps the one first in the dict is chosen |
| `AbandonedObject.FiresExactlyWhenTheLogSays` | examples/abandoned-object/abandoned_object.py:339-420 | With event times in order per camera, the collecting and trimming detector fires exactly the alerts that the rule, read off the whole uncollected log, calls for, each directly after its sighting |
| `AbandonedObject.AlertsAreEarned` | examples/abandoned-object/abandoned_object.py:404-419 | Every alert has an anchoring sighting at least the dwell time before it; every in-zone sighting of the track since then stayed within tolerance of it with gaps no longer than the TTL; and no person was seen within the radius of the anchor during the grace window |
| `AbandonedObject.AlertsAreSeparated` | examples/abandoned-object/abandoned_object.py:404-419 | Two alerts for one track have between them a sighting beyond tolerance or a gap longer than the TTL |
| `AbandonedObject.TrackAtMeans` | examples/abandoned-object/abandoned_object.py:394-419 | What the rule's state for a track says about the log: the anchor is a real sighting that nothing since has moved away from, and the latch is a real alert since then |
| `AbandonedObject.TrimmingIsInvisible` | examples/abandoned-object/abandoned_object.py:447-466 | The trimmed people buffer answers the proximity question as the whole sighting history would |
| `AbandonedObject.PersonNearIgnoresTrimming` | examples/abandoned-object/abandoned_object.py:447-466 | So it does after every run |
| `AbandonedObjectEvents.WithinIsDistance` | examples/abandoned-object/abandoned_object.py:447-452 | Comparing squares, as the model does, says of every distance that obeys Pythagoras whether it is at most the radius |
| `AbandonedObject.EventsAreIsolated` | examples/abandoned-object/abandoned_object.py:339-420 | An event on one camera changes no track and no sighting of another camera |
| `AbandonedObject.StepKeepsInv` | examples/abandoned-object/abandoned_object.py:339-420 | An event in order keeps records, buffers and latches in agreement with the log |
| `AbandonedObject.Reachable` | examples/abandoned-object/abandoned_object.py:339-420 | So every ordered run does |
| `AbandonedObject.AbandonedObjectDetector.OnDetections` | examples/abandoned-object/abandoned_object.py:339-420 | Refines the two-pass rule for one event |
| `AbandonedObject.AbandonedObjectDetector.Gc` | examples/abandoned-object/abandoned_object.py:454-466 | Refines the collection of this camera's idle tracks and old sightings |
| `AbandonedObject.AbandonedObjectDetector.FirstPass` | examples/abandoned-object/abandoned_object.py:355-367 | Refines noting the people of one event |
| `AbandonedObject.AbandonedObjectDetector.PersonNearNow` | examples/abandoned-object/abandoned_object.py:447-452 | Answers whether a sighting within the grace window is within the radius |
| `AbandonedObject.AbandonedObjectDetector.SecondPass` | examples/abandoned-object/abandoned_object.py:369-420 | Refines updating and testing the watched objects in order |
| `AbandonedObject.AbandonedObjectDetector.TestObject` | examples/abandoned-object/abandoned_object.py:394-419 | Refines one sighting: new, moved, waiting, latched, suppressed or firing |
| `AbandonedObjectEvents.LogShowsTheEvents` | examples/abandoned-object/abandoned_object.py:355-393 | The log without its alerts is what the events of watched cameras show, event by event: the centres of its people, then the watched, tracked objects inside the zone, each in order |
| `AbandonedObjectEvents.LoggedIffShown` | examples/abandoned-object/abandoned_object.py:355-393 | So a person sighting is in the log if and only if an event of a watched camera has a detection of the person label with that centre, and an object sighting if and only if one has a watched label, that track and that centre inside the zone |
| `AbandonedObjectEvents.NobodyWasShownNear` | examples/abandoned-object/abandoned_object.py:404-419 | For every alert: no event of its camera within the grace time, its own included, has a detection of the person label within the radius of the anchor |
| `AbandonedObjectEvents.AnchorIffStays` | examples/abandoned-object/abandoned_object.py:394-403 | The anchor the rule keeps is the sighting that began the stay still going on: the first of its track, the first after a gap longer than the TTL, or one beyond tolerance of the stay before, with every sighting since within tolerance and no such gap |
| `AbandonedObjectEvents.OneStay` | examples/abandoned-object/abandoned_object.py:394-403 | A track stays at one place only |
| `AbandonedObjectEvents.AlertsIffAbandoned` | examples/abandoned-object/abandoned_object.py:394-419 | In every ordered run a sighting alerts if and only if the track has stayed for the dwell time, has not alerted since the stay began, and nobody was near within the grace time; the alert names the place the stay began |
| `Dedup.IouSymmetric` | examples/camera-agent/tools.py:367-386 | The overlap ratio is symmetric |
| `Dedup.IouInUnit` | examples/camera-agent/tools.py:367-386 | For sizes that are not negative it lies in [0, 1] |
| `Dedup.IouSelf` | examples/camera-agent/tools.py:367-386 | A box of positive size has ratio 1 with itself, so exact repeats always pass the threshold |
| `Dedup.SortSorts` | examples/camera-agent/tools.py:344-348 | The ordering by confidence is a descending permutation |
| `Dedup.SortIsStable` | examples/camera-agent/tools.py:344-348 | It is stable: detections of equal confidence keep their order |
| `Dedup.DedupDetections` | examples/camera-agent/tools.py:335-365 | The loop computes the greedy reference |
| `Dedup.DedupIsSoundAndDominating` | examples/camera-agent/tools.py:335-365 | No same-label pair of the result passes the threshold, the result is sorted and a sub-multiset of the input, and every dropped detection repeats a kept one of its label and at least its confidence |
| `Dedup.DedupIsIdempotent` | examples/camera-agent/tools.py:335-365 | De-duplicating twice is de-duplicating once |
| `Dedup.DedupActsPerLabel` | examples/camera-agent/tools.py:350-361 | Selecting one label before or after de-duplication gives the same list |
| `Dedup.IouIsShare` | examples/camera-agent/tools.py:367-386 | The points inside both boxes are those of one box; the ratio is 0 if and only if there are none, and otherwise the ratio times the area both boxes cover together is the area of that common box |
| `Dedup.FieldsAreRead` | examples/camera-agent/tools.py:344-351 | The label is the first non-empty of `label` and `class`, stripped, or `?`; the confidence the first non-zero of `confidence` and `score`, or 0 |
| `Synthetic.ParseSynthSpec` | examples/camera-agent/frame_sources.py:284-303 | The loop parses the spec into the reference scene |
| `Synthetic.ParsedIsProper` | examples/camera-agent/frame_sources.py:284-303 | Parsed scenes have distinct, non-empty, lower-case labels with positive counts |
| `Synthetic.ParsedCounts` | examples/camera-agent/frame_sources.py:284-303 | The count of a label is the sum of all parts that normalise to it |
| `Synthetic.PairIsRead` | examples/camera-agent/frame_sources.py:291-302 | A part `label=count` is read as its lower-cased, stripped, singular label and its count, and skipped unless the count is a positive number and the label not empty |
| `Synthetic.NoPairIsSkipped` | examples/camera-agent/frame_sources.py:290-291 | A part without an equals sign is skipped |
| `Synthetic.SingularDropsTheS` | examples/camera-agent/frame_sources.py:294-296 | The singular of the aliases for people is `person`; any other label loses one final s, except `bus` |
| `Synthetic.OpenIsFound` | examples/camera-agent/frame_sources.py:310 | The opening marker found from the right is the embedded one, whatever bytes the JPEG holds |
| `Synthetic.CloseIsFound` | examples/camera-agent/frame_sources.py:311 | The closing marker found from the right is the last one |
| `Synthetic.FrameRoundTrip` | examples/camera-agent/frame_sources.py:306-330 | Reading a synthetic frame gives back the drawn scene for any JPEG prefix, markers in it or not |
| `Synthetic.SynthDetectionsFromFrame` | examples/camera-agent/frame_sources.py:306-330 | The scan computes the reference detections, empty for a missing or malformed payload |
| `Synthetic.ShiftedIou` | examples/camera-agent/frame_sources.py:323-329 | Two boxes of the drawn size, d apart, pass the threshold if and only if d < 63/1550 |
| `Synthetic.SynthDup` | examples/camera-agent/tools.py:356-361 | Two drawn detections repeat each other if and only if their labels agree and they stand that close |
| `Synthetic.SmallScenesSurvive` | examples/camera-agent/tools.py:319-324 | At most 23 objects stand far enough apart whatever their labels |
| `Synthetic.CountedIsAllIffSurvives` | examples/camera-agent/tools.py:319-324 | Everything drawn is kept if and only if there are at most 64 objects and same-label ones stand far enough apart |
| `Synthetic.PipelineIsExact` | examples/camera-agent/tools.py:319-324 | For any JPEG and any parsed scene of at most 23 objects, scan, expansion, de-duplication and counting give back the scene's counts |
| `Synthetic.LossShowsInACount` | examples/camera-agent/tools.py:319-324 | If anything is lost, some label is counted too low |
| `Synthetic.PipelineIsExactIffSurvives` | examples/camera-agent/tools.py:319-324 | The pipeline is exact on a scene if and only if its labels survive |
| `Synthetic.SurvivesIffSmallOrDistinct` | examples/camera-agent/tools.py:319-324 | For labels without trailing whitespace this means: at most 23 objects, or at most 64 of which no two share a label |
| `Synthetic.CountLabels` | examples/camera-agent/tools.py:319-324 | The counting loop gives each label the number of its kept detections among the first 64 |
| `Synthetic.SyntheticFrameSource.constructor` | examples/camera-agent/frame_sources.py:344-347 | The source starts without a cached frame |
| `Synthetic.SyntheticFrameSource.Fetch` | examples/camera-agent/frame_sources.py:349-385 | The first rendered frame carries the scene and is returned by every later call; without the renderer the fetch fails |
| `FootageStore.OneRowPerKey` | examples/footage-search/store.py:83-132 | After any adds there is exactly one row per camera and non-empty correlation id that was added; its tokens are the union of all tokens added under the key, its time the first one |
| `FootageStore.RowsReachable` | examples/footage-search/store.py:83-132 | The invariant behind it holds after every sequence of adds |
| `FootageStore.CountIsKeysPlusAnonymous` | examples/footage-search/store.py:134-136 | The count is the number of distinct keys plus the number of keyframes without a correlation id |
| `FootageStore.FreshTokens` | examples/footage-search/store.py:95 | A new row's column has exactly the lower-cased label tokens |
| `FootageStore.MergedTokens` | examples/footage-search/store.py:105-107 | A merged column has exactly the tokens of both |
| `FootageStore.SortedSetAscends` | examples/footage-search/store.py:95-107 | The column is written in strictly ascending order, each token once |
| `FootageStore.CaptionSurvives` | examples/footage-search/store.py:110-114 | For captions without whitespace at their ends, as the event parser makes them (line 227), a merged caption contains the new one; it contains the old one if and only if one of them is empty, they are equal, or the new one is not already in the old |
| `FootageSearch.AddingMergesCaptions` | examples/footage-search/store.py:98-124 | For captions without whitespace at their ends: after any adds, a keyframe added under an existing key changes the row of that key only; its caption becomes the only non-empty one of the two, the new one if the old one contains it, and otherwise the old one, a space and the new one |
| `FootageSearch.AdaptersAreListed` | examples/footage-search/store.py:115-117 | For adapter names without commas: after any adds a row's adapter column names the adapters of the keyframes added under its key and no others, empty names aside |
| `FootageSearch.AnonymousRowsStand` | examples/footage-search/store.py:126-132 | A keyframe without a correlation id keeps a row of its own, as it was added, whatever is added later |
| `FootageSearch.StoredCaptions` | examples/footage-search/store.py:96-132 | After any adds stored captions are lower-case, and without whitespace at their ends if all captions added are |
| `FootageStore.LikeIsContains` | examples/footage-search/store.py:174-181 | LIKE with a wildcard-free infix is a substring test up to ASCII case |
| `FootageStore.LabelTestIsWord` | examples/footage-search/store.py:174-177 | On a lower-case column the test for a label without wildcards holds if and only if the label stands in the column, delimited by spaces or the ends |
| `FootageStore.LabelTestIsMembership` | examples/footage-search/store.py:174-177 | Where the column's only whitespace is the space, that means for a label of one word, without wildcards: if and only if it is one of the column's tokens |
| `FootageSearch.CarriedLabelIsFoundIff` | examples/footage-search/store.py:83-132 | A label of any number of words that some keyframe carried is found on the row of its key for as long as that is the only keyframe of the key; once there is another, a label without wildcards is found if and only if its words follow each other directly in the alphabetical order of all tokens added under the key |
| `FootageSearch.MergedRowsAnswerByNeighbours` | examples/footage-search/store.py:98-124 | The same for every label without wildcards, carried or not, on every row of a key added at least twice |
| `FootageSearch.MergeLosesCellPhone` | examples/footage-search/store.py:104-108 | An input that is lost, `cell phone` beside `person` (the query parser emits that label, `examples/footage-search/query.py:61`): found after the first keyframe, not after any second one of the same key |
| `FootageSearch.OnceWrittenRowsAnswerByPieces` | examples/footage-search/store.py:126-132 | On a row written once, a label without wildcards is found if and only if its space-separated pieces stand side by side among those of the row's labels in alphabetical order, within one label or across neighbouring ones |
| `FootageSearch.StoredLabelIsFound` | examples/footage-search/store.py:95 | On a row written once every label is found as it was stored, wildcards and all |
| `FootageSearch.PhraseMaySpanLabels` | examples/footage-search/store.py:95 | An input that is reported though no label says it: `cell phone`, from the labels `phone` and `cell` |
| `FootageSearch.MergedRowsAnswerExactly` | examples/footage-search/store.py:98-124 | For a label of one word, without wildcards: after any adds, on the row of a key added at least twice the test holds if and only if the label is a token of something added under the key, whatever whitespace the labels had |
| `FootageSearch.OnceWrittenRowsAnswerByWords` | examples/footage-search/store.py:126-132 | For a label of one word, without wildcards: on a row written once it holds if and only if some label of its keyframe has the word delimited by spaces or its ends |
| `FootageSearch.LabelSearchIsMembership` | examples/footage-search/store.py:174-177 | For a label of one word, without wildcards: over every history the test never reports a label that was not a token of one added under the key, and it misses one that was if and only if the key was added only once and no label of that keyframe has the word delimited by spaces or its ends |
| `FootageSearch.LabelTestIsMatch` | examples/footage-search/store.py:174-177 | For every column and every label, wildcards included: the test holds if and only if some stretch of the column between spaces or its ends matches the label as a LIKE pattern |
| `FootageSearch.WildcardReportsOthers` | examples/footage-search/store.py:174-177 | With a wildcard it does report others: `c_t` finds the label `cat` |
| `FootageStore.TabHidesToken` | examples/footage-search/store.py:95 | An input that is missed: a label with a tab, before any merge |
| `FootageStore.KeywordIsSubstring` | examples/footage-search/store.py:178-181 | A wildcard-free keyword matches if and only if it occurs in the labels or in the caption, up to ASCII case |
| `FootageSearch.KeywordFindsStoredText` | examples/footage-search/store.py:178-181 | On the rows of every history that means: if and only if the lower-cased keyword occurs in the column as stored |
| `FootageSearch.LikeConcat` | examples/footage-search/store.py:174-181 | A LIKE pattern of two parts matches exactly the strings that split into one matching the first and one matching the second |
| `FootageSearch.LikeOne` | examples/footage-search/store.py:174-181 | A one-character pattern matches everything if it is `%`, any one character if it is `_`, and otherwise that character up to ASCII case; together the two lemmas say what every pattern matches |
| `FootageSearch.MatchingMeans` | examples/footage-search/store.py:162-189 | A row matches a query if and only if it passes every clause: camera, both ends of the time window, every label on a delimited stretch of the labels, and every keyword on a stretch of labels or caption |
| `FootageStore.Store.AddKeyframe` | examples/footage-search/store.py:83-132 | Keeps the rows what the theorems above say of all keyframes added so far, the new one included |
| `FootageStore.Store.Count` | examples/footage-search/store.py:134-136 | Returns the number of distinct keys plus the number of keyframes without a correlation id that were ever added |
| `FootageStore.Store.Search` | examples/footage-search/store.py:138-198 | Returns matching rows only, newest first, at most `limit` of them, and leaves out no matching row newer than one it returns |
| `LineCounter.CountsAreExact` | examples/camera-agent/camera_agent.py:965-977 | In and out are exactly the consecutive strictly-opposite-side samples of each track, ending on the positive or negative side, however the tracks' samples interleave |
| `LineCounter.InterleavingDoesNotMatter` | examples/camera-agent/camera_agent.py:965-977 | Histories that agree track by track give the same counts |
| `LineCounter.LastSideIsLast` | examples/camera-agent/camera_agent.py:965-977 | The remembered side of a track is the last one it was sampled on |
| `LineCounter.NetIsSignDifference` | examples/camera-agent/camera_agent.py:971-976 | Off the line, twice a track's in minus out is the difference of its last and first sign |
| `LineCounter.NetIsBoundedByTracks` | examples/camera-agent/camera_agent.py:979-980 | Off the line, the net count is at most the number of tracks either way |
| `LineCounter.SideReverses` | examples/camera-agent/camera_agent.py:940-944 | Reversing the line negates the side |
| `LineCounter.SideIsLeft` | examples/camera-agent/camera_agent.py:940-944 | A point a distance off the line to its left has a positive side, to its right a negative one, and on it zero, wherever along the line it stands |
| `LineCounter.ReversingSwaps` | examples/camera-agent/camera_agent.py:940-977 | Reversing the line swaps in and out on every history |
| `LineCounter.CountsAllIffNothingHidden` | examples/camera-agent/camera_agent.py:971-977 | Of one track no more is counted than the sign changes among its samples off the line, and exactly that if and only if no sample on the line stands between samples on opposite sides |
| `LineCounter.CountsAreSignChangesIffNothingHidden` | examples/camera-agent/camera_agent.py:965-977 | Over every history the two counts are the sign changes of all tracks, samples on the line left out, if and only if no track hides a crossing in this way; otherwise they fall short |
| `LineCounter.SampleOnTheLineHidesACrossing` | examples/camera-agent/camera_agent.py:971-976 | An input that is missed: a track sampled below, on and above the line has one sign change, and neither count moves |
| `LineCounter.Counter.constructor` | examples/camera-agent/camera_agent.py:959-963 | The counter starts at zero |
| `LineCounter.Counter.Update` | examples/camera-agent/camera_agent.py:965-977 | One poll extends the sample history the counter stands for by exactly its tracks |
| `Alarms.TriggeredIffLastFired` | examples/camera-agent/camera_agent.py:1431-1452 | An alarm is triggered if and only if it latches and the last thing that happened to it, among firing, acknowledgement, stand-down and stop, is that it fired; it is active if and only if it was never stopped |
| `Alarms.SirenWaitsForAck` | examples/camera-agent/camera_agent.py:1554-1560 | Between two firings of a siren it was acknowledged, at least the re-arm time before the second: it never stands down by itself |
| `Alarms.UnackedPulsesAreSpaced` | examples/camera-agent/camera_agent.py:1525-1560 | Two firings of a pulse alarm with no acknowledgement between them are at least the pulse time plus the re-arm time apart |
| `Alarms.NoticesAreSpaced` | examples/camera-agent/camera_agent.py:1561-1566 | Firings of one chime or silent alarm are at least the re-arm time apart |
| `Alarms.CountIsRecordedEvents` | examples/camera-agent/camera_agent.py:1567-1578 | The trigger count is the number of the alarm's recorded events, and the feed is the log of firings numbered from one |
| `Alarms.NothingAfterStop` | examples/camera-agent/camera_agent.py:1431-1440 | After an alarm was stopped nothing happens to it but further stops: it is never rung, acknowledged or stood down again |
| `Alarms.StoppedAlarmIsFrozen` | examples/camera-agent/camera_agent.py:1431-1440 | Once an alarm is stopped or evicted it is not triggered, and no later event of any run changes it: the poll that was suspended at the stop is cancelled with its task and never rings it |
| `Alarms.RegistryHoldsNewest` | examples/camera-agent/camera_agent.py:1419-1426 | The registered alarms are the most recent ones up to the limit, in order; forgotten ones are stopped; a task has exactly each active alarm |
| `Alarms.StepKeepsInv` | examples/camera-agent/camera_agent.py:1405-1578 | Every step keeps log, feed and registry in agreement |
| `Alarms.Reachable` | examples/camera-agent/camera_agent.py:1405-1578 | So every run does |
| `Alarms.AlarmManager.constructor` | examples/camera-agent/camera_agent.py:1390-1403 | The manager starts in the state of the empty run |
| `Alarms.AlarmManager.Create` | examples/camera-agent/camera_agent.py:1405-1429 | Refines arming: normalised fields, registration, eviction of the oldest, task |
| `Alarms.AlarmManager.MakeRoom` | examples/camera-agent/camera_agent.py:1422-1425 | Refines the eviction loop: the oldest alarms are stopped and forgotten |
| `Alarms.AlarmManager.Stop` | examples/camera-agent/camera_agent.py:1431-1440 | Refines stopping a registered alarm, cancelling its task; unknown ids change nothing |
| `Alarms.AlarmManager.Acknowledge` | examples/camera-agent/camera_agent.py:1442-1452 | Refines silencing one alarm or all of them and returns how many were ringing |
| `Alarms.AlarmManager.PollSuspends` | examples/camera-agent/camera_agent.py:1507-1518 | Refines the loop reaching the await of a poll while the alarm is active |
| `Alarms.AlarmManager.PollResumes` | examples/camera-agent/camera_agent.py:1540-1578 | Refines the rest of a poll that was not cancelled, which does not look at `active` again |
| `Alarms.AlarmManager.PollGivesUp` | examples/camera-agent/camera_agent.py:1543-1548 | Refines a poll that ends in an exception, a CancelledError included |
| `Alarms.AlarmManager.MaybeStandDown` | examples/camera-agent/camera_agent.py:1525-1538 | Refines the stand-down of a pulse alarm |
| `Alarms.AlarmManager.Export` | examples/camera-agent/camera_agent.py:1458-1462 | Returns the specs of the active alarms in dict order |
| `Alarms.AlarmManager.Restore` | examples/camera-agent/camera_agent.py:1464-1485 | Creates exactly the first spec of each key, in order |
| `AlarmEffects.PollRingsIff` | examples/camera-agent/camera_agent.py:1549-1578 | After any run the end of a poll that was not cancelled rings the alarm if and only if the target was present and the log says it may: a siren or pulse does not ring and was last silenced the re-arm time ago, any other alarm last rang or was acknowledged that long ago. The note carries the camera that was polled; otherwise nothing changes but the poll |
| `AlarmEffects.OnlyPollsRing` | examples/camera-agent/camera_agent.py:1405-1578 | No other event rings an alarm or adds a note |
| `AlarmEffects.AcknowledgeSilencesTheRinging` | examples/camera-agent/camera_agent.py:1442-1452 | After any run an acknowledgement silences and logs exactly the registered alarms it asks for that ring in the log, stamps them, and changes nothing else |
| `AlarmEffects.StopHalts` | examples/camera-agent/camera_agent.py:1431-1440 | Stopping a registered alarm makes it inactive and silent and cancels its task; any other id changes nothing |
| `AlarmEffects.PulseStandsDownIff` | examples/camera-agent/camera_agent.py:1525-1538 | The loop silences an alarm by itself if and only if it is a pulse that rings in the log and last rang at least the pulse time ago |
| `AlarmEffects.NewAlarmIs` | examples/camera-agent/camera_agent.py:1411-1426 | A new alarm has the fields that were asked for, tidied, an unknown level made a siren, and is armed, silent and registered, unless the limit is zero |
| `AlarmEffects.PollsBeginAndFail` | examples/camera-agent/camera_agent.py:1507-1548 | A poll begins only for an active alarm, at a camera of its own; one that fails changes nothing else |
| `FirstPerKey.FirstsKeepKeys` | examples/camera-agent/camera_agent.py:1464-1485 | Collapsing duplicates keeps a spec of every key |
| `FirstPerKey.FirstsAreDistinct` | examples/camera-agent/camera_agent.py:1464-1485 | It keeps only one |
| `FirstPerKey.FirstsAreEarliest` | examples/camera-agent/camera_agent.py:1464-1485 | The one it keeps is the earliest |
| `FirstPerKey.FirstsIdempotent` | examples/camera-agent/camera_agent.py:1464-1485 | Collapsing twice is collapsing once |
| `FirstPerKey.ExportedIff` | examples/camera-agent/camera_agent.py:1458-1462 | What is exported are the specs of the known, active objects and no others |
| `FirstPerKey.ExportGoesInOrder` | examples/camera-agent/camera_agent.py:1458-1462 | Exporting two lists of ids in a row exports the one and then the other, so the specs come in the order of the ids |
| `FirstPerKey.ExportOfOne` | examples/camera-agent/camera_agent.py:1458-1462 | A known, active object is exported by its own spec, any other not at all |
| `AlarmPersistence.CreateThenExport` | examples/camera-agent/camera_agent.py:1405-1462 | From any specs, a fresh manager exports the last ones that fit, each normalised |
| `AlarmPersistence.RestoreKeepsFirstPerKey` | examples/camera-agent/camera_agent.py:1458-1485 | Restoring an export into a fresh manager and exporting again gives the first-per-key subsequence of the export; a second cycle changes nothing |
| `AlarmPersistence.FirstRingWins` | examples/camera-agent/camera_agent.py:1470-1472 | Of two specs that differ only in the ring level, the first wins |
| `AlarmPersistence.KeysAgreeIff` | examples/camera-agent/camera_agent.py:1470-1472 | Two alarm specs are duplicates if and only if their names agree up to case and outer whitespace, their targets and both ends of the window agree, and they have the same cameras; the ring level alone is ignored |
| `AlarmPersistence.NormalIs` | examples/camera-agent/camera_agent.py:1411-1418 | Creating tidies a spec in this way: name stripped or `Alarm`, target stripped and lower-cased, unknown level made a siren |
| `AlarmPersistence.ExportsTheActive` | examples/camera-agent/camera_agent.py:1458-1462 | After any run exactly the active registered alarms are exported, each field by field |
| `MonitorPersistence.CreateThenExport` | examples/camera-agent/camera_agent.py:1029-1114 | From any specs, a fresh manager exports the last accepted ones that fit, each normalised |
| `MonitorPersistence.RestoreKeepsFirstPerKey` | examples/camera-agent/camera_agent.py:1111-1135 | The monitor round trip: first-per-key subsequence, and no spec of an export is refused; a second cycle changes nothing |
| `MonitorPersistence.FirstIntervalWins` | examples/camera-agent/camera_agent.py:1123-1125 | Of two specs that differ only in the interval, the first wins |
| `MonitorPersistence.KeysAgreeIff` | examples/camera-agent/camera_agent.py:1123-1125 | Two monitor specs are duplicates if and only if kind, target and cameras agree and so do their lines, no line and an empty one being the same; the interval alone is ignored |
| `MonitorPersistence.NormalIs` | examples/camera-agent/camera_agent.py:1029-1063 | Creating strips and lower-cases the target and puts the manager's interval for none or zero |
| `MonitorPersistence.ExportsTheActive` | examples/camera-agent/camera_agent.py:1111-1114 | After any run exactly the active registered monitors are exported, each field by field |
| `ReportPersistence.CreateThenExport` | examples/camera-agent/camera_agent.py:1868-1899 | From any specs, a fresh scheduler exports the last ones that fit, each normalised |
| `ReportPersistence.RestoreKeepsFirstPerKey` | examples/camera-agent/camera_agent.py:1896-1919 | The report round trip: first-per-key subsequence; a second cycle changes nothing |
| `ReportPersistence.RestoredReportIsDueAgain` | examples/camera-agent/camera_agent.py:1896-1919 | A scheduler restored from the export of any run makes its first look at a daily report run it if and only if the report's time of that day has come, whatever the old process ran that day: the last run is not persisted |
| `ReportPersistence.KeysAgreeIff` | examples/camera-agent/camera_agent.py:1907-1908 | Two report specs are duplicates if and only if their names agree up to case and outer whitespace and query and times agree |
| `ReportPersistence.NormalIs` | examples/camera-agent/camera_agent.py:1872-1876 | Creating strips name and query, an empty name being `Report`, and puts 08:00 where neither time is given |
| `ReportPersistence.ExportsTheActive` | examples/camera-agent/camera_agent.py:1896-1899 | After any run exactly the active registered reports are exported, each field by field |
| `MonitorHost.CountersAreDeliveries` | examples/camera-agent/monitor_host.py:613-628 | In every interleaving a monitor's alert count, recent alerts and notifications are exactly what was delivered to it |
| `MonitorHost.TalliesCountCrossings` | examples/camera-agent/monitor_host.py:622-626 | Per camera, in and out of a crossing monitor are its delivered alerts of either direction, and together those with a recognised direction |
| `MonitorHost.StoppedMonitorIsFrozen` | examples/camera-agent/monitor_host.py:374-389 | Once a monitor is stopped no later event changes its alert count, recent alerts, tallies or notifications, not even the end of a poll suspended at the stop |
| `MonitorHost.PushCountsIsInvisible` | examples/camera-agent/monitor_host.py:672-685 | Reading a tally for the counts display never makes an entry, since every polled camera has one |
| `MonitorHost.DictHoldsTheUnstopped` | examples/camera-agent/monitor_host.py:366-389 | The dict holds exactly the monitors not stopped, each under its own id, and the next automatic id is always free |
| `MonitorHost.RefusedCreateRegistersNothing` | examples/camera-agent/monitor_host.py:296-345 | After any run a refused request changes nothing but perhaps the id counter, which moves if and only if the rule's own parameters were at fault; an id is in use only when the request asked for that of a monitor that is not stopped |
| `MonitorHost.StepKeepsInv` | examples/camera-agent/monitor_host.py:296-389 | Every step keeps counters, log and dict in agreement |
| `MonitorHost.Reachable` | examples/camera-agent/monitor_host.py:296-389 | So every run does |
| `MonitorHost.Host.constructor` | examples/camera-agent/monitor_host.py:271-292 | The host starts in the state of the empty run |
| `MonitorHost.Host.AllocId` | examples/camera-agent/monitor_host.py:603-609 | Refuses an id in use, otherwise takes it and leaves the counter above it |
| `MonitorHost.Host.CreateMonitor` | examples/camera-agent/monitor_host.py:296-372 | Refines creating and reports the first objection in the order of the checks |
| `MonitorHost.Host.StopMonitor` | examples/camera-agent/monitor_host.py:374-389 | Refines stopping and forgetting one monitor |
| `MonitorHost.Host.Receive` | examples/camera-agent/monitor_host.py:613-628 | Refines the alert sink: dropped when stopped, else counted, remembered, tallied and notified |
| `MonitorHost.Host.ReceiveAll` | examples/camera-agent/monitor_host.py:175-179 | Delivers the alerts of one event in order |
| `MonitorHost.Host.PollResumes` | examples/camera-agent/monitor_host.py:661-670 | Refines the rest of a poll after its awaits |
| `MonitorHost.Host.Hear` | examples/camera-agent/monitor_host.py:427-445 | Refines one monitor's share of a fed event |
| `MonitorHost.Host.LoopDies` | examples/camera-agent/monitor_host.py:643-650 | Refines a crashing loop: inactive and marked, but not stopped |
| `MonitorHostEffects.FirstObjectionCounts` | examples/camera-agent/monitor_host.py:311-350 | A request is refused for the first thing wrong with it, in the order of the checks, and accepted if nothing is: each objection is stated by itself, for every request |
| `MonitorHostEffects.NonBlankOne` | examples/camera-agent/monitor_host.py:316-317 | A camera id is stripped, and dropped if nothing is left |
| `MonitorHostEffects.CreateStartsOneMonitor` | examples/camera-agent/monitor_host.py:328-372 | After any run an accepted request adds one running monitor with the rule, stripped cameras, target and interval asked for, under the id asked for or the next; a refused one adds nothing |
| `MonitorHostEffects.FiredAlertsReachTheirMonitor` | examples/camera-agent/monitor_host.py:613-628 | After any run all alerts of a poll or fed event reach its monitor in order, are dropped if it was stopped, and are notified if and only if it asks for that; no other monitor changes |
| `MonitorHostEffects.StopMarksAndForgets` | examples/camera-agent/monitor_host.py:374-389 | Stopping a known monitor marks it and takes it out of the dict; any other id changes nothing |
| `MonitorHostEffects.LoopsBeginFailAndCrash` | examples/camera-agent/monitor_host.py:643-670 | A poll begins only for an active monitor, at a camera of its own; a crash makes the monitor inactive and marks it, and a failed poll changes nothing else |
| `Monitors.RegistryHoldsNewest` | examples/camera-agent/camera_agent.py:1064-1071 | The registered monitors are the most recent ones up to the limit, in order of id; forgotten ones are stopped; a task of its own has exactly each active monitor the host does not run |
| `Monitors.HostHoldsTheActive` | examples/camera-agent/camera_agent.py:1041-1082 | The host holds exactly the active count and crossing monitors, each with the rule, cameras, target and interval that were asked for |
| `Monitors.RefusedIffUnacceptable` | examples/camera-agent/camera_agent.py:1041-1059 | A request is refused if and only if it is unacceptable by itself, whatever is registered; in particular the id it asks for is always free |
| `Monitors.RefusalRegistersNothing` | examples/camera-agent/camera_agent.py:1041-1063 | After any run a refused request leaves both registries, all tasks and all hosted monitors as they were |
| `Monitors.RefusalUsesUpHostId` | examples/camera-agent/monitor_host.py:330-351 | The one trace of a refusal, the host's id counter, moves if and only if a crossing monitor is refused for its line alone |
| `Monitors.StepKeepsInv` | examples/camera-agent/camera_agent.py:1029-1082 | Every step of manager or host keeps the two registries in agreement |
| `Monitors.Reachable` | examples/camera-agent/camera_agent.py:1029-1082 | So every run does |
| `Monitors.MonitorManager.constructor` | examples/camera-agent/camera_agent.py:999-1027 | Manager and host start in the state of the empty run |
| `Monitors.MonitorManager.CreateMonitor` | examples/camera-agent/camera_agent.py:1029-1071 | Refines creating on both levels and says whether it was refused |
| `Monitors.MonitorManager.MakeRoom` | examples/camera-agent/camera_agent.py:1064-1067 | Refines the eviction loop, host included |
| `Monitors.MonitorManager.StopMonitor` | examples/camera-agent/camera_agent.py:1073-1082 | Refines stopping on both levels |
| `Monitors.MonitorManager.Export` | examples/camera-agent/camera_agent.py:1111-1114 | Returns the specs of the active monitors in dict order |
| `Monitors.MonitorManager.Restore` | examples/camera-agent/camera_agent.py:1116-1135 | Creates exactly the first spec of each key, in order, skipping refusals |
| `MonitorsEffects.GrantableIsAcceptable` | examples/camera-agent/camera_agent.py:1041-1059 | A request is accepted if and only if what it asks for is in order, said without the host's own checks |
| `MonitorsEffects.CreateRegistersIff` | examples/camera-agent/camera_agent.py:1041-1071 | After any run a request that is in order is registered under the next id with what it asked for, on the host for count and crossing and with a task otherwise; any other registers nothing |
| `MonitorsEffects.StopStopsBoth` | examples/camera-agent/camera_agent.py:1073-1082 | Stopping a registered monitor deactivates it, cancels its task and stops it on the host; any other id changes nothing |
| `Reports.DailyRunsIffNotRunSince` | examples/camera-agent/camera_agent.py:1832-1838 | The loop, looking at a daily report, runs it if and only if its time of that day has come and it has not run since, by the loop or by hand: never before its time, and at the first look after it |
| `Reports.DailyRunsOncePerDay` | examples/camera-agent/camera_agent.py:1826-1839 | The loop never runs a daily report twice on one calendar day |
| `Reports.IntervalRunsIffElapsed` | examples/camera-agent/camera_agent.py:1830-1831 | The loop runs an interval report if and only if every earlier run of it, by loop or hand, is at least the interval in the past |
| `Reports.IntervalRunsAreSpaced` | examples/camera-agent/camera_agent.py:1830-1831 | So loop runs come at least N minutes after any earlier run |
| `Reports.LoopAliveIffTimesInDay` | examples/camera-agent/camera_agent.py:1965-1976 | The loop is alive if and only if it has never looked at a daily report whose minute is outside the day |
| `Reports.ProperMinutesKeepLoopAlive` | examples/camera-agent/camera_agent.py:1316-1328 | While every schedule is created with a minute of the day or none, as the tool's parser makes sure, the loop stays alive |
| `Reports.BadMinuteEndsLoop` | examples/camera-agent/camera_agent.py:1834-1836 | A run that ends it for all reports: a schedule with a minute outside the day, looked at once |
| `Reports.CountIsRuns` | examples/camera-agent/camera_agent.py:1933-1937 | Run count and last run are the number and the last stamp of the report's runs |
| `Reports.RegistryHoldsNewest` | examples/camera-agent/camera_agent.py:1877-1882 | The registered schedules are the most recent ones up to the limit, in order |
| `Reports.StepKeepsInv` | examples/camera-agent/camera_agent.py:1868-1970 | Every step keeps log and registry in agreement |
| `Reports.Reachable` | examples/camera-agent/camera_agent.py:1868-1970 | So every run does |
| `Reports.ReportScheduler.constructor` | examples/camera-agent/camera_agent.py:1856-1866 | The scheduler starts in the state of the empty run |
| `Reports.ReportScheduler.CreateSchedule` | examples/camera-agent/camera_agent.py:1868-1884 | Refines creating: normalised fields, 08:00 when no time is given, eviction of the oldest |
| `Reports.ReportScheduler.StopSchedule` | examples/camera-agent/camera_agent.py:1886-1891 | Refines stopping; unknown ids change nothing |
| `Reports.ReportScheduler.BeginRun` | examples/camera-agent/camera_agent.py:1933-1937 | Refines the stamp and count of a run |
| `Reports.ReportScheduler.RunByHand` | examples/camera-agent/camera_agent.py:1927-1931 | Refines a run by hand, which asks neither the plan nor `active` |
| `Reports.ReportScheduler.LoopLooks` | examples/camera-agent/camera_agent.py:1968-1971 | Refines one look of the loop: run, pass over, or crash |
| `Reports.ReportScheduler.Export` | examples/camera-agent/camera_agent.py:1896-1899 | Returns the specs of the active schedules in dict order |
| `Reports.ReportScheduler.Restore` | examples/camera-agent/camera_agent.py:1901-1919 | Creates exactly the first spec of each key, in order |
| `ReportsEffects.LookRunsIffDue` | examples/camera-agent/camera_agent.py:1826-1839 | After any run a look at an active report runs it if and only if the clock and the log call for it: the interval has passed since its last run, or its time after the last midnight has come and its last run was before that; a minute outside the day ends the loop |
| `ReportsEffects.TimeOnIsAfterMidnight` | examples/camera-agent/camera_agent.py:1834-1835 | The time of the day is that many minutes after the last midnight |
| `ReportsEffects.HandRunsAtOnce` | examples/camera-agent/camera_agent.py:1927-1937 | A run by hand stamps and counts the report at once, whatever its plan, active or not |
| `ReportsEffects.StopOnlyDeactivates` | examples/camera-agent/camera_agent.py:1886-1891 | Stopping a known report deactivates it and changes nothing else |
| `ReportsEffects.NewReportIs` | examples/camera-agent/camera_agent.py:1868-1884 | A new report has name and query stripped, the times asked for or 08:00, and has never run |
| `WavHeader.StripWavHeader` | examples/camera-agent/services.py:471-486 | The chunk walk ends on every byte string and computes the reference walk |
| `WavHeader.WalkGivesSlice` | examples/camera-agent/services.py:479-486 | The result is the input itself or one contiguous piece of it after a chunk header |
| `WavHeader.StripInvertsWriter` | examples/camera-agent/services.py:471-486 | From every file of at least 44 bytes with a WAVE header, any even-sized chunks, a data chunk and anything after it, exactly the PCM comes back (RIFF chunk layout) |
| `WavHeader.WalkMisreadsPad` | examples/camera-agent/services.py:479-486 | The walk does not step over the pad byte of an odd chunk: it goes on where the size misread there says, or gives the file back if there is no room for a header |
| `WavHeader.StripMisreadsOddChunk` | examples/camera-agent/services.py:471-486 | So for every WAVE file with an odd chunk before the data chunk, the result is that of the walk from one computed place |
| `WavHeader.StripWorksIffAllEven` | examples/camera-agent/services.py:471-486 | For every WAVE file, with odd chunks anywhere, PCM of any size and any tail, the PCM comes back if and only if no chunk before the data chunk is odd, provided the place misread behind the first odd one has no room for a header and the PCM behind it; if it has no room for a header, the file comes back whole |
| `WavHeader.HeaderOvershoots` | examples/camera-agent/services.py:479-486 | Behind an odd chunk, the header of a chunk under 16 MiB leads there if and only if 256 times its size plus the last byte of its id plus 7 and the PCM exceed what follows the header |
| `WavHeader.MarksAreAscii` | examples/camera-agent/services.py:474-482 | The marks looked for are the ASCII codes of RIFF, WAVE and data |
| `WavHeader.OthersComeBack` | examples/camera-agent/services.py:474-475 | Anything shorter than 44 bytes or without the two marks comes back as it is |
| `Text.TokensOfJoin` | examples/footage-search/store.py:95-107 | Splitting a joined column gives the tokens of its parts and no others |
| `Text.TokenIffWordAt` | examples/footage-search/store.py:174-177 | With spaces as the only whitespace, tokens are the space-delimited words |
| `Text.PaddedOccurs` | examples/footage-search/store.py:174-177 | The padded word occurs in the padded column exactly where the word is delimited in it |
| `Text.HasWordIffRun` | examples/footage-search/store.py:174-177 | A string stands in another, delimited by spaces or the ends, if and only if its space-separated pieces are a contiguous run of the other's pieces |
| `Text.HasWordJoin` | examples/footage-search/store.py:95-107 | The delimited words of a joined column are those of its parts |
| `Text.WordIsToken` | examples/footage-search/store.py:174-177 | A word delimited by spaces or the ends is always a token |
| `Text.StripTwice` | examples/camera-agent/camera_agent.py:1413-1414 | Stripping is idempotent, so a restored name is the exported one |
| `Text.StripLowerTwice` | examples/camera-agent/camera_agent.py:1413-1415 | Stripping and lower-casing is idempotent, so a restored target is the exported one |
| `Text.StripCutsWhitespace` | examples/camera-agent/camera_agent.py:1413-1415 | Stripping takes all whitespace off both ends and nothing else |
| `Text.StripIsUnique` | examples/camera-agent/camera_agent.py:1413-1415 | There is only one such way to cut a string |
| `Text.SpacesAre` | examples/camera-agent/camera_agent.py:1413-1415 | The characters that count as whitespace are the 29 of `str.isspace` |
| `Text.LowerLetters` | examples/footage-search/store.py:95 | Lower-casing turns the 26 capital letters into the small ones and nothing else |
| `Text.SplitIsJoined` | examples/footage-search/store.py:174-177 | Splitting at a character cuts at every occurrence and only there |
| `Text.TokensSplit` | examples/footage-search/store.py:105-107 | Whitespace separates tokens |

## Left out

- Relay: decoding, entity mapping, the publishers and the recent-messages feed are not modelled; what the mapper and the publish return are parameters, and the once-only mode is left out because it only stops the subscriber.
- Frame sources, detection adapters, NATS, ffmpeg, webhooks, speech services, HTTP routes and SQLite itself are foreign; what a fetch, a detector or a rule returns is a parameter of the step, and the table is a sequence of rows.
- Objects kept in a manager's dict (timers, alarms, monitors, hosted monitors, schedules) are values in a table by number, not heap objects; a coroutine that holds on to one after the manager forgot it does so through its number.
- Locks and tasks wake in any order; the first-in-first-out order of asyncio is not used, so the theorems hold for every order. In the monitor host a poll may complete even after its monitor was stopped, as the comment at `examples/camera-agent/monitor_host.py:374-379` supposes; elsewhere a cancelled coroutine ends at its await.
- Floating-point rounding and clocks that step backwards are left out: numbers and times are real, and days are 86400 seconds long without changes of the clock.
- `math.hypot` is replaced by comparing squared distances; zone membership is a parameter.
- Lower-casing is ASCII only, and bytes of a synthetic frame are characters.
- Synthetic: the JSON codec and `int()` are parameters; of the codec it is used that it is invertible on the scene and that its text has no upper-case letter.
- AbandonedObject.FiresExactlyWhenTheLogSays: assumes event times in order per camera and a positive TTL, because the collection of idle tracks is driven by event time.
- FrameCache: the separate ring of inference events is left out; it is a simpler form of the alert rings.
- FootageStore: reading a row back splits its labels at whitespace, which `FootageStore.MergedTokens` covers.
- FootageSearch.AdaptersAreListed: says nothing of adapter names with a comma in them, which the column cannot tell from two names.
- Synthetic.CountLabels: stops at the counts; the wording of the summary and its limit of eight parts are left out.
- Alarms: the time-of-day window and the yielding to an interactive turn only keep polls from starting, so polls may start at any time in the model; the emergency contact is text and not persisted.
- MonitorHost: the less used rule parameters (debounce, direction filter, track TTL, line name) and the counts display fed from the rule's own state are left out; so is reporting why a loop crashed.
- Monitors: the notify kind's own polling loop and its cooldown are left out; a not-a-number in the line of a restored monitor is treated as equal to itself.
- Reports: the text of a report, its delivery and the list of recent reports are left out; restarting the loop after it was stopped is too.
- Negative limits on the number of alarms, monitors or schedules are left out; a limit of zero is modelled.
- WavHeader.StripWorksIffAllEven: says nothing of files whose misread size leads the walk to an earlier place; `WavHeader.StripMisreadsOddChunk` says which, but the bytes there are payload and may read as anything.
- Configuration, prompts, speech heuristics, query parsing and the demo pages hold text rules, one per branch, with no state behind them.
