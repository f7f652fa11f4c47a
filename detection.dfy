/**
 * The detection pipeline of `ARViewModel`: confidence filtering, label
 * resolution, the 1.5 s decay of a stale detection and the 300 ms debounced
 * publish, with time as integer milliseconds and every event serialised.
 */
module Detection {
  import opened Wrappers
  import opened Text
  import opened DetectedObjects
  import opened Resolver

  /** Classifier confidences are integers in units of 1/10000 of the `Float` value. */
  const ConfidenceScale: int := 10000
  /** `confidenceThreshold`, 0.05. */
  const ConfidenceThreshold: int := ConfidenceScale / 20
  /** Silence after which a detection is cleared, 1.5 s. */
  const DecayTimeout: int := 1500
  /** Delay of the debounced publish, 300 ms. */
  const DebounceDelay: int := 300

  /** One classification result: `identifier` and `confidence`. */
  datatype Observation = Observation(identifier: string, confidence: int)

  /** `observations.filter { $0.confidence > confidenceThreshold }`. */
  function TopObservations(observations: seq<Observation>): (top: seq<Observation>)
    ensures forall o :: o in top <==> o in observations && o.confidence > ConfidenceThreshold
    ensures |top| <= |observations|
  {
    if observations == [] then []
    else
      var rest := TopObservations(observations[1..]);
      if observations[0].confidence > ConfidenceThreshold then [observations[0]] + rest else rest
  }

  /** `topObservations.map { $0.identifier.lowercased() }`. */
  function Identifiers(top: seq<Observation>): (ids: seq<string>)
    ensures |ids| == |top|
    ensures forall l :: l in ids <==> exists o :: o in top && l == Lower(o.identifier)
  {
    var ids := seq(|top|, i requires 0 <= i < |top| => Lower(top[i].identifier));
    assert forall o :: o in top ==> exists i :: 0 <= i < |top| && top[i] == o && ids[i] == Lower(o.identifier);
    assert forall l :: l in ids ==> exists i :: 0 <= i < |top| && ids[i] == l && top[i] in top;
    ids
  }

  /** Which path `processClassifications` takes for one batch of observations. */
  datatype Classification =
    | NoQualifying                        // nothing passed the threshold: the decay path
    | Unrecognized                        // something passed, no category matched
    | Recognized(info: DetectedObjectInfo)

  /** The outcome for the observations that passed the threshold. */
  function Resolve(top: seq<Observation>): Classification
  {
    if top == [] then NoQualifying
    else
      match IdentifyObject(Identifiers(top))
      case None => Unrecognized
      case Some(info) => Recognized(info)
  }

  /** Filter, lower-case and resolve one batch of observations. */
  function Classify(observations: seq<Observation>): (r: Classification)
    ensures r.NoQualifying? <==> forall o :: o in observations ==> o.confidence <= ConfidenceThreshold
  {
    var top := TopObservations(observations);
    assert top != [] ==> top[0] in top;
    Resolve(top)
  }

  lemma {:induction false} TopObservationsAppend(front: seq<Observation>, back: seq<Observation>)
    ensures TopObservations(front + back) == TopObservations(front) + TopObservations(back)
  {
    if front == [] {
      assert front + back == back;
    } else {
      assert (front + back)[1..] == front[1..] + back;
      TopObservationsAppend(front[1..], back);
    }
  }

  /** An observation at or below the threshold never influences the outcome, whatever its label. */
  lemma LowConfidenceIgnored(front: seq<Observation>, o: Observation, back: seq<Observation>)
    requires o.confidence <= ConfidenceThreshold
    ensures Classify(front + [o] + back) == Classify(front + back)
  {
    var top := TopObservations(front + [o] + back);
    TopObservationsAppend(front + [o], back);
    TopObservationsAppend(front, [o]);
    TopObservationsAppend(front, back);
    assert TopObservations([o]) == [] by {
      assert [o][1..] == [];
    }
    assert TopObservations(front) + [] == TopObservations(front);
    assert top == TopObservations(front + back);
  }

  /** Two batches with the same confidences and the same identifiers up to letter case. */
  ghost predicate SameUpToCase(a: seq<Observation>, b: seq<Observation>)
  {
    |a| == |b| &&
    forall i :: 0 <= i < |a| ==>
      a[i].confidence == b[i].confidence && Lower(a[i].identifier) == Lower(b[i].identifier)
  }

  lemma {:induction false} TopObservationsUpToCase(a: seq<Observation>, b: seq<Observation>)
    requires SameUpToCase(a, b)
    ensures SameUpToCase(TopObservations(a), TopObservations(b))
  {
    if a != [] {
      assert SameUpToCase(a[1..], b[1..]);
      TopObservationsUpToCase(a[1..], b[1..]);
      if a[0].confidence > ConfidenceThreshold {
        SameUpToCasePrepend(a[0], b[0], TopObservations(a[1..]), TopObservations(b[1..]));
      }
    }
  }

  lemma SameUpToCasePrepend(x: Observation, y: Observation, a: seq<Observation>, b: seq<Observation>)
    requires SameUpToCase(a, b)
    requires x.confidence == y.confidence && Lower(x.identifier) == Lower(y.identifier)
    ensures SameUpToCase([x] + a, [y] + b)
  {
    forall i | 1 <= i < |a| + 1
      ensures ([x] + a)[i] == a[i - 1] && ([y] + b)[i] == b[i - 1]
    {
    }
  }

  /** Matching ignores the letter case of the raw identifiers. */
  lemma CaseInsensitive(a: seq<Observation>, b: seq<Observation>)
    requires SameUpToCase(a, b)
    ensures Classify(a) == Classify(b)
  {
    TopObservationsUpToCase(a, b);
    assert Identifiers(TopObservations(a)) == Identifiers(TopObservations(b));
  }

  /** Some observation above the threshold has a lower-cased identifier containing a keyword of `c`. */
  ghost predicate QualifyingMatch(observations: seq<Observation>, c: DetectedObjectInfo)
  {
    exists o, k :: o in observations && o.confidence > ConfidenceThreshold &&
      k in Keywords(c) && Occurs(k, Lower(o.identifier))
  }

  lemma QualifyingMatchIsGroupMatch(observations: seq<Observation>)
    ensures forall c: DetectedObjectInfo ::
      QualifyingMatch(observations, c) <==> GroupMatches(Identifiers(TopObservations(observations)), c)
  {
  }

  /**
   * End to end: a batch is recognised as `c` exactly when some observation
   * above the threshold names `c`'s group and none names an earlier group.
   */
  lemma ClassifyRecognized(observations: seq<Observation>, c: DetectedObjectInfo)
    ensures Classify(observations) == Recognized(c) <==>
      QualifyingMatch(observations, c) &&
      forall d: DetectedObjectInfo :: d.Index() < c.Index() ==> !QualifyingMatch(observations, d)
  {
    QualifyingMatchIsGroupMatch(observations);
    IdentifyObjectIsFirstMatch(Identifiers(TopObservations(observations)), c);
  }

  /** A batch takes the unrecognised path exactly when something passes the threshold but matches no group. */
  lemma ClassifyUnrecognized(observations: seq<Observation>)
    ensures Classify(observations) == Unrecognized <==>
      (exists o :: o in observations && o.confidence > ConfidenceThreshold) &&
      forall c: DetectedObjectInfo :: !QualifyingMatch(observations, c)
  {
    QualifyingMatchIsGroupMatch(observations);
    IdentifyObjectNone(Identifiers(TopObservations(observations)));
  }

  /** The publish waiting in `detectionDebouncer`: the category and the time it is delivered. */
  datatype PendingPublish = PendingPublish(info: DetectedObjectInfo, due: int)

  /** The four fields of `ARViewModel` that the pipeline reads and writes. */
  datatype ViewState = ViewState(
    detectedObject: Option<DetectedObjectInfo>,
    isDetecting: bool,
    lastDetectionTime: int,
    detectionDebouncer: Option<PendingPublish>)

  /** The serialised events that reach the view model. */
  datatype Event =
    | FrameClassified(observations: seq<Observation>, time: int)  // `processClassifications`
    | TimerFired(time: int)                                         // the run loop reaches `time`
    | ObjectSelected(info: DetectedObjectInfo)                      // `selectObject`
    | DetectionStarted                                              // `startDetection`
    | DetectionStopped                                              // `stopDetection`

  /** State of a view model created at `now`. */
  function Initial(now: int): (s: ViewState)
    ensures s.detectedObject == None && !s.isDetecting && s.detectionDebouncer == None
    ensures s.lastDetectionTime == now
    ensures DebounceInvariant(s)
  {
    ViewState(None, false, now, None)
  }

  /** Effect of one event on the view model. */
  function Step(s: ViewState, e: Event): (r: ViewState)
    ensures DebounceInvariant(s) ==> DebounceInvariant(r)
    ensures r.lastDetectionTime != s.lastDetectionTime ==> e.FrameClassified? && r.lastDetectionTime == e.time
    ensures r.isDetecting != s.isDetecting ==> e.DetectionStarted? || e.DetectionStopped?
    ensures r.detectedObject != s.detectedObject ==>
      (e.FrameClassified? && r.detectedObject == None) ||
      (e.TimerFired? && s.detectionDebouncer.Some? && r.detectedObject == Some(s.detectionDebouncer.value.info)) ||
      (e.ObjectSelected? && r.detectedObject == Some(e.info))
  {
    match e
    case FrameClassified(observations, now) =>
      (match Classify(observations)
       case NoQualifying =>
         if now - s.lastDetectionTime > DecayTimeout then s.(detectedObject := None) else s
       case Unrecognized => s
       case Recognized(info) =>
         s.(lastDetectionTime := now, detectionDebouncer := Some(PendingPublish(info, now + DebounceDelay))))
    case TimerFired(now) =>
      if s.detectionDebouncer.Some? && s.detectionDebouncer.value.due <= now then
        s.(detectedObject := Some(s.detectionDebouncer.value.info), detectionDebouncer := None)
      else s
    case ObjectSelected(info) => s.(detectedObject := Some(info))
    case DetectionStarted => s.(isDetecting := true)
    case DetectionStopped => s.(isDetecting := false)
  }

  /** Effect of a sequence of events, applied in order. */
  function Run(s: ViewState, events: seq<Event>): ViewState
    decreases |events|
  {
    if events == [] then s else Run(Step(s, events[0]), events[1..])
  }

  /**
   * An event that leaves a publish due at `due` pending: anything except a
   * recognised batch or a timer at or after `due`.
   */
  predicate Quiet(e: Event, due: int)
  {
    match e
    case FrameClassified(observations, _) => !Classify(observations).Recognized?
    case TimerFired(now) => now < due
    case _ => true
  }

  /** A quiet event keeps the pending publish and the last recognition time, and publishes nothing. */
  lemma QuietStep(s: ViewState, e: Event)
    requires s.detectionDebouncer.Some? && Quiet(e, s.detectionDebouncer.value.due)
    ensures Step(s, e).detectionDebouncer == s.detectionDebouncer
    ensures Step(s, e).lastDetectionTime == s.lastDetectionTime
    ensures Step(s, e).detectedObject == s.detectedObject || Step(s, e).detectedObject == None ||
      (e.ObjectSelected? && Step(s, e).detectedObject == Some(e.info))
  {
  }

  lemma {:induction false} QuietKeepsPending(s: ViewState, events: seq<Event>)
    requires s.detectionDebouncer.Some?
    requires forall i :: 0 <= i < |events| ==> Quiet(events[i], s.detectionDebouncer.value.due)
    ensures Run(s, events).detectionDebouncer == s.detectionDebouncer
    ensures Run(s, events).lastDetectionTime == s.lastDetectionTime
    decreases |events|
  {
    if events != [] {
      QuietStep(s, events[0]);
      QuietKeepsPending(Step(s, events[0]), events[1..]);
    }
  }

  /**
   * Debounce coalescing: after a recognition of `c1` at `t1`, the publish of
   * `c1` stays pending, and nothing in between publishes it, through any
   * events that are not recognitions, as long as no timer reaches `t2`.
   * A second recognition of `c2` at `t2 < t1 + 300` then replaces it, so
   * `c1` is never written to `detectedObject`.
   */
  lemma DebounceCoalesces(s: ViewState, first: seq<Observation>, t1: int, between: seq<Event>,
                          second: seq<Observation>, t2: int, c1: DetectedObjectInfo, c2: DetectedObjectInfo)
    requires Classify(first) == Recognized(c1) && Classify(second) == Recognized(c2)
    requires t2 < t1 + DebounceDelay
    requires forall i :: 0 <= i < |between| ==>
      !(between[i].FrameClassified? && Classify(between[i].observations).Recognized?)
    requires forall i :: 0 <= i < |between| ==> between[i].TimerFired? ==> between[i].time <= t2
    ensures forall k :: 0 <= k <= |between| ==>
      Run(Step(s, FrameClassified(first, t1)), between[..k]).detectionDebouncer ==
        Some(PendingPublish(c1, t1 + DebounceDelay))
    ensures forall k :: 0 <= k < |between| ==>
      var after := Run(Step(s, FrameClassified(first, t1)), between[..k + 1]).detectedObject;
      after == Run(Step(s, FrameClassified(first, t1)), between[..k]).detectedObject || after == None ||
      (between[k].ObjectSelected? && after == Some(between[k].info))
    ensures Run(Step(s, FrameClassified(first, t1)), between + [FrameClassified(second, t2)]).detectionDebouncer ==
      Some(PendingPublish(c2, t2 + DebounceDelay))
    ensures Run(Step(s, FrameClassified(first, t1)), between + [FrameClassified(second, t2)]).lastDetectionTime == t2
  {
    var s1 := Step(s, FrameClassified(first, t1));
    RecognizedStep(s, first, t1, c1);
    assert forall i :: 0 <= i < |between| ==> Quiet(between[i], t1 + DebounceDelay);
    QuietPrefixes(s1, between);
    RunLast(s1, between, FrameClassified(second, t2));
    RecognizedStep(Run(s1, between), second, t2, c2);
  }

  /** Every prefix of a run of quiet events keeps the pending publish, and no step of it publishes. */
  lemma QuietPrefixes(s: ViewState, events: seq<Event>)
    requires s.detectionDebouncer.Some?
    requires forall i :: 0 <= i < |events| ==> Quiet(events[i], s.detectionDebouncer.value.due)
    ensures forall k :: 0 <= k <= |events| ==> Run(s, events[..k]).detectionDebouncer == s.detectionDebouncer
    ensures forall k :: 0 <= k < |events| ==>
      var after := Run(s, events[..k + 1]).detectedObject;
      after == Run(s, events[..k]).detectedObject || after == None ||
      (events[k].ObjectSelected? && after == Some(events[k].info))
  {
    forall k | 0 <= k <= |events| ensures Run(s, events[..k]).detectionDebouncer == s.detectionDebouncer {
      QuietKeepsPending(s, events[..k]);
    }
    forall k | 0 <= k < |events|
      ensures var after := Run(s, events[..k + 1]).detectedObject;
        after == Run(s, events[..k]).detectedObject || after == None ||
        (events[k].ObjectSelected? && after == Some(events[k].info))
    {
      assert events[..k + 1] == events[..k] + [events[k]];
      RunLast(s, events[..k], events[k]);
      QuietKeepsPending(s, events[..k]);
      QuietStep(Run(s, events[..k]), events[k]);
    }
  }

  /** A recognised batch stamps the time and replaces the pending publish, nothing else. */
  lemma RecognizedStep(s: ViewState, observations: seq<Observation>, now: int, c: DetectedObjectInfo)
    requires Classify(observations) == Recognized(c)
    ensures Step(s, FrameClassified(observations, now)) ==
      s.(lastDetectionTime := now, detectionDebouncer := Some(PendingPublish(c, now + DebounceDelay)))
  {
  }

  lemma RunLast(s: ViewState, events: seq<Event>, e: Event)
    ensures Run(s, events + [e]) == Step(Run(s, events), e)
  {
    RunAppend(s, events, [e]);
    RunSingle(Run(s, events), e);
  }

  lemma RunSingle(s: ViewState, e: Event)
    ensures Run(s, [e]) == Step(s, e)
  {
    assert [e][1..] == [];
  }

  lemma {:induction false} RunAppend(s: ViewState, front: seq<Event>, back: seq<Event>)
    ensures Run(s, front + back) == Run(Run(s, front), back)
    decreases |front|
  {
    if front == [] {
      assert front + back == back;
    } else {
      assert (front + back)[1..] == front[1..] + back;
      RunAppend(Step(s, front[0]), front[1..], back);
    }
  }

  /** A pending publish is always due 300 ms after the last recognition. */
  ghost predicate DebounceInvariant(s: ViewState)
  {
    s.detectionDebouncer.Some? ==> s.detectionDebouncer.value.due == s.lastDetectionTime + DebounceDelay
  }

  /** Every event sequence keeps the debounce invariant, so it holds of every reachable state. */
  lemma {:induction false} RunKeepsDebounceInvariant(s: ViewState, events: seq<Event>)
    requires DebounceInvariant(s)
    ensures DebounceInvariant(Run(s, events))
    decreases |events|
  {
    if events != [] {
      assert DebounceInvariant(Step(s, events[0]));
      RunKeepsDebounceInvariant(Step(s, events[0]), events[1..]);
    }
  }

  /**
   * In a reachable state the decay path clears a detection only after any
   * pending publish is already due: 1.5 s of silence is longer than the
   * 300 ms debounce.
   */
  lemma DecayOnlyAfterDue(now: int, events: seq<Event>, observations: seq<Observation>, created: int)
    requires Classify(observations) == NoQualifying
    requires now - Run(Initial(created), events).lastDetectionTime > DecayTimeout
    ensures Run(Initial(created), events).detectionDebouncer.Some? ==>
      Run(Initial(created), events).detectionDebouncer.value.due < now
    ensures Step(Run(Initial(created), events), FrameClassified(observations, now)).detectedObject == None
  {
    RunKeepsDebounceInvariant(Initial(created), events);
  }

  /** A timer at or after the due time delivers the pending category, once. */
  lemma TimerDeliversOnce(s: ViewState, now: int, later: int)
    requires s.detectionDebouncer.Some? && s.detectionDebouncer.value.due <= now
    ensures Step(s, TimerFired(now)).detectedObject == Some(s.detectionDebouncer.value.info)
    ensures Step(s, TimerFired(now)).detectionDebouncer == None
    ensures Step(Step(s, TimerFired(now)), TimerFired(later)) == Step(s, TimerFired(now))
  {
  }

  /**
   * A manual selection does not restart the decay clock: the next batch with
   * nothing above the threshold, more than 1.5 s after the last recognition,
   * clears it at once.
   */
  lemma SelectionClearedByDecay(s: ViewState, info: DetectedObjectInfo, observations: seq<Observation>, now: int)
    requires Classify(observations) == NoQualifying
    requires now - s.lastDetectionTime > DecayTimeout
    ensures Step(s, ObjectSelected(info)).detectedObject == Some(info)
    ensures Step(Step(s, ObjectSelected(info)), FrameClassified(observations, now)).detectedObject == None
  {
  }

  /**
   * A manual selection does not cancel a pending publish: when that publish
   * comes due, it overwrites the selection.
   */
  lemma SelectionOverwrittenByPendingPublish(s: ViewState, selected: DetectedObjectInfo, now: int)
    requires s.detectionDebouncer.Some? && s.detectionDebouncer.value.due <= now
    ensures Step(s, ObjectSelected(selected)).detectedObject == Some(selected)
    ensures Step(Step(s, ObjectSelected(selected)), TimerFired(now)).detectedObject ==
      Some(s.detectionDebouncer.value.info)
  {
  }

  /**
   * Decay does not cancel an overdue pending publish: the batch clears the
   * detection, and the next timer writes the pending category back.
   */
  lemma DecayThenOverdueTimerRepublishes(s: ViewState, observations: seq<Observation>, now: int, later: int)
    requires Classify(observations) == NoQualifying
    requires now - s.lastDetectionTime > DecayTimeout
    requires s.detectionDebouncer.Some? && s.detectionDebouncer.value.due <= later
    ensures Step(s, FrameClassified(observations, now)).detectedObject == None
    ensures Step(Step(s, FrameClassified(observations, now)), TimerFired(later)).detectedObject ==
      Some(s.detectionDebouncer.value.info)
  {
  }

  /** `ARViewModel`: the published detection, the scanning flag and the debounce state. */
  class ARViewModel {
    var detectedObject: Option<DetectedObjectInfo>
    var isDetecting: bool
    var lastDetectionTime: int
    var detectionDebouncer: Option<PendingPublish>

    function State(): ViewState
      reads this
    {
      ViewState(detectedObject, isDetecting, lastDetectionTime, detectionDebouncer)
    }

    /** Object invariant: a pending publish is due 300 ms after the last recognition. */
    ghost predicate Valid()
      reads this
    {
      DebounceInvariant(State())
    }

    /** `init()`; `lastDetectionTime` starts at the creation time. */
    constructor (now: int)
      ensures detectedObject == None && !isDetecting
      ensures lastDetectionTime == now && detectionDebouncer == None
      ensures State() == Initial(now)
      ensures Valid()
    {
      detectedObject := None;
      isDetecting := false;
      lastDetectionTime := now;
      detectionDebouncer := None;
    }

    method StartDetection()
      requires Valid()
      modifies this`isDetecting
      ensures Valid()
      ensures isDetecting
      ensures State() == Step(old(State()), DetectionStarted)
    {
      isDetecting := true;
    }

    method StopDetection()
      requires Valid()
      modifies this`isDetecting
      ensures Valid()
      ensures !isDetecting
      ensures State() == Step(old(State()), DetectionStopped)
    {
      isDetecting := false;
    }

    /** Manual override: shows `info` at once, leaving the timers alone. */
    method SelectObject(info: DetectedObjectInfo)
      requires Valid()
      modifies this`detectedObject
      ensures Valid()
      ensures detectedObject == Some(info)
      ensures State() == Step(old(State()), ObjectSelected(info))
    {
      detectedObject := Some(info);
    }

    /** `processClassifications` for a batch delivered at `now`. */
    method ProcessClassifications(observations: seq<Observation>, now: int)
      requires Valid()
      modifies this`detectedObject, this`lastDetectionTime, this`detectionDebouncer
      ensures Valid()
      ensures Classify(observations).NoQualifying? ==>
        detectedObject == (if now - old(lastDetectionTime) > DecayTimeout then None else old(detectedObject)) &&
        lastDetectionTime == old(lastDetectionTime) && detectionDebouncer == old(detectionDebouncer)
      ensures Classify(observations).Unrecognized? ==> State() == old(State())
      ensures Classify(observations).Recognized? ==>
        detectedObject == old(detectedObject) && lastDetectionTime == now &&
        detectionDebouncer == Some(PendingPublish(Classify(observations).info, now + DebounceDelay))
      ensures State() == Step(old(State()), FrameClassified(observations, now))
      ensures (Classify(observations).NoQualifying? && now - old(lastDetectionTime) > DecayTimeout &&
               old(detectionDebouncer).Some?) ==> old(detectionDebouncer).value.due < now
    {
      var top := TopObservations(observations);
      if top == [] {
        if now - lastDetectionTime > DecayTimeout {
          detectedObject := None;
        }
        return;
      }
      var objectInfo := IdentifyObject(Identifiers(top));
      if objectInfo.None? {
        return;
      }
      lastDetectionTime := now;
      detectionDebouncer := Some(PendingPublish(objectInfo.value, now + DebounceDelay));
    }

    /** The run loop reaches `now`: a pending publish that is due is written to `detectedObject`. */
    method Tick(now: int)
      requires Valid()
      modifies this`detectedObject, this`detectionDebouncer
      ensures Valid()
      ensures old(detectionDebouncer).Some? && old(detectionDebouncer).value.due <= now ==>
        detectedObject == Some(old(detectionDebouncer).value.info) && detectionDebouncer == None
      ensures !(old(detectionDebouncer).Some? && old(detectionDebouncer).value.due <= now) ==>
        detectedObject == old(detectedObject) && detectionDebouncer == old(detectionDebouncer)
      ensures State() == Step(old(State()), TimerFired(now))
    {
      match detectionDebouncer {
        case Some(pending) =>
          if pending.due <= now {
            detectedObject := Some(pending.info);
            detectionDebouncer := None;
          }
        case None =>
      }
    }
  }
}
