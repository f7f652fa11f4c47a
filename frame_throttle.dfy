/**
 * The frame rate limiter of the AR session coordinator: a frame is let
 * through when at least 100 ms have passed since the last frame that was let
 * through, and is handed to the classifier only while scanning is on.
 */
module FrameThrottle {
  import Detection

  /** `processingInterval`, 0.1 s. */
  const ProcessingInterval: int := 100

  /** A frame arriving at `time` while the view model's `isDetecting` is `detecting`. */
  datatype Arrival = Arrival(time: int, detecting: bool)

  /** The guard of `session(_:didUpdate:)`. */
  predicate PassesGate(lastProcessedTime: int, now: int)
  {
    now - lastProcessedTime >= ProcessingInterval
  }

  /** `lastProcessedTime` after the given arrivals, for a coordinator created at `created`. */
  function LastProcessed(created: int, arrivals: seq<Arrival>): int
    decreases |arrivals|
  {
    if arrivals == [] then created
    else
      var before := LastProcessed(created, arrivals[..|arrivals| - 1]);
      var now := arrivals[|arrivals| - 1].time;
      if PassesGate(before, now) then now else before
  }

  /** The arrival times of the frames handed to `processFrame`, in order. */
  function Forwarded(created: int, arrivals: seq<Arrival>): seq<int>
    decreases |arrivals|
  {
    if arrivals == [] then []
    else
      var prefix := arrivals[..|arrivals| - 1];
      var a := arrivals[|arrivals| - 1];
      if PassesGate(LastProcessed(created, prefix), a.time) && a.detecting then Forwarded(created, prefix) + [a.time]
      else Forwarded(created, prefix)
  }

  /**
   * Whatever the arrival times, `lastProcessedTime` only moves forward,
   * every forwarded frame comes at least 100 ms after the coordinator was
   * created, and any two forwarded frames are at least 100 ms apart.
   */
  lemma {:induction false} ForwardedSpaced(created: int, arrivals: seq<Arrival>)
    ensures created <= LastProcessed(created, arrivals)
    ensures forall i :: 0 <= i < |Forwarded(created, arrivals)| ==>
      created + ProcessingInterval <= Forwarded(created, arrivals)[i] <= LastProcessed(created, arrivals)
    ensures forall i, j :: 0 <= i < j < |Forwarded(created, arrivals)| ==>
      Forwarded(created, arrivals)[i] + ProcessingInterval <= Forwarded(created, arrivals)[j]
    decreases |arrivals|
  {
    if arrivals != [] {
      ForwardedSpaced(created, arrivals[..|arrivals| - 1]);
    }
  }

  /**
   * A frame arriving less than 100 ms after creation fails the gate whatever
   * came before it, leaves `lastProcessedTime` as it was, and is never
   * forwarded.
   */
  lemma EarlyFrameRejected(created: int, arrivals: seq<Arrival>, t: int, detecting: bool)
    requires t < created + ProcessingInterval
    ensures !PassesGate(LastProcessed(created, arrivals), t)
    ensures LastProcessed(created, arrivals + [Arrival(t, detecting)]) == LastProcessed(created, arrivals)
    ensures t !in Forwarded(created, arrivals + [Arrival(t, detecting)])
  {
    ForwardedSpaced(created, arrivals);
    ForwardedSpaced(created, arrivals + [Arrival(t, detecting)]);
    assert (arrivals + [Arrival(t, detecting)])[..|arrivals|] == arrivals;
  }

  /** `ARViewContainer.Coordinator`, as far as the throttle goes. */
  class Coordinator {
    var viewModel: Detection.ARViewModel
    var lastProcessedTime: int
    /** Creation time and every arrival so far; they give the coordinator's history. */
    ghost var createdAt: int
    ghost var arrivals: seq<Arrival>

    ghost predicate Valid()
      reads this
    {
      lastProcessedTime == LastProcessed(createdAt, arrivals)
    }

    /** The arrival times of every frame forwarded so far. */
    ghost function ForwardedFrames(): seq<int>
      reads this
    {
      Forwarded(createdAt, arrivals)
    }

    /** `init(viewModel:)`; `lastProcessedTime` starts at the creation time. */
    constructor (viewModel: Detection.ARViewModel, now: int)
      ensures Valid()
      ensures this.viewModel == viewModel && lastProcessedTime == now
      ensures createdAt == now && arrivals == [] && ForwardedFrames() == []
    {
      this.viewModel := viewModel;
      lastProcessedTime := now;
      createdAt := now;
      arrivals := [];
    }

    /**
     * `session(_:didUpdate:)` for a frame arriving at `now`; the result says
     * whether the frame is handed to `processFrame`.
     */
    method SessionDidUpdate(now: int) returns (forwarded: bool)
      requires Valid()
      modifies this`lastProcessedTime, this`arrivals
      ensures Valid()
      ensures forwarded <==> PassesGate(old(lastProcessedTime), now) && viewModel.isDetecting
      ensures lastProcessedTime == if PassesGate(old(lastProcessedTime), now) then now else old(lastProcessedTime)
      ensures arrivals == old(arrivals) + [Arrival(now, viewModel.isDetecting)]
      ensures ForwardedFrames() == if forwarded then old(ForwardedFrames()) + [now] else old(ForwardedFrames())
    {
      arrivals := arrivals + [Arrival(now, viewModel.isDetecting)];
      assert arrivals[..|arrivals| - 1] == old(arrivals);
      if now - lastProcessedTime < ProcessingInterval {
        return false;
      }
      lastProcessedTime := now;
      if !viewModel.isDetecting {
        return false;
      }
      forwarded := true;
    }
  }

  /**
   * A frame 60 ms after creation is rejected, one at 120 ms is forwarded, and
   * one 50 ms later is rejected.
   */
  lemma ThrottleExample()
    ensures Forwarded(0, [Arrival(60, true), Arrival(120, true), Arrival(170, true)]) == [120]
  {
    var one, two := [Arrival(60, true)], [Arrival(60, true), Arrival(120, true)];
    var three := two + [Arrival(170, true)];
    assert one[..0] == [] && two[..1] == one && three[..2] == two;
    assert LastProcessed(0, one) == 0 && Forwarded(0, one) == [];
    assert LastProcessed(0, two) == 120 && Forwarded(0, two) == [120];
    assert Forwarded(0, three) == [120];
  }
}
