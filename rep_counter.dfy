/** The rep-counting state machine of the GymBuddy page.

    The counter state is the page's three globals: the number of reps, the
    "Down seen" latch and the time of the last counted rep. A "Down"
    classification sets the latch; an "Up" classification counts a rep only
    when the latch is set and strictly more than 600 ms have passed since the
    last counted rep, and counting clears the latch and records the time.
    Reset zeroes the count and the latch but keeps the time of the last rep.
 */
module RepCounting {
  import opened PoseClassifier

  /** Debounce window between two counted reps, in milliseconds. */
  const MinRepInterval: int := 600

  /** The counter state: `repCount`, `downDetected`, `lastRepTime`. */
  datatype State = State(repCount: nat, downDetected: bool, lastRepTime: int)

  /** The state when the page loads. */
  const Initial: State := State(0, false, 0)

  /** The status line `handleReps` writes. */
  datatype Status = DetectedDown | RepCounted | DetectedUp | Detected(poseClass: string)

  /** The text the status line shows. */
  function StatusText(st: Status): string
  {
    match st
    case DetectedDown => "Detected: Down"
    case RepCounted => "Rep counted!"
    case DetectedUp => "Detected: Up"
    case Detected(name) => "Detected: " + name
  }

  /** The outcome of one call of `handleReps`. */
  datatype Transition = Transition(next: State, status: Status)

  /** The confidence threshold set by the slider, a percentage. */
  function Threshold(slider: int): real
  {
    slider as real / 100.0
  }

  /** What one frame did. */
  datatype FrameOutcome =
    | Skipped
    | Ignored(predictedClass: string, highestProb: real)
    | Handled(predictedClass: string, highestProb: real, status: Status)

  /** The debounce guard: an "Up" while latched, more than 600 ms after the last rep. */
  predicate RepGuard(s: State, poseClass: string, now: int)
  {
    poseClass == "Up" && s.downDetected && now - s.lastRepTime > MinRepInterval
  }

  /** One call of `handleReps(poseClass)` at clock reading `now`. */
  function Step(s: State, poseClass: string, now: int): (t: Transition)
    // a rep is counted exactly when the guard holds, and at most one per call
    ensures t.next.repCount == s.repCount + 1 <==> RepGuard(s, poseClass, now)
    ensures t.next.repCount == s.repCount || t.next.repCount == s.repCount + 1
    // a counted rep clears the latch and records the time
    ensures RepGuard(s, poseClass, now) ==>
      !t.next.downDetected && t.next.lastRepTime == now && t.status == RepCounted
    // "Down" only sets the latch
    ensures poseClass == "Down" ==>
      t.next == s.(downDetected := true) && t.status == DetectedDown
    // an "Up" that fails the guard, or any other label, changes no counter state
    ensures !RepGuard(s, poseClass, now) && poseClass != "Down" ==> t.next == s
    ensures poseClass == "Up" && !RepGuard(s, poseClass, now) ==> t.status == DetectedUp
    ensures poseClass != "Up" && poseClass != "Down" ==> t.status == Detected(poseClass)
    // the status line reads "Rep counted!" or "Detected: <label>"
    ensures StatusText(t.status) ==
      if RepGuard(s, poseClass, now) then "Rep counted!" else "Detected: " + poseClass
  {
    if poseClass == "Down" then
      assert "Detected: " + poseClass == "Detected: Down";
      Transition(s.(downDetected := true), DetectedDown)
    else if poseClass == "Up" then
      assert "Detected: " + poseClass == "Detected: Up";
      if s.downDetected && now - s.lastRepTime > MinRepInterval then
        Transition(State(s.repCount + 1, false, now), RepCounted)
      else
        Transition(s, DetectedUp)
    else
      Transition(s, Detected(poseClass))
  }

  /** The reset button's handler. */
  function ResetState(s: State): (r: State)
    ensures r.repCount == 0 && !r.downDetected
    ensures r.lastRepTime == s.lastRepTime
  {
    s.(repCount := 0, downDetected := false)
  }

  /** A classification that passed the threshold, with the clock reading at which it was handled. */
  datatype PoseEvent = PoseEvent(poseClass: string, now: int)

  /** The counter state after handling a sequence of accepted classifications in order. */
  function Run(s: State, events: seq<PoseEvent>): State
    decreases |events|
  {
    if events == [] then s
    else Run(Step(s, events[0].poseClass, events[0].now).next, events[1..])
  }

  /** The number of "Down" classifications in a sequence. */
  function CountDowns(events: seq<PoseEvent>): nat
    decreases |events|
  {
    if events == [] then 0
    else (if events[0].poseClass == "Down" then 1 else 0) + CountDowns(events[1..])
  }

  /** The latch counted as one pending "Down" when set. */
  function LatchValue(b: bool): nat { if b then 1 else 0 }

  /** The count never decreases and grows by at most one per classification. */
  lemma {:induction false} RunCountMonotone(s: State, events: seq<PoseEvent>)
    ensures s.repCount <= Run(s, events).repCount <= s.repCount + |events|
    decreases |events|
  {
    if events != [] {
      RunCountMonotone(Step(s, events[0].poseClass, events[0].now).next, events[1..]);
    }
  }

  /** Every counted rep consumes a "Down": the reps counted, plus one if the
      latch is still set at the end, never exceed the "Down" classifications
      seen, plus one if the latch was set at the start. */
  lemma {:induction false} RunRepsNeedDowns(s: State, events: seq<PoseEvent>)
    ensures Run(s, events).repCount - s.repCount + LatchValue(Run(s, events).downDetected)
      <= CountDowns(events) + LatchValue(s.downDetected)
    decreases |events|
  {
    if events != [] {
      RunRepsNeedDowns(Step(s, events[0].poseClass, events[0].now).next, events[1..]);
    }
  }

  /** Without any "Down" and starting unlatched, no rep is ever counted. */
  lemma NoDownNoRep(s: State, events: seq<PoseEvent>)
    requires !s.downDetected && CountDowns(events) == 0
    ensures Run(s, events).repCount == s.repCount
  {
    RunRepsNeedDowns(s, events);
    RunCountMonotone(s, events);
  }

  /** Debounce: each counted rep moves the time of the last rep forward by
      more than 600 ms, so n reps span at least n * 601 ms of clock readings. */
  lemma {:induction false} RunDebounce(s: State, events: seq<PoseEvent>)
    ensures Run(s, events).repCount >= s.repCount
    ensures Run(s, events).lastRepTime - s.lastRepTime
      >= (MinRepInterval + 1) * (Run(s, events).repCount - s.repCount)
    decreases |events|
  {
    if events != [] {
      RunDebounce(Step(s, events[0].poseClass, events[0].now).next, events[1..]);
    }
  }

  /** Repeated "Down" classifications while latched change nothing further. */
  lemma DownIdempotent(s: State, t1: int, t2: int)
    ensures Step(Step(s, "Down", t1).next, "Down", t2).next == Step(s, "Down", t1).next
  {
  }

  /** A rep is counted for a "Down" followed by an "Up" more than 600 ms
      after the last rep, whatever the state before. */
  lemma DownThenUpCounts(s: State, t1: int, t2: int)
    requires t2 - s.lastRepTime > MinRepInterval
    ensures Run(s, [PoseEvent("Down", t1), PoseEvent("Up", t2)]) == State(s.repCount + 1, false, t2)
  {
    var e := [PoseEvent("Down", t1), PoseEvent("Up", t2)];
    var latched := Step(s, "Down", t1).next;
    assert e[1..] == [PoseEvent("Up", t2)];
    assert Run(s, e) == Run(latched, [PoseEvent("Up", t2)]);
    assert Run(latched, [PoseEvent("Up", t2)]) == Step(latched, "Up", t2).next;
  }

  /** The debounce window survives a reset: a "Down" then "Up" within 600 ms
      of the last rep counted before the reset counts nothing. */
  lemma ResetKeepsDebounceWindow(s: State, t1: int, t2: int)
    requires t2 - s.lastRepTime <= MinRepInterval
    ensures Run(ResetState(s), [PoseEvent("Down", t1), PoseEvent("Up", t2)]).repCount == 0
    ensures Run(ResetState(s), [PoseEvent("Down", t1), PoseEvent("Up", t2)]).downDetected
  {
    var e := [PoseEvent("Down", t1), PoseEvent("Up", t2)];
    var latched := Step(ResetState(s), "Down", t1).next;
    assert e[1..] == [PoseEvent("Up", t2)];
    assert Run(ResetState(s), e) == Run(latched, [PoseEvent("Up", t2)]);
    assert Run(latched, [PoseEvent("Up", t2)]) == Step(latched, "Up", t2).next;
  }

  /** The page's globals and the handlers that update them. */
  class RepCounter {
    var repCount: nat
    var downDetected: bool
    var lastRepTime: int

    function Snapshot(): State
      reads this
    {
      State(repCount, downDetected, lastRepTime)
    }

    constructor ()
      ensures Snapshot() == Initial
    {
      repCount := 0;
      downDetected := false;
      lastRepTime := 0;
    }

    /** `handleReps(poseClass)`; `now` is the clock reading it takes. */
    method HandleReps(poseClass: string, now: int) returns (status: Status)
      modifies this
      ensures Snapshot() == Step(old(Snapshot()), poseClass, now).next
      ensures status == Step(old(Snapshot()), poseClass, now).status
    {
      if poseClass == "Down" {
        downDetected := true;
        status := DetectedDown;
      } else if poseClass == "Up" {
        if downDetected && now - lastRepTime > MinRepInterval {
          repCount := repCount + 1;
          lastRepTime := now;
          downDetected := false;
          status := RepCounted;
        } else {
          status := DetectedUp;
        }
      } else {
        status := Detected(poseClass);
      }
    }

    /** The reset button: zero the count and the latch. */
    method Reset()
      modifies this
      ensures Snapshot() == ResetState(old(Snapshot()))
    {
      repCount := 0;
      downDetected := false;
    }

    /** One frame of `predict` once the classifier has answered: pick the top
        class and hand it to HandleReps when its probability reaches
        slider/100. `labelSlots` is the number of per-class display rows made
        at start; a longer output list fails the frame before any state changes. */
    method Predict(prediction: seq<Prediction>, slider: int, labelSlots: nat, now: int)
      returns (outcome: FrameOutcome)
      modifies this
      ensures outcome.Skipped? <==> |prediction| > labelSlots
      ensures outcome.Skipped? ==> Snapshot() == old(Snapshot())
      ensures !outcome.Skipped? ==>
        IsTopClass(prediction, outcome.predictedClass, outcome.highestProb)
      ensures outcome.Ignored? ==>
        outcome.highestProb < Threshold(slider) && Snapshot() == old(Snapshot())
      ensures outcome.Handled? ==>
        outcome.highestProb >= Threshold(slider) &&
        Snapshot() == Step(old(Snapshot()), outcome.predictedClass, now).next &&
        outcome.status == Step(old(Snapshot()), outcome.predictedClass, now).status
    {
      if |prediction| > labelSlots {
        return Skipped;
      }
      var predictedClass, highestProb := SelectTopClass(prediction);
      var threshold := Threshold(slider);
      if highestProb >= threshold {
        var status := HandleReps(predictedClass, now);
        outcome := Handled(predictedClass, highestProb, status);
      } else {
        outcome := Ignored(predictedClass, highestProb);
      }
    }
  }
}
