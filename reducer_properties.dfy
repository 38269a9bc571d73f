/**
 * What the loop of main.py and main2.py guarantees, proved about Reducer.Step
 * and Reducer.Run.
 */
module ReducerProperties {
  import opened Wrappers
  import opened Gestures
  import opened Reducer

  // ---------------------------------------------------------------- invariant

  lemma InitialInv(n: int)
    requires n >= 1
    ensures Inv(Initial(), n)
  {
  }

  /** Every tick keeps the slide index in range, annotationNumber == len(annotations) - 1 and the debounce bookkeeping. */
  lemma StepPreservesInv(s: State, n: int, hand: Option<Hand>, v: Variant)
    requires Inv(s, n) && HandOk(hand)
    ensures Inv(Step(s, n, hand, v).state, n)
    ensures Step(s, n, hand, v).state.annotationNumber >= -1
  {
  }

  /** Any sequence of ticks, of either entry point, keeps the invariant. */
  lemma {:induction false} RunPreservesInv(s: State, n: int, frames: seq<Frame>)
    requires Inv(s, n) && FramesOk(frames)
    ensures Inv(Run(s, n, frames), n)
    ensures 0 <= Run(s, n, frames).imgNumber < n
    decreases |frames|
  {
    if frames != [] {
      StepPreservesInv(s, n, frames[0].hand, frames[0].variant);
      RunPreservesInv(Step(s, n, frames[0].hand, frames[0].variant).state, n, frames[1..]);
    }
  }

  /** Running one more frame is one more Step. */
  lemma {:induction false} RunSnoc(s: State, n: int, frames: seq<Frame>, f: Frame)
    requires StrokesConsistent(s) && FramesOk(frames) && HandOk(f.hand)
    ensures FramesOk(frames + [f])
    ensures StrokesConsistent(Run(s, n, frames))
    ensures Run(s, n, frames + [f]) == Step(Run(s, n, frames), n, f.hand, f.variant).state
    decreases |frames|
  {
    assert FramesOk(frames + [f]) by {
      forall i | 0 <= i < |frames + [f]| ensures HandOk((frames + [f])[i].hand) {
        if i < |frames| { assert (frames + [f])[i] == frames[i]; }
      }
    }
    if frames == [] {
      assert [f][1..] == [];
    } else {
      var t := Step(s, n, frames[0].hand, frames[0].variant).state;
      assert (frames + [f])[1..] == frames[1..] + [f];
      RunSnoc(t, n, frames[1..], f);
    }
  }

  // --------------------------------------------------------------- navigation

  /** The gate is open and a detected hand is above the threshold line. */
  predicate InZone(s: State, h: Hand) {
    !s.buttonPressed && Detected(h) && h.center.y <= GestureThreshold
  }

  /** The slide changes exactly on a previous pinch away from the first slide or a next pinch away from the last. */
  lemma SlideChangesExactly(s: State, n: int, h: Hand, v: Variant)
    requires Inv(s, n) && Detected(h)
    ensures var r := Step(s, n, Some(h), v).state;
      r.imgNumber != s.imgNumber <==>
        InZone(s, h) &&
        ((Pinch(h.landmarks, ThumbTip, IndexTip) && s.imgNumber > 0) ||
         (!Pinch(h.landmarks, ThumbTip, IndexTip) && Pinch(h.landmarks, ThumbTip, MiddleTip) && s.imgNumber < n - 1))
    ensures var r := Step(s, n, Some(h), v).state;
      r.imgNumber == s.imgNumber - 1 || r.imgNumber == s.imgNumber || r.imgNumber == s.imgNumber + 1
  {
  }

  /** A previous pinch that changes the slide empties the annotations and arms the gate. */
  lemma PreviousPinchResets(s: State, n: int, h: Hand, v: Variant)
    requires Inv(s, n) && InZone(s, h) && h.fingers != ErasePose
    requires Pinch(h.landmarks, ThumbTip, IndexTip) && s.imgNumber > 0
    ensures Step(s, n, Some(h), v) == Outcome(State(s.imgNumber - 1, [[]], 0, false, true, 1), false)
  {
  }

  /** A next pinch that changes the slide empties the annotations and arms the gate. */
  lemma NextPinchResets(s: State, n: int, h: Hand, v: Variant)
    requires Inv(s, n) && InZone(s, h) && h.fingers != ErasePose
    requires !Pinch(h.landmarks, ThumbTip, IndexTip) && Pinch(h.landmarks, ThumbTip, MiddleTip)
    requires s.imgNumber < n - 1
    ensures Step(s, n, Some(h), v) == Outcome(State(s.imgNumber + 1, [[]], 0, false, true, 1), false)
  {
  }

  /**
   * A previous pinch on the first slide changes nothing but annotationStart and
   * does not arm the gate, and since it is tested first it hides a next pinch.
   */
  lemma PreviousPinchAtFirstSlide(s: State, n: int, h: Hand, v: Variant)
    requires Inv(s, n) && InZone(s, h) && h.fingers != ErasePose
    requires Pinch(h.landmarks, ThumbTip, IndexTip) && s.imgNumber == 0
    ensures Step(s, n, Some(h), v) == Outcome(s.(annotationStart := false), false)
  {
  }

  /** A next pinch on the last slide changes nothing but annotationStart and does not arm the gate. */
  lemma NextPinchAtLastSlide(s: State, n: int, h: Hand, v: Variant)
    requires Inv(s, n) && InZone(s, h) && h.fingers != ErasePose
    requires !Pinch(h.landmarks, ThumbTip, IndexTip) && Pinch(h.landmarks, ThumbTip, MiddleTip)
    requires s.imgNumber == n - 1
    ensures Step(s, n, Some(h), v) == Outcome(s.(annotationStart := false), false)
  {
  }

  /** A thumb-index pinch never moves forward and never toggles the spotlight, whatever the other fingertips do. */
  lemma PreviousPinchHasPriority(s: State, n: int, h: Hand, v: Variant)
    requires Inv(s, n) && Detected(h) && Pinch(h.landmarks, ThumbTip, IndexTip)
    ensures Step(s, n, Some(h), v).state.imgNumber <= s.imgNumber
    ensures !Step(s, n, Some(h), v).toggleSpotlight
  {
  }

  /** The erase test runs after a slide change in the same tick: it removes the fresh empty stroke. */
  lemma NavigateThenErase(s: State, n: int, h: Hand, v: Variant)
    requires Inv(s, n) && InZone(s, h) && h.fingers == ErasePose
    requires Pinch(h.landmarks, ThumbTip, IndexTip) && s.imgNumber > 0
    ensures Step(s, n, Some(h), v).state == State(s.imgNumber - 1, [], -1, false, true, 1)
  {
  }

  // ------------------------------------------------------------------ drawing

  /** A tick whose hand makes the DRAW pose below the line, with drawing allowed. */
  predicate DrawFrame(f: Frame) {
    f.hand.Some? && Detected(f.hand.value) &&
    f.hand.value.center.y > GestureThreshold && f.hand.value.fingers == DrawPose &&
    !(f.variant.WithSpotlight? && f.variant.spotlightActive)
  }

  /** The points a run of DRAW frames contributes, in order. */
  function DrawnPoints(frames: seq<Frame>): (ps: seq<Point>)
    requires forall i :: 0 <= i < |frames| ==> DrawFrame(frames[i])
    ensures |ps| == |frames|
  {
    if frames == [] then []
    else
      assert DrawFrame(frames[0]);
      [IndexFinger(frames[0].hand.value)] + DrawnPoints(frames[1..])
  }

  /** DRAW while a stroke is in progress appends one point to the last stroke and leaves the others alone. */
  lemma DrawExtendsStroke(s: State, n: int, f: Frame)
    requires Inv(s, n) && !s.buttonPressed && DrawFrame(f) && s.annotationStart
    ensures var r := Step(s, n, f.hand, f.variant).state;
      var last := |s.annotations| - 1;
      r == s.(annotations := s.annotations[..last] + [s.annotations[last] + [IndexFinger(f.hand.value)]])
  {
  }

  /** DRAW after any non-drawing tick opens exactly one new stroke holding the point. */
  lemma DrawOpensStroke(s: State, n: int, f: Frame)
    requires Inv(s, n) && !s.buttonPressed && DrawFrame(f) && !s.annotationStart
    ensures var r := Step(s, n, f.hand, f.variant).state;
      r == s.(annotations := s.annotations + [[IndexFinger(f.hand.value)]],
              annotationNumber := s.annotationNumber + 1, annotationStart := true)
  {
  }

  /** K consecutive DRAW ticks on a stroke in progress append exactly K points, all to the last stroke. */
  lemma {:induction false} DrawRunExtendsStroke(s: State, n: int, frames: seq<Frame>)
    requires Inv(s, n) && !s.buttonPressed && s.annotationStart
    requires forall i :: 0 <= i < |frames| ==> DrawFrame(frames[i])
    ensures FramesOk(frames)
    ensures var last := |s.annotations| - 1;
      Run(s, n, frames) ==
        s.(annotations := s.annotations[..last] + [s.annotations[last] + DrawnPoints(frames)])
    decreases |frames|
  {
    var last := |s.annotations| - 1;
    assert FramesOk(frames) by {
      forall i | 0 <= i < |frames| ensures HandOk(frames[i].hand) {
        assert DrawFrame(frames[i]);
      }
    }
    if frames == [] {
      assert DrawnPoints(frames) == [];
      assert s.annotations[last] + [] == s.annotations[last];
      assert s.annotations[..last] + [s.annotations[last]] == s.annotations;
    } else {
      assert DrawFrame(frames[0]);
      DrawExtendsStroke(s, n, frames[0]);
      var t := Step(s, n, frames[0].hand, frames[0].variant).state;
      var p := IndexFinger(frames[0].hand.value);
      assert Run(s, n, frames) == Run(t, n, frames[1..]);
      assert t == s.(annotations := s.annotations[..last] + [s.annotations[last] + [p]]);
      assert |t.annotations| == |s.annotations|;
      assert t.annotations[..last] == s.annotations[..last];
      assert t.annotations[last] == s.annotations[last] + [p];
      assert forall i :: 0 <= i < |frames[1..]| ==> DrawFrame(frames[1..][i]) by {
        forall i | 0 <= i < |frames[1..]| ensures DrawFrame(frames[1..][i]) {
          assert frames[1..][i] == frames[i + 1];
        }
      }
      DrawRunExtendsStroke(t, n, frames[1..]);
      assert DrawnPoints(frames) == [p] + DrawnPoints(frames[1..]);
      assert s.annotations[last] + DrawnPoints(frames) == t.annotations[last] + DrawnPoints(frames[1..]);
    }
  }

  /** A run of K >= 1 DRAW ticks after a non-drawing tick adds exactly one stroke of K points. */
  lemma DrawRunOpensOneStroke(s: State, n: int, frames: seq<Frame>)
    requires Inv(s, n) && !s.buttonPressed && !s.annotationStart && |frames| >= 1
    requires forall i :: 0 <= i < |frames| ==> DrawFrame(frames[i])
    ensures FramesOk(frames)
    ensures Run(s, n, frames) ==
      s.(annotations := s.annotations + [DrawnPoints(frames)],
         annotationNumber := s.annotationNumber + 1, annotationStart := true)
  {
    DrawOpensStroke(s, n, frames[0]);
    var t := Step(s, n, frames[0].hand, frames[0].variant).state;
    DrawRunExtendsStroke(t, n, frames[1..]);
    var last := |t.annotations| - 1;
    assert t.annotations[..last] == s.annotations;
    assert t.annotations[last] + DrawnPoints(frames[1..]) == DrawnPoints(frames);
  }

  /** A pointer-pose tick leaves the strokes alone and ends the stroke in progress. */
  lemma PointerKeepsStrokes(s: State, n: int, h: Hand, v: Variant)
    requires Inv(s, n) && !s.buttonPressed && Detected(h)
    requires h.center.y > GestureThreshold && h.fingers == PointerPose
    ensures Step(s, n, Some(h), v) == Outcome(s.(annotationStart := false), false)
  {
  }

  /** main2.py: while the spotlight is on, a DRAW tick changes nothing at all. */
  lemma SpotlightSuppressesDraw(s: State, n: int, h: Hand)
    requires Inv(s, n) && !s.buttonPressed && Detected(h)
    requires h.center.y > GestureThreshold && h.fingers == DrawPose
    ensures Step(s, n, Some(h), WithSpotlight(true)) == Outcome(s, false)
  {
  }

  // ------------------------------------------------------------------ erasing

  /** No navigation can happen in this tick. */
  predicate NoNavigation(h: Hand)
    requires Detected(h)
  {
    h.center.y <= GestureThreshold ==>
      !Pinch(h.landmarks, ThumbTip, IndexTip) && !Pinch(h.landmarks, ThumbTip, MiddleTip)
  }

  /** After any evaluated tick with the ERASE pose no stroke is in progress. */
  lemma EraseEndsStroke(s: State, n: int, h: Hand, v: Variant)
    requires Inv(s, n) && !s.buttonPressed && Detected(h) && h.fingers == ErasePose
    ensures !Step(s, n, Some(h), v).state.annotationStart
  {
  }

  /** ERASE drops the last stroke and arms the gate, on either side of the threshold line. */
  lemma EraseDropsLastStroke(s: State, n: int, h: Hand, v: Variant)
    requires Inv(s, n) && !s.buttonPressed && Detected(h) && h.fingers == ErasePose
    requires NoNavigation(h) && |s.annotations| > 0
    ensures var r := Step(s, n, Some(h), v).state;
      r.annotations == s.annotations[..|s.annotations| - 1] &&
      r.annotationNumber == s.annotationNumber - 1 &&
      r.imgNumber == s.imgNumber && r.buttonPressed && r.buttonCounter == 1
  {
  }

  /** Erasing the single empty stroke leaves no stroke at all: annotations == [] and annotationNumber == -1. */
  lemma EraseLastEmptyStroke(s: State, n: int, h: Hand, v: Variant)
    requires Inv(s, n) && !s.buttonPressed && Detected(h) && h.fingers == ErasePose
    requires NoNavigation(h) && s.annotations == [[]]
    ensures Step(s, n, Some(h), v).state.annotations == []
    ensures Step(s, n, Some(h), v).state.annotationNumber == -1
  {
  }

  /** With no stroke left, ERASE (and no pinch) changes nothing and does not arm the gate. */
  lemma EraseWithoutStrokesIsNoOp(s: State, n: int, h: Hand, v: Variant)
    requires Inv(s, n) && !s.buttonPressed && Detected(h) && h.fingers == ErasePose
    requires s.annotations == []
    requires !Pinch(h.landmarks, ThumbTip, IndexTip) && !Pinch(h.landmarks, ThumbTip, MiddleTip)
    requires !Pinch(h.landmarks, ThumbTip, RingTip)
    ensures Step(s, n, Some(h), v) == Outcome(s, false)
  {
  }

  // ----------------------------------------------------------------- debounce

  /** While the gate is armed the hand is ignored: only the counter moves. */
  lemma ArmedTickIgnoresHand(s: State, n: int, hand: Option<Hand>, v: Variant)
    requires Inv(s, n) && HandOk(hand) && s.buttonPressed
    ensures Step(s, n, hand, v) == Outcome(Debounce(s), false)
  {
  }

  /** Arming a gate that was open leaves the counter at 1 after the arming tick. */
  lemma ArmingStartsCount(s: State, n: int, hand: Option<Hand>, v: Variant)
    requires Inv(s, n) && HandOk(hand) && !s.buttonPressed
    requires Step(s, n, hand, v).state.buttonPressed
    ensures Step(s, n, hand, v).state.buttonCounter == 1
  {
  }

  /** Armed ticks that stay within the delay change the counter and nothing else. */
  lemma {:induction false} ArmedRun(s: State, n: int, frames: seq<Frame>)
    requires Inv(s, n) && s.buttonPressed && FramesOk(frames)
    requires s.buttonCounter + |frames| <= ButtonDelay
    ensures Run(s, n, frames) == s.(buttonCounter := s.buttonCounter + |frames|)
    decreases |frames|
  {
    if frames != [] {
      var t := Step(s, n, frames[0].hand, frames[0].variant).state;
      assert t == s.(buttonCounter := s.buttonCounter + 1);
      ArmedRun(t, n, frames[1..]);
    }
  }

  /** The armed tick that takes the counter past the delay reopens the gate. */
  lemma {:induction false} ArmedRunReopens(s: State, n: int, frames: seq<Frame>)
    requires Inv(s, n) && s.buttonPressed && FramesOk(frames)
    requires s.buttonCounter + |frames| == ButtonDelay + 1
    ensures Run(s, n, frames) == s.(buttonPressed := false, buttonCounter := 0)
    decreases |frames|
  {
    var k := |frames| - 1;
    assert frames == frames[..k] + [frames[k]];
    assert FramesOk(frames[..k]) by {
      forall i | 0 <= i < k ensures HandOk(frames[..k][i].hand) {
        assert frames[..k][i] == frames[i];
      }
    }
    ArmedRun(s, n, frames[..k]);
    RunSnoc(s, n, frames[..k], frames[k]);
  }

  /**
   * Debounce timing: a tick T that arms the gate is followed by 20 ticks
   * (T+1..T+20) whose hands are ignored and which change nothing else; the
   * gate is open again for tick T+21.
   */
  lemma DebounceWindow(s: State, n: int, f: Frame, frames: seq<Frame>)
    requires Inv(s, n) && !s.buttonPressed && HandOk(f.hand) && FramesOk(frames)
    requires Step(s, n, f.hand, f.variant).state.buttonPressed
    requires |frames| == ButtonDelay
    ensures var t := Step(s, n, f.hand, f.variant).state;
      forall k :: 0 <= k < ButtonDelay ==>
        FramesOk(frames[..k]) && Run(t, n, frames[..k]) == t.(buttonCounter := 1 + k)
    ensures var t := Step(s, n, f.hand, f.variant).state;
      Run(t, n, frames) == t.(buttonPressed := false, buttonCounter := 0)
  {
    var t := Step(s, n, f.hand, f.variant).state;
    StepPreservesInv(s, n, f.hand, f.variant);
    forall k | 0 <= k < ButtonDelay
      ensures FramesOk(frames[..k]) && Run(t, n, frames[..k]) == t.(buttonCounter := 1 + k)
    {
      assert FramesOk(frames[..k]) by {
        forall i | 0 <= i < k ensures HandOk(frames[..k][i].hand) {
          assert frames[..k][i] == frames[i];
        }
      }
      ArmedRun(t, n, frames[..k]);
    }
    ArmedRunReopens(t, n, frames);
  }

  // ---------------------------------------------------------------- spotlight

  /**
   * main2.py: the spotlight is toggled exactly when the gate is open, the hand
   * is in the zone and only the thumb-ring pinch (after previous and next)
   * holds; such a tick arms the gate and keeps slide and strokes. main.py never toggles.
   */
  lemma RingPinchTogglesSpotlight(s: State, n: int, h: Hand, v: Variant)
    requires Inv(s, n) && Detected(h)
    ensures Step(s, n, Some(h), v).toggleSpotlight <==>
      v.WithSpotlight? && InZone(s, h) &&
      !Pinch(h.landmarks, ThumbTip, IndexTip) && !Pinch(h.landmarks, ThumbTip, MiddleTip) &&
      Pinch(h.landmarks, ThumbTip, RingTip)
    ensures Step(s, n, Some(h), v).toggleSpotlight ==>
      var r := Step(s, n, Some(h), v).state;
      r.buttonPressed && r.buttonCounter == 1 && r.imgNumber == s.imgNumber &&
      (h.fingers != ErasePose ==> r.annotations == s.annotations)
  {
  }

  lemma ToggleNeedsHand(s: State, n: int, v: Variant)
    requires Inv(s, n)
    ensures Step(s, n, None, v) == Outcome(Debounce(s), false)
  {
  }
}
