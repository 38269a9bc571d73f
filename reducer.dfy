/**
 * The body of the `while True` loop of main.py and main2.py as a function on
 * the six loop variables: the debounce gate, the zone check with its pinch
 * chain, the pointer / draw / else chain, the separate erase test and the
 * debounce counter. One definition serves both entry points; `Variant` says
 * which one runs and, for main2.py, whether the spotlight is on.
 */
module Reducer {
  import opened Wrappers
  import opened Gestures

  const GestureThreshold := 300
  const ButtonDelay := 20

  type Stroke = seq<Point>

  /** imgNumber, annotations, annotationNumber, annotationStart, buttonPressed, buttonCounter. */
  datatype State = State(
    imgNumber: int,
    annotations: seq<Stroke>,
    annotationNumber: int,
    annotationStart: bool,
    buttonPressed: bool,
    buttonCounter: int)

  /** main.py's loop, or main2.py's loop with the spotlight's `is_active` at the start of the tick. */
  datatype Variant = Plain | WithSpotlight(spotlightActive: bool)

  /** The new state and whether the tick calls `spotlight.toggle()`. */
  datatype Outcome = Outcome(state: State, toggleSpotlight: bool)

  /** The values the loop variables have before the first frame. */
  function Initial(): (s: State)
    ensures s.annotations == [[]] && s.annotationNumber == 0
    ensures s.imgNumber == 0 && !s.annotationStart && !s.buttonPressed && s.buttonCounter == 0
  {
    State(0, [[]], 0, false, false, 0)
  }

  /** `annotationNumber` names the last stroke, and a stroke in progress exists. */
  predicate StrokesConsistent(s: State) {
    s.annotationNumber == |s.annotations| - 1 &&
    (s.annotationStart ==> s.annotationNumber >= 0)
  }

  /** The invariant every tick keeps, for a presentation of n slides. */
  predicate Inv(s: State, n: int)
    ensures Inv(s, n) ==> n >= 1 && s.annotationNumber >= -1 && 0 <= s.buttonCounter <= ButtonDelay
  {
    0 <= s.imgNumber < n &&
    StrokesConsistent(s) &&
    (!s.buttonPressed ==> s.buttonCounter == 0) &&
    (s.buttonPressed ==> 1 <= s.buttonCounter <= ButtonDelay)
  }

  predicate HandOk(hand: Option<Hand>) {
    hand.Some? ==> Detected(hand.value)
  }

  /** A slide change: empty annotations and the gate armed. */
  function Navigate(s: State, target: int): (r: State)
    ensures r.imgNumber == target && r.annotations == [[]] && r.annotationNumber == 0
    ensures r.buttonPressed && r.annotationStart == s.annotationStart && r.buttonCounter == s.buttonCounter
  {
    s.(imgNumber := target, annotations := [[]], annotationNumber := 0, buttonPressed := true)
  }

  /** The hand is above the threshold line: previous, next, then (main2.py) spotlight toggle. */
  function ZoneControl(s: State, n: int, h: Hand, v: Variant): (o: Outcome)
    requires Detected(h)
    ensures !o.state.annotationStart
    ensures o.toggleSpotlight ==> v.WithSpotlight? && o.state.buttonPressed && o.state.imgNumber == s.imgNumber
    ensures !o.state.buttonPressed ==> o.state == s.(annotationStart := false)
  {
    var lm := h.landmarks;
    var s1 := s.(annotationStart := false);
    if Pinch(lm, ThumbTip, IndexTip) then
      Outcome(if s.imgNumber > 0 then Navigate(s1, s.imgNumber - 1) else s1, false)
    else if Pinch(lm, ThumbTip, MiddleTip) then
      Outcome(if s.imgNumber < n - 1 then Navigate(s1, s.imgNumber + 1) else s1, false)
    else if v.WithSpotlight? && Pinch(lm, ThumbTip, RingTip) then
      Outcome(s1.(buttonPressed := true), true)
    else
      Outcome(s1, false)
  }

  /** The DRAW branch: open a stroke unless one is in progress, then append the point to it. */
  function Draw(s: State, p: Point): (r: State)
    requires StrokesConsistent(s)
    ensures StrokesConsistent(r) && r.annotationStart
    ensures s.annotationStart ==>
      r.annotations == s.annotations[..|s.annotations| - 1] + [s.annotations[|s.annotations| - 1] + [p]]
    ensures !s.annotationStart ==> r.annotations == s.annotations + [[p]]
    ensures r.imgNumber == s.imgNumber && r.buttonPressed == s.buttonPressed && r.buttonCounter == s.buttonCounter
  {
    var s1 := if s.annotationStart then s
              else s.(annotationStart := true, annotationNumber := s.annotationNumber + 1,
                      annotations := s.annotations + [[]]);
    var k := s1.annotationNumber;
    assert !s.annotationStart ==> s1.annotations[k := s1.annotations[k] + [p]] == s.annotations + [[p]] by {
      if !s.annotationStart {
        assert s1.annotations[k] == [];
        assert s1.annotations[k] + [p] == [p];
        assert s1.annotations[k := [p]] == s.annotations + [[p]];
      }
    }
    s1.(annotations := s1.annotations[k := s1.annotations[k] + [p]])
  }

  /** The if/elif chain after the gate. */
  function Gesture(s: State, n: int, h: Hand, v: Variant): (o: Outcome)
    requires Detected(h) && StrokesConsistent(s)
    ensures StrokesConsistent(o.state)
    ensures h.fingers == ErasePose ==> !o.state.annotationStart
  {
    if h.center.y <= GestureThreshold then ZoneControl(s, n, h, v)
    else if h.fingers == PointerPose then Outcome(s.(annotationStart := false), false)
    else if h.fingers == DrawPose then
      Outcome(if v.WithSpotlight? && v.spotlightActive then s else Draw(s, IndexFinger(h)), false)
    else Outcome(s.(annotationStart := false), false)
  }

  /** The separate erase test: drop the last stroke if there is one, and arm the gate. */
  function Erase(s: State, fingers: seq<int>): (r: State)
    requires StrokesConsistent(s)
    ensures r.annotationNumber == |r.annotations| - 1 && r.annotationStart == s.annotationStart
    ensures fingers == ErasePose && |s.annotations| > 0 ==>
      r == s.(annotations := s.annotations[..|s.annotations| - 1],
              annotationNumber := s.annotationNumber - 1, buttonPressed := true)
    ensures fingers != ErasePose || |s.annotations| == 0 ==> r == s
  {
    if fingers == ErasePose && s.annotationNumber >= 0 then
      s.(annotations := s.annotations[..|s.annotations| - 1],
         annotationNumber := s.annotationNumber - 1, buttonPressed := true)
    else s
  }

  /** The debounce counter: count armed ticks, and open the gate once more than 20 have passed. */
  function Debounce(s: State): (r: State)
    ensures r.imgNumber == s.imgNumber && r.annotations == s.annotations
    ensures r.annotationNumber == s.annotationNumber && r.annotationStart == s.annotationStart
    ensures !s.buttonPressed ==> r == s
    ensures s.buttonPressed && s.buttonCounter < ButtonDelay ==>
      r.buttonPressed && r.buttonCounter == s.buttonCounter + 1
    ensures s.buttonPressed && s.buttonCounter >= ButtonDelay ==>
      !r.buttonPressed && r.buttonCounter == 0
  {
    if s.buttonPressed then
      var c := s.buttonCounter + 1;
      if c > ButtonDelay then s.(buttonCounter := 0, buttonPressed := false)
      else s.(buttonCounter := c)
    else s
  }

  /** One frame: gesture evaluation only when a hand is seen and the gate is open. */
  function Step(s: State, n: int, hand: Option<Hand>, v: Variant): (o: Outcome)
    requires StrokesConsistent(s) && HandOk(hand)
    ensures StrokesConsistent(o.state)
  {
    var evaluated :=
      if hand.Some? && !s.buttonPressed then
        var g := Gesture(s, n, hand.value, v);
        Outcome(Erase(g.state, hand.value.fingers), g.toggleSpotlight)
      else Outcome(s, false);
    Outcome(Debounce(evaluated.state), evaluated.toggleSpotlight)
  }

  /** One camera frame of the loop: the hand seen and the variant in force. */
  datatype Frame = Frame(hand: Option<Hand>, variant: Variant)

  predicate FramesOk(frames: seq<Frame>) {
    forall i :: 0 <= i < |frames| ==> HandOk(frames[i].hand)
  }

  /** The state after a sequence of frames. */
  function Run(s: State, n: int, frames: seq<Frame>): (r: State)
    requires StrokesConsistent(s) && FramesOk(frames)
    ensures StrokesConsistent(r)
    ensures frames == [] ==> r == s
    decreases |frames|
  {
    if frames == [] then s
    else
      assert HandOk(frames[0].hand);
      Run(Step(s, n, frames[0].hand, frames[0].variant).state, n, frames[1..])
  }
}
