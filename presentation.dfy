/**
 * The module-level state and `while True` loops of main.py and main2.py: the
 * six loop variables become the fields of Presentation, one pass of the loop
 * body is Tick (main.py) or SpotlightTick (main2.py), each proved to compute
 * Reducer.Step, and the loops themselves run over a finite sequence of camera
 * ticks, each carrying the hand seen and the key read.
 */
module Presentation {
  import opened Wrappers
  import opened Gestures
  import opened Slides
  import opened Reducer
  import opened ReducerProperties
  import opened Spotlight

  /** One pass of the camera loop: the hand detected, if any, and the raw `cv2.waitKey(1)` code. */
  datatype CameraTick = CameraTick(hand: Option<Hand>, key: int)

  /** What a key press asks for in main2.py. */
  datatype KeyAction = Quit | ToggleSpotlight | ToggleHardware | GrowRadius | ShrinkRadius | Lighter | Darker | NoAction

  /** `cv2.waitKey(1) & 0xFF`; Python's `&` on a negative code keeps the low byte, as Euclidean `%` does. */
  function KeyByte(code: int): (b: int)
    ensures 0 <= b < 256
    ensures 0 <= code < 256 ==> b == code
  {
    code % 256
  }

  /** The key bindings of main2.py. */
  function KeyActionOf(code: int): (a: KeyAction)
    ensures a == Quit <==> KeyByte(code) == 'q' as int
    ensures a == GrowRadius <==> KeyByte(code) == '+' as int || KeyByte(code) == '=' as int
    ensures a == ShrinkRadius <==> KeyByte(code) == '-' as int || KeyByte(code) == '_' as int
    ensures a == ToggleSpotlight <==> KeyByte(code) == 's' as int
    ensures a == ToggleHardware <==> KeyByte(code) == 'h' as int
    ensures a == Lighter <==> KeyByte(code) == '[' as int
    ensures a == Darker <==> KeyByte(code) == ']' as int
  {
    var key := KeyByte(code);
    if key == 'q' as int then Quit
    else if key == 's' as int then ToggleSpotlight
    else if key == 'h' as int then ToggleHardware
    else if key == '+' as int || key == '=' as int then GrowRadius
    else if key == '-' as int || key == '_' as int then ShrinkRadius
    else if key == '[' as int then Lighter
    else if key == ']' as int then Darker
    else NoAction
  }

  /** `waitKey` returns -1 when no key was pressed; its low byte 255 is bound to nothing. */
  lemma NoKeyIsNoAction()
    ensures KeyByte(-1) == 255 && KeyActionOf(-1) == NoAction
  {
  }

  function PlainFrames(ticks: seq<CameraTick>): (fs: seq<Frame>)
    ensures |fs| == |ticks|
    ensures forall i :: 0 <= i < |ticks| ==> fs[i] == Frame(ticks[i].hand, Plain)
  {
    seq(|ticks|, i requires 0 <= i < |ticks| => Frame(ticks[i].hand, Plain))
  }

  predicate TicksOk(ticks: seq<CameraTick>) {
    forall i :: 0 <= i < |ticks| ==> HandOk(ticks[i].hand)
  }

  class Presentation {
    /** `pathImages`, fixed at startup. */
    const pathImages: seq<string>
    var imgNumber: int
    var annotations: seq<Stroke>
    var annotationNumber: int
    var annotationStart: bool
    var buttonPressed: bool
    var buttonCounter: int

    function State(): Reducer.State
      reads this
    {
      Reducer.State(imgNumber, annotations, annotationNumber, annotationStart, buttonPressed, buttonCounter)
    }

    ghost predicate Valid()
      reads this
    {
      Inv(State(), |pathImages|)
    }

    /** The module-level set-up: the sorted slide list (at least one slide, or indexing it fails) and the initial loop variables. */
    constructor (listing: seq<string>)
      requires WellNamed(listing) && |SlideFiles(listing)| >= 1
      ensures pathImages == SortedSlides(listing)
      ensures State() == Initial()
      ensures Valid()
    {
      pathImages := SortedSlides(listing);
      imgNumber := 0;
      annotations := [[]];
      annotationNumber := 0;
      annotationStart := false;
      buttonPressed := false;
      buttonCounter := 0;
      new;
      assert |multiset(pathImages)| == |multiset(SlideFiles(listing))|;
    }

    /** main.py's pinch chain above the threshold line, lines 65-81. */
    method Zone(h: Hand)
      requires Valid() && Detected(h)
      modifies this
      ensures State() == ZoneControl(old(State()), |pathImages|, h, Plain).state
    {
      var lm := h.landmarks;
      annotationStart := false;
      if Pinch(lm, ThumbTip, IndexTip) {
        if imgNumber > 0 {
          buttonPressed := true;
          imgNumber := imgNumber - 1;
          annotations := [[]];
          annotationNumber := 0;
        }
      } else if Pinch(lm, ThumbTip, MiddleTip) {
        if imgNumber < |pathImages| - 1 {
          buttonPressed := true;
          imgNumber := imgNumber + 1;
          annotations := [[]];
          annotationNumber := 0;
        }
      }
    }

    /** One pass of main.py's loop body, lines 52-112. */
    method Tick(hand: Option<Hand>)
      requires Valid() && HandOk(hand)
      modifies this
      ensures Valid()
      ensures State() == Step(old(State()), |pathImages|, hand, Plain).state
    {
      ghost var s0 := State();
      if hand.Some? && !buttonPressed {
        var h := hand.value;
        var indexFinger := IndexFinger(h);
        if h.center.y <= GestureThreshold {
          Zone(h);
        } else if h.fingers == PointerPose {
          annotationStart := false;
        } else if h.fingers == DrawPose {
          if !annotationStart {
            annotationStart := true;
            annotationNumber := annotationNumber + 1;
            annotations := annotations + [[]];
          }
          annotations := annotations[annotationNumber := annotations[annotationNumber] + [indexFinger]];
        } else {
          annotationStart := false;
        }
        assert State() == Gesture(s0, |pathImages|, h, Plain).state;
        EraseTest(h.fingers);
      }
      CountDown();
      StepPreservesInv(s0, |pathImages|, hand, Plain);
    }

    /** main2.py's pinch chain above the threshold line, lines 86-107. */
    method SpotlightZone(h: Hand, spotlight: SpotlightController) returns (toggled: bool)
      requires Valid() && Detected(h)
      modifies this, spotlight
      ensures var o := ZoneControl(old(State()), |pathImages|, h, WithSpotlight(old(spotlight.isActive)));
        State() == o.state && toggled == o.toggleSpotlight
      ensures if toggled then Toggled(old(spotlight.Snap()), spotlight.Snap())
              else spotlight.Snap() == old(spotlight.Snap())
    {
      var lm := h.landmarks;
      toggled := false;
      annotationStart := false;
      if Pinch(lm, ThumbTip, IndexTip) {
        if imgNumber > 0 {
          buttonPressed := true;
          imgNumber := imgNumber - 1;
          annotations := [[]];
          annotationNumber := 0;
        }
      } else if Pinch(lm, ThumbTip, MiddleTip) {
        if imgNumber < |pathImages| - 1 {
          buttonPressed := true;
          imgNumber := imgNumber + 1;
          annotations := [[]];
          annotationNumber := 0;
        }
      } else if Pinch(lm, ThumbTip, RingTip) {
        buttonPressed := true;
        var _ := spotlight.Toggle();
        toggled := true;
      }
    }

    /** The separate erase test of both loops. */
    method EraseTest(fingers: seq<int>)
      requires StrokesConsistent(State())
      modifies this
      ensures State() == Erase(old(State()), fingers)
    {
      if fingers == ErasePose {
        if annotationNumber >= 0 {
          annotations := annotations[..|annotations| - 1];
          annotationNumber := annotationNumber - 1;
          buttonPressed := true;
        }
      }
    }

    /** The debounce counter at the end of both loops. */
    method CountDown()
      modifies this
      ensures State() == Debounce(old(State()))
    {
      if buttonPressed {
        buttonCounter := buttonCounter + 1;
        if buttonCounter > ButtonDelay {
          buttonCounter := 0;
          buttonPressed := false;
        }
      }
    }

    /**
     * One pass of main2.py's loop body, lines 73-157: main.py's reducer plus the
     * thumb-ring spotlight toggle and no drawing while the spotlight is on; then
     * the clamped spotlight centre the overlay is drawn at, if any.
     */
    method SpotlightTick(hand: Option<Hand>, spotlight: SpotlightController) returns (centre: Option<Point>)
      requires Valid() && HandOk(hand)
      modifies this, spotlight
      ensures Valid()
      ensures var o := Step(old(State()), |pathImages|, hand, WithSpotlight(old(spotlight.isActive)));
        State() == o.state &&
        (if o.toggleSpotlight then Toggled(old(spotlight.Snap()), spotlight.Snap())
         else spotlight.Snap() == old(spotlight.Snap()))
      ensures centre == if spotlight.isActive && hand.Some?
                        then Some(SpotlightCentre(hand.value, spotlight.radius)) else None
    {
      ghost var s0 := State();
      ghost var v := WithSpotlight(spotlight.isActive);
      ghost var toggled := false;
      if hand.Some? && !buttonPressed {
        var h := hand.value;
        var indexFinger := IndexFinger(h);
        if h.center.y <= GestureThreshold {
          toggled := SpotlightZone(h, spotlight);
        } else if h.fingers == PointerPose {
          annotationStart := false;
        } else if h.fingers == DrawPose {
          if !spotlight.isActive {
            if !annotationStart {
              annotationStart := true;
              annotationNumber := annotationNumber + 1;
              annotations := annotations + [[]];
            }
            annotations := annotations[annotationNumber := annotations[annotationNumber] + [indexFinger]];
          }
        } else {
          annotationStart := false;
        }
        assert State() == Gesture(s0, |pathImages|, h, v).state;
        assert toggled == Gesture(s0, |pathImages|, h, v).toggleSpotlight;
        EraseTest(h.fingers);
      }
      CountDown();
      StepPreservesInv(s0, |pathImages|, hand, v);
      centre := None;
      if spotlight.isActive && hand.Some? {
        centre := Some(SpotlightCentre(hand.value, spotlight.radius));
      }
    }

    /**
     * main.py's loop over a finite run of camera ticks: one Tick per frame,
     * leaving after the tick whose key is 'q'. Returns how many ticks ran.
     */
    method Play(ticks: seq<CameraTick>) returns (ran: nat)
      requires Valid() && TicksOk(ticks)
      modifies this
      ensures Valid()
      ensures ran <= |ticks| && FramesOk(PlainFrames(ticks)[..ran])
      ensures State() == Run(old(State()), |pathImages|, PlainFrames(ticks)[..ran])
      ensures forall j :: 0 <= j < ran - 1 ==> KeyByte(ticks[j].key) != 'q' as int
      ensures ran < |ticks| ==> ran > 0 && KeyByte(ticks[ran - 1].key) == 'q' as int
    {
      ghost var s0 := State();
      ghost var frames := PlainFrames(ticks);
      ghost var n := |pathImages|;
      ran := 0;
      assert frames[..0] == [];
      while ran < |ticks|
        invariant 0 <= ran <= |ticks|
        invariant Valid() && FramesOk(frames[..ran])
        invariant State() == Run(s0, n, frames[..ran])
        invariant forall j :: 0 <= j < ran ==> KeyByte(ticks[j].key) != 'q' as int
      {
        Tick(ticks[ran].hand);
        RunSnoc(s0, n, frames[..ran], frames[ran]);
        assert frames[..ran] + [frames[ran]] == frames[..ran + 1];
        ran := ran + 1;
        if KeyByte(ticks[ran - 1].key) == 'q' as int {
          return;
        }
      }
    }
  }

  /**
   * What main2.py's key dispatch, lines 174-188, does to the controller: `a` before
   * the key, `b` after it, with the default steps of 20 pixels and 0.1.
   */
  ghost predicate KeyEffect(a: Snapshot, b: Snapshot, action: KeyAction) {
    match action
    case ToggleSpotlight => Toggled(a, b)
    case ToggleHardware => b == a.(hardwareDimEnabled := !a.hardwareDimEnabled)
    case GrowRadius => b == a.(radius := Min(a.radius + DefaultRadiusStep, MaxRadius))
    case ShrinkRadius => b == a.(radius := Max(a.radius - DefaultRadiusStep, MinRadius))
    case Lighter => b == a.(dimOpacity := MaxReal(a.dimOpacity - DefaultDimStep, MinDim))
    case Darker => b == a.(dimOpacity := MinReal(a.dimOpacity + DefaultDimStep, MaxDim))
    case _ => b == a
  }

  /** main2.py's key dispatch, lines 174-188. */
  method HandleKey(spotlight: SpotlightController, code: int) returns (quit: bool)
    modifies spotlight
    ensures quit <==> KeyActionOf(code) == Quit
    ensures KeyEffect(old(spotlight.Snap()), spotlight.Snap(), KeyActionOf(code))
  {
    var key := KeyByte(code);
    quit := false;
    if key == 'q' as int {
      quit := true;
    } else if key == 's' as int {
      var _ := spotlight.Toggle();
    } else if key == 'h' as int {
      var _ := spotlight.ToggleHardwareControl();
    } else if key == '+' as int || key == '=' as int {
      var _ := spotlight.IncreaseRadius(DefaultRadiusStep);
    } else if key == '-' as int || key == '_' as int {
      var _ := spotlight.DecreaseRadius(DefaultRadiusStep);
    } else if key == '[' as int {
      var _ := spotlight.DecreaseDim(DefaultDimStep);
    } else if key == ']' as int {
      var _ := spotlight.IncreaseDim(DefaultDimStep);
    }
  }

  /** The spotlight's radius and opacity are within their bounds. */
  ghost predicate SpotlightInRange(c: SpotlightController)
    reads c
  {
    MinRadius <= c.radius <= MaxRadius && MinDim <= c.dimOpacity <= MaxDim
  }

  /**
   * One pass of main2.py's loop. From presentation state `s` and controller
   * `before`, the tick's frame, with the spotlight state `before` has, leads to
   * state `s'`; the controller toggles to `mid` exactly when that frame asks for
   * it, and the key read leads from `mid` to `next`.
   */
  ghost predicate SessionPass(s: State, n: int, tick: CameraTick, before: Snapshot, mid: Snapshot, next: Snapshot, s': State) {
    StrokesConsistent(s) && HandOk(tick.hand) &&
    var o := Step(s, n, tick.hand, WithSpotlight(before.isActive));
    s' == o.state &&
    (if o.toggleSpotlight then Toggled(before, mid) else mid == before) &&
    KeyEffect(mid, next, KeyActionOf(tick.key))
  }

  /**
   * The passes over the first |mids| ticks: the presentation goes through
   * `states` and the controller through `snaps`, with `mids` between a tick and its key.
   */
  ghost predicate SessionTrace(n: int, ticks: seq<CameraTick>, states: seq<State>, snaps: seq<Snapshot>, mids: seq<Snapshot>) {
    |mids| <= |ticks| && |states| == |mids| + 1 && |snaps| == |mids| + 1 &&
    forall i :: 0 <= i < |mids| ==> SessionPass(states[i], n, ticks[i], snaps[i], mids[i], snaps[i + 1], states[i + 1])
  }

  /**
   * The spotlight is on after a pass exactly when it was on before, flipped once
   * if the frame's gesture toggled it and once more if the key was 's'.
   */
  lemma PassFlipsSpotlight(s: State, n: int, tick: CameraTick, before: Snapshot, mid: Snapshot, next: Snapshot, s': State)
    requires SessionPass(s, n, tick, before, mid, next, s')
    ensures next.isActive ==
      (before.isActive != (Step(s, n, tick.hand, WithSpotlight(before.isActive)).toggleSpotlight
                           != (KeyActionOf(tick.key) == ToggleSpotlight)))
  {
  }

  /** Over a whole trace, each pass flips the spotlight as PassFlipsSpotlight says. */
  lemma TraceFlipsSpotlight(n: int, ticks: seq<CameraTick>, states: seq<State>, snaps: seq<Snapshot>, mids: seq<Snapshot>, i: nat)
    requires SessionTrace(n, ticks, states, snaps, mids) && i < |mids|
    ensures snaps[i + 1].isActive ==
      (snaps[i].isActive != (Step(states[i], n, ticks[i].hand, WithSpotlight(snaps[i].isActive)).toggleSpotlight
                             != (KeyActionOf(ticks[i].key) == ToggleSpotlight)))
  {
    PassFlipsSpotlight(states[i], n, ticks[i], snaps[i], mids[i], snaps[i + 1], states[i + 1]);
  }

  /** A trace extended by one more pass. */
  lemma TraceSnoc(n: int, ticks: seq<CameraTick>, states: seq<State>, snaps: seq<Snapshot>, mids: seq<Snapshot>,
                  mid: Snapshot, next: Snapshot, s': State)
    requires SessionTrace(n, ticks, states, snaps, mids) && |mids| < |ticks|
    requires SessionPass(states[|mids|], n, ticks[|mids|], snaps[|mids|], mid, next, s')
    ensures SessionTrace(n, ticks, states + [s'], snaps + [next], mids + [mid])
  {
  }

  /** One pass of main2.py's loop: the tick, then the key it read. */
  method SessionTick(p: Presentation, spotlight: SpotlightController, tick: CameraTick)
      returns (quit: bool, ghost mid: Snapshot)
    requires p.Valid() && HandOk(tick.hand)
    modifies p, spotlight
    ensures p.Valid()
    ensures SessionPass(old(p.State()), |p.pathImages|, tick, old(spotlight.Snap()), mid, spotlight.Snap(), p.State())
    ensures old(SpotlightInRange(spotlight)) ==> SpotlightInRange(spotlight)
    ensures quit <==> KeyActionOf(tick.key) == Quit
  {
    var _ := p.SpotlightTick(tick.hand, spotlight);
    mid := spotlight.Snap();
    quit := HandleKey(spotlight, tick.key);
  }

  /** The frames of the first ticks, extended by the frame of the next tick. */
  lemma FramesFollowTicks(frames: seq<Frame>, ticks: seq<CameraTick>, snaps: seq<Snapshot>, f: Frame)
    requires |frames| < |ticks| && |frames| < |snaps|
    requires f == Frame(ticks[|frames|].hand, WithSpotlight(snaps[|frames|].isActive))
    requires forall i :: 0 <= i < |frames| ==> frames[i] == Frame(ticks[i].hand, WithSpotlight(snaps[i].isActive))
    ensures forall i :: 0 <= i < |frames| + 1 ==>
      (frames + [f])[i] == Frame(ticks[i].hand, WithSpotlight(snaps[i].isActive))
  {
  }

  /**
   * main2.py's `while True` loop: a SpotlightTick and a key per frame until
   * 'q'. The passes form a SessionTrace from the starting state and controller
   * to the final ones; the presentation's state is Reducer.Run over the frames
   * seen, each the tick's hand with the spotlight state at the start of its pass;
   * the invariant holds throughout, and a spotlight that starts within its
   * bounds stays within them.
   */
  method SessionLoop(p: Presentation, spotlight: SpotlightController, ticks: seq<CameraTick>)
      returns (ran: nat, ghost frames: seq<Frame>, ghost states: seq<State>, ghost snaps: seq<Snapshot>, ghost mids: seq<Snapshot>)
    requires p.Valid() && TicksOk(ticks)
    modifies p, spotlight
    ensures p.Valid() && ran <= |ticks|
    ensures SessionTrace(|p.pathImages|, ticks, states, snaps, mids) && |mids| == ran
    ensures states[0] == old(p.State()) && states[ran] == p.State()
    ensures snaps[0] == old(spotlight.Snap()) && snaps[ran] == spotlight.Snap()
    ensures |frames| == ran && FramesOk(frames)
    ensures forall i :: 0 <= i < ran ==> frames[i] == Frame(ticks[i].hand, WithSpotlight(snaps[i].isActive))
    ensures p.State() == Run(old(p.State()), |p.pathImages|, frames)
    ensures old(SpotlightInRange(spotlight)) ==> SpotlightInRange(spotlight)
    ensures forall j :: 0 <= j < ran - 1 ==> KeyActionOf(ticks[j].key) != Quit
    ensures ran < |ticks| ==> ran > 0 && KeyActionOf(ticks[ran - 1].key) == Quit
  {
    ghost var inRange := SpotlightInRange(spotlight);
    ghost var s0 := p.State();
    ghost var n := |p.pathImages|;
    ran := 0;
    frames := [];
    states := [s0];
    snaps := [spotlight.Snap()];
    mids := [];
    while ran < |ticks|
      invariant 0 <= ran <= |ticks| && p.Valid() && |p.pathImages| == n
      invariant SessionTrace(n, ticks, states, snaps, mids) && |mids| == ran
      invariant states[0] == s0 && states[ran] == p.State()
      invariant snaps[0] == old(spotlight.Snap()) && snaps[ran] == spotlight.Snap()
      invariant |frames| == ran && FramesOk(frames)
      invariant forall i :: 0 <= i < ran ==> frames[i] == Frame(ticks[i].hand, WithSpotlight(snaps[i].isActive))
      invariant p.State() == Run(s0, n, frames)
      invariant inRange ==> SpotlightInRange(spotlight)
      invariant forall j :: 0 <= j < ran ==> KeyActionOf(ticks[j].key) != Quit
    {
      assert HandOk(ticks[ran].hand);
      ghost var f := Frame(ticks[ran].hand, WithSpotlight(spotlight.isActive));
      var quit, mid := SessionTick(p, spotlight, ticks[ran]);
      RunSnoc(s0, n, frames, f);
      TraceSnoc(n, ticks, states, snaps, mids, mid, spotlight.Snap(), p.State());
      FramesFollowTicks(frames, ticks, snaps, f);
      frames := frames + [f];
      states := states + [p.State()];
      snaps := snaps + [spotlight.Snap()];
      mids := mids + [mid];
      ran := ran + 1;
      if quit {
        break;
      }
    }
  }

  /**
   * main2.py's session: the loop, then `spotlight.cleanup()`. `snaps[ran]` is
   * the controller as the loop leaves it, and the cleanup issues exactly the
   * restore that state calls for and changes nothing else.
   */
  method SpotlightSession(p: Presentation, spotlight: SpotlightController, ticks: seq<CameraTick>)
      returns (ran: nat, ghost frames: seq<Frame>, ghost states: seq<State>, ghost snaps: seq<Snapshot>, ghost mids: seq<Snapshot>)
    requires p.Valid() && TicksOk(ticks)
    modifies p, spotlight
    ensures p.Valid() && ran <= |ticks|
    ensures SessionTrace(|p.pathImages|, ticks, states, snaps, mids) && |mids| == ran
    ensures states[0] == old(p.State()) && states[ran] == p.State()
    ensures snaps[0] == old(spotlight.Snap())
    ensures |frames| == ran && FramesOk(frames)
    ensures forall i :: 0 <= i < ran ==> frames[i] == Frame(ticks[i].hand, WithSpotlight(snaps[i].isActive))
    ensures p.State() == Run(old(p.State()), |p.pathImages|, frames)
    ensures old(SpotlightInRange(spotlight)) ==> SpotlightInRange(spotlight)
    ensures forall j :: 0 <= j < ran - 1 ==> KeyActionOf(ticks[j].key) != Quit
    ensures ran < |ticks| ==> ran > 0 && KeyActionOf(ticks[ran - 1].key) == Quit
    ensures var last := snaps[ran];
      spotlight.Snap().(commands := last.commands) == last &&
      spotlight.commands == last.commands +
        (if last.isActive && last.isMac && last.hardwareDimEnabled then [SetBrightness(last.normalBrightness)] else [])
  {
    ran, frames, states, snaps, mids := SessionLoop(p, spotlight, ticks);
    spotlight.Cleanup();
  }
}
