# Gesture-controlled slide presenter, modelled in Dafny

The presenter shows a folder of `slide<N>.png` images and lets a presenter
steer them with one hand in front of a webcam:

- a pinch above a horizontal line (thumb and index finger) goes back a slide;
- a pinch of thumb and middle finger goes forward a slide;
- an index finger alone draws strokes;
- index and middle fingers together are a pointer;
- three raised fingers erase the last stroke;
- a 20-frame debounce stops one pinch from acting twice.

`main.py` is the basic presenter. `main2.py` adds a spotlight: a thumb–ring
pinch or the `s` key turns it on or off, and while it is on it suppresses
drawing. The keyboard also changes the spotlight's radius and dimming.
`spotlight_module.py` holds the spotlight's controller. On macOS that
controller also dims the screen by running the external `brightness` tool.

The model has these parts:

- `Gestures` (gestures.dfy) holds the pure geometry:
  - the pinch test;
  - the camera-to-slide pointer map, `int(np.interp(...))`;
  - the clamp that keeps the spotlight on the slide.
- `Slides` (slides.dfy) builds the slide list. It filters the directory listing to `slide*.png` and sorts by the number in each name. The sort is an insertion sort, proved to be ordered and a permutation.
- `Reducer` (reducer.dfy) is one pass of the `while True` loop, written as a function on the six loop variables:
  - the variables are `imgNumber`, `annotations`, `annotationNumber`, `annotationStart`, `buttonPressed` and `buttonCounter`;
  - the stages are the debounce gate, the pinch zone, the pointer/draw/else chain, the separate erase test and the debounce counter;
  - `Variant` chooses between `main.py` and `main2.py`, and gives `main2.py`'s spotlight state.
- `ReducerProperties` (reducer_properties.dfy) proves what the loop guarantees. It covers the invariant, navigation, drawing, erasing, debounce timing and the spotlight toggle.
- `Spotlight` (spotlight.dfy) models `SpotlightController` as a Dafny class:
  - every run of the external tool is an oracle that may fail;
  - each run is recorded in a ghost log `commands`, so contracts can say exactly which brightness commands each operation issues.
- `Presentation` (presentation.dfy) holds the loop state as the fields of a class:
  - `Tick` is one pass of `main.py`'s loop body and `SpotlightTick` one pass of `main2.py`'s;
  - each is proved to compute `Reducer.Step`;
  - `Play` and `SessionLoop` are the two loops themselves, run over a finite sequence of camera ticks, and `SpotlightSession` adds `main2.py`'s final cleanup;
  - `HandleKey` is `main2.py`'s key dispatch.

`Wrappers` (wrappers.dfy) is only the `Option` type.

The code has several behaviours that a quick reading would not expect. The
model follows the code in each case:

- A frame with no hand, or a frame inside the debounce window, leaves `annotationStart` unchanged. A stroke can therefore continue across frames where the hand was lost.
- The erase test is a separate `if`, not part of the `elif` chain. It therefore also runs after a slide change in the same frame, where it removes the fresh empty stroke (`NavigateThenErase`).
- Erasing can leave `annotations == []` with `annotationNumber == -1`. The next draw simply opens a new stroke.
- A previous or next pinch that cannot move (already on the first or last slide) does not arm the debounce gate.
- The thumb–ring toggle in `main2.py` is tested only after the previous and next pinches fail.
- `toggle_hardware_control` attempts to restore the brightness when hardware dimming is switched off. It does so only after clearing the flag, so `_set_brightness` returns early and no command ever runs (`ToggleHardwareControl` ensures the log is unchanged).

## Model

| member | source | states |
|---|---|---|
| Gestures.SquaredDistance | main.py:10 | the squared distance is non-negative and is zero exactly when the two points coincide |
| Gestures.Pinch | main.py:7-11 | a pinch forces both coordinate differences strictly between -40 and 40, and fingertips within 28 pixels on both axes always pinch |
| Gestures.PinchIsDistanceBelowThreshold | main.py:7-11 | the squared comparison used by the model is a pinch exactly when the Euclidean distance is below 40 |
| Gestures.Interp | main.py:58-59 | `int(np.interp)` on integers: the result stays within the output range, equals the low end at or below `lo` and the high end at or above `hi`, and strictly between them is the floor of the linear interpolation |
| Gestures.InterpMonotone | main.py:58-59 | the pointer map is monotone: a larger camera coordinate never maps to a smaller slide coordinate |
| Gestures.SlideX | main.py:58 | the horizontal pointer position lies in [0, 960] |
| Gestures.SlideY | main.py:59 | the vertical pointer position lies in [0, 540] |
| Gestures.IndexFinger | main.py:58-60 | `indexFinger` always lies on the 960x540 slide |
| Gestures.PointerMapCorners | main.py:58-59 | x = 640..1280 and y = 150..570 map to the slide's corners, and their midpoints to its centre |
| Gestures.ClampCentre | main2.py:156-157 | the clamped coordinate is at least the radius; when the disc fits, it is the point of [radius, extent - radius] nearest the input; when it does not, it is the radius |
| Gestures.SpotlightCentre | main2.py:149-157 | the spotlight centre is at least a radius from the top and left edges, and also from the bottom and right edges whenever the disc fits |
| Gestures.TallSpotlightPinnedVertically | main2.py:157 | a radius above 270 pins the centre to y == radius whatever the hand does |
| Slides.IsSlideFile | main.py:23 | `startswith("slide") and endswith(".png")`; the two tests cannot overlap, so such a name has at least nine characters |
| Slides.MiddleRecomposes | main.py:23-24 | a slide file name splits as "slide" + its middle + ".png" |
| Slides.DigitsValue | main.py:24 | the value of a decimal numeral of d digits is below 10^d |
| Slides.SlideKey | main.py:24 | the key `int()` reads from a keyed name is below 10^d for a middle of d digits |
| Slides.LeadingZeroIgnored | main.py:24 | a leading zero does not change a numeral's value, as with `int("01") == 1` |
| Slides.LeadingZeroSameKey | main.py:24 | `slide0<m>.png` is keyed and has the same key as `slide<m>.png` |
| Slides.ExampleKeys | main.py:24 | the keys of slide1.png, slide2.png and slide10.png are 1, 2 and 10 |
| Slides.SlideFiles | main.py:23 | the comprehension keeps exactly the listing's names that start with "slide" and end with ".png", and never grows the list |
| Slides.Insert | main.py:22-25 | inserting into a key-sorted list keeps it sorted, and adds exactly the one entry (as a multiset) |
| Slides.Sort | main.py:22-25 | `sorted` by key: the result is in key order and a permutation of its input |
| Slides.NamesPermutation | main.py:22-25 | rearranging (name, key) entries rearranges their names |
| Slides.Entries | main.py:24 | each name is paired with the key `int()` would compute for it, and the names are kept in order |
| Slides.SortKeepsFaithful | main.py:24-25 | sorting keeps every entry's key equal to the key of its name |
| Slides.SortedNamesInKeyOrder | main.py:22-25 | the names of key-sorted entries are in slide-number order, for every pair of positions |
| Slides.SlideFilesKeyed | main.py:23-24 | in a well-named listing every kept file has a numeric key, so the key function never raises |
| Slides.SortedSlides | main.py:22-25 | `pathImages` holds exactly the slide files of the listing (as a multiset), every one keyed, ordered by slide number for every pair of positions |
| Slides.SmallerKeyEarlier | main.py:22-25 | in the sorted list a smaller slide number always sits at an earlier position |
| Slides.SmallerNumberFirst | main.py:22-25 | of two slide files in the listing, the one with the smaller number comes first in `pathImages` |
| Slides.TwoBeforeTen | main.py:22-25 | the order is numeric, not lexical: slide2.png comes before slide10.png whenever both are present |
| Reducer.Initial | main.py:26-35 | the loop starts on slide 0 with one empty stroke, `annotationNumber` 0, no stroke in progress and the gate open |
| Reducer.Navigate | main.py:69-81 | a slide change sets the target slide, resets annotations to one empty stroke and arms the gate |
| Reducer.ZoneControl | main2.py:84-107 | in the zone no stroke is in progress afterwards; only `main2.py` toggles, and a toggle arms the gate on the same slide; when the gate stays open, only `annotationStart` has changed |
| Reducer.Draw | main.py:89-95 | DRAW with a stroke in progress appends the point to the last stroke; otherwise it opens a new stroke holding just the point; `annotationNumber` keeps naming the last stroke |
| Reducer.Gesture | main.py:63-98 | the if/elif chain keeps `annotationNumber == len(annotations) - 1`, and the ERASE pose always ends the stroke in progress |
| Reducer.Erase | main.py:101-105 | ERASE with a stroke present drops exactly the last one, decrements `annotationNumber` and arms the gate; otherwise nothing changes |
| Reducer.Debounce | main.py:108-112 | an armed counter counts up to 20 and the tick after that reopens the gate; an open gate changes nothing; the other variables are untouched |
| Reducer.Inv | main.py:26-35 | the loop invariant; it implies at least one slide, `annotationNumber >= -1` and a counter within 0..20 |
| Reducer.Step | main.py:52-112 | one loop pass keeps `annotationNumber == len(annotations) - 1` and a stroke in progress implies a stroke exists |
| Reducer.Run | main.py:41-112 | running any sequence of frames keeps `annotationNumber == len(annotations) - 1` (and a stroke in progress implies a stroke exists); no frames change nothing |
| ReducerProperties.InitialInv | main.py:26-35 | the initial state satisfies the loop invariant for any non-empty slide list |
| ReducerProperties.StepPreservesInv | main.py:52-112 | one pass keeps the slide index in range, the stroke bookkeeping consistent and the counter in 1..20 exactly while armed |
| ReducerProperties.RunPreservesInv | main.py:41-112 | any sequence of passes, of either entry point, keeps the invariant; in particular `pathImages[imgNumber]` is always in range |
| ReducerProperties.RunSnoc | main.py:41-112 | running one more frame is one more loop pass |
| ReducerProperties.SlideChangesExactly | main.py:63-81 | the slide changes if and only if the gate is open, the hand is in the zone, and there is a previous pinch away from slide 0 or (with no previous pinch) a next pinch away from the last slide; it moves by at most one |
| ReducerProperties.PreviousPinchResets | main.py:68-73 | a previous pinch that moves gives slide - 1, one empty stroke, `annotationNumber` 0, the gate armed with counter 1 |
| ReducerProperties.NextPinchResets | main.py:76-81 | a next pinch that moves gives slide + 1, one empty stroke, `annotationNumber` 0, the gate armed with counter 1 |
| ReducerProperties.PreviousPinchAtFirstSlide | main.py:68-69 | a previous pinch on slide 0 changes only `annotationStart`, does not arm the gate and hides any next pinch |
| ReducerProperties.NextPinchAtLastSlide | main.py:76-77 | a next pinch on the last slide changes only `annotationStart` and does not arm the gate |
| ReducerProperties.PreviousPinchHasPriority | main2.py:89-107 | a thumb–index pinch never moves forward and never toggles the spotlight |
| ReducerProperties.NavigateThenErase | main.py:63-105 | a slide change followed by the ERASE test in the same pass leaves `annotations == []` and `annotationNumber == -1` |
| ReducerProperties.DrawnPoints | main.py:94 | a run of DRAW frames contributes one point per frame |
| ReducerProperties.DrawExtendsStroke | main.py:89-95 | DRAW on a stroke in progress appends one point to the last stroke and changes nothing else |
| ReducerProperties.DrawOpensStroke | main.py:90-94 | DRAW after a non-drawing pass opens exactly one new stroke holding the point |
| ReducerProperties.DrawRunExtendsStroke | main.py:89-95 | K consecutive DRAW passes on a stroke in progress append exactly those K points, in order, to the last stroke |
| ReducerProperties.DrawRunOpensOneStroke | main.py:89-95 | K >= 1 DRAW passes after a non-drawing pass add exactly one stroke made of those K points |
| ReducerProperties.PointerKeepsStrokes | main.py:84-86 | a pointer-pose pass leaves the strokes alone and only ends the stroke in progress |
| ReducerProperties.SpotlightSuppressesDraw | main2.py:116-123 | while the spotlight is on, a DRAW pass changes nothing at all |
| ReducerProperties.EraseEndsStroke | main.py:101-105 | after an evaluated ERASE pass no stroke is in progress |
| ReducerProperties.EraseDropsLastStroke | main.py:101-105 | ERASE without navigation drops the last stroke, keeps the slide and arms the gate with counter 1, on either side of the line |
| ReducerProperties.EraseLastEmptyStroke | main.py:101-105 | erasing the single empty stroke leaves `annotations == []` and `annotationNumber == -1` |
| ReducerProperties.EraseWithoutStrokesIsNoOp | main.py:101-105 | with no strokes, ERASE (and no pinch) changes nothing and does not arm the gate |
| ReducerProperties.ArmedTickIgnoresHand | main.py:52 | while the gate is armed the hand is ignored and only the counter moves |
| ReducerProperties.ArmingStartsCount | main.py:105-109 | the pass that arms an open gate leaves the counter at 1 |
| ReducerProperties.ArmedRun | main.py:108-112 | armed passes within the delay change only the counter, by one each |
| ReducerProperties.ArmedRunReopens | main.py:108-112 | the armed pass that takes the counter past 20 reopens the gate and resets the counter |
| ReducerProperties.DebounceWindow | main.py:52-112 | after a pass that arms the gate, the next 20 passes ignore the hand and change nothing but the counter; the gate is open again for the 21st |
| ReducerProperties.RingPinchTogglesSpotlight | main2.py:84-107 | the spotlight toggles if and only if it is `main2.py`, the gate is open, the hand is in the zone, and only the thumb–ring pinch holds; the toggle arms the gate and keeps the slide |
| ReducerProperties.ToggleNeedsHand | main2.py:73 | a pass without a hand never toggles and only counts down |
| Spotlight.ToggleTwice | spotlight_module.py:73-84 | two toggles restore `is_active`; with hardware dimming they list, dim, then restore exactly the level the activation's listing yielded (its reading, or 1.0); without it no command runs |
| Spotlight.SpotlightController.constructor | spotlight_module.py:12-23 | inactive with the given radius and opacity; on a Mac with hardware dimming it runs two logged listings: `normal_brightness` is the level the first yields (its reading, or 1.0), and dimming stays on exactly when the second succeeded; otherwise no command runs, `normal_brightness` is 1.0 and the flag is as given |
| Spotlight.SpotlightController.CheckBrightnessAvailable | spotlight_module.py:25-32 | one listing runs and is logged with its outcome; hardware dimming is on afterwards exactly when it was on before and that listing succeeded |
| Spotlight.SpotlightController.SetBrightnessLevel | spotlight_module.py:34-41 | the command runs exactly on a Mac with hardware dimming; otherwise nothing runs and the result is failure |
| Spotlight.SpotlightController.GetBrightness | spotlight_module.py:43-52 | off a Mac: 1.0 and no command; on a Mac: one listing runs and is logged, and the level returned is that listing's reading, or 1.0 when it yielded none |
| Spotlight.SpotlightController.CreateOverlay | spotlight_module.py:54-56 | the image is returned unchanged exactly when the spotlight is inactive; the active composite uses the current radius and opacity |
| Spotlight.SpotlightController.Toggle | spotlight_module.py:73-84 | flips `is_active` and issues exactly the brightness commands `Toggled` describes: on activation with hardware dimming, a logged listing whose level (its reading, or 1.0) becomes `normal_brightness`, then the dimmed level; on deactivation, `normal_brightness`; returns the new state |
| Spotlight.SpotlightController.IncreaseRadius | spotlight_module.py:86-89 | radius becomes min(radius + amount, 400), and stays in [50, 400] if it was and the amount is non-negative |
| Spotlight.SpotlightController.DecreaseRadius | spotlight_module.py:91-94 | radius becomes max(radius - amount, 50), and stays in [50, 400] if it was and the amount is non-negative |
| Spotlight.SpotlightController.IncreaseDim | spotlight_module.py:96-99 | opacity becomes min(opacity + amount, 0.95), and stays in [0.3, 0.95] if it was |
| Spotlight.SpotlightController.DecreaseDim | spotlight_module.py:101-104 | opacity becomes max(opacity - amount, 0.3), and stays in [0.3, 0.95] if it was |
| Spotlight.SpotlightController.ToggleHardwareControl | spotlight_module.py:106-111 | flips and returns the flag; no brightness command ever runs and nothing else changes |
| Spotlight.SpotlightController.Cleanup | spotlight_module.py:113-116 | restores `normal_brightness` exactly when active, on a Mac, with hardware dimming, and changes nothing else |
| Spotlight.ToggleTwiceRestores | spotlight_module.py:73-84 | toggling the controller twice restores `is_active` |
| Presentation.KeyByte | main.py:127 | `waitKey(1) & 0xFF` is a byte and leaves codes 0..255 unchanged |
| Presentation.KeyActionOf | main2.py:174-188 | each binding (q, s, h, +/=, -/_, [, ]) is selected exactly by its key byte |
| Presentation.NoKeyIsNoAction | main2.py:174 | the "no key" code -1 has the byte 255 and triggers no action |
| Presentation.Presentation.constructor | main.py:22-35 | `pathImages` is the sorted slide list and the loop variables start as `Reducer.Initial`, satisfying the invariant |
| Presentation.Presentation.Zone | main.py:63-81 | the in-place pinch chain computes `Reducer.ZoneControl` |
| Presentation.Presentation.Tick | main.py:52-112 | the in-place loop body computes `Reducer.Step` for `main.py` and keeps the invariant |
| Presentation.Presentation.SpotlightZone | main2.py:84-107 | the in-place pinch chain computes `Reducer.ZoneControl` for `main2.py`, and toggles the controller exactly when it says so |
| Presentation.Presentation.EraseTest | main.py:101-105 | the in-place erase test computes `Reducer.Erase` |
| Presentation.Presentation.CountDown | main.py:108-112 | the in-place counter update computes `Reducer.Debounce` |
| Presentation.Presentation.SpotlightTick | main2.py:73-159 | the in-place loop body computes `Reducer.Step` for `main2.py` from the spotlight's state, toggles the controller exactly when Step says so and otherwise leaves it untouched, keeps the invariant, and yields the clamped spotlight centre exactly when the spotlight is on and a hand is seen |
| Presentation.Presentation.Play | main.py:41-128 | the loop's state is `Reducer.Run` over the frames processed; it stops right after the first 'q' and otherwise processes every tick |
| Presentation.HandleKey | main2.py:173-188 | quits exactly on 'q'; the controller after the key is related to the one before by `KeyEffect`: 's' toggles it as `Toggled` says, 'h' flips hardware dimming, +/= grows the radius by 20 to at most 400 and -/_ shrinks it by 20 to at least 50, ] raises the opacity by 0.1 to at most 0.95 and [ lowers it by 0.1 to at least 0.3, and any other key changes nothing |
| Presentation.SessionTick | main2.py:73-188 | one pass is a `SessionPass`: the presentation moves to `Reducer.Step` of the frame carrying the spotlight state at the start of the pass; the controller toggles (as `Toggled` says) exactly when that Step asks, giving `mid`, and the key then takes `mid` to the final controller as `KeyEffect` says; the invariant and the spotlight's bounds are kept, and the pass quits exactly on 'q' |
| Presentation.SessionLoop | main2.py:62-188 | the passes form a `SessionTrace` from the starting presentation state and controller to the final ones, one `SessionPass` per tick processed; frame i is tick i's hand with the spotlight state `snaps[i].isActive` at the start of its pass, and the final state is `Reducer.Run` over those frames; the invariant and the spotlight's bounds are kept; the loop stops right after the first 'q' and not before |
| Presentation.SpotlightSession | main2.py:62-191 | the loop as in SessionLoop, then cleanup: from the controller state `snaps[ran]` the loop leaves, exactly `SetBrightness(normal_brightness)` is issued when active on a Mac with hardware dimming, otherwise nothing, and no other field changes |
| Presentation.PassFlipsSpotlight | main2.py:84-178 | after a pass the spotlight is on exactly when it was on before, flipped once if the frame's thumb–ring gesture toggled it and once more if the key was 's' |
| Presentation.TraceFlipsSpotlight | main2.py:62-188 | in every pass of a session trace, the spotlight's on/off state follows PassFlipsSpotlight |

## Left out

- Camera capture, mirroring, image loading and resizing, and every drawing and `imshow` call are left out: they are rendering and I/O. The webcam thumbnail, the status text, the pointer circle and the stroke lines are not modelled.
- The hand detector (`findHands`, `fingersUp`) is left out. Its output for each frame is an input to the model: a `Hand` with 21 landmarks, a finger-up vector and a centre, or no hand.
- `os.listdir` is taken as an input sequence of names. Reading the files is not modelled.
- Presentation.Presentation.constructor: requires a well-named listing with at least one slide file. In the source a name like `slideX.png` makes `int()` raise, and an empty list makes `pathImages[0]` raise on the first frame. The model does not model those crashes.
- Slides.Sort: Python's `sorted` is stable. `Insert` places an entry after equal keys, but no contract states stability. It matters only for names with equal numbers, such as `slide1.png` and `slide01.png`.
- Slides.SlideKey: defined only for names whose middle (the text between one leading "slide" and one trailing ".png") is plain ASCII decimal digits. The source also sorts names that `WellNamed` excludes. `str.replace` removes every occurrence, so `slideslide3.png` and `slide3.png.png` get key 3. Python's `int()` also accepts signs, surrounding spaces, underscores between digits and non-ASCII digits. None of these is modelled.
- Gestures.Interp: uses exact integer arithmetic (a floor of the exact quotient). It does not model the floating-point rounding of `np.interp`, which could differ by one pixel at an exact boundary.
- Spotlight.SpotlightController.IncreaseDim: the opacity is an exact real. Float rounding of `+ 0.1` is not modelled, and neither is that of `DecreaseDim`.
- Spotlight.SpotlightController.CreateOverlay: the active branch is symbolic (`Spotlit`). The mask, the Gaussian blur and the blending arithmetic are image processing and are not modelled.
- Spotlight.SpotlightController.GetBrightness: on a Mac the reading is an oracle value, recorded in the log entry of its listing. Splitting the output on "brightness" and parsing the float are not modelled, and a failed parse is folded into "no reading".
- The `brightness` tool runs are oracles (`RunList`, `RunSet`) that may fail. Timeouts and captured output are not modelled, and the ignored success flag of `_set_brightness` stays ignored.
- `platform.system()` becomes the constructor parameter `isMac`.
- `print` output is left out.
- Presentation.Presentation.Play: the `while True` loop runs over a finite sequence of camera ticks. A session that never presses 'q' ends when the sequence does. Presentation.SessionLoop is bounded the same way.
- `cap.release()` and `cv2.destroyAllWindows()` are left out: they release resources.
