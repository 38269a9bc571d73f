/**
 * spotlight_module.py: the spotlight's on/off state, its radius and dim
 * opacity, and the best-effort host brightness control. The external
 * `brightness` command is an oracle: each run may fail, and a listing may or
 * may not yield a reading; the ghost log `commands` records every run, each
 * listing with its outcome.
 */
module Spotlight {
  import opened Wrappers

  const MinRadius := 50
  const MaxRadius := 400
  const MinDim := 0.3
  const MaxDim := 0.95
  const DefaultRadiusStep := 20
  const DefaultDimStep := 0.1
  /** What `_get_brightness` falls back to, and the initial `normal_brightness`. */
  const FullBrightness := 1.0

  /**
   * A run of the external tool: `brightness -l`, with whether it succeeded and
   * the level its output yields, if any; or `brightness <level>`.
   */
  datatype Command = ListBrightness(ok: bool, reading: Option<real>) | SetBrightness(level: real)

  /** The level `_get_brightness` returns from a listing: its reading, or 1.0 when there is none. */
  function ReadLevel(c: Command): (level: real)
    requires c.ListBrightness?
    ensures c.reading.Some? ==> level == c.reading.value
    ensures c.reading.None? ==> level == FullBrightness
  {
    match c.reading
    case Some(v) => v
    case None => FullBrightness
  }

  /** All of the controller's state, the log included. */
  datatype Snapshot = Snapshot(
    isActive: bool,
    radius: int,
    dimOpacity: real,
    hardwareDimEnabled: bool,
    dimmedBrightness: real,
    isMac: bool,
    normalBrightness: real,
    commands: seq<Command>)

  /** What `create_overlay` yields: the untouched image, or the composite the active path renders. */
  datatype Overlay<Img> =
    | Unchanged(image: Img)
    | Spotlit(base: Img, centerX: int, centerY: int, radius: int, dimOpacity: real)

  /** Python's `min` on the integer radius. */
  function Min(a: int, b: int): (r: int)
    ensures r <= a && r <= b && (r == a || r == b)
  {
    if a <= b then a else b
  }

  /** Python's `max` on the integer radius. */
  function Max(a: int, b: int): (r: int)
    ensures r >= a && r >= b && (r == a || r == b)
  {
    if a >= b then a else b
  }

  /** Python's `min` on the dim opacity, a real. */
  function MinReal(a: real, b: real): (r: real)
    ensures r <= a && r <= b && (r == a || r == b)
  {
    if a <= b then a else b
  }

  /** Python's `max` on the dim opacity, a real. */
  function MaxReal(a: real, b: real): (r: real)
    ensures r >= a && r >= b && (r == a || r == b)
  {
    if a >= b then a else b
  }

  /**
   * What `toggle` does: flip `is_active`; on a Mac with hardware dimming, an
   * activation lists the brightness, saves the level that listing yields as
   * `normal_brightness` and requests the dimmed level, a deactivation requests
   * `normal_brightness`; otherwise no command runs.
   */
  ghost predicate Toggled(a: Snapshot, b: Snapshot) {
    b.isActive == !a.isActive &&
    b.radius == a.radius && b.dimOpacity == a.dimOpacity &&
    b.hardwareDimEnabled == a.hardwareDimEnabled &&
    b.dimmedBrightness == a.dimmedBrightness && b.isMac == a.isMac &&
    if a.isMac && a.hardwareDimEnabled then
      if b.isActive then
        |b.commands| == |a.commands| + 2 &&
        var listing := b.commands[|a.commands|];
        listing.ListBrightness? && b.normalBrightness == ReadLevel(listing) &&
        b.commands == a.commands + [listing, SetBrightness(a.dimmedBrightness)]
      else b.commands == a.commands + [SetBrightness(a.normalBrightness)] && b.normalBrightness == a.normalBrightness
    else
      b.commands == a.commands && b.normalBrightness == a.normalBrightness
  }

  /**
   * Two toggles restore `is_active`, and with hardware dimming they list, dim,
   * and then restore the level the activation's listing read.
   */
  lemma ToggleTwice(a: Snapshot, b: Snapshot, c: Snapshot)
    requires Toggled(a, b) && Toggled(b, c)
    ensures c.isActive == a.isActive && c.radius == a.radius && c.dimOpacity == a.dimOpacity
    ensures !a.isActive && a.isMac && a.hardwareDimEnabled ==>
      |b.commands| == |a.commands| + 2 && b.commands[|a.commands|].ListBrightness? &&
      c.commands == a.commands + [b.commands[|a.commands|], SetBrightness(a.dimmedBrightness),
                                  SetBrightness(ReadLevel(b.commands[|a.commands|]))]
    ensures !(a.isMac && a.hardwareDimEnabled) ==> c.commands == a.commands
  {
  }

  class SpotlightController {
    var radius: int
    var dimOpacity: real
    var hardwareDimEnabled: bool
    const dimmedBrightness: real
    var isActive: bool
    /** `platform.system() == 'Darwin'`, fixed when the controller is made. */
    const isMac: bool
    var normalBrightness: real
    ghost var commands: seq<Command>

    ghost function Snap(): Snapshot
      reads this
    {
      Snapshot(isActive, radius, dimOpacity, hardwareDimEnabled, dimmedBrightness, isMac, normalBrightness, commands)
    }

    /**
     * `__init__`: inactive, full brightness; on a Mac with hardware dimming it
     * saves the level a first listing yields and then checks the tool with a
     * second listing, whose failure switches the feature off. Radius and
     * opacity are taken as given, unclamped.
     */
    constructor (radius: int, dimOpacity: real, hardwareDimEnabled: bool, dimmedBrightness: real, isMac: bool)
      ensures this.radius == radius && this.dimOpacity == dimOpacity
      ensures this.dimmedBrightness == dimmedBrightness && this.isMac == isMac && !isActive
      ensures isMac && hardwareDimEnabled ==>
        |commands| == 2 && commands[0].ListBrightness? && commands[1].ListBrightness? &&
        normalBrightness == ReadLevel(commands[0]) && this.hardwareDimEnabled == commands[1].ok
      ensures !(isMac && hardwareDimEnabled) ==>
        commands == [] && normalBrightness == FullBrightness && this.hardwareDimEnabled == hardwareDimEnabled
      ensures this.hardwareDimEnabled ==> hardwareDimEnabled
    {
      this.radius := radius;
      this.dimOpacity := dimOpacity;
      this.hardwareDimEnabled := hardwareDimEnabled;
      this.dimmedBrightness := dimmedBrightness;
      this.isActive := false;
      this.isMac := isMac;
      this.normalBrightness := FullBrightness;
      this.commands := [];
      new;
      if isMac && hardwareDimEnabled {
        normalBrightness := GetBrightness();
        CheckBrightnessAvailable();
      }
    }

    /** The oracle for `subprocess.run(['brightness', '-l'])`: it may fail, and its output may not parse. */
    method RunList() returns (ran: bool, reading: Option<real>)
      modifies this`commands
      ensures commands == old(commands) + [ListBrightness(ran, reading)]
      ensures !ran ==> reading == None
    {
      ran := *;
      reading := *;
      if !ran {
        reading := None;
      }
      commands := commands + [ListBrightness(ran, reading)];
    }

    /** The oracle for `subprocess.run(['brightness', str(level)])`: it may fail. */
    method RunSet(level: real) returns (ok: bool)
      modifies this`commands
      ensures commands == old(commands) + [SetBrightness(level)]
    {
      ok := *;
      commands := commands + [SetBrightness(level)];
    }

    /** `_check_brightness_available`: a failed listing switches hardware dimming off. */
    method CheckBrightnessAvailable()
      modifies this`commands, this`hardwareDimEnabled
      ensures |commands| == |old(commands)| + 1 && commands[..|old(commands)|] == old(commands)
      ensures commands[|old(commands)|].ListBrightness?
      ensures hardwareDimEnabled == (old(hardwareDimEnabled) && commands[|old(commands)|].ok)
    {
      var ran, _ := RunList();
      if !ran {
        hardwareDimEnabled := false;
      }
    }

    /** `_set_brightness`: does nothing and reports failure unless on a Mac with hardware dimming enabled. */
    method SetBrightnessLevel(level: real) returns (ok: bool)
      modifies this`commands
      ensures isMac && hardwareDimEnabled ==> commands == old(commands) + [SetBrightness(level)]
      ensures !(isMac && hardwareDimEnabled) ==> commands == old(commands) && !ok
    {
      if !isMac || !hardwareDimEnabled {
        return false;
      }
      ok := RunSet(level);
    }

    /** `_get_brightness`: 1.0 without any command off a Mac; on a Mac the reading, or 1.0 when there is none. */
    method GetBrightness() returns (level: real)
      modifies this`commands
      ensures !isMac ==> level == FullBrightness && commands == old(commands)
      ensures isMac ==>
        |commands| == |old(commands)| + 1 && commands[..|old(commands)|] == old(commands) &&
        commands[|old(commands)|].ListBrightness? && level == ReadLevel(commands[|old(commands)|])
    {
      if !isMac {
        return FullBrightness;
      }
      var _, reading := RunList();
      level := if reading.Some? then reading.value else FullBrightness;
    }

    /** `create_overlay`: the image itself while inactive. */
    function CreateOverlay<Img>(img: Img, centerX: int, centerY: int): (r: Overlay<Img>)
      reads this
      ensures !isActive <==> r == Unchanged(img)
      ensures r.Spotlit? ==> r.radius == radius && r.dimOpacity == dimOpacity && r.base == img
    {
      if !isActive then Unchanged(img)
      else Spotlit(img, centerX, centerY, radius, dimOpacity)
    }

    /** `toggle`: flips `is_active`, issues the brightness commands described by Toggled, returns the new state. */
    method Toggle() returns (active: bool)
      modifies this
      ensures Toggled(old(Snap()), Snap())
      ensures active == isActive
    {
      isActive := !isActive;
      if isActive {
        if isMac && hardwareDimEnabled {
          normalBrightness := GetBrightness();
          var _ := SetBrightnessLevel(dimmedBrightness);
        }
      } else {
        if isMac && hardwareDimEnabled {
          var _ := SetBrightnessLevel(normalBrightness);
        }
      }
      active := isActive;
    }

    /** `increase_radius`: at most 400. */
    method IncreaseRadius(amount: int) returns (r: int)
      modifies this`radius
      ensures radius == Min(old(radius) + amount, MaxRadius) && r == radius
      ensures MinRadius <= old(radius) <= MaxRadius && amount >= 0 ==> MinRadius <= radius <= MaxRadius
    {
      radius := Min(radius + amount, MaxRadius);
      r := radius;
    }

    /** `decrease_radius`: at least 50. */
    method DecreaseRadius(amount: int) returns (r: int)
      modifies this`radius
      ensures radius == Max(old(radius) - amount, MinRadius) && r == radius
      ensures MinRadius <= old(radius) <= MaxRadius && amount >= 0 ==> MinRadius <= radius <= MaxRadius
    {
      radius := Max(radius - amount, MinRadius);
      r := radius;
    }

    /** `increase_dim`: at most 0.95. */
    method IncreaseDim(amount: real) returns (r: real)
      modifies this`dimOpacity
      ensures dimOpacity == MinReal(old(dimOpacity) + amount, MaxDim) && r == dimOpacity
      ensures MinDim <= old(dimOpacity) <= MaxDim && amount >= 0.0 ==> MinDim <= dimOpacity <= MaxDim
    {
      dimOpacity := MinReal(dimOpacity + amount, MaxDim);
      r := dimOpacity;
    }

    /** `decrease_dim`: at least 0.3. */
    method DecreaseDim(amount: real) returns (r: real)
      modifies this`dimOpacity
      ensures dimOpacity == MaxReal(old(dimOpacity) - amount, MinDim) && r == dimOpacity
      ensures MinDim <= old(dimOpacity) <= MaxDim && amount >= 0.0 ==> MinDim <= dimOpacity <= MaxDim
    {
      dimOpacity := MaxReal(dimOpacity - amount, MinDim);
      r := dimOpacity;
    }

    /**
     * `toggle_hardware_control`: flips the flag and returns it. The restore it
     * attempts when switching off runs after the flag is already false, so
     * `_set_brightness` returns early and no command is ever issued.
     */
    method ToggleHardwareControl() returns (enabled: bool)
      modifies this
      ensures hardwareDimEnabled == !old(hardwareDimEnabled) && enabled == hardwareDimEnabled
      ensures commands == old(commands)
      ensures isActive == old(isActive) && radius == old(radius) && dimOpacity == old(dimOpacity)
      ensures normalBrightness == old(normalBrightness)
    {
      hardwareDimEnabled := !hardwareDimEnabled;
      if !hardwareDimEnabled && isActive && isMac {
        var _ := SetBrightnessLevel(normalBrightness);
      }
      enabled := hardwareDimEnabled;
    }

    /** `cleanup`: restores `normal_brightness` exactly when active, on a Mac, with hardware dimming. */
    method Cleanup()
      modifies this
      ensures isActive && isMac && hardwareDimEnabled ==>
        commands == old(commands) + [SetBrightness(normalBrightness)]
      ensures !(isActive && isMac && hardwareDimEnabled) ==> commands == old(commands)
      ensures Snap().(commands := old(commands)) == old(Snap())
    {
      if isActive && isMac && hardwareDimEnabled {
        var _ := SetBrightnessLevel(normalBrightness);
      }
    }
  }

  /** Toggling twice restores `is_active` on the object itself. */
  method ToggleTwiceRestores(c: SpotlightController)
    modifies c
    ensures c.isActive == old(c.isActive)
  {
    ghost var a := c.Snap();
    var _ := c.Toggle();
    ghost var b := c.Snap();
    var _ := c.Toggle();
    ToggleTwice(a, b, c.Snap());
  }
}
