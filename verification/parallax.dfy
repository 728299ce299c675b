/**
 * The parallax state machine shared by the `Parallax` class and the jQuery
 * `Plugin` class.  Browser events, timers and animation frames arrive as
 * method calls; the subscribed listeners are a set of event kinds, and the
 * layer offsets a frame computes are written into an array indexed like
 * the cached depths.
 */
module ParallaxMachine {
  import opened JsValues
  import opened Helpers
  import opened Motion
  import opened Settings

  /** The events an instance can listen to. */
  datatype Listener = DeviceOrientation | MouseMove | FaceTracking | Resize

  /** What the browser reports when the script loads. */
  datatype Browser = Browser(desktop: bool, orientationSupport: bool)

  /** The element's offset parent chain and its own size. */
  datatype ElementBox = ElementBox(chain: seq<Box>, width: real, height: real)

  /** `depths.push(data(layer, 'depth') || 0)` for every layer, in order. */
  method CacheDepths(layers: seq<map<string, string>>) returns (depths: seq<Value>)
    ensures |depths| == |layers|
    ensures forall j | 0 <= j < |layers| :: depths[j] == CachedDepth(layers[j])
  {
    depths := [];
    var i := 0;
    while i < |layers|
      invariant 0 <= i <= |layers|
      invariant |depths| == i
      invariant forall j | 0 <= j < i :: depths[j] == CachedDepth(layers[j])
    {
      depths := depths + [CachedDepth(layers[i])];
      i := i + 1;
    }
  }

  class Parallax {
    const variant: Variant
    /** The user agent is not a phone or tablet. */
    const desktop: bool
    /** A face tracker was started because `headtrackr` was exactly `true`. */
    const htrackr: bool
    /** The offsets of each layer set by the latest frame. */
    const positions: array<(real, real)>

    var config: Config
    var depths: seq<Value>

    var orientationSupport: bool
    var orientationStatus: int
    var enabled: bool
    var listeners: set<Listener>
    /** An animation frame is requested. */
    var framePending: bool
    /** The calibration timer is set. */
    var calibrationQueued: bool
    /** Orientation timers that have been set and not yet fired. */
    var orientationChecks: nat
    var calibrationFlag: bool
    /** `null` is `None`. */
    var portrait: Option<bool>

    var ox: real, oy: real, ow: real, oh: real
    var ww: real, wh: real, hw: real, hh: real
    var cx: real, cy: real
    var ix: real, iy: real
    var mx: real, my: real
    var vx: real, vy: real

    /** `this.headtrackr === false && this.orientationSupport`: input comes from the device sensor. */
    predicate OrientationMode()
      reads this`config, this`orientationSupport
    {
      config.headtrackr == Bool(false) && orientationSupport
    }

    /** The one input listener an enabled instance subscribes. */
    function InputSource(): (l: Listener)
      reads this`config, this`orientationSupport
      ensures l != Resize
    {
      if OrientationMode() then DeviceOrientation
      else if htrackr then FaceTracking
      else MouseMove
    }

    /**
     * An enabled instance listens to its input source and to resizes and has
     * a frame requested; a disabled one listens to nothing and has none.
     */
    ghost predicate Valid()
      reads this`depths, this`ww, this`wh, this`hw, this`hh, this`listeners, this`enabled,
            this`framePending, this`config, this`orientationSupport
    {
      && positions.Length == |depths|
      && ww > 0.0 && wh > 0.0
      && hw == ww / 2.0 && hh == wh / 2.0
      && listeners == (if enabled then {InputSource(), Resize} else {})
      && framePending == enabled
    }

    /** The motion of the next frame, clamped where a limit is set. */
    function FrameMotion(): (real, real)
      reads this`ix, this`iy, this`cx, this`cy, this`portrait, this`config
    {
      var raw := RawMotionNow();
      (Limited(raw.0, LimitOf(config.limitX)), Limited(raw.1, LimitOf(config.limitY)))
    }

    /** The motion before limiting for the current input, calibration point and settings. */
    function RawMotionNow(): (real, real)
      reads this`ix, this`iy, this`cx, this`cy, this`portrait, this`config
    {
      RawMotion(ix, iy, cx, cy, portrait == Some(true),
                Truthy(config.calibrateX), Truthy(config.calibrateY), ToNumber(config.scalarX), ToNumber(config.scalarY))
    }

    /** The offset of layer `i` for the velocity `(x, y)`. */
    function LayerPosition(x: real, y: real, i: nat): (real, real)
      requires i < |depths|
      reads this`depths, this`config
    {
      (LayerOffset(x, ToNumber(depths[i]), Truthy(config.invertX)), LayerOffset(y, ToNumber(depths[i]), Truthy(config.invertY)))
    }

    /** Whether the device is held upright, as `onDeviceOrientation` decides it. */
    function PortraitNow(innerWidth: real, innerHeight: real): bool
      reads this`ww, this`wh
    {
      if variant == Standalone then wh > ww else innerHeight > innerWidth
    }

    /**
     * The state fields a new instance starts with, for settings already
     * composed: disabled, no timers, a raised calibration flag, an unknown
     * orientation, zero input and motion, and one cached depth per layer.
     */
    constructor (variant: Variant, browser: Browser, config: Config, layers: seq<map<string, string>>)
      ensures this.variant == variant && desktop == browser.desktop && this.config == config
      ensures htrackr <==> config.headtrackr == Bool(true)
      ensures |depths| == |layers|
      ensures forall j | 0 <= j < |layers| :: depths[j] == CachedDepth(layers[j])
      ensures fresh(positions) && positions.Length == |layers|
      ensures orientationSupport == browser.orientationSupport && orientationStatus == 0
      ensures !enabled && listeners == {} && !framePending
      ensures calibrationFlag && !calibrationQueued && orientationChecks == 0 && portrait == None
      ensures cx == 0.0 && cy == 0.0 && ix == 0.0 && iy == 0.0
      ensures mx == 0.0 && my == 0.0 && vx == 0.0 && vy == 0.0
    {
      this.variant := variant;
      desktop := browser.desktop;
      orientationSupport := browser.orientationSupport;
      orientationStatus := 0;
      this.config := config;
      htrackr := config.headtrackr == Bool(true);
      calibrationQueued := false;
      orientationChecks := 0;
      calibrationFlag := true;
      enabled := false;
      listeners := {};
      framePending := false;
      portrait := None;
      ox, oy, ow, oh := 0.0, 0.0, 0.0, 0.0;
      ww, wh, hw, hh := 0.0, 0.0, 0.0, 0.0;
      cx, cy, ix, iy := 0.0, 0.0, 0.0, 0.0;
      mx, my, vx, vy := 0.0, 0.0, 0.0, 0.0;
      var cache := CacheDepths(layers);
      depths := cache;
      positions := new (real, real)[|layers|];
    }

    /**
     * The setup `initialise` ends with: measures the element and the window,
     * enables the instance and sets the calibration timer.
     */
    method Initialise(element: ElementBox, innerWidth: real, innerHeight: real)
      requires innerWidth > 0.0 && innerHeight > 0.0
      requires positions.Length == |depths| && !enabled && listeners == {} && !framePending
      modifies this`ox, this`oy, this`ow, this`oh, this`ww, this`wh, this`hw, this`hh,
               this`enabled, this`listeners, this`framePending, this`portrait, this`cx, this`cy,
               this`orientationChecks, this`calibrationQueued
      ensures Valid() && enabled && listeners == {InputSource(), Resize} && calibrationQueued
      ensures OrientationMode() ==>
        portrait == None && cx == old(cx) && cy == old(cy) && orientationChecks == old(orientationChecks) + 1
      ensures !OrientationMode() ==>
        portrait == Some(false) && cx == 0.0 && cy == 0.0 && orientationChecks == old(orientationChecks)
      ensures ox == ChainOffset(element.chain).0 && oy == ChainOffset(element.chain).1 && ow == element.width && oh == element.height
      ensures ww == innerWidth && wh == innerHeight
    {
      UpdateDimensions(element, innerWidth, innerHeight);
      Enable();
      QueueCalibration();
    }

    /** Measures the element and caches the window size and its halves. */
    method UpdateDimensions(element: ElementBox, innerWidth: real, innerHeight: real)
      requires innerWidth > 0.0 && innerHeight > 0.0
      modifies this`ox, this`oy, this`ow, this`oh, this`ww, this`wh, this`hw, this`hh
      ensures ox == ChainOffset(element.chain).0 && oy == ChainOffset(element.chain).1 && ow == element.width && oh == element.height
      ensures ww == innerWidth && wh == innerHeight && hw == ww / 2.0 && hh == wh / 2.0
    {
      var left, top := Offset(element.chain);
      ox, oy := left, top;
      ow, oh := element.width, element.height;
      ww, wh := innerWidth, innerHeight;
      hw, hh := ww / 2.0, wh / 2.0;
    }

    /** Sets (or resets) the calibration timer. */
    method QueueCalibration()
      requires Valid()
      modifies this`calibrationQueued
      ensures Valid()
      ensures calibrationQueued
    {
      calibrationQueued := true;
    }

    /**
     * Subscribes the input source and the resize listener and requests a
     * frame; in sensor mode it forgets the orientation and sets the
     * orientation timer, otherwise it resets the calibration point.  Does
     * nothing on an enabled instance.
     */
    method Enable()
      requires Valid()
      modifies this`enabled, this`listeners, this`framePending, this`portrait, this`cx, this`cy, this`orientationChecks
      ensures Valid() && enabled
      ensures listeners == {InputSource(), Resize}
      ensures old(enabled) ==> unchanged(this)
      ensures !old(enabled) && OrientationMode() ==>
        portrait == None && cx == old(cx) && cy == old(cy) && orientationChecks == old(orientationChecks) + 1
      ensures !old(enabled) && !OrientationMode() ==>
        portrait == Some(false) && cx == 0.0 && cy == 0.0 && orientationChecks == old(orientationChecks)
    {
      if !enabled {
        enabled := true;
        if OrientationMode() {
          portrait := None;
          listeners := listeners + {DeviceOrientation};
          orientationChecks := orientationChecks + 1;
        } else {
          cx := 0.0;
          cy := 0.0;
          portrait := Some(false);
          if !htrackr {
            listeners := listeners + {MouseMove};
          } else {
            listeners := listeners + {FaceTracking};
          }
        }
        listeners := listeners + {Resize};
        framePending := true;
      }
    }

    /**
     * Unsubscribes the input source and the resize listener and cancels the
     * frame.  Does nothing on a disabled instance.
     */
    method Disable()
      requires Valid()
      modifies this`enabled, this`listeners, this`framePending
      ensures Valid() && !enabled
      ensures listeners == {} && !framePending
      ensures !old(enabled) ==> unchanged(this)
    {
      if enabled {
        enabled := false;
        if OrientationMode() {
          listeners := listeners - {DeviceOrientation};
        } else {
          if !htrackr {
            listeners := listeners - {MouseMove};
          } else {
            listeners := listeners - {FaceTracking};
          }
        }
        listeners := listeners - {Resize};
        framePending := false;
      }
    }

    method Calibrate(x: Option<Value>, y: Option<Value>)
      requires Valid()
      modifies this`config
      ensures Valid()
      ensures config == old(config).(calibrateX := Given(x, old(config).calibrateX), calibrateY := Given(y, old(config).calibrateY))
    {
      config := config.(calibrateX := Given(x, config.calibrateX), calibrateY := Given(y, config.calibrateY));
    }

    method Invert(x: Option<Value>, y: Option<Value>)
      requires Valid()
      modifies this`config
      ensures Valid()
      ensures config == old(config).(invertX := Given(x, old(config).invertX), invertY := Given(y, old(config).invertY))
    {
      config := config.(invertX := Given(x, config.invertX), invertY := Given(y, config.invertY));
    }

    method Friction(x: Option<Value>, y: Option<Value>)
      requires Valid()
      modifies this`config
      ensures Valid()
      ensures config == old(config).(frictionX := Given(x, old(config).frictionX), frictionY := Given(y, old(config).frictionY))
    {
      config := config.(frictionX := Given(x, config.frictionX), frictionY := Given(y, config.frictionY));
    }

    method Scalar(x: Option<Value>, y: Option<Value>)
      requires Valid()
      modifies this`config
      ensures Valid()
      ensures config == old(config).(scalarX := Given(x, old(config).scalarX), scalarY := Given(y, old(config).scalarY))
    {
      config := config.(scalarX := Given(x, config.scalarX), scalarY := Given(y, config.scalarY));
    }

    method Limit(x: Option<Value>, y: Option<Value>)
      requires Valid()
      modifies this`config
      ensures Valid()
      ensures config == old(config).(limitX := Given(x, old(config).limitX), limitY := Given(y, old(config).limitY))
    {
      config := config.(limitX := Given(x, config.limitX), limitY := Given(y, config.limitY));
    }

    /**
     * The orientation timer fires: when sensor support was claimed but no
     * orientation event has arrived, the instance falls back to mouse (or
     * face tracking) input, re-enabled with a reset calibration point.
     */
    method OnOrientationTimer()
      requires Valid() && orientationChecks > 0
      modifies this`enabled, this`listeners, this`framePending, this`portrait, this`cx, this`cy,
               this`orientationChecks, this`orientationSupport
      ensures Valid()
      ensures orientationChecks == old(orientationChecks) - 1
      ensures old(orientationSupport) && old(orientationStatus) == 0 ==>
        && enabled && !orientationSupport
        && listeners == {if htrackr then FaceTracking else MouseMove, Resize}
        && portrait == Some(false) && cx == 0.0 && cy == 0.0
      ensures !(old(orientationSupport) && old(orientationStatus) == 0) ==>
        && enabled == old(enabled) && listeners == old(listeners) && framePending == old(framePending)
        && portrait == old(portrait) && cx == old(cx) && cy == old(cy)
        && orientationSupport == old(orientationSupport)
    {
      orientationChecks := orientationChecks - 1;
      if orientationSupport && orientationStatus == 0 {
        Disable();
        orientationSupport := false;
        Enable();
      }
    }

    /** The calibration timer fires and asks for a new calibration point. */
    method OnCalibrationTimer()
      requires calibrationQueued
      modifies this`calibrationFlag, this`calibrationQueued
      ensures calibrationFlag && !calibrationQueued
    {
      calibrationQueued := false;
      calibrationFlag := true;
    }

    /** A resize, delivered while the resize listener is subscribed: re-measures the element and the window. */
    method OnWindowResize(element: ElementBox, innerWidth: real, innerHeight: real)
      requires Valid() && Resize in listeners && innerWidth > 0.0 && innerHeight > 0.0
      modifies this`ox, this`oy, this`ow, this`oh, this`ww, this`wh, this`hw, this`hh
      ensures Valid()
      ensures ox == ChainOffset(element.chain).0 && oy == ChainOffset(element.chain).1 && ow == element.width && oh == element.height
      ensures ww == innerWidth && wh == innerHeight
    {
      UpdateDimensions(element, innerWidth, innerHeight);
    }

    /** Mouse input: the pointer's offset from the window centre in half-window units. */
    method OnMouseMove(pageX: real, pageY: real)
      requires Valid() && MouseMove in listeners
      modifies this`ix, this`iy
      ensures Valid()
      ensures ix == MouseInput(pageX, hw) && iy == MouseInput(pageY, hh)
      ensures pageX == hw && pageY == hh ==> ix == 0.0 && iy == 0.0
    {
      ix := MouseInput(pageX, hw);
      iy := MouseInput(pageY, hh);
    }

    /**
     * Sensor input.  Ignored on desktop and when either angle is null.
     * Otherwise it records that the sensor works, turns the angles into
     * input, raises the calibration flag when the orientation changed, and
     * consumes a raised flag by making the new input the calibration point.
     * `innerWidth`/`innerHeight` are the window size at event time, which
     * only the jQuery plugin reads.
     */
    method OnDeviceOrientation(beta: Option<real>, gamma: Option<real>, innerWidth: real, innerHeight: real)
      requires Valid() && DeviceOrientation in listeners
      modifies this`orientationStatus, this`portrait, this`calibrationFlag, this`cx, this`cy, this`ix, this`iy
      ensures Valid()
      ensures desktop || beta.None? || gamma.None? ==> unchanged(this)
      ensures !desktop && beta.Some? && gamma.Some? ==>
        && orientationStatus == 1
        && ix == RotationInput(beta.value) && iy == RotationInput(gamma.value)
        && portrait == Some(PortraitNow(innerWidth, innerHeight))
        && !calibrationFlag
        && (old(calibrationFlag) || old(portrait) != portrait ==> cx == ix && cy == iy)
        && (!old(calibrationFlag) && old(portrait) == portrait ==> cx == old(cx) && cy == old(cy))
    {
      if !desktop && beta.Some? && gamma.Some? {
        orientationStatus := 1;
        var x := RotationInput(beta.value);
        var y := RotationInput(gamma.value);
        SetPortrait(PortraitNow(innerWidth, innerHeight));
        ConsumeCalibration(x, y);
        ix := x;
        iy := y;
      }
    }

    /** Records the orientation; a change raises the calibration flag. */
    method SetPortrait(now: bool)
      requires Valid()
      modifies this`portrait, this`calibrationFlag
      ensures Valid()
      ensures portrait == Some(now)
      ensures calibrationFlag == (old(calibrationFlag) || old(portrait) != Some(now))
    {
      if portrait != Some(now) {
        portrait := Some(now);
        calibrationFlag := true;
      }
    }

    /** A raised calibration flag makes `(x, y)` the calibration point and is cleared. */
    method ConsumeCalibration(x: real, y: real)
      requires Valid()
      modifies this`calibrationFlag, this`cx, this`cy
      ensures Valid()
      ensures !calibrationFlag
      ensures old(calibrationFlag) ==> cx == x && cy == y
      ensures !old(calibrationFlag) ==> cx == old(cx) && cy == old(cy)
    {
      if calibrationFlag {
        calibrationFlag := false;
        cx := x;
        cy := y;
      }
    }

    /**
     * One animation frame: queues a calibration when the input drifted past
     * the threshold, computes the motion, moves the velocity towards it by
     * the friction and places every layer by its depth.
     */
    method OnAnimationFrame()
      requires Valid() && framePending
      modifies this`mx, this`my, this`vx, this`vy, this`calibrationQueued, positions
      ensures Valid() && framePending
      ensures calibrationQueued == (old(calibrationQueued) || NeedsCalibration(ix - cx, iy - cy, ToNumber(config.calibrationThreshold)))
      ensures mx == FrameMotion().0 && my == FrameMotion().1
      ensures vx == Smooth(old(vx), mx, ToNumber(config.frictionX)) && vy == Smooth(old(vy), my, ToNumber(config.frictionY))
      ensures forall i | 0 <= i < positions.Length :: positions[i] == LayerPosition(vx, vy, i)
    {
      CheckCalibration();
      UpdateMotion();
      ApplyFriction();
      PlaceLayers();
    }

    /** Queues a calibration when either input delta exceeds the threshold. */
    method CheckCalibration()
      requires Valid()
      modifies this`calibrationQueued
      ensures Valid()
      ensures calibrationQueued == (old(calibrationQueued) || NeedsCalibration(ix - cx, iy - cy, ToNumber(config.calibrationThreshold)))
    {
      var dx := ix - cx;
      var dy := iy - cy;
      var threshold := ToNumber(config.calibrationThreshold);
      if Abs(dx) > threshold || Abs(dy) > threshold {
        QueueCalibration();
      }
    }

    /** Moves each velocity towards the motion by the axis friction. */
    method ApplyFriction()
      requires Valid()
      modifies this`vx, this`vy
      ensures Valid()
      ensures vx == Smooth(old(vx), mx, ToNumber(config.frictionX))
      ensures vy == Smooth(old(vy), my, ToNumber(config.frictionY))
    {
      vx := Smooth(vx, mx, ToNumber(config.frictionX));
      vy := Smooth(vy, my, ToNumber(config.frictionY));
    }

    /** Sets the motion from the input: scaled, axes swapped in portrait, clamped to the limits. */
    method UpdateMotion()
      requires Valid()
      modifies this`mx, this`my
      ensures Valid()
      ensures mx == FrameMotion().0 && my == FrameMotion().1
      ensures LimitOf(config.limitX).Some? ==> Abs(mx) <= Abs(LimitOf(config.limitX).value)
      ensures LimitOf(config.limitY).Some? ==> Abs(my) <= Abs(LimitOf(config.limitY).value)
    {
      ScaleInput();
      ApplyLimits();
    }

    /** The calibrated or raw input times the scalars, axes swapped in portrait orientation. */
    method ScaleInput()
      requires Valid()
      modifies this`mx, this`my
      ensures Valid()
      ensures mx == RawMotionNow().0 && my == RawMotionNow().1
    {
      var raw := RawMotionNow();
      mx, my := raw.0, raw.1;
    }

    /** Clamps each axis of the motion to `[-limit, limit]` when its limit is a number. */
    method ApplyLimits()
      requires Valid()
      modifies this`mx, this`my
      ensures Valid()
      ensures mx == Limited(old(mx), LimitOf(config.limitX))
      ensures my == Limited(old(my), LimitOf(config.limitY))
    {
      var limitX := LimitOf(config.limitX);
      if limitX.Some? {
        mx := Clamp(mx, -limitX.value, limitX.value);
      }
      var limitY := LimitOf(config.limitY);
      if limitY.Some? {
        my := Clamp(my, -limitY.value, limitY.value);
      }
    }

    /** Places every layer by its depth for the current velocity. */
    method PlaceLayers()
      requires Valid()
      modifies positions
      ensures Valid()
      ensures forall i | 0 <= i < positions.Length :: positions[i] == LayerPosition(vx, vy, i)
    {
      var i := 0;
      while i < positions.Length
        invariant 0 <= i <= positions.Length
        invariant forall j | 0 <= j < i :: positions[j] == LayerPosition(vx, vy, j)
      {
        positions[i] := LayerPosition(vx, vy, i);
        i := i + 1;
      }
    }
  }

  /**
   * The state of a new instance built by `Start` for settings already
   * composed: enabled, listening to its input source and to resizes, one
   * cached depth per layer, the element and window measured, the
   * calibration timer set and the calibration flag raised, and, outside
   * sensor mode, an upright orientation and a reset calibration point.
   */
  ghost predicate Started(p: Parallax, variant: Variant, browser: Browser, config: Config,
                          layers: seq<map<string, string>>, element: ElementBox, innerWidth: real, innerHeight: real)
    reads p
  {
    && p.Valid() && p.variant == variant && p.desktop == browser.desktop && p.config == config
    && (p.htrackr <==> config.headtrackr == Bool(true))
    && |p.depths| == |layers|
    && (forall j | 0 <= j < |layers| :: p.depths[j] == CachedDepth(layers[j]))
    && p.enabled && p.listeners == {p.InputSource(), Resize}
    && p.orientationSupport == browser.orientationSupport && p.orientationStatus == 0
    && p.calibrationFlag && p.calibrationQueued
    && (p.OrientationMode() ==> p.portrait == None && p.orientationChecks == 1)
    && (!p.OrientationMode() ==> p.portrait == Some(false) && p.orientationChecks == 0)
    && p.ox == ChainOffset(element.chain).0 && p.oy == ChainOffset(element.chain).1
    && p.ow == element.width && p.oh == element.height
    && p.ww == innerWidth && p.wh == innerHeight
    && p.cx == 0.0 && p.cy == 0.0 && p.ix == 0.0 && p.iy == 0.0
    && p.mx == 0.0 && p.my == 0.0 && p.vx == 0.0 && p.vy == 0.0
  }

  /**
   * A new instance for settings already composed: builds it, caches each
   * layer's depth, measures the element and the window, enables it and sets
   * the calibration timer.
   */
  method Start(variant: Variant, browser: Browser, config: Config, layers: seq<map<string, string>>,
               element: ElementBox, innerWidth: real, innerHeight: real)
    returns (p: Parallax)
    requires innerWidth > 0.0 && innerHeight > 0.0
    ensures fresh(p) && fresh(p.positions)
    ensures Started(p, variant, browser, config, layers, element, innerWidth, innerHeight)
  {
    p := new Parallax(variant, browser, config, layers);
    p.Initialise(element, innerWidth, innerHeight);
  }

  /**
   * `new Parallax(element, options)`: the settings are the defaults extended
   * by the options and the element's data attributes, and the new instance
   * is in the state `Started` describes for them.
   */
  method NewParallax(variant: Variant, browser: Browser, options: map<string, Value>,
                     attributes: map<string, string>, layers: seq<map<string, string>>,
                     element: ElementBox, innerWidth: real, innerHeight: real)
    returns (p: Parallax)
    requires innerWidth > 0.0 && innerHeight > 0.0
    ensures fresh(p) && fresh(p.positions)
    ensures Started(p, variant, browser, InstanceConfig(variant, options, attributes), layers, element, innerWidth, innerHeight)
  {
    var config := Compose(variant, options, attributes);
    p := Start(variant, browser, config, layers, element, innerWidth, innerHeight);
  }
}
