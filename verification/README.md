# Parallax motion pipeline, modelled in Dafny

Parallax.js builds a parallax effect from a stack of layers. Each layer moves
in proportion to its depth. The motion comes from the device's orientation
sensor, or from the mouse pointer when there is no sensor.

The code has two copies of the same state machine:
- the `Parallax` class in `source/parallax.js`;
- the jQuery/Zepto `Plugin` class in `source/jquery.parallax.js`, which adds
  the `$.fn.parallax` entry point.

This project models that machine once, as the class
`ParallaxMachine.Parallax`. A constant `variant` (`Standalone` or `JQuery`)
selects the two places where the copies differ within what the model
represents:
- how a data attribute is read (the plugin's `x || null` and
  `parseFloat(x) || null`);
- where `onDeviceOrientation` takes the window size from (cached for
  `Parallax`, read live for `Plugin`).

The copies also differ in how they merge settings: the plugin uses
`$.extend`, which skips `undefined` option values, and `Parallax` uses its
own `extend`, which copies them. Option values are never `undefined` in the
model, so that difference is not represented (see "Left out").

The modules follow the code:

- `JsValues` (`values.dfy`) holds the JavaScript values settings can have
  (null, booleans, numbers as reals, strings). It also holds truthiness, the
  numeric coercion, `parseFloat` over decimal numerals, and the rendering of
  integers.
- `Helpers` (`helpers.dfy`) holds the pure helpers of `Parallax`:
  `deserialize`, `data`, `camelCase`, `clamp`, `extend` (a loop over a
  sequence of source maps taken in order, proved against the merge it
  computes), the deletion of null data values, and `offset` (a loop up the
  chain of offset parents).
- `Motion` (`motion.dfy`) holds the arithmetic of one frame: scaled input
  with the axes swapped in portrait orientation, clamping to a limit, the
  friction step and the depth offset. Repeated friction steps are proved to
  close the gap geometrically and never to overshoot.
- `Settings` (`settings.dfy`) covers:
  - the `DEFAULTS`;
  - data extraction for both variants;
  - the composition `extend(this, DEFAULTS, options, data)`;
  - the `Config` record of settings an instance reads;
  - depth caching;
  - the setters' "keep the value when `undefined`" rule.
- `ParallaxMachine` (`parallax.dfy`) is the instance. It is a class whose
  fields are the source's fields. Its methods are `initialise`,
  `updateDimensions`, `queueCalibration`, `enable`/`disable`, the five
  setters, and the event handlers for the orientation timer, the
  calibration timer, resize, mouse, device orientation and animation frames.
  Listeners are a set of event kinds. A requested animation frame and a set
  calibration timer are flags. Pending orientation timers are a counter.
  The layer offsets a frame computes go into an array indexed like the
  cached depths.
- `JQueryPlugin` (`plugin.dfy`) covers:
  - the `API` table;
  - method dispatch with the remaining arguments;
  - the registry of plugins stored in each element's data, so that an
    element gets at most one plugin, created on first use and reused
    afterwards.

## Model

| member | source | states |
|---|---|---|
| Helpers.Deserialize | source/parallax.js:124-136 | "true", "false" and "null" become true, false and null, each if and only if the text is that literal. A decimal numeral becomes its number, and only a numeral does. Any other text is returned unchanged. |
| Helpers.DeserializeIntString | source/parallax.js:124-136 | An integer written into an attribute reads back as that number. |
| Helpers.ReadAttribute | source/parallax.js:120-122 | A missing `data-<name>` attribute reads as null; a present one reads as its deserialised text. |
| Helpers.CamelCase | source/parallax.js:148-152 | `camelCase(value)`: the hyphen-run conversion started outside a run (defined here; `Convert`, `CamelCaseIdentity`, `CamelCaseJoin` and `AttributeNames` state its properties). |
| Helpers.Convert | source/parallax.js:148-152 | The camelCase conversion leaves no hyphen in its result and never lengthens the text. |
| Helpers.CamelCaseIdentity | source/parallax.js:148-152 | Text without hyphens is returned unchanged. |
| Helpers.CamelCaseJoin | source/parallax.js:148-152 | A run of one or more hyphens between two words is deleted, and the following character is upper-cased. |
| Helpers.CamelCaseTrailingRun | source/parallax.js:148-152 | A trailing hyphen run is simply removed. |
| Helpers.WebkitTransform | source/parallax.js:411-418 | The vendor property `css` builds for `webkit` and `transform` is `webkitTransform`. |
| Helpers.Clamp | source/parallax.js:405-409 | When min ≤ max the result lies in [min, max]. A value already in range is returned unchanged; a value below min gives min and one above max gives max. When min > max the result is max, because `Math.min` is applied last. |
| Helpers.MergedLookup | source/parallax.js:108-118 | After `extend`, each key holds its value from the last source that defines it. A key that no source defines keeps the master's value, or stays absent. |
| Helpers.MergedThree | source/parallax.js:108-118 | Extending with three sources is map union from left to right. |
| Helpers.Extend | source/parallax.js:108-118 | The loop that writes every key of every source into the master, source by source, computes exactly that merge. |
| Helpers.DropNulls | source/parallax.js:58-61 | The delete loop keeps exactly the non-null entries, with their values. |
| Helpers.Offset | source/parallax.js:138-146 | The loop up the offset parents sums offset minus scroll on each axis, and stops at the first element whose offsets are not numbers. |
| Helpers.OffsetStopsAtUnmeasurable | source/parallax.js:140 | Elements beyond the first unmeasurable one contribute nothing. |
| Helpers.OffsetAppend | source/parallax.js:138-146 | Over a chain of measurable elements, the offset is additive. |
| Motion.PortraitSwapsAxes | source/parallax.js:467-473 | Portrait motion is landscape motion with the x and y inputs (and calibration points) exchanged. |
| Motion.CalibratedRestIsStill | source/parallax.js:467-473 | When the input equals the calibration point, a calibrating axis has zero motion in either orientation. |
| Motion.RawMotion | source/parallax.js:467-473 | The motion before limiting: on each axis the calibrated delta when that axis calibrates, else the raw input, times the axis scalar, taking the x motion from the y input and the y motion from the x input in portrait orientation (defined here; `PortraitSwapsAxes` and `CalibratedRestIsStill` state its properties). |
| Motion.LimitOf | source/parallax.js:474-479 | A setting is a limit exactly when `parseFloat` of it is a number, and the limit is that number. So a number or a numeric string such as `"10"` is a limit, and `true`, `false` (the default) and null are not. |
| Motion.Limited | source/parallax.js:474-479 | Without a limit the motion is unchanged. With one, the result's magnitude is at most the limit's magnitude. For a non-negative limit, motion within it is unchanged, motion above it becomes the limit and motion below its negation becomes the negated limit. A negative limit is the result whatever the motion, because `Math.min` is applied last. |
| Motion.Smooth | source/parallax.js:480-481 | One friction step leaves a gap to the motion equal to (1 − friction) times the previous gap. |
| Motion.SmoothBetween | source/parallax.js:480-481 | With friction in [0, 1], the new velocity lies between the old velocity and the motion. |
| Motion.LayerOffset | source/parallax.js:485-486 | A layer's offset on one axis: the velocity times the depth, negated when the axis is inverted (defined here; `LayerOffsetsProportional` states its properties). |
| Motion.NeedsCalibration | source/parallax.js:464 | A frame queues a calibration when either input delta exceeds the threshold in magnitude (defined here; `CheckCalibration` states its use). |
| Motion.SmoothFramesGap | source/parallax.js:480-481 | After n frames towards a fixed motion, the gap is (1 − friction)^n times the initial gap. |
| Motion.SmoothFramesBetween | source/parallax.js:480-481 | With friction in [0, 1], no number of frames overshoots a fixed motion. |
| Motion.LayerOffsetsProportional | source/parallax.js:482-488 | On one axis, layer offsets are proportional to depth, and a layer of depth 0 stays still. Inverting the axis negates every offset. |
| Motion.MouseInput | source/parallax.js:524-529 | Mouse input is 0 at the window centre and −1 and +1 at the edges. It lies in [−1, 1] inside the window, and is negative exactly left of (above) the centre. |
| Motion.RotationInput | source/parallax.js:500-502 | Rotation input is the angle divided by 30: within ±3 for beta's range and ±6 for gamma's. |
| JsValues.ParseFloat | source/jquery.parallax.js:48-58 | `parseFloat` keeps numbers and is NaN for null and booleans. On text it gives a number if and only if the text is a decimal numeral, and that number is the numeral's value. |
| Settings.JQueryRead | source/jquery.parallax.js:43-59 | A jQuery data value is null or truthy. A plain setting keeps a truthy value and drops a falsy one. A numeric setting takes the number `parseFloat` gives when that number is not 0, and is null when `parseFloat` gives NaN or 0. |
| Settings.DataValue | source/parallax.js:40-56 | `Parallax` reads the deserialised attribute. `Plugin` reads the same attribute and applies `x \|\| null`, or `parseFloat(x) \|\| null` for a numeric setting (`jquery.parallax.js`, lines 43-59), so its value is null or truthy. |
| Settings.DataAttribute | source/parallax.js:40-56 | A setting has a data attribute exactly when it is one of the fifteen data keys. |
| Settings.ExtractData | source/parallax.js:40-56 | The data object has exactly the fifteen data keys. Each key holds the value its variant reads (`DataValue`) from that key's own attribute. |
| Settings.AttributeNames | source/parallax.js:41-55 | Every data key is the camelCase of the attribute it is read from: the attribute names are the keys written with hyphens. |
| Settings.SettingPrecedence | source/parallax.js:58-64 | A setting comes from a non-null data value, else from the options, else from `DEFAULTS`. A null data value never overrides. A key is present exactly when one of the three supplies it. |
| Settings.Defaults | source/parallax.js:12-31 | The `DEFAULTS` object: its eighteen settings and their default values (defined here; `DefaultsAlwaysDefined`, `NothingGivenMeansDefaults` and `DefaultInstance` state their role). |
| Settings.DefaultsAlwaysDefined | source/parallax.js:12-31 | Every `DEFAULTS` key is defined after composition, whatever the options and attributes. |
| Settings.JQueryDataIsTruthy | source/jquery.parallax.js:43-63 | Every data value the plugin keeps is truthy. |
| Settings.NothingGivenMeansDefaults | source/parallax.js:40-64 | No options and no data attributes give exactly `DEFAULTS`. |
| Settings.FalseAttributeDivergence | source/jquery.parallax.js:46-67 | `data-invert-x="false"` turns inversion off for `Parallax`. The jQuery plugin drops that falsy value and keeps the default `true`. |
| Settings.CachedDepth | source/parallax.js:307 | `data(layer, 'depth') \|\| 0`: a truthy attribute value is cached as read, and a missing or falsy one (`"false"`, `"null"`, `""`, `"0"`) caches 0. So every cached depth is 0 or truthy, and a numeric attribute caches its number. In `jquery.parallax.js` (line 265), the plugin caches depths the same way. |
| Settings.Compose | source/parallax.js:40-64 | Extracting data, deleting nulls and extending from `DEFAULTS`, options and data yields the instance's settings. |
| Settings.DefaultInstance | source/parallax.js:12-31 | An instance built from nothing holds exactly the `DEFAULTS`. |
| Settings.Given | source/parallax.js:380-383 | An `undefined` setter argument keeps the current value; a given one replaces it. |
| ParallaxMachine.CacheDepths | source/parallax.js:296-308 | One depth is pushed per layer, in order, each `data(layer, 'depth') \|\| 0`. In `jquery.parallax.js` (lines 263-266), the jQuery plugin caches depths the same way. |
| ParallaxMachine.Parallax.constructor | source/parallax.js:66-93 | A new instance starts disabled with no listeners, frame or timers. It has a raised calibration flag, an unknown orientation, zero calibration, input, motion and velocity, and one cached depth per layer. |
| ParallaxMachine.Parallax.Initialise | source/parallax.js:310-316 | Setup measures the element and window, enables the instance and sets the calibration timer. |
| ParallaxMachine.Parallax.UpdateDimensions | source/parallax.js:319-332 | Caches the element's offset and size, the window size, and the half sizes. |
| ParallaxMachine.Parallax.QueueCalibration | source/parallax.js:334-337 | (Re)sets the calibration timer and changes nothing else. |
| ParallaxMachine.Parallax.Enable | source/parallax.js:339-360 | Afterwards the instance is enabled and listens to exactly its one input source plus resize, with a frame requested. On an already enabled instance nothing changes. In sensor mode the orientation is forgotten and an orientation timer is set. Otherwise the calibration point is reset to 0 and `portrait` is false. In `jquery.parallax.js` (lines 301-322), the jQuery plugin's `enable` behaves identically. |
| ParallaxMachine.Parallax.Disable | source/parallax.js:362-378 | Afterwards the instance is disabled with no listeners and no frame. On an already disabled instance nothing changes. In `jquery.parallax.js` (lines 324-340), the jQuery plugin's `disable` behaves identically. |
| ParallaxMachine.Parallax.Calibrate | source/parallax.js:380-383 | Only `calibrateX`/`calibrateY` change, each kept when its argument is `undefined`. |
| ParallaxMachine.Parallax.Invert | source/parallax.js:385-388 | Only `invertX`/`invertY` change, each kept when its argument is `undefined`. |
| ParallaxMachine.Parallax.Friction | source/parallax.js:390-393 | Only `frictionX`/`frictionY` change, each kept when its argument is `undefined`. |
| ParallaxMachine.Parallax.Scalar | source/parallax.js:395-398 | Only `scalarX`/`scalarY` change, each kept when its argument is `undefined`. |
| ParallaxMachine.Parallax.Limit | source/parallax.js:400-403 | Only `limitX`/`limitY` change, each kept when its argument is `undefined`. |
| ParallaxMachine.Parallax.OnOrientationTimer | source/parallax.js:445-451 | If sensor support was claimed but no orientation event arrived, the instance ends up enabled. It then has no sensor support and listens to the mouse (or face tracker) plus resize, with calibration 0 and `portrait` false. Otherwise nothing but the timer count changes. In `jquery.parallax.js` (lines 410-416), the jQuery plugin falls back in the same way. |
| ParallaxMachine.Parallax.OnCalibrationTimer | source/parallax.js:453-455 | The fired timer raises the calibration flag. |
| ParallaxMachine.Parallax.OnWindowResize | source/parallax.js:457-459 | A resize, delivered only while the resize listener is subscribed, re-measures the element and the window. |
| ParallaxMachine.Parallax.OnMouseMove | source/parallax.js:524-529 | Delivered only while the mouse listener is subscribed. The input becomes the pointer's offset from the window centre in half-window units; it is zero at the centre. |
| ParallaxMachine.Parallax.OnDeviceOrientation | source/parallax.js:492-522 | Delivered only while the orientation listener is subscribed. The event is ignored on desktop or with a null angle. Otherwise `orientationStatus` becomes 1 and the input becomes the angles over 30. A change of orientation raises the calibration flag. A raised flag is consumed by making the new input the calibration point, so the calibrated delta is then zero. Without a raised flag the calibration point is kept. In `jquery.parallax.js` (lines 457-487), the jQuery plugin behaves the same, except that it decides the orientation from the window size at event time. |
| ParallaxMachine.Parallax.SetPortrait | source/parallax.js:504-509 | Records the orientation; the calibration flag is raised if and only if it was already raised or the orientation changed. |
| ParallaxMachine.Parallax.ConsumeCalibration | source/parallax.js:511-516 | A raised flag moves the calibration point to the input and is cleared; otherwise the point is kept. |
| ParallaxMachine.Parallax.OnAnimationFrame | source/parallax.js:461-490 | A calibration is queued exactly when a delta exceeds the threshold. The motion is the scaled, oriented and clamped input. The velocity takes one friction step towards it. Every layer's offset is its depth times the velocity, inverted as set. In `jquery.parallax.js` (lines 426-455), the jQuery plugin's frame is the same computation. |
| ParallaxMachine.Parallax.CheckCalibration | source/parallax.js:462-466 | The calibration timer is set if and only if it was already set or a delta exceeds the threshold. |
| ParallaxMachine.Parallax.UpdateMotion | source/parallax.js:467-479 | The motion is the clamped scaled input. When a limit is a number, the motion on that axis is at most the limit in magnitude. |
| ParallaxMachine.Parallax.ScaleInput | source/parallax.js:467-473 | The motion is the calibrated or raw input times the scalar, with the axes swapped in portrait orientation. |
| ParallaxMachine.Parallax.ApplyLimits | source/parallax.js:474-479 | Each axis is clamped to [−limit, limit] exactly when its limit is a number. |
| ParallaxMachine.Parallax.ApplyFriction | source/parallax.js:480-481 | Each velocity takes one friction step towards the motion. |
| ParallaxMachine.Parallax.PlaceLayers | source/parallax.js:482-488 | Every layer's offset is set from its depth and the velocity. |
| ParallaxMachine.Parallax.OrientationMode | source/parallax.js:342 | Input comes from the device sensor exactly when `headtrackr` is `false` and orientation events are supported (defined here; `Enable` and `Disable` state its use). |
| ParallaxMachine.Parallax.InputSource | source/parallax.js:342-356 | The one input listener `enable` subscribes: device orientation in sensor mode, otherwise face tracking when a tracker exists, otherwise the mouse. It is never the resize listener. |
| ParallaxMachine.Parallax.PortraitNow | source/parallax.js:505 | Whether the device is held upright: the cached window height exceeds the cached width for `Parallax`, and the live `innerHeight` exceeds `innerWidth` for `Plugin` (`jquery.parallax.js`, line 470) (defined here; `OnDeviceOrientation` states its use). |
| ParallaxMachine.Start | source/parallax.js:286-317 | Construction with initialisation gives the `Started` state. The instance is enabled and consistent, listening to its input source and to resizes, with the given settings and one cached depth per layer. The element and window are measured. The calibration timer is set and the calibration flag raised. The orientation timer is set exactly in sensor mode; otherwise `portrait` is false. Calibration, input, motion and velocity are zero. |
| ParallaxMachine.NewParallax | source/parallax.js:33-106 | `new Parallax(element, options)` is in the `Started` state for the settings composed from `DEFAULTS`, the options and the data attributes. |
| JQueryPlugin.Api | source/jquery.parallax.js:515-523 | The `API` table maps exactly the seven method names to their methods. |
| JQueryPlugin.Selected | source/jquery.parallax.js:534 | `API[value]`: only a string first argument can select a method, and it selects the one `Api` names (defined here; `Each` states its use). |
| JQueryPlugin.OptionsOf | source/jquery.parallax.js:531 | `new Plugin(this, value)` takes its options only from an object first argument; nothing or a method name gives no options (defined here; `NewPlugin` states its use). |
| JQueryPlugin.Arg | source/jquery.parallax.js:535 | An argument is the value passed, which may itself be `undefined`; a missing argument is `undefined`. |
| JQueryPlugin.Configured | source/jquery.parallax.js:342-365 | Each setter changes only the pair of settings it names: each of the pair becomes its argument, or keeps its value when that argument is `undefined`. `enable`, `disable` and a call without arguments leave the settings as they are. |
| JQueryPlugin.ConfiguredIdempotent | source/jquery.parallax.js:342-365 | Calling the same API method twice with the same arguments has the effect on the settings of calling it once. |
| JQueryPlugin.Invoke | source/jquery.parallax.js:534-536 | Calling an API method has exactly that method's effect (`Invoked`). The settings become `Configured` of the old ones. `enable` and `disable` do all that `Parallax.Enable` and `Parallax.Disable` promise. A setter changes nothing but the settings, so it never enables or disables. The plugin stays consistent. |
| JQueryPlugin.NewPlugin | source/jquery.parallax.js:530-531 | A plugin created for an element is a fresh jQuery instance. Its settings are composed from `DEFAULTS`, the first argument when it is an options object, and the element's data attributes (`Created`). It is in the `Started` state for those settings, the element's layers and box, and the window (`Built`): enabled and consistent, with one cached depth per layer, the element and window measured, the calibration timer set and the flag raised, the orientation timer set exactly in sensor mode, and zero calibration, input, motion and velocity. |
| JQueryPlugin.Registry.Store | source/jquery.parallax.js:532 | Storing a new plugin in an element's data adds it and changes no other element's entry. No plugin is ever stored for two elements (`Valid`). |
| JQueryPlugin.Registry.Lookup | source/jquery.parallax.js:529-533 | An element with a plugin gets that same plugin back. An element without one gets a new plugin with the composed settings (`Created`), in the `Started` state (`Built`), and it is stored. No other element's entry changes. |
| JQueryPlugin.Registry.Apply | source/jquery.parallax.js:534-536 | An API method on a stored plugin has exactly `Invoke`'s effect on it (`Invoked`), and every stored plugin stays consistent. |
| JQueryPlugin.Registry.Create | source/jquery.parallax.js:529-536 | For an element without a plugin: a fresh plugin is created and stored, and nothing else is added. It ends with its composed settings as the selected method leaves them (`CreatedThen`), in the `Started` state when no method is selected (`Built`), enabled unless the method is `disable`, and disabled with no listeners after `disable`. |
| JQueryPlugin.Registry.Each | source/jquery.parallax.js:527-537 | Afterwards the element has a plugin. An existing one is reused, never replaced, and a missing one is created fresh. No other element's entry changes, and no other plugin changes at all. With a selected method, an existing plugin undergoes exactly that method with the second and third arguments (`Invoked`). Without one, an existing plugin is untouched, and a new one is left in the `Started` state (`Built`). A new plugin ends with its composed settings as that method leaves them (`CreatedThen`), and enabled unless the method is `disable`. After `enable` the plugin is enabled. After `disable` it is disabled and listens to nothing. |
| JQueryPlugin.Registry.Visit | source/jquery.parallax.js:527-537 | After element `i` of a selection is handled, the first `i + 1` elements have a plugin. Every entry present before the call, or at the start of the selection, is kept. After `enable` (or `disable`), the first `i + 1` elements' plugins are all enabled (or all disabled). The plugins chosen by the first `i + 1` elements are those of the first `i` and element `i`'s. No plugin but element `i`'s changes, and none at all when no method is selected. A plugin stored for an element that had none before the call is fresh. |
| JQueryPlugin.Registry.FnParallax | source/jquery.parallax.js:525-538 | After `$(elements).parallax(...)` every element of the selection has a plugin. Every element that had one keeps the same plugin. After `$(elements).parallax('enable')` every selected element's plugin is enabled. After `'disable'` every one is disabled and listens to nothing. A plugin created for an element that had none is fresh. Every registered element outside the selection keeps an unchanged plugin, and no plugin outside the selected elements' plugins changes. When the first argument names no API method, no existing plugin changes at all. |

## Left out

- `transformSupport`, `css`, `accelerate` and `setPosition` are not modelled. They probe `element.style` for vendor prefixes and write CSS strings. The offsets `setPosition` would receive are the model's `positions` array.
- The layer and element style set-up in `initialise` and the `$layers.css` calls are not modelled; they are DOM writes only.
- `launchHeadtrackr` and `onFaceTracking` are not modelled. They drive an external face-tracking library, a video element and canvas drawing. The model keeps only that a tracker exists exactly when `headtrackr` is `true`, and that `enable` then subscribes face-tracking events rather than the mouse. It leaves out the `mousemove` listener that `launchHeadtrackr` adds while the camera connects. In the source, that listener stays subscribed alongside face tracking until a `headtrackrStatus` event reports the face "found", and `disable` does not remove it.
- Timers and `requestAnimationFrame` are events, not time. A set calibration timer and a requested frame are flags; orientation timers are a count; each firing is a method call.
- The user agent test, `DeviceOrientationEvent` support and the window size are inputs (`Browser`, `innerWidth`, `innerHeight`).
- NaN and the infinities are not modelled. A string that is not a decimal numeral coerces to 0 in arithmetic. A zero-size window, which would make the mouse input divide by zero, is excluded by requiring a positive window size.
- `parseFloat`/`isFinite` accept only plain decimal numerals `-?digits(.digits)?`. Exponents, a leading `+`, whitespace, `Infinity` and trailing text after a numeral (`parseFloat("10px")` is 10 in JavaScript) are not recognised: such text is NaN in the model.
- jQuery's `$.data` type coercion is taken to be the same as `deserialize`. jQuery's `.offset()`, `.width()` and `.height()` are taken to be the same as the element box `Parallax` measures.
- `undefined` option values are not modelled. The plugin's `$.extend` skips them, so `{scalarX: undefined}` keeps the default 10 there. `Parallax`'s own `extend` copies them, so in `Parallax` the setting becomes `undefined` and the motion NaN.
- Option keys outside `DEFAULTS` are not modelled: the model keeps only the eighteen `DEFAULTS` settings (`Config`). In the source, `extend` copies every option key onto the instance, so such a key can override prototype state, for example `orientationSupport`, `desktop`, `orientationStatus`, `htrackr` or `portrait`, and `ww`, `wh`, `hw` and `hh` until the first measurement.
- A method name passed to `$.fn.parallax` for an element without a plugin is also used as the new plugin's options. The model gives that plugin no options, so the characters of the string, which `$.extend` copies as index keys, are not modelled.
- Inherited prototype properties are not entries of the model's `API` table, and a non-string first argument never names a method.
- Upper-casing in `camelCase` covers ASCII letters only.
- Integers are printed in plain decimal digits; JavaScript prints numbers of magnitude 10^21 or more in exponent notation, which is not modelled.
- `onDeviceOrientation` takes the angles as present numbers or null; `undefined` angles, which `|| 0` would turn into 0, are not modelled.
- `$(element).data('api', this)` and the jQuery selections are not modelled.
- JQueryPlugin.Registry.Each: after a selected method, the state of a new plugin besides its settings, its `enabled` flag and its listeners is not restated. Without a method, `Built` states all of it.
- JQueryPlugin.Registry.FnParallax: states coverage, kept entries, the effect of `enable` and `disable` on the whole selection, and that only the selected elements' plugins change. It does not state the exact set of registered elements, nor each element's settings after a setter (`Each` states those for one element).
- ParallaxMachine.Parallax.UpdateMotion: the bound is |motion| ≤ |limit|. For a negative limit, `clamp` returns the limit itself, so "|mx| ≤ limitX" holds only for non-negative limits.

