/**
 * The jQuery/Zepto entry point `$.fn.parallax(value, ...)`: every element of
 * a selection gets at most one plugin, created on the first call and kept
 * in the element's data; when `value` names an entry of the API table the
 * named method runs on that plugin with the remaining arguments.
 */
module JQueryPlugin {
  import opened JsValues
  import opened Settings
  import opened ParallaxMachine

  /** The entries of the `API` table. */
  datatype ApiMethod = Enable | Disable | Calibrate | Friction | Invert | Scalar | Limit

  /** `API[name]`: the method a string names, if any. */
  function Api(name: string): (r: Option<ApiMethod>)
    ensures r == Some(Enable) <==> name == "enable"
    ensures r == Some(Disable) <==> name == "disable"
    ensures r == Some(Calibrate) <==> name == "calibrate"
    ensures r == Some(Friction) <==> name == "friction"
    ensures r == Some(Invert) <==> name == "invert"
    ensures r == Some(Scalar) <==> name == "scalar"
    ensures r == Some(Limit) <==> name == "limit"
  {
    match name
    case "enable" => Some(Enable)
    case "disable" => Some(Disable)
    case "calibrate" => Some(Calibrate)
    case "friction" => Some(Friction)
    case "invert" => Some(Invert)
    case "scalar" => Some(Scalar)
    case "limit" => Some(Limit)
    case _ => None
  }

  /** The first argument of `$.fn.parallax`: nothing, an options object or a method name. */
  datatype FirstArg = NoArg | Options(options: map<string, Value>) | Name(name: string)

  /** The options a new plugin is built with: only an object supplies settings. */
  function OptionsOf(first: FirstArg): map<string, Value> {
    if first.Options? then first.options else map[]
  }

  /** The method the first argument selects. */
  function Selected(first: FirstArg): Option<ApiMethod> {
    if first.Name? then Api(first.name) else None
  }

  /**
   * Argument `k` after the first one.  `None` stands for `undefined`, which
   * the caller may pass explicitly and which a missing argument also is.
   */
  function Arg(rest: seq<Option<Value>>, k: nat): (r: Option<Value>)
    ensures k < |rest| ==> r == rest[k]
    ensures k >= |rest| ==> r == None
  {
    if k < |rest| then rest[k] else None
  }

  /** An element of the selection: its identity, data attributes, layers and box. */
  datatype Element = Element(id: nat, attributes: map<string, string>,
                             layers: seq<map<string, string>>, box: ElementBox)

  /**
   * What `plugin[m](x, y)` makes of the settings: a setter replaces the pair
   * of settings it names by the arguments that are given; `enable` and
   * `disable` leave the settings alone.
   */
  function Configured(c: Config, m: ApiMethod, x: Option<Value>, y: Option<Value>): (r: Config)
    ensures m == Enable || m == Disable ==> r == c
    ensures x.None? && y.None? ==> r == c
    ensures m == Calibrate ==>
      r.(calibrateX := c.calibrateX, calibrateY := c.calibrateY) == c
      && r.calibrateX == Given(x, c.calibrateX) && r.calibrateY == Given(y, c.calibrateY)
    ensures m == Friction ==>
      r.(frictionX := c.frictionX, frictionY := c.frictionY) == c
      && r.frictionX == Given(x, c.frictionX) && r.frictionY == Given(y, c.frictionY)
    ensures m == Invert ==>
      r.(invertX := c.invertX, invertY := c.invertY) == c
      && r.invertX == Given(x, c.invertX) && r.invertY == Given(y, c.invertY)
    ensures m == Scalar ==>
      r.(scalarX := c.scalarX, scalarY := c.scalarY) == c
      && r.scalarX == Given(x, c.scalarX) && r.scalarY == Given(y, c.scalarY)
    ensures m == Limit ==>
      r.(limitX := c.limitX, limitY := c.limitY) == c
      && r.limitX == Given(x, c.limitX) && r.limitY == Given(y, c.limitY)
  {
    match m
    case Enable => c
    case Disable => c
    case Calibrate => c.(calibrateX := Given(x, c.calibrateX), calibrateY := Given(y, c.calibrateY))
    case Friction => c.(frictionX := Given(x, c.frictionX), frictionY := Given(y, c.frictionY))
    case Invert => c.(invertX := Given(x, c.invertX), invertY := Given(y, c.invertY))
    case Scalar => c.(scalarX := Given(x, c.scalarX), scalarY := Given(y, c.scalarY))
    case Limit => c.(limitX := Given(x, c.limitX), limitY := Given(y, c.limitY))
  }

  /** Calling the same API method twice with the same arguments is the same as calling it once. */
  lemma ConfiguredIdempotent(c: Config, m: ApiMethod, x: Option<Value>, y: Option<Value>)
    ensures Configured(Configured(c, m, x, y), m, x, y) == Configured(c, m, x, y)
  {
  }

  /** The settings of a plugin after `$.fn.parallax(first, rest...)` reached it with settings `c`. */
  function ConfigAfter(c: Config, first: FirstArg, rest: seq<Option<Value>>): (r: Config)
    ensures Selected(first).None? ==> r == c
    ensures Selected(first).Some? ==> r == Configured(c, Selected(first).value, Arg(rest, 0), Arg(rest, 1))
  {
    if Selected(first).Some? then Configured(c, Selected(first).value, Arg(rest, 0), Arg(rest, 1)) else c
  }

  /** The settings a plugin created for `element` by `$.fn.parallax(first, ...)` starts with. */
  function CreatedConfig(element: Element, first: FirstArg): Config {
    InstanceConfig(JQuery, OptionsOf(first), element.attributes)
  }

  /*
   * The one-point quantifiers `forall e | e == element :: ...` below (and in
   * `Built`) are only a proof device.  Each is equivalent to its body with
   * `element` for `e`, but the verifier unfolds the composition of the
   * settings (or the started state) only where a proof mentions it, rather
   * than in every method whose contract carries the fact.
   */

  /** `c` is the settings of a plugin just created for `element` by `$.fn.parallax(first, ...)`. */
  ghost predicate Created(c: Config, element: Element, first: FirstArg) {
    forall e | e == element :: c == CreatedConfig(e, first)
  }

  /** `c` is the settings of a plugin created for `element` by `$.fn.parallax(first, rest...)` once the call is over. */
  ghost predicate CreatedThen(c: Config, element: Element, first: FirstArg, rest: seq<Option<Value>>) {
    forall e | e == element :: c == ConfigAfter(CreatedConfig(e, first), first, rest)
  }

  /** Settings created for `element` and then reached by `$.fn.parallax(first, rest...)` are `CreatedThen`. */
  lemma CreatedThenStep(c0: Config, c: Config, element: Element, first: FirstArg, rest: seq<Option<Value>>)
    requires Created(c0, element, first) && c == ConfigAfter(c0, first, rest)
    ensures CreatedThen(c, element, first, rest)
  {
    forall e | e == element
      ensures c == ConfigAfter(CreatedConfig(e, first), first, rest)
    {
      assert c0 == CreatedConfig(e, first);
    }
  }

  /**
   * `p` is in the state `Started` describes for a plugin just built for
   * `element` with its own settings (stated through a quantifier, as above).
   */
  ghost predicate Built(p: Parallax, element: Element, browser: Browser, innerWidth: real, innerHeight: real)
    reads p
  {
    forall e | e == element :: Started(p, JQuery, browser, p.config, e.layers, e.box, innerWidth, innerHeight)
  }

  /**
   * The effect of `plugin[m](x, y)` on a plugin, between the state before the
   * call and the state after it.  `enable` and `disable` do what
   * `Parallax.Enable` and `Parallax.Disable` promise, and a setter changes
   * nothing but the settings.
   */
  twostate predicate Invoked(p: Parallax, m: ApiMethod, x: Option<Value>, y: Option<Value>)
    reads p
  {
    && p.config == Configured(old(p.config), m, x, y)
    && (m == Enable ==>
          && p.enabled && p.listeners == {p.InputSource(), Resize}
          && (old(p.enabled) ==> unchanged(p))
          && (!old(p.enabled) && p.OrientationMode() ==>
                p.portrait == None && p.cx == old(p.cx) && p.cy == old(p.cy)
                && p.orientationChecks == old(p.orientationChecks) + 1)
          && (!old(p.enabled) && !p.OrientationMode() ==>
                p.portrait == Some(false) && p.cx == 0.0 && p.cy == 0.0
                && p.orientationChecks == old(p.orientationChecks)))
    && (m == Disable ==>
          && !p.enabled && p.listeners == {} && !p.framePending
          && (!old(p.enabled) ==> unchanged(p))
          && p.portrait == old(p.portrait) && p.cx == old(p.cx) && p.cy == old(p.cy)
          && p.orientationChecks == old(p.orientationChecks))
    && (m != Enable && m != Disable ==>
          && p.enabled == old(p.enabled) && p.listeners == old(p.listeners)
          && p.framePending == old(p.framePending) && p.portrait == old(p.portrait)
          && p.cx == old(p.cx) && p.cy == old(p.cy) && p.orientationChecks == old(p.orientationChecks))
  }

  /** `plugin[method].apply(plugin, [x, y])`. */
  method Invoke(p: Parallax, m: ApiMethod, x: Option<Value>, y: Option<Value>)
    requires p.Valid()
    modifies p`config, p`enabled, p`listeners, p`framePending, p`portrait, p`cx, p`cy, p`orientationChecks
    ensures p.Valid() && Invoked(p, m, x, y)
  {
    match m
    case Enable => p.Enable();
    case Disable => p.Disable();
    case Calibrate => p.Calibrate(x, y);
    case Friction => p.Friction(x, y);
    case Invert => p.Invert(x, y);
    case Scalar => p.Scalar(x, y);
    case Limit => p.Limit(x, y);
  }

  /** Every entry of `before` is still in `after`, with the same plugin. */
  ghost predicate Kept(before: map<nat, Parallax>, after: map<nat, Parallax>) {
    forall e | e in before :: e in after && after[e] == before[e]
  }

  /** Storing a key already present only with its own plugin keeps every entry. */
  lemma KeptStep(before: map<nat, Parallax>, mid: map<nat, Parallax>, k: nat, p: Parallax)
    requires Kept(before, mid) && (k in mid ==> mid[k] == p)
    ensures Kept(before, mid[k := p])
  {
  }

  /** The first `n` elements of a selection all have an entry in `m`. */
  ghost predicate Covers(elements: seq<Element>, n: nat, m: map<nat, Parallax>)
    requires n <= |elements|
  {
    forall k | 0 <= k < n :: elements[k].id in m
  }

  /** Keeping every entry and adding element `n`'s extends the coverage by one element. */
  lemma CoversStep(elements: seq<Element>, n: nat, before: map<nat, Parallax>, after: map<nat, Parallax>)
    requires n < |elements| && Covers(elements, n, before) && Kept(before, after)
    requires elements[n].id in after
    ensures Covers(elements, n + 1, after)
  {
    forall k | 0 <= k < n + 1
      ensures elements[k].id in after
    {
      if k < n {
        assert elements[k].id in before;
      }
    }
  }

  /**
   * The first `n` elements of a selection all have a plugin in `m` that is
   * enabled (`on`) or disabled (`!on`).
   */
  ghost predicate Switched(elements: seq<Element>, n: nat, m: map<nat, Parallax>, on: bool)
    requires n <= |elements|
    reads m.Values
  {
    forall k | 0 <= k < n :: elements[k].id in m && m[elements[k].id].enabled == on
  }

  /**
   * When every plugin but element `i`'s still has the `enabled` flag recorded
   * in `was`, and element `i`'s plugin is switched as required, the first
   * `i + 1` elements are switched.
   */
  lemma SwitchedStep(elements: seq<Element>, i: nat, before: map<nat, Parallax>, after: map<nat, Parallax>,
                     was: map<Parallax, bool>, on: bool)
    requires i < |elements| && before.Values <= was.Keys
    requires forall k | 0 <= k < i :: elements[k].id in before && was[before[elements[k].id]] == on
    requires Kept(before, after) && elements[i].id in after && after[elements[i].id].enabled == on
    requires forall q | q in was && q != after[elements[i].id] :: q.enabled == was[q]
    ensures Switched(elements, i + 1, after, on)
  {
    forall k | 0 <= k < i + 1
      ensures elements[k].id in after && after[elements[k].id].enabled == on
    {
      if k < i {
        assert before[elements[k].id] in was;
      }
    }
  }

  /** The plugins that the first `n` elements of a selection have in `m`. */
  ghost function Chosen(elements: seq<Element>, n: nat, m: map<nat, Parallax>): set<Parallax>
    requires n <= |elements|
  {
    set k | 0 <= k < n && elements[k].id in m :: m[elements[k].id]
  }

  /** The ids of the elements of a selection. */
  ghost function Ids(elements: seq<Element>): set<nat> {
    set k | 0 <= k < |elements| :: elements[k].id
  }

  /** No plugin is stored under two ids: `new Plugin` runs once per element. */
  ghost predicate Injective(m: map<nat, Parallax>) {
    forall a, b | a in m && b in m && m[a] == m[b] :: a == b
  }

  /** With one plugin per element, an element outside a selection has a plugin no selected element has. */
  lemma NotChosen(elements: seq<Element>, m: map<nat, Parallax>, id: nat)
    requires Injective(m) && id in m && id !in Ids(elements)
    ensures m[id] !in Chosen(elements, |elements|, m)
  {
    forall k | 0 <= k < |elements| && elements[k].id in m
      ensures m[elements[k].id] != m[id]
    {
      assert elements[k].id in Ids(elements);
    }
  }

  /** Keeping every entry and adding element `n`'s adds exactly that element's plugin to the chosen ones. */
  lemma ChosenStep(elements: seq<Element>, n: nat, before: map<nat, Parallax>, after: map<nat, Parallax>)
    requires n < |elements| && Covers(elements, n, before) && Kept(before, after)
    requires elements[n].id in after
    ensures Chosen(elements, n + 1, after) == Chosen(elements, n, before) + {after[elements[n].id]}
  {
    forall q | q in Chosen(elements, n + 1, after)
      ensures q in Chosen(elements, n, before) + {after[elements[n].id]}
    {
      var k :| 0 <= k < n + 1 && elements[k].id in after && after[elements[k].id] == q;
      if k < n {
        assert before[elements[k].id] == q;
      }
    }
    forall q | q in Chosen(elements, n, before)
      ensures q in Chosen(elements, n + 1, after)
    {
      var k :| 0 <= k < n && elements[k].id in before && before[elements[k].id] == q;
      assert after[elements[k].id] == q;
    }
  }

  /**
   * `new Plugin(this, args[0])` for an element: a jQuery plugin whose settings
   * come from the first argument and the element's data attributes.
   */
  method NewPlugin(element: Element, first: FirstArg, browser: Browser, innerWidth: real, innerHeight: real)
    returns (plugin: Parallax)
    requires innerWidth > 0.0 && innerHeight > 0.0
    ensures fresh(plugin) && plugin.Valid() && plugin.variant == JQuery && plugin.enabled
    ensures Created(plugin.config, element, first)
    ensures Built(plugin, element, browser, innerWidth, innerHeight)
  {
    plugin := NewParallax(JQuery, browser, OptionsOf(first), element.attributes, element.layers,
                          element.box, innerWidth, innerHeight);
  }

  /** The plugins stored in the elements' data, by element. */
  class Registry {
    var plugins: map<nat, Parallax>
    /** The stored plugins and any plugin stored before, as a footprint. */
    ghost var Repr: set<Parallax>

    /** Every stored plugin is a jQuery plugin in a consistent state, stored for one element only. */
    ghost predicate Valid()
      reads this, Repr
    {
      && plugins.Values <= Repr && Injective(plugins)
      && forall p | p in Repr :: p.Valid() && p.variant == JQuery
    }

    constructor ()
      ensures plugins == map[] && Valid()
    {
      plugins := map[];
      Repr := {};
    }

    /** `$this.data('parallax', plugin)` for an element without a plugin. */
    method Store(id: nat, plugin: Parallax)
      requires Valid() && plugin.Valid() && plugin.variant == JQuery && plugin !in Repr
      modifies this
      ensures Valid() && Repr == old(Repr) + {plugin}
      ensures plugins == old(plugins)[id := plugin]
    {
      plugins := plugins[id := plugin];
      Repr := Repr + {plugin};
    }

    /**
     * `$this.data('parallax')`, creating and storing a new plugin built with
     * the first argument as its options when the element has none.
     */
    method Lookup(element: Element, first: FirstArg, browser: Browser, innerWidth: real, innerHeight: real)
      returns (plugin: Parallax)
      requires Valid() && innerWidth > 0.0 && innerHeight > 0.0
      modifies this
      ensures Valid() && Repr == old(Repr) + {plugin} && fresh(Repr - old(Repr))
      ensures plugins == old(plugins)[element.id := plugin]
      ensures element.id in old(plugins) ==> plugin == old(plugins[element.id])
      ensures element.id !in old(plugins) ==>
        fresh(plugin) && plugin.enabled && Created(plugin.config, element, first)
      ensures element.id !in old(plugins) ==>
        Built(plugin, element, browser, innerWidth, innerHeight)
    {
      if element.id in plugins {
        plugin := plugins[element.id];
        assert plugin in plugins.Values;
      } else {
        plugin := NewPlugin(element, first, browser, innerWidth, innerHeight);
        Store(element.id, plugin);
      }
    }

    /** Runs an API method on a stored plugin; the other plugins stay as they are. */
    method Apply(plugin: Parallax, m: ApiMethod, x: Option<Value>, y: Option<Value>)
      requires Valid() && plugin in Repr
      modifies plugin`config, plugin`enabled, plugin`listeners, plugin`framePending,
               plugin`portrait, plugin`cx, plugin`cy, plugin`orientationChecks
      ensures Valid() && Invoked(plugin, m, x, y)
    {
      label before:
      Invoke(plugin, m, x, y);
      forall p | p in Repr
        ensures p.Valid() && p.variant == JQuery
      {
        if p != plugin {
          assert old@before(p.Valid());
          assert unchanged@before(p);
        }
      }
    }

    /**
     * `Each` for an element without a plugin: creates and stores one
     * (`Lookup`), then runs the selected API method on it.
     */
    method Create(element: Element, first: FirstArg, rest: seq<Option<Value>>,
                  browser: Browser, innerWidth: real, innerHeight: real)
      returns (plugin: Parallax)
      requires Valid() && element.id !in plugins && innerWidth > 0.0 && innerHeight > 0.0
      modifies this
      ensures Valid() && Repr == old(Repr) + {plugin} && fresh(plugin)
      ensures plugins == old(plugins)[element.id := plugin]
      ensures CreatedThen(plugin.config, element, first, rest)
      ensures Selected(first).None? ==> Built(plugin, element, browser, innerWidth, innerHeight)
      ensures Selected(first) != Some(Disable) ==> plugin.enabled
      ensures Selected(first) == Some(Disable) ==> !plugin.enabled && plugin.listeners == {}
    {
      plugin := Lookup(element, first, browser, innerWidth, innerHeight);
      assert plugins[element.id] == plugin;
      ghost var created := plugin.config;
      var selected := Selected(first);
      if selected.Some? {
        Apply(plugin, selected.value, Arg(rest, 0), Arg(rest, 1));
      }
      CreatedThenStep(created, plugin.config, element, first, rest);
    }

    /**
     * The body of `this.each` for one element: takes its stored plugin, or
     * creates and stores one (`Lookup`), then runs the selected API method on
     * it with the next two arguments.  No other plugin changes.
     */
    method Each(element: Element, first: FirstArg, rest: seq<Option<Value>>,
                browser: Browser, innerWidth: real, innerHeight: real)
      requires Valid() && innerWidth > 0.0 && innerHeight > 0.0
      modifies this, Repr
      ensures Valid() && old(Repr) <= Repr && fresh(Repr - old(Repr))
      ensures element.id in plugins
      ensures plugins == old(plugins)[element.id := plugins[element.id]]
      ensures element.id in old(plugins) ==> plugins[element.id] == old(plugins[element.id])
      ensures element.id !in old(plugins) ==> fresh(plugins[element.id])
      ensures forall q | q in old(Repr) && q != plugins[element.id] :: unchanged(q)
      ensures element.id in old(plugins) && Selected(first).None? ==> unchanged(plugins[element.id])
      ensures element.id in old(plugins) && Selected(first).Some? ==>
        Invoked(plugins[element.id], Selected(first).value, Arg(rest, 0), Arg(rest, 1))
      ensures element.id !in old(plugins) ==>
        CreatedThen(plugins[element.id].config, element, first, rest)
      ensures element.id !in old(plugins) && Selected(first).None? ==>
        Built(plugins[element.id], element, browser, innerWidth, innerHeight)
      ensures Selected(first) != Some(Disable) && element.id !in old(plugins) ==> plugins[element.id].enabled
      ensures Selected(first) == Some(Enable) ==> plugins[element.id].enabled
      ensures Selected(first) == Some(Disable) ==>
        !plugins[element.id].enabled && plugins[element.id].listeners == {}
    {
      var selected := Selected(first);
      if element.id in plugins {
        var plugin := plugins[element.id];
        assert plugin in plugins.Values;
        if selected.Some? {
          Apply(plugin, selected.value, Arg(rest, 0), Arg(rest, 1));
        }
      } else {
        var plugin := Create(element, first, rest, browser, innerWidth, innerHeight);
      }
    }

    /**
     * `Each` for element `i` of a selection: the first `i + 1` elements end
     * with a plugin, every entry present before, or at the start of the
     * selection, is kept, and `enable` or `disable` leaves the first `i + 1`
     * elements' plugins all enabled or all disabled.  No plugin but element
     * `i`'s changes, and none at all when no method is selected.
     */
    method Visit(ghost start: map<nat, Parallax>, elements: seq<Element>, i: nat, first: FirstArg, rest: seq<Option<Value>>,
                 browser: Browser, innerWidth: real, innerHeight: real)
      requires Valid() && innerWidth > 0.0 && innerHeight > 0.0
      requires i < |elements| && Covers(elements, i, plugins) && Kept(start, plugins)
      requires Selected(first) == Some(Enable) ==> Switched(elements, i, plugins, true)
      requires Selected(first) == Some(Disable) ==> Switched(elements, i, plugins, false)
      modifies this, Repr
      ensures Valid() && old(Repr) <= Repr && fresh(Repr - old(Repr))
      ensures Covers(elements, i + 1, plugins)
      ensures Kept(old(plugins), plugins) && Kept(start, plugins)
      ensures Chosen(elements, i + 1, plugins) == Chosen(elements, i, old(plugins)) + {plugins[elements[i].id]}
      ensures forall q | q in old(Repr) && q != plugins[elements[i].id] :: unchanged(q)
      ensures Selected(first).None? ==> forall q | q in old(Repr) :: unchanged(q)
      ensures Selected(first) == Some(Enable) ==> Switched(elements, i + 1, plugins, true)
      ensures Selected(first) == Some(Disable) ==> Switched(elements, i + 1, plugins, false)
      ensures forall id | id in plugins && id !in old(plugins) :: fresh(plugins[id])
    {
      ghost var prev := plugins;
      ghost var was := map q | q in Repr :: q.enabled;
      Each(elements[i], first, rest, browser, innerWidth, innerHeight);
      KeptStep(start, prev, elements[i].id, plugins[elements[i].id]);
      KeptStep(prev, prev, elements[i].id, plugins[elements[i].id]);
      CoversStep(elements, i, prev, plugins);
      ChosenStep(elements, i, prev, plugins);
      if Selected(first) == Some(Enable) || Selected(first) == Some(Disable) {
        SwitchedStep(elements, i, prev, plugins, was, Selected(first) == Some(Enable));
      }
    }

    /**
     * `$(elements).parallax(first, rest...)`: `Each` for every element, in
     * order.  Every element ends with a plugin, no stored plugin is
     * replaced, and `enable` or `disable` leaves every selected element's
     * plugin enabled or disabled.  Only the selected elements' plugins
     * change, and only when the first argument names an API method.
     */
    method FnParallax(elements: seq<Element>, first: FirstArg, rest: seq<Option<Value>>,
                    browser: Browser, innerWidth: real, innerHeight: real)
      requires Valid() && innerWidth > 0.0 && innerHeight > 0.0
      modifies this, Repr
      ensures Valid() && fresh(Repr - old(Repr))
      ensures forall k | 0 <= k < |elements| :: elements[k].id in plugins
      ensures Kept(old(plugins), plugins)
      ensures Selected(first) == Some(Enable) ==>
        forall k | 0 <= k < |elements| :: plugins[elements[k].id].enabled
      ensures Selected(first) == Some(Disable) ==>
        forall k | 0 <= k < |elements| :: !plugins[elements[k].id].enabled && plugins[elements[k].id].listeners == {}
      ensures forall k | 0 <= k < |elements| && elements[k].id !in old(plugins) :: fresh(plugins[elements[k].id])
      ensures forall q | q in old(Repr) && q !in Chosen(elements, |elements|, plugins) :: unchanged(q)
      ensures forall id | id in old(plugins) && id !in Ids(elements) :: unchanged(plugins[id])
      ensures Selected(first).None? ==> forall q | q in old(Repr) :: unchanged(q)
    {
      var i := 0;
      while i < |elements|
        invariant 0 <= i <= |elements|
        invariant Valid() && old(Repr) <= Repr && fresh(Repr - old(Repr))
        invariant Covers(elements, i, plugins)
        invariant forall q | q in old(Repr) && q !in Chosen(elements, i, plugins) :: unchanged(q)
        invariant Selected(first).None? ==> forall q | q in old(Repr) :: unchanged(q)
        invariant Kept(old(plugins), plugins)
        invariant forall id | id in plugins && id !in old(plugins) :: fresh(plugins[id])
        invariant Selected(first) == Some(Enable) ==> Switched(elements, i, plugins, true)
        invariant Selected(first) == Some(Disable) ==> Switched(elements, i, plugins, false)
      {
        Visit(old(plugins), elements, i, first, rest, browser, innerWidth, innerHeight);
        i := i + 1;
      }
      if Selected(first) == Some(Disable) {
        forall k | 0 <= k < |elements|
          ensures plugins[elements[k].id].listeners == {}
        {
          assert plugins[elements[k].id] in Repr;
        }
      }
      forall id | id in old(plugins) && id !in Ids(elements)
        ensures unchanged(plugins[id])
      {
        assert old(plugins)[id] in old(plugins).Values;
        NotChosen(elements, plugins, id);
      }
    }
  }
}
