/**
 * The base class of a map layer (`ol.layer.Base`): six stored rendering
 * properties with defaults, typed accessors, a normalised snapshot of the
 * rendering state, and the policy that decides when a property change is
 * re-dispatched as a generic CHANGE event.
 */
module LayerBase {
  import opened Wrappers

  // Defaults filled in by the constructor for every option left undefined.
  const DefaultBrightness: real := 0.0
  const DefaultContrast: real := 1.0
  const DefaultHue: real := 0.0
  const DefaultOpacity: real := 1.0
  const DefaultSaturation: real := 1.0
  const DefaultVisible: bool := true

  /** The six stored layer properties (`ol.layer.LayerProperty`). */
  datatype LayerProperty = Brightness | Contrast | Hue | Opacity | Saturation | Visible

  /**
   * Values of the six properties as held by the layer's property store, or
   * as passed to the constructor as options; `None` is an undefined value.
   */
  datatype Properties = Properties(
    brightness: Option<real>,
    contrast: Option<real>,
    hue: Option<real>,
    opacity: Option<real>,
    saturation: Option<real>,
    visible: Option<bool>)
  {
    predicate AllDefined() {
      brightness.Some? && contrast.Some? && hue.Some? &&
      opacity.Some? && saturation.Some? && visible.Some?
    }
  }

  /** The normalised snapshot handed to the renderer (`ol.layer.LayerState`). */
  datatype LayerState = LayerState(
    brightness: real,
    contrast: real,
    hue: real,
    opacity: real,
    ready: bool,
    saturation: real,
    visible: bool)

  /** `Math.max` on two numbers. */
  function Max(x: real, y: real): (r: real)
    ensures x <= r && y <= r
    ensures r == x || r == y
  {
    if x < y then y else x
  }

  /** `Math.min` on two numbers. */
  function Min(x: real, y: real): (r: real)
    ensures r <= x && r <= y
    ensures r == x || r == y
  {
    if y < x then y else x
  }

  /** `goog.math.clamp`: the minimum of the upper bound and the maximum of `x` and the lower bound. */
  function Clamp(x: real, lo: real, hi: real): (r: real)
    ensures r <= hi
    ensures lo <= hi ==> lo <= r
    ensures lo <= x <= hi ==> r == x
    ensures x < lo && lo <= hi ==> r == lo
    ensures hi < x ==> r == hi
  {
    Min(Max(x, lo), hi)
  }

  /**
   * The property values the constructor stores: each option that is
   * defined, and the default for each one that is not.
   */
  function WithDefaults(options: Properties): (values: Properties)
    ensures values.AllDefined()
    ensures options.brightness.Some? ==> values.brightness == options.brightness
    ensures options.contrast.Some? ==> values.contrast == options.contrast
    ensures options.hue.Some? ==> values.hue == options.hue
    ensures options.opacity.Some? ==> values.opacity == options.opacity
    ensures options.saturation.Some? ==> values.saturation == options.saturation
    ensures options.visible.Some? ==> values.visible == options.visible
    ensures options.brightness.None? ==> values.brightness == Some(DefaultBrightness)
    ensures options.contrast.None? ==> values.contrast == Some(DefaultContrast)
    ensures options.hue.None? ==> values.hue == Some(DefaultHue)
    ensures options.opacity.None? ==> values.opacity == Some(DefaultOpacity)
    ensures options.saturation.None? ==> values.saturation == Some(DefaultSaturation)
    ensures options.visible.None? ==> values.visible == Some(DefaultVisible)
  {
    Properties(
      Some(ValueOr(options.brightness, DefaultBrightness)),
      Some(ValueOr(options.contrast, DefaultContrast)),
      Some(ValueOr(options.hue, DefaultHue)),
      Some(ValueOr(options.opacity, DefaultOpacity)),
      Some(ValueOr(options.saturation, DefaultSaturation)),
      Some(ValueOr(options.visible, DefaultVisible)))
  }

  /** A defined value clamped to [lo, hi], or `default` when undefined (brightness, opacity). */
  function ClampedOr(v: Option<real>, lo: real, hi: real, default: real): (r: real)
    requires lo <= hi
    ensures v.None? ==> r == default
    ensures v.Some? ==> lo <= r <= hi
    ensures v.Some? && lo <= v.value <= hi ==> r == v.value
    ensures v.Some? && v.value < lo ==> r == lo
    ensures v.Some? && hi < v.value ==> r == hi
  {
    match v
    case Some(x) => Clamp(x, lo, hi)
    case None => default
  }

  /** A defined value floored at 0, or `default` when undefined (contrast, saturation). */
  function FlooredOr(v: Option<real>, default: real): (r: real)
    ensures v.None? ==> r == default
    ensures v.Some? && 0.0 <= v.value ==> r == v.value
    ensures v.Some? && v.value < 0.0 ==> r == 0.0
  {
    match v
    case Some(x) => Max(x, 0.0)
    case None => default
  }

  /** A defined value as it is, or `default` when undefined (hue, visible). */
  function ValueOr<T>(v: Option<T>, default: T): (r: T)
    ensures v.None? ==> r == default
    ensures v.Some? ==> r == v.value
  {
    match v
    case Some(x) => x
    case None => default
  }

  /**
   * `getLayerState` as a function of the stored values and the readiness:
   * brightness clamped to [-1, 1], opacity clamped to [0, 1], contrast and
   * saturation floored at 0, hue and visible passed through, and the
   * default in place of every undefined value.
   */
  function Snapshot(p: Properties, ready: bool): (s: LayerState)
    // the renderer never sees an out-of-range value
    ensures -1.0 <= s.brightness <= 1.0 && 0.0 <= s.opacity <= 1.0
    ensures 0.0 <= s.contrast && 0.0 <= s.saturation
    ensures s.ready == ready
    // undefined values fall back to the defaults
    ensures p.brightness.None? ==> s.brightness == DefaultBrightness
    ensures p.contrast.None? ==> s.contrast == DefaultContrast
    ensures p.hue.None? ==> s.hue == DefaultHue
    ensures p.opacity.None? ==> s.opacity == DefaultOpacity
    ensures p.saturation.None? ==> s.saturation == DefaultSaturation
    ensures p.visible.None? ==> s.visible == DefaultVisible
    // brightness: kept inside [-1, 1], cut to the nearer bound outside it
    ensures p.brightness.Some? && -1.0 <= p.brightness.value <= 1.0 ==> s.brightness == p.brightness.value
    ensures p.brightness.Some? && p.brightness.value < -1.0 ==> s.brightness == -1.0
    ensures p.brightness.Some? && 1.0 < p.brightness.value ==> s.brightness == 1.0
    // opacity: kept inside [0, 1], cut to the nearer bound outside it
    ensures p.opacity.Some? && 0.0 <= p.opacity.value <= 1.0 ==> s.opacity == p.opacity.value
    ensures p.opacity.Some? && p.opacity.value < 0.0 ==> s.opacity == 0.0
    ensures p.opacity.Some? && 1.0 < p.opacity.value ==> s.opacity == 1.0
    // contrast and saturation: negative values become 0, there is no upper cap
    ensures p.contrast.Some? && 0.0 <= p.contrast.value ==> s.contrast == p.contrast.value
    ensures p.contrast.Some? && p.contrast.value < 0.0 ==> s.contrast == 0.0
    ensures p.saturation.Some? && 0.0 <= p.saturation.value ==> s.saturation == p.saturation.value
    ensures p.saturation.Some? && p.saturation.value < 0.0 ==> s.saturation == 0.0
    // hue and visible are passed through
    ensures p.hue.Some? ==> s.hue == p.hue.value
    ensures p.visible.Some? ==> s.visible == p.visible.value
  {
    LayerState(
      brightness := ClampedOr(p.brightness, -1.0, 1.0, DefaultBrightness),
      contrast := FlooredOr(p.contrast, DefaultContrast),
      hue := ValueOr(p.hue, DefaultHue),
      opacity := ClampedOr(p.opacity, 0.0, 1.0, DefaultOpacity),
      ready := ready,
      saturation := FlooredOr(p.saturation, DefaultSaturation),
      visible := ValueOr(p.visible, DefaultVisible))
  }

  /** The events the layer listens to on itself. */
  datatype EventType =
    | PropertyChange(property: LayerProperty)  // the store's change event for one key
    | LoadEvent                                // the LOAD event

  /** The two handlers the constructor attaches. */
  datatype Handler = LayerChangeHandler | VisibleChangeHandler

  /**
   * The listener wiring of the constructor: the visible change event goes
   * to `handleLayerVisibleChange`; the change events of the five other
   * properties and the LOAD event go to `handleLayerChange`.
   */
  function ListenerOf(e: EventType): (h: Handler)
    ensures h == VisibleChangeHandler <==> e == PropertyChange(Visible)
    ensures h == LayerChangeHandler <==> e == LoadEvent || (e.PropertyChange? && e.property != Visible)
  {
    match e
    case PropertyChange(Visible) => VisibleChangeHandler
    case _ => LayerChangeHandler
  }

  /**
   * Whether handler `h`, run on stored values `p` with readiness `ready`,
   * dispatches a CHANGE event. `handleLayerChange` tests the raw stored
   * visible value, so an undefined one counts as not visible.
   */
  predicate Dispatches(h: Handler, p: Properties, ready: bool): (b: bool)
    // neither handler dispatches on a layer that is not ready
    ensures b ==> ready
    ensures h == VisibleChangeHandler ==> (b <==> ready)
    ensures h == LayerChangeHandler ==> (b <==> ready && p.visible == Some(true))
  {
    match h
    case LayerChangeHandler => p.visible == Some(true) && ready
    case VisibleChangeHandler => ready
  }

  /** The public operations on a layer. */
  datatype Action =
    | SetBrightness(brightness: real)
    | SetContrast(contrast: real)
    | SetHue(hue: real)
    | SetOpacity(opacity: real)
    | SetSaturation(saturation: real)
    | SetVisible(visible: bool)
    | Load  // a LOAD event dispatched on the layer

  /** The change notification an action raises. */
  function Raised(a: Action): (e: EventType)
    ensures e == LoadEvent <==> a.Load?
    ensures e == PropertyChange(Visible) <==> a.SetVisible?
    ensures a.SetBrightness? ==> e == PropertyChange(Brightness)
    ensures a.SetContrast? ==> e == PropertyChange(Contrast)
    ensures a.SetHue? ==> e == PropertyChange(Hue)
    ensures a.SetOpacity? ==> e == PropertyChange(Opacity)
    ensures a.SetSaturation? ==> e == PropertyChange(Saturation)
  {
    match a
    case SetBrightness(_) => PropertyChange(Brightness)
    case SetContrast(_) => PropertyChange(Contrast)
    case SetHue(_) => PropertyChange(Hue)
    case SetOpacity(_) => PropertyChange(Opacity)
    case SetSaturation(_) => PropertyChange(Saturation)
    case SetVisible(_) => PropertyChange(Visible)
    case Load => LoadEvent
  }

  /**
   * The stored values after an action: a setter stores its argument as it
   * is (no clamping) and leaves every other property alone; LOAD stores
   * nothing.
   */
  function Write(p: Properties, a: Action): (q: Properties)
    ensures a.SetBrightness? ==> q.brightness == Some(a.brightness) && q.(brightness := p.brightness) == p
    ensures a.SetContrast? ==> q.contrast == Some(a.contrast) && q.(contrast := p.contrast) == p
    ensures a.SetHue? ==> q.hue == Some(a.hue) && q.(hue := p.hue) == p
    ensures a.SetOpacity? ==> q.opacity == Some(a.opacity) && q.(opacity := p.opacity) == p
    ensures a.SetSaturation? ==> q.saturation == Some(a.saturation) && q.(saturation := p.saturation) == p
    ensures a.SetVisible? ==> q.visible == Some(a.visible) && q.(visible := p.visible) == p
    ensures a.Load? ==> q == p
    ensures p.AllDefined() ==> q.AllDefined()
  {
    match a
    case SetBrightness(b) => p.(brightness := Some(b))
    case SetContrast(c) => p.(contrast := Some(c))
    case SetHue(h) => p.(hue := Some(h))
    case SetOpacity(o) => p.(opacity := Some(o))
    case SetSaturation(s) => p.(saturation := Some(s))
    case SetVisible(v) => p.(visible := Some(v))
    case Load => p
  }

  /** Everything a layer holds: its stored values, its readiness and the number of CHANGE events it has dispatched. */
  datatype NodeState = NodeState(props: Properties, ready: bool, changeEvents: nat)

  /**
   * One action on a layer: the write, then the notification it raises,
   * handled by the listener the constructor attached to it.
   */
  function Step(n: NodeState, a: Action): (m: NodeState)
    ensures m.props == Write(n.props, a) && m.ready == n.ready
    ensures m.changeEvents == n.changeEvents || m.changeEvents == n.changeEvents + 1
    // a visibility change is re-dispatched exactly when the layer is ready,
    // whichever way visibility moved
    ensures a.SetVisible? ==> (m.changeEvents == n.changeEvents + 1 <==> n.ready)
    // any other change, and LOAD, only when the layer is also visible
    ensures !a.SetVisible? ==> (m.changeEvents == n.changeEvents + 1 <==> n.ready && n.props.visible == Some(true))
  {
    var q := Write(n.props, a);
    var emitted := if Dispatches(ListenerOf(Raised(a)), q, n.ready) then 1 else 0;
    NodeState(q, n.ready, n.changeEvents + emitted)
  }

  /**
   * A layer. The six properties are fields whose `None` is an undefined
   * value; `ready` stands for the abstract `isReady()` a concrete layer
   * supplies; `changeEvents` counts the CHANGE events dispatched so far.
   */
  class Layer {
    var brightness: Option<real>
    var contrast: Option<real>
    var hue: Option<real>
    var opacity: Option<real>
    var saturation: Option<real>
    var visible: Option<bool>
    var ready: bool
    var changeEvents: nat

    /** The stored property values. */
    function Values(): Properties
      reads this
    {
      Properties(brightness, contrast, hue, opacity, saturation, visible)
    }

    /** The layer as a value. */
    function State(): NodeState
      reads this
    {
      NodeState(Values(), ready, changeEvents)
    }

    /** Every property is defined: the constructor sees to it and every setter keeps it. */
    ghost predicate Valid()
      reads this
    {
      Values().AllDefined()
    }

    /**
     * Stores each option, or its default when it is undefined. The change
     * listeners are attached only after the values are stored, so
     * construction dispatches no CHANGE event.
     */
    constructor (options: Properties, isReady: bool)
      ensures Valid()
      ensures Values() == WithDefaults(options)
      ensures ready == isReady && changeEvents == 0
    {
      var values := WithDefaults(options);
      brightness := values.brightness;
      contrast := values.contrast;
      hue := values.hue;
      opacity := values.opacity;
      saturation := values.saturation;
      visible := values.visible;
      ready := isReady;
      changeEvents := 0;
    }

    /** The raw stored brightness, unclamped; defined on every constructed layer. */
    function GetBrightness(): (v: Option<real>)
      reads this
      ensures Valid() ==> v.Some?
    {
      brightness
    }

    /** The raw stored contrast, unclamped; defined on every constructed layer. */
    function GetContrast(): (v: Option<real>)
      reads this
      ensures Valid() ==> v.Some?
    {
      contrast
    }

    /** The raw stored hue, unclamped; defined on every constructed layer. */
    function GetHue(): (v: Option<real>)
      reads this
      ensures Valid() ==> v.Some?
    {
      hue
    }

    /** The raw stored opacity, unclamped; defined on every constructed layer. */
    function GetOpacity(): (v: Option<real>)
      reads this
      ensures Valid() ==> v.Some?
    {
      opacity
    }

    /** The raw stored saturation, unclamped; defined on every constructed layer. */
    function GetSaturation(): (v: Option<real>)
      reads this
      ensures Valid() ==> v.Some?
    {
      saturation
    }

    /** The raw stored visible, unclamped; defined on every constructed layer. */
    function GetVisible(): (v: Option<bool>)
      reads this
      ensures Valid() ==> v.Some?
    {
      visible
    }

    /** The readiness a concrete layer reports; the snapshot copies it. */
    function IsReady(): (r: bool)
      reads this
      ensures r == Snapshot(Values(), ready).ready
    {
      ready
    }

    /** The normalised snapshot; being a function it changes nothing, so two calls in a row agree. */
    function GetLayerState(): (s: LayerState)
      reads this
      ensures s == Snapshot(Values(), ready)
      ensures -1.0 <= s.brightness <= 1.0 && 0.0 <= s.opacity <= 1.0
      ensures 0.0 <= s.contrast && 0.0 <= s.saturation
      ensures s.ready == ready
      // on a constructed layer hue and visible are exactly what is stored
      ensures Valid() ==> s.hue == hue.value && s.visible == visible.value
    {
      Snapshot(
        Properties(GetBrightness(), GetContrast(), GetHue(), GetOpacity(), GetSaturation(), GetVisible()),
        IsReady())
    }

    /** Stands for a concrete layer's readiness changing; the base class attaches no listener to it. */
    method SetReady(isReady: bool)
      modifies this`ready
      ensures State() == old(State()).(ready := isReady)
    {
      ready := isReady;
    }

    method DispatchChangeEvent()
      modifies this`changeEvents
      ensures changeEvents == old(changeEvents) + 1
    {
      changeEvents := changeEvents + 1;
    }

    method HandleLayerChange()
      modifies this`changeEvents
      ensures changeEvents == old(changeEvents) + if visible == Some(true) && ready then 1 else 0
    {
      if GetVisible() == Some(true) && IsReady() {
        DispatchChangeEvent();
      }
    }

    method HandleLayerVisibleChange()
      modifies this`changeEvents
      ensures changeEvents == old(changeEvents) + if ready then 1 else 0
    {
      if IsReady() {
        DispatchChangeEvent();
      }
    }

    /** Delivers event `e` to the handler the constructor attached to it. */
    method Notify(e: EventType)
      modifies this`changeEvents
      ensures changeEvents == old(changeEvents) + if Dispatches(ListenerOf(e), Values(), ready) then 1 else 0
    {
      match ListenerOf(e)
      case LayerChangeHandler => HandleLayerChange();
      case VisibleChangeHandler => HandleLayerVisibleChange();
    }

    method SetBrightness(x: real)
      modifies this`brightness, this`changeEvents
      ensures GetBrightness() == Some(x)
      ensures changeEvents == old(changeEvents) + if visible == Some(true) && ready then 1 else 0
      ensures State() == Step(old(State()), Action.SetBrightness(x))
    {
      brightness := Some(x);
      Notify(PropertyChange(Brightness));
    }

    method SetContrast(x: real)
      modifies this`contrast, this`changeEvents
      ensures GetContrast() == Some(x)
      ensures changeEvents == old(changeEvents) + if visible == Some(true) && ready then 1 else 0
      ensures State() == Step(old(State()), Action.SetContrast(x))
    {
      contrast := Some(x);
      Notify(PropertyChange(Contrast));
    }

    method SetHue(x: real)
      modifies this`hue, this`changeEvents
      ensures GetHue() == Some(x)
      ensures changeEvents == old(changeEvents) + if visible == Some(true) && ready then 1 else 0
      ensures State() == Step(old(State()), Action.SetHue(x))
    {
      hue := Some(x);
      Notify(PropertyChange(Hue));
    }

    method SetOpacity(x: real)
      modifies this`opacity, this`changeEvents
      ensures GetOpacity() == Some(x)
      ensures changeEvents == old(changeEvents) + if visible == Some(true) && ready then 1 else 0
      ensures State() == Step(old(State()), Action.SetOpacity(x))
    {
      opacity := Some(x);
      Notify(PropertyChange(Opacity));
    }

    method SetSaturation(x: real)
      modifies this`saturation, this`changeEvents
      ensures GetSaturation() == Some(x)
      ensures changeEvents == old(changeEvents) + if visible == Some(true) && ready then 1 else 0
      ensures State() == Step(old(State()), Action.SetSaturation(x))
    {
      saturation := Some(x);
      Notify(PropertyChange(Saturation));
    }

    method SetVisible(x: bool)
      modifies this`visible, this`changeEvents
      ensures GetVisible() == Some(x)
      ensures changeEvents == old(changeEvents) + if ready then 1 else 0
      ensures State() == Step(old(State()), Action.SetVisible(x))
    {
      visible := Some(x);
      Notify(PropertyChange(Visible));
    }

    /** A LOAD event dispatched on the layer. */
    method FireLoad()
      modifies this`changeEvents
      ensures changeEvents == old(changeEvents) + if visible == Some(true) && ready then 1 else 0
      ensures State() == Step(old(State()), Action.Load)
    {
      Notify(LoadEvent);
    }
  }
}
