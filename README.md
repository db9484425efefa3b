# Layer base: stored properties, normalised snapshot, change gating

A Dafny model of `ol.layer.Base`, the base class of a map layer in
`lib/WebApplication1/ol/layer/layerbase.js`. A layer stores six rendering
properties: brightness, contrast, hue, opacity, saturation and visible. It
fills in defaults at construction (0, 1, 0, 1, 1, true). On demand it
derives a normalised `LayerState` snapshot for the renderer. It also
decides when a property change or a LOAD event is re-dispatched as a
generic CHANGE event.

Files:

- `wrappers.dfy`: `Option`, where `None` stands for a JavaScript `undefined`.
- `layer_base.dfy`, module `LayerBase`. The pure part is the defaults
  (`WithDefaults`), the snapshot (`Snapshot`, built from `Clamp`, `Max`,
  `ClampedOr`, `FlooredOr`), the listener wiring (`ListenerOf`), the
  handler gates (`Dispatches`), and one operation as a value (`Write`,
  `Step`). The imperative part is the class `Layer`. Its six
  `Option`-typed fields are updated in place by the constructor and the
  setters. A `ready` field stands for the abstract `isReady()`. A
  `changeEvents` counter stands for the CHANGE events dispatched.
- `layer_history.dfy`, module `LayerHistory`. `Run` performs a sequence of
  operations. Lemmas by induction cover how many CHANGE events such a
  sequence dispatches and which hue it leaves stored; readiness is held fixed over such a sequence. Client methods build
  a `Layer` and check the behaviour the layer promises: defaults, clamping,
  and event counts for not-ready, hidden and visible layers.

Modelling decisions:

- Every setter writes its property and then raises that key's change
  notification. That notification goes to the handler the constructor
  attached (`Layer.Notify`). Whether the property store suppresses a write
  of an equal value is not part of this model: the store is not part of it.
- The constructor stores its values before it attaches the listeners
  (line 62, then lines 64-76). So construction dispatches no CHANGE event.
- `handleLayerChange` tests the raw stored visible value, so an undefined
  value counts as hidden there. The snapshot treats an undefined value as
  visible. `ChangeGateIgnoresVisibleDefault` records this difference.
  `ChangeGateMatchesSnapshot` shows the two agree whenever visible is
  defined, which after construction it always is (`Layer.Valid`,
  `RunKeepsDefined`).
- Numbers are `real`, so `Math.max` and `goog.math.clamp` are exact.
  `!!visible` is the identity on `bool`.

## Model

| member | source | states |
|---|---|---|
| `LayerBase.Max` | lib/WebApplication1/ol/layer/layerbase.js:139 | `Math.max`: the result is at least both arguments and is one of them |
| `LayerBase.Clamp` | lib/WebApplication1/ol/layer/layerbase.js:138 | `goog.math.clamp`: never above the upper bound; at least the lower bound when the bounds are ordered; identity inside the interval; the nearer bound outside it |
| `LayerBase.ClampedOr` | lib/WebApplication1/ol/layer/layerbase.js:138-141 | brightness/opacity rule: an undefined value gives the default; a defined one lands in [lo, hi], is kept when inside, and is cut to the bound it passes |
| `LayerBase.FlooredOr` | lib/WebApplication1/ol/layer/layerbase.js:139-143 | contrast/saturation rule: an undefined value gives the default; a defined one is kept when non-negative and becomes 0 when negative, with no upper cap |
| `LayerBase.WithDefaults` | lib/WebApplication1/ol/layer/layerbase.js:47-60 | after construction every property is defined; each supplied option keeps its value; each absent one gets brightness 0, contrast 1, hue 0, opacity 1, saturation 1, visible true |
| `LayerBase.Snapshot` | lib/WebApplication1/ol/layer/layerbase.js:129-146 | the snapshot's brightness lies in [-1, 1] and opacity in [0, 1]; contrast and saturation are never negative; each is kept when in range and cut to the bound otherwise; hue and visible pass through; `ready` is copied; every undefined field gives its default |
| `LayerBase.ListenerOf` | lib/WebApplication1/ol/layer/layerbase.js:64-76 | the visible change event, and only it, goes to `handleLayerVisibleChange`; the other five property change events and LOAD go to `handleLayerChange` |
| `LayerBase.Raised` | lib/WebApplication1/ol/layer/layerbase.js:252-325 | each setter raises the change event of its own property key (brightness, contrast, hue, opacity, saturation, visible); LOAD raises the LOAD event, and only LOAD does |
| `LayerBase.Write` | lib/WebApplication1/ol/layer/layerbase.js:252-325 | a setter stores its argument unclamped and no other property changes; LOAD stores nothing; a store with every property defined stays fully defined |
| `LayerBase.Step` | lib/WebApplication1/ol/layer/layerbase.js:209-223 | one operation raises the CHANGE count by 0 or 1; for `setVisible` by exactly 1 iff ready, whichever way visibility moved; for any other setter or LOAD by exactly 1 iff ready and visible; readiness is untouched |
| `LayerBase.Min` | lib/WebApplication1/ol/layer/layerbase.js:138 | `Math.min` inside `goog.math.clamp`: the result is at most both arguments and is one of them |
| `LayerBase.ValueOr` | lib/WebApplication1/ol/layer/layerbase.js:50-60 | the `goog.isDef(x) ? x : d` fallback: a defined value is returned as it is, an undefined one gives the default |
| `LayerBase.Dispatches` | lib/WebApplication1/ol/layer/layerbase.js:209-223 | the handler gates: neither handler dispatches unless ready; `handleLayerVisibleChange` dispatches exactly when ready; `handleLayerChange` exactly when ready and the raw visible value is true |
| `LayerBase.Layer.GetBrightness` | lib/WebApplication1/ol/layer/layerbase.js:93-95 | returns the raw stored brightness, unclamped; on a constructed layer it is always defined |
| `LayerBase.Layer.GetContrast` | lib/WebApplication1/ol/layer/layerbase.js:105-107 | returns the raw stored contrast, unclamped; on a constructed layer it is always defined |
| `LayerBase.Layer.GetHue` | lib/WebApplication1/ol/layer/layerbase.js:117-119 | returns the raw stored hue; on a constructed layer it is always defined |
| `LayerBase.Layer.GetOpacity` | lib/WebApplication1/ol/layer/layerbase.js:173-175 | returns the raw stored opacity, unclamped; on a constructed layer it is always defined |
| `LayerBase.Layer.GetSaturation` | lib/WebApplication1/ol/layer/layerbase.js:185-187 | returns the raw stored saturation, unclamped; on a constructed layer it is always defined |
| `LayerBase.Layer.GetVisible` | lib/WebApplication1/ol/layer/layerbase.js:197-199 | returns the raw stored visible value; on a constructed layer it is always defined |
| `LayerBase.Layer.IsReady` | lib/WebApplication1/ol/layer/layerbase.js:229 | the readiness a concrete layer reports, which is exactly the snapshot's `ready` field |
| `LayerBase.Layer.constructor` | lib/WebApplication1/ol/layer/layerbase.js:43-78 | the stored values are the options with defaults filled in, all defined, and no CHANGE event has been dispatched |
| `LayerBase.Layer.GetLayerState` | lib/WebApplication1/ol/layer/layerbase.js:129-146 | the snapshot of the current values and readiness: in range, `ready` copied, and on a constructed layer hue and visible exactly as stored; a function, so it changes nothing |
| `LayerBase.Layer.SetReady` | lib/WebApplication1/ol/layer/layerbase.js:229 | stands for a concrete layer's `isReady` changing: only readiness moves, and no event is dispatched |
| `LayerBase.Layer.DispatchChangeEvent` | lib/WebApplication1/ol/layer/layerbase.js:85-87 | the CHANGE count goes up by exactly 1 and nothing else changes |
| `LayerBase.Layer.HandleLayerChange` | lib/WebApplication1/ol/layer/layerbase.js:209-213 | one CHANGE event exactly when the stored visible value is true and the layer is ready; none otherwise |
| `LayerBase.Layer.HandleLayerVisibleChange` | lib/WebApplication1/ol/layer/layerbase.js:219-223 | one CHANGE event exactly when the layer is ready; none otherwise |
| `LayerBase.Layer.Notify` | lib/WebApplication1/ol/layer/layerbase.js:64-76 | an event is handled by the listener wired to it, which dispatches exactly when its gate holds |
| `LayerBase.Layer.SetBrightness` | lib/WebApplication1/ol/layer/layerbase.js:252-254 | `GetBrightness` then returns exactly the argument; the count rises by 1 iff visible and ready; the layer is `Step` of its old state, so nothing else changes |
| `LayerBase.Layer.SetContrast` | lib/WebApplication1/ol/layer/layerbase.js:268-270 | `GetContrast` then returns exactly the argument; the count rises by 1 iff visible and ready; nothing else changes |
| `LayerBase.Layer.SetHue` | lib/WebApplication1/ol/layer/layerbase.js:282-284 | `GetHue` then returns exactly the argument; the count rises by 1 iff visible and ready; nothing else changes |
| `LayerBase.Layer.SetOpacity` | lib/WebApplication1/ol/layer/layerbase.js:294-296 | `GetOpacity` then returns exactly the argument; the count rises by 1 iff visible and ready; nothing else changes |
| `LayerBase.Layer.SetSaturation` | lib/WebApplication1/ol/layer/layerbase.js:311-313 | `GetSaturation` then returns exactly the argument; the count rises by 1 iff visible and ready; nothing else changes |
| `LayerBase.Layer.SetVisible` | lib/WebApplication1/ol/layer/layerbase.js:323-325 | `GetVisible` then returns exactly the argument; the count rises by 1 iff ready; nothing else changes |
| `LayerBase.Layer.FireLoad` | lib/WebApplication1/ol/layer/layerbase.js:64-72 | a LOAD event raises the count by 1 iff visible and ready and changes nothing else |
| `LayerHistory.RunEventBound` | lib/WebApplication1/ol/layer/layerbase.js:209-223 | a sequence of n operations dispatches between 0 and n CHANGE events and leaves readiness alone |
| `LayerHistory.NotReadyIsSilent` | lib/WebApplication1/ol/layer/layerbase.js:209-223 | a layer that is not ready dispatches no CHANGE event, whatever is set on it |
| `LayerHistory.ReadyVisibilityTogglesAllCount` | lib/WebApplication1/ol/layer/layerbase.js:219-223 | on a ready layer every visibility change dispatches exactly one CHANGE event |
| `LayerHistory.ShownAdjustmentsAllCount` | lib/WebApplication1/ol/layer/layerbase.js:209-213 | on a ready, visible layer every adjustment and every LOAD dispatches exactly one CHANGE event |
| `LayerHistory.HiddenAdjustmentsAreSilent` | lib/WebApplication1/ol/layer/layerbase.js:209-213 | on a hidden layer, adjustments and LOAD dispatch nothing and leave it hidden |
| `LayerHistory.RunKeepsDefined` | lib/WebApplication1/ol/layer/layerbase.js:50-62 | once every property is defined, as the constructor leaves them, no sequence of operations makes one undefined |
| `LayerHistory.HueIsLastSet` | lib/WebApplication1/ol/layer/layerbase.js:282-284 | the stored hue is the argument of the last `setHue`, unmodified, or the earlier hue if there was none |
| `LayerHistory.SnapshotHueIsLastSetOrDefault` | lib/WebApplication1/ol/layer/layerbase.js:140 | on a layer built without a hue option, the snapshot's hue is the last hue set, or 0 when none was |
| `LayerHistory.ChangeGateMatchesSnapshot` | lib/WebApplication1/ol/layer/layerbase.js:210 | when visible is defined, `handleLayerChange` dispatches exactly when the snapshot says visible and ready |
| `LayerHistory.ChangeGateIgnoresVisibleDefault` | lib/WebApplication1/ol/layer/layerbase.js:136-144 | with visible undefined, the snapshot reports a visible, ready layer while `handleLayerChange` stays silent |
| `LayerHistory.DefaultSnapshot` | lib/WebApplication1/ol/layer/layerbase.js:43-62 | a layer built with no options has the snapshot {0, 1, 0, 1, ready, 1, true} |
| `LayerHistory.HalfOpacitySnapshot` | lib/WebApplication1/ol/layer/layerbase.js:43-62 | built with opacity 0.5 only, the snapshot has opacity 0.5 and every other default |
| `LayerHistory.SetThenSnapshot` | lib/WebApplication1/ol/layer/layerbase.js:252-254 | the getter returns the unclamped value; the snapshot clamps brightness and opacity and keeps the other defaults; two snapshots in a row are equal and dispatch nothing |
| `LayerHistory.AdjustmentEvents` | lib/WebApplication1/ol/layer/layerbase.js:209-213 | a contrast change and a LOAD give two CHANGE events on a ready, visible layer, and none on a hidden or not-ready one |
| `LayerHistory.ReadyThenLoad` | lib/WebApplication1/ol/layer/layerbase.js:64-72 | a LOAD on a layer not yet ready dispatches nothing; after the layer becomes ready, the next LOAD on the visible layer dispatches exactly one CHANGE event |
| `LayerHistory.ToggleEvents` | lib/WebApplication1/ol/layer/layerbase.js:219-223 | hiding then showing gives two CHANGE events when ready, none when not |

## Left out

- The generic key/value property store (`ol.Object`: `get`, `set`, `setValues`) and the `goog.events` listen and dispatch machinery are not part of this model. The six properties are fields. Event delivery is `Layer.Notify`. A dispatched CHANGE event is one more on `changeEvents`.
- Listener teardown and the identity of listeners are not modelled: the wiring is fixed by `ListenerOf`.
- `getLayersArray` and `getLayerStatesArray` are abstract methods without a body (`goog.abstractMethod`), supplied by concrete layers. They are not modelled.
- `isReady` is abstract too. It is modelled as the `ready` field, which a concrete layer changes through `SetReady`. The failure of calling an unimplemented abstract method is not modelled.
- `goog.exportProperty` calls only export names for the Closure compiler and have no behaviour.
- JavaScript number semantics are not modelled: NaN, -0, infinities, and non-numeric or non-boolean values passed to setters or options. The `!!` coercion of a non-boolean visible value is not modelled either.
- Option keys other than the six properties are copied into the store unexamined. They are not modelled.
- Writes of an equal value: the model assumes every setter call raises the key's change notification, even when the new value equals the old one. The store that decides this is not part of this model.
