/**
 * Sequences of operations on a layer: what a run of setters and LOAD
 * events does to the stored values, the snapshot and the number of CHANGE
 * events, and client scenarios of the behaviour the layer promises.
 */
module LayerHistory {
  import opened Wrappers
  import opened LayerBase

  /**
   * The layer after performing `actions` in order. Readiness is held fixed
   * over the run, so the lemmas below cover runs with a fixed readiness;
   * a change of readiness between operations is `Layer.SetReady`, used in
   * `ReadyThenLoad`.
   */
  function Run(n: NodeState, actions: seq<Action>): NodeState
    decreases |actions|
  {
    if actions == [] then n else Run(Step(n, actions[0]), actions[1..])
  }

  /** Every action dispatches at most one CHANGE event, and readiness is untouched. */
  lemma {:induction false} RunEventBound(n: NodeState, actions: seq<Action>)
    ensures Run(n, actions).ready == n.ready
    ensures n.changeEvents <= Run(n, actions).changeEvents <= n.changeEvents + |actions|
    decreases |actions|
  {
    if actions != [] {
      RunEventBound(Step(n, actions[0]), actions[1..]);
    }
  }

  /** A layer that is not ready dispatches nothing, whatever is done to it. */
  lemma {:induction false} NotReadyIsSilent(n: NodeState, actions: seq<Action>)
    requires !n.ready
    ensures Run(n, actions).changeEvents == n.changeEvents
    decreases |actions|
  {
    if actions != [] {
      NotReadyIsSilent(Step(n, actions[0]), actions[1..]);
    }
  }

  /** On a ready layer, every visibility change dispatches exactly one CHANGE event, in either direction. */
  lemma {:induction false} ReadyVisibilityTogglesAllCount(n: NodeState, actions: seq<Action>)
    requires n.ready
    requires forall i :: 0 <= i < |actions| ==> actions[i].SetVisible?
    ensures Run(n, actions).changeEvents == n.changeEvents + |actions|
    decreases |actions|
  {
    if actions != [] {
      ReadyVisibilityTogglesAllCount(Step(n, actions[0]), actions[1..]);
    }
  }

  /**
   * On a ready, visible layer, every adjustment of brightness, contrast,
   * hue, opacity or saturation and every LOAD event dispatches exactly one
   * CHANGE event.
   */
  lemma {:induction false} ShownAdjustmentsAllCount(n: NodeState, actions: seq<Action>)
    requires n.ready && n.props.visible == Some(true)
    requires forall i :: 0 <= i < |actions| ==> !actions[i].SetVisible?
    ensures Run(n, actions).changeEvents == n.changeEvents + |actions|
    decreases |actions|
  {
    if actions != [] {
      ShownAdjustmentsAllCount(Step(n, actions[0]), actions[1..]);
    }
  }

  /** On a hidden layer, adjustments and LOAD events dispatch nothing, ready or not. */
  lemma {:induction false} HiddenAdjustmentsAreSilent(n: NodeState, actions: seq<Action>)
    requires n.props.visible != Some(true)
    requires forall i :: 0 <= i < |actions| ==> !actions[i].SetVisible?
    ensures Run(n, actions).changeEvents == n.changeEvents
    ensures Run(n, actions).props.visible == n.props.visible
    decreases |actions|
  {
    if actions != [] {
      HiddenAdjustmentsAreSilent(Step(n, actions[0]), actions[1..]);
    }
  }

  /** Once every property is defined, no sequence of operations makes one undefined again. */
  lemma {:induction false} RunKeepsDefined(n: NodeState, actions: seq<Action>)
    requires n.props.AllDefined()
    ensures Run(n, actions).props.AllDefined()
    decreases |actions|
  {
    if actions != [] {
      RunKeepsDefined(Step(n, actions[0]), actions[1..]);
    }
  }

  /** The hue the last `SetHue` in `actions` stored, or `hue` if there is none. */
  function LastHue(hue: Option<real>, actions: seq<Action>): Option<real>
    decreases |actions|
  {
    if actions == [] then hue
    else LastHue(if actions[0].SetHue? then Some(actions[0].hue) else hue, actions[1..])
  }

  /** The stored hue is the one the last `SetHue` wrote, unmodified. */
  lemma {:induction false} HueIsLastSet(n: NodeState, actions: seq<Action>)
    ensures Run(n, actions).props.hue == LastHue(n.props.hue, actions)
    decreases |actions|
  {
    if actions != [] {
      HueIsLastSet(Step(n, actions[0]), actions[1..]);
    }
  }

  /**
   * On a layer built without a hue option, the snapshot's hue is the value
   * of the last `SetHue`, unmodified, or 0 when there was none.
   */
  lemma SnapshotHueIsLastSetOrDefault(options: Properties, ready: bool, actions: seq<Action>)
    requires options.hue.None?
    ensures var m := Run(NodeState(WithDefaults(options), ready, 0), actions);
            Snapshot(m.props, m.ready).hue == ValueOr(LastHue(None, actions), DefaultHue)
  {
    var n := NodeState(WithDefaults(options), ready, 0);
    HueIsLastSet(n, actions);
    LastHueFrom(Some(DefaultHue), actions);
  }

  /** Starting from a defined hue, the last hue is the last one set, or that hue. */
  lemma {:induction false} LastHueFrom(h: Option<real>, actions: seq<Action>)
    requires h.Some?
    ensures LastHue(h, actions) == if LastHue(None, actions).Some? then LastHue(None, actions) else h
    decreases |actions|
  {
    if actions != [] {
      var h' := if actions[0].SetHue? then Some(actions[0].hue) else h;
      LastHueFrom(h', actions[1..]);
      if actions[0].SetHue? {
        LastHueFrom(Some(actions[0].hue), actions[1..]);
      }
    }
  }

  /**
   * The gate of `handleLayerChange` reads the raw stored visible value; on
   * a layer whose visible value is defined it agrees with the snapshot.
   */
  lemma ChangeGateMatchesSnapshot(p: Properties, ready: bool)
    requires p.visible.Some?
    ensures Dispatches(LayerChangeHandler, p, ready) <==> Snapshot(p, ready).visible && Snapshot(p, ready).ready
  {
  }

  /** With visible undefined the snapshot reports a visible layer, yet `handleLayerChange` stays silent. */
  lemma ChangeGateIgnoresVisibleDefault(p: Properties)
    requires p.visible.None?
    ensures Snapshot(p, true).visible && Snapshot(p, true).ready
    ensures !Dispatches(LayerChangeHandler, p, true)
  {
  }

  // Client scenarios: what a caller can conclude from the layer's contracts.

  /** A layer built with no options reports every default in its snapshot. */
  method DefaultSnapshot(isReady: bool) returns (s: LayerState)
    ensures s == LayerState(0.0, 1.0, 0.0, 1.0, isReady, 1.0, true)
  {
    var none := Properties(None, None, None, None, None, None);
    var layer := new Layer(none, isReady);
    s := layer.GetLayerState();
  }

  /** Built with opacity 0.5 only, the snapshot has that opacity and every other default. */
  method HalfOpacitySnapshot(isReady: bool) returns (s: LayerState)
    ensures s == LayerState(0.0, 1.0, 0.0, 0.5, isReady, 1.0, true)
  {
    var options := Properties(None, None, None, Some(0.5), None, None);
    var layer := new Layer(options, isReady);
    s := layer.GetLayerState();
  }

  /**
   * Setting a property stores it unclamped and leaves the others alone,
   * while the snapshot clamps it; reading the snapshot twice dispatches
   * nothing and gives the same record.
   */
  method SetThenSnapshot(b: real, o: real) returns (raw: Option<real>, s1: LayerState, s2: LayerState, emitted: int)
    ensures raw == Some(b)
    ensures s1 == s2 && emitted == 0
    ensures s1.brightness == Clamp(b, -1.0, 1.0) && s1.opacity == Clamp(o, 0.0, 1.0)
    ensures s1.contrast == 1.0 && s1.hue == 0.0 && s1.saturation == 1.0 && s1.visible
  {
    var none := Properties(None, None, None, None, None, None);
    var layer := new Layer(none, true);
    layer.SetBrightness(b);
    layer.SetOpacity(o);
    raw := layer.GetBrightness();
    var before := layer.changeEvents;
    s1 := layer.GetLayerState();
    s2 := layer.GetLayerState();
    emitted := layer.changeEvents - before;
  }

  /**
   * Adjusting a property dispatches one CHANGE event when the layer is
   * ready and visible and none otherwise (a not-ready layer, a hidden
   * layer); a LOAD event behaves the same.
   */
  method AdjustmentEvents(isReady: bool, isVisible: bool, x: real) returns (emitted: int)
    ensures emitted == if isReady && isVisible then 2 else 0
  {
    var options := Properties(None, None, None, None, None, Some(isVisible));
    var layer := new Layer(options, isReady);
    layer.SetContrast(x);
    layer.FireLoad();
    emitted := layer.changeEvents;
  }

  /** Hiding and then showing a layer dispatches one CHANGE event per toggle when ready, none when not. */
  method ToggleEvents(isReady: bool) returns (emitted: int)
    ensures emitted == if isReady then 2 else 0
  {
    var none := Properties(None, None, None, None, None, None);
    var layer := new Layer(none, isReady);
    layer.SetVisible(false);
    layer.SetVisible(true);
    emitted := layer.changeEvents;
  }

  /**
   * A LOAD event on a layer that is not yet ready dispatches nothing; once
   * the layer has become ready, the next LOAD on the visible layer
   * dispatches exactly one CHANGE event.
   */
  method ReadyThenLoad() returns (beforeReady: int, afterReady: int)
    ensures beforeReady == 0 && afterReady == 1
  {
    var none := Properties(None, None, None, None, None, None);
    var layer := new Layer(none, false);
    layer.FireLoad();
    beforeReady := layer.changeEvents;
    layer.SetReady(true);
    layer.FireLoad();
    afterReady := layer.changeEvents - beforeReady;
  }
}
