/**
 * `DecalObject`: an image overlay's props and its pointer handler, which tells a single
 * press from a double press with a 300 ms timer. The timer is not a clock here: its
 * expiry is an event of its own, `TimerFires`.
 */
module DecalClick {
  import opened Common

  /** What the handler is told about a press (the event object it hands on). */
  datatype PointerEvent = PointerEvent(clientX: real, clientY: real)

  /** A callback invocation: `onPointerDown(e)` or `onDoubleClick()`. */
  datatype Callback = SingleClick(event: PointerEvent) | DoubleClick

  /** The props after defaults: `scale = 0.2`, `rotation = 0`, `opacity = 1`,
      `isSelected = false`. */
  datatype DecalProps = DecalProps(scale: real, rotation: real, opacity: real, isSelected: bool)

  /** Destructuring with defaults: an absent prop takes its default, a present one is kept. */
  function ResolveProps(scale: Option<real>, rotation: Option<real>, opacity: Option<real>,
                        isSelected: Option<bool>): DecalProps
  {
    DecalProps(scale.GetOr(0.2), rotation.GetOr(0.0), opacity.GetOr(1.0), isSelected.GetOr(false))
  }

  /** The plane the decal is drawn on is a `scale` × `scale` square. */
  function PlaneSize(p: DecalProps): (real, real)
  {
    (p.scale, p.scale)
  }

  /** With no props given, the plane is 0.2 × 0.2 and the decal is opaque, unrotated and
      not selected. */
  lemma DefaultDecal()
    ensures var p := ResolveProps(None, None, None, None);
      PlaneSize(p) == (0.2, 0.2) && p.rotation == 0.0 && p.opacity == 1.0 && !p.isSelected
  {
  }

  /** Props that are given override every default, and the given scale reaches the plane. */
  lemma GivenProps(scale: real, rotation: real, opacity: real, isSelected: bool)
    ensures var p := ResolveProps(Some(scale), Some(rotation), Some(opacity), Some(isSelected));
      PlaneSize(p) == (scale, scale) && p.rotation == rotation && p.opacity == opacity &&
      p.isSelected == isSelected
  {
  }

  /**
   * `handlePointerDown` and the timer it arms, within one render. `clickTimeout` is the
   * pending timer, carrying the press that armed it; `calls` is the sequence of callback
   * invocations the parent has seen. The ghost counters tally how presses were resolved,
   * whether or not a callback was there to hear of it.
   */
  class DecalPointerHandler {
    const hasOnPointerDown: bool
    const hasOnDoubleClick: bool
    var clickTimeout: Option<PointerEvent>
    var calls: seq<Callback>
    var stoppedPropagations: nat
    ghost var presses: nat
    ghost var singles: nat
    ghost var doubles: nat

    /** Every press so far is accounted for exactly once: resolved as a single click,
        as one of the two presses of a double click, or still pending. Propagation was
        stopped for each of them, and each callback heard of is one resolution. */
    ghost predicate Valid()
      reads this
    {
      && presses == singles + 2 * doubles + (if clickTimeout.Some? then 1 else 0)
      && stoppedPropagations == presses
      && |calls| == (if hasOnPointerDown then singles else 0) + (if hasOnDoubleClick then doubles else 0)
    }

    constructor (hasOnPointerDown: bool, hasOnDoubleClick: bool)
      ensures Valid()
      ensures this.hasOnPointerDown == hasOnPointerDown && this.hasOnDoubleClick == hasOnDoubleClick
      ensures clickTimeout == None && calls == [] && stoppedPropagations == 0
    {
      this.hasOnPointerDown := hasOnPointerDown;
      this.hasOnDoubleClick := hasOnDoubleClick;
      clickTimeout := None;
      calls := [];
      stoppedPropagations := 0;
      presses, singles, doubles := 0, 0, 0;
    }

    /** A press always stops propagation. From idle it arms the timer and calls nothing;
        while pending it cancels the timer and reports a double click, so the first
        press is never reported as a single click. */
    method PointerDown(e: PointerEvent)
      requires Valid()
      modifies this
      ensures Valid()
      ensures stoppedPropagations == old(stoppedPropagations) + 1
      ensures old(clickTimeout).None? ==> clickTimeout == Some(e) && calls == old(calls)
      ensures old(clickTimeout).Some? ==>
        clickTimeout == None && calls == old(calls) + (if hasOnDoubleClick then [DoubleClick] else [])
    {
      stoppedPropagations := stoppedPropagations + 1;
      presses := presses + 1;
      if clickTimeout.Some? {
        clickTimeout := None;
        doubles := doubles + 1;
        if hasOnDoubleClick {
          calls := calls + [DoubleClick];
        }
      } else {
        clickTimeout := Some(e);
      }
    }

    /** The timer expires (it can only while armed): back to idle, and the press that
        armed it is reported as a single click. */
    method TimerFires()
      requires Valid() && clickTimeout.Some?
      modifies this
      ensures Valid()
      ensures clickTimeout == None && stoppedPropagations == old(stoppedPropagations)
      ensures calls == old(calls) +
        (if hasOnPointerDown then [SingleClick(old(clickTimeout).value)] else [])
    {
      var e := clickTimeout.value;
      clickTimeout := None;
      singles := singles + 1;
      if hasOnPointerDown {
        calls := calls + [SingleClick(e)];
      }
    }
  }

  /** Two presses inside the window give exactly one double click; one press left to
      expire gives exactly one single click, with that press's event. */
  method ClickScenarios(first: PointerEvent, second: PointerEvent)
    returns (double: seq<Callback>, single: seq<Callback>)
    ensures double == [DoubleClick]
    ensures single == [SingleClick(first)]
  {
    var h := new DecalPointerHandler(true, true);
    h.PointerDown(first);
    h.PointerDown(second);
    double := h.calls;
    var g := new DecalPointerHandler(true, true);
    g.PointerDown(first);
    g.TimerFires();
    single := g.calls;
  }
}
