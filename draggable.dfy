/**
 * The pan controller of components/DraggableItem.tsx. Props are the item's
 * position, z-index, optional bounds and the `disabled` flag; the shared values
 * are the live translation and `isDragging`; the JavaScript callbacks the
 * gesture invokes are recorded, in order, in `calls`. The transition of one
 * gesture callback is the function `Step`; the class `DraggableItem` performs
 * it on its fields.
 */
module Draggable {
  import opened Wrappers

  /** `bounds` prop: each side may be left out. */
  datatype Bounds = Bounds(minX: Option<real>, maxX: Option<real>, minY: Option<real>, maxY: Option<real>)

  /** The JavaScript callbacks a gesture invokes through `runOnJS`. */
  datatype Callback = DragStarted | PositionChanged(x: real, y: real) | DragEnded

  /** What the gesture callbacks read: the props and the screen size. */
  datatype Props = Props(
    x: real, y: real, zIndex: int, bounds: Bounds, disabled: bool,
    hasOnDragStart: bool, hasOnDragEnd: bool, screenWidth: real, screenHeight: real)

  /** What the gesture callbacks write. */
  datatype Pan = Pan(translateX: real, translateY: real, isDragging: bool, calls: seq<Callback>)

  datatype PanEvent = Start | Update(translationX: real, translationY: real) | End

  function Max(a: real, b: real): real { if a >= b then a else b }
  function Min(a: real, b: real): real { if a <= b then a else b }

  /** `Math.max(lo, Math.min(hi, v))` */
  function Clamp(lo: real, hi: real, v: real): (r: real)
    ensures lo <= hi ==> lo <= r <= hi
    ensures lo > hi ==> r == lo
    ensures lo <= v <= hi ==> r == v
    ensures lo <= hi && v < lo ==> r == lo
    ensures lo <= hi && hi < v ==> r == hi
  {
    Max(lo, Min(hi, v))
  }

  /** Clamping twice is clamping once. */
  lemma ClampIdempotent(lo: real, hi: real, v: real)
    ensures Clamp(lo, hi, Clamp(lo, hi, v)) == Clamp(lo, hi, v)
  {
  }

  /** The defaulted sides: minX 0, maxX W - 100, minY 50, maxY H - 150. */
  function MinX(p: Props): real { p.bounds.minX.GetOr(0.0) }
  function MaxX(p: Props): real { p.bounds.maxX.GetOr(p.screenWidth - 100.0) }
  function MinY(p: Props): real { p.bounds.minY.GetOr(50.0) }
  function MaxY(p: Props): real { p.bounds.maxY.GetOr(p.screenHeight - 150.0) }

  /** The live position for a pan sample: prop position plus cumulative translation, clamped per axis. */
  function SampleX(p: Props, translationX: real): real { Clamp(MinX(p), MaxX(p), p.x + translationX) }
  function SampleY(p: Props, translationY: real): real { Clamp(MinY(p), MaxY(p), p.y + translationY) }

  function OptionalCall(present: bool, c: Callback): seq<Callback> {
    if present then [c] else []
  }

  /**
   * One gesture callback. A disabled gesture runs no handler. `onStart` marks
   * the drag and calls `onDragStart`; `onUpdate` moves the translation only;
   * `onEnd` clears the drag, commits the current translation through
   * `onPositionChange`, then calls `onDragEnd`.
   */
  function Step(p: Props, s: Pan, e: PanEvent): (r: Pan)
    ensures p.disabled ==> r == s
    ensures !p.disabled && e.Start? ==> r.isDragging && r.calls == s.calls + OptionalCall(p.hasOnDragStart, DragStarted)
    ensures !p.disabled && e.Update? ==> r.calls == s.calls && r.isDragging == s.isDragging
    ensures !p.disabled && e.End? ==>
      !r.isDragging && r.calls == s.calls + [PositionChanged(s.translateX, s.translateY)] + OptionalCall(p.hasOnDragEnd, DragEnded)
  {
    if p.disabled then s
    else match e
      case Start => s.(isDragging := true, calls := s.calls + OptionalCall(p.hasOnDragStart, DragStarted))
      case Update(tx, ty) => s.(translateX := SampleX(p, tx), translateY := SampleY(p, ty))
      case End => s.(isDragging := false,
                     calls := s.calls + [PositionChanged(s.translateX, s.translateY)] + OptionalCall(p.hasOnDragEnd, DragEnded))
  }

  function Run(p: Props, s: Pan, es: seq<PanEvent>): Pan
    decreases |es|
  {
    if es == [] then s else Run(p, Step(p, s, es[0]), es[1..])
  }

  /** A sample depends on the current cumulative translation only, not on earlier samples or on the drag flag. */
  lemma UpdateForgetsHistory(p: Props, s1: Pan, s2: Pan, tx: real, ty: real)
    requires !p.disabled
    ensures Step(p, s1, Update(tx, ty)).translateX == Step(p, s2, Update(tx, ty)).translateX == SampleX(p, tx)
    ensures Step(p, s1, Update(tx, ty)).translateY == Step(p, s2, Update(tx, ty)).translateY == SampleY(p, ty)
  {
  }

  /** With consistent bounds, the live position never leaves them. */
  lemma UpdateStaysInBounds(p: Props, s: Pan, tx: real, ty: real)
    requires !p.disabled && MinX(p) <= MaxX(p) && MinY(p) <= MaxY(p)
    ensures var r := Step(p, s, Update(tx, ty));
      MinX(p) <= r.translateX <= MaxX(p) && MinY(p) <= r.translateY <= MaxY(p)
  {
  }

  predicate AllUpdates(es: seq<PanEvent>) {
    forall i :: 0 <= i < |es| ==> es[i].Update?
  }

  /**
   * A run of samples invokes no callback, keeps the drag flag, and leaves the
   * translation at the clamp of the last sample.
   */
  lemma {:induction false} RunUpdates(p: Props, s: Pan, es: seq<PanEvent>)
    requires !p.disabled && AllUpdates(es)
    ensures var r := Run(p, s, es);
      && r.calls == s.calls && r.isDragging == s.isDragging
      && (es == [] ==> r.translateX == s.translateX && r.translateY == s.translateY)
      && (es != [] ==>
            r.translateX == SampleX(p, es[|es| - 1].translationX) && r.translateY == SampleY(p, es[|es| - 1].translationY))
    decreases |es|
  {
    if es != [] {
      RunUpdates(p, Step(p, s, es[0]), es[1..]);
    }
  }

  lemma {:induction false} RunConcat(p: Props, s: Pan, a: seq<PanEvent>, b: seq<PanEvent>)
    ensures Run(p, s, a + b) == Run(p, Run(p, s, a), b)
    decreases |a|
  {
    if a == [] {
      assert a + b == b;
    } else {
      assert (a + b)[0] == a[0];
      assert (a + b)[1..] == a[1..] + b;
      RunConcat(p, Step(p, s, a[0]), a[1..], b);
    }
  }

  /**
   * A whole gesture (start, samples, release) ends idle and adds exactly: the
   * optional `onDragStart`, one `onPositionChange` carrying the last clamped
   * sample (or the untouched translation when no sample arrived), and the
   * optional `onDragEnd`, in that order.
   */
  lemma GestureCommitsOnce(p: Props, s: Pan, updates: seq<PanEvent>)
    requires !p.disabled && AllUpdates(updates)
    ensures var r := Run(p, s, [Start] + updates + [End]);
      var cx := if updates == [] then s.translateX else SampleX(p, updates[|updates| - 1].translationX);
      var cy := if updates == [] then s.translateY else SampleY(p, updates[|updates| - 1].translationY);
      && !r.isDragging
      && r.calls == s.calls + OptionalCall(p.hasOnDragStart, DragStarted)
                   + [PositionChanged(cx, cy)]
                   + OptionalCall(p.hasOnDragEnd, DragEnded)
  {
    var s1 := Step(p, s, Start);
    RunConcat(p, s, [Start] + updates, [End]);
    RunConcat(p, s, [Start], updates);
    assert Run(p, s, [Start]) == s1;
    RunUpdates(p, s1, updates);
    var s2 := Run(p, s1, updates);
    assert Run(p, s2, [End]) == Step(p, s2, End);
  }

  /** A disabled item ignores every gesture. */
  lemma {:induction false} DisabledRunsNothing(p: Props, s: Pan, es: seq<PanEvent>)
    requires p.disabled
    ensures Run(p, s, es) == s
    decreases |es|
  {
    if es != [] {
      DisabledRunsNothing(p, s, es[1..]);
    }
  }

  /** `interpolate(t, [0, 1], [a, b])` on its input range. */
  function Interpolate(t: int, a: int, b: int): int { a + t * (b - a) }

  function Elevation(zIndex: int, isDragging: bool): (e: int) {
    Interpolate(if isDragging then 1 else 0, zIndex, zIndex + 1000)
  }

  /** Idle at the item's own z-index, z-index + 1000 while dragged. */
  lemma ElevationValues(zIndex: int)
    ensures Elevation(zIndex, false) == zIndex
    ensures Elevation(zIndex, true) == zIndex + 1000
  {
  }

  /** The bounds the torn page passes (components/TornPage.tsx): a sample past maxX stops at 300. */
  lemma TornPageClamp(p: Props, s: Pan)
    requires p.bounds == Bounds(Some(0.0), Some(300.0), Some(50.0), Some(570.0)) && !p.disabled
    requires p.x == 250.0 && p.y == 100.0
    ensures Step(p, s, Update(100.0, 500.0)).translateX == 300.0
    ensures Step(p, s, Update(100.0, 500.0)).translateY == 570.0
    ensures Step(p, s, Update(-300.0, -80.0)).translateX == 0.0
    ensures Step(p, s, Update(-300.0, -80.0)).translateY == 50.0
  {
  }

  class DraggableItem {
    const bounds: Bounds
    const hasOnDragStart: bool
    const hasOnDragEnd: bool
    const screenWidth: real
    const screenHeight: real
    var x: real
    var y: real
    var zIndex: int
    var disabled: bool
    var translateX: real
    var translateY: real
    var isDragging: bool
    var calls: seq<Callback>

    function CurrentProps(): Props
      reads this
    {
      Props(x, y, zIndex, bounds, disabled, hasOnDragStart, hasOnDragEnd, screenWidth, screenHeight)
    }

    function PanState(): Pan
      reads this
    {
      Pan(translateX, translateY, isDragging, calls)
    }

    /** The `zIndex` style the item is painted with. */
    function CurrentElevation(): int
      reads this
    {
      Elevation(zIndex, isDragging)
    }

    /** Mount: the translation starts at the prop position, idle. */
    constructor (x: real, y: real, zIndex: int, bounds: Bounds, disabled: bool,
                 hasOnDragStart: bool, hasOnDragEnd: bool, screenWidth: real, screenHeight: real)
      ensures CurrentProps() == Props(x, y, zIndex, bounds, disabled, hasOnDragStart, hasOnDragEnd, screenWidth, screenHeight)
      ensures PanState() == Pan(x, y, false, [])
    {
      this.bounds := bounds;
      this.hasOnDragStart := hasOnDragStart;
      this.hasOnDragEnd := hasOnDragEnd;
      this.screenWidth := screenWidth;
      this.screenHeight := screenHeight;
      this.x := x;
      this.y := y;
      this.zIndex := zIndex;
      this.disabled := disabled;
      translateX := x;
      translateY := y;
      isDragging := false;
      calls := [];
    }

    /**
     * A re-render with new props. The effect keyed on `[x, y]` retargets the
     * translation to the new prop position when either coordinate changed, and
     * otherwise leaves it alone.
     */
    method Rerender(newX: real, newY: real, newZIndex: int, newDisabled: bool)
      modifies this`x, this`y, this`zIndex, this`disabled, this`translateX, this`translateY
      ensures x == newX && y == newY && zIndex == newZIndex && disabled == newDisabled
      ensures (newX != old(x) || newY != old(y)) ==> translateX == newX && translateY == newY
      ensures (newX == old(x) && newY == old(y)) ==> translateX == old(translateX) && translateY == old(translateY)
    {
      if newX != x || newY != y {
        translateX := newX;
        translateY := newY;
      }
      x, y, zIndex, disabled := newX, newY, newZIndex, newDisabled;
    }

    method OnStart()
      modifies this`isDragging, this`calls
      ensures PanState() == Step(CurrentProps(), old(PanState()), Start)
    {
      if !disabled {
        isDragging := true;
        if hasOnDragStart {
          calls := calls + [DragStarted];
        }
      }
    }

    method OnUpdate(translationX: real, translationY: real)
      modifies this`translateX, this`translateY
      ensures PanState() == Step(CurrentProps(), old(PanState()), Update(translationX, translationY))
    {
      if !disabled {
        var newX := x + translationX;
        var newY := y + translationY;
        translateX := Max(bounds.minX.GetOr(0.0), Min(bounds.maxX.GetOr(screenWidth - 100.0), newX));
        translateY := Max(bounds.minY.GetOr(50.0), Min(bounds.maxY.GetOr(screenHeight - 150.0), newY));
      }
    }

    method OnEnd()
      modifies this`isDragging, this`calls
      ensures PanState() == Step(CurrentProps(), old(PanState()), End)
    {
      if !disabled {
        isDragging := false;
        var finalX := translateX;
        var finalY := translateY;
        calls := calls + [PositionChanged(finalX, finalY)];
        if hasOnDragEnd {
          calls := calls + [DragEnded];
        }
      }
    }
  }
}
