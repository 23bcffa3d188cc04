/**
 * The drawing surface: pointer handlers that start, extend and finish strokes on the
 * stage's single layer, and the imperative `clear` the page calls through its ref.
 */
module StrokeCapture {
  import opened Wrappers
  import Protocol

  /** A pointer position relative to the preview canvas. */
  datatype Point = Point(x: real, y: real)

  /** A `Konva.Line`: a stroke whose flat point list `[x0, y0, x1, y1, ...]` is reassigned in place. */
  class Line {
    var points: seq<real>

    constructor (points: seq<real>)
      ensures this.points == points
    {
      this.points := points;
    }
  }

  /** A child of the stage's layer. */
  datatype Shape =
    | Rect(width: nat, height: nat, fill: string)
    | Stroke(line: Line)

  /** A call the canvas makes into its parent. */
  datatype Callback = OnDraw | OnDrawEnd

  /** The DOM events the preview canvas listens to. */
  datatype PointerEvent = MouseDown | MouseMove | MouseUp | MouseLeave | TouchStart | TouchMove | TouchEnd

  /** The three handlers behind those events. */
  datatype Handler = Down | Move | Up

  /** The binding of events to handlers: touch events and leaving the canvas reuse the mouse handlers. */
  function HandlerFor(e: PointerEvent): (h: Handler)
    ensures h == Down <==> e == MouseDown || e == TouchStart
    ensures h == Move <==> e == MouseMove || e == TouchMove
    ensures h == Up <==> e == MouseUp || e == MouseLeave || e == TouchEnd
  {
    match e
    case MouseDown => Down
    case TouchStart => Down
    case MouseMove => Move
    case TouchMove => Move
    case MouseUp => Up
    case MouseLeave => Up
    case TouchEnd => Up
  }

  /** The black 280 x 280 background the stage setup puts first on the layer. */
  function Background(): Shape
  {
    Rect(Protocol.CanvasSize, Protocol.CanvasSize, "black")
  }

  /** The lines on the layer. */
  function LinesOf(shapes: seq<Shape>): set<Line>
  {
    set i | 0 <= i < |shapes| && shapes[i].Stroke? :: shapes[i].line
  }

  /** `layer.find('Line').forEach(line => line.destroy())`: every stroke goes, everything else stays in order. */
  function WithoutLines(shapes: seq<Shape>): (r: seq<Shape>)
    ensures forall i :: 0 <= i < |r| ==> r[i].Rect?
    ensures forall i :: 0 <= i < |shapes| && shapes[i].Rect? ==> shapes[i] in r
    ensures forall i :: 0 <= i < |r| ==> r[i] in shapes
    ensures |shapes| > 0 && shapes[0].Rect? ==> |r| > 0 && r[0] == shapes[0]
    decreases |shapes|
  {
    if |shapes| == 0 then []
    else
      var rest := WithoutLines(shapes[..|shapes| - 1]);
      var s := shapes[|shapes| - 1];
      assert shapes == shapes[..|shapes| - 1] + [s];
      if s.Stroke? then rest else rest + [s]
  }

  /** The component: its refs (`isDrawing`, `currentLineRef`, `stageRef`) and its stage layer. */
  class Canvas {
    /** `stageRef.current != null`: the hidden container was there when the setup effect ran. */
    const mounted: bool
    /** Whether the parent passed an `onDrawEnd` handler. */
    const hasDrawEnd: bool
    var drawing: bool
    var current: Line?
    var shapes: seq<Shape>
    /** The calls made into the parent, oldest first. */
    var calls: seq<Callback>

    ghost function Footprint(): set<object>
      reads this
    {
      LinesOf(shapes) + (if current != null then {current} else {})
    }

    /** Every stroke, on the layer or still held as the current one, has an even number of coordinates. */
    ghost predicate Valid()
      reads this, Footprint()
    {
      (forall i :: 0 <= i < |shapes| && shapes[i].Stroke? ==> |shapes[i].line.points| % 2 == 0)
      && (current != null ==> |current.points| % 2 == 0)
      && (!mounted ==> shapes == [])
      && (mounted ==> |shapes| > 0 && shapes[0] == Background())
    }

    /** Mount and the stage setup effect: a layer holding only the black background. */
    constructor (mounted: bool, hasDrawEnd: bool)
      ensures Valid()
      ensures this.mounted == mounted && this.hasDrawEnd == hasDrawEnd
      ensures !drawing && current == null && calls == []
      ensures shapes == if mounted then [Background()] else []
    {
      this.mounted := mounted;
      this.hasDrawEnd := hasDrawEnd;
      drawing := false;
      current := null;
      shapes := if mounted then [Background()] else [];
      calls := [];
    }

    /** `handleMouseDown`: raise the flag, then start a dot-sized stroke at the pointer if there is one. */
    method MouseDown(pos: Option<Point>)
      requires Valid()
      modifies this
      ensures Valid()
      ensures drawing
      ensures calls == old(calls)
      ensures pos.None? || !mounted ==> current == old(current) && shapes == old(shapes)
      ensures pos.Some? && mounted ==>
                current != null && fresh(current)
                && current.points == [pos.value.x, pos.value.y, pos.value.x, pos.value.y]
                && shapes == old(shapes) + [Stroke(current)]
    {
      drawing := true;
      if pos.None? || !mounted {
        return;
      }
      var line := new Line([pos.value.x, pos.value.y, pos.value.x, pos.value.y]);
      current := line;
      shapes := shapes + [Stroke(line)];
    }

    /**
     * `handleMouseMove`: while drawing, with a pointer and a current stroke, append the pointer
     * to that stroke only, then call `onDraw` once.
     */
    method MouseMove(pos: Option<Point>)
      requires Valid()
      modifies this, current
      ensures Valid()
      ensures drawing == old(drawing) && current == old(current) && shapes == old(shapes)
      ensures forall l: Line :: l in old(Footprint()) && l != current ==> l.points == old(l.points)
      ensures old(drawing) && pos.Some? && current != null && mounted ==>
                current.points == old(current.points) + [pos.value.x, pos.value.y]
                && calls == old(calls) + [OnDraw]
      ensures !(old(drawing) && pos.Some? && current != null && mounted) ==>
                calls == old(calls) && (current != null ==> current.points == old(current.points))
    {
      if !drawing {
        return;
      }
      if pos.None? || current == null || !mounted {
        return;
      }
      var line := current;
      line.points := line.points + [pos.value.x, pos.value.y];
      calls := calls + [OnDraw];
    }

    /** `handleMouseUp`: only when drawing, drop the flag and the current stroke, then call `onDrawEnd`. */
    method MouseUp()
      requires Valid()
      modifies this
      ensures Valid()
      ensures shapes == old(shapes)
      ensures !old(drawing) ==> drawing == old(drawing) && current == old(current) && calls == old(calls)
      ensures old(drawing) ==> !drawing && current == null
      ensures old(drawing) ==> calls == old(calls) + (if mounted && hasDrawEnd then [OnDrawEnd] else [])
    {
      if !drawing {
        return;
      }
      drawing := false;
      current := null;
      if mounted && hasDrawEnd {
        calls := calls + [OnDrawEnd];
      }
    }

    /** The imperative `clear`: destroy every line on the layer; the background, the flag and the current ref stay. */
    method Clear()
      requires Valid()
      modifies this
      ensures Valid()
      ensures shapes == WithoutLines(old(shapes))
      ensures LinesOf(shapes) == {}
      ensures mounted ==> shapes[0] == Background()
      ensures drawing == old(drawing) && current == old(current) && calls == old(calls)
    {
      if !mounted {
        return;
      }
      shapes := WithoutLines(shapes);
    }
  }
}
