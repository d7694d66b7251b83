/** The scratchpad: a drawing surface with two states (idle, drawing), a pen
    or eraser tool, the last pointer position, and a snapshot emitted to the
    owner when a stroke ends (and an absent snapshot when it is cleared).
    The canvas is modelled as a white fill, an optional backdrop image (the
    snapshot it was opened with) and an append-only log of line segments. */
module Scratchpad {
  import opened Common

  datatype Tool = Pen | Eraser

  /** An integer point in surface or client coordinates. */
  datatype Point = Point(x: int, y: int)

  /** One `moveTo`/`lineTo`/`stroke` with its style. */
  datatype Segment = Segment(from: Point, to: Point, color: string, width: nat)

  /** What the canvas shows: the white fill, the backdrop image drawn on it
      (if any) and the segments stroked since, in order. */
  datatype Surface = Surface(backdrop: Option<string>, segments: seq<Segment>)

  const White: string := "#ffffff"
  const Ink: string := "#1a1a2e"

  /** The white fill alone. */
  const Blank: Surface := Surface(None, [])

  function StrokeColor(tool: Tool): string {
    if tool == Eraser then White else Ink
  }

  function StrokeWidth(tool: Tool): nat {
    if tool == Eraser then 20 else 2
  }

  /** The eraser paints white 20 wide; the pen paints ink 2 wide. */
  lemma StyleByTool(tool: Tool)
    ensures tool == Eraser <==> StrokeColor(tool) == White
    ensures tool == Eraser ==> StrokeWidth(tool) == 20
    ensures tool == Pen ==> StrokeColor(tool) == Ink && StrokeWidth(tool) == 2
  {
  }

  /** The origin of the canvas's bounding client rectangle. */
  datatype Rect = Rect(left: int, top: int)

  /** A mouse event, or a touch event with its list of touches. */
  datatype InputEvent = Mouse(clientX: int, clientY: int) | Touch(touches: seq<Point>)

  /** An event `getPos` can read: a mouse event, or a touch with a first touch. */
  predicate HasPosition(e: InputEvent) {
    e.Mouse? || |e.touches| > 0
  }

  /** `getPos`: client coordinates minus the rectangle's origin, read from the
      first touch of a touch event. */
  function GetPos(e: InputEvent, rect: Rect): (p: Point)
    requires HasPosition(e)
    ensures e.Mouse? ==> p.x + rect.left == e.clientX && p.y + rect.top == e.clientY
    ensures e.Touch? ==> p.x + rect.left == e.touches[0].x && p.y + rect.top == e.touches[0].y
  {
    match e
    case Mouse(cx, cy) => Point(cx - rect.left, cy - rect.top)
    case Touch(ts) => Point(ts[0].x - rect.left, ts[0].y - rect.top)
  }

  /** The surface on mount: the white fill, with the saved snapshot drawn over
      it when one was given (an empty string counts as none). */
  function InitialSurface(savedData: Option<string>): (s: Surface)
    ensures s.segments == []
    ensures s.backdrop.Some? <==> savedData.Some? && savedData.value != ""
    ensures s.backdrop.Some? ==> s.backdrop == savedData
  {
    Surface(if savedData.Some? && savedData.value != "" then savedData else None, [])
  }

  /** What a handler passes to `onDataChange`, if anything. */
  datatype Emitted = Nothing | Snapshot(surface: Surface) | Cleared

  class Canvas {
    var drawing: bool
    var tool: Tool
    var lastPos: Option<Point>
    var surface: Surface
    /** Whether the owner supplied an `onDataChange` callback. */
    const notify: bool

    /** While drawing there is always a last position to draw from. */
    ghost predicate Valid()
      reads this
    {
      drawing ==> lastPos.Some?
    }

    constructor (savedData: Option<string>, notify: bool)
      ensures Valid()
      ensures !drawing && tool == Pen && lastPos == None
      ensures surface == InitialSurface(savedData)
      ensures this.notify == notify
    {
      drawing := false;
      tool := Pen;
      lastPos := None;
      surface := InitialSurface(savedData);
      this.notify := notify;
    }

    /** The pen and eraser buttons. */
    method SelectTool(t: Tool)
      requires Valid()
      modifies this`tool
      ensures Valid() && tool == t
    {
      tool := t;
    }

    /** `startDraw`: enter the drawing state at the event's position. */
    method StartDraw(e: InputEvent, rect: Rect)
      requires Valid()
      requires HasPosition(e)
      modifies this`drawing, this`lastPos
      ensures Valid()
      ensures drawing && lastPos == Some(GetPos(e, rect))
    {
      drawing := true;
      lastPos := Some(GetPos(e, rect));
    }

    /** `draw`: ignored while idle; while drawing, one segment from the last
        position to the event's position in the tool's style, which then
        becomes the last position. */
    method Draw(e: InputEvent, rect: Rect)
      requires Valid()
      requires drawing ==> HasPosition(e)
      modifies this`surface, this`lastPos
      ensures Valid()
      ensures !old(drawing) ==> surface == old(surface) && lastPos == old(lastPos)
      ensures old(drawing) ==>
        && surface.backdrop == old(surface.backdrop)
        && surface.segments == old(surface.segments)
             + [Segment(old(lastPos).value, GetPos(e, rect), StrokeColor(tool), StrokeWidth(tool))]
        && lastPos == Some(GetPos(e, rect))
    {
      if !drawing {
        return;
      }
      var pos := GetPos(e, rect);
      var seg := Segment(lastPos.value, pos, StrokeColor(tool), StrokeWidth(tool));
      surface := surface.(segments := surface.segments + [seg]);
      lastPos := Some(pos);
    }

    /** `endDraw`: ignored while idle; otherwise back to idle, emitting a
        snapshot of the current surface. */
    method EndDraw() returns (emitted: Emitted)
      requires Valid()
      modifies this`drawing
      ensures Valid() && !drawing
      ensures !old(drawing) ==> emitted == Nothing
      ensures old(drawing) ==> emitted == (if notify then Snapshot(surface) else Nothing)
    {
      if !drawing {
        return Nothing;
      }
      drawing := false;
      emitted := if notify then Snapshot(surface) else Nothing;
    }

    /** `clearCanvas`: back to the white fill, emitting an absent snapshot;
        the drawing state and the last position are left as they are. */
    method Clear() returns (emitted: Emitted)
      requires Valid()
      modifies this`surface
      ensures Valid()
      ensures surface == Blank
      ensures emitted == (if notify then Cleared else Nothing)
    {
      surface := Blank;
      emitted := if notify then Cleared else Nothing;
    }
  }

  /** Clearing and then ending a stroke that was never begun emits the absent
      snapshot once and leaves the pad idle (`drawing` is its final state). */
  method ClearThenEndScenario(savedData: Option<string>) returns (first: Emitted, second: Emitted, drawing: bool)
    ensures first == Cleared
    ensures second == Nothing
    ensures !drawing
  {
    var pad := new Canvas(savedData, true);
    first := pad.Clear();
    second := pad.EndDraw();
    drawing := pad.drawing;
  }

  /** Begin, extend and end a stroke on a cleared pad: the snapshot emitted
      holds exactly that one segment, so it differs from the blank surface. */
  method StrokeScenario(a: Point, b: Point, rect: Rect) returns (emitted: Emitted)
    ensures emitted.Snapshot?
    ensures emitted.surface.segments == [Segment(Point(a.x - rect.left, a.y - rect.top),
                                                 Point(b.x - rect.left, b.y - rect.top), Ink, 2)]
    ensures emitted.surface != Blank
  {
    var pad := new Canvas(None, true);
    var _ := pad.Clear();
    pad.StartDraw(Mouse(a.x, a.y), rect);
    pad.Draw(Mouse(b.x, b.y), rect);
    emitted := pad.EndDraw();
  }
}
