/** The whiteboard: freehand strokes captured from pointer events. A stroke
    begins on press, grows by one point per move while the pointer is down, and
    is committed on release; committed strokes can be undone one at a time or
    cleared, and are replayed in commit order on every redraw. */
module StrokeCanvas {
  import opened Wrappers

  /** A position in canvas-local coordinates. */
  datatype Point = Point(x: int, y: int)

  datatype Tool = Pen | Eraser

  datatype Stroke = Stroke(points: seq<Point>, color: string, width: int, isEraser: bool)

  const PenWidth := 3
  const EraserWidth := 20
  const EraserColor := "#000000"
  const DefaultColor := "#ffffff"

  /** The whiteboard's state: whether the pointer is down, the committed
      strokes, the stroke in progress, and the toolbar's color and tool. */
  datatype Board = Board(isDrawing: bool, strokes: seq<Stroke>, currentStroke: Option<Stroke>, color: string, tool: Tool)

  const InitialBoard := Board(false, [], None, DefaultColor, Pen)

  /** A stroke is in progress exactly while the pointer is down. */
  ghost predicate Consistent(b: Board)
  {
    b.isDrawing <==> b.currentStroke.Some?
  }

  /** The stroke a press starts with the active tool, at the press position. */
  function NewStroke(tool: Tool, color: string, pos: Point): (s: Stroke)
    ensures s.points == [pos]
    ensures tool == Eraser ==> s.width == EraserWidth && s.isEraser
    ensures tool == Pen ==> s.width == PenWidth && s.color == color && !s.isEraser
  {
    Stroke([pos], if tool == Eraser then EraserColor else color,
      if tool == Eraser then EraserWidth else PenWidth, tool == Eraser)
  }

  /** `startDrawing`: the pointer is down and a one-point stroke in the active
      tool's style is in progress; a stroke already in progress is dropped. */
  function StartStroke(b: Board, pos: Point): (r: Board)
    ensures r.isDrawing && r.currentStroke == Some(NewStroke(b.tool, b.color, pos))
    ensures r.strokes == b.strokes && r.color == b.color && r.tool == b.tool
  {
    b.(isDrawing := true, currentStroke := Some(NewStroke(b.tool, b.color, pos)))
  }

  /** `draw`: while drawing, the stroke in progress gets one more point at its
      end and keeps its style; otherwise nothing happens. */
  function ExtendStroke(b: Board, pos: Point): (r: Board)
    ensures !(b.isDrawing && b.currentStroke.Some?) ==> r == b
    ensures b.isDrawing && b.currentStroke.Some? ==>
      && r.currentStroke.Some?
      && r.currentStroke.value.points == b.currentStroke.value.points + [pos]
      && r.currentStroke.value.(points := []) == b.currentStroke.value.(points := [])
      && r.(currentStroke := b.currentStroke) == b
  {
    if !b.isDrawing || b.currentStroke.None? then b
    else
      var c := b.currentStroke.value;
      b.(currentStroke := Some(c.(points := c.points + [pos])))
  }

  /** `stopDrawing` (release, or the pointer leaving the canvas): a stroke in
      progress is appended to the committed strokes; the pointer is up after. */
  function EndStroke(b: Board): (r: Board)
    ensures !r.isDrawing && r.color == b.color && r.tool == b.tool
    ensures b.isDrawing && b.currentStroke.Some? ==>
      r.strokes == b.strokes + [b.currentStroke.value] && r.currentStroke == None
    ensures !(b.isDrawing && b.currentStroke.Some?) ==>
      r.strokes == b.strokes && r.currentStroke == b.currentStroke
  {
    var committed := if b.isDrawing && b.currentStroke.Some?
      then b.(strokes := b.strokes + [b.currentStroke.value], currentStroke := None)
      else b;
    committed.(isDrawing := false)
  }

  /** The undo button, `strokes.slice(0, -1)`: drops the last committed stroke,
      and does nothing when there is none. */
  function UndoLast(b: Board): (r: Board)
    ensures |b.strokes| > 0 ==> r.strokes == b.strokes[..|b.strokes| - 1]
    ensures b.strokes == [] ==> r == b
    ensures r.(strokes := b.strokes) == b
  {
    if b.strokes == [] then b else b.(strokes := b.strokes[..|b.strokes| - 1])
  }

  /** The clear button: no committed stroke is left; the stroke in progress
      and the tool settings are untouched. */
  function ClearAll(b: Board): (r: Board)
    ensures r.strokes == [] && r.(strokes := b.strokes) == b
  {
    b.(strokes := [])
  }

  /** What a redraw paints, in order: `[...strokes, currentStroke]` with the
      missing stroke skipped. */
  function RenderOrder(b: Board): (r: seq<Stroke>)
    ensures b.currentStroke.None? ==> r == b.strokes
    ensures b.currentStroke.Some? ==> |r| == |b.strokes| + 1 && r[..|b.strokes|] == b.strokes && r[|b.strokes|] == b.currentStroke.value
  {
    b.strokes + (if b.currentStroke.Some? then [b.currentStroke.value] else [])
  }

  /** Every event keeps the board consistent. */
  lemma EventsKeepConsistent(b: Board, pos: Point)
    requires Consistent(b)
    ensures Consistent(StartStroke(b, pos)) && Consistent(ExtendStroke(b, pos))
    ensures Consistent(EndStroke(b)) && Consistent(UndoLast(b)) && Consistent(ClearAll(b))
  {
  }

  /** The moves of one drag, applied in order. */
  function ExtendAll(b: Board, moves: seq<Point>): Board
    decreases |moves|
  {
    if moves == [] then b else ExtendAll(ExtendStroke(b, moves[0]), moves[1..])
  }

  /** While drawing, k moves append exactly those k points, in order, to the
      stroke in progress and change nothing else. */
  lemma {:induction false} ExtendAllAppends(b: Board, moves: seq<Point>)
    requires b.isDrawing && b.currentStroke.Some?
    ensures ExtendAll(b, moves) ==
      b.(currentStroke := Some(b.currentStroke.value.(points := b.currentStroke.value.points + moves)))
    decreases |moves|
  {
    var c := b.currentStroke.value;
    if moves == [] {
      assert c.points + moves == c.points;
    } else {
      var next := ExtendStroke(b, moves[0]);
      ExtendAllAppends(next, moves[1..]);
      assert c.points + [moves[0]] + moves[1..] == c.points + moves;
    }
  }

  /** A press, k moves and a release commit exactly one more stroke, with the
      k + 1 points of the gesture in order and the active tool's style; the
      strokes committed before are unchanged. */
  lemma {:induction false} GestureCommitsOneStroke(b: Board, press: Point, moves: seq<Point>)
    ensures var r := EndStroke(ExtendAll(StartStroke(b, press), moves));
      && r.strokes == b.strokes + [NewStroke(b.tool, b.color, press).(points := [press] + moves)]
      && |r.strokes[|b.strokes|].points| == |moves| + 1
      && !r.isDrawing && r.currentStroke == None
  {
    ExtendAllAppends(StartStroke(b, press), moves);
  }

  /** One complete drag on the canvas: a press and the moves that follow it,
      ended by a release. */
  datatype Gesture = Gesture(press: Point, moves: seq<Point>)

  function PerformGesture(b: Board, g: Gesture): Board
  {
    EndStroke(ExtendAll(StartStroke(b, g.press), g.moves))
  }

  function PerformAll(b: Board, gs: seq<Gesture>): Board
    decreases |gs|
  {
    if gs == [] then b else PerformAll(PerformGesture(b, gs[0]), gs[1..])
  }

  /** After N complete drags the committed list has grown by exactly N strokes,
      the n-th of them holding the n-th drag's points (k + 1 for k moves). */
  lemma {:induction false} GesturesCommitInOrder(b: Board, gs: seq<Gesture>)
    ensures var r := PerformAll(b, gs);
      && |r.strokes| == |b.strokes| + |gs|
      && r.strokes[..|b.strokes|] == b.strokes
      && (forall n :: 0 <= n < |gs| ==> r.strokes[|b.strokes| + n].points == [gs[n].press] + gs[n].moves)
    decreases |gs|
  {
    if gs != [] {
      var next := PerformGesture(b, gs[0]);
      GestureCommitsOneStroke(b, gs[0].press, gs[0].moves);
      GesturesCommitInOrder(next, gs[1..]);
      var r := PerformAll(b, gs);
      assert r == PerformAll(next, gs[1..]);
      assert r.strokes[..|next.strokes|] == next.strokes;
      assert r.strokes[..|b.strokes|] == next.strokes[..|b.strokes|];
      forall n | 0 <= n < |gs|
        ensures r.strokes[|b.strokes| + n].points == [gs[n].press] + gs[n].moves
      {
        if n > 0 {
          assert gs[1..][n - 1] == gs[n];
          assert r.strokes[|next.strokes| + (n - 1)] == r.strokes[|b.strokes| + n];
        } else {
          assert r.strokes[|b.strokes|] == next.strokes[|b.strokes|];
        }
      }
    }
  }

  /** Undo right after a release takes back exactly the stroke just committed. */
  lemma UndoRevertsCommit(b: Board)
    requires b.isDrawing && b.currentStroke.Some?
    ensures UndoLast(EndStroke(b)).strokes == b.strokes
  {
    var r := EndStroke(b);
    assert r.strokes[..|r.strokes| - 1] == b.strokes;
  }

  /** Undo after clear does nothing. */
  lemma UndoAfterClearIsNoOp(b: Board)
    ensures UndoLast(ClearAll(b)) == ClearAll(b)
  {
  }

  /** The whiteboard component: its state fields, changed by the canvas and
      toolbar handlers. */
  class Whiteboard {
    var isDrawing: bool
    var strokes: seq<Stroke>
    var currentStroke: Option<Stroke>
    var color: string
    var tool: Tool

    function State(): Board
      reads this
    {
      Board(isDrawing, strokes, currentStroke, color, tool)
    }

    constructor ()
      ensures State() == InitialBoard
    {
      isDrawing, strokes, currentStroke, color, tool := false, [], None, DefaultColor, Pen;
    }

    method StartDrawing(pos: Point)
      modifies this
      ensures State() == StartStroke(old(State()), pos)
    {
      isDrawing := true;
      currentStroke := Some(NewStroke(tool, color, pos));
    }

    method Draw(pos: Point)
      modifies this
      ensures State() == ExtendStroke(old(State()), pos)
    {
      if !isDrawing || currentStroke.None? {
        return;
      }
      var c := currentStroke.value;
      currentStroke := Some(c.(points := c.points + [pos]));
    }

    method StopDrawing()
      modifies this
      ensures State() == EndStroke(old(State()))
    {
      if isDrawing && currentStroke.Some? {
        strokes := strokes + [currentStroke.value];
        currentStroke := None;
      }
      isDrawing := false;
    }

    method Undo()
      modifies this
      ensures State() == UndoLast(old(State()))
    {
      if strokes != [] {
        strokes := strokes[..|strokes| - 1];
      }
    }

    method Clear()
      modifies this
      ensures State() == ClearAll(old(State()))
    {
      strokes := [];
    }

    method SelectTool(t: Tool)
      modifies this
      ensures State() == old(State()).(tool := t)
    {
      tool := t;
    }

    method PickColor(c: string)
      modifies this
      ensures State() == old(State()).(color := c)
    {
      color := c;
    }

    /** The redraw loop: walks `[...strokes, currentStroke]`, skipping the
        missing stroke, and returns the strokes in the order they are painted. */
    method Redraw() returns (painted: seq<Stroke>)
      ensures painted == RenderOrder(State())
    {
      var committed := strokes;
      var queue: seq<Option<Stroke>> :=
        seq(|committed|, k requires 0 <= k < |committed| => Some(committed[k])) + [currentStroke];
      painted := [];
      for i := 0 to |queue|
        invariant i <= |strokes| ==> painted == strokes[..i]
        invariant i == |strokes| + 1 ==> painted == RenderOrder(State())
      {
        assert i < |strokes| ==> strokes[..i + 1] == strokes[..i] + [strokes[i]];
        if queue[i].Some? {
          painted := painted + [queue[i].value];
        }
      }
    }
  }
}
