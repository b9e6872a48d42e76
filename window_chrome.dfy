/** The frame drawn around one floating window: the resize handle's size
    arithmetic, the height shown while minimized, and the window-manager
    events each control raises. */
module WindowChrome {
  import opened Types
  import opened WindowManager

  const MinWidth := 200
  const MinHeight := 150
  /** Height shown for a minimized window: its title bar alone. */
  const MinimizedHeight := 50

  /** What the resize handle captures when it is pressed: the pointer position
      and the window's stored size at that moment. */
  datatype ResizeStart = ResizeStart(startX: int, startY: int, startWidth: int, startHeight: int)

  /** `Math.max(lo, v)` */
  function AtLeast(lo: int, v: int): int
  {
    if v < lo then lo else v
  }

  /** The size requested on a pointer move: the start size plus the pointer's
      displacement since the press, raised to the 200 x 150 minimum. */
  function ResizeTarget(g: ResizeStart, clientX: int, clientY: int): (s: Size)
    ensures s.width >= MinWidth && s.height >= MinHeight
    ensures g.startWidth + (clientX - g.startX) >= MinWidth ==> s.width == g.startWidth + (clientX - g.startX)
    ensures g.startWidth + (clientX - g.startX) < MinWidth ==> s.width == MinWidth
    ensures g.startHeight + (clientY - g.startY) >= MinHeight ==> s.height == g.startHeight + (clientY - g.startY)
    ensures g.startHeight + (clientY - g.startY) < MinHeight ==> s.height == MinHeight
  {
    var deltaX := clientX - g.startX;
    var deltaY := clientY - g.startY;
    Size(AtLeast(MinWidth, g.startWidth + deltaX), AtLeast(MinHeight, g.startHeight + deltaY))
  }

  /** The size the window is drawn at: the stored width always; the stored
      height unless minimized, when only the title bar's height shows. */
  function DisplayedSize(w: WindowState): (s: Size)
    ensures s.width == w.size.width
    ensures w.isMinimized ==> s.height == MinimizedHeight
    ensures !w.isMinimized ==> s.height == w.size.height
  {
    Size(w.size.width, if w.isMinimized then MinimizedHeight else w.size.height)
  }

  /** What a press on the resize handle captures: the pointer and the stored
      size. The stored size is used even while the window is minimized and
      shows only its 50-high title bar, so a press with no movement asks for
      the stored size (raised to the minimum), never the displayed height. */
  function BeginResize(w: WindowState, pointerX: int, pointerY: int): (g: ResizeStart)
    ensures ResizeTarget(g, pointerX, pointerY) == Size(AtLeast(MinWidth, w.size.width), AtLeast(MinHeight, w.size.height))
    ensures w.isMinimized && w.size.height >= MinHeight ==>
      ResizeTarget(g, pointerX, pointerY).height == w.size.height
  {
    ResizeStart(pointerX, pointerY, w.size.width, w.size.height)
  }

  /** Minimizing a window collapses what is shown to the title bar but keeps
      the stored size, and restoring it shows exactly the size it had. */
  lemma {:induction false} MinimizeKeepsStoredSize(ws: seq<WindowState>, id: string, i: int)
    requires 0 <= i < |ws| && ws[i].id == id && !ws[i].isMinimized
    ensures Minimize(ws, id)[i].size == ws[i].size
    ensures DisplayedSize(Minimize(ws, id)[i]) == Size(ws[i].size.width, MinimizedHeight)
    ensures DisplayedSize(Minimize(Minimize(ws, id), id)[i]) == ws[i].size
  {
    MinimizeTwiceRestores(ws, id);
  }

  /** The user actions the frame reacts to. */
  datatype ChromeEvent =
    | PanelPointerDown       // a press anywhere on the window other than the resize handle
    | ResizeHandlePointerDown // a press on the resize handle, which stops propagation
    | TitleDoubleClick
    | MinimizeClick
    | CloseClick
    | ResizePointerMove(start: ResizeStart, clientX: int, clientY: int)

  /** The window-manager calls one event makes, in order. The frame is keyed by
      its window's id, so every call names that window. */
  function Callbacks(w: WindowState, ev: ChromeEvent): (ops: seq<WindowOp>)
    ensures forall k :: 0 <= k < |ops| ==> ops[k].Target() == w.id
    ensures ev.PanelPointerDown? ==> ops == [FocusOp(w.id)]
    ensures ev.ResizeHandlePointerDown? ==> ops == []
    ensures ev.TitleDoubleClick? || ev.MinimizeClick? ==> ops == [MinimizeOp(w.id)]
    ensures ev.CloseClick? ==> ops == [CloseOp(w.id)]
    ensures ev.ResizePointerMove? ==>
      var s := ResizeTarget(ev.start, ev.clientX, ev.clientY);
      ops == [ResizeOp(w.id, s.width, s.height)] && s.width >= MinWidth && s.height >= MinHeight
  {
    match ev
    case PanelPointerDown => [FocusOp(w.id)]
    case ResizeHandlePointerDown => []
    case TitleDoubleClick => [MinimizeOp(w.id)]
    case MinimizeClick => [MinimizeOp(w.id)]
    case CloseClick => [CloseOp(w.id)]
    case ResizePointerMove(g, x, y) =>
      var s := ResizeTarget(g, x, y);
      [ResizeOp(w.id, s.width, s.height)]
  }

  /** The list after applying window-manager calls in order. */
  function ApplyAll(ws: seq<WindowState>, ops: seq<WindowOp>): (r: seq<WindowState>)
    requires |ws| > 0
    ensures |r| == |ws|
    decreases |ops|
  {
    if ops == [] then ws else ApplyAll(Apply(ws, ops[0]), ops[1..])
  }

  /** Applying two runs of calls one after the other. */
  lemma {:induction false} ApplyAllAppend(ws: seq<WindowState>, a: seq<WindowOp>, b: seq<WindowOp>)
    requires |ws| > 0
    ensures ApplyAll(ws, a + b) == ApplyAll(ApplyAll(ws, a), b)
    decreases |a|
  {
    if a == [] {
      assert a + b == b;
    } else {
      assert (a + b)[1..] == a[1..] + b;
      ApplyAllAppend(Apply(ws, a[0]), a[1..], b);
    }
  }

  /** Every run of calls keeps ids and stacking orders pairwise distinct. */
  lemma {:induction false} ApplyAllPreservesWellFormed(ws: seq<WindowState>, ops: seq<WindowOp>)
    requires WellFormed(ws)
    ensures WellFormed(ApplyAll(ws, ops))
    decreases |ops|
  {
    if ops != [] {
      ApplyPreservesWellFormed(ws, ops[0]);
      ApplyAllPreservesWellFormed(Apply(ws, ops[0]), ops[1..]);
    }
  }

  /** Whether a call brings its window to the front of this list: a focus,
      or a toolbar toggle of a window that is closed or minimized. */
  predicate Raises(ws: seq<WindowState>, op: WindowOp)
  {
    || op.FocusOp?
    || (op.ToggleOp? && exists i :: 0 <= i < |ws| && ws[i].id == op.id && !(ws[i].isOpen && !ws[i].isMinimized))
  }

  /** The window `id` is drawn in front of every other window. */
  ghost predicate OnTop(ws: seq<WindowState>, id: string)
  {
    forall i, j :: 0 <= i < |ws| && 0 <= j < |ws| && ws[i].id == id && ws[j].id != id ==>
      ws[i].zIndex > ws[j].zIndex
  }

  /** A call that does not raise its window leaves every stacking order as
      it was: closing, minimizing, resizing, and the toggle that minimizes an
      open window. */
  lemma NonRaisingKeepsStacking(ws: seq<WindowState>, op: WindowOp)
    requires |ws| > 0 && !Raises(ws, op)
    ensures forall i :: 0 <= i < |ws| ==> Apply(ws, op)[i].zIndex == ws[i].zIndex
  {
    var r := Apply(ws, op);
    forall i | 0 <= i < |ws|
      ensures r[i].zIndex == ws[i].zIndex
    {
      if ws[i].id == op.Target() && op.ToggleOp? {
        assert ws[i].isOpen && !ws[i].isMinimized;
      }
    }
  }

  /** Focusing a window brings it in front of every other one. */
  lemma FocusBringsToTop(ws: seq<WindowState>, id: string)
    requires |ws| > 0
    ensures Apply(ws, FocusOp(id)) == Focus(ws, id)
    ensures OnTop(Focus(ws, id), id)
  {
  }

  /** Toggling a closed or minimized window brings it in front of every
      other one, when no other window shares its id. */
  lemma ToggleRaiseBringsToTop(ws: seq<WindowState>, id: string, k: int)
    requires WellFormed(ws)
    requires 0 <= k < |ws| && ws[k].id == id && !(ws[k].isOpen && !ws[k].isMinimized)
    ensures Apply(ws, ToggleOp(id)) == Toggle(ws, id)
    ensures OnTop(Toggle(ws, id), id)
  {
    var r := Toggle(ws, id);
    forall i, j | 0 <= i < |r| && 0 <= j < |r| && r[i].id == id && r[j].id != id
      ensures r[i].zIndex > r[j].zIndex
    {
      assert i == k;
    }
  }

  /** A raising call brings its window in front of every other one. */
  lemma RaiseBringsToTop(ws: seq<WindowState>, op: WindowOp)
    requires WellFormed(ws) && Raises(ws, op)
    ensures OnTop(Apply(ws, op), op.Target())
  {
    if op.FocusOp? {
      FocusBringsToTop(ws, op.id);
    } else {
      var k :| 0 <= k < |ws| && ws[k].id == op.id && !(ws[k].isOpen && !ws[k].isMinimized);
      ToggleRaiseBringsToTop(ws, op.id, k);
    }
  }

  /** Once a window is in front, calls that raise nothing keep it in front. */
  lemma {:induction false} OthersKeepTop(ws: seq<WindowState>, id: string, ops: seq<WindowOp>)
    requires |ws| > 0 && OnTop(ws, id)
    requires forall k :: 0 <= k < |ops| ==> !Raises(ApplyAll(ws, ops[..k]), ops[k])
    ensures OnTop(ApplyAll(ws, ops), id)
    decreases |ops|
  {
    if ops != [] {
      var next := Apply(ws, ops[0]);
      assert ops[..0] == [];
      NonRaisingKeepsStacking(ws, ops[0]);
      forall k | 0 <= k < |ops[1..]|
        ensures !Raises(ApplyAll(next, ops[1..][..k]), ops[1..][k])
      {
        assert ops[..k + 1] == [ops[0]] + ops[1..][..k];
        ApplyAllAppend(ws, [ops[0]], ops[1..][..k]);
        ApplyOne(ws, ops[0]);
      }
      OthersKeepTop(next, id, ops[1..]);
    }
  }

  /** Over any run of calls from a well-formed list, the window of the last
      call that brought one forward (a focus, or the toggle that opens or
      restores) is in front of every other window at the end. */
  lemma LastRaisedIsOnTop(ws: seq<WindowState>, before: seq<WindowOp>, op: WindowOp, after: seq<WindowOp>)
    requires WellFormed(ws)
    requires Raises(ApplyAll(ws, before), op)
    requires forall k :: 0 <= k < |after| ==> !Raises(ApplyAll(ws, before + [op] + after[..k]), after[k])
    ensures OnTop(ApplyAll(ws, before + [op] + after), op.Target())
  {
    var mid := ApplyAll(ws, before);
    ApplyAllPreservesWellFormed(ws, before);
    RaiseBringsToTop(mid, op);
    ApplyAllAppend(ws, before, [op]);
    ApplyOne(mid, op);
    var top := ApplyAll(ws, before + [op]);
    forall k | 0 <= k < |after|
      ensures !Raises(ApplyAll(top, after[..k]), after[k])
    {
      ApplyAllAppend(ws, before + [op], after[..k]);
    }
    OthersKeepTop(top, op.Target(), after);
    ApplyAllAppend(ws, before + [op], after);
  }

  /** Calls that all name one window change no other window. */
  lemma {:induction false} ApplyAllTouchesOnlyTarget(ws: seq<WindowState>, ops: seq<WindowOp>, id: string)
    requires |ws| > 0
    requires forall k :: 0 <= k < |ops| ==> ops[k].Target() == id
    ensures OnlyTargetChanged(ws, ApplyAll(ws, ops), id)
    decreases |ops|
  {
    if ops != [] {
      var next := Apply(ws, ops[0]);
      assert forall k :: 0 <= k < |ops[1..]| ==> ops[1..][k] == ops[k + 1];
      ApplyAllTouchesOnlyTarget(next, ops[1..], id);
    }
  }

  /** Any event on a window's frame leaves every other window as it was. */
  lemma ChromeEventTouchesOnlyItsWindow(ws: seq<WindowState>, w: WindowState, ev: ChromeEvent)
    requires |ws| > 0
    ensures OnlyTargetChanged(ws, ApplyAll(ws, Callbacks(w, ev)), w.id)
  {
    ApplyAllTouchesOnlyTarget(ws, Callbacks(w, ev), w.id);
  }

  /** The window-manager calls of a drag on window `w`'s resize handle: one
      pointer-move event per position, each measured from the press `g`. */
  function ApplyMoves(ws: seq<WindowState>, w: WindowState, g: ResizeStart, moves: seq<Position>): (r: seq<WindowState>)
    requires |ws| > 0
    ensures |r| == |ws|
    decreases |moves|
  {
    if moves == [] then ws
    else ApplyMoves(ApplyAll(ws, Callbacks(w, ResizePointerMove(g, moves[0].x, moves[0].y))), w, g, moves[1..])
  }

  /** A pointer move makes exactly one call: a resize of the window to the
      size the resize rule gives. */
  lemma MoveCall(w: WindowState, g: ResizeStart, x: int, y: int)
    ensures var s := ResizeTarget(g, x, y);
      Callbacks(w, ResizePointerMove(g, x, y)) == [ResizeOp(w.id, s.width, s.height)]
  {
  }

  /** A single call applied on its own. */
  lemma ApplyOne(ws: seq<WindowState>, op: WindowOp)
    requires |ws| > 0
    ensures ApplyAll(ws, [op]) == Apply(ws, op)
  {
    assert [op][1..] == [];
  }

  /** The resize call is the list's resize. */
  lemma ApplyResize(ws: seq<WindowState>, id: string, width: int, height: int)
    requires |ws| > 0
    ensures Apply(ws, ResizeOp(id, width, height)) == Resize(ws, id, width, height)
  {
  }

  /** One pointer move stores exactly the size the resize rule asks for. */
  lemma MoveIsResize(ws: seq<WindowState>, w: WindowState, g: ResizeStart, x: int, y: int)
    requires |ws| > 0
    ensures var s := ResizeTarget(g, x, y);
      ApplyAll(ws, Callbacks(w, ResizePointerMove(g, x, y))) == Resize(ws, w.id, s.width, s.height)
  {
    var s := ResizeTarget(g, x, y);
    var op := ResizeOp(w.id, s.width, s.height);
    MoveCall(w, g, x, y);
    ApplyOne(ws, op);
    ApplyResize(ws, w.id, s.width, s.height);
  }

  /** Each move is measured from the press, not from the previous move, so
      after any drag the window has exactly the size the last pointer position
      asks for, never below the minimum: no error accumulates. */
  lemma {:induction false} ResizeDragHasNoDrift(ws: seq<WindowState>, w: WindowState, g: ResizeStart, moves: seq<Position>)
    requires |ws| > 0 && |moves| > 0
    ensures var last := ResizeTarget(g, moves[|moves| - 1].x, moves[|moves| - 1].y);
      ApplyMoves(ws, w, g, moves) == Resize(ws, w.id, last.width, last.height)
    ensures forall i :: 0 <= i < |ws| && ws[i].id == w.id ==>
      ApplyMoves(ws, w, g, moves)[i].size.width >= MinWidth &&
      ApplyMoves(ws, w, g, moves)[i].size.height >= MinHeight
    decreases |moves|
  {
    var s := ResizeTarget(g, moves[0].x, moves[0].y);
    var last := ResizeTarget(g, moves[|moves| - 1].x, moves[|moves| - 1].y);
    MoveIsResize(ws, w, g, moves[0].x, moves[0].y);
    if |moves| > 1 {
      var next := Resize(ws, w.id, s.width, s.height);
      ResizeDragHasNoDrift(next, w, g, moves[1..]);
      assert moves[1..][|moves[1..]| - 1] == moves[|moves| - 1];
      ResizeOverwrites(ws, w.id, s.width, s.height, last.width, last.height);
    }
  }

  /** A drag from a press at (px, py) on window i's handle to a last pointer
      position (x, y) leaves the window at its stored size plus the pointer's
      displacement, raised to the minimum, whatever moves came between and
      whether or not the window was minimized at the press. */
  lemma DragFromPress(ws: seq<WindowState>, i: int, px: int, py: int, moves: seq<Position>)
    requires 0 <= i < |ws| && |moves| > 0
    ensures var last := moves[|moves| - 1];
      var r := ApplyMoves(ws, ws[i], BeginResize(ws[i], px, py), moves);
      r[i].size == Size(AtLeast(MinWidth, ws[i].size.width + (last.x - px)),
                        AtLeast(MinHeight, ws[i].size.height + (last.y - py)))
  {
    var last := moves[|moves| - 1];
    var g := BeginResize(ws[i], px, py);
    var s := ResizeTarget(g, last.x, last.y);
    ResizeDragHasNoDrift(ws, ws[i], g, moves);
    PressTarget(ws[i], px, py, last.x, last.y);
    ResizeSetsSize(ws, i, s.width, s.height);
  }

  /** The size a pointer position asks for, measured from a press. */
  lemma PressTarget(w: WindowState, px: int, py: int, x: int, y: int)
    ensures ResizeTarget(BeginResize(w, px, py), x, y) ==
      Size(AtLeast(MinWidth, w.size.width + (x - px)), AtLeast(MinHeight, w.size.height + (y - py)))
  {
  }

  /** Resizing by a window's own id stores the new size at its index. */
  lemma ResizeSetsSize(ws: seq<WindowState>, i: int, width: int, height: int)
    requires 0 <= i < |ws|
    ensures Resize(ws, ws[i].id, width, height)[i].size == Size(width, height)
  {
  }
}
