/** The session screen's window manager: a fixed list of three floating
    windows, each event replacing the list by a copy in which only the records
    with the event's id differ. */
module WindowManager {
  import opened Types

  /** The three windows the session screen starts with, all closed. */
  const InitialWindows: seq<WindowState> := [
    WindowState("notes", "Notes", false, false, Position(50, 100), Size(400, 500), 10, NotesKind),
    WindowState("whiteboard", "Whiteboard", false, false, Position(500, 100), Size(600, 500), 11, WhiteboardKind),
    WindowState("visuals", "Visual Aids", false, false, Position(300, 300), Size(500, 400), 12, VisualsKind)
  ]

  /** The largest stacking order in the list. The source takes `Math.max` with
      no guard, so the list must not be empty. */
  function MaxZIndex(ws: seq<WindowState>): (m: int)
    requires |ws| > 0
    ensures forall i :: 0 <= i < |ws| ==> ws[i].zIndex <= m
    ensures exists i :: 0 <= i < |ws| && ws[i].zIndex == m
  {
    if |ws| == 1 then ws[0].zIndex
    else
      var rest := MaxZIndex(ws[1..]);
      assert forall i :: 1 <= i < |ws| ==> ws[i] == ws[1..][i - 1];
      if ws[0].zIndex >= rest then ws[0].zIndex else rest
  }

  /** The stacking order handed to a window brought to the front: one above
      every window of the list, closed ones included. */
  function NextZIndex(ws: seq<WindowState>): (z: int)
    requires |ws| > 0
    ensures forall i :: 0 <= i < |ws| ==> ws[i].zIndex < z
    ensures exists i :: 0 <= i < |ws| && ws[i].zIndex == z - 1
  {
    MaxZIndex(ws) + 1
  }

  /** `ws.map(w => w.id === id ? f(w) : w)`. */
  function UpdateMatching(ws: seq<WindowState>, id: string, f: WindowState -> WindowState): (r: seq<WindowState>)
    ensures |r| == |ws|
    ensures forall i :: 0 <= i < |ws| ==> r[i] == if ws[i].id == id then f(ws[i]) else ws[i]
  {
    if ws == [] then []
    else [if ws[0].id == id then f(ws[0]) else ws[0]] + UpdateMatching(ws[1..], id, f)
  }

  /** `r` has the records of `ws` in the same order, with the same ids, and
      every record whose id is not `id` is unchanged. */
  ghost predicate OnlyTargetChanged(ws: seq<WindowState>, r: seq<WindowState>, id: string)
  {
    && |r| == |ws|
    && (forall i :: 0 <= i < |ws| ==> r[i].id == ws[i].id)
    && (forall i :: 0 <= i < |ws| && ws[i].id != id ==> r[i] == ws[i])
  }

  /** What the toolbar button does to the window it names. */
  function ToggleOne(w: WindowState, z: int): WindowState
  {
    if w.isOpen && w.isMinimized then w.(isMinimized := false, zIndex := z)
    else if w.isOpen then w.(isMinimized := true)
    else w.(isOpen := true, zIndex := z)
  }

  /** `toggleWindow`: a closed window opens at the front; an open, minimized
      window is restored at the front; an open window that is not minimized is
      minimized and keeps its place in the stacking order. */
  function Toggle(ws: seq<WindowState>, id: string): (r: seq<WindowState>)
    requires |ws| > 0
    ensures OnlyTargetChanged(ws, r, id)
    ensures forall i :: 0 <= i < |ws| && ws[i].id == id && !ws[i].isOpen ==>
      r[i] == ws[i].(isOpen := true, zIndex := NextZIndex(ws))
    ensures forall i :: 0 <= i < |ws| && ws[i].id == id && ws[i].isOpen && ws[i].isMinimized ==>
      r[i] == ws[i].(isMinimized := false, zIndex := NextZIndex(ws))
    ensures forall i :: 0 <= i < |ws| && ws[i].id == id && ws[i].isOpen && !ws[i].isMinimized ==>
      r[i] == ws[i].(isMinimized := true)
    ensures forall i, j ::
      (0 <= i < |ws| && 0 <= j < |ws| && ws[i].id == id && ws[j].id != id && !(ws[i].isOpen && !ws[i].isMinimized))
      ==> r[i].zIndex > r[j].zIndex
  {
    var z := NextZIndex(ws);
    UpdateMatching(ws, id, (w: WindowState) => ToggleOne(w, z))
  }

  /** `closeWindow`: only the open flag is cleared; position, size, the
      minimized flag and the stacking order are kept for the next opening. */
  function Close(ws: seq<WindowState>, id: string): (r: seq<WindowState>)
    ensures OnlyTargetChanged(ws, r, id)
    ensures forall i :: 0 <= i < |ws| && ws[i].id == id ==> r[i] == ws[i].(isOpen := false)
  {
    UpdateMatching(ws, id, (w: WindowState) => w.(isOpen := false))
  }

  /** `minimizeWindow`: flips the minimized flag and nothing else. */
  function Minimize(ws: seq<WindowState>, id: string): (r: seq<WindowState>)
    ensures OnlyTargetChanged(ws, r, id)
    ensures forall i :: 0 <= i < |ws| && ws[i].id == id ==>
      r[i] == ws[i].(isMinimized := !ws[i].isMinimized)
  {
    UpdateMatching(ws, id, (w: WindowState) => w.(isMinimized := !w.isMinimized))
  }

  /** `focusWindow`: the window is brought in front of every other window. */
  function Focus(ws: seq<WindowState>, id: string): (r: seq<WindowState>)
    requires |ws| > 0
    ensures OnlyTargetChanged(ws, r, id)
    ensures forall i :: 0 <= i < |ws| && ws[i].id == id ==> r[i] == ws[i].(zIndex := NextZIndex(ws))
    ensures forall i, j :: 0 <= i < |ws| && 0 <= j < |ws| && ws[i].id == id && ws[j].id != id ==>
      r[i].zIndex > r[j].zIndex
  {
    var z := NextZIndex(ws);
    UpdateMatching(ws, id, (w: WindowState) => w.(zIndex := z))
  }

  /** `handleResize`: stores exactly the given size, without clamping (the
      minimum is enforced by the window chrome before it calls this). */
  function Resize(ws: seq<WindowState>, id: string, width: int, height: int): (r: seq<WindowState>)
    ensures OnlyTargetChanged(ws, r, id)
    ensures forall i :: 0 <= i < |ws| && ws[i].id == id ==> r[i] == ws[i].(size := Size(width, height))
  {
    UpdateMatching(ws, id, (w: WindowState) => w.(size := Size(width, height)))
  }

  /** The windows the session screen renders: `windows.filter(w => w.isOpen)`,
      in list order. */
  function OpenWindows(ws: seq<WindowState>): (r: seq<WindowState>)
    ensures |r| <= |ws|
    ensures forall w :: w in r <==> w in ws && w.isOpen
  {
    if ws == [] then []
    else (if ws[0].isOpen then [ws[0]] else []) + OpenWindows(ws[1..])
  }

  /** One window-manager event, as the chrome and the toolbar raise them. */
  datatype WindowOp =
    | ToggleOp(id: string)
    | CloseOp(id: string)
    | MinimizeOp(id: string)
    | FocusOp(id: string)
    | ResizeOp(id: string, width: int, height: int)
  {
    function Target(): string
    {
      match this
      case ToggleOp(id) => id
      case CloseOp(id) => id
      case MinimizeOp(id) => id
      case FocusOp(id) => id
      case ResizeOp(id, _, _) => id
    }
  }

  function Apply(ws: seq<WindowState>, op: WindowOp): (r: seq<WindowState>)
    requires |ws| > 0
    ensures OnlyTargetChanged(ws, r, op.Target())
  {
    match op
    case ToggleOp(id) => Toggle(ws, id)
    case CloseOp(id) => Close(ws, id)
    case MinimizeOp(id) => Minimize(ws, id)
    case FocusOp(id) => Focus(ws, id)
    case ResizeOp(id, w, h) => Resize(ws, id, w, h)
  }

  /** The list invariant the session screen keeps: at least one window, ids
      pairwise distinct, stacking orders pairwise distinct. */
  ghost predicate WellFormed(ws: seq<WindowState>)
  {
    && |ws| > 0
    && (forall i, j :: 0 <= i < j < |ws| ==> ws[i].id != ws[j].id)
    && (forall i, j :: 0 <= i < j < |ws| ==> ws[i].zIndex != ws[j].zIndex)
  }

  /** The initial list is well formed and every window starts closed and not
      minimized. */
  lemma InitialWindowsWellFormed()
    ensures WellFormed(InitialWindows)
    ensures forall i :: 0 <= i < |InitialWindows| ==> !InitialWindows[i].isOpen && !InitialWindows[i].isMinimized
  {
  }

  /** Every event keeps ids and stacking orders pairwise distinct: a window
      brought forward gets a value no other window holds. */
  lemma {:induction false} ApplyPreservesWellFormed(ws: seq<WindowState>, op: WindowOp)
    requires WellFormed(ws)
    ensures WellFormed(Apply(ws, op))
  {
    var r := Apply(ws, op);
    var id := op.Target();
    forall i, j | 0 <= i < j < |r|
      ensures r[i].zIndex != r[j].zIndex
    {
      if ws[i].id == id {
        assert ws[j].id != id;
        assert r[j] == ws[j];
        if r[i].zIndex != ws[i].zIndex {
          assert r[i].zIndex == NextZIndex(ws);
        }
      } else if ws[j].id == id {
        assert r[i] == ws[i];
        if r[j].zIndex != ws[j].zIndex {
          assert r[j].zIndex == NextZIndex(ws);
        }
      }
    }
  }

  /** With an id that names no window, every event leaves the list as it is. */
  lemma {:induction false} UnknownIdIsNoOp(ws: seq<WindowState>, op: WindowOp)
    requires |ws| > 0
    requires forall i :: 0 <= i < |ws| ==> ws[i].id != op.Target()
    ensures Apply(ws, op) == ws
  {
    var r := Apply(ws, op);
    assert forall i :: 0 <= i < |ws| ==> r[i] == ws[i];
  }

  /** Minimizing twice gives back the original list, so the stored size is
      exactly what it was before minimizing. */
  lemma {:induction false} MinimizeTwiceRestores(ws: seq<WindowState>, id: string)
    ensures Minimize(Minimize(ws, id), id) == ws
  {
    var once := Minimize(ws, id);
    var twice := Minimize(once, id);
    forall i | 0 <= i < |ws|
      ensures twice[i] == ws[i]
    {
      assert once[i].id == ws[i].id;
    }
  }

  /** A later resize of the same window overwrites an earlier one completely. */
  lemma {:induction false} ResizeOverwrites(ws: seq<WindowState>, id: string, w1: int, h1: int, w2: int, h2: int)
    ensures Resize(Resize(ws, id, w1, h1), id, w2, h2) == Resize(ws, id, w2, h2)
  {
    var once := Resize(ws, id, w1, h1);
    var a := Resize(once, id, w2, h2);
    var b := Resize(ws, id, w2, h2);
    forall i | 0 <= i < |ws|
      ensures a[i] == b[i]
    {
      assert once[i].id == ws[i].id;
    }
  }

  /** Closing a window and toggling it again reopens it at the front with its
      position, size and minimized flag as they were: a window closed while
      minimized comes back minimized. */
  lemma {:induction false} CloseThenToggleKeepsGeometry(ws: seq<WindowState>, id: string, i: int)
    requires 0 <= i < |ws| && ws[i].id == id
    ensures Toggle(Close(ws, id), id)[i]
         == ws[i].(isOpen := true, zIndex := NextZIndex(Close(ws, id)))
  {
    var closed := Close(ws, id);
    assert closed[i] == ws[i].(isOpen := false);
  }

  /** The toolbar button cycles an open window between minimized and restored;
      a minimize-restore pair never changes its size or position, and the
      restored window comes back in front of every other window. */
  lemma {:induction false} ToggleTwiceOnOpenWindow(ws: seq<WindowState>, id: string, i: int)
    requires 0 <= i < |ws| && ws[i].id == id && ws[i].isOpen && !ws[i].isMinimized
    ensures var r := Toggle(Toggle(ws, id), id);
      && r[i].isOpen && !r[i].isMinimized
      && r[i].size == ws[i].size && r[i].position == ws[i].position
      && (forall j :: 0 <= j < |ws| && j != i && ws[j].id != id ==> r[j] == ws[j])
      && (forall j :: 0 <= j < |ws| && ws[j].id != id ==> r[i].zIndex > r[j].zIndex)
  {
    var once := Toggle(ws, id);
    assert once[i] == ws[i].(isMinimized := true);
  }

  /** The window list of the session screen, replaced on every event. */
  class Desk {
    var windows: seq<WindowState>

    ghost predicate Valid()
      reads this
    {
      WellFormed(windows)
    }

    constructor ()
      ensures Valid()
      ensures windows == InitialWindows
    {
      windows := InitialWindows;
      InitialWindowsWellFormed();
    }

    method ToggleWindow(id: string)
      requires Valid()
      modifies this
      ensures Valid()
      ensures windows == Toggle(old(windows), id)
    {
      ApplyPreservesWellFormed(windows, ToggleOp(id));
      windows := Toggle(windows, id);
    }

    method CloseWindow(id: string)
      requires Valid()
      modifies this
      ensures Valid()
      ensures windows == Close(old(windows), id)
    {
      ApplyPreservesWellFormed(windows, CloseOp(id));
      windows := Close(windows, id);
    }

    method MinimizeWindow(id: string)
      requires Valid()
      modifies this
      ensures Valid()
      ensures windows == Minimize(old(windows), id)
    {
      ApplyPreservesWellFormed(windows, MinimizeOp(id));
      windows := Minimize(windows, id);
    }

    method FocusWindow(id: string)
      requires Valid()
      modifies this
      ensures Valid()
      ensures windows == Focus(old(windows), id)
    {
      ApplyPreservesWellFormed(windows, FocusOp(id));
      windows := Focus(windows, id);
    }

    method HandleResize(id: string, width: int, height: int)
      requires Valid()
      modifies this
      ensures Valid()
      ensures windows == Resize(old(windows), id, width, height)
    {
      ApplyPreservesWellFormed(windows, ResizeOp(id, width, height));
      windows := Resize(windows, id, width, height);
    }
  }
}
