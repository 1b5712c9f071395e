/** Resizing an annotation by one of its four corner handles
    (src/components/annotations/ResizeHandles.tsx). A press records the
    annotation's rectangle and opens a history batch; every pointer move
    recomputes the rectangle from that snapshot and the total pointer delta
    and dispatches it; the release closes the batch. Pointer capture and the
    DOM listeners are not modelled: a gesture is the sequence of its moves. */
module ResizeHandles {
  import opened Common
  import opened Types
  import opened EditorReducer
  import opened UseHistory

  /** A handle says which edges it drags: dx == -1 drags the left edge, any
      other value the right; dy == -1 the top edge, any other the bottom. */
  datatype Handle = Handle(dx: int, dy: int)

  /** HANDLE_POSITIONS: top-left, top-right, bottom-left, bottom-right. */
  const HandlePositions := [Handle(-1, -1), Handle(0, -1), Handle(-1, 0), Handle(0, 0)]

  /** An annotation's rectangle, in percent of the page. */
  datatype Box = Box(x: real, y: real, width: real, height: real)

  /** A pointer move: the total pointer delta since the press, in percent of
      the page's width and height. */
  datatype Delta = Delta(dx: real, dy: real)

  function StartRect(a: Annotation): Box
  {
    Box(a.x, a.y, a.width, a.height)
  }

  /** `((client - start) / size) * 100` for a page of non-zero size. */
  function PointerDeltaPct(client: real, start: real, size: real): (r: real)
    requires size != 0.0
    ensures r * size == (client - start) * 100.0
    ensures (client - start > 0.0 && size > 0.0) ==> r > 0.0
  {
    (client - start) / size * 100.0
  }

  /** The rectangle before clamping: a dragged left (top) edge moves by the
      delta while the right (bottom) edge stays where it was; otherwise the
      left (top) edge stays and the width (height) grows by the delta. */
  function Unclamped(handle: Handle, start: Box, d: Delta): (u: Box)
    ensures handle.dx == -1 ==> u.x == start.x + d.dx && u.x + u.width == start.x + start.width
    ensures handle.dx != -1 ==> u.x == start.x && u.width == start.width + d.dx
    ensures handle.dy == -1 ==> u.y == start.y + d.dy && u.y + u.height == start.y + start.height
    ensures handle.dy != -1 ==> u.y == start.y && u.height == start.height + d.dy
  {
    Box(if handle.dx == -1 then start.x + d.dx else start.x,
         if handle.dy == -1 then start.y + d.dy else start.y,
         if handle.dx == -1 then start.width - d.dx else start.width + d.dx,
         if handle.dy == -1 then start.height - d.dy else start.height + d.dy)
  }

  /** The clamps: width at least 2, height at least 1.5, x and y within
      [0, 98] each on its own, whatever the width and height. A value
      already in range is kept. */
  function Clamped(u: Box): (r: Box)
    ensures r.width >= 2.0 && r.height >= 1.5
    ensures 0.0 <= r.x <= 98.0 && 0.0 <= r.y <= 98.0
    ensures u.width >= 2.0 ==> r.width == u.width
    ensures u.height >= 1.5 ==> r.height == u.height
    ensures 0.0 <= u.x <= 98.0 ==> r.x == u.x
    ensures 0.0 <= u.y <= 98.0 ==> r.y == u.y
  {
    Box(Max(0.0, Min(98.0, u.x)), Max(0.0, Min(98.0, u.y)), Max(2.0, u.width), Max(1.5, u.height))
  }

  /** The rectangle one pointer move dispatches. */
  function Resized(handle: Handle, start: Box, d: Delta): (r: Box)
    ensures r.width >= 2.0 && r.height >= 1.5
    ensures 0.0 <= r.x <= 98.0 && 0.0 <= r.y <= 98.0
  {
    Clamped(Unclamped(handle, start, d))
  }

  /** handlePointerMove's computation: the four values start from the
      snapshot, the handle's edges are moved, then each is clamped. */
  method MoveRect(handle: Handle, start: Box, d: Delta) returns (r: Box)
    ensures r == Resized(handle, start, d)
  {
    var newX := start.x;
    var newY := start.y;
    var newW := start.width;
    var newH := start.height;

    if handle.dx == -1 {
      newX := start.x + d.dx;
      newW := start.width - d.dx;
    } else {
      newW := start.width + d.dx;
    }

    if handle.dy == -1 {
      newY := start.y + d.dy;
      newH := start.height - d.dy;
    } else {
      newH := start.height + d.dy;
    }

    newW := Max(2.0, newW);
    newH := Max(1.5, newH);
    newX := Max(0.0, Min(98.0, newX));
    newY := Max(0.0, Min(98.0, newY));
    r := Box(newX, newY, newW, newH);
  }

  /** The update one move dispatches: the four geometry fields of that id. */
  function MoveAction(id: string, handle: Handle, start: Box, d: Delta): EditorAction
  {
    var r := Resized(handle, start, d);
    UpdateAnnotation(id, GeometryChanges(r.x, r.y, r.width, r.height))
  }

  /** The moves of a gesture, each dispatched and then rendered. */
  function AfterMoves(h: HistoryState, id: string, handle: Handle, start: Box, moves: seq<Delta>,
                      newId: nat -> string, now: string): HistoryState
    decreases |moves|
  {
    if moves == [] then h
    else
      var next := Render(Dispatch(h, MoveAction(id, handle, start, moves[0]), newId, now));
      AfterMoves(next, id, handle, start, moves[1..], newId, now)
  }

  /** A whole gesture: startBatch on press, the moves, endBatch on release. */
  function ResizeSession(h: HistoryState, a: Annotation, handle: Handle, moves: seq<Delta>,
                         newId: nat -> string, now: string): HistoryState
  {
    EndBatch(AfterMoves(StartBatch(h), a.id, handle, StartRect(a), moves, newId, now))
  }

  /** handleResizeStart with its move and release handlers, on the editor's
      history. */
  method ResizeGesture(h: History, a: Annotation, handle: Handle, moves: seq<Delta>,
                       newId: nat -> string, now: string)
    modifies h
    ensures h.Model() == ResizeSession(old(h.Model()), a, handle, moves, newId, now)
  {
    var start := StartRect(a);
    h.BeginBatch();
    ghost var begun := h.Model();
    var i := 0;
    while i < |moves|
      invariant 0 <= i <= |moves|
      invariant AfterMoves(h.Model(), a.id, handle, start, moves[i..], newId, now)
             == AfterMoves(begun, a.id, handle, start, moves, newId, now)
    {
      var r := MoveRect(handle, start, moves[i]);
      h.DispatchAction(UpdateAnnotation(a.id, GeometryChanges(r.x, r.y, r.width, r.height)), newId, now);
      h.RenderNow();
      assert moves[i..][1..] == moves[i + 1..];
      i := i + 1;
    }
    h.FinishBatch();
  }

  // ---------------------------------------------------------------------------
  // Properties

  /** A left (top) handle keeps the right (bottom) edge in place while no
      clamp applies; a right (bottom) handle keeps the left (top) edge. */
  lemma EdgesFollowHandle(handle: Handle, start: Box, d: Delta)
    ensures var (u, r) := (Unclamped(handle, start, d), Resized(handle, start, d));
      && (handle.dx == -1 && 0.0 <= u.x <= 98.0 && u.width >= 2.0 ==>
            r.x == start.x + d.dx && r.x + r.width == start.x + start.width)
      && (handle.dx != -1 && 0.0 <= start.x <= 98.0 ==>
            r.x == start.x && r.width == Max(2.0, start.width + d.dx))
      && (handle.dy == -1 && 0.0 <= u.y <= 98.0 && u.height >= 1.5 ==>
            r.y == start.y + d.dy && r.y + r.height == start.y + start.height)
      && (handle.dy != -1 && 0.0 <= start.y <= 98.0 ==>
            r.y == start.y && r.height == Max(1.5, start.height + d.dy))
  {
  }

  /** x is clamped without regard to the width: a rectangle at x = 98 can
      grow past the page's right edge. */
  lemma PositionClampIgnoresSize()
    ensures var r := Resized(Handle(0, 0), Box(98.0, 0.0, 2.0, 2.0), Delta(50.0, 0.0));
      r.x == 98.0 && r.width == 52.0 && r.x + r.width > 100.0
  {
  }

  /** Two geometry updates of the same id leave what the second alone
      does. */
  lemma GeometryOverrides(anns: seq<Annotation>, id: string, g1: Box, g2: Box)
    ensures UpdateWhere(UpdateWhere(anns, id, GeometryChanges(g1.x, g1.y, g1.width, g1.height)), id,
                        GeometryChanges(g2.x, g2.y, g2.width, g2.height))
         == UpdateWhere(anns, id, GeometryChanges(g2.x, g2.y, g2.width, g2.height))
  {
    var c1 := GeometryChanges(g1.x, g1.y, g1.width, g1.height);
    var c2 := GeometryChanges(g2.x, g2.y, g2.width, g2.height);
    var once := UpdateWhere(anns, id, c1);
    forall i | 0 <= i < |anns| && anns[i].id == id
      ensures PatchAnnotation(once[i], c2) == PatchAnnotation(anns[i], c2)
    {
      GeometryUpdateKeepsKind(anns[i], g1.x, g1.y, g1.width, g1.height);
      GeometryUpdateKeepsKind(once[i], g2.x, g2.y, g2.width, g2.height);
      GeometryUpdateKeepsKind(anns[i], g2.x, g2.y, g2.width, g2.height);
    }
  }

  /** Inside a batch the moves push nothing, and since each is computed from
      the snapshot, the annotations end as the last move alone leaves
      them. */
  lemma {:induction false} MovesInBatch(h: HistoryState, id: string, handle: Handle, start: Box,
                                        moves: seq<Delta>, newId: nat -> string, now: string)
    requires h.batching
    ensures var g := AfterMoves(h, id, handle, start, moves, newId, now);
      && g.past == h.past && g.future == h.future
      && g.batching && g.batchStart == h.batchStart
      && g.state == h.state.(annotations := if moves == [] then h.state.annotations
                                             else UpdateWhere(h.state.annotations, id,
                                                    MoveAction(id, handle, start, moves[|moves| - 1]).changes))
      && (moves != [] ==> Settled(g))
    decreases |moves|
  {
    if moves != [] {
      var next := Render(Dispatch(h, MoveAction(id, handle, start, moves[0]), newId, now));
      MovesInBatch(next, id, handle, start, moves[1..], newId, now);
      if |moves| > 1 {
        assert moves[1..][|moves[1..]| - 1] == moves[|moves| - 1];
        GeometryOverrides(h.state.annotations, id, Resized(handle, start, moves[0]),
                          Resized(handle, start, moves[|moves| - 1]));
      }
    }
  }

  /** A whole resize is one undo step: it records the state from before the
      press once, clears the future, and leaves the annotation with the
      rectangle of the last move; nothing else in the editor changes. */
  lemma ResizeRecordsOnce(h: HistoryState, a: Annotation, handle: Handle, moves: seq<Delta>,
                          newId: nat -> string, now: string)
    requires Settled(h)
    ensures var g := ResizeSession(h, a, handle, moves, newId, now);
      && g.past == PushPast(h.past, h.state) && g.future == []
      && !g.batching && g.batchStart.None?
      && (moves == [] ==> g.state == h.state)
      && (moves != [] ==>
            var r := Resized(handle, StartRect(a), moves[|moves| - 1]);
            g.state == h.state.(annotations :=
              UpdateWhere(h.state.annotations, a.id, GeometryChanges(r.x, r.y, r.width, r.height))))
  {
    MovesInBatch(StartBatch(h), a.id, handle, StartRect(a), moves, newId, now);
  }

  /** One undo after the release takes the editor back to the state from
      before the press, however many moves the gesture had. */
  lemma UndoAfterResize(h: HistoryState, a: Annotation, handle: Handle, moves: seq<Delta>,
                        newId: nat -> string, now: string)
    requires Settled(h) && moves != []
    ensures var g := Render(ResizeSession(h, a, handle, moves, newId, now));
      Undo(g).state == h.state && Undo(g).past == TakeLast(h.past, MaxHistory - 1)
  {
    ResizeRecordsOnce(h, a, handle, moves, newId, now);
  }
}
