/** Pressing and dragging an annotation on the page
    (src/components/annotations/AnnotationItem.tsx). The press selects the
    annotation; each pointer move recomputes the clamped position from the
    position at the press and the total pointer delta; the release commits
    that position once, and only if the pointer moved. Moving the element's
    style while dragging and the dragging flag are presentation and are not
    modelled. */
module AnnotationItem {
  import opened Common
  import opened Types
  import opened EditorReducer
  import ResizeHandles

  /** What the press landed on, and whether shift was held. */
  datatype Press = Press(onResizeHandle: bool, onContentEditable: bool, shiftKey: bool)

  /** What handlePointerDown does: the actions it dispatches, whether it
      prevents the default, and whether a drag begins. */
  datatype PressResponse = PressResponse(actions: seq<EditorAction>, preventDefault: bool, dragStarts: bool)

  /** Presses on a resize handle or on editable content belong to them. */
  predicate Ignored(p: Press)
  {
    p.onResizeHandle || p.onContentEditable
  }

  /** handlePointerDown up to the drag: `isSelected` is whether the
      annotation is selected, `hasParent` whether its element and parent
      could be measured. */
  function HandlePress(p: Press, id: string, isSelected: bool, hasParent: bool): (r: PressResponse)
    ensures Ignored(p) <==> r.actions == []
    ensures Ignored(p) ==> !r.preventDefault && !r.dragStarts
    ensures !Ignored(p) ==> r.preventDefault == !isSelected && r.dragStarts == hasParent
  {
    if Ignored(p) then PressResponse([], false, false)
    else
      var select := if p.shiftKey then ToggleSelectAnnotation(id) else SelectAnnotation(Some(id));
      PressResponse([select], !isSelected, hasParent)
  }

  /** handleClick: a plain click selects the annotation; a shift click was
      already handled by the press. */
  function HandleClick(shiftKey: bool, id: string): (r: seq<EditorAction>)
    ensures shiftKey <==> r == []
  {
    if shiftKey then [] else [SelectAnnotation(Some(id))]
  }

  /** `Math.max(0, Math.min(100 - extent, v))` */
  function DragClamp(v: real, extent: real): (r: real)
    ensures r >= 0.0
    ensures extent <= 100.0 ==> r <= 100.0 - extent
    ensures 0.0 <= v <= 100.0 - extent ==> r == v
  {
    Max(0.0, Min(100.0 - extent, v))
  }

  /** The state one drag keeps between its handlers. */
  class Drag {
    const id: string
    const origX: real
    const origY: real
    const width: real
    const height: real
    var finalX: real
    var finalY: real
    var moved: bool

    /** The press: the drag starts at the annotation's position. */
    constructor (a: Annotation)
      ensures id == a.id && origX == a.x && origY == a.y && width == a.width && height == a.height
      ensures finalX == a.x && finalY == a.y && !moved
    {
      id := a.id;
      origX := a.x;
      origY := a.y;
      width := a.width;
      height := a.height;
      finalX := a.x;
      finalY := a.y;
      moved := false;
    }

    /** handlePointerMove: the position at the press plus the total delta,
        clamped to the page. */
    method Move(d: ResizeHandles.Delta)
      modifies this
      ensures moved
      ensures finalX == DragClamp(origX + d.dx, width) && finalY == DragClamp(origY + d.dy, height)
    {
      if !moved {
        moved := true;
      }
      finalX := DragClamp(origX + d.dx, width);
      finalY := DragClamp(origY + d.dy, height);
    }

    /** handlePointerUp: the position is committed only after a move. */
    method Release() returns (update: Option<EditorAction>)
      ensures update.Some? <==> moved
      ensures update.Some? ==> update.value == UpdateAnnotation(id, PositionChanges(finalX, finalY))
    {
      if moved {
        update := Some(UpdateAnnotation(id, PositionChanges(finalX, finalY)));
      } else {
        update := None;
      }
    }
  }

  /** What a drag of `a` with these moves commits on release. */
  function DragOutcome(a: Annotation, moves: seq<ResizeHandles.Delta>): (r: Option<EditorAction>)
    ensures r.Some? <==> moves != []
  {
    if moves == [] then None
    else
      var last := moves[|moves| - 1];
      Some(UpdateAnnotation(a.id, PositionChanges(DragClamp(a.x + last.dx, a.width),
                                                  DragClamp(a.y + last.dy, a.height))))
  }

  /** A press that starts a drag, its moves and its release. */
  method DragGesture(a: Annotation, moves: seq<ResizeHandles.Delta>) returns (update: Option<EditorAction>)
    ensures update == DragOutcome(a, moves)
  {
    var d := new Drag(a);
    var i := 0;
    while i < |moves|
      invariant 0 <= i <= |moves|
      invariant d.moved <==> i > 0
      invariant i > 0 ==> (d.finalX == DragClamp(a.x + moves[i - 1].dx, a.width)
                           && d.finalY == DragClamp(a.y + moves[i - 1].dy, a.height))
    {
      d.Move(moves[i]);
      i := i + 1;
    }
    update := d.Release();
  }

  // ---------------------------------------------------------------------------
  // Properties

  /** A shift press flips whether the annotation is selected; a plain press
      makes it the only selection. */
  lemma PressSelects(s: EditorState, p: Press, id: string, isSelected: bool, hasParent: bool,
                     newId: nat -> string, now: string)
    requires !Ignored(p) && id != ""
    ensures var r := HandlePress(p, id, isSelected, hasParent);
      var t := Reduce(s, r.actions[0], newId, now);
      && |r.actions| == 1
      && (p.shiftKey ==> (id in t.selectedIds <==> id !in s.selectedIds))
      && (!p.shiftKey ==> t.selectedIds == [id])
      && t.annotations == s.annotations
  {
    if p.shiftKey {
      ToggleFlips(s, id, newId, now);
    }
  }

  /** The committed update changes only x and y of the dragged annotation,
      to a position on the page: x is never negative, and the annotation's
      right edge stays on the page when it is at most a page wide; the same
      holds for y and the height. Every other annotation stays. */
  lemma DragCommitsPosition(s: EditorState, a: Annotation, moves: seq<ResizeHandles.Delta>,
                            newId: nat -> string, now: string)
    requires moves != []
    ensures var t := Reduce(s, DragOutcome(a, moves).value, newId, now);
      var (fx, fy) := (DragClamp(a.x + moves[|moves| - 1].dx, a.width),
                       DragClamp(a.y + moves[|moves| - 1].dy, a.height));
      && |t.annotations| == |s.annotations|
      && (forall i :: 0 <= i < |s.annotations| && s.annotations[i].id != a.id ==>
            t.annotations[i] == s.annotations[i])
      && (forall i :: 0 <= i < |s.annotations| && s.annotations[i].id == a.id ==>
            t.annotations[i] == s.annotations[i].(x := fx, y := fy))
      && 0.0 <= fx && (a.width <= 100.0 ==> fx + a.width <= 100.0)
      && 0.0 <= fy && (a.height <= 100.0 ==> fy + a.height <= 100.0)
      && t.selectedIds == s.selectedIds && SameSettings(s, t)
  {
  }
}
