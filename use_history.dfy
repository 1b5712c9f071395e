/** Undo and redo around the reducer (src/hooks/useHistory.ts). The hook keeps
    the reducer's state, the state of the last render (stateRef), the past and
    future stacks and the batching flags; they are fields of a class whose
    methods do what the hook's callbacks do, each proved to match a pure
    function on a HistoryState value, about which the properties are proved.
    A render is an explicit step (`Render`): actions dispatched from one event
    handler all see the state of the last render. */
module UseHistory {
  import opened Common
  import opened Types
  import opened EditorReducer

  const MaxHistory: nat := 50

  /** NON_HISTORY_ACTIONS: the actions that never touch the stacks. */
  predicate IsHistoryAction(a: EditorAction)
  {
    !(a.SelectAnnotation? || a.ToggleSelectAnnotation? || a.SelectAllOnPage? || a.SetTool?
      || a.SetPage? || a.SetZoom? || a.SetTotalPages? || a.SetPageDimensions?
      || a.RestoreState? || a.AddAuditEntry? || a.CopySelected? || a.LoadDocument?)
  }

  /** `xs.slice(-n)` for n >= 1: the last n elements, or all of them. */
  function TakeLast<T>(xs: seq<T>, n: nat): (r: seq<T>)
    ensures |r| == if |xs| <= n then |xs| else n
    ensures r == xs[|xs| - |r|..]
  {
    if |xs| <= n then xs else xs[|xs| - n..]
  }

  /** `[...past.slice(-(MAX_HISTORY - 1)), s]` */
  function PushPast(past: seq<EditorState>, s: EditorState): seq<EditorState>
  {
    TakeLast(past, MaxHistory - 1) + [s]
  }

  datatype HistoryState = HistoryState(
    state: EditorState,          // the reducer's state
    rendered: EditorState,       // stateRef.current: the state of the last render
    past: seq<EditorState>,
    future: seq<EditorState>,
    batching: bool,
    batchStart: Option<EditorState>)

  function Render(h: HistoryState): HistoryState
  {
    h.(rendered := h.state)
  }

  /** dispatch */
  function Dispatch(h: HistoryState, a: EditorAction, newId: nat -> string, now: string): HistoryState
  {
    var stacks := if IsHistoryAction(a) && !h.batching then h.(past := PushPast(h.past, h.rendered), future := []) else h;
    stacks.(state := Reduce(h.state, a, newId, now))
  }

  function StartBatch(h: HistoryState): HistoryState
  {
    h.(batching := true, batchStart := Some(h.rendered))
  }

  function EndBatch(h: HistoryState): HistoryState
  {
    var stacks := if h.batching && h.batchStart.Some? then h.(past := PushPast(h.past, h.batchStart.value), future := []) else h;
    stacks.(batching := false, batchStart := None)
  }

  function Undo(h: HistoryState): HistoryState
  {
    if h.past == [] then h
    else
      var previous := h.past[|h.past| - 1];
      h.(past := h.past[..|h.past| - 1], future := h.future + [h.rendered],
         state := Reduce(h.state, RestoreState(previous), _ => "", ""))
  }

  function Redo(h: HistoryState): HistoryState
  {
    if h.future == [] then h
    else
      var next := h.future[|h.future| - 1];
      h.(future := h.future[..|h.future| - 1], past := h.past + [h.rendered],
         state := Reduce(h.state, RestoreState(next), _ => "", ""))
  }

  function CanUndo(h: HistoryState): bool { |h.past| > 0 }

  function CanRedo(h: HistoryState): bool { |h.future| > 0 }

  /** The stacks together never hold more than MAX_HISTORY states. */
  predicate Bounded(h: HistoryState)
  {
    |h.past| + |h.future| <= MaxHistory
  }

  /** Between events, the last render shows the reducer's state. */
  predicate Settled(h: HistoryState)
  {
    h.rendered == h.state
  }

  const InitialHistory := HistoryState(InitialEditorState, InitialEditorState, [], [], false, None)

  // ---------------------------------------------------------------------------
  // The hook

  class History {
    var state: EditorState
    var rendered: EditorState
    var past: seq<EditorState>
    var future: seq<EditorState>
    var batching: bool
    var batchStart: Option<EditorState>

    function Model(): HistoryState
      reads this
    {
      HistoryState(state, rendered, past, future, batching, batchStart)
    }

    constructor ()
      ensures Model() == InitialHistory
    {
      state := InitialEditorState;
      rendered := InitialEditorState;
      past := [];
      future := [];
      batching := false;
      batchStart := None;
    }

    /** React re-renders: stateRef.current = state. */
    method RenderNow()
      modifies this
      ensures Model() == Render(old(Model()))
    {
      rendered := state;
    }

    method DispatchAction(action: EditorAction, newId: nat -> string, now: string)
      modifies this
      ensures Model() == Dispatch(old(Model()), action, newId, now)
    {
      if IsHistoryAction(action) {
        if !batching {
          past := TakeLast(past, MaxHistory - 1) + [rendered];
          future := [];
        }
      }
      state := Reduce(state, action, newId, now);
    }

    method BeginBatch()
      modifies this
      ensures Model() == StartBatch(old(Model()))
    {
      batching := true;
      batchStart := Some(rendered);
    }

    method FinishBatch()
      modifies this
      ensures Model() == EndBatch(old(Model()))
    {
      if batching && batchStart.Some? {
        past := TakeLast(past, MaxHistory - 1) + [batchStart.value];
        future := [];
      }
      batching := false;
      batchStart := None;
    }

    method UndoStep()
      modifies this
      ensures Model() == Undo(old(Model()))
    {
      if |past| == 0 {
        return;
      }
      var previous := past[|past| - 1];
      past := past[..|past| - 1];
      future := future + [rendered];
      state := Reduce(state, RestoreState(previous), _ => "", "");
    }

    method RedoStep()
      modifies this
      ensures Model() == Redo(old(Model()))
    {
      if |future| == 0 {
        return;
      }
      var next := future[|future| - 1];
      future := future[..|future| - 1];
      past := past + [rendered];
      state := Reduce(state, RestoreState(next), _ => "", "");
    }
  }

  // ---------------------------------------------------------------------------
  // Properties

  /** A push keeps the most recent 49 states and adds the new one last; below
      the cap nothing is dropped. */
  lemma PushPastKeepsRecent(past: seq<EditorState>, s: EditorState)
    ensures var p := PushPast(past, s);
      && |p| <= MaxHistory && |p| >= 1 && p[|p| - 1] == s
      && p[..|p| - 1] == past[|past| - (|p| - 1)..]
      && (|past| < MaxHistory ==> p == past + [s])
  {
  }

  /** Actions outside the history leave both stacks and the batch alone. */
  lemma NonHistoryKeepsStacks(h: HistoryState, a: EditorAction, newId: nat -> string, now: string)
    requires !IsHistoryAction(a)
    ensures var g := Dispatch(h, a, newId, now);
      g.past == h.past && g.future == h.future && g.batching == h.batching && g.batchStart == h.batchStart
  {
  }

  /** Outside a batch, a history action pushes the state of the last render
      and clears the future. */
  lemma HistoryActionPushes(h: HistoryState, a: EditorAction, newId: nat -> string, now: string)
    requires IsHistoryAction(a) && !h.batching
    ensures var g := Dispatch(h, a, newId, now);
      g.past == PushPast(h.past, h.rendered) && g.future == [] && g.state == Reduce(h.state, a, newId, now)
  {
  }

  /** Inside a batch nothing is pushed; ending the batch pushes the state at
      its start once and clears the future. */
  lemma BatchPushesOnce(h: HistoryState, a: EditorAction, newId: nat -> string, now: string)
    ensures var g := Dispatch(StartBatch(h), a, newId, now);
      && g.past == h.past && g.future == h.future
      && EndBatch(g).past == PushPast(h.past, h.rendered) && EndBatch(g).future == []
      && !EndBatch(g).batching && EndBatch(g).batchStart.None?
  {
  }

  /** Without an active batch, ending one only resets the flags. */
  lemma EndBatchWithoutBatch(h: HistoryState)
    requires !h.batching
    ensures EndBatch(h) == h.(batching := false, batchStart := None)
  {
  }

  lemma UndoRedoEmpty(h: HistoryState)
    ensures h.past == [] ==> Undo(h) == h
    ensures h.future == [] ==> Redo(h) == h
  {
  }

  /** canUndo and canRedo say exactly whether undo and redo would do
      anything. */
  lemma CanUndoRedoMeans(h: HistoryState)
    ensures CanUndo(h) <==> Undo(h) != h
    ensures CanRedo(h) <==> Redo(h) != h
  {
    if CanUndo(h) {
      assert |Undo(h).future| == |h.future| + 1;
    }
    if CanRedo(h) {
      assert |Redo(h).past| == |h.past| + 1;
    }
  }

  /** Undo restores the last pushed state and moves the shown one onto the
      future. */
  lemma UndoRestores(h: HistoryState)
    requires h.past != []
    ensures var g := Undo(h);
      g.state == h.past[|h.past| - 1] && g.past == h.past[..|h.past| - 1] && g.future == h.future + [h.rendered]
  {
  }

  /** With a render between them, as between two key presses, undo followed
      by redo gives back the same state, past and future. */
  lemma UndoThenRedo(h: HistoryState)
    requires Settled(h) && h.past != []
    ensures Render(Redo(Render(Undo(h)))) == h
  {
    var u := Render(Undo(h));
    assert u.future[|u.future| - 1] == h.rendered;
    assert u.future[..|u.future| - 1] == h.future;
    assert h.past[..|h.past| - 1] + [h.past[|h.past| - 1]] == h.past;
  }

  /** Every step keeps the stacks within MAX_HISTORY together. */
  lemma BoundedPreserved(h: HistoryState, a: EditorAction, newId: nat -> string, now: string)
    requires Bounded(h)
    ensures Bounded(Dispatch(h, a, newId, now))
    ensures Bounded(StartBatch(h)) && Bounded(EndBatch(h))
    ensures Bounded(Undo(h)) && Bounded(Redo(h)) && Bounded(Render(h))
  {
  }

  lemma InitialBounded()
    ensures Bounded(InitialHistory) && Settled(InitialHistory) && !CanUndo(InitialHistory)
  {
  }

  /** What placing a signature does (src/components/panels/ToolsPanel.tsx):
      it dispatches the annotation and then its audit entry from the same
      handler, after which React renders. */
  function PlaceSignature(h: HistoryState, ann: Annotation, details: string, newId: nat -> string, now: string): HistoryState
  {
    var afterAdd := Dispatch(h, AddAnnotation(ann), newId, now);
    Render(Dispatch(afterAdd, AddAuditEntry("Signature Added", details), newId, now))
  }

  /** Only the annotation is recorded, and with the state from before both
      actions; the audit entry reaches the state all the same. */
  lemma PlaceSignatureRecordsOnce(h: HistoryState, ann: Annotation, details: string, newId: nat -> string, now: string)
    requires Settled(h) && !h.batching
    ensures var g := PlaceSignature(h, ann, details, newId, now);
      && g.past == PushPast(h.past, h.state) && g.future == []
      && g.state.auditLog == h.state.auditLog + [AuditEntry("Signature Added", now, details)]
      && g.state.annotations == h.state.annotations + [ann]
  {
    var afterAdd := Dispatch(h, AddAnnotation(ann), newId, now);
    AddAppends(h.state, ann, newId, now);
    HistoryActionPushes(h, AddAnnotation(ann), newId, now);
    AuditAppends(afterAdd.state, "Signature Added", details, newId, now);
    NonHistoryKeepsStacks(afterAdd, AddAuditEntry("Signature Added", details), newId, now);
  }

  /** So one undo removes the signature and its audit entry together: the
      audit log is not append-only under undo. Redo brings both back. */
  lemma UndoDropsAuditEntry(h: HistoryState, ann: Annotation, details: string, newId: nat -> string, now: string)
    requires Settled(h) && !h.batching
    ensures var g := PlaceSignature(h, ann, details, newId, now);
      && Undo(g).state == h.state
      && |Undo(g).state.auditLog| < |g.state.auditLog|
      && Undo(g).future[|Undo(g).future| - 1] == g.state
  {
    var g := PlaceSignature(h, ann, details, newId, now);
    PlaceSignatureRecordsOnce(h, ann, details, newId, now);
    PushPastKeepsRecent(h.past, h.state);
    UndoRestores(g);
  }
}
