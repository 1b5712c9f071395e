/** The editor's keyboard shortcuts (src/hooks/useKeyboardShortcuts.ts): a
    keydown is tested against a chain of conditions in order, and the first
    that holds decides the single response. The response is a value here:
    whether the focused element is blurred, whether the browser default is
    prevented, whether undo or redo runs, and the actions dispatched. */
module KeyboardShortcuts {
  import opened Common
  import opened Types

  datatype Target = Target(isContentEditable: bool, tagName: string)

  datatype KeyEvent = KeyEvent(
    key: string, ctrlKey: bool, metaKey: bool, shiftKey: bool, target: Target)

  datatype KeyResponse = KeyResponse(
    blur: bool, preventDefault: bool, undo: bool, redo: bool, actions: seq<EditorAction>)

  const NoResponse := KeyResponse(false, false, false, false, [])

  /** Typing into a form field or an editable element. */
  predicate IsEditable(t: Target)
  {
    t.isContentEditable || t.tagName == "INPUT" || t.tagName == "TEXTAREA"
  }

  predicate Mod(e: KeyEvent)
  {
    e.ctrlKey || e.metaKey
  }

  function Prevented(actions: seq<EditorAction>): KeyResponse
  {
    KeyResponse(false, true, false, false, actions)
  }

  /** handleKeyDown, given the selection size and the current page from the
      editor state the listener was registered with. */
  function HandleKeyDown(e: KeyEvent, selectedCount: nat, currentPage: int): (r: KeyResponse)
    // one keydown fires at most one branch
    ensures !(r.undo && r.redo) && (r.undo || r.redo ==> r.actions == [])
    ensures |r.actions| <= 2
    // only Escape in an editable element blurs, and it only deselects
    ensures r.blur <==> IsEditable(e.target) && e.key == "Escape"
    ensures r.blur ==> r.actions == [SelectAnnotation(None)] && !r.preventDefault
    ensures r.undo ==> Mod(e) && !e.shiftKey && e.key == "z"
    ensures r.actions == [DeleteSelected] ==> selectedCount > 0
  {
    if IsEditable(e.target) then
      if e.key == "Escape" then KeyResponse(true, false, false, false, [SelectAnnotation(None)])
      else NoResponse
    else if Mod(e) && !e.shiftKey && e.key == "z" then KeyResponse(false, true, true, false, [])
    else if Mod(e) && e.shiftKey && e.key == "z" then KeyResponse(false, true, false, true, [])
    else if Mod(e) && e.key == "y" then KeyResponse(false, true, false, true, [])
    else if Mod(e) && e.key == "c" then Prevented([CopySelected])
    else if Mod(e) && e.key == "v" then Prevented([PasteClipboard(currentPage)])
    else if Mod(e) && e.key == "d" then Prevented([DuplicateSelected])
    else if Mod(e) && e.key == "a" then Prevented([SelectAllOnPage(currentPage)])
    else if (e.key == "Delete" || e.key == "Backspace") && selectedCount > 0 then Prevented([DeleteSelected])
    else if e.key == "Escape" then KeyResponse(false, false, false, false, [SelectAnnotation(None), SetTool(Select)])
    else NoResponse
  }

  /** The keys that mean something outside an editable element. */
  predicate IsShortcutKey(k: string)
  {
    k == "z" || k == "y" || k == "c" || k == "v" || k == "d" || k == "a"
  }

  // ---------------------------------------------------------------------------
  // Properties

  /** In an editable element only Escape acts: it blurs the element and
      clears the selection, without preventing the default. */
  lemma EditableOnlyEscape(e: KeyEvent, selectedCount: nat, currentPage: int)
    requires IsEditable(e.target)
    ensures var r := HandleKeyDown(e, selectedCount, currentPage);
      && (e.key == "Escape" ==> r == KeyResponse(true, false, false, false, [SelectAnnotation(None)]))
      && (e.key != "Escape" ==> r == NoResponse)
  {
  }

  /** mod+z without shift undoes; mod+shift+z and mod+y redo. */
  lemma UndoRedoKeys(e: KeyEvent, selectedCount: nat, currentPage: int)
    requires !IsEditable(e.target) && Mod(e)
    ensures var r := HandleKeyDown(e, selectedCount, currentPage);
      && (r.undo <==> !e.shiftKey && e.key == "z")
      && (r.redo <==> (e.key == "z" && e.shiftKey) || e.key == "y")
  {
  }

  /** mod+c copies, mod+v pastes onto the current page, mod+d duplicates,
      mod+a selects everything on the current page. */
  lemma ClipboardKeys(e: KeyEvent, selectedCount: nat, currentPage: int)
    requires !IsEditable(e.target) && Mod(e)
    ensures var r := HandleKeyDown(e, selectedCount, currentPage);
      && (e.key == "c" ==> r.actions == [CopySelected])
      && (e.key == "v" ==> r.actions == [PasteClipboard(currentPage)])
      && (e.key == "d" ==> r.actions == [DuplicateSelected])
      && (e.key == "a" ==> r.actions == [SelectAllOnPage(currentPage)])
      && (IsShortcutKey(e.key) ==> r.preventDefault)
  {
  }

  /** Delete and Backspace delete the selection exactly when it is
      non-empty; an empty selection lets the key through untouched. */
  lemma DeleteNeedsSelection(e: KeyEvent, selectedCount: nat, currentPage: int)
    requires !IsEditable(e.target) && (e.key == "Delete" || e.key == "Backspace")
    ensures var r := HandleKeyDown(e, selectedCount, currentPage);
      && (r.actions == [DeleteSelected] <==> selectedCount > 0)
      && (selectedCount == 0 ==> r == NoResponse)
  {
  }

  /** Escape outside an editable element clears the selection and goes
      back to the select tool, whatever modifiers are held. */
  lemma EscapeDeselects(e: KeyEvent, selectedCount: nat, currentPage: int)
    requires !IsEditable(e.target) && e.key == "Escape"
    ensures HandleKeyDown(e, selectedCount, currentPage).actions == [SelectAnnotation(None), SetTool(Select)]
    ensures !HandleKeyDown(e, selectedCount, currentPage).preventDefault
  {
  }

  /** A key without a modifier that is not Delete, Backspace or Escape does
      nothing. */
  lemma PlainKeysIgnored(e: KeyEvent, selectedCount: nat, currentPage: int)
    requires !Mod(e) && e.key != "Delete" && e.key != "Backspace" && e.key != "Escape"
    ensures HandleKeyDown(e, selectedCount, currentPage) == NoResponse
  {
  }
}
