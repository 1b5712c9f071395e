/** The editor's state machine (src/state/editorReducer.ts): a pure transition
    from a state and an action to the next state. The two sources of fresh
    values the reducer reaches for, crypto.randomUUID and the clock, are
    parameters: `newId(i)` is the id the i-th copy made by one paste or
    duplicate receives, and `now` is the ISO time an audit entry is stamped
    with. */
module EditorReducer {
  import opened Common
  import opened Types

  // ---------------------------------------------------------------------------
  // The initial state

  const InitialWatermark := WatermarkConfig("", 48.0, "#94a3b8", 0.15, -45.0, false)

  const InitialHeaderFooter :=
    HeaderFooterConfig("", "", "", "", "Page {page} of {total}", "", 10.0, false)

  const InitialEditorState := EditorState(
    [], [], Select, 1, 0, 1.0, [], [], InitialWatermark, InitialHeaderFooter, [], "", "")

  // ---------------------------------------------------------------------------
  // Object spreads

  /** A field of a spread patch: the given value if present, the old one
      otherwise. */
  function Patch<T>(given: Option<T>, current: T): (r: T)
    ensures given.Some? ==> r == given.value
    ensures given.None? ==> r == current
  {
    if given.Some? then given.value else current
  }

  /** `{ ...a, ...changes }` on the variant's own fields: a field the variant
      has takes the new value; the variant itself never changes. */
  function PatchKind(k: Kind, c: AnnotationChanges): Kind
  {
    match k
    case Text(content, fontSize, fontFamily, color, bold, italic, align) =>
      Text(Patch(c.content, content), Patch(c.fontSize, fontSize), Patch(c.fontFamily, fontFamily),
           Patch(c.color, color), Patch(c.bold, bold), Patch(c.italic, italic), Patch(c.align, align))
    case Date(content, fontSize, fontFamily, color, dateFormat) =>
      Date(Patch(c.content, content), Patch(c.fontSize, fontSize), Patch(c.fontFamily, fontFamily),
           Patch(c.color, color), Patch(c.dateFormat, dateFormat))
    case Drawing(paths, strokeColor, strokeWidth) =>
      Drawing(paths, Patch(c.strokeColor, strokeColor), Patch(c.strokeWidth, strokeWidth))
    case Highlight(color) => Highlight(Patch(c.color, color))
    case Strikethrough(color) => Strikethrough(Patch(c.color, color))
    case Underline(color) => Underline(Patch(c.color, color))
    case StickyNote(content, color, author, timestamp) =>
      StickyNote(Patch(c.content, content), Patch(c.color, color), author, timestamp)
    case Shape(shapeType, strokeColor, fillColor, strokeWidth) =>
      Shape(shapeType, Patch(c.strokeColor, strokeColor), Patch(c.fillColor, fillColor),
            Patch(c.strokeWidth, strokeWidth))
    case Checkbox(checked, labelText) => Checkbox(Patch(c.checked, checked), Patch(c.labelText, labelText))
    case _ => k
  }

  /** The annotation with the changes spread over it; its id and page stay. */
  function PatchAnnotation(a: Annotation, c: AnnotationChanges): Annotation
  {
    Annotation(a.id, a.pageNumber, Patch(c.x, a.x), Patch(c.y, a.y), Patch(c.width, a.width),
               Patch(c.height, a.height), Patch(c.opacity, a.opacity), PatchKind(a.kind, c))
  }

  function PatchWatermark(w: WatermarkConfig, c: WatermarkChanges): WatermarkConfig
  {
    WatermarkConfig(Patch(c.text, w.text), Patch(c.fontSize, w.fontSize), Patch(c.color, w.color),
                    Patch(c.opacity, w.opacity), Patch(c.rotation, w.rotation), Patch(c.enabled, w.enabled))
  }

  function PatchHeaderFooter(h: HeaderFooterConfig, c: HeaderFooterChanges): HeaderFooterConfig
  {
    HeaderFooterConfig(
      Patch(c.headerLeft, h.headerLeft), Patch(c.headerCenter, h.headerCenter),
      Patch(c.headerRight, h.headerRight), Patch(c.footerLeft, h.footerLeft),
      Patch(c.footerCenter, h.footerCenter), Patch(c.footerRight, h.footerRight),
      Patch(c.fontSize, h.fontSize), Patch(c.enabled, h.enabled))
  }

  // ---------------------------------------------------------------------------
  // List operations of the reducer

  /** `annotations.map(a => a.id === id ? { ...a, ...changes } : a)` */
  function UpdateWhere(anns: seq<Annotation>, id: string, c: AnnotationChanges): (r: seq<Annotation>)
    ensures |r| == |anns|
    ensures forall i :: 0 <= i < |anns| ==>
      r[i] == if anns[i].id == id then PatchAnnotation(anns[i], c) else anns[i]
  {
    seq(|anns|, i requires 0 <= i < |anns| =>
      if anns[i].id == id then PatchAnnotation(anns[i], c) else anns[i])
  }

  /** `annotations.filter(a => a.id !== id)` */
  function RemoveId(anns: seq<Annotation>, id: string): (r: seq<Annotation>)
    ensures forall a :: a in r <==> a in anns && a.id != id
  {
    if anns == [] then []
    else (if anns[0].id == id then [] else [anns[0]]) + RemoveId(anns[1..], id)
  }

  /** `annotations.filter(a => !selectedIds.includes(a.id))` */
  function RemoveSelected(anns: seq<Annotation>, selected: seq<string>): (r: seq<Annotation>)
    ensures forall a :: a in r <==> a in anns && a.id !in selected
  {
    if anns == [] then []
    else (if anns[0].id in selected then [] else [anns[0]]) + RemoveSelected(anns[1..], selected)
  }

  /** `annotations.filter(a => selectedIds.includes(a.id))` */
  function KeepSelected(anns: seq<Annotation>, selected: seq<string>): (r: seq<Annotation>)
    ensures forall a :: a in r <==> a in anns && a.id in selected
  {
    if anns == [] then []
    else (if anns[0].id in selected then [anns[0]] else []) + KeepSelected(anns[1..], selected)
  }

  /** `annotations.filter(a => a.pageNumber === page).map(a => a.id)` */
  function IdsOnPage(anns: seq<Annotation>, page: int): (r: seq<string>)
    ensures forall id :: id in r <==> exists a :: a in anns && a.pageNumber == page && a.id == id
  {
    if anns == [] then []
    else
      var rest := IdsOnPage(anns[1..], page);
      assert forall a :: a in anns <==> a == anns[0] || a in anns[1..];
      (if anns[0].pageNumber == page then [anns[0].id] else []) + rest
  }

  function Ids(anns: seq<Annotation>): (r: seq<string>)
    ensures |r| == |anns| && forall i :: 0 <= i < |anns| ==> r[i] == anns[i].id
  {
    seq(|anns|, i requires 0 <= i < |anns| => anns[i].id)
  }

  function Min(a: real, b: real): real { if a <= b then a else b }
  function Max(a: real, b: real): real { if a >= b then a else b }

  /** `Math.min(3, Math.max(0.25, zoom))` */
  function ClampZoom(z: real): (r: real)
    ensures 0.25 <= r <= 3.0
    ensures 0.25 <= z <= 3.0 ==> r == z
  {
    Min(3.0, Max(0.25, z))
  }

  /** The copy of a pasted or duplicated annotation: a fresh id, moved 2%
      right and down but never past 90%, on the given page if one is given. */
  function Copy(a: Annotation, id: string, page: Option<int>): Annotation
  {
    a.(id := id, pageNumber := Patch(page, a.pageNumber), x := Min(a.x + 2.0, 90.0), y := Min(a.y + 2.0, 90.0))
  }

  function Copies(src: seq<Annotation>, newId: nat -> string, page: Option<int>): (r: seq<Annotation>)
    ensures |r| == |src|
    ensures forall i :: 0 <= i < |src| ==> r[i] == Copy(src[i], newId(i), page)
  {
    seq(|src|, i requires 0 <= i < |src| => Copy(src[i], newId(i), page))
  }

  // ---------------------------------------------------------------------------
  // The reducer

  /** editorReducer */
  function Reduce(s: EditorState, action: EditorAction, newId: nat -> string, now: string): EditorState
  {
    match action
    case AddAnnotation(a) =>
      s.(annotations := s.annotations + [a], selectedIds := [a.id],
         activeTool := if s.activeTool == DrawingTool then DrawingTool else Select)
    case UpdateAnnotation(id, changes) =>
      s.(annotations := UpdateWhere(s.annotations, id, changes))
    case DeleteAnnotation(id) =>
      s.(annotations := RemoveId(s.annotations, id), selectedIds := Without(s.selectedIds, id))
    case DeleteSelected =>
      s.(annotations := RemoveSelected(s.annotations, s.selectedIds), selectedIds := [])
    case SelectAnnotation(id) =>
      s.(selectedIds := if id.Some? && id.value != "" then [id.value] else [])
    case ToggleSelectAnnotation(id) =>
      s.(selectedIds := if id in s.selectedIds then Without(s.selectedIds, id) else s.selectedIds + [id])
    case SelectAllOnPage(page) =>
      s.(selectedIds := IdsOnPage(s.annotations, page))
    case SetTool(tool) => s.(activeTool := tool, selectedIds := [])
    case SetPage(page) => s.(currentPage := page)
    case SetZoom(z) => s.(zoom := ClampZoom(z))
    case SetTotalPages(n) => s.(totalPages := n)
    case SetPageDimensions(dims) => s.(pageDimensions := dims)
    case CopySelected => s.(clipboard := KeepSelected(s.annotations, s.selectedIds))
    case PasteClipboard(page) =>
      var pasted := Copies(s.clipboard, newId, Some(page));
      s.(annotations := s.annotations + pasted, selectedIds := Ids(pasted))
    case DuplicateSelected =>
      var dupes := Copies(KeepSelected(s.annotations, s.selectedIds), newId, None);
      s.(annotations := s.annotations + dupes, selectedIds := Ids(dupes))
    case SetWatermark(c) => s.(watermark := PatchWatermark(s.watermark, c))
    case SetHeaderFooter(c) => s.(headerFooter := PatchHeaderFooter(s.headerFooter, c))
    case AddAuditEntry(act, details) =>
      s.(auditLog := s.auditLog + [AuditEntry(act, now, details)])
    case SetSignerInfo(name, email) =>
      s.(signerName := Patch(name, s.signerName), signerEmail := Patch(email, s.signerEmail))
    case RestoreState(snapshot) => snapshot
    case LoadDocument(d) =>
      s.(annotations := d.annotations, watermark := d.watermark, headerFooter := d.headerFooter,
         auditLog := d.auditLog, signerName := d.signerName, signerEmail := d.signerEmail,
         selectedIds := [], activeTool := Select)
    case Other(_) => s
  }

  // ---------------------------------------------------------------------------
  // What each action does, and what it leaves alone

  /** The parts of the state no annotation or selection action touches. */
  predicate SameSettings(s: EditorState, t: EditorState)
  {
    s.currentPage == t.currentPage && s.totalPages == t.totalPages && s.zoom == t.zoom
    && s.pageDimensions == t.pageDimensions && s.watermark == t.watermark
    && s.headerFooter == t.headerFooter && s.auditLog == t.auditLog
    && s.signerName == t.signerName && s.signerEmail == t.signerEmail
  }

  /** A new annotation goes at the end and becomes the only selection; the
      tool falls back to select unless the user is drawing. */
  lemma AddAppends(s: EditorState, a: Annotation, newId: nat -> string, now: string)
    ensures var t := Reduce(s, AddAnnotation(a), newId, now);
      && t.annotations[..|s.annotations|] == s.annotations
      && t.annotations == s.annotations + [a]
      && t.selectedIds == [a.id]
      && (t.activeTool == DrawingTool <==> s.activeTool == DrawingTool)
      && (s.activeTool != DrawingTool ==> t.activeTool == Select)
      && t.clipboard == s.clipboard && SameSettings(s, t)
  {
    var t := Reduce(s, AddAnnotation(a), newId, now);
    assert t.annotations[..|s.annotations|] == s.annotations;
  }

  /** The variant of an annotation survives any patch. */
  lemma PatchKeepsVariant(k: Kind, c: AnnotationChanges)
    ensures PatchKind(k, c).Text? == k.Text? && PatchKind(k, c).Date? == k.Date?
    ensures PatchKind(k, c).Drawing? == k.Drawing? && PatchKind(k, c).Shape? == k.Shape?
    ensures PatchKind(k, c).Checkbox? == k.Checkbox? && PatchKind(k, c).StickyNote? == k.StickyNote?
    ensures PatchKind(k, c).Highlight? == k.Highlight? && PatchKind(k, c).Stamp? == k.Stamp?
    ensures (k.Signature? || k.Initials? || k.Image? || k.Stamp? || k.Whiteout?) ==> PatchKind(k, c) == k
  {
  }

  /** No changes change nothing, and patching twice with the same changes is
      patching once. */
  lemma PatchIdentityAndIdempotent(a: Annotation, c: AnnotationChanges)
    ensures PatchAnnotation(a, NoChanges) == a
    ensures PatchAnnotation(PatchAnnotation(a, c), c) == PatchAnnotation(a, c)
  {
    PatchKindIdentity(a.kind);
    PatchKindIdempotent(a.kind, c);
  }

  lemma PatchKindIdentity(k: Kind)
    ensures PatchKind(k, NoChanges) == k
  {
    match k {
      case Text(_, _, _, _, _, _, _) =>
      case Date(_, _, _, _, _) =>
      case Drawing(_, _, _) =>
      case StickyNote(_, _, _, _) =>
      case Shape(_, _, _, _) =>
      case Checkbox(_, _) =>
      case _ =>
    }
  }

  lemma PatchKindIdempotent(k: Kind, c: AnnotationChanges)
    ensures PatchKind(PatchKind(k, c), c) == PatchKind(k, c)
  {
    match k {
      case Text(_, _, _, _, _, _, _) =>
      case Date(_, _, _, _, _) =>
      case Drawing(_, _, _) =>
      case StickyNote(_, _, _, _) =>
      case Shape(_, _, _, _) =>
      case Checkbox(_, _) =>
      case _ =>
    }
  }

  /** An update keeps the list's length, order, ids and pages; it rewrites
      only the annotations with that id, each field to its given value or its
      old one; everything else in the state stays. */
  lemma UpdateOnlyTarget(s: EditorState, id: string, c: AnnotationChanges, newId: nat -> string, now: string)
    ensures var t := Reduce(s, UpdateAnnotation(id, c), newId, now);
      && |t.annotations| == |s.annotations|
      && (forall i :: 0 <= i < |s.annotations| ==>
            var (a, b) := (s.annotations[i], t.annotations[i]);
            b.id == a.id && b.pageNumber == a.pageNumber
            && (a.id != id ==> b == a)
            && (a.id == id ==>
                  (b.x == Patch(c.x, a.x) && b.y == Patch(c.y, a.y)
                   && b.width == Patch(c.width, a.width) && b.height == Patch(c.height, a.height)
                   && b.opacity == Patch(c.opacity, a.opacity) && b.kind == PatchKind(a.kind, c))))
      && t.selectedIds == s.selectedIds && t.activeTool == s.activeTool && t.clipboard == s.clipboard
      && SameSettings(s, t)
  {
  }

  /** A geometry update leaves the annotation's own fields as they were. */
  lemma GeometryUpdateKeepsKind(a: Annotation, x: real, y: real, w: real, h: real)
    ensures PatchAnnotation(a, GeometryChanges(x, y, w, h)) == a.(x := x, y := y, width := w, height := h)
  {
  }

  /** Deleting an id removes every annotation with that id and only those, in
      order, and removes the id from the selection. */
  lemma {:induction false} RemoveIdSubsequence(anns: seq<Annotation>, id: string)
    ensures IsSubsequence(RemoveId(anns, id), anns)
    ensures |RemoveId(anns, id)| <= |anns|
  {
    if anns != [] {
      RemoveIdSubsequence(anns[1..], id);
      var r := RemoveId(anns, id);
      if anns[0].id != id {
        assert r[1..] == RemoveId(anns[1..], id);
      } else {
        assert r == RemoveId(anns[1..], id);
        assert r != [] ==> r[0] != anns[0] by {
          if r != [] {
            assert r[0] in r;
          }
        }
      }
    }
  }

  lemma DeleteRemovesId(s: EditorState, id: string, newId: nat -> string, now: string)
    ensures var t := Reduce(s, DeleteAnnotation(id), newId, now);
      && (forall a :: a in t.annotations <==> a in s.annotations && a.id != id)
      && IsSubsequence(t.annotations, s.annotations)
      && id !in t.selectedIds
      && (forall x :: x in t.selectedIds <==> x in s.selectedIds && x != id)
      && SameSettings(s, t)
  {
    RemoveIdSubsequence(s.annotations, id);
    WithoutMembers(s.selectedIds, id);
  }

  /** Deleting the same id twice is deleting it once. */
  lemma {:induction false} RemoveIdIdempotent(anns: seq<Annotation>, id: string)
    ensures RemoveId(RemoveId(anns, id), id) == RemoveId(anns, id)
  {
    if anns != [] {
      RemoveIdIdempotent(anns[1..], id);
      var rest := RemoveId(anns[1..], id);
      if anns[0].id != id {
        assert RemoveId(anns, id) == [anns[0]] + rest;
        assert ([anns[0]] + rest)[1..] == rest;
      } else {
        assert RemoveId(anns, id) == rest;
      }
    }
  }

  /** After deleting the selection no selected annotation is left and nothing
      is selected. */
  lemma DeleteSelectedClears(s: EditorState, newId: nat -> string, now: string)
    ensures var t := Reduce(s, DeleteSelected, newId, now);
      && (forall a :: a in t.annotations ==> a.id !in s.selectedIds)
      && (forall a :: a in s.annotations && a.id !in s.selectedIds ==> a in t.annotations)
      && t.selectedIds == []
      && SameSettings(s, t)
  {
  }

  /** A truthy id becomes the only selection; null or "" clears it. */
  lemma SelectSpec(s: EditorState, id: Option<string>, newId: nat -> string, now: string)
    ensures var t := Reduce(s, SelectAnnotation(id), newId, now);
      && (id.None? || id == Some("") ==> t.selectedIds == [])
      && (id.Some? && id.value != "" ==> t.selectedIds == [id.value])
      && t.annotations == s.annotations
  {
  }

  /** Toggling flips whether the id is selected and leaves every other id as
      it was. */
  lemma ToggleFlips(s: EditorState, id: string, newId: nat -> string, now: string)
    ensures var t := Reduce(s, ToggleSelectAnnotation(id), newId, now);
      && (id in t.selectedIds <==> id !in s.selectedIds)
      && (forall x :: x != id ==> (x in t.selectedIds <==> x in s.selectedIds))
      && t.annotations == s.annotations
  {
    WithoutMembers(s.selectedIds, id);
  }

  /** Toggling twice restores the selection when the id was not selected. */
  lemma ToggleTwiceFromUnselected(s: EditorState, id: string, newId: nat -> string, now: string)
    requires id !in s.selectedIds
    ensures Reduce(Reduce(s, ToggleSelectAnnotation(id), newId, now), ToggleSelectAnnotation(id), newId, now) == s
  {
    var t := Reduce(s, ToggleSelectAnnotation(id), newId, now);
    assert t == s.(selectedIds := s.selectedIds + [id]);
    assert id in t.selectedIds;
    var u := Reduce(t, ToggleSelectAnnotation(id), newId, now);
    assert u == t.(selectedIds := Without(t.selectedIds, id));
    WithoutLast(s.selectedIds, id);
  }

  /** Select-all-on-page selects exactly the ids of that page's annotations. */
  lemma SelectAllOnPageSpec(s: EditorState, page: int, newId: nat -> string, now: string)
    ensures var t := Reduce(s, SelectAllOnPage(page), newId, now);
      forall id :: id in t.selectedIds <==> exists a :: a in s.annotations && a.pageNumber == page && a.id == id
  {
  }

  /** Choosing a tool clears the selection. */
  lemma SetToolClearsSelection(s: EditorState, tool: Tool, newId: nat -> string, now: string)
    ensures var t := Reduce(s, SetTool(tool), newId, now);
      t.activeTool == tool && t.selectedIds == [] && t.annotations == s.annotations && SameSettings(s, t)
  {
  }

  /** The zoom is always within [0.25, 3], equal to the request when that is
      in range, and clamping twice is clamping once. */
  lemma ZoomClamped(s: EditorState, z: real, newId: nat -> string, now: string)
    ensures var t := Reduce(s, SetZoom(z), newId, now);
      && 0.25 <= t.zoom <= 3.0
      && (0.25 <= z <= 3.0 ==> t.zoom == z)
      && (z < 0.25 ==> t.zoom == 0.25) && (z > 3.0 ==> t.zoom == 3.0)
      && Reduce(t, SetZoom(z), newId, now) == t
  {
  }

  /** The page, page-count and page-size setters each replace their one
      field and leave the annotations and the selection alone. */
  lemma ViewSetters(s: EditorState, page: int, total: int, dims: seq<PageDimensions>,
                    newId: nat -> string, now: string)
    ensures Reduce(s, SetPage(page), newId, now) == s.(currentPage := page)
    ensures Reduce(s, SetTotalPages(total), newId, now) == s.(totalPages := total)
    ensures Reduce(s, SetPageDimensions(dims), newId, now) == s.(pageDimensions := dims)
  {
  }

  /** Copy puts exactly the selected annotations, in list order, into the
      clipboard. */
  lemma CopySelectedSpec(s: EditorState, newId: nat -> string, now: string)
    ensures var t := Reduce(s, CopySelected, newId, now);
      && t.clipboard == KeepSelected(s.annotations, s.selectedIds)
      && IsSubsequence(t.clipboard, s.annotations)
      && (forall a :: a in t.clipboard <==> a in s.annotations && a.id in s.selectedIds)
      && t.annotations == s.annotations && t.selectedIds == s.selectedIds
  {
    KeepSelectedInOrder(s.annotations, s.selectedIds);
  }

  /** The filter keeps the selected annotations in their list order. */
  lemma {:induction false} KeepSelectedInOrder(anns: seq<Annotation>, selected: seq<string>)
    ensures IsSubsequence(KeepSelected(anns, selected), anns)
  {
    if anns != [] {
      KeepSelectedInOrder(anns[1..], selected);
      var k := KeepSelected(anns, selected);
      if anns[0].id in selected {
        assert k == [anns[0]] + KeepSelected(anns[1..], selected);
        assert k[1..] == KeepSelected(anns[1..], selected);
      } else {
        assert k == KeepSelected(anns[1..], selected);
        // every kept annotation is selected, so the head of k is not anns[0]
        assert k != [] ==> k[0] in k && k[0] != anns[0];
      }
    }
  }

  /** A copy differs from its original only in id, page and position, and its
      position is the original's moved by 2 but capped at 90. */
  lemma CopyMoves(a: Annotation, id: string, page: Option<int>)
    ensures var c := Copy(a, id, page);
      && c.id == id && c.kind == a.kind && c.width == a.width && c.height == a.height
      && c.opacity == a.opacity
      && c.x <= 90.0 && c.y <= 90.0
      && (a.x <= 88.0 ==> c.x == a.x + 2.0) && (a.y <= 88.0 ==> c.y == a.y + 2.0)
      && (page.Some? ==> c.pageNumber == page.value) && (page.None? ==> c.pageNumber == a.pageNumber)
  {
  }

  /** Paste appends one copy per clipboard entry on the target page, keeps the
      existing annotations, and selects exactly the new ids. */
  lemma PasteSpec(s: EditorState, page: int, newId: nat -> string, now: string)
    ensures var t := Reduce(s, PasteClipboard(page), newId, now);
      var n := |s.annotations|;
      && |t.annotations| == n + |s.clipboard|
      && t.annotations[..n] == s.annotations
      && (forall i :: 0 <= i < |s.clipboard| ==>
            t.annotations[n + i] == Copy(s.clipboard[i], newId(i), Some(page))
            && t.annotations[n + i].pageNumber == page)
      && |t.selectedIds| == |s.clipboard|
      && (forall i :: 0 <= i < |s.clipboard| ==> t.selectedIds[i] == newId(i))
      && t.clipboard == s.clipboard && SameSettings(s, t)
  {
    var t := Reduce(s, PasteClipboard(page), newId, now);
    assert t.annotations[..|s.annotations|] == s.annotations;
  }

  /** Duplicate appends one copy of each selected annotation on its own page,
      in list order, and selects exactly the copies. */
  lemma DuplicateSpec(s: EditorState, newId: nat -> string, now: string)
    ensures var t := Reduce(s, DuplicateSelected, newId, now);
      var n, src := |s.annotations|, KeepSelected(s.annotations, s.selectedIds);
      && |t.annotations| == n + |src|
      && t.annotations[..n] == s.annotations
      && (forall i :: 0 <= i < |src| ==>
            t.annotations[n + i] == Copy(src[i], newId(i), None)
            && t.annotations[n + i].pageNumber == src[i].pageNumber)
      && |t.selectedIds| == |src|
      && (forall i :: 0 <= i < |src| ==> t.selectedIds[i] == newId(i))
      && t.clipboard == s.clipboard && SameSettings(s, t)
  {
    var t := Reduce(s, DuplicateSelected, newId, now);
    assert t.annotations[..|s.annotations|] == s.annotations;
  }

  /** A watermark or header/footer patch overwrites only the given fields;
      the same patch twice is the patch once. */
  lemma WatermarkPatch(w: WatermarkConfig, c: WatermarkChanges)
    ensures var p := PatchWatermark(w, c);
      && (c.text.Some? ==> p.text == c.text.value) && (c.text.None? ==> p.text == w.text)
      && (c.enabled.Some? ==> p.enabled == c.enabled.value) && (c.enabled.None? ==> p.enabled == w.enabled)
      && (c.opacity.None? ==> p.opacity == w.opacity) && (c.rotation.None? ==> p.rotation == w.rotation)
      && (c.fontSize.None? ==> p.fontSize == w.fontSize) && (c.color.None? ==> p.color == w.color)
      && PatchWatermark(p, c) == p
      && PatchWatermark(w, WatermarkChanges(None, None, None, None, None, None)) == w
  {
  }

  lemma HeaderFooterPatch(h: HeaderFooterConfig, c: HeaderFooterChanges)
    ensures var p := PatchHeaderFooter(h, c);
      && (c.enabled.Some? ==> p.enabled == c.enabled.value) && (c.enabled.None? ==> p.enabled == h.enabled)
      && (c.footerCenter.Some? ==> p.footerCenter == c.footerCenter.value)
      && (c.footerCenter.None? ==> p.footerCenter == h.footerCenter)
      && (c.headerLeft.None? ==> p.headerLeft == h.headerLeft)
      && (c.fontSize.None? ==> p.fontSize == h.fontSize)
      && PatchHeaderFooter(p, c) == p
      && PatchHeaderFooter(h, HeaderFooterChanges(None, None, None, None, None, None, None, None)) == h
  {
  }

  /** An audit entry goes at the end, stamped with the current time; every
      earlier entry stays where it was. */
  lemma AuditAppends(s: EditorState, act: string, details: string, newId: nat -> string, now: string)
    ensures var t := Reduce(s, AddAuditEntry(act, details), newId, now);
      && |t.auditLog| == |s.auditLog| + 1
      && t.auditLog[..|s.auditLog|] == s.auditLog
      && t.auditLog[|s.auditLog|] == AuditEntry(act, now, details)
      && t.annotations == s.annotations && t.selectedIds == s.selectedIds
  {
    var t := Reduce(s, AddAuditEntry(act, details), newId, now);
    assert t.auditLog[..|s.auditLog|] == s.auditLog;
  }

  /** An absent name or email keeps the old value; a given one, even "",
      replaces it. */
  lemma SignerInfoKeepsAbsent(s: EditorState, name: Option<string>, email: Option<string>,
                              newId: nat -> string, now: string)
    ensures var t := Reduce(s, SetSignerInfo(name, email), newId, now);
      && (name.None? ==> t.signerName == s.signerName) && (name.Some? ==> t.signerName == name.value)
      && (email.None? ==> t.signerEmail == s.signerEmail) && (email.Some? ==> t.signerEmail == email.value)
      && t.auditLog == s.auditLog && t.annotations == s.annotations
  {
  }

  /** Loading a document replaces its parts, clears the selection and picks
      the select tool, but keeps the view (page, zoom, sizes, clipboard). */
  lemma LoadDocumentSpec(s: EditorState, d: LoadedDocument, newId: nat -> string, now: string)
    ensures var t := Reduce(s, LoadDocument(d), newId, now);
      && t.annotations == d.annotations && t.auditLog == d.auditLog && t.watermark == d.watermark
      && t.headerFooter == d.headerFooter && t.signerName == d.signerName && t.signerEmail == d.signerEmail
      && t.selectedIds == [] && t.activeTool == Select
      && t.currentPage == s.currentPage && t.zoom == s.zoom && t.totalPages == s.totalPages
      && t.pageDimensions == s.pageDimensions && t.clipboard == s.clipboard
  {
  }

  /** An action of no known type changes nothing; a restore yields the
      snapshot whatever the state was. */
  lemma UnknownAndRestore(s: EditorState, snapshot: EditorState, other: string, newId: nat -> string, now: string)
    ensures Reduce(s, Other(other), newId, now) == s
    ensures Reduce(s, RestoreState(snapshot), newId, now) == snapshot
  {
  }

  /** The clock and the id source matter only to the actions that use them. */
  lemma FreshValuesOnlyWhereUsed(s: EditorState, action: EditorAction, f1: nat -> string, f2: nat -> string,
                                 n1: string, n2: string)
    requires !action.PasteClipboard? && !action.DuplicateSelected? && !action.AddAuditEntry?
    ensures Reduce(s, action, f1, n1) == Reduce(s, action, f2, n2)
  {
  }
}
