# freepdf, modelled in Dafny

freepdf is a browser PDF editor. The user opens a PDF and places annotations
on its pages: text, dates, signatures, images, highlights, stamps, shapes,
freehand drawings, checkboxes, white-out boxes and sticky notes. The user can
also set a watermark and headers and footers. Editing goes through a single
reducer, with an undo history around it. Export flattens everything into the
PDF. A digital signing step works like this:
- it generates a throw-away self-signed certificate;
- it hashes the exported bytes;
- it records the signature in the audit log;
- it exports a second time, appending a "Certificate of Completion" page.

The dashboard keeps documents in browser storage. Small dialogs merge files,
split ranges, reorder and rotate pages, and keep a short list of recent
signatures.

This project models that core one module per source file:

| module | source |
|---|---|
| `Common` | string, number and sequence helpers (`String()`, `padStart`, `replace`, `trim`, `filter`) |
| `Types` | `src/types/index.ts`: annotations, editor state, actions |
| `EditorReducer` | `src/state/editorReducer.ts` |
| `UseHistory` | `src/hooks/useHistory.ts` |
| `CoordinateMapper` | `src/lib/coordinateMapper.ts` |
| `PdfExporter` | `src/lib/pdfExporter.ts` |
| `PdfMerger` | `src/lib/pdfMerger.ts` |
| `DigitalSignature` | `src/lib/digitalSignature.ts` |
| `DownloadPdf` | `src/lib/downloadPdf.ts` |
| `DocumentStore` | `src/lib/documentStore.ts` |
| `BottomBar` | `src/components/panels/BottomBar.tsx`: download and digital signing |
| `KeyboardShortcuts` | `src/hooks/useKeyboardShortcuts.ts` |
| `ResizeHandles` | `src/components/annotations/ResizeHandles.tsx` |
| `AnnotationItem` | `src/components/annotations/AnnotationItem.tsx` |
| `PdfPageWrapper` | `src/components/pdf/PDFPageWrapper.tsx`: click placement, freehand strokes, `formatDate` |
| `SignatureModal` | `src/components/modals/SignatureModal.tsx`: recent-signature list |
| `PageManagerModal` | `src/components/modals/PageManagerModal.tsx` |
| `MergePdfModal` | `src/components/modals/MergePdfModal.tsx` |
| `DashboardScreen` | `src/components/screens/DashboardScreen.tsx`: upload checks, rename, relative time |

Pure code is written as datatypes, functions and lemmas. This covers the
reducer, the coordinate mapping, the colour parsing, the key dispatch, the
date formatting and the fingerprint formatting.

Code that updates state in place is written as classes with `modifies`
clauses. This covers the history refs, the document store, the signature
list, the modal lists, the drag and stroke captures, and pdf-lib's documents.
Each method's `ensures` ties the new state to a pure specification function
of the old state. The lemmas then prove what the source promises about that
function.

The exporter's drawing calls are modelled as a list of drawing operations,
one list per page. Its loops are methods proved equal to the specification
functions `PageOps` and `AuditPageOps`.

Outside effects are parameters of the model:
- pdf-lib parsing, saving and embedding;
- font metrics;
- SHA-256, RSA, DER and PEM;
- `crypto.randomUUID`, `Date` and locale formatting.

Floating-point numbers are modelled as `real`.

Two places where the model follows the code rather than its evident intent:
- The certificate's validity takes two separate clock readings, so "exactly
  one year" holds only when both readings agree (`OneYearValidity`).
- The bottom bar downloads a signed document under a name with two
  suffixes, `AsWrittenSignedDownloadName` (see Findings).

## Model

| member | source | states |
|---|---|---|
| Common.NatToString | src/components/pdf/PDFPageWrapper.tsx:274-276 | `String(n)` of a natural number: at least one character, all decimal digits, no leading zero, one character exactly when n < 10 |
| Common.ParseNatToString | src/components/pdf/PDFPageWrapper.tsx:274-276 | reading the digits of `String(n)` back gives n |
| Common.NatToStringInjective | src/components/pdf/PDFPageWrapper.tsx:274-276 | two numbers that print the same are equal |
| Common.PadStart2 | src/components/pdf/PDFPageWrapper.tsx:274-275 | `padStart(2, '0')`: a string of two or more characters is untouched; a shorter one becomes two characters ending in it |
| Common.ReplaceFirstSplit | src/lib/pdfExporter.ts:126 | `replace` with a string pattern changes only the first occurrence: when no occurrence starts before `pre`, the result is pre + replacement + post |
| Common.ReplaceFirstAbsent | src/lib/pdfExporter.ts:126 | a pattern that occurs nowhere leaves the string unchanged |
| Common.TrimEmptyIff | src/components/screens/DashboardScreen.tsx:90 | `trim()` gives "" exactly when every character is white space, in the full ECMAScript set of white space and line terminators |
| Common.TrimUnicodeSpaces | src/components/screens/DashboardScreen.tsx:90 | a name of only ideographic, en and Ogham spaces trims to "" |
| Common.TrimUnicodeEnds | src/components/screens/DashboardScreen.tsx:90 | narrow no-break and medium mathematical spaces at both ends are trimmed off |
| Common.WithoutIsSubsequence | src/components/modals/PageManagerModal.tsx:44 | filtering a value out keeps the other elements in their order |
| Common.WithoutNoDuplicates | src/components/modals/PageManagerModal.tsx:44 | filtering keeps a duplicate-free list duplicate-free |
| Common.SwappedPermutes | src/components/modals/MergePdfModal.tsx:29-31 | swapping two rows is a permutation, is its own inverse, is symmetric in the two indices, and keeps a list duplicate-free |
| EditorReducer.Patch | src/state/editorReducer.ts:45-51 | one field of `{ ...a, ...changes }`: the given value when present, the old one otherwise |
| EditorReducer.UpdateWhere | src/state/editorReducer.ts:45-51 | same length; each annotation with the id is patched, every other one is unchanged |
| EditorReducer.RemoveId | src/state/editorReducer.ts:53-58 | an annotation survives exactly when it was there and its id differs |
| EditorReducer.RemoveSelected | src/state/editorReducer.ts:60-65 | an annotation survives exactly when it was there and is not selected |
| EditorReducer.KeepSelected | src/state/editorReducer.ts:104-107 | an annotation is kept exactly when it was there and is selected |
| EditorReducer.IdsOnPage | src/state/editorReducer.ts:81-87 | an id is listed exactly when some annotation on that page has it |
| EditorReducer.Ids | src/state/editorReducer.ts:81-87 | one id per annotation, position by position |
| EditorReducer.ClampZoom | src/state/editorReducer.ts:95-96 | the zoom lies in [0.25, 3], and a zoom already in range is kept |
| EditorReducer.Copies | src/state/editorReducer.ts:109-138 | one copy per original, in order; copy i has id newId(i) and is the original moved 2 right and down, capped at 90 |
| EditorReducer.AddAppends | src/state/editorReducer.ts:37-43 | the annotation is appended after the old list, becomes the only selection, the drawing tool stays and any other tool becomes Select, and the settings are untouched |
| EditorReducer.PatchKeepsVariant | src/state/editorReducer.ts:45-51 | an update never changes which variant an annotation's kind is; signature, initials, image, stamp and white-out contents never change |
| EditorReducer.PatchIdentityAndIdempotent | src/state/editorReducer.ts:45-51 | an empty update changes nothing, and the same update applied twice equals it applied once |
| EditorReducer.UpdateOnlyTarget | src/state/editorReducer.ts:45-51 | UPDATE keeps length, ids and pages, leaves other annotations equal, patches the target's fields, and keeps selection, tool and clipboard |
| EditorReducer.GeometryUpdateKeepsKind | src/state/editorReducer.ts:45-51 | a position/size update changes exactly x, y, width and height |
| EditorReducer.RemoveIdSubsequence | src/state/editorReducer.ts:53-58 | deletion keeps the remaining annotations in order and never lengthens the list |
| EditorReducer.DeleteRemovesId | src/state/editorReducer.ts:53-58 | DELETE removes exactly that id from the annotations and from the selection |
| EditorReducer.RemoveIdIdempotent | src/state/editorReducer.ts:53-58 | deleting the same id twice equals deleting it once |
| EditorReducer.DeleteSelectedClears | src/state/editorReducer.ts:60-65 | DELETE_SELECTED leaves no selected annotation, keeps every unselected one, and empties the selection |
| EditorReducer.SelectSpec | src/state/editorReducer.ts:67-68 | SELECT with null or "" clears the selection; any other id becomes the only selection |
| EditorReducer.ToggleFlips | src/state/editorReducer.ts:70-79 | TOGGLE_SELECT flips exactly that id's membership and keeps every other id's |
| EditorReducer.ToggleTwiceFromUnselected | src/state/editorReducer.ts:70-79 | toggling an unselected id twice gives back the same state |
| EditorReducer.SelectAllOnPageSpec | src/state/editorReducer.ts:81-87 | SELECT_ALL selects exactly the ids of that page's annotations |
| EditorReducer.SetToolClearsSelection | src/state/editorReducer.ts:89-90 | SET_TOOL sets the tool, clears the selection and touches nothing else |
| EditorReducer.ZoomClamped | src/state/editorReducer.ts:95-96 | SET_ZOOM keeps an in-range zoom, maps below 0.25 to 0.25 and above 3 to 3, and repeating it changes nothing |
| EditorReducer.ViewSetters | src/state/editorReducer.ts:92-102 | the page, page-count and page-size setters each change their own field only |
| EditorReducer.CopySelectedSpec | src/state/editorReducer.ts:104-107 | COPY puts exactly the selected annotations on the clipboard, in list order (`KeepSelected`, a subsequence of the annotations), and keeps annotations and selection |
| EditorReducer.KeepSelectedInOrder | src/state/editorReducer.ts:104-107 | the clipboard filter keeps the selected annotations in their list order |
| EditorReducer.CopyMoves | src/state/editorReducer.ts:109-138 | a copy keeps kind, size and opacity, takes the new id, moves 2 when there is room, and goes to the given page or stays on its own |
| EditorReducer.PasteSpec | src/state/editorReducer.ts:109-122 | PASTE appends copy i of clipboard entry i on the target page after the old list, selects exactly the new ids, and keeps clipboard and settings |
| EditorReducer.DuplicateSpec | src/state/editorReducer.ts:124-138 | DUPLICATE appends a copy of each selected annotation on its own page, selects exactly the new ids, and keeps clipboard and settings |
| EditorReducer.WatermarkPatch | src/state/editorReducer.ts:140-141 | SET_WATERMARK takes the given text and enabled flag and keeps every absent field; applying it twice equals once, and an empty patch is the identity |
| EditorReducer.HeaderFooterPatch | src/state/editorReducer.ts:143-144 | SET_HEADER_FOOTER takes the given enabled flag and footer centre and keeps absent fields; applying it twice equals once, and an empty patch is the identity |
| EditorReducer.AuditAppends | src/state/editorReducer.ts:146-157 | ADD_AUDIT appends exactly one entry with the action, the current time and the details, and leaves annotations and selection alone |
| EditorReducer.SignerInfoKeepsAbsent | src/state/editorReducer.ts:159-164 | SET_SIGNER_INFO replaces the name or email that is given (even "") and keeps what is absent |
| EditorReducer.LoadDocumentSpec | src/state/editorReducer.ts:169-180 | LOAD_DOCUMENT replaces the document content, clears the selection, picks Select, and keeps page, zoom, page count, page sizes and clipboard |
| EditorReducer.UnknownAndRestore | src/state/editorReducer.ts:166-183 | an unknown action changes nothing; RESTORE_STATE gives exactly the snapshot |
| EditorReducer.FreshValuesOnlyWhereUsed | src/state/editorReducer.ts:37-183 | every action other than PASTE, DUPLICATE and ADD_AUDIT gives the same result whatever ids and clock it is given |
| UseHistory.TakeLast | src/hooks/useHistory.ts:36 | `slice(-n)`: the last min(n, length) elements, as a suffix of the list |
| UseHistory.History.constructor | src/hooks/useHistory.ts:22-29 | the initial editor state, empty stacks and no batch |
| UseHistory.History.RenderNow | src/hooks/useHistory.ts:24-25 | the new history equals `Render` of the old one: the last render shows the current state |
| UseHistory.History.DispatchAction | src/hooks/useHistory.ts:31-41 | the new history equals `Dispatch` of the old one |
| UseHistory.History.BeginBatch | src/hooks/useHistory.ts:43-46 | the new history equals `StartBatch` of the old one |
| UseHistory.History.FinishBatch | src/hooks/useHistory.ts:48-55 | the new history equals `EndBatch` of the old one |
| UseHistory.History.UndoStep | src/hooks/useHistory.ts:57-63 | the new history equals `Undo` of the old one |
| UseHistory.History.RedoStep | src/hooks/useHistory.ts:65-71 | the new history equals `Redo` of the old one |
| UseHistory.PushPastKeepsRecent | src/hooks/useHistory.ts:36-37 | a push leaves at most 50 snapshots, the pushed one last, the others a suffix of the old past; below the cap nothing is dropped |
| UseHistory.NonHistoryKeepsStacks | src/hooks/useHistory.ts:7-20 | an action in the non-history list leaves past, future and batch alone |
| UseHistory.HistoryActionPushes | src/hooks/useHistory.ts:34-38 | any other action outside a batch pushes the rendered state, clears the future and reduces the state |
| UseHistory.BatchPushesOnce | src/hooks/useHistory.ts:43-55 | inside a batch nothing is pushed; ending it pushes the state from the batch's start once and clears the future |
| UseHistory.EndBatchWithoutBatch | src/hooks/useHistory.ts:48-55 | ending a batch that is not running only resets the flags |
| UseHistory.UndoRedoEmpty | src/hooks/useHistory.ts:57-71 | undo with an empty past, and redo with an empty future, change nothing |
| UseHistory.CanUndoRedoMeans | src/hooks/useHistory.ts:73-74 | canUndo and canRedo hold exactly when undo and redo would change something |
| UseHistory.UndoRestores | src/hooks/useHistory.ts:57-63 | undo restores the last pushed state and moves the rendered one onto the future |
| UseHistory.UndoThenRedo | src/hooks/useHistory.ts:57-71 | with renders between them, undo followed by redo gives back the same history |
| UseHistory.BoundedPreserved | src/hooks/useHistory.ts:5-71 | every operation keeps past and future together at no more than 50 snapshots |
| UseHistory.InitialBounded | src/hooks/useHistory.ts:22-29 | the initial history is within the bound, settled, and cannot undo |
| UseHistory.PlaceSignatureRecordsOnce | src/components/panels/ToolsPanel.tsx:42-56 | placing a signature (ADD then ADD_AUDIT from one handler) pushes one snapshot, from before both, and the state gains the annotation and the audit entry |
| UseHistory.UndoDropsAuditEntry | src/components/panels/ToolsPanel.tsx:42-56 | one undo after placing a signature restores the state from before, so the audit log loses the entry, and the placed state is on top of the redo stack |
| CoordinateMapper.Round2 | src/lib/coordinateMapper.ts:15 | rounding to hundredths lands in (n − 0.005, n + 0.005] |
| CoordinateMapper.Round2Monotone | src/lib/coordinateMapper.ts:15 | rounding to hundredths is monotone |
| CoordinateMapper.Round2Hundredths | src/lib/coordinateMapper.ts:15 | a whole number of hundredths is kept |
| CoordinateMapper.PercentToPdfPoints | src/lib/coordinateMapper.ts:7-23 | each coordinate is within 0.005 of the exact top-left-percent to bottom-left-points transform |
| CoordinateMapper.TopEdge | src/lib/coordinateMapper.ts:18 | the exact y + height is H − yPct% of H, and after rounding it is within 0.01 of that |
| CoordinateMapper.NoClamping | src/lib/coordinateMapper.ts:7-23 | a box right of the page maps to an x past the page width: nothing is clamped |
| CoordinateMapper.XMonotone | src/lib/coordinateMapper.ts:16 | x never falls as the left percentage grows |
| CoordinateMapper.YAntitone | src/lib/coordinateMapper.ts:18 | y never grows as the top percentage grows (the axis is flipped) |
| CoordinateMapper.RoundTrip | src/lib/coordinateMapper.ts:7-23 | mapping to points and back recovers x and width within 0.5 / page width, y within 1 / page height, and height within 0.5 / page height |
| CoordinateMapper.RoundTripX | src/lib/coordinateMapper.ts:16 | the left percentage is recovered within 0.5 / width |
| CoordinateMapper.RoundTripY | src/lib/coordinateMapper.ts:18 | the top percentage is recovered within 1 / height |
| CoordinateMapper.RoundTripWidth | src/lib/coordinateMapper.ts:19 | the width percentage is recovered within 0.5 / width |
| CoordinateMapper.RoundTripHeight | src/lib/coordinateMapper.ts:20 | the height percentage is recovered within 0.5 / height |
| CoordinateMapper.PercentBack | src/lib/coordinateMapper.ts:19-20 | a length within tol of pct% of d reads back as pct within 100 × tol / d |
| PdfExporter.HexToRgb | src/lib/pdfExporter.ts:5-9 | a string that is not a hex colour gives black; every channel lies in [0, 1] |
| PdfExporter.HexColorShape | src/lib/pdfExporter.ts:5-9 | a hex colour is exactly six hex digits, or '#' and six hex digits |
| PdfExporter.HexToRgbIgnoresCase | src/lib/pdfExporter.ts:5-9 | lower-casing the string gives the same colour |
| PdfExporter.HexToRgbOfBytes | src/lib/pdfExporter.ts:5-9 | "#" and three bytes in hex read back as those bytes over 255 |
| PdfExporter.TextFont | src/lib/pdfExporter.ts:11-34 | the font is of the annotation's family (cursive falls back to Helvetica), bold exactly when bold is set, slanted exactly when italic is set |
| PdfExporter.DateFont | src/lib/pdfExporter.ts:163 | a date is in its family's regular face, neither bold nor slanted |
| PdfExporter.StampLabel | src/lib/pdfExporter.ts:36-42 | every stamp type has a non-empty label |
| PdfExporter.StrokeOps | src/lib/pdfExporter.ts:246-253 | a stroke of n > 0 points draws n − 1 segments, an empty one none |
| PdfExporter.EntriesThatFit | src/lib/pdfExporter.ts:311-314 | never more entries than the log holds |
| PdfExporter.GroupByPage | src/lib/pdfExporter.ts:95-100 | the map holds exactly the pages that have annotations, each with its annotations in list order |
| PdfExporter.DrawStrokes | src/lib/pdfExporter.ts:242-254 | the stroke loop draws exactly `DrawingOps`: each stroke's segments, strokes in order |
| PdfExporter.DrawStroke | src/lib/pdfExporter.ts:246-253 | the loop over one stroke draws exactly `StrokeOps` |
| PdfExporter.DrawAnnotation | src/lib/pdfExporter.ts:154-273 | one annotation's drawing equals `AnnotationOps` |
| PdfExporter.DrawAuditPage | src/lib/pdfExporter.ts:278-320 | the certificate page drawn by moving yPos down equals `AuditPageOps` |
| PdfExporter.DrawAuditHeader | src/lib/pdfExporter.ts:282-310 | the header equals `AuditHeaderOps`, and the trail starts at y = 534 |
| PdfExporter.DrawAuditTrail | src/lib/pdfExporter.ts:311-314 | the trail loop draws `AuditEntryOps` and stops 15 points below the last entry that fits |
| PdfExporter.DrawPage | src/lib/pdfExporter.ts:104-274 | one page's loop body equals `PageOps` |
| PdfExporter.DrawAnnotations | src/lib/pdfExporter.ts:150-274 | the annotation loop draws each annotation's operations in list order |
| PdfExporter.ExportPlan | src/lib/pdfExporter.ts:80-323 | one operation list per original page equal to `PageOps`; an audit page exactly when signing info is given, equal to `AuditPageOps` |
| PdfExporter.ExportSignedPdf | src/lib/pdfExporter.ts:80-323 | the page loop and the audit page give exactly `ExportPlan` |
| PdfExporter.OnPageMembers | src/lib/pdfExporter.ts:95-100 | a page's list holds an annotation exactly when it is in the input and has that page number |
| PdfExporter.OffPageIgnored | src/lib/pdfExporter.ts:95-105 | adding an annotation whose page number names no page changes no page's drawing |
| PdfExporter.WatermarkCentred | src/lib/pdfExporter.ts:108-120 | an enabled watermark with text is one bold text, centred horizontally at half the page height, with its opacity and rotation; otherwise nothing |
| PdfExporter.WatermarkFirst | src/lib/pdfExporter.ts:108-274 | the watermark opens the page's operations and the annotations close them |
| PdfExporter.HeaderFooterCount | src/lib/pdfExporter.ts:123-148 | off, nothing is drawn; on, one text per non-empty slot |
| PdfExporter.HeaderFooterPlacement | src/lib/pdfExporter.ts:125-147 | every header/footer operation is a grey Helvetica text at the set size, at y = page height − 36 (headers) or y = 36 − size (footers) |
| PdfExporter.SlotPlacement | src/lib/pdfExporter.ts:129-147 | a slot's text has the header/footer style at the given line |
| PdfExporter.DefaultFooterExample | src/lib/pdfExporter.ts:126 | "Page {page} of {total}" on the fourth of ten pages reads "Page 4 of 10" |
| PdfExporter.DrawingOpsCount | src/lib/pdfExporter.ts:242-254 | a drawing makes as many operations as its strokes have segments |
| PdfExporter.AnnotationOpCount | src/lib/pdfExporter.ts:154-273 | each kind makes its number of drawing calls: images only when they embed, 3 for a stamp and an arrow, a checkbox 1 plus 2 when checked plus 1 for a label |
| PdfExporter.HighlightTranslucent | src/lib/pdfExporter.ts:176-181 | a highlight is one borderless rectangle in its colour at 0.35 × its opacity |
| PdfExporter.AuditEntryLayout | src/lib/pdfExporter.ts:311-314 | line k is entry k at y − 15k, no line is below 60, and the trail stops early only when the next line would be |
| PdfExporter.AuditTrailCapacity | src/lib/pdfExporter.ts:311-314 | min(length, 32) entries fit below the header |
| PdfExporter.AuditPageShape | src/lib/pdfExporter.ts:278-320 | the certificate page has the 12 header operations first, then the entries that fit, then 3 footer operations, the last naming the document id |
| PdfMerger.PdfDocument.Create | src/lib/pdfMerger.ts:4 | a new document has no pages |
| PdfMerger.PdfDocument.Load | src/lib/pdfMerger.ts:7 | a loaded document holds the source's pages |
| PdfMerger.PdfDocument.AddPage | src/lib/pdfMerger.ts:9 | the page goes at the end |
| PdfMerger.PdfDocument.GetPage | src/lib/pdfMerger.ts:51 | succeeds exactly for an index in range, with that page |
| PdfMerger.PdfDocument.SetRotation | src/lib/pdfMerger.ts:53 | only that page's angle changes; the rotation object is taken to be accepted as degrees (see Left out) |
| PdfMerger.PdfDocument.InsertPage | src/lib/pdfMerger.ts:61 | succeeds exactly for 0 ≤ index ≤ page count, inserting a blank unrotated page there; on failure nothing changes |
| PdfMerger.Pick | src/lib/pdfMerger.ts:23-24 | the pages at the given indices, in the given order |
| PdfMerger.RangeIndices | src/lib/pdfMerger.ts:22 | start, start + 1, …, end; empty when end < start |
| PdfMerger.KeepIndicesSpec | src/lib/pdfMerger.ts:41-42 | the kept indices ascend strictly, are in range, and are exactly those not listed for deletion |
| PdfMerger.MergePdfs | src/lib/pdfMerger.ts:3-14 | the merged document is every file's pages, files in order |
| PdfMerger.CopyInto | src/lib/pdfMerger.ts:21-24 | succeeds exactly when every index is in range, giving `Pick` of them |
| PdfMerger.SplitPdf | src/lib/pdfMerger.ts:16-29 | succeeds exactly when every 0-based inclusive range is inside the document; result k holds range k's pages |
| PdfMerger.ExtractPages | src/lib/pdfMerger.ts:31-37 | succeeds exactly when every index is in range; result j is page index j |
| PdfMerger.DeletePages | src/lib/pdfMerger.ts:39-47 | the result is the pages whose index is not listed, in their order |
| PdfMerger.AngleRem | src/lib/pdfMerger.ts:53 | JavaScript's `% 360`: in [0, 360) for a non-negative angle, in (−360, 0] for a negative one, identity inside (−360, 360) |
| PdfMerger.RotatePage | src/lib/pdfMerger.ts:49-55 | succeeds exactly for an index in range; that page's angle becomes (angle + degrees) % 360 and the others are kept |
| PdfMerger.AddBlankPage | src/lib/pdfMerger.ts:57-63 | succeeds exactly when 0 ≤ after < page count; a blank page sized like page `after` goes in right after it |
| PdfMerger.ConcatSplit | src/lib/pdfMerger.ts:3-14 | merging a list of files equals merging its two halves and joining them |
| PdfMerger.ConcatCons | src/lib/pdfMerger.ts:6-11 | merging puts the first file's pages first |
| PdfMerger.ConcatPageCount | src/lib/pdfMerger.ts:3-14 | the merge has at least as many pages as any one file |
| PdfMerger.AscendingUnique | src/lib/pdfMerger.ts:42 | two strictly ascending lists with the same members are equal |
| PdfMerger.ExtractIsDeleteComplement | src/lib/pdfMerger.ts:31-47 | extracting an ascending list of pages equals deleting all the others |
| PdfMerger.FourQuarterTurns | src/lib/pdfMerger.ts:53 | four quarter turns from an angle in [0, 360) come back to it |
| PdfMerger.QuarterTurn | src/lib/pdfMerger.ts:53 | a quarter turn from [0, 360) adds 90 and wraps at 360 |
| PdfMerger.NegativeAngleStaysNegative | src/lib/pdfMerger.ts:53 | −90 turned by −180 gives −270, not 90 |
| PdfMerger.DeleteNothing | src/lib/pdfMerger.ts:39-47 | deleting no pages keeps the document |
| PdfMerger.KeepEverything | src/lib/pdfMerger.ts:41-42 | with nothing to delete, the kept indices are 0 … n − 1 |
| DigitalSignature.ToHex | src/lib/digitalSignature.ts:66 | `toString(16)`: lower-case hex digits, one digit exactly when n < 16 |
| DigitalSignature.ByteToHex | src/lib/digitalSignature.ts:66 | two lower-case hex digits whose value is the byte |
| DigitalSignature.HexOfBytes | src/lib/digitalSignature.ts:66 | n bytes give 2n lower-case hex digits |
| DigitalSignature.DecodeHexOfBytes | src/lib/digitalSignature.ts:66 | reading the hex back gives the bytes |
| DigitalSignature.HexOfBytesAt | src/lib/digitalSignature.ts:66 | byte i is spelled by characters 2i and 2i + 1 |
| DigitalSignature.ComputeDocumentHash | src/lib/digitalSignature.ts:63-67 | the hash is 64 lower-case hex digits |
| DigitalSignature.Pairs | src/lib/digitalSignature.ts:51 | `match(/.{2}/g)`: ⌊length / 2⌋ groups of two characters |
| DigitalSignature.Fingerprint | src/lib/digitalSignature.ts:51 | succeeds exactly when the hex has at least 2 characters; with fewer, `match` gives null and the `!` throws |
| DigitalSignature.JoinedPairs | src/lib/digitalSignature.ts:51 | n hex pairs joined by ':' have 3n − 1 characters, n − 1 colons, and lose nothing when the colons are removed |
| DigitalSignature.WithoutUpper | src/lib/digitalSignature.ts:51 | upper-casing neither adds nor removes colons |
| DigitalSignature.LowerUpperHex | src/lib/digitalSignature.ts:51 | lower-casing undoes upper-casing on lower-case hex |
| DigitalSignature.FingerprintShape | src/lib/digitalSignature.ts:46-51 | 2n hex digits give 3n − 1 characters with n − 1 colons, and lower-casing without the colons recovers the hex |
| DigitalSignature.DigestFingerprint | src/lib/digitalSignature.ts:46-51 | a SHA-256 fingerprint has 95 characters and 31 colons |
| DigitalSignature.SetFullYear | src/lib/digitalSignature.ts:25 | the date gets the new year and keeps its time, and its month and day unless it is 29 February |
| DigitalSignature.Certificate.constructor | src/lib/digitalSignature.ts:19 | a new certificate has no fields yet |
| DigitalSignature.CertificateExtensions | src/lib/digitalSignature.ts:36-40 | basic constraints (not a CA), key usage (signature, non-repudiation), and the email as subject alternative name |
| DigitalSignature.CertificateAttributes | src/lib/digitalSignature.ts:27-32 | common name and email first; organisation and country follow only when given and non-empty |
| DigitalSignature.SelfSignedCertificate | src/lib/digitalSignature.ts:44-51 | the fingerprint is the colon form of the digest of the certificate's fields, 95 characters |
| DigitalSignature.FillCertificate | src/lib/digitalSignature.ts:20-41 | the step-by-step assignments leave the fields `CertificateFields` names |
| DigitalSignature.SubjectAttributes | src/lib/digitalSignature.ts:27-32 | the attribute list grown as the source grows it equals `CertificateAttributes` |
| DigitalSignature.GenerateSelfSignedCertificate | src/lib/digitalSignature.ts:16-53 | the certificate built equals `CertificateFields`, and its output equals `SelfSignedCertificate` |
| DigitalSignature.CertificateShape | src/lib/digitalSignature.ts:20-45 | the public key is the generated one; the serial is "01" plus the random bytes in hex, 18 characters; validity runs from the first clock reading to the second reading moved to the first's year + 1; subject and issuer are the attribute list; the three extensions; the PEMs of the certificate and of the private key |
| DigitalSignature.OneYearValidity | src/lib/digitalSignature.ts:23-25 | when both clock readings agree and the day is not 29 February, expiry is the same moment one year later |
| DigitalSignature.LeapDayValidity | src/lib/digitalSignature.ts:23-25 | a certificate issued on 29 February 2024 expires on 1 March 2025 |
| DownloadPdf.StripPdf | src/lib/downloadPdf.ts:2 | `replace(/\.pdf$/i, '')`: a prefix of the name, four characters shorter when it ends in ".pdf" in any case, unchanged otherwise |
| DownloadPdf.DownloadName | src/lib/downloadPdf.ts:2-7 | the download name always ends in "_signed.pdf" |
| DownloadPdf.StripAppended | src/lib/downloadPdf.ts:2 | stripping a stem plus ".pdf" in any case gives the stem back |
| DownloadPdf.NoSuffixKept | src/lib/downloadPdf.ts:2-7 | a name without ".pdf" is kept whole in front of "_signed.pdf" |
| DownloadPdf.DoubleSuffixExample | src/lib/downloadPdf.ts:2-7 | only the last ".pdf" of "a.pdf.pdf" goes: "a.pdf_signed.pdf" |
| DownloadPdf.UpperCaseSuffixExample | src/lib/downloadPdf.ts:2-7 | "A.PDF" downloads as "A_signed.pdf" |
| DownloadPdf.AsWrittenComposes | src/components/panels/BottomBar.tsx:81 | the signing path's name, stem + "_digitally_signed_signed.pdf", is downloadPdf's name (downloadPdf.ts:2-7) for the stem with "_digitally_signed" appended |
| DownloadPdf.AsWrittenDoubleSuffix | src/components/panels/BottomBar.tsx:81 | "report.pdf" downloads as "report_digitally_signed_signed.pdf", not "report_digitally_signed.pdf" |
| DownloadPdf.SignedDownloadName | src/components/panels/BottomBar.tsx:81 | the corrected name is the stem followed by exactly "_digitally_signed.pdf" |
| DownloadPdf.SignedDownloadNameExample | src/components/panels/BottomBar.tsx:81 | "report.pdf" downloads as "report_digitally_signed.pdf" |
| DocumentStore.IsSigned | src/lib/documentStore.ts:48 | signed exactly when some audit entry's action is "Digitally Signed" |
| DocumentStore.Meta | src/lib/documentStore.ts:39-49 | the listing entry copies id, filename, thumbnail, dates, page count and file size, counts the annotations, and is flagged signed exactly when some audit entry is "Digitally Signed" |
| DocumentStore.SortNewestFirst | src/lib/documentStore.ts:50 | the array ends up sorted newest first and is a permutation of what it held |
| DocumentStore.InsertNewest | src/lib/documentStore.ts:50 | one insertion step extends the sorted prefix by one and permutes the array |
| DocumentStore.SwapKeepsMultiset | src/lib/documentStore.ts:50 | a swap exchanges exactly the two entries and permutes the array |
| DocumentStore.Store.constructor | src/lib/documentStore.ts:7-19 | a new store is empty, keyed by id |
| DocumentStore.Store.SaveDocument | src/lib/documentStore.ts:21-29 | the document is stored under its id, replacing any older version, and no other id changes |
| DocumentStore.Store.GetDocument | src/lib/documentStore.ts:57-65 | the document stored under the id, or none exactly when none is stored |
| DocumentStore.Store.DeleteDocument | src/lib/documentStore.ts:67-75 | exactly that id is removed |
| DocumentStore.Store.RenameDocument | src/lib/documentStore.ts:77-83 | a stored document gets the new filename and update time; a missing id changes nothing |
| DocumentStore.Store.GetAll | src/lib/documentStore.ts:31-38 | every stored document exactly once |
| DocumentStore.Store.GetAllDocumentMeta | src/lib/documentStore.ts:31-55 | one listing entry per stored document, each its `Meta`, newest first |
| DocumentStore.ProjectedMetas | src/lib/documentStore.ts:39-50 | any reordering of the projected list has one entry per document with that document's `Meta` |
| DocumentStore.SignedStaysSigned | src/lib/documentStore.ts:48 | appending to the audit log never unsigns a signed document |
| BottomBar.ThenAssociative | src/components/panels/BottomBar.tsx:50-89 | recording effects in sequence is associative |
| BottomBar.ThenNothing | src/components/panels/BottomBar.tsx:50-89 | following effects with nothing changes them |
| BottomBar.ExportBytes | src/lib/pdfExporter.ts:80-323 | a failed load gives an error; a success means the load succeeded and saving the export plan of that document gave the bytes |
| BottomBar.PrepareSecondPass | src/components/panels/BottomBar.tsx:56-79 | the steps between the exports give the signing record and the second request their specifications name |
| BottomBar.RunExport | src/lib/pdfExporter.ts:80-323 | running exportSignedPdf's steps gives `ExportBytes` |
| BottomBar.CertificateEmail | src/components/panels/BottomBar.tsx:56-59 | never empty; a non-empty signer email is kept |
| BottomBar.Bar.constructor | src/components/panels/BottomBar.tsx:25-32 | not exporting, nothing pending, the signer dialog closed, no effects |
| BottomBar.Bar.Export | src/components/panels/BottomBar.tsx:37-40 | one export call, recorded, whose result is exportSignedPdf's (`ExportBytes`, by `RunExport`); the flags are kept |
| BottomBar.Bar.HandleDownload | src/components/panels/BottomBar.tsx:34-48 | the effects equal `DownloadEffects`; `exporting` ends false, except without bytes, when it is left as it was |
| BottomBar.Bar.PerformDigitalSign | src/components/panels/BottomBar.tsx:50-89 | the effects equal `SignEffects`; `exporting` ends false, except when the guard returns early, when it is left as it was |
| BottomBar.Bar.SignAndExport | src/components/panels/BottomBar.tsx:56-85 | after the first export, the effects equal `SecondPassEffects` |
| BottomBar.Bar.DispatchAndExport | src/components/panels/BottomBar.tsx:64-85 | the record is dispatched, then the second export runs, with the outcome `SecondPassOutcome` names: on success a download of the second export's bytes as stem + "_digitally_signed" + "_signed.pdf" |
| BottomBar.Bar.HandleDigitalSign | src/components/panels/BottomBar.tsx:91-99 | without bytes nothing; without a signer name a pending request and an open dialog; otherwise the signing with the stored name and email |
| BottomBar.Bar.HandleSignerSave | src/components/panels/BottomBar.tsx:101-108 | the signer and its audit entry are dispatched; a pending signature with a non-blank name is resumed with the trimmed name and email and cleared |
| BottomBar.Bar.RecordSigner | src/components/panels/BottomBar.tsx:102-103 | SET_SIGNER_INFO and the "Signer Info Set" entry are dispatched |
| BottomBar.Bar.ResumePending | src/components/panels/BottomBar.tsx:104-107 | a pending request with a non-empty name runs once and is cleared; otherwise nothing runs |
| BottomBar.Bar.CloseSignerModal | src/components/panels/BottomBar.tsx:201 | the dialog closes and the pending request is forgotten |
| BottomBar.Bar.SaveSignerModal | src/components/modals/SignerInfoModal.tsx:16-20 | save passes the trimmed fields to `HandleSignerSave` and then closes, leaving nothing pending |
| BottomBar.DownloadAuditOnlyOnSuccess | src/components/panels/BottomBar.tsx:34-48 | without bytes nothing; otherwise one unsigned export, and the audit entry and the download come exactly when it succeeds, with one toast that is an error exactly on failure |
| BottomBar.SignGuard | src/components/panels/BottomBar.tsx:51 | the sign flow has no effects exactly when there are no bytes or the name is empty |
| BottomBar.FirstPassUnsigned | src/components/panels/BottomBar.tsx:54 | the first export is the captured state without signing info; when it fails only the error toast follows |
| BottomBar.SignEffectsAfterFirstPass | src/components/panels/BottomBar.tsx:54-85 | after a successful first export the effects are that export followed by the second pass made from its bytes |
| BottomBar.FirstThenSecondPass | src/components/panels/BottomBar.tsx:54-85 | both requests, one record, and a download of the second export's bytes as `AsWrittenSignedDownloadName` (stem + "_digitally_signed_signed.pdf") exactly when the second export succeeds, with the matching toast |
| BottomBar.SecondPassShape | src/components/panels/BottomBar.tsx:54-85 | a successful first pass leads to exactly two exports, one record, and, exactly when the second export succeeds, a download of its bytes as `AsWrittenSignedDownloadName`, with the toast it decides |
| BottomBar.HashFeedsSecondPass | src/components/panels/BottomBar.tsx:61-79 | the second request is the first plus signing info, whose document hash is the hash of the first export's bytes |
| BottomBar.SecondPassAuditLog | src/components/panels/BottomBar.tsx:64-79 | the certificate page's log is the captured log plus one "Digitally Signed" entry, stamped with the signing time, naming the full fingerprint |
| BottomBar.SecondPassInfoLog | src/components/panels/BottomBar.tsx:69-79 | the signing info adds one "Digitally Signed" entry to the captured log and carries the fingerprint |
| BottomBar.CertificateEmailDefault | src/components/panels/BottomBar.tsx:56-79 | the page shows the raw signer email, while the certificate's subject has the signer name and the email or "signer@local" |
| BottomBar.SignedEntryBeforeSecondPass | src/components/panels/BottomBar.tsx:64-85 | the "Digitally Signed" entry is dispatched once the first export succeeds, whatever the second does; the download happens exactly when the second succeeds, with its bytes, as `AsWrittenSignedDownloadName` |
| BottomBar.SecondPassSavesCertificatePage | src/components/panels/BottomBar.tsx:64-85 | the second request's audit trail ends with "Digitally Signed", and the downloaded bytes are what saving a plan with that trail's certificate page (`AuditPageOps`) gave |
| KeyboardShortcuts.HandleKeyDown | src/hooks/useKeyboardShortcuts.ts:8-48 | never both undo and redo, and no actions beside them; at most two actions; blur exactly for Escape in an editable element; undo only for mod+z without shift; delete only with a selection |
| KeyboardShortcuts.EditableOnlyEscape | src/hooks/useKeyboardShortcuts.ts:10-16 | in an editable element Escape blurs and deselects, and every other key does nothing |
| KeyboardShortcuts.UndoRedoKeys | src/hooks/useKeyboardShortcuts.ts:21-24 | with Ctrl/Cmd, undo exactly for z without shift, redo exactly for shift+z or y |
| KeyboardShortcuts.ClipboardKeys | src/hooks/useKeyboardShortcuts.ts:27-33 | with Ctrl/Cmd, c copies, v pastes on the current page, d duplicates, a selects the page, and each prevents the default |
| KeyboardShortcuts.DeleteNeedsSelection | src/hooks/useKeyboardShortcuts.ts:36-40 | Delete and Backspace delete exactly when something is selected, and otherwise do nothing |
| KeyboardShortcuts.EscapeDeselects | src/hooks/useKeyboardShortcuts.ts:43-47 | Escape deselects and picks the select tool, without preventing the default |
| KeyboardShortcuts.PlainKeysIgnored | src/hooks/useKeyboardShortcuts.ts:18-47 | a key without Ctrl/Cmd other than Delete, Backspace and Escape does nothing |
| ResizeHandles.PointerDeltaPct | src/components/annotations/ResizeHandles.tsx:39-40 | the delta is the pointer movement in percent of the page size, positive for a positive movement |
| ResizeHandles.Unclamped | src/components/annotations/ResizeHandles.tsx:47-59 | a left (top) handle moves that edge and keeps the opposite one; the others grow the width (height) by the delta |
| ResizeHandles.Clamped | src/components/annotations/ResizeHandles.tsx:61-64 | width at least 2, height at least 1.5, x and y in [0, 98]; values already in range are kept |
| ResizeHandles.Resized | src/components/annotations/ResizeHandles.tsx:39-64 | every dispatched rectangle meets the clamps |
| ResizeHandles.MoveRect | src/components/annotations/ResizeHandles.tsx:38-64 | the move handler's computation equals `Resized` |
| ResizeHandles.ResizeGesture | src/components/annotations/ResizeHandles.tsx:20-85 | the whole gesture on the history equals `ResizeSession` |
| ResizeHandles.EdgesFollowHandle | src/components/annotations/ResizeHandles.tsx:47-64 | while no clamp bites, the edge opposite a dragged one stays where it was |
| ResizeHandles.PositionClampIgnoresSize | src/components/annotations/ResizeHandles.tsx:61-64 | x is clamped without regard to width, so the box can reach past 100% |
| ResizeHandles.GeometryOverrides | src/components/annotations/ResizeHandles.tsx:66-72 | two geometry updates of one id equal the second alone |
| ResizeHandles.MovesInBatch | src/components/annotations/ResizeHandles.tsx:36-73 | inside a batch the moves push nothing, and the state holds the last move's rectangle |
| ResizeHandles.ResizeRecordsOnce | src/components/annotations/ResizeHandles.tsx:36-79 | a whole resize pushes one snapshot, from before the press, clears the future, ends the batch, and leaves the last move's clamped rectangle |
| ResizeHandles.UndoAfterResize | src/components/annotations/ResizeHandles.tsx:36-79 | one undo after the release restores the state from before the resize and the past as it was (within the 50-entry cap) |
| AnnotationItem.HandlePress | src/components/annotations/AnnotationItem.tsx:51-70 | a press on a handle or on editable content does nothing; otherwise it selects, prevents the default exactly when not yet selected, and starts a drag exactly when the page is found |
| AnnotationItem.HandleClick | src/components/annotations/AnnotationItem.tsx:112-118 | a click dispatches nothing exactly when shift is held |
| AnnotationItem.DragClamp | src/components/annotations/AnnotationItem.tsx:90-91 | the position is at least 0, at most 100 − size when the size fits, and kept when in range |
| AnnotationItem.Drag.constructor | src/components/annotations/AnnotationItem.tsx:77-81 | the drag starts at the annotation's position, not yet moved |
| AnnotationItem.Drag.Move | src/components/annotations/AnnotationItem.tsx:83-95 | the position is the start plus the total delta, clamped, and the drag counts as moved |
| AnnotationItem.Drag.Release | src/components/annotations/AnnotationItem.tsx:97-104 | a position update is committed exactly when the drag moved |
| AnnotationItem.DragOutcome | src/components/annotations/AnnotationItem.tsx:97-104 | a drag commits an update exactly when it had moves |
| AnnotationItem.DragGesture | src/components/annotations/AnnotationItem.tsx:77-104 | press, moves and release commit exactly `DragOutcome` |
| AnnotationItem.PressSelects | src/components/annotations/AnnotationItem.tsx:62-66 | a shift press flips the annotation's selection, a plain press makes it the only one |
| AnnotationItem.DragCommitsPosition | src/components/annotations/AnnotationItem.tsx:97-104 | the committed update moves only the dragged annotation to the last clamped position, inside the page |
| PdfPageWrapper.FormatDate | src/components/pdf/PDFPageWrapper.tsx:273-284 | the two long formats are the en-US and en-GB locale renderings |
| PdfPageWrapper.TwoDigitsReadBack | src/components/pdf/PDFPageWrapper.tsx:274-275 | a number below 100 pads to two digits that read back as it |
| PdfPageWrapper.DayFirstReadBack | src/components/pdf/PDFPageWrapper.tsx:278 | "DD/MM/YYYY" reads back as the day, '/', the month, '/', the year |
| PdfPageWrapper.MonthFirstReadBack | src/components/pdf/PDFPageWrapper.tsx:282 | the default "MM/DD/YYYY" reads back as the month, '/', the day, '/', the year |
| PdfPageWrapper.YearFirstReadBack | src/components/pdf/PDFPageWrapper.tsx:279 | "YYYY-MM-DD" reads back as the year, '-', the month, '-', the day |
| PdfPageWrapper.DayFirstIsSwappedMonthFirst | src/components/pdf/PDFPageWrapper.tsx:278-282 | day-first is month-first with the first fields swapped, and any unknown format gives month-first |
| PdfPageWrapper.PlacedAnnotation | src/components/pdf/PDFPageWrapper.tsx:28-133 | exactly the text, date, markup, shape, checkbox and white-out tools place an annotation, with the new id, the page and full opacity |
| PdfPageWrapper.HandlePageClick | src/components/pdf/PDFPageWrapper.tsx:18-139 | a click on an annotation does nothing; the select tool deselects; other tools add their annotation if they place one |
| PdfPageWrapper.TextAndDateAtClick | src/components/pdf/PDFPageWrapper.tsx:28-48 | text sits at the click, 20 by 4 in 16-point type; a date sits at the click showing today month-first |
| PdfPageWrapper.MarkupsOffsetFromClick | src/components/pdf/PDFPageWrapper.tsx:49-75 | highlight, strikethrough and underline start 5 left of and 0.5 above the click, 20 wide |
| PdfPageWrapper.ClickPlacesAndSelects | src/components/pdf/PDFPageWrapper.tsx:18-139 | a placing click appends the annotation and makes it the only selection; a non-placing tool other than Select changes nothing |
| PdfPageWrapper.MinOf | src/components/pdf/PDFPageWrapper.tsx:184-187 | `Math.min(...)`: a member of the list, no larger than any member |
| PdfPageWrapper.MaxOf | src/components/pdf/PDFPageWrapper.tsx:184-187 | `Math.max(...)`: a member of the list, no smaller than any member |
| PdfPageWrapper.Extent | src/components/pdf/PDFPageWrapper.tsx:188-189 | `hi - lo \|\| 1`: never zero, and the span itself when that is not zero |
| PdfPageWrapper.BoxOf | src/components/pdf/PDFPageWrapper.tsx:184-189 | the stroke's box lies within the page and has non-zero extents |
| PdfPageWrapper.Normalized | src/components/pdf/PDFPageWrapper.tsx:191-194 | each point taken relative to the box, point by point |
| PdfPageWrapper.StrokeAnnotation | src/components/pdf/PDFPageWrapper.tsx:180-203 | a drawing exactly for more than one point, placed at its box, holding the normalised stroke in black at width 2 |
| PdfPageWrapper.StrokeBoxPositive | src/components/pdf/PDFPageWrapper.tsx:184-189 | a stroke that starts on the page has a box of positive size containing its first point |
| PdfPageWrapper.NormalizeInBox | src/components/pdf/PDFPageWrapper.tsx:191-194 | denormalising gives the point back, and a point inside the box lands in [0, 100] |
| PdfPageWrapper.NormalizeAxis | src/components/pdf/PDFPageWrapper.tsx:191-194 | on one axis, denormalising gives the value back, and a value in range lands in [0, 100] |
| PdfPageWrapper.StrokeCapture.constructor | src/components/pdf/PDFPageWrapper.tsx:142 | no stroke in progress |
| PdfPageWrapper.StrokeCapture.Start | src/components/pdf/PDFPageWrapper.tsx:142-156 | a stroke starts at the point exactly with the drawing tool off an annotation |
| PdfPageWrapper.StrokeCapture.Move | src/components/pdf/PDFPageWrapper.tsx:161-176 | a stroke in progress gets the point appended; otherwise nothing |
| PdfPageWrapper.StrokeCapture.Up | src/components/pdf/PDFPageWrapper.tsx:178-208 | the stroke is dropped; a stroke in progress is added as `StrokeAnnotation` when long enough |
| PdfPageWrapper.DrawGesture | src/components/pdf/PDFPageWrapper.tsx:142-208 | a drawing is added exactly for the drawing tool off an annotation with at least one move, and it is `StrokeAnnotation` of all the points |
| SignatureModal.GetSavedSignatures | src/components/modals/SignatureModal.tsx:15-21 | a missing or corrupt slot reads as no signatures; a stored list reads as itself |
| SignatureModal.Prefix | src/components/modals/SignatureModal.tsx:26 | `slice(0, n)`: the first min(n, length) entries |
| SignatureModal.MostRecent | src/components/modals/SignatureModal.tsx:26 | one to five entries, the new one first |
| SignatureModal.MostRecentShape | src/components/modals/SignatureModal.tsx:26 | after the new entry come at most four older ones without it, in their old order; the new one occurs once |
| SignatureModal.PrefixIsSubsequence | src/components/modals/SignatureModal.tsx:26 | truncation keeps a subsequence a subsequence |
| SignatureModal.MostRecentNoDuplicates | src/components/modals/SignatureModal.tsx:26 | a list without duplicates stays without duplicates |
| SignatureModal.MostRecentIdempotent | src/components/modals/SignatureModal.tsx:26 | saving the same signature twice in a row equals saving it once |
| SignatureModal.SignatureStore.constructor | src/components/modals/SignatureModal.tsx:15-21 | the slot as found, nothing confirmed |
| SignatureModal.SignatureStore.SaveSignature | src/components/modals/SignatureModal.tsx:23-28 | when setItem accepts the write the slot then holds `MostRecent` of the list read from it; when it throws the slot is unchanged and the failure is reported |
| SignatureModal.SignatureStore.ConfirmDraw | src/components/modals/SignatureModal.tsx:66-72 | without a pad or with an empty one nothing; otherwise the drawing is saved and confirmed when the write succeeds, and neither when setItem throws |
| SignatureModal.SignatureStore.ConfirmUpload | src/components/modals/SignatureModal.tsx:79-84 | the uploaded image is saved and confirmed when the write succeeds; when setItem throws nothing is stored or confirmed |
| SignatureModal.SignatureStore.ConfirmSaved | src/components/modals/SignatureModal.tsx:90-96 | a saved signature is confirmed and the list is left as it is |
| PageManagerModal.InitialPages | src/components/modals/PageManagerModal.tsx:17 | pages 1 to n in order |
| PageManagerModal.InitialPagesDistinct | src/components/modals/PageManagerModal.tsx:17-23 | the initial pages are distinct and are exactly 1 … n |
| PageManagerModal.PageList.constructor | src/components/modals/PageManagerModal.tsx:17 | the initial list, distinct, with no requests |
| PageManagerModal.PageList.MoveUp | src/components/modals/PageManagerModal.tsx:27 | the row swaps with the one above and the move is requested; the top row stays and requests nothing |
| PageManagerModal.PageList.MoveDown | src/components/modals/PageManagerModal.tsx:33 | the row swaps with the one below and the move is requested; the bottom row stays and requests nothing |
| PageManagerModal.PageList.Rotate | src/components/modals/PageManagerModal.tsx:38 | a 90-degree rotation of that page is requested and the list is kept |
| PageManagerModal.PageList.AddBlank | src/components/modals/PageManagerModal.tsx:41 | a blank page after that page is requested and the list is kept |
| PageManagerModal.PageList.Delete | src/components/modals/PageManagerModal.tsx:44 | with more than one page that page is filtered out, one shorter, and its deletion requested; a single page is kept |
| PageManagerModal.UpThenDownRestores | src/components/modals/PageManagerModal.tsx:27-33 | moving a row up and then back down restores the list |
| PageManagerModal.DeleteKeepsRest | src/components/modals/PageManagerModal.tsx:44 | deleting a page from a longer list leaves a non-empty list without it: the rows before and after it, joined |
| PageManagerModal.WithoutSplit | src/components/modals/PageManagerModal.tsx:44 | filtering out a value that occurs once joins the rows around it |
| MergePdfModal.PdfFiles | src/components/modals/MergePdfModal.tsx:17 | only PDFs of the selection, and every PDF of it |
| MergePdfModal.PdfFilesInOrder | src/components/modals/MergePdfModal.tsx:17 | the PDFs keep the order they were selected in |
| MergePdfModal.RemoveAt | src/components/modals/MergePdfModal.tsx:22-24 | the entry at the index is gone and the rest keep their order; an index outside the list removes nothing |
| MergePdfModal.FileList.constructor | src/components/modals/MergePdfModal.tsx:12-14 | an empty list in an open dialog |
| MergePdfModal.FileList.AddFiles | src/components/modals/MergePdfModal.tsx:16-20 | the selection's PDFs go after the listed files; no selection adds nothing |
| MergePdfModal.FileList.Remove | src/components/modals/MergePdfModal.tsx:22-24 | the list becomes `RemoveAt` of the index |
| MergePdfModal.FileList.MoveUp | src/components/modals/MergePdfModal.tsx:26-33 | the row swaps with the one above; the first row stays; the list stays a permutation |
| MergePdfModal.FileList.HandleMerge | src/components/modals/MergePdfModal.tsx:35-41 | with two or more files they are handed on, the list empties and the dialog closes; otherwise nothing happens |
| MergePdfModal.ListStaysPdf | src/components/modals/MergePdfModal.tsx:16-33 | a list of PDFs stays a list of PDFs through add, remove and move |
| MergePdfModal.RemoveDropsOne | src/components/modals/MergePdfModal.tsx:22-24 | removal drops exactly one copy of the entry at the index |
| DashboardScreen.HandleFile | src/components/screens/DashboardScreen.tsx:69-80 | a non-PDF is refused first, then a file over 100 MiB; a file is uploaded exactly when it is a PDF within the limit, once and clearing the error |
| DashboardScreen.HandleDrop | src/components/screens/DashboardScreen.tsx:82-87 | dropping nothing does nothing; otherwise only the first file is handled |
| DashboardScreen.UploadLimitInclusive | src/components/screens/DashboardScreen.tsx:74-77 | exactly 100 MiB passes, one byte more does not, and any other type is refused whatever its size |
| DashboardScreen.FormatRelativeTime | src/components/screens/DashboardScreen.tsx:20-33 | a date that does not parse shows the locale date |
| DashboardScreen.NestedFloors | src/components/screens/DashboardScreen.tsx:24-32 | whole hours are whole minutes / 60, and whole days are whole hours / 24 |
| DashboardScreen.RelativeTimeBuckets | src/components/screens/DashboardScreen.tsx:24-32 | by elapsed milliseconds: under a minute "just now" (a future time included), then minutes, hours, "yesterday", days, and from 30 days the locale date |
| DashboardScreen.HandleRename | src/components/screens/DashboardScreen.tsx:89-94 | a blank name or a missing id changes nothing; otherwise the document gets the trimmed name and the update time |

## Left out

- PdfMerger.RotatePage: passes `{ type: 0, angle }` (cast with `as any`)
  to `setRotation`, and the model takes that object to be accepted as an
  angle in degrees. pdf-lib's own checks on it are not modelled: its
  rotation type check and its requirement that the angle be a multiple of
  90 are pdf-lib's and not part of this model. The same holds for
  PdfMerger.PdfDocument.SetRotation.
- The page manager's requests (PageManagerModal.PageList) reach no PDF
  operation: BottomBar.tsx:194-197 wires `onRotatePage`, `onDeletePage`,
  `onAddBlankPage` and `onMovePage` only to toasts, so `rotatePage`,
  `deletePages` and `addBlankPage` are modelled as the library functions
  they are, and the export (`ExportPlan`) applies none of those requests.
- SignatureModal.GetSavedSignatures: a stored value that is valid JSON
  but not an array (`{}`, `5`) is not modelled; `JSON.parse` returns it,
  and `saved.filter` (SignatureModal.tsx:26) would then throw outside
  the `try`. The slot holds only a missing item, invalid JSON or an array.
- PdfMerger.PdfDocument.Load: takes a file's pages as given; `PDFDocument.load`
  rejecting a malformed file, and the merge failing with it, is not
  modelled, because parsing PDF is pdf-lib's and not part of this model.
- pdf-lib itself is not modelled. Parsing, saving, `copyPages`, page sizes,
  font embedding and image embedding are parameters, and a page is a record
  of its size and rotation. Drawing is recorded as a list of operations;
  what pdf-lib renders from them is not modelled.
- Font metrics (`widthOfTextAtSize`) are a parameter, so the centring and
  right-alignment lemmas speak of the width that the parameter returns.
- Floating point is modelled as exact `real` arithmetic. `Math.round` in
  the coordinate mapper is modelled as exact rounding; the binary rounding
  error of `* 100 / 100` is not.
- Cryptography is parameters: RSA key generation, `cert.sign`, `signData`,
  SHA-256, DER and PEM encoding, and base64. The model keeps only what is
  built around them (certificate fields, hex, fingerprint layout).
- The clock, `Math.random`, `crypto.randomUUID`, `toLocaleDateString` and
  `toLocaleString` are parameters.
- Storage is abstracted. IndexedDB becomes a map from id to document,
  without transactions or their error events. localStorage becomes a slot
  that is missing, corrupt, or holds a list. `getStorageEstimate`
  (src/lib/documentStore.ts:85-91) is a browser quota query and is left out.
- DocumentStore.SortNewestFirst: states sorted and a permutation, but not
  the stability of `Array.prototype.sort`.
- React, the DOM and rendering are left out: component trees, toasts' timing,
  pointer capture, `requestAnimationFrame` and the live stroke preview.
  Event handlers are modelled on the values they read and dispatch.
- BottomBar.Bar.HandleSignerSave: the `setTimeout` before resuming a pending
  signature is modelled as an immediate call, so no other event can run
  between the two.
- ResizeHandles.ResizeGesture: assumes the page element exists; the early
  return without a parent element (ResizeHandles.tsx:28-29) is not modelled.
- AnnotationItem.DragGesture: assumes the page element exists, like
  ResizeHandles.
- PdfPageWrapper.HandlePageClick: assumes the page element exists
  (`pageRef.current`).
- SignatureModal.SignatureStore.SaveSignature: whether `localStorage.setItem`
  accepts the write is the parameter `writeOk`, not derived from the size
  of the data URL and the browser's quota. The confirm handlers stop at a
  failed write; that `onClose` is then skipped too is not modelled, because
  the dialog's open state is not part of the store.
- SignatureModal.SignatureStore.ConfirmUpload: the early return when no file
  was chosen, and the FileReader, are not modelled; the image arrives as a
  data URL.
- PdfExporter.StampLabel: the `toUpperCase` fallback for an unknown stamp
  type, and the grey fallback colour, are never taken, because stamp types
  form a closed datatype here.
- PdfExporter.DrawAuditPage: the size of the added page (612 × 792) is not
  modelled, only its drawing.
- `handleMerge` in BottomBar.tsx:110-125 (loading the chosen files and
  downloading the merge) is not modelled beyond PdfMerger.MergePdfs.
- `formatBytes` (DashboardScreen.tsx:12-18) is display-only number
  formatting with floating point and `toFixed`, and is left out.
- `loadDocuments` (DashboardScreen.tsx:48-58) only calls the store and sets
  React state; the store operation it calls is modelled.

## Findings

| source | as written | input that shows it | evidently intended | confidence | as-written member | corrected member |
|---|---|---|---|---|---|---|
| src/components/panels/BottomBar.tsx:81 with src/lib/downloadPdf.ts:7 | the signing flow passes `<stem>_digitally_signed`, without ".pdf", to `downloadPdf`, whose `.pdf` strip (downloadPdf.ts:2) then removes nothing and which appends "_signed.pdf" (downloadPdf.ts:7) | "report.pdf" is downloaded as "report_digitally_signed_signed.pdf" | "report_digitally_signed.pdf", with one signing suffix | not executed | DownloadPdf.AsWrittenSignedDownloadName (lemmas DownloadPdf.AsWrittenComposes, DownloadPdf.AsWrittenDoubleSuffix) | DownloadPdf.SignedDownloadName (lemma DownloadPdf.SignedDownloadNameExample) |
