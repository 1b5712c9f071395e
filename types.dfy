/** The editor's data model (src/types/index.ts): annotations, page sizes, the
    watermark and header/footer configurations, the audit log, saved documents
    and the editor state with the actions that change it. Numbers that the
    program treats as continuous (percentages, points, opacity, zoom) are
    `real`; page numbers and counts are `int`. */
module Types {
  import opened Common

  datatype Tool =
    | Select | TextTool | SignatureTool | InitialsTool | DateTool | ImageTool
    | DrawingTool | HighlightTool | StrikethroughTool | UnderlineTool
    | StickyNoteTool | StampTool | ShapeRect | ShapeEllipse | ShapeLine
    | ShapeArrow | WatermarkTool | CheckboxTool | WhiteoutTool

  datatype FontFamily = SansSerif | Serif | Monospace | Cursive

  datatype DateFormat = MonthDayYear | DayMonthYear | IsoDate | LongUs | ShortGb

  /** The format strings of the DateFormat union. */
  function DateFormatName(f: DateFormat): string
  {
    match f
    case MonthDayYear => "MM/DD/YYYY"
    case DayMonthYear => "DD/MM/YYYY"
    case IsoDate => "YYYY-MM-DD"
    case LongUs => "MMMM D, YYYY"
    case ShortGb => "D MMM YYYY"
  }

  datatype StampType =
    | Approved | Rejected | Draft | Confidential | Final | Reviewed
    | Received | Void | Copy | NotApproved | ForComment | Preliminary

  datatype ShapeType = Rect | Ellipse | Line | Arrow

  datatype Align = Left | Center | Right

  datatype Point = Point(x: real, y: real)

  /** The fields every annotation variant has next to its variant payload. */
  datatype Annotation = Annotation(
    id: string,
    pageNumber: int,
    x: real, y: real, width: real, height: real,
    opacity: real,
    kind: Kind)

  /** The 14 variants of the Annotation union and their own fields. */
  datatype Kind =
    | Text(content: string, fontSize: real, fontFamily: FontFamily, color: string,
           bold: bool, italic: bool, align: Align)
    | Signature(dataUrl: string)
    | Initials(dataUrl: string)
    | Date(content: string, fontSize: real, fontFamily: FontFamily, color: string,
           dateFormat: DateFormat)
    | Image(dataUrl: string, originalWidth: real, originalHeight: real)
    | Drawing(paths: seq<seq<Point>>, strokeColor: string, strokeWidth: real)
    | Highlight(color: string)
    | Strikethrough(color: string)
    | Underline(color: string)
    | StickyNote(content: string, color: string, author: string, timestamp: string)
    | Stamp(stampType: StampType)
    | Shape(shapeType: ShapeType, strokeColor: string, fillColor: string, strokeWidth: real)
    | Checkbox(checked: bool, labelText: string)
    | Whiteout

  datatype PageDimensions = PageDimensions(width: real, height: real)

  datatype WatermarkConfig = WatermarkConfig(
    text: string, fontSize: real, color: string, opacity: real, rotation: real, enabled: bool)

  datatype HeaderFooterConfig = HeaderFooterConfig(
    headerLeft: string, headerCenter: string, headerRight: string,
    footerLeft: string, footerCenter: string, footerRight: string,
    fontSize: real, enabled: bool)

  datatype AuditEntry = AuditEntry(action: string, timestamp: string, details: string)

  datatype SavedDocument = SavedDocument(
    id: string, filename: string, pdfBytes: seq<byte>,
    annotations: seq<Annotation>, watermark: WatermarkConfig,
    headerFooter: HeaderFooterConfig, auditLog: seq<AuditEntry>,
    signerName: string, signerEmail: string, thumbnail: string,
    createdAt: string, updatedAt: string, pageCount: int, fileSize: int)

  datatype DocumentMeta = DocumentMeta(
    id: string, filename: string, thumbnail: string,
    createdAt: string, updatedAt: string, pageCount: int, fileSize: int,
    annotationCount: nat, isSigned: bool)

  datatype EditorState = EditorState(
    annotations: seq<Annotation>,
    selectedIds: seq<string>,
    activeTool: Tool,
    currentPage: int,
    totalPages: int,
    zoom: real,
    pageDimensions: seq<PageDimensions>,
    clipboard: seq<Annotation>,
    watermark: WatermarkConfig,
    headerFooter: HeaderFooterConfig,
    auditLog: seq<AuditEntry>,
    signerName: string,
    signerEmail: string)

  /** `Partial<Annotation>` restricted to the fields the program's callers
      change; an absent field is `None`. */
  datatype AnnotationChanges = AnnotationChanges(
    x: Option<real>, y: Option<real>, width: Option<real>, height: Option<real>,
    opacity: Option<real>,
    content: Option<string>, fontSize: Option<real>, fontFamily: Option<FontFamily>,
    align: Option<Align>, bold: Option<bool>, italic: Option<bool>,
    dateFormat: Option<DateFormat>, labelText: Option<string>, checked: Option<bool>,
    color: Option<string>, strokeColor: Option<string>, strokeWidth: Option<real>,
    fillColor: Option<string>)

  const NoChanges := AnnotationChanges(None, None, None, None, None, None, None, None,
    None, None, None, None, None, None, None, None, None, None)

  /** `{ x, y, width, height }`: what a resize sends. */
  function GeometryChanges(x: real, y: real, width: real, height: real): AnnotationChanges
  {
    NoChanges.(x := Some(x), y := Some(y), width := Some(width), height := Some(height))
  }

  /** `{ x, y }`: what a drag sends. */
  function PositionChanges(x: real, y: real): AnnotationChanges
  {
    NoChanges.(x := Some(x), y := Some(y))
  }

  datatype WatermarkChanges = WatermarkChanges(
    text: Option<string>, fontSize: Option<real>, color: Option<string>,
    opacity: Option<real>, rotation: Option<real>, enabled: Option<bool>)

  datatype HeaderFooterChanges = HeaderFooterChanges(
    headerLeft: Option<string>, headerCenter: Option<string>, headerRight: Option<string>,
    footerLeft: Option<string>, footerCenter: Option<string>, footerRight: Option<string>,
    fontSize: Option<real>, enabled: Option<bool>)

  datatype LoadedDocument = LoadedDocument(
    annotations: seq<Annotation>, watermark: WatermarkConfig,
    headerFooter: HeaderFooterConfig, auditLog: seq<AuditEntry>,
    signerName: string, signerEmail: string)

  /** The EditorAction union; `Other` stands for an action object whose `type`
      is none of the listed ones. */
  datatype EditorAction =
    | AddAnnotation(annotation: Annotation)
    | UpdateAnnotation(targetId: string, changes: AnnotationChanges)
    | DeleteAnnotation(deleteId: string)
    | DeleteSelected
    | SelectAnnotation(selectId: Option<string>)
    | ToggleSelectAnnotation(toggleId: string)
    | SelectAllOnPage(page: int)
    | SetTool(tool: Tool)
    | SetPage(newPage: int)
    | SetZoom(newZoom: real)
    | SetTotalPages(newTotal: int)
    | SetPageDimensions(dims: seq<PageDimensions>)
    | CopySelected
    | PasteClipboard(targetPage: int)
    | DuplicateSelected
    | SetWatermark(watermarkChanges: WatermarkChanges)
    | SetHeaderFooter(headerFooterChanges: HeaderFooterChanges)
    | AddAuditEntry(auditAction: string, auditDetails: string)
    | SetSignerInfo(name: Option<string>, email: Option<string>)
    | RestoreState(snapshot: EditorState)
    | LoadDocument(loaded: LoadedDocument)
    | Other(actionType: string)
}
