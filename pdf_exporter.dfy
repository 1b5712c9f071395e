/** The export planner (src/lib/pdfExporter.ts): what exportSignedPdf draws
    on each page of the loaded document, in which order, and what the audit
    trail page holds. pdf-lib's drawing calls become DrawOp values; font
    metrics, image embedding and the clock are parameters. */
module PdfExporter {
  import opened Common
  import opened Types
  import CoordinateMapper
  import DigitalSignature

  // ---------------------------------------------------------------------------
  // Colours

  datatype Color = Rgb(r: real, g: real, b: real)

  const Black := Rgb(0.0, 0.0, 0.0)

  /** The six digits after an optional leading '#'. */
  function ColorDigits(hex: string): string
  {
    if |hex| > 0 && hex[0] == '#' then hex[1..] else hex
  }

  /** /^#?([a-f\d]{2})([a-f\d]{2})([a-f\d]{2})$/i */
  predicate IsHexColor(hex: string)
  {
    var d := ColorDigits(hex);
    |d| == 6 && forall i :: 0 <= i < 6 ==> IsHexDigit(d[i])
  }

  /** parseInt of the two digits at d[i], d[i + 1]. */
  function PairValue(d: string, i: nat): (v: nat)
    requires i + 1 < |d| && IsHexDigit(d[i]) && IsHexDigit(d[i + 1])
    ensures v < 256
  {
    HexValue(d[i]) * 16 + HexValue(d[i + 1])
  }

  /** hexToRgb: each channel is its two digits over 255; any string of
      another shape is black. */
  function HexToRgb(hex: string): (c: Color)
    ensures !IsHexColor(hex) ==> c == Black
    ensures 0.0 <= c.r <= 1.0 && 0.0 <= c.g <= 1.0 && 0.0 <= c.b <= 1.0
  {
    if IsHexColor(hex) then
      var d := ColorDigits(hex);
      Rgb(PairValue(d, 0) as real / 255.0, PairValue(d, 2) as real / 255.0, PairValue(d, 4) as real / 255.0)
    else Black
  }

  /** Exactly six hex digits, with or without one leading '#', are read. */
  lemma HexColorShape(hex: string)
    ensures IsHexColor(hex) <==>
      (|hex| == 6 && forall i :: 0 <= i < 6 ==> IsHexDigit(hex[i])) ||
      (|hex| == 7 && hex[0] == '#' && forall i :: 1 <= i < 7 ==> IsHexDigit(hex[i]))
  {
    if |hex| == 7 && hex[0] == '#' {
      assert forall i :: 0 <= i < 6 ==> ColorDigits(hex)[i] == hex[i + 1];
    }
    if |hex| == 6 && hex[0] == '#' {
      assert !IsHexDigit(hex[0]);
    }
  }

  lemma LowerHexDigit(c: char)
    ensures IsHexDigit(LowerChar(c)) == IsHexDigit(c)
    ensures IsHexDigit(c) ==> HexValue(LowerChar(c)) == HexValue(c)
  {
  }

  /** Upper and lower case digits give the same colour. */
  lemma HexToRgbIgnoresCase(hex: string)
    ensures HexToRgb(ToLower(hex)) == HexToRgb(hex)
  {
    var l := ToLower(hex);
    var d, dl := ColorDigits(hex), ColorDigits(l);
    assert |dl| == |d|;
    forall i | 0 <= i < |d| ensures dl[i] == LowerChar(d[i]) {
      if |hex| > 0 && hex[0] == '#' {
        assert dl[i] == l[i + 1];
      }
    }
    forall i | 0 <= i < |d| ensures IsHexDigit(dl[i]) == IsHexDigit(d[i]) {
      LowerHexDigit(d[i]);
    }
    if IsHexColor(hex) {
      LowerHexDigit(d[0]); LowerHexDigit(d[1]); LowerHexDigit(d[2]);
      LowerHexDigit(d[3]); LowerHexDigit(d[4]); LowerHexDigit(d[5]);
    }
  }

  /** A colour written out as "#rrggbb" from three bytes reads back as those
      bytes over 255. */
  lemma HexToRgbOfBytes(r: byte, g: byte, b: byte)
    ensures HexToRgb("#" + DigitalSignature.ByteToHex(r) + DigitalSignature.ByteToHex(g) + DigitalSignature.ByteToHex(b))
      == Rgb(r as real / 255.0, g as real / 255.0, b as real / 255.0)
  {
    var hr, hg, hb := DigitalSignature.ByteToHex(r), DigitalSignature.ByteToHex(g), DigitalSignature.ByteToHex(b);
    var hex := "#" + hr + hg + hb;
    var d := ColorDigits(hex);
    assert d == hr + hg + hb;
    assert d[0] == hr[0] && d[1] == hr[1] && d[2] == hg[0] && d[3] == hg[1] && d[4] == hb[0] && d[5] == hb[1];
    assert IsHexColor(hex);
    assert PairValue(d, 0) == r as int && PairValue(d, 2) == g as int && PairValue(d, 4) == b as int;
  }

  // ---------------------------------------------------------------------------
  // Fonts and stamps

  datatype FontName =
    | Helvetica | HelveticaBold | HelveticaOblique | HelveticaBoldOblique
    | TimesRoman | TimesRomanBold | TimesRomanItalic | TimesRomanBoldItalic
    | Courier | CourierBold | CourierOblique | CourierBoldOblique

  predicate IsBoldFont(f: FontName)
  {
    f in {HelveticaBold, HelveticaBoldOblique, TimesRomanBold, TimesRomanBoldItalic, CourierBold, CourierBoldOblique}
  }

  predicate IsSlantedFont(f: FontName)
  {
    f in {HelveticaOblique, HelveticaBoldOblique, TimesRomanItalic, TimesRomanBoldItalic, CourierOblique, CourierBoldOblique}
  }

  /** The family a standard font belongs to. */
  function FaceOf(f: FontName): FontFamily
  {
    match f
    case Helvetica | HelveticaBold | HelveticaOblique | HelveticaBoldOblique => SansSerif
    case TimesRoman | TimesRomanBold | TimesRomanItalic | TimesRomanBoldItalic => Serif
    case Courier | CourierBold | CourierOblique | CourierBoldOblique => Monospace
  }

  /** Cursive has no standard font of its own and falls back to Helvetica. */
  function StandardFace(f: FontFamily): FontFamily
  {
    if f == Cursive then SansSerif else f
  }

  function FontMap(f: FontFamily): FontName
  {
    match f
    case SansSerif => Helvetica
    case Serif => TimesRoman
    case Monospace => Courier
    case Cursive => Helvetica
  }

  function BoldFontMap(f: FontFamily): FontName
  {
    match f
    case SansSerif => HelveticaBold
    case Serif => TimesRomanBold
    case Monospace => CourierBold
    case Cursive => HelveticaBold
  }

  function ItalicFontMap(f: FontFamily): FontName
  {
    match f
    case SansSerif => HelveticaOblique
    case Serif => TimesRomanItalic
    case Monospace => CourierOblique
    case Cursive => HelveticaOblique
  }

  function BoldItalicFontMap(f: FontFamily): FontName
  {
    match f
    case SansSerif => HelveticaBoldOblique
    case Serif => TimesRomanBoldItalic
    case Monospace => CourierBoldOblique
    case Cursive => HelveticaBoldOblique
  }

  /** The font of a text annotation: of its family, bold exactly when bold is
      set and slanted exactly when italic is set. */
  function TextFont(family: FontFamily, bold: bool, italic: bool): (f: FontName)
    ensures FaceOf(f) == StandardFace(family)
    ensures IsBoldFont(f) == bold && IsSlantedFont(f) == italic
  {
    if bold && italic then BoldItalicFontMap(family)
    else if bold then BoldFontMap(family)
    else if italic then ItalicFontMap(family)
    else FontMap(family)
  }

  /** The font of a date annotation: always the regular face of its family. */
  function DateFont(family: FontFamily): (f: FontName)
    ensures FaceOf(f) == StandardFace(family)
    ensures !IsBoldFont(f) && !IsSlantedFont(f)
  {
    FontMap(family)
  }

  /** STAMP_LABELS; every stamp type has an entry, so the toUpperCase
      fallback is never taken. */
  function StampLabel(t: StampType): (s: string)
    ensures |s| > 0
  {
    match t
    case Approved => "APPROVED"
    case Rejected => "REJECTED"
    case Draft => "DRAFT"
    case Confidential => "CONFIDENTIAL"
    case Final => "FINAL"
    case Reviewed => "REVIEWED"
    case Received => "RECEIVED"
    case Void => "VOID"
    case Copy => "COPY"
    case NotApproved => "NOT APPROVED"
    case ForComment => "FOR COMMENT"
    case Preliminary => "PRELIMINARY"
  }

  /** STAMP_COLORS; as with the labels, the grey fallback is never taken. */
  function StampColor(t: StampType): Color
  {
    match t
    case Approved => Rgb(0.086, 0.635, 0.247)
    case Rejected => Rgb(0.863, 0.149, 0.149)
    case Draft => Rgb(0.851, 0.467, 0.024)
    case Confidential => Rgb(0.863, 0.149, 0.149)
    case Final => Rgb(0.145, 0.388, 0.922)
    case Reviewed => Rgb(0.486, 0.227, 0.929)
    case Received => Rgb(0.031, 0.569, 0.698)
    case Void => Rgb(0.42, 0.45, 0.5)
    case Copy => Rgb(0.42, 0.45, 0.5)
    case NotApproved => Rgb(0.863, 0.149, 0.149)
    case ForComment => Rgb(0.851, 0.467, 0.024)
    case Preliminary => Rgb(0.42, 0.45, 0.5)
  }

  // ---------------------------------------------------------------------------
  // Drawing operations and the environment

  datatype ImageFormat = Png | Jpg

  /** An image embedded into the output document. */
  datatype ImageRef = ImageRef(format: ImageFormat, id: nat)

  /** One pdf-lib drawing call with the options the exporter passes; an
      option it leaves out is None. */
  datatype DrawOp =
    | DrawText(text: string, x: real, y: real, size: real, font: FontName, color: Color,
               opacity: Option<real>, rotate: Option<real>)
    | DrawImage(image: ImageRef, x: real, y: real, width: real, height: real, opacity: Option<real>)
    | DrawRectangle(x: real, y: real, width: real, height: real, borderColor: Option<Color>,
                    borderWidth: Option<real>, fill: Option<Color>, opacity: Option<real>,
                    rotate: Option<real>)
    | DrawEllipse(cx: real, cy: real, xScale: real, yScale: real, borderColor: Option<Color>,
                  borderWidth: Option<real>, fill: Option<Color>, opacity: Option<real>)
    | DrawLine(start: Point, end: Point, thickness: real, color: Color, opacity: Option<real>)

  /** What the exporter asks of pdf-lib and the browser: text widths, image
      embedding (None when embedding throws), the ISO time of signing,
      toLocaleString of a timestamp, and a fresh document id. */
  datatype ExportEnv = ExportEnv(
    widthOfTextAtSize: (FontName, string, real) -> real,
    embedImage: (ImageFormat, string) -> Option<ImageRef>,
    signedDate: string,
    localeString: string -> string,
    documentId: string)

  datatype DigitalSignInfo = DigitalSignInfo(
    auditLog: seq<AuditEntry>, signerName: string, signerEmail: string,
    documentHash: string, certificateFingerprint: string)

  /** The arguments of exportSignedPdf; `pages` are the sizes of the pages
      of the loaded original document. */
  datatype ExportInput = ExportInput(
    pages: seq<PageDimensions>,
    annotations: seq<Annotation>,
    pageDimensions: seq<PageDimensions>,
    watermark: WatermarkConfig,
    headerFooter: HeaderFooterConfig,
    totalPages: int,
    digitalSign: Option<DigitalSignInfo>)

  /** The drawing on each page of the original, and the appended audit page
      if there is one. */
  datatype ExportResult = ExportResult(pages: seq<seq<DrawOp>>, auditPage: Option<seq<DrawOp>>)

  // ---------------------------------------------------------------------------
  // Per-page drawing: watermark, header/footer, annotations

  function WatermarkOps(w: WatermarkConfig, page: PageDimensions, env: ExportEnv): seq<DrawOp>
  {
    if w.enabled && w.text != "" then
      var width := env.widthOfTextAtSize(HelveticaBold, w.text, w.fontSize);
      [DrawText(w.text, page.width / 2.0 - width / 2.0, page.height / 2.0, w.fontSize,
                HelveticaBold, HexToRgb(w.color), Some(w.opacity), Some(w.rotation))]
    else []
  }

  /** s.replace('{page}', String(pageIdx + 1)).replace('{total}', String(totalPages)) */
  function ReplacePlaceholders(s: string, pageIdx: nat, totalPages: int): string
  {
    ReplaceFirst(ReplaceFirst(s, "{page}", IntToString(pageIdx + 1)), "{total}", IntToString(totalPages))
  }

  const Margin: real := 36.0
  const HeaderFooterGray := Rgb(0.3, 0.3, 0.3)

  datatype Slot = LeftSlot | CenterSlot | RightSlot

  /** One header or footer slot: nothing when its raw text is empty. */
  function SlotOps(raw: string, slot: Slot, y: real, hf: HeaderFooterConfig, pageIdx: nat,
                   totalPages: int, page: PageDimensions, env: ExportEnv): seq<DrawOp>
  {
    if raw == "" then []
    else
      var text := ReplacePlaceholders(raw, pageIdx, totalPages);
      var tw := env.widthOfTextAtSize(Helvetica, text, hf.fontSize);
      var x := match slot
        case LeftSlot => Margin
        case CenterSlot => page.width / 2.0 - tw / 2.0
        case RightSlot => page.width - Margin - tw;
      [DrawText(text, x, y, hf.fontSize, Helvetica, HeaderFooterGray, None, None)]
  }

  function HeaderFooterOps(hf: HeaderFooterConfig, pageIdx: nat, totalPages: int,
                           page: PageDimensions, env: ExportEnv): seq<DrawOp>
  {
    if !hf.enabled then []
    else
      var top := page.height - Margin;
      var bottom := Margin - hf.fontSize;
      SlotOps(hf.headerLeft, LeftSlot, top, hf, pageIdx, totalPages, page, env)
      + SlotOps(hf.headerCenter, CenterSlot, top, hf, pageIdx, totalPages, page, env)
      + SlotOps(hf.headerRight, RightSlot, top, hf, pageIdx, totalPages, page, env)
      + SlotOps(hf.footerLeft, LeftSlot, bottom, hf, pageIdx, totalPages, page, env)
      + SlotOps(hf.footerCenter, CenterSlot, bottom, hf, pageIdx, totalPages, page, env)
      + SlotOps(hf.footerRight, RightSlot, bottom, hf, pageIdx, totalPages, page, env)
  }

  function Contains(s: string, pat: string): bool
  {
    IndexOf(s, pat).Some?
  }

  /** embedImage: PNG when the data URL mentions image/png, JPEG otherwise;
      a failed embedding is caught and draws nothing. */
  function ImageOps(dataUrl: string, r: CoordinateMapper.PdfRect, opacity: real, env: ExportEnv): seq<DrawOp>
  {
    var format := if Contains(dataUrl, "image/png") then Png else Jpg;
    match env.embedImage(format, dataUrl)
    case None => []
    case Some(image) => [DrawImage(image, r.x, r.y, r.width, r.height, Some(opacity))]
  }

  function Min(a: real, b: real): real { if a <= b then a else b }

  function StampOps(t: StampType, r: CoordinateMapper.PdfRect, opacity: real, env: ExportEnv): seq<DrawOp>
  {
    var c := StampColor(t);
    var stampText := StampLabel(t);
    var fontSize := Min(r.height * 0.45, r.width / (|stampText| as real) * 1.6);
    var tw := env.widthOfTextAtSize(HelveticaBold, stampText, fontSize);
    [ DrawRectangle(r.x, r.y, r.width, r.height, Some(c), Some(3.0), Some(c), Some(0.06), Some(-12.0)),
      DrawRectangle(r.x + 4.0, r.y + 4.0, r.width - 8.0, r.height - 8.0, Some(c), Some(1.5), None, Some(0.15), Some(-12.0)),
      DrawText(stampText, r.x + (r.width - tw) / 2.0, r.y + (r.height - fontSize) / 2.0, fontSize,
               HelveticaBold, c, Some(opacity), Some(-12.0)) ]
  }

  function ShapeOps(shape: ShapeType, strokeColor: string, fillColor: string, strokeWidth: real,
                    r: CoordinateMapper.PdfRect, opacity: real): seq<DrawOp>
  {
    var sc := HexToRgb(strokeColor);
    var fc := if fillColor != "" then Some(HexToRgb(fillColor)) else None;
    var (x, y, w, h) := (r.x, r.y, r.width, r.height);
    match shape
    case Rect => [DrawRectangle(x, y, w, h, Some(sc), Some(strokeWidth), fc, Some(opacity), None)]
    case Ellipse => [DrawEllipse(x + w / 2.0, y + h / 2.0, w / 2.0, h / 2.0, Some(sc), Some(strokeWidth), fc, Some(opacity))]
    case Line => [DrawLine(Point(x, y), Point(x + w, y + h), strokeWidth, sc, Some(opacity))]
    case Arrow =>
      var mid := y + h / 2.0;
      var head := Min(h / 3.0, 8.0);
      [ DrawLine(Point(x, mid), Point(x + w, mid), strokeWidth, sc, Some(opacity)),
        DrawLine(Point(x + w - head, mid + head), Point(x + w, mid), strokeWidth, sc, Some(opacity)),
        DrawLine(Point(x + w - head, mid - head), Point(x + w, mid), strokeWidth, sc, Some(opacity)) ]
  }

  /** A stroke point, given in percent of the annotation box, in points. */
  function StrokePoint(p: Point, r: CoordinateMapper.PdfRect): Point
  {
    Point(r.x + (p.x / 100.0) * r.width, r.y + r.height - (p.y / 100.0) * r.height)
  }

  /** One line per pair of consecutive points of a stroke. */
  function StrokeOps(stroke: seq<Point>, r: CoordinateMapper.PdfRect, color: Color, width: real,
                     opacity: real): (ops: seq<DrawOp>)
    ensures |ops| == if |stroke| == 0 then 0 else |stroke| - 1
  {
    if |stroke| <= 1 then []
    else
      seq(|stroke| - 1, i requires 0 <= i < |stroke| - 1 =>
        DrawLine(StrokePoint(stroke[i], r), StrokePoint(stroke[i + 1], r), width, color, Some(opacity)))
  }

  function DrawingOps(paths: seq<seq<Point>>, r: CoordinateMapper.PdfRect, color: Color, width: real,
                      opacity: real): seq<DrawOp>
  {
    if paths == [] then []
    else
      DrawingOps(paths[..|paths| - 1], r, color, width, opacity)
      + StrokeOps(paths[|paths| - 1], r, color, width, opacity)
  }

  function CheckboxOps(checked: bool, labelText: string, r: CoordinateMapper.PdfRect): seq<DrawOp>
  {
    var (x, y, h) := (r.x, r.y, r.height);
    var green := Rgb(0.0, 0.5, 0.0);
    [DrawRectangle(x, y, h, h, Some(Rgb(0.3, 0.3, 0.3)), Some(1.5), None, None, None)]
    + (if checked then
        [ DrawLine(Point(x + 2.0, y + h / 2.0), Point(x + h / 3.0, y + 2.0), 2.0, green, None),
          DrawLine(Point(x + h / 3.0, y + 2.0), Point(x + h - 2.0, y + h - 2.0), 2.0, green, None) ]
      else [])
    + (if labelText != "" then
        [DrawText(labelText, x + h + 4.0, y + 2.0, 12.0, Helvetica, Rgb(0.2, 0.2, 0.2), None, None)]
      else [])
  }

  /** What one annotation draws, at its position mapped to points. */
  function AnnotationOps(ann: Annotation, dims: PageDimensions, env: ExportEnv): seq<DrawOp>
  {
    var r := CoordinateMapper.PercentToPdfPoints(ann.x, ann.y, ann.width, ann.height, dims);
    var op := ann.opacity;
    match ann.kind
    case Text(content, fontSize, family, color, bold, italic, _) =>
      [DrawText(content, r.x, r.y + r.height - fontSize, fontSize, TextFont(family, bold, italic),
                HexToRgb(color), Some(op), None)]
    case Date(content, fontSize, family, color, _) =>
      [DrawText(content, r.x, r.y + r.height - fontSize, fontSize, DateFont(family),
                HexToRgb(color), Some(op), None)]
    case Signature(dataUrl) => ImageOps(dataUrl, r, op, env)
    case Initials(dataUrl) => ImageOps(dataUrl, r, op, env)
    case Image(dataUrl, _, _) => ImageOps(dataUrl, r, op, env)
    case Highlight(color) =>
      [DrawRectangle(r.x, r.y, r.width, r.height, None, None, Some(HexToRgb(color)), Some(0.35 * op), None)]
    case Strikethrough(color) =>
      var mid := r.y + r.height / 2.0;
      [DrawLine(Point(r.x, mid), Point(r.x + r.width, mid), 2.0, HexToRgb(color), Some(op))]
    case Underline(color) =>
      [DrawLine(Point(r.x, r.y), Point(r.x + r.width, r.y), 2.0, HexToRgb(color), Some(op))]
    case Stamp(t) => StampOps(t, r, op, env)
    case Shape(shape, strokeColor, fillColor, strokeWidth) =>
      ShapeOps(shape, strokeColor, fillColor, strokeWidth, r, op)
    case Drawing(paths, strokeColor, strokeWidth) =>
      DrawingOps(paths, r, HexToRgb(strokeColor), strokeWidth, op)
    case Checkbox(checked, labelText) => CheckboxOps(checked, labelText, r)
    case Whiteout =>
      [DrawRectangle(r.x, r.y, r.width, r.height, None, None, Some(Rgb(1.0, 1.0, 1.0)), Some(1.0), None)]
    case StickyNote(_, color, _, _) =>
      var noteSize := Min(Min(r.width, r.height), 20.0);
      [DrawRectangle(r.x, r.y + r.height - noteSize, noteSize, noteSize, None, None,
                     Some(HexToRgb(color)), Some(0.8), None)]
  }

  function AnnotationListOps(anns: seq<Annotation>, dims: PageDimensions, env: ExportEnv): seq<DrawOp>
  {
    if anns == [] then []
    else
      AnnotationListOps(anns[..|anns| - 1], dims, env) + AnnotationOps(anns[|anns| - 1], dims, env)
  }

  /** The annotations of one page number, in list order. */
  function OnPage(anns: seq<Annotation>, pageNumber: int): seq<Annotation>
  {
    if anns == [] then []
    else
      OnPage(anns[..|anns| - 1], pageNumber)
      + (if anns[|anns| - 1].pageNumber == pageNumber then [anns[|anns| - 1]] else [])
  }

  /** The size used for mapping annotations on page i: the viewer's recorded
      size, or the page's own when none was recorded. */
  function DimsFor(input: ExportInput, i: nat): PageDimensions
    requires i < |input.pages|
  {
    if i < |input.pageDimensions| then input.pageDimensions[i] else input.pages[i]
  }

  /** Everything drawn on page i of the original document: the watermark,
      then the header/footer slots, then the page's annotations. */
  function PageOps(input: ExportInput, i: nat, env: ExportEnv): seq<DrawOp>
    requires i < |input.pages|
  {
    WatermarkOps(input.watermark, input.pages[i], env)
    + HeaderFooterOps(input.headerFooter, i, input.totalPages, input.pages[i], env)
    + AnnotationListOps(OnPage(input.annotations, i + 1), DimsFor(input, i), env)
  }

  // ---------------------------------------------------------------------------
  // The audit trail page

  const AuditInk := Rgb(0.15, 0.15, 0.15)
  const SeparatorInk := Rgb(0.8, 0.8, 0.8)

  /** drawLine(text, size, bold) at height y. */
  function AuditLine(text: string, size: real, bold: bool, y: real): DrawOp
  {
    DrawText(text, 50.0, y, size, if bold then HelveticaBold else Helvetica, AuditInk, None, None)
  }

  /** drawSep() with yPos at y: a rule 4 points above it. */
  function Separator(y: real): DrawOp
  {
    DrawLine(Point(50.0, y + 4.0), Point(562.0, y + 4.0), 0.5, SeparatorInk, None)
  }

  function EntryText(e: AuditEntry, env: ExportEnv): string
  {
    "[" + env.localeString(e.timestamp) + "] " + e.action + ": " + e.details
  }

  /** The fixed top of the audit page, each line at the height it lands on:
      the title, the document section, the signer section and the heading of
      the trail. */
  function AuditHeaderOps(sign: DigitalSignInfo, env: ExportEnv): seq<DrawOp>
  {
    [ AuditLine("CERTIFICATE OF COMPLETION", 18.0, true, 742.0),
      Separator(708.0),
      AuditLine("Document Information", 12.0, true, 698.0),
      AuditLine("Document Hash (SHA-256): " + sign.documentHash, 10.0, false, 680.0),
      AuditLine("Signed Date: " + env.signedDate, 10.0, false, 664.0),
      AuditLine("Certificate Fingerprint: " + sign.certificateFingerprint, 10.0, false, 648.0),
      Separator(627.0),
      AuditLine("Signer Information", 12.0, true, 617.0),
      AuditLine("Name: " + sign.signerName, 10.0, false, 599.0),
      AuditLine("Email: " + sign.signerEmail, 10.0, false, 583.0),
      Separator(562.0),
      AuditLine("Audit Trail", 12.0, true, 552.0) ]
  }

  /** The trail from height y down: an entry is drawn while y has not gone
      below 60, each one line of size 9 and 15 points lower than the last. */
  function AuditEntryOps(log: seq<AuditEntry>, y: real, env: ExportEnv): seq<DrawOp>
    decreases |log|
  {
    if log == [] || y < 60.0 then []
    else [AuditLine(EntryText(log[0], env), 9.0, false, y)] + AuditEntryOps(log[1..], y - 15.0, env)
  }

  const AuditNotice := "This document has been digitally signed. Any modification will invalidate the signature."

  /** The closing separator and the two small lines, below where the trail
      stopped at height y. */
  function AuditFooterOps(y: real, env: ExportEnv): seq<DrawOp>
  {
    [ Separator(y - 10.0),
      AuditLine(AuditNotice, 8.0, false, y - 20.0),
      AuditLine("Document ID: " + env.documentId, 8.0, false, y - 34.0) ]
  }

  /** The number of trail entries that fit from height y down. */
  function EntriesThatFit(log: seq<AuditEntry>, y: real): (n: nat)
    ensures n <= |log|
    decreases |log|
  {
    if log == [] || y < 60.0 then 0 else 1 + EntriesThatFit(log[1..], y - 15.0)
  }

  function AuditPageOps(sign: DigitalSignInfo, env: ExportEnv): seq<DrawOp>
  {
    var n := EntriesThatFit(sign.auditLog, 534.0);
    AuditHeaderOps(sign, env) + AuditEntryOps(sign.auditLog, 534.0, env)
    + AuditFooterOps(534.0 - 15.0 * n as real, env)
  }

  // ---------------------------------------------------------------------------
  // The exporter itself

  /** The byPage map: for every page number the annotations on it, in list
      order; a page number without annotations is absent. */
  method GroupByPage(annotations: seq<Annotation>) returns (byPage: map<int, seq<Annotation>>)
    ensures forall p :: p in byPage ==> byPage[p] == OnPage(annotations, p) && byPage[p] != []
    ensures forall p :: p !in byPage ==> OnPage(annotations, p) == []
  {
    byPage := map[];
    var k := 0;
    while k < |annotations|
      invariant 0 <= k <= |annotations|
      invariant forall p :: p in byPage ==> byPage[p] == OnPage(annotations[..k], p) && byPage[p] != []
      invariant forall p :: p !in byPage ==> OnPage(annotations[..k], p) == []
    {
      var ann := annotations[k];
      var list := if ann.pageNumber in byPage then byPage[ann.pageNumber] else [];
      list := list + [ann];
      byPage := byPage[ann.pageNumber := list];
      assert annotations[..k + 1][..k] == annotations[..k];
      k := k + 1;
    }
    assert annotations[..k] == annotations;
  }

  /** The drawing loop of a freehand annotation: a line for each pair of
      consecutive points, stroke by stroke. */
  method DrawStrokes(paths: seq<seq<Point>>, r: CoordinateMapper.PdfRect, color: Color, width: real,
                     opacity: real) returns (ops: seq<DrawOp>)
    ensures ops == DrawingOps(paths, r, color, width, opacity)
  {
    ops := [];
    var s := 0;
    while s < |paths|
      invariant 0 <= s <= |paths|
      invariant ops == DrawingOps(paths[..s], r, color, width, opacity)
    {
      var segments := DrawStroke(paths[s], r, color, width, opacity);
      DrawingOpsExtend(paths, s, r, color, width, opacity);
      ops := ops + segments;
      s := s + 1;
    }
    assert paths[..s] == paths;
  }

  /** The inner loop over one stroke, from its second point on. */
  method DrawStroke(stroke: seq<Point>, r: CoordinateMapper.PdfRect, color: Color, width: real,
                    opacity: real) returns (ops: seq<DrawOp>)
    ensures ops == StrokeOps(stroke, r, color, width, opacity)
  {
    ops := [];
    if |stroke| == 0 {
      return;
    }
    var i := 1;
    while i < |stroke|
      invariant 1 <= i <= |stroke|
      invariant ops == StrokeOps(stroke[..i], r, color, width, opacity)
    {
      var segment := DrawLine(StrokePoint(stroke[i - 1], r), StrokePoint(stroke[i], r), width, color, Some(opacity));
      StrokeOpsExtend(stroke, i, r, color, width, opacity);
      ops := ops + [segment];
      i := i + 1;
    }
    assert stroke[..i] == stroke;
  }

  lemma StrokeOpsExtend(stroke: seq<Point>, i: nat, r: CoordinateMapper.PdfRect, color: Color, width: real,
                        opacity: real)
    requires 1 <= i < |stroke|
    ensures StrokeOps(stroke[..i + 1], r, color, width, opacity)
      == StrokeOps(stroke[..i], r, color, width, opacity)
         + [DrawLine(StrokePoint(stroke[i - 1], r), StrokePoint(stroke[i], r), width, color, Some(opacity))]
  {
    var a, b := StrokeOps(stroke[..i + 1], r, color, width, opacity), StrokeOps(stroke[..i], r, color, width, opacity);
    assert |a| == |b| + 1;
    forall j | 0 <= j < |b| ensures a[j] == b[j] {
      assert stroke[..i + 1][j] == stroke[..i][j] && stroke[..i + 1][j + 1] == stroke[..i][j + 1];
    }
  }

  lemma DrawingOpsExtend(paths: seq<seq<Point>>, s: nat, r: CoordinateMapper.PdfRect, color: Color, width: real,
                         opacity: real)
    requires s < |paths|
    ensures DrawingOps(paths[..s + 1], r, color, width, opacity)
      == DrawingOps(paths[..s], r, color, width, opacity) + StrokeOps(paths[s], r, color, width, opacity)
  {
    assert paths[..s + 1][..s] == paths[..s];
  }

  lemma AnnotationListOpsExtend(anns: seq<Annotation>, k: nat, dims: PageDimensions, env: ExportEnv)
    requires k < |anns|
    ensures AnnotationListOps(anns[..k + 1], dims, env)
      == AnnotationListOps(anns[..k], dims, env) + AnnotationOps(anns[k], dims, env)
  {
    assert anns[..k + 1][..k] == anns[..k];
  }

  /** Draws one annotation; the freehand case runs the stroke loop. */
  method DrawAnnotation(ann: Annotation, dims: PageDimensions, env: ExportEnv) returns (ops: seq<DrawOp>)
    ensures ops == AnnotationOps(ann, dims, env)
  {
    if ann.kind.Drawing? {
      var r := CoordinateMapper.PercentToPdfPoints(ann.x, ann.y, ann.width, ann.height, dims);
      ops := DrawStrokes(ann.kind.paths, r, HexToRgb(ann.kind.strokeColor), ann.kind.strokeWidth, ann.opacity);
    } else {
      ops := AnnotationOps(ann, dims, env);
    }
  }

  /** The audit page, drawn by moving yPos down line by line as the source
      does; the trail loop stops at the first entry reached below 60. */
  method DrawAuditPage(sign: DigitalSignInfo, env: ExportEnv) returns (ops: seq<DrawOp>)
    ensures ops == AuditPageOps(sign, env)
  {
    var yPos: real;
    ops, yPos := DrawAuditHeader(sign, env);
    var entries;
    entries, yPos := DrawAuditTrail(sign.auditLog, yPos, env);
    ops := ops + entries;

    yPos := yPos - 10.0;
    ops := ops + [Separator(yPos)];
    yPos := yPos - 10.0;
    ops := ops + [AuditLine(AuditNotice, 8.0, false, yPos)];
    yPos := yPos - 14.0;
    ops := ops + [AuditLine("Document ID: " + env.documentId, 8.0, false, yPos)];
  }

  /** The title and the two information blocks, from the top of the page
      down to the "Audit Trail" heading. */
  method DrawAuditHeader(sign: DigitalSignInfo, env: ExportEnv) returns (ops: seq<DrawOp>, yPos: real)
    ensures ops == AuditHeaderOps(sign, env) && yPos == 534.0
  {
    yPos := 742.0;
    ops := [AuditLine("CERTIFICATE OF COMPLETION", 18.0, true, yPos)];
    yPos := yPos - 24.0;
    yPos := yPos - 10.0;
    ops := ops + [Separator(yPos)];
    yPos := yPos - 10.0;

    ops := ops + [AuditLine("Document Information", 12.0, true, yPos)];
    yPos := yPos - 18.0;
    ops := ops + [AuditLine("Document Hash (SHA-256): " + sign.documentHash, 10.0, false, yPos)];
    yPos := yPos - 16.0;
    ops := ops + [AuditLine("Signed Date: " + env.signedDate, 10.0, false, yPos)];
    yPos := yPos - 16.0;
    ops := ops + [AuditLine("Certificate Fingerprint: " + sign.certificateFingerprint, 10.0, false, yPos)];
    yPos := yPos - 16.0;
    yPos := yPos - 5.0;
    ops := ops + [Separator(yPos)];
    yPos := yPos - 10.0;

    ops := ops + [AuditLine("Signer Information", 12.0, true, yPos)];
    yPos := yPos - 18.0;
    ops := ops + [AuditLine("Name: " + sign.signerName, 10.0, false, yPos)];
    yPos := yPos - 16.0;
    ops := ops + [AuditLine("Email: " + sign.signerEmail, 10.0, false, yPos)];
    yPos := yPos - 16.0;
    yPos := yPos - 5.0;
    ops := ops + [Separator(yPos)];
    yPos := yPos - 10.0;

    ops := ops + [AuditLine("Audit Trail", 12.0, true, yPos)];
    yPos := yPos - 18.0;
  }

  /** The trail loop: one line per entry, 15 points apart, until an entry
      would start below 60. */
  method DrawAuditTrail(log: seq<AuditEntry>, top: real, env: ExportEnv) returns (entries: seq<DrawOp>, yPos: real)
    ensures entries == AuditEntryOps(log, top, env)
    ensures yPos == top - 15.0 * EntriesThatFit(log, top) as real
  {
    yPos := top;
    entries := [];
    var k := 0;
    while k < |log|
      invariant 0 <= k <= EntriesThatFit(log, top)
      invariant yPos == top - 15.0 * k as real
      invariant EntriesThatFit(log, top) == k + EntriesThatFit(log[k..], yPos)
      invariant AuditEntryOps(log, top, env) == entries + AuditEntryOps(log[k..], yPos, env)
    {
      if yPos < 60.0 {
        break;
      }
      var line := AuditLine(EntryText(log[k], env), 9.0, false, yPos);
      assert log[k..][1..] == log[k + 1..];
      entries := entries + [line];
      yPos := yPos - 15.0;
      k := k + 1;
    }
    assert EntriesThatFit(log[k..], yPos) == 0;
    assert AuditEntryOps(log[k..], yPos, env) == [];
  }

  /** The body of the page loop: the watermark, the header/footer and then
      each of the page's annotations in turn. */
  method DrawPage(input: ExportInput, pageIdx: nat, pageAnnotations: seq<Annotation>, env: ExportEnv)
    returns (ops: seq<DrawOp>)
    requires pageIdx < |input.pages|
    requires pageAnnotations == OnPage(input.annotations, pageIdx + 1)
    ensures ops == PageOps(input, pageIdx, env)
  {
    var page := input.pages[pageIdx];
    var dims := if pageIdx < |input.pageDimensions| then input.pageDimensions[pageIdx] else page;
    var annOps := DrawAnnotations(pageAnnotations, dims, env);
    ops := WatermarkOps(input.watermark, page, env)
      + HeaderFooterOps(input.headerFooter, pageIdx, input.totalPages, page, env)
      + annOps;
  }

  /** The loop over a page's annotations. */
  method DrawAnnotations(anns: seq<Annotation>, dims: PageDimensions, env: ExportEnv) returns (ops: seq<DrawOp>)
    ensures ops == AnnotationListOps(anns, dims, env)
  {
    ops := [];
    var k := 0;
    while k < |anns|
      invariant 0 <= k <= |anns|
      invariant ops == AnnotationListOps(anns[..k], dims, env)
    {
      var annOps := DrawAnnotation(anns[k], dims, env);
      AnnotationListOpsExtend(anns, k, dims, env);
      ops := ops + annOps;
      k := k + 1;
    }
    assert anns[..k] == anns;
  }

  /** The plan of exportSignedPdf as a value: the drawing of each page of
      the original, and the audit page exactly when signing information is
      given. */
  function ExportPlan(input: ExportInput, env: ExportEnv): (result: ExportResult)
    ensures |result.pages| == |input.pages|
    ensures forall i :: 0 <= i < |input.pages| ==> result.pages[i] == PageOps(input, i, env)
    ensures result.auditPage.Some? <==> input.digitalSign.Some?
    ensures input.digitalSign.Some? ==> result.auditPage == Some(AuditPageOps(input.digitalSign.value, env))
  {
    ExportResult(
      seq(|input.pages|, (i: int) requires 0 <= i < |input.pages| => PageOps(input, i, env)),
      if input.digitalSign.Some? then Some(AuditPageOps(input.digitalSign.value, env)) else None)
  }

  /** exportSignedPdf: every page of the original in turn, then the audit
      page when signing information is given. */
  method ExportSignedPdf(input: ExportInput, env: ExportEnv) returns (result: ExportResult)
    ensures result == ExportPlan(input, env)
  {
    var byPage := GroupByPage(input.annotations);
    var out: seq<seq<DrawOp>> := [];
    var pageIdx := 0;
    while pageIdx < |input.pages|
      invariant 0 <= pageIdx <= |input.pages|
      invariant |out| == pageIdx
      invariant forall i :: 0 <= i < pageIdx ==> out[i] == PageOps(input, i, env)
    {
      var pageAnnotations := if pageIdx + 1 in byPage then byPage[pageIdx + 1] else [];
      var ops := DrawPage(input, pageIdx, pageAnnotations, env);
      out := out + [ops];
      pageIdx := pageIdx + 1;
    }
    var auditPage := None;
    if input.digitalSign.Some? {
      var auditOps := DrawAuditPage(input.digitalSign.value, env);
      auditPage := Some(auditOps);
    }
    ghost var plan := ExportPlan(input, env);
    assert out == plan.pages;
    result := ExportResult(out, auditPage);
  }

  // ---------------------------------------------------------------------------
  // Properties of the export plan

  /** OnPage keeps exactly the annotations of that page number. */
  lemma {:induction false} OnPageMembers(anns: seq<Annotation>, p: int)
    ensures forall a :: a in OnPage(anns, p) <==> a in anns && a.pageNumber == p
  {
    if anns != [] {
      var init, last := anns[..|anns| - 1], anns[|anns| - 1];
      assert anns == init + [last];
      OnPageMembers(init, p);
    }
  }

  /** An annotation whose page number names no page of the document is drawn
      nowhere: adding it changes no page. */
  lemma OffPageIgnored(input: ExportInput, a: Annotation, i: nat, env: ExportEnv)
    requires i < |input.pages|
    requires a.pageNumber < 1 || a.pageNumber > |input.pages|
    ensures PageOps(input.(annotations := input.annotations + [a]), i, env) == PageOps(input, i, env)
  {
    var more := input.annotations + [a];
    assert more[..|more| - 1] == input.annotations;
    assert OnPage(more, i + 1) == OnPage(input.annotations, i + 1);
  }

  /** The watermark is one bold text centred horizontally at half the
      page's height when it is on and has text, and nothing otherwise. */
  lemma WatermarkCentred(w: WatermarkConfig, page: PageDimensions, env: ExportEnv)
    ensures var ops := WatermarkOps(w, page, env);
      |ops| == (if w.enabled && w.text != "" then 1 else 0)
      && (|ops| == 1 ==>
            var tw := env.widthOfTextAtSize(HelveticaBold, w.text, w.fontSize);
            ops[0].DrawText? && ops[0].text == w.text && ops[0].font == HelveticaBold
            && ops[0].x + tw / 2.0 == page.width / 2.0 && ops[0].y == page.height / 2.0
            && ops[0].opacity == Some(w.opacity) && ops[0].rotate == Some(w.rotation))
  {
  }

  /** The watermark is drawn before anything else on the page, and the
      page's annotations after everything else. */
  lemma WatermarkFirst(input: ExportInput, i: nat, env: ExportEnv)
    requires i < |input.pages|
    ensures var ops, wm := PageOps(input, i, env), WatermarkOps(input.watermark, input.pages[i], env);
      var anns := AnnotationListOps(OnPage(input.annotations, i + 1), DimsFor(input, i), env);
      |wm| + |anns| <= |ops| && ops[..|wm|] == wm && ops[|ops| - |anns|..] == anns
  {
    var wm := WatermarkOps(input.watermark, input.pages[i], env);
    var hf := HeaderFooterOps(input.headerFooter, i, input.totalPages, input.pages[i], env);
    var anns := AnnotationListOps(OnPage(input.annotations, i + 1), DimsFor(input, i), env);
    var ops := wm + hf + anns;
    assert PageOps(input, i, env) == ops;
    assert ops[..|wm|] == wm;
    assert ops[|ops| - |anns|..] == anns;
  }

  function SlotCount(raw: string): nat
  {
    if raw == "" then 0 else 1
  }

  /** One text per non-empty slot when the header/footer is on, none when it
      is off. */
  lemma HeaderFooterCount(hf: HeaderFooterConfig, pageIdx: nat, totalPages: int, page: PageDimensions, env: ExportEnv)
    ensures |HeaderFooterOps(hf, pageIdx, totalPages, page, env)|
      == if !hf.enabled then 0
         else SlotCount(hf.headerLeft) + SlotCount(hf.headerCenter) + SlotCount(hf.headerRight)
              + SlotCount(hf.footerLeft) + SlotCount(hf.footerCenter) + SlotCount(hf.footerRight)
  {
  }

  /** Every header/footer text is in the grey Helvetica at the configured size,
      headers at one margin below the top, footers one size below the bottom
      margin. */
  lemma HeaderFooterPlacement(hf: HeaderFooterConfig, pageIdx: nat, totalPages: int, page: PageDimensions,
                              env: ExportEnv)
    ensures forall op :: op in HeaderFooterOps(hf, pageIdx, totalPages, page, env) ==>
      HeaderFooterText(op, hf, page)
  {
    if hf.enabled {
      var top, bottom := page.height - Margin, Margin - hf.fontSize;
      SlotPlacement(hf.headerLeft, LeftSlot, top, hf, pageIdx, totalPages, page, env);
      SlotPlacement(hf.headerCenter, CenterSlot, top, hf, pageIdx, totalPages, page, env);
      SlotPlacement(hf.headerRight, RightSlot, top, hf, pageIdx, totalPages, page, env);
      SlotPlacement(hf.footerLeft, LeftSlot, bottom, hf, pageIdx, totalPages, page, env);
      SlotPlacement(hf.footerCenter, CenterSlot, bottom, hf, pageIdx, totalPages, page, env);
      SlotPlacement(hf.footerRight, RightSlot, bottom, hf, pageIdx, totalPages, page, env);
    }
  }

  predicate HeaderFooterText(op: DrawOp, hf: HeaderFooterConfig, page: PageDimensions)
  {
    op.DrawText? && op.font == Helvetica && op.size == hf.fontSize && op.color == HeaderFooterGray
    && (op.y == page.height - Margin || op.y == Margin - hf.fontSize)
  }

  lemma SlotPlacement(raw: string, slot: Slot, y: real, hf: HeaderFooterConfig, pageIdx: nat,
                      totalPages: int, page: PageDimensions, env: ExportEnv)
    requires y == page.height - Margin || y == Margin - hf.fontSize
    ensures forall op :: op in SlotOps(raw, slot, y, hf, pageIdx, totalPages, page, env) ==>
      HeaderFooterText(op, hf, page)
  {
  }

  /** The first "{page}" becomes the 1-based page number and the first
      "{total}" the page count: the default footer on the fourth of ten
      pages. */
  lemma DefaultFooterExample()
    ensures ReplacePlaceholders("Page {page} of {total}", 3, 10) == "Page 4 of 10"
  {
    SmallNumbers();
    ReplacePageExample();
    ReplaceTotalExample();
  }

  lemma SmallNumbers()
    ensures IntToString(4) == "4" && IntToString(10) == "10"
  {
    assert NatToString(1) == "1";
    assert NatToString(10) == NatToString(1) + [DigitChar(0)];
  }

  lemma ReplacePageExample()
    ensures ReplaceFirst("Page {page} of {total}", "{page}", "4") == "Page 4 of {total}"
  {
    PageTemplateParts();
    ReplaceFirstAfter("Page {page} of {total}", "{page}", "4", "Page ", " of {total}");
  }

  lemma PageTemplateParts()
    ensures "Page {page} of {total}" == "Page " + "{page}" + " of {total}"
    ensures "Page " + "4" + " of {total}" == "Page 4 of {total}"
  {
  }

  lemma ReplaceTotalExample()
    ensures ReplaceFirst("Page 4 of {total}", "{total}", "10") == "Page 4 of 10"
  {
    TotalTemplateParts();
    ReplaceFirstAfter("Page 4 of {total}", "{total}", "10", "Page 4 of ", "");
  }

  lemma TotalTemplateParts()
    ensures "Page 4 of {total}" == "Page 4 of " + "{total}" + ""
    ensures "Page 4 of " + "10" + "" == "Page 4 of 10"
  {
  }

  /** The number of segments a freehand drawing has: one fewer than the
      points of each stroke. */
  function SegmentCount(paths: seq<seq<Point>>): nat
  {
    if paths == [] then 0
    else
      SegmentCount(paths[..|paths| - 1]) + (if |paths[|paths| - 1]| == 0 then 0 else |paths[|paths| - 1]| - 1)
  }

  lemma {:induction false} DrawingOpsCount(paths: seq<seq<Point>>, r: CoordinateMapper.PdfRect, color: Color,
                                           width: real, opacity: real)
    ensures |DrawingOps(paths, r, color, width, opacity)| == SegmentCount(paths)
  {
    if paths != [] {
      DrawingOpsCount(paths[..|paths| - 1], r, color, width, opacity);
    }
  }

  /** How many drawing calls each kind of annotation makes, kind by kind;
      `embedded` says whether its image could be embedded. */
  function ExpectedOpCount(k: Kind, embedded: bool): nat
  {
    match k
    case Text(_, _, _, _, _, _, _) => 1
    case Date(_, _, _, _, _) => 1
    case Signature(_) => if embedded then 1 else 0
    case Initials(_) => if embedded then 1 else 0
    case Image(_, _, _) => if embedded then 1 else 0
    case Highlight(_) => 1
    case Strikethrough(_) => 1
    case Underline(_) => 1
    case Stamp(_) => 3
    case Shape(shape, _, _, _) => if shape == Arrow then 3 else 1
    case Drawing(paths, _, _) => SegmentCount(paths)
    case Checkbox(checked, labelText) => 1 + (if checked then 2 else 0) + (if labelText != "" then 1 else 0)
    case Whiteout => 1
    case StickyNote(_, _, _, _) => 1
  }

  function ImageDataUrl(k: Kind): string
    requires k.Signature? || k.Initials? || k.Image?
  {
    k.dataUrl
  }

  /** Every annotation makes the number of calls its kind calls for. */
  lemma AnnotationOpCount(ann: Annotation, dims: PageDimensions, env: ExportEnv)
    ensures var k := ann.kind;
      var embedded := (k.Signature? || k.Initials? || k.Image?) &&
        env.embedImage(if Contains(ImageDataUrl(k), "image/png") then Png else Jpg, ImageDataUrl(k)).Some?;
      |AnnotationOps(ann, dims, env)| == ExpectedOpCount(k, embedded)
  {
    if ann.kind.Drawing? {
      var r := CoordinateMapper.PercentToPdfPoints(ann.x, ann.y, ann.width, ann.height, dims);
      DrawingOpsCount(ann.kind.paths, r, HexToRgb(ann.kind.strokeColor), ann.kind.strokeWidth, ann.opacity);
    }
  }

  /** Highlights are drawn translucent: 35% of the annotation's opacity, with
      no border. */
  lemma HighlightTranslucent(ann: Annotation, dims: PageDimensions, env: ExportEnv)
    requires ann.kind.Highlight?
    ensures var ops := AnnotationOps(ann, dims, env);
      |ops| == 1 && ops[0].DrawRectangle? && ops[0].opacity == Some(0.35 * ann.opacity)
      && ops[0].borderColor.None? && ops[0].fill == Some(HexToRgb(ann.kind.color))
  {
  }

  /** How the trail is laid out from height y: the n-th line drawn is the
      n-th entry, 15 points below the one before it and never below 60; the
      trail stops early only when the next line would fall below 60. */
  lemma {:induction false} AuditEntryLayout(log: seq<AuditEntry>, y: real, env: ExportEnv)
    ensures var ops, n := AuditEntryOps(log, y, env), EntriesThatFit(log, y);
      && |ops| == n
      && (forall k :: 0 <= k < n ==>
            ops[k] == AuditLine(EntryText(log[k], env), 9.0, false, y - 15.0 * k as real))
      && (n > 0 ==> y - 15.0 * (n - 1) as real >= 60.0)
      && (n < |log| ==> y - 15.0 * n as real < 60.0)
    decreases |log|
  {
    if log != [] && y >= 60.0 {
      AuditEntryLayout(log[1..], y - 15.0, env);
      var ops, n := AuditEntryOps(log, y, env), EntriesThatFit(log, y);
      var rest := AuditEntryOps(log[1..], y - 15.0, env);
      forall k | 0 <= k < n
        ensures ops[k] == AuditLine(EntryText(log[k], env), 9.0, false, y - 15.0 * k as real)
      {
        if k > 0 {
          assert ops[k] == rest[k - 1];
          assert log[1..][k - 1] == log[k];
          assert (y - 15.0) - 15.0 * (k - 1) as real == y - 15.0 * k as real;
        }
      }
      assert n > 1 ==> (y - 15.0) - 15.0 * (n - 2) as real == y - 15.0 * (n - 1) as real;
      assert n < |log| ==> (y - 15.0) - 15.0 * (n - 1) as real == y - 15.0 * n as real;
    }
  }

  /** The page holds at most 32 trail entries: the first 32 of a longer log
      are drawn and the rest are dropped. */
  lemma AuditTrailCapacity(log: seq<AuditEntry>, env: ExportEnv)
    ensures EntriesThatFit(log, 534.0) == if |log| < 32 then |log| else 32
  {
    AuditEntryLayout(log, 534.0, env);
  }

  /** The audit page: twelve header lines, the trail that fits, and three
      footer lines, the last of which names the document. */
  lemma AuditPageShape(sign: DigitalSignInfo, env: ExportEnv)
    ensures var ops, n := AuditPageOps(sign, env), EntriesThatFit(sign.auditLog, 534.0);
      && |ops| == 12 + n + 3
      && ops[..12] == AuditHeaderOps(sign, env)
      && ops[|ops| - 1].DrawText? && ops[|ops| - 1].text == "Document ID: " + env.documentId
  {
    AuditEntryLayout(sign.auditLog, 534.0, env);
  }
}
