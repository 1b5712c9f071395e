/** One rendered page of the editor (src/components/pdf/PDFPageWrapper.tsx):
    a click places a new annotation of the active tool at the click point,
    a drag with the drawing tool records a freehand stroke, and formatDate
    renders the date a date annotation shows. A click position arrives in
    percent of the page; the fresh id (crypto.randomUUID) and today's date
    (new Date()) are parameters. The page image, the live preview and its
    animation frames are not modelled. */
module PdfPageWrapper {
  import opened Common
  import opened Types
  import opened EditorReducer

  // ---------------------------------------------------------------------------
  // formatDate

  /** The calendar fields of a Date: getFullYear(), getMonth() + 1 and
      getDate(). */
  datatype CalendarDate = CalendarDate(year: int, month: nat, day: nat)

  function TwoDigits(n: nat): string
  {
    PadStart2(NatToString(n))
  }

  /** formatDate: two numeric day-first and year-first formats, two locale
      formats rendered by `localized` (toLocaleDateString for the given
      locale tag), and month/day/year for every other format string. */
  function FormatDate(date: CalendarDate, format: string, localized: string -> string): (r: string)
    ensures format == "MMMM D, YYYY" ==> r == localized("en-US")
    ensures format == "D MMM YYYY" ==> r == localized("en-GB")
  {
    var m := TwoDigits(date.month);
    var d := TwoDigits(date.day);
    var y := IntToString(date.year);
    if format == "DD/MM/YYYY" then d + "/" + m + "/" + y
    else if format == "YYYY-MM-DD" then y + "-" + m + "-" + d
    else if format == "MMMM D, YYYY" then localized("en-US")
    else if format == "D MMM YYYY" then localized("en-GB")
    else m + "/" + d + "/" + y
  }

  /** A number below 100 pads to two digits that read back as it. */
  lemma TwoDigitsReadBack(n: nat)
    requires n < 100
    ensures |TwoDigits(n)| == 2 && AllDigits(TwoDigits(n)) && ParseNat(TwoDigits(n)) == n
  {
    var s := NatToString(n);
    ParseNatToString(n);
    if n < 10 {
      var t := TwoDigits(n);
      assert t == ['0'] + s;
      assert t[..1] == ['0'];
      assert ParseNat(t[..1]) == ParseNat([]) * 10 + 0;
    } else {
      assert NatToString(n / 10) == [DigitChar(n / 10)];
    }
  }

  /** Two two-character fields and a tail, joined by a separator: each
      part sits at a fixed offset. */
  lemma FieldsAt(a: string, b: string, c: string, sep: string)
    requires |a| == 2 && |b| == 2 && |sep| == 1
    ensures var r := a + sep + b + sep + c;
      && |r| == 6 + |c| && r[..2] == a && r[2] == sep[0] && r[3..5] == b
      && r[5] == sep[0] && r[6..] == c
  {
    var r := a + sep + b + sep + c;
    assert r[..2] == a && r[3..5] == b && r[6..] == c;
  }

  /** A head, then two two-character fields, joined by a separator. */
  lemma FieldsAfter(a: string, b: string, c: string, sep: string)
    requires |b| == 2 && |c| == 2 && |sep| == 1
    ensures var (r, k) := (a + sep + b + sep + c, |a|);
      && |r| == k + 6 && r[..k] == a && r[k] == sep[0] && r[k + 1..k + 3] == b
      && r[k + 3] == sep[0] && r[k + 4..] == c
  {
    var r := a + sep + b + sep + c;
    var k := |a|;
    assert r[..k] == a && r[k + 1..k + 3] == b && r[k + 4..] == c;
  }

  /** The numeric formats put the day and month in two-digit fields that
      read back as the date's own day and month, in the order the format
      names them: DD/MM/YYYY, */
  lemma DayFirstReadBack(date: CalendarDate, localized: string -> string)
    requires 1 <= date.month <= 12 && 1 <= date.day <= 31
    ensures var r := FormatDate(date, "DD/MM/YYYY", localized);
      && |r| >= 6
      && AllDigits(r[..2]) && ParseNat(r[..2]) == date.day && r[2] == '/'
      && AllDigits(r[3..5]) && ParseNat(r[3..5]) == date.month
      && r[5] == '/' && r[6..] == IntToString(date.year)
  {
    TwoDigitsReadBack(date.month);
    TwoDigitsReadBack(date.day);
    FieldsAt(TwoDigits(date.day), TwoDigits(date.month), IntToString(date.year), "/");
  }

  /** MM/DD/YYYY, which is also what any other format string gives, */
  lemma MonthFirstReadBack(date: CalendarDate, localized: string -> string)
    requires 1 <= date.month <= 12 && 1 <= date.day <= 31
    ensures var r := FormatDate(date, "MM/DD/YYYY", localized);
      && |r| >= 6
      && AllDigits(r[..2]) && ParseNat(r[..2]) == date.month && r[2] == '/'
      && AllDigits(r[3..5]) && ParseNat(r[3..5]) == date.day
      && r[5] == '/' && r[6..] == IntToString(date.year)
  {
    TwoDigitsReadBack(date.month);
    TwoDigitsReadBack(date.day);
    FieldsAt(TwoDigits(date.month), TwoDigits(date.day), IntToString(date.year), "/");
  }

  /** and YYYY-MM-DD. */
  lemma YearFirstReadBack(date: CalendarDate, localized: string -> string)
    requires 1 <= date.month <= 12 && 1 <= date.day <= 31
    ensures var (r, k) := (FormatDate(date, "YYYY-MM-DD", localized), |IntToString(date.year)|);
      && |r| == k + 6
      && r[..k] == IntToString(date.year) && r[k] == '-'
      && AllDigits(r[k + 1..k + 3]) && ParseNat(r[k + 1..k + 3]) == date.month && r[k + 3] == '-'
      && AllDigits(r[k + 4..]) && ParseNat(r[k + 4..]) == date.day
  {
    TwoDigitsReadBack(date.month);
    TwoDigitsReadBack(date.day);
    FieldsAfter(IntToString(date.year), TwoDigits(date.month), TwoDigits(date.day), "-");
  }

  /** Day-first is month-first with the fields swapped, and any format
      string the switch does not name renders month-first. */
  lemma DayFirstIsSwappedMonthFirst(date: CalendarDate, format: string, localized: string -> string)
    ensures FormatDate(date, "DD/MM/YYYY", localized)
         == FormatDate(date.(month := date.day, day := date.month), "MM/DD/YYYY", localized)
    ensures format !in {"DD/MM/YYYY", "YYYY-MM-DD", "MMMM D, YYYY", "D MMM YYYY"} ==>
      FormatDate(date, format, localized) == FormatDate(date, "MM/DD/YYYY", localized)
  {
  }

  // ---------------------------------------------------------------------------
  // handlePageClick

  /** The annotation a click with `tool` places at (x, y), if the tool
      places one on click. */
  function PlacedAnnotation(tool: Tool, page: int, x: real, y: real, id: string, today: CalendarDate,
                            localized: string -> string): (r: Option<Annotation>)
    ensures r.Some? ==> r.value.id == id && r.value.pageNumber == page && r.value.opacity == 1.0
    ensures r.Some? <==> tool in {TextTool, DateTool, HighlightTool, StrikethroughTool, UnderlineTool,
                                  ShapeRect, ShapeEllipse, ShapeLine, ShapeArrow, CheckboxTool, WhiteoutTool}
  {
    match tool
    case TextTool =>
      Some(Annotation(id, page, x, y, 20.0, 4.0, 1.0, Text("Text", 16.0, SansSerif, "#000000", false, false, Left)))
    case DateTool =>
      Some(Annotation(id, page, x, y, 15.0, 3.5, 1.0,
                      Date(FormatDate(today, "MM/DD/YYYY", localized), 14.0, SansSerif, "#000000", MonthDayYear)))
    case HighlightTool =>
      Some(Annotation(id, page, x - 5.0, y - 0.5, 20.0, 2.5, 1.0, Highlight("#fbbf24")))
    case StrikethroughTool =>
      Some(Annotation(id, page, x - 5.0, y - 0.5, 20.0, 2.0, 1.0, Strikethrough("#dc2626")))
    case UnderlineTool =>
      Some(Annotation(id, page, x - 5.0, y - 0.5, 20.0, 2.0, 1.0, Underline("#2563eb")))
    case ShapeRect =>
      Some(Annotation(id, page, x - 5.0, y - 4.0, 15.0, 10.0, 1.0, Shape(Rect, "#000000", "", 2.0)))
    case ShapeEllipse =>
      Some(Annotation(id, page, x - 5.0, y - 4.0, 15.0, 10.0, 1.0, Shape(Ellipse, "#000000", "", 2.0)))
    case ShapeLine =>
      Some(Annotation(id, page, x - 5.0, y - 1.0, 20.0, 5.0, 1.0, Shape(Line, "#000000", "", 2.0)))
    case ShapeArrow =>
      Some(Annotation(id, page, x - 5.0, y - 1.5, 20.0, 4.0, 1.0, Shape(Arrow, "#000000", "", 2.0)))
    case CheckboxTool =>
      Some(Annotation(id, page, x, y, 15.0, 3.0, 1.0, Checkbox(false, "")))
    case WhiteoutTool =>
      Some(Annotation(id, page, x - 3.0, y - 1.0, 15.0, 3.0, 1.0, Whiteout))
    case _ => None
  }

  /** handlePageClick: nothing for a click on an annotation; otherwise the
      placing tools add their annotation and the select tool clears the
      selection. */
  function HandlePageClick(onAnnotation: bool, tool: Tool, page: int, x: real, y: real, id: string,
                           today: CalendarDate, localized: string -> string): (r: seq<EditorAction>)
    ensures onAnnotation ==> r == []
    ensures |r| <= 1
    ensures !onAnnotation && tool == Select ==> r == [SelectAnnotation(None)]
    ensures !onAnnotation && tool != Select ==>
      r == (var placed := PlacedAnnotation(tool, page, x, y, id, today, localized);
            if placed.Some? then [AddAnnotation(placed.value)] else [])
  {
    if onAnnotation then []
    else if tool == Select then [SelectAnnotation(None)]
    else
      match PlacedAnnotation(tool, page, x, y, id, today, localized)
      case Some(a) => [AddAnnotation(a)]
      case None => []
  }

  /** A text box sits at the click point, 20 by 4, in 16-point type; a date
      sits there too and shows today month-first. */
  lemma TextAndDateAtClick(page: int, x: real, y: real, id: string, today: CalendarDate,
                           localized: string -> string)
    ensures var a := PlacedAnnotation(TextTool, page, x, y, id, today, localized).value;
      a.x == x && a.y == y && a.width == 20.0 && a.height == 4.0 && a.kind.Text? && a.kind.fontSize == 16.0
    ensures var a := PlacedAnnotation(DateTool, page, x, y, id, today, localized).value;
      && a.x == x && a.y == y && a.kind.Date?
      && a.kind.content == FormatDate(today, "MM/DD/YYYY", localized) && a.kind.dateFormat == MonthDayYear
  {
  }

  /** The three text markups start 5 left of and 0.5 above the click and are
      20 wide. */
  lemma MarkupsOffsetFromClick(tool: Tool, page: int, x: real, y: real, id: string, today: CalendarDate,
                               localized: string -> string)
    requires tool in {HighlightTool, StrikethroughTool, UnderlineTool}
    ensures var a := PlacedAnnotation(tool, page, x, y, id, today, localized).value;
      a.x == x - 5.0 && a.y == y - 0.5 && a.width == 20.0
  {
  }

  /** A placed annotation is appended as the only selection; tools that do
      not place on click (signature, initials, image, drawing, sticky note,
      stamp, watermark) change nothing. */
  lemma ClickPlacesAndSelects(s: EditorState, tool: Tool, page: int, x: real, y: real, id: string,
                              today: CalendarDate, localized: string -> string,
                              newId: nat -> string, now: string)
    ensures var actions := HandlePageClick(false, tool, page, x, y, id, today, localized);
      var placed := PlacedAnnotation(tool, page, x, y, id, today, localized);
      && (placed.Some? ==>
            var t := Reduce(s, actions[0], newId, now);
            t.annotations == s.annotations + [placed.value] && t.selectedIds == [id])
      && (tool != Select && placed.None? ==> actions == [])
  {
  }

  // ---------------------------------------------------------------------------
  // Freehand strokes

  function Xs(pts: seq<Point>): (r: seq<real>)
    ensures |r| == |pts| && forall i :: 0 <= i < |pts| ==> r[i] == pts[i].x
  {
    seq(|pts|, i requires 0 <= i < |pts| => pts[i].x)
  }

  function Ys(pts: seq<Point>): (r: seq<real>)
    ensures |r| == |pts| && forall i :: 0 <= i < |pts| ==> r[i] == pts[i].y
  {
    seq(|pts|, i requires 0 <= i < |pts| => pts[i].y)
  }

  /** `Math.min(...xs)` of a non-empty list: a member no greater than any. */
  function MinOf(xs: seq<real>): (r: real)
    requires xs != []
    ensures forall i :: 0 <= i < |xs| ==> r <= xs[i]
    ensures exists i :: 0 <= i < |xs| && r == xs[i]
  {
    if |xs| == 1 then xs[0]
    else
      var rest := MinOf(xs[1..]);
      assert forall i :: 1 <= i < |xs| ==> xs[i] == xs[1..][i - 1];
      if xs[0] <= rest then xs[0] else rest
  }

  /** `Math.max(...xs)` of a non-empty list: a member no smaller than any. */
  function MaxOf(xs: seq<real>): (r: real)
    requires xs != []
    ensures forall i :: 0 <= i < |xs| ==> r >= xs[i]
    ensures exists i :: 0 <= i < |xs| && r == xs[i]
  {
    if |xs| == 1 then xs[0]
    else
      var rest := MaxOf(xs[1..]);
      assert forall i :: 1 <= i < |xs| ==> xs[i] == xs[1..][i - 1];
      if xs[0] >= rest then xs[0] else rest
  }

  /** `hi - lo || 1`: a zero extent becomes 1. */
  function Extent(lo: real, hi: real): (r: real)
    ensures r != 0.0
    ensures hi - lo != 0.0 ==> r == hi - lo
  {
    if hi - lo == 0.0 then 1.0 else hi - lo
  }

  /** The stroke's box: the points' extremes clamped to the page, with the
      extents made non-zero. */
  datatype StrokeBox = StrokeBox(minX: real, maxX: real, minY: real, maxY: real, w: real, h: real)

  /** The extents are those of the clamped extremes. */
  predicate Spans(b: StrokeBox)
  {
    b.w == Extent(b.minX, b.maxX) && b.h == Extent(b.minY, b.maxY)
  }

  function BoxOf(pts: seq<Point>): (b: StrokeBox)
    requires pts != []
    ensures b.minX >= 0.0 && b.maxX <= 100.0 && b.minY >= 0.0 && b.maxY <= 100.0
    ensures b.w != 0.0 && b.h != 0.0 && Spans(b)
  {
    var minX := Max(0.0, MinOf(Xs(pts)));
    var maxX := Min(100.0, MaxOf(Xs(pts)));
    var minY := Max(0.0, MinOf(Ys(pts)));
    var maxY := Min(100.0, MaxOf(Ys(pts)));
    StrokeBox(minX, maxX, minY, maxY, Extent(minX, maxX), Extent(minY, maxY))
  }

  /** `(p - min) / extent * 100` for both coordinates. */
  function NormalizePoint(p: Point, b: StrokeBox): Point
    requires b.w != 0.0 && b.h != 0.0
  {
    Point((p.x - b.minX) / b.w * 100.0, (p.y - b.minY) / b.h * 100.0)
  }

  function Normalized(pts: seq<Point>, b: StrokeBox): (r: seq<Point>)
    requires b.w != 0.0 && b.h != 0.0
    ensures |r| == |pts| && forall i :: 0 <= i < |pts| ==> r[i] == NormalizePoint(pts[i], b)
  {
    seq(|pts|, i requires 0 <= i < |pts| => NormalizePoint(pts[i], b))
  }

  /** handleUp's annotation: only a stroke of more than one point is kept;
      it spans the box and holds the points relative to it. */
  function StrokeAnnotation(pts: seq<Point>, id: string, page: int): (r: Option<Annotation>)
    ensures r.Some? <==> |pts| > 1
    ensures r.Some? ==> var b := BoxOf(pts);
      && r.value.id == id && r.value.pageNumber == page
      && r.value.x == b.minX && r.value.y == b.minY && r.value.width == b.w && r.value.height == b.h
      && r.value.kind == Drawing([Normalized(pts, b)], "#000000", 2.0)
  {
    if |pts| <= 1 then None
    else
      var b := BoxOf(pts);
      Some(Annotation(id, page, b.minX, b.minY, b.w, b.h, 1.0, Drawing([Normalized(pts, b)], "#000000", 2.0)))
  }

  /** A stroke that starts on the page has a box of positive size: its
      extents are never negative. */
  lemma StrokeBoxPositive(pts: seq<Point>)
    requires pts != [] && 0.0 <= pts[0].x <= 100.0 && 0.0 <= pts[0].y <= 100.0
    ensures BoxOf(pts).w > 0.0 && BoxOf(pts).h > 0.0
    ensures BoxOf(pts).minX <= pts[0].x <= BoxOf(pts).maxX && BoxOf(pts).minY <= pts[0].y <= BoxOf(pts).maxY
  {
    assert Xs(pts)[0] == pts[0].x && Ys(pts)[0] == pts[0].y;
  }

  /** A point inside the box lands in [0, 100] once normalised, and the box
      maps it back: min + n / 100 * extent is the point again. */
  lemma NormalizeInBox(p: Point, b: StrokeBox)
    requires Spans(b)
    ensures var n := NormalizePoint(p, b);
      && n.x * b.w / 100.0 + b.minX == p.x && n.y * b.h / 100.0 + b.minY == p.y
      && (b.minX <= p.x <= b.maxX ==> 0.0 <= n.x <= 100.0)
      && (b.minY <= p.y <= b.maxY ==> 0.0 <= n.y <= 100.0)
  {
    NormalizeAxis(p.x, b.minX, b.maxX);
    NormalizeAxis(p.y, b.minY, b.maxY);
  }

  lemma NormalizeAxis(v: real, lo: real, hi: real)
    ensures var n := (v - lo) / Extent(lo, hi) * 100.0;
      && n * Extent(lo, hi) / 100.0 + lo == v
      && (lo <= v <= hi ==> 0.0 <= n <= 100.0)
  {
    var e := Extent(lo, hi);
    var q := (v - lo) / e;
    DivTimes(v - lo, e);
    assert (q * 100.0) * e / 100.0 == q * e;
    if lo <= v <= hi {
      if hi - lo == 0.0 {
        assert v == lo;
      } else {
        UnitQuotient(v - lo, e);
      }
    }
  }

  lemma DivTimes(a: real, e: real)
    requires e != 0.0
    ensures a / e * e == a
  {
  }

  /** 0 <= a <= e with e positive gives a quotient in [0, 1]. */
  lemma UnitQuotient(a: real, e: real)
    requires 0.0 <= a <= e && e > 0.0
    ensures 0.0 <= a / e <= 1.0
  {
    DivTimes(a, e);
  }

  /** The stroke being drawn: drawingRef.current. */
  class StrokeCapture {
    var points: Option<seq<Point>>

    constructor ()
      ensures points == None
    {
      points := None;
    }

    /** handleDrawStart: a stroke starts only with the drawing tool, and not
        on an annotation. */
    method Start(tool: Tool, onAnnotation: bool, p: Point) returns (started: bool)
      modifies this
      ensures started <==> tool == DrawingTool && !onAnnotation
      ensures started ==> points == Some([p])
      ensures !started ==> points == old(points)
    {
      if tool != DrawingTool || onAnnotation {
        return false;
      }
      points := Some([p]);
      started := true;
    }

    /** handleMove: the point is pushed onto the stroke in progress. */
    method Move(p: Point)
      modifies this
      ensures old(points).None? ==> points == None
      ensures old(points).Some? ==> points == Some(old(points).value + [p])
    {
      if points.None? {
        return;
      }
      points := Some(points.value + [p]);
    }

    /** handleUp: the stroke is committed if long enough and then dropped. */
    method Up(id: string, page: int) returns (add: Option<EditorAction>)
      modifies this
      ensures points == None
      ensures old(points).None? ==> add == None
      ensures old(points).Some? ==>
        add == (var ann := StrokeAnnotation(old(points).value, id, page);
                if ann.Some? then Some(AddAnnotation(ann.value)) else None)
    {
      add := None;
      if points.Some? && |points.value| > 1 {
        var ann := StrokeAnnotation(points.value, id, page);
        add := Some(AddAnnotation(ann.value));
      }
      points := None;
    }
  }

  /** A whole stroke: the press, its moves and the release. It is committed
      exactly when it started and at least one move followed. */
  method DrawGesture(tool: Tool, onAnnotation: bool, start: Point, moves: seq<Point>, id: string, page: int)
    returns (add: Option<EditorAction>)
    ensures add.Some? <==> tool == DrawingTool && !onAnnotation && moves != []
    ensures add.Some? ==> add == Some(AddAnnotation(StrokeAnnotation([start] + moves, id, page).value))
  {
    var capture := new StrokeCapture();
    var started := capture.Start(tool, onAnnotation, start);
    if !started {
      return None;
    }
    var i := 0;
    assert [start] + moves[..0] == [start];
    while i < |moves|
      invariant 0 <= i <= |moves|
      invariant capture.points == Some([start] + moves[..i])
    {
      capture.Move(moves[i]);
      assert [start] + moves[..i + 1] == [start] + moves[..i] + [moves[i]];
      i := i + 1;
    }
    assert moves[..i] == moves;
    add := capture.Up(id, page);
  }
}
