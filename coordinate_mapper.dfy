/** Percentages of the page (origin top-left) to PDF points (origin
    bottom-left), rounded to hundredths (src/lib/coordinateMapper.ts). */
module CoordinateMapper {
  import opened Types

  datatype PdfRect = PdfRect(x: real, y: real, width: real, height: real)

  /** `Math.round(n * 100) / 100`: Math.round rounds halves up, so it is the
      floor of n * 100 + 0.5. It moves a value by at most half a hundredth. */
  function Round2(n: real): (r: real)
    ensures n - 0.005 < r <= n + 0.005
  {
    var t := n * 100.0 + 0.5;
    assert t.Floor as real <= t < t.Floor as real + 1.0;
    (t.Floor as real) / 100.0
  }

  lemma Round2Monotone(a: real, b: real)
    requires a <= b
    ensures Round2(a) <= Round2(b)
  {
    var ta, tb := a * 100.0 + 0.5, b * 100.0 + 0.5;
    assert ta <= tb;
    assert ta.Floor <= tb.Floor;
  }

  /** A value that already is a whole number of hundredths is kept. */
  lemma Round2Hundredths(k: int)
    ensures Round2(k as real / 100.0) == k as real / 100.0
  {
    var t := (k as real / 100.0) * 100.0 + 0.5;
    assert t == k as real + 0.5;
    assert t.Floor == k;
  }

  /** The transform before rounding. */
  function ExactPdfRect(xPct: real, yPct: real, wPct: real, hPct: real, dims: PageDimensions): PdfRect
  {
    PdfRect(
      (xPct / 100.0) * dims.width,
      dims.height - (yPct / 100.0) * dims.height - (hPct / 100.0) * dims.height,
      (wPct / 100.0) * dims.width,
      (hPct / 100.0) * dims.height)
  }

  /** percentToPdfPoints: each coordinate of the exact transform, rounded. It
      is total (no requires) and clamps nothing. */
  function PercentToPdfPoints(xPct: real, yPct: real, wPct: real, hPct: real, dims: PageDimensions): (r: PdfRect)
    ensures var e := ExactPdfRect(xPct, yPct, wPct, hPct, dims);
      && e.x - 0.005 < r.x <= e.x + 0.005
      && e.y - 0.005 < r.y <= e.y + 0.005
      && e.width - 0.005 < r.width <= e.width + 0.005
      && e.height - 0.005 < r.height <= e.height + 0.005
  {
    var e := ExactPdfRect(xPct, yPct, wPct, hPct, dims);
    PdfRect(Round2(e.x), Round2(e.y), Round2(e.width), Round2(e.height))
  }

  /** The Y flip accounts for the rectangle's own height: before rounding the
      top edge of the percentage rectangle lands at H - yPct% of H, and after
      rounding it is off by at most a hundredth. */
  lemma TopEdge(xPct: real, yPct: real, wPct: real, hPct: real, dims: PageDimensions)
    ensures var e := ExactPdfRect(xPct, yPct, wPct, hPct, dims);
      e.y + e.height == dims.height - (yPct / 100.0) * dims.height
    ensures var r := PercentToPdfPoints(xPct, yPct, wPct, hPct, dims);
      var top := dims.height - (yPct / 100.0) * dims.height;
      top - 0.01 < r.y + r.height <= top + 0.01
  {
  }

  /** Out-of-range percentages give off-page points rather than being
      clamped: past the right edge by more than rounding can hide, x lies
      beyond the page width. */
  lemma NoClamping(xPct: real, yPct: real, wPct: real, hPct: real, dims: PageDimensions)
    requires (xPct / 100.0) * dims.width > dims.width + 0.005
    ensures PercentToPdfPoints(xPct, yPct, wPct, hPct, dims).x > dims.width
  {
  }

  lemma MulMonotone(a: real, b: real, c: real)
    requires a <= b && c >= 0.0
    ensures a * c <= b * c
  {
  }

  /** A larger xPct never gives a smaller x (on a page of non-negative width). */
  lemma XMonotone(x1: real, x2: real, yPct: real, wPct: real, hPct: real, dims: PageDimensions)
    requires x1 <= x2 && dims.width >= 0.0
    ensures PercentToPdfPoints(x1, yPct, wPct, hPct, dims).x <= PercentToPdfPoints(x2, yPct, wPct, hPct, dims).x
  {
    var a := (x1 / 100.0) * dims.width;
    var b := (x2 / 100.0) * dims.width;
    MulMonotone(x1 / 100.0, x2 / 100.0, dims.width);
    Round2Monotone(a, b);
    assert ExactPdfRect(x1, yPct, wPct, hPct, dims).x == a;
    assert ExactPdfRect(x2, yPct, wPct, hPct, dims).x == b;
  }

  /** Moving a rectangle down the page (larger yPct, same height) never
      raises its PDF y. */
  lemma YAntitone(xPct: real, y1: real, y2: real, wPct: real, hPct: real, dims: PageDimensions)
    requires y1 <= y2 && dims.height > 0.0
    ensures PercentToPdfPoints(xPct, y2, wPct, hPct, dims).y <= PercentToPdfPoints(xPct, y1, wPct, hPct, dims).y
  {
    var h := dims.height;
    MulMonotone(y1 / 100.0, y2 / 100.0, h);
    var e1 := h - (y1 / 100.0) * h - (hPct / 100.0) * h;
    var e2 := h - (y2 / 100.0) * h - (hPct / 100.0) * h;
    assert e2 <= e1;
    Round2Monotone(e2, e1);
    assert ExactPdfRect(xPct, y1, wPct, hPct, dims).y == e1;
    assert ExactPdfRect(xPct, y2, wPct, hPct, dims).y == e2;
  }

  /** The inverse transform, from points back to percentages. */
  function PdfPointsToPercent(r: PdfRect, dims: PageDimensions): (p: (real, real, real, real))
    requires dims.width > 0.0 && dims.height > 0.0
  {
    (r.x / dims.width * 100.0,
     (dims.height - r.y - r.height) / dims.height * 100.0,
     r.width / dims.width * 100.0,
     r.height / dims.height * 100.0)
  }

  lemma ScaleBack(e: real, r: real, d: real, tol: real)
    requires d > 0.0
    requires e - tol <= r <= e + tol
    ensures e / d * 100.0 - tol * 100.0 / d <= r / d * 100.0 <= e / d * 100.0 + tol * 100.0 / d
  {
    assert r / d * 100.0 == r * (100.0 / d);
    assert e / d * 100.0 == e * (100.0 / d);
    assert tol * 100.0 / d == tol * (100.0 / d);
    MulMonotone(e - tol, r, 100.0 / d);
    MulMonotone(r, e + tol, 100.0 / d);
  }

  /** Mapping to points and back reproduces the percentages up to the
      rounding: half a hundredth of a point on x and width, a hundredth on
      the top edge, each rescaled by the page size. */
  lemma RoundTrip(xPct: real, yPct: real, wPct: real, hPct: real, dims: PageDimensions)
    requires dims.width > 0.0 && dims.height > 0.0
    ensures var p := PdfPointsToPercent(PercentToPdfPoints(xPct, yPct, wPct, hPct, dims), dims);
      && xPct - 0.5 / dims.width <= p.0 <= xPct + 0.5 / dims.width
      && yPct - 1.0 / dims.height <= p.1 <= yPct + 1.0 / dims.height
      && wPct - 0.5 / dims.width <= p.2 <= wPct + 0.5 / dims.width
      && hPct - 0.5 / dims.height <= p.3 <= hPct + 0.5 / dims.height
  {
    RoundTripX(xPct, yPct, wPct, hPct, dims);
    RoundTripY(xPct, yPct, wPct, hPct, dims);
    RoundTripWidth(xPct, yPct, wPct, hPct, dims);
    RoundTripHeight(xPct, yPct, wPct, hPct, dims);
  }

  lemma RoundTripX(xPct: real, yPct: real, wPct: real, hPct: real, dims: PageDimensions)
    requires dims.width > 0.0 && dims.height > 0.0
    ensures var p := PdfPointsToPercent(PercentToPdfPoints(xPct, yPct, wPct, hPct, dims), dims);
      xPct - 0.5 / dims.width <= p.0 <= xPct + 0.5 / dims.width
  {
    var r := PercentToPdfPoints(xPct, yPct, wPct, hPct, dims);
    PercentBack(xPct, dims.width, r.x, 0.005);
    assert 0.005 * 100.0 / dims.width == 0.5 / dims.width;
  }

  lemma RoundTripY(xPct: real, yPct: real, wPct: real, hPct: real, dims: PageDimensions)
    requires dims.width > 0.0 && dims.height > 0.0
    ensures var p := PdfPointsToPercent(PercentToPdfPoints(xPct, yPct, wPct, hPct, dims), dims);
      yPct - 1.0 / dims.height <= p.1 <= yPct + 1.0 / dims.height
  {
    var h := dims.height;
    var r := PercentToPdfPoints(xPct, yPct, wPct, hPct, dims);
    TopEdge(xPct, yPct, wPct, hPct, dims);
    PercentBack(yPct, h, h - r.y - r.height, 0.01);
    assert 0.01 * 100.0 / h == 1.0 / h;
  }

  lemma RoundTripWidth(xPct: real, yPct: real, wPct: real, hPct: real, dims: PageDimensions)
    requires dims.width > 0.0 && dims.height > 0.0
    ensures var p := PdfPointsToPercent(PercentToPdfPoints(xPct, yPct, wPct, hPct, dims), dims);
      wPct - 0.5 / dims.width <= p.2 <= wPct + 0.5 / dims.width
  {
    var r := PercentToPdfPoints(xPct, yPct, wPct, hPct, dims);
    PercentBack(wPct, dims.width, r.width, 0.005);
    assert 0.005 * 100.0 / dims.width == 0.5 / dims.width;
  }

  lemma RoundTripHeight(xPct: real, yPct: real, wPct: real, hPct: real, dims: PageDimensions)
    requires dims.width > 0.0 && dims.height > 0.0
    ensures var p := PdfPointsToPercent(PercentToPdfPoints(xPct, yPct, wPct, hPct, dims), dims);
      hPct - 0.5 / dims.height <= p.3 <= hPct + 0.5 / dims.height
  {
    var r := PercentToPdfPoints(xPct, yPct, wPct, hPct, dims);
    PercentBack(hPct, dims.height, r.height, 0.005);
    assert 0.005 * 100.0 / dims.height == 0.5 / dims.height;
  }

  /** A length within tol of pct percent of d reads back as pct, within
      tol rescaled by d. */
  lemma PercentBack(pct: real, d: real, r: real, tol: real)
    requires d > 0.0
    requires (pct / 100.0) * d - tol <= r <= (pct / 100.0) * d + tol
    ensures pct - tol * 100.0 / d <= r / d * 100.0 <= pct + tol * 100.0 / d
  {
    ScaleBack((pct / 100.0) * d, r, d, tol);
    assert (pct / 100.0) * d / d * 100.0 == pct;
  }
}
