/** Department boxes: the client's clamp, the server's normaliser, and how the two agree. Exact real arithmetic. */
module HomeBox {
  import opened Numbers

  datatype Box = Box(x: real, y: real, width: real, height: real)

  function Within(x: real, low: real, high: real): real {
    Min(high, Max(low, x))
  }

  /** To four decimals. */
  function Round4(x: real): real {
    Round(x * 10000.0) as real / 10000.0
  }

  function RoundWithin(x: real, low: real, high: real): real {
    Within(Round(x) as real, low, high)
  }

  const MIN_WIDTH := 0.08

  predicate Fraction(x: real, width: real) {
    0.0 <= x <= 1.0 && 0.0 < width <= 1.0
  }

  /** Keeps a fraction span inside the canvas, at least `least` wide. */
  function Span(x: real, width: real, least: real): (real, real) {
    var nextX := Within(x, 0.0, 1.0);
    var nextWidth := Min(1.0, Max(least, width));
    var fitted := if nextX + nextWidth > 1.0 then 1.0 - nextX else nextWidth;
    if fitted < least then (1.0 - least, least) else (nextX, fitted)
  }

  function Fit(b: Box, x: real, width: real, least: real): Box {
    var (nextX, nextWidth) := Span(x, width, least);
    Box(Round4(nextX), RoundWithin(b.y, 0.0, 2400.0), Round4(nextWidth), RoundWithin(b.height, 160.0, 1200.0))
  }

  // ---- The server

  const LEAST_PIXELS := 200.0

  /** A box of four finite numbers. */
  function ServerBox(b: Box): Box {
    if Fraction(b.x, b.width) then Fit(b, b.x, b.width, MIN_WIDTH)
    else Box(RoundWithin(b.x, 0.0, 2400.0), RoundWithin(b.y, 0.0, 2400.0),
      RoundWithin(b.width, LEAST_PIXELS, 1600.0), RoundWithin(b.height, 160.0, 1200.0))
  }

  function DefaultBox(index: nat): Box {
    Box(0.0, (index * 316) as real, 440.0, 300.0)
  }

  method DepartmentBox(b: Box) returns (r: Box)
    ensures r == ServerBox(b)
  {
    var yClamped := Min(2400.0, Max(0.0, Round(b.y) as real));
    var heightClamped := Min(1200.0, Max(160.0, Round(b.height) as real));
    if b.x >= 0.0 && b.x <= 1.0 && b.width > 0.0 && b.width <= 1.0 {
      var nextX := Min(1.0, Max(0.0, b.x));
      var nextWidth := Min(1.0, Max(MIN_WIDTH, b.width));
      if nextX + nextWidth > 1.0 {
        nextWidth := 1.0 - nextX;
      }
      if nextWidth < MIN_WIDTH {
        nextWidth := MIN_WIDTH;
        nextX := 1.0 - MIN_WIDTH;
      }
      return Box(Round4(nextX), yClamped, Round4(nextWidth), heightClamped);
    }
    r := Box(Min(2400.0, Max(0.0, Round(b.x) as real)), yClamped,
      Min(1600.0, Max(200.0, Round(b.width) as real)), heightClamped);
  }

  // ---- The client

  function Canvas(canvasWidth: real): real {
    Max(canvasWidth, 1.0)
  }

  function LeastWidth(canvasWidth: real): real {
    Min(1.0, 200.0 / Canvas(canvasWidth))
  }

  /** A pixel box on the screen becomes fractions of the canvas. */
  function ClientBox(visual: Box, canvasWidth: real): Box {
    var canvas := Canvas(canvasWidth);
    Fit(visual, visual.x / canvas, visual.width / canvas, LeastWidth(canvasWidth))
  }

  method ClampDepartmentBox(visual: Box, canvasWidth: real) returns (r: Box)
    ensures r == ClientBox(visual, canvasWidth)
  {
    var canvas := Max(canvasWidth, 1.0);
    var minWidth := Min(1.0, 200.0 / canvas);
    var x := Min(1.0, Max(0.0, visual.x / canvas));
    var width := Min(1.0, Max(minWidth, visual.width / canvas));
    if x + width > 1.0 {
      width := 1.0 - x;
    }
    if width < minWidth {
      width := minWidth;
      x := 1.0 - minWidth;
    }
    r := Box(Round4(x), Min(2400.0, Max(0.0, Round(visual.y) as real)), Round4(width),
      Min(1200.0, Max(160.0, Round(visual.height) as real)));
  }

  // ---- Rounding

  predicate OnGrid(x: real) {
    Round4(x) == x
  }

  lemma RoundNear(x: real)
    ensures x - 0.5 < Round(x) as real <= x + 0.5
  {
  }

  lemma RoundOfInt(n: int)
    ensures Round(n as real) == n
  {
  }

  lemma GridOf(n: int)
    ensures OnGrid(n as real / 10000.0)
  {
    RoundOfInt(n);
    assert n as real / 10000.0 * 10000.0 == n as real;
  }

  lemma Round4OnGrid(x: real)
    ensures OnGrid(Round4(x))
  {
    GridOf(Round(x * 10000.0));
  }

  lemma RoundMonotone(a: real, b: real)
    requires a <= b
    ensures Round(a) <= Round(b)
  {
  }

  lemma Round4Monotone(a: real, b: real)
    requires a <= b
    ensures Round4(a) <= Round4(b)
  {
    RoundMonotone(a * 10000.0, b * 10000.0);
  }

  lemma RoundSum(a: real, b: real)
    requires a + b <= 10000.0
    ensures Round(a) + Round(b) <= 10001
  {
  }

  /** Rounding both parts of a span can push its end past the edge by one grid step. */
  lemma Round4Sum(x: real, width: real)
    requires x + width <= 1.0
    ensures Round4(x) + Round4(width) <= 1.0001
  {
    RoundSum(x * 10000.0, width * 10000.0);
  }

  lemma GridEdges()
    ensures OnGrid(0.0) && OnGrid(1.0) && OnGrid(MIN_WIDTH) && OnGrid(1.0 - MIN_WIDTH)
  {
    GridOf(0);
    GridOf(10000);
    GridOf(800);
    GridOf(9200);
  }

  lemma Complement(x: real)
    requires OnGrid(x)
    ensures OnGrid(1.0 - x)
  {
    var n := Round(x * 10000.0);
    GridOf(10000 - n);
    assert 1.0 - x == (10000 - n) as real / 10000.0;
  }

  lemma RoundWithinAgain(x: real, low: int, high: int)
    requires low <= high
    ensures RoundWithin(RoundWithin(x, low as real, high as real), low as real, high as real)
         == RoundWithin(x, low as real, high as real)
  {
    var n := Round(x);
    RoundOfInt(if n < low then low else if n > high then high else n);
  }

  // ---- What a fitted box is like

  lemma SpanSpec(x: real, width: real, least: real)
    requires 0.0 < least <= 1.0
    ensures var (nextX, nextWidth) := Span(x, width, least);
      0.0 <= nextX <= 1.0 - least && least <= nextWidth <= 1.0 && nextX + nextWidth <= 1.0
  {
  }

  lemma FitSpec(b: Box, x: real, width: real, least: real)
    requires 0.0 < least <= 1.0
    ensures var r := Fit(b, x, width, least);
      && OnGrid(r.x) && OnGrid(r.width)
      && 0.0 <= r.x <= Round4(1.0 - least) && Round4(least) <= r.width <= 1.0
      && r.x + r.width <= 1.0001
  {
    hide Round4, Span;
    SpanSpec(x, width, least);
    var (nextX, nextWidth) := Span(x, width, least);
    Round4OnGrid(nextX);
    Round4OnGrid(nextWidth);
    GridEdges();
    Round4Monotone(0.0, nextX);
    Round4Monotone(nextX, 1.0 - least);
    Round4Monotone(least, nextWidth);
    Round4Monotone(nextWidth, 1.0);
    Round4Sum(nextX, nextWidth);
  }

  /** A span that the server already accepts. */
  lemma SpanKeeps(x: real, width: real)
    requires 0.0 <= x && MIN_WIDTH <= width <= 1.0 && x + width <= 1.0
    ensures Span(x, width, MIN_WIDTH) == (x, width)
  {
  }

  lemma SpanShortens(x: real, width: real)
    requires 0.0 <= x <= 1.0 - MIN_WIDTH && MIN_WIDTH <= width <= 1.0 && x + width > 1.0
    ensures Span(x, width, MIN_WIDTH) == (x, 1.0 - x)
  {
  }

  /** A fitted box whose span lies in the server's bounds loses at most one grid step of width. */
  lemma ServerOnFitted(c: Box)
    requires OnGrid(c.x) && OnGrid(c.width) && 0.0 <= c.x <= 1.0 - MIN_WIDTH && MIN_WIDTH <= c.width <= 1.0
    requires RoundWithin(c.y, 0.0, 2400.0) == c.y && RoundWithin(c.height, 160.0, 1200.0) == c.height
    ensures ServerBox(c) == c.(width := if c.x + c.width > 1.0 then 1.0 - c.x else c.width)
  {
    hide Round4, Span, RoundWithin;
    if c.x + c.width > 1.0 {
      SpanShortens(c.x, c.width);
      Complement(c.x);
    } else {
      SpanKeeps(c.x, c.width);
    }
  }

  lemma FitSides(b: Box, x: real, width: real, least: real)
    ensures var r := Fit(b, x, width, least);
      RoundWithin(r.y, 0.0, 2400.0) == r.y && RoundWithin(r.height, 160.0, 1200.0) == r.height
  {
    hide Span, Round4, RoundWithin;
    RoundWithinAgain(b.y, 0, 2400);
    RoundWithinAgain(b.height, 160, 1200);
  }

  /** Fraction boxes end at most one grid step past the edge. */
  lemma FractionFits(b: Box)
    requires Fraction(b.x, b.width)
    ensures var r := ServerBox(b);
      && 0.0 <= r.x <= 1.0 - MIN_WIDTH && MIN_WIDTH <= r.width <= 1.0 && r.x + r.width <= 1.0001
  {
    FitSpec(b, b.x, b.width, MIN_WIDTH);
    GridEdges();
  }

  predicate Steady(b: Box) {
    ServerBox(b) == b
  }

  /** Half way between two grid points. */
  predicate Halfway(x: real) {
    x * 10000.0 - (x * 10000.0).Floor as real == 0.5
  }

  /** A fraction box that reaches the right edge and begins half way between two grid points. */
  predicate Unsteady(b: Box) {
    Fraction(b.x, b.width) && b.x <= 1.0 - MIN_WIDTH && b.x + Max(MIN_WIDTH, b.width) >= 1.0 && Halfway(b.x)
  }

  /** A number and what it lacks to 10000 are both rounded up exactly when they are half way. */
  lemma RoundsUpTwice(t: real)
    ensures Round(t) + Round(10000.0 - t) == if t - t.Floor as real == 0.5 then 10001 else 10000
  {
    var n := t.Floor;
    if t - n as real < 0.5 {
      assert Round(t) == n && Round(10000.0 - t) == 10000 - n;
    } else if t - n as real > 0.5 {
      assert Round(t) == n + 1 && Round(10000.0 - t) == 9999 - n;
    } else {
      assert Round(t) == n + 1 && Round(10000.0 - t) == 10000 - n;
    }
  }

  /** A span that ends exactly at the edge. */
  lemma FullSpan(x: real)
    ensures Round4(x) + Round4(1.0 - x) <= 1.0 <==> !Halfway(x)
  {
    RoundsUpTwice(x * 10000.0);
    assert (1.0 - x) * 10000.0 == 10000.0 - x * 10000.0;
  }

  /** A span that ends before the edge. */
  lemma ShortSpan(x: real, width: real)
    requires x + width < 1.0
    ensures Round4(x) + Round4(width) <= 1.0
  {
    RoundNear(x * 10000.0);
    RoundNear(width * 10000.0);
    assert Round(x * 10000.0) + Round(width * 10000.0) <= 10000;
  }

  /** A second application changes a box exactly when its rounded span passes the edge. */
  lemma SteadyBySpan(b: Box)
    ensures Steady(ServerBox(b)) <==> (Fraction(b.x, b.width) ==> ServerBox(b).x + ServerBox(b).width <= 1.0)
  {
    hide Fit, Round4, RoundWithin;
    if Fraction(b.x, b.width) {
      FitSpec(b, b.x, b.width, MIN_WIDTH);
      FitSides(b, b.x, b.width, MIN_WIDTH);
      GridEdges();
      ServerOnFitted(ServerBox(b));
    } else {
      PixelsSteady(b);
    }
  }

  /** That is: exactly when the box reaches the edge, leaves room for the least width, and begins half way. */
  lemma SteadyIff(b: Box)
    ensures Steady(ServerBox(b)) <==> !Unsteady(b)
  {
    hide Steady, Halfway, RoundWithin, Round4;
    SteadyBySpan(b);
    if Fraction(b.x, b.width) {
      var r := ServerBox(b);
      var wide := Max(MIN_WIDTH, b.width);
      if b.x > 1.0 - MIN_WIDTH {
        GridEdges();
        assert Span(b.x, b.width, MIN_WIDTH) == (1.0 - MIN_WIDTH, MIN_WIDTH);
      } else if b.x + wide >= 1.0 {
        assert Span(b.x, b.width, MIN_WIDTH) == (b.x, 1.0 - b.x);
        FullSpan(b.x);
      } else {
        assert Span(b.x, b.width, MIN_WIDTH) == (b.x, wide);
        ShortSpan(b.x, wide);
      }
    }
  }

  const UNSTEADY := Box(0.00005, 0.0, 1.0, 300.0)

  /** Such boxes exist. */
  lemma UnsteadyBox()
    ensures Unsteady(UNSTEADY) && !Steady(ServerBox(UNSTEADY))
    ensures ServerBox(UNSTEADY) == Box(0.0001, 0.0, 1.0, 300.0)
    ensures ServerBox(ServerBox(UNSTEADY)) == Box(0.0001, 0.0, 0.9999, 300.0)
  {
    assert 0.00005 * 10000.0 == 0.5;
    SteadyIff(UNSTEADY);
    assert Span(0.00005, 1.0, MIN_WIDTH) == (0.00005, 0.99995);
    assert Round(0.5) == 1 && Round(9999.5) == 10000 && Round(300.0) == 300 && Round(0.0) == 0;
    assert Span(0.0001, 1.0, MIN_WIDTH) == (0.0001, 0.9999);
    assert Round(1.0) == 1 && Round(9999.0) == 9999;
  }

  lemma PixelsSteady(b: Box)
    requires !Fraction(b.x, b.width)
    ensures Steady(ServerBox(b))
  {
    hide Fit, RoundWithin;
    RoundWithinAgain(b.x, 0, 2400);
    RoundWithinAgain(b.y, 0, 2400);
    RoundWithinAgain(b.width, 200, 1600);
    RoundWithinAgain(b.height, 160, 1200);
    AtLeastLow(b.width, LEAST_PIXELS, 1600.0);
  }

  lemma AtLeastLow(x: real, low: real, high: real)
    requires low <= high
    ensures RoundWithin(x, low, high) >= low
  {
  }

  /** Two applications always reach a fixed point. */
  lemma SteadyAfterTwo(b: Box)
    ensures Steady(ServerBox(ServerBox(b)))
  {
    hide Fit, Round4, RoundWithin;
    var r := ServerBox(b);
    SteadyBySpan(b);
    if Fraction(b.x, b.width) && r.x + r.width > 1.0 {
      FitSpec(b, b.x, b.width, MIN_WIDTH);
      FitSides(b, b.x, b.width, MIN_WIDTH);
      GridEdges();
      ServerOnFitted(r);
      SteadyBySpan(r);
    }
  }

  /** The default box of the ninth department and later ones is moved up by the next application. */
  lemma DefaultSteady(index: nat)
    ensures Steady(DefaultBox(index)) <==> index <= 7
    ensures Steady(ServerBox(DefaultBox(index)))
  {
    var b := DefaultBox(index);
    RoundOfInt(0);
    RoundOfInt(index * 316);
    RoundOfInt(440);
    RoundOfInt(300);
    SteadyBySpan(b);
  }

  // ---- The client's boxes on the server

  /** The server changes nothing but the width, by at most one grid step. */
  predicate OnlyTrims(c: Box) {
    var s := ServerBox(c);
    s == c.(width := s.width) && 0.0 <= c.width - s.width <= 0.0001
  }

  ghost predicate ServerKeepsClient(canvasWidth: real) {
    forall visual: Box :: OnlyTrims(ClientBox(visual, canvasWidth))
  }

  lemma LeastWidthBounds(canvasWidth: real)
    ensures 0.0 < LeastWidth(canvasWidth) <= 1.0
  {
  }

  lemma RoundsUpToMin(least: real)
    requires 10000.0 * least > 799.5
    ensures Round4(least) >= MIN_WIDTH && Round4(1.0 - least) <= 1.0 - MIN_WIDTH
  {
    RoundNear(least * 10000.0);
    RoundNear((1.0 - least) * 10000.0);
    assert Round(least * 10000.0) >= 800;
    assert Round((1.0 - least) * 10000.0) <= 9200;
  }

  lemma NarrowCanvasTrims(visual: Box, canvasWidth: real)
    requires 10000.0 * LeastWidth(canvasWidth) > 799.5
    ensures OnlyTrims(ClientBox(visual, canvasWidth))
  {
    hide Fit, Round4, RoundWithin;
    var canvas := Canvas(canvasWidth);
    var least := LeastWidth(canvasWidth);
    LeastWidthBounds(canvasWidth);
    RoundsUpToMin(least);
    FitSpec(visual, visual.x / canvas, visual.width / canvas, least);
    FitSides(visual, visual.x / canvas, visual.width / canvas, least);
    ServerOnFitted(ClientBox(visual, canvasWidth));
  }

  /** On a wider canvas the server moves, or no longer takes for fractions, the narrowest box at the right edge. */
  lemma WideCanvasMoves(canvasWidth: real) returns (visual: Box)
    requires 10000.0 * LeastWidth(canvasWidth) <= 799.5
    ensures !OnlyTrims(ClientBox(visual, canvasWidth))
  {
    var canvas := Canvas(canvasWidth);
    var least := LeastWidth(canvasWidth);
    visual := Box(canvas, 0.0, 0.0, 300.0);
    LeastWidthBounds(canvasWidth);
    assert visual.x / canvas == 1.0 && visual.width / canvas == 0.0;
    assert Span(1.0, 0.0, least) == (1.0 - least, least);
    var c := ClientBox(visual, canvasWidth);
    assert c.x == Round4(1.0 - least) && c.width == Round4(least);
    RoundMonotone(9200.5, (1.0 - least) * 10000.0);
    RoundMonotone(least * 10000.0, 799.5);
    assert c.x >= 0.9201 && c.width <= 0.08;
    ServerMovesBack(c);
  }

  lemma ServerMovesBack(c: Box)
    requires 0.92 < c.x <= 1.0 && c.width <= 0.08
    ensures !OnlyTrims(c)
  {
    hide RoundWithin;
    GridEdges();
    if Fraction(c.x, c.width) {
      assert Span(c.x, c.width, MIN_WIDTH) == (1.0 - MIN_WIDTH, MIN_WIDTH);
    } else {
      AtLeastLow(c.width, LEAST_PIXELS, 1600.0);
    }
  }

  /** The client's boxes survive the server, but for one grid step of width, exactly below about 2501.56 pixels. */
  lemma ServerKeepsClientIff(canvasWidth: real)
    ensures ServerKeepsClient(canvasWidth) <==> 1599.0 * canvasWidth < 4000000.0
  {
    hide OnlyTrims, ServerBox, ClientBox;
    CanvasBound(canvasWidth);
    if 10000.0 * LeastWidth(canvasWidth) > 799.5 {
      forall visual: Box
        ensures OnlyTrims(ClientBox(visual, canvasWidth))
      {
        NarrowCanvasTrims(visual, canvasWidth);
      }
    } else {
      var visual := WideCanvasMoves(canvasWidth);
    }
  }

  lemma CanvasBound(canvasWidth: real)
    ensures 10000.0 * LeastWidth(canvasWidth) > 799.5 <==> 1599.0 * canvasWidth < 4000000.0
  {
    var canvas := Canvas(canvasWidth);
    assert 200.0 / canvas * canvas == 200.0;
    var ratio := 200.0 / canvas;
    if canvas < 4000000.0 / 1599.0 {
      if ratio <= 0.07995 {
        MulMonotone(ratio, 0.07995, canvas);
      }
    } else {
      if ratio > 0.07995 {
        MulMonotone(0.07995, ratio, canvas);
      }
    }
  }

  lemma MulMonotone(a: real, b: real, c: real)
    requires a <= b && c > 0.0
    ensures a * c <= b * c
  {
  }

  // ---- Boxes on the screen

  /** The right-most edge of the boxes that are stored in pixels. */
  function PixelSpan(boxes: seq<Box>): real {
    if boxes == [] then 0.0
    else
      var before, last := PixelSpan(boxes[..|boxes| - 1]), boxes[|boxes| - 1];
      if Fraction(last.x, last.width) then before else Max(before, last.x + last.width)
  }

  function VisualBox(b: Box, canvasWidth: real, pixelSpan: real): Box {
    if canvasWidth <= 0.0 then b
    else if Fraction(b.x, b.width) then b.(x := b.x * canvasWidth, width := b.width * canvasWidth)
    else
      var scale := canvasWidth / Max(canvasWidth, pixelSpan);
      b.(x := b.x * scale, width := b.width * scale)
  }

  function NudgeBox(stored: Box, canvasWidth: real, pixelSpan: real, delta: Box): Box {
    var v := VisualBox(stored, canvasWidth, pixelSpan);
    ClientBox(Box(v.x + delta.x, v.y + delta.y, v.width + delta.width, v.height + delta.height), canvasWidth)
  }

  lemma {:induction false} SpanCovers(boxes: seq<Box>, i: nat)
    requires i < |boxes| && !Fraction(boxes[i].x, boxes[i].width)
    ensures boxes[i].x + boxes[i].width <= PixelSpan(boxes)
  {
    if i < |boxes| - 1 {
      SpanCovers(boxes[..|boxes| - 1], i);
    }
  }

  /** Every pixel box of a layout is drawn with its right edge inside the canvas. */
  lemma PixelBoxesFit(boxes: seq<Box>, i: nat, canvasWidth: real)
    requires i < |boxes| && !Fraction(boxes[i].x, boxes[i].width) && canvasWidth > 0.0
    ensures var v := VisualBox(boxes[i], canvasWidth, PixelSpan(boxes)); v.x + v.width <= canvasWidth
  {
    hide PixelSpan;
    SpanCovers(boxes, i);
    ScaledEdge(boxes[i].x, boxes[i].width, canvasWidth, Max(canvasWidth, PixelSpan(boxes)));
  }

  lemma ScaledEdge(x: real, width: real, canvas: real, wide: real)
    requires 0.0 < canvas <= wide && x + width <= wide
    ensures x * (canvas / wide) + width * (canvas / wide) <= canvas
  {
    var scale := canvas / wide;
    assert scale > 0.0 && scale * wide == canvas;
    MulMonotone(x + width, wide, scale);
    assert (x + width) * scale == x * scale + width * scale;
  }

  lemma ScaledBack(x: real, canvas: real)
    requires canvas >= 1.0
    ensures x * canvas / canvas == x
  {
  }

  /** What a nudge by nothing makes of a stored fraction box: the client's clamp of its own span. */
  lemma NudgeIsClamp(stored: Box, canvasWidth: real, pixelSpan: real)
    requires canvasWidth >= 1.0 && Fraction(stored.x, stored.width)
    ensures NudgeBox(stored, canvasWidth, pixelSpan, Box(0.0, 0.0, 0.0, 0.0))
         == Fit(stored, stored.x, stored.width, LeastWidth(canvasWidth))
  {
    hide RoundWithin, Round4, LeastWidth, Span;
    var v := VisualBox(stored, canvasWidth, pixelSpan);
    ScaledBack(stored.x, canvasWidth);
    ScaledBack(stored.width, canvasWidth);
    assert Canvas(canvasWidth) == canvasWidth;
    assert v.x / canvasWidth == stored.x && v.width / canvasWidth == stored.width;
  }

  /** The two ways to keep a span: to be wide enough and inside, or to be the rounded right-most one. */
  predicate KeepsSpan(x: real, width: real, least: real) {
    || (Round4(least) <= width && x + Max(least, width) <= 1.0)
    || (x > 1.0 - least && x == Round4(1.0 - least) && width == Round4(least))
  }

  /**
   * A nudge by nothing keeps a stored fraction box exactly when, up to rounding, it is as wide as the canvas demands and
   * ends inside, or is the narrowest box at the right edge.
   */
  lemma NudgeByNothing(stored: Box, canvasWidth: real, pixelSpan: real)
    requires canvasWidth >= 1.0 && Fraction(stored.x, stored.width) && OnGrid(stored.x) && OnGrid(stored.width)
    requires RoundWithin(stored.y, 0.0, 2400.0) == stored.y && RoundWithin(stored.height, 160.0, 1200.0) == stored.height
    ensures NudgeBox(stored, canvasWidth, pixelSpan, Box(0.0, 0.0, 0.0, 0.0)) == stored
       <==> KeepsSpan(stored.x, stored.width, LeastWidth(canvasWidth))
  {
    hide RoundWithin, Round4, LeastWidth, Span, KeepsSpan, NudgeBox;
    NudgeIsClamp(stored, canvasWidth, pixelSpan);
    LeastWidthBounds(canvasWidth);
    SpanKeptIff(stored.x, stored.width, LeastWidth(canvasWidth));
  }

  lemma SpanKeptIff(x: real, width: real, least: real)
    requires 0.0 <= x <= 1.0 && 0.0 < width <= 1.0 && 0.0 < least <= 1.0 && OnGrid(x) && OnGrid(width)
    ensures (Round4(Span(x, width, least).0) == x && Round4(Span(x, width, least).1) == width)
       <==> KeepsSpan(x, width, least)
  {
    hide Round4;
    var wide := Max(least, width);
    if x + wide <= 1.0 {
      assert Span(x, width, least) == (x, wide);
      RoundedMax(least, width);
    } else if 1.0 - x >= least {
      assert Span(x, width, least) == (x, 1.0 - x);
      Complement(x);
    } else {
      assert Span(x, width, least) == (1.0 - least, least);
    }
  }

  lemma RoundedMax(a: real, b: real)
    requires OnGrid(b)
    ensures Round4(Max(a, b)) == b <==> Round4(a) <= b
  {
    hide Round4;
    Round4Monotone(if a <= b then a else b, if a <= b then b else a);
  }
}
