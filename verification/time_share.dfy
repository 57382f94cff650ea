/**
 * The time-share (intraday price line) layer: projection of a window of
 * quotes into layer-local geometry, and the four-sublayer composition that
 * holds the result (gradient fill clipped by a mask, line stroke, indicator
 * dot inside a shadow container).
 *
 * Layer state is an immutable record; every operation of the layer is a pure
 * function from the old state to the new one.
 */
module TimeShare {
  import opened Wrappers
  import opened Geometry
  import opened Paint

  /** Side of the square last-value indicator. */
  const IndicatorWidth: real := 6.0

  /** Alpha of the gradient's top and bottom stops. */
  const GradientTopAlpha: real := 0.3
  const GradientBottomAlpha: real := 0.01

  /** One sample; `close` is the only field the price line reads. */
  datatype Quote = Quote(close: real)

  /** A half-open index interval `lower ..< upper`, as Swift's `Range<Int>`. */
  datatype IndexRange = IndexRange(lower: int, upper: int) {

    /** Swift refuses to build a range whose bounds are out of order. */
    predicate Valid() {
      lower <= upper
    }

    predicate IsEmpty() {
      lower == upper
    }

    predicate Contains(i: int) {
      lower <= i < upper
    }
  }

  /**
   * The host's pixel mappings: a sample index to the x of its middle, and a
   * price to its y. Both are supplied by the caller; nothing is assumed
   * about them.
   */
  datatype Layout = Layout(quoteMidX: int -> real, yOffset: real -> real)

  /** Everything one redraw reads. */
  datatype RenderContext = RenderContext(
    data: seq<Quote>,
    visibleRange: IndexRange,
    layout: Layout,
    contentRect: Rect)

  /** A polyline: the first point is a move, every later one a line segment. */
  type Path = seq<Point>

  /** The `ShapeLayer` properties these layers read or write. */
  datatype ShapeLayer = ShapeLayer(
    frame: Rect,
    path: Option<Path>,
    strokeColor: Option<Color>,
    fillColor: Option<Color>,
    lineWidth: real,
    backgroundColor: Option<Color>,
    cornerRadius: real,
    masksToBounds: bool,
    hidden: bool,
    shadowColor: Option<Color>,
    shadowRadius: real,
    shadowOffset: Size,
    shadowOpacity: real)

  datatype GradientLayer = GradientLayer(
    frame: Rect,
    colors: Option<seq<Color>>,
    startPoint: Point,
    endPoint: Point)

  /**
   * The composed layer. `mask` is the gradient's mask layer; `indicator` is
   * the dot, a sublayer of `indicatorShadow`.
   */
  datatype TimeShareLayer = TimeShareLayer(
    frame: Rect,
    gradient: GradientLayer,
    mask: ShapeLayer,
    line: ShapeLayer,
    indicator: ShapeLayer,
    indicatorShadow: ShapeLayer)

  /** A shape layer as Core Animation creates it. */
  const DefaultShape: ShapeLayer :=
    ShapeLayer(
      frame := ZeroRect,
      path := None,
      strokeColor := None,
      fillColor := Some(Black),
      lineWidth := 1.0,
      backgroundColor := None,
      cornerRadius := 0.0,
      masksToBounds := false,
      hidden := false,
      shadowColor := Some(Black),
      shadowRadius := 3.0,
      shadowOffset := Size(0.0, -3.0),
      shadowOpacity := 0.0)

  /** A new layer after `configureHierarchy`: the static styling of each sublayer. */
  const Fresh: TimeShareLayer :=
    TimeShareLayer(
      frame := ZeroRect,
      gradient := GradientLayer(ZeroRect, None, Point(0.5, 0.0), Point(0.5, 1.0)),
      mask := DefaultShape,
      line := DefaultShape.(lineWidth := 1.0, fillColor := Some(Clear)),
      indicator := DefaultShape.(
        backgroundColor := Some(Clear),
        masksToBounds := true,
        cornerRadius := IndicatorWidth / 2.0,
        frame := Rect(ZeroPoint, Size(IndicatorWidth, IndicatorWidth))),
      indicatorShadow := DefaultShape.(
        masksToBounds := false,
        shadowRadius := 8.0,
        shadowOffset := Size(0.0, 1.0),
        shadowOpacity := 1.0))

  /**
   * The static styling is as `configureHierarchy` left it: every property
   * other than those the redraw, the palette update and the copy write
   * still holds its configured value.
   */
  predicate StyleIntact(l: TimeShareLayer) {
    && l.gradient == Fresh.gradient.(frame := l.gradient.frame, colors := l.gradient.colors)
    && l.mask == Fresh.mask.(path := l.mask.path)
    && l.line == Fresh.line.(path := l.line.path, strokeColor := l.line.strokeColor)
    && l.indicator == Fresh.indicator.(backgroundColor := l.indicator.backgroundColor)
    && l.indicatorShadow == Fresh.indicatorShadow.(
         hidden := l.indicatorShadow.hidden,
         frame := l.indicatorShadow.frame,
         shadowColor := l.indicatorShadow.shadowColor)
  }

  /** The geometry a redraw writes. */
  datatype LayerGeometry = LayerGeometry(
    frame: Rect,
    gradientFrame: Rect,
    linePath: Option<Path>,
    maskPath: Option<Path>,
    indicatorHidden: bool,
    indicatorFrame: Rect)

  function GeometryOf(l: TimeShareLayer): LayerGeometry {
    LayerGeometry(l.frame, l.gradient.frame, l.line.path, l.mask.path,
                  l.indicatorShadow.hidden, l.indicatorShadow.frame)
  }

  /** The colours a palette update writes. */
  datatype Palette = Palette(
    gradientColors: Option<seq<Color>>,
    strokeColor: Option<Color>,
    indicatorColor: Option<Color>,
    shadowColor: Option<Color>)

  function PaletteOf(l: TimeShareLayer): Palette {
    Palette(l.gradient.colors, l.line.strokeColor, l.indicator.backgroundColor,
            l.indicatorShadow.shadowColor)
  }

  // ---------------------------------------------------------------------------
  // Projection

  function Max(a: int, b: int): int {
    if a < b then b else a
  }

  function Min(a: int, b: int): int {
    if a < b then a else b
  }

  /** The half-open index window `start ..< end` the line is drawn over. */
  datatype Window = Window(start: int, end: int)

  /**
   * The visible range widened by one sample on each side and clamped to the
   * data: the start is the largest of 0 and `lower - 1`, the end the smallest
   * of `count` and `upper + 1`.
   */
  function ExtendedWindow(r: IndexRange, count: int): (w: Window)
    ensures 0 <= w.start && r.lower - 1 <= w.start
    ensures w.start == 0 || w.start == r.lower - 1
    ensures w.end <= count && w.end <= r.upper + 1
    ensures w.end == count || w.end == r.upper + 1
  {
    Window(Max(0, r.lower - 1), Min(count, r.upper + 1))
  }

  function WindowOf(ctx: RenderContext): Window {
    ExtendedWindow(ctx.visibleRange, |ctx.data|)
  }

  /** The bounds of Swift's 64-bit `Int`, whose arithmetic traps on overflow. */
  const IntMin: int := -0x8000_0000_0000_0000
  const IntMax: int := 0x7fff_ffff_ffff_ffff

  /**
   * What a redraw needs of its context to run to completion: a well-formed
   * range and, unless it is empty, bounds that can be widened by one without
   * overflowing `Int`, and a window whose first sample exists and whose
   * bounds are in order (otherwise the code indexes past the data or builds
   * an inverted range).
   */
  predicate Drawable(ctx: RenderContext) {
    && ctx.visibleRange.Valid()
    && (!ctx.visibleRange.IsEmpty() ==>
          && IntMin < ctx.visibleRange.lower
          && ctx.visibleRange.upper < IntMax
          && WindowOf(ctx).start < |ctx.data|
          && WindowOf(ctx).start <= WindowOf(ctx).end)
  }

  /** The layer-local origin: the window's first x and the content rect's top. */
  function LocalOrigin(ctx: RenderContext): Point {
    Point(ctx.layout.quoteMidX(WindowOf(ctx).start), ctx.contentRect.MinY())
  }

  /** Sample `i` projected to pixels and moved into layer-local coordinates. */
  function LocalPoint(ctx: RenderContext, i: int): Point
    requires 0 <= i < |ctx.data|
  {
    Point(ctx.layout.quoteMidX(i) - LocalOrigin(ctx).x,
          ctx.layout.yOffset(ctx.data[i].close) - LocalOrigin(ctx).y)
  }

  /** One local point per sample of `lo ..< hi`, in index order. */
  function LinePoints(ctx: RenderContext, lo: int, hi: int): (r: Path)
    requires 0 <= lo <= hi <= |ctx.data|
    decreases hi - lo
    ensures |r| == hi - lo
    ensures forall k :: 0 <= k < |r| ==> r[k] == LocalPoint(ctx, lo + k)
  {
    if lo == hi then [] else [LocalPoint(ctx, lo)] + LinePoints(ctx, lo + 1, hi)
  }

  /** The indicator square of side `IndicatorWidth` centred on `c`. */
  function IndicatorFrame(c: Point): Rect {
    Rect(Point(c.x - IndicatorWidth / 2.0, c.y - IndicatorWidth / 2.0),
         Size(IndicatorWidth, IndicatorWidth))
  }

  /** The three points that close the line down to the bottom and left edges. */
  function MaskCorners(frame: Rect): Path {
    [Point(frame.Width(), frame.Height()), Point(0.0, frame.Height()), ZeroPoint]
  }

  /** The geometry of one non-empty redraw, before it is written to the layers. */
  datatype Projection = Projection(frame: Rect, line: Path, mask: Path, indicator: Option<Rect>)

  /**
   * Project a non-empty visible range: the frame spans the window's x-range
   * and the content rect's vertical extent; the line has one local point per
   * window sample (a lone move when the window is empty); the mask is the line
   * closed by three corner points; the indicator exists exactly when the
   * visible range, not the window, holds the last sample.
   */
  function Project(ctx: RenderContext): (p: Projection)
    requires Drawable(ctx) && !ctx.visibleRange.IsEmpty()
    ensures var w := WindowOf(ctx);
      && p.frame.origin == Point(ctx.layout.quoteMidX(w.start), ctx.contentRect.origin.y)
      && p.frame.size == Size(ctx.layout.quoteMidX(w.end - 1) - ctx.layout.quoteMidX(w.start),
                              ctx.contentRect.size.height)
      && |p.line| == (if w.start < w.end then w.end - w.start else 1)
      && (forall k :: 0 <= k < |p.line| ==> p.line[k] == LocalPoint(ctx, w.start + k))
    ensures p.line[0].x == 0.0
    ensures |p.mask| == |p.line| + 3 && p.mask[..|p.line|] == p.line
    ensures p.mask[|p.line|..] ==
      [Point(p.frame.Width(), p.frame.Height()), Point(0.0, p.frame.Height()), Point(0.0, 0.0)]
    ensures p.indicator.Some? <==> ctx.visibleRange.Contains(|ctx.data| - 1)
    ensures p.indicator.Some? ==>
      && p.indicator.value.size == Size(IndicatorWidth, IndicatorWidth)
      && p.indicator.value.Center() == LocalPoint(ctx, |ctx.data| - 1)
  {
    var w := WindowOf(ctx);
    var minX := ctx.layout.quoteMidX(w.start);
    var maxX := ctx.layout.quoteMidX(w.end - 1);
    var frame := Rect(Point(minX, ctx.contentRect.origin.y),
                      Size(maxX - minX, ctx.contentRect.size.height));
    var line := [LocalPoint(ctx, w.start)] + LinePoints(ctx, w.start + 1, Max(w.start + 1, w.end));
    var last := |ctx.data| - 1;
    var indicator :=
      if ctx.visibleRange.Contains(last) then Some(IndicatorFrame(LocalPoint(ctx, last))) else None;
    Projection(frame, line, line + MaskCorners(frame), indicator)
  }

  // ---------------------------------------------------------------------------
  // Operations on the layer

  /**
   * Redraw from a context (`update(with:)`). An empty range only hides the
   * indicator. Otherwise the projection is written to the frame, the gradient
   * (filling the layer's bounds), the line, the mask and the indicator, whose
   * frame moves only when it is shown. Either way the indicator is hidden
   * exactly when the visible range misses the last sample, and no colour or
   * static style changes.
   */
  function Update(l: TimeShareLayer, ctx: RenderContext): (r: TimeShareLayer)
    requires Drawable(ctx)
    ensures r.indicatorShadow.hidden <==> !ctx.visibleRange.Contains(|ctx.data| - 1)
    ensures PaletteOf(r) == PaletteOf(l)
    ensures StyleIntact(l) ==> StyleIntact(r)
    ensures r.gradient == l.gradient.(frame := r.gradient.frame)
    ensures r.line == l.line.(path := r.line.path)
    ensures r.mask == l.mask.(path := r.mask.path)
    ensures r.indicator == l.indicator
    ensures r.indicatorShadow ==
      l.indicatorShadow.(hidden := r.indicatorShadow.hidden, frame := r.indicatorShadow.frame)
    ensures ctx.visibleRange.IsEmpty() ==>
      GeometryOf(r) == GeometryOf(l).(indicatorHidden := true)
    ensures !ctx.visibleRange.IsEmpty() ==>
      var p := Project(ctx);
      && r.frame == p.frame
      && r.gradient.frame == Rect(ZeroPoint, p.frame.size)
      && r.line.path == Some(p.line)
      && r.mask.path == Some(p.mask)
      && r.indicatorShadow.frame == (if p.indicator.Some? then p.indicator.value else l.indicatorShadow.frame)
  {
    if ctx.visibleRange.IsEmpty() then
      l.(indicatorShadow := l.indicatorShadow.(hidden := true))
    else
      var p := Project(ctx);
      l.(frame := p.frame,
         gradient := l.gradient.(frame := p.frame.Bounds()),
         line := l.line.(path := Some(p.line)),
         mask := l.mask.(path := Some(p.mask)),
         indicatorShadow :=
           if p.indicator.Some? then
             l.indicatorShadow.(hidden := false, frame := p.indicator.value)
           else
             l.indicatorShadow.(hidden := true))
  }

  /**
   * Recolour (`update(color:indicatorShadowColor:)`): a two-stop gradient of
   * `color` at the top and bottom alphas, the line and the dot in `color`, the
   * shadow in `shadowColor`; no geometry changes.
   */
  function UpdatePalette(l: TimeShareLayer, color: Color, shadowColor: Color): (r: TimeShareLayer)
    ensures PaletteOf(r) ==
      Palette(Some([color.WithAlpha(GradientTopAlpha), color.WithAlpha(GradientBottomAlpha)]),
              Some(color), Some(color), Some(shadowColor))
    ensures PaletteOf(r).gradientColors.value[0].alpha == 0.3
    ensures PaletteOf(r).gradientColors.value[1].alpha == 0.01
    ensures GeometryOf(r) == GeometryOf(l)
    ensures StyleIntact(l) ==> StyleIntact(r)
    ensures r.frame == l.frame
    ensures r.gradient == l.gradient.(colors := r.gradient.colors)
    ensures r.mask == l.mask
    ensures r.line == l.line.(strokeColor := r.line.strokeColor)
    ensures r.indicator == l.indicator.(backgroundColor := r.indicator.backgroundColor)
    ensures r.indicatorShadow == l.indicatorShadow.(shadowColor := r.indicatorShadow.shadowColor)
  {
    l.(gradient := l.gradient.(colors := Some([color.WithAlpha(GradientTopAlpha),
                                               color.WithAlpha(GradientBottomAlpha)])),
       line := l.line.(strokeColor := Some(color)),
       indicator := l.indicator.(backgroundColor := Some(color)),
       indicatorShadow := l.indicatorShadow.(shadowColor := Some(shadowColor)))
  }

  /**
   * The copy initializer `init(layer:)`: a source that is not a time-share
   * layer is fatal; otherwise a freshly configured layer receives the
   * source's geometry and colours.
   */
  function CopyFrom(src: Downcast<TimeShareLayer>): (r: Result<TimeShareLayer, string>)
    ensures r.Failure? <==> src.IsNot?
    ensures src.Is? ==>
      && GeometryOf(r.value) == GeometryOf(src.value)
      && PaletteOf(r.value) == PaletteOf(src.value)
      && StyleIntact(r.value)
  {
    match src
    case IsNot(_) => Failure("init(layer:) error")
    case Is(layer) =>
      var c := Fresh;
      Success(c.(
        frame := layer.frame,
        gradient := c.gradient.(colors := layer.gradient.colors, frame := layer.gradient.frame),
        line := c.line.(strokeColor := layer.line.strokeColor, path := layer.line.path),
        mask := c.mask.(path := layer.mask.path),
        indicator := c.indicator.(backgroundColor := layer.indicator.backgroundColor),
        indicatorShadow := c.indicatorShadow.(
          shadowColor := layer.indicatorShadow.shadowColor,
          hidden := layer.indicatorShadow.hidden,
          frame := layer.indicatorShadow.frame)))
  }
}
