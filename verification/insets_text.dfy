/**
 * A text layer padded by fixed insets: the outer layer owns the frame and the
 * text properties, and keeps an inner text layer placed inside the padding
 * and in step with those properties. It also sizes itself to its text.
 */
module InsetsText {
  import opened Wrappers
  import opened Geometry
  import opened Paint

  /** `UIEdgeInsets`: padding on each side, fixed for the life of a layer. */
  datatype Insets = Insets(top: real, left: real, bottom: real, right: real) {

    function Horizontal(): real {
      left + right
    }

    function Vertical(): real {
      top + bottom
    }
  }

  /**
   * A size request whose axes may each be unbounded; `None` stands for the
   * `greatestFiniteMagnitude` sentinel.
   */
  datatype BoundSize = BoundSize(width: Option<real>, height: Option<real>)

  const Unbounded: BoundSize := BoundSize(None, None)

  /**
   * The host's text measurement, `String.boundingRect` with line-fragment
   * layout: the rectangle bounding `text` in `font` within a bound. Callers
   * read its standardized width and height.
   */
  type Measure = (string, Font, BoundSize) -> Rect

  /** The inner `CATextLayer` properties the outer layer drives. */
  datatype TextLayer = TextLayer(
    frame: Rect,
    font: Font,
    fontSize: real,
    foregroundColor: Color,
    stringValue: Option<string>,  // the `string` property
    alignmentMode: Alignment,
    contentsScale: real)

  datatype InsetsTextLayer = InsetsTextLayer(
    insets: Insets,
    frame: Rect,
    contentsScale: real,
    font: Font,
    textColor: Color,
    text: string,
    backgroundColor: Option<Color>,
    cornerRadius: real,
    borderWidth: real,
    borderColor: Option<Color>,
    zPosition: real,
    textLayer: TextLayer)
  {
    /** The alignment is not stored here: it is read from the text layer. */
    function AlignmentMode(): Alignment {
      textLayer.alignmentMode
    }
  }

  /**
   * The text layer mirrors the outer layer's font, point size, colour and
   * scale, and shows its text; before any text is assigned the text layer's
   * string is still unset and the text is empty.
   */
  predicate Synced(l: InsetsTextLayer) {
    && l.textLayer.font == l.font
    && l.textLayer.fontSize == l.font.pointSize
    && l.textLayer.foregroundColor == l.textColor
    && l.textLayer.contentsScale == l.contentsScale
    && (l.textLayer.stringValue == Some(l.text) || (l.textLayer.stringValue.None? && l.text == ""))
  }

  /** `init(insets:)` on a screen whose scale is `screenScale`. */
  function New(insets: Insets, screenScale: real): (l: InsetsTextLayer)
    ensures Synced(l)
    ensures l.insets == insets && l.contentsScale == screenScale
    ensures l.font == SystemFont10 && l.textColor == White
    ensures l.frame == ZeroRect && l.AlignmentMode() == Natural
    ensures l.text == "" && l.textLayer.stringValue.None?
  {
    InsetsTextLayer(
      insets := insets,
      frame := ZeroRect,
      contentsScale := screenScale,
      font := SystemFont10,
      textColor := White,
      text := "",
      backgroundColor := None,
      cornerRadius := 0.0,
      borderWidth := 0.0,
      borderColor := Some(Black),
      zPosition := 0.0,
      textLayer := TextLayer(ZeroRect, SystemFont10, SystemFont10.pointSize, White, None, Natural, screenScale))
  }

  // ---------------------------------------------------------------------------
  // Property setters

  function SetContentsScale(l: InsetsTextLayer, s: real): (r: InsetsTextLayer)
    ensures r.contentsScale == s && r.textLayer.contentsScale == s
    ensures Synced(l) ==> Synced(r)
    ensures r.(contentsScale := l.contentsScale, textLayer := r.textLayer.(contentsScale := l.textLayer.contentsScale)) == l
  {
    l.(contentsScale := s, textLayer := l.textLayer.(contentsScale := s))
  }

  function SetFont(l: InsetsTextLayer, f: Font): (r: InsetsTextLayer)
    ensures r.font == f && r.textLayer.font == f && r.textLayer.fontSize == f.pointSize
    ensures Synced(l) ==> Synced(r)
    ensures r.(font := l.font, textLayer := r.textLayer.(font := l.textLayer.font, fontSize := l.textLayer.fontSize)) == l
  {
    l.(font := f, textLayer := l.textLayer.(font := f, fontSize := f.pointSize))
  }

  function SetTextColor(l: InsetsTextLayer, c: Color): (r: InsetsTextLayer)
    ensures r.textColor == c && r.textLayer.foregroundColor == c
    ensures Synced(l) ==> Synced(r)
    ensures r.(textColor := l.textColor, textLayer := r.textLayer.(foregroundColor := l.textLayer.foregroundColor)) == l
  {
    l.(textColor := c, textLayer := l.textLayer.(foregroundColor := c))
  }

  function SetText(l: InsetsTextLayer, t: string): (r: InsetsTextLayer)
    ensures r.text == t && r.textLayer.stringValue == Some(t)
    ensures Synced(l) ==> Synced(r)
    ensures r.(text := l.text, textLayer := r.textLayer.(stringValue := l.textLayer.stringValue)) == l
  {
    l.(text := t, textLayer := l.textLayer.(stringValue := Some(t)))
  }

  /** The alignment setter delegates to the text layer. */
  function SetAlignmentMode(l: InsetsTextLayer, a: Alignment): (r: InsetsTextLayer)
    ensures r.AlignmentMode() == a
    ensures Synced(l) ==> Synced(r)
    ensures r.(textLayer := r.textLayer.(alignmentMode := l.textLayer.alignmentMode)) == l
  {
    l.(textLayer := l.textLayer.(alignmentMode := a))
  }

  /**
   * Assigning the frame places the text layer at (left, top), its size the
   * frame's standardized size less the insets of that axis.
   */
  function SetFrame(l: InsetsTextLayer, f: Rect): (r: InsetsTextLayer)
    ensures r.frame == f
    ensures r.textLayer.frame.origin == Point(l.insets.left, l.insets.top)
    ensures r.textLayer.frame.size.width + l.insets.Horizontal() == f.Width()
    ensures r.textLayer.frame.size.height + l.insets.Vertical() == f.Height()
    ensures Synced(l) ==> Synced(r)
    ensures r.(frame := l.frame, textLayer := r.textLayer.(frame := l.textLayer.frame)) == l
  {
    var inner := Rect(Point(l.insets.left, l.insets.top),
                      Size(f.Width() - l.insets.left - l.insets.right,
                           f.Height() - l.insets.top - l.insets.bottom));
    l.(frame := f, textLayer := l.textLayer.(frame := inner))
  }

  // ---------------------------------------------------------------------------
  // Sizing

  /**
   * The bound the text is measured in: each bounded axis shrunk by that
   * axis's insets, each unbounded axis left unbounded. Adding the insets back
   * recovers the request.
   */
  function MeasureBox(insets: Insets, size: BoundSize): (b: BoundSize)
    ensures b.width.Some? <==> size.width.Some?
    ensures b.height.Some? <==> size.height.Some?
    ensures size.width.Some? ==> b.width.value + insets.Horizontal() == size.width.value
    ensures size.height.Some? ==> b.height.value + insets.Vertical() == size.height.value
  {
    BoundSize(
      if size.width.Some? then Some(size.width.value - insets.left - insets.right) else None,
      if size.height.Some? then Some(size.height.value - insets.top - insets.bottom) else None)
  }

  /** A measured text rectangle's standardized size grown by the insets on both axes. */
  function Pad(insets: Insets, m: Rect): Size {
    Size(m.Width() + insets.left + insets.right, m.Height() + insets.top + insets.bottom)
  }

  /**
   * `sizeThatFits`: the text measured within the shrunk request, then grown
   * back by the insets on both axes, whether the axis was bounded or not.
   */
  function SizeThatFits(l: InsetsTextLayer, size: BoundSize, measure: Measure): (r: Size)
    ensures var m := measure(l.text, l.font, MeasureBox(l.insets, size));
      r.width - l.insets.Horizontal() == m.Width() && r.height - l.insets.Vertical() == m.Height()
  {
    Pad(l.insets, measure(l.text, l.font, MeasureBox(l.insets, size)))
  }

  /**
   * `sizeToFit`: keep the origin and take the size of an unbounded fit, which
   * is the unconstrained measurement plus the insets. The frame assignment
   * then places the text layer, whose size is the measured size itself
   * whenever the insets of each axis do not sum to a negative amount.
   */
  function SizeToFit(l: InsetsTextLayer, measure: Measure): (r: InsetsTextLayer)
    ensures r.frame.origin == l.frame.origin
    ensures r.frame.size == SizeThatFits(l, Unbounded, measure)
    ensures r.textLayer.frame.origin == Point(l.insets.left, l.insets.top)
    ensures var m := measure(l.text, l.font, Unbounded);
      l.insets.Horizontal() >= 0.0 && l.insets.Vertical() >= 0.0 ==>
        r.textLayer.frame.size == Size(m.Width(), m.Height())
    ensures Synced(l) ==> Synced(r)
    ensures r == l.(frame := Rect(l.frame.origin, SizeThatFits(l, Unbounded, measure)),
                    textLayer := l.textLayer.(frame := r.textLayer.frame))
  {
    var expected := measure(l.text, l.font, Unbounded);
    SetFrame(l, Rect(l.frame.origin, Pad(l.insets, expected)))
  }

  // ---------------------------------------------------------------------------
  // Copy

  /**
   * The copy initializer `init(layer:)`: a source that is not an inset text
   * layer is fatal. Otherwise the copy has the source's insets, frame, scale,
   * font, colour, text, alignment, decoration, z-position and text-layer
   * frame, and its text layer shows the source's own font, colour, scale and
   * text.
   */
  function CopyFrom(src: Downcast<InsetsTextLayer>, screenScale: real): (r: Result<InsetsTextLayer, string>)
    ensures r.Failure? <==> src.IsNot?
    ensures src.Is? ==>
      var s := src.value;
      r.value == s.(textLayer := s.textLayer.(
        font := s.font,
        fontSize := s.font.pointSize,
        foregroundColor := s.textColor,
        stringValue := Some(s.text),
        contentsScale := s.contentsScale))
    ensures src.Is? ==> Synced(r.value)
  {
    match src
    case IsNot(_) => Failure("init(layer:) layer class")
    case Is(layer) =>
      var l0 := New(layer.insets, screenScale);
      var l1 := SetFrame(l0, layer.frame);
      var l2 := SetContentsScale(l1, layer.contentsScale);
      // Observers of the layer's own stored properties do not run inside its
      // initializer; the text layer is assigned explicitly instead.
      var l3 := l2.(font := layer.font,
                    textLayer := l2.textLayer.(font := layer.font, fontSize := layer.font.pointSize));
      var l4 := l3.(textColor := layer.textColor,
                    textLayer := l3.textLayer.(foregroundColor := layer.textColor));
      var l5 := l4.(text := layer.text, textLayer := l4.textLayer.(stringValue := Some(layer.text)));
      var l6 := SetAlignmentMode(l5, layer.AlignmentMode());
      var l7 := l6.(backgroundColor := layer.backgroundColor,
                    cornerRadius := layer.cornerRadius,
                    borderWidth := layer.borderWidth,
                    borderColor := layer.borderColor);
      var l8 := l7.(textLayer := l7.textLayer.(frame := layer.textLayer.frame),
                    zPosition := layer.zPosition);
      Success(l8)
  }
}
