/**
 * Properties of the time-share layer that relate several calls, or a call
 * to an independent description of its result.
 */
module TimeShareProps {
  import opened Wrappers
  import opened Geometry
  import opened Paint
  import opened TimeShare

  /**
   * A visible range that lies inside the data and is not empty, over an array
   * shorter than `Int.max` (so its end can be widened without overflow).
   */
  predicate InBounds(ctx: RenderContext) {
    && 0 <= ctx.visibleRange.lower < ctx.visibleRange.upper <= |ctx.data|
    && |ctx.data| < IntMax
  }

  /**
   * An in-bounds range is always drawable; its window contains it, stays
   * inside the data, and the line then has exactly one point per window
   * sample.
   */
  lemma InBoundsWindow(ctx: RenderContext)
    requires InBounds(ctx)
    ensures Drawable(ctx)
    ensures var w := WindowOf(ctx);
      && 0 <= w.start <= ctx.visibleRange.lower
      && ctx.visibleRange.upper <= w.end <= |ctx.data|
      && w.start < w.end
      && |Project(ctx).line| == w.end - w.start
  {
  }

  /** Every visible sample is a vertex of the line, at its offset in the window. */
  lemma VisibleSamplesOnLine(ctx: RenderContext, i: int)
    requires Drawable(ctx) && !ctx.visibleRange.IsEmpty()
    requires ctx.visibleRange.Contains(i) && 0 <= i < |ctx.data|
    ensures var p := Project(ctx);
      && 0 <= i - WindowOf(ctx).start < |p.line|
      && p.line[i - WindowOf(ctx).start] == LocalPoint(ctx, i)
  {
  }

  /** When the indicator is shown, its centre is the line's last vertex. */
  lemma IndicatorOnLastVertex(ctx: RenderContext)
    requires Drawable(ctx) && !ctx.visibleRange.IsEmpty()
    requires ctx.visibleRange.Contains(|ctx.data| - 1)
    ensures var p := Project(ctx);
      p.indicator.Some? && p.indicator.value.Center() == p.line[|p.line| - 1]
  {
  }

  ghost predicate NonDecreasing(f: int -> real) {
    forall i, j :: i <= j ==> f(i) <= f(j)
  }

  ghost predicate Increasing(f: int -> real) {
    forall i, j :: i < j ==> f(i) < f(j)
  }

  /**
   * With a layout whose x grows with the index, every vertex of the line lies
   * horizontally inside the layer's frame.
   */
  lemma LineWithinFrame(ctx: RenderContext)
    requires Drawable(ctx) && !ctx.visibleRange.IsEmpty()
    requires NonDecreasing(ctx.layout.quoteMidX)
    ensures var p := Project(ctx);
      forall k :: 0 <= k < |p.line| ==> 0.0 <= p.line[k].x <= p.frame.Width()
  {
  }

  /** With a strictly increasing layout, the line's x strictly ascends with the index. */
  lemma LineAscends(ctx: RenderContext)
    requires Drawable(ctx) && !ctx.visibleRange.IsEmpty()
    requires Increasing(ctx.layout.quoteMidX)
    ensures var p := Project(ctx);
      forall j, k :: 0 <= j < k < |p.line| ==> p.line[j].x < p.line[k].x
  {
  }

  /** Redrawing twice from the same context is the same as redrawing once. */
  lemma UpdateIdempotent(l: TimeShareLayer, ctx: RenderContext)
    requires Drawable(ctx)
    ensures Update(Update(l, ctx), ctx) == Update(l, ctx)
  {
  }

  /** Recolouring and redrawing touch disjoint state, so their order does not matter. */
  lemma PaletteCommutesWithUpdate(l: TimeShareLayer, ctx: RenderContext, color: Color, shadow: Color)
    requires Drawable(ctx)
    ensures UpdatePalette(Update(l, ctx), color, shadow) == Update(UpdatePalette(l, color, shadow), ctx)
  {
  }

  /**
   * A layer whose static style is intact is determined by its geometry and
   * its palette.
   */
  lemma DeterminedByGeometryAndPalette(a: TimeShareLayer, b: TimeShareLayer)
    requires StyleIntact(a) && StyleIntact(b)
    requires GeometryOf(a) == GeometryOf(b) && PaletteOf(a) == PaletteOf(b)
    ensures a == b
  {
  }

  /** The copy of a layer whose static style is intact is that layer. */
  lemma CopyIsFaithful(l: TimeShareLayer)
    requires StyleIntact(l)
    ensures CopyFrom(Is(l)) == Success(l)
  {
  }

  /** One call the host makes on a live layer. */
  datatype Op = Redraw(ctx: RenderContext) | Recolor(color: Color, shadow: Color)

  predicate AllDrawable(ops: seq<Op>) {
    forall i :: 0 <= i < |ops| ==> ops[i].Redraw? ==> Drawable(ops[i].ctx)
  }

  /** The layer after applying `ops` in order. */
  function Replay(l: TimeShareLayer, ops: seq<Op>): TimeShareLayer
    requires AllDrawable(ops)
    decreases |ops|
  {
    if ops == [] then l
    else
      var next := match ops[0]
        case Redraw(ctx) => Update(l, ctx)
        case Recolor(c, s) => UpdatePalette(l, c, s);
      Replay(next, ops[1..])
  }

  /**
   * Snapshot fidelity: whatever sequence of redraws and recolourings a newly
   * configured layer has gone through, its copy equals it.
   */
  lemma {:induction false} ReplayedLayerCopiesFaithfully(l: TimeShareLayer, ops: seq<Op>)
    requires StyleIntact(l) && AllDrawable(ops)
    ensures CopyFrom(Is(Replay(l, ops))) == Success(Replay(l, ops))
    decreases |ops|
  {
    if ops == [] {
      CopyIsFaithful(l);
    } else {
      var next := match ops[0]
        case Redraw(ctx) => Update(l, ctx)
        case Recolor(c, s) => UpdatePalette(l, c, s);
      assert AllDrawable(ops[1..]) by {
        forall i | 0 <= i < |ops[1..]| && ops[1..][i].Redraw?
          ensures Drawable(ops[1..][i].ctx)
        {
          assert ops[1..][i] == ops[i + 1];
        }
      }
      ReplayedLayerCopiesFaithfully(next, ops[1..]);
    }
  }

  /** A newly configured layer, and so every layer the host ever sees, has its style intact. */
  lemma FreshCopiesFaithfully(ops: seq<Op>)
    requires AllDrawable(ops)
    ensures CopyFrom(Is(Replay(Fresh, ops))) == Success(Replay(Fresh, ops))
  {
    ReplayedLayerCopiesFaithfully(Fresh, ops);
  }
}
