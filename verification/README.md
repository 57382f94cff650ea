# Stockee time-share and inset text layers, in Dafny

This project models two geometry components of the Stockee chart layers and
proves properties of them.

- **`TimeShareLayer`** draws the intraday price line. It takes an array of
  quotes, a half-open visible index range and a content rectangle. It widens
  the range by one sample on each side, clamped to the data. It sets its frame
  from the projected x-span of that window. It builds a polyline with one
  layer-local point per sample, and closes it into a mask polygon with three
  corner points; the mask clips a vertical two-stop gradient. When the
  visible range holds the last sample, it shows a 6×6 indicator dot centred
  on that sample. A palette update recolours the layer. For presentation
  snapshots, a copy initializer builds a freshly configured layer and
  copies the listed properties into it.
- **`InsetsTextLayer`** is a text layer padded by fixed insets. `sizeThatFits`
  shrinks each bounded axis of the request by its insets, measures the text
  and adds the insets back. `sizeToFit` measures without bounds and resizes
  the frame. Every frame assignment places the inner text layer inside the
  padding. The property setters keep the inner text layer in step. A copy
  initializer builds a new layer and copies the listed properties into it.

Layer state is an immutable record, and every operation is a pure function
from old state to new. Coordinates are exact `real`s. The host's
collaborators are parameters:

- the layout's `quoteMidX(at:)` is an `int -> real` function;
- `yOffset(for:)` is a `real -> real` function;
- `String.boundingRect` is a `(string, Font, BoundSize) -> Rect` function.

Nothing is assumed about these functions except where a lemma says so
(`NonDecreasing`, `Increasing`). The `greatestFiniteMagnitude` "unbounded"
sentinel is `None` in a `BoundSize` axis. A failed `as?` downcast in a copy
initializer is a `Failure` result; in the source it is a `fatalError`.

Files:

- `wrappers.dfy` holds `Option`, `Result` and `Downcast`.
- `geometry.dfy` holds `Point`, `Size` and `Rect`, with Core Graphics'
  standardized `width`, `height` and `minY`.
- `paint.dfy` holds colours, fonts and text alignment.
- `time_share.dfy` and `time_share_props.dfy` cover `TimeShareLayer`.
- `insets_text.dfy` and `insets_text_props.dfy` cover `InsetsTextLayer`.

Some details follow the code and Core Graphics exactly:

- `CGRect.width`, `CGRect.height` and `CGRect.minY` are standardized values.
  The mask corners use `|width|` and `|height|` of the frame. The padded
  text size uses `|width|` and `|height|` of the measured rectangle. The local origin
  uses the smaller y-edge of the content rect. The frame's y-origin is the
  content rect's stored `origin.y`.
- `update(with:)` requires only what its code needs to avoid trapping
  (`TimeShare.Drawable`). The range must be well-formed. If it is non-empty,
  widening its bounds by one must not overflow Swift's 64-bit `Int`. The
  widened window must also start at an existing sample, and its bounds must
  be in order. `TimeShareProps.InBoundsWindow` shows that every range with
  `0 <= lower < upper <= count` qualifies when `count < Int.max`. Ranges reaching past the end of
  the data are handled as the code handles them.
- The path always starts with a move to the window's first sample. So a
  window that collapses to nothing still yields a one-point line. That can
  only happen for a range with negative bounds.
- Inside its own initializer, Swift does not run a class's observers on its
  own stored properties. So `font`, `textColor` and `text` in the copy
  initializer do not reach the text layer through their `didSet`. The source
  assigns the text layer explicitly instead, and the model does the same.
  `frame` and `contentsScale` are overridden superclass properties, so their
  observers do run there.
- A new `InsetsTextLayer` has empty `text` while its text layer's `string` is
  still unset. Its copy sets that `string` to `""`
  (`InsetsTextProps.CopyOfUntextedLayer`). From the first text assignment
  on, the copy equals its source exactly
  (`InsetsTextProps.ReplayedLayerCopiesFaithfully`).

Behaviour worth noting:

- The mask's closing traversal ends at the local origin `(0, 0)`, the top-left
  corner, not at the line's first vertex.
- `sizeThatFits` adds the insets back on both axes, also on an axis that was
  requested unbounded.
- The indicator is shown when the visible range contains the last index.
  That includes ranges whose end lies beyond the data, not only those ending
  exactly at the last sample.

## Model

| member | source | states |
|---|---|---|
| TimeShare.ExtendedWindow | Sources/Stockee/ChartRenders/Layers/TimeShareLayer.swift:95-96 | the window start is the least value that is at least 0 and at least `lower - 1`, and the end is the greatest value that is at most `count` and at most `upper + 1` |
| TimeShare.LinePoints | Sources/Stockee/ChartRenders/Layers/TimeShareLayer.swift:107-117 | one point per index of `lo ..< hi`, in order; point k is sample `lo + k` projected by the layout and moved to layer-local coordinates |
| TimeShare.Project | Sources/Stockee/ChartRenders/Layers/TimeShareLayer.swift:95-131 | frame origin `(quoteMidX(start), contentRect.y)`, width `quoteMidX(end-1) - quoteMidX(start)`, content-rect height; line point k is the local projection of sample `start + k`, with `end - start` points (a lone move if the window is empty), and the first x is 0; the mask is the line followed by exactly `(width, height)`, `(0, height)`, `(0, 0)`; the indicator exists iff the original visible range contains `count - 1`, and is then a 6×6 square centred on the local projection of the last sample |
| TimeShare.Update | Sources/Stockee/ChartRenders/Layers/TimeShareLayer.swift:90-132 | the indicator is hidden iff the visible range misses the last sample; an empty range changes only that flag; otherwise frame, gradient frame (the layer's bounds), line path and mask path come from the projection, and the indicator frame moves only when it is shown; every other property of every sublayer is unchanged |
| TimeShare.UpdatePalette | Sources/Stockee/ChartRenders/Layers/TimeShareLayer.swift:78-86 | the gradient is the colour at alpha 0.3 then 0.01, the stroke and the dot take the colour, the shadow takes the second colour; every other property of every sublayer is unchanged |
| TimeShare.CopyFrom | Sources/Stockee/ChartRenders/Layers/TimeShareLayer.swift:54-70 | a source of another type fails; otherwise the copy has the source's geometry and colours on a freshly configured hierarchy |
| TimeShareProps.InBoundsWindow | Sources/Stockee/ChartRenders/Layers/TimeShareLayer.swift:95-96 | for `0 <= s < e <= count` with `count < Int.max` the range is drawable, `0 <= start <= s`, `e <= end <= count`, and the line has exactly `end - start` points |
| TimeShareProps.VisibleSamplesOnLine | Sources/Stockee/ChartRenders/Layers/TimeShareLayer.swift:107-118 | every visible sample is the line vertex at its offset from the window start |
| TimeShareProps.IndicatorOnLastVertex | Sources/Stockee/ChartRenders/Layers/TimeShareLayer.swift:113-128 | a shown indicator is centred exactly on the line's last vertex |
| TimeShareProps.LineWithinFrame | Sources/Stockee/ChartRenders/Layers/TimeShareLayer.swift:97-118 | with a non-decreasing x layout, every line vertex has x between 0 and the frame width |
| TimeShareProps.LineAscends | Sources/Stockee/ChartRenders/Layers/TimeShareLayer.swift:113-117 | with a strictly increasing x layout, the line's x strictly ascends along the path |
| TimeShareProps.UpdateIdempotent | Sources/Stockee/ChartRenders/Layers/TimeShareLayer.swift:90-132 | redrawing twice from one context equals redrawing once |
| TimeShareProps.PaletteCommutesWithUpdate | Sources/Stockee/ChartRenders/Layers/TimeShareLayer.swift:78-132 | recolouring and redrawing commute |
| TimeShareProps.DeterminedByGeometryAndPalette | Sources/Stockee/ChartRenders/Layers/TimeShareLayer.swift:146-167 | two layers with the configured static style, the same geometry and the same palette are equal |
| TimeShareProps.CopyIsFaithful | Sources/Stockee/ChartRenders/Layers/TimeShareLayer.swift:54-70 | the copy of a layer with the configured static style equals it |
| TimeShareProps.ReplayedLayerCopiesFaithfully | Sources/Stockee/ChartRenders/Layers/TimeShareLayer.swift:54-70 | after any sequence of redraws and recolourings of a layer with the configured style, the copy equals the layer |
| TimeShareProps.FreshCopiesFaithfully | Sources/Stockee/ChartRenders/Layers/TimeShareLayer.swift:49-70 | a newly built layer, after any sequence of redraws and recolourings, copies to itself |
| InsetsText.New | Sources/Stockee/ChartRenders/Layers/InsetsTextLayer.swift:62-69 | a new layer keeps its insets and screen scale, starts with the 10-pt system font, white text, a zero frame and natural alignment, is synchronised with its text layer, and has empty text and an unset text-layer string |
| InsetsText.SetContentsScale | Sources/Stockee/ChartRenders/Layers/InsetsTextLayer.swift:22-26 | both the layer's and the text layer's scale take the new value; nothing else changes; synchronisation is kept |
| InsetsText.SetFont | Sources/Stockee/ChartRenders/Layers/InsetsTextLayer.swift:28-33 | the text layer takes the font and its point size; nothing else changes; synchronisation is kept |
| InsetsText.SetTextColor | Sources/Stockee/ChartRenders/Layers/InsetsTextLayer.swift:35-39 | the text layer's foreground colour is the text colour; nothing else changes; synchronisation is kept |
| InsetsText.SetText | Sources/Stockee/ChartRenders/Layers/InsetsTextLayer.swift:41-45 | the text layer's string is the text; nothing else changes; synchronisation is kept |
| InsetsText.SetAlignmentMode | Sources/Stockee/ChartRenders/Layers/InsetsTextLayer.swift:47-54 | alignment read back is the alignment written, held only by the text layer |
| InsetsText.SetFrame | Sources/Stockee/ChartRenders/Layers/InsetsTextLayer.swift:56-60 | the text layer sits at `(left, top)`, and its size plus each axis's insets is the frame's standardized size |
| InsetsText.MeasureBox | Sources/Stockee/ChartRenders/Layers/InsetsTextLayer.swift:104-111 | an axis is bounded iff it was requested bounded; adding that axis's insets back to a bounded axis gives the request |
| InsetsText.SizeThatFits | Sources/Stockee/ChartRenders/Layers/InsetsTextLayer.swift:104-115 | the result less the insets is the standardized size of the text measured in the shrunk request, on both axes, bounded or not |
| InsetsText.SizeToFit | Sources/Stockee/ChartRenders/Layers/InsetsTextLayer.swift:117-121 | the origin is kept; the size equals `sizeThatFits` of an unbounded request; the text layer's size is exactly the standardized unconstrained measurement whenever each axis's insets sum to a non-negative amount; nothing but the frame and the text layer's frame changes |
| InsetsText.CopyFrom | Sources/Stockee/ChartRenders/Layers/InsetsTextLayer.swift:71-98 | a source of another type fails; otherwise the copy has all the source's own state, alignment and text-layer frame, and a text layer showing the source's font, size, colour, scale and text |
| InsetsTextProps.SizeToFitIdempotent | Sources/Stockee/ChartRenders/Layers/InsetsTextLayer.swift:117-121 | sizing to fit twice equals sizing once |
| InsetsTextProps.UnboundedFitFollowsInsets | Sources/Stockee/ChartRenders/Layers/InsetsTextLayer.swift:104-114 | for an unbounded request, changing the insets changes the result by exactly the change in `left + right` and in `top + bottom` |
| InsetsTextProps.TextLayerInsideFrame | Sources/Stockee/ChartRenders/Layers/InsetsTextLayer.swift:56-60 | with non-negative insets and a frame no smaller than its padding, the text layer lies inside the frame's bounds |
| InsetsTextProps.CopyIsFaithful | Sources/Stockee/ChartRenders/Layers/InsetsTextLayer.swift:71-98 | the copy of a synchronised layer whose text has been assigned equals it |
| InsetsTextProps.CopyOfUntextedLayer | Sources/Stockee/ChartRenders/Layers/InsetsTextLayer.swift:71-98 | before any text is assigned, the copy differs from the source only in showing `""` instead of an unset string |
| InsetsTextProps.CopyOfCopy | Sources/Stockee/ChartRenders/Layers/InsetsTextLayer.swift:71-98 | copying a copy reproduces it |
| InsetsTextProps.ReplayKeepsSynced | Sources/Stockee/ChartRenders/Layers/InsetsTextLayer.swift:22-60 | any sequence of assignments and fits keeps the layer synchronised with its text layer and keeps the insets; without a text assignment the text layer's string is unchanged |
| InsetsTextProps.ReplayTextAssigned | Sources/Stockee/ChartRenders/Layers/InsetsTextLayer.swift:41-45 | once text is assigned in a sequence of operations, the text layer's string is set at the end |
| InsetsTextProps.ReplayStringStaysSet | Sources/Stockee/ChartRenders/Layers/InsetsTextLayer.swift:22-60 | no assignment or fit unsets the text layer's string |
| InsetsTextProps.ReplayedLayerCopiesFaithfully | Sources/Stockee/ChartRenders/Layers/InsetsTextLayer.swift:71-98 | a new layer that has received text and any other assignments copies to itself |

## Left out

- The `action(forKey:)` and `defaultAction(forKey:)` overrides return `nil` to suppress Core Animation's implicit animations. They have no data behaviour, so every assignment in the model takes effect at once.
- `configureHierarchy` builds the sublayer tree. Only its static property values are kept, in `TimeShare.Fresh`. The Core Animation defaults it starts from are in `TimeShare.DefaultShape`.
- `init(coder:)` of both layers is archiving plumbing; for `InsetsTextLayer` it is a `fatalError`.
- Antialiasing flags are rendering detail.
- `UIScreen.main.scale` is a platform query. It is the `screenScale` parameter.
- `String.boundingRect` and the layout's pixel mappings are host functions. They are passed in, and nothing is proved about their internals.
- The records hold only the layer properties these two classes read or write. Both copy initializers call `super.init()` rather than `super.init(layer:)`. So the copy resets every other property to its default, for example opacity, transform and, on the inset text layer, its own shape path, fill and stroke. The fidelity lemmas speak only of the recorded properties.
- `CALayer` derives `frame` from `bounds`, `position`, `anchorPoint` and `transform`. Here it is a stored rectangle, and `bounds` is that rectangle at the origin.
- CGFloat is a binary floating-point type. It is modelled as exact `real`, so rounding is not modelled.
- `Quote` is a protocol with no logic. A quote is reduced to its `close` price, the only field the line reads.
- The generic `Delegate` callback utility only does weak-reference lifetime management for event wiring. That utility is not part of this model.
- The `fatalError` message text includes a description of the offending layer. The model keeps only a fixed message string.
- InsetsText.SizeToFit: the text layer's size is stated to equal the measured size only when neither axis's insets sum to a negative amount. With negative insets the padded frame size can be negative. `CGRect.width` and `CGRect.height` are standardized, so such a size would come back with its sign flipped.
