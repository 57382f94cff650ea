/** Properties of the inset text layer that relate several calls. */
module InsetsTextProps {
  import opened Wrappers
  import opened Geometry
  import opened Paint
  import opened InsetsText

  /** Sizing to fit a second time changes nothing. */
  lemma SizeToFitIdempotent(l: InsetsTextLayer, measure: Measure)
    ensures SizeToFit(SizeToFit(l, measure), measure) == SizeToFit(l, measure)
  {
  }

  /**
   * With both axes unbounded the measurement does not see the insets, so
   * changing the insets changes the fitted size by exactly the change in
   * each axis's padding.
   */
  lemma UnboundedFitFollowsInsets(l: InsetsTextLayer, insets: Insets, measure: Measure)
    ensures var before := SizeThatFits(l, Unbounded, measure);
      var after := SizeThatFits(l.(insets := insets), Unbounded, measure);
      && after.width - before.width == insets.Horizontal() - l.insets.Horizontal()
      && after.height - before.height == insets.Vertical() - l.insets.Vertical()
  {
  }

  /**
   * With non-negative insets and a frame at least as large as its padding,
   * the text layer lies inside the layer's own bounds.
   */
  lemma TextLayerInsideFrame(l: InsetsTextLayer, f: Rect)
    requires l.insets.top >= 0.0 && l.insets.left >= 0.0
    requires l.insets.bottom >= 0.0 && l.insets.right >= 0.0
    requires f.Width() >= l.insets.Horizontal() && f.Height() >= l.insets.Vertical()
    ensures var t := SetFrame(l, f).textLayer.frame;
      && 0.0 <= t.origin.x && 0.0 <= t.size.width && t.origin.x + t.size.width <= f.Width()
      && 0.0 <= t.origin.y && 0.0 <= t.size.height && t.origin.y + t.size.height <= f.Height()
  {
  }

  /** The copy of a synchronised layer whose text has been assigned is that layer. */
  lemma CopyIsFaithful(src: InsetsTextLayer, screenScale: real)
    requires Synced(src) && src.textLayer.stringValue.Some?
    ensures CopyFrom(Is(src), screenScale) == Success(src)
  {
  }

  /**
   * Before any text is assigned the copy differs from its source only in
   * showing the empty text explicitly.
   */
  lemma CopyOfUntextedLayer(src: InsetsTextLayer, screenScale: real)
    requires Synced(src) && src.textLayer.stringValue.None?
    ensures CopyFrom(Is(src), screenScale).Success?
    ensures CopyFrom(Is(src), screenScale).value == src.(textLayer := src.textLayer.(stringValue := Some("")))
  {
  }

  /** Copying a copy reproduces it. */
  lemma CopyOfCopy(src: InsetsTextLayer, s1: real, s2: real)
    ensures var c := CopyFrom(Is(src), s1).value;
      CopyFrom(Is(c), s2) == Success(c)
  {
  }

  /** One call the host makes on a live layer. */
  datatype Op =
    | AssignFont(font: Font)
    | AssignTextColor(color: Color)
    | AssignText(text: string)
    | AssignAlignment(alignment: Alignment)
    | AssignFrame(frame: Rect)
    | AssignScale(scale: real)
    | FitToText(measure: Measure)

  function Apply(l: InsetsTextLayer, op: Op): InsetsTextLayer {
    match op
    case AssignFont(f) => SetFont(l, f)
    case AssignTextColor(c) => SetTextColor(l, c)
    case AssignText(t) => SetText(l, t)
    case AssignAlignment(a) => SetAlignmentMode(l, a)
    case AssignFrame(f) => SetFrame(l, f)
    case AssignScale(s) => SetContentsScale(l, s)
    case FitToText(m) => SizeToFit(l, m)
  }

  /** The layer after applying `ops` in order. */
  function Replay(l: InsetsTextLayer, ops: seq<Op>): InsetsTextLayer
    decreases |ops|
  {
    if ops == [] then l else Replay(Apply(l, ops[0]), ops[1..])
  }

  /**
   * Every sequence of property assignments and fits keeps the text layer in
   * step with the outer layer, and only an assignment of text sets its
   * string.
   */
  lemma {:induction false} ReplayKeepsSynced(l: InsetsTextLayer, ops: seq<Op>)
    requires Synced(l)
    ensures Synced(Replay(l, ops))
    ensures Replay(l, ops).insets == l.insets
    ensures (forall i :: 0 <= i < |ops| ==> !ops[i].AssignText?) ==>
      Replay(l, ops).textLayer.stringValue == l.textLayer.stringValue
    decreases |ops|
  {
    if ops != [] {
      var next := Apply(l, ops[0]);
      ReplayKeepsSynced(next, ops[1..]);
      if forall i :: 0 <= i < |ops| ==> !ops[i].AssignText? {
        assert forall i :: 0 <= i < |ops[1..]| ==> !ops[1..][i].AssignText? by {
          forall i | 0 <= i < |ops[1..]|
            ensures !ops[1..][i].AssignText?
          {
            assert ops[1..][i] == ops[i + 1];
          }
        }
      }
    }
  }

  /**
   * Snapshot fidelity for a layer in use: once any text has been assigned,
   * its copy equals it, whatever else was assigned before or after.
   */
  lemma ReplayedLayerCopiesFaithfully(insets: Insets, screenScale: real, ops: seq<Op>, copyScale: real)
    requires exists i :: 0 <= i < |ops| && ops[i].AssignText?
    ensures var l := Replay(New(insets, screenScale), ops);
      CopyFrom(Is(l), copyScale) == Success(l)
  {
    var i :| 0 <= i < |ops| && ops[i].AssignText?;
    var start := New(insets, screenScale);
    ReplayTextAssigned(start, ops, i);
    CopyIsFaithful(Replay(start, ops), copyScale);
  }

  /** After an assignment of text a synchronised layer's string stays set. */
  lemma {:induction false} ReplayTextAssigned(l: InsetsTextLayer, ops: seq<Op>, i: int)
    requires Synced(l) && 0 <= i < |ops| && ops[i].AssignText?
    ensures Synced(Replay(l, ops)) && Replay(l, ops).textLayer.stringValue.Some?
    decreases |ops|
  {
    var next := Apply(l, ops[0]);
    if i == 0 {
      ReplayStringStaysSet(next, ops[1..]);
    } else {
      assert ops[1..][i - 1] == ops[i];
      ReplayTextAssigned(next, ops[1..], i - 1);
    }
  }

  /** No operation unsets the text layer's string. */
  lemma {:induction false} ReplayStringStaysSet(l: InsetsTextLayer, ops: seq<Op>)
    requires Synced(l) && l.textLayer.stringValue.Some?
    ensures Synced(Replay(l, ops)) && Replay(l, ops).textLayer.stringValue.Some?
    decreases |ops|
  {
    if ops != [] {
      ReplayStringStaysSet(Apply(l, ops[0]), ops[1..]);
    }
  }
}
