/**
 * The link-tap gesture of the ClickableLabel widget (class Label, Label.swift).
 *
 * The widget keeps an optional text storage, the link under the finger, and a shape
 * layer that draws a rounded highlight under that link. Its four touch handlers move
 * this state; a tap handler is called when a touch ends on a highlighted link.
 *
 * Everything the handlers ask of UIKit and TextKit (glyph lookup, attributes and
 * their effective range, enclosing rects, NSURL parsing, point-in-path) is supplied
 * as a Platform value. The transitions are first written as pure functions over a
 * LabelState value; class Label then updates its fields as the source does and is
 * proved to follow those functions.
 */
module ClickableLabel {
  import opened Wrappers
  import opened Geometry

  /** Label.HIGHLIGHT_LINK_CORNER_RADIUS. */
  const CornerRadius: real := 3.0

  /** CGFloat.max on a 64-bit device, the largest finite double (2^1024 - 2^971). */
  const CGFloatMax: real := 179769313486231570814527423731704356798070567525844996598917476803157260780028538760589558632766878171540458953514382464234321326889464182768467546703537516986049910576551282076245490090389328944075868508455133942304583236903222948165808559332123348274797826204144723168738177180919299881250404026184124858368.0

  /** An NSURL, identified by its string form. */
  datatype Url = Url(absoluteString: string)

  /** The characters of an NSAttributedString. Its attributes are only ever read
      through Platform.attributesAtIndex. */
  datatype AttributedText = AttributedText(text: string)

  /** An NSRange. */
  datatype TextRange = TextRange(location: nat, length: nat)

  /** The value of NSLinkAttributeName at a position: missing, an NSURL, an NSString,
      or an object of some other class. */
  datatype LinkAttribute = Absent | UrlValue(url: Url) | StringValue(text: string) | OtherValue

  /** attributesAtIndex(_:effectiveRange:): the link attribute at an index and the
      effective range it reports, the run over which all attributes are the same as at
      that index. The run can be only part of the link. */
  datatype AttributeRun = AttributeRun(link: LinkAttribute, effectiveRange: TextRange)

  /** The foreign calls the touch handlers make, as total functions. */
  datatype Platform = Platform(
    glyphIndexForPoint: Point -> nat,
    attributesAtIndex: nat -> AttributeRun,
    glyphRangeForCharacterRange: TextRange -> TextRange,
    enclosingRects: TextRange -> seq<Rect>,
    urlFromString: string -> Option<Url>,
    pathContainsPoint: (Path, Point) -> bool)

  /** The CAShapeLayer that draws the highlight: its hidden flag, whether it is a
      sublayer of the label's layer, its frame (None is CGRectNull) and its path. */
  datatype Layer = Layer(hidden: bool, attached: bool, frame: Option<Rect>, path: Option<Path>)

  /** A fresh CAShapeLayer: shown, detached, zero frame, no path. */
  const InitialLayer := Layer(false, false, Some(Rect(0.0, 0.0, 0.0, 0.0)), None)

  /** The state the touch handlers read and write. hasLinkTapHandler says whether
      linkTapHandler is set. */
  datatype LabelState = LabelState(
    textStorage: Option<AttributedText>,
    highlightedLink: Option<Url>,
    hasLinkTapHandler: bool,
    layer: Layer)

  const InitialState := LabelState(None, None, false, InitialLayer)

  /** What touchesBegan makes of the link attribute: not a link at all, or a link
      whose target may have failed to parse. */
  datatype Hit = Miss | Link(link: Option<Url>)

  function LinkHit(a: LinkAttribute, urlFromString: string -> Option<Url>): Hit
  {
    match a
    case UrlValue(u) => Link(Some(u))
    case StringValue(t) => Link(urlFromString(t))
    case _ => Miss
  }

  /** The subpath appended for one enclosing rect: the rect with its height grown by
      the corner radius, rounded with that radius. */
  function PaddedRoundedRect(r: Rect): RoundedRect
  {
    RoundedRect(r.(height := r.height + CornerRadius), CornerRadius)
  }

  /** The untranslated highlight path for a sequence of enclosing rects. */
  function RoundedRects(rects: seq<Rect>): Path
  {
    seq(|rects|, i requires 0 <= i < |rects| => PaddedRoundedRect(rects[i]))
  }

  /** The highlight shape and the layer frame that touchesBegan computes. */
  datatype Highlight = Highlight(path: Path, frame: Option<Rect>)

  function HighlightFor(rects: seq<Rect>): (h: Highlight)
    ensures |h.path| == |rects|
    ensures h.frame.None? <==> |rects| == 0
  {
    var p := RoundedRects(rects);
    match Bounds(p)
    case None => Highlight(p, None)
    case Some(b) => Highlight(Translated(p, -b.x, -b.y), Some(b))
  }

  /** Each subpath of the highlight is its own enclosing rect, in order, moved by minus
      the frame's origin, with the height grown by exactly the corner radius. */
  lemma HighlightSubpaths(rects: seq<Rect>, i: nat)
    requires i < |rects|
    ensures var h := HighlightFor(rects);
      h.frame.Some? &&
      h.path[i].cornerRadius == CornerRadius &&
      h.path[i].rect.x == rects[i].x - h.frame.value.x &&
      h.path[i].rect.y == rects[i].y - h.frame.value.y &&
      h.path[i].rect.width == rects[i].width &&
      h.path[i].rect.height == rects[i].height + CornerRadius
  {
  }

  /** The highlight path sits at the origin of the layer's frame and has its size. */
  lemma HighlightAtOrigin(rects: seq<Rect>)
    requires |rects| > 0
    ensures var h := HighlightFor(rects);
      Bounds(h.path) == Some(Rect(0.0, 0.0, h.frame.value.width, h.frame.value.height))
  {
    TranslatedToOrigin(RoundedRects(rects));
  }

  /** The frame is the tight box around the padded rects: each padded rect lies in it
      and each of its four edges is reached by some rect. */
  lemma HighlightFrameTight(rects: seq<Rect>)
    requires |rects| > 0
    ensures var f := HighlightFor(rects).frame.value;
      (forall i :: 0 <= i < |rects| ==>
        f.x <= MinX(rects[i]) && f.y <= MinY(PaddedRoundedRect(rects[i]).rect) &&
        MaxX(rects[i]) <= f.x + f.width &&
        MaxY(PaddedRoundedRect(rects[i]).rect) <= f.y + f.height) &&
      (exists i :: 0 <= i < |rects| && MinX(rects[i]) == f.x) &&
      (exists i :: 0 <= i < |rects| && MinY(PaddedRoundedRect(rects[i]).rect) == f.y) &&
      (exists i :: 0 <= i < |rects| && MaxX(rects[i]) == f.x + f.width) &&
      (exists i :: 0 <= i < |rects| && MaxY(PaddedRoundedRect(rects[i]).rect) == f.y + f.height)
  {
    var p := RoundedRects(rects);
    var hull := Hull(p);
    var f := HighlightFor(rects).frame.value;
    assert f == BoxToRect(hull);
    forall i | 0 <= i < |rects|
      ensures f.x <= MinX(rects[i]) && f.y <= MinY(PaddedRoundedRect(rects[i]).rect)
      ensures MaxX(rects[i]) <= f.x + f.width
      ensures MaxY(PaddedRoundedRect(rects[i]).rect) <= f.y + f.height
    {
      HullEncloses(p, i);
      assert BoxOf(p[i]).minX == MinX(rects[i]) && BoxOf(p[i]).maxX == MaxX(rects[i]);
    }
    HullIsTight(p);
    var a :| 0 <= a < |p| && BoxOf(p[a]).minX == hull.minX;
    var b :| 0 <= b < |p| && BoxOf(p[b]).minY == hull.minY;
    assert MinX(rects[a]) == f.x;
    assert MinY(PaddedRoundedRect(rects[b]).rect) == f.y;
    var c :| 0 <= c < |p| && BoxOf(p[c]).maxX == hull.maxX;
    var d :| 0 <= d < |p| && BoxOf(p[d]).maxY == hull.maxY;
    assert MaxX(rects[c]) == f.x + f.width;
    assert MaxY(PaddedRoundedRect(rects[d]).rect) == f.y + f.height;
  }

  /** The layer's path is in the layer's own coordinates: it starts at the origin and
      has the frame's size (an empty path goes with the null frame). */
  predicate LayerConsistent(l: Layer)
  {
    l.path.Some? ==>
      match l.frame
      case None => l.path.value == []
      case Some(f) => Bounds(l.path.value) == Some(Rect(0.0, 0.0, f.width, f.height))
  }

  /** The invariant of the gesture state: a stored link always has its highlight
      attached, and the highlight is in its own frame. */
  predicate Consistent(s: LabelState)
  {
    (s.highlightedLink.Some? ==> s.layer.attached && s.layer.path.Some?) &&
    LayerConsistent(s.layer)
  }

  /** The link attribute under a point, as touchesBegan looks it up. */
  function RunAt(p: Platform, pt: Point): AttributeRun
  {
    p.attributesAtIndex(p.glyphIndexForPoint(pt))
  }

  /** The enclosing rects of the effective range of a run. */
  function RectsFor(p: Platform, run: AttributeRun): seq<Rect>
  {
    p.enclosingRects(p.glyphRangeForCharacterRange(run.effectiveRange))
  }

  /** touchesBegan with the first touch at pt (Label.swift:96-125). */
  function Began(s: LabelState, pt: Point, p: Platform): (r: LabelState)
    ensures r.textStorage == s.textStorage && r.hasLinkTapHandler == s.hasLinkTapHandler
    ensures r == s || (r.layer.attached && !r.layer.hidden && r.layer.path.Some?)
  {
    if s.textStorage.None? then s
    else
      var run := RunAt(p, pt);
      match LinkHit(run.link, p.urlFromString)
      case Miss => s
      case Link(link) =>
        var h := HighlightFor(RectsFor(p, run));
        s.(highlightedLink := link, layer := Layer(false, true, h.frame, Some(h.path)))
  }

  /** What touchesBegan does in each case: with no text storage, or on an attribute
      that is neither a URL nor a string, nothing changes; on a URL or a string it
      stores the URL or the parsed string (which may be none) and shows the attached
      highlight at the link's bounds. */
  lemma BeganCases(s: LabelState, pt: Point, p: Platform)
    ensures s.textStorage.None? ==> Began(s, pt, p) == s
    ensures s.textStorage.Some? && !RunAt(p, pt).link.UrlValue? && !RunAt(p, pt).link.StringValue? ==>
      Began(s, pt, p) == s
    ensures var r := Began(s, pt, p);
      var h := HighlightFor(RectsFor(p, RunAt(p, pt)));
      s.textStorage.Some? && RunAt(p, pt).link.UrlValue? ==>
        r == s.(highlightedLink := Some(RunAt(p, pt).link.url),
                layer := Layer(false, true, h.frame, Some(h.path)))
    ensures var r := Began(s, pt, p);
      var h := HighlightFor(RectsFor(p, RunAt(p, pt)));
      s.textStorage.Some? && RunAt(p, pt).link.StringValue? ==>
        r == s.(highlightedLink := p.urlFromString(RunAt(p, pt).link.text),
                layer := Layer(false, true, h.frame, Some(h.path)))
  {
  }

  /** touchesBegan keeps the gesture invariant: the new path is in the new frame. */
  lemma BeganKeepsConsistent(s: LabelState, pt: Point, p: Platform)
    requires Consistent(s)
    ensures Consistent(Began(s, pt, p))
  {
    var rects := RectsFor(p, RunAt(p, pt));
    if |rects| > 0 {
      HighlightAtOrigin(rects);
    }
  }

  /** convertPoint(_:fromLayer:) from the label's layer into the highlight layer, a
      direct sublayer with no transform placed at its frame. */
  function LayerPoint(frame: Option<Rect>, pt: Point): Point
  {
    match frame
    case Some(f) => Point(pt.x - f.x, pt.y - f.y)
    case None => pt
  }

  /** CGPathContainsPoint on the layer's path; a missing path contains nothing. */
  predicate Inside(l: Layer, pt: Point, p: Platform)
  {
    l.path.Some? && p.pathContainsPoint(l.path.value, LayerPoint(l.frame, pt))
  }

  /** touchesMoved with the first touch, if any (Label.swift:127-149). */
  function Moved(s: LabelState, first: Option<Point>, p: Platform): (r: LabelState)
    ensures r.textStorage == s.textStorage && r.hasLinkTapHandler == s.hasLinkTapHandler
    ensures r.highlightedLink == s.highlightedLink
    ensures r.layer.path == s.layer.path && r.layer.frame == s.layer.frame
    ensures r.layer.attached == s.layer.attached
    ensures s.highlightedLink.None? || first.None? ==> r == s
    ensures s.highlightedLink.Some? && first.Some? ==>
      (r.layer.hidden <==> !Inside(s.layer, first.value, p))
    ensures Consistent(s) ==> Consistent(r)
  {
    if s.highlightedLink.None? || first.None? then s
    else s.(layer := s.layer.(hidden := !Inside(s.layer, first.value, p)))
  }

  /** The taps touchesEnded delivers to linkTapHandler (Label.swift:152-155). */
  function Fired(s: LabelState): (taps: seq<Url>)
    ensures |taps| <= 1
    ensures |taps| == 1 <==>
      s.highlightedLink.Some? && !s.layer.hidden && s.hasLinkTapHandler
    ensures |taps| == 1 ==> s.highlightedLink == Some(taps[0])
  {
    if s.highlightedLink.Some? && !s.layer.hidden && s.hasLinkTapHandler
    then [s.highlightedLink.value] else []
  }

  /** resetLinkHighlight (Label.swift:175-178). */
  function Reset(s: LabelState): (r: LabelState)
    ensures r.highlightedLink.None? && !r.layer.attached
    ensures r == s.(highlightedLink := r.highlightedLink, layer := s.layer.(attached := false))
    ensures Consistent(s) ==> Consistent(r)
  {
    s.(highlightedLink := None, layer := s.layer.(attached := false))
  }

  /** touchesEnded (Label.swift:151-158). */
  function Ended(s: LabelState): (r: LabelState)
    ensures s.highlightedLink.Some? ==> r.highlightedLink.None? && !r.layer.attached
    ensures s.highlightedLink.Some? ==> r == Reset(s)
    ensures s.highlightedLink.None? ==> r == s
    ensures Consistent(s) ==> Consistent(r)
  {
    if s.highlightedLink.None? then s else Reset(s)
  }

  /** touchesCancelled (Label.swift:160-162). */
  function Cancelled(s: LabelState): (r: LabelState)
    ensures r.highlightedLink.None? && !r.layer.attached
    ensures r == Reset(s)
    ensures Consistent(s) ==> Consistent(r)
  {
    Reset(s)
  }

  /** Repeating a move changes nothing more. */
  lemma MovedIdempotent(s: LabelState, first: Option<Point>, p: Platform)
    ensures Moved(Moved(s, first, p), first, p) == Moved(s, first, p)
  {
  }

  /** A move whose containment result agrees with the current visibility is a no-op. */
  lemma MovedAgreeingIsNoOp(s: LabelState, pt: Point, p: Platform)
    requires s.highlightedLink.Some?
    requires Inside(s.layer, pt, p) == !s.layer.hidden
    ensures Moved(s, Some(pt), p) == s
  {
  }

  /** A string link that does not parse: touchesBegan still attaches and shows the
      highlight but stores no link, so touchesEnded leaves the highlight on screen
      and delivers nothing. */
  lemma StuckHighlight(s: LabelState, pt: Point, p: Platform)
    requires s.textStorage.Some?
    requires RunAt(p, pt).link.StringValue?
    requires p.urlFromString(RunAt(p, pt).link.text).None?
    ensures var e := Ended(Began(s, pt, p));
      e.highlightedLink.None? && e.layer.attached && !e.layer.hidden &&
      Fired(Began(s, pt, p)) == []
  {
  }

  /** The text container's size and the invalidations layoutSubviews requests:
      textContainerChangedGeometry and invalidateIntrinsicContentSize calls. */
  datatype LayoutState = LayoutState(
    containerWidth: real,
    containerHeight: real,
    geometryChanges: nat,
    intrinsicSizeInvalidations: nat)

  const InitialLayout := LayoutState(0.0, 0.0, 0, 0)

  /** layoutSubviews with the label's current bounds width (Label.swift:75-82). */
  function LaidOut(l: LayoutState, boundsWidth: real): (r: LayoutState)
    ensures r.containerWidth == boundsWidth
    ensures l.containerWidth == boundsWidth ==> r == l
    ensures l.containerWidth != boundsWidth ==>
      r.containerHeight == CGFloatMax &&
      r.geometryChanges == l.geometryChanges + 1 &&
      r.intrinsicSizeInvalidations == l.intrinsicSizeInvalidations + 1
  {
    if l.containerWidth != boundsWidth
    then LayoutState(boundsWidth, CGFloatMax, l.geometryChanges + 1, l.intrinsicSizeInvalidations + 1)
    else l
  }

  /** A second layout pass with the same bounds is a no-op. */
  lemma LaidOutIdempotent(l: LayoutState, boundsWidth: real)
    ensures LaidOut(LaidOut(l, boundsWidth), boundsWidth) == LaidOut(l, boundsWidth)
  {
  }

  /** The path-building loop of touchesBegan: one padded rounded rect per enclosing
      rect, appended in enumeration order (Label.swift:112-120). */
  method AppendRoundedRects(rects: seq<Rect>) returns (path: Path)
    ensures |path| == |rects|
    ensures forall i :: 0 <= i < |rects| ==>
      path[i].cornerRadius == CornerRadius && path[i].rect.x == rects[i].x &&
      path[i].rect.y == rects[i].y && path[i].rect.width == rects[i].width &&
      path[i].rect.height == rects[i].height + CornerRadius
    ensures path == RoundedRects(rects)
  {
    path := [];
    var i := 0;
    while i < |rects|
      invariant 0 <= i <= |rects|
      invariant path == RoundedRects(rects[..i])
    {
      var rect := rects[i];
      rect := rect.(height := rect.height + CornerRadius);
      path := path + [RoundedRect(rect, CornerRadius)];
      assert rects[..i + 1] == rects[..i] + [rects[i]];
      i := i + 1;
    }
    assert rects[..i] == rects;
  }

  class Label {
    var attributedText: Option<AttributedText>
    var textStorage: Option<AttributedText>
    var highlightedLink: Option<Url>
    var hasLinkTapHandler: bool
    var layerHidden: bool
    var layerAttached: bool
    var layerFrame: Option<Rect>
    var layerPath: Option<Path>
    var containerWidth: real
    var containerHeight: real
    /** The links passed to linkTapHandler so far, oldest first. */
    ghost var taps: seq<Url>
    ghost var geometryChanges: nat
    ghost var intrinsicSizeInvalidations: nat

    function State(): LabelState
      reads this
    {
      LabelState(textStorage, highlightedLink, hasLinkTapHandler,
                 Layer(layerHidden, layerAttached, layerFrame, layerPath))
    }

    ghost function Layout(): LayoutState
      reads this
    {
      LayoutState(containerWidth, containerHeight, geometryChanges, intrinsicSizeInvalidations)
    }

    /** init(frame:) and init(coder:) (Label.swift:27-39). */
    constructor ()
      ensures State() == InitialState && Consistent(State())
      ensures attributedText.None? && taps == [] && Layout() == InitialLayout
    {
      attributedText, textStorage, highlightedLink := None, None, None;
      hasLinkTapHandler := false;
      layerHidden, layerAttached := false, false;
      layerFrame, layerPath := Some(Rect(0.0, 0.0, 0.0, 0.0)), None;
      containerWidth, containerHeight := 0.0, 0.0;
      taps, geometryChanges, intrinsicSizeInvalidations := [], 0, 0;
    }

    /** The attributedText setter and its didSet (Label.swift:43-52): the text
        storage is a copy of the new text, or absent when the text is nil. */
    method SetAttributedText(text: Option<AttributedText>)
      modifies this
      ensures attributedText == text
      ensures State() == old(State()).(textStorage := text)
      ensures taps == old(taps) && Layout() == old(Layout())
    {
      attributedText := text;
      match text {
        case Some(t) => textStorage := Some(AttributedText(t.text));
        case None => textStorage := None;
      }
    }

    /** Assigning or clearing linkTapHandler (Label.swift:23). */
    method SetLinkTapHandler(present: bool)
      modifies this
      ensures State() == old(State()).(hasLinkTapHandler := present)
      ensures attributedText == old(attributedText)
      ensures taps == old(taps) && Layout() == old(Layout())
    {
      hasLinkTapHandler := present;
    }

    /** layoutSubviews (Label.swift:75-82). */
    method LayoutSubviews(boundsWidth: real)
      modifies this
      ensures Layout() == LaidOut(old(Layout()), boundsWidth)
      ensures State() == old(State()) && attributedText == old(attributedText)
      ensures taps == old(taps)
    {
      if containerWidth != boundsWidth {
        containerWidth, containerHeight := boundsWidth, CGFloatMax;
        geometryChanges := geometryChanges + 1;
        intrinsicSizeInvalidations := intrinsicSizeInvalidations + 1;
      }
    }

    /** touchesBegan (Label.swift:96-125); touches[0] is touches.first. */
    method TouchesBegan(touches: seq<Point>, p: Platform)
      requires |touches| > 0
      modifies this
      ensures State() == Began(old(State()), touches[0], p)
      ensures attributedText == old(attributedText)
      ensures taps == old(taps) && Layout() == old(Layout())
    {
      if textStorage.None? {
        return;
      }
      var glyphIndex := p.glyphIndexForPoint(touches[0]);
      var run := p.attributesAtIndex(glyphIndex);
      match run.link {
        case UrlValue(u) => highlightedLink := Some(u);
        case StringValue(t) => highlightedLink := p.urlFromString(t);
        case Absent => return;
        case OtherValue => return;
      }
      var linkGlyphRange := p.glyphRangeForCharacterRange(run.effectiveRange);
      var path := AppendRoundedRects(p.enclosingRects(linkGlyphRange));
      var bounds := Bounds(path);
      if bounds.Some? {
        path := Translated(path, -bounds.value.x, -bounds.value.y);
      }
      layerPath := Some(path);
      ShowLinkHighlight(bounds);
    }

    /** touchesMoved (Label.swift:127-149). */
    method TouchesMoved(touches: seq<Point>, p: Platform)
      modifies this
      ensures State() == Moved(old(State()), if |touches| > 0 then Some(touches[0]) else None, p)
      ensures attributedText == old(attributedText)
      ensures taps == old(taps) && Layout() == old(Layout())
    {
      if highlightedLink.Some? {
        if |touches| == 0 {
          return;
        }
        var pt := LayerPoint(layerFrame, touches[0]);
        if layerPath.Some? && p.pathContainsPoint(layerPath.value, pt) {
          if layerHidden {
            layerHidden := false;
          }
        } else {
          if !layerHidden {
            layerHidden := true;
          }
        }
      }
    }

    /** touchesEnded (Label.swift:151-158). */
    method TouchesEnded()
      modifies this
      ensures State() == Ended(old(State()))
      ensures taps == old(taps) + Fired(old(State()))
      ensures attributedText == old(attributedText) && Layout() == old(Layout())
    {
      if highlightedLink.Some? {
        var link := highlightedLink.value;
        if !layerHidden && hasLinkTapHandler {
          taps := taps + [link];
        }
        ResetLinkHighlight();
      }
    }

    /** touchesCancelled (Label.swift:160-162). */
    method TouchesCancelled()
      modifies this
      ensures State() == Cancelled(old(State()))
      ensures taps == old(taps)
      ensures attributedText == old(attributedText) && Layout() == old(Layout())
    {
      ResetLinkHighlight();
    }

    /** showLinkHighlight (Label.swift:166-173). */
    method ShowLinkHighlight(boundingRect: Option<Rect>)
      modifies this
      ensures State() == old(State()).(layer := Layer(false, true, boundingRect, old(layerPath)))
      ensures attributedText == old(attributedText)
      ensures taps == old(taps) && Layout() == old(Layout())
    {
      layerFrame := boundingRect;
      layerHidden := false;
      layerAttached := true;
    }

    /** resetLinkHighlight (Label.swift:175-178). */
    method ResetLinkHighlight()
      modifies this
      ensures State() == Reset(old(State()))
      ensures attributedText == old(attributedText)
      ensures taps == old(taps) && Layout() == old(Layout())
    {
      layerAttached := false;
      highlightedLink := None;
    }
  }
}
