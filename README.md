# ClickableLabel link-tap gesture, modelled in Dafny

ClickableLabel's `Label` is a UIView that draws an attributed string and lets the user tap the links in it. On touch-down it finds the link at the glyph nearest the finger. It then builds a rounded-rectangle highlight path over the enclosing rects of the effective range that `attributesAtIndex` reports for the touched index. That range is the run over which all attributes are the same, which can be only part of the link. It shows the path in a shape layer. On each move it shows or hides the highlight by whether the finger is still inside the path. On touch-up with a link stored, it calls `linkTapHandler`, if one is set, with the link when the highlight is still visible, and it clears the state. Cancelling clears the state without calling anything. `layoutSubviews` keeps the text container's width equal to the view's bounds width.

The project has four modules:

- `Wrappers` (Wrappers.dfy): `Option`, standing for Swift's optionals.
- `Geometry` (Geometry.dfy): `CGRect` and the rounded-rect path built by `UIBezierPath`, its bounding box (`bounds`) and its translation (`applyTransform`). Coordinates are `real`.
- `ClickableLabel` (ClickableLabel.dfy): the gesture state (`LabelState`: text storage, stored link, whether a tap handler is set, and the highlight layer's hidden flag, attachment, frame and path). It has one pure function per handler (`Began`, `Moved`, `Ended`, `Cancelled`, `Reset`, `LaidOut`) and the class `Label`. The class holds the same fields and updates them step by step, as the Swift code does. Each method is proved to leave exactly the state its function describes. The calls it makes into UIKit and TextKit are the function-valued fields of a `Platform` value. The taps delivered to `linkTapHandler` are recorded in the ghost field `taps`.
- `Gestures` (Gestures.dfy): whole touch sequences replayed through those functions. A tap is delivered at most once per `touchesEnded`, and never on cancel. Moves only toggle visibility. A gesture from touch-down on a link to touch-up delivers that link exactly once when the tap handler is set and either the finger never moved or its last move ended inside the highlight; otherwise it delivers nothing.

Three behaviours of the code are worth noting; the model follows the code in all of them:

- A link string that does not parse is not treated as a miss. The code stores `nil` as the link, but it still builds, attaches and shows the highlight (Label.swift:106-107, 111-124). `touchesEnded` only resets when a link is stored (Label.swift:152), so the highlight then stays on screen after the finger lifts. It goes away only on a cancel or on a later tap on a real link. Lemma `StuckHighlight` states this.
- `touchesBegan` passes a glyph index to `attributesAtIndex`, which takes a character index (Label.swift:100-102). In the model this is the composition of two platform calls (`RunAt`), so the mismatch is outside what is checked.
- The highlight covers the effective range of the attributes at the touched index (Label.swift:101-102, 111-119), not the whole link. If part of a link carries another attribute, such as bold, a touch on the other part highlights only that part. The model leaves `effectiveRange` arbitrary, so it covers such runs too.

## Model

| member | source | states |
|---|---|---|
| Geometry.Bounds | ClickableLabel/Label.swift:121 | the path's bounds are absent (the null rect) exactly when the path is empty; otherwise they have non-negative width and height |
| Geometry.Translated | ClickableLabel/Label.swift:122 | translation keeps the number of subpaths and moves every subpath's rect by the same offset, keeping its size and radius |
| Geometry.HullEncloses | ClickableLabel/Label.swift:121 | every subpath lies inside the path's bounding box |
| Geometry.HullIsTight | ClickableLabel/Label.swift:121 | each side of the bounding box is reached by some subpath |
| Geometry.HullTranslated | ClickableLabel/Label.swift:122 | translating a path translates its bounding box by the same offset |
| Geometry.TranslatedToOrigin | ClickableLabel/Label.swift:121-122 | after translating by minus its bounds' origin, a non-empty path has bounds at (0, 0) with the original width and height |
| ClickableLabel.AppendRoundedRects | ClickableLabel/Label.swift:112-120 | the path-building loop appends one subpath per enclosing rect, in order, with the same origin and width, height grown by exactly 3.0, and corner radius 3.0 |
| ClickableLabel.HighlightFor | ClickableLabel/Label.swift:112-124 | the highlight path has one subpath per enclosing rect, and the frame is absent (the null rect) exactly when there are no rects |
| ClickableLabel.HighlightSubpaths | ClickableLabel/Label.swift:116-122 | subpath i comes from enclosing rect i: it has corner radius 3.0, that rect's origin moved by minus the frame's origin, that rect's width, and its height plus exactly 3.0 |
| ClickableLabel.HighlightAtOrigin | ClickableLabel/Label.swift:121-123 | the translated path's bounds are at (0, 0) and have the frame's width and height |
| ClickableLabel.HighlightFrameTight | ClickableLabel/Label.swift:121-124 | the frame is the tight box around the padded rects: every padded rect lies inside it, and each of its four edges is reached by some rect, so its width and height are those of the path's bounding box |
| ClickableLabel.Began | ClickableLabel/Label.swift:96-125 | touchesBegan leaves the text storage and the handler untouched; it either changes nothing or leaves the layer attached, shown and holding a path |
| ClickableLabel.BeganCases | ClickableLabel/Label.swift:97-124 | with no text storage, or with a link attribute that is neither a URL nor a string, nothing changes; a URL stores that URL and a string stores its parse (possibly none); in both the layer is shown, attached, framed at the path's bounds and given the translated path, and nothing else changes |
| ClickableLabel.BeganKeepsConsistent | ClickableLabel/Label.swift:96-125 | touchesBegan keeps the invariant: a stored link has an attached layer with a path, and the path sits at the layer's origin with the frame's size |
| ClickableLabel.Moved | ClickableLabel/Label.swift:127-149 | with no stored link or no touch nothing changes; otherwise hidden becomes exactly "point not inside the path"; link, path, frame and attachment never change; the invariant is kept |
| ClickableLabel.Fired | ClickableLabel/Label.swift:152-155 | at most one tap is delivered, exactly when a link is stored, the highlight is visible and a handler is set, and it is the stored link |
| ClickableLabel.Reset | ClickableLabel/Label.swift:175-178 | the link is cleared, the layer is detached and nothing else changes |
| ClickableLabel.Ended | ClickableLabel/Label.swift:151-158 | with a stored link, it ends cleared and detached; without one, nothing changes |
| ClickableLabel.Cancelled | ClickableLabel/Label.swift:160-162 | always ends with no link and the layer detached, keeping the invariant |
| ClickableLabel.MovedIdempotent | ClickableLabel/Label.swift:127-149 | repeating the same move changes nothing more |
| ClickableLabel.MovedAgreeingIsNoOp | ClickableLabel/Label.swift:133-147 | a move whose containment result matches the current visibility leaves the state unchanged |
| ClickableLabel.StuckHighlight | ClickableLabel/Label.swift:106-124 | after a tap on an unparsable string link and a touch-up, no link is stored, nothing is delivered, and the highlight is still attached and shown |
| ClickableLabel.LaidOut | ClickableLabel/Label.swift:75-82 | the container width becomes the bounds width; when they already agreed nothing changes; otherwise the height becomes CGFloat.max and one geometry change and one intrinsic-size invalidation are recorded |
| ClickableLabel.LaidOutIdempotent | ClickableLabel/Label.swift:77-81 | a second layout pass with the same bounds is a no-op |
| ClickableLabel.Label.constructor | ClickableLabel/Label.swift:27-39 | a new label has no text, no link, no handler, a shown but detached layer with zero frame and no path, a zero-size container, and no taps |
| ClickableLabel.Label.SetAttributedText | ClickableLabel/Label.swift:43-52 | the text storage becomes a copy of the new text, or absent for nil; nothing else changes |
| ClickableLabel.Label.SetLinkTapHandler | ClickableLabel/Label.swift:23 | only the presence of the tap handler changes |
| ClickableLabel.Label.LayoutSubviews | ClickableLabel/Label.swift:75-82 | the container and invalidation counts become `LaidOut` of the old ones; the gesture state is unchanged |
| ClickableLabel.Label.TouchesBegan | ClickableLabel/Label.swift:96-125 | requires a first touch; the new state is `Began` of the old one; no tap is delivered |
| ClickableLabel.Label.TouchesMoved | ClickableLabel/Label.swift:127-149 | the new state is `Moved` of the old one at the first touch, if any; no tap is delivered |
| ClickableLabel.Label.TouchesEnded | ClickableLabel/Label.swift:151-158 | the new state is `Ended` of the old one, and the taps grow by exactly `Fired` of the old state |
| ClickableLabel.Label.TouchesCancelled | ClickableLabel/Label.swift:160-162 | the new state is `Cancelled` of the old one; no tap is delivered |
| ClickableLabel.Label.ShowLinkHighlight | ClickableLabel/Label.swift:166-173 | the layer gets the given frame, is shown, and is attached; its path and everything else are unchanged |
| ClickableLabel.Label.ResetLinkHighlight | ClickableLabel/Label.swift:175-178 | the new state is `Reset` of the old one |
| Gestures.ReplayKeepsConsistent | ClickableLabel/Label.swift:96-178 | any sequence of touch events keeps the invariant: a stored link has an attached layer with a path, and the path sits at the layer's origin with the frame's size |
| Gestures.TapsBoundedByEnds | ClickableLabel/Label.swift:151-162 | a sequence of events delivers at most one tap per touchesEnded, and none from any other handler |
| Gestures.MovesOnlyToggle | ClickableLabel/Label.swift:127-149 | a run of moves delivers nothing and changes only visibility: the highlight is hidden exactly when the last move was outside the path |
| Gestures.TapGesture | ClickableLabel/Label.swift:96-178 | touch-down on a link, any moves, touch-up: the link is delivered exactly once if the handler is set and the finger ended inside the highlight (or never moved), otherwise not at all; the gesture ends with no link and the layer detached |
| Gestures.CancelledGesture | ClickableLabel/Label.swift:160-162 | a gesture ending in cancel delivers nothing and ends with no link and the layer detached |
| Gestures.MissedGesture | ClickableLabel/Label.swift:96-110 | from idle, a gesture that starts on a label without text or off any link delivers nothing and leaves the state as it was |

## Left out

- TextKit layout and measurement: `glyphIndexForPoint`, `attributesAtIndex`, `glyphRangeForCharacterRange` and the enclosing-rect enumeration are arbitrary functions in `Platform`. Any range exception `attributesAtIndex` may raise is not modelled either.
- `NSURL(string:)` is the arbitrary function `Platform.urlFromString`. `CGPathContainsPoint` is the arbitrary predicate `Platform.pathContainsPoint`, so point-in-rounded-rect geometry is not modelled. A missing layer path contains no point. `CGPathContainsPoint` also finds no point in an empty path, which is the path held when there are no enclosing rects, but `Platform.pathContainsPoint` is not constrained on it. With a `Platform` that reports a point inside the empty path, a move keeps the highlight shown and `TapGesture` delivers a tap where the source would hide the highlight and deliver nothing.
- The property that the highlight's bounding box contains the tapped point is not modelled. It depends on what the layout engine returns.
- `convertPoint(_:fromLayer:)` is modelled as subtracting the layer frame's origin. This assumes the highlight layer is a direct sublayer with no transform. With the null frame the point is passed unchanged.
- The bounds of an empty path (CGRectNull) are `None`. Translating an empty path by the null rect's infinite origin leaves it empty, and the model skips the translation.
- The corner radius does not enter the bounds computation, because a rounded rect reaches all four sides of its rect. Coordinates are exact reals, so floating-point rounding is not modelled.
- `intrinsicContentSize` and `drawRect` are not modelled: they are layout-engine measurement and rendering. The same goes for the `CATransaction` blocks, which are animation suppression, and the layer's fill colour.
- `lineFragmentPadding` and `maximumNumberOfLines` are not modelled: they only forward to the text container. The `layoutManager.textStorage` assignment in the `attributedText` setter is engine wiring.
- `markupText` (LabelSupport.swift) is not modelled: it wraps the HTML importer. Neither is the demo view controller.
- Multi-touch: only the first touch is read. `TouchesBegan` requires one, because the source force-unwraps it.
- `linkTapHandler` is modelled by whether it is set. Its calls are recorded in the ghost sequence `taps`, and the closure's own effects are not modelled.
- The text container's initial size is taken to be zero. `CGFloat.max` is the 64-bit double maximum.
