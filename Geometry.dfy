/**
 * Core Graphics geometry used by the link highlight: points and rectangles with
 * real-valued coordinates (CGFloat), the rounded-rectangle path that marks a link,
 * its bounding box (UIBezierPath.bounds) and its translation (applyTransform with a
 * pure translation).
 */
module Geometry {
  import opened Wrappers

  datatype Point = Point(x: real, y: real)

  /** A CGRect; width and height may be negative, as in Core Graphics. */
  datatype Rect = Rect(x: real, y: real, width: real, height: real)

  /** One subpath of the highlight: UIBezierPath(roundedRect:cornerRadius:). */
  datatype RoundedRect = RoundedRect(rect: Rect, cornerRadius: real)

  /** A UIBezierPath built by appending rounded rectangles, in append order. */
  type Path = seq<RoundedRect>

  /** Axis-aligned extent of a shape: the corners of its standardized rectangle. */
  datatype Box = Box(minX: real, minY: real, maxX: real, maxY: real)

  function Min(a: real, b: real): real { if a <= b then a else b }
  function Max(a: real, b: real): real { if a <= b then b else a }

  /** CGRectGetMinX and friends: they read the standardized rectangle. */
  function MinX(r: Rect): real { if r.width < 0.0 then r.x + r.width else r.x }
  function MaxX(r: Rect): real { if r.width < 0.0 then r.x else r.x + r.width }
  function MinY(r: Rect): real { if r.height < 0.0 then r.y + r.height else r.y }
  function MaxY(r: Rect): real { if r.height < 0.0 then r.y else r.y + r.height }

  /** The extent of one rounded rectangle: the corner radius only trims the corners,
      so the shape still touches all four sides of its rectangle. */
  function BoxOf(rr: RoundedRect): (b: Box)
    ensures b.minX <= b.maxX && b.minY <= b.maxY
  {
    Box(MinX(rr.rect), MinY(rr.rect), MaxX(rr.rect), MaxY(rr.rect))
  }

  function Join(a: Box, b: Box): Box
  {
    Box(Min(a.minX, b.minX), Min(a.minY, b.minY), Max(a.maxX, b.maxX), Max(a.maxY, b.maxY))
  }

  predicate Encloses(outer: Box, inner: Box)
  {
    outer.minX <= inner.minX && outer.minY <= inner.minY &&
    inner.maxX <= outer.maxX && inner.maxY <= outer.maxY
  }

  /** The smallest box enclosing every subpath of a non-empty path. */
  function Hull(p: Path): (b: Box)
    requires |p| > 0
    ensures b.minX <= b.maxX && b.minY <= b.maxY
    decreases |p|
  {
    if |p| == 1 then BoxOf(p[0]) else Join(BoxOf(p[0]), Hull(p[1..]))
  }

  function BoxToRect(b: Box): Rect
  {
    Rect(b.minX, b.minY, b.maxX - b.minX, b.maxY - b.minY)
  }

  /** UIBezierPath.bounds. An empty path has the null rectangle (CGRectNull) as its
      bounds; None stands for it. */
  function Bounds(p: Path): (b: Option<Rect>)
    ensures b.None? <==> |p| == 0
    ensures b.Some? ==> b.value.width >= 0.0 && b.value.height >= 0.0
  {
    if |p| == 0 then None else Some(BoxToRect(Hull(p)))
  }

  function Offset(r: Rect, dx: real, dy: real): Rect
  {
    r.(x := r.x + dx, y := r.y + dy)
  }

  /** path.applyTransform(CGAffineTransformMakeTranslation(dx, dy)). */
  function Translated(p: Path, dx: real, dy: real): (q: Path)
    ensures |q| == |p|
    ensures forall i :: 0 <= i < |p| ==>
      q[i] == p[i].(rect := Offset(p[i].rect, dx, dy))
  {
    seq(|p|, i requires 0 <= i < |p| => p[i].(rect := Offset(p[i].rect, dx, dy)))
  }

  function ShiftBox(b: Box, dx: real, dy: real): Box
  {
    Box(b.minX + dx, b.minY + dy, b.maxX + dx, b.maxY + dy)
  }

  /** Every subpath lies inside the hull. */
  lemma {:induction false} HullEncloses(p: Path, i: nat)
    requires i < |p|
    ensures Encloses(Hull(p), BoxOf(p[i]))
    decreases |p|
  {
    if |p| > 1 && i > 0 {
      HullEncloses(p[1..], i - 1);
      assert p[1..][i - 1] == p[i];
    }
  }

  /** The hull is tight: each of its four sides is reached by some subpath. */
  lemma {:induction false} HullIsTight(p: Path)
    requires |p| > 0
    ensures exists i :: 0 <= i < |p| && BoxOf(p[i]).minX == Hull(p).minX
    ensures exists i :: 0 <= i < |p| && BoxOf(p[i]).minY == Hull(p).minY
    ensures exists i :: 0 <= i < |p| && BoxOf(p[i]).maxX == Hull(p).maxX
    ensures exists i :: 0 <= i < |p| && BoxOf(p[i]).maxY == Hull(p).maxY
    decreases |p|
  {
    if |p| > 1 {
      var tail := p[1..];
      HullIsTight(tail);
      var a :| 0 <= a < |tail| && BoxOf(tail[a]).minX == Hull(tail).minX;
      var b :| 0 <= b < |tail| && BoxOf(tail[b]).minY == Hull(tail).minY;
      var c :| 0 <= c < |tail| && BoxOf(tail[c]).maxX == Hull(tail).maxX;
      var d :| 0 <= d < |tail| && BoxOf(tail[d]).maxY == Hull(tail).maxY;
      assert tail[a] == p[a + 1] && tail[b] == p[b + 1];
      assert tail[c] == p[c + 1] && tail[d] == p[d + 1];
      var h := Hull(p);
      if BoxOf(p[0]).minX != h.minX { assert BoxOf(p[a + 1]).minX == h.minX; }
      if BoxOf(p[0]).minY != h.minY { assert BoxOf(p[b + 1]).minY == h.minY; }
      if BoxOf(p[0]).maxX != h.maxX { assert BoxOf(p[c + 1]).maxX == h.maxX; }
      if BoxOf(p[0]).maxY != h.maxY { assert BoxOf(p[d + 1]).maxY == h.maxY; }
    } else {
      assert BoxOf(p[0]) == Hull(p);
    }
  }

  /** Translating a path translates its hull by the same amount. */
  lemma {:induction false} HullTranslated(p: Path, dx: real, dy: real)
    requires |p| > 0
    ensures Hull(Translated(p, dx, dy)) == ShiftBox(Hull(p), dx, dy)
    decreases |p|
  {
    var q := Translated(p, dx, dy);
    assert BoxOf(q[0]) == ShiftBox(BoxOf(p[0]), dx, dy);
    if |p| > 1 {
      assert q[1..] == Translated(p[1..], dx, dy);
      HullTranslated(p[1..], dx, dy);
    }
  }

  /** Moving a non-empty path by minus its bounds' origin puts the new bounds at the
      origin with unchanged size. */
  lemma TranslatedToOrigin(p: Path)
    requires |p| > 0
    ensures Bounds(Translated(p, -Bounds(p).value.x, -Bounds(p).value.y)) ==
            Some(Rect(0.0, 0.0, Bounds(p).value.width, Bounds(p).value.height))
  {
    var b := Bounds(p).value;
    HullTranslated(p, -b.x, -b.y);
  }
}
