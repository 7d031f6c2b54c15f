/** Axis-aligned bounding boxes of score symbols (src/box.py). A box is a value:
    its fields are set once, and `merge` returns a new box. Coordinates are
    reals because template matching scales widths and heights. */
module Boxes {

  datatype BoundingBox = BoundingBox(x: real, y: real, w: real, h: real) {

    /** The centre point `(x + w/2, y + h/2)`. */
    function Middle(): (real, real) {
      (x + w / 2.0, y + h / 2.0)
    }

    function Area(): real {
      w * h
    }

    function Corner(): (real, real) {
      (x, y)
    }

    function Right(): real {
      x + w
    }

    function Bottom(): real {
      y + h
    }
  }

  function Min(a: real, b: real): real {
    if a <= b then a else b
  }

  function Max(a: real, b: real): real {
    if a >= b then a else b
  }

  /** Width of the horizontal intersection of two boxes, 0 when they are apart. */
  function OverlapX(a: BoundingBox, b: BoundingBox): (r: real)
    ensures r >= 0.0
    ensures a.w >= 0.0 ==> r <= a.w
    ensures b.w >= 0.0 ==> r <= b.w
  {
    Max(0.0, Min(a.Right(), b.Right()) - Max(a.x, b.x))
  }

  /** Height of the vertical intersection of two boxes, 0 when they are apart. */
  function OverlapY(a: BoundingBox, b: BoundingBox): (r: real)
    ensures r >= 0.0
    ensures a.h >= 0.0 ==> r <= a.h
    ensures b.h >= 0.0 ==> r <= b.h
  {
    Max(0.0, Min(a.Bottom(), b.Bottom()) - Max(a.y, b.y))
  }

  function IntersectionArea(a: BoundingBox, b: BoundingBox): real {
    OverlapX(a, b) * OverlapY(a, b)
  }

  /** `a.overlap(b)`: the share of `a`'s area that `b` covers. Python raises
      ZeroDivisionError for a box of area 0, so the area must be non-zero. */
  function Overlap(a: BoundingBox, b: BoundingBox): (r: real)
    requires a.Area() != 0.0
    ensures r * a.Area() == IntersectionArea(a, b)
  {
    IntersectionArea(a, b) / a.Area()
  }

  /** Squared Euclidean distance between the centres; `distance` is its square
      root, which orders boxes the same way. */
  function DistanceSquared(a: BoundingBox, b: BoundingBox): (r: real)
    ensures r >= 0.0
  {
    var dx := a.Middle().0 - b.Middle().0;
    var dy := a.Middle().1 - b.Middle().1;
    SquareNonNegative(dx);
    SquareNonNegative(dy);
    dx * dx + dy * dy
  }

  lemma SquareNonNegative(d: real)
    ensures d * d >= 0.0
  {
  }

  /** `outer` encloses `inner` on both axes. */
  predicate Contains(outer: BoundingBox, inner: BoundingBox) {
    && outer.x <= inner.x && inner.Right() <= outer.Right()
    && outer.y <= inner.y && inner.Bottom() <= outer.Bottom()
  }

  /** `a.merge(b)`: the smallest box enclosing both. */
  function Merge(a: BoundingBox, b: BoundingBox): (m: BoundingBox)
    ensures Contains(m, a) && Contains(m, b)
    ensures m.x == Min(a.x, b.x) && m.y == Min(a.y, b.y)
    ensures m.Right() == Max(a.Right(), b.Right()) && m.Bottom() == Max(a.Bottom(), b.Bottom())
  {
    var x := Min(a.x, b.x);
    var y := Min(a.y, b.y);
    var w := Max(a.Right(), b.Right()) - x;
    var h := Max(a.Bottom(), b.Bottom()) - y;
    BoundingBox(x, y, w, h)
  }

  lemma ContainsTransitive(a: BoundingBox, b: BoundingBox, c: BoundingBox)
    requires Contains(a, b) && Contains(b, c)
    ensures Contains(a, c)
  {
  }

  /** Merging enlarges: a merge of boxes with positive sides has positive sides. */
  lemma MergePositive(a: BoundingBox, b: BoundingBox)
    requires a.w > 0.0 && a.h > 0.0
    ensures Merge(a, b).w > 0.0 && Merge(a, b).h > 0.0
  {
  }

  lemma MulLe(a: real, b: real, c: real, d: real)
    requires 0.0 <= a <= c && 0.0 <= b <= d
    ensures a * b <= c * d
  {
    assert a * b <= c * b;
    assert c * b <= c * d;
  }

  lemma RatioBounds(i: real, area: real)
    requires 0.0 <= i <= area && area > 0.0
    ensures 0.0 <= i / area <= 1.0
  {
    var q := i / area;
    assert q * area == i;
  }

  /** For a box with positive sides the overlap ratio lies in [0, 1]. */
  lemma OverlapBounds(a: BoundingBox, b: BoundingBox)
    requires a.w > 0.0 && a.h > 0.0
    ensures 0.0 <= Overlap(a, b) <= 1.0
  {
    MulLe(OverlapX(a, b), OverlapY(a, b), a.w, a.h);
    MulLe(0.0, 0.0, OverlapX(a, b), OverlapY(a, b));
    MulLe(0.0, 0.0, a.w, a.h);
    RatioBounds(IntersectionArea(a, b), a.Area());
  }

  /** A box with positive sides overlaps itself completely. */
  lemma OverlapSelf(a: BoundingBox)
    requires a.w > 0.0 && a.h > 0.0
    ensures Overlap(a, a) == 1.0
  {
    assert OverlapX(a, a) == a.w;
    assert OverlapY(a, a) == a.h;
    MulLe(0.0, 0.0, a.w, a.h);
    assert a.Area() > 0.0 by {
      assert a.w * a.h > 0.0 * a.h;
    }
    assert IntersectionArea(a, a) == a.Area();
    assert a.Area() / a.Area() == 1.0;
  }

  /** The intersection is symmetric, so the two ratios weigh it by each box's area. */
  lemma OverlapSymmetric(a: BoundingBox, b: BoundingBox)
    requires a.Area() != 0.0 && b.Area() != 0.0
    ensures Overlap(a, b) * a.Area() == Overlap(b, a) * b.Area()
  {
    assert OverlapX(a, b) == OverlapX(b, a);
    assert OverlapY(a, b) == OverlapY(b, a);
  }

  /** Boxes that are apart or only touch along an edge do not overlap. */
  lemma SeparatedNoOverlap(a: BoundingBox, b: BoundingBox)
    requires a.Area() != 0.0
    requires a.Right() <= b.x || b.Right() <= a.x || a.Bottom() <= b.y || b.Bottom() <= a.y
    ensures Overlap(a, b) == 0.0
  {
    assert OverlapX(a, b) == 0.0 || OverlapY(a, b) == 0.0;
  }

  /** Merging is commutative and idempotent. */
  lemma MergeCommutative(a: BoundingBox, b: BoundingBox)
    ensures Merge(a, b) == Merge(b, a)
    ensures Merge(a, a) == a
  {
  }

  /** The distance is symmetric and zero from a box to itself. */
  lemma DistanceSymmetric(a: BoundingBox, b: BoundingBox)
    ensures DistanceSquared(a, b) == DistanceSquared(b, a)
    ensures DistanceSquared(a, a) == 0.0
  {
  }
}
