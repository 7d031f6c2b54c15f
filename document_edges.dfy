/** The decision logic of the web scanner's OpenCV helpers: choosing the
    page outline among the contours found in a photo and ordering its four
    corners, and keeping the elongated contours that look like staff lines.
    The contours, their areas and their polygon approximations are computed
    by OpenCV and are inputs here. */
module DocumentEdges {
  import opened Wrappers

  datatype Point = Point(x: int, y: int)

  /** A contour as seen by the selection loop: its area and the vertices of
      its polygon approximation. */
  datatype Contour = Contour(area: real, approx: seq<Point>)

  const MinArea: real := 1000.0

  /** Large enough and approximated by a quadrilateral. */
  predicate Candidate(c: Contour) {
    c.area > MinArea && |c.approx| == 4
  }

  /** Contour `i` is the one the loop keeps: a candidate, strictly larger
      than every earlier candidate and at least as large as every later one. */
  predicate Best(cs: seq<Contour>, i: int) {
    0 <= i < |cs| && Candidate(cs[i]) &&
    (forall j :: 0 <= j < i && Candidate(cs[j]) ==> cs[j].area < cs[i].area) &&
    (forall j :: i < j < |cs| && Candidate(cs[j]) ==> cs[j].area <= cs[i].area)
  }

  /** At most one contour is the best: ties go to the earliest. */
  lemma BestUnique(cs: seq<Contour>, i: int, k: int)
    requires Best(cs, i) && Best(cs, k)
    ensures i == k
  {
  }

  /** Extending the list with a candidate larger than the best so far
      makes it the best. */
  lemma BestReplaced(cs: seq<Contour>, i: int, c: Contour)
    requires Best(cs, i) && Candidate(c) && c.area > cs[i].area
    ensures Best(cs + [c], |cs|)
  {
    var cs' := cs + [c];
    forall j | 0 <= j < |cs| && Candidate(cs'[j]) ensures cs'[j].area < c.area {
      assert cs'[j] == cs[j];
    }
  }

  /** Extending the list with a contour that is not a larger candidate
      keeps the best. */
  lemma BestKept(cs: seq<Contour>, i: int, c: Contour)
    requires Best(cs, i) && !(Candidate(c) && c.area > cs[i].area)
    ensures Best(cs + [c], i)
  {
    var cs' := cs + [c];
    forall j | 0 <= j < i ensures cs'[j] == cs[j] { }
    forall j | i < j < |cs| ensures cs'[j] == cs[j] { }
  }

  /** The first candidate of a list with no earlier candidate is the best so far. */
  lemma BestFirst(cs: seq<Contour>, c: Contour)
    requires forall j :: 0 <= j < |cs| ==> !Candidate(cs[j])
    requires Candidate(c)
    ensures Best(cs + [c], |cs|)
  {
    var cs' := cs + [c];
    forall j | 0 <= j < |cs| ensures cs'[j] == cs[j] { }
  }

  /** There is a best contour exactly when there is a candidate. */
  lemma {:induction false} BestExists(cs: seq<Contour>)
    requires exists j :: 0 <= j < |cs| && Candidate(cs[j])
    ensures exists i :: Best(cs, i)
  {
    var front := cs[..|cs| - 1];
    var last := cs[|cs| - 1];
    assert cs == front + [last];
    if exists q :: 0 <= q < |front| && Candidate(front[q]) {
      BestExists(front);
      var i :| Best(front, i);
      if Candidate(last) && last.area > front[i].area {
        BestReplaced(front, i, last);
      } else {
        BestKept(front, i, last);
      }
    } else {
      forall q | 0 <= q < |front| ensures !Candidate(cs[q]) {
        assert front[q] == cs[q];
      }
      BestFirst(front, last);
    }
  }

  /** The stable sort of `Array.prototype.sort` with comparator `a.y - b.y`,
      as insertion of each element after every element of no greater y. */
  function InsertByY(p: Point, sorted: seq<Point>): (r: seq<Point>)
    ensures multiset(r) == multiset(sorted) + multiset{p}
    ensures |r| == |sorted| + 1
  {
    if sorted == [] then [p]
    else if sorted[|sorted| - 1].y <= p.y then sorted + [p]
    else
      var front := sorted[..|sorted| - 1];
      assert sorted == front + [sorted[|sorted| - 1]];
      InsertByY(p, front) + [sorted[|sorted| - 1]]
  }

  predicate SortedByY(s: seq<Point>) {
    forall i, j :: 0 <= i < j < |s| ==> s[i].y <= s[j].y
  }

  /** Every element of the insertion result is `p` or comes from `sorted`. */
  lemma {:induction false} InsertByYFrom(p: Point, sorted: seq<Point>, k: nat)
    requires k < |InsertByY(p, sorted)|
    ensures InsertByY(p, sorted)[k] == p || InsertByY(p, sorted)[k] in sorted
  {
    var r := InsertByY(p, sorted);
    assert r[k] in multiset(r);
  }

  /** Insertion keeps a list sorted by y. */
  lemma {:induction false} InsertByYSorted(p: Point, sorted: seq<Point>)
    requires SortedByY(sorted)
    ensures SortedByY(InsertByY(p, sorted))
  {
    if sorted != [] && sorted[|sorted| - 1].y > p.y {
      var front := sorted[..|sorted| - 1];
      var t := sorted[|sorted| - 1];
      InsertByYSorted(p, front);
      var r := InsertByY(p, front);
      forall k | 0 <= k < |r| ensures r[k].y <= t.y {
        InsertByYFrom(p, front, k);
      }
    }
  }

  function SortByY(s: seq<Point>): (r: seq<Point>)
    ensures multiset(r) == multiset(s) && |r| == |s|
  {
    if s == [] then []
    else
      var front := s[..|s| - 1];
      assert s == front + [s[|s| - 1]];
      InsertByY(s[|s| - 1], SortByY(front))
  }

  /** The sort yields the same points in non-decreasing y. */
  lemma {:induction false} SortByYSorted(s: seq<Point>)
    ensures SortedByY(SortByY(s))
  {
    if s != [] {
      SortByYSorted(s[..|s| - 1]);
      InsertByYSorted(s[|s| - 1], SortByY(s[..|s| - 1]));
    }
  }

  /** The corner order the scanner produces: sorted by y, then the top pair
      swapped to put the smaller x first and the bottom pair swapped to put
      the larger x first. */
  function OrderedCorners(s: seq<Point>): (r: seq<Point>)
    requires |s| == 4
    ensures |r| == 4
  {
    var t := SortByY(s);
    var top := if t[0].x > t[1].x then [t[1], t[0]] else [t[0], t[1]];
    var bottom := if t[2].x < t[3].x then [t[3], t[2]] else [t[2], t[3]];
    top + bottom
  }

  /** A pair, swapped or not, holds the same two points. */
  lemma PairSwapped(a: Point, b: Point, swap: bool)
    ensures multiset(if swap then [b, a] else [a, b]) == multiset([a, b])
  {
    assert [b, a] == [b] + [a] && [a, b] == [a] + [b];
  }

  /** The ordered corners are the same four points. */
  lemma OrderedCornersPermutation(s: seq<Point>)
    requires |s| == 4
    ensures multiset(OrderedCorners(s)) == multiset(s)
  {
    var t := SortByY(s);
    var top := if t[0].x > t[1].x then [t[1], t[0]] else [t[0], t[1]];
    var bottom := if t[2].x < t[3].x then [t[3], t[2]] else [t[2], t[3]];
    assert t == [t[0], t[1]] + [t[2], t[3]];
    PairSwapped(t[0], t[1], t[0].x > t[1].x);
    PairSwapped(t[2], t[3], t[2].x < t[3].x);
    calc {
      multiset(OrderedCorners(s));
      multiset(top + bottom);
      multiset(top) + multiset(bottom);
      multiset([t[0], t[1]]) + multiset([t[2], t[3]]);
      multiset([t[0], t[1]] + [t[2], t[3]]);
      multiset(t);
    }
  }

  /** The top two corners are no lower than the bottom two, and the corners
      run top-left, top-right, bottom-right, bottom-left. */
  lemma OrderedCornersShape(s: seq<Point>)
    requires |s| == 4
    ensures var r := OrderedCorners(s);
            r[0].y <= r[2].y && r[0].y <= r[3].y && r[1].y <= r[2].y && r[1].y <= r[3].y &&
            r[0].x <= r[1].x && r[2].x >= r[3].x
  {
    var t := SortByY(s);
    SortByYSorted(s);
    assert t[0].y <= t[2].y && t[0].y <= t[3].y && t[1].y <= t[2].y && t[1].y <= t[3].y;
  }

  /** The sort and the two swaps, in place on the corner array. */
  method OrderCorners(a: array<Point>)
    requires a.Length == 4
    modifies a
    ensures a[..] == OrderedCorners(old(a[..]))
  {
    var sorted := SortByY(a[..]);
    a[0], a[1], a[2], a[3] := sorted[0], sorted[1], sorted[2], sorted[3];
    if a[0].x > a[1].x {
      a[0], a[1] := a[1], a[0];
    }
    if a[2].x < a[3].x {
      a[2], a[3] := a[3], a[2];
    }
  }

  /** Copies an approximation's four vertices into a fresh array and orders them. */
  method CornersOf(approx: seq<Point>) returns (corners: seq<Point>)
    requires |approx| == 4
    ensures corners == OrderedCorners(approx)
  {
    var a := new Point[4];
    a[0], a[1], a[2], a[3] := approx[0], approx[1], approx[2], approx[3];
    assert a[..] == approx;
    OrderCorners(a);
    corners := a[..];
  }

  /** The candidate loop of `detectDocumentEdges`: `maxArea` starts at 0
      and each candidate strictly larger than it replaces the corners. */
  method SelectCorners(contours: seq<Contour>) returns (corners: Option<seq<Point>>)
    ensures corners.None? <==> forall j :: 0 <= j < |contours| ==> !Candidate(contours[j])
    ensures corners.Some? ==>
      exists i :: Best(contours, i) && corners.value == OrderedCorners(contours[i].approx)
  {
    corners := None;
    var maxArea := 0.0;
    ghost var best := -1;
    for i := 0 to |contours|
      invariant corners.None? <==> best == -1
      invariant best == -1 ==> maxArea == 0.0 && forall j :: 0 <= j < i ==> !Candidate(contours[j])
      invariant best != -1 ==> best < i && Best(contours[..i], best) && maxArea == contours[best].area
      invariant best != -1 ==> corners.Some? && corners.value == OrderedCorners(contours[best].approx)
    {
      var c := contours[i];
      assert contours[..i + 1] == contours[..i] + [c];
      if c.area > 1000.0 && |c.approx| == 4 && c.area > maxArea {
        if best == -1 {
          BestFirst(contours[..i], c);
        } else {
          BestReplaced(contours[..i], best, c);
        }
        var ordered := CornersOf(c.approx);
        corners := Some(ordered);
        maxArea := c.area;
        best := i;
      } else if best != -1 {
        BestKept(contours[..i], best, c);
      }
    }
    assert contours[..|contours|] == contours;
    if best != -1 {
      assert Best(contours, best) && corners.value == OrderedCorners(contours[best].approx);
    }
  }

  datatype Rect = Rect(x: int, y: int, width: int, height: int)

  /** A bounding rectangle wider than five times its height. */
  predicate StaffLineShaped(r: Rect) {
    r.width > r.height * 5
  }

  /** The filter of `detectStaffLines`: the indices of the contours whose
      bounding rectangle is drawn, in order. */
  method StaffLineContours(rects: seq<Rect>) returns (drawn: seq<nat>)
    ensures forall k :: 0 <= k < |drawn| ==> drawn[k] < |rects| && StaffLineShaped(rects[drawn[k]])
    ensures forall i :: 0 <= i < |rects| && StaffLineShaped(rects[i]) ==> i in drawn
    ensures forall k, l :: 0 <= k < l < |drawn| ==> drawn[k] < drawn[l]
  {
    drawn := [];
    for i := 0 to |rects|
      invariant forall k :: 0 <= k < |drawn| ==> drawn[k] < i && StaffLineShaped(rects[drawn[k]])
      invariant forall j :: 0 <= j < i && StaffLineShaped(rects[j]) ==> j in drawn
      invariant forall k, l :: 0 <= k < l < |drawn| ==> drawn[k] < drawn[l]
    {
      if rects[i].width > rects[i].height * 5 {
        drawn := drawn + [i];
      }
    }
  }
}
