/** Locating the staves of a binary score image: the rows of their five
    lines, their left and right extremes, and the `Staff` objects built from
    them with line rows renumbered relative to each staff's crop. */
module StafflineDetection {
  import opened Wrappers
  import opened RunLengths
  import opened Boxes
  import opened Staffs

  /** Number of black (zero) pixels in a row of pixels. */
  function BlackCount(row: seq<int>): (n: nat)
    ensures n <= |row|
    ensures n == 0 <==> forall j :: 0 <= j < |row| ==> row[j] != 0
  {
    if row == [] then 0
    else BlackCount(row[..|row| - 1]) + (if row[|row| - 1] == 0 then 1 else 0)
  }

  /** Black pixels per image row. */
  function Histogram(img: Image): (hist: seq<nat>)
    ensures |hist| == |img|
  {
    seq(|img|, i requires 0 <= i < |img| => BlackCount(img[i]))
  }

  /** The histogram loop of `find_staffline_rows`. */
  method RowHistogram(img: Image) returns (hist: seq<nat>)
    ensures hist == Histogram(img)
    ensures forall i :: 0 <= i < |img| ==> hist[i] <= |img[i]|
  {
    hist := [];
    for i := 0 to |img|
      invariant |hist| == i
      invariant forall k :: 0 <= k < i ==> hist[k] == BlackCount(img[k])
    {
      var row := img[i];
      var count := 0;
      for j := 0 to |row|
        invariant count == BlackCount(row[..j])
      {
        assert row[..j + 1][..j] == row[..j];
        if row[j] == 0 {
          count := count + 1;
        }
      }
      assert row[..|row|] == row;
      hist := hist + [count];
    }
  }

  /** Rows spanned by a staff: five lines of `lw` rows with `ls` rows between. */
  function StaffLength(lw: nat, ls: nat): nat {
    5 * (lw + ls) - ls
  }

  /** First rows of the five lines of a staff starting at row `r`. */
  function BandStarts(r: int, lw: nat, ls: nat): (bs: seq<int>)
    ensures |bs| == 5 && bs[0] == r
    ensures forall k :: 0 <= k < 5 ==> r <= bs[k] && bs[k] + lw <= r + StaffLength(lw, ls)
    ensures forall k :: 0 <= k < 4 ==> bs[k] + lw + ls == bs[k + 1]
  {
    var d := lw + ls;
    [r, r + d, r + 2 * d, r + 3 * d, r + 4 * d]
  }

  /** `lw` consecutive rows from `j`. */
  function LineRows(j: int, lw: nat): (rows: seq<int>)
    ensures |rows| == lw && forall m :: 0 <= m < lw ==> rows[m] == j + m
  {
    seq(lw, m requires 0 <= m < lw => j + m)
  }

  type StaffRows = seq<seq<int>>

  /** The five line-row lists recorded for a staff starting at row `r`. */
  function StaffRowsAt(r: int, lw: nat, ls: nat): (s: StaffRows)
    ensures |s| == 5
    ensures forall k :: 0 <= k < 5 ==> s[k] == LineRows(BandStarts(r, lw, ls)[k], lw)
  {
    var bs := BandStarts(r, lw, ls);
    [LineRows(bs[0], lw), LineRows(bs[1], lw), LineRows(bs[2], lw), LineRows(bs[3], lw), LineRows(bs[4], lw)]
  }

  /** A band of `lw` histogram entries from `j` averages below 40% of the
      width: `sum / lw < 0.4 * cols`, in exact rationals. */
  predicate BandFails(hist: seq<nat>, j: int, lw: nat, cols: nat)
    requires lw > 0 && 0 <= j && j + lw <= |hist|
  {
    5 * Sum(hist[j..j + lw]) < 2 * cols * lw
  }

  /** All five bands of the staff starting at `r` reach the threshold. */
  predicate StaffPasses(hist: seq<nat>, r: int, lw: nat, ls: nat, cols: nat)
    requires lw > 0 && 0 <= r && r + StaffLength(lw, ls) <= |hist|
  {
    forall k :: 0 <= k < 5 ==> !BandFails(hist, BandStarts(r, lw, ls)[k], lw, cols)
  }

  /** The band tests of one start row, stopping at the first band below the
      threshold (the `for ... else` of `find_staffline_rows`). */
  method TestStaff(hist: seq<nat>, current: nat, lw: nat, ls: nat, numCols: nat) returns (passed: bool)
    requires lw > 0 && current + StaffLength(lw, ls) <= |hist|
    ensures passed <==> StaffPasses(hist, current, lw, ls, numCols)
  {
    var bands := BandStarts(current, lw, ls);
    passed := true;
    var k := 0;
    while k < 5 && passed
      invariant 0 <= k <= 5
      invariant forall q :: 0 <= q < k ==> !BandFails(hist, bands[q], lw, numCols)
      invariant !passed ==> k < 5 && BandFails(hist, bands[k], lw, numCols)
      decreases 5 - k, passed
    {
      if 5 * Sum(hist[bands[k]..bands[k] + lw]) < 2 * numCols * lw {
        passed := false;
      } else {
        k := k + 1;
      }
    }
  }

  /** Row `p` lies inside one of the recorded staffs. */
  predicate Covered(starts: seq<nat>, p: int, len: nat) {
    exists i :: 0 <= i < |starts| && starts[i] <= p < starts[i] + len
  }

  /** Every recorded staff lies in the image, has the recorded rows and
      passes the threshold test. */
  predicate Recorded(hist: seq<nat>, starts: seq<nat>, found: seq<StaffRows>, lw: nat, ls: nat, cols: nat)
    requires lw > 0
  {
    |found| == |starts| &&
    forall i :: 0 <= i < |starts| ==>
      starts[i] + StaffLength(lw, ls) <= |hist| && found[i] == StaffRowsAt(starts[i], lw, ls) &&
      StaffPasses(hist, starts[i], lw, ls, cols)
  }

  /** Recorded staffs come in increasing order without overlapping. */
  predicate Ordered(starts: seq<nat>, len: nat) {
    forall i :: 0 <= i < |starts| - 1 ==> starts[i] + len <= starts[i + 1]
  }

  /** Every start row below `upto` that passes lies inside a recorded staff. */
  predicate Complete(hist: seq<nat>, starts: seq<nat>, upto: int, lw: nat, ls: nat, cols: nat)
    requires lw > 0
  {
    forall p :: (0 <= p < upto && p + StaffLength(lw, ls) <= |hist| &&
                 StaffPasses(hist, p, lw, ls, cols)) ==> Covered(starts, p, StaffLength(lw, ls))
  }

  /** Recording the staff at `current` keeps the scan's invariants and moves
      it past the staff. */
  lemma RecordStep(hist: seq<nat>, starts: seq<nat>, found: seq<StaffRows>, current: nat, lw: nat, ls: nat, cols: nat)
    requires lw > 0 && current + StaffLength(lw, ls) <= |hist|
    requires Recorded(hist, starts, found, lw, ls, cols) && Ordered(starts, StaffLength(lw, ls))
    requires Complete(hist, starts, current, lw, ls, cols)
    requires forall i :: 0 <= i < |starts| ==> starts[i] + StaffLength(lw, ls) <= current
    requires StaffPasses(hist, current, lw, ls, cols)
    ensures Recorded(hist, starts + [current], found + [StaffRowsAt(current, lw, ls)], lw, ls, cols)
    ensures Ordered(starts + [current], StaffLength(lw, ls))
    ensures Complete(hist, starts + [current], current + StaffLength(lw, ls), lw, ls, cols)
  {
    RecordedStep(hist, starts, found, current, lw, ls, cols);
    OrderedStep(starts, current, StaffLength(lw, ls));
    CompleteStep(hist, starts, current, lw, ls, cols);
  }

  lemma RecordedStep(hist: seq<nat>, starts: seq<nat>, found: seq<StaffRows>, current: nat, lw: nat, ls: nat, cols: nat)
    requires lw > 0 && current + StaffLength(lw, ls) <= |hist|
    requires Recorded(hist, starts, found, lw, ls, cols)
    requires StaffPasses(hist, current, lw, ls, cols)
    ensures Recorded(hist, starts + [current], found + [StaffRowsAt(current, lw, ls)], lw, ls, cols)
  {
    var starts' := starts + [current];
    var found' := found + [StaffRowsAt(current, lw, ls)];
    forall i | 0 <= i < |starts'|
      ensures starts'[i] + StaffLength(lw, ls) <= |hist| && found'[i] == StaffRowsAt(starts'[i], lw, ls) &&
              StaffPasses(hist, starts'[i], lw, ls, cols)
    {
      if i < |starts| {
        assert starts'[i] == starts[i] && found'[i] == found[i];
      }
    }
  }

  lemma OrderedStep(starts: seq<nat>, current: nat, len: nat)
    requires Ordered(starts, len)
    requires forall i :: 0 <= i < |starts| ==> starts[i] + len <= current
    ensures Ordered(starts + [current], len)
  {
    var starts' := starts + [current];
    forall i | 0 <= i < |starts'| - 1 ensures starts'[i] + len <= starts'[i + 1] {
      assert starts'[i] == starts[i];
    }
  }

  lemma CompleteStep(hist: seq<nat>, starts: seq<nat>, current: nat, lw: nat, ls: nat, cols: nat)
    requires lw > 0 && current + StaffLength(lw, ls) <= |hist|
    requires Complete(hist, starts, current, lw, ls, cols)
    requires StaffPasses(hist, current, lw, ls, cols)
    ensures Complete(hist, starts + [current], current + StaffLength(lw, ls), lw, ls, cols)
  {
    var len := StaffLength(lw, ls);
    var starts' := starts + [current];
    forall p | (0 <= p < current + len && p + len <= |hist| && StaffPasses(hist, p, lw, ls, cols))
      ensures Covered(starts', p, len)
    {
      if p < current {
        var i :| 0 <= i < |starts| && starts[i] <= p < starts[i] + len;
        assert starts'[i] == starts[i];
      } else {
        assert starts'[|starts|] == current;
      }
    }
  }

  /** A start row that fails leaves the scan's invariants in place one row on. */
  lemma SkipStep(hist: seq<nat>, starts: seq<nat>, current: nat, lw: nat, ls: nat, cols: nat)
    requires lw > 0 && current + StaffLength(lw, ls) <= |hist|
    requires Complete(hist, starts, current, lw, ls, cols)
    requires !StaffPasses(hist, current, lw, ls, cols)
    ensures Complete(hist, starts, current + 1, lw, ls, cols)
  {
  }

  /** `find_staffline_rows` with a zero line width divides by zero (or asks
      `range` for a zero step) as soon as one start row is tried. */
  datatype DetectError = ZeroLineWidth

  /** `find_staffline_rows`: a greedy scan over start rows. The recorded
      staffs (with ghost start rows `starts`) all pass the threshold test,
      are in increasing order and do not overlap, and every start row that
      would pass lies inside a recorded staff: a row is skipped only by the
      jump after a hit. */
  method FindStafflineRows(img: Image, lw: nat, ls: nat)
    returns (r: Result<seq<StaffRows>, DetectError>, ghost starts: seq<nat>)
    requires Rectangular(img)
    ensures r.Err? <==> lw == 0 && |img| - StaffLength(lw, ls) + 1 > 0
    ensures r.Ok? && lw == 0 ==> r.value == []
    ensures r.Ok? && lw > 0 ==> Recorded(Histogram(img), starts, r.value, lw, ls, Width(img))
    ensures r.Ok? && lw > 0 ==> Ordered(starts, StaffLength(lw, ls))
    ensures r.Ok? && lw > 0 ==> Complete(Histogram(img), starts, |img|, lw, ls, Width(img))
  {
    starts := [];
    var hist := RowHistogram(img);
    var numCols := if |img| == 0 then 0 else |img[0]|;
    var staffLength := 5 * (lw + ls) - ls;
    var iterRange := |img| - staffLength + 1;
    if lw == 0 {
      if iterRange > 0 {
        return Err(ZeroLineWidth), starts;
      }
      return Ok([]), starts;
    }
    var found: seq<StaffRows> := [];
    var current := 0;
    while current < iterRange
      invariant 0 <= current
      invariant Recorded(hist, starts, found, lw, ls, numCols) && Ordered(starts, staffLength)
      invariant forall i :: 0 <= i < |starts| ==> starts[i] + staffLength <= current
      invariant Complete(hist, starts, current, lw, ls, numCols)
      decreases iterRange - current
    {
      var passed := TestStaff(hist, current, lw, ls, numCols);
      if passed {
        RecordStep(hist, starts, found, current, lw, ls, numCols);
        found := found + [StaffRowsAt(current, lw, ls)];
        starts := starts + [current];
        current := current + staffLength;
      } else {
        SkipStep(hist, starts, current, lw, ls, numCols);
        current := current + 1;
      }
    }
    assert Complete(hist, starts, |img|, lw, ls, numCols);
    r := Ok(found);
  }

  /** A staff's row lists have the shape the column search and
      `create_staffs` index: five lines, line one non-empty, line five at
      least `lw` rows, with `lw >= 1`. */
  predicate WellShaped(s: StaffRows, lw: nat) {
    lw >= 1 && |s| >= 5 && |s[0]| > 0 && |s[4]| >= lw
  }

  /** The rows searched for a staff's extremes: from line one's first row up
      to, but excluding, line five's last row. */
  function WindowTop(s: StaffRows, lw: nat): int
    requires WellShaped(s, lw)
  {
    s[0][0]
  }

  function WindowBottom(s: StaffRows, lw: nat): int
    requires WellShaped(s, lw)
  {
    s[4][lw - 1]
  }

  predicate WindowInImage(img: Image, s: StaffRows, lw: nat) {
    WellShaped(s, lw) && 0 <= WindowTop(s, lw) <= WindowBottom(s, lw) <= |img|
  }

  /** Column `j` has no black pixel in the staff's row window. */
  predicate Clear(img: Image, s: StaffRows, lw: nat, j: int)
    requires WindowInImage(img, s, lw)
  {
    forall row :: WindowTop(s, lw) <= row < WindowBottom(s, lw) && 0 <= j < |img[row]| ==> img[row][j] != 0
  }

  /** `b` is the rightmost clear column of the left half. */
  predicate LeftExtreme(img: Image, s: StaffRows, lw: nat, b: int)
    requires WindowInImage(img, s, lw)
  {
    0 <= b < Width(img) / 2 && Clear(img, s, lw, b) &&
    forall j :: b < j < Width(img) / 2 ==> !Clear(img, s, lw, j)
  }

  /** `e` is the leftmost clear column of the right half. */
  predicate RightExtreme(img: Image, s: StaffRows, lw: nat, e: int)
    requires WindowInImage(img, s, lw)
  {
    Width(img) / 2 <= e < Width(img) && Clear(img, s, lw, e) &&
    forall j :: Width(img) / 2 <= j < e ==> !Clear(img, s, lw, j)
  }

  predicate HasLeft(img: Image, s: StaffRows, lw: nat)
    requires WindowInImage(img, s, lw)
  {
    exists j :: 0 <= j < Width(img) / 2 && Clear(img, s, lw, j)
  }

  predicate HasRight(img: Image, s: StaffRows, lw: nat)
    requires WindowInImage(img, s, lw)
  {
    exists j :: Width(img) / 2 <= j < Width(img) && Clear(img, s, lw, j)
  }

  /** Taking `[0]` of an empty candidate list raises IndexError; the staff
      index says which staff had no clear column on that side. */
  datatype ColumnError = NoLeftEdge(staff: nat) | NoRightEdge(staff: nat)

  /** The largest element of a non-empty list (first after a descending sort). */
  function Largest(xs: seq<int>): (m: int)
    requires |xs| > 0
    ensures m in xs && forall i :: 0 <= i < |xs| ==> xs[i] <= m
  {
    if |xs| == 1 then xs[0]
    else var t := Largest(xs[1..]); if xs[0] >= t then xs[0] else t
  }

  /** The smallest element of a non-empty list (first after an ascending sort). */
  function Smallest(xs: seq<int>): (m: int)
    requires |xs| > 0
    ensures m in xs && forall i :: 0 <= i < |xs| ==> m <= xs[i]
  {
    if |xs| == 1 then xs[0]
    else var t := Smallest(xs[1..]); if xs[0] <= t then xs[0] else t
  }

  /** Counts black pixels of column `j` in the window and compares with 0. */
  method ColumnIsClear(img: Image, s: StaffRows, lw: nat, j: nat) returns (clear: bool)
    requires Rectangular(img) && WindowInImage(img, s, lw) && j < Width(img)
    ensures clear <==> Clear(img, s, lw, j)
  {
    var window := Column(img, j)[WindowTop(s, lw)..WindowBottom(s, lw)];
    clear := BlackCount(window) == 0;
    assert forall row :: WindowTop(s, lw) <= row < WindowBottom(s, lw) ==>
      img[row][j] == window[row - WindowTop(s, lw)];
  }

  /** The candidate columns of one half: every clear column of `[lo, hi)`,
      in increasing order. */
  method ClearColumns(img: Image, s: StaffRows, lw: nat, lo: nat, hi: nat) returns (cols: seq<int>)
    requires Rectangular(img) && WindowInImage(img, s, lw) && lo <= hi <= Width(img)
    ensures forall x :: x in cols <==> lo <= x < hi && Clear(img, s, lw, x)
    ensures forall a, b :: 0 <= a < b < |cols| ==> cols[a] < cols[b]
  {
    cols := [];
    var j := lo;
    while j < hi
      invariant lo <= j <= hi
      invariant forall x :: x in cols <==> lo <= x < j && Clear(img, s, lw, x)
      invariant forall a :: 0 <= a < |cols| ==> cols[a] < j
      invariant forall a, b :: 0 <= a < b < |cols| ==> cols[a] < cols[b]
    {
      var clear := ColumnIsClear(img, s, lw, j);
      if clear {
        cols := cols + [j];
      }
      j := j + 1;
    }
  }

  /** `find_staffline_columns`: for each staff, the rightmost clear column of
      the left half and the leftmost clear column of the right half; it
      fails at the first staff that lacks one of them, left side first. */
  method FindStafflineColumns(img: Image, staffs: seq<StaffRows>, lw: nat)
    returns (r: Result<seq<(int, int)>, ColumnError>)
    requires Rectangular(img)
    requires forall i :: 0 <= i < |staffs| ==> WindowInImage(img, staffs[i], lw)
    ensures r.Ok? ==> |r.value| == |staffs|
    ensures r.Ok? ==> forall i :: 0 <= i < |staffs| ==>
      LeftExtreme(img, staffs[i], lw, r.value[i].0) && RightExtreme(img, staffs[i], lw, r.value[i].1)
    ensures r.Ok? <==> forall i :: 0 <= i < |staffs| ==> HasLeft(img, staffs[i], lw) && HasRight(img, staffs[i], lw)
    ensures r.Err? && r.error.NoLeftEdge? ==>
      r.error.staff < |staffs| && !HasLeft(img, staffs[r.error.staff], lw)
    ensures r.Err? && r.error.NoRightEdge? ==>
      r.error.staff < |staffs| && HasLeft(img, staffs[r.error.staff], lw) && !HasRight(img, staffs[r.error.staff], lw)
    ensures r.Err? ==> forall i :: 0 <= i < r.error.staff ==> HasLeft(img, staffs[i], lw) && HasRight(img, staffs[i], lw)
  {
    var numCols := if |img| == 0 then 0 else |img[0]|;
    var extremes: seq<(int, int)> := [];
    for i := 0 to |staffs|
      invariant |extremes| == i
      invariant forall k :: 0 <= k < i ==>
        LeftExtreme(img, staffs[k], lw, extremes[k].0) && RightExtreme(img, staffs[k], lw, extremes[k].1)
    {
      var beginList := ClearColumns(img, staffs[i], lw, 0, numCols / 2);
      if beginList == [] {
        assert !HasLeft(img, staffs[i], lw);
        return Err(NoLeftEdge(i));
      }
      var begin := Largest(beginList);
      var endList := ClearColumns(img, staffs[i], lw, numCols / 2, numCols);
      if endList == [] {
        assert !HasRight(img, staffs[i], lw);
        assert begin in beginList;
        return Err(NoRightEdge(i));
      }
      var end := Smallest(endList);
      assert forall j :: begin < j < numCols / 2 ==> !Clear(img, staffs[i], lw, j);
      assert forall j :: numCols / 2 <= j < end ==> !Clear(img, staffs[i], lw, j);
      extremes := extremes + [(begin, end)];
    }
    return Ok(extremes);
  }

  /** A staff recorded by `find_staffline_rows` inside the image has the
      shape and row window the column search and `create_staffs` need, and
      its window runs from its first row to its last row. */
  lemma DetectedStaffWindow(img: Image, start: nat, lw: nat, ls: nat)
    requires lw > 0 && start + StaffLength(lw, ls) <= |img|
    ensures WindowInImage(img, StaffRowsAt(start, lw, ls), lw)
    ensures WindowTop(StaffRowsAt(start, lw, ls), lw) == start
    ensures WindowBottom(StaffRowsAt(start, lw, ls), lw) == start + StaffLength(lw, ls) - 1
  {
    var s := StaffRowsAt(start, lw, ls);
    assert s[4][lw - 1] == BandStarts(start, lw, ls)[4] + lw - 1;
  }

  /** Python slice bound: negative counts from the end, then clamp to [0, n]. */
  function SliceIndex(i: int, n: nat): (k: nat)
    ensures k <= n
    ensures 0 <= i <= n ==> k == i
  {
    if i < 0 then (if i + n < 0 then 0 else i + n) else if i > n then n else i
  }

  /** `s[a:b]` with Python's slicing rules. */
  function PySlice<T>(s: seq<T>, a: int, b: int): (r: seq<T>)
    ensures |r| <= |s|
    ensures 0 <= a <= b <= |s| ==> r == s[a..b]
  {
    var lo := SliceIndex(a, |s|);
    var hi := SliceIndex(b, |s|);
    if lo < hi then s[lo..hi] else []
  }

  /** `img[top:bottom, left:right]`. */
  function Crop(img: Image, top: int, bottom: int, left: int, right: int): (c: Image)
    ensures |c| == |PySlice(img, top, bottom)|
  {
    var rows := PySlice(img, top, bottom);
    seq(|rows|, i requires 0 <= i < |rows| => PySlice(rows[i], left, right))
  }

  /** `create_staffs` indexes the second staff. */
  datatype CreateError = TooFewStaffs

  /** Half the gap between the last row of the first staff and the first row
      of the second (floor division). */
  function HalfGap(vert: seq<StaffRows>, lw: nat): int
    requires |vert| >= 2 && WellShaped(vert[0], lw) && WellShaped(vert[1], lw)
  {
    (vert[1][0][0] - vert[0][4][lw - 1]) / 2
  }

  /** The staff's box: from its left extreme to its right extreme and from
      line one's first row to line five's last row. */
  function StaffBox(s: StaffRows, extremes: (int, int), lw: nat): BoundingBox
    requires WellShaped(s, lw)
  {
    BoundingBox(extremes.0 as real, s[0][0] as real, (extremes.1 - extremes.0) as real,
                (s[4][lw - 1] - s[0][0]) as real)
  }

  /** The box of a detected staff spans every row of its five lines. */
  lemma StaffBoxCoversLines(start: nat, lw: nat, ls: nat, extremes: (int, int))
    requires lw > 0
    ensures var s := StaffRowsAt(start, lw, ls);
            var b := StaffBox(s, extremes, lw);
            b.x == extremes.0 as real && b.Right() == extremes.1 as real &&
            forall k, m :: 0 <= k < 5 && 0 <= m < lw ==>
              b.y <= s[k][m] as real <= b.Bottom()
  {
    var s := StaffRowsAt(start, lw, ls);
    var bs := BandStarts(start, lw, ls);
    forall k, m | 0 <= k < 5 && 0 <= m < lw
      ensures start <= s[k][m] <= s[4][lw - 1]
    {
      assert s[k][m] == bs[k] + m;
    }
  }

  /** The crop of a staff: half a gap above and below its box, the bottom
      clamped to the row before the last, and its columns. */
  function StaffCrop(img: Image, s: StaffRows, extremes: (int, int), lw: nat, half: int): Image
    requires WellShaped(s, lw)
  {
    var y := s[0][0];
    var height := s[4][lw - 1] - y;
    var top := if 0 > y - half then 0 else y - half;
    var bottom := if y + height + half < |img| - 1 then y + height + half else |img| - 1;
    Crop(img, top, bottom, extremes.0, extremes.1)
  }

  /** The line rows given to every staff, as written: line `k` starts at
      `half + k * (lw + ls + 1)`. */
  function NormalizedLines(half: int, lw: nat, ls: nat): (lines: seq<seq<int>>)
    ensures |lines| == 5
  {
    seq(5, k requires 0 <= k < 5 => LineRows(half + k * (lw + ls + 1), lw))
  }

  /** The loop of `create_staffs` that numbers the rows with a running
      counter: `lw` rows per line, then `ls + 1` skipped. */
  method NormalizeLines(half: int, lw: nat, ls: nat) returns (lines: seq<seq<int>>)
    ensures lines == NormalizedLines(half, lw, ls)
  {
    var pixel := half;
    lines := [];
    for j := 0 to 5
      invariant |lines| == j
      invariant pixel == half + j * (lw + ls + 1)
      invariant forall k :: 0 <= k < j ==> lines[k] == LineRows(half + k * (lw + ls + 1), lw)
    {
      var first := pixel;
      var line := [];
      for k := 0 to lw
        invariant pixel == first + k
        invariant line == LineRows(first, k)
      {
        line := line + [pixel];
        pixel := pixel + 1;
      }
      lines := lines + [line];
      pixel := pixel + ls + 1;
      assert (j + 1) * (lw + ls + 1) == j * (lw + ls + 1) + (lw + ls + 1);
    }
  }

  /** As written, line `k` of a detected staff is renumbered `k` rows too
      low: row `m` of line `k` maps to `half + k * (lw + ls) + m + k` in the
      crop, while that row sits at `half + k * (lw + ls) + m` in a crop that
      starts `half` rows above the staff. */
  lemma NormalizedLinesDrift(start: int, half: int, lw: nat, ls: nat, k: nat, m: nat)
    requires start >= half && k < 5 && m < lw
    ensures var actual := StaffRowsAt(start, lw, ls)[k][m] - (start - half);
            NormalizedLines(half, lw, ls)[k][m] == actual + k
  {
    assert BandStarts(start, lw, ls)[k] == start + k * (lw + ls);
    assert NormalizedLines(half, lw, ls)[k] == LineRows(half + k * (lw + ls + 1), lw);
  }

  /** The line rows as evidently intended: line `k` starts at
      `half + k * (lw + ls)`, the same pitch as the detected lines. */
  function AlignedLines(half: int, lw: nat, ls: nat): (lines: seq<seq<int>>)
    ensures |lines| == 5
  {
    seq(5, k requires 0 <= k < 5 => LineRows(half + k * (lw + ls), lw))
  }

  /** With the intended numbering, every row of a detected staff's lines,
      taken relative to a crop that starts `half` rows above the staff, is
      the row recorded for it. */
  lemma AlignedLinesMatch(start: int, half: int, lw: nat, ls: nat)
    requires start >= half
    ensures forall k, m :: 0 <= k < 5 && 0 <= m < lw ==>
      AlignedLines(half, lw, ls)[k][m] == StaffRowsAt(start, lw, ls)[k][m] - (start - half)
  {
    forall k, m | 0 <= k < 5 && 0 <= m < lw
      ensures AlignedLines(half, lw, ls)[k][m] == StaffRowsAt(start, lw, ls)[k][m] - (start - half)
    {
      assert BandStarts(start, lw, ls)[k] == start + k * (lw + ls);
      assert AlignedLines(half, lw, ls)[k] == LineRows(half + k * (lw + ls), lw);
    }
  }

  /** `st` is the staff built from staff `s` with extremes `ex`. */
  predicate Built<Bar>(st: Staff<Bar>, s: StaffRows, ex: (int, int), lw: nat, ls: nat, img: Image, half: int)
    reads st
    requires WellShaped(s, lw)
  {
    st.box == StaffBox(s, ex, lw) &&
    st.image == StaffCrop(img, s, ex, lw, half) &&
    st.Lines() == NormalizedLines(half, lw, ls) &&
    st.lineWidth == lw && st.lineSpacing == ls && st.bars == [] &&
    st.clef == "treble" && st.timeSignature == "44" && st.instrument == -1
  }

  /** The body of the `create_staffs` loop for one staff. */
  method BuildStaff<Bar>(s: StaffRows, ex: (int, int), lw: nat, ls: nat, img: Image, half: int)
    returns (staff: Staff<Bar>)
    requires WellShaped(s, lw)
    ensures fresh(staff) && Built(staff, s, ex, lw, ls, img, half)
  {
    var x := ex.0;
    var y := s[0][0];
    var width := ex.1 - x;
    var height := s[4][lw - 1] - y;
    var box := BoundingBox(x as real, y as real, width as real, height as real);
    var top := if 0 > y - half then 0 else y - half;
    var bottom := if y + height + half < |img| - 1 then y + height + half else |img| - 1;
    var crop := Crop(img, top, bottom, x, x + width);
    var lines := NormalizeLines(half, lw, ls);
    staff := new Staff<Bar>(lines, box, lw, ls, crop);
  }

  /** `create_staffs`: one new `Staff` per detected staff, with its box, its
      crop, the renumbered line rows, and the default clef, time signature
      and instrument. */
  method CreateStaffs<Bar>(vert: seq<StaffRows>, horiz: seq<(int, int)>, lw: nat, ls: nat, img: Image)
    returns (r: Result<seq<Staff<Bar>>, CreateError>)
    requires |horiz| == |vert|
    requires forall i :: 0 <= i < |vert| ==> WellShaped(vert[i], lw)
    ensures r.Err? <==> |vert| < 2
    ensures r.Ok? ==> |r.value| == |vert|
    ensures r.Ok? ==> forall i :: 0 <= i < |vert| ==>
      fresh(r.value[i]) && Built(r.value[i], vert[i], horiz[i], lw, ls, img, HalfGap(vert, lw))
  {
    if |vert| < 2 {
      return Err(TooFewStaffs);
    }
    var half := (vert[1][0][0] - vert[0][4][lw - 1]) / 2;
    assert half == HalfGap(vert, lw);
    var staffs: seq<Staff<Bar>> := [];
    for i := 0 to |vert|
      invariant |staffs| == i
      invariant forall k :: 0 <= k < i ==> fresh(staffs[k])
      invariant forall k :: 0 <= k < i ==> Built(staffs[k], vert[k], horiz[k], lw, ls, img, half)
    {
      var staff := BuildStaff<Bar>(vert[i], horiz[i], lw, ls, img, half);
      staffs := staffs + [staff];
    }
    return Ok(staffs);
  }
}
