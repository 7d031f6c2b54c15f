/** Greedy merging of overlapping symbol boxes (`merge_boxes` in src/utils.py). */
module BoxMerging {
  import opened Boxes

  /** Every box has positive width and height. */
  predicate AllPositive(bs: seq<BoundingBox>) {
    forall k :: 0 <= k < |bs| ==> bs[k].w > 0.0 && bs[k].h > 0.0
  }

  /** Some box of `bs` encloses `b`. */
  predicate CoveredBy(b: BoundingBox, bs: seq<BoundingBox>) {
    exists k :: 0 <= k < |bs| && Contains(bs[k], b)
  }

  /** `bs` is in non-decreasing order of `key`. */
  predicate SortedBy(bs: seq<BoundingBox>, key: BoundingBox -> real) {
    forall i, j :: 0 <= i < j < |bs| ==> key(bs[i]) <= key(bs[j])
  }

  /** Inserts `b` before the first box of `sorted` with a key at least as large. */
  function InsertBy(b: BoundingBox, sorted: seq<BoundingBox>, key: BoundingBox -> real): (s: seq<BoundingBox>)
    ensures |s| == |sorted| + 1
  {
    if sorted == [] then [b]
    else if key(b) <= key(sorted[0]) then [b] + sorted
    else [sorted[0]] + InsertBy(b, sorted[1..], key)
  }

  /** Insertion adds `b` and loses nothing. */
  lemma {:induction false} InsertByPermutes(b: BoundingBox, sorted: seq<BoundingBox>, key: BoundingBox -> real)
    ensures multiset(InsertBy(b, sorted, key)) == multiset(sorted) + multiset{b}
  {
    if sorted != [] && key(b) > key(sorted[0]) {
      var t := InsertBy(b, sorted[1..], key);
      InsertByPermutes(b, sorted[1..], key);
      assert InsertBy(b, sorted, key) == [sorted[0]] + t;
      assert sorted == [sorted[0]] + sorted[1..];
      assert multiset(sorted) == multiset{sorted[0]} + multiset(sorted[1..]);
    }
  }

  /** Every box of `sorted` has a key at least that of the first box. */
  lemma {:induction false} HeadBoundsInsert(b: BoundingBox, sorted: seq<BoundingBox>, key: BoundingBox -> real)
    requires SortedBy(sorted, key) && sorted != [] && key(b) > key(sorted[0])
    ensures forall k :: 0 <= k < |InsertBy(b, sorted[1..], key)| ==>
              key(sorted[0]) <= key(InsertBy(b, sorted[1..], key)[k])
  {
    var rest := sorted[1..];
    var t := InsertBy(b, rest, key);
    InsertByPermutes(b, rest, key);
    forall k | 0 <= k < |t| ensures key(sorted[0]) <= key(t[k]) {
      assert t[k] in multiset(t);
      if t[k] != b {
        assert t[k] in multiset(rest);
        var j :| 0 <= j < |rest| && rest[j] == t[k];
        assert sorted[j + 1] == t[k];
      }
    }
  }

  /** Insertion into a sorted list keeps it sorted. */
  lemma {:induction false} InsertBySorted(b: BoundingBox, sorted: seq<BoundingBox>, key: BoundingBox -> real)
    requires SortedBy(sorted, key)
    ensures SortedBy(InsertBy(b, sorted, key), key)
  {
    if sorted != [] && key(b) > key(sorted[0]) {
      var t := InsertBy(b, sorted[1..], key);
      InsertBySorted(b, sorted[1..], key);
      HeadBoundsInsert(b, sorted, key);
      var s := [sorted[0]] + t;
      assert forall k :: 0 < k < |s| ==> s[k] == t[k - 1];
    }
  }

  /** A stable sort by `key` (Python's `list.sort(key=...)`), by insertion. */
  function SortBy(bs: seq<BoundingBox>, key: BoundingBox -> real): (s: seq<BoundingBox>)
    ensures |s| == |bs|
  {
    if bs == [] then [] else InsertBy(bs[0], SortBy(bs[1..], key), key)
  }

  /** Sorting rearranges the boxes and loses none. */
  lemma {:induction false} SortByPermutes(bs: seq<BoundingBox>, key: BoundingBox -> real)
    ensures multiset(SortBy(bs, key)) == multiset(bs)
  {
    if bs != [] {
      SortByPermutes(bs[1..], key);
      InsertByPermutes(bs[0], SortBy(bs[1..], key), key);
      assert bs == [bs[0]] + bs[1..];
    }
  }

  /** Sorting puts the keys in non-decreasing order. */
  lemma {:induction false} SortBySorted(bs: seq<BoundingBox>, key: BoundingBox -> real)
    ensures SortedBy(SortBy(bs, key), key)
  {
    if bs != [] {
      SortBySorted(bs[1..], key);
      InsertBySorted(bs[0], SortBy(bs[1..], key), key);
    }
  }

  /** `boxes.sort(key=lambda box: box.distance(r))`, on squared distances. */
  function SortByDistance(bs: seq<BoundingBox>, r: BoundingBox): (s: seq<BoundingBox>)
    ensures |s| == |bs| && multiset(s) == multiset(bs)
    ensures forall i, j :: 0 <= i < j < |s| ==> DistanceSquared(s[i], r) <= DistanceSquared(s[j], r)
  {
    var key := (b: BoundingBox) => DistanceSquared(b, r);
    SortByPermutes(bs, key);
    SortBySorted(bs, key);
    var s := SortBy(bs, key);
    assert forall i, j :: 0 <= i < j < |s| ==> key(s[i]) <= key(s[j]);
    s
  }


  /** A box enclosed by `x`, or by a box of `xs`, is enclosed by a box of `[x] + xs`. */
  lemma CoveredByCons(b: BoundingBox, x: BoundingBox, xs: seq<BoundingBox>)
    requires Contains(x, b) || CoveredBy(b, xs)
    ensures CoveredBy(b, [x] + xs)
  {
    if Contains(x, b) {
      assert ([x] + xs)[0] == x;
    } else {
      var k :| 0 <= k < |xs| && Contains(xs[k], b);
      assert ([x] + xs)[k + 1] == xs[k];
    }
  }

  /** Removing entry `i` and merging it into `r` keeps everything covered. */
  lemma CoveredAfterPop(b: BoundingBox, xs: seq<BoundingBox>, i: nat, r: BoundingBox)
    requires i < |xs|
    requires Contains(r, b) || CoveredBy(b, xs)
    ensures Contains(Merge(r, xs[i]), b) || CoveredBy(b, xs[..i] + xs[i + 1..])
  {
    var m := Merge(r, xs[i]);
    var ys := xs[..i] + xs[i + 1..];
    if Contains(r, b) {
      ContainsTransitive(m, r, b);
    } else {
      var k :| 0 <= k < |xs| && Contains(xs[k], b);
      if k == i {
        ContainsTransitive(m, xs[i], b);
      } else if k < i {
        assert ys[k] == xs[k];
      } else {
        assert ys[k - 1] == xs[k];
      }
    }
  }

  /** Boxes taken from a list of boxes with positive sides have positive sides. */
  lemma PositiveWithin(xs: seq<BoundingBox>, ys: seq<BoundingBox>)
    requires multiset(ys) <= multiset(xs) && AllPositive(xs)
    ensures AllPositive(ys)
  {
    forall k | 0 <= k < |ys|
      ensures ys[k].w > 0.0 && ys[k].h > 0.0
    {
      assert ys[k] in multiset(xs);
    }
  }

  /** The distance test of the inner scan: `b.distance(r) > r.w/2 + b.w/2`,
      compared on squares (both sides are non-negative for positive widths). */
  predicate TooFar(b: BoundingBox, r: BoundingBox) {
    var reach := r.w / 2.0 + b.w / 2.0;
    DistanceSquared(b, r) > reach * reach
  }

  /** The absorption test of the inner scan: either box's overlap ratio
      with the other exceeds the threshold. */
  predicate Absorbs(r: BoundingBox, b: BoundingBox, threshold: real) {
    r.Area() != 0.0 && b.Area() != 0.0 &&
    (Overlap(r, b) > threshold || Overlap(b, r) > threshold)
  }

  /** The box grown from `r` by merging the boxes of `bs` into it in order. */
  function FoldMerge(r: BoundingBox, bs: seq<BoundingBox>): BoundingBox
    decreases |bs|
  {
    if bs == [] then r else FoldMerge(Merge(r, bs[0]), bs[1..])
  }

  /** Each box of `bs` passed the absorption test against the box grown from
      `r` by the boxes before it. */
  predicate AbsorbChain(r: BoundingBox, bs: seq<BoundingBox>, threshold: real)
    decreases |bs|
  {
    bs == [] || (Absorbs(r, bs[0], threshold) && AbsorbChain(Merge(r, bs[0]), bs[1..], threshold))
  }

  /** Growing by `a` and then by `b` is growing by `a + b`. */
  lemma {:induction false} FoldMergeAppend(r: BoundingBox, a: seq<BoundingBox>, b: seq<BoundingBox>)
    ensures FoldMerge(r, a + b) == FoldMerge(FoldMerge(r, a), b)
    decreases |a|
  {
    if a == [] {
      assert a + b == b;
    } else {
      assert (a + b)[0] == a[0] && (a + b)[1..] == a[1..] + b;
      FoldMergeAppend(Merge(r, a[0]), a[1..], b);
    }
  }

  /** The grown box encloses the start box and every box merged into it. */
  lemma {:induction false} FoldMergeEncloses(r: BoundingBox, bs: seq<BoundingBox>)
    ensures Contains(FoldMerge(r, bs), r)
    ensures forall k :: 0 <= k < |bs| ==> Contains(FoldMerge(r, bs), bs[k])
    decreases |bs|
  {
    if bs != [] {
      var m, grown := FoldMerge(r, bs), Merge(r, bs[0]);
      FoldMergeEncloses(grown, bs[1..]);
      ContainsTransitive(m, grown, r);
      ContainsTransitive(m, grown, bs[0]);
      forall k | 0 < k < |bs|
        ensures Contains(m, bs[k])
      {
        assert bs[k] == bs[1..][k - 1];
      }
    }
  }

  /** A chain from `r` followed by a chain from its grown box is one chain. */
  lemma {:induction false} AbsorbChainAppend(r: BoundingBox, a: seq<BoundingBox>, b: seq<BoundingBox>, threshold: real)
    requires AbsorbChain(r, a, threshold) && AbsorbChain(FoldMerge(r, a), b, threshold)
    ensures AbsorbChain(r, a + b, threshold)
    decreases |a|
  {
    if a == [] {
      assert a + b == b;
    } else {
      assert (a + b)[0] == a[0] && (a + b)[1..] == a[1..] + b;
      AbsorbChainAppend(Merge(r, a[0]), a[1..], b, threshold);
    }
  }

  /** What growing a box over a list produced: the grown box, the boxes left
      in the list (in their order), and the boxes absorbed, in the order they
      were merged. */
  datatype Scan = Scan(r: BoundingBox, rest: seq<BoundingBox>, absorbed: seq<BoundingBox>)

  /** The inner `for` loop of `merge_boxes`, from entry `i` of the list: a box
      that passes the overlap test against the grown box is merged into it
      and popped, and the scan stays at `i`; otherwise the scan stops at a box
      that is too far away and moves past any other. The scan runs to the end
      of the list: the `range(len(boxes))` bound never cuts it short, because
      each iteration pops a box or advances `i`. */
  function ScanFrom(r: BoundingBox, xs: seq<BoundingBox>, i: nat, threshold: real): (s: Scan)
    decreases |xs| - i
    ensures |s.rest| + |s.absorbed| == |xs|
    ensures s.absorbed == [] ==> s.r == r && s.rest == xs
  {
    if i >= |xs| then Scan(r, xs, [])
    else if Absorbs(r, xs[i], threshold) then
      var s := ScanFrom(Merge(r, xs[i]), xs[..i] + xs[i + 1..], i, threshold);
      Scan(s.r, s.rest, [xs[i]] + s.absorbed)
    else if TooFar(xs[i], r) then Scan(r, xs, [])
    else ScanFrom(r, xs, i + 1, threshold)
  }

  /** The `while merged` loop of `merge_boxes`: scans from the start of the
      list until a scan absorbs nothing. */
  function Grow(r: BoundingBox, xs: seq<BoundingBox>, threshold: real): (g: Scan)
    decreases |xs|
    ensures |g.rest| + |g.absorbed| == |xs|
    ensures g.absorbed == [] ==> g.r == r && g.rest == xs
  {
    var s := ScanFrom(r, xs, 0, threshold);
    if s.absorbed == [] then Scan(r, xs, [])
    else
      var g := Grow(s.r, s.rest, threshold);
      Scan(g.r, g.rest, s.absorbed + g.absorbed)
  }

  /** One round of the outer loop of `merge_boxes`: the box emitted, the group
      it was grown from (the popped box, then the boxes it absorbed in order),
      and the boxes still waiting after it, in their order. */
  datatype Emission = Emission(grown: BoundingBox, group: seq<BoundingBox>, waiting: seq<BoundingBox>)

  /** The rounds of the outer loop of `merge_boxes`: pop the first box, sort
      the others by distance to it, grow it, emit it and go on with the boxes
      left. */
  function Emissions(boxes: seq<BoundingBox>, threshold: real): (es: seq<Emission>)
    decreases |boxes|
    ensures |es| <= |boxes|
    ensures boxes == [] <==> es == []
  {
    if boxes == [] then []
    else
      var g := Grow(boxes[0], SortByDistance(boxes[1..], boxes[0]), threshold);
      [Emission(g.r, [boxes[0]] + g.absorbed, g.rest)] + Emissions(g.rest, threshold)
  }

  function Outputs(es: seq<Emission>): seq<BoundingBox> {
    seq(|es|, k requires 0 <= k < |es| => es[k].grown)
  }

  function Groups(es: seq<Emission>): seq<seq<BoundingBox>> {
    seq(|es|, k requires 0 <= k < |es| => es[k].group)
  }

  function Waits(es: seq<Emission>): seq<seq<BoundingBox>> {
    seq(|es|, k requires 0 <= k < |es| => es[k].waiting)
  }

  /** The projections of a round put in front. */
  lemma ProjectionsCons(e: Emission, es: seq<Emission>)
    ensures Outputs([e] + es) == [e.grown] + Outputs(es)
    ensures Groups([e] + es) == [e.group] + Groups(es)
  {
  }

  /** Dropping rounds drops their groups. */
  lemma GroupsDrop(es: seq<Emission>, k: nat)
    requires k <= |es|
    ensures Groups(es)[k..] == Groups(es[k..])
  {
  }

  /** The projections of a round added at the end. */
  lemma ProjectionsSnoc(es: seq<Emission>, e: Emission, rest: seq<Emission>)
    ensures es + [e] + rest == es + ([e] + rest)
    ensures Outputs(es + [e]) == Outputs(es) + [e.grown]
    ensures Groups(es + [e]) == Groups(es) + [e.group]
    ensures Waits(es + [e]) == Waits(es) + [e.waiting]
  {
  }

  /** What `merge_boxes` returns. */
  function MergeAll(boxes: seq<BoundingBox>, threshold: real): seq<BoundingBox> {
    Outputs(Emissions(boxes, threshold))
  }

  /** The first `j` boxes of `xs` neither pass the overlap test against `r`
      nor are too far from it, so a scan from `r` walks past them. */
  predicate PassedOver(r: BoundingBox, xs: seq<BoundingBox>, j: int, threshold: real)
    requires 0 <= j <= |xs|
  {
    forall k :: 0 <= k < j ==> !Absorbs(r, xs[k], threshold) && !TooFar(xs[k], r)
  }

  /** A scan from `r` over `xs` absorbs nothing: it walks past every box up
      to one that fails the overlap test and is too far away, or to the end. */
  predicate Stable(r: BoundingBox, xs: seq<BoundingBox>, threshold: real) {
    exists j :: 0 <= j <= |xs| && PassedOver(r, xs, j, threshold) &&
      (j < |xs| ==> !Absorbs(r, xs[j], threshold) && TooFar(xs[j], r))
  }

  /** `s` is a growth of `r` over `xs`: the boxes absorbed and the boxes left
      are exactly the boxes of `xs`; the grown box is `r` merged with the
      absorbed boxes in order, each of which passed the overlap test against
      the box grown so far; and every box that a box of `xs` enclosed is
      enclosed by the grown box or by a box left. */
  ghost predicate Absorbed(r: BoundingBox, xs: seq<BoundingBox>, s: Scan, threshold: real) {
    && multiset(xs) == multiset(s.rest) + multiset(s.absorbed)
    && s.r == FoldMerge(r, s.absorbed) && AbsorbChain(r, s.absorbed, threshold)
    && Contains(s.r, r)
    && (forall b :: CoveredBy(b, xs) ==> Contains(s.r, b) || CoveredBy(b, s.rest))
  }

  /** Absorbing nothing is a growth. */
  lemma AbsorbedNone(r: BoundingBox, xs: seq<BoundingBox>, threshold: real)
    ensures Absorbed(r, xs, Scan(r, xs, []), threshold)
  {
    var none: seq<BoundingBox> := [];
    assert multiset(none) == multiset{};
  }

  /** Absorbing entry `i` and then growing over what is left is a growth. */
  lemma AbsorbedCons(r: BoundingBox, xs: seq<BoundingBox>, i: nat, s: Scan, threshold: real)
    requires i < |xs| && Absorbs(r, xs[i], threshold)
    requires Absorbed(Merge(r, xs[i]), xs[..i] + xs[i + 1..], s, threshold)
    ensures Absorbed(r, xs, Scan(s.r, s.rest, [xs[i]] + s.absorbed), threshold)
  {
    var m, ys, a := Merge(r, xs[i]), xs[..i] + xs[i + 1..], [xs[i]] + s.absorbed;
    assert xs == xs[..i] + [xs[i]] + xs[i + 1..];
    assert multiset(xs) == multiset(ys) + multiset{xs[i]};
    assert a[0] == xs[i] && a[1..] == s.absorbed;
    ContainsTransitive(s.r, m, r);
    forall b | CoveredBy(b, xs)
      ensures Contains(s.r, b) || CoveredBy(b, s.rest)
    {
      CoveredAfterPop(b, xs, i, r);
      if Contains(m, b) {
        ContainsTransitive(s.r, m, b);
      }
    }
  }

  /** A growth followed by a growth of its result is a growth. */
  lemma AbsorbedAppend(r: BoundingBox, xs: seq<BoundingBox>, s: Scan, g: Scan, threshold: real)
    requires Absorbed(r, xs, s, threshold) && Absorbed(s.r, s.rest, g, threshold)
    ensures Absorbed(r, xs, Scan(g.r, g.rest, s.absorbed + g.absorbed), threshold)
  {
    FoldMergeAppend(r, s.absorbed, g.absorbed);
    AbsorbChainAppend(r, s.absorbed, g.absorbed, threshold);
    ContainsTransitive(g.r, s.r, r);
    forall b | CoveredBy(b, xs)
      ensures Contains(g.r, b) || CoveredBy(b, g.rest)
    {
      if Contains(s.r, b) {
        ContainsTransitive(g.r, s.r, b);
      }
    }
  }

  /** Growing boxes of positive size gives boxes of positive size. */
  lemma AbsorbedPositive(r: BoundingBox, xs: seq<BoundingBox>, s: Scan, threshold: real)
    requires Absorbed(r, xs, s, threshold) && AllPositive(xs) && r.w > 0.0 && r.h > 0.0
    ensures AllPositive(s.rest) && s.r.w > 0.0 && s.r.h > 0.0
  {
    PositiveWithin(xs, s.rest);
  }

  /** A growth that absorbs anything absorbs, first, a box of the list that
      passes the test against the start box. */
  lemma FirstAbsorbed(r: BoundingBox, xs: seq<BoundingBox>, s: Scan, threshold: real)
    requires Absorbed(r, xs, s, threshold)
    ensures s.absorbed != [] ==> exists k :: 0 <= k < |xs| && Absorbs(r, xs[k], threshold)
  {
    if s.absorbed != [] {
      assert Absorbs(r, s.absorbed[0], threshold);
      assert s.absorbed[0] in multiset(xs);
      var k :| 0 <= k < |xs| && xs[k] == s.absorbed[0];
    }
  }

  /** When no box of the list passes the test against the start box, a growth
      absorbs nothing. */
  lemma NoneAbsorbed(r: BoundingBox, xs: seq<BoundingBox>, s: Scan, threshold: real)
    requires Absorbed(r, xs, s, threshold)
    requires forall k :: 0 <= k < |xs| ==> !Absorbs(r, xs[k], threshold)
    ensures s.absorbed == []
  {
    FirstAbsorbed(r, xs, s, threshold);
  }

  /** The scan is a growth of its start box over the list. */
  lemma {:induction false} ScanFromAbsorbed(r: BoundingBox, xs: seq<BoundingBox>, i: nat, threshold: real)
    ensures Absorbed(r, xs, ScanFrom(r, xs, i, threshold), threshold)
    decreases |xs| - i
  {
    if i >= |xs| || (!Absorbs(r, xs[i], threshold) && TooFar(xs[i], r)) {
      AbsorbedNone(r, xs, threshold);
    } else if Absorbs(r, xs[i], threshold) {
      var ys := xs[..i] + xs[i + 1..];
      ScanFromAbsorbed(Merge(r, xs[i]), ys, i, threshold);
      AbsorbedCons(r, xs, i, ScanFrom(Merge(r, xs[i]), ys, i, threshold), threshold);
    } else {
      ScanFromAbsorbed(r, xs, i + 1, threshold);
    }
  }

  /** A scan that has walked past the first `i` boxes absorbs nothing exactly
      when its start box is stable against the list. */
  lemma {:induction false} ScanFromStable(r: BoundingBox, xs: seq<BoundingBox>, i: nat, threshold: real)
    requires i <= |xs| && PassedOver(r, xs, i, threshold)
    ensures ScanFrom(r, xs, i, threshold).absorbed == [] <==> Stable(r, xs, threshold)
    decreases |xs| - i
  {
    if i < |xs| && !Absorbs(r, xs[i], threshold) && !TooFar(xs[i], r) {
      ScanFromStable(r, xs, i + 1, threshold);
    }
  }

  /** Growing is a growth; it absorbs nothing exactly when the start box is
      stable against the list, and the grown box is stable against the boxes
      left. */
  lemma {:induction false} GrowAbsorbed(r: BoundingBox, xs: seq<BoundingBox>, threshold: real)
    ensures Absorbed(r, xs, Grow(r, xs, threshold), threshold)
    ensures Grow(r, xs, threshold).absorbed == [] <==> Stable(r, xs, threshold)
    ensures Stable(Grow(r, xs, threshold).r, Grow(r, xs, threshold).rest, threshold)
    decreases |xs|
  {
    var s := ScanFrom(r, xs, 0, threshold);
    ScanFromStable(r, xs, 0, threshold);
    if s.absorbed == [] {
      AbsorbedNone(r, xs, threshold);
    } else {
      ScanFromAbsorbed(r, xs, 0, threshold);
      GrowAbsorbed(s.r, s.rest, threshold);
      AbsorbedAppend(r, xs, s, Grow(s.r, s.rest, threshold), threshold);
    }
  }

  /** No box of `xs` passes the overlap test against another entry of `xs`. */
  predicate Separate(xs: seq<BoundingBox>, threshold: real) {
    forall i, j :: 0 <= i < |xs| && 0 <= j < |xs| && i != j ==> !Absorbs(xs[i], xs[j], threshold)
  }

  /** A value occurring at two positions is counted at least twice. */
  lemma TwiceCounted(ys: seq<BoundingBox>, i: nat, j: nat)
    requires i < j < |ys| && ys[i] == ys[j]
    ensures multiset(ys)[ys[i]] >= 2
  {
    assert ys == ys[..i] + [ys[i]] + ys[i + 1..j] + [ys[j]] + ys[j + 1..];
  }

  /** A value counted at least twice occurs at two positions. */
  lemma {:induction false} TwoPositions(xs: seq<BoundingBox>, v: BoundingBox)
    requires multiset(xs)[v] >= 2
    ensures exists p, q :: 0 <= p < q < |xs| && xs[p] == v && xs[q] == v
  {
    assert xs == [xs[0]] + xs[1..];
    if xs[0] == v {
      assert v in multiset(xs[1..]);
      var q :| 0 <= q < |xs[1..]| && xs[1..][q] == v;
      assert xs[q + 1] == v;
    } else {
      TwoPositions(xs[1..], v);
      var p, q :| 0 <= p < q < |xs[1..]| && xs[1..][p] == v && xs[1..][q] == v;
      assert xs[p + 1] == v && xs[q + 1] == v;
    }
  }

  /** Rearranging boxes keeps them separate. */
  lemma SeparatePermuted(xs: seq<BoundingBox>, ys: seq<BoundingBox>, threshold: real)
    requires multiset(xs) == multiset(ys) && Separate(xs, threshold)
    ensures Separate(ys, threshold)
  {
    forall i, j | 0 <= i < |ys| && 0 <= j < |ys| && i != j
      ensures !Absorbs(ys[i], ys[j], threshold)
    {
      assert ys[i] in multiset(xs) && ys[j] in multiset(xs);
      if ys[i] != ys[j] {
        var p :| 0 <= p < |xs| && xs[p] == ys[i];
        var q :| 0 <= q < |xs| && xs[q] == ys[j];
      } else {
        if i < j {
          TwiceCounted(ys, i, j);
        } else {
          TwiceCounted(ys, j, i);
        }
        TwoPositions(xs, ys[i]);
      }
    }
  }

  /** Among separate boxes the first one passes the test against none of
      the others, in whatever order they are put. */
  lemma SeparateSeed(xs: seq<BoundingBox>, sorted: seq<BoundingBox>, threshold: real)
    requires xs != [] && Separate(xs, threshold) && multiset(sorted) == multiset(xs[1..])
    ensures Separate(sorted, threshold)
    ensures forall k :: 0 <= k < |sorted| ==> !Absorbs(xs[0], sorted[k], threshold)
  {
    assert Separate(xs[1..], threshold) by {
      forall i, j | 0 <= i < |xs[1..]| && 0 <= j < |xs[1..]| && i != j
        ensures !Absorbs(xs[1..][i], xs[1..][j], threshold)
      {
        assert xs[1..][i] == xs[i + 1] && xs[1..][j] == xs[j + 1];
      }
    }
    SeparatePermuted(xs[1..], sorted, threshold);
    forall k | 0 <= k < |sorted|
      ensures !Absorbs(xs[0], sorted[k], threshold)
    {
      assert sorted[k] in multiset(xs[1..]);
      var j :| 0 <= j < |xs[1..]| && xs[1..][j] == sorted[k];
      assert xs[j + 1] == sorted[k];
    }
  }


  /** All the boxes of a list of groups, counted with multiplicity. */
  function Pooled(groups: seq<seq<BoundingBox>>): multiset<BoundingBox> {
    if groups == [] then multiset{} else multiset(groups[0]) + Pooled(groups[1..])
  }

  /** Output box `k` is its group's first box grown by the rest of the group,
      each passing the absorption test in turn. */
  predicate GroupsBuild(filtered: seq<BoundingBox>, groups: seq<seq<BoundingBox>>, threshold: real) {
    |groups| == |filtered| &&
    forall k :: 0 <= k < |groups| ==>
      groups[k] != [] && filtered[k] == FoldMerge(groups[k][0], groups[k][1..]) &&
      AbsorbChain(groups[k][0], groups[k][1..], threshold)
  }

  /** Growing splits the list into the boxes absorbed and the boxes left. */
  lemma GrowSplits(r: BoundingBox, xs: seq<BoundingBox>, threshold: real)
    ensures multiset(xs) == multiset(Grow(r, xs, threshold).rest) + multiset(Grow(r, xs, threshold).absorbed)
  {
    GrowAbsorbed(r, xs, threshold);
  }

  /** A growth of a box over boxes none of which passes the test against it
      absorbs nothing. */
  lemma GrowNone(r: BoundingBox, xs: seq<BoundingBox>, threshold: real)
    requires forall k :: 0 <= k < |xs| ==> !Absorbs(r, xs[k], threshold)
    ensures Grow(r, xs, threshold).absorbed == []
  {
    GrowAbsorbed(r, xs, threshold);
    NoneAbsorbed(r, xs, Grow(r, xs, threshold), threshold);
  }

  /** The first round emits the group of the first box, and the later rounds
      are the rounds of the boxes left, which hold every input box not in the
      group. */
  lemma EmissionsStep(boxes: seq<BoundingBox>, threshold: real)
    requires boxes != []
    ensures var es := Emissions(boxes, threshold); var e := es[0];
      && es == [e] + Emissions(e.waiting, threshold) && |e.waiting| < |boxes|
      && e.group != [] && e.group[0] == boxes[0]
      && multiset(boxes) == multiset(e.group) + multiset(e.waiting)
  {
    GrowSplits(boxes[0], SortByDistance(boxes[1..], boxes[0]), threshold);
    assert boxes == [boxes[0]] + boxes[1..];
  }

  /** The first round emits the first box grown by the rest of its group,
      each passing the overlap test in turn, and the emitted box is stable
      against the boxes left. */
  lemma EmissionsFirst(boxes: seq<BoundingBox>, threshold: real)
    requires boxes != []
    ensures var e := Emissions(boxes, threshold)[0];
      && e.group != [] && e.grown == FoldMerge(e.group[0], e.group[1..])
      && AbsorbChain(e.group[0], e.group[1..], threshold) && Stable(e.grown, e.waiting, threshold)
  {
    var sorted := SortByDistance(boxes[1..], boxes[0]);
    var g := Grow(boxes[0], sorted, threshold);
    GrowAbsorbed(boxes[0], sorted, threshold);
    assert ([boxes[0]] + g.absorbed)[1..] == g.absorbed;
  }

  /** Among separate boxes the first round absorbs nothing, and the boxes
      left are separate. */
  lemma SeparateStep(boxes: seq<BoundingBox>, threshold: real)
    requires boxes != [] && Separate(boxes, threshold)
    ensures var e := Emissions(boxes, threshold)[0];
      e.group == [boxes[0]] && e.grown == boxes[0] && Separate(e.waiting, threshold)
  {
    var sorted := SortByDistance(boxes[1..], boxes[0]);
    SeparateSeed(boxes, sorted, threshold);
    GrowNone(boxes[0], sorted, threshold);
  }

  /** Round `k` emits its group's first box grown by the rest of the group,
      each passing the overlap test in turn, and the emitted box is stable
      against the boxes still waiting after it. */
  lemma {:induction false} EmissionsGrown(boxes: seq<BoundingBox>, threshold: real, k: nat)
    requires k < |Emissions(boxes, threshold)|
    ensures var e := Emissions(boxes, threshold)[k];
      e.group != [] && e.grown == FoldMerge(e.group[0], e.group[1..]) &&
      AbsorbChain(e.group[0], e.group[1..], threshold) && Stable(e.grown, e.waiting, threshold)
    decreases k
  {
    var es := Emissions(boxes, threshold);
    if k == 0 {
      EmissionsFirst(boxes, threshold);
    } else {
      EmissionsStep(boxes, threshold);
      EmissionsGrown(es[0].waiting, threshold, k - 1);
      assert es[k] == Emissions(es[0].waiting, threshold)[k - 1];
    }
  }

  /** The rounds after round `k` are exactly the rounds of the boxes still
      waiting after it. */
  lemma {:induction false} EmissionsTail(boxes: seq<BoundingBox>, threshold: real, k: nat)
    requires k < |Emissions(boxes, threshold)|
    ensures Emissions(boxes, threshold)[k + 1..] == Emissions(Emissions(boxes, threshold)[k].waiting, threshold)
    decreases k
  {
    var es := Emissions(boxes, threshold);
    EmissionsStep(boxes, threshold);
    if k > 0 {
      EmissionsTail(es[0].waiting, threshold, k - 1);
      assert es[k + 1..] == es[1..][k..];
    }
  }

  /** The groups partition the input: together they hold every box exactly
      as often as the input does. */
  lemma {:induction false} EmissionsPool(boxes: seq<BoundingBox>, threshold: real)
    ensures Pooled(Groups(Emissions(boxes, threshold))) == multiset(boxes)
    decreases |boxes|
  {
    if boxes != [] {
      var es := Emissions(boxes, threshold);
      EmissionsStep(boxes, threshold);
      EmissionsPool(es[0].waiting, threshold);
      ProjectionsCons(es[0], Emissions(es[0].waiting, threshold));
    }
  }

  /** The boxes waiting after round `k` are exactly the boxes of the later
      groups. */
  lemma EmissionsWaiting(boxes: seq<BoundingBox>, threshold: real, k: nat)
    requires k < |Emissions(boxes, threshold)|
    ensures var es := Emissions(boxes, threshold);
      multiset(es[k].waiting) == Pooled(Groups(es)[k + 1..])
  {
    var es := Emissions(boxes, threshold);
    EmissionsTail(boxes, threshold, k);
    EmissionsPool(es[k].waiting, threshold);
    GroupsDrop(es, k + 1);
  }

  /** When no two input boxes pass the overlap test against each other, the
      output is the input rearranged. */
  lemma {:induction false} EmissionsSeparate(boxes: seq<BoundingBox>, threshold: real)
    requires Separate(boxes, threshold)
    ensures multiset(MergeAll(boxes, threshold)) == multiset(boxes)
    decreases |boxes|
  {
    if boxes != [] {
      var es := Emissions(boxes, threshold);
      EmissionsStep(boxes, threshold);
      SeparateStep(boxes, threshold);
      var e := es[0];
      EmissionsSeparate(e.waiting, threshold);
      ProjectionsCons(e, Emissions(e.waiting, threshold));
      var later := MergeAll(e.waiting, threshold);
      calc {
        multiset(MergeAll(boxes, threshold));
        multiset([e.grown] + later);
        multiset([boxes[0]]) + multiset(later);
        multiset(e.group) + multiset(e.waiting);
        multiset(boxes);
      }
    }
  }

  /** Each output box is its group's first box grown by the rest of the
      group, each passing the overlap test in turn, and is stable against the
      boxes still waiting after it, which are the boxes of the later groups. */
  lemma EmissionsBuild(boxes: seq<BoundingBox>, threshold: real)
    ensures var es := Emissions(boxes, threshold);
      && GroupsBuild(Outputs(es), Groups(es), threshold) && |Waits(es)| == |Outputs(es)|
      && forall k :: 0 <= k < |es| ==>
           Stable(Outputs(es)[k], Waits(es)[k], threshold) && multiset(Waits(es)[k]) == Pooled(Groups(es)[k + 1..])
  {
    var es := Emissions(boxes, threshold);
    forall k | 0 <= k < |es|
      ensures var e := es[k];
        e.group != [] && e.grown == FoldMerge(e.group[0], e.group[1..]) &&
        AbsorbChain(e.group[0], e.group[1..], threshold) && Stable(e.grown, e.waiting, threshold) &&
        multiset(e.waiting) == Pooled(Groups(es)[k + 1..])
    {
      EmissionsGrown(boxes, threshold, k);
      EmissionsWaiting(boxes, threshold, k);
    }
  }

  /** A box enclosed by an entry of a list is enclosed by an entry of any
      rearrangement of it. */
  lemma CoveredPermuted(b: BoundingBox, xs: seq<BoundingBox>, ys: seq<BoundingBox>)
    requires multiset(xs) == multiset(ys) && CoveredBy(b, xs)
    ensures CoveredBy(b, ys)
  {
    var j :| 0 <= j < |xs| && Contains(xs[j], b);
    assert xs[j] in multiset(ys);
    var p :| 0 <= p < |ys| && ys[p] == xs[j];
  }

  /** The first round keeps sizes positive, and every box enclosed by an
      input box is enclosed by the emitted box or by a box left. */
  lemma EmissionsFirstCover(boxes: seq<BoundingBox>, threshold: real)
    requires boxes != [] && AllPositive(boxes)
    ensures var e := Emissions(boxes, threshold)[0];
      && e.grown.w > 0.0 && e.grown.h > 0.0 && AllPositive(e.waiting)
      && forall b :: CoveredBy(b, boxes) ==> Contains(e.grown, b) || CoveredBy(b, e.waiting)
  {
    var r := boxes[0];
    var sorted := SortByDistance(boxes[1..], r);
    var g := Grow(r, sorted, threshold);
    PositiveWithin(boxes[1..], sorted);
    GrowAbsorbed(r, sorted, threshold);
    AbsorbedPositive(r, sorted, g, threshold);
    forall b | CoveredBy(b, boxes)
      ensures Contains(g.r, b) || CoveredBy(b, g.rest)
    {
      var j :| 0 <= j < |boxes| && Contains(boxes[j], b);
      if j == 0 {
        ContainsTransitive(g.r, r, b);
      } else {
        assert boxes[j] == boxes[1..][j - 1];
        CoveredPermuted(b, boxes[1..], sorted);
      }
    }
  }

  /** Every output box has positive size, and every box enclosed by an input
      box is enclosed by an output box. */
  lemma {:induction false} EmissionsCover(boxes: seq<BoundingBox>, threshold: real)
    requires AllPositive(boxes)
    ensures AllPositive(MergeAll(boxes, threshold))
    ensures forall b :: CoveredBy(b, boxes) ==> CoveredBy(b, MergeAll(boxes, threshold))
    decreases |boxes|
  {
    if boxes != [] {
      var es := Emissions(boxes, threshold);
      EmissionsStep(boxes, threshold);
      EmissionsFirstCover(boxes, threshold);
      var e := es[0];
      EmissionsCover(e.waiting, threshold);
      ProjectionsCons(e, Emissions(e.waiting, threshold));
      var later := MergeAll(e.waiting, threshold);
      assert MergeAll(boxes, threshold) == [e.grown] + later;
      forall b | CoveredBy(b, boxes)
        ensures CoveredBy(b, [e.grown] + later)
      {
        CoveredByCons(b, e.grown, later);
      }
    }
  }

  /** Every input box is enclosed by an output box, and every output box has
      positive size. */
  lemma MergeAllCovers(boxes: seq<BoundingBox>, threshold: real)
    requires AllPositive(boxes)
    ensures AllPositive(MergeAll(boxes, threshold))
    ensures forall k :: 0 <= k < |boxes| ==> CoveredBy(boxes[k], MergeAll(boxes, threshold))
  {
    EmissionsCover(boxes, threshold);
    forall k | 0 <= k < |boxes|
      ensures CoveredBy(boxes[k], boxes)
    {
      assert Contains(boxes[k], boxes[k]);
    }
  }

  /** What `merge_boxes` promises of its result, gathered: the groups
      partition the input, each output is grown from its group and stable
      against the boxes waiting after it, separate inputs come out
      rearranged, and every input box is enclosed by an output box. */
  lemma MergeAllSpec(boxes: seq<BoundingBox>, threshold: real, filtered: seq<BoundingBox>,
                     groups: seq<seq<BoundingBox>>, waiting: seq<seq<BoundingBox>>)
    requires AllPositive(boxes) && filtered == MergeAll(boxes, threshold)
    requires groups == Groups(Emissions(boxes, threshold)) && waiting == Waits(Emissions(boxes, threshold))
    ensures GroupsBuild(filtered, groups, threshold)
    ensures Pooled(groups) == multiset(boxes)
    ensures |waiting| == |filtered|
    ensures forall k :: 0 <= k < |filtered| ==>
              Stable(filtered[k], waiting[k], threshold) && multiset(waiting[k]) == Pooled(groups[k + 1..])
    ensures Separate(boxes, threshold) ==> multiset(filtered) == multiset(boxes)
    ensures |filtered| <= |boxes|
    ensures boxes == [] <==> filtered == []
    ensures AllPositive(filtered)
    ensures forall k :: 0 <= k < |boxes| ==> CoveredBy(boxes[k], filtered)
  {
    MergeAllCovers(boxes, threshold);
    EmissionsBuild(boxes, threshold);
    EmissionsPool(boxes, threshold);
    if Separate(boxes, threshold) {
      EmissionsSeparate(boxes, threshold);
    }
  }

  /** A box of positive size has positive area, so `overlap` does not divide by zero. */
  lemma PositiveArea(b: BoundingBox)
    requires b.w > 0.0 && b.h > 0.0
    ensures b.Area() > 0.0
  {
  }

  /** One iteration of the scan, at entry `i`: the box is absorbed (merged
      into `r` and popped) when it passes the overlap test; otherwise the
      scan stops when it is too far. */
  method ScanAt(threshold: real, r: BoundingBox, remaining: seq<BoundingBox>, i: nat)
    returns (r': BoundingBox, remaining': seq<BoundingBox>, took: bool, stop: bool)
    requires i < |remaining| && AllPositive(remaining) && r.w > 0.0 && r.h > 0.0
    ensures took <==> Absorbs(r, remaining[i], threshold)
    ensures took ==> r' == Merge(r, remaining[i]) && remaining' == remaining[..i] + remaining[i + 1..] && !stop
    ensures !took ==> r' == r && remaining' == remaining && (stop <==> TooFar(remaining[i], r))
    ensures AllPositive(remaining') && r'.w > 0.0 && r'.h > 0.0
  {
    var b := remaining[i];
    PositiveArea(r);
    PositiveArea(b);
    if Overlap(r, b) > threshold || Overlap(b, r) > threshold {
      MergePositive(r, b);
      r', remaining' := Merge(r, b), remaining[..i] + remaining[i + 1..];  // r = r.merge(boxes.pop(i))
      assert forall k :: 0 <= k < |remaining'| ==> remaining'[k] == (if k < i then remaining[k] else remaining[k + 1]);
      took, stop := true, false;
    } else {
      r', remaining' := r, remaining;
      took, stop := false, TooFar(b, r);
    }
  }

  /** A scan paused at entry `i` of `xs`, with grown box `r` and the boxes
      `absorbed` so far, finishes as `pass`. */
  ghost predicate Resumes(pass: Scan, r: BoundingBox, xs: seq<BoundingBox>, i: nat,
                          absorbed: seq<BoundingBox>, threshold: real)
  {
    var s := ScanFrom(r, xs, i, threshold);
    pass == Scan(s.r, s.rest, absorbed + s.absorbed)
  }

  /** One pass of the inner `for` loop of `merge_boxes` over the list,
      starting with `i = 0`. */
  method MergePass(r0: BoundingBox, remaining0: seq<BoundingBox>, threshold: real)
    returns (r: BoundingBox, remaining: seq<BoundingBox>, merged: bool, ghost absorbed: seq<BoundingBox>)
    requires AllPositive(remaining0) && r0.w > 0.0 && r0.h > 0.0
    ensures ScanFrom(r0, remaining0, 0, threshold) == Scan(r, remaining, absorbed)
    ensures merged <==> absorbed != []
    ensures multiset(remaining0) == multiset(remaining) + multiset(absorbed)
    ensures r == FoldMerge(r0, absorbed) && AbsorbChain(r0, absorbed, threshold)
    ensures AllPositive(remaining) && r.w > 0.0 && r.h > 0.0
    ensures |remaining| <= |remaining0|
    ensures merged <==> |remaining| < |remaining0|
    ensures !merged ==> r == r0 && remaining == remaining0
    ensures !merged <==> Stable(r0, remaining0, threshold)
    ensures merged ==> exists k :: 0 <= k < |remaining0| && Absorbs(r0, remaining0[k], threshold)
    ensures Contains(r, r0)
    ensures forall b :: CoveredBy(b, remaining0) ==> Contains(r, b) || CoveredBy(b, remaining)
  {
    ghost var pass := ScanFrom(r0, remaining0, 0, threshold);
    r, remaining, merged, absorbed := r0, remaining0, false, [];
    assert absorbed + pass.absorbed == pass.absorbed;
    var i := 0;
    var n := |remaining|;
    for iteration := 0 to n
      invariant i + (n - |remaining|) == iteration
      invariant AllPositive(remaining) && r.w > 0.0 && r.h > 0.0
      invariant Resumes(pass, r, remaining, i, absorbed, threshold)
      invariant merged <==> absorbed != []
    {
      ghost var b := remaining[i];
      var took, stop;
      r, remaining, took, stop := ScanAt(threshold, r, remaining, i);
      if took {
        ghost var s := ScanFrom(r, remaining, i, threshold);
        assert absorbed + [b] + s.absorbed == absorbed + ([b] + s.absorbed);
        absorbed := absorbed + [b];
        merged := true;
      } else if stop {
        assert ScanFrom(r, remaining, i, threshold) == Scan(r, remaining, []);
        break;
      } else {
        i := i + 1;
      }
    }
    assert ScanFrom(r, remaining, i, threshold) == Scan(r, remaining, []);
    assert absorbed + [] == absorbed;
    ScanFromAbsorbed(r0, remaining0, 0, threshold);
    ScanFromStable(r0, remaining0, 0, threshold);
    if forall k :: 0 <= k < |remaining0| ==> !Absorbs(r0, remaining0[k], threshold) {
      NoneAbsorbed(r0, remaining0, pass, threshold);
    }
  }

  /** The passes so far, from the start box, with grown box `r` over `xs`
      after absorbing `absorbed`, finish growing as `grown`. */
  ghost predicate Continues(grown: Scan, r: BoundingBox, xs: seq<BoundingBox>, absorbed: seq<BoundingBox>,
                            threshold: real)
  {
    var g := Grow(r, xs, threshold);
    grown == Scan(g.r, g.rest, absorbed + g.absorbed)
  }

  /** The `while merged` loop of `merge_boxes`: merge passes over the sorted
      list until a pass absorbs nothing. */
  method MergeUntilStable(r0: BoundingBox, remaining0: seq<BoundingBox>, threshold: real)
    returns (r: BoundingBox, remaining: seq<BoundingBox>, ghost absorbed: seq<BoundingBox>)
    requires AllPositive(remaining0) && r0.w > 0.0 && r0.h > 0.0
    ensures Grow(r0, remaining0, threshold) == Scan(r, remaining, absorbed)
    ensures multiset(remaining0) == multiset(remaining) + multiset(absorbed)
    ensures r == FoldMerge(r0, absorbed) && AbsorbChain(r0, absorbed, threshold)
    ensures (forall k :: 0 <= k < |remaining0| ==> !Absorbs(r0, remaining0[k], threshold)) ==>
              absorbed == [] && r == r0 && remaining == remaining0
    ensures absorbed == [] <==> Stable(r0, remaining0, threshold)
    ensures Stable(r, remaining, threshold)
    ensures AllPositive(remaining) && r.w > 0.0 && r.h > 0.0
    ensures |remaining| <= |remaining0|
    ensures Contains(r, r0)
    ensures forall b :: CoveredBy(b, remaining0) ==> Contains(r, b) || CoveredBy(b, remaining)
  {
    ghost var grown := Grow(r0, remaining0, threshold);
    r, remaining, absorbed := r0, remaining0, [];
    assert absorbed + grown.absorbed == grown.absorbed;
    var merged := true;
    while merged
      invariant AllPositive(remaining) && r.w > 0.0 && r.h > 0.0
      invariant merged ==> Continues(grown, r, remaining, absorbed, threshold)
      invariant !merged ==> grown == Scan(r, remaining, absorbed)
      decreases |remaining| + (if merged then 1 else 0)
    {
      ghost var pass;
      r, remaining, merged, pass := MergePass(r, remaining, threshold);
      if merged {
        ghost var g := Grow(r, remaining, threshold);
        assert absorbed + (pass + g.absorbed) == absorbed + pass + g.absorbed;
      } else {
        assert absorbed + pass == absorbed;
      }
      absorbed := absorbed + pass;
    }
    GrowAbsorbed(r0, remaining0, threshold);
    if forall k :: 0 <= k < |remaining0| ==> !Absorbs(r0, remaining0[k], threshold) {
      NoneAbsorbed(r0, remaining0, grown, threshold);
    }
  }

  /** One round of the outer loop of `merge_boxes`: pops the first waiting
      box, sorts the rest by distance to it and grows it; the grown box is
      the next output. */
  method EmitNext(remaining: seq<BoundingBox>, threshold: real)
    returns (grown: BoundingBox, remaining': seq<BoundingBox>, ghost group: seq<BoundingBox>)
    requires remaining != [] && AllPositive(remaining)
    ensures Emissions(remaining, threshold) == [Emission(grown, group, remaining')] + Emissions(remaining', threshold)
    ensures group != [] && group[0] == remaining[0]
    ensures multiset(remaining) == multiset(group) + multiset(remaining')
    ensures grown == FoldMerge(group[0], group[1..]) && AbsorbChain(group[0], group[1..], threshold)
    ensures Stable(grown, remaining', threshold)
    ensures AllPositive(remaining') && grown.w > 0.0 && grown.h > 0.0
    ensures |remaining'| < |remaining|
  {
    var r := remaining[0];
    var sorted := SortByDistance(remaining[1..], r);  // boxes.pop(0), then boxes.sort(...)
    PositiveWithin(remaining[1..], sorted);
    ghost var absorbed;
    grown, remaining', absorbed := MergeUntilStable(r, sorted, threshold);
    group := [r] + absorbed;
    assert group[0] == r && group[1..] == absorbed;
    assert remaining == [r] + remaining[1..];
  }

  /** `merge_boxes`: repeatedly pops the first remaining box, sorts the rest
      by distance to it, grows it until a pass absorbs nothing, and emits it.
      The list passed in is consumed; `remaining` is what is left of it.
      `groups[k]` is the group output `k` was grown from and `waiting[k]` the
      boxes still waiting after it. */
  method MergeBoxes(boxes: seq<BoundingBox>, threshold: real)
    returns (filtered: seq<BoundingBox>, remaining: seq<BoundingBox>, ghost groups: seq<seq<BoundingBox>>,
             ghost waiting: seq<seq<BoundingBox>>)
    requires AllPositive(boxes)
    ensures filtered == MergeAll(boxes, threshold)
    ensures groups == Groups(Emissions(boxes, threshold)) && waiting == Waits(Emissions(boxes, threshold))
    ensures GroupsBuild(filtered, groups, threshold)
    ensures Pooled(groups) == multiset(boxes)
    ensures |waiting| == |filtered|
    ensures forall k :: 0 <= k < |filtered| ==>
              Stable(filtered[k], waiting[k], threshold) && multiset(waiting[k]) == Pooled(groups[k + 1..])
    ensures Separate(boxes, threshold) ==> multiset(filtered) == multiset(boxes)
    ensures remaining == []
    ensures |filtered| <= |boxes|
    ensures boxes == [] <==> filtered == []
    ensures AllPositive(filtered)
    ensures forall k :: 0 <= k < |boxes| ==> CoveredBy(boxes[k], filtered)
  {
    filtered, remaining, groups, waiting := [], boxes, [], [];
    ghost var emitted: seq<Emission> := [];
    while |remaining| > 0
      invariant AllPositive(remaining)
      invariant emitted + Emissions(remaining, threshold) == Emissions(boxes, threshold)
      invariant filtered == Outputs(emitted) && groups == Groups(emitted) && waiting == Waits(emitted)
      decreases |remaining|
    {
      var grown;
      ghost var group;
      grown, remaining, group := EmitNext(remaining, threshold);
      ghost var e := Emission(grown, group, remaining);
      ProjectionsSnoc(emitted, e, Emissions(remaining, threshold));
      emitted := emitted + [e];
      filtered := filtered + [grown];  // filtered_boxes.append(r)
      groups := groups + [group];
      waiting := waiting + [remaining];
    }
    assert emitted == Emissions(boxes, threshold);
    MergeAllSpec(boxes, threshold, filtered, groups, waiting);
  }
}
