/** Column run-length encoding of a binary score image and the reference
    lengths derived from it (`get_ref_lengths`, which processing/src/deskewing.py
    and src/deskewing.py implement identically): the most frequent white run is
    the staff-line spacing, the most frequent black run the staff-line width. */
module RunLengths {
  import opened Wrappers

  /** A binary image as a list of rows; pixel value 0 is black, any other value white. */
  type Image = seq<seq<int>>

  function Width(img: Image): nat {
    if |img| == 0 then 0 else |img[0]|
  }

  /** Every row has the same length, as in a two-dimensional array. */
  predicate Rectangular(img: Image) {
    forall r :: 0 <= r < |img| ==> |img[r]| == Width(img)
  }

  /** Column `c` of the image, top to bottom (`img[:, c]`). */
  function Column(img: Image, c: nat): (col: seq<int>)
    requires Rectangular(img) && c < Width(img)
    ensures |col| == |img|
  {
    seq(|img|, r requires 0 <= r < |img| => img[r][c])
  }

  /** A maximal block of equal consecutive pixels. */
  datatype Run = Run(value: int, length: nat)

  function Sum(s: seq<nat>): nat {
    if s == [] then 0 else Sum(s[..|s| - 1]) + s[|s| - 1]
  }

  /** Appends one pixel to a run list: it extends the last run when it has the
      same value, and starts a new run of length 1 otherwise. */
  function Push(runs: seq<Run>, x: int): seq<Run> {
    if runs != [] && runs[|runs| - 1].value == x then
      runs[..|runs| - 1] + [Run(x, runs[|runs| - 1].length + 1)]
    else
      runs + [Run(x, 1)]
  }

  /** The maximal runs of a column, in order. */
  function Runs(col: seq<int>): seq<Run> {
    if col == [] then [] else Push(Runs(col[..|col| - 1]), col[|col| - 1])
  }

  /** Every run is non-empty and neighbouring runs have different values. */
  predicate Maximal(runs: seq<Run>) {
    && (forall k :: 0 <= k < |runs| ==> runs[k].length >= 1)
    && (forall k :: 0 < k < |runs| ==> runs[k - 1].value != runs[k].value)
  }

  function Lengths(runs: seq<Run>): (r: seq<nat>)
    ensures |r| == |runs|
    ensures forall k :: 0 <= k < |runs| ==> r[k] == runs[k].length
  {
    if runs == [] then [] else Lengths(runs[..|runs| - 1]) + [runs[|runs| - 1].length]
  }

  /** Lengths of the runs of value 0, in order. */
  function BlackLengths(runs: seq<Run>): seq<nat> {
    if runs == [] then []
    else
      var last := runs[|runs| - 1];
      BlackLengths(runs[..|runs| - 1]) + (if last.value == 0 then [last.length] else [])
  }

  /** Lengths of the runs of any non-zero value, in order. */
  function WhiteLengths(runs: seq<Run>): seq<nat> {
    if runs == [] then []
    else
      var last := runs[|runs| - 1];
      WhiteLengths(runs[..|runs| - 1]) + (if last.value != 0 then [last.length] else [])
  }

  /** Pixels a list of runs stands for. */
  function Expand(runs: seq<Run>): seq<int> {
    if runs == [] then []
    else
      var last := runs[|runs| - 1];
      Expand(runs[..|runs| - 1]) + seq(last.length, _ => last.value)
  }

  /** Number of positions where a column's value differs from the one above it. */
  function Changes(col: seq<int>): nat {
    if |col| <= 1 then 0
    else Changes(col[..|col| - 1]) + (if col[|col| - 1] != col[|col| - 2] then 1 else 0)
  }

  /** `[sum(rle[i:i+2]) for i in range(len(rle))]`: each run plus the next one,
      the last run alone. */
  function PairSums(rle: seq<nat>): (sums: seq<nat>)
    ensures |sums| == |rle|
  {
    seq(|rle|, i requires 0 <= i < |rle| => if i + 1 < |rle| then rle[i] + rle[i + 1] else rle[i])
  }

  lemma {:induction false} SumAppend(a: seq<nat>, b: seq<nat>)
    ensures Sum(a + b) == Sum(a) + Sum(b)
    decreases |b|
  {
    if b == [] {
      assert a + b == a;
    } else {
      var ab := a + b;
      assert ab[..|ab| - 1] == a + b[..|b| - 1];
      assert ab[|ab| - 1] == b[|b| - 1];
      SumAppend(a, b[..|b| - 1]);
    }
  }

  lemma PushMaximal(runs: seq<Run>, x: int)
    requires Maximal(runs)
    ensures Maximal(Push(runs, x))
    ensures Push(runs, x)[|Push(runs, x)| - 1].value == x
  {
  }

  lemma PushSum(runs: seq<Run>, x: int)
    ensures Sum(Lengths(Push(runs, x))) == Sum(Lengths(runs)) + 1
  {
    var p := Push(runs, x);
    if runs != [] && runs[|runs| - 1].value == x {
      var init := runs[..|runs| - 1];
      var last := runs[|runs| - 1];
      assert runs == init + [last];
      assert p[..|init|] == init;
      assert Lengths(runs)[..|init|] == Lengths(init);
      assert Lengths(p)[..|init|] == Lengths(init);
    } else {
      assert p[..|runs|] == runs;
      assert Lengths(p)[..|runs|] == Lengths(runs);
    }
  }

  lemma PushExpand(runs: seq<Run>, x: int)
    ensures Expand(Push(runs, x)) == Expand(runs) + [x]
  {
    var p := Push(runs, x);
    if runs != [] && runs[|runs| - 1].value == x {
      var init := runs[..|runs| - 1];
      var last := runs[|runs| - 1];
      assert p[..|init|] == init;
      assert seq(last.length + 1, _ => x) == seq(last.length, _ => x) + [x];
    } else {
      assert p[..|runs|] == runs;
    }
  }

  lemma PushBlack(runs: seq<Run>, x: int)
    requires x != 0
    ensures BlackLengths(Push(runs, x)) == BlackLengths(runs)
  {
    var p := Push(runs, x);
    if runs != [] && runs[|runs| - 1].value == x {
      var init := runs[..|runs| - 1];
      assert p[..|init|] == init;
    } else {
      assert p[..|runs|] == runs;
    }
  }

  /** The runs of a column are maximal, end with the column's last value and
      their lengths add up to the column height. */
  lemma {:induction false} RunsFacts(col: seq<int>)
    ensures Maximal(Runs(col))
    ensures col == [] <==> Runs(col) == []
    ensures col != [] ==> Runs(col)[|Runs(col)| - 1].value == col[|col| - 1]
    ensures Sum(Lengths(Runs(col))) == |col|
    decreases |col|
  {
    if col != [] {
      RunsFacts(col[..|col| - 1]);
      PushMaximal(Runs(col[..|col| - 1]), col[|col| - 1]);
      PushSum(Runs(col[..|col| - 1]), col[|col| - 1]);
    }
  }

  /** Decoding the runs gives the column back. */
  lemma {:induction false} ExpandRuns(col: seq<int>)
    ensures Expand(Runs(col)) == col
    decreases |col|
  {
    if col != [] {
      var init := col[..|col| - 1];
      var x := col[|col| - 1];
      var runs := Runs(init);
      assert Runs(col) == Push(runs, x);
      ExpandRuns(init);
      PushExpand(runs, x);
      assert col == init + [x];
    }
  }

  /** A column has one run more than it has value changes. */
  lemma {:induction false} RunCount(col: seq<int>)
    requires col != []
    ensures |Runs(col)| == 1 + Changes(col)
    decreases |col|
  {
    if |col| > 1 {
      var init := col[..|col| - 1];
      var x := col[|col| - 1];
      var runs := Runs(init);
      assert Runs(col) == Push(runs, x);
      RunCount(init);
      RunsLast(init);
      PushLength(runs, x);
      assert init[|init| - 1] == col[|col| - 2];
    }
  }

  /** The last run of a non-empty column has the column's last value. */
  lemma RunsLast(col: seq<int>)
    requires col != []
    ensures Runs(col) != [] && Runs(col)[|Runs(col)| - 1].value == col[|col| - 1]
  {
  }

  /** A pixel equal to the last run extends it; any other starts a run. */
  lemma PushLength(runs: seq<Run>, x: int)
    ensures |Push(runs, x)| == |runs| + (if runs != [] && runs[|runs| - 1].value == x then 0 else 1)
  {
  }

  /** A run is recorded as black exactly when its value is 0: the black and the
      white lengths together account for every run. */
  lemma {:induction false} BlackWhiteSplit(runs: seq<Run>)
    ensures |BlackLengths(runs)| + |WhiteLengths(runs)| == |runs|
    ensures Sum(BlackLengths(runs)) + Sum(WhiteLengths(runs)) == Sum(Lengths(runs))
  {
    if runs != [] {
      var init := runs[..|runs| - 1];
      var last := runs[|runs| - 1];
      BlackWhiteSplit(init);
      SumAppend(BlackLengths(init), if last.value == 0 then [last.length] else []);
      SumAppend(WhiteLengths(init), if last.value != 0 then [last.length] else []);
      SumAppend(Lengths(init), [last.length]);
    }
  }

  /** A column without a black pixel contributes no black run. */
  lemma {:induction false} NoBlackPixelNoBlackRun(col: seq<int>)
    requires forall i :: 0 <= i < |col| ==> col[i] != 0
    ensures BlackLengths(Runs(col)) == []
    decreases |col|
  {
    if col != [] {
      var init := col[..|col| - 1];
      NoBlackPixelNoBlackRun(init);
      PushBlack(Runs(init), col[|col| - 1]);
    }
  }

  /** A non-empty column always contributes a white run or a black run. */
  lemma {:induction false} SomeRun(col: seq<int>)
    requires col != []
    ensures col[|col| - 1] == 0 ==> BlackLengths(Runs(col)) != []
    ensures col[|col| - 1] != 0 ==> WhiteLengths(Runs(col)) != []
  {
    var runs := Runs(col);
    assert runs == runs[..|runs| - 1] + [runs[|runs| - 1]];
  }

  /** The last pair sum is the last run alone. */
  lemma PairSumsLast(rle: seq<nat>)
    requires rle != []
    ensures PairSums(rle)[|rle| - 1] == rle[|rle| - 1]
    ensures forall i :: 0 <= i < |rle| - 1 ==> PairSums(rle)[i] == rle[i] + rle[i + 1]
  {
  }

  /** How often `v` occurs in `xs`. */
  function Count(xs: seq<nat>, v: nat): nat {
    multiset(xs)[v]
  }

  /** `v` occurs in `xs` and no value occurs more often. */
  predicate IsMostCommon(xs: seq<nat>, v: nat) {
    v in xs && forall i :: 0 <= i < |xs| ==> Count(xs, xs[i]) <= Count(xs, v)
  }

  /** Scan behind `MostCommon`: `b` is the first index, among the first `i`,
      whose value has the highest count; a later value replaces it only when
      its count is strictly higher. */
  function BestIndex(xs: seq<nat>, i: nat, b: nat): (r: nat)
    requires b < i <= |xs|
    requires forall k :: 0 <= k < i ==> Count(xs, xs[k]) <= Count(xs, xs[b])
    requires forall k :: 0 <= k < b ==> Count(xs, xs[k]) < Count(xs, xs[b])
    ensures r < |xs|
    ensures forall k :: 0 <= k < |xs| ==> Count(xs, xs[k]) <= Count(xs, xs[r])
    ensures forall k :: 0 <= k < r ==> Count(xs, xs[k]) < Count(xs, xs[r])
    decreases |xs| - i
  {
    if i == |xs| then b
    else if Count(xs, xs[i]) > Count(xs, xs[b]) then BestIndex(xs, i + 1, i)
    else BestIndex(xs, i + 1, b)
  }

  /** `Counter(xs).most_common(1)[0][0]`: a value of highest count; among
      values of equal count the one that occurs first wins, because a Counter
      keeps first-insertion order and the selection keeps the first maximum. */
  function MostCommon(xs: seq<nat>): (v: nat)
    requires xs != []
    ensures IsMostCommon(xs, v)
    ensures exists r :: 0 <= r < |xs| && xs[r] == v &&
                        forall k :: 0 <= k < r ==> Count(xs, xs[k]) < Count(xs, v)
  {
    var r := BestIndex(xs, 1, 0);
    xs[r]
  }

  /** The runs of every column of the image, left to right. */
  function ColumnRuns(img: Image): (cols: seq<seq<Run>>)
    requires Rectangular(img)
    ensures |cols| == Width(img)
    ensures forall c :: 0 <= c < Width(img) ==> cols[c] == Runs(Column(img, c))
  {
    seq(Width(img), c requires 0 <= c < Width(img) => Runs(Column(img, c)))
  }

  /** White run lengths of a list of columns' runs, column by column. */
  function WhiteRuns(cols: seq<seq<Run>>): seq<nat> {
    if cols == [] then [] else WhiteRuns(cols[..|cols| - 1]) + WhiteLengths(cols[|cols| - 1])
  }

  /** Black run lengths of a list of columns' runs, column by column. */
  function BlackRuns(cols: seq<seq<Run>>): seq<nat> {
    if cols == [] then [] else BlackRuns(cols[..|cols| - 1]) + BlackLengths(cols[|cols| - 1])
  }

  /** Pair sums of a list of columns' runs, column by column. */
  function AllPairSums(cols: seq<seq<Run>>): seq<nat> {
    if cols == [] then [] else AllPairSums(cols[..|cols| - 1]) + PairSums(Lengths(cols[|cols| - 1]))
  }

  /** Each column appends its own runs to the three accumulations. */
  lemma AccumulateStep(cols: seq<seq<Run>>, i: nat)
    requires i < |cols|
    ensures WhiteRuns(cols[..i + 1]) == WhiteRuns(cols[..i]) + WhiteLengths(cols[i])
    ensures BlackRuns(cols[..i + 1]) == BlackRuns(cols[..i]) + BlackLengths(cols[i])
    ensures AllPairSums(cols[..i + 1]) == AllPairSums(cols[..i]) + PairSums(Lengths(cols[i]))
  {
    assert cols[..i + 1][..i] == cols[..i];
  }

  /** Every column contributes one pair sum per run, black or white. */
  lemma {:induction false} SumsCoverRuns(cols: seq<seq<Run>>)
    ensures |AllPairSums(cols)| == |WhiteRuns(cols)| + |BlackRuns(cols)|
  {
    if cols != [] {
      var last := cols[|cols| - 1];
      SumsCoverRuns(cols[..|cols| - 1]);
      BlackWhiteSplit(last);
      assert |PairSums(Lengths(last))| == |last|;
    }
  }

  /** Why `get_ref_lengths` fails: an empty white-run or black-run counter
      (IndexError on `most_common(1)[0]`), or the consistency assertion. */
  datatype RefLengthError =
    | NoWhiteRun
    | NoBlackRun
    | SumMismatch(spacing: nat, width: nat, modalSum: nat)

  /** Specification of `get_ref_lengths`: `(line_width, line_spacing)`. */
  function RefLengths(img: Image): Result<(nat, nat), RefLengthError>
    requires Rectangular(img)
  {
    var cols := ColumnRuns(img);
    SumsCoverRuns(cols);
    RefFrom(WhiteRuns(cols), BlackRuns(cols), AllPairSums(cols))
  }

  /** The choice `get_ref_lengths` makes from the accumulated white runs,
      black runs and pair sums: a width and a spacing that are each the most
      common of their kind and whose sum is the most common pair sum. */
  function RefFrom(white: seq<nat>, black: seq<nat>, sums: seq<nat>): (r: Result<(nat, nat), RefLengthError>)
    requires |sums| == |white| + |black|
    ensures r == Err(NoWhiteRun) <==> white == []
    ensures r == Err(NoBlackRun) <==> white != [] && black == []
    ensures r.Ok? <==> white != [] && black != [] && MostCommon(white) + MostCommon(black) == MostCommon(sums)
    ensures r.Ok? ==> r.value == (MostCommon(black), MostCommon(white))
    ensures r.Ok? ==> IsMostCommon(black, r.value.0) && IsMostCommon(white, r.value.1) &&
                      IsMostCommon(sums, r.value.0 + r.value.1)
    ensures r.Err? && r.error.SumMismatch? ==>
              white != [] && black != [] &&
              r.error == SumMismatch(MostCommon(white), MostCommon(black), MostCommon(sums)) &&
              r.error.spacing + r.error.width != r.error.modalSum
  {
    if white == [] then Err(NoWhiteRun)
    else if black == [] then Err(NoBlackRun)
    else
      var spacing := MostCommon(white);
      var width := MostCommon(black);
      var modal := MostCommon(sums);
      if spacing + width == modal then Ok((width, spacing)) else Err(SumMismatch(spacing, width, modal))
  }

  /** Columns of `h` pixels each are covered by their white and black runs. */
  lemma {:induction false} RunsCoverColumns(cols: seq<seq<Run>>, h: nat)
    requires forall k :: 0 <= k < |cols| ==> Sum(Lengths(cols[k])) == h
    ensures Sum(WhiteRuns(cols)) + Sum(BlackRuns(cols)) == |cols| * h
  {
    if cols != [] {
      var init := cols[..|cols| - 1];
      var last := cols[|cols| - 1];
      assert forall k :: 0 <= k < |init| ==> init[k] == cols[k];
      RunsCoverColumns(init, h);
      BlackWhiteSplit(last);
      SumAppend(WhiteRuns(init), WhiteLengths(last));
      SumAppend(BlackRuns(init), BlackLengths(last));
      CoverStep(Sum(WhiteRuns(init)), Sum(BlackRuns(init)), Sum(WhiteLengths(last)), Sum(BlackLengths(last)),
                |cols|, h);
    }
  }

  lemma CoverStep(w: nat, b: nat, cw: nat, cb: nat, n: nat, h: nat)
    requires n > 0 && w + b == (n - 1) * h && cw + cb == h
    ensures (w + cw) + (b + cb) == n * h
  {
    assert n * h == (n - 1) * h + h;
  }

  /** The white and black runs of all columns together cover the image:
      their lengths add up to its width times its height. */
  lemma RunsCoverImage(img: Image)
    requires Rectangular(img)
    ensures Sum(WhiteRuns(ColumnRuns(img))) + Sum(BlackRuns(ColumnRuns(img))) == Width(img) * |img|
  {
    var cols := ColumnRuns(img);
    forall k | 0 <= k < |cols|
      ensures Sum(Lengths(cols[k])) == |img|
    {
      RunsFacts(Column(img, k));
    }
    RunsCoverColumns(cols, |img|);
  }

  /** Columns without a black run accumulate no black run. */
  lemma {:induction false} NoBlackRuns(cols: seq<seq<Run>>)
    requires forall k :: 0 <= k < |cols| ==> BlackLengths(cols[k]) == []
    ensures BlackRuns(cols) == []
  {
    if cols != [] {
      var init := cols[..|cols| - 1];
      assert forall k :: 0 <= k < |init| ==> init[k] == cols[k];
      NoBlackRuns(init);
    }
  }

  /** A non-empty image without a black pixel makes `get_ref_lengths` raise:
      the black-run counter is empty. */
  lemma NoBlackPixelFails(img: Image)
    requires Rectangular(img) && |img| > 0 && Width(img) > 0
    requires forall r, c :: 0 <= r < |img| && 0 <= c < Width(img) ==> img[r][c] != 0
    ensures RefLengths(img) == Err(NoBlackRun)
  {
    var cols := ColumnRuns(img);
    var w := Width(img);
    forall k | 0 <= k < w
      ensures BlackLengths(cols[k]) == []
    {
      NoBlackPixelNoBlackRun(Column(img, k));
    }
    NoBlackRuns(cols);
    var col := Column(img, w - 1);
    SomeRun(col);
    assert WhiteRuns(cols) == WhiteRuns(cols[..w - 1]) + WhiteLengths(cols[w - 1]);
  }

  lemma AppendRun(closed: seq<Run>, r: Run)
    ensures Lengths(closed + [r]) == Lengths(closed) + [r.length]
    ensures WhiteLengths(closed + [r]) == WhiteLengths(closed) + (if r.value != 0 then [r.length] else [])
    ensures BlackLengths(closed + [r]) == BlackLengths(closed) + (if r.value == 0 then [r.length] else [])
  {
    assert (closed + [r])[..|closed|] == closed;
  }

  lemma RunsStep(col: seq<int>, j: nat)
    requires j < |col|
    ensures Runs(col[..j + 1]) == Push(Runs(col[..j]), col[j])
  {
    assert col[..j + 1][..j] == col[..j];
  }

  lemma PushOnto(closed: seq<Run>, t: int, n: nat, x: int)
    ensures x == t ==> Push(closed + [Run(t, n)], x) == closed + [Run(t, n + 1)]
    ensures x != t ==> Push(closed + [Run(t, n)], x) == closed + [Run(t, n)] + [Run(x, 1)]
  {
    assert (closed + [Run(t, n)])[..|closed|] == closed;
  }

  /** Run-length encodes one column, as the inner loop of `get_ref_lengths`
      does: `rle` holds every run, `white` and `black` the runs of each kind. */
  method EncodeColumn(col: seq<int>) returns (rle: seq<nat>, white: seq<nat>, black: seq<nat>)
    requires col != []
    ensures rle == Lengths(Runs(col))
    ensures white == WhiteLengths(Runs(col)) && black == BlackLengths(Runs(col))
  {
    rle, white, black := [], [], [];
    var runVal: nat := 0;
    var runType := col[0];
    ghost var closed: seq<Run> := [];
    for j := 0 to |col|
      invariant rle == Lengths(closed)
      invariant white == WhiteLengths(closed) && black == BlackLengths(closed)
      invariant j == 0 ==> runVal == 0 && closed == [] && runType == col[0]
      invariant j > 0 ==> Runs(col[..j]) == closed + [Run(runType, runVal)]
    {
      RunsStep(col, j);
      PushOnto(closed, runType, runVal, col[j]);
      if col[j] == runType {
        runVal := runVal + 1;
      } else {
        rle, white, black := CloseRun(rle, white, black, closed, runType, runVal);
        closed := closed + [Run(runType, runVal)];
        runType := col[j];
        runVal := 1;
      }
    }
    rle, white, black := CloseRun(rle, white, black, closed, runType, runVal);
    assert col[..|col|] == col;
  }

  /** Records a finished run of `runType` pixels of length `runVal`: in
      `rle`, and in `black` when its pixels are 0, in `white` otherwise. */
  method CloseRun(rle: seq<nat>, white: seq<nat>, black: seq<nat>, ghost closed: seq<Run>, runType: int, runVal: nat)
    returns (rle': seq<nat>, white': seq<nat>, black': seq<nat>)
    requires rle == Lengths(closed) && white == WhiteLengths(closed) && black == BlackLengths(closed)
    ensures rle' == Lengths(closed + [Run(runType, runVal)])
    ensures white' == WhiteLengths(closed + [Run(runType, runVal)])
    ensures black' == BlackLengths(closed + [Run(runType, runVal)])
  {
    AppendRun(closed, Run(runType, runVal));
    rle', white', black' := rle + [runVal], white, black;
    if runType == 0 {
      black' := black + [runVal];
    } else {
      white' := white + [runVal];
    }
  }

  /** The column loop of `get_ref_lengths`: the white runs, the black runs
      and the pair sums of every column, column by column. */
  method EncodeColumns(img: Image) returns (allWhite: seq<nat>, allBlack: seq<nat>, allSums: seq<nat>)
    requires Rectangular(img)
    ensures allWhite == WhiteRuns(ColumnRuns(img))
    ensures allBlack == BlackRuns(ColumnRuns(img))
    ensures allSums == AllPairSums(ColumnRuns(img))
  {
    allWhite, allBlack, allSums := [], [], [];
    ghost var cols := ColumnRuns(img);
    var numCols := Width(img);
    for i := 0 to numCols
      invariant allWhite == WhiteRuns(cols[..i])
      invariant allBlack == BlackRuns(cols[..i])
      invariant allSums == AllPairSums(cols[..i])
    {
      var col := Column(img, i);
      if col == [] {
        // A column of an image with at least one column has |img| > 0 pixels.
        assert false;
      }
      var rle, white, black := EncodeColumn(col);
      var sumRle := PairSums(rle);
      AccumulateStep(cols, i);
      allWhite := allWhite + white;
      allBlack := allBlack + black;
      allSums := allSums + sumRle;
    }
    assert cols[..numCols] == cols;
  }

  /** `get_ref_lengths`: run-length encodes every column, accumulates the white
      runs, the black runs and the pair sums of all columns, and returns the
      most common black run (line width) and the most common white run (line
      spacing), failing unless their sum is the most common pair sum. */
  method GetRefLengths(img: Image) returns (r: Result<(nat, nat), RefLengthError>)
    requires Rectangular(img)
    ensures r == RefLengths(img)
  {
    var allWhite, allBlack, allSums := EncodeColumns(img);
    SumsCoverRuns(ColumnRuns(img));
    r := RefFrom(allWhite, allBlack, allSums);
  }
}
