/** A staff (pentagram) found on a score: its five line-row lists, its
    bounding box, its clef and bars, and the mapping from a note-head's
    vertical position to a pitch. */
module Staffs {
  import opened Wrappers
  import opened Boxes
  import opened RunLengths

  /** A pitch: an index into the letters C D E F G A B and an octave. */
  datatype Note = Note(letter: int, octave: int)

  predicate ValidNote(n: Note) {
    0 <= n.letter < 7
  }

  /** Position of a note on the diatonic scale: one step per letter. */
  function Diatonic(n: Note): int {
    7 * n.octave + n.letter
  }

  /** The note at a given diatonic position. */
  function FromDiatonic(d: int): (n: Note)
    ensures ValidNote(n) && Diatonic(n) == d
  {
    Note(d % 7, d / 7)
  }

  /** `Diatonic` and `FromDiatonic` are inverse on valid notes. */
  lemma DiatonicRoundTrip(n: Note)
    requires ValidNote(n)
    ensures FromDiatonic(Diatonic(n)) == n
  {
    var m := FromDiatonic(Diatonic(n));
    assert 7 * (m.octave - n.octave) == n.letter - m.letter;
  }

  /** Failures of `getPitch`: a clef missing from the clef table (KeyError),
      an empty line list indexed (IndexError), and the three assertions. */
  datatype PitchError = UnknownClef | EmptyLine | NotFoundAbove | NotFoundBelow | Unplaced

  /** One entry of the clef table: the nine names from line one down to line
      five, and the notes of line one and line five where the ledger walks
      start. */
  datatype ClefEntry = ClefEntry(names: seq<Note>, above: Note, below: Note)

  function ClefInfo(clef: string): Option<ClefEntry> {
    if clef == "treble" then
      Some(ClefEntry([Note(3, 5), Note(2, 5), Note(1, 5), Note(0, 5), Note(6, 4),
                      Note(5, 4), Note(4, 4), Note(3, 4), Note(2, 4)],
                     Note(3, 5), Note(2, 4)))
    else if clef == "bass" then
      Some(ClefEntry([Note(5, 3), Note(4, 3), Note(3, 3), Note(2, 3), Note(1, 3),
                      Note(0, 3), Note(6, 2), Note(5, 2), Note(4, 2)],
                     Note(5, 3), Note(4, 2)))
    else None
  }

  /** Both clefs are known, and their tables descend one diatonic step per
      line or space, from the line-one anchor to the line-five anchor. */
  lemma ClefTableDescends(clef: string)
    ensures ClefInfo(clef).Some? <==> clef == "treble" || clef == "bass"
    ensures ClefInfo(clef).Some? ==>
      var e := ClefInfo(clef).value;
      |e.names| == 9 && e.above == e.names[0] && e.below == e.names[8] &&
      forall p :: 0 <= p < 9 ==> ValidNote(e.names[p]) && Diatonic(e.names[p]) == Diatonic(e.above) - p
  {
    if clef == "treble" {
      TableDescends(ClefInfo(clef).value.names);
    } else if clef == "bass" {
      TableDescends(ClefInfo(clef).value.names);
    }
  }

  /** Nine valid notes, each one diatonic step below the one before. */
  lemma TableDescends(names: seq<Note>)
    requires |names| == 9
    requires forall p :: 0 <= p < 9 ==> 0 <= names[p].letter < 7
    requires forall p :: 0 < p < 9 ==> Diatonic(names[p]) == Diatonic(names[p - 1]) - 1
    ensures forall p :: 0 <= p < 9 ==> Diatonic(names[p]) == Diatonic(names[0]) - p
  {
    forall p | 0 <= p < 9 ensures Diatonic(names[p]) == Diatonic(names[0]) - p {
      var q := 0;
      while q < p
        invariant q <= p && Diatonic(names[q]) == Diatonic(names[0]) - q
      {
        q := q + 1;
      }
    }
  }

  /** The upward step of the ledger walk: `s` letters up, the octave growing
      when the letter index reaches 7. */
  function StepUp(n: Note, s: int): Note {
    Note((n.letter + s) % 7, if n.letter + s >= 7 then n.octave + 1 else n.octave)
  }

  /** The upward step is exactly `s` diatonic steps. */
  lemma StepUpIsDiatonic(n: Note, s: int)
    requires ValidNote(n) && 0 <= s <= 7
    ensures StepUp(n, s) == FromDiatonic(Diatonic(n) + s)
  {
    if n.letter + s >= 7 {
      assert (n.letter + s) % 7 == n.letter + s - 7;
    } else {
      assert (n.letter + s) % 7 == n.letter + s;
    }
    DiatonicRoundTrip(StepUp(n, s));
  }

  /** The downward step as written: a ledger line (`s == 2`) tests
      `letter - 2 <= 7`, a space (`s == 1`) tests `letter - 1 >= 7`. */
  function StepDownAsWritten(n: Note, s: int): Note {
    var octave :=
      if s == 2 then (if n.letter - 2 <= 7 then n.octave - 1 else n.octave)
      else (if n.letter - 1 >= 7 then n.octave - 1 else n.octave);
    Note((n.letter - s) % 7, octave)
  }

  /** The downward step as evidently intended: the octave drops exactly when
      the letter index wraps below C. */
  function StepDown(n: Note, s: int): Note {
    Note((n.letter - s) % 7, if n.letter - s < 0 then n.octave - 1 else n.octave)
  }

  /** The intended downward step is exactly `s` diatonic steps. */
  lemma StepDownIsDiatonic(n: Note, s: int)
    requires ValidNote(n) && 0 <= s <= 7
    ensures StepDown(n, s) == FromDiatonic(Diatonic(n) - s)
  {
    if n.letter - s < 0 {
      assert (n.letter - s) % 7 == n.letter - s + 7;
    } else {
      assert (n.letter - s) % 7 == n.letter - s;
    }
    DiatonicRoundTrip(StepDown(n, s));
  }

  /** The tests of the written downward step are constant on valid notes: a
      ledger step always drops the octave, a space step never does; so a
      ledger step from any letter E..B falls nine diatonic steps, not two. */
  lemma StepDownAsWrittenDrift(n: Note)
    requires ValidNote(n)
    ensures StepDownAsWritten(n, 2).octave == n.octave - 1
    ensures StepDownAsWritten(n, 1).octave == n.octave
    ensures n.letter >= 2 ==> Diatonic(StepDownAsWritten(n, 2)) == Diatonic(n) - 9
  {
  }

  datatype Rule = AsWritten | Intended

  function Down(n: Note, s: int, rule: Rule): Note {
    match rule
    case AsWritten => StepDownAsWritten(n, s)
    case Intended => StepDown(n, s)
  }

  /** Every row of `line` moved by `d`. */
  function Shift(line: seq<int>, d: int): (r: seq<int>)
    ensures |r| == |line|
    ensures forall i :: 0 <= i < |line| ==> r[i] == line[i] + d
  {
    seq(|line|, i requires 0 <= i < |line| => line[i] + d)
  }

  function Last(line: seq<int>): int
    requires |line| > 0
  {
    line[|line| - 1]
  }

  /** Where `y` falls among the five lines and the four spaces between them. */
  datatype Placement = OnStaff(position: nat) | OffStaff | Fault(error: PitchError)

  /** `y` lies strictly between line `k` and line `k + 1`. */
  predicate InSpace(lines: seq<seq<int>>, k: nat, y: int)
    requires |lines| == 5 && k < 4
  {
    |lines[k]| > 0 && |lines[k + 1]| > 0 && Last(lines[k]) + 1 <= y < lines[k + 1][0]
  }

  /** The in-staff chain of tests, from line `k` down: line `k`, then the
      space below it (whose bounds index the two lines), and so on. */
  function Place(lines: seq<seq<int>>, y: int, k: nat): (p: Placement)
    requires |lines| == 5 && k < 5
    ensures p.OnStaff? ==> 2 * k <= p.position < 9
    ensures p.OnStaff? && p.position % 2 == 0 ==> y in lines[p.position / 2]
    ensures p.OnStaff? && p.position % 2 == 1 ==> InSpace(lines, p.position / 2, y)
    ensures p.OffStaff? ==> forall j :: k <= j < 5 ==> |lines[j]| > 0 && y !in lines[j]
    ensures p.OffStaff? ==> forall j :: k <= j < 4 ==> !InSpace(lines, j, y)
    ensures p.Fault? ==> p.error == EmptyLine && exists j :: k <= j < 5 && |lines[j]| == 0
    decreases 5 - k
  {
    if y in lines[k] then OnStaff(2 * k)
    else if k == 4 then
      // line five was indexed by the preceding space test
      if |lines[4]| == 0 then Fault(EmptyLine) else OffStaff
    else if |lines[k]| == 0 || |lines[k + 1]| == 0 then Fault(EmptyLine)
    else if Last(lines[k]) + 1 <= y < lines[k + 1][0] then OnStaff(2 * k + 1)
    else Place(lines, y, k + 1)
  }

  /** The walk above the staff: the candidate ledger line `cur` is `below`
      moved up by the line spacing; a hit on it is two steps above `n`, a hit
      in the gap under it one step; the walk gives up once `cur` reaches
      row 0. */
  function WalkUp(y: int, below: seq<int>, cur: seq<int>, ls: int, n: Note): Result<Note, PitchError>
    requires ls > 0 && |below| > 0 && |cur| > 0
    decreases if cur[0] > 0 then cur[0] else 0
  {
    if cur[0] <= 0 then Err(NotFoundAbove)
    else if y in cur then Ok(StepUp(n, 2))
    else if Last(cur) + 1 <= y < below[0] then Ok(StepUp(n, 1))
    else WalkUp(y, cur, Shift(cur, -ls), ls, StepUp(n, 2))
  }

  /** The walk below the staff, mirrored, until `cur` passes the image
      height; the octave is adjusted by `rule`. */
  function WalkDown(y: int, above: seq<int>, cur: seq<int>, ls: int, height: int, n: Note, rule: Rule)
    : Result<Note, PitchError>
    requires ls > 0 && |above| > 0 && |cur| > 0
    decreases if Last(cur) < height then height - Last(cur) else 0
  {
    if Last(cur) >= height then Err(NotFoundBelow)
    else if y in cur then Ok(Down(n, 2, rule))
    else if Last(above) + 1 <= y < cur[0] then Ok(Down(n, 1, rule))
    else WalkDown(y, cur, Shift(cur, ls), ls, height, Down(n, 2, rule), rule)
  }

  /** `getPitch` on a staff with lines `lines`, spacing `ls`, image height
      `height` and clef `clef`. */
  function Pitch(lines: seq<seq<int>>, y: int, ls: int, height: int, clef: string, rule: Rule)
    : Result<Note, PitchError>
    requires |lines| == 5 && ls > 0
  {
    match Place(lines, y, 0)
    case Fault(e) => Err(e)
    case OnStaff(p) =>
      if ClefInfo(clef).None? then Err(UnknownClef) else Ok(ClefInfo(clef).value.names[p])
    case OffStaff =>
      if y < lines[0][0] then
        if ClefInfo(clef).None? then Err(UnknownClef)
        else WalkUp(y, lines[0], Shift(lines[0], -ls), ls, ClefInfo(clef).value.above)
      else if y > Last(lines[4]) then
        if ClefInfo(clef).None? then Err(UnknownClef)
        else WalkDown(y, lines[4], Shift(lines[4], ls), ls, height, ClefInfo(clef).value.below, rule)
      else Err(Unplaced)
  }

  /** Every note found above the staff is higher than the walk's start. */
  lemma {:induction false} WalkUpRises(y: int, below: seq<int>, cur: seq<int>, ls: int, n: Note)
    requires ls > 0 && |below| > 0 && |cur| > 0 && ValidNote(n)
    requires WalkUp(y, below, cur, ls, n).Ok?
    ensures Diatonic(WalkUp(y, below, cur, ls, n).value) > Diatonic(n)
    decreases if cur[0] > 0 then cur[0] else 0
  {
    StepUpIsDiatonic(n, 2);
    StepUpIsDiatonic(n, 1);
    if cur[0] > 0 && y !in cur && !(Last(cur) + 1 <= y < below[0]) {
      WalkUpRises(y, cur, Shift(cur, -ls), ls, StepUp(n, 2));
    }
  }

  /** With the intended octave rule every note found below the staff is
      lower than the walk's start. */
  lemma {:induction false} WalkDownFalls(y: int, above: seq<int>, cur: seq<int>, ls: int, height: int, n: Note)
    requires ls > 0 && |above| > 0 && |cur| > 0 && ValidNote(n)
    requires WalkDown(y, above, cur, ls, height, n, Intended).Ok?
    ensures Diatonic(WalkDown(y, above, cur, ls, height, n, Intended).value) < Diatonic(n)
    decreases if Last(cur) < height then height - Last(cur) else 0
  {
    StepDownIsDiatonic(n, 2);
    StepDownIsDiatonic(n, 1);
    if Last(cur) < height && y !in cur && !(Last(above) + 1 <= y < cur[0]) {
      WalkDownFalls(y, cur, Shift(cur, ls), ls, height, Down(n, 2, Intended));
    }
  }

  /** With the intended rule, pitch is ordered like height on the page: a
      note above the staff is above line one's note, one below the staff is
      below line five's note, one on the staff is the clef table's entry. */
  lemma PitchOrdered(lines: seq<seq<int>>, y: int, ls: int, height: int, clef: string)
    requires |lines| == 5 && ls > 0
    requires Pitch(lines, y, ls, height, clef, Intended).Ok?
    ensures var e := ClefInfo(clef).value;
            var d := Diatonic(Pitch(lines, y, ls, height, clef, Intended).value);
            ClefInfo(clef).Some? &&
            (y < lines[0][0] && Place(lines, y, 0).OffStaff? ==> d > Diatonic(e.above)) &&
            (Place(lines, y, 0).OffStaff? && y >= lines[0][0] ==> d < Diatonic(e.below)) &&
            (Place(lines, y, 0).OnStaff? ==> d == Diatonic(e.above) - Place(lines, y, 0).position)
  {
    ClefTableDescends(clef);
    var e := ClefInfo(clef).value;
    match Place(lines, y, 0)
    case OnStaff(p) =>
    case OffStaff =>
      if y < lines[0][0] {
        WalkUpRises(y, lines[0], Shift(lines[0], -ls), ls, e.above);
      } else {
        WalkDownFalls(y, lines[4], Shift(lines[4], ls), ls, height, e.below);
      }
  }

  /** A treble staff with one-row lines at rows 10, 13, 16, 19 and 22, a
      spacing of 2 and an image 40 rows high: the first space and ledger line
      above give G5 and A5, the first space below gives D4, and the first
      ledger line below gives C3 as written where C4 is meant. */
  lemma TrebleLedgerAbove()
    ensures var lines := [[10], [13], [16], [19], [22]];
            Pitch(lines, 9, 2, 40, "treble", AsWritten) == Ok(Note(4, 5)) &&
            Pitch(lines, 8, 2, 40, "treble", AsWritten) == Ok(Note(5, 5)) &&
            Pitch(lines, 11, 2, 40, "treble", AsWritten) == Ok(Note(2, 5))
  {
    var lines := [[10], [13], [16], [19], [22]];
    assert Shift(lines[0], -2) == [8];
    assert Place(lines, 9, 0) == OffStaff;
    assert Place(lines, 8, 0) == OffStaff;
    assert Place(lines, 11, 0) == OnStaff(1);
  }

  /** The same staff below line five: the as-written rule skips an octave
      on the first ledger line, the intended rule does not. */
  lemma TrebleLedgerExample()
    ensures var lines := [[10], [13], [16], [19], [22]];
            Pitch(lines, 23, 2, 40, "treble", AsWritten) == Ok(Note(1, 4)) &&
            Pitch(lines, 24, 2, 40, "treble", AsWritten) == Ok(Note(0, 3)) &&
            Pitch(lines, 24, 2, 40, "treble", Intended) == Ok(Note(0, 4))
  {
    var lines := [[10], [13], [16], [19], [22]];
    assert Shift(lines[4], 2) == [24];
    assert Place(lines, 23, 0) == OffStaff;
    assert Place(lines, 24, 0) == OffStaff;
  }

  /** A staff of the score. `Bar` is whatever the caller stores as a bar. */
  class Staff<Bar> {
    var clef: string
    var timeSignature: string
    var instrument: int
    var lineOne: seq<int>
    var lineTwo: seq<int>
    var lineThree: seq<int>
    var lineFour: seq<int>
    var lineFive: seq<int>
    var box: BoundingBox
    var image: Image
    var bars: seq<Bar>
    var lineWidth: int
    var lineSpacing: int

    function Lines(): (ls: seq<seq<int>>)
      reads this
      ensures |ls| == 5
    {
      [lineOne, lineTwo, lineThree, lineFour, lineFive]
    }

    constructor (staffMatrix: seq<seq<int>>, staffBox: BoundingBox, lineWidth: int, lineSpacing: int,
                 staffImage: Image, clef: string := "treble", timeSignature: string := "44",
                 instrument: int := -1)
      requires |staffMatrix| >= 5
      ensures Lines() == staffMatrix[..5]
      ensures this.box == staffBox && this.image == staffImage && this.bars == []
      ensures this.lineWidth == lineWidth && this.lineSpacing == lineSpacing
      ensures this.clef == clef && this.timeSignature == timeSignature && this.instrument == instrument
    {
      this.clef := clef;
      this.timeSignature := timeSignature;
      this.instrument := instrument;
      lineOne := staffMatrix[0];
      lineTwo := staffMatrix[1];
      lineThree := staffMatrix[2];
      lineFour := staffMatrix[3];
      lineFive := staffMatrix[4];
      box := staffBox;
      image := staffImage;
      bars := [];
      this.lineWidth := lineWidth;
      this.lineSpacing := lineSpacing;
    }

    method SetClef(clef: string)
      modifies this
      ensures this.clef == clef
      ensures timeSignature == old(timeSignature) && instrument == old(instrument) && bars == old(bars)
      ensures Lines() == old(Lines()) && box == old(box) && image == old(image)
      ensures lineWidth == old(lineWidth) && lineSpacing == old(lineSpacing)
    {
      this.clef := clef;
    }

    method SetTimeSignature(time: string)
      modifies this
      ensures timeSignature == time
      ensures clef == old(clef) && instrument == old(instrument) && bars == old(bars)
      ensures Lines() == old(Lines()) && box == old(box) && image == old(image)
      ensures lineWidth == old(lineWidth) && lineSpacing == old(lineSpacing)
    {
      timeSignature := time;
    }

    method SetInstrument(instrument: int)
      modifies this
      ensures this.instrument == instrument
      ensures clef == old(clef) && timeSignature == old(timeSignature) && bars == old(bars)
      ensures Lines() == old(Lines()) && box == old(box) && image == old(image)
      ensures lineWidth == old(lineWidth) && lineSpacing == old(lineSpacing)
    {
      this.instrument := instrument;
    }

    method AddBar(bar: Bar)
      modifies this
      ensures bars == old(bars) + [bar]
      ensures clef == old(clef) && timeSignature == old(timeSignature) && instrument == old(instrument)
      ensures Lines() == old(Lines()) && box == old(box) && image == old(image)
      ensures lineWidth == old(lineWidth) && lineSpacing == old(lineSpacing)
    {
      bars := bars + [bar];
    }

    /** `getPitch`: the in-staff chain, then the ledger walks with the
        octave and letter index updated step by step as written. */
    method GetPitch(y: int) returns (r: Result<Note, PitchError>)
      requires lineSpacing > 0
      ensures r == Pitch(Lines(), y, lineSpacing, |image|, clef, AsWritten)
    {
      var lines := Lines();
      var ls := lineSpacing;
      var place := Place(lines, y, 0);
      if place.Fault? {
        return Err(place.error);
      }
      var info := ClefInfo(clef);
      if place.OnStaff? {
        if info.None? {
          return Err(UnknownClef);
        }
        return Ok(info.value.names[place.position]);
      }
      if y < lineOne[0] {
        if info.None? {
          return Err(UnknownClef);
        }
        r := ClimbLedgers(y, lineOne, ls, info.value.above);
      } else if y > Last(lineFive) {
        if info.None? {
          return Err(UnknownClef);
        }
        r := DescendLedgers(y, lineFive, ls, |image|, info.value.below);
      } else {
        r := Err(Unplaced);
      }
    }
  }

  /** The upward loop of `getPitch`, starting on line one with the clef's
      anchor note, the octave and letter index updated step by step. */
  method ClimbLedgers(y: int, lineOne: seq<int>, ls: int, anchor: Note) returns (r: Result<Note, PitchError>)
    requires ls > 0 && |lineOne| > 0 && ValidNote(anchor)
    ensures r == WalkUp(y, lineOne, Shift(lineOne, -ls), ls, anchor)
  {
    var lineBelow := lineOne;
    var current := Shift(lineOne, -ls);
    var octave := anchor.octave;
    var noteIndex := anchor.letter;
    while current[0] > 0
      invariant |lineBelow| > 0 && |current| > 0
      invariant 0 <= noteIndex < 7
      invariant WalkUp(y, lineBelow, current, ls, Note(noteIndex, octave))
                == WalkUp(y, lineOne, Shift(lineOne, -ls), ls, anchor)
      decreases current[0]
    {
      if y in current {
        octave := if noteIndex + 2 >= 7 then octave + 1 else octave;
        noteIndex := (noteIndex + 2) % 7;
        return Ok(Note(noteIndex, octave));
      } else if Last(current) + 1 <= y < lineBelow[0] {
        octave := if noteIndex + 1 >= 7 then octave + 1 else octave;
        noteIndex := (noteIndex + 1) % 7;
        return Ok(Note(noteIndex, octave));
      } else {
        octave := if noteIndex + 2 >= 7 then octave + 1 else octave;
        noteIndex := (noteIndex + 2) % 7;
        lineBelow := current;
        current := Shift(current, -ls);
      }
    }
    return Err(NotFoundAbove);
  }

  /** The downward loop of `getPitch`, starting on line five with the clef's
      anchor note and the octave tests as written. */
  method DescendLedgers(y: int, lineFive: seq<int>, ls: int, height: int, anchor: Note)
    returns (r: Result<Note, PitchError>)
    requires ls > 0 && |lineFive| > 0
    ensures r == WalkDown(y, lineFive, Shift(lineFive, ls), ls, height, anchor, AsWritten)
  {
    var lineAbove := lineFive;
    var current := Shift(lineFive, ls);
    var octave := anchor.octave;
    var noteIndex := anchor.letter;
    while Last(current) < height
      invariant |lineAbove| > 0 && |current| > 0
      invariant WalkDown(y, lineAbove, current, ls, height, Note(noteIndex, octave), AsWritten)
                == WalkDown(y, lineFive, Shift(lineFive, ls), ls, height, anchor, AsWritten)
      decreases height - Last(current)
    {
      if y in current {
        octave := if noteIndex - 2 <= 7 then octave - 1 else octave;
        noteIndex := (noteIndex - 2) % 7;
        return Ok(Note(noteIndex, octave));
      } else if Last(lineAbove) + 1 <= y < current[0] {
        octave := if noteIndex - 1 >= 7 then octave - 1 else octave;
        noteIndex := (noteIndex - 1) % 7;
        return Ok(Note(noteIndex, octave));
      } else {
        octave := if noteIndex - 2 <= 7 then octave - 1 else octave;
        noteIndex := (noteIndex - 2) % 7;
        lineAbove := current;
        current := Shift(current, ls);
      }
    }
    return Err(NotFoundBelow);
  }
}
