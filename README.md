# music-smanetting, modelled in Dafny

music-smanetting turns photographed or scanned sheet music into something an
editor can work with. Its Python side is an optical music recognition
pipeline, with two copies of several stages (one under `src/` and one under
`processing/src/`):

- It converts a PDF into one JPEG per page.
- It measures the typical staff-line thickness and gap from run-lengths
  down the image's columns.
- It finds the rows and columns of every five-line staff, cuts each staff
  out as a `Staff` object, and maps a note-head's height to a pitch.
- It merges overlapping detection boxes. In the model, a grown box is
  *stable* against a list of waiting boxes when a scan of that list absorbs
  nothing: the scan walks past boxes that fail the overlap test and are not
  too far, up to one that fails the test and is too far, or to the end.
- A small HTTP server accepts uploads by extension and lists the files a run
  produced.

The TypeScript frontend does the following:

- It finds a document's four corners among OpenCV contours.
- It keeps a persistent scan store of the pages being captured.
- It validates uploads.
- It keeps a store of saved sheets and their annotations.
- It has an editor hook for zoom, page navigation, page reordering and
  annotations.

Each file of the model follows the form of the code it models:

- Pure Python helpers and reducers become functions and lemmas.
- Loops become methods with invariants. Some methods are proved equal to a
  specification function, and the lemmas are about that function: box
  merging is one. Others state their result outright, such as the staff
  rows recorded, the extreme columns, the best corners or the indices kept.
- Zustand stores and the editor hook's state become classes. Their actions
  are methods that update fields.
- Images are sequences of rows with `0` for black. Floating-point quantities
  are reals. The threshold `0.4` is kept as the exact fraction 2/5, and the
  zoom step is 1/10.

Modules:

| module | models |
|---|---|
| `Wrappers` | `Option` and `Result` |
| `Text` | ASCII lower-casing, `rsplit`/`indexOf`, zero-padded numbers, `join`, `trim()` blankness |
| `ServerFiles` | `allowed_file` and `collect_output_files` of `processing/server.py` |
| `PdfUtils` | `is_pdf` and `pdf_to_images` (both copies) |
| `ImageUtils` | `getDataUrlSize` |
| `Boxes` | `BoundingBox`: overlap ratio, distance, merge |
| `BoxMerging` | `merge_boxes` |
| `RunLengths` | `get_ref_lengths` (both copies) |
| `StafflineDetection` | `find_staffline_rows`, `find_staffline_columns`, `create_staffs` |
| `Staffs` | the `Staff` class and `getPitch` |
| `DocumentEdges` | corner selection and the staff-line filter of `opencvSetup.ts` |
| `ScanStore` | `useScanStore` |
| `SheetMusicStore` | `useSheetMusicStore` |
| `FileUpload` | `useFileUpload` |
| `EditorHook` | `useEditor` |

The document-boundary routine of `frontend/lib/opencv/opencvSetup.ts` works
as follows, and the model follows it:

- A contour is a candidate when its area is above 1000 and its polygon
  approximation has four vertices.
- Every contour is approximated, and only four-vertex approximations
  compete on area, so a larger non-quadrilateral contour does not hide a
  smaller quadrilateral. Ties go to the earliest contour.
- Corners are in the coordinates of the image that was given.
- The four points are sorted by y (stably), the top pair is put left to
  right and the bottom pair right to left, which gives top-left, top-right,
  bottom-right, bottom-left.

Some behaviours of the Python code are modelled as written:

- The ledger walk of `getPitch` moves by `line_spacing` rows, not by
  `line_width + line_spacing`.
- The staff window of `find_staffline_columns` stops before the last row of
  line five.
- `allowed_file` takes the text after the last dot. So `a.png.exe` is
  refused and `.png` is accepted.
- `getDataUrlSize` counts the padding characters as bytes.

## Model

| member | source | states |
|---|---|---|
| `Text.Lower` | processing/server.py:42 | same length; every character is lower-cased (A–Z to a–z), all others unchanged |
| `Text.LastIndexOf` | processing/server.py:42 | `None` exactly when the character is absent; otherwise the index holds it and no later index does |
| `Text.LastIndexOfSplit` | processing/server.py:42 | in `a + c + b` with `c` not in `b`, the last `c` is at `\|a\|` |
| `Text.IndexOf` | frontend/lib/utils/imageUtils.ts:49 | `None` exactly when the character is absent; otherwise the first index holding it |
| `Text.Decimal` | processing/src/pdf_utils.py:62 | a non-empty string of digits |
| `Text.DecimalValue` | processing/src/pdf_utils.py:62 | reading the decimal digits back gives the number |
| `Text.ZeroPadded` | processing/src/pdf_utils.py:62 | at least `width` digits, exactly the decimal form when that is longer |
| `Text.ZeroPaddedValue` | processing/src/pdf_utils.py:62 | zero padding keeps the number's value |
| `Text.ZeroPaddedInjective` | processing/src/pdf_utils.py:62 | different numbers get different padded strings |
| `Text.Join` | frontend/hooks/useFileUpload.ts:68 | no strings join to "", one string joins to itself |
| `ServerFiles.Extension` | processing/server.py:42 | `None` exactly when there is no dot; otherwise a dot-free text that, after a dot, ends the name |
| `ServerFiles.AllowedFileSplit` | processing/server.py:40-42 | a name `stem.ext` with `ext` dot-free has extension `ext`, and is allowed iff `ext` lower-cased is one of the eight allowed extensions |
| `ServerFiles.AllowedUpperCaseExtension` | processing/server.py:38-42 | "score.PDF" is allowed: case is ignored |
| `ServerFiles.AllowedEmptyStem` | processing/server.py:38-42 | ".png" is allowed |
| `ServerFiles.RejectedLastExtension` | processing/server.py:38-42 | "a.png.exe" is refused: only the last extension counts |
| `ServerFiles.RejectedEmptyExtension` | processing/server.py:38-42 | "a." is refused |
| `ServerFiles.RejectedWithoutDot` | processing/server.py:42 | "png" is refused |
| `ServerFiles.ImageSuffixIsImage` | processing/server.py:319 | a name ending `.jpg`, `.jpeg` or `.png` is labelled `image` |
| `ServerFiles.JsonIsData` | processing/server.py:319 | a name ending `.json` is labelled `data` |
| `ServerFiles.ListedKind` | processing/server.py:312-319 | among listed files the label is `data` exactly for the `.json` ones |
| `ServerFiles.OutputListing` | processing/server.py:310-320 | never more entries than files found; every entry passes the suffix filter |
| `ServerFiles.OutputListingComplete` | processing/server.py:310-320 | every found file that passes the filter is in the listing with its path, size and label |
| `ServerFiles.CollectOutputFiles` | processing/server.py:306-322 | the loop produces exactly the listing: filtered files in walk order |
| `PdfUtils.PdfSuffix` | processing/src/pdf_utils.py:13 | a PDF name ends in a dot and three characters that lower-case to "pdf" |
| `PdfUtils.PdfExtensionIsPdf` | processing/src/pdf_utils.py:13 | `stem.ext` with `ext` lower-casing to "pdf" is a PDF |
| `PdfUtils.PdfHasPdfExtension` | processing/src/pdf_utils.py:13 | the extension of a PDF name lower-cases to "pdf" |
| `PdfUtils.IsPdfByExtension` | src/pdf_utils.py:9 | `stem.ext` is a PDF iff `ext` lower-cases to "pdf" |
| `PdfUtils.PdfIsAllowedUpload` | processing/src/pdf_utils.py:13 | every name `is_pdf` accepts is also accepted by the server's `allowed_file` |
| `PdfUtils.UpperCasePdf` | processing/src/pdf_utils.py:13 | "X.PDF" is a PDF |
| `PdfUtils.PdfInsideName` | processing/src/pdf_utils.py:13 | "notes.pdf.jpg" is not a PDF |
| `PdfUtils.BareWordPdf` | processing/src/pdf_utils.py:13 | "pdf" without a dot is not a PDF |
| `PdfUtils.Basename` | processing/src/pdf_utils.py:35 | a slash-free ending of the path; the whole path when it has no slash |
| `PdfUtils.Stem` | processing/src/pdf_utils.py:35 | a prefix of the name; the whole name when it has no dot |
| `PdfUtils.StemAndExtension` | processing/src/pdf_utils.py:35 | a name with a dot is its stem, a dot and its extension |
| `PdfUtils.PathJoin` | processing/src/pdf_utils.py:38 | a relative second part ends the result, which starts with the first |
| `PdfUtils.PathJoinInjective` | processing/src/pdf_utils.py:62 | joining the same directory to two different file names gives different paths |
| `PdfUtils.BasenameAfterSlash` | processing/src/pdf_utils.py:35 | the base name of `folder/file` is `file` when `file` has no slash |
| `PdfUtils.StemBeforeDot` | processing/src/pdf_utils.py:35 | the stem of `name.ext` is `name` when `ext` has no dot |
| `PdfUtils.PageDirOfFile` | processing/src/pdf_utils.py:35-38 | pages of `folder/name.ext` go to `<output>/name_pages` |
| `PdfUtils.PageFileName` | processing/src/pdf_utils.py:62 | each page file name ends in `.jpg` |
| `PdfUtils.PageFileNameInjective` | processing/src/pdf_utils.py:62 | different pages get different file names |
| `PdfUtils.FirstPageFileName` | processing/src/pdf_utils.py:62 | the first page is `page_001.jpg` |
| `PdfUtils.PagePaths` | processing/src/pdf_utils.py:53-64 | one path per page |
| `PdfUtils.PagePathsGrow` | processing/src/pdf_utils.py:62-64 | each page appends its own path to the list |
| `PdfUtils.PagePathsDistinct` | processing/src/pdf_utils.py:62 | no two pages share a path |
| `PdfUtils.PagePathsAreImages` | processing/src/pdf_utils.py:62 | every page path passes the output listing's filter and is labelled `image` |
| `PdfUtils.PdfToImages` | processing/src/pdf_utils.py:15-72 | an empty list when the PDF does not open or a page fails; otherwise one path per page, in page order, inside `<output>/<stem>_pages` |
| `PdfUtils.SavePages` | src/pdf_utils.py:45-61 | the page loop yields all page paths, or none once a page fails |
| `ImageUtils.Payload` | frontend/lib/utils/imageUtils.ts:49 | `None` exactly when there is no comma; otherwise a comma-free text |
| `ImageUtils.DataUrlSize` | frontend/lib/utils/imageUtils.ts:47-53 | an error exactly when there is no comma; otherwise three quarters of the payload length, rounded down |
| `ImageUtils.HeaderIgnored` | frontend/lib/utils/imageUtils.ts:49-52 | the header before the first comma never changes the estimate |
| `ImageUtils.PayloadMeasured` | frontend/lib/utils/imageUtils.ts:49-52 | a comma-free payload is measured whole |
| `ImageUtils.PaddingCounted` | frontend/lib/utils/imageUtils.ts:52 | "AAA=" counts as three bytes, padding included |
| `ImageUtils.SizeMonotone` | frontend/lib/utils/imageUtils.ts:52 | a longer payload never gives a smaller estimate |
| `ImageUtils.EstimateBounds` | frontend/lib/utils/imageUtils.ts:52 | for padded base64 of `n` bytes the estimate lies between `n` and `n + 2` |
| `Boxes.OverlapX` | src/box.py:41 | the horizontal intersection is non-negative and no wider than either box |
| `Boxes.OverlapY` | src/box.py:42 | the vertical intersection is non-negative and no taller than either box |
| `Boxes.Overlap` | src/box.py:31-44 | the ratio times the box's own area is the intersection area |
| `Boxes.DistanceSquared` | src/box.py:46-58 | the squared centre distance is non-negative |
| `Boxes.Merge` | src/box.py:60-74 | the merged box spans from the lesser left and top edges to the greater right and bottom edges, so it contains both boxes |
| `Boxes.ContainsTransitive` | src/box.py:60-74 | containment is transitive |
| `Boxes.MergePositive` | src/box.py:60-74 | merging boxes of positive size gives positive size |
| `Boxes.OverlapBounds` | src/box.py:31-44 | the overlap ratio lies in [0, 1] |
| `Boxes.OverlapSelf` | src/box.py:31-44 | a box overlaps itself with ratio 1 |
| `Boxes.OverlapSymmetric` | src/box.py:41-43 | both boxes see the same intersection area |
| `Boxes.SeparatedNoOverlap` | src/box.py:41-44 | boxes apart horizontally have ratio 0 |
| `Boxes.MergeCommutative` | src/box.py:60-74 | merging is commutative, and merging a box with itself changes nothing |
| `Boxes.DistanceSymmetric` | src/box.py:46-58 | distance is symmetric, and zero from a box to itself |
| `BoxMerging.InsertByPermutes` | src/utils.py:65 | insertion adds exactly the one box |
| `BoxMerging.InsertBySorted` | src/utils.py:65 | insertion into a sorted list keeps it sorted |
| `BoxMerging.SortByPermutes` | src/utils.py:65 | sorting permutes the boxes |
| `BoxMerging.SortBySorted` | src/utils.py:65 | the sorted list is in key order |
| `BoxMerging.SortByDistance` | src/utils.py:65 | a permutation of the boxes in non-decreasing distance from the reference box |
| `BoxMerging.CoveredAfterPop` | src/utils.py:72 | after a box is merged in and popped, every box is inside the merged box or still in the list |
| `BoxMerging.ScanFrom` | src/utils.py:69-77 | one `for` scan from entry `i`, run as the code runs it: absorb and pop at `i`, stop at a too-far box, otherwise move on; as many boxes come out as went in, and a scan that absorbs nothing changes nothing |
| `BoxMerging.Grow` | src/utils.py:66-77 | the `while merged` loop as the code runs it: scans from the start until one absorbs nothing; as many boxes come out as went in, and nothing changes when nothing is absorbed |
| `BoxMerging.Emissions` | src/utils.py:62-79 | the outer loop as the code runs it: pop the first box, sort the rest by distance to it, grow it, emit it; at most one round per box, and none only for no boxes |
| `BoxMerging.AbsorbedCons` | src/utils.py:71-72 | absorbing the box at `i` and growing on over the shorter list is a growth over the whole list |
| `BoxMerging.AbsorbedAppend` | src/utils.py:67-77 | one pass's growth followed by the next pass's is one growth |
| `BoxMerging.FirstAbsorbed` | src/utils.py:71 | a growth that absorbs anything first absorbs a box of the list that passes the overlap test against the start box |
| `BoxMerging.NoneAbsorbed` | src/utils.py:71 | when no box passes the test against the start box, a growth absorbs nothing |
| `BoxMerging.ScanFromAbsorbed` | src/utils.py:69-77 | a scan's absorbed boxes and boxes left are exactly the boxes given; its box is the start box grown by the absorbed boxes in order, each passing the overlap test; every box stays enclosed |
| `BoxMerging.ScanFromStable` | src/utils.py:70-77 | a scan that has walked past the first `i` boxes absorbs nothing exactly when the start box is stable against the list |
| `BoxMerging.GrowAbsorbed` | src/utils.py:66-77 | the same facts for the `while merged` loop; it absorbs nothing exactly when the start box is stable, and the grown box is stable against the boxes left |
| `BoxMerging.GrowSplits` | src/utils.py:66-77 | growing splits the list into the boxes absorbed and the boxes left |
| `BoxMerging.GrowNone` | src/utils.py:66-77 | growing over boxes none of which passes the test against the start box absorbs nothing |
| `BoxMerging.EmissionsStep` | src/utils.py:63-78 | the first round's group starts with the first box; the group and the boxes left are exactly the input; the later rounds are the rounds of the boxes left |
| `BoxMerging.EmissionsFirst` | src/utils.py:63-78 | the first round emits its group's first box grown by the rest of the group in order, each passing the overlap test, and stable against the boxes left |
| `BoxMerging.SeparateStep` | src/utils.py:63-78 | among boxes none of which passes the test against another, the first round emits the first box alone and leaves such boxes |
| `BoxMerging.EmissionsGrown` | src/utils.py:63-78 | every round emits its group's first box grown by the rest in order, each passing the overlap test, and stable against the boxes still waiting |
| `BoxMerging.EmissionsTail` | src/utils.py:63-78 | the rounds after round `k` are the rounds of the boxes waiting after it |
| `BoxMerging.EmissionsPool` | src/utils.py:61-79 | the groups together are exactly the input boxes |
| `BoxMerging.EmissionsWaiting` | src/utils.py:63-78 | the boxes waiting after round `k` are exactly the boxes of the later groups |
| `BoxMerging.EmissionsSeparate` | src/utils.py:61-79 | when no two input boxes pass the overlap test against each other, the output is the input rearranged |
| `BoxMerging.CoveredPermuted` | src/utils.py:65 | a box enclosed by an entry of a list is enclosed by an entry of its re-sorting |
| `BoxMerging.EmissionsFirstCover` | src/utils.py:63-78 | the first round keeps sizes positive and leaves every box enclosed by the emitted box or a box left |
| `BoxMerging.EmissionsCover` | src/utils.py:61-79 | every output has positive size and every box enclosed by an input box is enclosed by an output |
| `BoxMerging.EmissionsBuild` | src/utils.py:61-79 | each output is its group's first box grown by the rest in order, each passing the overlap test, and is stable against the boxes waiting after it, which are the boxes of the later groups |
| `BoxMerging.MergeAllCovers` | src/utils.py:61-79 | every input box is inside some output, and every output has positive size |
| `BoxMerging.MergeAllSpec` | src/utils.py:61-79 | everything `MergeBoxes` promises beyond its equality with the outer loop's rounds, proved of those rounds |
| `BoxMerging.ScanAt` | src/utils.py:70-77 | one iteration: a box passing the overlap test is removed and merged into the grown box; otherwise the scan stops iff the box is too far |
| `BoxMerging.MergePass` | src/utils.py:66-77 | one scan, equal to `ScanFrom` from entry 0: the boxes it absorbs and the boxes left are exactly the boxes given; the result is the start box merged with the absorbed boxes in order, each of which passed the overlap test against the box grown so far; `merged` iff something was absorbed iff the start box is not stable against the list; when nothing was absorbed, nothing changes; every box stays enclosed |
| `BoxMerging.MergeUntilStable` | src/utils.py:66-77 | equal to `Grow`: the absorbed and remaining boxes are exactly the boxes given, in the order the code leaves them; the result is the start box grown by the absorbed boxes in order, each passing the overlap test against the box grown so far; it absorbs nothing exactly when the start box is stable; the final grown box is stable against the boxes left; every box stays enclosed |
| `BoxMerging.EmitNext` | src/utils.py:63-78 | one outer round, equal to the first of `Emissions`: the group starts with the first waiting box, which is the seed; the group and the boxes still waiting are exactly the boxes that waited before; the emitted box is the seed grown by the rest of the group in order and is stable against the boxes still waiting; fewer boxes wait |
| `BoxMerging.MergeBoxes` | src/utils.py:61-79 | the output is exactly `MergeAll` of the input; the input boxes are split into groups, one per output box; each output is its group's first box grown by the rest of the group in order, each passing the overlap test; each output is stable against the boxes still waiting when it was emitted, which are exactly the boxes of the later groups; when no two input boxes pass the test against each other, the outputs are the inputs rearranged; no more outputs than inputs, none only for no input, all of positive size, every input box inside some output box |
| `BoxMerging.FoldMergeAppend` | src/box.py:60-74 | merging a list in two parts is merging it whole |
| `BoxMerging.FoldMergeEncloses` | src/box.py:60-74 | the grown box encloses the start box and every box merged into it |
| `BoxMerging.AbsorbChainAppend` | src/utils.py:68-77 | the absorptions of successive passes form one chain from the start box |
| `BoxMerging.SeparatePermuted` | src/utils.py:64 | re-sorting boxes none of which passes the overlap test against another keeps them so |
| `BoxMerging.SeparateSeed` | src/utils.py:63-64 | among such boxes the popped one passes the test against none of the sorted rest |
| `RunLengths.RunsFacts` | processing/src/deskewing.py:28-50 | runs are non-empty, neighbouring runs differ, the last run has the last pixel's colour, and the lengths sum to the column height |
| `RunLengths.ExpandRuns` | processing/src/deskewing.py:28-50 | expanding the runs rebuilds the column |
| `RunLengths.RunCount` | processing/src/deskewing.py:28-43 | one run more than the number of colour changes |
| `RunLengths.BlackWhiteSplit` | processing/src/deskewing.py:35-38 | every run is either black or white; their counts and lengths add up |
| `RunLengths.NoBlackPixelNoBlackRun` | processing/src/deskewing.py:35-38 | a column without black has no black run |
| `RunLengths.SomeRun` | processing/src/deskewing.py:46-50 | the final run lands in the list of its colour |
| `RunLengths.PairSumsLast` | processing/src/deskewing.py:53 | each run plus its successor; the last run alone |
| `RunLengths.MostCommon` | processing/src/deskewing.py:67-69 | a value no other occurs more often than, the earliest such in the list |
| `RunLengths.ColumnRuns` | processing/src/deskewing.py:21-58 | one run list per column, each the column's runs |
| `RunLengths.AccumulateStep` | processing/src/deskewing.py:56-58 | each column extends the three accumulations by its own lists |
| `RunLengths.SumsCoverRuns` | processing/src/deskewing.py:53-58 | there are as many pair sums as white and black runs together |
| `RunLengths.RefFrom` | processing/src/deskewing.py:60-73 | no white run gives one error, no black run the other; otherwise the result is `Ok` iff the modal white run plus the modal black run is the modal pair sum, and then it is exactly (modal black run, modal white run), each the first-occurring value of highest count; a mismatch reports the three modes |
| `RunLengths.RunsCoverImage` | processing/src/deskewing.py:21-58 | the white and black runs together cover every pixel of the image |
| `RunLengths.NoBlackPixelFails` | processing/src/deskewing.py:62-71 | an image without black pixels ends in the black-run error |
| `RunLengths.EncodeColumn` | src/deskewing.py:21-43 | the inner loop produces the column's run lengths split by colour |
| `RunLengths.CloseRun` | processing/src/deskewing.py:35-38 | closing the open run appends it to the lists of its colour |
| `RunLengths.EncodeColumns` | src/deskewing.py:14-51 | the column loop accumulates every column's white runs, black runs and pair sums in order |
| `RunLengths.GetRefLengths` | processing/src/deskewing.py:7-73 | the procedure computes the reference line width and spacing of the image |
| `StafflineDetection.RowHistogram` | processing/src/staffline_detection.py:27-34 | one black-pixel count per row |
| `StafflineDetection.TestStaff` | processing/src/staffline_detection.py:53-61 | a staff is accepted iff each of its five bands averages at least 2/5 of the columns black |
| `StafflineDetection.RecordStep` | processing/src/staffline_detection.py:63-67 | recording a passing staff keeps the records ordered and complete |
| `StafflineDetection.SkipStep` | processing/src/staffline_detection.py:58-61 | moving past a failing row keeps the records complete |
| `StafflineDetection.FindStafflineRows` | processing/src/staffline_detection.py:10-70 | a zero line width fails exactly when the loop would run; otherwise every recorded staff passes, staffs do not overlap, and every passing start not covered by an earlier staff is recorded |
| `StafflineDetection.Largest` | processing/src/staffline_detection.py:108-109 | the largest value of a non-empty list |
| `StafflineDetection.Smallest` | processing/src/staffline_detection.py:121-122 | the smallest value of a non-empty list |
| `StafflineDetection.ColumnIsClear` | processing/src/staffline_detection.py:99-105 | a column is clear iff it has no black pixel in the staff's window |
| `StafflineDetection.ClearColumns` | processing/src/staffline_detection.py:99-118 | exactly the clear columns of the range, in strictly increasing order |
| `StafflineDetection.FindStafflineColumns` | processing/src/staffline_detection.py:73-127 | succeeds iff every staff has clear columns on both sides; each pair is the staff's left and right extreme clear columns; otherwise the error names the first failing staff and its side |
| `StafflineDetection.DetectedStaffWindow` | processing/src/staffline_detection.py:99-118 | a staff from the row search always lies inside the image |
| `StafflineDetection.StaffBoxCoversLines` | processing/src/staffline_detection.py:150-154 | a staff's box spans every row of its five lines |
| `StafflineDetection.NormalizeLines` | processing/src/staffline_detection.py:160-169 | the renumbering loop gives five lines of `lw` consecutive rows |
| `StafflineDetection.NormalizedLinesDrift` | processing/src/staffline_detection.py:160-169 | as written, line `k` is numbered `k` rows below its position in the crop |
| `StafflineDetection.AlignedLinesMatch` | processing/src/staffline_detection.py:157-169 | the intended numbering matches every detected line row in the crop |
| `StafflineDetection.BuildStaff` | processing/src/staffline_detection.py:148-172 | one new staff with its box, its crop, the renumbered lines and the default clef |
| `StafflineDetection.CreateStaffs` | processing/src/staffline_detection.py:129-174 | fails iff there are fewer than two staffs; otherwise one new staff per detected staff, in order |
| `Staffs.FromDiatonic` | processing/src/staff.py:103 | gives a valid note at that diatonic position |
| `Staffs.DiatonicRoundTrip` | processing/src/staff.py:103 | position and note convert back and forth |
| `Staffs.ClefTableDescends` | processing/src/staff.py:99-102 | only treble and bass are known; each table has nine names descending one step at a time from the line-one note to the line-five note |
| `Staffs.StepUpIsDiatonic` | processing/src/staff.py:138-149 | the upward ledger step moves up exactly that many steps |
| `Staffs.StepDownIsDiatonic` | processing/src/staff.py:163-179 | the intended downward step moves down exactly that many steps |
| `Staffs.StepDownAsWrittenDrift` | processing/src/staff.py:166-176 | as written, a ledger step always drops an octave and a space step never does |
| `Staffs.Shift` | processing/src/staff.py:132 | every row moved by the same amount |
| `Staffs.Place` | processing/src/staff.py:108-125 | a hit is on the line or in the space it names; a miss lies on no line and in no space; a fault means some line is empty |
| `Staffs.WalkUpRises` | processing/src/staff.py:128-154 | every note found above the staff is higher than line one's note |
| `Staffs.WalkDownFalls` | processing/src/staff.py:155-180 | with the intended rule, every note found below the staff is lower than line five's note |
| `Staffs.PitchOrdered` | processing/src/staff.py:84-183 | with the intended rule, notes above, on and below the staff are ordered like their heights |
| `Staffs.TrebleLedgerAbove` | processing/src/staff.py:128-154 | on a sample treble staff, the first space and ledger line above give G5 and A5, and the top space gives E5 |
| `Staffs.TrebleLedgerExample` | processing/src/staff.py:155-180 | on the same staff the first space below gives D4, and the first ledger line gives C3 as written where C4 is meant |
| `Staffs.Staff.constructor` | processing/src/staff.py:12-38 | a staff with the first five line-row lists, the given box, sizes, image, clef (treble by default), time signature ("44") and instrument (-1), and no bars |
| `Staffs.Staff.SetClef` | processing/src/staff.py:40-42 | only the clef changes |
| `Staffs.Staff.SetTimeSignature` | processing/src/staff.py:44-46 | only the time signature changes |
| `Staffs.Staff.SetInstrument` | processing/src/staff.py:48-50 | only the instrument changes |
| `Staffs.Staff.AddBar` | processing/src/staff.py:52-54 | appends the bar, nothing else changes |
| `Staffs.Staff.GetPitch` | processing/src/staff.py:84-183 | the pitch as written for the staff's lines, spacing, height and clef |
| `Staffs.ClimbLedgers` | processing/src/staff.py:136-154 | the loop above the staff gives the upward walk's result |
| `Staffs.DescendLedgers` | processing/src/staff.py:163-180 | the loop below the staff gives the downward walk's result, as written |
| `DocumentEdges.BestUnique` | frontend/lib/opencv/opencvSetup.ts:104-106 | only one contour is kept: ties go to the first |
| `DocumentEdges.BestReplaced` | frontend/lib/opencv/opencvSetup.ts:104-106 | a strictly larger candidate replaces the best |
| `DocumentEdges.BestKept` | frontend/lib/opencv/opencvSetup.ts:104-106 | a candidate no larger leaves the best as it was |
| `DocumentEdges.BestFirst` | frontend/lib/opencv/opencvSetup.ts:104-106 | the first candidate becomes the best |
| `DocumentEdges.BestExists` | frontend/lib/opencv/opencvSetup.ts:95-127 | whenever there is a candidate there is a best one |
| `DocumentEdges.InsertByY` | frontend/lib/opencv/opencvSetup.ts:117 | insertion adds exactly the one point |
| `DocumentEdges.InsertByYSorted` | frontend/lib/opencv/opencvSetup.ts:117 | insertion into a list sorted by y keeps it sorted |
| `DocumentEdges.SortByY` | frontend/lib/opencv/opencvSetup.ts:117 | sorting permutes the points |
| `DocumentEdges.SortByYSorted` | frontend/lib/opencv/opencvSetup.ts:117 | the sorted points are in increasing y |
| `DocumentEdges.OrderedCornersPermutation` | frontend/lib/opencv/opencvSetup.ts:117-123 | the ordered corners are the same four points |
| `DocumentEdges.OrderedCornersShape` | frontend/lib/opencv/opencvSetup.ts:117-123 | the top two corners are above the bottom two; the top pair runs left to right and the bottom pair right to left |
| `DocumentEdges.OrderCorners` | frontend/lib/opencv/opencvSetup.ts:117-123 | the in-place sort and swaps leave the ordered corners in the array |
| `DocumentEdges.CornersOf` | frontend/lib/opencv/opencvSetup.ts:109-123 | the corners read from an approximation are its ordered corners |
| `DocumentEdges.SelectCorners` | frontend/lib/opencv/opencvSetup.ts:91-130 | no corners iff no contour is a candidate; otherwise the ordered corners of the largest candidate, the earliest among equals |
| `DocumentEdges.StaffLineContours` | frontend/lib/opencv/opencvSetup.ts:219-225 | exactly the contours more than five times wider than tall, in increasing order |
| `ScanStore.FindIndex` | frontend/lib/store/useScanStore.ts:111 | `None` iff no file has the id; otherwise the first file with it |
| `ScanStore.FileById` | frontend/lib/store/useScanStore.ts:267-269 | `None` iff no file has the id; otherwise a stored file with that id |
| `ScanStore.TotalFileSizeAppend` | frontend/lib/store/useScanStore.ts:271-273 | the total size of two lists is the sum of their totals |
| `ScanStore.ProcessedFilesCount` | frontend/lib/store/useScanStore.ts:275-277 | never more than the files; equal to their number iff all are processed |
| `ScanStore.WithProgressOnlyMatching` | frontend/lib/store/useScanStore.ts:193-199 | only the file with the id gets the new progress |
| `ScanStore.MarkedProcessedOnlyMatching` | frontend/lib/store/useScanStore.ts:201-207 | only the file with the id is flagged processed |
| `ScanStore.WithProgressKeepsCount` | frontend/lib/store/useScanStore.ts:193-199 | progress updates keep the processed count |
| `ScanStore.MarkedProcessedCount` | frontend/lib/store/useScanStore.ts:201-207 | with unique ids, the processed count grows by one iff the file existed unprocessed |
| `ScanStore.MarkedProcessedAbsent` | frontend/lib/store/useScanStore.ts:201-207 | an unknown id changes nothing |
| `ScanStore.WithoutUniqueId` | frontend/lib/store/useScanStore.ts:120 | with unique ids, filtering out an id removes exactly its one file |
| `ScanStore.NoIdKept` | frontend/lib/store/useScanStore.ts:120 | no file with the id survives the filter |
| `ScanStore.DeleteKeepsUnique` | frontend/lib/store/useScanStore.ts:120 | removal keeps ids unique |
| `ScanStore.RemoveTracksPreview` | frontend/lib/store/useScanStore.ts:121-129 | after removal the cursor is in range, and still on the same file when another file was removed |
| `ScanStore.MovedPlacement` | frontend/lib/store/useScanStore.ts:144-146 | the moved file lands at the target and the others keep their order |
| `ScanStore.MovedPermutation` | frontend/lib/store/useScanStore.ts:144-146 | moving permutes the files |
| `ScanStore.MovedTracksPreview` | frontend/lib/store/useScanStore.ts:148-156 | the cursor follows the file it was on |
| `ScanStore.MovedKeepsUnique` | frontend/lib/store/useScanStore.ts:144-146 | moving keeps ids unique |
| `ScanStore.MovedSource` | frontend/lib/store/useScanStore.ts:144-146 | each position after a move holds the file from the computed source position |
| `ScanStore.FirstNonImage` | frontend/lib/store/useScanStore.ts:80-82 | `None` iff every file has an `image/` type; otherwise the first that does not |
| `ScanStore.ClampPercent` | frontend/lib/store/useScanStore.ts:240 | progress is clamped into [0, 100] and kept when already inside |
| `ScanStore.AppendKeepsUnique` | frontend/lib/store/useScanStore.ts:97-100 | appending files with fresh, distinct ids keeps ids unique |
| `ScanStore.Store.constructor` | frontend/lib/store/useScanStore.ts:59-65 | the initial state: no files, cursor 0, idle, no progress or error |
| `ScanStore.Store.AddFiles` | frontend/lib/store/useScanStore.ts:73-107 | all files are appended in order, or none when one is not an image, with the error naming it; uploading ends false |
| `ScanStore.Store.RemoveFile` | frontend/lib/store/useScanStore.ts:109-135 | removes the file with the id; the cursor follows the file it was on |
| `ScanStore.Store.MoveFile` | frontend/lib/store/useScanStore.ts:137-162 | out-of-range indices change nothing; otherwise the file moves and the cursor follows its file |
| `ScanStore.Store.MoveFileLeft` | frontend/lib/store/useScanStore.ts:164-168 | swaps with the left neighbour unless at the start |
| `ScanStore.Store.MoveFileRight` | frontend/lib/store/useScanStore.ts:170-175 | swaps with the right neighbour unless at the end |
| `ScanStore.Store.ClearAllFiles` | frontend/lib/store/useScanStore.ts:177-191 | no files, cursor 0, idle, no progress or error |
| `ScanStore.Store.UpdateFileProgress` | frontend/lib/store/useScanStore.ts:193-199 | the file's progress is set and the processed count is unchanged |
| `ScanStore.Store.MarkFileAsProcessed` | frontend/lib/store/useScanStore.ts:201-207 | the file with the id is flagged processed |
| `ScanStore.Store.SetCurrentPreviewIndex` | frontend/lib/store/useScanStore.ts:210-215 | the cursor moves only to an index in range |
| `ScanStore.Store.GoToNextPreview` | frontend/lib/store/useScanStore.ts:217-222 | one forward unless on the last file |
| `ScanStore.Store.GoToPreviousPreview` | frontend/lib/store/useScanStore.ts:224-229 | one back unless on the first file |
| `ScanStore.Store.SetProcessingStatus` | frontend/lib/store/useScanStore.ts:232-234 | only the status changes |
| `ScanStore.Store.SetProcessingProgress` | frontend/lib/store/useScanStore.ts:236-242 | the progress is cleared or set to the clamped value |
| `ScanStore.Store.SetIsDragging` | frontend/lib/store/useScanStore.ts:244-246 | only the dragging flag changes |
| `ScanStore.Store.SetIsUploading` | frontend/lib/store/useScanStore.ts:248-250 | only the uploading flag changes |
| `ScanStore.Store.SetError` | frontend/lib/store/useScanStore.ts:252-254 | only the error changes |
| `ScanStore.Store.Reset` | frontend/lib/store/useScanStore.ts:257-265 | `set(initialState)` (lines 59-65) merges: files, preview index, status and the two flags go back to their initial values, while `processingProgress` and `error`, absent from the initial state, keep theirs; the store stays valid |
| `SheetMusicStore.Apply` | frontend/lib/store/useSheetMusicStore.ts:88-100 | each of the six patchable fields takes the patch's value when the patch has it and keeps the record's otherwise; the update time is the given clock reading; an empty patch changes only the update time |
| `SheetMusicStore.Revised` | frontend/lib/store/useSheetMusicStore.ts:90-94 | only sheets with the id are changed; order and length are kept |
| `SheetMusicStore.RevisedKeepsListed` | frontend/lib/store/useSheetMusicStore.ts:90-94 | revising a sheet keeps it listed under its id |
| `SheetMusicStore.FindSheet` | frontend/lib/store/useSheetMusicStore.ts:82 | `None` iff no sheet has the id; otherwise the first with it |
| `SheetMusicStore.WithoutSheet` | frontend/lib/store/useSheetMusicStore.ts:104 | no sheet with the id remains |
| `SheetMusicStore.WithoutSheetCount` | frontend/lib/store/useSheetMusicStore.ts:104 | exactly the sheets with the id are removed |
| `SheetMusicStore.WithoutSheetSplits` | frontend/lib/store/useSheetMusicStore.ts:104 | deleting keeps the order of the remaining sheets: filtering distributes over concatenation |
| `SheetMusicStore.Retexted` | frontend/lib/store/useSheetMusicStore.ts:150-152 | only annotations with the id get the new text |
| `SheetMusicStore.WithoutAnnotation` | frontend/lib/store/useSheetMusicStore.ts:176-178 | no annotation with the id remains |
| `SheetMusicStore.WithoutAnnotationSplits` | frontend/lib/store/useSheetMusicStore.ts:176-178 | filtering distributes over concatenation |
| `SheetMusicStore.WithoutAbsentAnnotation` | frontend/lib/store/useSheetMusicStore.ts:176-178 | an unknown id removes nothing |
| `SheetMusicStore.ReviseKeepsCurrent` | frontend/lib/store/useSheetMusicStore.ts:88-100 | the current sheet stays in the list after the same revision |
| `SheetMusicStore.AnnotatedAppends` | frontend/lib/store/useSheetMusicStore.ts:114-142 | adding an annotation appends it and touches nothing else |
| `SheetMusicStore.Store.constructor` | frontend/lib/store/useSheetMusicStore.ts:46-49 | no sheets, no current sheet, no flags |
| `SheetMusicStore.Store.AddSheetMusic` | frontend/lib/store/useSheetMusicStore.ts:51-74 | the new sheet, created and updated now, is appended and becomes current; its id is returned; afterwards the current sheet is listed |
| `SheetMusicStore.Store.SetCurrentSheetMusic` | frontend/lib/store/useSheetMusicStore.ts:76-86 | `null` clears the current sheet; a listed id selects its first record; an unknown id changes nothing; the store invariant is kept, and established when a record is found |
| `SheetMusicStore.Store.UpdateSheetMusic` | frontend/lib/store/useSheetMusicStore.ts:88-100 | the patch is applied to every listed sheet with the id and to the current one when its id matches, each stamped with its own clock reading; the current sheet keeps tracking a listed record whatever the two readings, and stays exactly listed when they are equal |
| `SheetMusicStore.Store.DeleteSheetMusic` | frontend/lib/store/useSheetMusicStore.ts:102-108 | every sheet with the id leaves the list; the current sheet is cleared exactly when it has the id; the store invariant is kept |
| `SheetMusicStore.Store.SetIsScanning` | frontend/lib/store/useSheetMusicStore.ts:110 | only the scanning flag changes |
| `SheetMusicStore.Store.SetIsProcessing` | frontend/lib/store/useSheetMusicStore.ts:112 | only the processing flag changes |
| `SheetMusicStore.Store.AddAnnotation` | frontend/lib/store/useSheetMusicStore.ts:114-142 | the annotation is appended to the matching sheets in the list and to the current sheet when it matches; the store invariant is kept whatever the two clock readings |
| `SheetMusicStore.Store.UpdateAnnotation` | frontend/lib/store/useSheetMusicStore.ts:144-168 | the annotation's text is replaced in the matching sheets and in the current one when it matches; the store invariant is kept whatever the two clock readings |
| `SheetMusicStore.Store.DeleteAnnotation` | frontend/lib/store/useSheetMusicStore.ts:170-194 | the annotation is removed from the matching sheets and from the current one when it matches; the store invariant is kept whatever the two clock readings |
| `SheetMusicStore.ReviseTracks` | frontend/lib/store/useSheetMusicStore.ts:88-100 | a list revision and a current-sheet revision that agree up to the update time keep the current sheet tracking a listed record |
| `SheetMusicStore.DeleteKeepsTracks` | frontend/lib/store/useSheetMusicStore.ts:102-108 | after the filter the current sheet, unless it had the id, still tracks a listed record |
| `SheetMusicStore.RevisionsIgnoreTime` | frontend/lib/store/useSheetMusicStore.ts:114-194 | the update, add, retext and remove revisions stamped at two different times agree up to the update time |
| `FileUpload.Verdict` | frontend/hooks/useFileUpload.ts:35-56 | no error iff the type is accepted, the size within the limit and no stored file has the same name and size; checks run type, size, duplicate |
| `FileUpload.Accepted` | frontend/hooks/useFileUpload.ts:33-59 | accepted files are a sub-list of the batch, each passing every check |
| `FileUpload.ValidationPartition` | frontend/hooks/useFileUpload.ts:33-59 | every file is either accepted or rejected with one error |
| `FileUpload.ValidationSplits` | frontend/hooks/useFileUpload.ts:33-59 | each file is checked on its own: splitting a batch splits the results |
| `FileUpload.BatchDuplicatesAccepted` | frontend/hooks/useFileUpload.ts:49-56 | two equal new files in one batch are both accepted |
| `FileUpload.ValidateFiles` | frontend/hooks/useFileUpload.ts:23-62 | over the count limit one error and nothing valid; otherwise the accepted files and the errors, in order |
| `FileUpload.DefaultTypesAreImages` | frontend/hooks/useFileUpload.ts:14-16 | with the default types, every accepted file passes the store's image check |
| `FileUpload.UploadFiles` | frontend/hooks/useFileUpload.ts:64-88 | succeeds iff within the limit, without errors and with something valid; a failure leaves the files alone and reports the too-many or joined messages, or, with nothing valid, leaves the error alone; on success the valid files, all images, are appended in order as new scan files with the given ids and URLs and the error is cleared, while a non-image among them adds nothing and names that file; the preview cursor and processing state never change |
| `FileUpload.GetFileStats` | frontend/hooks/useFileUpload.ts:117-129 | count plus remaining slots is the maximum; more can be added iff slots remain |
| `FileUpload.CanUpload` | frontend/hooks/useFileUpload.ts:139 | one more file fits exactly when the stats say more can be added |
| `EditorHook.ZoomedIn` | frontend/hooks/useEditor.ts:49-51 | never above 2; one step up while there is room; never below 0.5 when starting at 0.5 or more |
| `EditorHook.ZoomedOut` | frontend/hooks/useEditor.ts:53-55 | never below 0.5; one step down while there is room; never above 2 when starting at 2 or less |
| `EditorHook.ZoomInTimesClamps` | frontend/hooks/useEditor.ts:49-51 | `n` presses add `n` steps, capped at 2 |
| `EditorHook.NextPageIndex` | frontend/hooks/useEditor.ts:63-67 | from a page that is not the last it moves exactly one forward; on the last page it stays; with no pages it gives -1 |
| `EditorHook.PrevPageIndex` | frontend/hooks/useEditor.ts:69-73 | one back, never before the first page |
| `EditorHook.NextThenPrev` | frontend/hooks/useEditor.ts:63-73 | forward then back returns to the page unless it was the last |
| `EditorHook.CurrentPage` | frontend/hooks/useEditor.ts:43-46 | none without a sheet or pages; otherwise the page at the cursor |
| `EditorHook.SwappedPermutes` | frontend/hooks/useEditor.ts:81 | a swap exchanges two entries, keeps the rest, and permutes the order |
| `EditorHook.SwappedTwice` | frontend/hooks/useEditor.ts:81 | swapping twice restores the order |
| `EditorHook.SwapIds` | frontend/hooks/useEditor.ts:79-81 | the in-place swap of the copied ids gives the swapped order |
| `EditorHook.MovePageUp` | frontend/hooks/useEditor.ts:76-85 | nothing on the first page; otherwise the page swaps with its predecessor and stays selected |
| `EditorHook.MovePageDown` | frontend/hooks/useEditor.ts:87-96 | nothing on the last page; otherwise the page swaps with its successor and stays selected |
| `EditorHook.PageToDelete` | frontend/hooks/useEditor.ts:98-110 | a page is deleted iff there is a sheet, a current page and more than one page |
| `EditorHook.LastPageNeverDeleted` | frontend/hooks/useEditor.ts:98-102 | the only page of a sheet is never deleted |
| `EditorHook.Editor.constructor` | frontend/hooks/useEditor.ts:17-19 | zoom 1, empty text, position (0, 0), input hidden |
| `EditorHook.Editor.ZoomIn` | frontend/hooks/useEditor.ts:49-51 | zooms in within the clamps, nothing else changes |
| `EditorHook.Editor.ZoomOut` | frontend/hooks/useEditor.ts:53-55 | zooms out within the clamps, nothing else changes |
| `EditorHook.Editor.SaveAnnotation` | frontend/hooks/useEditor.ts:146-160 | blank text, no sheet or no page do nothing; otherwise requests the annotation on the current page and clears and hides the input |
| `EditorHook.Editor.CancelAnnotation` | frontend/hooks/useEditor.ts:162-165 | clears and hides the input |

## Left out

- OpenCV, PyMuPDF and PIL are not part of this model: contour areas, polygon approximations (with their 2% perimeter tolerance), bounding rectangles, page counts and opening failures are inputs.
- The grayscale conversion, blur, Canny edge map, contour tracing, overlay drawing and buffer release of `detectDocumentEdges` are OpenCV calls and are left out. An unreadable frame is not modelled, because the code raises no error of its own for one.
- Pixel decoding, image writing, `os.makedirs`, the directory walk and file sizes are inputs or left out, as are `print` and logging.
- The deskewing rotation, template matching, note and symbol detection, and drawing helpers are left out; they are built on image library calls.
- The HTTP routes of the processing server are left out; only its file-name rules are modelled.
- Zustand's `persist` middleware, React callbacks, toasts and `useCallback` are left out.
- Browser storage is left out.
- Generated ids, object URLs and clock readings are passed in as parameters.
- `SheetMusicStore.Store.UpdateSheetMusic`: stamps every matching listed record with the one reading `listTime`, where the code reads the clock per record; this differs only when several listed records share the id, which generated ids avoid but the model does not rule out.
- The editor's store actions (`setCurrentPageIndex`, `reorderPages`, `deletePage`) are not in the sheet-music store; the editor's side of each call is returned instead.
- `handleImageClick` is left out: it reads the browser event's coordinates and is outside the modelled core.
- The `useScanState` adapters are left out.
- Floating point is modelled by reals. The zoom step of 0.1 is exact, so rounding of repeated steps is not modelled.
- `FileUpload.Megabytes` models `toFixed(1)` for exact binary quotients only, rounding halves up.
- `Text.Lower`: lower-cases ASCII only, where Python and JavaScript fold all of Unicode. The allowed extensions and `.pdf` are ASCII, so the verdicts agree for them.
- `Staffs.Staff.GetPitch`: requires a positive line spacing, because with spacing 0 the Python ledger walk never ends.
- `Staffs.Staff.constructor`: requires at least five line-row lists, because the Python constructor indexes five.
- `StafflineDetection.CreateStaffs`: requires well-shaped staffs with one extremes pair each, because the Python indexes `[4][line_width - 1]` and the matching horizontal entry.
- `BoxMerging.MergeBoxes`: requires boxes of positive width and height, because the Python overlap ratio divides by the area.
- `EditorHook.MovePageDown`: requires a non-empty page list when there is a sheet. With no pages and index 0 the TypeScript guard `0 === -1` fails, so it swaps the missing entries 0 and 1 (giving `[undefined, undefined]`) and selects index 1; the model does not describe that case.
- A pitch is a letter index and an octave, not the string that `getPitch` returns.
- `RunLengths.GetRefLengths`: an image with no rows gives the no-white-run error, where Python fails earlier on `col[0]`.
- `StafflineDetection.FindStafflineRows`: the start rows of recorded staffs are ghost, so they witness the properties but are not returned.
- Sorts are modelled as stable insertion sorts. The boxes are sorted on squared distance, which gives the same order as distance.

## Findings

| source | as written | input that shows it | evidently intended | confidence | as-written member | corrected member |
|---|---|---|---|---|---|---|
| processing/src/staff.py:166-176 | below the staff the octave drops when `note_index - 2 <= 7` (always) and when `note_index - 1 >= 7` (never) | treble clef, one-row lines at rows 10, 13, 16, 19, 22, spacing 2, image height 40: a note at row 24 (the first ledger line below) gives C3 | the octave drops when the letter index wraps below C, so row 24 gives C4 | not executed | `Staffs.StepDownAsWrittenDrift`, `Staffs.TrebleLedgerExample` | `Staffs.StepDownIsDiatonic`, `Staffs.WalkDownFalls`, `Staffs.PitchOrdered` |
| processing/src/staffline_detection.py:160-169 | the renumbering adds `line_spacing + 1` after the `line_width` rows of each line, so line `k` starts at `half + k·(lw + ls + 1)` | any staff found at row `start ≥ half` with `lw = 1`, `ls = 2`: line five is numbered at `half + 16`, while it sits at `half + 12` in the crop | line `k` starts at `half + k·(lw + ls)`, the pitch of the detected lines | not executed | `StafflineDetection.NormalizedLinesDrift` | `StafflineDetection.AlignedLinesMatch` |
