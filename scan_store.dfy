/** The web scanner's file store: the list of photographed or uploaded pages,
    the preview cursor over it and the processing status fields. Object URLs
    and file ids, produced by the browser, are parameters of the actions. */
module ScanStore {
  import opened Wrappers
  import opened Text

  /** A browser `File` as far as the store looks at it. */
  datatype SourceFile = SourceFile(name: string, mimeType: string, size: nat)

  datatype ScanFile = ScanFile(id: string, file: SourceFile, previewUrl: string,
                               uploadProgress: Option<real>, processed: Option<bool>)

  datatype ProcessingStatus = Idle | Processing | Success | Error

  predicate UniqueIds(files: seq<ScanFile>) {
    forall i, j :: 0 <= i < j < |files| ==> files[i].id != files[j].id
  }

  /** A cursor over a list: an index of the list, or 0 when the list is empty. */
  predicate CursorIn(index: int, n: nat) {
    if n == 0 then index == 0 else 0 <= index < n
  }

  // ---------------------------------------------------------------------
  // Queries

  /** `files.findIndex(f => f.id === id)`, with -1 as `None`. */
  function FindIndex(files: seq<ScanFile>, id: string): (r: Option<nat>)
    ensures r.None? <==> forall i :: 0 <= i < |files| ==> files[i].id != id
    ensures r.Some? ==> r.value < |files| && files[r.value].id == id &&
                        forall i :: 0 <= i < r.value ==> files[i].id != id
  {
    if files == [] then None
    else if files[0].id == id then Some(0)
    else match FindIndex(files[1..], id)
      case None => None
      case Some(k) => Some(k + 1)
  }

  /** `getFileById`: the first file with the id, if any. */
  function FileById(files: seq<ScanFile>, id: string): (r: Option<ScanFile>)
    ensures r.None? <==> forall i :: 0 <= i < |files| ==> files[i].id != id
    ensures r.Some? ==> r.value in files && r.value.id == id
  {
    match FindIndex(files, id)
      case None => None
      case Some(k) => Some(files[k])
  }

  /** `getTotalFileSize`: the sum of the files' sizes. */
  function TotalFileSize(files: seq<ScanFile>): (total: nat)
    ensures files == [] ==> total == 0
  {
    if files == [] then 0 else files[0].file.size + TotalFileSize(files[1..])
  }

  lemma {:induction false} TotalFileSizeAppend(a: seq<ScanFile>, b: seq<ScanFile>)
    ensures TotalFileSize(a + b) == TotalFileSize(a) + TotalFileSize(b)
  {
    if a == [] {
      assert a + b == b;
    } else {
      assert (a + b)[0] == a[0] && (a + b)[1..] == a[1..] + b;
      TotalFileSizeAppend(a[1..], b);
    }
  }

  predicate IsProcessed(f: ScanFile) {
    f.processed == Some(true)
  }

  /** `getProcessedFilesCount`: how many files are flagged processed. */
  function ProcessedFilesCount(files: seq<ScanFile>): (n: nat)
    ensures n <= |files|
    ensures n == |files| <==> forall i :: 0 <= i < |files| ==> IsProcessed(files[i])
  {
    if files == [] then 0
    else (if IsProcessed(files[0]) then 1 else 0) + ProcessedFilesCount(files[1..])
  }

  // ---------------------------------------------------------------------
  // Per-file updates

  /** The `map` of `updateFileProgress`. */
  function WithProgress(files: seq<ScanFile>, id: string, progress: real): (r: seq<ScanFile>)
    ensures |r| == |files|
    ensures forall i :: 0 <= i < |files| ==> r[i].id == files[i].id && r[i].file == files[i].file
  {
    if files == [] then []
    else (if files[0].id == id then [files[0].(uploadProgress := Some(progress))] else [files[0]])
         + WithProgress(files[1..], id, progress)
  }

  /** The `map` of `markFileAsProcessed`. */
  function MarkedProcessed(files: seq<ScanFile>, id: string): (r: seq<ScanFile>)
    ensures |r| == |files|
    ensures forall i :: 0 <= i < |files| ==> r[i].id == files[i].id && r[i].file == files[i].file
  {
    if files == [] then []
    else (if files[0].id == id then [files[0].(processed := Some(true))] else [files[0]])
         + MarkedProcessed(files[1..], id)
  }

  /** Only the file with the id changes, and only in its progress. */
  lemma {:induction false} WithProgressOnlyMatching(files: seq<ScanFile>, id: string, progress: real, i: nat)
    requires i < |files|
    ensures files[i].id == id ==> WithProgress(files, id, progress)[i] == files[i].(uploadProgress := Some(progress))
    ensures files[i].id != id ==> WithProgress(files, id, progress)[i] == files[i]
  {
    if i > 0 {
      WithProgressOnlyMatching(files[1..], id, progress, i - 1);
    }
  }

  /** Only the file with the id changes, and only in its processed flag. */
  lemma {:induction false} MarkedProcessedOnlyMatching(files: seq<ScanFile>, id: string, i: nat)
    requires i < |files|
    ensures files[i].id == id ==> MarkedProcessed(files, id)[i] == files[i].(processed := Some(true))
    ensures files[i].id != id ==> MarkedProcessed(files, id)[i] == files[i]
  {
    if i > 0 {
      MarkedProcessedOnlyMatching(files[1..], id, i - 1);
    }
  }

  /** A progress update never changes the processed count. */
  lemma {:induction false} WithProgressKeepsCount(files: seq<ScanFile>, id: string, progress: real)
    ensures ProcessedFilesCount(WithProgress(files, id, progress)) == ProcessedFilesCount(files)
  {
    if files != [] {
      WithProgressKeepsCount(files[1..], id, progress);
    }
  }

  /** Marking the one file with an id that was not yet processed adds one to
      the processed count; marking an unknown id adds nothing. */
  lemma {:induction false} MarkedProcessedCount(files: seq<ScanFile>, id: string)
    requires UniqueIds(files)
    ensures FindIndex(files, id).None? ==>
              ProcessedFilesCount(MarkedProcessed(files, id)) == ProcessedFilesCount(files)
    ensures FindIndex(files, id).Some? ==>
              ProcessedFilesCount(MarkedProcessed(files, id)) ==
              ProcessedFilesCount(files) + (if IsProcessed(files[FindIndex(files, id).value]) then 0 else 1)
  {
    if files != [] && files[0].id == id {
      MarkedFirst(files, id);
    } else if files != [] {
      var head := files[0];
      var tail := files[1..];
      var h := if IsProcessed(head) then 1 else 0;
      UniqueTail(files);
      MarkedProcessedCount(tail, id);
      assert MarkedProcessed(files, id) == [head] + MarkedProcessed(tail, id);
      CountCons(head, MarkedProcessed(tail, id));
      assert ProcessedFilesCount(MarkedProcessed(files, id)) == h + ProcessedFilesCount(MarkedProcessed(tail, id));
      assert ProcessedFilesCount(files) == h + ProcessedFilesCount(tail);
      var k := FindIndex(tail, id);
      assert FindIndex(files, id) == if k.None? then None else Some(k.value + 1);
      if k.Some? {
        assert files[k.value + 1] == tail[k.value];
      }
    }
  }

  /** Marking the first file: the rest, which cannot hold the id, is unchanged. */
  lemma MarkedFirst(files: seq<ScanFile>, id: string)
    requires UniqueIds(files) && files != [] && files[0].id == id
    ensures FindIndex(files, id) == Some(0)
    ensures ProcessedFilesCount(MarkedProcessed(files, id)) ==
            ProcessedFilesCount(files) + (if IsProcessed(files[0]) then 0 else 1)
  {
    var head := files[0];
    var tail := files[1..];
    forall i | 0 <= i < |tail| ensures tail[i].id != id {
      assert tail[i] == files[i + 1];
    }
    MarkedProcessedAbsent(tail, id);
    var marked := head.(processed := Some(true));
    assert MarkedProcessed(files, id) == [marked] + tail;
    CountCons(marked, tail);
    assert ProcessedFilesCount(MarkedProcessed(files, id)) == 1 + ProcessedFilesCount(tail);
    assert ProcessedFilesCount(files) == (if IsProcessed(head) then 1 else 0) + ProcessedFilesCount(tail);
  }

  /** The tail of a list with unique ids has unique ids. */
  lemma UniqueTail(files: seq<ScanFile>)
    requires UniqueIds(files) && files != []
    ensures UniqueIds(files[1..])
  {
    forall i, j | 0 <= i < j < |files[1..]| ensures files[1..][i].id != files[1..][j].id {
      assert files[1..][i] == files[i + 1] && files[1..][j] == files[j + 1];
    }
  }

  lemma CountCons(f: ScanFile, rest: seq<ScanFile>)
    ensures ProcessedFilesCount([f] + rest) == (if IsProcessed(f) then 1 else 0) + ProcessedFilesCount(rest)
  {
    assert ([f] + rest)[1..] == rest;
  }

  /** Marking an id no file has changes nothing. */
  lemma {:induction false} MarkedProcessedAbsent(files: seq<ScanFile>, id: string)
    requires forall i :: 0 <= i < |files| ==> files[i].id != id
    ensures MarkedProcessed(files, id) == files
  {
    if files != [] {
      var tail := files[1..];
      assert forall i :: 0 <= i < |tail| ==> tail[i] == files[i + 1];
      MarkedProcessedAbsent(tail, id);
      assert files == [files[0]] + tail;
    }
  }

  // ---------------------------------------------------------------------
  // Removal

  /** The `filter(f => f.id !== id)` of `removeFile`. */
  function WithoutId(files: seq<ScanFile>, id: string): (r: seq<ScanFile>)
    ensures |r| <= |files|
    ensures forall i :: 0 <= i < |r| ==> r[i].id != id
  {
    if files == [] then []
    else (if files[0].id == id then [] else [files[0]]) + WithoutId(files[1..], id)
  }

  /** With unique ids, the filter removes exactly the one file at the found index. */
  lemma {:induction false} WithoutUniqueId(files: seq<ScanFile>, id: string, k: nat)
    requires UniqueIds(files) && k < |files| && files[k].id == id
    ensures WithoutId(files, id) == files[..k] + files[k + 1..]
  {
    assert UniqueIds(files[1..]) by {
      forall i, j | 0 <= i < j < |files[1..]| ensures files[1..][i].id != files[1..][j].id {
        assert files[1..][i] == files[i + 1] && files[1..][j] == files[j + 1];
      }
    }
    if k == 0 {
      NoIdKept(files[1..], id);
    } else {
      WithoutUniqueId(files[1..], id, k - 1);
      assert files[..k] == [files[0]] + files[1..][..k - 1];
      assert files[k + 1..] == files[1..][k..];
    }
  }

  lemma {:induction false} NoIdKept(files: seq<ScanFile>, id: string)
    requires forall i :: 0 <= i < |files| ==> files[i].id != id
    ensures WithoutId(files, id) == files
  {
    if files != [] {
      NoIdKept(files[1..], id);
    }
  }

  /** Removing one element keeps the remaining ids unique. */
  lemma DeleteKeepsUnique(files: seq<ScanFile>, k: nat)
    requires UniqueIds(files) && k < |files|
    ensures UniqueIds(files[..k] + files[k + 1..])
  {
    var r := files[..k] + files[k + 1..];
    forall i, j | 0 <= i < j < |r| ensures r[i].id != r[j].id {
      var i' := if i < k then i else i + 1;
      var j' := if j < k then j else j + 1;
      assert r[i] == files[i'] && r[j] == files[j'];
    }
  }

  /** The preview index rule of `removeFile`, given the removed index, the
      old cursor and the length of the remaining list. */
  function PreviewAfterRemove(fileIndex: nat, current: int, remaining: nat): int {
    if fileIndex <= current && current > 0 then current - 1
    else if remaining == 0 then 0
    else if current >= remaining then remaining - 1
    else current
  }

  /** After removing a file, the cursor is on the remaining list, and when
      another file was removed it stays on the file it showed. */
  lemma RemoveTracksPreview<T>(s: seq<T>, k: nat, current: int)
    requires k < |s| && CursorIn(current, |s|)
    ensures var p := PreviewAfterRemove(k, current, |s| - 1);
            CursorIn(p, |s| - 1) &&
            (k != current ==> p < |s| - 1 && (s[..k] + s[k + 1..])[p] == s[current])
  {
  }

  // ---------------------------------------------------------------------
  // Moving

  /** The two splices of `moveFile`: take the file out at `from`, put it back
      in at `to`. */
  function Moved<T>(s: seq<T>, from: nat, to: nat): (r: seq<T>)
    requires from < |s| && to < |s|
    ensures |r| == |s|
  {
    var rest := s[..from] + s[from + 1..];
    rest[..to] + [s[from]] + rest[to..]
  }

  /** The moved file lands at `to`, and dropping it from both lists leaves
      the other files in their original order. */
  lemma MovedPlacement<T>(s: seq<T>, from: nat, to: nat)
    requires from < |s| && to < |s|
    ensures Moved(s, from, to)[to] == s[from]
    ensures Moved(s, from, to)[..to] + Moved(s, from, to)[to + 1..] == s[..from] + s[from + 1..]
  {
    var rest := s[..from] + s[from + 1..];
    var r := Moved(s, from, to);
    assert r[..to] == rest[..to];
    assert r[to + 1..] == rest[to..];
  }

  /** Moving a file permutes the list. */
  lemma MovedPermutation<T>(s: seq<T>, from: nat, to: nat)
    requires from < |s| && to < |s|
    ensures multiset(Moved(s, from, to)) == multiset(s)
  {
    var rest := s[..from] + s[from + 1..];
    assert s == s[..from] + [s[from]] + s[from + 1..];
    assert multiset(s) == multiset(rest) + multiset{s[from]};
    assert rest == rest[..to] + rest[to..];
    assert multiset(rest) == multiset(rest[..to]) + multiset(rest[to..]);
  }

  /** The preview index rule of `moveFile`. */
  function PreviewAfterMove(from: nat, to: nat, current: int): int {
    if current == from then to
    else if from < current && to >= current then current - 1
    else if from > current && to <= current then current + 1
    else current
  }

  /** The preview index rule keeps the preview on the file it showed. */
  lemma MovedTracksPreview<T>(s: seq<T>, from: nat, to: nat, current: nat)
    requires from < |s| && to < |s| && current < |s|
    ensures PreviewAfterMove(from, to, current) < |s|
    ensures Moved(s, from, to)[PreviewAfterMove(from, to, current)] == s[current]
  {
    var rest := s[..from] + s[from + 1..];
    var r := Moved(s, from, to);
    var p := PreviewAfterMove(from, to, current);
    if current != from {
      var q := if current < from then current else current - 1;
      assert rest[q] == s[current];
      if q < to {
        assert p == q;
        assert r[q] == rest[q];
      } else {
        assert p == q + 1;
        assert r[q + 1] == rest[q];
      }
    }
  }

  lemma MovedKeepsUnique(files: seq<ScanFile>, from: nat, to: nat)
    requires UniqueIds(files) && from < |files| && to < |files|
    ensures UniqueIds(Moved(files, from, to))
  {
    var r := Moved(files, from, to);
    var rest := files[..from] + files[from + 1..];
    forall i, j | 0 <= i < j < |r| ensures r[i].id != r[j].id {
      var i' := Source(from, to, i);
      var j' := Source(from, to, j);
      MovedSource(files, from, to, i);
      MovedSource(files, from, to, j);
    }
  }

  /** Where element `i` of the moved list came from. */
  function Source(from: nat, to: nat, i: nat): nat {
    if i == to then from
    else
      var q := if i < to then i else i - 1;
      if q < from then q else q + 1
  }

  lemma MovedSource<T>(s: seq<T>, from: nat, to: nat, i: nat)
    requires from < |s| && to < |s| && i < |s|
    ensures Source(from, to, i) < |s| && Moved(s, from, to)[i] == s[Source(from, to, i)]
  {
    var rest := s[..from] + s[from + 1..];
    if i != to {
      var q := if i < to then i else i - 1;
      assert Moved(s, from, to)[i] == rest[q];
    }
  }

  // ---------------------------------------------------------------------
  // Adding

  predicate IsImage(f: SourceFile) {
    StartsWith(f.mimeType, "image/")
  }

  /** The first file that is not an image: the one whose rejection the
      `Promise.all` of `addFiles` reports. */
  function FirstNonImage(fs: seq<SourceFile>): (r: Option<nat>)
    ensures r.None? <==> forall k :: 0 <= k < |fs| ==> IsImage(fs[k])
    ensures r.Some? ==> r.value < |fs| && !IsImage(fs[r.value]) &&
                        forall k :: 0 <= k < r.value ==> IsImage(fs[k])
  {
    if fs == [] then None
    else if !IsImage(fs[0]) then Some(0)
    else match FirstNonImage(fs[1..])
      case None => None
      case Some(k) => Some(k + 1)
  }

  function NotAnImage(name: string): string {
    "File " + name + " is not a valid image"
  }

  function NewScanFile(f: SourceFile, id: string, url: string): ScanFile {
    ScanFile(id, f, url, Some(0.0), Some(false))
  }

  /** The ids handed to `addFiles` are new: distinct from each other and from
      every id in the store (the model of `crypto.randomUUID`). */
  predicate FreshIds(files: seq<ScanFile>, ids: seq<string>) {
    (forall i, j :: 0 <= i < j < |ids| ==> ids[i] != ids[j]) &&
    (forall i, j :: 0 <= i < |files| && 0 <= j < |ids| ==> files[i].id != ids[j])
  }

  class Store {
    var files: seq<ScanFile>
    var currentPreviewIndex: int
    var processingStatus: ProcessingStatus
    var processingProgress: Option<real>
    var isDragging: bool
    var isUploading: bool
    var error: Option<string>

    /** Ids are unique and the preview cursor is on a file (or 0 when there is none). */
    predicate Valid()
      reads this
    {
      UniqueIds(files) && CursorIn(currentPreviewIndex, |files|)
    }

    predicate Initial()
      reads this
    {
      files == [] && currentPreviewIndex == 0 && processingStatus == Idle &&
      processingProgress == None && !isDragging && !isUploading && error == None
    }

    constructor()
      ensures Initial() && Valid()
    {
      files := [];
      currentPreviewIndex := 0;
      processingStatus := Idle;
      processingProgress := None;
      isDragging := false;
      isUploading := false;
      error := None;
    }

    /** `addFiles`: all files or none. Every file must have an `image/` type;
        the first one that does not names the error and nothing is added. */
    method AddFiles(newFiles: seq<SourceFile>, ids: seq<string>, urls: seq<string>)
      requires Valid()
      requires |ids| == |newFiles| && |urls| == |newFiles| && FreshIds(files, ids)
      modifies this
      ensures Valid() && !isUploading
      ensures FirstNonImage(newFiles).None? ==>
                |files| == old(|files|) + |newFiles| && files[..old(|files|)] == old(files) &&
                (forall k :: 0 <= k < |newFiles| ==>
                   files[old(|files|) + k] == NewScanFile(newFiles[k], ids[k], urls[k])) &&
                error == None
      ensures FirstNonImage(newFiles).Some? ==>
                files == old(files) && error == Some(NotAnImage(newFiles[FirstNonImage(newFiles).value].name))
      ensures currentPreviewIndex == old(currentPreviewIndex) && processingStatus == old(processingStatus)
      ensures processingProgress == old(processingProgress) && isDragging == old(isDragging)
    {
      isUploading := true;
      error := None;
      var scanFiles: seq<ScanFile> := [];
      var i := 0;
      while i < |newFiles|
        invariant 0 <= i <= |newFiles| && |scanFiles| == i
        invariant forall k :: 0 <= k < i ==> IsImage(newFiles[k])
        invariant forall k :: 0 <= k < i ==> scanFiles[k] == NewScanFile(newFiles[k], ids[k], urls[k])
        invariant files == old(files) && currentPreviewIndex == old(currentPreviewIndex)
        invariant processingStatus == old(processingStatus) && processingProgress == old(processingProgress)
        invariant isDragging == old(isDragging) && error == None
      {
        if !StartsWith(newFiles[i].mimeType, "image/") {
          isUploading := false;
          error := Some(NotAnImage(newFiles[i].name));
          return;
        }
        scanFiles := scanFiles + [NewScanFile(newFiles[i], ids[i], urls[i])];
        i := i + 1;
      }
      AppendKeepsUnique(files, scanFiles, ids);
      files := files + scanFiles;
      isUploading := false;
    }

    /** `removeFile`: drops the file with the id and pulls the cursor back
        when the removed file was at or before it. */
    method RemoveFile(id: string)
      requires Valid()
      modifies this
      ensures Valid()
      ensures FindIndex(old(files), id).None? ==>
                files == old(files) && currentPreviewIndex == old(currentPreviewIndex)
      ensures FindIndex(old(files), id).Some? ==>
                var k := FindIndex(old(files), id).value;
                files == old(files)[..k] + old(files)[k + 1..] &&
                currentPreviewIndex == PreviewAfterRemove(k, old(currentPreviewIndex), |files|)
      ensures FindIndex(old(files), id).Some? && FindIndex(old(files), id).value != old(currentPreviewIndex) ==>
                files[currentPreviewIndex] == old(files)[old(currentPreviewIndex)]
      ensures processingStatus == old(processingStatus) && processingProgress == old(processingProgress)
      ensures isDragging == old(isDragging) && isUploading == old(isUploading) && error == old(error)
    {
      var found := FindIndex(files, id);
      if found.None? {
        return;
      }
      var fileIndex := found.value;
      var newFiles := WithoutId(files, id);
      WithoutUniqueId(files, id, fileIndex);
      DeleteKeepsUnique(files, fileIndex);
      RemoveTracksPreview(files, fileIndex, currentPreviewIndex);
      currentPreviewIndex := PreviewAfterRemove(fileIndex, currentPreviewIndex, |newFiles|);
      files := newFiles;
    }

    /** `moveFile`: out-of-range indices change nothing; otherwise the file
        moves and the preview stays on the file it showed. */
    method MoveFile(from: int, to: int)
      requires Valid()
      modifies this
      ensures Valid()
      ensures !(0 <= from < old(|files|) && 0 <= to < old(|files|)) ==>
                files == old(files) && currentPreviewIndex == old(currentPreviewIndex)
      ensures 0 <= from < old(|files|) && 0 <= to < old(|files|) ==>
                files == Moved(old(files), from, to) &&
                currentPreviewIndex == PreviewAfterMove(from, to, old(currentPreviewIndex)) &&
                files[currentPreviewIndex] == old(files)[old(currentPreviewIndex)]
      ensures processingStatus == old(processingStatus) && processingProgress == old(processingProgress)
      ensures isDragging == old(isDragging) && isUploading == old(isUploading) && error == old(error)
    {
      if from < 0 || from >= |files| || to < 0 || to >= |files| {
        return;
      }
      MovedTracksPreview(files, from, to, currentPreviewIndex);
      MovedKeepsUnique(files, from, to);
      var newFiles := Moved(files, from, to);
      currentPreviewIndex := PreviewAfterMove(from, to, currentPreviewIndex);
      files := newFiles;
    }

    method MoveFileLeft(index: int)
      requires Valid()
      modifies this
      ensures Valid()
      ensures 0 < index < old(|files|) ==> files == Moved(old(files), index, index - 1)
      ensures !(0 < index < old(|files|)) ==> files == old(files)
      ensures files != [] ==> files[currentPreviewIndex] == old(files)[old(currentPreviewIndex)]
      ensures processingStatus == old(processingStatus) && processingProgress == old(processingProgress)
      ensures isDragging == old(isDragging) && isUploading == old(isUploading) && error == old(error)
    {
      if index > 0 {
        MoveFile(index, index - 1);
      }
    }

    method MoveFileRight(index: int)
      requires Valid()
      modifies this
      ensures Valid()
      ensures 0 <= index < old(|files|) - 1 ==> files == Moved(old(files), index, index + 1)
      ensures !(0 <= index < old(|files|) - 1) ==> files == old(files)
      ensures files != [] ==> files[currentPreviewIndex] == old(files)[old(currentPreviewIndex)]
      ensures processingStatus == old(processingStatus) && processingProgress == old(processingProgress)
      ensures isDragging == old(isDragging) && isUploading == old(isUploading) && error == old(error)
    {
      if index < |files| - 1 {
        MoveFile(index, index + 1);
      }
    }

    /** `clearAllFiles`: empties the list and the processing fields, but not
        the drag and upload flags. */
    method ClearAllFiles()
      modifies this
      ensures Valid()
      ensures files == [] && currentPreviewIndex == 0 && processingStatus == Idle
      ensures processingProgress == None && error == None
      ensures isDragging == old(isDragging) && isUploading == old(isUploading)
    {
      files := [];
      currentPreviewIndex := 0;
      processingStatus := Idle;
      processingProgress := None;
      error := None;
    }

    method UpdateFileProgress(id: string, progress: real)
      requires Valid()
      modifies this
      ensures Valid()
      ensures files == WithProgress(old(files), id, progress)
      ensures ProcessedFilesCount(files) == ProcessedFilesCount(old(files))
      ensures currentPreviewIndex == old(currentPreviewIndex) && processingStatus == old(processingStatus)
      ensures processingProgress == old(processingProgress) && isDragging == old(isDragging)
      ensures isUploading == old(isUploading) && error == old(error)
    {
      WithProgressKeepsCount(files, id, progress);
      files := WithProgress(files, id, progress);
    }

    method MarkFileAsProcessed(id: string)
      requires Valid()
      modifies this
      ensures Valid()
      ensures files == MarkedProcessed(old(files), id)
      ensures currentPreviewIndex == old(currentPreviewIndex) && processingStatus == old(processingStatus)
      ensures processingProgress == old(processingProgress) && isDragging == old(isDragging)
      ensures isUploading == old(isUploading) && error == old(error)
    {
      files := MarkedProcessed(files, id);
    }

    /** `setCurrentPreviewIndex` ignores an index outside the list. */
    method SetCurrentPreviewIndex(index: int)
      requires Valid()
      modifies this
      ensures Valid()
      ensures 0 <= index < |files| ==> currentPreviewIndex == index
      ensures !(0 <= index < |files|) ==> currentPreviewIndex == old(currentPreviewIndex)
      ensures files == old(files) && processingStatus == old(processingStatus)
      ensures processingProgress == old(processingProgress) && isDragging == old(isDragging)
      ensures isUploading == old(isUploading) && error == old(error)
    {
      if index >= 0 && index < |files| {
        currentPreviewIndex := index;
      }
    }

    method GoToNextPreview()
      requires Valid()
      modifies this
      ensures Valid()
      ensures old(currentPreviewIndex) < |files| - 1 ==> currentPreviewIndex == old(currentPreviewIndex) + 1
      ensures old(currentPreviewIndex) >= |files| - 1 ==> currentPreviewIndex == old(currentPreviewIndex)
      ensures files == old(files) && processingStatus == old(processingStatus)
      ensures processingProgress == old(processingProgress) && isDragging == old(isDragging)
      ensures isUploading == old(isUploading) && error == old(error)
    {
      if currentPreviewIndex < |files| - 1 {
        currentPreviewIndex := currentPreviewIndex + 1;
      }
    }

    method GoToPreviousPreview()
      requires Valid()
      modifies this
      ensures Valid()
      ensures old(currentPreviewIndex) > 0 ==> currentPreviewIndex == old(currentPreviewIndex) - 1
      ensures old(currentPreviewIndex) == 0 ==> currentPreviewIndex == 0
      ensures files == old(files) && processingStatus == old(processingStatus)
      ensures processingProgress == old(processingProgress) && isDragging == old(isDragging)
      ensures isUploading == old(isUploading) && error == old(error)
    {
      if currentPreviewIndex > 0 {
        currentPreviewIndex := currentPreviewIndex - 1;
      }
    }

    method SetProcessingStatus(status: ProcessingStatus)
      modifies this
      ensures processingStatus == status
      ensures files == old(files) && currentPreviewIndex == old(currentPreviewIndex)
      ensures processingProgress == old(processingProgress) && isDragging == old(isDragging)
      ensures isUploading == old(isUploading) && error == old(error)
    {
      processingStatus := status;
    }

    /** `setProcessingProgress` clamps a given value to [0, 100]. */
    method SetProcessingProgress(progress: Option<real>)
      modifies this
      ensures progress.None? ==> processingProgress == None
      ensures progress.Some? ==> processingProgress == Some(ClampPercent(progress.value))
      ensures files == old(files) && currentPreviewIndex == old(currentPreviewIndex)
      ensures processingStatus == old(processingStatus) && isDragging == old(isDragging)
      ensures isUploading == old(isUploading) && error == old(error)
    {
      if progress.None? {
        processingProgress := None;
      } else {
        processingProgress := Some(ClampPercent(progress.value));
      }
    }

    method SetIsDragging(dragging: bool)
      modifies this
      ensures isDragging == dragging
      ensures files == old(files) && currentPreviewIndex == old(currentPreviewIndex)
      ensures processingStatus == old(processingStatus) && processingProgress == old(processingProgress)
      ensures isUploading == old(isUploading) && error == old(error)
    {
      isDragging := dragging;
    }

    method SetIsUploading(uploading: bool)
      modifies this
      ensures isUploading == uploading
      ensures files == old(files) && currentPreviewIndex == old(currentPreviewIndex)
      ensures processingStatus == old(processingStatus) && processingProgress == old(processingProgress)
      ensures isDragging == old(isDragging) && error == old(error)
    {
      isUploading := uploading;
    }

    method SetError(e: Option<string>)
      modifies this
      ensures error == e
      ensures files == old(files) && currentPreviewIndex == old(currentPreviewIndex)
      ensures processingStatus == old(processingStatus) && processingProgress == old(processingProgress)
      ensures isDragging == old(isDragging) && isUploading == old(isUploading)
    {
      error := e;
    }

    /** `reset` merges the initial state into the store: the five fields it
        names go back to their initial values, while `processingProgress`
        and `error`, which it does not name, keep theirs. */
    method Reset()
      modifies this
      ensures files == [] && currentPreviewIndex == 0 && processingStatus == Idle
      ensures !isDragging && !isUploading
      ensures processingProgress == old(processingProgress) && error == old(error)
      ensures Valid()
    {
      files := [];
      currentPreviewIndex := 0;
      processingStatus := Idle;
      isDragging := false;
      isUploading := false;
    }
  }

  /** `Math.max(0, Math.min(100, p))`. */
  function ClampPercent(p: real): (r: real)
    ensures 0.0 <= r <= 100.0
    ensures 0.0 <= p <= 100.0 ==> r == p
    ensures p < 0.0 ==> r == 0.0
    ensures p > 100.0 ==> r == 100.0
  {
    if p > 100.0 then 100.0 else if p < 0.0 then 0.0 else p
  }

  /** Appending files with fresh ids keeps the ids unique. */
  lemma AppendKeepsUnique(files: seq<ScanFile>, added: seq<ScanFile>, ids: seq<string>)
    requires UniqueIds(files) && FreshIds(files, ids)
    requires |added| == |ids| && forall k :: 0 <= k < |added| ==> added[k].id == ids[k]
    ensures UniqueIds(files + added)
  {
    var r := files + added;
    forall i, j | 0 <= i < j < |r| ensures r[i].id != r[j].id {
      if j < |files| {
      } else if i < |files| {
        assert r[j] == added[j - |files|];
      } else {
        assert r[i] == added[i - |files|] && r[j] == added[j - |files|];
      }
    }
  }
}
