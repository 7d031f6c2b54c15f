/** The upload hook of the web scanner: checks a batch of picked or dropped
    files against the count limit, the accepted MIME types, the size limit
    and the files already in the store, and hands the survivors to the
    store. The success and error callbacks are left to the caller. */
module FileUpload {
  import opened Wrappers
  import opened Text
  import opened ScanStore

  datatype Options = Options(maxFileSize: nat, maxFiles: nat, acceptedFileTypes: seq<string>)

  const MiB: nat := 1024 * 1024

  /** The hook's defaults: 10 MB per file, 20 files, five image types. */
  const DefaultOptions: Options :=
    Options(10 * MiB, 20, ["image/jpeg", "image/jpg", "image/png", "image/webp", "image/tiff"])

  datatype UploadError =
    | TooManyFiles(maxFiles: nat, current: nat, adding: nat)
    | UnsupportedType(name: string, mimeType: string)
    | TooLarge(name: string, size: nat, maxFileSize: nat)
    | AlreadyAdded(name: string)

  /** `(n / (1024 * 1024)).toFixed(1)`: the division is exact in binary
      floating point, and `toFixed` rounds an exact half up. */
  function Megabytes(n: nat): string {
    var tenths := (n * 10 + MiB / 2) / MiB;
    Decimal(tenths / 10) + "." + [DigitChar(tenths % 10)]
  }

  function Message(e: UploadError): string {
    match e
      case TooManyFiles(m, c, a) =>
        "Maximum " + Decimal(m) + " files allowed. Current: " + Decimal(c) + ", trying to add: " + Decimal(a)
      case UnsupportedType(n, t) => "File \"" + n + "\" has unsupported type: " + t
      case TooLarge(n, s, m) => "File \"" + n + "\" is too large: " + Megabytes(s) + "MB (max: " + Megabytes(m) + "MB)"
      case AlreadyAdded(n) => "File \"" + n + "\" is already added"
  }

  function Messages(errors: seq<UploadError>): (r: seq<string>)
    ensures |r| == |errors|
  {
    if errors == [] then [] else [Message(errors[0])] + Messages(errors[1..])
  }

  /** `files.some(...)`: a stored file with the same name and size. */
  predicate IsDuplicate(existing: seq<ScanFile>, f: SourceFile) {
    exists k :: 0 <= k < |existing| && existing[k].file.name == f.name && existing[k].file.size == f.size
  }

  /** The first check a file fails, in the order type, size, duplicate. */
  function Verdict(opts: Options, existing: seq<ScanFile>, f: SourceFile): (r: Option<UploadError>)
    ensures r.None? <==> f.mimeType in opts.acceptedFileTypes && f.size <= opts.maxFileSize &&
                         !IsDuplicate(existing, f)
    ensures r.Some? && r.value.TooLarge? ==> f.mimeType in opts.acceptedFileTypes && f.size > opts.maxFileSize
    ensures r.Some? && r.value.AlreadyAdded? ==> f.mimeType in opts.acceptedFileTypes && f.size <= opts.maxFileSize
  {
    if f.mimeType !in opts.acceptedFileTypes then Some(UnsupportedType(f.name, f.mimeType))
    else if f.size > opts.maxFileSize then Some(TooLarge(f.name, f.size, opts.maxFileSize))
    else if IsDuplicate(existing, f) then Some(AlreadyAdded(f.name))
    else None
  }

  /** The files of a batch under the count limit that pass every check, in order. */
  function Accepted(opts: Options, existing: seq<ScanFile>, fs: seq<SourceFile>): (r: seq<SourceFile>)
    ensures |r| <= |fs|
    ensures forall k :: 0 <= k < |r| ==> Verdict(opts, existing, r[k]).None?
  {
    if fs == [] then []
    else
      var f := fs[|fs| - 1];
      Accepted(opts, existing, fs[..|fs| - 1]) + (if Verdict(opts, existing, f).None? then [f] else [])
  }

  /** The errors of a batch under the count limit, one per failing file, in order. */
  function Rejections(opts: Options, existing: seq<ScanFile>, fs: seq<SourceFile>): (r: seq<UploadError>)
    ensures |r| <= |fs|
  {
    if fs == [] then []
    else
      var v := Verdict(opts, existing, fs[|fs| - 1]);
      Rejections(opts, existing, fs[..|fs| - 1]) + (if v.Some? then [v.value] else [])
  }

  /** Every file of the batch is either accepted or rejected with exactly one error. */
  lemma {:induction false} ValidationPartition(opts: Options, existing: seq<ScanFile>, fs: seq<SourceFile>)
    ensures |Accepted(opts, existing, fs)| + |Rejections(opts, existing, fs)| == |fs|
  {
    if fs != [] {
      ValidationPartition(opts, existing, fs[..|fs| - 1]);
    }
  }

  /** The checks of one file never look at the rest of the batch: splitting
      a batch splits its accepted files and its errors, in order. */
  lemma {:induction false} ValidationSplits(opts: Options, existing: seq<ScanFile>, a: seq<SourceFile>, b: seq<SourceFile>)
    ensures Accepted(opts, existing, a + b) == Accepted(opts, existing, a) + Accepted(opts, existing, b)
    ensures Rejections(opts, existing, a + b) == Rejections(opts, existing, a) + Rejections(opts, existing, b)
    decreases |b|
  {
    if b == [] {
      assert a + b == a;
    } else {
      assert (a + b)[..|a + b| - 1] == a + b[..|b| - 1];
      ValidationSplits(opts, existing, a, b[..|b| - 1]);
    }
  }

  /** Two identical files in one batch are both accepted when neither is in
      the store: duplicates are only looked for among stored files. */
  lemma BatchDuplicatesAccepted(opts: Options, existing: seq<ScanFile>, f: SourceFile)
    requires Verdict(opts, existing, f).None?
    ensures Accepted(opts, existing, [f, f]) == [f, f]
    ensures Rejections(opts, existing, [f, f]) == []
  {
    assert [f, f][..1] == [f];
    assert [f][..0] == [];
  }

  /** `validateFiles`: over the count limit, one error and nothing valid;
      otherwise each file is checked on its own. */
  method ValidateFiles(opts: Options, existing: seq<ScanFile>, incoming: seq<SourceFile>)
    returns (valid: seq<SourceFile>, errors: seq<UploadError>)
    ensures |existing| + |incoming| > opts.maxFiles ==>
              valid == [] && errors == [TooManyFiles(opts.maxFiles, |existing|, |incoming|)]
    ensures |existing| + |incoming| <= opts.maxFiles ==>
              valid == Accepted(opts, existing, incoming) && errors == Rejections(opts, existing, incoming)
  {
    valid := [];
    errors := [];
    if |existing| + |incoming| > opts.maxFiles {
      errors := errors + [TooManyFiles(opts.maxFiles, |existing|, |incoming|)];
      return;
    }
    for i := 0 to |incoming|
      invariant valid == Accepted(opts, existing, incoming[..i])
      invariant errors == Rejections(opts, existing, incoming[..i])
    {
      var file := incoming[i];
      assert incoming[..i + 1][..i] == incoming[..i];
      if file.mimeType !in opts.acceptedFileTypes {
        errors := errors + [UnsupportedType(file.name, file.mimeType)];
        continue;
      }
      if file.size > opts.maxFileSize {
        errors := errors + [TooLarge(file.name, file.size, opts.maxFileSize)];
        continue;
      }
      var isDuplicate := exists k :: 0 <= k < |existing| &&
                           existing[k].file.name == file.name && existing[k].file.size == file.size;
      if isDuplicate {
        errors := errors + [AlreadyAdded(file.name)];
        continue;
      }
      valid := valid + [file];
    }
    assert incoming[..|incoming|] == incoming;
  }

  /** Every accepted type of the defaults is an `image/` type, so the store
      takes every file that passes the default checks. */
  lemma DefaultTypesAreImages(existing: seq<ScanFile>, fs: seq<SourceFile>)
    ensures FirstNonImage(Accepted(DefaultOptions, existing, fs)).None?
  {
    var r := Accepted(DefaultOptions, existing, fs);
    forall k | 0 <= k < |r| ensures IsImage(r[k]) {
      var t := r[k].mimeType;
      assert t in DefaultOptions.acceptedFileTypes;
      if t == "image/jpeg" {
        assert t[..6] == "image/";
      } else if t == "image/jpg" {
        assert t[..6] == "image/";
      } else if t == "image/png" {
        assert t[..6] == "image/";
      } else if t == "image/webp" {
        assert t[..6] == "image/";
      } else {
        assert t == "image/tiff";
        assert t[..6] == "image/";
      }
    }
  }

  /** `uploadFiles`: any error refuses the whole batch and is reported in
      the store; an empty valid list adds nothing; otherwise the valid files
      go to the store's `addFiles`, which adds them all or, when one is not an
      image, none and names that file in its error; it reports its own
      failures, so the upload counts as done. `ids` and `urls` are the store's fresh ids and
      object URLs for the files that are added. */
  method UploadFiles(store: Store, opts: Options, incoming: seq<SourceFile>, ids: seq<string>, urls: seq<string>)
    returns (success: bool)
    requires store.Valid()
    requires |ids| == |incoming| && |urls| == |incoming| && FreshIds(store.files, ids)
    modifies store
    ensures store.Valid()
    ensures success <==> old(|store.files|) + |incoming| <= opts.maxFiles &&
                         Rejections(opts, old(store.files), incoming) == [] &&
                         Accepted(opts, old(store.files), incoming) != []
    ensures !success ==> store.files == old(store.files)
    ensures old(|store.files|) + |incoming| > opts.maxFiles ==>
              store.error == Some(Message(TooManyFiles(opts.maxFiles, old(|store.files|), |incoming|)))
    ensures old(|store.files|) + |incoming| <= opts.maxFiles && Rejections(opts, old(store.files), incoming) != [] ==>
              store.error == Some(Join(Messages(Rejections(opts, old(store.files), incoming)), "; "))
    ensures success && FirstNonImage(Accepted(opts, old(store.files), incoming)).None? ==>
              var valid := Accepted(opts, old(store.files), incoming);
              && |store.files| == old(|store.files|) + |valid|
              && store.files[..old(|store.files|)] == old(store.files)
              && (forall k :: 0 <= k < |valid| ==>
                    store.files[old(|store.files|) + k] == NewScanFile(valid[k], ids[k], urls[k]))
              && store.error == None
    ensures success && FirstNonImage(Accepted(opts, old(store.files), incoming)).Some? ==>
              var valid := Accepted(opts, old(store.files), incoming);
              store.files == old(store.files) &&
              store.error == Some(NotAnImage(valid[FirstNonImage(valid).value].name))
    ensures !success && old(|store.files|) + |incoming| <= opts.maxFiles &&
              Rejections(opts, old(store.files), incoming) == [] ==>
              store.files == old(store.files) && store.error == old(store.error)
    ensures store.currentPreviewIndex == old(store.currentPreviewIndex)
    ensures store.processingStatus == old(store.processingStatus)
    ensures store.processingProgress == old(store.processingProgress)
    ensures |store.files| <= old(|store.files|) || |store.files| <= opts.maxFiles
  {
    var valid, errors := ValidateFiles(opts, store.files, incoming);
    if |errors| > 0 {
      store.SetError(Some(Join(Messages(errors), "; ")));
      return false;
    }
    if |valid| == 0 {
      return false;
    }
    assert |valid| <= |incoming|;
    assert FreshIds(store.files, ids[..|valid|]);
    store.AddFiles(valid, ids[..|valid|], urls[..|valid|]);
    return true;
  }

  datatype FileStats = FileStats(count: nat, maxCount: nat, totalSize: nat, totalSizeMB: string,
                                 canAddMore: bool, remainingSlots: int)

  /** `getFileStats`: the store's count and total size against the limit. */
  function GetFileStats(files: seq<ScanFile>, maxFiles: nat): (s: FileStats)
    ensures s.count == |files| && s.totalSize == TotalFileSize(files)
    ensures s.canAddMore <==> s.remainingSlots > 0
    ensures s.count + s.remainingSlots == maxFiles
  {
    var total := TotalFileSize(files);
    FileStats(|files|, maxFiles, total, Megabytes(total), |files| < maxFiles, maxFiles - |files|)
  }

  /** `canUpload`: there is room for another file. */
  function CanUpload(files: seq<ScanFile>, maxFiles: nat): (b: bool)
    ensures b <==> GetFileStats(files, maxFiles).canAddMore
    ensures b ==> ValidationRoomForOne(files, maxFiles)
  {
    |files| < maxFiles
  }

  /** A single file passes the count check of `validateFiles`. */
  predicate ValidationRoomForOne(files: seq<ScanFile>, maxFiles: nat) {
    |files| + 1 <= maxFiles
  }
}
