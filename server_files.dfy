/** The processing server's file-name rules: which uploaded names it
    accepts, and which output files it lists and how it labels them. */
module ServerFiles {
  import opened Wrappers
  import opened Text

  const AllowedExtensions: set<string> := {"pdf", "png", "jpg", "jpeg", "gif", "bmp", "tiff", "tif"}

  /** `filename.rsplit('.', 1)[1]`: the text after the last dot. */
  function Extension(filename: string): (r: Option<string>)
    ensures r.None? <==> '.' !in filename
    ensures r.Some? ==> '.' !in r.value && |r.value| < |filename| &&
                        filename == filename[..|filename| - |r.value| - 1] + "." + r.value
  {
    match LastIndexOf(filename, '.')
      case None => None
      case Some(k) =>
        assert filename == filename[..k] + "." + filename[k + 1..];
        Some(filename[k + 1..])
  }

  /** `allowed_file`: there is a dot, and the lower-cased extension is allowed.
      Only ASCII letters occur in the allowed extensions, so ASCII case
      folding decides membership as Unicode case folding would. */
  predicate AllowedFile(filename: string) {
    '.' in filename && Lower(Extension(filename).value) in AllowedExtensions
  }

  /** A name is allowed exactly when it splits into a stem, a dot and an
      allowed extension free of dots. */
  lemma AllowedFileSplit(stem: string, ext: string)
    requires '.' !in ext
    ensures Extension(stem + "." + ext) == Some(ext)
    ensures AllowedFile(stem + "." + ext) <==> Lower(ext) in AllowedExtensions
  {
    var s := stem + "." + ext;
    assert s == stem + ['.'] + ext;
    LastIndexOfSplit(stem, '.', ext);
    assert s[|stem| + 1..] == ext;
  }

  lemma AllowedUpperCaseExtension()
    ensures AllowedFile("score.PDF")
  {
    assert "score.PDF" == "score" + "." + "PDF";
    AllowedFileSplit("score", "PDF");
    assert Lower("PDF") == "pdf";
  }

  lemma AllowedEmptyStem()
    ensures AllowedFile(".png")
  {
    assert ".png" == "" + "." + "png";
    AllowedFileSplit("", "png");
    assert Lower("png") == "png";
  }

  lemma RejectedLastExtension()
    ensures !AllowedFile("a.png.exe")
  {
    assert "a.png.exe" == "a.png" + "." + "exe";
    AllowedFileSplit("a.png", "exe");
    assert Lower("exe") == "exe";
  }

  lemma RejectedEmptyExtension()
    ensures !AllowedFile("a.")
  {
    assert "a." == "a" + "." + "";
    AllowedFileSplit("a", "");
  }

  lemma RejectedWithoutDot()
    ensures !AllowedFile("png")
  {
    assert "png"[0] == 'p' && "png"[1] == 'n' && "png"[2] == 'g';
  }

  /** The case-sensitive suffix filter of `collect_output_files`. */
  predicate Listed(name: string) {
    EndsWith(name, ".jpg") || EndsWith(name, ".jpeg") || EndsWith(name, ".png") || EndsWith(name, ".json")
  }

  datatype FileKind = Image | Data

  /** The `type` label: an image suffix in any case makes an image. */
  function Kind(name: string): FileKind {
    var l := Lower(name);
    if EndsWith(l, ".jpg") || EndsWith(l, ".jpeg") || EndsWith(l, ".png") then Image else Data
  }

  lemma LowerKeepsSuffix(name: string, suffix: string)
    requires EndsWith(name, suffix) && Lower(suffix) == suffix
    ensures EndsWith(Lower(name), suffix)
  {
    var l := Lower(name);
    var k := |name| - |suffix|;
    forall i | 0 <= i < |suffix| ensures l[k..][i] == suffix[i] {
      assert name[k + i] == name[k..][i];
      assert Lower(suffix)[i] == LowerChar(suffix[i]);
    }
    assert l[k..] == suffix;
  }

  /** The last character of a name, lower-cased, ends every suffix of the
      lower-cased name. */
  lemma LastCharOfSuffix(name: string, suffix: string)
    requires suffix != [] && EndsWith(Lower(name), suffix)
    ensures LowerChar(name[|name| - 1]) == suffix[|suffix| - 1]
  {
    var l := Lower(name);
    assert l[|l| - 1] == l[|l| - |suffix|..][|suffix| - 1];
  }

  /** An image suffix in the name makes an image. */
  lemma ImageSuffixIsImage(name: string)
    requires EndsWith(name, ".jpg") || EndsWith(name, ".jpeg") || EndsWith(name, ".png")
    ensures Kind(name) == Image
  {
    assert Lower(".jpg") == ".jpg" && Lower(".jpeg") == ".jpeg" && Lower(".png") == ".png";
    if EndsWith(name, ".jpg") {
      LowerKeepsSuffix(name, ".jpg");
    } else if EndsWith(name, ".jpeg") {
      LowerKeepsSuffix(name, ".jpeg");
    } else {
      LowerKeepsSuffix(name, ".png");
    }
  }

  /** A `.json` name is data. */
  lemma JsonIsData(name: string)
    requires EndsWith(name, ".json")
    ensures Kind(name) == Data
  {
    var last := name[|name| - 1];
    assert last == ".json"[4] == 'n';
    assert LowerChar(last) == 'n';
    var l := Lower(name);
    if EndsWith(l, ".jpg") {
      LastCharOfSuffix(name, ".jpg");
    } else if EndsWith(l, ".jpeg") {
      LastCharOfSuffix(name, ".jpeg");
    } else if EndsWith(l, ".png") {
      LastCharOfSuffix(name, ".png");
    }
  }

  /** Among listed files the label is `data` exactly for the `.json` ones:
      the lower-casing in the label never matters, since the filter is
      case-sensitive. */
  lemma ListedKind(name: string)
    requires Listed(name)
    ensures Kind(name) == Data <==> EndsWith(name, ".json")
  {
    if EndsWith(name, ".jpg") || EndsWith(name, ".jpeg") || EndsWith(name, ".png") {
      ImageSuffixIsImage(name);
      if EndsWith(name, ".json") {
        JsonIsData(name);
      }
    } else {
      JsonIsData(name);
    }
  }

  /** A file found by the directory walk: its name, its path relative to the
      output folder and its size. */
  datatype FoundFile = FoundFile(name: string, relPath: string, size: nat)

  datatype OutputFile = OutputFile(filename: string, path: string, size: nat, kind: FileKind)

  function Described(f: FoundFile): OutputFile {
    OutputFile(f.name, f.relPath, f.size, Kind(f.name))
  }

  /** The listing: the found files that pass the filter, in walk order. */
  function OutputListing(found: seq<FoundFile>): (r: seq<OutputFile>)
    ensures |r| <= |found|
    ensures forall k :: 0 <= k < |r| ==> Listed(r[k].filename)
  {
    if found == [] then []
    else
      var f := found[|found| - 1];
      OutputListing(found[..|found| - 1]) + (if Listed(f.name) then [Described(f)] else [])
  }

  /** Every listed file of the walk appears, described, in the listing. */
  lemma {:induction false} OutputListingComplete(found: seq<FoundFile>, k: nat)
    requires k < |found| && Listed(found[k].name)
    ensures Described(found[k]) in OutputListing(found)
  {
    if k < |found| - 1 {
      assert found[..|found| - 1][k] == found[k];
      OutputListingComplete(found[..|found| - 1], k);
    }
  }

  /** `collect_output_files`, over the files the walk yields. */
  method CollectOutputFiles(found: seq<FoundFile>) returns (outputFiles: seq<OutputFile>)
    ensures outputFiles == OutputListing(found)
  {
    outputFiles := [];
    for i := 0 to |found|
      invariant outputFiles == OutputListing(found[..i])
    {
      var file := found[i];
      assert found[..i + 1][..i] == found[..i];
      if EndsWith(file.name, ".jpg") || EndsWith(file.name, ".jpeg") ||
         EndsWith(file.name, ".png") || EndsWith(file.name, ".json") {
        outputFiles := outputFiles + [OutputFile(file.name, file.relPath, file.size, Kind(file.name))];
      }
    }
    assert found[..|found|] == found;
  }
}
