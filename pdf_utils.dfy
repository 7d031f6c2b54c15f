/** The PDF helpers of the processing pipeline: recognising a PDF by its
    name, and the folder and file names under which `pdf_to_images` saves
    the rendered pages. Rendering itself (PyMuPDF, PIL) is not modelled:
    which step fails, if any, is a parameter. */
module PdfUtils {
  import opened Wrappers
  import opened Text
  import ServerFiles

  /** `is_pdf`: the lower-cased path ends in ".pdf". Only ASCII letters and
      a dot are compared, and no other character lower-cases to one of
      them, so ASCII case folding gives Python's answer. */
  predicate IsPdf(path: string) {
    EndsWith(Lower(path), ".pdf")
  }

  /** A PDF path ends in a dot and three letters that lower-case to "pdf". */
  lemma PdfSuffix(path: string)
    requires IsPdf(path)
    ensures |path| >= 4 && path[|path| - 4] == '.'
    ensures '.' !in path[|path| - 3..] && Lower(path[|path| - 3..]) == "pdf"
  {
    var l := Lower(path);
    var n := |path|;
    var ext := path[n - 3..];
    assert l[n - 4..] == ".pdf";
    forall i | 0 <= i < 3 ensures Lower(ext)[i] == "pdf"[i] && ext[i] != '.' {
      assert l[n - 3 + i] == l[n - 4..][1 + i];
    }
    assert LowerChar(path[n - 4]) == l[n - 4..][0];
  }

  /** An extension that lower-cases to "pdf" makes a PDF. */
  lemma PdfExtensionIsPdf(stem: string, ext: string)
    requires Lower(ext) == "pdf"
    ensures IsPdf(stem + "." + ext)
  {
    var s := stem + "." + ext;
    var l := Lower(s);
    var n := |s|;
    assert |ext| == 3;
    forall i | 0 <= i < 4 ensures l[n - 4..][i] == ".pdf"[i] {
      if i == 0 {
        assert s[n - 4] == '.';
      } else {
        assert s[n - 4 + i] == ext[i - 1];
        assert Lower(ext)[i - 1] == LowerChar(ext[i - 1]);
      }
    }
    assert l[n - 4..] == ".pdf";
  }

  /** A PDF's last extension lower-cases to "pdf". */
  lemma PdfHasPdfExtension(stem: string, ext: string)
    requires '.' !in ext && IsPdf(stem + "." + ext)
    ensures Lower(ext) == "pdf"
  {
    var s := stem + "." + ext;
    var n := |s|;
    PdfSuffix(s);
    assert s == s[..n - 4] + ['.'] + s[n - 3..];
    LastIndexOfSplit(s[..n - 4], '.', s[n - 3..]);
    assert s == stem + ['.'] + ext;
    LastIndexOfSplit(stem, '.', ext);
    assert ext == s[n - 3..];
  }

  /** Whether a path is a PDF depends on its extension alone. */
  lemma IsPdfByExtension(stem: string, ext: string)
    requires '.' !in ext
    ensures IsPdf(stem + "." + ext) <==> Lower(ext) == "pdf"
  {
    if Lower(ext) == "pdf" {
      PdfExtensionIsPdf(stem, ext);
    }
    if IsPdf(stem + "." + ext) {
      PdfHasPdfExtension(stem, ext);
    }
  }

  /** A PDF's name always passes the server's upload filter. */
  lemma PdfIsAllowedUpload(path: string)
    requires IsPdf(path)
    ensures ServerFiles.AllowedFile(path)
  {
    var n := |path|;
    PdfSuffix(path);
    assert path == path[..n - 4] + "." + path[n - 3..];
    ServerFiles.AllowedFileSplit(path[..n - 4], path[n - 3..]);
  }

  lemma UpperCasePdf()
    ensures IsPdf("X.PDF")
  {
    assert Lower("PDF") == "pdf";
    assert "X.PDF" == "X" + "." + "PDF";
    IsPdfByExtension("X", "PDF");
  }

  lemma PdfInsideName()
    ensures !IsPdf("notes.pdf.jpg")
  {
    assert Lower("jpg") == "jpg";
    assert "notes.pdf.jpg" == "notes.pdf" + "." + "jpg";
    IsPdfByExtension("notes.pdf", "jpg");
  }

  lemma BareWordPdf()
    ensures !IsPdf("pdf")
  {
  }

  /** `os.path.basename`: the text after the last slash. */
  function Basename(path: string): (r: string)
    ensures '/' !in r && EndsWith(path, r)
    ensures '/' !in path ==> r == path
  {
    match LastIndexOf(path, '/')
      case None => path
      case Some(k) => path[k + 1..]
  }

  /** `name.rsplit('.', 1)[0]`: the name without its last extension, or the
      whole name when it has no dot. */
  function Stem(name: string): (r: string)
    ensures StartsWith(name, r)
    ensures '.' !in name ==> r == name
  {
    match LastIndexOf(name, '.')
      case None => name
      case Some(k) => name[..k]
  }

  /** The stem and the extension the server reads put the name back together. */
  lemma StemAndExtension(name: string)
    requires '.' in name
    ensures name == Stem(name) + "." + ServerFiles.Extension(name).value
  {
    var k := LastIndexOf(name, '.').value;
    assert name == name[..k] + "." + name[k + 1..];
  }

  /** `os.path.join` of two parts: an absolute second part replaces the
      first; otherwise a slash is put between them unless the first is
      empty or already ends in one. */
  function PathJoin(a: string, b: string): (r: string)
    ensures !StartsWith(b, "/") ==> EndsWith(r, b) && StartsWith(r, a)
  {
    if StartsWith(b, "/") then b
    else if a == [] || EndsWith(a, "/") then a + b
    else a + "/" + b
  }

  /** Joining to the same folder keeps relative names apart. */
  lemma PathJoinInjective(a: string, b1: string, b2: string)
    requires !StartsWith(b1, "/") && !StartsWith(b2, "/")
    requires PathJoin(a, b1) == PathJoin(a, b2)
    ensures b1 == b2
  {
    var prefix := if a == [] || EndsWith(a, "/") then a else a + "/";
    assert PathJoin(a, b1) == prefix + b1 && PathJoin(a, b2) == prefix + b2;
    assert (prefix + b1)[|prefix|..] == b1;
    assert (prefix + b2)[|prefix|..] == b2;
  }

  /** The folder the pages of a PDF go to: `<output>/<stem>_pages`. */
  function PageDir(outputDir: string, pdfPath: string): string {
    PathJoin(outputDir, Stem(Basename(pdfPath)) + "_pages")
  }

  /** The basename is what follows the last slash. */
  lemma BasenameAfterSlash(folder: string, file: string)
    requires '/' !in file
    ensures Basename(folder + "/" + file) == file
  {
    var p := folder + "/" + file;
    assert p == folder + ['/'] + file;
    LastIndexOfSplit(folder, '/', file);
    assert p[|folder| + 1..] == file;
  }

  /** The stem is what precedes the last dot. */
  lemma StemBeforeDot(name: string, ext: string)
    requires '.' !in ext
    ensures Stem(name + "." + ext) == name
  {
    var f := name + "." + ext;
    assert f == name + ['.'] + ext;
    LastIndexOfSplit(name, '.', ext);
    assert f[..|name|] == name;
  }

  /** Only the last extension is dropped from the folder name: the pages
      of `<folder>/<name>.<ext>` go to `<name>_pages`, dots in `name` kept. */
  lemma PageDirOfFile(outputDir: string, folder: string, name: string, ext: string)
    requires '/' !in name && '/' !in ext && '.' !in ext
    ensures PageDir(outputDir, folder + "/" + name + "." + ext) == PathJoin(outputDir, name + "_pages")
  {
    var file := name + "." + ext;
    assert '/' !in file;
    assert folder + "/" + name + "." + ext == folder + "/" + file;
    BasenameAfterSlash(folder, file);
    StemBeforeDot(name, ext);
  }

  /** `f"page_{k + 1:03d}.jpg"` for the page at index `k`. */
  function PageFileName(k: nat): (r: string)
    ensures EndsWith(r, ".jpg")
  {
    "page_" + ZeroPadded(k + 1, 3) + ".jpg"
  }

  /** Equal strings with equal ends have equal middles. */
  lemma SameFrame(p: string, x: string, y: string, q: string)
    requires p + x + q == p + y + q
    ensures x == y
  {
    assert |x| == |y|;
    assert (p + x + q)[|p|..|p| + |x|] == x;
    assert (p + y + q)[|p|..|p| + |y|] == y;
  }

  /** Different pages get different file names, past page 999 too. */
  lemma PageFileNameInjective(j: nat, k: nat)
    requires PageFileName(j) == PageFileName(k)
    ensures j == k
  {
    SameFrame("page_", ZeroPadded(j + 1, 3), ZeroPadded(k + 1, 3), ".jpg");
    ZeroPaddedInjective(j + 1, k + 1, 3);
  }

  /** The first page is "page_001.jpg". */
  lemma FirstPageFileName()
    ensures PageFileName(0) == "page_001.jpg"
  {
    assert Decimal(1) == "1";
    assert ZeroPadded(1, 3) == "001";
  }

  /** The paths of the first `n` pages, in page order. */
  function PagePaths(dir: string, n: nat): (r: seq<string>)
    ensures |r| == n
  {
    seq(n, k requires 0 <= k < n => PathJoin(dir, PageFileName(k)))
  }

  /** One more page adds its path at the end. */
  lemma PagePathsGrow(dir: string, n: nat)
    ensures PagePaths(dir, n + 1) == PagePaths(dir, n) + [PathJoin(dir, PageFileName(n))]
  {
  }

  /** No two pages share a path. */
  lemma PagePathsDistinct(dir: string, n: nat, j: nat, k: nat)
    requires j < n && k < n && j != k
    ensures PagePaths(dir, n)[j] != PagePaths(dir, n)[k]
  {
    if PagePaths(dir, n)[j] == PagePaths(dir, n)[k] {
      assert PageFileName(j)[0] == 'p' && PageFileName(k)[0] == 'p';
      PathJoinInjective(dir, PageFileName(j), PageFileName(k));
      PageFileNameInjective(j, k);
    }
  }

  /** Every page is a `.jpg`, so the server lists it as an image. */
  lemma PagePathsAreImages(dir: string, n: nat, k: nat)
    requires k < n
    ensures ServerFiles.Listed(PagePaths(dir, n)[k])
    ensures ServerFiles.Kind(PagePaths(dir, n)[k]) == ServerFiles.Image
  {
    var p := PagePaths(dir, n)[k];
    assert PageFileName(k)[0] == 'p';
    assert EndsWith(p, ".jpg") by {
      var f := PageFileName(k);
      assert p[|p| - |f|..] == f;
      assert p[|p| - 4..] == f[|f| - 4..];
    }
    ServerFiles.ImageSuffixIsImage(p);
  }

  /** `pdf_to_images`, with the document's page count and the failures
      standing in for PyMuPDF: `opens` says whether the document opens and
      `failsAt` names the first page whose rendering or saving raises. Any
      exception inside the `try` discards the pages saved so far. */
  method PdfToImages(pdfPath: string, outputDir: string, pageCount: nat, opens: bool, failsAt: Option<nat>)
    returns (imagePaths: seq<string>)
    ensures !opens || (failsAt.Some? && failsAt.value < pageCount) ==> imagePaths == []
    ensures opens && (failsAt.None? || failsAt.value >= pageCount) ==>
              imagePaths == PagePaths(PageDir(outputDir, pdfPath), pageCount)
  {
    var pdfOutputDir := PageDir(outputDir, pdfPath);
    if !opens {
      return [];
    }
    imagePaths := SavePages(pdfOutputDir, pageCount, failsAt);
  }

  /** The page loop of `pdf_to_images`: one path per page, in page order,
      until a page fails and the whole list is dropped. */
  method SavePages(pdfOutputDir: string, pageCount: nat, failsAt: Option<nat>) returns (imagePaths: seq<string>)
    ensures failsAt.Some? && failsAt.value < pageCount ==> imagePaths == []
    ensures failsAt.None? || failsAt.value >= pageCount ==> imagePaths == PagePaths(pdfOutputDir, pageCount)
  {
    imagePaths := [];
    for pageNum := 0 to pageCount
      invariant imagePaths == PagePaths(pdfOutputDir, pageNum)
      invariant failsAt.Some? ==> failsAt.value >= pageNum
    {
      if failsAt.Some? && failsAt.value == pageNum {
        assert failsAt.value < pageCount;
        return [];
      }
      var imagePath := PathJoin(pdfOutputDir, PageFileName(pageNum));
      PagePathsGrow(pdfOutputDir, pageNum);
      imagePaths := imagePaths + [imagePath];
    }
  }
}
