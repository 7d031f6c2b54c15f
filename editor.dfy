/** The sheet editor hook: zoom, page navigation, page reordering, the
    delete-page guards and saving an annotation. The store actions it calls
    (`setCurrentPageIndex`, `reorderPages`, `deletePage`, `addAnnotation`)
    are not part of this model; the hook's side of each call, the index,
    order or request it computes, is returned instead. */
module EditorHook {
  import opened Wrappers
  import opened Text

  datatype Page = Page(id: string)

  /** The current sheet as the editor reads it: its pages and the index of
      the page being shown. */
  datatype EditorSheet = EditorSheet(id: string, pages: seq<Page>, currentPageIndex: int)

  /** The page cursor is on a page (or 0 when there are none). */
  predicate WellFormed(s: EditorSheet) {
    if s.pages == [] then s.currentPageIndex == 0 else 0 <= s.currentPageIndex < |s.pages|
  }

  const MinZoom: real := 0.5
  const MaxZoom: real := 2.0
  const ZoomStep: real := 0.1

  function ZoomedIn(z: real): (r: real)
    ensures r <= MaxZoom
    ensures z + ZoomStep <= MaxZoom ==> r == z + ZoomStep
    ensures MinZoom <= z ==> MinZoom <= r
  {
    if z + ZoomStep < MaxZoom then z + ZoomStep else MaxZoom
  }

  function ZoomedOut(z: real): (r: real)
    ensures r >= MinZoom
    ensures z - ZoomStep >= MinZoom ==> r == z - ZoomStep
    ensures z <= MaxZoom ==> r <= MaxZoom
  {
    if z - ZoomStep > MinZoom then z - ZoomStep else MinZoom
  }

  function ZoomInTimes(z: real, n: nat): real {
    if n == 0 then z else ZoomedIn(ZoomInTimes(z, n - 1))
  }

  /** Pressing zoom-in `n` times adds `n` steps until the maximum is reached. */
  lemma {:induction false} ZoomInTimesClamps(z: real, n: nat)
    requires z <= MaxZoom
    ensures ZoomInTimes(z, n) == if z + n as real * ZoomStep < MaxZoom then z + n as real * ZoomStep else MaxZoom
  {
    if n > 0 {
      ZoomInTimesClamps(z, n - 1);
    }
  }

  /** The `nextPage` target: one on, but never past the last page. */
  function NextPageIndex(current: int, count: nat): (r: int)
    ensures count > 0 && 0 <= current < count ==> 0 <= r < count && r >= current
    ensures count > 0 && current == count - 1 ==> r == current
    ensures count == 0 && current == 0 ==> r == -1
    ensures 0 <= current && current + 1 < count ==> r == current + 1
  {
    if current + 1 < count - 1 then current + 1 else count - 1
  }

  /** The `prevPage` target: one back, but never before the first page. */
  function PrevPageIndex(current: int): (r: int)
    ensures r >= 0
    ensures current > 0 ==> r == current - 1
    ensures current <= 0 ==> r == 0
  {
    if current - 1 > 0 then current - 1 else 0
  }

  /** Stepping forward then back returns to the page, unless it was the last. */
  lemma NextThenPrev(current: int, count: nat)
    requires 0 <= current < count - 1
    ensures PrevPageIndex(NextPageIndex(current, count)) == current
  {
  }

  /** `getCurrentPage`: no page without a sheet or without pages; reading
      past the end gives `undefined`. */
  function CurrentPage(sheet: Option<EditorSheet>): (r: Option<Page>)
    ensures sheet.None? || sheet.value.pages == [] ==> r.None?
    ensures sheet.Some? && WellFormed(sheet.value) && sheet.value.pages != [] ==>
              r == Some(sheet.value.pages[sheet.value.currentPageIndex])
  {
    if sheet.None? || |sheet.value.pages| == 0 then None
    else if 0 <= sheet.value.currentPageIndex < |sheet.value.pages|
    then Some(sheet.value.pages[sheet.value.currentPageIndex])
    else None
  }

  function PageIds(pages: seq<Page>): (r: seq<string>)
    ensures |r| == |pages| && forall k :: 0 <= k < |pages| ==> r[k] == pages[k].id
  {
    seq(|pages|, k requires 0 <= k < |pages| => pages[k].id)
  }

  /** The swap of two entries. */
  function Swapped<T>(s: seq<T>, i: nat, j: nat): (r: seq<T>)
    requires i < |s| && j < |s|
  {
    s[i := s[j]][j := s[i]]
  }

  /** Swapping two neighbours permutes the ids and moves the page at `j` to `i`. */
  lemma SwappedPermutes<T>(s: seq<T>, i: nat, j: nat)
    requires i < |s| && j < |s| && i != j
    ensures |Swapped(s, i, j)| == |s| && Swapped(s, i, j)[i] == s[j] && Swapped(s, i, j)[j] == s[i]
    ensures multiset(Swapped(s, i, j)) == multiset(s)
    ensures forall k :: 0 <= k < |s| && k != i && k != j ==> Swapped(s, i, j)[k] == s[k]
  {
  }

  /** Swapping twice restores the order. */
  lemma SwappedTwice<T>(s: seq<T>, i: nat, j: nat)
    requires i < |s| && j < |s|
    ensures Swapped(Swapped(s, i, j), i, j) == s
  {
  }

  /** What a reorder button hands the store: the new page order and the
      page index to select. */
  datatype Reorder = Reorder(order: seq<string>, select: int)

  /** Copies the ids into a fresh array and swaps entries `i` and `j` in place. */
  method SwapIds(ids: seq<string>, i: nat, j: nat) returns (order: seq<string>)
    requires i < |ids| && j < |ids|
    ensures order == Swapped(ids, i, j)
  {
    var newOrder := new string[|ids|](k requires 0 <= k < |ids| => ids[k]);
    assert newOrder[..] == ids;
    newOrder[i], newOrder[j] := newOrder[j], newOrder[i];
    order := newOrder[..];
  }

  /** `movePageUp`: nothing without a sheet or on the first page; otherwise
      the page swaps with the one before and stays selected. */
  method MovePageUp(sheet: Option<EditorSheet>) returns (r: Option<Reorder>)
    requires sheet.Some? ==> WellFormed(sheet.value)
    ensures sheet.None? || sheet.value.currentPageIndex == 0 ==> r.None?
    ensures sheet.Some? && sheet.value.currentPageIndex != 0 ==>
              var c := sheet.value.currentPageIndex;
              r == Some(Reorder(Swapped(PageIds(sheet.value.pages), c - 1, c), c - 1)) &&
              r.value.order[r.value.select] == sheet.value.pages[c].id
  {
    if sheet.None? || sheet.value.currentPageIndex == 0 {
      return None;
    }
    var currentIndex := sheet.value.currentPageIndex;
    var newOrder := SwapIds(PageIds(sheet.value.pages), currentIndex - 1, currentIndex);
    r := Some(Reorder(newOrder, currentIndex - 1));
  }

  /** `movePageDown`: nothing without a sheet or on the last page; otherwise
      the page swaps with the one after and stays selected. */
  method MovePageDown(sheet: Option<EditorSheet>) returns (r: Option<Reorder>)
    requires sheet.Some? ==> WellFormed(sheet.value) && sheet.value.pages != []
    ensures sheet.None? || sheet.value.currentPageIndex == |sheet.value.pages| - 1 ==> r.None?
    ensures sheet.Some? && sheet.value.currentPageIndex != |sheet.value.pages| - 1 ==>
              var c := sheet.value.currentPageIndex;
              r == Some(Reorder(Swapped(PageIds(sheet.value.pages), c, c + 1), c + 1)) &&
              r.value.order[r.value.select] == sheet.value.pages[c].id
  {
    if sheet.None? || sheet.value.currentPageIndex == |sheet.value.pages| - 1 {
      return None;
    }
    var currentIndex := sheet.value.currentPageIndex;
    var newOrder := SwapIds(PageIds(sheet.value.pages), currentIndex, currentIndex + 1);
    r := Some(Reorder(newOrder, currentIndex + 1));
  }

  /** The page `handleDeletePage` deletes: none without a sheet, without a
      current page, or when it is the only page. */
  function PageToDelete(sheet: Option<EditorSheet>): (r: Option<string>)
    ensures r.Some? <==> sheet.Some? && CurrentPage(sheet).Some? && |sheet.value.pages| > 1
    ensures r.Some? ==> r.value == CurrentPage(sheet).value.id
  {
    if sheet.None? || CurrentPage(sheet).None? || |sheet.value.pages| <= 1 then None
    else Some(CurrentPage(sheet).value.id)
  }

  /** A sheet keeps at least one page: deleting is refused on the last one. */
  lemma LastPageNeverDeleted(sheet: EditorSheet)
    requires |sheet.pages| <= 1
    ensures PageToDelete(Some(sheet)).None?
  {
  }

  datatype Position = Position(x: real, y: real)

  /** The `addAnnotation` call `saveAnnotation` makes. */
  datatype AnnotationRequest = AnnotationRequest(sheetId: string, pageId: string, text: string, position: Position)

  class Editor {
    var zoom: real
    var annotationText: string
    var annotationPosition: Position
    var showAnnotationInput: bool

    /** The zoom stays within its clamps. */
    predicate Valid()
      reads this
    {
      MinZoom <= zoom <= MaxZoom
    }

    constructor()
      ensures zoom == 1.0 && annotationText == "" && annotationPosition == Position(0.0, 0.0)
      ensures !showAnnotationInput && Valid()
    {
      zoom := 1.0;
      annotationText := "";
      annotationPosition := Position(0.0, 0.0);
      showAnnotationInput := false;
    }

    method ZoomIn()
      requires Valid()
      modifies this
      ensures Valid() && zoom == ZoomedIn(old(zoom))
      ensures annotationText == old(annotationText) && annotationPosition == old(annotationPosition)
      ensures showAnnotationInput == old(showAnnotationInput)
    {
      zoom := if zoom + ZoomStep < MaxZoom then zoom + ZoomStep else MaxZoom;
    }

    method ZoomOut()
      requires Valid()
      modifies this
      ensures Valid() && zoom == ZoomedOut(old(zoom))
      ensures annotationText == old(annotationText) && annotationPosition == old(annotationPosition)
      ensures showAnnotationInput == old(showAnnotationInput)
    {
      zoom := if zoom - ZoomStep > MinZoom then zoom - ZoomStep else MinZoom;
    }

    /** `saveAnnotation`: blank text, no sheet or no current page do
        nothing; otherwise the annotation is requested on the current page
        and the input is cleared and hidden. */
    method SaveAnnotation(sheet: Option<EditorSheet>) returns (request: Option<AnnotationRequest>)
      modifies this
      ensures sheet.None? || IsBlank(old(annotationText)) || CurrentPage(sheet).None? ==>
                request.None? && annotationText == old(annotationText) &&
                showAnnotationInput == old(showAnnotationInput)
      ensures sheet.Some? && !IsBlank(old(annotationText)) && CurrentPage(sheet).Some? ==>
                request == Some(AnnotationRequest(sheet.value.id, CurrentPage(sheet).value.id,
                                                  old(annotationText), old(annotationPosition))) &&
                annotationText == "" && !showAnnotationInput
      ensures zoom == old(zoom) && annotationPosition == old(annotationPosition)
    {
      if sheet.None? || IsBlank(annotationText) {
        return None;
      }
      var currentPage := CurrentPage(sheet);
      if currentPage.None? {
        return None;
      }
      request := Some(AnnotationRequest(sheet.value.id, currentPage.value.id, annotationText, annotationPosition));
      annotationText := "";
      showAnnotationInput := false;
    }

    method CancelAnnotation()
      modifies this
      ensures annotationText == "" && !showAnnotationInput
      ensures zoom == old(zoom) && annotationPosition == old(annotationPosition)
    {
      showAnnotationInput := false;
      annotationText := "";
    }
  }
}
