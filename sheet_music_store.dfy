/** The web editor's sheet-music store: the scanned sheets, the one being
    edited and the annotations attached to each. Every action replaces the
    list and the current sheet by a map or filter over the old ones. Fresh
    ids (`crypto.randomUUID`) and timestamps (`new Date()`) are parameters;
    an action that reads the clock twice takes two timestamps. */
module SheetMusicStore {
  import opened Wrappers

  datatype Position = Position(x: real, y: real)

  datatype Annotation = Annotation(id: string, text: string, position: Position)

  datatype SheetStatus = Scanned | Edited | Analyzed

  /** A sheet-music record; `annotations` may be absent. The free-form
      `notes` and `analysis` payloads are not part of this model. */
  datatype SheetMusic = SheetMusic(id: string, name: string, imageUrl: string,
                                   createdAt: int, updatedAt: int, status: SheetStatus,
                                   annotations: Option<seq<Annotation>>)

  /** What `addSheetMusic` is given: a record without id and timestamps. */
  datatype Draft = Draft(name: string, imageUrl: string, status: SheetStatus,
                         annotations: Option<seq<Annotation>>)

  /** A `Partial<SheetMusic>`: the fields present in an update. */
  datatype Patch = Patch(id: Option<string>, name: Option<string>, imageUrl: Option<string>,
                         createdAt: Option<int>, status: Option<SheetStatus>,
                         annotations: Option<Option<seq<Annotation>>>)

  function Override<T>(old_: T, given: Option<T>): T {
    if given.Some? then given.value else old_
  }

  /** `{ ...sm, ...updates, updatedAt: now }`. */
  function Apply(sm: SheetMusic, p: Patch, now: int): (r: SheetMusic)
    ensures r.updatedAt == now
    ensures p == Patch(None, None, None, None, None, None) ==> r == sm.(updatedAt := now)
    ensures p.id.Some? ==> r.id == p.id.value
    ensures p.id.None? ==> r.id == sm.id
    ensures p.name.Some? ==> r.name == p.name.value
    ensures p.name.None? ==> r.name == sm.name
    ensures p.imageUrl.Some? ==> r.imageUrl == p.imageUrl.value
    ensures p.imageUrl.None? ==> r.imageUrl == sm.imageUrl
    ensures p.createdAt.Some? ==> r.createdAt == p.createdAt.value
    ensures p.createdAt.None? ==> r.createdAt == sm.createdAt
    ensures p.status.Some? ==> r.status == p.status.value
    ensures p.status.None? ==> r.status == sm.status
    ensures p.annotations.Some? ==> r.annotations == p.annotations.value
    ensures p.annotations.None? ==> r.annotations == sm.annotations
  {
    SheetMusic(Override(sm.id, p.id), Override(sm.name, p.name), Override(sm.imageUrl, p.imageUrl),
               Override(sm.createdAt, p.createdAt), now, Override(sm.status, p.status),
               Override(sm.annotations, p.annotations))
  }

  /** `sm.annotations || []`. */
  function AnnotationsOf(sm: SheetMusic): seq<Annotation> {
    if sm.annotations.Some? then sm.annotations.value else []
  }

  /** The list with `f` applied to the records whose id matches. */
  function Revised(list: seq<SheetMusic>, id: string, f: SheetMusic -> SheetMusic): (r: seq<SheetMusic>)
    ensures |r| == |list|
    ensures forall i :: 0 <= i < |list| && list[i].id != id ==> r[i] == list[i]
    ensures forall i :: 0 <= i < |list| && list[i].id == id ==> r[i] == f(list[i])
  {
    if list == [] then []
    else [if list[0].id == id then f(list[0]) else list[0]] + Revised(list[1..], id, f)
  }

  /** A record of the list appears in the revised list, revised if it matched. */
  lemma RevisedKeepsListed(list: seq<SheetMusic>, id: string, f: SheetMusic -> SheetMusic, c: SheetMusic)
    requires c in list
    ensures (if c.id == id then f(c) else c) in Revised(list, id, f)
  {
    var i :| 0 <= i < |list| && list[i] == c;
    assert Revised(list, id, f)[i] == (if c.id == id then f(c) else c);
  }

  /** `find((sm) => sm.id === id)`. */
  function FindSheet(list: seq<SheetMusic>, id: string): (r: Option<SheetMusic>)
    ensures r.None? <==> forall i :: 0 <= i < |list| ==> list[i].id != id
    ensures r.Some? ==> exists i :: 0 <= i < |list| && list[i] == r.value && r.value.id == id &&
                                    forall j :: 0 <= j < i ==> list[j].id != id
  {
    if list == [] then None
    else if list[0].id == id then Some(list[0])
    else
      var r := FindSheet(list[1..], id);
      assert r.Some? ==> exists i :: 0 <= i < |list[1..]| && list[1..][i] == r.value && r.value.id == id &&
                                       forall j :: 0 <= j < i ==> list[1..][j].id != id;
      if r.Some? then
        var i :| 0 <= i < |list[1..]| && list[1..][i] == r.value && r.value.id == id &&
                 forall j :: 0 <= j < i ==> list[1..][j].id != id;
        assert list[i + 1] == r.value;
        r
      else r
  }

  /** `filter((sm) => sm.id !== id)`. */
  function WithoutSheet(list: seq<SheetMusic>, id: string): (r: seq<SheetMusic>)
    ensures forall i :: 0 <= i < |r| ==> r[i].id != id && r[i] in list
  {
    if list == [] then []
    else (if list[0].id == id then [] else [list[0]]) + WithoutSheet(list[1..], id)
  }

  function CountId(list: seq<SheetMusic>, id: string): nat {
    if list == [] then 0 else (if list[0].id == id then 1 else 0) + CountId(list[1..], id)
  }

  /** Deleting removes exactly the records with the id, and keeps every other one. */
  lemma {:induction false} WithoutSheetCount(list: seq<SheetMusic>, id: string)
    ensures |WithoutSheet(list, id)| + CountId(list, id) == |list|
    ensures forall c :: c in list && c.id != id ==> c in WithoutSheet(list, id)
  {
    if list != [] {
      WithoutSheetCount(list[1..], id);
      forall c | c in list && c.id != id ensures c in WithoutSheet(list, id) {
        if c != list[0] {
          assert c in list[1..];
        }
      }
    }
  }

  /** Filtering keeps the order: deleting from a list split in two deletes
      from each part. */
  lemma {:induction false} WithoutSheetSplits(a: seq<SheetMusic>, b: seq<SheetMusic>, id: string)
    ensures WithoutSheet(a + b, id) == WithoutSheet(a, id) + WithoutSheet(b, id)
  {
    if a == [] {
      assert a + b == b;
    } else {
      assert (a + b)[0] == a[0] && (a + b)[1..] == a[1..] + b;
      WithoutSheetSplits(a[1..], b, id);
    }
  }

  function Annotated(annotationId: string, text: string, position: Position, now: int): SheetMusic -> SheetMusic {
    (sm: SheetMusic) =>
      sm.(annotations := Some(AnnotationsOf(sm) + [Annotation(annotationId, text, position)]), updatedAt := now)
  }

  /** `(sm.annotations || []).map((ann) => ann.id === annotationId ? { ...ann, text } : ann)`. */
  function Retexted(anns: seq<Annotation>, annotationId: string, text: string): (r: seq<Annotation>)
    ensures |r| == |anns|
    ensures forall i :: 0 <= i < |anns| ==> r[i].id == anns[i].id && r[i].position == anns[i].position
    ensures forall i :: 0 <= i < |anns| && anns[i].id == annotationId ==> r[i].text == text
    ensures forall i :: 0 <= i < |anns| && anns[i].id != annotationId ==> r[i] == anns[i]
  {
    if anns == [] then []
    else [if anns[0].id == annotationId then anns[0].(text := text) else anns[0]]
         + Retexted(anns[1..], annotationId, text)
  }

  /** `(sm.annotations || []).filter((ann) => ann.id !== annotationId)`. */
  function WithoutAnnotation(anns: seq<Annotation>, annotationId: string): (r: seq<Annotation>)
    ensures |r| <= |anns|
    ensures forall i :: 0 <= i < |r| ==> r[i].id != annotationId && r[i] in anns
  {
    if anns == [] then []
    else (if anns[0].id == annotationId then [] else [anns[0]]) + WithoutAnnotation(anns[1..], annotationId)
  }

  /** The filter works piecewise, so it keeps the other annotations in order. */
  lemma {:induction false} WithoutAnnotationSplits(a: seq<Annotation>, b: seq<Annotation>, annotationId: string)
    ensures WithoutAnnotation(a + b, annotationId) == WithoutAnnotation(a, annotationId) + WithoutAnnotation(b, annotationId)
  {
    if a == [] {
      assert a + b == b;
    } else {
      assert (a + b)[0] == a[0] && (a + b)[1..] == a[1..] + b;
      WithoutAnnotationSplits(a[1..], b, annotationId);
    }
  }

  /** Removing an annotation id that is absent changes nothing. */
  lemma {:induction false} WithoutAbsentAnnotation(anns: seq<Annotation>, annotationId: string)
    requires forall i :: 0 <= i < |anns| ==> anns[i].id != annotationId
    ensures WithoutAnnotation(anns, annotationId) == anns
  {
    if anns != [] {
      WithoutAbsentAnnotation(anns[1..], annotationId);
    }
  }

  function AnnotationRetexted(annotationId: string, text: string, now: int): SheetMusic -> SheetMusic {
    (sm: SheetMusic) => sm.(annotations := Some(Retexted(AnnotationsOf(sm), annotationId, text)), updatedAt := now)
  }

  function AnnotationRemoved(annotationId: string, now: int): SheetMusic -> SheetMusic {
    (sm: SheetMusic) => sm.(annotations := Some(WithoutAnnotation(AnnotationsOf(sm), annotationId)), updatedAt := now)
  }

  function Patched(p: Patch, now: int): SheetMusic -> SheetMusic {
    (sm: SheetMusic) => Apply(sm, p, now)
  }

  /** The current sheet, when there is one, given the same revision `f` as the list. */
  function RevisedCurrent(current: Option<SheetMusic>, id: string, f: SheetMusic -> SheetMusic): Option<SheetMusic> {
    if current.Some? && current.value.id == id then Some(f(current.value)) else current
  }

  /** `a` and `b` are the same record apart from their update time. */
  predicate SameRecord(a: SheetMusic, b: SheetMusic) {
    a.(updatedAt := 0) == b.(updatedAt := 0)
  }

  /** The current sheet, when there is one, is a listed record apart from
      its update time (each copy is stamped by its own `new Date()`). */
  predicate Tracks(list: seq<SheetMusic>, current: Option<SheetMusic>) {
    current.Some? ==> exists i :: 0 <= i < |list| && SameRecord(list[i], current.value)
  }

  class Store {
    var sheetMusics: seq<SheetMusic>
    var currentSheetMusic: Option<SheetMusic>
    var isScanning: bool
    var isProcessing: bool

    /** The current sheet is a listed record, up to its update time. */
    predicate Valid()
      reads this
    {
      Tracks(sheetMusics, currentSheetMusic)
    }

    /** The current sheet is exactly one of the listed records. */
    predicate Listed()
      reads this
    {
      currentSheetMusic.Some? ==> currentSheetMusic.value in sheetMusics
    }

    constructor()
      ensures sheetMusics == [] && currentSheetMusic == None && !isScanning && !isProcessing
      ensures Valid()
    {
      sheetMusics := [];
      currentSheetMusic := None;
      isScanning := false;
      isProcessing := false;
    }

    /** `addSheetMusic`: appends the record and makes it current. */
    method AddSheetMusic(draft: Draft, id: string, now: int) returns (newId: string)
      modifies this
      ensures newId == id
      ensures var sm := SheetMusic(id, draft.name, draft.imageUrl, now, now, draft.status, draft.annotations);
              sheetMusics == old(sheetMusics) + [sm] && currentSheetMusic == Some(sm)
      ensures Valid() && Listed()
      ensures isScanning == old(isScanning) && isProcessing == old(isProcessing)
    {
      var sm := SheetMusic(id, draft.name, draft.imageUrl, now, now, draft.status, draft.annotations);
      sheetMusics := sheetMusics + [sm];
      currentSheetMusic := Some(sm);
      assert SameRecord(sheetMusics[|sheetMusics| - 1], sm);
      newId := id;
    }

    /** `setCurrentSheetMusic`: `null` clears, an unknown id changes nothing. */
    method SetCurrentSheetMusic(id: Option<string>)
      modifies this
      ensures old(Valid()) ==> Valid()
      ensures old(Listed()) ==> Listed()
      ensures id.Some? && FindSheet(sheetMusics, id.value).Some? ==> Valid() && Listed()
      ensures id.None? ==> currentSheetMusic == None
      ensures id.Some? && FindSheet(sheetMusics, id.value).Some? ==>
                currentSheetMusic == FindSheet(sheetMusics, id.value)
      ensures id.Some? && FindSheet(sheetMusics, id.value).None? ==>
                currentSheetMusic == old(currentSheetMusic)
      ensures sheetMusics == old(sheetMusics)
      ensures isScanning == old(isScanning) && isProcessing == old(isProcessing)
    {
      if id.None? {
        currentSheetMusic := None;
        return;
      }
      var found := FindSheet(sheetMusics, id.value);
      if found.Some? {
        currentSheetMusic := found;
        var i :| 0 <= i < |sheetMusics| && sheetMusics[i] == found.value;
        assert SameRecord(sheetMusics[i], found.value);
      }
    }

    /** `updateSheetMusic`: merges the update into the matching records and
        into the current sheet when it matches. The list is stamped with one
        reading, `listTime`, although the code reads the clock once per
        matching record; the two differ only when several listed records share
        the id, which generated ids avoid but the model does not rule out. */
    method UpdateSheetMusic(id: string, updates: Patch, listTime: int, currentTime: int)
      modifies this
      ensures sheetMusics == Revised(old(sheetMusics), id, Patched(updates, listTime))
      ensures currentSheetMusic == RevisedCurrent(old(currentSheetMusic), id, Patched(updates, currentTime))
      ensures old(Valid()) ==> Valid()
      ensures listTime == currentTime && old(Listed()) ==> Listed()
      ensures isScanning == old(isScanning) && isProcessing == old(isProcessing)
    {
      if listTime == currentTime && Listed() {
        ReviseKeepsCurrent(sheetMusics, currentSheetMusic, id, Patched(updates, listTime));
      }
      if Valid() {
        ReviseTracks(sheetMusics, currentSheetMusic, id, Patched(updates, listTime), Patched(updates, currentTime));
      }
      sheetMusics := Revised(sheetMusics, id, Patched(updates, listTime));
      currentSheetMusic := RevisedCurrent(currentSheetMusic, id, Patched(updates, currentTime));
    }

    /** `deleteSheetMusic`: drops every record with the id; the current
        sheet is cleared exactly when it has the id. */
    method DeleteSheetMusic(id: string)
      modifies this
      ensures old(Valid()) ==> Valid()
      ensures old(Listed()) ==> Listed()
      ensures sheetMusics == WithoutSheet(old(sheetMusics), id)
      ensures currentSheetMusic.None? <==> old(currentSheetMusic).None? || old(currentSheetMusic).value.id == id
      ensures currentSheetMusic.Some? ==> currentSheetMusic == old(currentSheetMusic)
      ensures isScanning == old(isScanning) && isProcessing == old(isProcessing)
    {
      WithoutSheetCount(sheetMusics, id);
      if Valid() {
        DeleteKeepsTracks(sheetMusics, currentSheetMusic, id);
      }
      sheetMusics := WithoutSheet(sheetMusics, id);
      if currentSheetMusic.Some? && currentSheetMusic.value.id == id {
        currentSheetMusic := None;
      }
    }

    method SetIsScanning(scanning: bool)
      modifies this
      ensures isScanning == scanning
      ensures sheetMusics == old(sheetMusics) && currentSheetMusic == old(currentSheetMusic)
      ensures isProcessing == old(isProcessing)
    {
      isScanning := scanning;
    }

    method SetIsProcessing(processing: bool)
      modifies this
      ensures isProcessing == processing
      ensures sheetMusics == old(sheetMusics) && currentSheetMusic == old(currentSheetMusic)
      ensures isScanning == old(isScanning)
    {
      isProcessing := processing;
    }

    /** `addAnnotation`: appends the annotation to the matching records and
        to the current sheet when it matches. */
    method AddAnnotation(id: string, text: string, position: Position,
                         annotationId: string, listTime: int, currentTime: int)
      modifies this
      ensures sheetMusics == Revised(old(sheetMusics), id, Annotated(annotationId, text, position, listTime))
      ensures currentSheetMusic ==
              RevisedCurrent(old(currentSheetMusic), id, Annotated(annotationId, text, position, currentTime))
      ensures old(Valid()) ==> Valid()
      ensures listTime == currentTime && old(Listed()) ==> Listed()
      ensures isScanning == old(isScanning) && isProcessing == old(isProcessing)
    {
      if listTime == currentTime && Listed() {
        ReviseKeepsCurrent(sheetMusics, currentSheetMusic, id, Annotated(annotationId, text, position, listTime));
      }
      if Valid() {
        ReviseTracks(sheetMusics, currentSheetMusic, id, Annotated(annotationId, text, position, listTime), Annotated(annotationId, text, position, currentTime));
      }
      sheetMusics := Revised(sheetMusics, id, Annotated(annotationId, text, position, listTime));
      currentSheetMusic := RevisedCurrent(currentSheetMusic, id, Annotated(annotationId, text, position, currentTime));
    }

    /** `updateAnnotation`: replaces the text of the matching annotations. */
    method UpdateAnnotation(sheetMusicId: string, annotationId: string, text: string,
                            listTime: int, currentTime: int)
      modifies this
      ensures sheetMusics == Revised(old(sheetMusics), sheetMusicId, AnnotationRetexted(annotationId, text, listTime))
      ensures currentSheetMusic ==
              RevisedCurrent(old(currentSheetMusic), sheetMusicId, AnnotationRetexted(annotationId, text, currentTime))
      ensures old(Valid()) ==> Valid()
      ensures listTime == currentTime && old(Listed()) ==> Listed()
      ensures isScanning == old(isScanning) && isProcessing == old(isProcessing)
    {
      if listTime == currentTime && Listed() {
        ReviseKeepsCurrent(sheetMusics, currentSheetMusic, sheetMusicId, AnnotationRetexted(annotationId, text, listTime));
      }
      if Valid() {
        ReviseTracks(sheetMusics, currentSheetMusic, sheetMusicId, AnnotationRetexted(annotationId, text, listTime), AnnotationRetexted(annotationId, text, currentTime));
      }
      sheetMusics := Revised(sheetMusics, sheetMusicId, AnnotationRetexted(annotationId, text, listTime));
      currentSheetMusic := RevisedCurrent(currentSheetMusic, sheetMusicId, AnnotationRetexted(annotationId, text, currentTime));
    }

    /** `deleteAnnotation`: drops the matching annotations. */
    method DeleteAnnotation(sheetMusicId: string, annotationId: string, listTime: int, currentTime: int)
      modifies this
      ensures sheetMusics == Revised(old(sheetMusics), sheetMusicId, AnnotationRemoved(annotationId, listTime))
      ensures currentSheetMusic ==
              RevisedCurrent(old(currentSheetMusic), sheetMusicId, AnnotationRemoved(annotationId, currentTime))
      ensures old(Valid()) ==> Valid()
      ensures listTime == currentTime && old(Listed()) ==> Listed()
      ensures isScanning == old(isScanning) && isProcessing == old(isProcessing)
    {
      if listTime == currentTime && Listed() {
        ReviseKeepsCurrent(sheetMusics, currentSheetMusic, sheetMusicId, AnnotationRemoved(annotationId, listTime));
      }
      if Valid() {
        ReviseTracks(sheetMusics, currentSheetMusic, sheetMusicId, AnnotationRemoved(annotationId, listTime), AnnotationRemoved(annotationId, currentTime));
      }
      sheetMusics := Revised(sheetMusics, sheetMusicId, AnnotationRemoved(annotationId, listTime));
      currentSheetMusic := RevisedCurrent(currentSheetMusic, sheetMusicId, AnnotationRemoved(annotationId, currentTime));
    }
  }

  /** Revising the list and the current sheet with the same `f` keeps the
      current sheet listed. */
  lemma ReviseKeepsCurrent(list: seq<SheetMusic>, current: Option<SheetMusic>, id: string, f: SheetMusic -> SheetMusic)
    requires current.Some? ==> current.value in list
    ensures var c := RevisedCurrent(current, id, f);
            c.Some? ==> c.value in Revised(list, id, f)
  {
    if current.Some? {
      RevisedKeepsListed(list, id, f, current.value);
    }
  }

  /** Revising the list with `f` and the current sheet with `g`, where `f`
      and `g` agree on records that agree up to the update time, keeps the
      current sheet tracking a listed record. */
  lemma ReviseTracks(list: seq<SheetMusic>, current: Option<SheetMusic>, id: string,
                     f: SheetMusic -> SheetMusic, g: SheetMusic -> SheetMusic)
    requires Tracks(list, current)
    requires forall a, b :: SameRecord(a, b) ==> SameRecord(f(a), g(b))
    ensures Tracks(Revised(list, id, f), RevisedCurrent(current, id, g))
  {
    if current.Some? {
      var i :| 0 <= i < |list| && SameRecord(list[i], current.value);
      var revised := Revised(list, id, f);
      assert list[i].id == current.value.id by {
        assert list[i].(updatedAt := 0).id == current.value.(updatedAt := 0).id;
      }
      assert SameRecord(revised[i], RevisedCurrent(current, id, g).value);
    }
  }

  /** Deleting a sheet keeps the current sheet tracking a listed record,
      unless it is the deleted one. */
  lemma DeleteKeepsTracks(list: seq<SheetMusic>, current: Option<SheetMusic>, id: string)
    requires Tracks(list, current)
    ensures Tracks(WithoutSheet(list, id), if current.Some? && current.value.id == id then None else current)
  {
    if current.Some? && current.value.id != id {
      var i :| 0 <= i < |list| && SameRecord(list[i], current.value);
      assert list[i].id == current.value.id by {
        assert list[i].(updatedAt := 0).id == current.value.(updatedAt := 0).id;
      }
      WithoutSheetCount(list, id);
      var rest := WithoutSheet(list, id);
      assert list[i] in rest;
      var j :| 0 <= j < |rest| && rest[j] == list[i];
      assert SameRecord(rest[j], current.value);
    }
  }

  /** The two stamps of each revising action agree on records that agree up
      to their update time, whatever the two clock readings. */
  lemma RevisionsIgnoreTime(p: Patch, annotationId: string, text: string, position: Position, t1: int, t2: int)
    ensures forall a, b :: SameRecord(a, b) ==> SameRecord(Patched(p, t1)(a), Patched(p, t2)(b))
    ensures forall a, b :: SameRecord(a, b) ==>
              SameRecord(Annotated(annotationId, text, position, t1)(a), Annotated(annotationId, text, position, t2)(b))
    ensures forall a, b :: SameRecord(a, b) ==>
              SameRecord(AnnotationRetexted(annotationId, text, t1)(a), AnnotationRetexted(annotationId, text, t2)(b))
    ensures forall a, b :: SameRecord(a, b) ==>
              SameRecord(AnnotationRemoved(annotationId, t1)(a), AnnotationRemoved(annotationId, t2)(b))
  {
  }

  /** A new annotation lands at the end of the list, after the old ones in order. */
  lemma AnnotatedAppends(sm: SheetMusic, annotationId: string, text: string, position: Position, now: int)
    ensures var r := Annotated(annotationId, text, position, now)(sm);
            AnnotationsOf(r) == AnnotationsOf(sm) + [Annotation(annotationId, text, position)] &&
            r.id == sm.id && r.name == sm.name && r.updatedAt == now
  {
  }
}
