/**
 * The slide editor's client state (src/store/editor.store.ts) as pure state
 * transitions: every action maps the current state to the next one.
 */
module EditorStore {
  import opened Common
  import opened ProjectsStore

  /** A slide record; `createdAt` and `updatedAt` are left out. */
  datatype Slide = Slide(
    id: string,
    projectId: string,
    order: int,
    layout: string,
    title: string,
    bullets: seq<string>,
    speakerNotes: Option<string>,
    imageAssetId: Option<string>)

  /**
   * `Partial<Slide>`: a field is overridden when the patch carries it. The
   * nullable fields carry an inner Option so that a patch can set them to null.
   */
  datatype SlidePatch = SlidePatch(
    id: Option<string>,
    projectId: Option<string>,
    order: Option<int>,
    layout: Option<string>,
    title: Option<string>,
    bullets: Option<seq<string>>,
    speakerNotes: Option<Option<string>>,
    imageAssetId: Option<Option<string>>)

  const EmptyPatch := SlidePatch(None, None, None, None, None, None, None, None)

  datatype SaveStatus = Idle | Saving | Saved | SaveError

  /** The store's state; `lastSavedAt` is a clock reading in milliseconds. */
  datatype EditorState = EditorState(
    project: Option<Project>,
    slides: seq<Slide>,
    selectedSlideId: Option<string>,
    saveStatus: SaveStatus,
    isDirty: bool,
    lastSavedAt: Option<int>)

  const InitialEditor := EditorState(None, [], None, Idle, false, None)

  /** `{ ...s, ...updates }`: each field the patch carries wins. */
  function Merge(s: Slide, u: SlidePatch): (r: Slide)
    ensures r.id == u.id.GetOr(s.id) && r.order == u.order.GetOr(s.order)
    ensures r.projectId == u.projectId.GetOr(s.projectId) && r.layout == u.layout.GetOr(s.layout)
    ensures r.title == u.title.GetOr(s.title) && r.bullets == u.bullets.GetOr(s.bullets)
    ensures r.speakerNotes == u.speakerNotes.GetOr(s.speakerNotes)
    ensures r.imageAssetId == u.imageAssetId.GetOr(s.imageAssetId)
    ensures u == EmptyPatch ==> r == s
  {
    Slide(u.id.GetOr(s.id), u.projectId.GetOr(s.projectId), u.order.GetOr(s.order),
          u.layout.GetOr(s.layout), u.title.GetOr(s.title), u.bullets.GetOr(s.bullets),
          u.speakerNotes.GetOr(s.speakerNotes), u.imageAssetId.GetOr(s.imageAssetId))
  }

  // ---------------------------------------------------------------------
  // Basic setters: each changes its own field only.
  // ---------------------------------------------------------------------

  function SetProject(st: EditorState, project: Option<Project>): (r: EditorState)
    ensures r.project == project
    ensures r.slides == st.slides && r.selectedSlideId == st.selectedSlideId
    ensures r.saveStatus == st.saveStatus && r.isDirty == st.isDirty && r.lastSavedAt == st.lastSavedAt
  {
    st.(project := project)
  }

  function SetSlides(st: EditorState, slides: seq<Slide>): (r: EditorState)
    ensures r.slides == slides
    ensures r.project == st.project && r.selectedSlideId == st.selectedSlideId
    ensures r.saveStatus == st.saveStatus && r.isDirty == st.isDirty && r.lastSavedAt == st.lastSavedAt
  {
    st.(slides := slides)
  }

  function SelectSlide(st: EditorState, slideId: Option<string>): (r: EditorState)
    ensures r.selectedSlideId == slideId
    ensures r.project == st.project && r.slides == st.slides
    ensures r.saveStatus == st.saveStatus && r.isDirty == st.isDirty && r.lastSavedAt == st.lastSavedAt
  {
    st.(selectedSlideId := slideId)
  }

  function SetSaveStatus(st: EditorState, status: SaveStatus): (r: EditorState)
    ensures r.saveStatus == status
    ensures r.project == st.project && r.slides == st.slides && r.selectedSlideId == st.selectedSlideId
    ensures r.isDirty == st.isDirty && r.lastSavedAt == st.lastSavedAt
  {
    st.(saveStatus := status)
  }

  function MarkDirty(st: EditorState): (r: EditorState)
    ensures r.isDirty
    ensures r.project == st.project && r.slides == st.slides && r.selectedSlideId == st.selectedSlideId
    ensures r.saveStatus == st.saveStatus && r.lastSavedAt == st.lastSavedAt
  {
    st.(isDirty := true)
  }

  /** markSaved: clean, "saved", stamped with the clock reading `now`. */
  function MarkSaved(st: EditorState, now: int): (r: EditorState)
    ensures !r.isDirty && r.saveStatus == Saved && r.lastSavedAt == Some(now)
    ensures r.project == st.project && r.slides == st.slides && r.selectedSlideId == st.selectedSlideId
  {
    st.(isDirty := false, saveStatus := Saved, lastSavedAt := Some(now))
  }

  /** Saving absorbs an earlier markDirty: the dirty flag leaves no trace. */
  lemma MarkSavedAbsorbsDirty(st: EditorState, now: int)
    ensures MarkSaved(MarkDirty(st), now) == MarkSaved(st, now)
  {
  }

  // ---------------------------------------------------------------------
  // Slide mutations: each marks the state dirty.
  // ---------------------------------------------------------------------

  /** The slide list after `updateSlide`: merge into every slide with the id. */
  function UpdateSlides(slides: seq<Slide>, slideId: string, u: SlidePatch): (r: seq<Slide>)
    ensures |r| == |slides|
    ensures forall i :: 0 <= i < |slides| && slides[i].id == slideId ==> r[i] == Merge(slides[i], u)
    ensures forall i :: 0 <= i < |slides| && slides[i].id != slideId ==> r[i] == slides[i]
  {
    if |slides| == 0 then []
    else
      [if slides[0].id == slideId then Merge(slides[0], u) else slides[0]]
        + UpdateSlides(slides[1..], slideId, u)
  }

  function UpdateSlide(st: EditorState, slideId: string, u: SlidePatch): (r: EditorState)
    ensures r.slides == UpdateSlides(st.slides, slideId, u) && r.isDirty
    ensures r.project == st.project && r.selectedSlideId == st.selectedSlideId
    ensures r.saveStatus == st.saveStatus && r.lastSavedAt == st.lastSavedAt
  {
    st.(slides := UpdateSlides(st.slides, slideId, u), isDirty := true)
  }

  /** An update aimed at an id no slide has, or an empty patch, leaves the slides as they were. */
  lemma UpdateSlideNoOp(st: EditorState, slideId: string, u: SlidePatch)
    requires u == EmptyPatch || forall i :: 0 <= i < |st.slides| ==> st.slides[i].id != slideId
    ensures UpdateSlide(st, slideId, u).slides == st.slides
  {
    var r := UpdateSlide(st, slideId, u).slides;
    assert forall i :: 0 <= i < |r| ==> r[i] == st.slides[i];
  }

  /** A patch that does not carry an id keeps every slide's id where it was. */
  lemma UpdateSlideKeepsIds(st: EditorState, slideId: string, u: SlidePatch, i: int)
    requires u.id.None? && 0 <= i < |st.slides|
    ensures UpdateSlide(st, slideId, u).slides[i].id == st.slides[i].id
  {
  }

  function AddSlide(st: EditorState, s: Slide): (r: EditorState)
    ensures |r.slides| == |st.slides| + 1 && r.slides[|st.slides|] == s
    ensures r.slides[..|st.slides|] == st.slides && r.isDirty
    ensures r.project == st.project && r.selectedSlideId == st.selectedSlideId
    ensures r.saveStatus == st.saveStatus && r.lastSavedAt == st.lastSavedAt
  {
    st.(slides := st.slides + [s], isDirty := true)
  }

  /** The filter's verdict on one slide: kept as a one-element list, or dropped. */
  function Keep(s: Slide, slideId: string): seq<Slide> {
    if s.id != slideId then [s] else []
  }

  /** `slides.filter(s => s.id !== slideId)`. */
  function Without(slides: seq<Slide>, slideId: string): (r: seq<Slide>)
    ensures |r| <= |slides|
  {
    if |slides| == 0 then [] else Keep(slides[0], slideId) + Without(slides[1..], slideId)
  }

  /** The survivors are exactly the slides whose id differs from the deleted one. */
  lemma {:induction false} WithoutMembers(slides: seq<Slide>, slideId: string)
    ensures forall s :: s in Without(slides, slideId) <==> s in slides && s.id != slideId
  {
    if |slides| > 0 {
      WithoutMembers(slides[1..], slideId);
      assert slides == [slides[0]] + slides[1..];
    }
  }

  lemma WithoutCons(x: Slide, rest: seq<Slide>, slideId: string)
    ensures Without([x] + rest, slideId) == Keep(x, slideId) + Without(rest, slideId)
  {
    assert ([x] + rest)[1..] == rest;
  }

  /** Filtering distributes over concatenation, so survivors keep their relative order. */
  lemma {:induction false} WithoutAppend(a: seq<Slide>, b: seq<Slide>, slideId: string)
    ensures Without(a + b, slideId) == Without(a, slideId) + Without(b, slideId)
  {
    if |a| == 0 {
      assert a + b == b;
    } else {
      var x := a[0];
      var t := a[1..];
      var k := Keep(x, slideId);
      assert a == [x] + t;
      assert a + b == [x] + (t + b);
      calc {
        Without(a + b, slideId);
        { WithoutCons(x, t + b, slideId); }
        k + Without(t + b, slideId);
        { WithoutAppend(t, b, slideId); }
        k + (Without(t, slideId) + Without(b, slideId));
        { assert k + (Without(t, slideId) + Without(b, slideId)) == (k + Without(t, slideId)) + Without(b, slideId); }
        (k + Without(t, slideId)) + Without(b, slideId);
        { WithoutCons(x, t, slideId); }
        Without(a, slideId) + Without(b, slideId);
      }
    }
  }

  /** A list with no slide of that id is returned unchanged. */
  lemma {:induction false} WithoutAbsent(slides: seq<Slide>, slideId: string)
    requires forall i :: 0 <= i < |slides| ==> slides[i].id != slideId
    ensures Without(slides, slideId) == slides
  {
    if |slides| > 0 {
      WithoutAbsent(slides[1..], slideId);
      assert slides == [slides[0]] + slides[1..];
    }
  }

  /** `slides[0]?.id || null`. */
  function FirstIdOr(slides: seq<Slide>): (r: Option<string>)
    ensures r.Some? <==> |slides| > 0 && slides[0].id != ""
    ensures r.Some? ==> r.value == slides[0].id
  {
    if |slides| > 0 && slides[0].id != "" then Some(slides[0].id) else None
  }

  /**
   * deleteSlide as written: when the selected slide is deleted, the new
   * selection is the first slide of the list BEFORE deletion.
   */
  function DeleteSlide(st: EditorState, slideId: string): (r: EditorState)
    ensures r.slides == Without(st.slides, slideId) && r.isDirty
    ensures st.selectedSlideId == Some(slideId) ==> r.selectedSlideId == FirstIdOr(st.slides)
    ensures st.selectedSlideId != Some(slideId) ==> r.selectedSlideId == st.selectedSlideId
    ensures r.project == st.project && r.saveStatus == st.saveStatus && r.lastSavedAt == st.lastSavedAt
  {
    st.(slides := Without(st.slides, slideId),
        selectedSlideId := if st.selectedSlideId == Some(slideId) then FirstIdOr(st.slides)
                           else st.selectedSlideId,
        isDirty := true)
  }

  /**
   * Deleting the selected slide when it is the first one re-selects the id
   * that was just deleted: the selection then names no slide at all.
   */
  lemma DeleteSelectedFirstReselectsIt(st: EditorState)
    requires |st.slides| > 0 && st.slides[0].id != ""
    requires st.selectedSlideId == Some(st.slides[0].id)
    ensures var r := DeleteSlide(st, st.slides[0].id);
      r.selectedSlideId == Some(st.slides[0].id) &&
      forall s :: s in r.slides ==> s.id != r.selectedSlideId.value
  {
    WithoutMembers(st.slides, st.slides[0].id);
  }

  /** The selection points at a slide of the list, or at nothing. */
  predicate SelectionValid(st: EditorState) {
    st.selectedSlideId.None? || exists s :: s in st.slides && s.id == st.selectedSlideId.value
  }

  /**
   * deleteSlide as evidently intended: the fallback is the first slide that
   * survives the deletion.
   */
  function DeleteSlideIntended(st: EditorState, slideId: string): (r: EditorState)
    ensures r.slides == Without(st.slides, slideId) && r.isDirty
    ensures r.selectedSlideId != Some(slideId)
    ensures st.selectedSlideId != Some(slideId) ==> r.selectedSlideId == st.selectedSlideId
    ensures r.project == st.project && r.saveStatus == st.saveStatus && r.lastSavedAt == st.lastSavedAt
  {
    var rest := Without(st.slides, slideId);
    WithoutMembers(st.slides, slideId);
    assert |rest| > 0 ==> rest[0] in rest;
    st.(slides := rest,
        selectedSlideId := if st.selectedSlideId == Some(slideId) then FirstIdOr(rest)
                           else st.selectedSlideId,
        isDirty := true)
  }

  /** The intended deletion keeps a valid selection valid; the one as written does not. */
  lemma DeleteSlideIntendedKeepsSelection(st: EditorState, slideId: string)
    requires SelectionValid(st)
    ensures SelectionValid(DeleteSlideIntended(st, slideId))
  {
    var r := DeleteSlideIntended(st, slideId);
    WithoutMembers(st.slides, slideId);
    if st.selectedSlideId == Some(slideId) {
      if r.selectedSlideId.Some? {
        assert r.slides[0] in r.slides;
      }
    } else if st.selectedSlideId.Some? {
      var s :| s in st.slides && s.id == st.selectedSlideId.value;
      assert s in r.slides;
    }
  }

  /** The two definitions differ only in the selection after deleting the selected slide. */
  lemma DeleteSlideVersionsAgree(st: EditorState, slideId: string)
    requires st.selectedSlideId != Some(slideId) || |st.slides| == 0 || st.slides[0].id != slideId
    ensures DeleteSlideIntended(st, slideId) == DeleteSlide(st, slideId)
  {
    if st.selectedSlideId == Some(slideId) && |st.slides| > 0 {
      assert st.slides == [st.slides[0]] + st.slides[1..];
      WithoutAppend([st.slides[0]], st.slides[1..], slideId);
      assert Without([st.slides[0]], slideId) == [st.slides[0]];
    }
  }

  // ---------------------------------------------------------------------
  // reorderSlides
  // ---------------------------------------------------------------------

  /**
   * `new Map(slides.map(s => [s.id, s])).get(id)`: a later slide with the
   * same id overwrites an earlier one, so the last match wins.
   */
  function Lookup(slides: seq<Slide>, id: string): (r: Option<Slide>)
    ensures r.Some? <==> exists s :: s in slides && s.id == id
    ensures r.Some? ==> r.value in slides && r.value.id == id
  {
    if |slides| == 0 then None
    else if slides[|slides| - 1].id == id then Some(slides[|slides| - 1])
    else
      var r := Lookup(slides[..|slides| - 1], id);
      assert forall s :: s in slides[..|slides| - 1] ==> s in slides;
      assert forall s :: s in slides ==> s in slides[..|slides| - 1] || s == slides[|slides| - 1];
      r
  }

  /** The last-wins rule: the slide found is the last one carrying the id. */
  lemma {:induction false} LookupLastWins(slides: seq<Slide>, id: string, k: nat)
    requires k < |slides| && slides[k].id == id
    requires forall j :: k < j < |slides| ==> slides[j].id != id
    ensures Lookup(slides, id) == Some(slides[k])
    decreases |slides|
  {
    if k < |slides| - 1 {
      var init := slides[..|slides| - 1];
      assert slides[|slides| - 1].id != id;
      assert init[k] == slides[k];
      assert forall j :: k < j < |init| ==> init[j] == slides[j];
      LookupLastWins(init, id, k);
    }
  }

  /** The contribution of the id at position `n`: its slide renumbered to `n`, or nothing. */
  function Placed(slides: seq<Slide>, orderedIds: seq<string>, n: nat): seq<Slide>
    requires n < |orderedIds|
  {
    match Lookup(slides, orderedIds[n])
    case None => []
    case Some(s) => [s.(order := n)]
  }

  /**
   * The list that `reorderSlides` builds: for each listed id with a slide,
   * that slide renumbered to the id's index; ids without a slide are dropped.
   */
  function Reordered(slides: seq<Slide>, orderedIds: seq<string>): (r: seq<Slide>)
    ensures |r| <= |orderedIds|
  {
    if |orderedIds| == 0 then []
    else
      var n := |orderedIds| - 1;
      Reordered(slides, orderedIds[..n]) + Placed(slides, orderedIds, n)
  }

  /** A kept slide is the listed id's slide with `order` set to the id's index. */
  predicate PlacedFrom(slides: seq<Slide>, orderedIds: seq<string>, s: Slide) {
    0 <= s.order < |orderedIds| && orderedIds[s.order] == s.id &&
    Lookup(slides, s.id).Some? && s == Lookup(slides, s.id).value.(order := s.order)
  }

  /** The last step of the recursion: the list for all but the last id, then the last id's slide. */
  lemma ReorderedSnoc(slides: seq<Slide>, orderedIds: seq<string>)
    requires |orderedIds| > 0
    ensures Reordered(slides, orderedIds) ==
      Reordered(slides, orderedIds[..|orderedIds| - 1]) + Placed(slides, orderedIds, |orderedIds| - 1)
  {
  }

  /** Placement against a prefix of the id list is placement against the whole list. */
  lemma PlacedExtends(slides: seq<Slide>, front: seq<string>, orderedIds: seq<string>, s: Slide)
    requires front <= orderedIds && PlacedFrom(slides, front, s)
    ensures PlacedFrom(slides, orderedIds, s)
  {
    assert orderedIds[s.order] == front[s.order];
  }

  /** Every kept slide is the listed id's slide renumbered to that id's index. */
  lemma {:induction false} ReorderedPlaced(slides: seq<Slide>, orderedIds: seq<string>)
    ensures var r := Reordered(slides, orderedIds);
      forall k :: 0 <= k < |r| ==> PlacedFrom(slides, orderedIds, r[k])
  {
    if |orderedIds| > 0 {
      var n := |orderedIds| - 1;
      var front := orderedIds[..n];
      ReorderedPlaced(slides, front);
      var init := Reordered(slides, front);
      var p := Placed(slides, orderedIds, n);
      var r := Reordered(slides, orderedIds);
      ReorderedSnoc(slides, orderedIds);
      forall k | 0 <= k < |r|
        ensures PlacedFrom(slides, orderedIds, r[k])
      {
        if k < |init| {
          assert r[k] == init[k];
          PlacedExtends(slides, front, orderedIds, init[k]);
        } else {
          assert r[k] == p[k - |init|];
        }
      }
    }
  }

  /** Every `order` lies in `[0, bound)` and the orders strictly increase along the list. */
  predicate OrdersAscending(r: seq<Slide>, bound: int) {
    (forall k :: 0 <= k < |r| ==> 0 <= r[k].order < bound) &&
    (forall a, b :: 0 <= a < b < |r| ==> r[a].order < r[b].order)
  }

  /** Appending at most one slide numbered `n` to a list ascending below `n` keeps it ascending. */
  lemma AscendingSnoc(init: seq<Slide>, p: seq<Slide>, n: nat)
    requires OrdersAscending(init, n)
    requires |p| <= 1 && forall k :: 0 <= k < |p| ==> p[k].order == n
    ensures OrdersAscending(init + p, n + 1)
  {
    var r := init + p;
    assert forall k :: 0 <= k < |init| ==> r[k] == init[k];
    assert forall k :: |init| <= k < |r| ==> r[k] == p[k - |init|];
  }

  /** The kept slides' orders stay below the number of ids and strictly increase along the list. */
  lemma {:induction false} ReorderedAscending(slides: seq<Slide>, orderedIds: seq<string>)
    ensures OrdersAscending(Reordered(slides, orderedIds), |orderedIds|)
  {
    if |orderedIds| > 0 {
      var n := |orderedIds| - 1;
      var front := orderedIds[..n];
      ReorderedAscending(slides, front);
      var p := Placed(slides, orderedIds, n);
      assert |p| <= 1 && forall k :: 0 <= k < |p| ==> p[k].order == n;
      ReorderedSnoc(slides, orderedIds);
      AscendingSnoc(Reordered(slides, front), p, n);
    }
  }

  /** An id with a slide places exactly that slide, renumbered to the id's index. */
  lemma PlacedFound(slides: seq<Slide>, orderedIds: seq<string>, n: nat)
    requires n < |orderedIds| && Lookup(slides, orderedIds[n]).Some?
    ensures Placed(slides, orderedIds, n) == [Lookup(slides, orderedIds[n]).value.(order := n)]
  {
  }

  /** Every listed id that has a slide contributes that slide, renumbered to the id's index. */
  lemma {:induction false} ReorderedCovers(slides: seq<Slide>, orderedIds: seq<string>, i: int)
    requires 0 <= i < |orderedIds| && Lookup(slides, orderedIds[i]).Some?
    ensures Lookup(slides, orderedIds[i]).value.(order := i) in Reordered(slides, orderedIds)
  {
    var n := |orderedIds| - 1;
    var front := orderedIds[..n];
    var v := Lookup(slides, orderedIds[i]).value.(order := i);
    var init := Reordered(slides, front);
    var p := Placed(slides, orderedIds, n);
    ReorderedSnoc(slides, orderedIds);
    if i < n {
      assert front[i] == orderedIds[i];
      ReorderedCovers(slides, front, i);
      InAppend(v, init, p);
    } else {
      assert i == n;
      PlacedFound(slides, orderedIds, n);
      assert p == [v];
      InAppend(v, init, p);
    }
  }

  lemma InAppend(x: Slide, a: seq<Slide>, b: seq<Slide>)
    requires x in a || x in b
    ensures x in a + b
  {
  }



  function ReorderSlides(st: EditorState, orderedIds: seq<string>): (r: EditorState)
    ensures r.slides == Reordered(st.slides, orderedIds) && r.isDirty
    ensures r.project == st.project && r.selectedSlideId == st.selectedSlideId
    ensures r.saveStatus == st.saveStatus && r.lastSavedAt == st.lastSavedAt
  {
    st.(slides := Reordered(st.slides, orderedIds), isDirty := true)
  }

  /** Slide ids are pairwise distinct. */
  predicate DistinctIds(slides: seq<Slide>) {
    forall i, j :: 0 <= i < j < |slides| ==> slides[i].id != slides[j].id
  }

  function Ids(slides: seq<Slide>): (r: seq<string>)
    ensures |r| == |slides| && forall i :: 0 <= i < |slides| ==> r[i] == slides[i].id
  {
    seq(|slides|, i requires 0 <= i < |slides| => slides[i].id)
  }

  /** With distinct ids, the map lookup finds the one slide carrying the id. */
  lemma LookupDistinct(slides: seq<Slide>, i: int)
    requires DistinctIds(slides) && 0 <= i < |slides|
    ensures Lookup(slides, slides[i].id) == Some(slides[i])
  {
    var r := Lookup(slides, slides[i].id);
    var k :| 0 <= k < |slides| && slides[k] == r.value;
    assert k == i;
  }

  /**
   * Reordering by the slides' own ids keeps every slide in place and only
   * renumbers `order` to the position.
   */
  lemma {:induction false} ReorderByOwnIds(slides: seq<Slide>)
    requires DistinctIds(slides)
    ensures Reordered(slides, Ids(slides)) == Renumbered(slides, |slides|)
  {
    ReorderPrefix(slides, |slides|);
    assert Ids(slides)[..|slides|] == Ids(slides);
  }

  /** With distinct ids, the `n`-th listed own id places slide `n` renumbered to `n`. */
  lemma PlacedOwnId(slides: seq<Slide>, n: nat)
    requires DistinctIds(slides) && n < |slides|
    ensures Placed(slides, Ids(slides)[..n + 1], n) == [slides[n].(order := n)]
  {
    LookupDistinct(slides, n);
    assert Ids(slides)[..n + 1][n] == slides[n].id;
  }

  /** The first `n` slides renumbered to their positions. */
  function Renumbered(slides: seq<Slide>, n: nat): (r: seq<Slide>)
    requires n <= |slides|
    ensures |r| == n && forall i :: 0 <= i < n ==> r[i] == slides[i].(order := i)
  {
    seq(n, i requires 0 <= i < n => slides[i].(order := i))
  }

  lemma RenumberedSnoc(slides: seq<Slide>, n: nat)
    requires 0 < n <= |slides|
    ensures Renumbered(slides, n) == Renumbered(slides, n - 1) + [slides[n - 1].(order := n - 1)]
  {
  }

  /** Reordering by the first `n` own ids yields the first `n` slides renumbered. */
  lemma {:induction false} ReorderPrefix(slides: seq<Slide>, n: nat)
    requires DistinctIds(slides) && n <= |slides|
    ensures Reordered(slides, Ids(slides)[..n]) == Renumbered(slides, n)
  {
    if n > 0 {
      var ids := Ids(slides)[..n];
      var front := Ids(slides)[..n - 1];
      assert ids[..n - 1] == front;
      calc {
        Reordered(slides, ids);
        { ReorderedSnoc(slides, ids); }
        Reordered(slides, front) + Placed(slides, ids, n - 1);
        { PlacedOwnId(slides, n - 1); }
        Reordered(slides, front) + [slides[n - 1].(order := n - 1)];
        { ReorderPrefix(slides, n - 1); }
        Renumbered(slides, n - 1) + [slides[n - 1].(order := n - 1)];
        { RenumberedSnoc(slides, n); }
        Renumbered(slides, n);
      }
    }
  }
}
