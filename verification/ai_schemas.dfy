/**
 * The validation schemas for AI output (src/lib/validation/ai-schemas.ts).
 * Each schema's bounds become a validity predicate over an already-typed
 * value; `parseAIOutput` returns the value exactly when it is valid.
 */
module AiSchemas {
  import opened Common

  /** The nine `layoutHint` tags the schemas accept. */
  const LayoutHints: set<string> :=
    {"title", "agenda", "content", "content_image_left", "content_image_right",
     "two_column", "timeline", "summary", "qa"}

  /** `z.string().max(n).optional()`. */
  predicate OptionalAtMost(o: Option<string>, n: nat) {
    o.None? || |o.value| <= n
  }

  predicate OptionalHint(o: Option<string>) {
    o.None? || o.value in LayoutHints
  }

  /** Every string of the list has at most `n` characters. */
  predicate AllAtMost(xs: seq<string>, n: nat) {
    forall i :: 0 <= i < |xs| ==> |xs[i]| <= n
  }

  datatype SlideContent = SlideContent(
    title: string,
    bullets: seq<string>,
    speakerNotes: Option<string>,
    layoutHint: Option<string>,
    imageQuery: Option<string>)

  /** SlideContentSchema. */
  predicate ValidSlideContent(c: SlideContent) {
    1 <= |c.title| <= 200 &&
    1 <= |c.bullets| <= 10 && AllAtMost(c.bullets, 300) &&
    OptionalAtMost(c.speakerNotes, 2000) &&
    OptionalHint(c.layoutHint) &&
    OptionalAtMost(c.imageQuery, 100)
  }

  datatype OutlineSlide = OutlineSlide(
    title: string,
    keyPoints: seq<string>,
    purpose: Option<string>,
    layoutHint: Option<string>,
    imageQuery: Option<string>)

  datatype DeckOutline = DeckOutline(slides: seq<OutlineSlide>)

  predicate ValidOutlineSlide(s: OutlineSlide) {
    1 <= |s.title| <= 200 &&
    1 <= |s.keyPoints| <= 8 && AllAtMost(s.keyPoints, 300) &&
    OptionalAtMost(s.purpose, 200) &&
    OptionalHint(s.layoutHint) &&
    OptionalAtMost(s.imageQuery, 100)
  }

  /** DeckOutlineSchema. */
  predicate ValidDeckOutline(d: DeckOutline) {
    1 <= |d.slides| <= 30 && forall i :: 0 <= i < |d.slides| ==> ValidOutlineSlide(d.slides[i])
  }

  /** TopicSuggestionsSchema. */
  predicate ValidTopicSuggestions(ts: seq<string>) {
    1 <= |ts| <= 10 && forall i :: 0 <= i < |ts| ==> 1 <= |ts[i]| <= 200
  }

  datatype RewrittenContent = RewrittenContent(title: string, bullets: seq<string>, speakerNotes: Option<string>)

  /** RewrittenContentSchema. */
  predicate ValidRewrittenContent(c: RewrittenContent) {
    1 <= |c.title| <= 200 &&
    1 <= |c.bullets| <= 10 && AllAtMost(c.bullets, 300) &&
    OptionalAtMost(c.speakerNotes, 2000)
  }

  datatype PanicDeck = PanicDeck(slides: seq<SlideContent>)

  /** PanicDeckSchema. */
  predicate ValidPanicDeck(d: PanicDeck) {
    1 <= |d.slides| <= 30 && forall i :: 0 <= i < |d.slides| ==> ValidSlideContent(d.slides[i])
  }

  /** parseAIOutput: the data when it satisfies the schema, null otherwise. */
  function ParseAIOutput<T>(valid: T -> bool, data: T): (r: Option<T>)
    ensures r.Some? <==> valid(data)
    ensures r.Some? ==> r.value == data
  {
    if valid(data) then Some(data) else None
  }

  /** The rewrite schema accepts exactly the title, bullets and notes of a valid slide. */
  lemma RewriteIsSlideContentRestricted(c: SlideContent)
    ensures ValidRewrittenContent(RewrittenContent(c.title, c.bullets, c.speakerNotes)) <==>
      ValidSlideContent(c.(layoutHint := None, imageQuery := None))
  {
  }

  /** A valid outline slide, with its key points as bullets, is valid slide content. */
  lemma OutlineSlideIsSlideContent(s: OutlineSlide)
    requires ValidOutlineSlide(s)
    ensures ValidSlideContent(SlideContent(s.title, s.keyPoints, None, s.layoutHint, s.imageQuery))
  {
  }

  /** The converse fails: slide content may carry up to ten bullets, an outline slide eight. */
  lemma NineBulletsNotAnOutline()
    ensures var pts := ["a", "b", "c", "d", "e", "f", "g", "h", "i"];
      ValidSlideContent(SlideContent("T", pts, None, None, None)) &&
      !ValidOutlineSlide(OutlineSlide("T", pts, None, None, None))
  {
    var pts := ["a", "b", "c", "d", "e", "f", "g", "h", "i"];
    assert forall i :: 0 <= i < |pts| ==> |pts[i]| == 1;
  }

  /** Zod's check of a panic deck, element by element. */
  method CheckPanicDeck(d: PanicDeck) returns (ok: bool)
    ensures ok <==> ValidPanicDeck(d)
  {
    if !(1 <= |d.slides| <= 30) {
      return false;
    }
    var i := 0;
    while i < |d.slides|
      invariant 0 <= i <= |d.slides|
      invariant forall k :: 0 <= k < i ==> ValidSlideContent(d.slides[k])
    {
      var c := d.slides[i];
      var bulletsOk := true;
      var j := 0;
      while j < |c.bullets|
        invariant 0 <= j <= |c.bullets|
        invariant bulletsOk <==> forall k :: 0 <= k < j ==> |c.bullets[k]| <= 300
      {
        bulletsOk := bulletsOk && |c.bullets[j]| <= 300;
        j := j + 1;
      }
      var slideOk := 1 <= |c.title| <= 200 && 1 <= |c.bullets| <= 10 && bulletsOk &&
        OptionalAtMost(c.speakerNotes, 2000) && OptionalHint(c.layoutHint) && OptionalAtMost(c.imageQuery, 100);
      if !slideOk {
        return false;
      }
      i := i + 1;
    }
    return true;
  }
}
