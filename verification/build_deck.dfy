/**
 * The binary slide-deck builder (src/lib/pptx/build-deck.ts).
 *
 * The presentation writer itself is abstracted: a deck is a list of slides,
 * each a list of positioned blocks. Lengths are in hundredths of an inch
 * (the source's 0.5 is 50, 4.3 is 430); widths given as a percentage of the
 * slide stay percentages. Image fetching is an oracle `fetch` that returns
 * the data URI of a reference, or None when the fetch failed or timed out.
 */
module Deck {
  import opened Common

  // ---------------------------------------------------------------------------
  // Template registry
  // ---------------------------------------------------------------------------

  datatype Theme = Theme(
    primary: string,
    secondary: string,
    background: string,
    text: string,
    headingFont: string,
    bodyFont: string)

  const ModernTheme := Theme("2563EB", "3B82F6", "FFFFFF", "1F2937", "Inter", "Inter")
  const CorporateTheme := Theme("1E3A5F", "F97316", "FFFFFF", "1F2937", "Arial", "Arial")
  const CreativeTheme := Theme("9333EA", "EC4899", "FAFAFA", "1F2937", "Poppins", "Poppins")
  const MinimalTheme := Theme("374151", "6B7280", "FFFFFF", "1F2937", "Helvetica", "Helvetica")

  /** The four registered templates, keyed by template id. */
  function Templates(): map<string, Theme> {
    map["modern" := ModernTheme, "corporate" := CorporateTheme,
        "creative" := CreativeTheme, "minimal" := MinimalTheme]
  }

  /** Theme lookup with the `modern` fallback; it never fails. */
  function GetTemplateTheme(templateId: string): (t: Theme)
    ensures t in Templates().Values
    ensures templateId in Templates() ==> t == Templates()[templateId]
    ensures templateId !in Templates() ==> t == Templates()["modern"]
  {
    assert Templates()["modern"] == ModernTheme;
    if templateId in Templates() then Templates()[templateId] else ModernTheme
  }

  // ---------------------------------------------------------------------------
  // Input records
  // ---------------------------------------------------------------------------

  datatype SlideData = SlideData(
    id: string,
    order: int,
    layout: string,
    title: string,
    bullets: seq<string>,
    speakerNotes: Option<string>,
    imageAssetId: Option<string>,
    imageUrl: Option<string>)

  datatype ProjectData = ProjectData(id: string, title: string, topic: string, templateId: string)

  datatype BuildDeckOptions = BuildDeckOptions(
    project: ProjectData,
    slides: seq<SlideData>,
    isFreeTier: bool,
    userName: Option<string>,
    orgName: Option<string>)

  /** Result of one image fetch: a data URI, or None on failure. */
  type Fetcher = string -> Option<string>

  type ImageMap = map<string, string>

  /** The image reference of a slide: `imageUrl || imageAssetId`, when truthy. */
  function ImageRef(s: SlideData): (r: Option<string>)
    ensures r.Some? <==> Truthy(s.imageUrl) || Truthy(s.imageAssetId)
    ensures r.Some? ==> r.value != ""
    ensures Truthy(s.imageUrl) ==> r == s.imageUrl
    ensures !Truthy(s.imageUrl) && Truthy(s.imageAssetId) ==> r == s.imageAssetId
  {
    if Truthy(s.imageUrl) then s.imageUrl else Normalize(s.imageAssetId)
  }

  /** Some slide of `slides` uses `u` as its image reference. */
  predicate Referenced(slides: seq<SlideData>, u: string) {
    exists i :: 0 <= i < |slides| && ImageRef(slides[i]) == Some(u)
  }

  // ---------------------------------------------------------------------------
  // Image prefetch
  // ---------------------------------------------------------------------------

  /**
   * The fetches the loop in prefetchImages issues, in order. The guard
   * `!imageMap.has(url)` is evaluated before any fetch has settled, so the
   * map is still empty and every slide with a reference issues a fetch.
   */
  function FetchRequests(slides: seq<SlideData>): (r: seq<string>)
    ensures |r| <= |slides|
    ensures forall u :: u in r <==> Referenced(slides, u)
  {
    if |slides| == 0 then []
    else
      var front := FetchRequests(slides[..|slides| - 1]);
      var last := slides[|slides| - 1];
      assert forall u :: Referenced(slides, u) <==>
        Referenced(slides[..|slides| - 1], u) || ImageRef(last) == Some(u);
      if ImageRef(last).Some? then front + [ImageRef(last).value] else front
  }

  /** The indices of the slides whose image reference is `u`. */
  function ReferencingIndices(slides: seq<SlideData>, u: string): set<nat> {
    set i: nat | i < |slides| && ImageRef(slides[i]) == Some(u)
  }

  /**
   * One request per referencing slide: every key is requested exactly as
   * often as slides reference it.
   */
  lemma {:induction false} FetchMultiplicity(slides: seq<SlideData>, u: string)
    ensures multiset(FetchRequests(slides))[u] == |ReferencingIndices(slides, u)|
    decreases |slides|
  {
    if |slides| > 0 {
      var n := |slides| - 1;
      var front := slides[..n];
      FetchMultiplicity(front, u);
      var a := ReferencingIndices(front, u);
      var b := ReferencingIndices(slides, u);
      assert forall i: nat :: i < n ==> front[i] == slides[i];
      if ImageRef(slides[n]) == Some(u) {
        assert b == a + {n};
        assert n !in a;
      } else {
        assert b == a;
      }
    }
  }

  /** The requests of two runs of slides are the requests of each run, in order. */
  lemma {:induction false} FetchRequestsAppend(a: seq<SlideData>, b: seq<SlideData>)
    ensures FetchRequests(a + b) == FetchRequests(a) + FetchRequests(b)
    decreases |b|
  {
    if |b| > 0 {
      var n := |b| - 1;
      assert (a + b)[..|a + b| - 1] == a + b[..n];
      FetchRequestsAppend(a, b[..n]);
    } else {
      assert a + b == a;
    }
  }

  /** A single slide requests its reference, if it has one. */
  lemma FetchRequestsSingle(s: SlideData)
    ensures FetchRequests([s]) == if ImageRef(s).Some? then [ImageRef(s).value] else []
  {
    assert [s][..0] == [];
  }

  /** Two slides sharing one URL make the loop fetch that URL twice. */
  lemma DuplicateReferenceFetchedTwice()
    ensures
      var s := SlideData("a", 0, "content", "A", ["x"], None, None, Some("https://img/1"));
      var t := SlideData("b", 1, "content", "B", ["y"], None, None, Some("https://img/1"));
      FetchRequests([s, t]) == ["https://img/1", "https://img/1"]
  {
    var s := SlideData("a", 0, "content", "A", ["x"], None, None, Some("https://img/1"));
    var t := SlideData("b", 1, "content", "B", ["y"], None, None, Some("https://img/1"));
    assert [s, t][..1] == [s];
    assert [s][..0] == [];
  }

  /** First occurrences of `xs`, in order. */
  function Dedup(xs: seq<string>): (r: seq<string>)
    ensures forall u :: u in r <==> u in xs
    ensures forall i, j :: 0 <= i < j < |r| ==> r[i] != r[j]
    ensures |r| <= |xs|
  {
    if |xs| == 0 then []
    else
      var rest := Dedup(xs[..|xs| - 1]);
      var u := xs[|xs| - 1];
      assert forall v :: v in xs <==> v in xs[..|xs| - 1] || v == u;
      if u in rest then rest else rest + [u]
  }

  /** The fetch plan the guard was meant to produce: each reference once. */
  function DistinctFetchRequests(slides: seq<SlideData>): (r: seq<string>)
    ensures forall u :: u in r <==> Referenced(slides, u)
    ensures forall i, j :: 0 <= i < j < |r| ==> r[i] != r[j]
  {
    Dedup(FetchRequests(slides))
  }

  /** The map filled by the settled fetches of `reqs`. */
  function CollectFetched(reqs: seq<string>, fetch: Fetcher): (m: ImageMap)
    ensures forall u :: u in m <==> u in reqs && Truthy(fetch(u))
    ensures forall u :: u in m ==> Truthy(fetch(u)) && m[u] == fetch(u).value
  {
    if |reqs| == 0 then map[]
    else
      var m := CollectFetched(reqs[..|reqs| - 1], fetch);
      var u := reqs[|reqs| - 1];
      assert forall v :: v in reqs <==> v in reqs[..|reqs| - 1] || v == u;
      if Truthy(fetch(u)) then m[u := fetch(u).value] else m
  }

  /**
   * prefetchImages: the keys are exactly the referenced images whose fetch
   * returned data, each bound to that data.
   */
  function PrefetchImages(slides: seq<SlideData>, fetch: Fetcher): (m: ImageMap)
    ensures forall u :: u in m <==> Referenced(slides, u) && Truthy(fetch(u))
    ensures forall u :: u in m ==> Truthy(fetch(u)) && m[u] == fetch(u).value && m[u] != ""
  {
    CollectFetched(DistinctFetchRequests(slides), fetch)
  }

  /** Issuing the duplicate fetches, as the source does, fills the same map. */
  lemma PrefetchIgnoresDuplicates(slides: seq<SlideData>, fetch: Fetcher)
    ensures CollectFetched(FetchRequests(slides), fetch) == PrefetchImages(slides, fetch)
  {
    var a := CollectFetched(FetchRequests(slides), fetch);
    var b := PrefetchImages(slides, fetch);
    assert a.Keys == b.Keys;
  }

  // ---------------------------------------------------------------------------
  // Blocks
  // ---------------------------------------------------------------------------

  datatype Len = Inches(hundredths: int) | Percent(pct: int)

  datatype Box = Box(x: int, y: int, w: Len, h: Option<int>)

  datatype Align = AlignDefault | AlignCenter | AlignCenterMiddle

  datatype TextStyle = TextStyle(
    fontSize: int,
    color: string,
    font: Option<string>,
    bold: bool,
    align: Align,
    lineSpacing: Option<real>)

  /** Plain text, or the bulleted paragraphs formatBullets produces. */
  datatype TextContent = Plain(text: string) | Bullets(items: seq<string>)

  datatype Block =
    | TextBlock(content: TextContent, box: Box, style: TextStyle)
    | ImageBlock(data: string, box: Box)
    | PlaceholderRect(box: Box, fill: string, lineColor: string)

  const WatermarkText := "Created with SlideRush AI"
  const DefaultName := "SlideRush AI"
  const UnavailableText := "Image unavailable"

  function Heading(title: string, theme: Theme): Block {
    TextBlock(Plain(title), Box(50, 40, Percent(90), None),
              TextStyle(28, theme.primary, Some(theme.headingFont), true, AlignDefault, None))
  }

  function BulletBlock(items: seq<string>, box: Box, fontSize: int, theme: Theme): Block {
    TextBlock(Bullets(items), box,
              TextStyle(fontSize, theme.text, Some(theme.bodyFont), false, AlignDefault, Some(1.5)))
  }

  function WatermarkBlock(theme: Theme): Block {
    TextBlock(Plain(WatermarkText), Box(0, 700, Percent(100), None),
              TextStyle(10, "9CA3AF", Some(theme.bodyFont), false, AlignCenter, None))
  }

  predicate IsWatermark(b: Block) {
    b.TextBlock? && b.content == Plain(WatermarkText) && b.box.y == 700
  }

  /**
   * addSlideImage: the fetched image; a dashed placeholder and its label
   * on one box when the reference exists but has no data; nothing otherwise.
   */
  function AddSlideImage(s: SlideData, images: ImageMap, box: Box): (r: seq<Block>)
    ensures ImageRef(s).Some? && ImageRef(s).value in images && images[ImageRef(s).value] != ""
      ==> r == [ImageBlock(images[ImageRef(s).value], box)]
    ensures ImageRef(s).Some? && !(ImageRef(s).value in images && images[ImageRef(s).value] != "")
      ==> |r| == 2 && r[0].PlaceholderRect? && r[1].TextBlock?
          && r[1].content == Plain(UnavailableText) && r[0].box == box && r[1].box == box
    ensures ImageRef(s).None? ==> r == []
    ensures forall b :: b in r ==> b.box == box && !IsWatermark(b) && (!b.TextBlock? || b.content == Plain(UnavailableText))
  {
    var url := ImageRef(s);
    if url.Some? && url.value in images && images[url.value] != "" then
      [ImageBlock(images[url.value], box)]
    else if url.Some? then
      [PlaceholderRect(box, "F3F4F6", "D1D5DB"),
       TextBlock(Plain(UnavailableText), box,
                 TextStyle(12, "9CA3AF", None, false, AlignCenterMiddle, None))]
    else
      []
  }

  // ---------------------------------------------------------------------------
  // Layout dispatch
  // ---------------------------------------------------------------------------

  /** The geometry chosen for a content slide's body. */
  datatype LayoutKind = TitleOnly | ImageLeft | ImageRight | TwoColumn | FullWidth

  /** `slide.layout || "content"`, then the if/else chain of buildDeck. */
  function LayoutOf(s: SlideData): (k: LayoutKind)
    ensures k == TitleOnly <==> s.layout == "title" || |s.bullets| == 0
    ensures s.layout == "" && |s.bullets| > 0 ==> k == FullWidth
  {
    var layout := StrOr(s.layout, "content");
    if layout == "title" || |s.bullets| == 0 then TitleOnly
    else if layout == "content_image_left" || layout == "image_left" then ImageLeft
    else if layout == "content_image_right" || layout == "image_right" then ImageRight
    else if layout == "two_column" || layout == "two_column_content" then TwoColumn
    else FullWidth
  }

  const LeftImageBox := Box(50, 150, Inches(450), Some(400))
  const RightTextBox := Box(550, 150, Inches(400), Some(400))
  const LeftTextBox := Box(50, 150, Inches(450), Some(400))
  const RightImageBox := Box(550, 150, Inches(400), Some(400))
  const LeftColumnBox := Box(50, 150, Inches(430), Some(400))
  const RightColumnBox := Box(520, 150, Inches(430), Some(400))
  const FullTextBox := Box(50, 150, Inches(900), Some(400))
  const CornerImageBox := Box(650, 400, Inches(300), Some(250))

  /** `Math.ceil(n / 2)` for a non-negative count. */
  function Midpoint(n: nat): (m: nat)
    ensures m <= n && n - m <= m <= n - m + 1
  {
    (n + 1) / 2
  }

  /** The blocks below the heading of a content slide. */
  function Body(s: SlideData, theme: Theme, images: ImageMap): (r: seq<Block>)
    ensures |r| == 0 <==> LayoutOf(s) == TitleOnly
  {
    match LayoutOf(s)
    case TitleOnly => []
    case ImageLeft =>
      AddSlideImage(s, images, LeftImageBox) + [BulletBlock(s.bullets, RightTextBox, 18, theme)]
    case ImageRight =>
      [BulletBlock(s.bullets, LeftTextBox, 18, theme)] + AddSlideImage(s, images, RightImageBox)
    case TwoColumn =>
      var mid := Midpoint(|s.bullets|);
      [BulletBlock(s.bullets[..mid], LeftColumnBox, 16, theme),
       BulletBlock(s.bullets[mid..], RightColumnBox, 16, theme)]
    case FullWidth =>
      [BulletBlock(s.bullets, FullTextBox, 18, theme)]
      + (if ImageRef(s).Some? then AddSlideImage(s, images, CornerImageBox) else [])
  }

  /** The bullet paragraphs of a block list, concatenated in block order. */
  function BulletsOf(blocks: seq<Block>): seq<string> {
    if |blocks| == 0 then []
    else
      var b := blocks[0];
      (if b.TextBlock? && b.content.Bullets? then b.content.items else []) + BulletsOf(blocks[1..])
  }

  lemma BulletsOfAppend(a: seq<Block>, b: seq<Block>)
    ensures BulletsOf(a + b) == BulletsOf(a) + BulletsOf(b)
  {
    if |a| == 0 {
      assert a + b == b;
    } else {
      assert (a + b)[0] == a[0];
      assert (a + b)[1..] == a[1..] + b;
      BulletsOfAppend(a[1..], b);
    }
  }

  lemma BulletsOfImage(s: SlideData, images: ImageMap, box: Box)
    ensures BulletsOf(AddSlideImage(s, images, box)) == []
  {
    var r := AddSlideImage(s, images, box);
    if |r| == 2 {
      assert BulletsOf(r[1..][1..]) == [];
      assert BulletsOf(r[1..]) == [];
    } else if |r| == 1 {
      assert BulletsOf(r[1..]) == [];
    }
  }

  /**
   * Every layout but TitleOnly shows each bullet exactly once and in order
   * across its text blocks; TitleOnly shows none.
   */
  lemma {:induction false} BodyKeepsBullets(s: SlideData, theme: Theme, images: ImageMap)
    ensures LayoutOf(s) == TitleOnly ==> BulletsOf(Body(s, theme, images)) == []
    ensures LayoutOf(s) != TitleOnly ==> BulletsOf(Body(s, theme, images)) == s.bullets
  {
    var r := Body(s, theme, images);
    match LayoutOf(s)
    case TitleOnly =>
    case ImageLeft =>
      var img := AddSlideImage(s, images, LeftImageBox);
      var txt := [BulletBlock(s.bullets, RightTextBox, 18, theme)];
      BulletsOfAppend(img, txt);
      BulletsOfImage(s, images, LeftImageBox);
      assert BulletsOf(txt) == s.bullets + BulletsOf([]);
    case ImageRight =>
      var img := AddSlideImage(s, images, RightImageBox);
      var txt := [BulletBlock(s.bullets, LeftTextBox, 18, theme)];
      BulletsOfAppend(txt, img);
      BulletsOfImage(s, images, RightImageBox);
      assert BulletsOf(txt) == s.bullets + BulletsOf([]);
    case TwoColumn =>
      var mid := Midpoint(|s.bullets|);
      var l := BulletBlock(s.bullets[..mid], LeftColumnBox, 16, theme);
      var rt := BulletBlock(s.bullets[mid..], RightColumnBox, 16, theme);
      assert r == [l, rt];
      assert [l, rt][1..] == [rt];
      assert BulletsOf([rt]) == s.bullets[mid..] + BulletsOf([]);
      assert s.bullets[..mid] + s.bullets[mid..] == s.bullets;
    case FullWidth =>
      var txt := [BulletBlock(s.bullets, FullTextBox, 18, theme)];
      var img := if ImageRef(s).Some? then AddSlideImage(s, images, CornerImageBox) else [];
      BulletsOfAppend(txt, img);
      BulletsOfImage(s, images, CornerImageBox);
      assert BulletsOf(txt) == s.bullets + BulletsOf([]);
  }

  /** two_column: `ceil(n/2)` bullets on the left, the rest on the right. */
  lemma TwoColumnSplit(s: SlideData, theme: Theme, images: ImageMap)
    requires LayoutOf(s) == TwoColumn
    ensures var r := Body(s, theme, images);
      && |r| == 2
      && r[0].TextBlock? && r[0].content.Bullets? && r[0].box == LeftColumnBox
      && r[1].TextBlock? && r[1].content.Bullets? && r[1].box == RightColumnBox
      && |r[0].content.items| == (|s.bullets| + 1) / 2
      && |r[1].content.items| == |s.bullets| / 2
      && r[0].content.items + r[1].content.items == s.bullets
  {
    var mid := Midpoint(|s.bullets|);
    assert s.bullets[..mid] + s.bullets[mid..] == s.bullets;
  }

  /** Image blocks (or their placeholders) of a body, with their boxes. */
  predicate IsImagePart(b: Block) {
    b.ImageBlock? || b.PlaceholderRect? || (b.TextBlock? && b.content == Plain(UnavailableText))
  }

  /**
   * Placement per layout: image-left puts the image at x=0.5 and the text at
   * x=5.5, image-right mirrors it, two_column has no image, and the default
   * layout's full-width text gets a 3x2.5 corner image only for a reference.
   */
  lemma LayoutGeometry(s: SlideData, theme: Theme, images: ImageMap)
    ensures var r := Body(s, theme, images);
      && (LayoutOf(s) == ImageLeft ==>
            r[|r| - 1] == BulletBlock(s.bullets, RightTextBox, 18, theme)
            && forall b :: b in r[..|r| - 1] ==> IsImagePart(b) && b.box == LeftImageBox)
      && (LayoutOf(s) == ImageRight ==>
            r[0] == BulletBlock(s.bullets, LeftTextBox, 18, theme)
            && forall b :: b in r[1..] ==> IsImagePart(b) && b.box == RightImageBox)
      && (LayoutOf(s) == TwoColumn ==> forall b :: b in r ==> !IsImagePart(b))
      && (LayoutOf(s) == FullWidth ==>
            r[0] == BulletBlock(s.bullets, FullTextBox, 18, theme)
            && (ImageRef(s).None? <==> |r| == 1)
            && forall b :: b in r[1..] ==> IsImagePart(b) && b.box == CornerImageBox)
  {
    var r := Body(s, theme, images);
    match LayoutOf(s)
    case TitleOnly =>
    case ImageLeft =>
      assert r[..|r| - 1] == AddSlideImage(s, images, LeftImageBox);
    case ImageRight =>
      assert r[1..] == AddSlideImage(s, images, RightImageBox);
    case TwoColumn =>
    case FullWidth =>
      assert r[1..] == if ImageRef(s).Some? then AddSlideImage(s, images, CornerImageBox) else [];
  }

  /** Left edge and right edge of a box with an absolute width. */
  predicate HorizontallyDisjoint(a: Box, b: Box) {
    a.w.Inches? && b.w.Inches? &&
    (a.x + a.w.hundredths <= b.x || b.x + b.w.hundredths <= a.x)
  }

  /**
   * In the two-region layouts any two blocks either share one box (the
   * placeholder and its label) or do not overlap horizontally.
   */
  lemma ColumnsDoNotOverlap(s: SlideData, theme: Theme, images: ImageMap)
    requires LayoutOf(s) in {ImageLeft, ImageRight, TwoColumn}
    ensures var r := Body(s, theme, images);
      forall i, j :: 0 <= i < |r| && 0 <= j < |r| ==>
        r[i].box == r[j].box || HorizontallyDisjoint(r[i].box, r[j].box)
  {
    var r := Body(s, theme, images);
    LayoutGeometry(s, theme, images);
    if LayoutOf(s) == ImageLeft {
      forall i | 0 <= i < |r| ensures r[i].box in {LeftImageBox, RightTextBox} {
        if i < |r| - 1 { assert r[i] in r[..|r| - 1]; }
      }
    } else if LayoutOf(s) == ImageRight {
      forall i | 0 <= i < |r| ensures r[i].box in {LeftTextBox, RightImageBox} {
        if i > 0 { assert r[i] in r[1..]; }
      }
    }
  }

  /** In the default layout the corner image overlaps the full-width text. */
  lemma FullWidthImageOverlapsText(s: SlideData, theme: Theme, images: ImageMap)
    requires LayoutOf(s) == FullWidth && ImageRef(s).Some?
    ensures var r := Body(s, theme, images);
      |r| >= 2 && !HorizontallyDisjoint(r[0].box, r[1].box)
      && r[1].box.y < r[0].box.y + r[0].box.h.value
  {
    LayoutGeometry(s, theme, images);
    var r := Body(s, theme, images);
    assert r[1] in r[1..];
  }

  // ---------------------------------------------------------------------------
  // Slides and the deck
  // ---------------------------------------------------------------------------

  /** A slide of the deck: on the master or not, its blocks and private notes. */
  datatype DeckSlide = DeckSlide(onMaster: bool, background: Option<string>, blocks: seq<Block>, notes: Option<string>)

  /** The master slide: background, top band colour and height, label and its font. */
  datatype Master = Master(background: string, bandColor: string, bandHeight: int, caption: string, captionFont: string)

  datatype DeckDoc = DeckDoc(
    author: string,
    title: string,
    subject: string,
    company: string,
    master: Master,
    slides: seq<DeckSlide>)

  predicate HasWatermark(d: DeckSlide) {
    exists b :: b in d.blocks && IsWatermark(b)
  }

  function TitleSlide(project: ProjectData, theme: Theme, userName: Option<string>): (d: DeckSlide)
    ensures !d.onMaster && !HasWatermark(d) && d.notes.None?
    ensures |d.blocks| == (if Truthy(userName) then 2 else 1)
    ensures d.blocks[0].TextBlock? && d.blocks[0].content == Plain(StrOr(project.title, project.topic))
  {
    var main := TextBlock(Plain(StrOr(project.title, project.topic)), Box(100, 250, Percent(80), None),
                          TextStyle(44, "FFFFFF", Some(theme.headingFont), true, AlignCenter, None));
    var byLine := if Truthy(userName) then
                    [TextBlock(Plain("Created by " + userName.value), Box(100, 400, Percent(80), None),
                               TextStyle(18, "FFFFFF", Some(theme.bodyFont), false, AlignCenter, None))]
                  else [];
    DeckSlide(false, Some(theme.primary), [main] + byLine, None)
  }

  lemma BodyHasNoWatermark(s: SlideData, theme: Theme, images: ImageMap)
    ensures forall b :: b in Body(s, theme, images) ==> !IsWatermark(b)
  {
    LayoutGeometry(s, theme, images);
    var r := Body(s, theme, images);
    forall b | b in r ensures !IsWatermark(b) {
      var i :| 0 <= i < |r| && r[i] == b;
      match LayoutOf(s)
      case TitleOnly =>
      case ImageLeft =>
        if i < |r| - 1 { assert b in r[..|r| - 1]; }
      case ImageRight =>
        if i > 0 { assert b in r[1..]; }
      case TwoColumn =>
      case FullWidth =>
        if i > 0 { assert b in r[1..]; }
    }
  }

  /**
   * One content slide: heading, layout body, notes when truthy, and the
   * watermark as the last block on the free tier.
   */
  function ContentSlide(s: SlideData, theme: Theme, images: ImageMap, isFreeTier: bool): (d: DeckSlide)
    ensures d.onMaster && d.background.None?
    ensures |d.blocks| >= 1 && d.blocks[0] == Heading(s.title, theme)
    ensures HasWatermark(d) <==> isFreeTier
    ensures d.notes.Some? <==> Truthy(s.speakerNotes)
    ensures d.notes.Some? ==> d.notes == s.speakerNotes
    ensures LayoutOf(s) == TitleOnly ==> |d.blocks| == (if isFreeTier then 2 else 1)
  {
    var body := Body(s, theme, images);
    var mark := if isFreeTier then [WatermarkBlock(theme)] else [];
    var blocks := [Heading(s.title, theme)] + body + mark;
    BodyHasNoWatermark(s, theme, images);
    assert isFreeTier ==> blocks[|blocks| - 1] == WatermarkBlock(theme) && IsWatermark(blocks[|blocks| - 1]);
    assert forall b :: b in blocks ==> b == Heading(s.title, theme) || b in body || b in mark;
    DeckSlide(true, None, blocks, Normalize(s.speakerNotes))
  }

  /** The content slides, one per record, in the order of the input array. */
  function ContentSlides(slides: seq<SlideData>, theme: Theme, images: ImageMap, isFreeTier: bool): (r: seq<DeckSlide>)
    ensures |r| == |slides|
    ensures forall i :: 0 <= i < |slides| ==> r[i] == ContentSlide(slides[i], theme, images, isFreeTier)
  {
    seq(|slides|, i requires 0 <= i < |slides| => ContentSlide(slides[i], theme, images, isFreeTier))
  }

  /** The theme buildDeck uses: `templateId || "modern"`, then the lookup. */
  function DeckTheme(project: ProjectData): (t: Theme)
    ensures t == GetTemplateTheme(project.templateId)
  {
    GetTemplateTheme(StrOr(project.templateId, "modern"))
  }

  /**
   * buildDeck without the binary writer: one title slide, then one content
   * slide per record in the order of the input array (no sorting by `order`).
   */
  function BuildDeck(opts: BuildDeckOptions, fetch: Fetcher): (deck: DeckDoc)
    ensures |deck.slides| == |opts.slides| + 1
    ensures !deck.slides[0].onMaster && !HasWatermark(deck.slides[0])
    ensures forall i :: 0 < i < |deck.slides| ==>
      deck.slides[i] == ContentSlide(opts.slides[i - 1], DeckTheme(opts.project),
                                     PrefetchImages(opts.slides, fetch), opts.isFreeTier)
    ensures deck.title == StrOr(opts.project.title, opts.project.topic)
    ensures deck.author == OrElse(opts.userName, DefaultName)
    ensures deck.company == OrElse(opts.orgName, DefaultName) == deck.master.caption
  {
    var images := PrefetchImages(opts.slides, fetch);
    var theme := DeckTheme(opts.project);
    var master := Master(theme.background, theme.primary, 15, OrElse(opts.orgName, DefaultName), theme.bodyFont);
    DeckDoc(OrElse(opts.userName, DefaultName), StrOr(opts.project.title, opts.project.topic),
            opts.project.topic, OrElse(opts.orgName, DefaultName), master,
            [TitleSlide(opts.project, theme, opts.userName)]
            + ContentSlides(opts.slides, theme, images, opts.isFreeTier))
  }

  /**
   * The deck has exactly one title slide followed by one content slide per
   * record, in array order: each carries its record's heading, the watermark
   * exactly on the free tier, and private notes exactly when they are truthy.
   */
  lemma DeckShape(opts: BuildDeckOptions, fetch: Fetcher)
    ensures var deck := BuildDeck(opts, fetch);
      && |deck.slides| == |opts.slides| + 1
      && !deck.slides[0].onMaster && !HasWatermark(deck.slides[0])
      && forall i :: 0 <= i < |opts.slides| ==>
           && deck.slides[i + 1].onMaster
           && deck.slides[i + 1].blocks[0] == Heading(opts.slides[i].title, DeckTheme(opts.project))
           && (HasWatermark(deck.slides[i + 1]) <==> opts.isFreeTier)
           && (deck.slides[i + 1].notes.Some? <==> Truthy(opts.slides[i].speakerNotes))
  {
    var deck := BuildDeck(opts, fetch);
    forall i | 0 <= i < |opts.slides|
      ensures deck.slides[i + 1] == ContentSlide(opts.slides[i], DeckTheme(opts.project),
                                                 PrefetchImages(opts.slides, fetch), opts.isFreeTier)
    {
      assert 0 < i + 1 < |deck.slides|;
    }
  }

  /** Two record lists that differ at most in their `order` fields. */
  predicate SameExceptOrder(a: seq<SlideData>, b: seq<SlideData>) {
    |a| == |b| && forall i :: 0 <= i < |a| ==> a[i].(order := 0) == b[i].(order := 0)
  }

  lemma ImageIgnoresOrder(s: SlideData, t: SlideData, images: ImageMap, box: Box)
    requires s.(order := 0) == t.(order := 0)
    ensures AddSlideImage(s, images, box) == AddSlideImage(t, images, box)
  {
    assert s.imageUrl == t.imageUrl && s.imageAssetId == t.imageAssetId;
    assert ImageRef(s) == ImageRef(t);
  }

  lemma BodyIgnoresOrder(s: SlideData, t: SlideData, theme: Theme, images: ImageMap)
    requires s.(order := 0) == t.(order := 0)
    ensures Body(s, theme, images) == Body(t, theme, images)
  {
    assert s.layout == t.layout && s.bullets == t.bullets;
    assert LayoutOf(s) == LayoutOf(t);
    assert s.imageUrl == t.imageUrl && s.imageAssetId == t.imageAssetId;
    assert ImageRef(s) == ImageRef(t);
    ImageIgnoresOrder(s, t, images, LeftImageBox);
    ImageIgnoresOrder(s, t, images, RightImageBox);
    ImageIgnoresOrder(s, t, images, CornerImageBox);
  }

  lemma ContentSlideIgnoresOrder(s: SlideData, t: SlideData, theme: Theme, images: ImageMap, isFreeTier: bool)
    requires s.(order := 0) == t.(order := 0)
    ensures ContentSlide(s, theme, images, isFreeTier) == ContentSlide(t, theme, images, isFreeTier)
  {
    assert s.title == t.title && s.speakerNotes == t.speakerNotes;
    BodyIgnoresOrder(s, t, theme, images);
  }

  lemma PrefetchSameReferences(a: seq<SlideData>, b: seq<SlideData>, fetch: Fetcher)
    requires |a| == |b| && forall i :: 0 <= i < |a| ==> ImageRef(a[i]) == ImageRef(b[i])
    ensures PrefetchImages(a, fetch) == PrefetchImages(b, fetch)
  {
    forall u ensures Referenced(a, u) <==> Referenced(b, u) {
      if Referenced(a, u) {
        var k :| 0 <= k < |a| && ImageRef(a[k]) == Some(u);
        assert ImageRef(b[k]) == Some(u);
      }
      if Referenced(b, u) {
        var k :| 0 <= k < |b| && ImageRef(b[k]) == Some(u);
        assert ImageRef(a[k]) == Some(u);
      }
    }
    assert PrefetchImages(a, fetch).Keys == PrefetchImages(b, fetch).Keys;
  }

  /** The `order` field is never consulted: renumbering the records leaves the deck unchanged. */
  lemma DeckIgnoresOrderField(opts: BuildDeckOptions, renumbered: seq<SlideData>, fetch: Fetcher)
    requires SameExceptOrder(opts.slides, renumbered)
    ensures BuildDeck(opts.(slides := renumbered), fetch) == BuildDeck(opts, fetch)
  {
    forall i | 0 <= i < |renumbered| ensures ImageRef(renumbered[i]) == ImageRef(opts.slides[i]) {
      assert renumbered[i].(order := 0) == opts.slides[i].(order := 0);
      assert renumbered[i].imageUrl == opts.slides[i].imageUrl;
      assert renumbered[i].imageAssetId == opts.slides[i].imageAssetId;
    }
    PrefetchSameReferences(opts.slides, renumbered, fetch);
    var images := PrefetchImages(opts.slides, fetch);
    var theme := DeckTheme(opts.project);
    var ca := ContentSlides(opts.slides, theme, images, opts.isFreeTier);
    var cb := ContentSlides(renumbered, theme, images, opts.isFreeTier);
    forall i | 0 <= i < |ca| ensures ca[i] == cb[i] {
      assert renumbered[i].(order := 0) == opts.slides[i].(order := 0);
      ContentSlideIgnoresOrder(opts.slides[i], renumbered[i], theme, images, opts.isFreeTier);
    }
    assert ca == cb;
  }
}
