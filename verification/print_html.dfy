/**
 * The print surrogate (src/lib/pdf/generate.ts): a print-oriented HTML
 * document with one title page and one page per slide.
 *
 * The document is modelled structurally: the `<head>` title, the theme the
 * style sheet is filled from, and the sequence of top-level `<body>`
 * elements. The CSS text is left out. Text escaping is modelled exactly.
 */
module Print {
  import opened Common
  import Deck

  // ---------------------------------------------------------------------------
  // Theme registry of the print path
  // ---------------------------------------------------------------------------

  datatype PrintTheme = PrintTheme(
    primary: string,
    secondary: string,
    background: string,
    text: string,
    headingFont: string,
    bodyFont: string)

  function PrintThemes(): map<string, PrintTheme> {
    map["modern" := PrintTheme("#2563EB", "#3B82F6", "#FFFFFF", "#1F2937", "Inter", "Inter"),
        "corporate" := PrintTheme("#1E3A5F", "#F97316", "#FFFFFF", "#1F2937", "Arial", "Arial"),
        "creative" := PrintTheme("#9333EA", "#EC4899", "#FAFAFA", "#1F2937", "Poppins", "Poppins"),
        "minimal" := PrintTheme("#374151", "#6B7280", "#FFFFFF", "#1F2937", "Helvetica", "Helvetica")]
  }

  /**
   * getThemeForTemplate: a registered theme, `modern` for every other id.
   * An id naming an inherited member of the object literal finds a
   * function, which is truthy and has no theme fields: None.
   */
  function GetThemeForTemplate(templateId: string): (t: Option<PrintTheme>)
    ensures t.None? <==> templateId in InheritedKeys
    ensures t.Some? ==> t.value in PrintThemes().Values
    ensures templateId in PrintThemes() ==> t == Some(PrintThemes()[templateId])
    ensures templateId !in PrintThemes() && templateId !in InheritedKeys ==> t == Some(PrintThemes()["modern"])
  {
    if templateId in PrintThemes() then Some(PrintThemes()[templateId])
    else if templateId in InheritedKeys then None
    else Some(PrintThemes()["modern"])
  }

  /**
   * The two registries agree: for every template id with a print theme, it
   * is the deck theme with `#` in front of each colour and the same fonts.
   */
  lemma PrintThemeMatchesDeckTheme(templateId: string)
    requires templateId !in InheritedKeys
    ensures ThemesAgree(GetThemeForTemplate(templateId).value, Deck.GetTemplateTheme(templateId))
  {
    if templateId == "modern" || templateId !in PrintThemes() {
      assert templateId !in PrintThemes() ==> templateId !in Deck.Templates();
      ModernAgrees();
    } else if templateId == "corporate" {
      assert ThemesAgree(PrintThemes()["corporate"], Deck.CorporateTheme);
    } else if templateId == "creative" {
      assert ThemesAgree(PrintThemes()["creative"], Deck.CreativeTheme);
    } else {
      assert ThemesAgree(PrintThemes()["minimal"], Deck.MinimalTheme);
    }
  }

  /** The print colours are the deck colours with a leading `#`; the fonts are the same. */
  predicate ThemesAgree(p: PrintTheme, d: Deck.Theme) {
    && p.primary == "#" + d.primary && p.secondary == "#" + d.secondary
    && p.background == "#" + d.background && p.text == "#" + d.text
    && p.headingFont == d.headingFont && p.bodyFont == d.bodyFont
  }

  lemma ModernAgrees()
    ensures ThemesAgree(PrintThemes()["modern"], Deck.ModernTheme)
  {
  }

  // ---------------------------------------------------------------------------
  // Escaping
  // ---------------------------------------------------------------------------

  /**
   * The substitution table of escapeHtml as written: `&` and `'` become
   * entities, while `<`, `>` and `"` are mapped to themselves.
   */
  function EscapeChar(c: char): string {
    if c == '&' then "&amp;"
    else if c == '\'' then "&#039;"
    else [c]
  }

  /** escapeHtml: every character replaced by its table entry; nothing gets shorter. */
  function EscapeHtml(s: string): (r: string)
    ensures |r| >= |s|
    ensures |r| == |s| <==> forall i :: 0 <= i < |s| ==> s[i] != '&' && s[i] != '\''
  {
    if |s| == 0 then "" else EscapeChar(s[0]) + EscapeHtml(s[1..])
  }

  /** Escaping distributes over concatenation. */
  lemma {:induction false} EscapeHtmlAppend(a: string, b: string)
    ensures EscapeHtml(a + b) == EscapeHtml(a) + EscapeHtml(b)
  {
    if |a| == 0 {
      assert a + b == b;
    } else {
      assert (a + b)[0] == a[0];
      assert (a + b)[1..] == a[1..] + b;
      EscapeHtmlAppend(a[1..], b);
    }
  }

  /**
   * Per character: `&` becomes `&amp;`, `'` becomes `&#039;`, and every other
   * character (the markup characters `<`, `>`, `"` included) is copied.
   */
  lemma EscapeHtmlPerChar(c: char)
    ensures EscapeHtml([c]) == (if c == '&' then "&amp;" else if c == '\'' then "&#039;" else [c])
    ensures c != '&' && c != '\'' ==> EscapeHtml([c]) == [c]
  {
    assert [c][1..] == [];
  }

  /** A string without `&` and `'` is left unchanged, markup characters included. */
  lemma {:induction false} EscapeHtmlIdentity(s: string)
    requires forall i :: 0 <= i < |s| ==> s[i] != '&' && s[i] != '\''
    ensures EscapeHtml(s) == s
  {
    if |s| > 0 {
      EscapeHtmlIdentity(s[1..]);
    }
  }

  /** As written, a script tag passes through the escape untouched. */
  lemma EscapeHtmlPassesMarkup()
    ensures EscapeHtml("<script>") == "<script>"
    ensures '<' in EscapeHtml("<script>")
  {
    EscapeHtmlIdentity("<script>");
  }

  /** The table evidently intended: all five characters become entities. */
  function EscapeCharIntended(c: char): string {
    if c == '&' then "&amp;"
    else if c == '<' then "&lt;"
    else if c == '>' then "&gt;"
    else if c == '"' then "&quot;"
    else if c == '\'' then "&#039;"
    else [c]
  }

  /** No character of `s` can open a tag or end an attribute value. */
  predicate MarkupFree(s: string) {
    '<' !in s && '>' !in s && '"' !in s && '\'' !in s
  }

  /** The intended escape; its output never contains a markup character. */
  function EscapeHtmlIntended(s: string): (r: string)
    ensures MarkupFree(r)
  {
    if |s| == 0 then ""
    else
      var head := EscapeCharIntended(s[0]);
      assert MarkupFree(head);
      head + EscapeHtmlIntended(s[1..])
  }

  /** Reads the five entities back; every other character is copied. */
  function DecodeEntities(s: string): string
    decreases |s|
  {
    if |s| == 0 then ""
    else if |s| >= 5 && s[..5] == "&amp;" then "&" + DecodeEntities(s[5..])
    else if |s| >= 6 && s[..6] == "&#039;" then "'" + DecodeEntities(s[6..])
    else if |s| >= 4 && s[..4] == "&lt;" then "<" + DecodeEntities(s[4..])
    else if |s| >= 4 && s[..4] == "&gt;" then ">" + DecodeEntities(s[4..])
    else if |s| >= 6 && s[..6] == "&quot;" then "\"" + DecodeEntities(s[6..])
    else [s[0]] + DecodeEntities(s[1..])
  }

  lemma DecodeAfter(e: string, rest: string, c: char)
    requires e in ["&amp;", "&#039;", "&lt;", "&gt;", "&quot;"]
    requires c == (if e == "&amp;" then '&' else if e == "&#039;" then '\''
                   else if e == "&lt;" then '<' else if e == "&gt;" then '>' else '"')
    ensures DecodeEntities(e + rest) == [c] + DecodeEntities(rest)
  {
    var s := e + rest;
    assert s[..|e|] == e && s[|e|..] == rest;
    if e == "&#039;" {
      assert s[..5] != "&amp;" by { assert s[1] == '#'; }
    } else if e == "&lt;" {
      assert |s| < 5 || s[..5] != "&amp;" by { assert s[1] == 'l'; }
      assert |s| < 6 || s[..6] != "&#039;" by { assert s[1] == 'l'; }
    } else if e == "&gt;" {
      assert |s| < 5 || s[..5] != "&amp;" by { assert s[1] == 'g'; }
      assert |s| < 6 || s[..6] != "&#039;" by { assert s[1] == 'g'; }
      assert s[..4] != "&lt;" by { assert s[1] == 'g'; }
    } else if e == "&quot;" {
      assert s[..5] != "&amp;" by { assert s[1] == 'q'; }
      assert s[..6] != "&#039;" by { assert s[1] == 'q'; }
      assert s[..4] != "&lt;" by { assert s[1] == 'q'; }
      assert s[..4] != "&gt;" by { assert s[1] == 'q'; }
    }
  }

  lemma DecodeCopied(c: char, rest: string)
    requires c != '&'
    ensures DecodeEntities([c] + rest) == [c] + DecodeEntities(rest)
  {
    var s := [c] + rest;
    assert s[0] == c && s[1..] == rest;
  }

  /** Escaping as written loses nothing: decoding the entities gives the text back. */
  lemma {:induction false} EscapeHtmlRoundTrip(s: string)
    ensures DecodeEntities(EscapeHtml(s)) == s
  {
    if |s| > 0 {
      var c := s[0];
      EscapeHtmlRoundTrip(s[1..]);
      if c == '&' {
        DecodeAfter("&amp;", EscapeHtml(s[1..]), c);
      } else if c == '\'' {
        DecodeAfter("&#039;", EscapeHtml(s[1..]), c);
      } else {
        DecodeCopied(c, EscapeHtml(s[1..]));
      }
      assert s == [c] + s[1..];
    }
  }

  /** The intended escape loses nothing either. */
  lemma {:induction false} EscapeHtmlIntendedRoundTrip(s: string)
    ensures DecodeEntities(EscapeHtmlIntended(s)) == s
  {
    if |s| > 0 {
      var c := s[0];
      var rest := EscapeHtmlIntended(s[1..]);
      EscapeHtmlIntendedRoundTrip(s[1..]);
      assert EscapeHtmlIntended(s) == EscapeCharIntended(c) + rest;
      if c == '&' {
        DecodeAfter("&amp;", rest, c);
      } else if c == '<' {
        DecodeAfter("&lt;", rest, c);
      } else if c == '>' {
        DecodeAfter("&gt;", rest, c);
      } else if c == '"' {
        DecodeAfter("&quot;", rest, c);
      } else if c == '\'' {
        DecodeAfter("&#039;", rest, c);
      } else {
        DecodeCopied(c, rest);
      }
      assert s == [c] + s[1..];
    }
  }

  // ---------------------------------------------------------------------------
  // The document
  // ---------------------------------------------------------------------------

  datatype SlideData = SlideData(
    id: string,
    order: int,
    layout: string,
    title: string,
    bullets: seq<string>,
    speakerNotes: Option<string>,
    imageAssetId: Option<string>)

  const WatermarkText := "Created with SlideRush AI"

  /** The top-level elements of `<body>`. */
  datatype Element =
    | WatermarkDiv(text: string)
    | TitleSlideDiv(mainTitle: string, subtitle: string)
    | SlideDiv(gradientFrom: string, gradientTo: string, title: string, items: seq<string>,
               imagePlaceholder: Option<string>, notes: Option<string>)

  datatype HtmlDoc = HtmlDoc(headTitle: string, theme: PrintTheme, body: seq<Element>)

  /** Number of watermark overlays among `elems`. */
  function CountWatermarks(elems: seq<Element>): nat {
    if |elems| == 0 then 0
    else (if elems[0].WatermarkDiv? then 1 else 0) + CountWatermarks(elems[1..])
  }

  /** Number of page sections (title page and slide pages) among `elems`. */
  function CountPages(elems: seq<Element>): nat {
    if |elems| == 0 then 0
    else (if elems[0].WatermarkDiv? then 0 else 1) + CountPages(elems[1..])
  }

  lemma {:induction false} CountsAppend(a: seq<Element>, b: seq<Element>)
    ensures CountWatermarks(a + b) == CountWatermarks(a) + CountWatermarks(b)
    ensures CountPages(a + b) == CountPages(a) + CountPages(b)
  {
    if |a| == 0 {
      assert a + b == b;
    } else {
      assert (a + b)[0] == a[0];
      assert (a + b)[1..] == a[1..] + b;
      CountsAppend(a[1..], b);
    }
  }

  lemma {:induction false} SlidePagesCount(elems: seq<Element>)
    requires forall i :: 0 <= i < |elems| ==> elems[i].SlideDiv?
    ensures CountWatermarks(elems) == 0 && CountPages(elems) == |elems|
  {
    if |elems| > 0 {
      SlidePagesCount(elems[1..]);
    }
  }

  /**
   * The escapes a rendering applies: `text` to titles, bullets and notes,
   * `image` to the image placeholder's asset id.
   */
  datatype Escaping = Escaping(text: string -> string, image: string -> string)

  /** No escape at all. */
  function Raw(s: string): string {
    s
  }

  /** The escapes of the code as written: escapeHtml on text, none on the asset id. */
  function AsWrittenEscaping(): Escaping {
    Escaping(EscapeHtml, Raw)
  }

  /** The escapes evidently intended: the full table on every inserted string. */
  function IntendedEscaping(): Escaping {
    Escaping(EscapeHtmlIntended, EscapeHtmlIntended)
  }

  /** `id.substring(0, 10)`: at most the first ten characters. */
  function ImagePrefix(id: string): (p: string)
    ensures |p| == Min(10, |id|) && p == id[..|p|]
    ensures |id| <= 10 ==> p == id
  {
    id[..Min(10, |id|)]
  }

  /** The page of one slide record, with every user text passed through the escapes of `esc`. */
  function SlidePage(esc: Escaping, theme: PrintTheme, s: SlideData): Element {
    SlideDiv(theme.primary, theme.secondary, esc.text(s.title),
             seq(|s.bullets|, k requires 0 <= k < |s.bullets| => esc.text(s.bullets[k])),
             if Truthy(s.imageAssetId) then Some(esc.image(ImagePrefix(s.imageAssetId.value))) else None,
             if Truthy(s.speakerNotes) then Some(esc.text(s.speakerNotes.value)) else None)
  }

  /**
   * generateHTMLContent, parameterised by the escapes it applies. None is
   * the TypeError thrown when the theme found has no `fonts`.
   */
  function RenderWith(esc: Escaping, project: Deck.ProjectData, slides: seq<SlideData>, isFreeTier: bool)
    : (r: Option<HtmlDoc>)
    ensures r.None? <==> project.templateId in InheritedKeys
    ensures r.Some? ==> var doc := r.value; var w := if isFreeTier then 1 else 0;
      && |doc.body| == w + 1 + |slides|
      && doc.body[w] == TitleSlideDiv(esc.text(StrOr(project.title, project.topic)), WatermarkText)
      && (forall i :: 0 <= i < |slides| ==> doc.body[w + 1 + i] == SlidePage(esc, doc.theme, slides[i]))
      && (isFreeTier ==> doc.body[0] == WatermarkDiv(WatermarkText))
  {
    match GetThemeForTemplate(project.templateId)
    case None => None
    case Some(theme) =>
      var mark := if isFreeTier then [WatermarkDiv(WatermarkText)] else [];
      var pages := seq(|slides|, i requires 0 <= i < |slides| => SlidePage(esc, theme, slides[i]));
      Some(HtmlDoc(esc.text(StrOr(project.title, project.topic)), theme,
                   mark + [TitleSlideDiv(esc.text(StrOr(project.title, project.topic)), WatermarkText)] + pages))
  }

  /** generateHTMLContent with the escapes as written. */
  function GenerateHtmlContent(project: Deck.ProjectData, slides: seq<SlideData>, isFreeTier: bool): (r: Option<HtmlDoc>)
    ensures r.None? <==> project.templateId in InheritedKeys
    ensures r.Some? ==> r.value.headTitle == EscapeHtml(StrOr(project.title, project.topic))
  {
    RenderWith(AsWrittenEscaping(), project, slides, isFreeTier)
  }

  /** generatePrintHTML: the same document as generateHTMLContent. */
  function GeneratePrintHtml(project: Deck.ProjectData, slides: seq<SlideData>, isFreeTier: bool): (doc: Option<HtmlDoc>)
    ensures doc == GenerateHtmlContent(project, slides, isFreeTier)
    ensures doc.Some? ==> Some(doc.value.theme) == GetThemeForTemplate(project.templateId)
  {
    GenerateHtmlContent(project, slides, isFreeTier)
  }

  /**
   * Document structure: `|slides| + 1` pages (title page first, then one per
   * record in array order) and one watermark overlay exactly on the free tier.
   */
  lemma DocumentShape(esc: Escaping, project: Deck.ProjectData, slides: seq<SlideData>, isFreeTier: bool)
    requires RenderWith(esc, project, slides, isFreeTier).Some?
    ensures var doc := RenderWith(esc, project, slides, isFreeTier).value;
      && CountPages(doc.body) == |slides| + 1
      && CountWatermarks(doc.body) == (if isFreeTier then 1 else 0)
      && doc.headTitle == esc.text(StrOr(project.title, project.topic))
      && Some(doc.theme) == GetThemeForTemplate(project.templateId)
  {
    var doc := RenderWith(esc, project, slides, isFreeTier).value;
    var w := if isFreeTier then 1 else 0;
    forall i | w < i < |doc.body| ensures doc.body[i].SlideDiv? {
      assert doc.body[w + 1 + (i - w - 1)] == SlidePage(esc, doc.theme, slides[i - w - 1]);
    }
    BodyCounts(doc.body, w, |slides|);
  }

  /** A body of an optional watermark, one title section and `n` slide sections has `n + 1` pages. */
  lemma {:induction false} BodyCounts(body: seq<Element>, w: nat, n: nat)
    requires w <= 1 && |body| == w + 1 + n
    requires w == 1 ==> body[0].WatermarkDiv?
    requires body[w].TitleSlideDiv?
    requires forall i :: w < i < |body| ==> body[i].SlideDiv?
    ensures CountPages(body) == n + 1 && CountWatermarks(body) == w
  {
    var mark := body[..w];
    var title := body[w..w + 1];
    var pages := body[w + 1..];
    assert body == mark + title + pages;
    assert forall i :: 0 <= i < |pages| ==> pages[i] == body[w + 1 + i];
    SlidePagesCount(pages);
    CountsAppend(mark + title, pages);
    CountsAppend(mark, title);
    assert CountWatermarks(title) == CountWatermarks(title[1..]);
    assert CountPages(title) == 1 + CountPages(title[1..]);
    if w == 1 {
      assert CountWatermarks(mark) == 1 + CountWatermarks(mark[1..]);
      assert CountPages(mark) == CountPages(mark[1..]);
    }
  }

  /**
   * Each slide page: one list item per bullet, in order, each escaped; the
   * image placeholder exactly for a truthy asset id, showing its first ten
   * characters through the image escape; the notes block exactly for
   * truthy notes.
   */
  lemma SlidePageContents(esc: Escaping, theme: PrintTheme, s: SlideData)
    ensures var e := SlidePage(esc, theme, s);
      && e.SlideDiv?
      && e.title == esc.text(s.title)
      && |e.items| == |s.bullets|
      && (forall k :: 0 <= k < |s.bullets| ==> e.items[k] == esc.text(s.bullets[k]))
      && (e.imagePlaceholder.Some? <==> Truthy(s.imageAssetId))
      && (e.imagePlaceholder.Some? ==>
            var p := s.imageAssetId.value[..Min(10, |s.imageAssetId.value|)];
            e.imagePlaceholder.value == esc.image(p))
      && (e.notes.Some? <==> Truthy(s.speakerNotes))
      && (e.notes.Some? ==> e.notes.value == esc.text(s.speakerNotes.value))
  {
  }

  /** Every user string inserted into an element (title, items, image placeholder, notes) is free of markup characters. */
  predicate EscapedTextFree(e: Element) {
    match e
    case WatermarkDiv(_) => true
    case TitleSlideDiv(t, _) => MarkupFree(t)
    case SlideDiv(_, _, t, items, image, notes) =>
      && MarkupFree(t)
      && (forall k :: 0 <= k < |items| ==> MarkupFree(items[k]))
      && (image.Some? ==> MarkupFree(image.value))
      && (notes.Some? ==> MarkupFree(notes.value))
  }

  /** With the intended escapes no title, bullet, asset id or note can inject markup. */
  lemma IntendedDocumentIsInjectionFree(project: Deck.ProjectData, slides: seq<SlideData>, isFreeTier: bool)
    ensures var r := RenderWith(IntendedEscaping(), project, slides, isFreeTier);
      r.Some? ==> forall j :: 0 <= j < |r.value.body| ==> EscapedTextFree(r.value.body[j])
  {
    var r := RenderWith(IntendedEscaping(), project, slides, isFreeTier);
    if r.None? {
      return;
    }
    var doc := r.value;
    var w := if isFreeTier then 1 else 0;
    forall j | 0 <= j < |doc.body| ensures EscapedTextFree(doc.body[j]) {
      if j > w {
        IntendedPageFree(doc.theme, slides[j - w - 1]);
      } else if j == w {
        assert doc.body[j] == TitleSlideDiv(EscapeHtmlIntended(StrOr(project.title, project.topic)), WatermarkText);
      }
    }
  }

  /** One slide section under the intended escapes carries no markup character. */
  lemma IntendedPageFree(theme: PrintTheme, s: SlideData)
    ensures EscapedTextFree(SlidePage(IntendedEscaping(), theme, s))
  {
    var e := SlidePage(IntendedEscaping(), theme, s);
    assert forall k :: 0 <= k < |e.items| ==> e.items[k] == EscapeHtmlIntended(s.bullets[k]);
  }

  /** As written, a bullet `<b>` reaches the document as markup. */
  lemma AsWrittenDocumentCarriesMarkup()
    ensures var doc := GenerateHtmlContent(Deck.ProjectData("p", "T", "t", "modern"),
                                           [SlideData("s", 0, "content", "S", ["<b>"], None, None)], false).value;
      doc.body[1].items[0] == "<b>" && !EscapedTextFree(doc.body[1])
  {
    var doc := GenerateHtmlContent(Deck.ProjectData("p", "T", "t", "modern"),
                                   [SlideData("s", 0, "content", "S", ["<b>"], None, None)], false).value;
    EscapeHtmlIdentity("<b>");
    assert doc.body[1].items[0] == "<b>";
    assert '<' in doc.body[1].items[0];
  }

  /**
   * The asset id is inserted without any escape, so even the intended text
   * table leaves an asset id `<b>` in the document as markup.
   */
  lemma AsWrittenPlaceholderCarriesMarkup()
    ensures var doc := RenderWith(Escaping(EscapeHtmlIntended, Raw), Deck.ProjectData("p", "T", "t", "modern"),
                                  [SlideData("s", 0, "content", "S", [], None, Some("<b>"))], false).value;
      doc.body[1].imagePlaceholder == Some("<b>") && !EscapedTextFree(doc.body[1])
  {
    var doc := RenderWith(Escaping(EscapeHtmlIntended, Raw), Deck.ProjectData("p", "T", "t", "modern"),
                          [SlideData("s", 0, "content", "S", [], None, Some("<b>"))], false).value;
    assert ImagePrefix("<b>") == "<b>";
    assert doc.body[1].imagePlaceholder == Some("<b>");
    assert '<' in doc.body[1].imagePlaceholder.value;
  }
}
