/**
 * The slide-count step of the creation wizard
 * (src/components/create/slidecount-selector.tsx): the complexity label, the
 * duration estimate and the number of preview tiles.
 */
module SlideCount {

  datatype Audience = Students | Teachers | Professionals

  /** Minutes of talk per slide for each audience. */
  function MinutesPerSlide(a: Audience): (m: real)
    ensures 1.0 <= m <= 2.0
  {
    match a
    case Students => 1.0
    case Teachers => 2.0
    case Professionals => 1.5
  }

  datatype Complexity = QuickOverview | StandardPresentation | DetailedCoverage | ComprehensiveDeepDive

  function ComplexityRank(c: Complexity): nat {
    match c
    case QuickOverview => 0
    case StandardPresentation => 1
    case DetailedCoverage => 2
    case ComprehensiveDeepDive => 3
  }

  function ComplexityText(c: Complexity): string {
    match c
    case QuickOverview => "Quick Overview"
    case StandardPresentation => "Standard Presentation"
    case DetailedCoverage => "Detailed Coverage"
    case ComprehensiveDeepDive => "Comprehensive Deep Dive"
  }

  /** getComplexityLabel: at most 6, 8 and 10 slides for the first three labels. */
  function ComplexityLabel(slideCount: int): (c: Complexity)
    ensures c == QuickOverview <==> slideCount <= 6
    ensures c == StandardPresentation <==> 6 < slideCount <= 8
    ensures c == DetailedCoverage <==> 8 < slideCount <= 10
    ensures c == ComprehensiveDeepDive <==> 10 < slideCount
  {
    if slideCount <= 6 then QuickOverview
    else if slideCount <= 8 then StandardPresentation
    else if slideCount <= 10 then DetailedCoverage
    else ComprehensiveDeepDive
  }

  /** More slides never lower the complexity label. */
  lemma ComplexityMonotone(n: int, m: int)
    requires n <= m
    ensures ComplexityRank(ComplexityLabel(n)) <= ComplexityRank(ComplexityLabel(m))
  {
  }

  datatype Duration = FiveToTen | TenToFifteen | FifteenToTwenty | TwentyToThirty

  function DurationRank(d: Duration): nat {
    match d
    case FiveToTen => 0
    case TenToFifteen => 1
    case FifteenToTwenty => 2
    case TwentyToThirty => 3
  }

  function DurationText(d: Duration): string {
    match d
    case FiveToTen => "~5-10 minutes"
    case TenToFifteen => "~10-15 minutes"
    case FifteenToTwenty => "~15-20 minutes"
    case TwentyToThirty => "~20-30 minutes"
  }

  function TotalMinutes(slideCount: int, a: Audience): real {
    slideCount as real * MinutesPerSlide(a)
  }

  /** estimateDuration: buckets below 15, 30 and 45 total minutes. */
  function EstimateDuration(slideCount: int, a: Audience): (d: Duration)
    ensures d == FiveToTen <==> TotalMinutes(slideCount, a) < 15.0
    ensures d == TenToFifteen <==> 15.0 <= TotalMinutes(slideCount, a) < 30.0
    ensures d == FifteenToTwenty <==> 30.0 <= TotalMinutes(slideCount, a) < 45.0
    ensures d == TwentyToThirty <==> 45.0 <= TotalMinutes(slideCount, a)
  {
    var total := TotalMinutes(slideCount, a);
    if total < 15.0 then FiveToTen
    else if total < 30.0 then TenToFifteen
    else if total < 45.0 then FifteenToTwenty
    else TwentyToThirty
  }

  /** For one audience, more slides never shorten the estimate. */
  lemma DurationMonotone(n: int, m: int, a: Audience)
    requires n <= m
    ensures DurationRank(EstimateDuration(n, a)) <= DurationRank(EstimateDuration(m, a))
  {
    assert TotalMinutes(n, a) <= TotalMinutes(m, a) by {
      assert (m as real - n as real) * MinutesPerSlide(a) >= 0.0;
    }
  }

  /**
   * A slower audience never shortens the estimate: students speak 1 minute
   * per slide, professionals 1.5 and teachers 2.
   */
  lemma DurationByAudience(n: int)
    requires n >= 0
    ensures DurationRank(EstimateDuration(n, Students)) <= DurationRank(EstimateDuration(n, Professionals))
    ensures DurationRank(EstimateDuration(n, Professionals)) <= DurationRank(EstimateDuration(n, Teachers))
  {
    assert n as real * 1.0 <= n as real * 1.5 <= n as real * 2.0;
  }

  /** Over the slider's range, 6 to 12 slides, the estimate never exceeds the third bucket. */
  lemma SliderRangeDurations(n: int, a: Audience)
    requires 6 <= n <= 12
    ensures EstimateDuration(n, a) != TwentyToThirty
  {
    assert n as real * MinutesPerSlide(a) <= 12.0 * 2.0;
  }

  /** The slide preview: numbered tiles and the optional "+k more" tile. */
  datatype Preview = Preview(numbered: nat, more: int)

  /**
   * `Array.from({ length: Math.min(count, 8) })` (a negative length gives no
   * tiles) and `count > 8 && "+{count - 8} more"`, with `more` 0 for no tile.
   */
  function PreviewTiles(slideCount: int): (p: Preview)
    ensures p.numbered <= 8
    ensures slideCount <= 8 ==> p.numbered == (if slideCount < 0 then 0 else slideCount) && p.more == 0
    ensures slideCount > 8 ==> p.numbered == 8 && p.more == slideCount - 8 && p.more > 0
  {
    if slideCount > 8 then Preview(8, slideCount - 8)
    else Preview(if slideCount < 0 then 0 else slideCount, 0)
  }

  /** For a non-negative count, the numbered tiles plus the "more" count add up to the slide count. */
  lemma PreviewAccountsForEverySlide(slideCount: int)
    requires slideCount >= 0
    ensures PreviewTiles(slideCount).numbered + PreviewTiles(slideCount).more == slideCount
  {
  }
}
