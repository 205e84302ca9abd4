/**
 * The dashboard's recent-projects list
 * (src/components/dashboard/recent-projects.tsx): relative-time formatting
 * and the per-status badge configuration.
 */
module RecentProjects {
  import opened ProjectsStore

  const MinuteMs := 60000
  const HourMs := 3600000
  const DayMs := 86400000

  /**
   * The text `formatDate` picks; `Locale` stands for `toLocaleDateString()`,
   * whose output depends on the browser's locale.
   */
  datatype RelativeTime = JustNow | MinutesAgo(mins: int) | HoursAgo(hours: int) | DaysAgo(days: int) | Locale

  /**
   * formatDate on the elapsed milliseconds `now - date`. Dafny's `/` with a
   * positive divisor rounds down, as `Math.floor(diffMs / n)` does.
   */
  function FormatDate(diffMs: int): (r: RelativeTime)
    ensures r == JustNow <==> diffMs < MinuteMs
    ensures r.MinutesAgo? <==> MinuteMs <= diffMs < HourMs
    ensures r.HoursAgo? <==> HourMs <= diffMs < DayMs
    ensures r.DaysAgo? <==> DayMs <= diffMs < 7 * DayMs
    ensures r == Locale <==> 7 * DayMs <= diffMs
    ensures r.MinutesAgo? ==> 1 <= r.mins < 60 && r.mins * MinuteMs <= diffMs < (r.mins + 1) * MinuteMs
    ensures r.HoursAgo? ==> 1 <= r.hours < 24 && r.hours * HourMs <= diffMs < (r.hours + 1) * HourMs
    ensures r.DaysAgo? ==> 1 <= r.days < 7 && r.days * DayMs <= diffMs < (r.days + 1) * DayMs
  {
    var mins := diffMs / MinuteMs;
    var hours := diffMs / HourMs;
    var days := diffMs / DayMs;
    if mins < 1 then JustNow
    else if mins < 60 then MinutesAgo(mins)
    else if hours < 24 then HoursAgo(hours)
    else if days < 7 then DaysAgo(days)
    else Locale
  }

  function Rank(r: RelativeTime): nat {
    match r
    case JustNow => 0
    case MinutesAgo(_) => 1
    case HoursAgo(_) => 2
    case DaysAgo(_) => 3
    case Locale => 4
  }

  /** A date further in the past never gets a finer-grained label. */
  lemma FormatDateMonotone(d1: int, d2: int)
    requires d1 <= d2
    ensures Rank(FormatDate(d1)) <= Rank(FormatDate(d2))
  {
  }

  /** A date in the future (a negative difference) reads "Just now". */
  lemma FutureIsJustNow(diffMs: int)
    requires diffMs < 0
    ensures FormatDate(diffMs) == JustNow
  {
  }

  datatype Icon = FileTextIcon | LoaderIcon | CheckCircleIcon | AlertCircleIcon | ClockIcon

  datatype StatusBadge = StatusBadge(color: string, icon: Icon, caption: string)

  /** statusConfig: one badge per project status. */
  function StatusConfig(s: ProjectStatus): (b: StatusBadge)
    ensures |b.caption| > 0 && |b.color| > 0
  {
    match s
    case Draft => StatusBadge("bg-gray-100 text-gray-700", FileTextIcon, "Draft")
    case Generating => StatusBadge("bg-blue-100 text-blue-700", LoaderIcon, "Generating")
    case Ready => StatusBadge("bg-green-100 text-green-700", CheckCircleIcon, "Ready")
    case Error => StatusBadge("bg-red-100 text-red-700", AlertCircleIcon, "Error")
    case Cancelled => StatusBadge("bg-orange-100 text-orange-700", ClockIcon, "Cancelled")
  }

  /** Distinct statuses get distinct badges, so a badge identifies its status. */
  lemma StatusConfigInjective(s: ProjectStatus, t: ProjectStatus)
    requires StatusConfig(s).caption == StatusConfig(t).caption
    ensures s == t
  {
  }
}
