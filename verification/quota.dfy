/**
 * Plan limits and usage quotas (src/lib/usage/quota.ts).
 *
 * The Firestore user document is an input value. A database read is
 * `ReadError` (no database, or the read threw), `Missing` (no such user) or
 * `Present(doc)`. The clock is the parameter `now` in milliseconds.
 */
module Quota {
  import opened Common

  datatype Plan = Free | Pro | Ultra

  datatype PlanLimits = PlanLimits(
    generationsPerMonth: nat,
    exportsPerMonth: nat,
    rewritesPerMonth: nat,
    imageRegensPerMonth: nat,
    canUsePanicMode: bool,
    hasWatermark: bool,
    maxSlides: nat)

  /** PLAN_LIMITS. */
  function Limits(p: Plan): PlanLimits {
    match p
    case Free => PlanLimits(5, 3, 10, 5, false, true, 12)
    case Pro => PlanLimits(50, 100, 100, 50, false, false, 25)
    case Ultra => PlanLimits(999999, 999999, 999999, 999999, true, false, 50)
  }

  /** Plans ordered free < pro < ultra. */
  function Rank(p: Plan): nat {
    match p
    case Free => 0
    case Pro => 1
    case Ultra => 2
  }

  /**
   * Every numeric limit grows with the plan; only ultra may use panic mode
   * and only free carries the watermark.
   */
  lemma LimitsMonotone(p: Plan, q: Plan)
    requires Rank(p) <= Rank(q)
    ensures Limits(p).generationsPerMonth <= Limits(q).generationsPerMonth
    ensures Limits(p).exportsPerMonth <= Limits(q).exportsPerMonth
    ensures Limits(p).rewritesPerMonth <= Limits(q).rewritesPerMonth
    ensures Limits(p).imageRegensPerMonth <= Limits(q).imageRegensPerMonth
    ensures Limits(p).maxSlides <= Limits(q).maxSlides
    ensures Limits(p).canUsePanicMode <==> p == Ultra
    ensures Limits(p).hasWatermark <==> p == Free
  {
  }

  /** The plan named by a stored string; the empty string is falsy and means free. */
  function ParsePlan(s: string): (r: Option<Plan>)
    ensures s == "" || s == "free" <==> r == Some(Free)
    ensures s == "pro" <==> r == Some(Pro)
    ensures s == "ultra" <==> r == Some(Ultra)
  {
    if s == "" || s == "free" then Some(Free)
    else if s == "pro" then Some(Pro)
    else if s == "ultra" then Some(Ultra)
    else None
  }

  datatype Counter = Generations | Exports | Rewrites | ImageRegens

  /** The `quota` map of a stored user document; every field may be absent. */
  datatype StoredQuota = StoredQuota(
    generationsUsed: Option<int>,
    exportsUsed: Option<int>,
    rewritesUsed: Option<int>,
    imageRegensUsed: Option<int>,
    periodStart: Option<int>,
    periodEnd: Option<int>)

  datatype UserDoc = UserDoc(plan: Option<string>, quota: Option<StoredQuota>)

  datatype DbRead = ReadError | Missing | Present(doc: UserDoc)

  /** One month after `now`; calendar arithmetic is abstracted to a fixed length. */
  const MonthMs: nat := 30 * 24 * 60 * 60 * 1000

  datatype Usage = Usage(generationsUsed: int, exportsUsed: int, rewritesUsed: int, imageRegensUsed: int, periodEnd: int)

  /**
   * What `PLAN_LIMITS[plan]` finds: a plan's limits, an inherited member of
   * `Object.prototype` (which has no limit fields), or `undefined`.
   */
  datatype LimitsEntry = Known(limits: PlanLimits) | Inherited | Undefined

  /** The entry of PLAN_LIMITS under a plan string. */
  function LookupLimits(plan: string): (r: LimitsEntry)
    ensures r.Known? <==> ParsePlan(plan).Some?
    ensures r.Known? ==> r.limits == Limits(ParsePlan(plan).value)
    ensures r.Inherited? <==> plan in InheritedKeys
  {
    match ParsePlan(plan)
    case Some(p) => Known(Limits(p))
    case None => if plan in InheritedKeys then Inherited else Undefined
  }

  /** Result of getUserQuota. */
  datatype QuotaInfo = QuotaInfo(plan: string, usage: Usage, limits: LimitsEntry)

  function Used(u: Usage, c: Counter): int {
    match c
    case Generations => u.generationsUsed
    case Exports => u.exportsUsed
    case Rewrites => u.rewritesUsed
    case ImageRegens => u.imageRegensUsed
  }

  function Limit(l: PlanLimits, c: Counter): nat {
    match c
    case Generations => l.generationsPerMonth
    case Exports => l.exportsPerMonth
    case Rewrites => l.rewritesPerMonth
    case ImageRegens => l.imageRegensPerMonth
  }

  /** `x || 0` for a stored counter. */
  function Count(o: Option<int>): int {
    o.GetOr(0)
  }

  /**
   * getUserQuota as written: a missing user is a fresh free account; in a
   * stored quota map a missing counter reads as 0 and a missing period end
   * as one month ahead. A present document without a quota map throws: the
   * default map holds a JavaScript `Date` as `periodStart`, and a `Date` has
   * no `toDate` method.
   */
  function GetUserQuota(read: DbRead, now: int): (r: Option<QuotaInfo>)
    ensures r.None? <==> read.ReadError? || (read.Present? && read.doc.quota.None?)
    ensures read.Missing? ==> r == Some(QuotaInfo("free", Usage(0, 0, 0, 0, now + MonthMs), Known(Limits(Free))))
    ensures r.Some? && read.Present? ==> r.value.plan == OrElse(read.doc.plan, "free")
    ensures r.Some? && read.Present? ==>
      forall c :: Used(r.value.usage, c) == Count(StoredCount(read.doc.quota.value, c))
    ensures r.Some? && read.Present? ==>
      r.value.usage.periodEnd == read.doc.quota.value.periodEnd.GetOr(now + MonthMs)
    ensures r.Some? ==> (r.value.limits.Known? <==> ParsePlan(r.value.plan).Some?)
    ensures r.Some? && r.value.limits.Known? ==> r.value.limits.limits == Limits(ParsePlan(r.value.plan).value)
    ensures r.Some? ==> (r.value.limits.Inherited? <==> r.value.plan in InheritedKeys)
  {
    match read
    case ReadError => None
    case Missing => Some(QuotaInfo("free", Usage(0, 0, 0, 0, now + MonthMs), Known(Limits(Free))))
    case Present(doc) =>
      match doc.quota
      case None => None  // `periodStart?.toDate()` on the default `Date` throws
      case Some(q) =>
        var plan := OrElse(doc.plan, "free");
        var usage := Usage(Count(q.generationsUsed), Count(q.exportsUsed), Count(q.rewritesUsed),
                           Count(q.imageRegensUsed), q.periodEnd.GetOr(now + MonthMs));
        Some(QuotaInfo(plan, usage, LookupLimits(plan)))
  }

  /**
   * getUserQuota as evidently intended: a document without a quota map
   * reads as zero counters in a period ending one month ahead.
   */
  function GetUserQuotaIntended(read: DbRead, now: int): (r: Option<QuotaInfo>)
    ensures read.ReadError? <==> r.None?
    ensures GetUserQuota(read, now).Some? ==> r == GetUserQuota(read, now)
    ensures read.Present? && read.doc.quota.None? ==>
      r == Some(QuotaInfo(OrElse(read.doc.plan, "free"), Usage(0, 0, 0, 0, now + MonthMs),
                          LookupLimits(OrElse(read.doc.plan, "free"))))
  {
    match read
    case Present(doc) =>
      if doc.quota.None? then
        var plan := OrElse(doc.plan, "free");
        Some(QuotaInfo(plan, Usage(0, 0, 0, 0, now + MonthMs), LookupLimits(plan)))
      else GetUserQuota(read, now)
    case _ => GetUserQuota(read, now)
  }

  function StoredCount(q: StoredQuota, c: Counter): Option<int> {
    match c
    case Generations => q.generationsUsed
    case Exports => q.exportsUsed
    case Rewrites => q.rewritesUsed
    case ImageRegens => q.imageRegensUsed
  }

  // ---------------------------------------------------------------------------
  // Quota checks
  // ---------------------------------------------------------------------------

  datatype DenyReason = LimitReached(counter: Counter, limit: nat, plan: string) | PanicUltraOnly

  datatype QuotaCheck =
    | Allowed
    | Denied(reason: DenyReason, upgradeUrl: string, currentCount: Option<int>, limit: Option<int>)

  const PricingUrl := "/pricing"

  /**
   * The shared rule of checkGenerationQuota, checkExportQuota and
   * checkRewriteQuota: fail open on any error, allow after the period
   * ended, deny at or above the limit with the count and the limit. An
   * inherited entry has no limit, and `used >= undefined` is false.
   */
  function CheckCounterQuota(c: Counter, read: DbRead, now: int): (r: QuotaCheck)
    ensures read.ReadError? ==> r == Allowed
    ensures read.Present? && read.doc.quota.None? ==> r == Allowed
    ensures r.Denied? <==>
      && GetUserQuota(read, now).Some?
      && var info := GetUserQuota(read, now).value;
         && info.limits.Known?
         && now <= info.usage.periodEnd
         && Used(info.usage, c) >= Limit(info.limits.limits, c)
    ensures r.Denied? ==>
      var info := GetUserQuota(read, now).value;
      && r.upgradeUrl == PricingUrl
      && r.currentCount == Some(Used(info.usage, c))
      && r.limit == Some(Limit(info.limits.limits, c) as int)
      && r.reason == LimitReached(c, Limit(info.limits.limits, c), info.plan)
  {
    match GetUserQuota(read, now)
    case None => Allowed
    case Some(info) =>
      if now > info.usage.periodEnd then Allowed
      else match info.limits
        case Undefined => Allowed  // reading a field of undefined throws
        case Inherited => Allowed  // the limit reads as undefined
        case Known(l) =>
          if Used(info.usage, c) >= Limit(l, c) then
            Denied(LimitReached(c, Limit(l, c), info.plan), PricingUrl,
                   Some(Used(info.usage, c)), Some(Limit(l, c)))
          else Allowed
  }

  /** The quota of a known plan in its current period. */
  predicate InPeriodWithLimits(read: DbRead, now: int) {
    && GetUserQuota(read, now).Some?
    && GetUserQuota(read, now).value.limits.Known?
    && now <= GetUserQuota(read, now).value.usage.periodEnd
  }

  /** checkGenerationQuota: denied once the generations used reach the plan's monthly generations. */
  function CheckGenerationQuota(read: DbRead, now: int): (r: QuotaCheck)
    ensures r.Denied? <==>
      && InPeriodWithLimits(read, now)
      && GetUserQuota(read, now).value.usage.generationsUsed >= GetUserQuota(read, now).value.limits.limits.generationsPerMonth
    ensures r.Denied? ==> r.limit == Some(GetUserQuota(read, now).value.limits.limits.generationsPerMonth as int)
  {
    CheckCounterQuota(Generations, read, now)
  }

  /** checkExportQuota: denied once the exports used reach the plan's monthly exports. */
  function CheckExportQuota(read: DbRead, now: int): (r: QuotaCheck)
    ensures r.Denied? <==>
      && InPeriodWithLimits(read, now)
      && GetUserQuota(read, now).value.usage.exportsUsed >= GetUserQuota(read, now).value.limits.limits.exportsPerMonth
    ensures r.Denied? ==> r.limit == Some(GetUserQuota(read, now).value.limits.limits.exportsPerMonth as int)
  {
    CheckCounterQuota(Exports, read, now)
  }

  /** checkRewriteQuota: denied once the rewrites used reach the plan's monthly rewrites. */
  function CheckRewriteQuota(read: DbRead, now: int): (r: QuotaCheck)
    ensures r.Denied? <==>
      && InPeriodWithLimits(read, now)
      && GetUserQuota(read, now).value.usage.rewritesUsed >= GetUserQuota(read, now).value.limits.limits.rewritesPerMonth
    ensures r.Denied? ==> r.limit == Some(GetUserQuota(read, now).value.limits.limits.rewritesPerMonth as int)
  {
    CheckCounterQuota(Rewrites, read, now)
  }

  /**
   * checkPanicModeQuota: denied for the free and pro plans and for a plan
   * string naming an inherited member (`!undefined` holds); allowed for
   * ultra, and on every error: a failed read, a document without a quota
   * map, and an unknown plan's `undefined` entry.
   */
  function CheckPanicModeQuota(read: DbRead, now: int): (r: QuotaCheck)
    ensures r.Denied? <==>
      || read.Missing?
      || (&& read.Present? && read.doc.quota.Some?
          && (|| ParsePlan(OrElse(read.doc.plan, "free")) in {Some(Free), Some(Pro)}
              || OrElse(read.doc.plan, "free") in InheritedKeys))
    ensures r.Denied? ==> r == Denied(PanicUltraOnly, PricingUrl, None, None)
  {
    match GetUserQuota(read, now)
    case None => Allowed
    case Some(info) =>
      match info.limits
      case Undefined => Allowed  // reading a field of undefined throws
      case Inherited => Denied(PanicUltraOnly, PricingUrl, None, None)
      case Known(l) => if !l.canUsePanicMode then Denied(PanicUltraOnly, PricingUrl, None, None) else Allowed
  }

  /** A user with no document is a fresh free account: counters pass, panic mode does not. */
  lemma FreshUserCheck(c: Counter, now: int)
    ensures CheckCounterQuota(c, Missing, now) == Allowed
    ensures CheckPanicModeQuota(Missing, now).Denied?
  {
  }

  // ---------------------------------------------------------------------------
  // Usage counters
  // ---------------------------------------------------------------------------

  datatype IncrementOutcome = Unchanged | Failed | Updated(doc: UserDoc)

  function SetCount(q: StoredQuota, c: Counter, v: int): (r: StoredQuota)
    ensures StoredCount(r, c) == Some(v)
    ensures forall d :: d != c ==> StoredCount(r, d) == StoredCount(q, d)
    ensures r.periodStart == q.periodStart && r.periodEnd == q.periodEnd
  {
    match c
    case Generations => q.(generationsUsed := Some(v))
    case Exports => q.(exportsUsed := Some(v))
    case Rewrites => q.(rewritesUsed := Some(v))
    case ImageRegens => q.(imageRegensUsed := Some(v))
  }

  const EmptyQuota := StoredQuota(None, None, None, None, None, None)

  /**
   * incrementUsage as written. Without a database nothing happens; a failed
   * read, a document without a quota map (getUserQuota throws, uncaught)
   * and an update of a missing document reject; in the current period
   * the named counter is incremented. After the period ended the reset
   * update carries `getPeriodTimestamp()`, a plain object with function
   * fields, which Firestore refuses as field data: the update rejects.
   */
  function IncrementUsage(dbAvailable: bool, read: DbRead, c: Counter, now: int): (r: IncrementOutcome)
    ensures !dbAvailable ==> r == Unchanged
    ensures dbAvailable && !read.Present? ==> r == Failed
    ensures dbAvailable && read.Present? && read.doc.quota.None? ==> r == Failed
    ensures dbAvailable && read.Present? && read.doc.quota.Some? ==>
      (r.Updated? <==> now <= GetUserQuota(read, now).value.usage.periodEnd)
    ensures r.Updated? ==> read.Present? && r == IncrementUsageIntended(dbAvailable, read, c, now)
  {
    if !dbAvailable then Unchanged
    else match read
      case ReadError => Failed
      case Missing => Failed
      case Present(doc) =>
        match GetUserQuota(read, now)
        case None => Failed  // getUserQuota throws outside any try
        case Some(info) =>
          var q := doc.quota.GetOr(EmptyQuota);
          if now > info.usage.periodEnd then Failed  // updateDoc rejects the timestamp object
          else Updated(doc.(quota := Some(SetCount(q, c, Count(StoredCount(q, c)) + 1))))
  }

  /**
   * incrementUsage as evidently intended: a missing quota map reads as zero
   * counters, and an expired period stores a real period end, resetting
   * every counter to 0 and the named one to 1.
   */
  function IncrementUsageIntended(dbAvailable: bool, read: DbRead, c: Counter, now: int): (r: IncrementOutcome)
    ensures !dbAvailable ==> r == Unchanged
    ensures dbAvailable && !read.Present? ==> r == Failed
    ensures dbAvailable && read.Present? ==> r.Updated? && r.doc.plan == read.doc.plan
  {
    if !dbAvailable then Unchanged
    else match read
      case ReadError => Failed
      case Missing => Failed
      case Present(doc) =>
        var info := GetUserQuotaIntended(read, now).value;
        var q := doc.quota.GetOr(EmptyQuota);
        if now > info.usage.periodEnd then
          var reset := StoredQuota(Some(0), Some(0), Some(0), Some(0), Some(now), Some(now + MonthMs));
          Updated(doc.(quota := Some(SetCount(reset, c, 1))))
        else
          Updated(doc.(quota := Some(SetCount(q, c, Count(StoredCount(q, c)) + 1))))
  }

  /** Effective usage (as getUserQuota reads it) after an intended increment. */
  lemma IncrementEffect(read: DbRead, c: Counter, now: int)
    requires read.Present?
    ensures var before := GetUserQuotaIntended(read, now).value.usage;
      var r := IncrementUsageIntended(true, read, c, now);
      var after := GetUserQuota(Present(r.doc), now).value.usage;
      && (now <= before.periodEnd ==>
            && Used(after, c) == Used(before, c) + 1
            && (forall d :: d != c ==> Used(after, d) == Used(before, d))
            && after.periodEnd == before.periodEnd)
      && (now > before.periodEnd ==>
            && Used(after, c) == 1
            && (forall d :: d != c ==> Used(after, d) == 0)
            && after.periodEnd == now + MonthMs)
  {
    var before := GetUserQuotaIntended(read, now).value.usage;
    var r := IncrementUsageIntended(true, read, c, now);
    var after := GetUserQuota(Present(r.doc), now).value.usage;
    var q := read.doc.quota.GetOr(EmptyQuota);
    if now <= before.periodEnd {
      assert r.doc.quota == Some(SetCount(q, c, Count(StoredCount(q, c)) + 1));
      forall d ensures Used(after, d) == (if d == c then Used(before, c) + 1 else Used(before, d)) {
        if read.doc.quota.None? {
          assert Used(before, d) == 0;
        }
      }
    }
  }

  /**
   * Check, then increment: a counter an allowed check lets through in the
   * current period never ends above its plan limit.
   */
  lemma CheckThenIncrementWithinLimit(read: DbRead, c: Counter, now: int)
    requires read.Present?
    requires CheckCounterQuota(c, read, now) == Allowed
    requires InPeriodWithLimits(read, now)
    ensures var info := GetUserQuota(read, now).value;
      var after := GetUserQuota(Present(IncrementUsage(true, read, c, now).doc), now).value;
      Used(after.usage, c) <= Limit(info.limits.limits, c)
  {
    IncrementEffect(read, c, now);
  }

  /** As written, a user whose period has ended gets a rejected update instead of a reset. */
  lemma ExpiredPeriodIncrementRejected()
    ensures var read := Present(UserDoc(Some("free"), Some(StoredQuota(Some(5), None, None, None, Some(0), Some(0)))));
      && IncrementUsage(true, read, Generations, 1) == Failed
      && IncrementUsageIntended(true, read, Generations, 1) ==
           Updated(UserDoc(Some("free"), Some(StoredQuota(Some(1), Some(0), Some(0), Some(0), Some(1), Some(1 + MonthMs)))))
  {
  }

  /**
   * The consequence as written: once a stored period has ended, every check
   * passes and every increment rejects, so the stored counters never reset
   * and no later check denies.
   */
  lemma ExpiredPeriodStaysOpen(read: DbRead, c: Counter, d: Counter, now: int, later: int)
    requires read.Present? && read.doc.quota.Some? && read.doc.quota.value.periodEnd.Some?
    requires now > read.doc.quota.value.periodEnd.value && later >= now
    ensures IncrementUsage(true, read, c, now) == Failed
    ensures CheckCounterQuota(d, read, later) == Allowed
  {
  }

  /**
   * As written, a user document without a quota map (every document the
   * sign-up path creates) is never counted: each increment rejects, the
   * counter checks allow, and so does the panic check, whatever the plan.
   */
  lemma QuotalessUserUncounted(read: DbRead, c: Counter, d: Counter, now: int)
    requires read.Present? && read.doc.quota.None?
    ensures IncrementUsage(true, read, c, now) == Failed
    ensures CheckCounterQuota(d, read, now) == Allowed
    ensures CheckPanicModeQuota(read, now) == Allowed
  {
  }

  /** The free sign-up document: panic mode allowed, generation never counted. */
  lemma FreeSignUpDocumentAsWritten(now: int)
    ensures var read := Present(UserDoc(Some("free"), None));
      && CheckPanicModeQuota(read, now) == Allowed
      && IncrementUsage(true, read, Generations, now) == Failed
  {
  }

  /**
   * With the intended reading, the first increment of a quota-less document
   * stores a map that the as-written getUserQuota reads back with the named
   * counter at 1, so from then on the checks count it.
   */
  lemma {:induction false} IntendedFirstIncrementCounts(read: DbRead, c: Counter, d: Counter, now: int)
    requires read.Present? && read.doc.quota.None?
    ensures var r := IncrementUsageIntended(true, read, c, now);
      && r.Updated?
      && GetUserQuota(Present(r.doc), now).Some?
      && Used(GetUserQuota(Present(r.doc), now).value.usage, d) == (if d == c then 1 else 0)
  {
    IncrementEffect(read, c, now);
  }
}
