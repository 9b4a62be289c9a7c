/**
 * A dotcom user's Cody subscription: the subscription known to the
 * self-service Cody backend (SSC) when there is one, otherwise one
 * synthesised from what dotcom stores about the user.
 */
module CodySubscription {
  import opened Wrappers

  /** An instant, as seconds on one time line. */
  type Time = int

  /**
   * SSC subscription statuses. Active, PastDue, Trialing and Pending are
   * the ones this logic names; every other status SSC reports is OtherStatus,
   * whose name is never the wire name of one of those four.
   */
  datatype SubscriptionStatus = Active | PastDue | Trialing | Pending | OtherStatus(name: OtherStatusName)

  /** A status name SSC may report other than "active", "past_due", "trialing" and "pending". */
  type OtherStatusName = s: string | s != "active" && s != "past_due" && s != "trialing" && s != "pending"
    witness "canceled"

  datatype Plan = Free | Pro

  /** A subscription as SSC reports it; the period bounds are RFC 3339 timestamps. */
  datatype SscSubscription = SscSubscription(status: SubscriptionStatus, currentPeriodStart: string, currentPeriodEnd: string)

  /** The dotcom user: only whether and when Cody Pro was enabled matters here. */
  datatype User = User(id: int, codyProEnabledAt: Option<Time>)

  datatype UserSubscription = UserSubscription(
    status: SubscriptionStatus,
    plan: Plan,
    applyProRateLimits: bool,
    currentPeriodStartAt: Time,
    currentPeriodEndAt: Time)

  datatype ExternalAccount = ExternalAccount(accountID: string)

  datatype SubscriptionError =
    | PeriodParseFailed(value: string)
    | ListAccountsFailed(msg: string)
    | FetchSubscriptionFailed(msg: string)

  /** The period (start, end) dotcom derives for users without an SSC subscription. */
  datatype Period = Period(start: Time, end: Time)

  /** The statuses that still earn Pro rate limits. */
  predicate ProRateLimitStatus(s: SubscriptionStatus) {
    s == Active || s == PastDue || s == Trialing
  }

  /**
   * Merges SSC and dotcom data. `parse` is RFC 3339 parsing (section 5.6 of
   * RFC 3339), None when the string is not a valid timestamp; `trialEnded`
   * is the cody-pro-trial-ended feature flag and `dotcomPeriod` the period
   * computed from the dotcom user.
   */
  function Consolidate(user: User, subscription: Option<SscSubscription>, trialEnded: bool,
                       dotcomPeriod: Period, parse: string -> Option<Time>): (r: Result<UserSubscription, SubscriptionError>)
    // With SSC data: Pro plan, status copied, rate limits by status, and the period parsed from SSC.
    ensures subscription.Some? ==>
              var s := subscription.value;
              (r.Success? <==> parse(s.currentPeriodStart).Some? && parse(s.currentPeriodEnd).Some?) &&
              (r.Success? ==>
                 r.value.plan == Pro && r.value.status == s.status &&
                 (r.value.applyProRateLimits <==> s.status in {Active, PastDue, Trialing}) &&
                 Some(r.value.currentPeriodStartAt) == parse(s.currentPeriodStart) &&
                 Some(r.value.currentPeriodEndAt) == parse(s.currentPeriodEnd))
    // An unparsable start is reported before the end is looked at.
    ensures subscription.Some? && parse(subscription.value.currentPeriodStart).None? ==>
              r == Failure(PeriodParseFailed(subscription.value.currentPeriodStart))
    // With a valid start, an unparsable end is the error.
    ensures subscription.Some? && parse(subscription.value.currentPeriodStart).Some? &&
            parse(subscription.value.currentPeriodEnd).None? ==>
              r == Failure(PeriodParseFailed(subscription.value.currentPeriodEnd))
    // Without SSC data: never fails, status Pending, period from dotcom.
    ensures subscription.None? ==>
              r.Success? && r.value.status == Pending &&
              r.value.currentPeriodStartAt == dotcomPeriod.start && r.value.currentPeriodEndAt == dotcomPeriod.end
    ensures subscription.None? && user.codyProEnabledAt.Some? ==>
              r.value.plan == Pro && r.value.applyProRateLimits == !trialEnded
    ensures subscription.None? && user.codyProEnabledAt.None? ==>
              r.value.plan == Free && !r.value.applyProRateLimits
    // Whatever the source, Pro rate limits are only ever given to the Pro plan.
    ensures r.Success? && r.value.applyProRateLimits ==> r.value.plan == Pro
  {
    if subscription.Some? then
      var s := subscription.value;
      match parse(s.currentPeriodStart)
      case None => Failure(PeriodParseFailed(s.currentPeriodStart))
      case Some(start) =>
        match parse(s.currentPeriodEnd)
        case None => Failure(PeriodParseFailed(s.currentPeriodEnd))
        case Some(end) =>
          Success(UserSubscription(s.status, Pro, ProRateLimitStatus(s.status), start, end))
    else if user.codyProEnabledAt.Some? then
      Success(UserSubscription(Pending, Pro, !trialEnded, dotcomPeriod.start, dotcomPeriod.end))
    else
      Success(UserSubscription(Pending, Free, false, dotcomPeriod.start, dotcomPeriod.end))
  }

  /** With SSC data, what dotcom knows about the user (Cody Pro date, trial flag, period) is ignored. */
  lemma SscDataOverridesDotcom(u1: User, u2: User, s: SscSubscription, t1: bool, t2: bool,
                               p1: Period, p2: Period, parse: string -> Option<Time>)
    ensures Consolidate(u1, Some(s), t1, p1, parse) == Consolidate(u2, Some(s), t2, p2, parse)
  {
  }

  /** The SAMS account ID of the user: the first linked account's ID, or "" when there is none. */
  function SamsAccountID(accounts: Result<seq<ExternalAccount>, string>): (r: Result<string, SubscriptionError>)
    ensures accounts.Failure? ==> r == Failure(ListAccountsFailed(accounts.error))
    ensures accounts.Success? && |accounts.value| > 0 ==> r == Success(accounts.value[0].accountID)
    ensures accounts.Success? && |accounts.value| == 0 ==> r == Success("")
  {
    match accounts
    case Failure(e) => Failure(ListAccountsFailed(e))
    case Success(list) => if |list| > 0 then Success(list[0].accountID) else Success("")
  }

  /** SSC is asked only for a user with a SAMS account and with the use-ssc-for-cody-subscription flag on. */
  predicate ShouldFetchFromSsc(samsAccountID: string, useSscFlag: bool) {
    samsAccountID != "" && useSscFlag
  }

  /**
   * The user's subscription. `accounts` is the listing of the user's SAMS
   * OpenID Connect accounts and `fetch` SSC's lookup by SAMS account ID,
   * which may find no subscription.
   */
  function SubscriptionForUser(user: User, accounts: Result<seq<ExternalAccount>, string>, useSscFlag: bool,
                               fetch: string -> Result<Option<SscSubscription>, string>,
                               trialEnded: bool, dotcomPeriod: Period, parse: string -> Option<Time>)
    : (r: Result<UserSubscription, SubscriptionError>)
    ensures accounts.Failure? ==> r == Failure(ListAccountsFailed(accounts.error))
    ensures accounts.Success? ==>
              var id := SamsAccountID(accounts).value;
              if !ShouldFetchFromSsc(id, useSscFlag) then
                r == Consolidate(user, None, trialEnded, dotcomPeriod, parse)
              else if fetch(id).Failure? then
                r == Failure(FetchSubscriptionFailed(fetch(id).error))
              else
                r == Consolidate(user, fetch(id).value, trialEnded, dotcomPeriod, parse)
  {
    match SamsAccountID(accounts)
    case Failure(e) => Failure(e)
    case Success(id) =>
      if ShouldFetchFromSsc(id, useSscFlag) then
        match fetch(id)
        case Failure(e) => Failure(FetchSubscriptionFailed(e))
        case Success(subscription) => Consolidate(user, subscription, trialEnded, dotcomPeriod, parse)
      else
        Consolidate(user, None, trialEnded, dotcomPeriod, parse)
  }

  /** When SSC is not to be asked, the SSC lookup does not influence the result. */
  lemma SscNotConsulted(user: User, accounts: Result<seq<ExternalAccount>, string>, useSscFlag: bool,
                        fetch1: string -> Result<Option<SscSubscription>, string>,
                        fetch2: string -> Result<Option<SscSubscription>, string>,
                        trialEnded: bool, dotcomPeriod: Period, parse: string -> Option<Time>)
    requires accounts.Failure? || !ShouldFetchFromSsc(SamsAccountID(accounts).value, useSscFlag)
    ensures SubscriptionForUser(user, accounts, useSscFlag, fetch1, trialEnded, dotcomPeriod, parse) ==
            SubscriptionForUser(user, accounts, useSscFlag, fetch2, trialEnded, dotcomPeriod, parse)
  {
  }

  /** A user without a linked SAMS account gets the dotcom-derived subscription, which never fails. */
  lemma NoSamsAccountUsesDotcom(user: User, useSscFlag: bool, fetch: string -> Result<Option<SscSubscription>, string>,
                                trialEnded: bool, dotcomPeriod: Period, parse: string -> Option<Time>)
    ensures var r := SubscriptionForUser(user, Success([]), useSscFlag, fetch, trialEnded, dotcomPeriod, parse);
            r.Success? && r.value.status == Pending
  {
  }
}
