/** The plan-selection page: the derived flags, the reason banner and the current-plan highlight. */
module SubscribePage {
  import opened Wrappers
  import opened JsString
  import opened Subscriptions

  /** `subscription ? now > endDate : true`. Unlike the gate, `is_active` plays no part. */
  function IsExpired(subscription: Option<Subscription>, now: int): (r: bool)
    ensures r <==> subscription.None? || PastEnd(subscription.value, now)
    ensures subscription.Some? && !subscription.value.isActive && !PastEnd(subscription.value, now) ==> !r
  {
    if subscription.Some? then now > subscription.value.endDate else true
  }

  /** `subscription ? reports_used >= reports_limit : false`. */
  function IsLimitReached(subscription: Option<Subscription>): (r: bool)
    ensures r <==> subscription.Some? && LimitReached(subscription.value)
  {
    if subscription.Some? then subscription.value.reportsUsed >= subscription.value.reportsLimit else false
  }

  /** With no row the page counts as expired but not at the limit. */
  lemma NoSubscriptionFlags(now: int)
    ensures IsExpired(None, now) && !IsLimitReached(None)
  {
  }

  const ExpiredHeading: string := "Your subscription has expired"
  const LimitHeading: string := "Report limit reached"
  const ExpiredText: string :=
    "Your free trial or subscription has ended. Please upgrade to continue creating cost reports."

  /** The limit text, with `${subscription?.reports_limit}` rendering "undefined" without a row. */
  function LimitText(subscription: Option<Subscription>): string {
    "You've reached the maximum number of reports ("
    + (if subscription.Some? then IntToString(subscription.value.reportsLimit) else "undefined")
    + ") for your current plan. Upgrade to create more reports."
  }

  datatype Banner = Banner(heading: string, text: string)

  /** The amber banner for the `reason` query parameter. */
  function ReasonBanner(reason: Option<string>, subscription: Option<Subscription>): (r: Option<Banner>)
    // Shown iff the reason is truthy, i.e. present and non-empty.
    ensures r.Some? <==> reason.Some? && reason.value != ""
    // "expired" selects the expiry text, every other value the limit text.
    ensures r.Some? && reason.value == "expired" ==> r.value == Banner(ExpiredHeading, ExpiredText)
    ensures r.Some? && reason.value != "expired" ==> r.value == Banner(LimitHeading, LimitText(subscription))
  {
    if reason.None? || reason.value == "" then None
    else if reason.value == "expired" then Some(Banner(ExpiredHeading, ExpiredText))
    else Some(Banner(LimitHeading, LimitText(subscription)))
  }

  /** The card for `plan` is ringed iff `subscription?.subscription_type === plan`. */
  predicate Highlighted(subscription: Option<Subscription>, plan: string) {
    subscription.Some? && subscription.value.subscriptionType == plan
  }

  /** At most one of the three cards is highlighted, and none without a row. */
  lemma AtMostOneHighlighted(subscription: Option<Subscription>, a: string, b: string)
    requires a != b
    ensures !(Highlighted(subscription, a) && Highlighted(subscription, b))
    ensures subscription.None? ==> !Highlighted(subscription, a)
  {
  }
}
