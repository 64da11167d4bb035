/** The dashboard's subscription panel: the status derived from the user's row, the badges it
    shows and the label of the subscription button. */
module DashboardPage {
  import opened Wrappers
  import opened Subscriptions

  /** `Infinity`, or a finite count that may be negative. */
  datatype ReportsLeft = Unlimited | Count(n: int)

  /** The four derived values: `isExpired`, `daysLeft`, `isPaidSubscription` (which is also
      `hasInfiniteReports`) and `reportsLeft`. */
  datatype Status = Status(isExpired: bool, daysLeft: int, isPaid: bool, reportsLeft: ReportsLeft)

  /** `Math.ceil(x / d)` on integers, for a positive divisor. */
  function CeilDiv(x: int, d: int): (r: int)
    requires d > 0
    ensures (r - 1) * d < x <= r * d
  {
    -((-x) / d)
  }

  /** An exact multiple of the divisor rounds to its own quotient. */
  lemma CeilDivExact(k: int, d: int)
    requires d > 0
    ensures CeilDiv(k * d, d) == k
  {
    var r := CeilDiv(k * d, d);
    CancelLess(r - 1, k, d);
    CancelAtMost(k, r, d);
  }

  lemma CancelLess(a: int, b: int, d: int)
    requires d > 0 && a * d < b * d
    ensures a < b
  {
    assert (b - a) * d == b * d - a * d;
  }

  lemma CancelAtMost(a: int, b: int, d: int)
    requires d > 0 && a * d <= b * d
    ensures a <= b
  {
    assert (b - a) * d == b * d - a * d;
  }

  /** The status of `subscription` at `now`. */
  function StatusOf(subscription: Option<Subscription>, now: int): (st: Status)
    ensures st.isExpired <==> subscription.None? || PastEnd(subscription.value, now)
    // Whole days left, rounded up; zero once expired, so never negative.
    ensures st.isExpired ==> st.daysLeft == 0
    ensures !st.isExpired ==>
      (st.daysLeft - 1) * DayMs < subscription.value.endDate - now <= st.daysLeft * DayMs
    ensures st.daysLeft >= 0
    // Every plan but "free" counts as unlimited, basic's limit of 10 notwithstanding.
    ensures st.isPaid <==> subscription.Some? && subscription.value.subscriptionType != "free"
    ensures st.reportsLeft.Unlimited? <==> st.isPaid
    ensures subscription.Some? && subscription.value.subscriptionType == "free" ==>
      st.reportsLeft == Count(subscription.value.reportsLimit - subscription.value.reportsUsed)
    ensures subscription.None? ==> st.reportsLeft == Count(0)
  {
    var isExpired := if subscription.Some? then now > subscription.value.endDate else true;
    var daysLeft := if subscription.Some? && !isExpired then CeilDiv(subscription.value.endDate - now, DayMs) else 0;
    var isPaid := subscription.Some? && subscription.value.subscriptionType != "free";
    var reportsLeft :=
      if subscription.Some? then
        if isPaid then Unlimited else Count(subscription.value.reportsLimit - subscription.value.reportsUsed)
      else Count(0);
    Status(isExpired, daysLeft, isPaid, reportsLeft)
  }

  /** `is_active` is ignored: flipping it changes nothing on the dashboard. */
  lemma ActiveFlagIgnored(s: Subscription, now: int)
    ensures StatusOf(Some(s.(isActive := !s.isActive)), now) == StatusOf(Some(s), now)
  {
  }

  /** "Limit reached": a row exists, the plan is not unlimited and `reportsLeft <= 0`. */
  predicate LimitBadge(subscription: Option<Subscription>, st: Status) {
    subscription.Some? && !st.isPaid && st.reportsLeft.Count? && st.reportsLeft.n <= 0
  }

  /** "N reports remaining": a row exists, the plan is not unlimited and `reportsLeft > 0`. */
  predicate RemainingLine(subscription: Option<Subscription>, st: Status) {
    subscription.Some? && !st.isPaid && st.reportsLeft.Count? && st.reportsLeft.n > 0
  }

  /** "Unlimited": a row exists and the plan is not free. */
  predicate UnlimitedBadge(subscription: Option<Subscription>, st: Status) {
    subscription.Some? && st.isPaid
  }

  /** On the dashboard's own status, exactly the free plan shows a usage badge: "Limit reached"
      iff its reports are used up, "remaining" otherwise; every other plan shows "Unlimited". */
  lemma BadgesIff(subscription: Option<Subscription>, now: int)
    ensures var st := StatusOf(subscription, now);
      LimitBadge(subscription, st) <==>
        subscription.Some? && subscription.value.subscriptionType == "free" && LimitReached(subscription.value)
    ensures var st := StatusOf(subscription, now);
      RemainingLine(subscription, st) <==>
        subscription.Some? && subscription.value.subscriptionType == "free" && !LimitReached(subscription.value)
    ensures var st := StatusOf(subscription, now);
      UnlimitedBadge(subscription, st) <==> subscription.Some? && subscription.value.subscriptionType != "free"
    ensures var st := StatusOf(subscription, now);
      subscription.Some? ==>
        (if LimitBadge(subscription, st) then 1 else 0) + (if RemainingLine(subscription, st) then 1 else 0)
        + (if UnlimitedBadge(subscription, st) then 1 else 0) == 1
  {
  }

  const UpgradePlan: string := "Upgrade Plan"
  const ManageSubscription: string := "Manage Subscription"

  /** `subscription?.subscription_type === "free" || isExpired`. */
  function UpgradeLabel(subscription: Option<Subscription>, st: Status): string {
    if (subscription.Some? && subscription.value.subscriptionType == "free") || st.isExpired
    then UpgradePlan else ManageSubscription
  }

  /** "Manage Subscription" appears only for an unexpired row on a plan other than free. */
  lemma UpgradeLabelIff(subscription: Option<Subscription>, now: int)
    ensures UpgradeLabel(subscription, StatusOf(subscription, now)) == ManageSubscription <==>
      subscription.Some? && subscription.value.subscriptionType != "free" && !PastEnd(subscription.value, now)
  {
  }
}
