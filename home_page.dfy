/** The landing page's subscription panel: the dashboard's status, with defaults when nobody is
    signed in. */
module HomePage {
  import opened Wrappers
  import opened Subscriptions
  import opened DashboardPage

  /** The landing page's status. The defaults hold unless a user is signed in, in which case
      every value is recomputed from the row exactly as on the dashboard. */
  method HomeStatus(signedIn: bool, userSubscription: Option<Subscription>, now: int)
    returns (subscription: Option<Subscription>, st: Status)
    ensures !signedIn ==> subscription.None? && st == Status(true, 0, false, Count(0))
    ensures signedIn ==> subscription == userSubscription && st == StatusOf(userSubscription, now)
  {
    subscription := None;
    var isExpired := true;
    var daysLeft := 0;
    var isPaidSubscription := false;
    var hasInfiniteReports := false;
    var reportsLeft := Count(0);
    if signedIn {
      subscription := userSubscription;
      isExpired := if subscription.Some? then now > subscription.value.endDate else true;
      daysLeft := if subscription.Some? && !isExpired
                  then CeilDiv(subscription.value.endDate - now, DayMs) else 0;
      isPaidSubscription := subscription.Some? && subscription.value.subscriptionType != "free";
      hasInfiniteReports := isPaidSubscription;
      reportsLeft := if subscription.Some? then
                       if hasInfiniteReports then Unlimited
                       else Count(subscription.value.reportsLimit - subscription.value.reportsUsed)
                     else Count(0);
    }
    st := Status(isExpired, daysLeft, isPaidSubscription, reportsLeft);
  }

  /** The signed-out defaults are the status of a missing row, so the signed-out panel shows
      what a signed-in user without a subscription sees. */
  lemma SignedOutIsNoSubscription(now: int)
    ensures StatusOf(None, now) == Status(true, 0, false, Count(0))
    ensures UpgradeLabel(None, StatusOf(None, now)) == UpgradePlan
    ensures !LimitBadge(None, StatusOf(None, now)) && !RemainingLine(None, StatusOf(None, now))
  {
  }
}
