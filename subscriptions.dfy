/** A row of the `subscriptions` table and the predicates every reader of it derives. */
module Subscriptions {
  import opened Wrappers

  /** Milliseconds in a day; time is an integer count of milliseconds. */
  const DayMs: int := 86400000

  /** One user's subscription. `updatedAt` is set only by a plan change of an existing row. */
  datatype Subscription = Subscription(
    userId: string,
    subscriptionType: string,
    startDate: int,
    endDate: int,
    reportsLimit: int,
    reportsUsed: int,
    isActive: bool,
    updatedAt: Option<int>)

  /** `now > endDate`, strictly. */
  predicate PastEnd(s: Subscription, now: int) {
    now > s.endDate
  }

  /** `!is_active || now > endDate`: the condition both the gate and the form report as "expired". */
  predicate Lapsed(s: Subscription, now: int) {
    !s.isActive || PastEnd(s, now)
  }

  /** `reports_used >= reports_limit`. */
  predicate LimitReached(s: Subscription) {
    s.reportsUsed >= s.reportsLimit
  }

  /** The subscription does not allow another report. */
  predicate Blocked(s: Subscription, now: int) {
    Lapsed(s, now) || LimitReached(s)
  }
}
