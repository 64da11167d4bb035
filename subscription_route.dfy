/** The `/api/subscription` route: choosing a plan (POST) and reading the current row (GET). */
module SubscriptionRoute {
  import opened Wrappers
  import opened Store
  import opened Http
  import opened Subscriptions

  const Unauthorized: string := "Unauthorized"
  const InvalidPlan: string := "Invalid subscription plan"
  const UpdateFailed: string := "Failed to update subscription"
  const CreateFailed: string := "Failed to create subscription"
  const FetchFailed: string := "Failed to fetch subscription"

  datatype Plan = Free | Basic | Pro

  /** The plan's name as the client sends it and the row stores it. */
  function PlanName(p: Plan): string {
    match p
    case Free => "free"
    case Basic => "basic"
    case Pro => "pro"
  }

  /** `!plan || !["free", "basic", "pro"].includes(plan)` rejects; an absent plan is `None`. */
  function ParsePlan(plan: Option<string>): (r: Option<Plan>)
    ensures r.Some? <==> plan.Some? && plan.value in {"free", "basic", "pro"}
    ensures r.Some? ==> PlanName(r.value) == plan.value
  {
    if plan == Some("free") then Some(Free)
    else if plan == Some("basic") then Some(Basic)
    else if plan == Some("pro") then Some(Pro)
    else None
  }

  /** Every plan's name is accepted and parses back to it. */
  lemma ParsePlanRoundTrip(p: Plan)
    ensures ParsePlan(Some(PlanName(p))) == Some(p)
  {
  }

  /** `planDetails[plan].durationDays`. */
  function DurationDays(p: Plan): int {
    match p
    case Free => 14
    case Basic => 30
    case Pro => 30
  }

  /** `planDetails[plan].reportsLimit`; 999 stands for "unlimited" on the pro plan. */
  function ReportsLimit(p: Plan): int {
    match p
    case Free => 3
    case Basic => 10
    case Pro => 999
  }

  /** The plan table: free 14 days and 3 reports, basic 30 and 10, pro 30 and 999. */
  lemma PlanTable()
    ensures DurationDays(Free) == 14 && ReportsLimit(Free) == 3
    ensures DurationDays(Basic) == 30 && ReportsLimit(Basic) == 10
    ensures DurationDays(Pro) == 30 && ReportsLimit(Pro) == 999
    ensures forall p: Plan :: DurationDays(p) > 0 && ReportsLimit(p) > 0
  {
  }

  /** `endDate.setDate(endDate.getDate() + durationDays)`, a whole number of days after `now`. */
  function EndDate(now: int, p: Plan): (r: int)
    ensures r > now && (r - now) % DayMs == 0 && (r - now) / DayMs == DurationDays(p)
  {
    now + DurationDays(p) * DayMs
  }

  /** The update of an existing row: plan, dates, limit, active flag and `updated_at` are
      overwritten; the owner and the usage counter are kept. */
  function Renewed(s: Subscription, p: Plan, now: int): (r: Subscription)
    ensures r.userId == s.userId && r.reportsUsed == s.reportsUsed
    ensures r.subscriptionType == PlanName(p) && r.startDate == now && r.endDate == EndDate(now, p)
    ensures r.reportsLimit == ReportsLimit(p) && r.isActive && r.updatedAt == Some(now)
  {
    s.(subscriptionType := PlanName(p), startDate := now, endDate := EndDate(now, p),
       reportsLimit := ReportsLimit(p), isActive := true, updatedAt := Some(now))
  }

  /** The inserted row: active, with no reports used. */
  function Created(userId: string, p: Plan, now: int): (r: Subscription)
    ensures r.userId == userId && r.reportsUsed == 0 && r.isActive && r.updatedAt.None?
    ensures r.subscriptionType == PlanName(p) && r.startDate == now && r.endDate == EndDate(now, p)
    ensures r.reportsLimit == ReportsLimit(p)
  {
    Subscription(userId, PlanName(p), now, EndDate(now, p), ReportsLimit(p), 0, true, None)
  }

  /** A fresh or renewed row is usable right away: it is not blocked at `now`, and its limit
      is exactly the plan's. */
  lemma ChosenPlanUsable(userId: string, s: Subscription, p: Plan, now: int)
    ensures !Blocked(Created(userId, p, now), now)
    ensures !Lapsed(Renewed(s, p, now), now)
    ensures Blocked(Renewed(s, p, now), now) <==> s.reportsUsed >= ReportsLimit(p)
  {
  }

  /** GET: 401 without a user; the no-rows error counts as success with a `null` subscription,
      any other error is a 500, a rejected read a 500 from the `catch`. */
  function GetResponse(user: Option<string>, query: Query<Subscription>): (r: Response<Option<Subscription>>)
    ensures user.None? ==> r == Error(401, Unauthorized)
    ensures user.Some? && query.Failed? ==>
      (r.Ok? <==> query.error.code == NoRowsCode) && (r.Ok? ==> r.body.None?)
      && (r.Error? ==> r == Error(500, FetchFailed))
    ensures user.Some? && query.Found? ==> r == Ok(query.data)
    ensures user.Some? && query.Threw? ==> r == Error(500, InternalServerError)
  {
    if user.None? then Error(401, Unauthorized)
    else match query
      case Threw => Error(500, InternalServerError)
      case Failed(e) => if e.code != NoRowsCode then Error(500, FetchFailed) else Ok(None)
      case Found(data) => Ok(data)
  }

  /** Without a storage fault GET returns exactly the user's row, `null` when there is none. */
  lemma GetReturnsRow(userId: string, row: Option<Subscription>)
    ensures GetResponse(Some(userId), ReadSingle(row, None)) == Ok(row)
  {
  }

  /** The `subscriptions` table, one row per user id, as POST changes it. */
  class SubscriptionApi {
    var rows: map<string, Subscription>

    constructor(rows: map<string, Subscription>)
      ensures this.rows == rows
    {
      this.rows := rows;
    }

    /** POST `{ plan }` by `user` at `now`. `readFault` is a failure of the existing-row read,
        which the route ignores (it then inserts); `writeFault` a failure of whichever write
        follows. The response body on success is the accepted plan name. */
    method Post(user: Option<string>, plan: Option<string>, now: int,
                readFault: Option<DbError>, writeFault: Option<DbError>) returns (r: Response<string>)
      modifies this
      ensures user.None? ==> r == Error(401, Unauthorized) && rows == old(rows)
      ensures user.Some? && ParsePlan(plan).None? ==> r == Error(400, InvalidPlan) && rows == old(rows)
      ensures user.Some? && ParsePlan(plan).Some? && writeFault.Some? ==>
        rows == old(rows)
        && r == Error(500, if user.value in old(rows) && readFault.None? then UpdateFailed else CreateFailed)
      // Update in place when the read found the row: the usage counter survives a plan change.
      ensures user.Some? && ParsePlan(plan).Some? && writeFault.None? && user.value in old(rows) && readFault.None? ==>
        rows == old(rows)[user.value := Renewed(old(rows)[user.value], ParsePlan(plan).value, now)]
        && r == Ok(plan.value)
      // Otherwise a new row starting at zero usage.
      ensures user.Some? && ParsePlan(plan).Some? && writeFault.None? && !(user.value in old(rows) && readFault.None?) ==>
        rows == old(rows)[user.value := Created(user.value, ParsePlan(plan).value, now)]
        && r == Ok(plan.value)
    {
      if user.None? {
        return Error(401, Unauthorized);
      }
      var userId := user.value;
      var selected := ParsePlan(plan);
      if selected.None? {
        return Error(400, InvalidPlan);
      }
      var p := selected.value;
      var endDate := EndDate(now, p);
      var row := if userId in rows then Some(rows[userId]) else None;
      var query := ReadSingle(row, readFault);
      var existing := if query.Found? then query.data else None;
      if existing.Some? {
        if writeFault.Some? {
          return Error(500, UpdateFailed);
        }
        rows := rows[userId := existing.value.(subscriptionType := PlanName(p), startDate := now,
                                                endDate := endDate, reportsLimit := ReportsLimit(p),
                                                isActive := true, updatedAt := Some(now))];
      } else {
        if writeFault.Some? {
          return Error(500, CreateFailed);
        }
        rows := rows[userId := Subscription(userId, PlanName(p), now, endDate, ReportsLimit(p), 0, true, None)];
      }
      r := Ok(PlanName(p));
    }
  }
}
