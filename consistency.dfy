/** How the readers of the subscription row relate to each other and to its writer: the
    middleware gate, the wizard's submit check, the dashboard and the plan page. */
module Consistency {
  import opened Wrappers
  import opened Json
  import opened Store
  import opened Subscriptions
  import opened Questionnaire
  import opened CostModel
  import opened QuestionnaireForm
  import opened SubscriptionRoute
  import opened Middleware
  import opened SubscribePage
  import opened DashboardPage
  import opened CostConfigurationRoute

  /** A user without a row reaches the wizard, because the gate lets the no-rows error through,
      but can never submit, because the wizard treats the same error as a failed read. */
  lemma MissingRowPassesGateButNotSubmit(req: Request, d: QuestionnaireData, step: int, now: int)
    requires Gated(req)
    ensures !GateBlocks(req, ReadSingle(None, None), now)
    ensures !ReadSingle<Subscription>(None, None).Found?
    ensures !Eligible(d, step, None, None, now)
  {
  }

  /** For an existing row the gate and the submit check agree, and the gate's reason names the
      same cause as the wizard's message. */
  lemma GateAgreesWithSubmit(req: Request, s: Subscription, now: int)
    requires Gated(req)
    ensures GateBlocks(req, ReadSingle(Some(s), None), now) <==> SubmitRejection(Some(s), now).Some?
    ensures Blocked(s, now) && Lapsed(s, now) ==> SubmitRejection(Some(s), now) == Some(SubscriptionExpired)
    ensures Blocked(s, now) && !Lapsed(s, now) ==> SubmitRejection(Some(s), now) == Some(LimitMessage(s.reportsLimit))
  {
    SubmitRejectionMessages(Some(s), now);
  }

  /** A basic row at its limit of reports is shown as "Unlimited" without a limit badge, while
      the gate redirects it with reason "limit" and the wizard refuses it. */
  lemma UnlimitedDisplayLimitedGate(req: Request, s: Subscription, now: int)
    requires Gated(req)
    requires s.subscriptionType == PlanName(Basic) && !Lapsed(s, now) && LimitReached(s)
    ensures StatusOf(Some(s), now).reportsLeft == Unlimited
    ensures UnlimitedBadge(Some(s), StatusOf(Some(s), now)) && !LimitBadge(Some(s), StatusOf(Some(s), now))
    ensures GateBlocks(req, ReadSingle(Some(s), None), now)
    ensures SubmitRejection(Some(s), now) == Some(LimitMessage(s.reportsLimit))
  {
    SubmitRejectionMessages(Some(s), now);
  }

  /** Such rows arise: moving a row with ten or more used reports to the basic plan keeps the
      count, so the fresh plan is at its limit at once. */
  lemma BasicRenewalAtLimit(s: Subscription, now: int)
    requires s.reportsUsed >= ReportsLimit(Basic)
    ensures var r := Renewed(s, Basic, now);
      r.subscriptionType == PlanName(Basic) && !Lapsed(r, now) && LimitReached(r)
  {
  }

  /** The plan page greets a redirect with the banner of the gate's reason. */
  lemma RedirectBanner(s: Subscription, now: int)
    requires Blocked(s, now)
    ensures var reason := if Lapsed(s, now) then "expired" else "limit";
      ReasonBanner(Some(reason), Some(s)).Some?
      && ReasonBanner(Some(reason), Some(s)).value.heading == (if Lapsed(s, now) then ExpiredHeading else LimitHeading)
  {
  }

  /** An inactive row that has not reached its end date is "expired" for the gate and the
      wizard, but neither the plan page nor the dashboard shows it as expired. */
  lemma InactiveRowShownActive(s: Subscription, now: int)
    requires !s.isActive && !PastEnd(s, now)
    ensures Lapsed(s, now) && SubmitRejection(Some(s), now) == Some(SubscriptionExpired)
    ensures !IsExpired(Some(s), now) && !StatusOf(Some(s), now).isExpired
    ensures UpgradeLabel(Some(s), StatusOf(Some(s), now)) == (if s.subscriptionType == "free" then UpgradePlan else ManageSubscription)
  {
  }

  /** Right after choosing a plan its card is highlighted and the dashboard counts exactly the
      plan's days; a fresh free row shows all three reports left. */
  lemma ChosenPlanShown(userId: string, s: Subscription, p: Plan, now: int)
    ensures Highlighted(Some(Created(userId, p, now)), PlanName(p))
    ensures Highlighted(Some(Renewed(s, p, now)), PlanName(p))
    ensures StatusOf(Some(Created(userId, p, now)), now).daysLeft == DurationDays(p)
    ensures StatusOf(Some(Renewed(s, p, now)), now).daysLeft == DurationDays(p)
    ensures StatusOf(Some(Created(userId, Free, now)), now).reportsLeft == Count(3)
  {
    CeilDivExact(DurationDays(p), DayMs);
    assert EndDate(now, p) - now == DurationDays(p) * DayMs;
  }

  /** The estimator's rates are the route's default configuration: a stored configuration is
      never read, so every user is priced at these rates. */
  lemma EstimatorRatesAreDefaults()
    ensures Member(DefaultCostConfig, DeveloperRateKey) == Some(JNumber(DeveloperRate as real))
    ensures Member(DefaultCostConfig, DesignerRateKey) == Some(JNumber(DesignerRate as real))
    ensures Member(DefaultCostConfig, ProjectManagerRateKey) == Some(JNumber(ProjectManagerRate as real))
    ensures Member(DefaultCostConfig, QaTesterRateKey) == Some(JNumber(QaTesterRate as real))
  {
  }
}
