# MVP Cost Calculator: a verified model of its estimate and quota logic

MVP Cost Calculator is a Next.js and Supabase web application. A signed-in user fills in a
five-step questionnaire: project basics, features, technology stack, team, and timeline. The
application turns the answers into a cost estimate and stores it as a report. Each report
uses up one unit of the user's subscription: a free, basic or pro plan with an end date and a
report limit.

This project models the logic behind that flow in Dafny and proves properties of it:

- the estimator: team monthly cost × duration × feature factor × technology multiplier,
  rounded to a multiple of 1000;
- the wizard: per-step validation, step navigation, and the submit sequence (check
  eligibility, insert the report, count it against the subscription);
- the step editors that change the questionnaire answers and the error map;
- the subscription ledger: the plan route, the request middleware's gate, and the status
  shown on the dashboard, the landing page and the plan page;
- the rate-configuration route and its settings form;
- the profile-update route, the avatar file checks, the user-initials derivation, and the
  PDF file name and pagination.

Modelling conventions:

- **Time** is an integer number of milliseconds. A day is 86400000 ms.
- **Arithmetic** is exact (`real` and `int`). `Math.round(x)` is `Floor(x + 1/2)`.
- **Text** is `seq<char>`.
- **The database** is a set of class fields: the subscription rows, the `users` table, and
  the report list.
- **A storage failure** is an explicit `Option<DbError>` parameter wherever the source
  branches on one.
- **A Supabase `.single()` read** returns an error with code PGRST116 for a missing row, not
  `null` data (`Store.ReadSingle`). The model follows this everywhere. As a consequence, the
  wizard's `!subscription` test can never fire: a missing row takes the "failed to generate
  report" path instead.
- **Data and state:** values are datatypes. Components whose state the source changes in
  place are classes with `modifies` clauses: `Wizard`, `SubscriptionApi`,
  `CostConfigurationApi`, `Form`, `ProfileApi`, `Picker` and `Navbar`. Pure helpers are
  functions.

The modules, one per source file,[^modules] plus shared helpers:

| module | models |
|---|---|
| `Wrappers`, `Json`, `Store`, `Http`, `Lists`, `JsString` | `Option`; JSON values and truthiness; `.single()` reads; route responses; `includes`/`filter` toggles and removal by index; `trim`, `startsWith`, `split`, ASCII `toUpperCase`, `parseInt` and `replace(/\s+/g, …)` |
| `Questionnaire`, `Subscriptions` | the wizard's data, and the subscription row with its predicates |
| `CostModel`, `CostEstimator`, `QuestionnaireForm` | `calculateCost` as a specification and as the imperative method; `validateStep`, the navigation and `handleSubmit` |
| `ProjectBasicsStep`, `FeatureSelection`, `TechnologyStack`, `TeamComposition`, `TimelineMilestones` | the five step editors |
| `SubscriptionRoute`, `Middleware`, `SubscribePage`, `DashboardPage`, `HomePage`, `Consistency` | the ledger, and how its readers agree and disagree |
| `CostConfigurationRoute`, `CostConfigurationForm` | rate configuration |
| `UpdateProfile`, `AvatarUpload`, `SettingsPage`, `DashboardNavbar`, `PdfDownload` | the small validators and string functions |

[^modules]: One file per module; the file name is the module name in snake case.

## Model

The arithmetic proof helpers have no rows, because they model no behaviour of the program:
`CostModel.ScaleMonotone`, `ScaleMonotoneLeft`, `ScaleMonotone3`, the three
`CostModel.*TableNonNegative` lemmas, `DashboardPage.CancelLess`, `CancelAtMost` and
`CostEstimator.FactorStep`.

| member | source | states |
|---|---|---|
| `CostEstimator.CalculateCost` | src/components/questionnaire/questionnaire-form.tsx:236-332 | The computed cost is the specified estimate. It is a multiple of 1000 within ±500 of the unrounded team × months × feature × technology product. It uses the fixed role rates. |
| `CostEstimator.ComputeTechMultiplier` | src/components/questionnaire/questionnaire-form.tsx:283-321 | The `*=` accumulation across the four branches equals the product of the frontend mean, the backend mean, the database value (applied only when one is chosen) and the per-service term. |
| `CostModel.Round` | src/components/questionnaire/questionnaire-form.tsx:331 | `Math.round` gives the integer within (x − ½, x + ½]. |
| `CostModel.RoundToThousandNearest` | src/components/questionnaire/questionnaire-form.tsx:331 | Rounding to thousands gives a multiple of 1000 within (x − 500, x + 500]. |
| `CostModel.Multipliers` | src/components/questionnaire/questionnaire-form.tsx:288-293 | One multiplier per chosen name, in order. Each is the table value, or 1.0 for an unknown or zero entry. |
| `CostModel.HostingIgnored` | src/components/questionnaire/questionnaire-form.tsx:283-321 | Changing the hosting choice never changes the estimate. |
| `CostModel.TechMultiplierIgnoresHosting` | src/components/questionnaire/questionnaire-form.tsx:283-321 | The technology multiplier does not depend on hosting, for any tables. |
| `CostModel.SumPositive` | src/components/questionnaire/questionnaire-form.tsx:295 | A sum of positive multipliers over a non-empty list is positive. |
| `CostModel.LookupPositive` | src/components/questionnaire/questionnaire-form.tsx:288-293 | With non-negative tables, every looked-up multiplier is positive. |
| `CostModel.CategoryFactorPositive` | src/components/questionnaire/questionnaire-form.tsx:286-309 | A category's mean is positive, and it is 1 for an empty list. |
| `CostModel.ComplexityNonNegative` | src/components/questionnaire/questionnaire-form.tsx:244-268 | The three complexity tables have no negative entries. |
| `CostModel.TechMultiplierPositive` | src/components/questionnaire/questionnaire-form.tsx:283-321 | Over non-negative tables the technology multiplier is positive. |
| `CostModel.RoundMonotone` | src/components/questionnaire/questionnaire-form.tsx:331 | Rounding to thousands is monotone. |
| `CostModel.EstimateMonotoneInTeam` | src/components/questionnaire/questionnaire-form.tsx:276-281 | Adding a team member never lowers the estimate. |
| `CostModel.EstimateMonotoneInDuration` | src/components/questionnaire/questionnaire-form.tsx:324-328 | A longer duration never lowers the estimate. |
| `CostModel.EstimateMonotoneInFeatures` | src/components/questionnaire/questionnaire-form.tsx:270-274 | Adding a feature never lowers the estimate. |
| `CostModel.TechMultiplierMonotoneInServices` | src/components/questionnaire/questionnaire-form.tsx:318-320 | Over non-negative tables, one more additional service never lowers the technology multiplier. |
| `CostModel.BaseCostNonNegative` | src/components/questionnaire/questionnaire-form.tsx:270-328 | With no negative head counts and a non-negative duration, people-months weighted by feature complexity are non-negative. |
| `CostModel.CostWithMonotoneInServices` | src/components/questionnaire/questionnaire-form.tsx:318-328 | Over non-negative tables, one more additional service never lowers the unrounded estimate. |
| `CostModel.EstimateMonotoneInServices` | src/components/questionnaire/questionnaire-form.tsx:318-331 | Adding an additional service never lowers the estimate. |
| `CostModel.WorkedExampleEstimate` | src/components/questionnaire/questionnaire-form.tsx:236-331 | Example: team 2/1/1/0, 3 months, 2 features, React, Node.js and PostgreSQL. The raw cost is 174873.6 and the estimate is 175000. |
| `CostModel.SingleDeveloperEstimate` | src/components/questionnaire/questionnaire-form.tsx:236-331 | One developer for one month with no features or technologies costs 8000. |
| `QuestionnaireForm.ValidateStep` | src/components/questionnaire/questionnaire-form.tsx:156-224 | The step's verdict is exactly its requirements. The error map is the step's error specification. The verdict holds iff the map is empty. |
| `QuestionnaireForm.StepErrorsEmptyIffMet` | src/components/questionnaire/questionnaire-form.tsx:156-224 | For every step, the error map is empty iff the step's requirements hold. |
| `QuestionnaireForm.BasicsErrors` | src/components/questionnaire/questionnaire-form.tsx:161-178 | Step 1 gives one key per empty project-basics field and no other keys, each with that field's message. |
| `QuestionnaireForm.TechnologyErrors` | src/components/questionnaire/questionnaire-form.tsx:189-206 | Step 3 gives a key for an empty frontend list, empty backend list, empty database or empty hosting, and no other keys. |
| `QuestionnaireForm.OtherStepErrors` | src/components/questionnaire/questionnaire-form.tsx:179-219 | Step 2 fails iff both feature lists are empty. Step 4 never fails. Step 5 flags a duration below 1 and a missing start date. |
| `QuestionnaireForm.SubmitAllowedIff` | src/components/questionnaire/questionnaire-form.tsx:356-361 | A submit may proceed iff the row exists, is active, is unexpired and is under its limit. |
| `QuestionnaireForm.SubmitRejectionMessages` | src/components/questionnaire/questionnaire-form.tsx:362-370 | "Expired" wins when the row is missing, inactive or past its end. Otherwise the limit message names the row's limit. The fallback message is never shown. |
| `QuestionnaireForm.LimitMessageDistinct` | src/components/questionnaire/questionnaire-form.tsx:362-369 | The limit message never coincides with the fallback message. |
| `QuestionnaireForm.Wizard.constructor` | src/components/questionnaire/questionnaire-form.tsx:53-83 | The wizard starts on step 1 with the initial answers (team 1/1/1/0, 3 months) and no errors. |
| `QuestionnaireForm.Wizard.Edit` | src/components/questionnaire/questionnaire-form.tsx:92-94 | A step editor's callbacks replace the answers and errors and nothing else. |
| `QuestionnaireForm.Wizard.HandleNext` | src/components/questionnaire/questionnaire-form.tsx:226-230 | The errors become the current step's errors. The step advances by exactly 1 iff the step validates; otherwise it stays. |
| `QuestionnaireForm.Wizard.HandlePrevious` | src/components/questionnaire/questionnaire-form.tsx:232-234 | The step goes back by exactly 1, and nothing else changes. |
| `QuestionnaireForm.Wizard.HandleSubmit` | src/components/questionnaire/questionnaire-form.tsx:334-426 | Only the current step is re-validated. A failed read, a missing row or a blocked row writes nothing. A failed insert prevents the usage update. On success exactly one report carrying the estimate is appended, `reports_used` becomes the snapshot + 1 unless that write fails (the report stays), and the user is sent to the report page. |
| `ProjectBasicsStep.Set` | src/components/questionnaire/steps/project-basics.tsx:33 | The named field is replaced and the other three are unchanged. |
| `ProjectBasicsStep.FieldKeyInjective` | src/components/questionnaire/steps/project-basics.tsx:37-39 | Distinct fields have distinct error keys. |
| `ProjectBasicsStep.HandleChange` | src/components/questionnaire/steps/project-basics.tsx:32-42 | Only the named field changes. A shown error under its key is deleted. Every other key is kept. Without a shown error the map is untouched. |
| `ProjectBasicsStep.FilledFieldPasses` | src/components/questionnaire/steps/project-basics.tsx:32-42 | Filling a field clears its shown error. Step 1 then reports nothing for that field, and its verdict on the other fields is unchanged. |
| `Lists.RemoveAll` | src/components/questionnaire/steps/feature-selection.tsx:84 | `filter(f => f !== x)` removes every occurrence of x and keeps every other element. |
| `Lists.RemoveAllMultiset` | src/components/questionnaire/steps/feature-selection.tsx:84 | Every copy of x is gone, and every other element keeps its multiplicity. |
| `Lists.RemoveAllConcat` | src/components/questionnaire/steps/feature-selection.tsx:84 | Filtering works element by element: filtering a concatenation concatenates the filtered parts, which keeps the order of what remains. |
| `Lists.ToggleMembership` | src/components/questionnaire/steps/feature-selection.tsx:83-85 | A toggle flips the element's membership and keeps every other element, both ways. |
| `Lists.ToggleTwice` | src/components/questionnaire/steps/feature-selection.tsx:83-85 | Toggling an absent element twice restores the list. |
| `Lists.RemoveAllAppended` | src/components/questionnaire/steps/feature-selection.tsx:83-85 | Removing an element that was just appended to a list not containing it restores the list. |
| `Lists.RemoveIndex` | src/components/questionnaire/steps/feature-selection.tsx:113 | `filter((_, i) => i !== index)` removes exactly index i and keeps the order. An out-of-range index changes nothing. |
| `FeatureSelection.ToggleFeature` | src/components/questionnaire/steps/feature-selection.tsx:82-95 | Features are toggled; nothing else in the selection changes. The `features` error survives iff it was present and both lists are now empty. All other keys are kept. |
| `FeatureSelection.AddCustomFeature` | src/components/questionnaire/steps/feature-selection.tsx:97-110 | Blank input changes nothing. Otherwise the trimmed text is appended, the input is reset to "", the `features` error is removed, and all other keys are kept. |
| `FeatureSelection.AddedFeatureTrimmed` | src/components/questionnaire/steps/feature-selection.tsx:98-100 | The added entry is non-empty and neither starts nor ends with white space. |
| `FeatureSelection.RemoveCustomFeature` | src/components/questionnaire/steps/feature-selection.tsx:112-123 | Exactly index i is removed. When both lists end up empty the `features` error is set and the others are kept; otherwise the errors are unchanged. |
| `FeatureSelection.EditsKeepErrorAgreement` | src/components/questionnaire/steps/feature-selection.tsx:82-123 | If a shown `features` error means "both lists empty" before an edit, it does so after every toggle, add and remove. |
| `FeatureSelection.ToggleFeatureTwice` | src/components/questionnaire/steps/feature-selection.tsx:83-85 | Toggling an absent feature twice restores the feature list. |
| `TechnologyStack.ToggleFrontend` | src/components/questionnaire/steps/technology-stack.tsx:80-93 | Only `frontend` changes, by a toggle. Its error is cleared (others kept) only when the new list is non-empty; otherwise the errors are unchanged. |
| `TechnologyStack.ToggleBackend` | src/components/questionnaire/steps/technology-stack.tsx:95-108 | The same rule, applied to `backend`. |
| `TechnologyStack.SetDatabase` | src/components/questionnaire/steps/technology-stack.tsx:110-117 | The database is replaced and its error key is always deleted, with the others kept. |
| `TechnologyStack.SetHosting` | src/components/questionnaire/steps/technology-stack.tsx:119-126 | The hosting is replaced and its error key is always deleted, with the others kept. |
| `TechnologyStack.ToggleService` | src/components/questionnaire/steps/technology-stack.tsx:128-134 | Only the services list changes, and the service's membership flips. It has no error map to touch. |
| `TechnologyStack.ToggleFlipsMembership` | src/components/questionnaire/steps/technology-stack.tsx:81-98 | The frontend and backend toggles flip the chosen item and keep the others. |
| `TechnologyStack.OptionsHaveMultipliers` | src/components/questionnaire/steps/technology-stack.tsx:81-85 | Every option the step offers has an entry in the estimator's tables. |
| `TeamComposition.HandleSliderChange` | src/components/questionnaire/steps/team-composition.tsx:24-29 | Only the named role's count changes, to the slider value. The step receives the error map but never touches it. |
| `TeamComposition.SliderChangeKeepsRange` | src/components/questionnaire/steps/team-composition.tsx:46-52 | A slider value within its range keeps every count within the slider ranges. The total changes by exactly the difference. |
| `TeamComposition.SliderTeamBounds` | src/components/questionnaire/steps/team-composition.tsx:147-152 | For counts within the slider ranges, the total team size is 1..23 and the monthly cost is 8000..172000. |
| `TeamComposition.InitialTeamWithinSliders` | src/components/questionnaire/steps/team-composition.tsx:48-49 | The wizard's initial team lies within the slider ranges. |
| `TimelineMilestones.ClearShown` | src/components/questionnaire/steps/timeline-milestones.tsx:33-37 | A key is deleted only when an error is shown under it. All other keys are kept. |
| `TimelineMilestones.SetDuration` | src/components/questionnaire/steps/timeline-milestones.tsx:29-38 | Only the duration changes, and its shown error is cleared. |
| `TimelineMilestones.SetStartDate` | src/components/questionnaire/steps/timeline-milestones.tsx:40-49 | Only the start date changes, and its shown error is cleared. |
| `TimelineMilestones.AddMilestone` | src/components/questionnaire/steps/timeline-milestones.tsx:61-67 | A blank title changes nothing. Otherwise the draft is appended with its untrimmed title, and the draft is reset to {"", 2}. |
| `TimelineMilestones.RemoveMilestone` | src/components/questionnaire/steps/timeline-milestones.tsx:69-72 | Exactly index i is removed, in order; nothing else changes. |
| `TimelineMilestones.TotalDurationAppend` | src/components/questionnaire/steps/timeline-milestones.tsx:75-78 | The total (0 for no milestones) adds up over concatenation. |
| `TimelineMilestones.TotalTracksEdits` | src/components/questionnaire/steps/timeline-milestones.tsx:61-78 | Adding a milestone raises the total by its weeks; removing one lowers it by that milestone's weeks. |
| `TimelineMilestones.TotalDurationBounds` | src/components/questionnaire/steps/timeline-milestones.tsx:147-148 | Milestones of 1..12 weeks total between n and 12·n weeks. |
| `TimelineMilestones.SliderDurationPasses` | src/components/questionnaire/steps/timeline-milestones.tsx:92-93 | Every duration the 1..24 slider offers passes step 5's duration check. |
| `SubscriptionRoute.ParsePlan` | src/app/api/subscription/route.ts:17-22 | A plan is accepted iff it is "free", "basic" or "pro", and it parses to the plan of that name. |
| `SubscriptionRoute.ParsePlanRoundTrip` | src/app/api/subscription/route.ts:17-31 | Each plan's name parses back to that plan. |
| `SubscriptionRoute.PlanTable` | src/app/api/subscription/route.ts:25-29 | The plans are free 14 days/3 reports, basic 30/10, and pro 30/999. |
| `SubscriptionRoute.EndDate` | src/app/api/subscription/route.ts:34-35 | The end date is exactly the plan's number of whole days after now. |
| `SubscriptionRoute.Renewed` | src/app/api/subscription/route.ts:46-56 | An update overwrites type, start, end, limit, the active flag and `updated_at`. It keeps the owner and `reports_used`. |
| `SubscriptionRoute.Created` | src/app/api/subscription/route.ts:67-75 | A new row is active with `reports_used = 0` and the plan's dates and limit. |
| `SubscriptionRoute.ChosenPlanUsable` | src/app/api/subscription/route.ts:44-84 | A new row is usable at once. A renewed row is never lapsed, but is blocked iff its kept usage is at or above the new limit. |
| `SubscriptionRoute.GetResponse` | src/app/api/subscription/route.ts:96-131 | Without a user: 401. A PGRST116 error: success with `null`. Any other error: 500. A row: returned as is. |
| `SubscriptionRoute.GetReturnsRow` | src/app/api/subscription/route.ts:107-123 | Without storage faults, GET returns exactly the user's row, or `null` if there is none. |
| `SubscriptionRoute.SubscriptionApi.Post` | src/app/api/subscription/route.ts:4-94 | 401 comes before everything. An invalid plan gives 400 and writes nothing. A failed write gives 500 with the update or create message and writes nothing. A row the read found is updated in place. Otherwise a row is created. Success echoes the plan. |
| `Middleware.Handle` | src/middleware.ts:5-110 | With no cookie, the language is "ru" iff Accept-Language starts with "ru", else "en". An existing cookie is re-emitted unchanged. The request is redirected iff it is gated and a row came back that is blocked. The reason is "expired" whenever inactive or past its end, else "limit". Every other request passes through. |
| `Middleware.MissingRowPasses` | src/middleware.ts:77-91 | A user without a row passes the gate. |
| `Middleware.GateBlocksRow` | src/middleware.ts:68-103 | Without faults, a gated request is blocked exactly for a present, blocked row. |
| `SubscribePage.IsExpired` | src/app/subscribe/page.tsx:40-41 | Expired iff there is no row or now > end (strictly). `is_active` plays no part. |
| `SubscribePage.IsLimitReached` | src/app/subscribe/page.tsx:42-44 | The limit is reached iff a row exists with used ≥ limit. |
| `SubscribePage.NoSubscriptionFlags` | src/app/subscribe/page.tsx:41-44 | With no row, the page counts as expired and not at its limit. |
| `SubscribePage.ReasonBanner` | src/app/subscribe/page.tsx:61-77 | A banner appears iff the reason is non-empty. "expired" selects the expiry text; any other value selects the limit text. |
| `SubscribePage.AtMostOneHighlighted` | src/app/subscribe/page.tsx:83 | At most one plan card is highlighted, and none without a row. |
| `DashboardPage.CeilDiv` | src/app/dashboard/page.tsx:40 | `Math.ceil(x / d)` is the least r with x ≤ r·d. |
| `DashboardPage.CeilDivExact` | src/app/dashboard/page.tsx:40 | An exact multiple k·d rounds up to k. |
| `DashboardPage.StatusOf` | src/app/dashboard/page.tsx:35-49 | `isExpired` iff there is no row or now > end. `daysLeft` is the day count rounded up while unexpired, else 0, so never negative. Every non-free plan is "paid" and unlimited. A free plan's `reportsLeft` is limit − used; it is 0 with no row. |
| `DashboardPage.ActiveFlagIgnored` | src/app/dashboard/page.tsx:35-49 | Flipping `is_active` changes nothing in the status. |
| `DashboardPage.BadgesIff` | src/app/dashboard/page.tsx:128-158 | "Limit reached" shows iff the plan is free and its reports are used up. "Remaining" shows iff the plan is free and some reports are left. "Unlimited" shows iff the plan is not free. With a row, exactly one of the three shows. |
| `DashboardPage.UpgradeLabelIff` | src/app/dashboard/page.tsx:165-167 | The button reads "Manage Subscription" iff an unexpired non-free row exists; otherwise it reads "Upgrade Plan". |
| `HomePage.HomeStatus` | src/app/page.tsx:29-63 | Signed out: expired, 0 days, unpaid, 0 reports left. Signed in: exactly the dashboard's status for the row. |
| `HomePage.SignedOutIsNoSubscription` | src/app/page.tsx:249-288 | The signed-out defaults are the status of a missing row: "Upgrade Plan" and no usage badge. |
| `Consistency.MissingRowPassesGateButNotSubmit` | src/middleware.ts:77-91 | A user without a row passes the gate, but the wizard's read fails, so submit is never eligible. |
| `Consistency.GateAgreesWithSubmit` | src/components/questionnaire/questionnaire-form.tsx:356-370 | For an existing row, the gate blocks iff the wizard refuses, and both name the same cause. |
| `Consistency.UnlimitedDisplayLimitedGate` | src/app/dashboard/page.tsx:42-49 | A basic row at its limit is shown as "Unlimited" with no limit badge. Yet the gate redirects it with reason "limit" and the wizard refuses it. |
| `Consistency.BasicRenewalAtLimit` | src/app/api/subscription/route.ts:46-56 | Moving a row with 10 or more reports used to basic leaves it at its limit straight away. |
| `Consistency.RedirectBanner` | src/app/subscribe/page.tsx:61-77 | The plan page shows the banner that matches the gate's redirect reason. |
| `Consistency.InactiveRowShownActive` | src/app/subscribe/page.tsx:41 | An inactive row before its end date is "expired" for the gate and the wizard. The plan page and the dashboard do not show it as expired. |
| `Consistency.ChosenPlanShown` | src/app/api/subscription/route.ts:34-35 | Right after a plan is chosen, its card is highlighted and the dashboard shows exactly the plan's days. A new free row shows 3 reports left. |
| `Consistency.EstimatorRatesAreDefaults` | src/app/api/cost-configuration/route.ts:22-27 | The estimator's fixed rates are the default configuration's values. |
| `CostConfigurationRoute.ValidConfigurationShape` | src/app/api/cost-configuration/route.ts:78-88 | Only an object with four numeric rates passes. The default configuration passes. |
| `CostConfigurationRoute.Get` | src/app/api/cost-configuration/route.ts:29-60 | Without a user: 401. A failed read, including a missing users row, gives 500 with its message. A truthy stored value is returned as is; otherwise the default is returned. |
| `CostConfigurationRoute.CostConfigurationApi.Post` | src/app/api/cost-configuration/route.ts:62-108 | 401 comes first. A `null` body throws without a handler. A body without four numeric rates gives 400 and writes nothing. A failed write gives 500 with its message. A valid body is stored verbatim (only when the users row exists). |
| `CostConfigurationRoute.PostThenGet` | src/app/api/cost-configuration/route.ts:58-97 | What a successful POST stored, the next GET returns. |
| `CostConfigurationRoute.NegativeRatesAccepted` | src/app/api/cost-configuration/route.ts:78-88 | Negative and fractional rates, and extra members, pass validation. |
| `CostConfigurationForm.WithRate` | src/components/cost-configuration-form.tsx:72-75 | Only the named rate is replaced; the other three are unchanged. |
| `CostConfigurationForm.ParsedRate` | src/components/cost-configuration-form.tsx:74 | `parseInt(value) \|\| 0` is the parsed integer, or 0 when parsing gives NaN. |
| `CostConfigurationForm.ParsedRateExamples` | src/components/cost-configuration-form.tsx:74 | "12abc" gives 12, "" gives 0, and "-5" gives −5. |
| `CostConfigurationForm.Merged` | src/components/cost-configuration-form.tsx:45-51 | Each fetched rate that is truthy is kept. A zero or missing rate falls back to the initial one. |
| `CostConfigurationForm.Body` | src/components/cost-configuration-form.tsx:89 | The posted object has exactly the four rate keys, with the form's values. |
| `CostConfigurationForm.BodyValid` | src/components/cost-configuration-form.tsx:84-90 | A form whose rates are all numbers posts a body the route accepts. |
| `CostConfigurationForm.SaveReload` | src/components/cost-configuration-form.tsx:42-90 | Saving and then reloading gives back each rate, except that a zero rate is replaced by the initial one. |
| `CostConfigurationForm.MergedNumbers` | src/components/cost-configuration-form.tsx:45-51 | Merging a configuration the route accepted keeps every rate a number. |
| `CostConfigurationForm.DefaultsLoaded` | src/app/api/cost-configuration/route.ts:56-59 | A user who never saved rates loads the default configuration. |
| `CostConfigurationForm.Form.constructor` | src/components/cost-configuration-form.tsx:15-31 | An absent prop defaults to 8000/7000/9000/6000. |
| `CostConfigurationForm.Form.HandleChange` | src/components/cost-configuration-form.tsx:70-76 | Only the named rate changes, to `parseInt(value) \|\| 0`. Rates stay numbers. |
| `CostConfigurationForm.Form.ApplyFetch` | src/components/cost-configuration-form.tsx:34-60 | A truthy fetched `data` replaces the form with the merge. A failed fetch, a not-ok response or a falsy `data` leaves the form unchanged. |
| `CostConfigurationForm.Form.RequestBody` | src/components/cost-configuration-form.tsx:84-90 | The posted body carries the current form data verbatim. |
| `UpdateProfile.AuthData` | src/app/api/update-profile/route.ts:21-40 | `full_name` and `avatar_url` are present iff provided (truthy), and have the given values. There are no other keys. |
| `UpdateProfile.ProfileData` | src/app/api/update-profile/route.ts:23-40 | A provided name sets both `full_name` and `name`. `avatar_url` is present iff provided. Only the provided keys appear. |
| `UpdateProfile.SameProvidedKeys` | src/app/api/update-profile/route.ts:30-43 | The profile keys are the auth keys plus `name`, so the two objects are empty together. |
| `UpdateProfile.ProfileApi.Post` | src/app/api/update-profile/route.ts:4-80 | 401 first. With nothing provided, 400 "No update data provided". The auth write comes first; its failure gives 500 and nothing is written. Then the profile row is merged; its failure gives 500 and the auth change stays. |
| `UpdateProfile.UpdateKeepsOtherField` | src/app/api/update-profile/route.ts:56-60 | Updating only the avatar keeps a stored name, and vice versa. |
| `AvatarUpload.Picker.OnSelectFile` | src/components/avatar-upload.tsx:73-103 | The error and success flags are reset first. No file gives the selection error. The file is recorded before any check. Size is checked before type: over 5 MiB gives the size error, and exactly 5 MiB passes. A non-image gives the type error. Only an acceptable file is read for cropping. |
| `AvatarUpload.StoragePath` | src/components/avatar-upload.tsx:167-173 | The path is the user id followed by "/avatar.jpeg", whatever the uploaded type. |
| `AvatarUpload.StoragePathInjective` | src/components/avatar-upload.tsx:173 | Distinct users never share an avatar object. |
| `SettingsPage.DisplayName` | src/app/dashboard/settings/page.tsx:44 | The name used is `full_name`, falling back to email, then "". |
| `SettingsPage.HeadsOfWords` | src/app/dashboard/settings/page.tsx:45-48 | The joined first characters are exactly the first characters of the non-empty pieces, in order. |
| `SettingsPage.Initials` | src/app/dashboard/settings/page.tsx:45-50 | The initials have at most 2 characters. |
| `SettingsPage.InitialsAreWordHeads` | src/app/dashboard/settings/page.tsx:45-50 | The initials are the upper-cased first characters of the first two non-empty space-separated words, in order. A single word gives one character. |
| `DashboardNavbar.Navbar.constructor` | src/components/dashboard-navbar.tsx:20-21 | There is no avatar before the fetch, and the initials are "U". |
| `DashboardNavbar.Navbar.FetchUserData` | src/components/dashboard-navbar.tsx:23-50 | With no user, nothing changes. Otherwise the avatar changes only to a non-empty URL, and the initials are the settings page's derivation on the same input (at most 2 characters). |
| `PdfDownload.FileName` | src/components/pdf-download-button.tsx:75 | The file name always ends in "_cost_report.pdf". |
| `PdfDownload.FileNameParts` | src/components/pdf-download-button.tsx:75 | The name part has no white space. A name without white space is kept unchanged. |
| `PdfDownload.PageCount` | src/components/pdf-download-button.tsx:57-72 | The page count is the least n ≥ 1 with imgHeight ≤ 297·n, i.e. `max(1, ceil(imgHeight/297))`. |
| `PdfDownload.Paginate` | src/components/pdf-download-button.tsx:42-72 | `imgHeight = height·210/width`. The first page is always added. The loop ends with `max(1, ceil(imgHeight/297))` pages. Page k is placed at `heightLeft − imgHeight = −297·k`. |
| `JsString.TrimEmpty` | src/components/questionnaire/steps/feature-selection.tsx:98 | `s.trim() === ""` iff s is all white space. |
| `JsString.TrimEnds` | src/components/questionnaire/steps/feature-selection.tsx:100 | A non-empty trimmed string starts and ends with non-white-space characters. |
| `JsString.SplitJoin` | src/app/dashboard/settings/page.tsx:46 | `split(" ")` loses nothing: joining the pieces with " " gives the string back, and no piece contains the separator. |
| `JsString.ToUpperAt` | src/app/dashboard/settings/page.tsx:49 | ASCII upper-casing works character by character. |
| `JsString.ReplaceRunsNoWhitespace` | src/components/pdf-download-button.tsx:75 | `replace(/\s+/g, "_")` leaves no white space. |
| `JsString.ReplaceRunsIdentity` | src/components/pdf-download-button.tsx:75 | A string without white space is unchanged. |
| `JsString.ReplaceRunsOneRun` | src/components/pdf-download-button.tsx:75 | Each maximal run of white space becomes exactly one replacement. |
| `JsString.IntToStringRoundTrip` | src/components/questionnaire/questionnaire-form.tsx:369 | The decimal rendering of an integer parses back to it. |
| `JsString.ParseIntRoundTrip` | src/components/cost-configuration-form.tsx:74 | `parseInt` of a natural number's decimal rendering gives the number. |
| `JsString.ParseIntExamples` | src/components/cost-configuration-form.tsx:74 | "12abc" → 12, "" → NaN, "-5" → −5, "  42" → 42, "0x1A" → 26. |

## Left out

- React rendering and state management: `isSubmitting` flags, the disabled state of the
  buttons, the crop dialog, the progress bar and the router. State setters are plain field
  assignments. The Next button is offered only before the last step, and Previous is
  disabled on step 1. `HandleNext` and `HandlePrevious` therefore say what happens in range
  under those guards rather than enforcing them.
- Supabase sessions, auth and `createClient`. A signed-in user is an `Option<string>` user
  id. The reads and writes are class fields and fault parameters.
- Rejected promises (`Threw`) in the wizard's subscription read, and the catch of
  `POST /api/subscription` (src/app/api/subscription/route.ts:87-93), which answers 500
  "Internal server error" when a read or write throws. supabase-js reports failures as
  `{ error }`, and that is the only kind the wizard model (`readFault`) and
  `SubscriptionRoute.SubscriptionApi.Post` handle.
- `request.json()` on malformed input, and non-string `plan` values. The routes receive
  parsed JSON (`Json`) or an optional string.
- SubscriptionRoute.SubscriptionApi.Post: when the existing-row read faults while a row
  exists, the source inserts a second row. How the database answers that depends on its
  schema, which is not part of this model. The model lets `writeFault` decide and, on
  success, replaces the row.
- JavaScript prototype lookups in `techComplexity[tech]` (for example a technology named
  "constructor"). A table lookup sees only the table's own keys.
- Unicode `toUpperCase` and UTF-16 code units. Upper-casing is ASCII, and `name[0]` is a
  whole character.
- `parseInt` beyond 2^53 and IEEE floating point in general. The estimator and the
  pagination use exact reals. Double rounding may differ only at exact .5 ties and for huge
  inputs.
- PdfDownload.Paginate: requires a canvas of positive width. For width 0 the source divides
  by zero: it either never adds a second page (NaN) or loops forever (Infinity).
- jsPDF and html2canvas calls, image data URLs, FileReader, `centerAspectCrop`, `getCroppedImg`,
  the storage upload and the public-URL fetch. Only the file checks and the storage path are
  modelled.
- Concurrency: the check-then-act race between two submits. The model is sequential, and
  the stale snapshot + 1 is what it writes.
- Report id uniqueness (`report-${Date.now()}`) and the order in which reports are listed.
- `ensureCostConfigurationColumn` and the run-migration route: raw SQL and RPC whose
  failures are swallowed.
- i18n setup, the language switcher and the `lang`/`dir` choice in the layout. The
  middleware's cookie options (path "/", one year) are recorded only as the constants
  `LanguageCookiePath` and `LanguageCookieMaxAge`.
- JavaScript `Date`, ISO strings and the calendar. `setDate(+d)` is `+ d·86400000` ms (no
  daylight-saving shifts). The timeline's `setMonth` end date and the `/4.33` display are
  not modelled.
- `Intl.NumberFormat` currency formatting and `toLocaleDateString`.
- TeamComposition.HandleSliderChange: `value[0]` is taken as an `int`. The slider's own
  clamping is stated as a lemma precondition, not enforced.
- Pure presentation components: the profile form, the email-change form, the button label
  of the subscription form, and the new-estimate page's auth redirect.
