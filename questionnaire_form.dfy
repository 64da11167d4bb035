/** The questionnaire wizard: per-step validation, step navigation and the submit sequence
    (eligibility check, cost estimate, report insert, usage update). */
module QuestionnaireForm {
  import opened Wrappers
  import opened JsString
  import opened Store
  import opened Questionnaire
  import opened CostModel
  import opened CostEstimator
  import opened Subscriptions

  /** The number of wizard steps. */
  const StepCount: int := 5

  const ProjectNameRequired: string := "Project name is required"
  const ProjectDescriptionRequired: string := "Project description is required"
  const IndustryTypeRequired: string := "Industry type is required"
  const ProjectTypeRequired: string := "Project type is required"
  const FeaturesRequired: string := "Select at least one feature or add a custom feature"
  const FrontendRequired: string := "Select at least one frontend technology"
  const BackendRequired: string := "Select at least one backend technology"
  const DatabaseRequired: string := "Database selection is required"
  const HostingRequired: string := "Hosting selection is required"
  const DurationTooShort: string := "Duration must be at least 1 month"
  const StartDateRequired: string := "Start date is required"

  /** The key of the form-level error shown under the submit button. */
  const SubmitKey: string := "submit"
  const SubmitFailed: string := "Failed to generate report. Please try again."
  const SubscriptionExpired: string := "Your subscription has expired. Please upgrade to continue."
  const SubscriptionDisallows: string := "Your subscription doesn't allow creating more reports."

  function LimitMessage(limit: int): string {
    "You've reached your limit of " + IntToString(limit) + " reports. Please upgrade your subscription."
  }

  /** The limit message is longer than the fallback message, so they never coincide. */
  lemma LimitMessageDistinct(limit: int)
    ensures LimitMessage(limit) != SubscriptionDisallows
  {
    assert |LimitMessage(limit)| > |SubscriptionDisallows|;
  }

  /** `if (failed) errors[key] = message`. */
  function Flagged(errors: Errors, failed: bool, key: string, message: string): Errors {
    if failed then errors[key := message] else errors
  }

  /** The error map `validateStep` produces for `step`: each failed check of the step
      records its own message under its own key. */
  function StepErrors(d: QuestionnaireData, step: int): Errors {
    var pb := d.projectBasics;
    var t := d.technologies;
    if step == 1 then
      var e1 := Flagged(map[], pb.projectName == "", "projectName", ProjectNameRequired);
      var e2 := Flagged(e1, pb.projectDescription == "", "projectDescription", ProjectDescriptionRequired);
      var e3 := Flagged(e2, pb.industryType == "", "industryType", IndustryTypeRequired);
      Flagged(e3, pb.projectType == "", "projectType", ProjectTypeRequired)
    else if step == 2 then
      Flagged(map[], |d.features| == 0 && |d.customFeatures| == 0, "features", FeaturesRequired)
    else if step == 3 then
      var e1 := Flagged(map[], |t.frontend| == 0, "frontend", FrontendRequired);
      var e2 := Flagged(e1, |t.backend| == 0, "backend", BackendRequired);
      var e3 := Flagged(e2, t.database == "", "database", DatabaseRequired);
      Flagged(e3, t.hosting == "", "hosting", HostingRequired)
    else if step == 5 then
      var e1 := Flagged(map[], d.timeline.durationMonths < 1, "durationMonths", DurationTooShort);
      Flagged(e1, d.timeline.startDate == "", "startDate", StartDateRequired)
    else
      map[]
  }

  /** A step produces no error exactly when its requirements are met. */
  lemma StepErrorsEmptyIffMet(d: QuestionnaireData, step: int)
    ensures StepErrors(d, step) == map[] <==> StepRequirementsMet(d, step)
  {
    var e := StepErrors(d, step);
    if step == 1 {
      assert d.projectBasics.projectName == "" ==> "projectName" in e;
      assert d.projectBasics.projectDescription == "" ==> "projectDescription" in e;
      assert d.projectBasics.industryType == "" ==> "industryType" in e;
      assert d.projectBasics.projectType == "" ==> "projectType" in e;
    } else if step == 3 {
      assert |d.technologies.frontend| == 0 ==> "frontend" in e;
      assert |d.technologies.backend| == 0 ==> "backend" in e;
      assert d.technologies.database == "" ==> "database" in e;
      assert d.technologies.hosting == "" ==> "hosting" in e;
    } else if step == 5 {
      assert d.timeline.durationMonths < 1 ==> "durationMonths" in e;
      assert d.timeline.startDate == "" ==> "startDate" in e;
    } else if step == 2 {
      assert |d.features| == 0 && |d.customFeatures| == 0 ==> "features" in e;
    }
  }

  /** Step 1 reports each empty project-basics field under its own key, and nothing else. */
  lemma BasicsErrors(d: QuestionnaireData)
    ensures StepErrors(d, 1).Keys <= {"projectName", "projectDescription", "industryType", "projectType"}
    ensures "projectName" in StepErrors(d, 1) <==> d.projectBasics.projectName == ""
    ensures "projectDescription" in StepErrors(d, 1) <==> d.projectBasics.projectDescription == ""
    ensures "industryType" in StepErrors(d, 1) <==> d.projectBasics.industryType == ""
    ensures "projectType" in StepErrors(d, 1) <==> d.projectBasics.projectType == ""
    ensures forall k | k in StepErrors(d, 1) ::
      StepErrors(d, 1)[k] in {ProjectNameRequired, ProjectDescriptionRequired, IndustryTypeRequired, ProjectTypeRequired}
  {
  }

  /** Step 3 reports each missing technology choice under its own key, and nothing else. */
  lemma TechnologyErrors(d: QuestionnaireData)
    ensures StepErrors(d, 3).Keys <= {"frontend", "backend", "database", "hosting"}
    ensures "frontend" in StepErrors(d, 3) <==> |d.technologies.frontend| == 0
    ensures "backend" in StepErrors(d, 3) <==> |d.technologies.backend| == 0
    ensures "database" in StepErrors(d, 3) <==> d.technologies.database == ""
    ensures "hosting" in StepErrors(d, 3) <==> d.technologies.hosting == ""
  {
  }

  /** Step 2 fails only when both feature lists are empty; step 4 never fails; step 5 reports
      a short duration and a missing start date under their own keys. */
  lemma OtherStepErrors(d: QuestionnaireData)
    ensures StepErrors(d, 2).Keys <= {"features"}
    ensures "features" in StepErrors(d, 2) <==> |d.features| == 0 && |d.customFeatures| == 0
    ensures StepErrors(d, 4) == map[]
    ensures StepErrors(d, 5).Keys <= {"durationMonths", "startDate"}
    ensures "durationMonths" in StepErrors(d, 5) <==> d.timeline.durationMonths < 1
    ensures "startDate" in StepErrors(d, 5) <==> d.timeline.startDate == ""
  {
  }

  /** `validateStep(step)`: fills a fresh error map key by key and clears `isValid` on each failure. */
  method ValidateStep(d: QuestionnaireData, step: int) returns (isValid: bool, newErrors: Errors)
    ensures isValid <==> StepRequirementsMet(d, step)
    ensures newErrors == StepErrors(d, step)
    ensures isValid <==> newErrors == map[]
  {
    newErrors := map[];
    isValid := true;
    var pb := d.projectBasics;
    var t := d.technologies;
    if step == 1 {
      if pb.projectName == "" {
        newErrors := newErrors["projectName" := ProjectNameRequired];
        isValid := false;
      }
      if pb.projectDescription == "" {
        newErrors := newErrors["projectDescription" := ProjectDescriptionRequired];
        isValid := false;
      }
      if pb.industryType == "" {
        newErrors := newErrors["industryType" := IndustryTypeRequired];
        isValid := false;
      }
      if pb.projectType == "" {
        newErrors := newErrors["projectType" := ProjectTypeRequired];
        isValid := false;
      }
    } else if step == 2 {
      if |d.features| == 0 && |d.customFeatures| == 0 {
        newErrors := newErrors["features" := FeaturesRequired];
        isValid := false;
      }
    } else if step == 3 {
      if |t.frontend| == 0 {
        newErrors := newErrors["frontend" := FrontendRequired];
        isValid := false;
      }
      if |t.backend| == 0 {
        newErrors := newErrors["backend" := BackendRequired];
        isValid := false;
      }
      if t.database == "" {
        newErrors := newErrors["database" := DatabaseRequired];
        isValid := false;
      }
      if t.hosting == "" {
        newErrors := newErrors["hosting" := HostingRequired];
        isValid := false;
      }
    } else if step == 5 {
      if d.timeline.durationMonths < 1 {
        newErrors := newErrors["durationMonths" := DurationTooShort];
        isValid := false;
      }
      if d.timeline.startDate == "" {
        newErrors := newErrors["startDate" := StartDateRequired];
        isValid := false;
      }
    }
    StepErrorsEmptyIffMet(d, step);
  }

  /** The message that blocks a submit for the fetched `subscription`, or `None` when it may
      proceed. The fallback message is kept although no input reaches it. */
  function SubmitRejection(subscription: Option<Subscription>, now: int): Option<string> {
    if subscription.None? || Blocked(subscription.value, now) then
      if subscription.None? || Lapsed(subscription.value, now) then Some(SubscriptionExpired)
      else if LimitReached(subscription.value) then Some(LimitMessage(subscription.value.reportsLimit))
      else Some(SubscriptionDisallows)
    else None
  }

  /** Submit proceeds exactly for an existing, active, unexpired subscription under its limit. */
  lemma SubmitAllowedIff(subscription: Option<Subscription>, now: int)
    ensures SubmitRejection(subscription, now).None? <==> subscription.Some? && !Blocked(subscription.value, now)
  {
  }

  /** "Expired" wins whenever the row is missing, inactive or past its end; "limit" names the
      row's own limit; the fallback message is never produced. */
  lemma SubmitRejectionMessages(subscription: Option<Subscription>, now: int)
    ensures subscription.None? || Lapsed(subscription.value, now) ==>
      SubmitRejection(subscription, now) == Some(SubscriptionExpired)
    ensures subscription.Some? && !Lapsed(subscription.value, now) && LimitReached(subscription.value) ==>
      SubmitRejection(subscription, now) == Some(LimitMessage(subscription.value.reportsLimit))
    ensures SubmitRejection(subscription, now) != Some(SubscriptionDisallows)
  {
    if subscription.Some? {
      LimitMessageDistinct(subscription.value.reportsLimit);
    }
  }

  /** A row of `cost_reports`. */
  datatype Report = Report(id: string, userId: string, data: QuestionnaireData, estimatedCost: int, createdAt: int)

  /** `report-${Date.now()}`. */
  function ReportId(now: int): string {
    "report-" + IntToString(now)
  }

  /** The page `router.push` opens after a successful submit. */
  function ReportPath(reportId: string): string {
    "/dashboard/reports/" + reportId
  }

  /** The submit passes validation and the eligibility check for the row `.single()` returns. */
  predicate Eligible(d: QuestionnaireData, step: int, subscription: Option<Subscription>,
                     readFault: Option<DbError>, now: int) {
    && StepRequirementsMet(d, step)
    && readFault.None?
    && subscription.Some?
    && !Blocked(subscription.value, now)
  }

  /** The form state of one user's wizard together with the two tables it writes. */
  class Wizard {
    const userId: string
    var currentStep: int
    var data: QuestionnaireData
    var errors: Errors
    /** The user's `subscriptions` row, if any. */
    var subscription: Option<Subscription>
    /** The `cost_reports` table. */
    var reports: seq<Report>

    /** Steps 1 through `StepCount`. */
    predicate StepInRange()
      reads this
    {
      1 <= currentStep <= StepCount
    }

    constructor(userId: string, today: string, subscription: Option<Subscription>, reports: seq<Report>)
      ensures this.userId == userId && currentStep == 1 && data == InitialData(today) && errors == map[]
      ensures this.subscription == subscription && this.reports == reports
      ensures StepInRange()
    {
      this.userId := userId;
      currentStep := 1;
      data := InitialData(today);
      errors := map[];
      this.subscription := subscription;
      this.reports := reports;
    }

    /** The `updateData` and `setErrors` callbacks a step editor calls. */
    method Edit(newData: QuestionnaireData, newErrors: Errors)
      modifies this
      ensures data == newData && errors == newErrors
      ensures currentStep == old(currentStep) && subscription == old(subscription) && reports == old(reports)
    {
      data := newData;
      errors := newErrors;
    }

    /** `handleNext`: re-validate the current step and move on only if it passes. The Next
        button exists only before the last step, so that caller stays within the steps. */
    method HandleNext()
      modifies this
      ensures errors == StepErrors(old(data), old(currentStep))
      ensures StepRequirementsMet(old(data), old(currentStep)) ==> currentStep == old(currentStep) + 1
      ensures !StepRequirementsMet(old(data), old(currentStep)) ==> currentStep == old(currentStep)
      ensures data == old(data) && subscription == old(subscription) && reports == old(reports)
      ensures old(StepInRange() && currentStep < StepCount) ==> StepInRange()
    {
      var isValid, newErrors := ValidateStep(data, currentStep);
      errors := newErrors;
      if isValid {
        currentStep := currentStep + 1;
      }
    }

    /** `handlePrevious`: an unguarded step back; the Previous button is disabled on step 1. */
    method HandlePrevious()
      modifies this
      ensures currentStep == old(currentStep) - 1
      ensures data == old(data) && errors == old(errors)
      ensures subscription == old(subscription) && reports == old(reports)
      ensures old(StepInRange() && currentStep != 1) ==> StepInRange()
    {
      currentStep := currentStep - 1;
    }

    /** `handleSubmit`. `readFault` is a storage failure of the subscription read, `insertFault`
        and `updateFault` those of the two writes; `now` is the clock in milliseconds. */
    method HandleSubmit(now: int, readFault: Option<DbError>, insertFault: Option<DbError>,
                        updateFault: Option<DbError>) returns (redirect: Option<string>)
      modifies this
      ensures data == old(data) && currentStep == old(currentStep)
      // Only the current step is re-validated; a failure stops everything.
      ensures !StepRequirementsMet(old(data), old(currentStep)) ==>
        errors == StepErrors(old(data), old(currentStep))
      // A failed read, including the no-rows error of a missing row, writes nothing.
      ensures StepRequirementsMet(old(data), old(currentStep)) && (readFault.Some? || old(subscription).None?) ==>
        errors == map[SubmitKey := SubmitFailed]
      // A present but blocked row writes nothing and explains why.
      ensures StepRequirementsMet(old(data), old(currentStep)) && readFault.None? && old(subscription).Some?
              && Blocked(old(subscription).value, now) ==>
        errors == map[SubmitKey := SubmitRejection(old(subscription), now).value]
      ensures !Eligible(old(data), old(currentStep), old(subscription), readFault, now) ==>
        reports == old(reports) && subscription == old(subscription) && redirect.None?
      // A failed insert stops before the usage update.
      ensures Eligible(old(data), old(currentStep), old(subscription), readFault, now) && insertFault.Some? ==>
        errors == map[SubmitKey := SubmitFailed] && reports == old(reports)
        && subscription == old(subscription) && redirect.None?
      // Otherwise exactly one report carrying the estimate, then used := snapshot + 1 unless
      // that write fails, which keeps the report.
      ensures Eligible(old(data), old(currentStep), old(subscription), readFault, now) && insertFault.None? ==>
        && errors == map[]
        && reports == old(reports) + [Report(ReportId(now), userId, old(data), Estimate(old(data)), now)]
        && subscription == (if updateFault.None?
                            then Some(old(subscription).value.(reportsUsed := old(subscription).value.reportsUsed + 1))
                            else old(subscription))
        && redirect == Some(ReportPath(ReportId(now)))
    {
      redirect := None;
      var isValid, newErrors := ValidateStep(data, currentStep);
      errors := newErrors;
      if !isValid {
        return;
      }
      var query := ReadSingle(subscription, readFault);
      if !query.Found? {
        errors := map[SubmitKey := SubmitFailed];
        return;
      }
      var snapshot := query.data;
      var rejection := SubmitRejection(snapshot, now);
      if rejection.Some? {
        errors := map[SubmitKey := rejection.value];
        return;
      }
      var estimatedCost := CalculateCost(data);
      var reportId := ReportId(now);
      if insertFault.Some? {
        errors := map[SubmitKey := SubmitFailed];
        return;
      }
      reports := reports + [Report(reportId, userId, data, estimatedCost, now)];
      if updateFault.None? {
        subscription := Some(snapshot.value.(reportsUsed := snapshot.value.reportsUsed + 1));
      }
      redirect := Some(ReportPath(reportId));
    }
  }
}
