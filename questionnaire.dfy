/** The questionnaire snapshot the wizard collects, its error map, and the per-step
    requirements that `validateStep` enforces. */
module Questionnaire {

  /** `Record<string, string>`: field name to error message. */
  type Errors = map<string, string>

  datatype ProjectBasics = ProjectBasics(
    projectName: string,
    projectDescription: string,
    industryType: string,
    projectType: string)

  datatype Technologies = Technologies(
    frontend: seq<string>,
    backend: seq<string>,
    database: string,
    hosting: string,
    additionalServices: seq<string>)

  datatype Team = Team(developers: int, designers: int, projectManagers: int, qaTesters: int)

  /** A milestone; `duration` is in weeks. */
  datatype Milestone = Milestone(title: string, duration: int)

  datatype Timeline = Timeline(durationMonths: int, startDate: string, milestones: seq<Milestone>)

  datatype QuestionnaireData = QuestionnaireData(
    projectBasics: ProjectBasics,
    features: seq<string>,
    customFeatures: seq<string>,
    technologies: Technologies,
    team: Team,
    timeline: Timeline)

  /** The state the form starts from; `today` is the ISO date of the first render. */
  function InitialData(today: string): QuestionnaireData {
    QuestionnaireData(
      ProjectBasics("", "", "", ""),
      [], [],
      Technologies([], [], "", "", []),
      Team(1, 1, 1, 0),
      Timeline(3, today, []))
  }

  /** `const e = { ...errors }; delete e[key]`. */
  function DeleteKey(errors: Errors, key: string): Errors {
    errors - {key}
  }

  /** Every key other than `key` is kept, with its message. */
  ghost predicate OthersKept(before: Errors, after: Errors, key: string) {
    forall k | k != key :: (k in after <==> k in before) && (k in before ==> after[k] == before[k])
  }

  /** `if (errors[key])`: present and not the empty string. */
  predicate HasError(errors: Errors, key: string) {
    key in errors && errors[key] != ""
  }

  /** What each step demands before the wizard may advance (steps outside 1..5 demand
      nothing). */
  predicate StepRequirementsMet(d: QuestionnaireData, step: int) {
    if step == 1 then
      && d.projectBasics.projectName != ""
      && d.projectBasics.projectDescription != ""
      && d.projectBasics.industryType != ""
      && d.projectBasics.projectType != ""
    else if step == 2 then
      |d.features| > 0 || |d.customFeatures| > 0
    else if step == 3 then
      && |d.technologies.frontend| > 0
      && |d.technologies.backend| > 0
      && d.technologies.database != ""
      && d.technologies.hosting != ""
    else if step == 5 then
      d.timeline.durationMonths >= 1 && d.timeline.startDate != ""
    else
      true
  }
}
