/** The team-composition step: one slider per role and the summary total. */
module TeamComposition {
  import opened Questionnaire
  import opened CostModel

  datatype Role = Developers | Designers | ProjectManagers | QaTesters

  function Count(t: Team, role: Role): int {
    match role
    case Developers => t.developers
    case Designers => t.designers
    case ProjectManagers => t.projectManagers
    case QaTesters => t.qaTesters
  }

  /** The slider bounds per role. */
  function MinCount(role: Role): int {
    if role == Developers then 1 else 0
  }

  function MaxCount(role: Role): int {
    match role
    case Developers => 10
    case Designers => 5
    case ProjectManagers => 3
    case QaTesters => 5
  }

  /** `handleSliderChange(field, value)`, with `value` standing for `value[0]`; the
      component never touches the error map. */
  function HandleSliderChange(t: Team, role: Role, value: int): (r: Team)
    ensures Count(r, role) == value
    ensures forall other: Role | other != role :: Count(r, other) == Count(t, other)
  {
    match role
    case Developers => t.(developers := value)
    case Designers => t.(designers := value)
    case ProjectManagers => t.(projectManagers := value)
    case QaTesters => t.(qaTesters := value)
  }

  /** The "Total Team Size" line. */
  function TotalTeamSize(t: Team): int {
    t.developers + t.designers + t.projectManagers + t.qaTesters
  }

  /** Every count lies within its slider's range. */
  predicate WithinSliders(t: Team) {
    forall role: Role :: MinCount(role) <= Count(t, role) <= MaxCount(role)
  }

  /** Moving a slider within its range keeps the team within the sliders, and changes the
      total by exactly the difference. */
  lemma SliderChangeKeepsRange(t: Team, role: Role, value: int)
    requires WithinSliders(t) && MinCount(role) <= value <= MaxCount(role)
    ensures WithinSliders(HandleSliderChange(t, role, value))
    ensures TotalTeamSize(HandleSliderChange(t, role, value)) == TotalTeamSize(t) - Count(t, role) + value
  {
    var r := HandleSliderChange(t, role, value);
    forall other: Role ensures MinCount(other) <= Count(r, other) <= MaxCount(other) {
      if other != role { assert Count(r, other) == Count(t, other); }
    }
  }

  /** A slider-built team has between 1 and 23 members and costs between 8000 and 172000 a month. */
  lemma SliderTeamBounds(t: Team)
    requires WithinSliders(t)
    ensures 1 <= TotalTeamSize(t) <= 23
    ensures 8000 <= TeamMonthlyCost(t) <= 172000
  {
    assert MinCount(Developers) <= Count(t, Developers) <= MaxCount(Developers);
    assert MinCount(Designers) <= Count(t, Designers) <= MaxCount(Designers);
    assert MinCount(ProjectManagers) <= Count(t, ProjectManagers) <= MaxCount(ProjectManagers);
    assert MinCount(QaTesters) <= Count(t, QaTesters) <= MaxCount(QaTesters);
  }

  /** The initial team is within the sliders. */
  lemma InitialTeamWithinSliders(today: string)
    ensures WithinSliders(InitialData(today).team)
  {
    var t := InitialData(today).team;
    forall role: Role ensures MinCount(role) <= Count(t, role) <= MaxCount(role) {
    }
  }
}
