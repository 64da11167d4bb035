/** The settings form for the four monthly role rates: its state, the input handler, the merge
    of a fetched configuration with the defaults, and the body it posts. */
module CostConfigurationForm {
  import opened Wrappers
  import opened Json
  import opened JsString
  import opened CostConfigurationRoute
  import opened Http

  datatype RateField = Developer | Designer | ProjectManager | QaTester

  /** The `name` attribute of the field's input, which is also its key in the posted body. */
  function FieldName(f: RateField): string {
    match f
    case Developer => DeveloperRateKey
    case Designer => DesignerRateKey
    case ProjectManager => ProjectManagerRateKey
    case QaTester => QaTesterRateKey
  }

  /** `formData`. After a fetch a field holds whatever the stored configuration held. */
  datatype Rates = Rates(developerRate: Json, designerRate: Json, projectManagerRate: Json, qaTesterRate: Json)

  function Rate(r: Rates, f: RateField): Json {
    match f
    case Developer => r.developerRate
    case Designer => r.designerRate
    case ProjectManager => r.projectManagerRate
    case QaTester => r.qaTesterRate
  }

  /** `{ ...formData, [name]: value }`. */
  function WithRate(r: Rates, f: RateField, value: Json): (r': Rates)
    ensures Rate(r', f) == value
    ensures forall g :: g != f ==> Rate(r', g) == Rate(r, g)
  {
    match f
    case Developer => r.(developerRate := value)
    case Designer => r.(designerRate := value)
    case ProjectManager => r.(projectManagerRate := value)
    case QaTester => r.(qaTesterRate := value)
  }

  /** `parseInt(value) || 0`: NaN and 0 both give 0. */
  function ParsedRate(value: string): (r: int)
    ensures ParseInt(value).Some? ==> r == ParseInt(value).value
    ensures ParseInt(value).None? ==> r == 0
  {
    match ParseInt(value)
    case Some(n) => n
    case None => 0
  }

  /** The examples "12abc" (12), "" (0) and "-5" (-5). */
  lemma ParsedRateExamples()
    ensures ParsedRate("12abc") == 12 && ParsedRate("") == 0 && ParsedRate("-5") == -5
  {
    ParseIntExamples();
  }

  /** Every rate is a number, as the POST route demands. */
  predicate AllNumbers(r: Rates) {
    forall f :: Rate(r, f).JNumber?
  }

  /** The fetched `data` merged field by field with the initial rates: `data.<rate> || initial`. */
  function Merged(data: Json, initial: Rates): (r: Rates)
    ensures forall f :: Rate(r, f) == MemberOr(data, FieldName(f), Rate(initial, f))
  {
    Rates(MemberOr(data, DeveloperRateKey, initial.developerRate),
          MemberOr(data, DesignerRateKey, initial.designerRate),
          MemberOr(data, ProjectManagerRateKey, initial.projectManagerRate),
          MemberOr(data, QaTesterRateKey, initial.qaTesterRate))
  }

  /** `JSON.stringify(formData)`, parsed back by the route. */
  function Body(r: Rates): (j: Json)
    ensures j.JObject? && j.fields.Keys == {DeveloperRateKey, DesignerRateKey, ProjectManagerRateKey, QaTesterRateKey}
    ensures forall f :: Member(j, FieldName(f)) == Some(Rate(r, f))
  {
    JObject(map[DeveloperRateKey := r.developerRate, DesignerRateKey := r.designerRate,
                ProjectManagerRateKey := r.projectManagerRate, QaTesterRateKey := r.qaTesterRate])
  }

  /** A form whose rates are all numbers posts a body the route accepts. */
  lemma BodyValid(r: Rates)
    requires AllNumbers(r)
    ensures ValidConfiguration(Body(r))
  {
    assert Rate(r, Developer).JNumber? && Rate(r, Designer).JNumber?;
    assert Rate(r, ProjectManager).JNumber? && Rate(r, QaTester).JNumber?;
    assert Member(Body(r), FieldName(Developer)) == Some(Rate(r, Developer));
    assert Member(Body(r), FieldName(Designer)) == Some(Rate(r, Designer));
    assert Member(Body(r), FieldName(ProjectManager)) == Some(Rate(r, ProjectManager));
    assert Member(Body(r), FieldName(QaTester)) == Some(Rate(r, QaTester));
  }

  /** Saving and reloading: the posted rates come back, except that a zero rate is replaced by
      the initial one on the way in. */
  lemma SaveReload(r: Rates, initial: Rates, f: RateField)
    ensures Rate(Merged(Body(r), initial), f) == (if Truthy(Rate(r, f)) then Rate(r, f) else Rate(initial, f))
  {
    assert Member(Body(r), FieldName(f)) == Some(Rate(r, f));
  }

  /** The outcome of `fetch("/api/cost-configuration")` as the form sees it: a rejected fetch,
      a response that is not ok, or an ok response whose body has the member `data`. */
  datatype FetchOutcome = FetchThrew | NotOk | Fetched(data: Option<Json>)

  /** The outcome the form sees for a GET response. */
  function Outcome(r: Response<Json>): FetchOutcome {
    match r
    case Ok(body) => Fetched(Some(body))
    case Error(_, _) => NotOk
    case Unhandled => NotOk
  }

  class Form {
    /** The props, with their defaults applied. */
    const initial: Rates
    var formData: Rates

    /** Props `initialDeveloperRate = 8000`, `initialDesignerRate = 7000`,
        `initialProjectManagerRate = 9000`, `initialQaTesterRate = 6000`. */
    constructor(developer: Option<real>, designer: Option<real>, projectManager: Option<real>, qaTester: Option<real>)
      ensures initial == Rates(JNumber(developer.GetOr(8000.0)), JNumber(designer.GetOr(7000.0)),
                               JNumber(projectManager.GetOr(9000.0)), JNumber(qaTester.GetOr(6000.0)))
      ensures formData == initial && AllNumbers(formData)
    {
      initial := Rates(JNumber(developer.GetOr(8000.0)), JNumber(designer.GetOr(7000.0)),
                       JNumber(projectManager.GetOr(9000.0)), JNumber(qaTester.GetOr(6000.0)));
      formData := Rates(JNumber(developer.GetOr(8000.0)), JNumber(designer.GetOr(7000.0)),
                        JNumber(projectManager.GetOr(9000.0)), JNumber(qaTester.GetOr(6000.0)));
    }

    /** `handleChange` for the input named after `f`. */
    method HandleChange(f: RateField, value: string)
      modifies this
      ensures formData == WithRate(old(formData), f, JNumber(ParsedRate(value) as real))
      ensures old(AllNumbers(formData)) ==> AllNumbers(formData)
    {
      var n: int;
      match ParseInt(value) {
        case Some(v) => n := v;
        case None => n := 0;
      }
      formData := WithRate(formData, f, JNumber(n as real));
    }

    /** The mount effect once the fetch settles: a truthy `data` replaces the whole form with
        the merge; anything else keeps the current rates. */
    method ApplyFetch(outcome: FetchOutcome)
      modifies this
      ensures outcome.Fetched? && outcome.data.Some? && Truthy(outcome.data.value) ==>
        formData == Merged(outcome.data.value, initial)
      ensures !(outcome.Fetched? && outcome.data.Some? && Truthy(outcome.data.value)) ==> formData == old(formData)
    {
      if outcome.Fetched? {
        var data := outcome.data;
        if data.Some? && Truthy(data.value) {
          formData := Rates(MemberOr(data.value, DeveloperRateKey, initial.developerRate),
                            MemberOr(data.value, DesignerRateKey, initial.designerRate),
                            MemberOr(data.value, ProjectManagerRateKey, initial.projectManagerRate),
                            MemberOr(data.value, QaTesterRateKey, initial.qaTesterRate));
        }
      }
    }

    /** The body `handleSubmit` posts: the current form data, verbatim. */
    function RequestBody(): (j: Json)
      reads this
      ensures forall f :: Member(j, FieldName(f)) == Some(Rate(formData, f))
    {
      Body(formData)
    }
  }

  /** Merging a configuration the route accepted keeps every rate a number. */
  lemma MergedNumbers(data: Json, initial: Rates)
    requires ValidConfiguration(data) && AllNumbers(initial)
    ensures AllNumbers(Merged(data, initial))
  {
    forall f
      ensures Rate(Merged(data, initial), f).JNumber?
    {
      assert IsNumberMember(data, FieldName(f)) by {
        match f
        case Developer =>
        case Designer =>
        case ProjectManager =>
        case QaTester =>
      }
      assert Rate(initial, f).JNumber?;
    }
  }

  /** Loading the default configuration (a user who never saved one) shows the default rates. */
  lemma DefaultsLoaded(userId: string, users: map<string, Json>)
    requires userId in users && !Truthy(users[userId])
    ensures Outcome(Get(Some(userId), users, None)) == Fetched(Some(DefaultCostConfig))
  {
  }
}
