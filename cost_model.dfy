/** The estimate the wizard computes: team monthly cost x duration x feature factor x
    technology multiplier, rounded to the nearest 1000, on exact reals with `Math.round(x)`
    as `Floor(x + 1/2)`. */
module CostModel {
  import opened Questionnaire

  /** Monthly rates per role, hard-coded in the estimator. */
  const DeveloperRate: int := 8000
  const DesignerRate: int := 7000
  const ProjectManagerRate: int := 9000
  const QaTesterRate: int := 6000

  /** The per-technology complexity tables of the three single-choice or multi-choice categories. */
  datatype ComplexityTables = ComplexityTables(
    frontend: map<string, real>,
    backend: map<string, real>,
    database: map<string, real>)

  const Complexity: ComplexityTables := ComplexityTables(
    map["React" := 1.2, "Angular" := 1.3, "Vue" := 1.1, "Next.js" := 1.25, "Plain HTML/CSS/JS" := 0.8],
    map["Node.js" := 1.1, "Python" := 1.2, "Ruby on Rails" := 1.15, "PHP" := 0.9,
        "Java" := 1.3, ".NET" := 1.25, "Go" := 1.2],
    map["MongoDB" := 1.1, "PostgreSQL" := 1.15, "MySQL" := 1.0, "Firebase" := 0.9, "SQL Server" := 1.2])

  /** No table holds a negative entry. */
  predicate NonNegative(tables: ComplexityTables) {
    && (forall k | k in tables.frontend :: tables.frontend[k] >= 0.0)
    && (forall k | k in tables.backend :: tables.backend[k] >= 0.0)
    && (forall k | k in tables.database :: tables.database[k] >= 0.0)
  }

  function TeamMonthlyCost(t: Team): int {
    t.developers * DeveloperRate + t.designers * DesignerRate
    + t.projectManagers * ProjectManagerRate + t.qaTesters * QaTesterRate
  }

  function FeatureComplexity(features: nat, customFeatures: nat): real {
    1.0 + features as real * 0.1 + customFeatures as real * 0.15
  }

  /** `table[name] || 1.0`: an unknown name (or a zero entry) counts as 1. */
  function Lookup(table: map<string, real>, name: string): real {
    if name in table && table[name] != 0.0 then table[name] else 1.0
  }

  /** `xs.reduce((sum, val) => sum + val, 0)`. */
  function Sum(xs: seq<real>): real {
    if xs == [] then 0.0 else Sum(xs[..|xs| - 1]) + xs[|xs| - 1]
  }

  /** `names.map(n => table[n] || 1.0)`. */
  function Multipliers(table: map<string, real>, names: seq<string>): (r: seq<real>)
    ensures |r| == |names|
    ensures forall i :: 0 <= i < |names| ==> r[i] == Lookup(table, names[i])
  {
    seq(|names|, i requires 0 <= i < |names| => Lookup(table, names[i]))
  }

  /** The mean table value of the chosen names, or 1 when none is chosen. */
  function CategoryFactor(table: map<string, real>, names: seq<string>): real {
    var multipliers := Multipliers(table, names);
    if |multipliers| > 0 then Sum(multipliers) / |multipliers| as real else 1.0
  }

  /** The database value, applied only when a database is chosen. */
  function DatabaseFactor(table: map<string, real>, database: string): real {
    if database != "" then Lookup(table, database) else 1.0
  }

  function ServicesFactor(services: nat): real {
    1.0 + services as real * 0.05
  }

  /** The technology multiplier as a product of independent factors; hosting is not among them. */
  function TechMultiplier(tables: ComplexityTables, t: Technologies): real {
    CategoryFactor(tables.frontend, t.frontend)
    * CategoryFactor(tables.backend, t.backend)
    * DatabaseFactor(tables.database, t.database)
    * ServicesFactor(|t.additionalServices|)
  }

  /** People-months weighted by the feature complexity, before the technology multiplier. */
  function BaseCost(d: QuestionnaireData): real {
    TeamMonthlyCost(d.team) as real * d.timeline.durationMonths as real
    * FeatureComplexity(|d.features|, |d.customFeatures|)
  }

  /** The unrounded estimate over given complexity tables. */
  function CostWith(tables: ComplexityTables, d: QuestionnaireData): real {
    BaseCost(d) * TechMultiplier(tables, d.technologies)
  }

  /** The unrounded estimate. */
  function RawCost(d: QuestionnaireData): real {
    CostWith(Complexity, d)
  }

  /** `Math.round(x)`: the integer nearest to `x`, ties going up. */
  function Round(x: real): (r: int)
    ensures x - 0.5 < r as real <= x + 0.5
  {
    (x + 0.5).Floor
  }

  /** `Math.round(x / 1000) * 1000`: the multiple of 1000 nearest to `x`, ties going up. */
  function RoundToThousand(x: real): int {
    Round(x / 1000.0) * 1000
  }

  /** The rounded estimate is the multiple of 1000 nearest to `x`, ties going up. */
  lemma RoundToThousandNearest(x: real)
    ensures RoundToThousand(x) % 1000 == 0
    ensures x - 500.0 < RoundToThousand(x) as real <= x + 500.0
  {
    var q := Round(x / 1000.0);
    assert x / 1000.0 - 0.5 < q as real <= x / 1000.0 + 0.5;
    assert (q * 1000) as real == q as real * 1000.0;
  }

  function Estimate(d: QuestionnaireData): int {
    RoundToThousand(RawCost(d))
  }

  // ---- properties ----

  /** The choice of hosting never changes the estimate. */
  lemma HostingIgnored(d: QuestionnaireData, hosting: string)
    ensures Estimate(d.(technologies := d.technologies.(hosting := hosting))) == Estimate(d)
  {
    TechMultiplierIgnoresHosting(Complexity, d.technologies, hosting);
    assert RawCost(d.(technologies := d.technologies.(hosting := hosting))) == RawCost(d);
  }

  lemma TechMultiplierIgnoresHosting(tables: ComplexityTables, t: Technologies, hosting: string)
    ensures TechMultiplier(tables, t.(hosting := hosting)) == TechMultiplier(tables, t)
  {
    var t' := t.(hosting := hosting);
    assert CategoryFactor(tables.frontend, t'.frontend) == CategoryFactor(tables.frontend, t.frontend);
    assert CategoryFactor(tables.backend, t'.backend) == CategoryFactor(tables.backend, t.backend);
  }

  lemma {:induction false} SumPositive(xs: seq<real>)
    requires forall i :: 0 <= i < |xs| ==> xs[i] > 0.0
    ensures xs != [] ==> Sum(xs) > 0.0
    ensures Sum(xs) >= 0.0
  {
    if xs != [] {
      SumPositive(xs[..|xs| - 1]);
    }
  }

  lemma LookupPositive(table: map<string, real>, name: string)
    requires forall k | k in table :: table[k] >= 0.0
    ensures Lookup(table, name) > 0.0
  {
  }

  lemma CategoryFactorPositive(table: map<string, real>, names: seq<string>)
    requires forall k | k in table :: table[k] >= 0.0
    ensures CategoryFactor(table, names) > 0.0
  {
    var ms := Multipliers(table, names);
    forall i | 0 <= i < |ms| ensures ms[i] > 0.0 {
      LookupPositive(table, names[i]);
    }
    SumPositive(ms);
  }

  lemma FrontendTableNonNegative()
    ensures forall k | k in Complexity.frontend :: Complexity.frontend[k] >= 0.0
  {
  }

  lemma BackendTableNonNegative()
    ensures forall k | k in Complexity.backend :: Complexity.backend[k] >= 0.0
  {
  }

  lemma DatabaseTableNonNegative()
    ensures forall k | k in Complexity.database :: Complexity.database[k] >= 0.0
  {
  }

  lemma ComplexityNonNegative()
    ensures NonNegative(Complexity)
  {
    FrontendTableNonNegative();
    BackendTableNonNegative();
    DatabaseTableNonNegative();
  }

  /** With non-negative tables every technology choice gives a positive multiplier. */
  lemma TechMultiplierPositive(tables: ComplexityTables, t: Technologies)
    requires NonNegative(tables)
    ensures TechMultiplier(tables, t) > 0.0
  {
    CategoryFactorPositive(tables.frontend, t.frontend);
    CategoryFactorPositive(tables.backend, t.backend);
    LookupPositive(tables.database, t.database);
    var a := CategoryFactor(tables.frontend, t.frontend);
    var b := CategoryFactor(tables.backend, t.backend);
    var c := DatabaseFactor(tables.database, t.database);
    var e := ServicesFactor(|t.additionalServices|);
    assert a * b > 0.0;
    assert a * b * c > 0.0;
    assert a * b * c * e > 0.0;
  }

  lemma RoundMonotone(x: real, y: real)
    requires x <= y
    ensures RoundToThousand(x) <= RoundToThousand(y)
  {
    assert Round(x / 1000.0) <= Round(y / 1000.0);
  }

  lemma ScaleMonotone(a: real, a': real, k: real)
    requires a <= a' && k >= 0.0
    ensures a * k <= a' * k
  {
  }

  lemma ScaleMonotoneLeft(k: real, a: real, a': real)
    requires a <= a' && k >= 0.0
    ensures k * a <= k * a'
  {
  }

  /** More people in any role never lowers the estimate (for a non-negative duration). */
  lemma EstimateMonotoneInTeam(d: QuestionnaireData, team: Team)
    requires d.timeline.durationMonths >= 0
    requires d.team.developers <= team.developers && d.team.designers <= team.designers
    requires d.team.projectManagers <= team.projectManagers && d.team.qaTesters <= team.qaTesters
    ensures Estimate(d) <= Estimate(d.(team := team))
  {
    var d' := d.(team := team);
    ComplexityNonNegative();
    TechMultiplierPositive(Complexity, d.technologies);
    var k := d.timeline.durationMonths as real * FeatureComplexity(|d.features|, |d.customFeatures|)
      * TechMultiplier(Complexity, d.technologies);
    assert k >= 0.0;
    ScaleMonotone(TeamMonthlyCost(d.team) as real, TeamMonthlyCost(team) as real, k);
    assert RawCost(d) == TeamMonthlyCost(d.team) as real * k;
    assert RawCost(d') == TeamMonthlyCost(team) as real * k;
    RoundMonotone(RawCost(d), RawCost(d'));
  }

  /** A longer project never costs less (for a team without negative counts). */
  lemma EstimateMonotoneInDuration(d: QuestionnaireData, months: int)
    requires d.team.developers >= 0 && d.team.designers >= 0
    requires d.team.projectManagers >= 0 && d.team.qaTesters >= 0
    requires d.timeline.durationMonths <= months
    ensures Estimate(d) <= Estimate(d.(timeline := d.timeline.(durationMonths := months)))
  {
    var d' := d.(timeline := d.timeline.(durationMonths := months));
    ComplexityNonNegative();
    TechMultiplierPositive(Complexity, d.technologies);
    var k := TeamMonthlyCost(d.team) as real * FeatureComplexity(|d.features|, |d.customFeatures|)
      * TechMultiplier(Complexity, d.technologies);
    assert k >= 0.0;
    ScaleMonotone(d.timeline.durationMonths as real, months as real, k);
    assert RawCost(d) == d.timeline.durationMonths as real * k;
    assert RawCost(d') == months as real * k;
    RoundMonotone(RawCost(d), RawCost(d'));
  }

  /** One more standard or custom feature never lowers the estimate. */
  lemma EstimateMonotoneInFeatures(d: QuestionnaireData, feature: string, custom: string)
    requires d.team.developers >= 0 && d.team.designers >= 0
    requires d.team.projectManagers >= 0 && d.team.qaTesters >= 0
    requires d.timeline.durationMonths >= 0
    ensures Estimate(d) <= Estimate(d.(features := d.features + [feature]))
    ensures Estimate(d) <= Estimate(d.(customFeatures := d.customFeatures + [custom]))
  {
    ComplexityNonNegative();
    TechMultiplierPositive(Complexity, d.technologies);
    var k := TeamMonthlyCost(d.team) as real * d.timeline.durationMonths as real * TechMultiplier(Complexity, d.technologies);
    assert k >= 0.0 by {
      assert TeamMonthlyCost(d.team) as real * d.timeline.durationMonths as real >= 0.0;
    }
    var f := FeatureComplexity(|d.features|, |d.customFeatures|);
    var d1 := d.(features := d.features + [feature]);
    var d2 := d.(customFeatures := d.customFeatures + [custom]);
    ScaleMonotone(f, FeatureComplexity(|d1.features|, |d1.customFeatures|), k);
    ScaleMonotone(f, FeatureComplexity(|d2.features|, |d2.customFeatures|), k);
    assert RawCost(d) == f * k;
    assert RawCost(d1) == FeatureComplexity(|d1.features|, |d1.customFeatures|) * k;
    assert RawCost(d2) == FeatureComplexity(|d2.features|, |d2.customFeatures|) * k;
    RoundMonotone(RawCost(d), RawCost(d1));
    RoundMonotone(RawCost(d), RawCost(d2));
  }

  /** One more additional service never lowers the technology multiplier: the other three
      factors are unchanged and positive, and the services factor grows by 0.05. */
  lemma TechMultiplierMonotoneInServices(tables: ComplexityTables, t: Technologies, service: string)
    requires NonNegative(tables)
    ensures TechMultiplier(tables, t)
            <= TechMultiplier(tables, t.(additionalServices := t.additionalServices + [service]))
  {
    var t' := t.(additionalServices := t.additionalServices + [service]);
    assert t'.frontend == t.frontend && t'.backend == t.backend && t'.database == t.database;
    CategoryFactorPositive(tables.frontend, t.frontend);
    CategoryFactorPositive(tables.backend, t.backend);
    LookupPositive(tables.database, t.database);
    ScaleMonotone3(CategoryFactor(tables.frontend, t.frontend), CategoryFactor(tables.backend, t.backend),
      DatabaseFactor(tables.database, t.database),
      ServicesFactor(|t.additionalServices|), ServicesFactor(|t'.additionalServices|));
  }

  lemma ScaleMonotone3(a: real, b: real, c: real, m: real, m': real)
    requires a >= 0.0 && b >= 0.0 && c >= 0.0 && m <= m'
    ensures a * b * c * m <= a * b * c * m'
  {
    assert a * b * c >= 0.0 by {
      assert a * b >= 0.0;
    }
    ScaleMonotoneLeft(a * b * c, m, m');
  }

  lemma BaseCostNonNegative(d: QuestionnaireData)
    requires d.team.developers >= 0 && d.team.designers >= 0
    requires d.team.projectManagers >= 0 && d.team.qaTesters >= 0
    requires d.timeline.durationMonths >= 0
    ensures BaseCost(d) >= 0.0
  {
    assert TeamMonthlyCost(d.team) as real * d.timeline.durationMonths as real >= 0.0;
  }

  /** One more additional service never lowers the unrounded estimate, whatever the
      (non-negative) tables. */
  lemma CostWithMonotoneInServices(tables: ComplexityTables, d: QuestionnaireData, service: string)
    requires NonNegative(tables)
    requires d.team.developers >= 0 && d.team.designers >= 0
    requires d.team.projectManagers >= 0 && d.team.qaTesters >= 0
    requires d.timeline.durationMonths >= 0
    ensures CostWith(tables, d)
            <= CostWith(tables, d.(technologies := d.technologies.(additionalServices := d.technologies.additionalServices + [service])))
  {
    var t := d.technologies;
    var t' := t.(additionalServices := t.additionalServices + [service]);
    TechMultiplierMonotoneInServices(tables, t, service);
    BaseCostNonNegative(d);
    ScaleMonotoneLeft(BaseCost(d), TechMultiplier(tables, t), TechMultiplier(tables, t'));
    assert BaseCost(d.(technologies := t')) == BaseCost(d);
  }

  /** One more additional service never lowers the estimate. */
  lemma EstimateMonotoneInServices(d: QuestionnaireData, service: string)
    requires d.team.developers >= 0 && d.team.designers >= 0
    requires d.team.projectManagers >= 0 && d.team.qaTesters >= 0
    requires d.timeline.durationMonths >= 0
    ensures Estimate(d) <= Estimate(d.(technologies := d.technologies.(additionalServices := d.technologies.additionalServices + [service])))
  {
    var d' := d.(technologies := d.technologies.(additionalServices := d.technologies.additionalServices + [service]));
    ComplexityNonNegative();
    CostWithMonotoneInServices(Complexity, d, service);
    RoundMonotone(RawCost(d), RawCost(d'));
  }

  /** The snapshot of the worked example: a 2/1/1/0 team for 3 months, two features,
      React, Node.js and PostgreSQL. */
  function WorkedExample(): QuestionnaireData {
    QuestionnaireData(
      ProjectBasics("MVP", "An MVP", "Finance", "Web Application"),
      ["User Profiles", "Password Reset"], [],
      Technologies(["React"], ["Node.js"], "PostgreSQL", "AWS", []),
      Team(2, 1, 1, 0),
      Timeline(3, "2025-01-01", []))
  }

  /** 32000 x 3 x 1.2 x (1.2 x 1.1 x 1.15) = 174873.6, which rounds to 175000. */
  lemma WorkedExampleEstimate()
    ensures RawCost(WorkedExample()) == 174873.6
    ensures Estimate(WorkedExample()) == 175000
  {
    var t := WorkedExample().technologies;
    assert Lookup(Complexity.frontend, "React") == 1.2;
    assert Lookup(Complexity.backend, "Node.js") == 1.1;
    assert Lookup(Complexity.database, "PostgreSQL") == 1.15;
    assert Sum(Multipliers(Complexity.frontend, t.frontend)) == 1.2 by {
      assert Multipliers(Complexity.frontend, t.frontend) == [1.2];
    }
    assert Sum(Multipliers(Complexity.backend, t.backend)) == 1.1 by {
      assert Multipliers(Complexity.backend, t.backend) == [1.1];
    }
    assert TechMultiplier(Complexity, t) == 1.518;
    assert TeamMonthlyCost(WorkedExample().team) == 32000;
    assert FeatureComplexity(2, 0) == 1.2;
    assert Round(174.8736) == 175;
  }

  /** One developer for one month with nothing selected costs exactly the developer rate. */
  lemma SingleDeveloperEstimate(today: string)
    ensures Estimate(InitialData(today).(team := Team(1, 0, 0, 0),
                                         timeline := Timeline(1, today, []))) == 8000
  {
    assert Round(8.0) == 8;
  }
}
