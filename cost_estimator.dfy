/** `calculateCost` as the form writes it: a multiplier accumulated with `*=` over the
    optional factors, then the product rounded to the nearest 1000. */
module CostEstimator {
  import opened Questionnaire
  import opened CostModel

  /** One `if (selected) { techMultiplier *= value }` step multiplies by the category's factor. */
  lemma FactorStep(before: real, after: real, selected: bool, value: real, factor: real)
    requires factor == (if selected then value else 1.0)
    requires after == (if selected then before * value else before)
    ensures after == before * factor
  {
  }

  /** The technology-multiplier part of `calculateCost()`: each optional factor is applied
      with `*=` only when its category has a selection. */
  method ComputeTechMultiplier(tables: ComplexityTables, t: Technologies) returns (techMultiplier: real)
    ensures techMultiplier == TechMultiplier(tables, t)
  {
    ghost var f1 := CategoryFactor(tables.frontend, t.frontend);
    ghost var f2 := CategoryFactor(tables.backend, t.backend);
    ghost var f3 := DatabaseFactor(tables.database, t.database);
    ghost var f4 := ServicesFactor(|t.additionalServices|);
    techMultiplier := 1.0;
    var frontendMultipliers := Multipliers(tables.frontend, t.frontend);
    if |t.frontend| > 0 {
      techMultiplier := techMultiplier * (Sum(frontendMultipliers) / |frontendMultipliers| as real);
    }
    FactorStep(1.0, techMultiplier, |t.frontend| > 0, f1, f1);
    assert techMultiplier == f1;
    var backendMultipliers := Multipliers(tables.backend, t.backend);
    ghost var afterFrontend := techMultiplier;
    if |t.backend| > 0 {
      techMultiplier := techMultiplier * (Sum(backendMultipliers) / |backendMultipliers| as real);
    }
    FactorStep(afterFrontend, techMultiplier, |t.backend| > 0, f2, f2);
    assert techMultiplier == f1 * f2;
    ghost var afterBackend := techMultiplier;
    if t.database != "" {
      techMultiplier := techMultiplier * Lookup(tables.database, t.database);
    }
    FactorStep(afterBackend, techMultiplier, t.database != "", Lookup(tables.database, t.database), f3);
    assert techMultiplier == f1 * f2 * f3;
    techMultiplier := techMultiplier * (1.0 + |t.additionalServices| as real * 0.05);
    assert techMultiplier == f1 * f2 * f3 * f4;
  }

  /** `calculateCost()`. */
  method CalculateCost(d: QuestionnaireData) returns (cost: int)
    ensures cost == Estimate(d)
    ensures cost % 1000 == 0
    ensures RawCost(d) - 500.0 < cost as real <= RawCost(d) + 500.0
  {
    var featureComplexity := 1.0 + |d.features| as real * 0.1 + |d.customFeatures| as real * 0.15;
    var teamMonthlyCost := d.team.developers * DeveloperRate + d.team.designers * DesignerRate
      + d.team.projectManagers * ProjectManagerRate + d.team.qaTesters * QaTesterRate;
    var techMultiplier := ComputeTechMultiplier(Complexity, d.technologies);
    var totalCost := teamMonthlyCost as real * d.timeline.durationMonths as real * featureComplexity * techMultiplier;
    assert totalCost == RawCost(d);
    cost := Round(totalCost / 1000.0) * 1000;
    RoundToThousandNearest(totalCost);
  }
}
