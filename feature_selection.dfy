/** The feature-selection step: checkbox toggles, custom features added from a text box,
    removal by index, and the `features` error they keep in step with the lists. */
module FeatureSelection {
  import opened Questionnaire
  import opened Lists
  import opened JsString

  const FeaturesKey: string := "features"
  const FeaturesRequired: string := "Select at least one feature or add a custom feature"

  /** The two lists, the custom-feature text box and the shared error map. */
  datatype Selection = Selection(features: seq<string>, customFeatures: seq<string>, draft: string, errors: Errors)

  /** `handleFeatureToggle(feature)`. */
  function ToggleFeature(s: Selection, feature: string): (r: Selection)
    ensures r.features == Toggle(s.features, feature)
    ensures r.customFeatures == s.customFeatures && r.draft == s.draft
    // The error is cleared as soon as either list is non-empty, and kept otherwise.
    ensures FeaturesKey in r.errors <==> FeaturesKey in s.errors && |r.features| == 0 && |r.customFeatures| == 0
    ensures OthersKept(s.errors, r.errors, FeaturesKey)
  {
    var newFeatures := Toggle(s.features, feature);
    var errors := if |newFeatures| > 0 || |s.customFeatures| > 0 then DeleteKey(s.errors, FeaturesKey) else s.errors;
    s.(features := newFeatures, errors := errors)
  }

  /** `addCustomFeature()`. */
  function AddCustomFeature(s: Selection): (r: Selection)
    ensures AllWhitespace(s.draft) ==> r == s
    ensures !AllWhitespace(s.draft) ==>
      && r.customFeatures == s.customFeatures + [Trim(s.draft)]
      && r.features == s.features
      && r.draft == ""
      && FeaturesKey !in r.errors
      && OthersKept(s.errors, r.errors, FeaturesKey)
  {
    TrimEmpty(s.draft);
    if Trim(s.draft) == "" then s
    else
      var updated := s.customFeatures + [Trim(s.draft)];
      var errors := if |s.features| > 0 || |updated| > 0 then DeleteKey(s.errors, FeaturesKey) else s.errors;
      s.(customFeatures := updated, draft := "", errors := errors)
  }

  /** An added custom feature neither starts nor ends with white space. */
  lemma AddedFeatureTrimmed(s: Selection)
    requires !AllWhitespace(s.draft)
    ensures var added := AddCustomFeature(s).customFeatures[|s.customFeatures|];
      added != "" && !IsWhitespace(added[0]) && !IsWhitespace(added[|added| - 1])
  {
    TrimEmpty(s.draft);
    TrimEnds(s.draft);
  }

  /** `removeCustomFeature(index)`. */
  function RemoveCustomFeature(s: Selection, index: int): (r: Selection)
    ensures 0 <= index < |s.customFeatures| ==>
      r.customFeatures == s.customFeatures[..index] + s.customFeatures[index + 1..]
    ensures !(0 <= index < |s.customFeatures|) ==> r.customFeatures == s.customFeatures
    ensures r.features == s.features && r.draft == s.draft
    // The error is raised once both lists are empty; otherwise the map is left alone.
    ensures |r.features| == 0 && |r.customFeatures| == 0 ==>
      FeaturesKey in r.errors && r.errors[FeaturesKey] == FeaturesRequired
    ensures !(|r.features| == 0 && |r.customFeatures| == 0) ==> r.errors == s.errors
    ensures OthersKept(s.errors, r.errors, FeaturesKey)
  {
    var updated := RemoveIndex(s.customFeatures, index);
    var errors := if |s.features| == 0 && |updated| == 0 then s.errors[FeaturesKey := FeaturesRequired] else s.errors;
    s.(customFeatures := updated, errors := errors)
  }

  /** The step's error shows only while both lists are empty, mirroring step 2's check. */
  predicate ErrorAgrees(s: Selection) {
    FeaturesKey in s.errors ==> |s.features| == 0 && |s.customFeatures| == 0
  }

  /** All three editors keep the displayed error in agreement with the lists. */
  lemma EditsKeepErrorAgreement(s: Selection, feature: string, index: int)
    requires ErrorAgrees(s)
    ensures ErrorAgrees(ToggleFeature(s, feature))
    ensures ErrorAgrees(AddCustomFeature(s))
    ensures ErrorAgrees(RemoveCustomFeature(s, index))
  {
  }

  /** Checking an unchecked feature and unchecking it again restores the list. */
  lemma ToggleFeatureTwice(s: Selection, feature: string)
    requires feature !in s.features
    ensures ToggleFeature(ToggleFeature(s, feature), feature).features == s.features
  {
    ToggleTwice(s.features, feature);
  }
}
