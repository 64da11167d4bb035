/** The technology-stack step: frontend, backend and service toggles, the database and
    hosting choices, and the errors each of them clears. */
module TechnologyStack {
  import opened Questionnaire
  import opened Lists
  import opened CostModel

  const FrontendOptions: seq<string> := ["React", "Angular", "Vue", "Next.js", "Plain HTML/CSS/JS"]
  const BackendOptions: seq<string> := ["Node.js", "Python", "Ruby on Rails", "PHP", "Java", ".NET", "Go"]
  const DatabaseOptions: seq<string> := ["MongoDB", "PostgreSQL", "MySQL", "Firebase", "SQL Server"]

  /** `handleFrontendToggle(tech)`. */
  function ToggleFrontend(t: Technologies, errors: Errors, tech: string): (r: (Technologies, Errors))
    ensures r.0 == t.(frontend := Toggle(t.frontend, tech))
    // The error goes only when the new list is non-empty; emptying the list adds none.
    ensures |r.0.frontend| > 0 ==> "frontend" !in r.1 && OthersKept(errors, r.1, "frontend")
    ensures |r.0.frontend| == 0 ==> r.1 == errors
  {
    var newFrontend := Toggle(t.frontend, tech);
    (t.(frontend := newFrontend), if |newFrontend| > 0 then DeleteKey(errors, "frontend") else errors)
  }

  /** `handleBackendToggle(tech)`. */
  function ToggleBackend(t: Technologies, errors: Errors, tech: string): (r: (Technologies, Errors))
    ensures r.0 == t.(backend := Toggle(t.backend, tech))
    ensures |r.0.backend| > 0 ==> "backend" !in r.1 && OthersKept(errors, r.1, "backend")
    ensures |r.0.backend| == 0 ==> r.1 == errors
  {
    var newBackend := Toggle(t.backend, tech);
    (t.(backend := newBackend), if |newBackend| > 0 then DeleteKey(errors, "backend") else errors)
  }

  /** `handleDatabaseChange(value)`: the error key is deleted whatever the value. */
  function SetDatabase(t: Technologies, errors: Errors, value: string): (r: (Technologies, Errors))
    ensures r.0 == t.(database := value)
    ensures "database" !in r.1 && OthersKept(errors, r.1, "database")
  {
    (t.(database := value), DeleteKey(errors, "database"))
  }

  /** `handleHostingChange(value)`. */
  function SetHosting(t: Technologies, errors: Errors, value: string): (r: (Technologies, Errors))
    ensures r.0 == t.(hosting := value)
    ensures "hosting" !in r.1 && OthersKept(errors, r.1, "hosting")
  {
    (t.(hosting := value), DeleteKey(errors, "hosting"))
  }

  /** `handleAdditionalServiceToggle(service)`: errors are not touched. */
  function ToggleService(t: Technologies, service: string): (r: Technologies)
    ensures r == t.(additionalServices := Toggle(t.additionalServices, service))
    ensures service in r.additionalServices <==> service !in t.additionalServices
  {
    ToggleMembership(t.additionalServices, service);
    t.(additionalServices := Toggle(t.additionalServices, service))
  }

  /** Each toggle flips the membership of its item and keeps every other selected item. */
  lemma ToggleFlipsMembership(t: Technologies, errors: Errors, tech: string)
    ensures tech in ToggleFrontend(t, errors, tech).0.frontend <==> tech !in t.frontend
    ensures tech in ToggleBackend(t, errors, tech).0.backend <==> tech !in t.backend
    ensures forall x | x in t.frontend && x != tech :: x in ToggleFrontend(t, errors, tech).0.frontend
    ensures forall x | x in t.backend && x != tech :: x in ToggleBackend(t, errors, tech).0.backend
  {
    ToggleMembership(t.frontend, tech);
    ToggleMembership(t.backend, tech);
  }

  /** Every option the step offers has its own entry in the estimator's tables, so the
      fallback multiplier 1 is reached only by names the step does not offer. */
  lemma OptionsHaveMultipliers()
    ensures forall o | o in FrontendOptions :: o in Complexity.frontend
    ensures forall o | o in BackendOptions :: o in Complexity.backend
    ensures forall o | o in DatabaseOptions :: o in Complexity.database
  {
  }
}
