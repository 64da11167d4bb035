/** The project-basics step: a single-field update that clears that field's error. */
module ProjectBasicsStep {
  import opened Questionnaire
  import QuestionnaireForm

  datatype BasicsField = ProjectName | ProjectDescription | IndustryType | ProjectType

  /** The property name, which is also the field's error key. */
  function FieldKey(f: BasicsField): string {
    match f
    case ProjectName => "projectName"
    case ProjectDescription => "projectDescription"
    case IndustryType => "industryType"
    case ProjectType => "projectType"
  }

  function Get(pb: ProjectBasics, f: BasicsField): string {
    match f
    case ProjectName => pb.projectName
    case ProjectDescription => pb.projectDescription
    case IndustryType => pb.industryType
    case ProjectType => pb.projectType
  }

  /** `{ ...data, [field]: value }`. */
  function Set(pb: ProjectBasics, f: BasicsField, value: string): (r: ProjectBasics)
    ensures Get(r, f) == value
    ensures forall g: BasicsField | g != f :: Get(r, g) == Get(pb, g)
  {
    match f
    case ProjectName => pb.(projectName := value)
    case ProjectDescription => pb.(projectDescription := value)
    case IndustryType => pb.(industryType := value)
    case ProjectType => pb.(projectType := value)
  }

  /** Distinct fields have distinct error keys. */
  lemma FieldKeyInjective(f: BasicsField, g: BasicsField)
    ensures FieldKey(f) == FieldKey(g) <==> f == g
  {
  }

  /** `handleChange(field, value)`: the new project basics and the new error map. */
  function HandleChange(pb: ProjectBasics, errors: Errors, f: BasicsField, value: string): (r: (ProjectBasics, Errors))
    ensures Get(r.0, f) == value
    ensures forall g: BasicsField | g != f :: Get(r.0, g) == Get(pb, g)
    // The field's error goes when it is shown; nothing else in the map changes.
    ensures !HasError(r.1, FieldKey(f))
    ensures HasError(errors, FieldKey(f)) ==> FieldKey(f) !in r.1
    ensures OthersKept(errors, r.1, FieldKey(f))
    ensures !HasError(errors, FieldKey(f)) ==> r.1 == errors
  {
    var newData := Set(pb, f, value);
    if HasError(errors, FieldKey(f)) then (newData, DeleteKey(errors, FieldKey(f))) else (newData, errors)
  }

  /** Filling a field in clears its error, and step 1's validation then reports nothing for
      that field while its verdict on the other three fields is unchanged. */
  lemma FilledFieldPasses(d: QuestionnaireData, errors: Errors, f: BasicsField, value: string)
    requires value != ""
    ensures var d' := d.(projectBasics := HandleChange(d.projectBasics, errors, f, value).0);
      && !HasError(HandleChange(d.projectBasics, errors, f, value).1, FieldKey(f))
      && FieldKey(f) !in QuestionnaireForm.StepErrors(d', 1)
      && forall g: BasicsField | g != f ::
           (FieldKey(g) in QuestionnaireForm.StepErrors(d', 1) <==> FieldKey(g) in QuestionnaireForm.StepErrors(d, 1))
  {
    var d' := d.(projectBasics := HandleChange(d.projectBasics, errors, f, value).0);
    QuestionnaireForm.BasicsErrors(d');
    QuestionnaireForm.BasicsErrors(d);
    forall g: BasicsField | g != f
      ensures FieldKey(g) in QuestionnaireForm.StepErrors(d', 1) <==> FieldKey(g) in QuestionnaireForm.StepErrors(d, 1)
    {
      assert Get(d'.projectBasics, g) == Get(d.projectBasics, g);
      match g
      case ProjectName =>
      case ProjectDescription =>
      case IndustryType =>
      case ProjectType =>
    }
    match f
    case ProjectName =>
    case ProjectDescription =>
    case IndustryType =>
    case ProjectType =>
  }
}
