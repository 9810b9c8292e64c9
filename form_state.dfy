/** The component's three pieces of state and its two event handlers, each
    handler one atomic step. */
module FormState {
  import opened FormSchema
  import opened Validator
  import SurveyScenarios
  import EmailPattern

  class FormGenerator {
    const fields: seq<FieldDef>
    const engine: RegexTest
    var formData: map<string, string>
    var errors: map<string, string>
    var isSubmitted: bool

    /** Errors only name schema fields, and a submitted form shows no errors. */
    ghost predicate Valid()
      reads this
    {
      && errors.Keys <= FieldIds(fields)
      && (isSubmitted ==> errors == map[])
    }

    /** The component as first rendered: the survey schema, no values, no errors. */
    constructor(engine: RegexTest)
      ensures Valid()
      ensures fields == Survey.fields && this.engine == engine
      ensures formData == map[] && errors == map[] && !isSubmitted
    {
      fields := Survey.fields;
      this.engine := engine;
      formData := map[];
      errors := map[];
      isSubmitted := false;
    }

    /** A control reports a new value under its field id. */
    method Change(name: string, value: string)
      requires Valid()
      modifies this`formData
      ensures Valid()
      ensures formData == old(formData)[name := value]
      ensures errors == old(errors) && isSubmitted == old(isSubmitted)
    {
      formData := formData[name := value];
    }

    /** A submit attempt: runs the validation pass, replaces the error map
        wholesale with its result and records whether it found no error. */
    method Submit()
      requires Valid()
      modifies this`errors, this`isSubmitted
      ensures Valid()
      ensures errors == Errors(fields, formData, engine)
      ensures isSubmitted <==> forall i :: 0 <= i < |fields| ==> FieldError(fields[i], formData, engine) == None
      ensures isSubmitted <==> errors == map[]
      ensures formData == old(formData)
    {
      var newErrors := CollectErrors(fields, formData, engine);
      ErrorKeysAreFieldIds(fields, formData, engine);
      ErrorsEmptyIff(fields, formData, engine);
      errors := newErrors;
      if |newErrors| == 0 {
        isSubmitted := true;
      } else {
        isSubmitted := false;
      }
    }
  }

  /** The survey round trip: an empty submit reports the company size, the
      error survives later edits, and the next complete submit succeeds. */
  method CompanySizeWalkthrough(engine: RegexTest)
  {
    var form := new FormGenerator(engine);
    form.Submit();
    SurveyScenarios.MissingCompanySizeReported(form.formData, engine);
    assert form.errors["companySize"] == "Company Size is required";
    assert !form.isSubmitted;

    form.Change("name", "Ada Lovelace");
    form.Change("email", "user@example.com");
    form.Change("companySize", "51-200");
    form.Change("industry", "tech");
    assert form.errors["companySize"] == "Company Size is required";

    ghost var filled := form.formData;
    EmailPattern.SampleAddressMatches();
    assert EmailPattern.Matches(filled["email"]);
    assert !Blank(filled, "name") && !Blank(filled, "companySize") && !Blank(filled, "industry");
    SurveyScenarios.SurveyAcceptedIff(filled, engine);
    form.Submit();
    assert form.isSubmitted && form.errors == map[];
  }
}
