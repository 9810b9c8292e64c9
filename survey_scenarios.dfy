/** What one validation pass yields on the survey schema itself. */
module SurveyScenarios {
  import opened FormSchema
  import opened Validator
  import EmailPattern

  /** A filled email field that the pattern rejects carries the configured message. */
  lemma MalformedEmailReported(values: map<string, string>, engine: RegexTest)
    requires "email" in values && values["email"] == "not-an-email"
    ensures Lookup(Errors(Survey.fields, values, engine), "email") == Some("Please enter a valid email address")
  {
    SurveyWellFormed();
    EmailPattern.NotAnEmailRejected();
    ErrorsAt(Survey.fields, values, engine, 1);
  }

  /** A well-formed address leaves the email field without an error. */
  lemma WellFormedEmailAccepted(values: map<string, string>, engine: RegexTest)
    requires "email" in values && values["email"] == "user@example.com"
    ensures "email" !in Errors(Survey.fields, values, engine)
  {
    SurveyWellFormed();
    EmailPattern.SampleAddressMatches();
    ErrorsAt(Survey.fields, values, engine, 1);
  }

  /** No company size chosen (or the blank "Select an option" entry): the
      select reports "Company Size is required". */
  lemma MissingCompanySizeReported(values: map<string, string>, engine: RegexTest)
    requires Blank(values, "companySize")
    ensures Lookup(Errors(Survey.fields, values, engine), "companySize") == Some("Company Size is required")
  {
    SurveyWellFormed();
    ErrorsAt(Survey.fields, values, engine, 2);
    assert RequiredMessage("Company Size") == "Company Size is required";
  }

  /** Choosing "51-200" clears the company size error on the next pass. */
  lemma ChosenCompanySizeAccepted(values: map<string, string>, engine: RegexTest)
    requires "companySize" in values && values["companySize"] == "51-200"
    ensures "companySize" !in Errors(Survey.fields, values, engine)
  {
    SurveyWellFormed();
    ErrorsAt(Survey.fields, values, engine, 2);
  }

  /** A survey passes validation exactly when the four required fields are
      filled and the email matches its pattern; the comments never matter,
      and neither does the regular-expression engine. */
  lemma SurveyAcceptedIff(values: map<string, string>, engine: RegexTest)
    ensures Errors(Survey.fields, values, engine) == map[]
      <==> && !Blank(values, "name")
           && !Blank(values, "email") && EmailPattern.Matches(values["email"])
           && !Blank(values, "companySize")
           && !Blank(values, "industry")
  {
    var fs := Survey.fields;
    ErrorsEmptyIff(fs, values, engine);
    assert FieldError(fs[0], values, engine) == None <==> !Blank(values, "name");
    assert FieldError(fs[1], values, engine) == None
      <==> !Blank(values, "email") && EmailPattern.Matches(values["email"]);
    assert FieldError(fs[2], values, engine) == None <==> !Blank(values, "companySize");
    assert FieldError(fs[3], values, engine) == None <==> !Blank(values, "industry");
    assert FieldError(fs[4], values, engine) == None;
    assert |fs| == 5;
  }
}
