/** The declarative form description: field definitions and the fixed
    "Project Requirements Survey" schema the component is built with. */
module FormSchema {
  import EmailPattern

  datatype Option<+T> = None | Some(value: T)

  /** The control kinds the schema uses. */
  datatype FieldType = Text | Email | Select | Radio | Textarea

  /** One entry of a select or radio field. */
  datatype Choice = Choice(value: string, caption: string)

  /** A regular-expression source and the message shown when it fails. */
  datatype Validation = Validation(pattern: string, message: string)

  /** A field definition; an absent `options` list is the empty sequence. */
  datatype FieldDef = FieldDef(
    id: string,
    kind: FieldType,
    caption: string,
    required: bool,
    placeholder: Option<string>,
    options: seq<Choice>,
    validation: Option<Validation>)

  datatype Schema = Schema(title: string, description: string, fields: seq<FieldDef>)

  const NameField: FieldDef :=
    FieldDef("name", Text, "Full Name", true, Some("Enter your full name"), [], None)

  const EmailField: FieldDef :=
    FieldDef("email", Email, "Email Address", true, Some("you@example.com"), [],
      Some(Validation(EmailPattern.Source, "Please enter a valid email address")))

  const CompanySizeField: FieldDef :=
    FieldDef("companySize", Select, "Company Size", true, None,
      [ Choice("1-50", "1-50 employees"),
        Choice("51-200", "51-200 employees"),
        Choice("201-1000", "201-1000 employees"),
        Choice("1000+", "1000+ employees") ],
      None)

  const IndustryField: FieldDef :=
    FieldDef("industry", Radio, "Industry", true, None,
      [ Choice("tech", "Technology"),
        Choice("healthcare", "Healthcare"),
        Choice("finance", "Finance"),
        Choice("retail", "Retail"),
        Choice("other", "Other") ],
      None)

  const CommentsField: FieldDef :=
    FieldDef("comments", Textarea, "Additional Comments", false,
      Some("Any other details you'd like to share..."), [], None)

  const Survey: Schema :=
    Schema("Project Requirements Survey",
      "Please fill out this survey about your project needs",
      [NameField, EmailField, CompanySizeField, IndustryField, CommentsField])

  /** No two fields share an id. */
  predicate UniqueIds(fields: seq<FieldDef>)
  {
    forall i, j :: 0 <= i < j < |fields| ==> fields[i].id != fields[j].id
  }

  /** No two options of a field share a value. */
  predicate DistinctOptionValues(f: FieldDef)
  {
    forall i, j :: 0 <= i < j < |f.options| ==> f.options[i].value != f.options[j].value
  }

  function FieldIds(fields: seq<FieldDef>): set<string>
  {
    set i | 0 <= i < |fields| :: fields[i].id
  }

  /** The survey's ids are unique, its choice lists have distinct values, and
      only the email field carries a pattern. */
  lemma SurveyWellFormed()
    ensures UniqueIds(Survey.fields)
    ensures forall i :: 0 <= i < |Survey.fields| ==> DistinctOptionValues(Survey.fields[i])
    ensures forall i :: 0 <= i < |Survey.fields| && Survey.fields[i].validation.Some? ==> Survey.fields[i] == EmailField
    ensures FieldIds(Survey.fields) == {"name", "email", "companySize", "industry", "comments"}
  {
    var fs := Survey.fields;
    assert FieldIds(fs) == {"name", "email", "companySize", "industry", "comments"} by {
      assert fs[0].id == "name" && fs[1].id == "email" && fs[2].id == "companySize";
      assert fs[3].id == "industry" && fs[4].id == "comments";
    }
  }
}
