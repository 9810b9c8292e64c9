/** The facts each rendered control derives from the state: the value it
    shows, which radio option is checked, and whether an error line appears. */
module Render {
  import opened FormSchema
  import opened Validator

  /** The value bound to a text, email, select or textarea control (`value || ""`). */
  function ShownValue(values: map<string, string>, id: string): (r: string)
    ensures r == "" <==> Blank(values, id)
    ensures r != "" ==> id in values && r == values[id]
  {
    if id in values && values[id] != "" then values[id] else ""
  }

  /** A radio option is checked when the field's value is that option's value. */
  predicate IsChecked(values: map<string, string>, fieldId: string, option: Choice)
  {
    fieldId in values && values[fieldId] == option.value
  }

  /** Text, email, select and radio controls carry an error line; textarea does not. */
  predicate ShowsErrorLine(kind: FieldType)
  {
    match kind
    case Text => true
    case Email => true
    case Select => true
    case Radio => true
    case Textarea => false
  }

  /** The error text rendered under a control, if any. */
  function ErrorLine(f: FieldDef, errors: map<string, string>): Option<string>
  {
    if ShowsErrorLine(f.kind) && f.id in errors && errors[f.id] != "" then Some(errors[f.id]) else None
  }

  /** After a validation pass, every control except a textarea shows exactly
      its field's verdict; a textarea never shows one. */
  lemma ErrorLineShowsVerdict(fields: seq<FieldDef>, values: map<string, string>, engine: RegexTest, i: int)
    requires UniqueIds(fields) && 0 <= i < |fields|
    ensures ErrorLine(fields[i], Errors(fields, values, engine))
      == if fields[i].kind == Textarea then None else FieldError(fields[i], values, engine)
  {
    ErrorsAt(fields, values, engine, i);
    ErrorMessagesNonEmpty(fields, values, engine);
  }

  /** Distinct option values mean at most one option of a radio group is checked. */
  lemma AtMostOneChecked(values: map<string, string>, f: FieldDef, i: int, j: int)
    requires DistinctOptionValues(f)
    requires 0 <= i < |f.options| && 0 <= j < |f.options|
    ensures IsChecked(values, f.id, f.options[i]) && IsChecked(values, f.id, f.options[j]) ==> i == j
  {
  }

  /** Selecting option `k` of a radio group checks that option and no other. */
  lemma SelectingOptionChecksOnlyIt(values: map<string, string>, f: FieldDef, k: int, i: int)
    requires DistinctOptionValues(f)
    requires 0 <= k < |f.options| && 0 <= i < |f.options|
    ensures IsChecked(values[f.id := f.options[k].value], f.id, f.options[i]) <==> i == k
  {
    if IsChecked(values[f.id := f.options[k].value], f.id, f.options[i]) {
      AtMostOneChecked(values[f.id := f.options[k].value], f, i, k);
    }
  }
}
