/** The validation pass: one verdict per field, folded in schema order into
    an error map keyed by field id. */
module Validator {
  import opened FormSchema
  import EmailPattern

  /** The regular-expression engine, `new RegExp(pattern).test(value)`, for
      every pattern other than the email one, which is modelled concretely. */
  type RegexTest = (string, string) -> bool

  /** A value the required check treats as missing: absent, or the empty string. */
  predicate Blank(values: map<string, string>, id: string)
  {
    id !in values || values[id] == ""
  }

  /** A field whose validation carries a non-empty pattern. */
  predicate HasPattern(f: FieldDef)
  {
    f.validation.Some? && f.validation.value.pattern != ""
  }

  /** The string the pattern is tested against: an absent value reaches the
      engine as the text "undefined". */
  function TestedValue(values: map<string, string>, id: string): string
  {
    if id in values then values[id] else "undefined"
  }

  predicate PatternAccepts(pattern: string, value: string, engine: RegexTest)
  {
    if pattern == EmailPattern.Source then EmailPattern.Matches(value) else engine(pattern, value)
  }

  function RequiredMessage(caption: string): string
  {
    caption + " is required"
  }

  /** The configured message, or the generic one when that is empty. */
  function InvalidMessage(f: FieldDef): string
    requires f.validation.Some?
  {
    if f.validation.value.message != "" then f.validation.value.message else f.caption + " is invalid"
  }

  /** The error one field contributes, if any. */
  function FieldError(f: FieldDef, values: map<string, string>, engine: RegexTest): Option<string>
  {
    if f.required && Blank(values, f.id) then Some(RequiredMessage(f.caption))
    else if HasPattern(f) && !PatternAccepts(f.validation.value.pattern, TestedValue(values, f.id), engine) then
      Some(InvalidMessage(f))
    else None
  }

  /** The error map after visiting `fields` in order; a later field with the
      same id overwrites an earlier entry. */
  function Errors(fields: seq<FieldDef>, values: map<string, string>, engine: RegexTest): map<string, string>
  {
    if fields == [] then map[]
    else
      var f := fields[|fields| - 1];
      var m := Errors(fields[..|fields| - 1], values, engine);
      match FieldError(f, values, engine)
      case Some(msg) => m[f.id := msg]
      case None => m
  }

  function Lookup(m: map<string, string>, k: string): Option<string>
  {
    if k in m then Some(m[k]) else None
  }

  /** The validation loop: builds the error map field by field. */
  method CollectErrors(fields: seq<FieldDef>, values: map<string, string>, engine: RegexTest)
    returns (newErrors: map<string, string>)
    ensures newErrors == Errors(fields, values, engine)
  {
    newErrors := map[];
    for i := 0 to |fields|
      invariant newErrors == Errors(fields[..i], values, engine)
    {
      var f := fields[i];
      if f.required && Blank(values, f.id) {
        newErrors := newErrors[f.id := RequiredMessage(f.caption)];
      } else if HasPattern(f) && !PatternAccepts(f.validation.value.pattern, TestedValue(values, f.id), engine) {
        newErrors := newErrors[f.id := InvalidMessage(f)];
      }
      assert fields[..i + 1][..i] == fields[..i];
    }
    assert fields[..|fields|] == fields;
  }

  /** Every key of the error map is the id of some field. */
  lemma {:induction false} ErrorKeysAreFieldIds(fields: seq<FieldDef>, values: map<string, string>, engine: RegexTest)
    ensures Errors(fields, values, engine).Keys <= FieldIds(fields)
  {
    if fields != [] {
      var init := fields[..|fields| - 1];
      ErrorKeysAreFieldIds(init, values, engine);
      assert FieldIds(init) <= FieldIds(fields) by {
        forall k | k in FieldIds(init) ensures k in FieldIds(fields) {
          var i :| 0 <= i < |init| && init[i].id == k;
          assert fields[i].id == k;
        }
      }
      assert fields[|fields| - 1].id in FieldIds(fields);
    }
  }

  /** Every recorded message is non-empty, so the error line is always shown. */
  lemma {:induction false} ErrorMessagesNonEmpty(fields: seq<FieldDef>, values: map<string, string>, engine: RegexTest)
    ensures forall k :: k in Errors(fields, values, engine) ==> Errors(fields, values, engine)[k] != ""
  {
    if fields != [] {
      ErrorMessagesNonEmpty(fields[..|fields| - 1], values, engine);
      var f := fields[|fields| - 1];
      assert |RequiredMessage(f.caption)| > 0;
      if f.validation.Some? {
        assert |InvalidMessage(f)| > 0;
      }
    }
  }

  /** With unique ids, a field's entry in the error map is exactly its own verdict. */
  lemma {:induction false} ErrorsAt(fields: seq<FieldDef>, values: map<string, string>, engine: RegexTest, i: int)
    requires UniqueIds(fields) && 0 <= i < |fields|
    ensures Lookup(Errors(fields, values, engine), fields[i].id) == FieldError(fields[i], values, engine)
  {
    var n := |fields| - 1;
    var init := fields[..n];
    assert UniqueIds(init);
    if i == n {
      ErrorKeysAreFieldIds(init, values, engine);
      assert fields[i].id !in FieldIds(init);
    } else {
      ErrorsAt(init, values, engine, i);
      assert init[i] == fields[i];
      assert fields[n].id != fields[i].id;
    }
  }

  /** The map is empty exactly when no field has an error. */
  lemma {:induction false} ErrorsEmptyIff(fields: seq<FieldDef>, values: map<string, string>, engine: RegexTest)
    ensures Errors(fields, values, engine) == map[]
      <==> forall i :: 0 <= i < |fields| ==> FieldError(fields[i], values, engine) == None
  {
    if fields != [] {
      var n := |fields| - 1;
      var init := fields[..n];
      ErrorsEmptyIff(init, values, engine);
      assert forall i :: 0 <= i < n ==> init[i] == fields[i];
      if FieldError(fields[n], values, engine) != None {
        assert fields[n].id in Errors(fields, values, engine);
      }
    }
  }

  /** A required field that is absent or empty gets the "is required" message,
      whatever its pattern and whatever the engine answers. */
  lemma RequiredBlankIsReported(fields: seq<FieldDef>, values: map<string, string>, engine: RegexTest, i: int)
    requires UniqueIds(fields) && 0 <= i < |fields|
    requires fields[i].required && Blank(values, fields[i].id)
    ensures fields[i].id in Errors(fields, values, engine)
    ensures Errors(fields, values, engine)[fields[i].id] == fields[i].caption + " is required"
  {
    ErrorsAt(fields, values, engine, i);
  }

  /** A patterned field that passes the required check is flagged exactly when
      its pattern rejects the tested value, with the configured message or,
      when that is empty, "{caption} is invalid". */
  lemma PatternVerdict(fields: seq<FieldDef>, values: map<string, string>, engine: RegexTest, i: int)
    requires UniqueIds(fields) && 0 <= i < |fields|
    requires HasPattern(fields[i]) && !(fields[i].required && Blank(values, fields[i].id))
    ensures fields[i].id in Errors(fields, values, engine)
      <==> !PatternAccepts(fields[i].validation.value.pattern, TestedValue(values, fields[i].id), engine)
    ensures fields[i].id in Errors(fields, values, engine) ==>
      Errors(fields, values, engine)[fields[i].id]
        == (if fields[i].validation.value.message != "" then fields[i].validation.value.message
            else fields[i].caption + " is invalid")
  {
    ErrorsAt(fields, values, engine, i);
  }

  /** A field that is neither required nor patterned never has an error. */
  lemma PlainOptionalNeverReported(fields: seq<FieldDef>, values: map<string, string>, engine: RegexTest, i: int)
    requires UniqueIds(fields) && 0 <= i < |fields|
    requires !fields[i].required && !HasPattern(fields[i])
    ensures fields[i].id !in Errors(fields, values, engine)
  {
    ErrorsAt(fields, values, engine, i);
  }

  /** A field with a non-empty value and no pattern never has an error. */
  lemma FilledUnpatternedAccepted(fields: seq<FieldDef>, values: map<string, string>, engine: RegexTest, i: int)
    requires UniqueIds(fields) && 0 <= i < |fields|
    requires !Blank(values, fields[i].id) && !HasPattern(fields[i])
    ensures fields[i].id !in Errors(fields, values, engine)
  {
    ErrorsAt(fields, values, engine, i);
  }
}
