# FormGenerator: schema-driven survey form

A model of the `FormGenerator` React component of the Dynamic-form repository. The
component renders a fixed five-field "Project Requirements Survey" and keeps three
pieces of state: the entered values (`formData`), the error map (`errors`) and the
submitted flag (`isSubmitted`). On submit it validates every field in schema order.
A required field that is absent or empty gets "{label} is required". Otherwise a field
with a pattern gets its configured message, or "{label} is invalid", when the pattern
rejects the value. The submit succeeds exactly when no field has an error.

Files and modules:

- `email_pattern.dfy` (`EmailPattern`): the schema's only regular expression,
  `^[^\s@]+@[^\s@]+\.[^\s@]+$`, as the concrete predicate `Matches`. `\s` is the
  ECMAScript white-space and line-terminator set. `Matches` is proved equal to
  `RegexShape`, a term-by-term reading of the pattern.
- `form_schema.dfy` (`FormSchema`): the field-definition datatypes and the survey
  constant `Survey`. JavaScript's `label` is the field `caption`, because `label` is
  a Dafny keyword.
- `validator.dfy` (`Validator`): one field's verdict (`FieldError`) and the
  specification of the pass, `Errors`. `Errors` folds the fields left to right, and a
  later field with the same id overwrites an earlier one, as `newErrors[field.id] = …`
  does. `CollectErrors` is the `forEach` loop, proved equal to `Errors`. Lemmas cover
  keys, messages and emptiness.
- `survey_scenarios.dfy` (`SurveyScenarios`): the pass applied to the survey schema.
- `form_state.dfy` (`FormState`): the class `FormGenerator` with the three state
  fields and the handlers `Change` (`handleChange`) and `Submit` (`handleSubmit`).
  `validate` is a closure that only `handleSubmit` calls, so its loop
  (`CollectErrors`) and its `setErrors` are steps inside `Submit`. `CompanySizeWalkthrough` is a client
  method. It submits an empty form, checks the company-size error, fills the form,
  checks that the error is still there, submits again and checks that the submit
  succeeds.
- `render.dfy` (`Render`): the derived facts `renderField` uses. These are the shown
  value, the radio `checked` flag and which controls print an error line.

Regular expressions other than the email pattern go to the JavaScript `RegExp`
engine, which is foreign code. Here that engine is a parameter,
`engine: (pattern, value) -> bool`. The survey never reaches it: its only pattern is
the email one, and `SurveyAcceptedIff` shows that the verdict does not depend on
`engine`.

`RegExp.test(formData[id])` receives `undefined` for a missing value, and JavaScript
turns it into the text `"undefined"`; `Validator.TestedValue` models that. This only
matters for a patterned field that is not required, and the survey has none.

## Model

| member | source | states |
|---|---|---|
| `EmailPattern.MatchesIffRegexShape` | FormGenerator.jsx:24 | `Matches(s)` holds exactly when `s` is `a@b.c` with `a`, `b`, `c` each a non-empty run of characters that are neither `@` nor white space, which is what the anchored pattern accepts |
| `EmailPattern.MatchHasOneAt` | FormGenerator.jsx:24 | a matching string has no white space and exactly one `@`, and the `@` is not the first character |
| `EmailPattern.SampleAddressMatches` | FormGenerator.jsx:24 | the pattern accepts `"user@example.com"` |
| `EmailPattern.NotAnEmailRejected` | FormGenerator.jsx:24 | the pattern rejects `"not-an-email"` |
| `FormSchema.SurveyWellFormed` | FormGenerator.jsx:6-61 | the survey's ids are unique and are exactly name, email, companySize, industry and comments; each field's options have distinct values; only the email field has a validation |
| `Validator.CollectErrors` | FormGenerator.jsx:77-90 | the loop over the fields returns exactly the error map `Errors(fields, values, engine)` |
| `Validator.ErrorKeysAreFieldIds` | FormGenerator.jsx:80-90 | every key of the error map is the id of some schema field |
| `Validator.ErrorMessagesNonEmpty` | FormGenerator.jsx:81-88 | every recorded message is a non-empty string |
| `Validator.ErrorsAt` | FormGenerator.jsx:80-90 | with unique ids, the map's entry for a field is present exactly when that field's verdict is an error, and it holds that message; at most one error per field |
| `Validator.ErrorsEmptyIff` | FormGenerator.jsx:80-93 | the map is empty, so `validate` returns true, exactly when no field has an error |
| `Validator.RequiredBlankIsReported` | FormGenerator.jsx:81-82 | a required field whose value is absent or `""` gets exactly "{label} is required", whatever its pattern and whatever the engine answers |
| `Validator.PatternVerdict` | FormGenerator.jsx:83-88 | a patterned field that passes the required check is in the map exactly when the pattern rejects the tested value; the message is the configured one when non-empty, otherwise "{label} is invalid" |
| `Validator.PlainOptionalNeverReported` | FormGenerator.jsx:80-90 | a field that is neither required nor patterned never appears in the map, whatever its value |
| `Validator.FilledUnpatternedAccepted` | FormGenerator.jsx:81-89 | a field with a non-empty value and no pattern never appears in the map |
| `SurveyScenarios.MalformedEmailReported` | FormGenerator.jsx:17-27 | with email `"not-an-email"` the email entry is "Please enter a valid email address" |
| `SurveyScenarios.WellFormedEmailAccepted` | FormGenerator.jsx:17-27 | with email `"user@example.com"` there is no email entry |
| `SurveyScenarios.MissingCompanySizeReported` | FormGenerator.jsx:28-39 | with no company size (or the blank option) the entry is "Company Size is required" |
| `SurveyScenarios.ChosenCompanySizeAccepted` | FormGenerator.jsx:28-39 | with company size `"51-200"` there is no companySize entry |
| `SurveyScenarios.SurveyAcceptedIff` | FormGenerator.jsx:9-61 | the survey's error map is empty exactly when name, email, company size and industry are non-empty and the email matches the pattern; the comments and the engine never matter |
| `FormState.FormGenerator.constructor` | FormGenerator.jsx:63-65 | initial state: the survey schema, no values, no errors, not submitted |
| `FormState.FormGenerator.Change` | FormGenerator.jsx:68-74 | sets `formData[name]` to the new value and leaves every other key, the error map and `isSubmitted` unchanged |
| `FormState.FormGenerator.Submit` | FormGenerator.jsx:77-105 | replaces the errors wholesale with the fresh map, leaving no stale entries, sets `isSubmitted` exactly when that map is empty, i.e. when every field passes, leaves `formData` unchanged, and keeps the invariant "error keys are field ids and a submitted form has no errors" |
| `Render.ShownValue` | FormGenerator.jsx:118 | the bound value (the stored value or `""`, also lines 133 and 175) is empty exactly when the field counts as blank, and is otherwise the stored value |
| `Render.ErrorLineShowsVerdict` | FormGenerator.jsx:123-181 | after a pass, text, email, select and radio controls show exactly the field's verdict; a textarea never shows an error line |
| `Render.AtMostOneChecked` | FormGenerator.jsx:151-164 | when a radio field's option values are distinct, at most one option is checked |
| `Render.SelectingOptionChecksOnlyIt` | FormGenerator.jsx:153-159 | after option `k`'s value is stored under the field id, option `i` is checked exactly when `i == k` |

`FieldError`, `Errors`, `IsChecked`, `ShowsErrorLine` and `ErrorLine` are the
specification functions. They follow FormGenerator.jsx:81-88, 80-90, 158 and
123/144/165, reading the JavaScript objects `formData` and `newErrors` as maps
(see the first line under "Left out"), and the lemmas above state their properties.

## Left out

- `Validator` reads `formData` and `newErrors` as plain maps, which assumes field ids
  that are not `Object.prototype` property names and patterns that compile. For an
  id such as `"constructor"` or `"toString"`, `!formData[id]` is false even when no
  value was entered, so the code reports no "is required" error. Assigning to
  `newErrors["__proto__"]` stores no key. `new RegExp(pattern)` throws on a pattern
  that does not compile, which aborts `handleSubmit`, while `engine` always answers.
  The survey's ids and its one pattern satisfy both assumptions.
- JSX markup, labels, placeholders, class names and `styles.css`: these are
  presentation. Only the shown value, the `checked` flag and the error-line rule are
  modelled.
- The `default: return null` branch of `renderField`: `FieldType` has only the five
  kinds the schema uses, so no field reaches that branch.
- React's `useState` and its asynchronous setter batching: each handler is one atomic
  step on the class's fields.
- `e.preventDefault()` and `console.log` in `handleSubmit`: these are DOM and I/O side
  effects.
- The general `RegExp` engine: it is foreign code and is the `engine` parameter. Only
  the email pattern is interpreted.
- `Change` accepts any name string, because `e.target.name` comes from the DOM. The
  rendered controls only ever send the field ids.
