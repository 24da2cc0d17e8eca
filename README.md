# DinoSpace registration wizard, modelled in Dafny

This project models the controller of DinoSpace's eight-step registration form,
`TestComponent`. The controller holds three pieces of state:

- the current `step` (1..8);
- the `formData` record with eleven fields: name, age, gender, e-mail, cycle,
  emotional state, sleep hours, activity, motivation, password and confirmation;
- the `errors` map from field to message, where an empty or absent message means
  no error.

The model covers the controller's handlers:

- the progress bar;
- the key and paste filters of the name field;
- the live validators for age, e-mail, password and confirmation;
- error clearing when a field is edited;
- the per-step gate, forward and backward navigation, and submission.

Layout, one module per concern:

- `wrappers.dfy` (`Wrappers`): `Option`, used for the nullable age.
- `text.dfy` (`Text`): JavaScript's whitespace class `\s` (the ECMAScript WhiteSpace and
  LineTerminator code points, which `trim` also strips), `trim`, occurrence counting.
- `name_input.dfy` (`NameInput`): the name field's allow-list
  `[a-zA-ZáéíóúÁÉÍÓÚñÑ\s]`, the key test and the paste filter.
- `email.dfy` (`Email`): the pattern `^[^\s@]+@[^\s@]+\.[^\s@]+$`, read literally as a
  split into local part, `@`, label, `.`, tail. It is proved equivalent to a plain
  description: exactly one `@`, no whitespace, a non-empty local part, and a domain
  with a dot that is neither its first nor its last character.
- `form.dfy` (`Form`): the record, the messages (verbatim, in Spanish), the live checks
  and the gate rules as functions. It also defines `GateErrors`, which says how the
  gate rewrites the error map.
- `progress.dfy` (`Progress`): the per-step field-count table, the filled-field
  count and the percentage, in exact `real` arithmetic.
- `component.dfy` (`Component`): the class `TestComponent`. Its fields `step`,
  `formData` and `errors` are updated in place by methods whose frames name exactly
  the fields they write.
- `scenarios.dfy` (`Scenarios`): client runs proved from the contracts alone.
  - An empty name blocks step 1.
  - Going back from step 5 changes nothing else.
  - Valid steps 1 and 2 advance to step 3.
  - At step 8, matching strong passwords fill the bar and submit.

Quirks of the code that the model keeps as written:

- **A passing field keeps its old message.** At steps 1–7 the gate only ever sets
  messages and never clears the message of a passing field. `GateErrors` and
  `Form.PassingGateKeepsErrors` state this: a passing gate at steps 1–7 leaves the
  error map exactly as it was.
- **A refused submission still writes messages.** Submission re-runs the gate, which
  records its messages even when the submission is refused.
- **Age 0 counts as missing at the gate.** The gate tests age by truthiness. The live
  check reports 0 as too young (`Form.AgeChecksAgree`).
- **Empty passwords pass step 8.** With both password fields empty the gate sets no
  message and passes, so submission succeeds (`Form.EmptyPasswordsPass`).
- **No cascade for an empty password.** The live password check returns before the
  confirmation cascade when the password is empty.
- **Multi-character keys are refused.** The key filter refuses every key that is not
  a single allowed character, named keys such as `Backspace` included.

## Model

| member | source | states |
|---|---|---|
| Text.Trim | frontend-dinospace/src/app/components/test/test.component.ts:206 | the trimmed name is empty exactly when the name is all whitespace; otherwise it starts and ends with a non-whitespace character |
| Text.TrimIsInnerSlice | frontend-dinospace/src/app/components/test/test.component.ts:206 | the trimmed string is one contiguous slice of the original, and everything before and after it is whitespace |
| NameInput.OnlyLetters | frontend-dinospace/src/app/components/test/test.component.ts:127-130 | a key is accepted exactly when it is one character from the allow-list |
| NameInput.FilterName | frontend-dinospace/src/app/components/test/test.component.ts:132-137 | the cleaned paste holds only allowed characters and is a subsequence of the pasted text |
| NameInput.FilterNameAppend | frontend-dinospace/src/app/components/test/test.component.ts:135 | filtering a concatenation is the concatenation of the filtered parts |
| NameInput.FilterNameKeepsAllowed | frontend-dinospace/src/app/components/test/test.component.ts:135 | every allowed character occurs as often after filtering as before (only disallowed ones are removed) |
| NameInput.FilterNameIdentity | frontend-dinospace/src/app/components/test/test.component.ts:135 | the filter leaves a text unchanged exactly when all its characters are allowed |
| NameInput.KeyFilterAgreesWithPasteFilter | frontend-dinospace/src/app/components/test/test.component.ts:127-137 | a key is accepted exactly when it is one character that the paste filter keeps |
| Email.EmailShapeIffPattern | frontend-dinospace/src/app/components/test/test.component.ts:156 | `MatchesEmailPattern`, the regular expression of lines 156 and 212 read literally, accepts exactly the strings with one `@`, no whitespace, a non-empty local part and a domain with an inner dot |
| Email.PatternExamples | frontend-dinospace/src/app/components/test/test.component.ts:156-159 | `a@b.c` and the message's `usuario@email.com` match; `abc`, `a@b` and `a b@c.d` do not |
| Form.AgeLiveError | frontend-dinospace/src/app/components/test/test.component.ts:139-148 | no message for a missing age or one in 17..65; "at least 17" below 17, "under 66" above 65 |
| Form.EmailLiveError | frontend-dinospace/src/app/components/test/test.component.ts:150-160 | no message exactly when the address is empty or matches the pattern; otherwise the format message |
| Form.PasswordError | frontend-dinospace/src/app/components/test/test.component.ts:162-171 | no message exactly when the password is empty or has length >= 6, an upper-case letter and a digit; otherwise the first failing check in the order length, upper case, digit |
| Form.ConfirmError | frontend-dinospace/src/app/components/test/test.component.ts:176-184 | a message exactly when a confirmation is entered and differs from the password |
| Form.StepFields | frontend-dinospace/src/app/components/test/test.component.ts:204-236 | exactly the steps 1..8 have fields to check |
| Form.AgeGateError | frontend-dinospace/src/app/components/test/test.component.ts:207-208 | the gate accepts the age exactly when it is truthy (not null, not 0) and within 17..65; a falsy age gets the "required" message, a truthy one outside 17..65 the range message |
| Form.EmailGateError | frontend-dinospace/src/app/components/test/test.component.ts:212-214 | the gate accepts the address exactly when it is non-empty and matches the pattern; an empty address gets the "required" message, a non-matching one the "invalid" message |
| Form.StepValidIffNoMessage | frontend-dinospace/src/app/components/test/test.component.ts:194-238 | `StepValid`, the `valid` verdict of lines 204-236 (trimmed name, truthy age in range, gender; e-mail; one selection per step 3..7; both password checks), holds exactly when no field of the step gets a gate message |
| Form.GateFailureIsReported | frontend-dinospace/src/app/components/test/test.component.ts:199-202 | after a refused gate, some field of that step shows a message |
| Form.PassingGateKeepsErrors | frontend-dinospace/src/app/components/test/test.component.ts:199-202 | at steps 1..7 a passing gate leaves the error map exactly as it was (stale messages are not cleared) |
| Form.PasswordGateErrors | frontend-dinospace/src/app/components/test/test.component.ts:231-235 | after the step-8 gate the two password slots hold the live checks' messages, and the step passes exactly when both are empty |
| Form.AgeChecksAgree | frontend-dinospace/src/app/components/test/test.component.ts:139-208 | for an entered non-zero age the live check and the gate agree; 0 is too young live but missing at the gate; null is silent live but missing at the gate |
| Form.EmailChecksAgree | frontend-dinospace/src/app/components/test/test.component.ts:150-214 | the gate accepts an address exactly when it is non-empty and the live check is silent |
| Form.EmptyPasswordsPass | frontend-dinospace/src/app/components/test/test.component.ts:162-184 | with both password fields empty step 8 passes and neither field gets a message |
| Form.PasswordExamples | frontend-dinospace/src/app/components/test/test.component.ts:162-184 | `abc123` lacks an upper-case letter, `Abcdef` a digit, `Ab` is too short, `Abcdef1` passes; equal confirmation passes, a different one mismatches |
| Progress.TotalFields | frontend-dinospace/src/app/components/test/test.component.ts:78-90 | the table gives 1..3 fields per step, and for every step 1..8 exactly the number of fields the gate checks at that step |
| Progress.CountFilledBound | frontend-dinospace/src/app/components/test/test.component.ts:92-125 | the filled count never exceeds the number of fields, and equals it exactly when all are filled |
| Progress.ProgressMonotone | frontend-dinospace/src/app/components/test/test.component.ts:70-76 | filling more fields of the step never lowers the percentage |
| Progress.ProgressBand | frontend-dinospace/src/app/components/test/test.component.ts:70-76 | at step s in 1..8 the percentage lies between (s-1)*12.5 and s*12.5, hence within 0..100 |
| Progress.ProgressFullIff | frontend-dinospace/src/app/components/test/test.component.ts:70-125 | the bar shows 100 exactly at step 8 with both password fields filled |
| Component.TestComponent.constructor | frontend-dinospace/src/app/components/test/test.component.ts:43-59 | a new wizard is at step 1 with an empty record and no errors |
| Component.TestComponent.GetCompletedFieldsForCurrentStep | frontend-dinospace/src/app/components/test/test.component.ts:92-125 | the counter equals the number of filled fields among those the gate checks at this step, and is at most the table's total |
| Component.TestComponent.ProgressPercentage | frontend-dinospace/src/app/components/test/test.component.ts:70-76 | the value is `Percentage` of the current state (`ProgressOf`, the formula of lines 70-76, on the counter and the table), at most 100, and at least 0 whenever the step is in 1..8 |
| Component.TestComponent.OnPaste | frontend-dinospace/src/app/components/test/test.component.ts:132-137 | the name becomes the old name followed by the filtered paste (the old name is a prefix); nothing else changes |
| Component.TestComponent.ValidateAge | frontend-dinospace/src/app/components/test/test.component.ts:139-148 | only the age slot changes, to the live age message |
| Component.TestComponent.ValidateEmail | frontend-dinospace/src/app/components/test/test.component.ts:150-160 | only the e-mail slot changes, to the live e-mail message |
| Component.TestComponent.ValidatePassword | frontend-dinospace/src/app/components/test/test.component.ts:162-174 | the password slot gets the password message; the confirmation slot is re-checked only when both fields are non-empty; nothing else changes |
| Component.TestComponent.ValidateConfirmPassword | frontend-dinospace/src/app/components/test/test.component.ts:176-184 | only the confirmation slot changes, to the mismatch message or empty |
| Component.TestComponent.ClearError | frontend-dinospace/src/app/components/test/test.component.ts:186-188 | only the given slot changes, to the empty message |
| Component.TestComponent.OnFieldChange | frontend-dinospace/src/app/components/test/test.component.ts:190-192 | editing a field blanks exactly that field's message |
| Component.TestComponent.ValidateCurrentStep | frontend-dinospace/src/app/components/test/test.component.ts:194-238 | the result is true exactly when the current step's rules hold; the error map changes as `GateErrors` says (the `setErr` calls (lines 199-202) at steps 1..7, the overwrites of lines 231-235 at step 8): only this step's fields, each to its message or, at steps 1..7 with no message, unchanged; step and record are unchanged; cases 1 and 8 are delegated to `GateStepOne` and `GateStepEight` |
| Component.TestComponent.GateStepOne | frontend-dinospace/src/app/components/test/test.component.ts:205-210 | case 1 of the gate: the result is true exactly when the trimmed name is non-empty, the age is truthy and in 17..65 and a gender is chosen; each failing field gets its message, the others keep theirs |
| Component.TestComponent.GateStepEight | frontend-dinospace/src/app/components/test/test.component.ts:231-235 | case 8 of the gate: both password checks are rerun, their messages overwrite both slots, and the result is true exactly when both are empty |
| Component.TestComponent.NextStep | frontend-dinospace/src/app/components/test/test.component.ts:240-242 | the step rises by one exactly when the gate passes and the step is below 8, otherwise it stays; a step in 1..8 stays in 1..8 |
| Component.TestComponent.PrevStep | frontend-dinospace/src/app/components/test/test.component.ts:244-246 | the step falls by one exactly when it is above 1; record and errors are unchanged |
| Component.TestComponent.SubmitForm | frontend-dinospace/src/app/components/test/test.component.ts:248-252 | the form is submitted exactly when the current step's gate passes; the gate's messages are recorded |

## Left out

- `goToHome` and the injected `Router` (test.component.ts:62-67): navigation to the landing view is an external collaborator with no logic.
- Component.TestComponent.SubmitForm: the `console.log` of the record and the welcome `alert` are I/O. The method returns a `submitted` flag instead.
- Browser event plumbing is not modelled. This covers `preventDefault` and reading the clipboard with `clipboardData?.getData('text') ?? ''`. `OnlyLetters` takes the key string and answers whether it is accepted. `OnPaste` takes the pasted text, where a missing clipboard is the empty string.
- Component.TestComponent.ProgressPercentage: computed in exact `real` arithmetic, not IEEE-754 doubles. Only the bounds, the per-step band, monotonicity and the "full" condition are proved.
- Form.PasswordError: the length test counts Unicode characters. JavaScript's `length` counts UTF-16 code units, so the two differ for passwords with characters outside the Basic Multilingual Plane. The other character tests behave the same on both views.
- The age is an optional integer. Non-integer and `NaN` ages, which a JavaScript number allows, are not modelled.
- Error keys are the eleven record fields. `FormErrors` also admits arbitrary string keys through its index signature; no handler in this file writes one, and `clearError` writes whatever key the template passes.
- The HTML template and its bindings, the styles, the route table (`app.routes.ts`), the empty home component and the test-bed scaffold (`registro-test.spec.ts`) are not part of this model.
