/**
 * The registration wizard controller: the current step, the record being filled
 * in and the error map, with the handlers the page calls on key presses, pastes,
 * field changes, navigation and submission.
 */
module Component {
  import opened Text
  import opened NameInput
  import opened Email
  import opened Form
  import opened Progress

  class TestComponent {
    var step: int
    var formData: FormData
    var errors: map<Field, string>

    /** The wizard is at one of its eight steps. */
    ghost predicate Valid()
      reads this
    {
      1 <= step <= 8
    }

    /** A fresh wizard: step 1, an empty record and no errors. */
    constructor ()
      ensures Valid()
      ensures step == 1 && formData == EmptyForm && errors == map[]
    {
      step := 1;
      formData := EmptyForm;
      errors := map[];
    }

    /** Counts the filled fields of the current step, one test per field of the step. */
    method GetCompletedFieldsForCurrentStep() returns (c: nat)
      ensures c == CountFilled(formData, StepFields(step))
      ensures c <= TotalFields(step)
    {
      var f := formData;
      c := 0;
      if step == 1 {
        if f.nombre != "" { c := c + 1; }
        if AgeTruthy(f.edad) { c := c + 1; }
        if f.genero != "" { c := c + 1; }
      } else if step == 2 {
        if f.correo != "" { c := c + 1; }
      } else if step == 3 {
        if f.ciclo != "" { c := c + 1; }
      } else if step == 4 {
        if f.estadoEmocional != "" { c := c + 1; }
      } else if step == 5 {
        if f.horasSueno != "" { c := c + 1; }
      } else if step == 6 {
        if f.actividad != "" { c := c + 1; }
      } else if step == 7 {
        if f.motivacion != "" { c := c + 1; }
      } else if step == 8 {
        if f.password != "" { c := c + 1; }
        if f.confirmarPassword != "" { c := c + 1; }
      }
      CountFilledUnfold(f, StepFields(step));
      CountFilledBound(f, StepFields(step));
    }

    /** The percentage on the progress bar; within 0..100 at every step of the wizard. */
    method ProgressPercentage() returns (pct: real)
      ensures pct == Percentage(step, formData)
      ensures pct <= 100.0
      ensures Valid() ==> 0.0 <= pct
    {
      var total := TotalFields(step);
      var completed := GetCompletedFieldsForCurrentStep();
      var base := ((step - 1) as real / 8.0) * 100.0;
      var stepProgress := (completed as real / total as real) * (100.0 / 8.0);
      pct := Min(base + stepProgress, 100.0);
      if 1 <= step <= 8 {
        ProgressBand(step, formData);
      }
    }

    /** Appends the allowed characters of the pasted text to the name. */
    method OnPaste(text: string)
      modifies this`formData
      ensures formData == old(formData).(nombre := old(formData.nombre) + FilterName(text))
      ensures old(formData.nombre) <= formData.nombre
    {
      formData := formData.(nombre := formData.nombre + FilterName(text));
    }

    /** Live age check; writes the age slot only. */
    method ValidateAge()
      modifies this`errors
      ensures errors == old(errors)[Edad := AgeLiveError(formData.edad)]
    {
      var edad := formData.edad;
      if edad.None? {
        errors := errors[Edad := ""];
        return;
      }
      if edad.value < 17 {
        errors := errors[Edad := MsgAgeTooYoung];
      } else if edad.value > 65 {
        errors := errors[Edad := MsgAgeTooOld];
      } else {
        errors := errors[Edad := ""];
      }
    }

    /** Live e-mail check; writes the e-mail slot only. */
    method ValidateEmail()
      modifies this`errors
      ensures errors == old(errors)[Correo := EmailLiveError(formData.correo)]
    {
      var correo := formData.correo;
      if correo == "" {
        errors := errors[Correo := ""];
        return;
      }
      errors := errors[Correo := if !MatchesEmailPattern(correo) then MsgEmailFormat else ""];
    }

    /** Live password check; when a password and a confirmation are both entered the
        confirmation is re-checked too (an empty password returns before that). */
    method ValidatePassword()
      modifies this`errors
      ensures errors == if formData.password != "" && formData.confirmarPassword != "" then
                          old(errors)[Password := PasswordError(formData.password)]
                                     [ConfirmarPassword := ConfirmError(formData.confirmarPassword, formData.password)]
                        else old(errors)[Password := PasswordError(formData.password)]
    {
      var p := formData.password;
      if p == "" {
        errors := errors[Password := ""];
        return;
      }
      if |p| < 6 {
        errors := errors[Password := MsgPasswordShort];
      } else if !HasUpper(p) {
        errors := errors[Password := MsgPasswordUpper];
      } else if !HasDigit(p) {
        errors := errors[Password := MsgPasswordDigit];
      } else {
        errors := errors[Password := ""];
      }
      if formData.confirmarPassword != "" {
        ValidateConfirmPassword();
      }
    }

    /** Live confirmation check; writes the confirmation slot only. */
    method ValidateConfirmPassword()
      modifies this`errors
      ensures errors == old(errors)[ConfirmarPassword := ConfirmError(formData.confirmarPassword, formData.password)]
    {
      var cp := formData.confirmarPassword;
      if cp == "" {
        errors := errors[ConfirmarPassword := ""];
        return;
      }
      errors := errors[ConfirmarPassword := if cp != formData.password then MsgPasswordMismatch else ""];
    }

    /** Blanks the message of one field, whatever its value. */
    method ClearError(k: Field)
      modifies this`errors
      ensures errors == old(errors)[k := ""]
    {
      errors := errors[k := ""];
    }

    method OnFieldChange(k: Field)
      modifies this`errors
      ensures errors == old(errors)[k := ""]
    {
      ClearError(k);
    }

    /** The step gate: reports whether the current step passes its rules and records
      the messages of the fields that fail. */
    method ValidateCurrentStep() returns (valid: bool)
      modifies this`errors
      ensures valid == StepValid(step, formData)
      ensures GateErrors(old(errors), errors, step, formData)
    {
      var f := formData;
      valid := true;
      ghost var before := errors;
      if step == 1 {
        valid := GateStepOne();
      } else if step == 2 {
        if f.correo == "" {
          errors := errors[Correo := MsgEmailRequired];
          valid := false;
        } else if !MatchesEmailPattern(f.correo) {
          errors := errors[Correo := MsgEmailInvalid];
          valid := false;
        }
      } else if step == 3 {
        if f.ciclo == "" {
          errors := errors[Ciclo := MsgCycleRequired];
          valid := false;
        }
      } else if step == 4 {
        if f.estadoEmocional == "" {
          errors := errors[EstadoEmocional := MsgMoodRequired];
          valid := false;
        }
      } else if step == 5 {
        if f.horasSueno == "" {
          errors := errors[HorasSueno := MsgOptionRequired];
          valid := false;
        }
      } else if step == 6 {
        if f.actividad == "" {
          errors := errors[Actividad := MsgOptionRequired];
          valid := false;
        }
      } else if step == 7 {
        if f.motivacion == "" {
          errors := errors[Motivacion := MsgOptionRequired];
          valid := false;
        }
      } else if step == 8 {
        valid := GateStepEight();
      }
      if 2 <= step <= 7 {
        GateErrorsOneField(before, errors, step, f);
        StepValidIffNoMessage(step, f);
      }
    }

    /** Case 1 of the gate: name, age and gender, each failing field getting its
      message. */
    method GateStepOne() returns (valid: bool)
      requires step == 1
      modifies this`errors
      ensures valid == StepValid(1, formData)
      ensures GateErrors(old(errors), errors, 1, formData)
    {
      var f := formData;
      ghost var before := errors;
      valid := true;
      if Trim(f.nombre) == "" {
        SetErrWrites(errors, Nombre, MsgNameRequired);
        errors := errors[Nombre := MsgNameRequired];
        valid := false;
      } else {
        SetErrSkips(errors, Nombre);
      }
      ghost var e1 := errors;
      if !AgeTruthy(f.edad) {
        SetErrWrites(errors, Edad, MsgAgeRequired);
        errors := errors[Edad := MsgAgeRequired];
        valid := false;
      } else if f.edad.value < 17 || f.edad.value > 65 {
        SetErrWrites(errors, Edad, MsgAgeRange);
        errors := errors[Edad := MsgAgeRange];
        valid := false;
      } else {
        SetErrSkips(errors, Edad);
      }
      ghost var e2 := errors;
      if f.genero == "" {
        SetErrWrites(errors, Genero, MsgGenderRequired);
        errors := errors[Genero := MsgGenderRequired];
        valid := false;
      } else {
        SetErrSkips(errors, Genero);
      }
      GateErrorsStepOne(before, e1, e2, errors, f);
    }

    /** Case 8 of the gate: both live password checks are rerun, and the step fails
      when either leaves a message. */
    method GateStepEight() returns (valid: bool)
      requires step == 8
      modifies this`errors
      ensures valid == StepValid(8, formData)
      ensures GateErrors(old(errors), errors, 8, formData)
    {
      var f := formData;
      ghost var before := errors;
      ValidatePassword();
      ValidateConfirmPassword();
      valid := !(ErrorOf(errors, Password) != "" || ErrorOf(errors, ConfirmarPassword) != "");
      GateErrorsStepEight(before, errors, f);
      StepValidIffNoMessage(8, f);
    }

    /** Moves forward one step when the gate passes and the wizard is not at the end. */
    method NextStep()
      modifies this`step, this`errors
      ensures step == if StepValid(old(step), formData) && old(step) < 8 then old(step) + 1 else old(step)
      ensures old(Valid()) ==> Valid()
      ensures GateErrors(old(errors), errors, old(step), formData)
    {
      var ok := ValidateCurrentStep();
      if ok && step < 8 {
        step := step + 1;
      }
    }

    /** Moves back one step unless at the first; no check, and nothing else changes. */
    method PrevStep()
      modifies this`step
      ensures step == if old(step) > 1 then old(step) - 1 else old(step)
      ensures old(Valid()) ==> Valid()
      ensures formData == old(formData) && errors == old(errors)
    {
      if step > 1 {
        step := step - 1;
      }
    }

    /** Re-runs the gate; the record is submitted exactly when it passes. */
    method SubmitForm() returns (submitted: bool)
      modifies this`errors
      ensures submitted == StepValid(step, formData)
      ensures GateErrors(old(errors), errors, step, formData)
    {
      submitted := ValidateCurrentStep();
    }
  }
}
