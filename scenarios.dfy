/**
 * Client runs of the wizard, proved from the controller's contracts alone.
 */
module Scenarios {
  import opened Wrappers
  import opened Text
  import opened Email
  import opened Form
  import opened Progress
  import opened Component

  /** With an empty name, the gate of step 1 refuses and reports the name. */
  method NameRequiredBlocksStepOne() {
    var w := new TestComponent();
    w.formData := w.formData.(edad := Some(30), genero := "F");
    w.NextStep();
    assert w.step == 1;
    assert Nombre in StepFields(1);
    assert w.errors[Nombre] == MsgNameRequired;
  }

  /** Going back never touches the record or the errors. */
  method BackFromStepFive() {
    var w := new TestComponent();
    w.step := 5;
    w.errors := map[HorasSueno := MsgOptionRequired];
    w.PrevStep();
    assert w.step == 4;
    assert w.errors == map[HorasSueno := MsgOptionRequired] && w.formData == EmptyForm;
  }

  /** Minimal valid answers to steps 1 and 2 move the wizard on to step 3. */
  method FirstStepsAdvance() {
    var w := new TestComponent();
    w.formData := w.formData.(nombre := "Ana", edad := Some(30), genero := "F");
    assert !IsWhitespace(w.formData.nombre[0]);
    w.NextStep();
    assert w.step == 2;
    w.formData := w.formData.(correo := "a@b.c");
    PatternExamples();
    w.NextStep();
    assert w.step == 3;
  }

  /** At step 8 with matching strong passwords the bar is full and submission succeeds,
      leaving no password message behind. */
  method SubmitAtStepEight() {
    var w := new TestComponent();
    w.step := 8;
    w.formData := w.formData.(password := "Abcdef1", confirmarPassword := "Abcdef1");
    assert w.formData.password[0] == 'A' && w.formData.password[6] == '1';
    var pct := w.ProgressPercentage();
    ProgressFullIff(8, w.formData);
    assert pct == 100.0;
    ghost var before := w.errors;
    var submitted := w.SubmitForm();
    assert submitted;
    PasswordGateErrors(before, w.errors, w.formData);
    assert ErrorOf(w.errors, Password) == "" && ErrorOf(w.errors, ConfirmarPassword) == "";
  }
}
