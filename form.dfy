/**
 * The registration record, its error messages, and the rules of the live
 * validators and of the per-step gate, as functions of the record.
 */
module Form {
  import opened Wrappers
  import opened Text
  import opened Email

  /** The keys of the record and of the error map. */
  datatype Field =
    | Nombre | Edad | Genero | Correo | Ciclo | EstadoEmocional
    | HorasSueno | Actividad | Motivacion | Password | ConfirmarPassword

  datatype FormData = FormData(
    nombre: string,
    edad: Option<int>,
    genero: string,
    correo: string,
    ciclo: string,
    estadoEmocional: string,
    horasSueno: string,
    actividad: string,
    motivacion: string,
    password: string,
    confirmarPassword: string)

  /** The record as the wizard starts: every text empty and no age. */
  const EmptyForm := FormData("", None, "", "", "", "", "", "", "", "", "")

  // Messages of the live validators.
  const MsgAgeTooYoung := "Debes tener al menos 17 años"
  const MsgAgeTooOld := "Debe ser menor a 66 años"
  const MsgEmailFormat := "Formato de correo inválido. Ejemplo: usuario@email.com"
  const MsgPasswordShort := "La contraseña debe tener al menos 6 caracteres"
  const MsgPasswordUpper := "Debe incluir al menos una letra mayúscula"
  const MsgPasswordDigit := "Debe incluir al menos un número"
  const MsgPasswordMismatch := "Las contraseñas no coinciden"

  // Messages of the step gate.
  const MsgNameRequired := "El nombre es obligatorio"
  const MsgAgeRequired := "La edad es obligatoria"
  const MsgAgeRange := "Debe tener entre 17 y 65 años"
  const MsgGenderRequired := "Selecciona un género"
  const MsgEmailRequired := "El correo es obligatorio"
  const MsgEmailInvalid := "Correo inválido"
  const MsgCycleRequired := "Selecciona un ciclo"
  const MsgMoodRequired := "Selecciona un estado emocional"
  const MsgOptionRequired := "Selecciona una opción"

  /** The error map: an absent key reads as the empty message, i.e. no error. */
  function ErrorOf(errors: map<Field, string>, k: Field): string {
    if k in errors then errors[k] else ""
  }

  /** Both maps hold the same entry (or none) for `k`. */
  predicate SameEntry(m: map<Field, string>, m': map<Field, string>, k: Field) {
    (k in m <==> k in m') && (k in m ==> m[k] == m'[k])
  }

  /** JavaScript truthiness of the age: null and 0 are both falsy. */
  predicate AgeTruthy(edad: Option<int>) {
    edad.Some? && edad.value != 0
  }

  predicate AgeInRange(n: int) {
    17 <= n <= 65
  }

  predicate HasUpper(p: string) {
    exists i | 0 <= i < |p| :: 'A' <= p[i] <= 'Z'
  }

  predicate HasDigit(p: string) {
    exists i | 0 <= i < |p| :: '0' <= p[i] <= '9'
  }

  /** All three password checks pass. */
  predicate StrongPassword(p: string) {
    |p| >= 6 && HasUpper(p) && HasDigit(p)
  }

  /** Live age check: silent while no age is entered, otherwise it reports an age
      outside 17..65, naming the side it is on. */
  function AgeLiveError(edad: Option<int>): (msg: string)
    ensures msg == "" <==> edad.None? || AgeInRange(edad.value)
    ensures edad.Some? && edad.value < 17 ==> msg == MsgAgeTooYoung
    ensures edad.Some? && edad.value > 65 ==> msg == MsgAgeTooOld
  {
    match edad
    case None => ""
    case Some(n) =>
      if n < 17 then MsgAgeTooYoung
      else if n > 65 then MsgAgeTooOld
      else ""
  }

  /** Live e-mail check: silent while empty, otherwise silent exactly when the
      address matches the pattern. */
  function EmailLiveError(correo: string): (msg: string)
    ensures msg == "" <==> correo == "" || MatchesEmailPattern(correo)
    ensures msg != "" ==> msg == MsgEmailFormat
  {
    if correo == "" then ""
    else if !MatchesEmailPattern(correo) then MsgEmailFormat
    else ""
  }

  /** Password check: silent while empty; otherwise the first failing check, in the
      order length, upper-case letter, digit. */
  function PasswordError(p: string): (msg: string)
    ensures msg == "" <==> p == "" || StrongPassword(p)
    ensures p != "" && |p| < 6 ==> msg == MsgPasswordShort
    ensures |p| >= 6 && !HasUpper(p) ==> msg == MsgPasswordUpper
    ensures |p| >= 6 && HasUpper(p) && !HasDigit(p) ==> msg == MsgPasswordDigit
  {
    if p == "" then ""
    else if |p| < 6 then MsgPasswordShort
    else if !HasUpper(p) then MsgPasswordUpper
    else if !HasDigit(p) then MsgPasswordDigit
    else ""
  }

  /** Confirmation check: an error exactly when a confirmation is entered and it
      differs from the password. */
  function ConfirmError(cp: string, p: string): (msg: string)
    ensures msg != "" <==> cp != "" && cp != p
    ensures msg != "" ==> msg == MsgPasswordMismatch
  {
    if cp == "" then ""
    else if cp != p then MsgPasswordMismatch
    else ""
  }

  /** The fields a step gathers and validates, in the order the gate checks them. */
  function StepFields(step: int): (fields: seq<Field>)
    ensures 1 <= step <= 8 <==> fields != []
  {
    if step == 1 then [Nombre, Edad, Genero]
    else if step == 2 then [Correo]
    else if step == 3 then [Ciclo]
    else if step == 4 then [EstadoEmocional]
    else if step == 5 then [HorasSueno]
    else if step == 6 then [Actividad]
    else if step == 7 then [Motivacion]
    else if step == 8 then [Password, ConfirmarPassword]
    else []
  }

  /** Gate check of the age: a falsy age (null or 0) is missing, any other age must be
      within 17..65. */
  function AgeGateError(edad: Option<int>): (msg: string)
    ensures msg == "" <==> AgeTruthy(edad) && AgeInRange(edad.value)
    ensures !AgeTruthy(edad) ==> msg == MsgAgeRequired
    ensures AgeTruthy(edad) && !AgeInRange(edad.value) ==> msg == MsgAgeRange
  {
    if !AgeTruthy(edad) then MsgAgeRequired
    else if !AgeInRange(edad.value) then MsgAgeRange
    else ""
  }

  /** Gate check of the e-mail: required, then the pattern. */
  function EmailGateError(correo: string): (msg: string)
    ensures msg == "" <==> correo != "" && MatchesEmailPattern(correo)
    ensures correo == "" ==> msg == MsgEmailRequired
    ensures correo != "" && !MatchesEmailPattern(correo) ==> msg == MsgEmailInvalid
  {
    if correo == "" then MsgEmailRequired
    else if !MatchesEmailPattern(correo) then MsgEmailInvalid
    else ""
  }

  /** The message the step gate leaves for field `k` of `f` when it checks it; the
      empty message means the field passes. */
  function GateMessage(f: FormData, k: Field): string {
    match k
    case Nombre => if Trim(f.nombre) == "" then MsgNameRequired else ""
    case Edad => AgeGateError(f.edad)
    case Genero => if f.genero == "" then MsgGenderRequired else ""
    case Correo => EmailGateError(f.correo)
    case Ciclo => if f.ciclo == "" then MsgCycleRequired else ""
    case EstadoEmocional => if f.estadoEmocional == "" then MsgMoodRequired else ""
    case HorasSueno => if f.horasSueno == "" then MsgOptionRequired else ""
    case Actividad => if f.actividad == "" then MsgOptionRequired else ""
    case Motivacion => if f.motivacion == "" then MsgOptionRequired else ""
    case Password => PasswordError(f.password)
    case ConfirmarPassword => ConfirmError(f.confirmarPassword, f.password)
  }

  /** How the step gate at `step` turns the error map `before` into `after` for record
      `f`: keys of other steps are untouched; a failing field gets its gate message;
      at steps 1..7 a passing field keeps whatever message it had, while step 8 writes
      both password messages, empty or not. */
  ghost predicate GateErrors(before: map<Field, string>, after: map<Field, string>, step: int, f: FormData) {
    && (forall k | k !in StepFields(step) :: SameEntry(after, before, k))
    && (forall k | k in StepFields(step) :: Outcome(before, after, k, GateMessage(f, k), step == 8))
  }

  /** `GateErrors` for any message function `msg` in place of the gate's messages. */
  ghost predicate GateErrorsWith(before: map<Field, string>, after: map<Field, string>, fields: seq<Field>,
                                 msg: Field -> string, overwrite: bool) {
    && (forall k | k !in fields :: SameEntry(after, before, k))
    && (forall k | k in fields :: Outcome(before, after, k, msg(k), overwrite))
  }

  /** Key `k` of `after` holds `msg` when there is a message or the slot is always
      overwritten; otherwise it is as in `before`. */
  ghost predicate Outcome(before: map<Field, string>, after: map<Field, string>, k: Field, msg: string, overwrite: bool) {
    if msg != "" || overwrite then k in after && after[k] == msg
    else SameEntry(after, before, k)
  }

  /** The rules of the step gate, step by step. A step outside 1..8 has no rules. */
  predicate StepValid(step: int, f: FormData) {
    if step == 1 then
      && !AllWhitespace(f.nombre)
      && AgeTruthy(f.edad) && AgeInRange(f.edad.value)
      && f.genero != ""
    else if step == 2 then f.correo != "" && MatchesEmailPattern(f.correo)
    else if step == 3 then f.ciclo != ""
    else if step == 4 then f.estadoEmocional != ""
    else if step == 5 then f.horasSueno != ""
    else if step == 6 then f.actividad != ""
    else if step == 7 then f.motivacion != ""
    else if step == 8 then
      && (f.password == "" || StrongPassword(f.password))
      && (f.confirmarPassword == "" || f.confirmarPassword == f.password)
    else true
  }

  /** A step passes exactly when none of its fields gets a gate message. */
  lemma StepValidIffNoMessage(step: int, f: FormData)
    ensures StepValid(step, f) <==> forall k | k in StepFields(step) :: GateMessage(f, k) == ""
  {
    if step == 1 {
      StepOneNoMessage(f);
    } else if step == 8 {
      StepEightNoMessage(f);
    } else if 2 <= step <= 7 {
      SingleFieldNoMessage(step, f);
    }
  }

  lemma StepOneNoMessage(f: FormData)
    ensures StepValid(1, f) <==> forall k | k in StepFields(1) :: GateMessage(f, k) == ""
  {
    assert StepFields(1) == [Nombre, Edad, Genero];
    assert GateMessage(f, Nombre) == "" <==> !AllWhitespace(f.nombre);
    assert GateMessage(f, Edad) == "" <==> AgeTruthy(f.edad) && AgeInRange(f.edad.value);
    assert GateMessage(f, Genero) == "" <==> f.genero != "";
  }

  lemma StepEightNoMessage(f: FormData)
    ensures StepValid(8, f) <==> forall k | k in StepFields(8) :: GateMessage(f, k) == ""
  {
    assert StepFields(8) == [Password, ConfirmarPassword];
    assert GateMessage(f, Password) == "" <==> f.password == "" || StrongPassword(f.password);
    assert GateMessage(f, ConfirmarPassword) == ""
      <==> f.confirmarPassword == "" || f.confirmarPassword == f.password;
  }

  lemma SingleFieldNoMessage(step: int, f: FormData)
    requires 2 <= step <= 7
    ensures StepValid(step, f) <==> forall k | k in StepFields(step) :: GateMessage(f, k) == ""
  {
    var fields := StepFields(step);
    assert |fields| == 1 && forall k | k in fields :: k == fields[0];
    assert GateMessage(f, fields[0]) == "" <==> StepValid(step, f);
  }

  /** What the gate's `setErr` leaves for key `k` when the check produced `msg`: the
      message is written only when there is one. */
  function SetErr(m: map<Field, string>, k: Field, msg: string): map<Field, string> {
    if msg == "" then m else m[k := msg]
  }

  /** A non-empty message is written into its slot. */
  lemma SetErrWrites(m: map<Field, string>, k: Field, msg: string)
    requires msg != ""
    ensures SetErr(m, k, msg) == m[k := msg]
  {
  }

  /** An empty message leaves the map as it was. */
  lemma SetErrSkips(m: map<Field, string>, k: Field)
    ensures SetErr(m, k, "") == m
  {
  }

  /** One `setErr` call: key `a` ends with its outcome, every other key is untouched. */
  lemma SetErrEntry(before: map<Field, string>, after: map<Field, string>, a: Field, ma: string, k: Field)
    requires after == SetErr(before, a, ma)
    ensures k != a ==> SameEntry(after, before, k)
    ensures k == a ==> Outcome(before, after, k, ma, false)
  {
  }

  /** What three `setErr` calls leave for one key `k`. */
  lemma SetErrChainEntry(before: map<Field, string>, m1: map<Field, string>, m2: map<Field, string>,
                         after: map<Field, string>, a: Field, ma: string, b: Field, mb: string,
                         c: Field, mc: string, k: Field)
    requires a != b && b != c && a != c
    requires m1 == SetErr(before, a, ma) && m2 == SetErr(m1, b, mb) && after == SetErr(m2, c, mc)
    ensures k == a ==> Outcome(before, after, k, ma, false)
    ensures k == b ==> Outcome(before, after, k, mb, false)
    ensures k == c ==> Outcome(before, after, k, mc, false)
    ensures k != a && k != b && k != c ==> SameEntry(after, before, k)
  {
    SetErrEntry(before, m1, a, ma, k);
    SetErrEntry(m1, m2, b, mb, k);
    SetErrEntry(m2, after, c, mc, k);
  }

  /** Three `setErr` calls on distinct keys, for any three messages. */
  lemma SetErrThree(before: map<Field, string>, m1: map<Field, string>, m2: map<Field, string>,
                    after: map<Field, string>, a: Field, ma: string, b: Field, mb: string, c: Field, mc: string)
    requires a != b && b != c && a != c
    requires m1 == SetErr(before, a, ma) && m2 == SetErr(m1, b, mb) && after == SetErr(m2, c, mc)
    ensures Outcome(before, after, a, ma, false)
    ensures Outcome(before, after, b, mb, false)
    ensures Outcome(before, after, c, mc, false)
    ensures forall k | k != a && k != b && k != c :: SameEntry(after, before, k)
  {
    SetErrChainEntry(before, m1, m2, after, a, ma, b, mb, c, mc, a);
    SetErrChainEntry(before, m1, m2, after, a, ma, b, mb, c, mc, b);
    SetErrChainEntry(before, m1, m2, after, a, ma, b, mb, c, mc, c);
    forall k | k != a && k != b && k != c ensures SameEntry(after, before, k) {
      SetErrChainEntry(before, m1, m2, after, a, ma, b, mb, c, mc, k);
    }
  }

  lemma StepOneFields()
    ensures forall k :: k in StepFields(1) <==> k == Nombre || k == Edad || k == Genero
  {
    assert StepFields(1) == [Nombre, Edad, Genero];
  }

  /** Step 1's three `setErr` calls, for any messages. Keeping the messages abstract
      keeps the definitions of the individual checks out of this proof. */
  lemma GateErrorsStepOneWith(before: map<Field, string>, after: map<Field, string>, msg: Field -> string)
    requires after == SetErr(SetErr(SetErr(before, Nombre, msg(Nombre)),
                                    Edad, msg(Edad)), Genero, msg(Genero))
    ensures GateErrorsWith(before, after, StepFields(1), msg, false)
  {
    var m1 := SetErr(before, Nombre, msg(Nombre));
    SetErrThree(before, m1, SetErr(m1, Edad, msg(Edad)), after,
                Nombre, msg(Nombre), Edad, msg(Edad), Genero, msg(Genero));
    StepOneFields();
  }

  lemma GateErrorsStepOne(before: map<Field, string>, e1: map<Field, string>, e2: map<Field, string>,
                           after: map<Field, string>, f: FormData)
    requires e1 == SetErr(before, Nombre, GateMessage(f, Nombre))
    requires e2 == SetErr(e1, Edad, GateMessage(f, Edad))
    requires after == SetErr(e2, Genero, GateMessage(f, Genero))
    ensures GateErrors(before, after, 1, f)
  {
    var msg := k => GateMessage(f, k);
    GateErrorsStepOneWith(before, after, msg);
  }

  lemma GateErrorsOneField(before: map<Field, string>, after: map<Field, string>, step: int, f: FormData)
    requires 2 <= step <= 7
    requires after == SetErr(before, StepFields(step)[0], GateMessage(f, StepFields(step)[0]))
    ensures GateErrors(before, after, step, f)
  {
    var k0 := StepFields(step)[0];
    assert forall k | k in StepFields(step) :: k == k0;
    assert Outcome(before, after, k0, GateMessage(f, k0), false);
  }

  lemma GateErrorsStepEight(before: map<Field, string>, after: map<Field, string>, f: FormData)
    requires after == before[Password := PasswordError(f.password)]
                            [ConfirmarPassword := ConfirmError(f.confirmarPassword, f.password)]
    ensures GateErrors(before, after, 8, f)
  {
    assert forall k | k in StepFields(8) :: k == Password || k == ConfirmarPassword;
  }

  /** A refused step always shows a message on one of its own fields. */
  lemma GateFailureIsReported(before: map<Field, string>, after: map<Field, string>, step: int, f: FormData)
    requires GateErrors(before, after, step, f)
    requires !StepValid(step, f)
    ensures exists k | k in StepFields(step) :: ErrorOf(after, k) != ""
  {
    StepValidIffNoMessage(step, f);
    var k :| k in StepFields(step) && GateMessage(f, k) != "";
    assert ErrorOf(after, k) == GateMessage(f, k);
  }

  /** At steps 1..7 a passing gate clears nothing: the error map is left exactly as it
      was, stale messages included. */
  lemma PassingGateKeepsErrors(before: map<Field, string>, after: map<Field, string>, step: int, f: FormData)
    requires 1 <= step <= 7
    requires GateErrors(before, after, step, f)
    requires StepValid(step, f)
    ensures after == before
  {
    StepValidIffNoMessage(step, f);
    forall k ensures SameEntry(after, before, k) {
      if k in StepFields(step) {
        assert GateMessage(f, k) == "";
        assert Outcome(before, after, k, GateMessage(f, k), false);
      }
    }
    MapsAgreeEverywhere(after, before);
  }

  /** Two maps that hold the same entry for every key are equal. */
  lemma MapsAgreeEverywhere(m: map<Field, string>, m': map<Field, string>)
    requires forall k :: SameEntry(m, m', k)
    ensures m == m'
  {
    assert m.Keys == m'.Keys by {
      forall k ensures k in m <==> k in m' {
        assert SameEntry(m, m', k);
      }
    }
    forall k | k in m ensures m[k] == m'[k] {
      assert SameEntry(m, m', k);
    }
  }

  /** At step 8 the gate leaves exactly the two password messages behind, and it passes
      exactly when both are empty. */
  lemma PasswordGateErrors(before: map<Field, string>, after: map<Field, string>, f: FormData)
    requires GateErrors(before, after, 8, f)
    ensures ErrorOf(after, Password) == PasswordError(f.password)
    ensures ErrorOf(after, ConfirmarPassword) == ConfirmError(f.confirmarPassword, f.password)
    ensures StepValid(8, f) <==> ErrorOf(after, Password) == "" && ErrorOf(after, ConfirmarPassword) == ""
  {
    assert StepFields(8) == [Password, ConfirmarPassword];
    assert Outcome(before, after, Password, GateMessage(f, Password), true);
    assert Outcome(before, after, ConfirmarPassword, GateMessage(f, ConfirmarPassword), true);
  }

  /** Whenever an age is actually entered (truthy), the live check and the gate agree
      on whether it is acceptable; 0 is the one entered value on which they differ in
      kind: too young for the live check, missing for the gate. */
  lemma AgeChecksAgree(edad: Option<int>)
    ensures AgeGateError(edad) == "" ==> AgeLiveError(edad) == ""
    ensures AgeTruthy(edad) ==> (AgeLiveError(edad) == "" <==> AgeGateError(edad) == "")
    ensures edad == Some(0) ==> AgeLiveError(edad) == MsgAgeTooYoung && AgeGateError(edad) == MsgAgeRequired
    ensures edad.None? ==> AgeLiveError(edad) == "" && AgeGateError(edad) == MsgAgeRequired
  {
  }

  /** The gate accepts an e-mail exactly when it is entered and the live check is silent. */
  lemma EmailChecksAgree(correo: string)
    ensures EmailGateError(correo) == "" <==> correo != "" && EmailLiveError(correo) == ""
  {
  }

  /** Step 8 passes when each password field is either empty or acceptable, so two
      empty password fields pass the gate. */
  lemma EmptyPasswordsPass(f: FormData)
    requires f.password == "" && f.confirmarPassword == ""
    ensures StepValid(8, f)
    ensures forall k | k in StepFields(8) :: GateMessage(f, k) == ""
  {
  }

  /** Worked examples of the password and confirmation rules. */
  lemma PasswordExamples()
    ensures PasswordError("abc123") == MsgPasswordUpper
    ensures PasswordError("Abcdef") == MsgPasswordDigit
    ensures PasswordError("Ab") == MsgPasswordShort
    ensures PasswordError("Abcdef1") == ""
    ensures ConfirmError("Abcdef1", "Abcdef1") == ""
    ensures ConfirmError("abcdef1", "Abcdef1") == MsgPasswordMismatch
  {
    assert !HasUpper("abc123") by {
      forall i | 0 <= i < 6 ensures !('A' <= "abc123"[i] <= 'Z') { }
    }
    assert "Abcdef"[0] == 'A';
    assert !HasDigit("Abcdef") by {
      forall i | 0 <= i < 6 ensures !('0' <= "Abcdef"[i] <= '9') { }
    }
    assert "Abcdef1"[0] == 'A' && "Abcdef1"[6] == '1';
  }
}
