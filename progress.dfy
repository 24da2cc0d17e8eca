/**
 * The progress bar: a fixed table of how many fields each step has, a count of
 * the filled ones, and the percentage computed from both, in exact arithmetic.
 */
module Progress {
  import opened Form

  /** The per-step field-count table (a missing step reads as 1). For every real
      step it agrees with the fields the step gate checks. */
  function TotalFields(step: int): (total: nat)
    ensures 1 <= total <= 3
    ensures 1 <= step <= 8 ==> total == |StepFields(step)|
  {
    if step == 1 then 3
    else if 2 <= step <= 7 then 1
    else if step == 8 then 2
    else 1
  }

  /** JavaScript truthiness of field `k`: texts are filled when non-empty (untrimmed),
      the age when it is neither null nor 0. */
  predicate Filled(f: FormData, k: Field) {
    match k
    case Nombre => f.nombre != ""
    case Edad => AgeTruthy(f.edad)
    case Genero => f.genero != ""
    case Correo => f.correo != ""
    case Ciclo => f.ciclo != ""
    case EstadoEmocional => f.estadoEmocional != ""
    case HorasSueno => f.horasSueno != ""
    case Actividad => f.actividad != ""
    case Motivacion => f.motivacion != ""
    case Password => f.password != ""
    case ConfirmarPassword => f.confirmarPassword != ""
  }

  /** How many of `fields` are filled in `f`. */
  function CountFilled(f: FormData, fields: seq<Field>): nat {
    if fields == [] then 0
    else (if Filled(f, fields[0]) then 1 else 0) + CountFilled(f, fields[1..])
  }

  /** `CountFilled` on a step's literal field list, spelled out field by field. */
  lemma CountFilledUnfold(f: FormData, fields: seq<Field>)
    requires |fields| <= 3
    ensures |fields| == 1 ==> CountFilled(f, fields) == (if Filled(f, fields[0]) then 1 else 0)
    ensures |fields| == 2 ==>
              CountFilled(f, fields) ==
              (if Filled(f, fields[0]) then 1 else 0) + (if Filled(f, fields[1]) then 1 else 0)
    ensures |fields| == 3 ==>
              CountFilled(f, fields) ==
              (if Filled(f, fields[0]) then 1 else 0) + (if Filled(f, fields[1]) then 1 else 0)
              + (if Filled(f, fields[2]) then 1 else 0)
  {
  }

  lemma {:induction false} CountFilledBound(f: FormData, fields: seq<Field>)
    ensures CountFilled(f, fields) <= |fields|
    ensures CountFilled(f, fields) == |fields| <==> forall k | k in fields :: Filled(f, k)
  {
    if fields != [] {
      CountFilledBound(f, fields[1..]);
      assert forall k | k in fields :: k == fields[0] || k in fields[1..];
    }
  }

  function Min(a: real, b: real): real {
    if a <= b then a else b
  }

  /** `((step - 1) / 8) * 100 + (completed / total) * (100 / 8)`, capped at 100. */
  function ProgressOf(step: int, completed: nat, total: nat): real
    requires total > 0
  {
    var base := ((step - 1) as real / 8.0) * 100.0;
    var stepProgress := (completed as real / total as real) * (100.0 / 8.0);
    Min(base + stepProgress, 100.0)
  }

  /** The percentage shown for the wizard at `step` with record `f`. */
  function Percentage(step: int, f: FormData): real {
    ProgressOf(step, CountFilled(f, StepFields(step)), TotalFields(step))
  }

  /** Filling more fields of the current step never lowers the percentage. */
  lemma ProgressMonotone(step: int, c1: nat, c2: nat, total: nat)
    requires total > 0 && c1 <= c2
    ensures ProgressOf(step, c1, total) <= ProgressOf(step, c2, total)
  {
    assert c1 as real / total as real <= c2 as real / total as real;
  }

  /** Within a real step the percentage lies in that step's eighth of the bar, hence
      within 0..100. */
  lemma ProgressBand(step: int, f: FormData)
    requires 1 <= step <= 8
    ensures (step - 1) as real * 12.5 <= Percentage(step, f) <= step as real * 12.5
    ensures 0.0 <= Percentage(step, f) <= 100.0
  {
    var total := TotalFields(step);
    var completed := CountFilled(f, StepFields(step));
    CountFilledBound(f, StepFields(step));
    assert 0.0 <= completed as real / total as real <= 1.0;
  }

  /** The bar is full exactly at step 8 with both password fields filled. */
  lemma ProgressFullIff(step: int, f: FormData)
    requires 1 <= step <= 8
    ensures Percentage(step, f) == 100.0 <==> step == 8 && f.password != "" && f.confirmarPassword != ""
  {
    ProgressBand(step, f);
    var completed := CountFilled(f, StepFields(step));
    CountFilledBound(f, StepFields(step));
    if step == 8 {
      assert StepFields(8) == [Password, ConfirmarPassword];
      assert completed == 2 <==> f.password != "" && f.confirmarPassword != "";
      assert Percentage(step, f) == 87.5 + completed as real / 2.0 * 12.5;
    }
  }
}
