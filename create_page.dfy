/**
 * The patient page (`Create.tsx`): the form that validates the four inputs
 * before any network call and resets itself after a successful submission,
 * and the status panel that shows a decrypted risk score, or "pending".
 */
module CreatePage {
  import opened Wrappers
  import opened HealthLedger
  import opened HealthClient
  import opened SessionCreation
  import opened ResultDecryption

  /* ---------------------------------------------------------------------
   * Input validation
   * ------------------------------------------------------------------- */

  const NotReadyText: string := "FHEVM instance or signer not ready"
  const WeightError: string := "Weight must be between 1-300 kg"
  const HeightError: string := "Height must be between 1-300 cm"
  const ExerciseError: string := "Exercise level must be between 1-5"
  const DietError: string := "Diet score must be between 1-10"

  /**
   * `parseFloat` and `parseInt` results: `None` stands for `NaN`. A weight or
   * a height is accepted in (0, 300].
   */
  predicate MeasurementOk(x: Option<real>) {
    x.Some? && 0.0 < x.value <= 300.0
  }

  predicate ExerciseOk(e: Option<int>) {
    e.Some? && 1 <= e.value <= 5
  }

  predicate DietOk(d: Option<int>) {
    d.Some? && 1 <= d.value <= 10
  }

  /**
   * The four guards of `handleSubmit`, in order: the first that fails
   * decides the message; when all pass, the parsed values are what is
   * submitted.
   */
  function Validate(weight: Option<real>, height: Option<real>, exercise: Option<int>, diet: Option<int>)
    : (r: Result<HealthInput, string>)
    ensures r.Success? <==> MeasurementOk(weight) && MeasurementOk(height) && ExerciseOk(exercise) && DietOk(diet)
    ensures r.Success? ==> r.value == HealthInput(weight.value, height.value, exercise.value, diet.value)
    ensures !MeasurementOk(weight) ==> r == Failure(WeightError)
    ensures MeasurementOk(weight) && !MeasurementOk(height) ==> r == Failure(HeightError)
    ensures MeasurementOk(weight) && MeasurementOk(height) && !ExerciseOk(exercise) ==> r == Failure(ExerciseError)
    ensures MeasurementOk(weight) && MeasurementOk(height) && ExerciseOk(exercise) && !DietOk(diet) ==>
      r == Failure(DietError)
  {
    if !MeasurementOk(weight) then Failure(WeightError)
    else if !MeasurementOk(height) then Failure(HeightError)
    else if !ExerciseOk(exercise) then Failure(ExerciseError)
    else if !DietOk(diet) then Failure(DietError)
    else Success(HealthInput(weight.value, height.value, exercise.value, diet.value))
  }

  /**
   * Input that passes the form's guards always fits the encrypted batch:
   * the scaled weight and height fit 64 bits and the two scores fit 8 bits,
   * so the encoder never rejects it.
   */
  lemma ValidatedIsEncodable(weight: Option<real>, height: Option<real>, exercise: Option<int>, diet: Option<int>)
    requires Validate(weight, height, exercise, diet).Success?
    ensures BatchEncodable(EncodeBatch(Validate(weight, height, exercise, diet).value))
  {
    var input := Validate(weight, height, exercise, diet).value;
    CentiOfMeasurement(input.weight);
    CentiOfMeasurement(input.height);
    var batch := EncodeBatch(input);
    forall k | 0 <= k < |batch|
      ensures Encodable(batch[k])
    {
    }
  }

  datatype FormStatus = Idle | Loading | Succeeded | Failed

  /** What the creation form holds: its four text fields and what it shows. */
  datatype FormView = FormView(
    weight: string,
    height: string,
    exercise: string,
    diet: string,
    status: FormStatus,
    error: Option<string>,
    createdAt: Option<nat>)

  /** What the form holds after a submission, and the calls it made. */
  datatype FormRun = FormRun(view: FormView, calls: seq<Call>)

  /** The four fields parsed and checked by the guards. */
  function ValidateFields(s: FormView, parseFloat: string -> Option<real>, parseInt: string -> Option<int>)
    : Result<HealthInput, string>
  {
    Validate(parseFloat(s.weight), parseFloat(s.height), parseInt(s.exercise), parseInt(s.diet))
  }

  /**
   * `handleSubmit`: the readiness guard and the four field guards come
   * before any call; then the session is created, and on success the
   * fields are cleared and the creation time is kept when there is one.
   * `parseFloat` and `parseInt` are the page's number parsers.
   */
  function AfterSubmit(s: FormView, ctx: Context, env: CreateEnv,
                       parseFloat: string -> Option<real>, parseInt: string -> Option<int>): FormRun {
    if !Ready(ctx) then FormRun(s.(error := Some(NotReadyText)), [])
    else
      var v := ValidateFields(s, parseFloat, parseInt);
      if v.Failure? then FormRun(s.(error := Some(v.error)), [])
      else
        var run := CreateSessionRun(ctx, env, v.value);
        if run.result.Success? then
          var createdAt := if run.result.value.createdAt.Some? then run.result.value.createdAt else s.createdAt;
          FormRun(FormView("", "", "", "", Succeeded, None, createdAt), run.calls)
        else FormRun(s.(status := Failed, error := Some(Message(run.result.error))), run.calls)
  }

  /**
   * Nothing is called unless the context is ready and all four fields
   * pass, and then the first call is the balance read of the caller; a
   * refused submission changes only the error shown; an attempted one
   * succeeds, and clears the fields, exactly when the session was created
   * and its input submitted.
   */
  lemma SubmitGuardsFirst(s: FormView, ctx: Context, env: CreateEnv,
                          parseFloat: string -> Option<real>, parseInt: string -> Option<int>)
    ensures var r := AfterSubmit(s, ctx, env, parseFloat, parseInt);
      r.calls != [] ==>
        && Ready(ctx) && ValidateFields(s, parseFloat, parseInt).Success?
        && r.calls[0] == BalanceOf(ctx.user)
    ensures var r := AfterSubmit(s, ctx, env, parseFloat, parseInt);
      !(Ready(ctx) && ValidateFields(s, parseFloat, parseInt).Success?) ==> r.view == s.(error := r.view.error)
    ensures var r := AfterSubmit(s, ctx, env, parseFloat, parseInt);
      Ready(ctx) && ValidateFields(s, parseFloat, parseInt).Success? ==>
        var created := CreateSessionRun(ctx, env, ValidateFields(s, parseFloat, parseInt).value).result.Success?;
        && (r.view.status == Succeeded <==> created)
        && (created ==> r.view.weight == "" && r.view.height == "" && r.view.exercise == "" && r.view.diet == "")
  {
    if Ready(ctx) && ValidateFields(s, parseFloat, parseInt).Success? && FeeContractsKnown(ctx) {
      CreateRunOrdered(ctx, GetContracts(ctx).value.health, env, ValidateFields(s, parseFloat, parseInt).value);
    }
  }

  /** The creation form. */
  class CreateForm {
    var weight: string
    var height: string
    var exercise: string
    var diet: string
    var status: FormStatus
    var error: Option<string>
    var createdAt: Option<nat>

    function View(): FormView
      reads this
    {
      FormView(weight, height, exercise, diet, status, error, createdAt)
    }

    constructor ()
      ensures View() == FormView("", "", "", "", Idle, None, None)
    {
      weight, height, exercise, diet := "", "", "", "";
      status, error, createdAt := Idle, None, None;
    }

    method HandleSubmit(ctx: Context, env: CreateEnv, parseFloat: string -> Option<real>, parseInt: string -> Option<int>)
      returns (calls: seq<Call>)
      modifies this
      ensures FormRun(View(), calls) == AfterSubmit(old(View()), ctx, env, parseFloat, parseInt)
    {
      if !Ready(ctx) {
        error := Some(NotReadyText);
        return [];
      }
      var v := Validate(parseFloat(weight), parseFloat(height), parseInt(exercise), parseInt(diet));
      if v.Failure? {
        error := Some(v.error);
        return [];
      }
      status := Loading;
      error := None;
      var r;
      r, calls := CreateSessionAndSubmit(ctx, env, v.value);
      if r.Success? {
        if r.value.createdAt.Some? {
          createdAt := r.value.createdAt;
        }
        status := Succeeded;
        weight, height, exercise, diet := "", "", "", "";
      } else {
        error := Some(Message(r.error));
        status := Failed;
      }
    }
  }

  /* ---------------------------------------------------------------------
   * The status panel
   * ------------------------------------------------------------------- */

  /** `value.toString()` of a non-negative integer: its decimal digits. */
  function DecimalString(n: nat): string
    decreases n
  {
    if n < 10 then [Digit(n)] else DecimalString(n / 10) + [Digit(n % 10)]
  }

  function Digit(d: nat): char
    requires d < 10
  {
    ('0' as int + d) as char
  }

  predicate IsDigits(s: string) {
    forall i | 0 <= i < |s| :: '0' <= s[i] <= '9'
  }

  /** The value of a string of decimal digits. */
  function DigitsValue(s: string): nat
    requires IsDigits(s)
  {
    if s == [] then 0 else DigitsValue(s[..|s| - 1]) * 10 + (s[|s| - 1] as int - '0' as int)
  }

  /**
   * `Number(s)` on the strings the panel stores: a non-empty string of
   * digits gives its value; `None` stands for `NaN`.
   */
  function ParseNumber(s: string): Option<nat> {
    if s != [] && IsDigits(s) then Some(DigitsValue(s)) else None
  }

  /** The stored decimal string is never empty and reads back as the same number. */
  lemma {:induction false} DecimalRoundTrip(n: nat)
    ensures DecimalString(n) != [] && IsDigits(DecimalString(n))
    ensures ParseNumber(DecimalString(n)) == Some(n)
    decreases n
  {
    var s := DecimalString(n);
    if n < 10 {
      assert s == [Digit(n)] && s[..|s| - 1] == [];
      assert DigitsValue(s) == DigitsValue([]) * 10 + n;
    } else {
      DecimalRoundTrip(n / 10);
      assert s[..|s| - 1] == DecimalString(n / 10);
      assert s[|s| - 1] as int - '0' as int == n % 10;
    }
  }

  /** Box and text colour of the result. */
  datatype Tone = Green | Yellow | Red

  /** Risk 0 is green, risk 1 yellow, anything else (including `NaN`) red. */
  function ToneOf(risk: Option<nat>): (t: Tone)
    ensures t == Green <==> risk == Some(0)
    ensures t == Yellow <==> risk == Some(1)
  {
    if risk == Some(0) then Green else if risk == Some(1) then Yellow else Red
  }

  const GreatShape: string :=
    "You\U{2019}re in great shape! Keep up your current routine and stay active every day."
  const RoomToImprove: string :=
    "Your health is generally fine, but there\U{2019}s room for improvement. Exercise more regularly and eat balanced meals."
  const NeedsAttention: string :=
    "Your health level needs attention. Consider consulting a doctor or nutritionist for a personalized plan."

  /** The advice under the score: one for each of 0, 1 and 2, none otherwise. */
  function NoteOf(risk: Option<nat>): (note: string)
    ensures note != "" <==> risk == Some(0) || risk == Some(1) || risk == Some(2)
  {
    if risk == Some(0) then GreatShape
    else if risk == Some(1) then RoomToImprove
    else if risk == Some(2) then NeedsAttention
    else ""
  }

  /** What the panel shows. */
  datatype PanelView = Checking | Pending | Scored(score: string, tone: Tone, note: string)

  /** `decrypting ? … : decryptedResult ? … : pending`, with the risk read by `Number`. */
  function ViewOf(decrypting: bool, decryptedResult: Option<string>): PanelView {
    if decrypting then Checking
    else if decryptedResult.None? || decryptedResult.value == "" then Pending
    else
      var risk := ParseNumber(decryptedResult.value);
      Scored(decryptedResult.value, ToneOf(risk), NoteOf(risk))
  }

  /**
   * What the panel keeps of a decryption result: `null` as nothing, a
   * number as `value.toString()`.
   */
  function Stored(value: Option<nat>): Option<string> {
    if value.None? then None else Some(DecimalString(value.value))
  }

  /**
   * Whatever number the decryption yields is shown as a score, even 0 (its
   * string "0" is not empty), with the tone and note of that number; only a
   * `null` result is shown as pending.
   */
  lemma ScoreShown(value: Option<nat>)
    ensures ViewOf(false, Stored(value)) == Pending <==> value.None?
    ensures value.Some? ==>
      var v := value.value;
      ViewOf(false, Stored(value)) == Scored(DecimalString(v), ToneOf(Some(v)), NoteOf(Some(v)))
  {
    if value.Some? {
      DecimalRoundTrip(value.value);
    }
  }

  /** The report panel: which session it is about and what it has found. */
  class StatusPanel {
    var isStatusOpen: bool
    var statusSessionId: Option<nat>
    var decrypting: bool
    var decryptedResult: Option<string>
    var statusError: Option<string>

    constructor ()
      ensures !isStatusOpen && statusSessionId == None && !decrypting
      ensures decryptedResult == None && statusError == None
    {
      isStatusOpen, statusSessionId, decrypting := false, None, false;
      decryptedResult, statusError := None, None;
    }

    /**
     * `openStatusModal`: opens the panel on `sessionId`, clears what it
     * showed, asks for the result and stores `null` as nothing (pending), a
     * number as its decimal string, and a failure as its message.
     */
    method OpenStatusModal(ctx: Context, ledger: Ledger, env: DecryptEnv, sessionId: nat)
      returns (calls: seq<Call>)
      modifies this
      ensures isStatusOpen && statusSessionId == Some(sessionId) && !decrypting
      ensures var run := DecryptResultRun(ctx, ledger, env, sessionId);
        && calls == run.calls
        && (run.result == Success(None) ==> decryptedResult == None && statusError == None)
        && (run.result.Success? && run.result.value.Some? ==>
              decryptedResult == Some(DecimalString(run.result.value.value)) && statusError == None)
        && (run.result.Failure? ==> decryptedResult == None && statusError == Some(Message(run.result.error)))
    ensures var result := DecryptResultRun(ctx, ledger, env, sessionId).result;
        && (result.Success? && result.value.Some? ==>
              var v := result.value.value;
              View() == Scored(DecimalString(v), ToneOf(Some(v)), NoteOf(Some(v))))
        && (!(result.Success? && result.value.Some?) ==> View() == Pending)
    {
      isStatusOpen := true;
      statusSessionId := Some(sessionId);
      decrypting := true;
      decryptedResult := None;
      statusError := None;
      var r;
      r, calls := DecryptResult(ctx, ledger, env, sessionId);
      if r.Success? {
        decryptedResult := Stored(r.value);
        ScoreShown(r.value);
      } else {
        statusError := Some(Message(r.error));
      }
      decrypting := false;
    }

    /** What the panel shows. */
    function View(): PanelView
      reads this
    {
      ViewOf(decrypting, decryptedResult)
    }
  }
}
