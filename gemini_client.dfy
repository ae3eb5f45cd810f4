/** The Gemini client: up to three calls to the model, retried after a
    transient error with an exponential wait. The SDK call is an oracle that
    gives, for each attempt number, the text or the error message it
    produced; the waits are returned instead of slept. */
module GeminiClient {
  import opened Wrappers
  import opened Text

  const MAX_INTENTOS := 3
  const DEFAULT_MODEL := "gemini-1.5-flash-002"
  const NO_API_KEY := "GEMINI_API_KEY no está configurada"
  const CALL_ERROR := "Error al llamar a Gemini: "
  const MAX_ATTEMPTS_REACHED := "Máximo de intentos alcanzado"

  /** What one `generateContent` call did; an error without a message has
      `None`. */
  datatype SdkOutcome = Answer(text: string) | Failure(message: Option<string>)

  /** The options a use case passes; `None` is an absent field. */
  datatype GenerateOptions = GenerateOptions(temperature: Option<real>, maxTokens: Option<int>)

  datatype GenerationConfig = GenerationConfig(temperature: real, maxOutputTokens: int)

  /** The client's model name, or the error of its constructor. */
  function Connect(apiKey: Option<string>, modelSetting: Option<string>): (r: Result<string, string>)
    ensures r.Err? <==> apiKey == None || apiKey == Some([])
    ensures r.Err? ==> r.error == NO_API_KEY
    ensures r.Ok? && modelSetting.Some? && modelSetting.value != [] ==> r.value == modelSetting.value
    ensures r.Ok? && (modelSetting == None || modelSetting == Some([])) ==> r.value == DEFAULT_MODEL
  {
    if apiKey == None || apiKey == Some([]) then Err(NO_API_KEY)
    else if modelSetting.Some? && modelSetting.value != [] then Ok(modelSetting.value)
    else Ok(DEFAULT_MODEL)
  }

  /** `options?.temperature || 0.7` and `options?.maxTokens || 1500`: a zero
      is replaced like an absent field. */
  function ConfigFor(options: GenerateOptions): (c: GenerationConfig)
    ensures options.temperature.Some? && options.temperature.value != 0.0 ==> c.temperature == options.temperature.value
    ensures options.temperature == None || options.temperature == Some(0.0) ==> c.temperature == 0.7
    ensures options.maxTokens.Some? && options.maxTokens.value != 0 ==> c.maxOutputTokens == options.maxTokens.value
    ensures options.maxTokens == None || options.maxTokens == Some(0) ==> c.maxOutputTokens == 1500
  {
    GenerationConfig(
      if options.temperature.Some? && options.temperature.value != 0.0 then options.temperature.value else 0.7,
      if options.maxTokens.Some? && options.maxTokens.value != 0 then options.maxTokens.value else 1500)
  }

  const TRANSIENT_MARKERS: seq<string> := ["RATE_LIMIT", "RESOURCE_EXHAUSTED", "UNAVAILABLE", "429", "503"]

  /** `esErrorTemporal`: the upper-cased message mentions one of the markers. */
  predicate IsTransient(message: Option<string>) {
    var upper := if message.Some? then ToUpper(message.value) else [];
    exists k :: 0 <= k < |TRANSIENT_MARKERS| && Contains(upper, TRANSIENT_MARKERS[k])
  }

  lemma UpperOfLower(s: string)
    ensures ToUpper(ToLower(s)) == ToUpper(s)
  {
  }

  /** The classification does not depend on the letter case of the message. */
  lemma TransientIgnoresCase(m: string)
    ensures IsTransient(Some(ToLower(m))) == IsTransient(Some(m))
  {
    UpperOfLower(m);
  }

  /** An error mentioning a 429 or 503 status is transient, and one with no
      message is not. */
  lemma StatusCodesAreTransient(m: string, i: nat)
    requires OccursAt(m, "429", i) || OccursAt(m, "503", i)
    ensures IsTransient(Some(m))
    ensures !IsTransient(None)
  {
    var u := ToUpper(m);
    assert u[i..i + 3] == m[i..i + 3];
    if OccursAt(m, "429", i) {
      assert OccursAt(u, TRANSIENT_MARKERS[3], i);
    } else {
      assert OccursAt(u, TRANSIENT_MARKERS[4], i);
    }
    assert !OccursAt([], "429", 0);
    forall k | 0 <= k < |TRANSIENT_MARKERS|
      ensures !Contains([], TRANSIENT_MARKERS[k])
    {
      assert !OccursAt([], TRANSIENT_MARKERS[k], 0);
    }
  }

  /** `Math.pow(2, k)`. */
  function Pow2(k: nat): (p: nat)
    ensures p >= 1
  {
    if k == 0 then 1 else 2 * Pow2(k - 1)
  }

  /** What `generate` returns from attempt `k` on, when attempts before it
      failed transiently. */
  function OutcomeFrom(call: nat -> SdkOutcome, k: nat): (r: Result<string, string>)
    requires 1 <= k <= MAX_INTENTOS
    decreases MAX_INTENTOS - k
  {
    match call(k)
    case Answer(text) => Ok(text)
    case Failure(m) =>
      if k < MAX_INTENTOS && IsTransient(m) then OutcomeFrom(call, k + 1)
      else Err(CALL_ERROR + (if m.Some? then m.value else "undefined"))
  }

  /** How many attempts `generate` makes. */
  function AttemptsFrom(call: nat -> SdkOutcome, k: nat): (n: nat)
    requires 1 <= k <= MAX_INTENTOS
    ensures k <= n <= MAX_INTENTOS
    decreases MAX_INTENTOS - k
  {
    match call(k)
    case Answer(_) => k
    case Failure(m) => if k < MAX_INTENTOS && IsTransient(m) then AttemptsFrom(call, k + 1) else k
  }

  /** The waits `2^k * 1000` ms after failed attempts 1 .. n - 1. */
  function Waits(n: nat): (w: seq<int>)
    ensures |w| == if n == 0 then 0 else n - 1
    ensures forall k :: 1 <= k < n ==> w[k - 1] == Pow2(k) * 1000
  {
    if n <= 1 then [] else Waits(n - 1) + [Pow2(n - 1) * 1000]
  }

  /** `generate`: returns the text of the first successful attempt, or the
      error of the last one; `intentos` calls were made and `esperas` are the
      waits between them. */
  method Generate(prompt: string, options: GenerateOptions, call: nat -> SdkOutcome)
    returns (r: Result<string, string>, intentos: nat, esperas: seq<int>, config: GenerationConfig)
    ensures r == OutcomeFrom(call, 1)
    ensures intentos == AttemptsFrom(call, 1)
    ensures esperas == Waits(intentos)
    ensures config == ConfigFor(options)
  {
    intentos := 0;
    esperas := [];
    config := ConfigFor(options);
    while intentos < MAX_INTENTOS
      invariant 0 <= intentos < MAX_INTENTOS
      invariant esperas == Waits(intentos + 1)
      invariant OutcomeFrom(call, 1) == OutcomeFrom(call, intentos + 1)
      invariant AttemptsFrom(call, 1) == AttemptsFrom(call, intentos + 1)
      decreases MAX_INTENTOS - intentos
    {
      intentos := intentos + 1;
      match call(intentos)
      case Answer(text) =>
        r := Ok(text);
        return;
      case Failure(m) =>
        if intentos < MAX_INTENTOS && IsTransient(m) {
          TransientRetried(call, intentos);
          esperas := esperas + [Pow2(intentos) * 1000];
          continue;
        }
        r := Err(CALL_ERROR + (if m.Some? then m.value else "undefined"));
        return;
    }
    assert false;
    r := Err(MAX_ATTEMPTS_REACHED);
  }

  /** An error that is not transient ends the call after one attempt. */
  lemma NonTransientStops(call: nat -> SdkOutcome)
    ensures call(1).Failure? && !IsTransient(call(1).message) ==> AttemptsFrom(call, 1) == 1
    ensures call(1).Failure? && !IsTransient(call(1).message) ==>
      OutcomeFrom(call, 1) == Err(CALL_ERROR + (if call(1).message.Some? then call(1).message.value else "undefined"))
  {
  }

  /** A transient failure before the last attempt moves on to the next one. */
  lemma TransientRetried(call: nat -> SdkOutcome, k: nat)
    requires 1 <= k < MAX_INTENTOS
    requires call(k).Failure? && IsTransient(call(k).message)
    ensures OutcomeFrom(call, k) == OutcomeFrom(call, k + 1)
    ensures AttemptsFrom(call, k) == AttemptsFrom(call, k + 1)
  {
  }

  /** The text of the first successful attempt after transient failures is
      returned as it is, and the waits before it were 2000 and 4000 ms. */
  lemma FirstAnswerReturned(call: nat -> SdkOutcome, k: nat, text: string)
    requires 1 <= k <= MAX_INTENTOS
    requires forall j :: 1 <= j < k ==> call(j).Failure? && IsTransient(call(j).message)
    requires call(k) == Answer(text)
    ensures OutcomeFrom(call, 1) == Ok(text)
    ensures AttemptsFrom(call, 1) == k
    ensures Waits(k) == [2000, 4000][..k - 1]
  {
    AnswerEnds(call, k, text);
    if k == 2 {
      TransientRetried(call, 1);
    } else if k == 3 {
      TransientRetried(call, 1);
      TransientRetried(call, 2);
      assert Waits(3) == Waits(2) + [4000];
    }
  }

  /** An attempt that answers is the last one and gives its text. */
  lemma AnswerEnds(call: nat -> SdkOutcome, k: nat, text: string)
    requires 1 <= k <= MAX_INTENTOS
    requires call(k) == Answer(text)
    ensures OutcomeFrom(call, k) == Ok(text)
    ensures AttemptsFrom(call, k) == k
  {
  }

  /** Three transient failures end in the error of the third. */
  lemma ThreeTransientFailures(call: nat -> SdkOutcome, m: string)
    requires forall j :: 1 <= j <= MAX_INTENTOS ==> call(j).Failure? && IsTransient(call(j).message)
    requires call(3) == Failure(Some(m))
    ensures OutcomeFrom(call, 1) == Err(CALL_ERROR + m)
    ensures AttemptsFrom(call, 1) == 3
  {
    assert call(1).Failure? && call(2).Failure?;
  }
}
