/** The answer parser and the scoring of the code validator
    (ValidateCodeUseCase.parseResponse and calcularPuntos). */
module CodeParser {
  import opened Wrappers
  import opened Text
  import opened Json
  import opened Reconcile

  /** What the validator appends when the answer stops before any `}`. */
  const CODE_CLOSER := "\n  ]\n}"
  const GENERIC_FEEDBACK := "Se encontraron problemas en el código. Por favor, revisa la lógica implementada."
  const NULL_RESULTADO := "Cannot read properties of null (reading 'resultado')"
  const MAX_POINTS := 100

  /** The fields of the parsed answer the validator reads, after the defaults. */
  datatype CodeReport = CodeReport(
    resultado: Json,
    retroalimentacionEducativa: Json,
    erroresEncontrados: Json,
    casosPruebaPasados: Json,
    casosPruebaTotales: Json,
    sugerenciasMejora: Json)

  /** The repair of the validator: close the text when it does not end in `}`. */
  function RepairAsWritten(json: string): string {
    if !EndsWith(json, "}") then DropTrailingComma(json) + "\n}" else json
  }

  /** The candidate always ends in `}`, so the repair never changes it. */
  lemma RepairIsIdentity(clean: string)
    requires ExtractCandidate(clean, CODE_CLOSER).Ok?
    ensures RepairAsWritten(ExtractCandidate(clean, CODE_CLOSER).value) == ExtractCandidate(clean, CODE_CLOSER).value
  {
    var json := ExtractCandidate(clean, CODE_CLOSER).value;
    assert json[|json| - 1..] == "}";
  }

  /** The two `JSON.parse` attempts. */
  function ParseCandidate(json: string, parse: string -> ParseOutcome): Result<Json, string> {
    match parse(json)
    case Parsed(v) => Ok(v)
    case Failed(m) =>
      match parse(RepairAsWritten(json))
      case Parsed(v) => Ok(v)
      case Failed(_) => Err(PARSE_ERROR + m)
  }

  /** Since the repair is the identity, the second attempt repeats the first:
      a candidate is accepted exactly when `JSON.parse` accepts it, and a
      failure reports the first message. */
  lemma SecondAttemptRepeatsFirst(clean: string, parse: string -> ParseOutcome)
    requires ExtractCandidate(clean, CODE_CLOSER).Ok?
    ensures var json := ExtractCandidate(clean, CODE_CLOSER).value;
      parse(json).Parsed? ==> ParseCandidate(json, parse) == Ok(parse(json).value)
    ensures var json := ExtractCandidate(clean, CODE_CLOSER).value;
      parse(json).Failed? ==> ParseCandidate(json, parse) == Err(PARSE_ERROR + parse(json).message)
  {
    RepairIsIdentity(clean);
  }

  function TypeName(v: Json): string {
    match v
    case JBool(_) => "boolean"
    case JNumber(_) | JNaN | JInfinity(_) => "number"
    case JString(_) => "string"
    case _ => "object"
  }

  /** The field defaults written onto the parsed value. Writing a property of
      a boolean, number or string fails in strict mode; `null` fails on the
      first read. */
  function ReportOf(v: Json): (r: Result<CodeReport, string>)
    ensures r.Ok? <==> v.JObject? || v.JArray?
    ensures r.Ok? ==> Truthy(Some(r.value.resultado)) && Truthy(Some(r.value.retroalimentacionEducativa))
    ensures r.Ok? && Truthy(Get(v, "resultado")) ==> Some(r.value.resultado) == Get(v, "resultado")
    ensures r.Ok? && !Truthy(Get(v, "resultado")) ==> r.value.resultado == JString("error")
  {
    match v
    case JNull => Err(NULL_RESULTADO)
    case JBool(_) | JNumber(_) | JString(_) | JNaN | JInfinity(_) =>
      Err("Cannot create property 'resultado' on " + TypeName(v) + " '" + JsString(v) + "'")
    case _ =>
      Ok(CodeReport(
        Or(Get(v, "resultado"), JString("error")),
        Or(Get(v, "retroalimentacion_educativa"), JString(GENERIC_FEEDBACK)),
        Or(Get(v, "errores_encontrados"), JArray([])),
        Or(Get(v, "casos_prueba_pasados"), JNumber(0)),
        Or(Get(v, "casos_prueba_totales"), JNumber(0)),
        Or(Get(v, "sugerencias_mejora"), JArray([]))))
  }

  /** From the fence-free text on: candidate, parse, report. */
  function ReportOfClean(clean: string, parse: string -> ParseOutcome): (r: Result<CodeReport, string>)
    ensures r.Ok? ==> Truthy(Some(r.value.resultado)) && Truthy(Some(r.value.retroalimentacionEducativa))
  {
    match ExtractCandidate(clean, CODE_CLOSER)
    case Err(e) => Err(e)
    case Ok(json) =>
      match ParseCandidate(json, parse)
      case Err(e) => Err(e)
      case Ok(v) => ReportOf(v)
  }

  /** `parseResponse` of the code validator. */
  function ParseCode(respuesta: string, parse: string -> ParseOutcome): (r: Result<CodeReport, string>)
    ensures r.Err? ==> StartsWith(r.error, INVALID_ANSWER)
    ensures AllWhitespace(respuesta) ==> r == Err(INVALID_ANSWER + EMPTY_ANSWER)
    ensures r.Ok? ==> Truthy(Some(r.value.resultado)) && Truthy(Some(r.value.retroalimentacionEducativa))
  {
    if AllWhitespace(respuesta) then Err(INVALID_ANSWER + EMPTY_ANSWER)
    else Prefixed(ReportOfClean(StripFences(Trim(respuesta)), parse))
  }

  /** An answer that is one JSON object text in a "```json" block is the
      report of the value `JSON.parse` gives for it, and when `JSON.parse`
      rejects it the error names the first message. */
  lemma FencedCodeAnswer(w1: string, b: string, w2: string, parse: string -> ParseOutcome)
    requires AllWhitespace(w1) && AllWhitespace(w2)
    requires |b| >= 1 && b[0] == '{' && b[|b| - 1] == '}'
    ensures parse(b).Failed? ==>
      ParseCode("```json" + w1 + b + w2 + "```", parse) == Prefixed(Err(PARSE_ERROR + parse(b).message))
    ensures parse(b).Parsed? ==>
      ParseCode("```json" + w1 + b + w2 + "```", parse) == Prefixed(ReportOf(parse(b).value))
  {
    var s := "```json" + w1 + b + w2 + "```";
    FencedAnswerCleaned(w1, b, w2);
    assert ParseCode(s, parse) == Prefixed(ReportOfClean(b, parse));
    ObjectTextReport(b, parse);
  }

  /** The report of a JSON object text: the repair never matters. */
  lemma ObjectTextReport(b: string, parse: string -> ParseOutcome)
    requires |b| >= 1 && b[0] == '{' && b[|b| - 1] == '}'
    ensures parse(b).Parsed? ==> ReportOfClean(b, parse) == ReportOf(parse(b).value)
    ensures parse(b).Failed? ==> ReportOfClean(b, parse) == Err(PARSE_ERROR + parse(b).message)
  {
    CandidateOfObjectText(b, CODE_CLOSER);
    SecondAttemptRepeatsFirst(b, parse);
  }

  // ---------------------------------------------------------------------
  // Scoring
  // ---------------------------------------------------------------------

  /** A JavaScript number as the model sees it: an integer, an infinity or
      NaN. */
  datatype Points = Finite(value: int) | Infinite(negative: bool) | NaN

  /** The number as a value of the response. */
  function PointsJson(p: Points): (r: Json)
    ensures r.JNumber? <==> p.Finite?
    ensures Truthy(Some(r)) <==> !(p == Finite(0) || p.NaN?)
  {
    match p
    case Finite(n) => JNumber(n)
    case Infinite(negative) => JInfinity(negative)
    case NaN => JNaN
  }

  /** A text of an optional sign and decimal digits, read as `Number` does. */
  function IntegerLiteral(t: string): Option<int> {
    var negative := t != [] && t[0] == '-';
    var body := if t != [] && (t[0] == '-' || t[0] == '+') then t[1..] else t;
    if body != [] && forall i :: 0 <= i < |body| ==> IsDigit(body[i]) then
      var v: int := DigitsValue(body);
      Some(if negative then -v else v)
    else
      None
  }

  /** `Number(s)` of a text: blank is 0, an integer literal its value,
      anything else NaN. */
  function TextToNumber(s: string): (r: Points)
    ensures r.Finite? || r.NaN?
  {
    if Trim(s) == [] then Finite(0)
    else match IntegerLiteral(Trim(s)) case Some(n) => Finite(n) case None => NaN
  }

  /** `Number(v)` as the division applies it: an array goes through its
      text, an object is NaN. */
  function ToNumber(v: Json): (r: Points)
    ensures v.JNumber? ==> r == Finite(v.n)
    ensures v.JObject? || v.JNaN? ==> r.NaN?
  {
    match v
    case JNull => Finite(0)
    case JBool(b) => Finite(if b then 1 else 0)
    case JNumber(n) => Finite(n)
    case JNaN => NaN
    case JInfinity(negative) => Infinite(negative)
    case JString(s) => TextToNumber(s)
    case JArray(items) => TextToNumber(JoinItems(items))
    case JObject(_) => NaN
  }

  /** `Math.round(m * (p / t))` for a positive `m`: a finite quotient is
      rounded, division of a non-zero number by zero gives an infinity of
      its sign, and 0/0, ∞/∞ and NaN give NaN. */
  function ScaledQuotient(m: int, p: Points, t: Points): (r: Points)
    requires m > 0
    ensures p.Finite? && t.Finite? && t.value != 0 ==> r == Finite(RoundDiv(m * p.value, t.value))
    ensures p.Finite? && t.Finite? && t.value == 0 ==> (r.NaN? <==> p.value == 0)
    ensures p.NaN? || t.NaN? ==> r.NaN?
  {
    match (p, t)
    case (Finite(a), Finite(b)) =>
      if b != 0 then Finite(RoundDiv(m * a, b))
      else if a == 0 then NaN
      else Infinite(a < 0)
    case (Finite(_), Infinite(_)) => Finite(0)
    case (Infinite(n), Finite(b)) => Infinite(n != (b < 0))
    case _ => NaN
  }

  /** `calcularPuntos` as written: 100 for "correcto"; for "incorrecto" with
      truthy passed cases the rounded share of passed cases, whatever it is;
      0 otherwise. */
  function CalcularPuntos(report: CodeReport, puntosMaximos: int): (r: Points)
    requires puntosMaximos > 0
    ensures report.resultado == JString("correcto") ==> r == Finite(puntosMaximos)
    ensures report.resultado != JString("correcto")
            && !(report.resultado == JString("incorrecto") && Truthy(Some(report.casosPruebaPasados)))
            ==> r == Finite(0)
  {
    if report.resultado == JString("correcto") then Finite(puntosMaximos)
    else if report.resultado == JString("incorrecto") && Truthy(Some(report.casosPruebaPasados)) then
      ScaledQuotient(puntosMaximos, ToNumber(report.casosPruebaPasados), ToNumber(report.casosPruebaTotales))
    else Finite(0)
  }

  function Report(resultado: string, pasados: int, totales: Option<int>): CodeReport {
    CodeReport(
      JString(resultado), JString(GENERIC_FEEDBACK), JArray([]), JNumber(pasados),
      match totales case Some(t) => JNumber(t) case None => JNumber(0),
      JArray([]))
  }

  /** The score leaves 0..100: a failed answer that passes cases but omits
      `casos_prueba_totales` (defaulted to 0) divides by zero, and one that
      reports more passed cases than cases scores above the maximum. */
  lemma ScoreOutOfRange()
    ensures ReportOf(JObject([("resultado", JString("incorrecto")), ("casos_prueba_pasados", JNumber(3))]))
      == Ok(Report("incorrecto", 3, None))
    ensures CalcularPuntos(Report("incorrecto", 3, None), MAX_POINTS) == Infinite(false)
    ensures CalcularPuntos(Report("incorrecto", 5, Some(3)), MAX_POINTS) == Finite(167)
  {
    var v := JObject([("resultado", JString("incorrecto")), ("casos_prueba_pasados", JNumber(3))]);
    GetMeans(v, "retroalimentacion_educativa");
    GetMeans(v, "errores_encontrados");
    GetMeans(v, "casos_prueba_totales");
    GetMeans(v, "sugerencias_mejora");
  }

  /** The evidently intended score: the share of passed cases, clamped to the
      number of cases, rounded as `Math.round` does; 0 when there are no
      cases or no passed case. */
  function PuntosObtenidos(report: CodeReport): (r: int)
    ensures 0 <= r <= MAX_POINTS
    ensures report.resultado == JString("correcto") ==> r == MAX_POINTS
    ensures report.resultado != JString("correcto") && report.resultado != JString("incorrecto") ==> r == 0
  {
    if report.resultado == JString("correcto") then MAX_POINTS
    else if report.resultado == JString("incorrecto") && Truthy(Some(report.casosPruebaPasados)) then
      match (ToNumber(report.casosPruebaPasados), ToNumber(report.casosPruebaTotales))
      case (Finite(p), Finite(t)) =>
        if t <= 0 then 0
        else
          var passed := if p < 0 then 0 else if p > t then t else p;
          var r := RoundDiv(MAX_POINTS * passed, t);
          assert 0 <= r <= MAX_POINTS by { PercentBounds(passed, t); }
          r
      case _ => 0
    else 0
  }

  /** On sane answers (0 <= passed <= cases, at least one case) the corrected
      score is the score of the source. */
  lemma CorrectedAgreesOnSaneReports(report: CodeReport)
    requires report.resultado == JString("incorrecto")
    requires report.casosPruebaPasados.JNumber? && report.casosPruebaTotales.JNumber?
    requires 0 <= report.casosPruebaPasados.n <= report.casosPruebaTotales.n
    requires report.casosPruebaTotales.n > 0
    ensures CalcularPuntos(report, MAX_POINTS) == Finite(PuntosObtenidos(report))
  {
  }
}
