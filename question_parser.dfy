/** The answer parser of the question generator
    (GenerateQuestionsUseCase.parseResponse): the JSON candidate is parsed;
    when that fails it is repaired (cut back to the last complete object
    before the error position, the unfinished tail removed, dangling commas
    dropped, missing closers appended) and parsed once more; the questions
    found are completed with default values. */
module QuestionParser {
  import opened Wrappers
  import opened Text
  import opened Json
  import opened Reconcile

  /** What the generator appends when the answer stops before any `}`. */
  const QUESTION_CLOSER := "\n      ]\n    }\n  ]\n}"
  const NO_QUESTIONS_ARRAY := "Formato de respuesta inválido: falta array de preguntas"
  /** The TypeErrors of the runtime for the property reads of the parser. */
  const NULL_PREGUNTAS := "Cannot read properties of null (reading 'preguntas')"
  const NULL_TEXTO := "Cannot read properties of null (reading 'texto')"
  const OPCIONES_NOT_MAPPABLE := "(p.opciones || []).map is not a function"

  datatype GeneratedOption = GeneratedOption(texto: Json, esCorrecta: Json, explicacion: Json)

  datatype GeneratedQuestion = GeneratedQuestion(
    texto: Json,
    opciones: seq<GeneratedOption>,
    dificultad: Json,
    retroalimentacionCorrecta: Json,
    retroalimentacionIncorrecta: Json,
    explicacionDetallada: Json,
    puntos: Json)

  // ---------------------------------------------------------------------
  // Regular-expression matches anchored at the end of the text
  // ---------------------------------------------------------------------

  /** `"\s*:\s*"[^"]*$` matches at `i`: a key whose string value is unfinished. */
  predicate OpenStringAt(s: string, i: nat) {
    i < |s| && s[i] == '"'
    && var a := SkipWs(s, i + 1);
    a < |s| && s[a] == ':'
    && var b := SkipWs(s, a + 1);
    b < |s| && s[b] == '"' && '"' !in s[b + 1..]
  }

  predicate EndsValue(c: char) {
    c == ',' || c == '}' || c == ']'
  }

  /** `"\s*:\s*[^,}\]]*$` matches at `i`: a key whose value is unfinished. */
  predicate OpenValueAt(s: string, i: nat) {
    i < |s| && s[i] == '"'
    && var a := SkipWs(s, i + 1);
    a < |s| && s[a] == ':' && forall k :: a < k < |s| ==> !EndsValue(s[k])
  }

  /** Removes a trailing key whose string value has no closing quote. */
  function DropOpenString(s: string): (r: string)
    ensures |r| <= |s| && r == s[..|r|]
    ensures |r| < |s| ==> OpenStringAt(s, |r|) && forall k :: 0 <= k < |r| ==> !OpenStringAt(s, k)
    ensures |r| == |s| ==> forall k :: 0 <= k < |s| ==> !OpenStringAt(s, k)
  {
    var at := (i: nat) => OpenStringAt(s, i);
    assert forall k: nat :: at(k) == OpenStringAt(s, k);
    CutAtLeftmost(s, at)
  }

  /** Removes a trailing key whose value runs to the end of the text. */
  function DropOpenValue(s: string): (r: string)
    ensures |r| <= |s| && r == s[..|r|]
    ensures |r| < |s| ==> OpenValueAt(s, |r|) && forall k :: 0 <= k < |r| ==> !OpenValueAt(s, k)
    ensures |r| == |s| ==> forall k :: 0 <= k < |s| ==> !OpenValueAt(s, k)
  {
    var at := (i: nat) => OpenValueAt(s, i);
    assert forall k: nat :: at(k) == OpenValueAt(s, k);
    CutAtLeftmost(s, at)
  }

  // ---------------------------------------------------------------------
  // Dangling commas: `,(\s*)]` -> `$1]` and `,(\s*)}` -> `$1}`, global
  // ---------------------------------------------------------------------

  /** The comma at `k` is followed, past whitespace, by `close`. */
  predicate DanglingAt(s: string, k: nat, close: char) {
    k < |s| && s[k] == ',' && SkipWs(s, k + 1) < |s| && s[SkipWs(s, k + 1)] == close
  }

  /** The number of dangling commas before `k`. */
  function DroppedBefore(s: string, close: char, k: nat): (n: nat)
    requires k <= |s|
    ensures n <= k
  {
    if k == 0 then 0 else DroppedBefore(s, close, k - 1) + (if DanglingAt(s, k - 1, close) then 1 else 0)
  }

  /** Between `a` and `b` there are at most `b - a` dangling commas. */
  lemma {:induction false} DroppedBetween(s: string, close: char, a: nat, b: nat)
    requires a <= b <= |s|
    ensures DroppedBefore(s, close, a) <= DroppedBefore(s, close, b) <= DroppedBefore(s, close, a) + (b - a)
    decreases b - a
  {
    if a < b {
      DroppedBetween(s, close, a, b - 1);
    }
  }

  /** The characters of `s[k..]` that are not dangling commas, in order. */
  function KeepFrom(s: string, close: char, k: nat): (r: string)
    requires k <= |s|
    ensures |r| <= |s| - k
    ensures |r| == (|s| - k) - (DroppedBefore(s, close, |s|) - DroppedBefore(s, close, k))
    ensures forall ch :: ch != ',' ==> Count(r, ch) == Count(s[k..], ch)
    decreases |s| - k
  {
    if k == |s| then []
    else
      var rest := KeepFrom(s, close, k + 1);
      assert s[k..][1..] == s[k + 1..];
      if DanglingAt(s, k, close) then rest else [s[k]] + rest
  }

  /** Where the character at `j` lands once the dangling commas before it
      are gone. */
  function Landing(s: string, close: char, j: nat): int
    requires j <= |s|
  {
    j - DroppedBefore(s, close, j)
  }

  /** One step of `KeepFrom`. */
  lemma KeepStep(s: string, close: char, k: nat)
    requires k < |s|
    ensures KeepFrom(s, close, k) ==
      if DanglingAt(s, k, close) then KeepFrom(s, close, k + 1) else [s[k]] + KeepFrom(s, close, k + 1)
  {
  }

  /** Where `KeepFrom` puts the character at `j`: at `j - k` less the
      dangling commas between. */
  lemma {:induction false} KeepFromPlaces(s: string, close: char, k: nat, j: nat)
    requires k <= j < |s| && !DanglingAt(s, j, close)
    ensures DroppedBefore(s, close, k) <= DroppedBefore(s, close, j)
    ensures 0 <= (j - k) - (DroppedBefore(s, close, j) - DroppedBefore(s, close, k)) < |KeepFrom(s, close, k)|
    ensures KeepFrom(s, close, k)[(j - k) - (DroppedBefore(s, close, j) - DroppedBefore(s, close, k))] == s[j]
    decreases j - k
  {
    DroppedBetween(s, close, j + 1, |s|);
    KeepStep(s, close, k);
    if k < j {
      KeepFromPlaces(s, close, k + 1, j);
    }
  }

  /** Every comma whose next non-whitespace character is `close` is removed;
      all other characters stay, in order: the one at `j` moves left by the
      number of dangling commas before it. */
  function DropDangling(s: string, close: char): (r: string)
    ensures |r| <= |s|
    ensures |r| == |s| - DroppedBefore(s, close, |s|)
    ensures forall j {:trigger Landing(s, close, j)} :: 0 <= j < |s| && !DanglingAt(s, j, close) ==>
      0 <= Landing(s, close, j) < |r| && r[Landing(s, close, j)] == s[j]
    ensures forall ch :: ch != ',' ==> Count(r, ch) == Count(s, ch)
  {
    assert s[0..] == s;
    KeptInPlace(s, close);
    KeepFrom(s, close, 0)
  }

  /** `KeepFromPlaces` from the start of the text, for every position. */
  lemma KeptInPlace(s: string, close: char)
    ensures forall j {:trigger Landing(s, close, j)} :: 0 <= j < |s| && !DanglingAt(s, j, close) ==>
      0 <= Landing(s, close, j) < |KeepFrom(s, close, 0)| && KeepFrom(s, close, 0)[Landing(s, close, j)] == s[j]
  {
    forall j | 0 <= j < |s| && !DanglingAt(s, j, close)
      ensures 0 <= Landing(s, close, j) < |KeepFrom(s, close, 0)| && KeepFrom(s, close, 0)[Landing(s, close, j)] == s[j]
    {
      KeepFromPlaces(s, close, 0, j);
    }
  }

  // ---------------------------------------------------------------------
  // Cutting back to the last complete object before the error position
  // ---------------------------------------------------------------------

  /** `/position (\d+)/` matches at `i`. */
  predicate PositionAt(msg: string, i: nat) {
    OccursAt(msg, "position ", i) && i + 9 < |msg| && IsDigit(msg[i + 9])
  }

  /** The number after the first "position " of a SyntaxError message. */
  function ErrorPosition(msg: string): (r: Option<nat>)
    ensures r.None? ==> forall i :: 0 <= i < |msg| ==> !PositionAt(msg, i)
    ensures r.Some? ==>
      (exists i :: 0 <= i < |msg| && PositionAt(msg, i)
                   && (forall k :: 0 <= k < i ==> !PositionAt(msg, k))
                   && r.value == DigitsValue(DigitPrefix(msg[i + 9..])))
  {
    var at := (i: nat) => PositionAt(msg, i);
    assert forall k: nat :: at(k) == PositionAt(msg, k);
    match Leftmost(0, |msg|, at)
    case None => None
    case Some(i) => Some(DigitsValue(DigitPrefix(msg[i + 9..])))
  }

  /** Index `i` holds a `}` not preceded by `"`, and the next non-whitespace
      character after it is a comma. */
  predicate ClosesBeforeComma(s: string, i: nat) {
    i < |s| && s[i] == '}' && (i == 0 || s[i - 1] != '"')
    && SkipWs(s, i + 1) < |s| && s[SkipWs(s, i + 1)] == ','
  }

  /** Scanning down from `k - 1`: the position just after the comma that
      follows the first such `}`. */
  function LastCut(s: string, k: nat): Option<nat> {
    if k == 0 then None
    else if ClosesBeforeComma(s, k - 1) then Some(SkipWs(s, k) + 1)
    else LastCut(s, k - 1)
  }

  /** The scan finds the highest such `}` below `k`, and nothing when there
      is none. */
  lemma {:induction false} LastCutMeans(s: string, k: nat)
    ensures LastCut(s, k).None? ==> forall i :: 0 <= i < k ==> !ClosesBeforeComma(s, i)
    ensures LastCut(s, k).Some? ==>
      (exists i :: 0 <= i < k && ClosesBeforeComma(s, i)
                   && LastCut(s, k).value == SkipWs(s, i + 1) + 1
                   && (forall i' :: i < i' < k ==> !ClosesBeforeComma(s, i')))
  {
    if k > 0 && !ClosesBeforeComma(s, k - 1) {
      LastCutMeans(s, k - 1);
    }
  }

  /** Where the candidate is cut for the error position `pos`: after the last
      "`}` then comma" before `pos`, else at `pos` itself. */
  function TruncatePos(s: string, pos: nat): nat {
    match LastCut(s, pos)
    case Some(t) => t
    case None => pos
  }

  /** A cut after a complete object keeps that object and the comma after it. */
  lemma TruncateAfterObject(s: string, pos: nat)
    requires LastCut(s, pos).Some?
    ensures 0 < TruncatePos(s, pos) <= |s| && s[TruncatePos(s, pos) - 1] == ','
    ensures exists i :: 0 <= i < TruncatePos(s, pos) - 1 && i < pos && s[i] == '}'
                          && AllWhitespace(s[i + 1..TruncatePos(s, pos) - 1])
  {
    LastCutMeans(s, pos);
  }

  /** One step of the downward scan. */
  lemma LastCutStep(s: string, i: nat)
    ensures ClosesBeforeComma(s, i) ==> LastCut(s, i + 1) == Some(SkipWs(s, i + 1) + 1)
    ensures !ClosesBeforeComma(s, i) ==> LastCut(s, i + 1) == LastCut(s, i)
  {
  }

  /** `while (j < s.length && /\s/.test(s[j])) j++`. */
  method SkipWhitespace(s: string, j0: nat) returns (j: nat)
    requires j0 <= |s|
    ensures j == SkipWs(s, j0)
  {
    j := j0;
    while j < |s| && IsWhitespace(s[j])
      invariant j0 <= j <= |s|
      invariant SkipWs(s, j0) == SkipWs(s, j)
    {
      j := j + 1;
    }
  }

  /** One step of the backward scan: the cut after the comma following a
      `}` at `i`, when there is one. */
  method CutAfter(s: string, i: nat) returns (cut: Option<nat>)
    ensures cut.Some? <==> ClosesBeforeComma(s, i)
    ensures cut.Some? ==> cut.value == SkipWs(s, i + 1) + 1
  {
    cut := None;
    if i < |s| && s[i] == '}' && (i == 0 || s[i - 1] != '"') {
      var j := SkipWhitespace(s, i + 1);
      if j < |s| && s[j] == ',' {
        cut := Some(j + 1);
      }
    }
  }

  /** The backward scan over the candidate, from `pos - 1` down to 0. */
  method FindTruncatePos(s: string, pos: nat) returns (t: nat)
    ensures t == TruncatePos(s, pos)
  {
    var k: nat := pos;
    while k > 0
      invariant k <= pos
      invariant LastCut(s, pos) == LastCut(s, k)
    {
      var cut := CutAfter(s, k - 1);
      LastCutStep(s, k - 1);
      if cut.Some? {
        return cut.value;
      }
      k := k - 1;
    }
    t := pos;
  }

  // ---------------------------------------------------------------------
  // Appending the missing closers
  // ---------------------------------------------------------------------

  /** The trimmed text already ends in `}` or `]`. */
  predicate EndsClosed(s: string) {
    var t := Trim(s);
    t != [] && (t[|t| - 1] == '}' || t[|t| - 1] == ']')
  }

  /** What is appended: one "\n}" per unclosed `{`, then one "\n]" per
      unclosed `[`, unless the text already ends in a closer. */
  function ClosersFor(s: string): string {
    if EndsClosed(s) then []
    else
      Repeat("\n}", Max(0, Count(s, '{') - Count(s, '}')))
      + Repeat("\n]", Max(0, Count(s, '[') - Count(s, ']')))
  }

  /** One counting loop: appends `closer` `n` times (none when `n` is not
      positive). */
  method AppendClosers(r0: string, closer: string, n: int) returns (r: string)
    ensures r == r0 + Repeat(closer, Max(0, n))
  {
    r := r0;
    var i := 0;
    while i < n
      invariant 0 <= i <= Max(0, n)
      invariant r == r0 + Repeat(closer, i)
    {
      assert r0 + Repeat(closer, i + 1) == r0 + Repeat(closer, i) + closer;
      r := r + closer;
      i := i + 1;
    }
  }

  /** The two counting loops of the source. */
  method CloseStructures(s: string) returns (r: string)
    ensures r == s + ClosersFor(s)
  {
    r := s;
    if !EndsClosed(s) {
      var bracesToClose := Count(s, '{') - Count(s, '}');
      var bracketsToClose := Count(s, '[') - Count(s, ']');
      r := AppendClosers(r, "\n}", bracesToClose);
      r := AppendClosers(r, "\n]", bracketsToClose);
      assert r == s + (Repeat("\n}", Max(0, bracesToClose)) + Repeat("\n]", Max(0, bracketsToClose)));
    } else {
      assert ClosersFor(s) == [];
    }
  }

  /** Counting `open` and `close` over a text followed by `n` copies of a
      line holding `close` alone. */
  lemma CountWithClosers(s: string, n: nat, close: char, open: char, rest: string)
    requires open != close && open != '\n' && close != '\n'
    requires Count(rest, open) == 0 && Count(rest, close) == 0
    ensures Count(s + Repeat(['\n', close], n) + rest, open) == Count(s, open)
    ensures Count(s + Repeat(['\n', close], n) + rest, close) == Count(s, close) + n
  {
    var a := Repeat(['\n', close], n);
    CountAppend(s + a, rest, open);
    CountAppend(s + a, rest, close);
    CountAppend(s, a, open);
    CountAppend(s, a, close);
    CountRepeat(['\n', close], n, open);
    CountRepeat(['\n', close], n, close);
    assert Count(['\n', close], open) == 0 by {
      assert ['\n', close][1..] == [close];
    }
    assert Count(['\n', close], close) == 1 by {
      assert ['\n', close][1..] == [close];
    }
  }

  lemma CountLine(close: char, c: char)
    requires c != close && c != '\n'
    ensures Count(['\n', close], c) == 0
  {
    assert ['\n', close][1..] == [close];
  }

  /** After the closers every `{` and `[` has a partner, and where the text
      had at least as many openers as closers the counts are equal. */
  lemma {:induction false} ClosersBalance(s: string)
    requires !EndsClosed(s)
    ensures Count(s + ClosersFor(s), '{') <= Count(s + ClosersFor(s), '}')
    ensures Count(s + ClosersFor(s), '[') <= Count(s + ClosersFor(s), ']')
    ensures Count(s, '{') >= Count(s, '}') ==> Count(s + ClosersFor(s), '{') == Count(s + ClosersFor(s), '}')
    ensures Count(s, '[') >= Count(s, ']') ==> Count(s + ClosersFor(s), '[') == Count(s + ClosersFor(s), ']')
  {
    var nb := Max(0, Count(s, '{') - Count(s, '}'));
    var nk := Max(0, Count(s, '[') - Count(s, ']'));
    var a := Repeat("\n}", nb);
    var b := Repeat("\n]", nk);
    assert s + ClosersFor(s) == s + a + b;
    assert s + ClosersFor(s) == [] + (s + a + b);
    CountLine(']', '{');
    CountLine(']', '}');
    CountRepeat("\n]", nk, '{');
    CountRepeat("\n]", nk, '}');
    CountWithClosers(s, nb, '}', '{', b);
    CountLine('}', '[');
    CountLine('}', ']');
    CountRepeat("\n}", nb, '[');
    CountRepeat("\n}", nb, ']');
    CountWithClosers(s + a, nk, ']', '[', []);
    assert s + a + b + [] == s + a + b;
    CountAppend(s, a, '[');
    CountAppend(s, a, ']');
  }

  // ---------------------------------------------------------------------
  // The repair and the whole parser
  // ---------------------------------------------------------------------

  /** The SyntaxError message says a token was expected or unexpected. */
  predicate MentionsExpected(msg: string) {
    Contains(msg, "Expected") || Contains(msg, "Unexpected")
  }

  /** The cut and the three tail clean-ups, applied only for messages about
      an expected or unexpected token. */
  function TrimUnfinishedTail(json: string, msg: string): (r: string)
    ensures |r| <= |json|
  {
    if MentionsExpected(msg) then
      var cut := match ErrorPosition(msg)
        case None => json
        case Some(pos) => json[..Min(TruncatePos(json, pos), |json|)];
      DropOpenValue(DropOpenString(DropTrailingComma(cut)))
    else
      json
  }

  /** The repaired candidate that is parsed the second time. */
  function Repair(json: string, msg: string): (r: string)
    ensures StartsWith(r, DropDangling(DropDangling(TrimUnfinishedTail(json, msg), ']'), '}'))
  {
    var r1 := DropDangling(DropDangling(TrimUnfinishedTail(json, msg), ']'), '}');
    r1 + ClosersFor(r1)
  }

  /** The repair as the source performs it, step by step. */
  method RepairCandidate(json: string, msg: string) returns (r: string)
    ensures r == Repair(json, msg)
  {
    r := json;
    if Contains(msg, "Expected") || Contains(msg, "Unexpected") {
      var errorPos := ErrorPosition(msg);
      if errorPos.Some? {
        var truncatePos := FindTruncatePos(r, errorPos.value);
        r := r[..Min(truncatePos, |r|)];
      }
      r := DropTrailingComma(r);
      r := DropOpenString(r);
      r := DropOpenValue(r);
    }
    r := DropDangling(r, ']');
    r := DropDangling(r, '}');
    r := CloseStructures(r);
  }

  /** `v` is the field `given` when that is truthy, and `d` otherwise: the
      source's `given || d`. */
  predicate Defaulted(v: Json, given: Option<Json>, d: Json) {
    (Truthy(given) ==> Some(v) == given) && (!Truthy(given) ==> v == d)
  }

  /** `o.texto || 'Opción i'` and the other option defaults; reading a field
      of null throws. */
  function CompleteOption(o: Json, i: nat): (r: Result<GeneratedOption, string>)
    ensures r.Err? <==> o.JNull?
    ensures r.Ok? ==> Truthy(Some(r.value.texto)) && Truthy(Some(r.value.explicacion))
    ensures r.Ok? ==>
      && Defaulted(r.value.texto, Get(o, "texto"), JString("Opción " + NatToString(i + 1)))
      && Defaulted(r.value.esCorrecta, Get(o, "es_correcta"), JBool(false))
      && Defaulted(r.value.explicacion, Get(o, "explicacion"), JString("Sin explicación"))
  {
    if o.JNull? then Err(NULL_TEXTO)
    else
      Ok(GeneratedOption(
        Or(Get(o, "texto"), JString("Opción " + NatToString(i + 1))),
        Or(Get(o, "es_correcta"), JBool(false)),
        Or(Get(o, "explicacion"), JString("Sin explicación"))))
  }

  /** The options from index `from` on, numbered from `from + 1`. */
  function CompleteOptions(os: seq<Json>, from: nat): (r: Result<seq<GeneratedOption>, string>)
    requires from <= |os|
    ensures r.Ok? ==> |r.value| == |os| - from
    ensures r.Ok? ==> forall k :: 0 <= k < |r.value| ==> CompleteOption(os[from + k], from + k) == Ok(r.value[k])
    ensures r.Ok? ==> forall k :: 0 <= k < |r.value| ==>
      Truthy(Some(r.value[k].texto)) && Truthy(Some(r.value[k].explicacion))
    ensures r.Err? <==> exists k :: from <= k < |os| && os[k].JNull?
    decreases |os| - from
  {
    if from == |os| then Ok([])
    else
      match CompleteOption(os[from], from)
      case Err(e) => Err(e)
      case Ok(o) =>
        match CompleteOptions(os, from + 1)
        case Err(e) => Err(e)
        case Ok(rest) => Ok([o] + rest)
  }

  /** A default question field is always truthy. */
  predicate Completed(q: GeneratedQuestion) {
    && Truthy(Some(q.texto)) && Truthy(Some(q.dificultad))
    && Truthy(Some(q.retroalimentacionCorrecta)) && Truthy(Some(q.retroalimentacionIncorrecta))
    && Truthy(Some(q.explicacionDetallada)) && Truthy(Some(q.puntos))
    && forall k :: 0 <= k < |q.opciones| ==>
      Truthy(Some(q.opciones[k].texto)) && Truthy(Some(q.opciones[k].explicacion))
  }

  /** One element of `preguntas` completed with the defaults of the source. */
  function CompleteQuestion(p: Json, index: nat): (r: Result<GeneratedQuestion, string>)
    ensures p.JNull? ==> r == Err(NULL_TEXTO)
    ensures !p.JNull? && Truthy(Get(p, "opciones")) && !Get(p, "opciones").value.JArray? ==> r == Err(OPCIONES_NOT_MAPPABLE)
    ensures r.Ok? ==> Completed(r.value)
    ensures r.Ok? ==>
      && Defaulted(r.value.texto, Get(p, "texto"), JString("Pregunta " + NatToString(index + 1)))
      && Defaulted(r.value.dificultad, Get(p, "dificultad"), JString("intermedia"))
      && Defaulted(r.value.retroalimentacionCorrecta, Get(p, "retroalimentacion_correcta"), JString("¡Correcto!"))
      && Defaulted(r.value.retroalimentacionIncorrecta, Get(p, "retroalimentacion_incorrecta"), JString("Incorrecto."))
      && Defaulted(r.value.puntos, Get(p, "puntos"), JNumber(10))
    ensures r.Ok? && !Truthy(Get(p, "explicacion_detallada")) ==>
      Defaulted(r.value.explicacionDetallada, Get(p, "retroalimentacion_correcta"), JString("Ver retroalimentación"))
    ensures r.Ok? && Truthy(Get(p, "explicacion_detallada")) ==>
      Some(r.value.explicacionDetallada) == Get(p, "explicacion_detallada")
    ensures r.Ok? && !Truthy(Get(p, "opciones")) ==> r.value.opciones == []
    ensures r.Ok? && Truthy(Get(p, "opciones")) ==>
      && Get(p, "opciones").value.JArray?
      && |r.value.opciones| == |Get(p, "opciones").value.items|
      && forall j :: 0 <= j < |r.value.opciones| ==> CompleteOption(Get(p, "opciones").value.items[j], j) == Ok(r.value.opciones[j])
  {
    if p.JNull? then Err(NULL_TEXTO)
    else
      var texto := Or(Get(p, "texto"), JString("Pregunta " + NatToString(index + 1)));
      var opciones := Or(Get(p, "opciones"), JArray([]));
      if !opciones.JArray? then Err(OPCIONES_NOT_MAPPABLE)
      else
        match CompleteOptions(opciones.items, 0)
        case Err(e) => Err(e)
        case Ok(os) =>
          Ok(GeneratedQuestion(
            texto,
            os,
            Or(Get(p, "dificultad"), JString("intermedia")),
            Or(Get(p, "retroalimentacion_correcta"), JString("¡Correcto!")),
            Or(Get(p, "retroalimentacion_incorrecta"), JString("Incorrecto.")),
            Or(Get(p, "explicacion_detallada"), Or(Get(p, "retroalimentacion_correcta"), JString("Ver retroalimentación"))),
            Or(Get(p, "puntos"), JNumber(10))))
  }

  /** `preguntas.map(...)` from index `from` on; the first element that
      throws decides the error. */
  function CompleteQuestions(ps: seq<Json>, from: nat): (r: Result<seq<GeneratedQuestion>, string>)
    requires from <= |ps|
    ensures r.Ok? ==> |r.value| == |ps| - from && forall k :: 0 <= k < |r.value| ==> Completed(r.value[k])
    ensures r.Ok? ==> forall k :: 0 <= k < |r.value| ==> CompleteQuestion(ps[from + k], from + k) == Ok(r.value[k])
    ensures (exists k :: from <= k < |ps| && ps[k].JNull?) ==> r.Err?
    decreases |ps| - from
  {
    if from == |ps| then Ok([])
    else
      match CompleteQuestion(ps[from], from)
      case Err(e) => Err(e)
      case Ok(q) =>
        match CompleteQuestions(ps, from + 1)
        case Err(e) => Err(e)
        case Ok(rest) => Ok([q] + rest)
  }

  /** Everything after `JSON.parse` succeeded: the `preguntas` array check
      and the completion of its elements. */
  function QuestionsOf(v: Json): (r: Result<seq<GeneratedQuestion>, string>)
    ensures r.Ok? ==> IsArray(Get(v, "preguntas")) && |r.value| == |Get(v, "preguntas").value.items|
    ensures r.Ok? ==> forall k :: 0 <= k < |r.value| ==> Completed(r.value[k])
    ensures r.Ok? ==> forall k :: 0 <= k < |r.value| ==>
      CompleteQuestion(Get(v, "preguntas").value.items[k], k) == Ok(r.value[k])
    ensures !v.JNull? && !IsArray(Get(v, "preguntas")) ==> r == Err(NO_QUESTIONS_ARRAY)
  {
    if v.JNull? then Err(NULL_PREGUNTAS)
    else
      var preguntas := Get(v, "preguntas");
      if !Truthy(preguntas) || !IsArray(preguntas) then Err(NO_QUESTIONS_ARRAY)
      else CompleteQuestions(preguntas.value.items, 0)
  }

  /** The candidate parsed, or repaired and parsed again; a second failure
      reports the message of the first. */
  function ParseCandidate(json: string, parse: string -> ParseOutcome): (r: Result<Json, string>)
    ensures parse(json).Parsed? ==> r == Ok(parse(json).value)
    ensures r.Err? ==> parse(json).Failed? && r.error == PARSE_ERROR + parse(json).message
  {
    match parse(json)
    case Parsed(v) => Ok(v)
    case Failed(m) =>
      match parse(Repair(json, m))
      case Parsed(v) => Ok(v)
      case Failed(_) => Err(PARSE_ERROR + m)
  }

  /** From the fence-free text on: candidate, parse (with repair), questions. */
  function QuestionsOfClean(clean: string, parse: string -> ParseOutcome): (r: Result<seq<GeneratedQuestion>, string>)
    ensures r.Ok? ==> forall k :: 0 <= k < |r.value| ==> Completed(r.value[k])
  {
    match ExtractCandidate(clean, QUESTION_CLOSER)
    case Err(e) => Err(e)
    case Ok(json) =>
      match ParseCandidate(json, parse)
      case Err(e) => Err(e)
      case Ok(v) => QuestionsOf(v)
  }

  /** `parseResponse` of the question generator. Every error it reports
      carries the prefix INVALID_ANSWER. */
  function ParseQuestions(respuesta: string, parse: string -> ParseOutcome): (r: Result<seq<GeneratedQuestion>, string>)
    ensures r.Err? ==> StartsWith(r.error, INVALID_ANSWER)
    ensures AllWhitespace(respuesta) ==> r == Err(INVALID_ANSWER + EMPTY_ANSWER)
    ensures r.Ok? ==> forall k :: 0 <= k < |r.value| ==> Completed(r.value[k])
  {
    if AllWhitespace(respuesta) then Err(INVALID_ANSWER + EMPTY_ANSWER)
    else Prefixed(QuestionsOfClean(StripFences(Trim(respuesta)), parse))
  }

  /** The two `JSON.parse` attempts, around the repair method. */
  method ParseWithRepair(json: string, parse: string -> ParseOutcome) returns (r: Result<Json, string>)
    ensures r == ParseCandidate(json, parse)
  {
    match parse(json)
    case Parsed(v) =>
      r := Ok(v);
    case Failed(m) =>
      var repaired := RepairCandidate(json, m);
      match parse(repaired)
      case Parsed(v) =>
        r := Ok(v);
      case Failed(_) =>
        r := Err(PARSE_ERROR + m);
  }

  /** The parser as the source runs it: the repair is the method above. */
  method ParseResponse(respuesta: string, parse: string -> ParseOutcome)
    returns (r: Result<seq<GeneratedQuestion>, string>)
    ensures r == ParseQuestions(respuesta, parse)
  {
    if AllWhitespace(respuesta) {
      return Err(INVALID_ANSWER + EMPTY_ANSWER);
    }
    var cleanResponse := StripFences(Trim(respuesta));
    var candidate := ExtractCandidate(cleanResponse, QUESTION_CLOSER);
    if candidate.Err? {
      return Err(INVALID_ANSWER + candidate.error);
    }
    var parsed := ParseWithRepair(candidate.value, parse);
    if parsed.Err? {
      return Err(INVALID_ANSWER + parsed.error);
    }
    var questions := QuestionsOf(parsed.value);
    if questions.Err? {
      return Err(INVALID_ANSWER + questions.error);
    }
    r := Ok(questions.value);
  }

  /** An answer that is one JSON object text in a "```json" block, which
      `JSON.parse` accepts, yields the questions of that value and never goes
      through the repair. */
  lemma FencedAnswerParsedDirectly(w1: string, b: string, w2: string, parse: string -> ParseOutcome)
    requires AllWhitespace(w1) && AllWhitespace(w2)
    requires |b| >= 1 && b[0] == '{' && b[|b| - 1] == '}'
    requires parse(b).Parsed?
    ensures ParseQuestions("```json" + w1 + b + w2 + "```", parse) == Prefixed(QuestionsOf(parse(b).value))
  {
    FencedAnswerCleaned(w1, b, w2);
    CandidateOfObjectText(b, QUESTION_CLOSER);
    assert QuestionsOfClean(b, parse) == QuestionsOf(parse(b).value);
  }

  /** The same for the bare object text with whitespace around it. */
  lemma BareAnswerParsedDirectly(w1: string, b: string, w2: string, parse: string -> ParseOutcome)
    requires AllWhitespace(w1) && AllWhitespace(w2)
    requires |b| >= 1 && b[0] == '{' && b[|b| - 1] == '}'
    requires parse(b).Parsed?
    ensures ParseQuestions(w1 + b + w2, parse) == Prefixed(QuestionsOf(parse(b).value))
  {
    var s := w1 + b + w2;
    assert !AllWhitespace(s) by { assert s[|w1|] == '{'; }
    BareObjectKept(w1, b, w2);
    CandidateOfObjectText(b, QUESTION_CLOSER);
    assert QuestionsOfClean(b, parse) == QuestionsOf(parse(b).value);
  }
}
