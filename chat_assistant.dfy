/** The chat assistant use case: the prompt built from the student's
    message, context and recent history, the split of the model's answer
    into the explanation and at most three suggestions, and the fixed
    apology when the model cannot be reached. */
module ChatAssistant {
  import opened Wrappers
  import opened Text
  import opened GeminiClient

  /** One turn of the conversation as the client sends it; `role` is
      `'user'` or `'assistant'`. */
  datatype ChatMessage = ChatMessage(role: string, content: string)

  /** The optional context object; a field that is absent is `None`. */
  datatype ChatContext = ChatContext(temaActual: Option<string>, subtemaActual: Option<string>, ejercicioActual: Option<int>)

  /** An absent `historial` behaves as the empty history. */
  datatype ChatRequest = ChatRequest(mensaje: string, historial: seq<ChatMessage>, contexto: Option<ChatContext>)

  datatype ChatResponse = ChatResponse(respuesta: string, contextoUsado: bool, sugerencias: Option<seq<string>>)

  /** The answer split into the explanation and its suggestions. */
  datatype Parsed = Parsed(respuesta: string, sugerencias: seq<string>)

  /** The prompt, piece by piece; the fixed instruction text is one piece each. */
  datatype PromptPart =
    | Persona
    | ContextHeader
    | TemaLine(tema: string)
    | SubtemaLine(subtema: string)
    | EjercicioLine(ejercicio: int)
    | HistoryHeader
    | Turn(speaker: string, content: string)
    | CurrentMessage(mensaje: string)
    | FormatInstructions

  const CHAT_OPTIONS := GenerateOptions(Some(0.8), Some(2524))
  const APOLOGY := "Lo siento, no pude procesar tu pregunta en este momento. \U{BF}Podr\U{ED}as reformularla?"
  const SEPARATOR := "---SUGERENCIAS---"
  const HISTORY_WINDOW := 5
  const MAX_SUGGESTIONS := 3
  /** A listed suggestion must be longer than this. */
  const MIN_SUGGESTION_LENGTH := 10

  // ---------------------------------------------------------------- prompt

  function SpeakerLabel(role: string): string {
    if role == "user" then "Estudiante" else "LULU"
  }

  /** `historial.slice(-5)`: the last five turns, or all of them. */
  function RecentHistory(h: seq<ChatMessage>): (r: seq<ChatMessage>)
    ensures |r| == Min(|h|, HISTORY_WINDOW)
    ensures r == h[|h| - |r|..]
  {
    h[Max(0, |h| - HISTORY_WINDOW)..]
  }

  function Turns(h: seq<ChatMessage>): (r: seq<PromptPart>)
    ensures |r| == |h|
  {
    if h == [] then [] else Turns(h[..|h| - 1]) + [Turn(SpeakerLabel(h[|h| - 1].role), h[|h| - 1].content)]
  }

  /** A context field is written only when it is truthy. */
  function TemaPart(c: ChatContext): seq<PromptPart> {
    if c.temaActual.Some? && c.temaActual.value != [] then [TemaLine(c.temaActual.value)] else []
  }

  function SubtemaPart(c: ChatContext): seq<PromptPart> {
    if c.subtemaActual.Some? && c.subtemaActual.value != [] then [SubtemaLine(c.subtemaActual.value)] else []
  }

  function EjercicioPart(c: ChatContext): seq<PromptPart> {
    if c.ejercicioActual.Some? && c.ejercicioActual.value != 0 then [EjercicioLine(c.ejercicioActual.value)] else []
  }

  /** The context block: its header, then each truthy field. */
  function ContextBlock(c: ChatContext): seq<PromptPart> {
    [ContextHeader] + TemaPart(c) + SubtemaPart(c) + EjercicioPart(c)
  }

  function ContextSection(request: ChatRequest): seq<PromptPart> {
    if request.contexto.Some? then ContextBlock(request.contexto.value) else []
  }

  function HistorySection(request: ChatRequest): seq<PromptPart> {
    if |request.historial| > 0 then [HistoryHeader] + Turns(RecentHistory(request.historial)) else []
  }

  /** The prompt `buildPrompt` produces. */
  function PromptOf(request: ChatRequest): seq<PromptPart> {
    [Persona] + ContextSection(request) + HistorySection(request) + [CurrentMessage(request.mensaje), FormatInstructions]
  }

  /** The loop of `buildPrompt` over the recent history: one labelled line per turn. */
  method TurnLines(recent: seq<ChatMessage>) returns (lines: seq<PromptPart>)
    ensures lines == Turns(recent)
  {
    lines := [];
    for i := 0 to |recent|
      invariant lines == Turns(recent[..i])
    {
      assert recent[..i + 1][..i] == recent[..i];
      lines := lines + [Turn(SpeakerLabel(recent[i].role), recent[i].content)];
    }
    assert recent[..|recent|] == recent;
  }

  /** The context part of `buildPrompt`: the header, then a line per truthy field. */
  method ContextLines(c: ChatContext) returns (lines: seq<PromptPart>)
    ensures lines == ContextBlock(c)
  {
    lines := [ContextHeader];
    if c.temaActual.Some? && c.temaActual.value != [] {
      lines := lines + [TemaLine(c.temaActual.value)];
    }
    assert lines == [ContextHeader] + TemaPart(c);
    if c.subtemaActual.Some? && c.subtemaActual.value != [] {
      lines := lines + [SubtemaLine(c.subtemaActual.value)];
    }
    assert lines == [ContextHeader] + TemaPart(c) + SubtemaPart(c);
    if c.ejercicioActual.Some? && c.ejercicioActual.value != 0 {
      lines := lines + [EjercicioLine(c.ejercicioActual.value)];
    }
  }

  /** `buildPrompt`: appends the sections in order, one line per recent turn. */
  method BuildPrompt(request: ChatRequest) returns (prompt: seq<PromptPart>)
    ensures prompt == PromptOf(request)
  {
    prompt := [Persona];
    if request.contexto.Some? {
      var lines := ContextLines(request.contexto.value);
      prompt := prompt + lines;
    }
    assert prompt == [Persona] + ContextSection(request);
    if |request.historial| > 0 {
      var lines := TurnLines(RecentHistory(request.historial));
      prompt := prompt + ([HistoryHeader] + lines);
    }
    assert prompt == [Persona] + ContextSection(request) + HistorySection(request);
    prompt := prompt + [CurrentMessage(request.mensaje), FormatInstructions];
  }

  lemma {:induction false} TurnsAt(h: seq<ChatMessage>, k: nat)
    requires k < |h|
    ensures Turns(h)[k] == Turn(SpeakerLabel(h[k].role), h[k].content)
  {
    if k < |h| - 1 {
      TurnsAt(h[..|h| - 1], k);
    }
  }

  /** The history in the prompt is the last `min(n, 5)` turns, oldest first,
      each labelled by its speaker, right after the history header and right
      before the current message. */
  lemma HistoryInPrompt(request: ChatRequest)
    requires |request.historial| > 0
    ensures var p := PromptOf(request);
            var recent := RecentHistory(request.historial);
            var n := |recent|;
            && p[|p| - 3 - n] == HistoryHeader
            && (forall k :: 0 <= k < n ==> p[|p| - 2 - n + k] == Turn(SpeakerLabel(recent[k].role), recent[k].content))
            && p[|p| - 2] == CurrentMessage(request.mensaje)
  {
    var p := PromptOf(request);
    var recent := RecentHistory(request.historial);
    var n := |recent|;
    var q := [Persona] + ContextSection(request);
    var hs := HistorySection(request);
    assert hs == [HistoryHeader] + Turns(recent);
    assert p == q + hs + [CurrentMessage(request.mensaje), FormatInstructions];
    assert |p| == |q| + n + 3;
    assert p[|q|] == hs[0];
    forall k | 0 <= k < n
      ensures p[|q| + 1 + k] == Turn(SpeakerLabel(recent[k].role), recent[k].content)
    {
      assert p[|q| + 1 + k] == hs[1 + k] == Turns(recent)[k];
      TurnsAt(recent, k);
    }
  }

  /** Without history the prompt has no history section and no turn. */
  lemma NoHistoryNoTurns(request: ChatRequest)
    requires request.historial == []
    ensures HistoryHeader !in PromptOf(request)
    ensures forall k :: 0 <= k < |PromptOf(request)| ==> !PromptOf(request)[k].Turn?
  {
    var p := PromptOf(request);
    var cs := ContextSection(request);
    assert p == [Persona] + cs + [CurrentMessage(request.mensaje), FormatInstructions];
    assert forall k :: 0 <= k < |cs| ==> !cs[k].Turn? && cs[k] != HistoryHeader;
  }

  /** The theme line is in the prompt exactly when a context with a
      non-empty `tema_actual` was sent; likewise for the exercise line
      and a non-zero `ejercicio_actual`. */
  lemma ContextLinesInPrompt(request: ChatRequest, tema: string, ejercicio: int)
    ensures TemaLine(tema) in PromptOf(request) <==>
              (request.contexto.Some? && request.contexto.value.temaActual == Some(tema) && tema != [])
    ensures EjercicioLine(ejercicio) in PromptOf(request) <==>
              (request.contexto.Some? && request.contexto.value.ejercicioActual == Some(ejercicio) && ejercicio != 0)
    ensures ContextHeader in PromptOf(request) <==> request.contexto.Some?
  {
    var hs := HistorySection(request);
    assert forall k :: 0 <= k < |hs| ==> !hs[k].TemaLine? && !hs[k].EjercicioLine? && !hs[k].ContextHeader? by {
      if |request.historial| > 0 {
        var recent := RecentHistory(request.historial);
        forall k | 0 <= k < |recent| ensures Turns(recent)[k].Turn? {
          TurnsAt(recent, k);
        }
      }
    }
    var cs := ContextSection(request);
    if request.contexto.Some? {
      var c := request.contexto.value;
      assert cs == [ContextHeader] + TemaPart(c) + SubtemaPart(c) + EjercicioPart(c);
      assert TemaLine(tema) in cs <==> (c.temaActual == Some(tema) && tema != []);
      assert EjercicioLine(ejercicio) in cs <==> (c.ejercicioActual == Some(ejercicio) && ejercicio != 0);
    }
    var p := PromptOf(request);
    assert p == [Persona] + cs + hs + [CurrentMessage(request.mensaje), FormatInstructions];
  }

  // ------------------------------------------------- suggestions after the separator

  predicate IsBullet(c: char) {
    c == '-' || c == '*' || c == '\U{2022}'
  }

  /** On a trimmed line, `/^[-*•]\s+(.+)$/` matches when a bullet and at least
      one blank are followed by text that `.` can match to the end. */
  predicate BulletLine(t: string) {
    |t| >= 2 && IsBullet(t[0]) && IsWhitespace(t[1])
    && TrimStart(t[1..]) != [] && NoLineTerminator(TrimStart(t[1..]))
  }

  /** `/^\d+\.\s+(.+)$/`: digits, a dot, blanks and text. */
  predicate NumberedLine(t: string) {
    var d := |DigitPrefix(t)|;
    d >= 1 && d + 2 <= |t| && t[d] == '.' && IsWhitespace(t[d + 1])
    && TrimStart(t[d + 1..]) != [] && NoLineTerminator(TrimStart(t[d + 1..]))
  }

  /** Where the item of a trimmed line starts: after the bullet and its
      blanks on a bullet line, after the number, the dot and the blanks on a
      numbered line; what `replace` leaves of the line. Other lines have none. */
  function ItemStart(t: string): (k: Option<nat>)
    ensures k.Some? ==> k.value < |t| && NoLineTerminator(t[k.value..])
  {
    if BulletLine(t) then
      var rest := TrimStart(t[1..]);
      assert rest == t[|t| - |rest|..];
      Some(|t| - |rest|)
    else if NumberedLine(t) then
      var rest := TrimStart(t[|DigitPrefix(t)| + 1..]);
      assert rest == t[|t| - |rest|..];
      Some(|t| - |rest|)
    else None
  }

  /** Trimming keeps a line free of line breaks. */
  lemma TrimNoLineTerminator(s: string)
    requires NoLineTerminator(s)
    ensures NoLineTerminator(Trim(s))
  {
    var a, b := TrimIsSlice(s);
    SliceNoLineTerminator(s, a, b);
  }

  lemma SliceNoLineTerminator(s: string, a: nat, b: nat)
    requires a <= b <= |s| && NoLineTerminator(s)
    ensures NoLineTerminator(s[a..b])
  {
    forall i | 0 <= i < b - a ensures !IsLineTerminator(s[a..b][i]) {
      assert s[a..b][i] == s[a + i];
    }
  }

  /** The suggestion a line contributes: its trimmed item, when longer
      than ten characters. */
  function LineSuggestion(linea: string): Option<string> {
    var t := Trim(linea);
    match ItemStart(t)
    case Some(k) =>
      var s := Trim(t[k..]);
      if |s| > MIN_SUGGESTION_LENGTH then Some(s) else None
    case None => None
  }

  /** The values `f` yields on `xs`, in order, skipping the `None`s. */
  function FilterMap(xs: seq<string>, f: string -> Option<string>): (r: seq<string>)
    ensures |r| <= |xs|
  {
    if xs == [] then []
    else
      var prev := FilterMap(xs[..|xs| - 1], f);
      match f(xs[|xs| - 1])
      case Some(s) => prev + [s]
      case None => prev
  }

  /** One more element adds its value, if any, at the end. */
  lemma FilterMapSnoc(xs: seq<string>, i: nat, f: string -> Option<string>)
    requires i < |xs|
    ensures FilterMap(xs[..i + 1], f) ==
      if f(xs[i]).Some? then FilterMap(xs[..i], f) + [f(xs[i]).value] else FilterMap(xs[..i], f)
  {
    assert xs[..i + 1][..i] == xs[..i];
  }

  lemma {:induction false} FilterMapMeans(xs: seq<string>, f: string -> Option<string>)
    ensures forall s :: s in FilterMap(xs, f) ==> exists k :: 0 <= k < |xs| && f(xs[k]) == Some(s)
    ensures forall k :: 0 <= k < |xs| && f(xs[k]).Some? ==> f(xs[k]).value in FilterMap(xs, f)
  {
    if xs != [] {
      var init := xs[..|xs| - 1];
      FilterMapMeans(init, f);
      forall s | s in FilterMap(xs, f)
        ensures exists k :: 0 <= k < |xs| && f(xs[k]) == Some(s)
      {
        if s in FilterMap(init, f) {
          var k :| 0 <= k < |init| && f(init[k]) == Some(s);
          assert xs[k] == init[k];
        } else {
          assert f(xs[|xs| - 1]) == Some(s);
        }
      }
      forall k | 0 <= k < |xs| && f(xs[k]).Some?
        ensures f(xs[k]).value in FilterMap(xs, f)
      {
        if k < |init| {
          assert xs[k] == init[k];
        }
      }
    }
  }

  /** The loop over the lines of the suggestion section. */
  method CollectListed(lineas: seq<string>) returns (sugerencias: seq<string>)
    ensures sugerencias == FilterMap(lineas, LineSuggestion)
  {
    sugerencias := [];
    for i := 0 to |lineas|
      invariant sugerencias == FilterMap(lineas[..i], LineSuggestion)
    {
      FilterMapSnoc(lineas, i, LineSuggestion);
      var sugerencia := LineSuggestion(lineas[i]);
      if sugerencia.Some? {
        sugerencias := sugerencias + [sugerencia.value];
      }
    }
    assert lineas[..|lineas|] == lineas;
  }

  /** A suggestion a line contributes is longer than ten characters and has
      no line break. */
  lemma LineSuggestionShape(linea: string)
    ensures LineSuggestion(linea).Some? ==>
              |LineSuggestion(linea).value| > MIN_SUGGESTION_LENGTH && NoLineTerminator(LineSuggestion(linea).value)
  {
    var t := Trim(linea);
    var start := ItemStart(t);
    if start.Some? {
      var item := t[start.value..];
      TrimNoLineTerminator(item);
      assert LineSuggestion(linea) == if |Trim(item)| > MIN_SUGGESTION_LENGTH then Some(Trim(item)) else None;
    }
  }

  /** The listed suggestions are exactly the suggestions of the lines, and
      each is longer than ten characters and one line. */
  lemma ListedMeans(lineas: seq<string>)
    ensures forall s :: s in FilterMap(lineas, LineSuggestion) ==>
              && |s| > MIN_SUGGESTION_LENGTH && NoLineTerminator(s)
              && exists k :: 0 <= k < |lineas| && LineSuggestion(lineas[k]) == Some(s)
    ensures forall k :: 0 <= k < |lineas| && LineSuggestion(lineas[k]).Some? ==>
              LineSuggestion(lineas[k]).value in FilterMap(lineas, LineSuggestion)
  {
    FilterMapMeans(lineas, LineSuggestion);
    forall s | s in FilterMap(lineas, LineSuggestion)
      ensures |s| > MIN_SUGGESTION_LENGTH && NoLineTerminator(s)
    {
      var k :| 0 <= k < |lineas| && LineSuggestion(lineas[k]) == Some(s);
      LineSuggestionShape(lineas[k]);
    }
  }

  // ------------------------------------------------- suggestions by pattern

  /** `f` of each of `xs` in order, each kept unless already kept, until
      three are kept. */
  function Kept(xs: seq<string>, f: string -> string): (r: seq<string>)
    ensures |r| <= MAX_SUGGESTIONS
  {
    if xs == [] then []
    else
      var prev := Kept(xs[..|xs| - 1], f);
      var s := f(xs[|xs| - 1]);
      if |prev| < MAX_SUGGESTIONS && s !in prev then prev + [s] else prev
  }

  /** `extractSuggestions`, given the first captured group of every match of
      the two patterns, first pattern first: each group is trimmed and kept
      unless already kept, until three are kept. */
  function Extracted(grupos: seq<string>): (r: seq<string>)
    ensures |r| <= MAX_SUGGESTIONS
  {
    Kept(grupos, Trim)
  }

  method ExtractSuggestions(grupos: seq<string>) returns (sugerencias: seq<string>)
    ensures sugerencias == Extracted(grupos)
  {
    sugerencias := [];
    for i := 0 to |grupos|
      invariant sugerencias == Kept(grupos[..i], Trim)
    {
      assert grupos[..i + 1][..i] == grupos[..i];
      if |sugerencias| < MAX_SUGGESTIONS {
        var sugerencia := Trim(grupos[i]);
        if sugerencia !in sugerencias {
          sugerencias := sugerencias + [sugerencia];
        }
      }
    }
    assert grupos[..|grupos|] == grupos;
  }

  predicate Distinct(s: seq<string>) {
    forall i, j :: 0 <= i < j < |s| ==> s[i] != s[j]
  }

  lemma {:induction false} KeptDistinct(xs: seq<string>, f: string -> string)
    ensures Distinct(Kept(xs, f))
  {
    if xs != [] {
      KeptDistinct(xs[..|xs| - 1], f);
    }
  }

  lemma {:induction false} KeptFrom(xs: seq<string>, f: string -> string)
    ensures forall s :: s in Kept(xs, f) ==> exists k :: 0 <= k < |xs| && s == f(xs[k])
  {
    if xs != [] {
      var init := xs[..|xs| - 1];
      KeptFrom(init, f);
      forall s | s in Kept(xs, f)
        ensures exists k :: 0 <= k < |xs| && s == f(xs[k])
      {
        if s in Kept(init, f) {
          var k :| 0 <= k < |init| && s == f(init[k]);
          assert xs[k] == init[k];
        } else {
          assert s == f(xs[|xs| - 1]);
        }
      }
    }
  }

  lemma {:induction false} KeptComplete(xs: seq<string>, f: string -> string)
    ensures |Kept(xs, f)| < MAX_SUGGESTIONS ==> forall k :: 0 <= k < |xs| ==> f(xs[k]) in Kept(xs, f)
  {
    if xs != [] {
      var init := xs[..|xs| - 1];
      var prev := Kept(init, f);
      var r := Kept(xs, f);
      if |r| < MAX_SUGGESTIONS {
        KeptComplete(init, f);
        assert |prev| <= |r|;
        forall k | 0 <= k < |xs|
          ensures f(xs[k]) in r
        {
          if k < |init| {
            assert xs[k] == init[k];
            assert f(init[k]) in prev;
          }
        }
      }
    }
  }

  /** No suggestion is extracted twice. */
  lemma ExtractedDistinct(grupos: seq<string>)
    ensures Distinct(Extracted(grupos))
  {
    KeptDistinct(grupos, Trim);
  }

  /** Each extracted suggestion is a trimmed group. */
  lemma ExtractedFromGroups(grupos: seq<string>)
    ensures forall s :: s in Extracted(grupos) ==> exists k :: 0 <= k < |grupos| && s == Trim(grupos[k])
  {
    KeptFrom(grupos, Trim);
  }

  /** A group is left out only when three suggestions were kept already. */
  lemma ExtractedComplete(grupos: seq<string>)
    ensures |Extracted(grupos)| < MAX_SUGGESTIONS ==> forall k :: 0 <= k < |grupos| ==> Trim(grupos[k]) in Extracted(grupos)
  {
    KeptComplete(grupos, Trim);
  }

  // ------------------------------------------------- fallback suggestions

  const SUGGEST_FUNCTIONS := "Intenta crear tus propias funciones con diferentes par\U{E1}metros"
  const SUGGEST_RECURSION := "Practica con ejemplos de recursi\U{F3}n como factorial o Fibonacci"
  const SUGGEST_VARIABLES := "Experimenta declarando variables de diferentes tipos"
  const SUGGEST_LOOPS := "Practica con diferentes tipos de bucles (for, while, do-while)"
  const SUGGEST_ARRAYS := "Explora m\U{E9}todos de arrays como map, filter y reduce"
  const GENERIC_SUGGESTIONS := [
    "Intenta resolver ejercicios pr\U{E1}cticos sobre este tema",
    "Revisa la documentaci\U{F3}n oficial para profundizar",
    "Practica escribiendo c\U{F3}digo simple relacionado con lo aprendido"
  ]
  const TOPIC_SUGGESTIONS := [SUGGEST_FUNCTIONS, SUGGEST_RECURSION, SUGGEST_VARIABLES, SUGGEST_LOOPS, SUGGEST_ARRAYS]

  /** Which of the five topics the lower-cased answer mentions, each by
      any of its keywords. */
  function Mentioned(lower: string): (hits: seq<bool>)
    ensures |hits| == |TOPIC_SUGGESTIONS|
  {
    [ Contains(lower, "funci\U{F3}n") || Contains(lower, "funcion"),
      Contains(lower, "recursiv"),
      Contains(lower, "variable"),
      Contains(lower, "bucle") || Contains(lower, "loop") || Contains(lower, "for") || Contains(lower, "while"),
      Contains(lower, "array") || Contains(lower, "lista") || Contains(lower, "arreglo") ]
  }

  /** The suggestion of every mentioned topic, in order, or the generic
      three when none is mentioned; at most three either way. */
  function FallbackFrom(hits: seq<bool>): seq<string>
    requires |hits| == |TOPIC_SUGGESTIONS|
  {
    var topics := TopicsUpTo(hits, |hits|);
    Slice(if topics == [] then GENERIC_SUGGESTIONS else topics, MAX_SUGGESTIONS)
  }

  /** `generateFallbackSuggestions`. */
  function Fallback(respuesta: string): seq<string> {
    FallbackFrom(Mentioned(ToLower(respuesta)))
  }

  /** How many of the first `g` topics are mentioned. */
  function HitsBefore(hits: seq<bool>, g: nat): (n: nat)
    requires g <= |hits|
    ensures n <= g
  {
    if g == 0 then 0 else HitsBefore(hits, g - 1) + (if hits[g - 1] then 1 else 0)
  }

  /** The fallback gives one to three suggestions: the generic three when
      no topic is mentioned, and otherwise the suggestion of a topic exactly
      when it is mentioned and fewer than three topics before it are, at the
      place given by how many topics before it are mentioned, so in the
      order of the topics. */
  lemma FallbackMeans(hits: seq<bool>)
    requires |hits| == |TOPIC_SUGGESTIONS|
    ensures 1 <= |FallbackFrom(hits)| <= MAX_SUGGESTIONS
    ensures (forall g :: 0 <= g < |hits| ==> !hits[g]) ==> FallbackFrom(hits) == GENERIC_SUGGESTIONS
    ensures forall g :: 0 <= g < |hits| ==>
              (TOPIC_SUGGESTIONS[g] in FallbackFrom(hits) <==> hits[g] && HitsBefore(hits, g) < MAX_SUGGESTIONS)
    ensures forall g :: 0 <= g < |hits| && hits[g] && HitsBefore(hits, g) < MAX_SUGGESTIONS ==>
              HitsBefore(hits, g) < |FallbackFrom(hits)| && FallbackFrom(hits)[HitsBefore(hits, g)] == TOPIC_SUGGESTIONS[g]
    ensures (exists g :: 0 <= g < |hits| && hits[g]) ==>
              |FallbackFrom(hits)| == Min(HitsBefore(hits, |hits|), MAX_SUGGESTIONS)
  {
    SuggestionsDistinct();
    TopicsMembership(hits, |hits|);
    if forall g :: 0 <= g < |hits| ==> !hits[g] {
      NoHitsCounted(hits, |hits|);
    }
    forall g | 0 <= g < |hits| && hits[g]
      ensures HitsBefore(hits, g) < |TopicsUpTo(hits, |hits|)|
      ensures TopicsUpTo(hits, |hits|)[HitsBefore(hits, g)] == TOPIC_SUGGESTIONS[g]
    {
      TopicsAt(hits, |hits|, g);
    }
  }

  /** A mentioned topic's suggestion sits after those of the mentioned
      topics before it. */
  lemma {:induction false} TopicsAt(hits: seq<bool>, n: nat, g: nat)
    requires n <= |hits| == |TOPIC_SUGGESTIONS| && g < n && hits[g]
    ensures HitsBefore(hits, g) < |TopicsUpTo(hits, n)|
    ensures TopicsUpTo(hits, n)[HitsBefore(hits, g)] == TOPIC_SUGGESTIONS[g]
    decreases n
  {
    if g < n - 1 {
      TopicsAt(hits, n - 1, g);
    }
  }

  /** With no topic mentioned, none is counted. */
  lemma {:induction false} NoHitsCounted(hits: seq<bool>, n: nat)
    requires n <= |hits|
    requires forall g :: 0 <= g < n ==> !hits[g]
    ensures HitsBefore(hits, n) == 0
  {
    if n > 0 {
      NoHitsCounted(hits, n - 1);
    }
  }

  /** The five topic suggestions differ from each other and from the generic ones. */
  lemma SuggestionsDistinct()
    ensures forall i, j :: 0 <= i < j < |TOPIC_SUGGESTIONS| ==> TOPIC_SUGGESTIONS[i] != TOPIC_SUGGESTIONS[j]
    ensures forall g :: 0 <= g < |TOPIC_SUGGESTIONS| ==> TOPIC_SUGGESTIONS[g] !in GENERIC_SUGGESTIONS
  {
    assert SUGGEST_FUNCTIONS[60] == 's' && SUGGEST_RECURSION[60] == 'i';
    assert |SUGGEST_FUNCTIONS| == 61 && |SUGGEST_RECURSION| == 61 && |SUGGEST_VARIABLES| == 52;
    assert |SUGGEST_LOOPS| == 62 && |SUGGEST_ARRAYS| == 51;
    assert |GENERIC_SUGGESTIONS[0]| == 53 && |GENERIC_SUGGESTIONS[1]| == 48 && |GENERIC_SUGGESTIONS[2]| == 63;
  }

  /** The suggestions pushed for the mentioned topics among the first `n`,
      in the order of the topics. */
  function TopicsUpTo(hits: seq<bool>, n: nat): (r: seq<string>)
    requires n <= |hits| == |TOPIC_SUGGESTIONS|
    ensures |r| == HitsBefore(hits, n)
  {
    if n == 0 then [] else TopicsUpTo(hits, n - 1) + (if hits[n - 1] then [TOPIC_SUGGESTIONS[n - 1]] else [])
  }

  /** A topic's suggestion is among the first three of those built from the
      first `n` topics exactly when it is one of them, it is mentioned and
      fewer than three topics before it are. */
  lemma {:induction false} TopicsMembership(hits: seq<bool>, n: nat)
    requires n <= |hits| == |TOPIC_SUGGESTIONS|
    requires forall i, j :: 0 <= i < j < |TOPIC_SUGGESTIONS| ==> TOPIC_SUGGESTIONS[i] != TOPIC_SUGGESTIONS[j]
    ensures forall g :: 0 <= g < |hits| ==>
              (TOPIC_SUGGESTIONS[g] in Slice(TopicsUpTo(hits, n), MAX_SUGGESTIONS)
               <==> g < n && hits[g] && HitsBefore(hits, g) < MAX_SUGGESTIONS)
  {
    if n > 0 {
      TopicsMembership(hits, n - 1);
      var before := TopicsUpTo(hits, n - 1);
      var t := TopicsUpTo(hits, n);
      var kept := Slice(t, MAX_SUGGESTIONS);
      if |before| >= MAX_SUGGESTIONS {
        assert kept == Slice(before, MAX_SUGGESTIONS);
      } else {
        assert kept == before + (if hits[n - 1] then [TOPIC_SUGGESTIONS[n - 1]] else []);
        forall g | 0 <= g < |hits|
          ensures TOPIC_SUGGESTIONS[g] in kept <==> g < n && hits[g] && HitsBefore(hits, g) < MAX_SUGGESTIONS
        {
          assert TOPIC_SUGGESTIONS[g] in kept <==> TOPIC_SUGGESTIONS[g] in before || (hits[n - 1] && g == n - 1);
        }
      }
    }
  }

  /** The size part of `FallbackMeans`. */
  lemma FallbackBounded(hits: seq<bool>)
    requires |hits| == |TOPIC_SUGGESTIONS|
    ensures 1 <= |FallbackFrom(hits)| <= MAX_SUGGESTIONS
  {
    FallbackMeans(hits);
  }

  // ------------------------------------------------- parsing and the use case

  /** The suggestions listed after the separator found at `i`. */
  function SectionSuggestions(respuesta: string, i: nat): seq<string>
    requires i + |SEPARATOR| <= |respuesta|
  {
    FilterMap(Split(Trim(respuesta[i + |SEPARATOR|..]), '\n'), LineSuggestion)
  }

  /** The suggestions found, or the fallback when none were. */
  function OrFallback(found: seq<string>, respuesta: string): (r: seq<string>)
    requires |found| <= MAX_SUGGESTIONS
    ensures 1 <= |r| <= MAX_SUGGESTIONS
  {
    FallbackBounded(Mentioned(ToLower(respuesta)));
    if |found| > 0 then found else Fallback(respuesta)
  }

  /** The answer text and the suggestions found, before the fallback: the
      text before the first separator and at most three listed lines after
      it, or, without a separator, the whole answer and the pattern matches. */
  function Sections(respuesta: string, grupos: seq<string>): (r: (string, seq<string>))
    ensures |r.1| <= MAX_SUGGESTIONS
  {
    match Find(respuesta, SEPARATOR)
    case Some(i) => (Trim(respuesta[..i]), ListedAfter(respuesta, i))
    case None => (respuesta, Extracted(grupos))
  }

  /** At most three of the suggestions listed after the separator at `i`. */
  function ListedAfter(respuesta: string, i: nat): (r: seq<string>)
    requires i + |SEPARATOR| <= |respuesta|
    ensures |r| <= MAX_SUGGESTIONS
  {
    Slice(SectionSuggestions(respuesta, i), MAX_SUGGESTIONS)
  }

  function ParsedOf(respuesta: string, grupos: seq<string>): Parsed {
    var sections := Sections(respuesta, grupos);
    Parsed(sections.0, OrFallback(sections.1, respuesta))
  }

  /** `parseStructuredResponse`, given the pattern groups of the answer. */
  method ParseStructuredResponse(respuesta: string, grupos: seq<string>) returns (parsed: Parsed)
    ensures parsed == ParsedOf(respuesta, grupos)
  {
    var separadorIndex := Find(respuesta, SEPARATOR);
    var principal: string;
    var encontradas: seq<string>;
    if separadorIndex.Some? {
      principal := Trim(respuesta[..separadorIndex.value]);
      var seccionSugerencias := Trim(respuesta[separadorIndex.value + |SEPARATOR|..]);
      var sugerencias := CollectListed(Split(seccionSugerencias, '\n'));
      assert sugerencias == SectionSuggestions(respuesta, separadorIndex.value);
      encontradas := Slice(sugerencias, MAX_SUGGESTIONS);
    } else {
      principal := respuesta;
      encontradas := ExtractSuggestions(grupos);
    }
    assert (principal, encontradas) == Sections(respuesta, grupos);
    parsed := Parsed(principal, OrFallback(encontradas, respuesta));
  }

  /** An answer with a separator keeps only the text before the first
      separator, which therefore holds no separator. */
  lemma AnswerHasNoSeparator(respuesta: string, grupos: seq<string>)
    requires Find(respuesta, SEPARATOR).Some?
    ensures !Contains(ParsedOf(respuesta, grupos).respuesta, SEPARATOR)
  {
    HeadBeforeFirstHasNone(respuesta, SEPARATOR, Find(respuesta, SEPARATOR).value);
  }

  /** What `execute` answers. */
  function Answer(request: ChatRequest, client: (seq<PromptPart>, GenerateOptions) -> Result<string, string>,
                  groups: string -> seq<string>): ChatResponse
  {
    match client(PromptOf(request), CHAT_OPTIONS)
    case Err(_) => ChatResponse(APOLOGY, false, None)
    case Ok(text) =>
      var parsed := ParsedOf(text, groups(text));
      ChatResponse(Trim(parsed.respuesta), request.contexto.Some?, Some(parsed.sugerencias))
  }

  /** `execute`: the client's failure becomes the fixed apology; nothing is thrown. */
  method Execute(request: ChatRequest, client: (seq<PromptPart>, GenerateOptions) -> Result<string, string>,
                 groups: string -> seq<string>) returns (r: ChatResponse)
    ensures r == Answer(request, client, groups)
  {
    var prompt := BuildPrompt(request);
    var respuesta := client(prompt, CHAT_OPTIONS);
    if respuesta.Err? {
      return ChatResponse(APOLOGY, false, None);
    }
    var parsed := ParseStructuredResponse(respuesta.value, groups(respuesta.value));
    r := ChatResponse(Trim(parsed.respuesta), request.contexto.Some?, Some(parsed.sugerencias));
  }

  /** A reply is either the apology without context or suggestions, or a
      trimmed explanation with one to three suggestions that reports the
      context as used exactly when one was sent. */
  lemma AnswerMeans(request: ChatRequest, client: (seq<PromptPart>, GenerateOptions) -> Result<string, string>,
                    groups: string -> seq<string>)
    ensures var r := Answer(request, client, groups);
            if client(PromptOf(request), CHAT_OPTIONS).Err? then
              r == ChatResponse(APOLOGY, false, None)
            else
              && (r.contextoUsado <==> request.contexto.Some?)
              && r.sugerencias.Some? && 1 <= |r.sugerencias.value| <= MAX_SUGGESTIONS
              && (r.respuesta == [] || (!IsWhitespace(r.respuesta[0]) && !IsWhitespace(r.respuesta[|r.respuesta| - 1])))
  {
    var out := client(PromptOf(request), CHAT_OPTIONS);
  }
}
