/** The code-validation use case (ValidateCodeUseCase): the in-memory cache
    (keyed by the normalised code), then the stored feedback table (keyed by
    the raw code's hash), and only then the model, whose answer is parsed and
    scored. Every failure becomes the fixed error response. */
module ValidateCode {
  import opened Wrappers
  import opened Text
  import opened Json
  import opened CodeParser
  import opened Cache
  import opened GeminiClient

  const RETRY_MESSAGE := "Hubo un error al procesar tu código. Por favor, intenta nuevamente."
  const FEEDBACK_KIND := "validacion_codigo"
  /** The options of the model call. */
  const VALIDATION_OPTIONS := GenerateOptions(Some(0.3), Some(2500))

  datatype CodeRequest = CodeRequest(codigo: string, ejercicioId: int, usuarioId: int, lenguaje: string)

  datatype CodeResponse = CodeResponse(
    resultado: Json,
    puntosObtenidos: Json,
    retroalimentacionLlm: Json,
    erroresEncontrados: Json,
    casosPruebaPasados: Json,
    casosPruebaTotales: Json)

  /** A row of the stored feedback table: `contexto` is the JSON context
      written with it, `fecha` its generation time. */
  datatype FeedbackRecord = FeedbackRecord(usuarioId: int, tipo: string, contenido: Json, contexto: Json, fecha: int)

  /** The values of the prompt; its wording is not modelled. */
  datatype CodePrompt = CodePrompt(codigo: string, ejercicioId: int, lenguaje: string)

  /** The response of the outer `catch`. */
  function ErrorResponse(message: string): CodeResponse {
    CodeResponse(JString("error"), JNumber(0), JString(RETRY_MESSAGE), JArray([JString(message)]), JNumber(0), JNumber(0))
  }

  /** The response of a memory-cache hit: what was cached, no errors, 0/0 cases. */
  function FromCache(f: CodeFeedback): CodeResponse {
    CodeResponse(f.resultado, f.puntos, f.retroalimentacion, JArray([]), JNumber(0), JNumber(0))
  }

  /** The response of a stored-feedback hit, with the defaults of its context. */
  function FromRecord(rec: FeedbackRecord): CodeResponse {
    var ctx := rec.contexto;
    CodeResponse(
      Or(Get(ctx, "resultado"), JString("correcto")),
      Or(Get(ctx, "puntos"), JNumber(0)),
      rec.contenido,
      Or(Get(ctx, "errores_encontrados"), JArray([])),
      Or(Get(ctx, "casos_prueba_pasados"), JNumber(0)),
      Or(Get(ctx, "casos_prueba_totales"), JNumber(0)))
  }

  /** The response built from the model's report, scored by `calcularPuntos`
      as written; the score may be NaN or an infinity. */
  function FromReport(report: CodeReport): (r: CodeResponse)
    ensures r.resultado == report.resultado && r.retroalimentacionLlm == report.retroalimentacionEducativa
    ensures report.resultado == JString("correcto") ==> r.puntosObtenidos == JNumber(MAX_POINTS)
    ensures report.resultado != JString("correcto") && report.resultado != JString("incorrecto")
            ==> r.puntosObtenidos == JNumber(0)
    ensures report.resultado == JString("incorrecto") && !Truthy(Some(report.casosPruebaPasados))
            ==> r.puntosObtenidos == JNumber(0)
    ensures Truthy(Some(report.erroresEncontrados)) ==> r.erroresEncontrados == report.erroresEncontrados
    ensures !Truthy(Some(report.erroresEncontrados)) ==> r.erroresEncontrados == JArray([])
    ensures !Truthy(Some(report.casosPruebaPasados)) ==> r.casosPruebaPasados == JNumber(0)
  {
    CodeResponse(
      report.resultado,
      PointsJson(CalcularPuntos(report, MAX_POINTS)),
      report.retroalimentacionEducativa,
      Or(Some(report.erroresEncontrados), JArray([])),
      Or(Some(report.casosPruebaPasados), JNumber(0)),
      Or(Some(report.casosPruebaTotales), JNumber(0)))
  }

  /** On a sane report (0 <= passed <= cases, at least one case) the score of
      the response is the corrected one, so it lies in 0..100. */
  lemma SaneReportScore(report: CodeReport)
    requires report.resultado == JString("incorrecto")
    requires report.casosPruebaPasados.JNumber? && report.casosPruebaTotales.JNumber?
    requires 0 <= report.casosPruebaPasados.n <= report.casosPruebaTotales.n
    requires report.casosPruebaTotales.n > 0
    ensures FromReport(report).puntosObtenidos == JNumber(PuntosObtenidos(report))
    ensures 0 <= FromReport(report).puntosObtenidos.n <= MAX_POINTS
  {
    CorrectedAgreesOnSaneReports(report);
  }

  /** The three fields the memory cache keeps of a response. */
  function Feedback(r: CodeResponse): CodeFeedback {
    CodeFeedback(r.resultado, r.puntosObtenidos, r.retroalimentacionLlm)
  }

  // ---------------------------------------------------------------------
  // The stored feedback table
  // ---------------------------------------------------------------------

  /** `contexto_original->>'codigo_hash' = hash`, the same for the exercise id,
      and the feedback kind. */
  predicate Matches(rec: FeedbackRecord, codigoHash: string, ejercicioId: int) {
    && rec.tipo == FEEDBACK_KIND
    && Get(rec.contexto, "codigo_hash").Some? && JsString(Get(rec.contexto, "codigo_hash").value) == codigoHash
    && Get(rec.contexto, "ejercicio_id").Some? && JsString(Get(rec.contexto, "ejercicio_id").value) == IntToString(ejercicioId)
  }

  /** The newest row satisfying `m`; among rows of equal date the one
      inserted last. */
  function NewestBy(rs: seq<FeedbackRecord>, m: FeedbackRecord -> bool): (r: Option<FeedbackRecord>)
    ensures r.Some? ==> r.value in rs && m(r.value)
    ensures r.Some? ==> forall x :: x in rs && m(x) ==> x.fecha <= r.value.fecha
    ensures r.None? ==> forall x :: x in rs ==> !m(x)
  {
    if rs == [] then None
    else
      var init := rs[..|rs| - 1];
      var last := rs[|rs| - 1];
      assert rs == init + [last];
      var best := NewestBy(init, m);
      if m(last) && (best.None? || last.fecha >= best.value.fecha) then Some(last)
      else best
  }

  /** `orderBy('fecha_generacion', 'DESC').getOne()` over the matching rows;
      among rows of equal date the one inserted last. */
  function Newest(rs: seq<FeedbackRecord>, codigoHash: string, ejercicioId: int): (r: Option<FeedbackRecord>)
    ensures r.Some? ==> r.value in rs && Matches(r.value, codigoHash, ejercicioId)
    ensures r.Some? ==> forall x :: x in rs && Matches(x, codigoHash, ejercicioId) ==> x.fecha <= r.value.fecha
    ensures r.None? ==> forall x :: x in rs ==> !Matches(x, codigoHash, ejercicioId)
  {
    NewestBy(rs, x => Matches(x, codigoHash, ejercicioId))
  }

  /** The stored feedback table; an insert may be refused. */
  class FeedbackStore {
    var records: seq<FeedbackRecord>

    constructor()
      ensures records == []
    {
      records := [];
    }

    /** `save` of one accepted row. */
    method Insert(rec: FeedbackRecord)
      modifies this
      ensures records == old(records) + [rec]
    {
      records := records + [rec];
    }
  }

  /** The context written with fresh feedback (a `jsonb` column, so the
      order of its keys carries no meaning, and the values of the response
      are stored as `JSON.stringify` writes them). */
  function ContextOf(request: CodeRequest, codigoHash: string, r: CodeResponse): Json {
    JObject([
      ("codigo_enviado", JString(request.codigo)),
      ("lenguaje", JString(request.lenguaje)),
      ("resultado", Stored(r.resultado)),
      ("puntos", Stored(r.puntosObtenidos)),
      ("errores_encontrados", Stored(r.erroresEncontrados)),
      ("casos_prueba_pasados", Stored(r.casosPruebaPasados)),
      ("casos_prueba_totales", Stored(r.casosPruebaTotales)),
      ("ejercicio_id", JNumber(request.ejercicioId)),
      ("codigo_hash", JString(codigoHash))])
  }

  // ---------------------------------------------------------------------
  // execute
  // ---------------------------------------------------------------------

  /** The model tier: the call, the parser and the score. */
  function Validated(request: CodeRequest, client: (CodePrompt, GenerateOptions) -> Result<string, string>,
                     parse: string -> ParseOutcome): (v: Result<CodeResponse, string>)
    ensures var answer := client(CodePrompt(request.codigo, request.ejercicioId, request.lenguaje), VALIDATION_OPTIONS);
      && (answer.Err? ==> v == Err(answer.error))
      && (answer.Ok? && ParseCode(answer.value, parse).Err? ==> v == Err(ParseCode(answer.value, parse).error))
    ensures v.Ok? ==> Truthy(Some(v.value.resultado)) && Truthy(Some(v.value.retroalimentacionLlm))
  {
    match client(CodePrompt(request.codigo, request.ejercicioId, request.lenguaje), VALIDATION_OPTIONS)
    case Err(m) => Err(m)
    case Ok(respuesta) =>
      match ParseCode(respuesta, parse)
      case Err(m) => Err(m)
      case Ok(report) => Ok(FromReport(report))
  }

  /** A fresh response always has a truthy result and feedback; it scores
      100 when the model says "correcto" and 0 when it says neither
      "correcto" nor "incorrecto"; a failure gives the error response, with
      result 'error', 0 points and the message as its only error. */
  lemma FreshResponseBounds(request: CodeRequest, client: (CodePrompt, GenerateOptions) -> Result<string, string>,
                            parse: string -> ParseOutcome)
    ensures var v := Validated(request, client, parse);
      v.Ok? ==> && Truthy(Some(v.value.resultado)) && Truthy(Some(v.value.retroalimentacionLlm))
                && (v.value.resultado == JString("correcto") ==> v.value.puntosObtenidos == JNumber(MAX_POINTS))
                && (v.value.resultado != JString("correcto") && v.value.resultado != JString("incorrecto")
                    ==> v.value.puntosObtenidos == JNumber(0))
    ensures var v := Validated(request, client, parse);
      v.Err? ==> var e := ErrorResponse(v.error);
        e.resultado == JString("error") && e.puntosObtenidos == JNumber(0) && e.erroresEncontrados == JArray([JString(v.error)])
  {
  }

  /** The model tier of `execute`: one call, then the parser and the score. */
  method CallModel(request: CodeRequest, client: (CodePrompt, GenerateOptions) -> Result<string, string>,
                   parse: string -> ParseOutcome) returns (v: Result<CodeResponse, string>)
    ensures v == Validated(request, client, parse)
  {
    var respuestaGemini := client(CodePrompt(request.codigo, request.ejercicioId, request.lenguaje), VALIDATION_OPTIONS);
    if respuestaGemini.Err? {
      return Err(respuestaGemini.error);
    }
    var resultado := ParseCode(respuestaGemini.value, parse);
    if resultado.Err? {
      return Err(resultado.error);
    }
    v := Ok(FromReport(resultado.value));
  }

  /** `execute`: `llamadas` is the number of model calls, `insertAccepted`
      whether the database accepts the insert of fresh feedback. */
  method Execute(request: CodeRequest, cache: InMemoryCacheService, store: FeedbackStore,
                 client: (CodePrompt, GenerateOptions) -> Result<string, string>,
                 parse: string -> ParseOutcome, insertAccepted: bool, now: int)
    returns (r: CodeResponse, llamadas: nat)
    requires cache.Valid()
    modifies cache, store
    ensures cache.Valid()
    ensures var mem := old(cache.BuscarCodigo(request.codigo, request.ejercicioId, now));
      && (mem.CodeHit? ==>
            r == FromCache(mem.feedback) && llamadas == 0
            && cache.cache == old(cache.cache) && store.records == old(store.records))
      && (mem.CodeMiss? ==> MissAnswered(request, cache, store, client, parse, insertAccepted, now, r, llamadas))
  {
    var cacheResult := cache.BuscarCodigo(request.codigo, request.ejercicioId, now);
    if cacheResult.CodeHit? {
      return FromCache(cacheResult.feedback), 0;
    }
    r, llamadas := AfterMemoryMiss(request, cache, store, client, parse, insertAccepted, now);
  }

  /** What `execute` does after the memory tier missed: the newest matching
      table row answers without a model call and is copied to memory;
      without one the model is called once, a failure gives the error
      response and writes nothing, and a success is written to memory and,
      when the insert is accepted, to the table. */
  twostate predicate MissAnswered(request: CodeRequest, cache: InMemoryCacheService, store: FeedbackStore,
                                  client: (CodePrompt, GenerateOptions) -> Result<string, string>,
                                  parse: string -> ParseOutcome, insertAccepted: bool, now: int,
                                  r: CodeResponse, llamadas: nat)
    reads cache, store
  {
    var db := Newest(old(store.records), cache.md5(request.codigo), request.ejercicioId);
    var key := cache.CodeKeyOf(request.codigo, request.ejercicioId);
    && (db.Some? ==>
          r == FromRecord(db.value) && llamadas == 0
          && cache.cache == old(cache.cache)[key := CacheEntry(key, CodeData(Feedback(r)), now, cache.ttlDays)]
          && store.records == old(store.records))
    && (db.None? ==>
          var v := Validated(request, client, parse);
          && llamadas == 1
          && (v.Err? ==> r == ErrorResponse(v.error) && cache.cache == old(cache.cache) && store.records == old(store.records))
          && (v.Ok? ==>
                && r == v.value
                && cache.cache == old(cache.cache)[key := CacheEntry(key, CodeData(Feedback(r)), now, cache.ttlDays)]
                && store.records == old(store.records) +
                     (if insertAccepted then [FeedbackRecord(request.usuarioId, FEEDBACK_KIND, r.retroalimentacionLlm,
                                                ContextOf(request, cache.md5(request.codigo), r), now)]
                      else [])))
  }

  /** The table tier of `execute` and, when it misses too, the model tier. */
  method AfterMemoryMiss(request: CodeRequest, cache: InMemoryCacheService, store: FeedbackStore,
                         client: (CodePrompt, GenerateOptions) -> Result<string, string>,
                         parse: string -> ParseOutcome, insertAccepted: bool, now: int)
    returns (r: CodeResponse, llamadas: nat)
    requires cache.Valid()
    modifies cache, store
    ensures cache.Valid()
    ensures MissAnswered(request, cache, store, client, parse, insertAccepted, now, r, llamadas)
  {
    var codigoHash := cache.md5(request.codigo);
    var retroalimentacionBD := Newest(store.records, codigoHash, request.ejercicioId);
    if retroalimentacionBD.Some? {
      var response := FromRecord(retroalimentacionBD.value);
      cache.GuardarCodigo(request.codigo, request.ejercicioId, Feedback(response), now);
      return response, 0;
    }
    r := ValidateFresh(request, codigoHash, cache, store, client, parse, insertAccepted, now);
    llamadas := 1;
  }

  /** The model tier of `execute` after both caches missed: one call; a
      failure gives the error response and writes nothing, a success is
      written to both caches. */
  method ValidateFresh(request: CodeRequest, codigoHash: string, cache: InMemoryCacheService, store: FeedbackStore,
                       client: (CodePrompt, GenerateOptions) -> Result<string, string>,
                       parse: string -> ParseOutcome, insertAccepted: bool, now: int)
    returns (r: CodeResponse)
    requires cache.Valid()
    modifies cache, store
    ensures cache.Valid()
    ensures var v := Validated(request, client, parse);
      var key := cache.CodeKeyOf(request.codigo, request.ejercicioId);
      && (v.Err? ==> r == ErrorResponse(v.error) && cache.cache == old(cache.cache) && store.records == old(store.records))
      && (v.Ok? ==>
            && r == v.value
            && cache.cache == old(cache.cache)[key := CacheEntry(key, CodeData(Feedback(r)), now, cache.ttlDays)]
            && store.records == old(store.records) +
                 (if insertAccepted then [FeedbackRecord(request.usuarioId, FEEDBACK_KIND, r.retroalimentacionLlm,
                                            ContextOf(request, codigoHash, r), now)]
                  else []))
  {
    var validated := CallModel(request, client, parse);
    if validated.Err? {
      return ErrorResponse(validated.error);
    }
    r := validated.value;
    Persist(request, codigoHash, r, cache, store, insertAccepted, now);
  }

  /** Fresh feedback is written to the memory cache and, when the database
      accepts it, to the table. The table row is written first here; neither
      write reads what the other writes, so the final state is the one the
      source's order gives. */
  method Persist(request: CodeRequest, codigoHash: string, response: CodeResponse,
                 cache: InMemoryCacheService, store: FeedbackStore, insertAccepted: bool, now: int)
    requires cache.Valid()
    modifies cache, store
    ensures cache.Valid()
    ensures var key := cache.CodeKeyOf(request.codigo, request.ejercicioId);
      cache.cache == old(cache.cache)[key := CacheEntry(key, CodeData(Feedback(response)), now, cache.ttlDays)]
    ensures store.records == old(store.records) +
      (if insertAccepted then [FeedbackRecord(request.usuarioId, FEEDBACK_KIND, response.retroalimentacionLlm,
                                              ContextOf(request, codigoHash, response), now)]
       else [])
  {
    if insertAccepted {
      var rec := FeedbackRecord(request.usuarioId, FEEDBACK_KIND, response.retroalimentacionLlm,
                                ContextOf(request, codigoHash, response), now);
      store.Insert(rec);
    } else {
      assert store.records == old(store.records) + [];
    }
    cache.GuardarCodigo(request.codigo, request.ejercicioId, Feedback(response), now);
  }

  /** Fresh feedback written to the table is what the table tier finds for
      the same code and exercise afterwards, as long as nothing newer
      matches. */
  lemma StoredFeedbackFound(rs: seq<FeedbackRecord>, request: CodeRequest, codigoHash: string, r: CodeResponse, now: int)
    requires forall x :: x in rs && Matches(x, codigoHash, request.ejercicioId) ==> x.fecha <= now
    ensures var rec := FeedbackRecord(request.usuarioId, FEEDBACK_KIND, r.retroalimentacionLlm, ContextOf(request, codigoHash, r), now);
      Newest(rs + [rec], codigoHash, request.ejercicioId) == Some(rec)
  {
    var rec := FeedbackRecord(request.usuarioId, FEEDBACK_KIND, r.retroalimentacionLlm, ContextOf(request, codigoHash, r), now);
    FreshRecordMatches(request, codigoHash, r, now);
    NewestLast(rs, codigoHash, request.ejercicioId, rec);
  }

  /** Fresh feedback carries the hash and exercise it was written for. */
  lemma FreshRecordMatches(request: CodeRequest, codigoHash: string, r: CodeResponse, now: int)
    ensures Matches(FeedbackRecord(request.usuarioId, FEEDBACK_KIND, r.retroalimentacionLlm, ContextOf(request, codigoHash, r), now),
                    codigoHash, request.ejercicioId)
  {
    var ctx := ContextOf(request, codigoHash, r);
    assert Get(ctx, "codigo_hash") == Some(JString(codigoHash));
    var fs := ctx.fields;
    assert "codigo_hash"[0] != "ejercicio_id"[0];
    assert Lookup(fs, "ejercicio_id") == Lookup(fs[..|fs| - 1], "ejercicio_id");
    assert Get(ctx, "ejercicio_id") == Some(JNumber(request.ejercicioId));
  }

  /** The context row holds one "puntos" field, the fourth. */
  lemma PointsInContext(codigo: Json, lenguaje: Json, resultado: Json, puntos: Json, errores: Json,
                        pasados: Json, totales: Json, ejercicio: Json, hash: Json)
    ensures Lookup([("codigo_enviado", codigo), ("lenguaje", lenguaje), ("resultado", resultado),
                    ("puntos", puntos), ("errores_encontrados", errores), ("casos_prueba_pasados", pasados),
                    ("casos_prueba_totales", totales), ("ejercicio_id", ejercicio), ("codigo_hash", hash)],
                   "puntos") == Some(puntos)
  {
    var fs := [("codigo_enviado", codigo), ("lenguaje", lenguaje), ("resultado", resultado),
               ("puntos", puntos), ("errores_encontrados", errores), ("casos_prueba_pasados", pasados),
               ("casos_prueba_totales", totales), ("ejercicio_id", ejercicio), ("codigo_hash", hash)];
    assert "codigo_hash"[0] != "puntos"[0] && "ejercicio_id"[0] != "puntos"[0] && "casos_prueba_totales"[0] != "puntos"[0];
    assert "casos_prueba_pasados"[0] != "puntos"[0] && "errores_encontrados"[0] != "puntos"[0];
    assert fs[..8][..7] == fs[..7] && fs[..7][..6] == fs[..6] && fs[..6][..5] == fs[..5] && fs[..5][..4] == fs[..4];
    assert Lookup(fs[..4], "puntos") == Some(puntos);
    assert Lookup(fs[..5], "puntos") == Some(puntos);
    assert Lookup(fs[..6], "puntos") == Some(puntos);
    assert Lookup(fs[..7], "puntos") == Some(puntos);
    assert Lookup(fs[..8], "puntos") == Some(puntos);
  }

  /** A NaN or infinite score is written to the table as `null`, so the
      table tier later answers 0 points for it. */
  lemma NonFiniteScoreReadAsZero(request: CodeRequest, codigoHash: string, r: CodeResponse, now: int)
    requires r.puntosObtenidos.JNaN? || r.puntosObtenidos.JInfinity?
    ensures FromRecord(FeedbackRecord(request.usuarioId, FEEDBACK_KIND, r.retroalimentacionLlm,
                                      ContextOf(request, codigoHash, r), now)).puntosObtenidos == JNumber(0)
  {
    PointsInContext(JString(request.codigo), JString(request.lenguaje), Stored(r.resultado),
                    Stored(r.puntosObtenidos), Stored(r.erroresEncontrados), Stored(r.casosPruebaPasados),
                    Stored(r.casosPruebaTotales), JNumber(request.ejercicioId), JString(codigoHash));
  }

  /** A matching row appended with a date no earlier than every matching
      row before it is the newest. */
  lemma NewestLast(rs: seq<FeedbackRecord>, codigoHash: string, ejercicioId: int, rec: FeedbackRecord)
    requires Matches(rec, codigoHash, ejercicioId)
    requires forall x :: x in rs && Matches(x, codigoHash, ejercicioId) ==> x.fecha <= rec.fecha
    ensures Newest(rs + [rec], codigoHash, ejercicioId) == Some(rec)
  {
    assert (rs + [rec])[..|rs|] == rs;
  }

  /** After any run that wrote to the memory cache, the same code for the
      same exercise is answered from memory at the same time, with the fields
      of the response (for a TTL that is a whole non-negative number of
      days). */
  lemma WrittenFeedbackHits(m: map<string, CacheEntry>, key: string, r: CodeResponse, now: int, ttl: int)
    requires ttl >= 0
    ensures LookupCode(m[key := CacheEntry(key, CodeData(Feedback(r)), now, Some(ttl))], key, now)
      == CodeHit(Feedback(r), 0)
  {
  }

  /** The two tiers use different keys: the memory tier finds the same entry
      for two submissions that differ only in letter case, since it hashes
      the normalised code, while the table tier looks up the hash of the raw
      text. */
  lemma MemoryTierIgnoresCase(md5: string -> string, c1: string, c2: string, ejercicioId: int)
    requires ToLower(c1) == ToLower(c2)
    ensures CodeKey(ejercicioId, md5(Normalize(c1))) == CodeKey(ejercicioId, md5(Normalize(c2)))
  {
    CaseInsensitiveNormalForm(c1, c2);
  }
}
