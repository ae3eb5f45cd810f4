# A verified model of the learning assistant's backend logic

This project models, in Dafny, the deterministic core of the backend of a
programming-learning assistant (an Express/TypeORM service in TypeScript that
asks the Gemini model for quiz questions, code feedback and chat answers).
The model covers:

- the three use cases and their answer parsers: question generation, code
  validation and the chat assistant;
- the in-memory cache, the rate limiter and the usage monitor around the
  Gemini client;
- the client's retry loop;
- quiz grading and the progress record;
- the profile update of the user service;
- the request-checking, role and error middlewares.

Code that updates state in place is modelled as classes with `modifies`
clauses: the cache, the limiter, the monitor, the request being checked, and
the stores standing for database tables. The answer parsers and decision
tables are functions over datatypes.

The rest of the environment is represented as follows:

- the time is a parameter in milliseconds;
- md5 is a function given to the cache;
- `JSON.parse` is an oracle returning a value or the message of its error;
- the Gemini SDK is a sequence of outcomes, one per attempt;
- a database write that may fail is a boolean parameter;
- environment settings are constructor parameters.

Files, one module each:

- `wrappers.dfy`: Option, Result and arithmetic helpers.
- `text.dfy`: JavaScript string primitives: trim, case mapping, search, split, `parseInt`, `toString`.
- `json.dfy`: parsed values, property access and truthiness.
- `reconcile.dfy`: fence stripping and the JSON candidate slice, shared by both answer parsers.
- `question_parser.dfy`, `code_parser.dfy`: the two `parseResponse` methods and `calcularPuntos`.
- `generate_questions.dfy`, `validate_code.dfy`, `chat_assistant.dfy`: the use cases.
- `cache.dfy`, `rate_limiter.dfy`, `usage_monitor.dfy`, `gemini_client.dfy`: the infrastructure.
- `quiz_service.dfy`, `user_service.dfy`: the services.
- `validator.dfy`, `role_middleware.dfy`, `error_handler.dfy`: the middlewares.

## Model

| member | source | states |
|---|---|---|
| Cache.StripLineComments | backend/src/infrastructure/cache/InMemoryCacheService.ts:126 | never lengthens the code, keeps a first character that is not `/`, and leaves no `//` pair behind |
| Cache.CollapseLeavesSingleSpaces | backend/src/infrastructure/cache/InMemoryCacheService.ts:128 | after collapsing, the only whitespace left is single spaces, never two in a row |
| Cache.TrailingLineCommentIgnored | backend/src/infrastructure/cache/InMemoryCacheService.ts:126 | appending `//` and a comment to a line leaves the line-comment stage's output unchanged |
| Cache.TrailingCommentSameNormalForm | backend/src/infrastructure/cache/InMemoryCacheService.ts:124-133 | code with a trailing `//` comment normalises to the same text as the code without it, so both get the same hash |
| Cache.StripLineLower | backend/src/infrastructure/cache/InMemoryCacheService.ts:126-130 | removing line comments commutes with lower-casing |
| Cache.StripBlockLower | backend/src/infrastructure/cache/InMemoryCacheService.ts:127-130 | removing block comments commutes with lower-casing |
| Cache.CollapseLower | backend/src/infrastructure/cache/InMemoryCacheService.ts:128-130 | collapsing whitespace commutes with lower-casing |
| Cache.CaseInsensitiveNormalForm | backend/src/infrastructure/cache/InMemoryCacheService.ts:124-133 | two submissions that differ only in letter case have the same normal form, and so the same hash |
| Cache.Normalize | backend/src/infrastructure/cache/InMemoryCacheService.ts:124-131 | the normal form is never longer than the code, is already lower case, and has no whitespace at either end |
| Cache.SpacingSameNormalForm | backend/src/infrastructure/cache/InMemoryCacheService.ts:124-133 | replacing one space between two parts of the code by any non-empty run of spaces, tabs or other whitespace that ends no line leaves the normal form unchanged |
| Cache.InMemoryCacheService.GenerarHashCodigo | backend/src/infrastructure/cache/InMemoryCacheService.ts:124-133 | the hash is the md5 of the normal form, and equals the hash of the lower-cased code |
| Cache.InMemoryCacheService.SpacingSameKey | backend/src/infrastructure/cache/InMemoryCacheService.ts:124-133 | two submissions that differ only in such a run of whitespace share their cache key, for every exercise |
| Cache.NormalizeOfLower | backend/src/infrastructure/cache/InMemoryCacheService.ts:124-133 | normalising the lower-cased code gives the normal form of the code |
| Cache.EdadDias | backend/src/infrastructure/cache/InMemoryCacheService.ts:141-145 | the age in days is the floor of the elapsed milliseconds over one day |
| Cache.ExpiryBoundary | backend/src/infrastructure/cache/InMemoryCacheService.ts:135-139 | an entry is still live exactly `ttl` days after it was written and expired one millisecond later |
| Cache.LookupCode | backend/src/infrastructure/cache/InMemoryCacheService.ts:15-40 | a hit happens exactly when the key is present, not expired, and holds code feedback |
| Cache.LookupQuestions | backend/src/infrastructure/cache/InMemoryCacheService.ts:69-100 | a hit happens exactly when the key is present, not expired, and holds at least `cantidad` questions; the hit returns the first `cantidad` of them |
| Cache.StoredCodeFound | backend/src/infrastructure/cache/InMemoryCacheService.ts:15-67 | feedback just stored is found again within its TTL, with its age in days |
| Cache.CleanupKeepsLookups | backend/src/infrastructure/cache/InMemoryCacheService.ts:147-160 | the cleanup changes no lookup made at the same instant |
| Cache.ExpiredQuestionsRevived | backend/src/infrastructure/cache/InMemoryCacheService.ts:102-122 | an expired batch misses, but saving more questions under its key keeps the old ones in front and makes all of them live again |
| Cache.FiledAfterWrite | backend/src/infrastructure/cache/InMemoryCacheService.ts:49-116 | a write keeps every entry filed under its own key with the service's TTL |
| Cache.InMemoryCacheService.constructor | backend/src/infrastructure/cache/InMemoryCacheService.ts:12-13 | the cache starts empty, and the TTL is `parseInt` of the setting, or of "7" when the setting is empty |
| Cache.InMemoryCacheService.BuscarCodigo | backend/src/infrastructure/cache/InMemoryCacheService.ts:15-40 | a hit happens exactly when the key built from the normalised code's hash is live and holds code feedback |
| Cache.InMemoryCacheService.GuardarCodigo | backend/src/infrastructure/cache/InMemoryCacheService.ts:42-67 | the entry under the code key is replaced by the new feedback, stamped now with the service TTL; nothing else changes |
| Cache.InMemoryCacheService.BuscarPreguntas | backend/src/infrastructure/cache/InMemoryCacheService.ts:69-100 | a hit returns the first `cantidad` questions stored under the subtopic-and-difficulty key |
| Cache.InMemoryCacheService.GuardarPreguntas | backend/src/infrastructure/cache/InMemoryCacheService.ts:102-122 | the batch is appended to the questions already stored under the key of its first question's difficulty ("intermedia" when absent), and the timestamp is renewed |
| Cache.InMemoryCacheService.LimpiarCacheAntiguo | backend/src/infrastructure/cache/InMemoryCacheService.ts:147-160 | exactly the expired entries are removed; the count returned is how many, the number the source only writes to its log line |
| Cache.InMemoryCacheService.GetStats | backend/src/infrastructure/cache/InMemoryCacheService.ts:162-167 | reports the number of entries and the TTL |
| GeminiClient.Connect | backend/src/infrastructure/gemini/GeminiClient.ts:11-23 | construction fails, with the "not configured" message, exactly when the API key is absent or empty; the model is the configured one, or the default when that is absent or empty |
| GeminiClient.ConfigFor | backend/src/infrastructure/gemini/GeminiClient.ts:33-36 | temperature and token limit are the caller's, except that an absent or zero value falls back to 0.7 and 1500 |
| GeminiClient.TransientIgnoresCase | backend/src/infrastructure/gemini/GeminiClient.ts:68-72 | whether an error counts as temporary does not depend on the letter case of its message |
| GeminiClient.StatusCodesAreTransient | backend/src/infrastructure/gemini/GeminiClient.ts:68-72 | a message that mentions 429 or 503 is temporary, and an error with no message is not |
| GeminiClient.Waits | backend/src/infrastructure/gemini/GeminiClient.ts:54-57 | after failed attempt k the client waits 2^k * 1000 ms, one wait per retried attempt |
| GeminiClient.Generate | backend/src/infrastructure/gemini/GeminiClient.ts:25-66 | the retry loop gives the outcome, the attempt count and the waits of the recursive reference definition, with the configuration of ConfigFor |
| GeminiClient.NonTransientStops | backend/src/infrastructure/gemini/GeminiClient.ts:54-61 | an error that is not temporary ends the call after one attempt, with "Error al llamar a Gemini: " and the message |
| GeminiClient.TransientRetried | backend/src/infrastructure/gemini/GeminiClient.ts:54-58 | a temporary failure before the third attempt leads to the next attempt |
| GeminiClient.FirstAnswerReturned | backend/src/infrastructure/gemini/GeminiClient.ts:25-66 | after temporary failures, the first answer is returned as it is, after k attempts, and the waits were 2000 and then 4000 ms |
| GeminiClient.ThreeTransientFailures | backend/src/infrastructure/gemini/GeminiClient.ts:29-65 | three temporary failures end with the error of the third one after three attempts; "Máximo de intentos alcanzado" is never reached |
| RateLimiter.Recent | backend/src/infrastructure/middleware/GeminiRateLimiter.ts:26-29 | the window keeps exactly the records younger than its length; a single record is kept exactly when it is younger |
| RateLimiter.RecentCounts | backend/src/infrastructure/middleware/GeminiRateLimiter.ts:26-29 | a record younger than the window is kept as many times as it occurs, an older one not at all |
| RateLimiter.RecentConcat | backend/src/infrastructure/middleware/GeminiRateLimiter.ts:26-29 | the window of two runs of records is the window of the first followed by that of the second, so kept records stay in arrival order |
| RateLimiter.CeilDiv | backend/src/infrastructure/middleware/GeminiRateLimiter.ts:41 | `Math.ceil(n / d)`: the least multiple of `d` that is at least `n`, divided by `d` |
| RateLimiter.AdmissionOrder | backend/src/infrastructure/middleware/GeminiRateLimiter.ts:21-75 | a request is admitted exactly when neither window is at its limit; the minute limit is checked first, with a retry time of at least one second; a denied request records nothing, and an admitted one is recorded in both windows |
| RateLimiter.AdmitKeepsNested | backend/src/infrastructure/middleware/GeminiRateLimiter.ts:26-70 | every request in the minute window is also in the daily window |
| RateLimiter.AdmitKeepsMinuteBound | backend/src/infrastructure/middleware/GeminiRateLimiter.ts:32-70 | the minute window never holds more than the per-minute limit |
| RateLimiter.GeminiRateLimiter.constructor | backend/src/infrastructure/middleware/GeminiRateLimiter.ts:14-17 | both windows start empty; the limits are `parseInt` of the settings, with 15 and 1500 as defaults |
| RateLimiter.GeminiRateLimiter.Middleware | backend/src/infrastructure/middleware/GeminiRateLimiter.ts:21-75 | the decision and the new windows are those of the admission function `Admit` |
| RateLimiter.GeminiRateLimiter.GetStats | backend/src/infrastructure/middleware/GeminiRateLimiter.ts:80-96 | prunes both windows, then reports their sizes and the capacity left under each limit |
| RateLimiter.GeminiRateLimiter.Reset | backend/src/infrastructure/middleware/GeminiRateLimiter.ts:101-105 | both windows are emptied |
| UsageMonitor.Filter | backend/src/infrastructure/monitoring/GeminiUsageMonitor.ts:187-190 | keeps exactly the records that satisfy the predicate; a single record is kept exactly when it satisfies it |
| UsageMonitor.FilterCounts | backend/src/infrastructure/monitoring/GeminiUsageMonitor.ts:187-190 | a record that satisfies the predicate is kept as many times as it occurs, any other not at all |
| UsageMonitor.FilterConcat | backend/src/infrastructure/monitoring/GeminiUsageMonitor.ts:187-190 | the filter of two runs of records is the filter of the first followed by that of the second, so kept records stay in order |
| UsageMonitor.CacheSplit | backend/src/infrastructure/monitoring/GeminiUsageMonitor.ts:192-193 | every record is counted once, either as served from the cache or as a real call |
| UsageMonitor.StatsPorFecha | backend/src/infrastructure/monitoring/GeminiUsageMonitor.ts:186-207 | the day's totals: all requests of that UTC day, split into real and cached ones, with the sum of their token estimates |
| UsageMonitor.Retained | backend/src/infrastructure/monitoring/GeminiUsageMonitor.ts:212-223 | keeps exactly the records from the last 30 days; a single record is kept exactly when it is that recent |
| UsageMonitor.RetainedCounts | backend/src/infrastructure/monitoring/GeminiUsageMonitor.ts:212-223 | a record from the last 30 days is kept as many times as it occurs, an older one not at all |
| UsageMonitor.RetainedConcat | backend/src/infrastructure/monitoring/GeminiUsageMonitor.ts:212-223 | retention of two runs of records keeps the survivors of the first before those of the second |
| UsageMonitor.DailyAlert | backend/src/infrastructure/monitoring/GeminiUsageMonitor.ts:147-158 | for a positive limit: critical from 95 %, a warning from 80 % up to 95 %, otherwise none |
| UsageMonitor.AlertMonotone | backend/src/infrastructure/monitoring/GeminiUsageMonitor.ts:147-158 | more real calls never lower the daily alert level, whatever the limit |
| UsageMonitor.TypeStatsConsistent | backend/src/infrastructure/monitoring/GeminiUsageMonitor.ts:115-134 | each type's total is its cached plus its real calls and is at least one, and the types listed are exactly those in the ledger |
| UsageMonitor.TypeTotalsCoverLedger | backend/src/infrastructure/monitoring/GeminiUsageMonitor.ts:115-134 | the totals of all types add up to the number of records |
| UsageMonitor.GeminiUsageMonitor.constructor | backend/src/infrastructure/monitoring/GeminiUsageMonitor.ts:27-30 | the ledger starts empty; the limits are `parseInt` of the settings, or of 1500 and 45000 |
| UsageMonitor.GeminiUsageMonitor.GetStatsHoy | backend/src/infrastructure/monitoring/GeminiUsageMonitor.ts:73-76 | today's totals, with every request counted as either real or cached |
| UsageMonitor.GeminiUsageMonitor.GetStatsMes | backend/src/infrastructure/monitoring/GeminiUsageMonitor.ts:81-110 | the last 30 days' requests, split into real and cached ones |
| UsageMonitor.GeminiUsageMonitor.VerificarAlertas | backend/src/infrastructure/monitoring/GeminiUsageMonitor.ts:147-165 | the daily alert from today's real calls, and the monthly alert once the month's real calls reach 90 % of the monthly limit |
| UsageMonitor.GeminiUsageMonitor.RegistrarLlamada | backend/src/infrastructure/monitoring/GeminiUsageMonitor.ts:35-68 | the call is appended and old records are pruned, and the new record stays; the usage log gains one row when the table accepts it; the alerts are those of VerificarAlertas |
| UsageMonitor.GeminiUsageMonitor.LimpiarRecordsAntiguos | backend/src/infrastructure/monitoring/GeminiUsageMonitor.ts:212-223 | the ledger keeps exactly the records of the last 30 days, and the count returned is how many went |
| UsageMonitor.GeminiUsageMonitor.GetStatsPorTipo | backend/src/infrastructure/monitoring/GeminiUsageMonitor.ts:115-142 | the loop builds the per-type table of the reference definition StatsPorTipo |
| UsageMonitor.GeminiUsageMonitor.Reset | backend/src/infrastructure/monitoring/GeminiUsageMonitor.ts:228-231 | the ledger is emptied; the log table is untouched |
| UsageMonitor.GeminiUsageMonitor.ExportarDatos | backend/src/infrastructure/monitoring/GeminiUsageMonitor.ts:236-238 | a copy of the ledger, equal to it |
| GenerateQuestions.TemaLine | backend/src/application/use-cases/GenerateQuestionsUseCase.ts:90 | the topic line is the topic's name when it has a non-empty one, and is never empty |
| GenerateQuestions.ContenidoLine | backend/src/application/use-cases/GenerateQuestionsUseCase.ts:92 | the content line is the first 200 characters of the detailed content, or the description when the content is absent or empty |
| GenerateQuestions.CountOne | backend/src/application/use-cases/GenerateQuestionsUseCase.ts:337-338 | the number of options marked correct is 1 exactly when exactly one option is marked correct |
| GenerateQuestions.CountZero | backend/src/application/use-cases/GenerateQuestionsUseCase.ts:337 | the count is 0 exactly when no option is marked correct |
| GenerateQuestions.QuestionError | backend/src/application/use-cases/GenerateQuestionsUseCase.ts:320-340 | a question passes exactly when its text is a non-empty string and exactly one option is correct; a text that is neither a string nor null fails first, with the TypeError "pregunta.texto?.substring is not a function" of the debug line; a null or empty text is "Pregunta i inválida: debe tener texto válido"; a text with a wrong count of correct options names that count |
| GenerateQuestions.FirstErrorNamesFirst | backend/src/application/use-cases/GenerateQuestionsUseCase.ts:320-341 | the error reported is that of the first bad question, numbered from 1 |
| GenerateQuestions.Validation | backend/src/application/use-cases/GenerateQuestionsUseCase.ts:313-344 | an empty list is refused with "No se generaron preguntas"; validation passes exactly when there is at least one question and every question is well formed |
| GenerateQuestions.ValidationMeans | backend/src/application/use-cases/GenerateQuestionsUseCase.ts:319-341 | a refused list is refused with the complaint about its first question that is not well formed, numbered from 1 |
| GenerateQuestions.ValidateQuestions | backend/src/application/use-cases/GenerateQuestionsUseCase.ts:313-344 | the index loop gives the verdict of the reference definition Validation, including the TypeError a text that is neither a string nor null raises at the debug line |
| GenerateQuestions.QuestionStore.Save | backend/src/application/use-cases/GenerateQuestionsUseCase.ts:368-382 | an accepted write appends the row and returns its id; a refused one changes nothing |
| GenerateQuestions.OptionsFollowTheirQuestion | backend/src/application/use-cases/GenerateQuestionsUseCase.ts:358-383 | a question's rows are the question row, then its options in order, each pointing at the question's id with `orden` j + 1 |
| GenerateQuestions.FirstRefusedMeans | backend/src/application/use-cases/GenerateQuestionsUseCase.ts:389-393 | every write before the first refused one was accepted, and that one was refused |
| GenerateQuestions.PlanPrefix | backend/src/application/use-cases/GenerateQuestionsUseCase.ts:353-386 | the rows planned for the first questions are a prefix of the whole plan |
| GenerateQuestions.SaveQuestion | backend/src/application/use-cases/GenerateQuestionsUseCase.ts:357-385 | the store gains the question's rows up to the first refused write, and `ok` holds exactly when all of them were written |
| GenerateQuestions.SavedStopsAt | backend/src/application/use-cases/GenerateQuestionsUseCase.ts:346-394 | a refused write inside question i ends the saved rows there |
| GenerateQuestions.SavedWhole | backend/src/application/use-cases/GenerateQuestionsUseCase.ts:346-394 | when every planned write is accepted, the whole plan is saved |
| GenerateQuestions.SaveQuestionsToDatabase | backend/src/application/use-cases/GenerateQuestionsUseCase.ts:346-394 | the store gains the planned rows up to the first refused write, and the error is swallowed |
| GenerateQuestions.SavedIsPrefix | backend/src/application/use-cases/GenerateQuestionsUseCase.ts:346-394 | what is saved is always a prefix of the plan, and all of it when the database accepts every write |
| GenerateQuestions.Generated | backend/src/application/use-cases/GenerateQuestionsUseCase.ts:31-60 | generated questions are never an empty list, each is well formed and has its defaults filled in, and an unknown subtopic is refused with "Subtema id no encontrado" |
| GenerateQuestions.Execute | backend/src/application/use-cases/GenerateQuestionsUseCase.ts:15-80 | a cache hit with enough questions returns its first `cantidad` without calling the model or writing anything; otherwise the result is that of GenerateAndSave; a non-negative `cantidad` bounds the number of questions returned |
| GenerateQuestions.GenerateAndSave | backend/src/application/use-cases/GenerateQuestionsUseCase.ts:31-80 | after a miss: a failure anywhere is wrapped as "Error al generar preguntas: …" and changes neither the database nor the cache; a success saves the batch up to the first refused write, appends it to the cache and returns its first `cantidad` questions with the number generated |
| Reconcile.StripFences | backend/src/application/use-cases/GenerateQuestionsUseCase.ts:149-154 | the text left after removing the opening and closing fences is trimmed and never longer than the input |
| Reconcile.FencedObjectUnwrapped | backend/src/application/use-cases/GenerateQuestionsUseCase.ts:149-154 | a JSON object text in a json fence, with whitespace around it, comes out as exactly the object text |
| Reconcile.BareObjectKept | backend/src/application/use-cases/ValidateCodeUseCase.ts:216-224 | an object text without fences comes out of the cleaning unchanged |
| Reconcile.FencedAnswerCleaned | backend/src/application/use-cases/ValidateCodeUseCase.ts:209-224 | a fenced object text is not taken for an empty answer, and the cleaning gives exactly the object text |
| Reconcile.Prefixed | backend/src/application/use-cases/GenerateQuestionsUseCase.ts:306-310 | an error from any stage comes out prefixed with "Respuesta inválida de Gemini: "; a success is untouched |
| Reconcile.ExtractCandidate | backend/src/application/use-cases/GenerateQuestionsUseCase.ts:158-182 | a candidate exists exactly when there is a `{` and either no `}` or a `}` after some `{`; the candidate runs from the first `{` to the last `}`, or to the end plus the closers when there is no `}`; otherwise "No se encontró JSON válido en la respuesta" |
| Reconcile.CandidateOfObjectText | backend/src/application/use-cases/GenerateQuestionsUseCase.ts:158-182 | a whole object text is its own candidate |
| Reconcile.DropTrailingComma | backend/src/application/use-cases/GenerateQuestionsUseCase.ts:229 | removes a final comma and the whitespace after it, and nothing else |
| QuestionParser.DropOpenString | backend/src/application/use-cases/GenerateQuestionsUseCase.ts:230 | cuts at the first key whose string value never closes, and keeps the text when there is none |
| QuestionParser.DropOpenValue | backend/src/application/use-cases/GenerateQuestionsUseCase.ts:231 | cuts at the first key whose value runs to the end of the text, and keeps the text when there is none |
| QuestionParser.DropDangling | backend/src/application/use-cases/GenerateQuestionsUseCase.ts:234-237 | exactly the commas followed, past whitespace, by the closer are removed: the result is shorter by their number, every other character is kept and moves left by the number of such commas before it, so the order is kept; no character other than a comma changes its count |
| QuestionParser.KeepFromPlaces | backend/src/application/use-cases/GenerateQuestionsUseCase.ts:234-237 | from any starting position, a character that is not a dangling comma lands at its offset less the dangling commas between |
| QuestionParser.ErrorPosition | backend/src/application/use-cases/GenerateQuestionsUseCase.ts:205-207 | the number after the first "position " in the error message, or none when there is no such match |
| QuestionParser.LastCutMeans | backend/src/application/use-cases/GenerateQuestionsUseCase.ts:212-222 | the cut is just after the comma that follows the last `}` before the error position that is not preceded by a quote and has only whitespace before the comma |
| QuestionParser.TruncateAfterObject | backend/src/application/use-cases/GenerateQuestionsUseCase.ts:209-225 | a cut keeps a complete object and the comma after it |
| QuestionParser.FindTruncatePos | backend/src/application/use-cases/GenerateQuestionsUseCase.ts:209-222 | the backward scan finds the cut of the reference definition TruncatePos |
| QuestionParser.SkipWhitespace | backend/src/application/use-cases/GenerateQuestionsUseCase.ts:215-216 | the inner loop stops at the first character that is not whitespace |
| QuestionParser.CloseStructures | backend/src/application/use-cases/GenerateQuestionsUseCase.ts:239-264 | a text that already ends in a closer is kept; otherwise the missing `}` closers and then the missing `]` closers are appended |
| QuestionParser.ClosersBalance | backend/src/application/use-cases/GenerateQuestionsUseCase.ts:244-263 | after closing, no brace or bracket is left open, and when there were no extra closers the counts match exactly |
| QuestionParser.Repair | backend/src/application/use-cases/GenerateQuestionsUseCase.ts:198-263 | the repaired text begins with the truncated text with its dangling commas removed |
| QuestionParser.RepairCandidate | backend/src/application/use-cases/GenerateQuestionsUseCase.ts:198-263 | the repair steps, run in order, give the reference repair |
| QuestionParser.ParseCandidate | backend/src/application/use-cases/GenerateQuestionsUseCase.ts:186-275 | a candidate that parses is taken as it is; when the repaired text fails too, the error is the first parse's message with "Error parseando JSON: " in front |
| QuestionParser.ParseWithRepair | backend/src/application/use-cases/GenerateQuestionsUseCase.ts:186-275 | the two parse attempts around the repair give ParseCandidate's result |
| QuestionParser.CompleteOption | backend/src/application/use-cases/GenerateQuestionsUseCase.ts:291-295 | each field of an option is the model's value when truthy and otherwise its default: "Opción i" numbered from 1, false, "Sin explicación"; a null option is an error |
| QuestionParser.CompleteOptions | backend/src/application/use-cases/GenerateQuestionsUseCase.ts:291-295 | one completed option per element, each the completion of the element at its position, and the step fails exactly when some option is null |
| QuestionParser.CompleteQuestion | backend/src/application/use-cases/GenerateQuestionsUseCase.ts:289-301 | each field is the model's value when truthy and otherwise its default: "Pregunta i" numbered from 1, "intermedia", "¡Correcto!", "Incorrecto.", 10, and for the detailed explanation the correct-answer feedback and then "Ver retroalimentación"; the options are one completion per element of a truthy `opciones` array, none when it is falsy; a truthy non-array `opciones` and a null element are errors |
| QuestionParser.CompleteQuestions | backend/src/application/use-cases/GenerateQuestionsUseCase.ts:286-302 | one completed question per element, each the completion of the element at its position with its own index, and any null element is an error |
| QuestionParser.QuestionsOf | backend/src/application/use-cases/GenerateQuestionsUseCase.ts:277-302 | without a `preguntas` array the answer is rejected with "Formato de respuesta inválido: falta array de preguntas"; otherwise there is one completed question per element, each the completion of the element at its position |
| QuestionParser.ParseQuestions | backend/src/application/use-cases/GenerateQuestionsUseCase.ts:134-311 | every error carries the "Respuesta inválida de Gemini: " prefix, a blank answer is "Respuesta vacía de Gemini", and every question returned is completed |
| QuestionParser.ParseResponse | backend/src/application/use-cases/GenerateQuestionsUseCase.ts:134-311 | running the stages, with the repair as a method, gives ParseQuestions's result |
| QuestionParser.FencedAnswerParsedDirectly | backend/src/application/use-cases/GenerateQuestionsUseCase.ts:145-189 | a well-formed object in a json fence is parsed directly, without repair |
| QuestionParser.BareAnswerParsedDirectly | backend/src/application/use-cases/GenerateQuestionsUseCase.ts:145-189 | a well-formed bare object with whitespace around it is parsed directly |
| CodeParser.RepairIsIdentity | backend/src/application/use-cases/ValidateCodeUseCase.ts:229-271 | the candidate always ends in `}`, so the repair never changes it |
| CodeParser.SecondAttemptRepeatsFirst | backend/src/application/use-cases/ValidateCodeUseCase.ts:255-278 | the second parse repeats the first: a candidate that fails once fails with the first message |
| CodeParser.ReportOf | backend/src/application/use-cases/ValidateCodeUseCase.ts:280-297 | an object or array gets a truthy `resultado` ("error" when missing) and a truthy feedback text; any other value is a TypeError |
| CodeParser.ParseCode | backend/src/application/use-cases/ValidateCodeUseCase.ts:204-307 | every error carries the "Respuesta inválida de Gemini: " prefix, a blank answer is "Respuesta vacía de Gemini", and a report always has a truthy result and feedback |
| CodeParser.FencedCodeAnswer | backend/src/application/use-cases/ValidateCodeUseCase.ts:204-307 | an object in a json fence is parsed once; its report, or its parse error, is what comes out |
| CodeParser.ObjectTextReport | backend/src/application/use-cases/ValidateCodeUseCase.ts:229-278 | for an object text the repair never matters |
| CodeParser.ToNumber | backend/src/application/use-cases/ValidateCodeUseCase.ts:314 | JavaScript's `Number` conversion of a report field: a number is itself, NaN and the infinities are kept, an object is NaN |
| CodeParser.CalcularPuntos | backend/src/application/use-cases/ValidateCodeUseCase.ts:309-318 | as written: the maximum for "correcto"; 0 for anything but "incorrecto" with truthy passed cases; otherwise the rounded share of passed cases, which may be NaN, infinite, negative or above the maximum |
| CodeParser.ScoreOutOfRange | backend/src/application/use-cases/ValidateCodeUseCase.ts:309-318 | as written: "incorrecto" with 3 passed cases and no total scores +Infinity, and 5 of 3 scores 167 |
| CodeParser.PuntosObtenidos | backend/src/application/use-cases/ValidateCodeUseCase.ts:309-318 | corrected score: always between 0 and 100; 100 for "correcto"; 0 for anything but "correcto" or "incorrecto" |
| CodeParser.CorrectedAgreesOnSaneReports | backend/src/application/use-cases/ValidateCodeUseCase.ts:309-318 | on reports with 0 <= passed <= total and a positive total, the corrected score equals the one as written |
| ValidateCode.NewestBy | backend/src/application/use-cases/ValidateCodeUseCase.ts:42-48 | the row found matches, and no matching row is newer; none is found exactly when no row matches |
| ValidateCode.Newest | backend/src/application/use-cases/ValidateCodeUseCase.ts:42-48 | the newest stored feedback for this hash and exercise, of kind 'validacion_codigo', or none when there is no such row |
| ValidateCode.FromReport | backend/src/application/use-cases/ValidateCodeUseCase.ts:86-99 | the response keeps the report's result and feedback; it scores 100 for "correcto" and 0 for anything but "incorrecto" with truthy passed cases; missing errors become an empty list and missing passed cases 0 |
| ValidateCode.SaneReportScore | backend/src/application/use-cases/ValidateCodeUseCase.ts:309-318 | on a report with 0 <= passed <= total and a positive total the score is the corrected one, between 0 and 100 |
| ValidateCode.FeedbackStore.Insert | backend/src/application/use-cases/ValidateCodeUseCase.ts:130 | the row is appended |
| ValidateCode.FreshResponseBounds | backend/src/application/use-cases/ValidateCodeUseCase.ts:86-149 | a fresh response has a truthy result and feedback, scores 100 for "correcto" and 0 for neither "correcto" nor "incorrecto"; a failure gives the "error" response with score 0 and the message as its only error |
| ValidateCode.Validated | backend/src/application/use-cases/ValidateCodeUseCase.ts:76-99 | a failed call or a failed parse is the failure, with its own message; a success has a truthy result and feedback |
| ValidateCode.CallModel | backend/src/application/use-cases/ValidateCodeUseCase.ts:76-99 | the call, the parser and the score as written by `calcularPuntos` give the reference result Validated |
| ValidateCode.ValidateFresh | backend/src/application/use-cases/ValidateCodeUseCase.ts:73-134 | with no cached answer: a failed call returns the error response and writes nothing; a successful one returns the model's response, caches it under the code key and stores the feedback row when the table accepts it |
| ValidateCode.AfterMemoryMiss | backend/src/application/use-cases/ValidateCodeUseCase.ts:38-134 | after a memory miss: the newest stored row for the raw code's hash and the exercise answers without a model call and is copied into the memory cache; with no such row the model is called once, a failure writes nothing, and a success is cached and stored when the table accepts it |
| ValidateCode.Execute | backend/src/application/use-cases/ValidateCodeUseCase.ts:14-150 | a memory hit answers from the cache with no errors and 0/0 cases and writes nothing; otherwise the newest stored row answers, with its defaults, and is copied into the memory cache; otherwise the model is called once, and its answer is cached and stored when the table accepts the row; any failure gives the error response and writes nothing |
| ValidateCode.Persist | backend/src/application/use-cases/ValidateCodeUseCase.ts:101-134 | the memory cache gets the response under the code key, and the table gains the feedback row when it accepts it |
| ValidateCode.StoredFeedbackFound | backend/src/application/use-cases/ValidateCodeUseCase.ts:38-130 | feedback just stored is what the stored-feedback lookup finds next for the same code and exercise |
| ValidateCode.FreshRecordMatches | backend/src/application/use-cases/ValidateCodeUseCase.ts:42-125 | the row written carries the hash, exercise and kind the lookup filters on |
| ValidateCode.NewestLast | backend/src/application/use-cases/ValidateCodeUseCase.ts:42-48 | a matching row no older than any other matching row is the one found |
| ValidateCode.WrittenFeedbackHits | backend/src/application/use-cases/ValidateCodeUseCase.ts:19-107 | feedback written to the memory cache is a hit of age 0 at the same instant |
| ValidateCode.MemoryTierIgnoresCase | backend/src/application/use-cases/ValidateCodeUseCase.ts:19-22 | two submissions that differ only in letter case share the memory-cache key |
| ValidateCode.NonFiniteScoreReadAsZero | backend/src/application/use-cases/ValidateCodeUseCase.ts:50-125 | a NaN or infinite score is stored as null in the feedback table, so the table tier later answers 0 points for it |
| Json.Stored | backend/src/application/use-cases/ValidateCodeUseCase.ts:115-125 | a value written to the `jsonb` column holds no NaN or infinity, those become null, and a value without them is written as it is |
| ChatAssistant.RecentHistory | backend/src/application/use-cases/ChatAssistantUseCase.ts:79 | the last five turns, or all of them when there are fewer |
| ChatAssistant.TurnLines | backend/src/application/use-cases/ChatAssistantUseCase.ts:81-84 | the loop writes one labelled line per recent turn, as the reference definition Turns does |
| ChatAssistant.ContextLines | backend/src/application/use-cases/ChatAssistantUseCase.ts:63-74 | the context block is the header, then a line for each truthy field |
| ChatAssistant.BuildPrompt | backend/src/application/use-cases/ChatAssistantUseCase.ts:39-115 | the sections are appended in the source's order: persona, context, history, current message, format instructions |
| ChatAssistant.TurnsAt | backend/src/application/use-cases/ChatAssistantUseCase.ts:81-84 | turn k is labelled "Estudiante" for the user and "LULU" for anyone else, and carries the turn's content |
| ChatAssistant.HistoryInPrompt | backend/src/application/use-cases/ChatAssistantUseCase.ts:76-88 | with a history, the prompt holds the history header, then the recent turns in order, then the current message |
| ChatAssistant.NoHistoryNoTurns | backend/src/application/use-cases/ChatAssistantUseCase.ts:77 | without a history, the prompt has no history header and no turn |
| ChatAssistant.ContextLinesInPrompt | backend/src/application/use-cases/ChatAssistantUseCase.ts:63-74 | a topic line or exercise line is in the prompt exactly when the context has that truthy value, and the header exactly when there is a context |
| ChatAssistant.ItemStart | backend/src/application/use-cases/ChatAssistantUseCase.ts:141-147 | the item text of a bullet or numbered line starts inside the line and contains no line break |
| ChatAssistant.FilterMapMeans | backend/src/application/use-cases/ChatAssistantUseCase.ts:138-152 | every collected value comes from some line, and every line that yields a value has it collected |
| ChatAssistant.CollectListed | backend/src/application/use-cases/ChatAssistantUseCase.ts:135-152 | the loop collects the suggestions of the reference definition, in line order |
| ChatAssistant.LineSuggestionShape | backend/src/application/use-cases/ChatAssistantUseCase.ts:139-150 | a suggestion taken from a line is longer than 10 characters and holds no line break |
| ChatAssistant.ListedMeans | backend/src/application/use-cases/ChatAssistantUseCase.ts:134-152 | the listed suggestions are exactly the long-enough items of the section's lines |
| ChatAssistant.ExtractSuggestions | backend/src/application/use-cases/ChatAssistantUseCase.ts:184-207 | the loop keeps the trimmed groups, without duplicates, up to three, as Extracted does |
| ChatAssistant.ExtractedDistinct | backend/src/application/use-cases/ChatAssistantUseCase.ts:198-201 | no suggestion is extracted twice |
| ChatAssistant.ExtractedFromGroups | backend/src/application/use-cases/ChatAssistantUseCase.ts:196-197 | each extracted suggestion is a trimmed group |
| ChatAssistant.ExtractedComplete | backend/src/application/use-cases/ChatAssistantUseCase.ts:193-204 | a group is left out only when it repeats an earlier one or three suggestions are already kept |
| ChatAssistant.FallbackMeans | backend/src/application/use-cases/ChatAssistantUseCase.ts:213-248 | one to three suggestions; the three generic ones when no topic is mentioned; a topic's suggestion appears exactly when the topic is mentioned and fewer than three earlier topics were, at the position given by how many earlier topics were mentioned, so in topic order; with some topic mentioned, as many suggestions as topics mentioned, at most three |
| ChatAssistant.TopicsMembership | backend/src/application/use-cases/ChatAssistantUseCase.ts:218-248 | among the first three suggestions pushed for the first n topics, a topic's suggestion appears exactly when it is one of those n, is mentioned, and fewer than three topics before it are |
| ChatAssistant.OrFallback | backend/src/application/use-cases/ChatAssistantUseCase.ts:158-168 | the suggestions found, or the fallback when none were, always one to three |
| ChatAssistant.Sections | backend/src/application/use-cases/ChatAssistantUseCase.ts:126-169 | the explanation and the suggestions found (at most three), split at the separator when there is one |
| ChatAssistant.ParseStructuredResponse | backend/src/application/use-cases/ChatAssistantUseCase.ts:121-178 | splits the answer at the first separator and collects the listed suggestions, or uses the pattern groups, then falls back; the result is that of ParsedOf |
| ChatAssistant.AnswerHasNoSeparator | backend/src/application/use-cases/ChatAssistantUseCase.ts:127-131 | when there is a separator, the explanation returned no longer contains it |
| ChatAssistant.Execute | backend/src/application/use-cases/ChatAssistantUseCase.ts:7-37 | the answer of the reference definition Answer; no error escapes |
| ChatAssistant.AnswerMeans | backend/src/application/use-cases/ChatAssistantUseCase.ts:7-37 | a failed call gives the fixed apology with no context flag and no suggestions; otherwise the context flag says whether a context was sent, there are one to three suggestions, and the answer is trimmed |
| QuizService.CorrectMapDomain | backend/src/services/QuizService.ts:96-99 | the map of correct options has an entry for a question exactly when one of the returned correct options belongs to it |
| QuizService.CorrectMapLastWins | backend/src/services/QuizService.ts:96-99 | when a question has several correct options, the map keeps the last one returned |
| QuizService.CountCorrect | backend/src/services/QuizService.ts:101-112 | the number of correct answers never exceeds the number of answers |
| QuizService.CountCorrectExtremes | backend/src/services/QuizService.ts:101-112 | all answers correct gives the full count; none correct gives zero |
| QuizService.GradeAnswers | backend/src/services/QuizService.ts:101-120 | the loop counts exactly the correct answers and builds one attempt row per answer, in order, marked correct when the chosen option is the question's correct one |
| QuizService.CalificacionCompletes | backend/src/services/QuizService.ts:122-124 | the rounded grade reaches the completion grade of 80 exactly when at least 79.5 % of the answers are correct |
| QuizService.ProgressedMeans | backend/src/services/QuizService.ts:145-172 | after an attempt the stored percentage is at least the new grade and never drops, the attempt count grows by one, 80 or more means completed, a completed subtopic stays completed, the status is never "not started" and the access date is the current time |
| QuizService.ReplayMeans | backend/src/services/QuizService.ts:145-172 | after a series of attempts the progress holds the best grade, the number of attempts, and is completed exactly when the best grade reaches 80 |
| QuizService.ActualizarProgreso | backend/src/services/QuizService.ts:145-172 | creates or updates only the record of the user and subtopic, leaves the attempt rows alone |
| QuizService.SubmitQuizAttempt | backend/src/services/QuizService.ts:84-140 | the response reports the correct count, the total, the rounded percentage (0 for no answers) and one detail per answer with its correct option if any; one attempt row per answer is appended after the old ones; progress is updated with the grade |
| QuizService.CountOfAppend | backend/src/services/QuizService.ts:49-54 | the subtopic's questions in two batches of rows add up |
| QuizService.Find | backend/src/services/QuizService.ts:49-54 | the lookup only returns stored questions of the requested subtopic |
| QuizService.FindLength | backend/src/services/QuizService.ts:49-54 | with a limit the lookup returns that many questions, or all of the subtopic's when there are fewer |
| QuizService.Take | backend/src/services/QuizService.ts:49-54 | with a limit of 0 the lookup returns every question of the subtopic |
| QuizService.GetQuestionsBySubtopic | backend/src/services/QuizService.ts:48-79 | asks the generator for exactly the missing number of questions when the lookup returns fewer than the limit and never otherwise; after a successful generation the lookup is repeated over the grown bank, after a failed one the first result is returned and the bank is unchanged |
| QuizService.ShortfallFilled | backend/src/services/QuizService.ts:56-71 | when the generator adds at least the missing number of questions of the subtopic, the repeated lookup returns exactly the limit |
| Wrappers.Slice | backend/src/application/use-cases/GenerateQuestionsUseCase.ts:29 | `slice(0, n)` keeps the first n elements, or all of them when there are fewer; a negative end counts from the back |
| Wrappers.RoundDiv | backend/src/services/QuizService.ts:122-124 | `Math.round` of a quotient is the nearest integer, halves rounded up |
| Wrappers.RoundedPercentBounds | backend/src/services/QuizService.ts:122-124 | the rounded share of correct answers lies in 0..100, is 100 when all are correct and 0 when none is |
| Wrappers.RoundedPercentMonotone | backend/src/services/QuizService.ts:122-124 | more correct answers never give a lower grade |
| UserService.ProfileUpdateErrors | backend/src/services/user.service.ts:97-127 | the update fails exactly when a supplied name or surname is not a string of at least 2 characters after trimming, or a photo is truthy and not a string, or a non-blank photo is not an http(s) URL; the first failing check in the order name, surname, photo decides the error, a truthy non-string giving the TypeError "datos.<field>.trim is not a function"; an existing user is never reported as not found |
| UserService.SetNombreOutcome | backend/src/services/user.service.ts:102-107 | the name step fails exactly when a name is supplied and is not a string of at least 2 characters after trimming: with the TypeError of `trim` for a truthy non-string, otherwise (null, "", 0, false, a short name) with the short-name error |
| UserService.SetApellidoOutcome | backend/src/services/user.service.ts:109-114 | the surname step fails exactly when a surname is supplied and is not a string of at least 2 characters after trimming: with the TypeError of `trim` for a truthy non-string, otherwise with the short-surname error |
| UserService.SetFotoOutcome | backend/src/services/user.service.ts:116-127 | the photo step fails exactly when the photo is a truthy non-string, with the TypeError of `trim`, or a non-blank string that does not match `^https?://.+`, with the invalid-URL error |
| UserService.ProfileUpdateKeeps | backend/src/services/user.service.ts:92-143 | a successful update never changes id, email, password hash, role, status or enrolment number; the name and surname become the trimmed supplied values and an absent photo field leaves the photo alone |
| UserService.StoredNamesValid | backend/src/services/user.service.ts:102-114 | a stored name or surname is at least 2 characters long and already trimmed |
| UserService.AcceptedNameTrimmed | backend/src/services/user.service.ts:103-106 | an accepted name keeps at least 2 characters once trimmed and trimming it again changes nothing |
| UserService.TrimEndKeeps | backend/src/services/user.service.ts:123 | trimming the end keeps every character up to the last non-blank one |
| UserService.TrimKeepsPrefix | backend/src/services/user.service.ts:118-123 | trimming a photo URL keeps its `http://` or `https://` prefix |
| UserService.StoredPhotoIsUrl | backend/src/services/user.service.ts:116-127 | after a successful update with a photo field the stored photo is empty exactly when the supplied one was null, blank, 0 or false, and otherwise starts with `http://` or `https://` |
| UserService.StoredPhotoStep | backend/src/services/user.service.ts:116-127 | the same for the photo step on its own |
| UserService.UsuarioRepository.FindOne | backend/src/services/user.service.ts:93-95 | returns nothing exactly when no row has the id, and otherwise a fresh entity holding that row |
| UserService.UsuarioRepository.Save | backend/src/services/user.service.ts:130 | replaces only the row under the entity's id and keeps every row under its own id |
| UserService.UserServiceImpl.AplicarNombre | backend/src/services/user.service.ts:102-107 | the name block changes the entity as the name step says, or reports its error |
| UserService.UserServiceImpl.AplicarApellido | backend/src/services/user.service.ts:109-114 | the surname block changes the entity as the surname step says, or reports its error |
| UserService.UserServiceImpl.AplicarFoto | backend/src/services/user.service.ts:116-127 | the photo block changes the entity as the photo step says, or reports its error |
| UserService.UserServiceImpl.ActualizarPerfil | backend/src/services/user.service.ts:92-143 | an unknown user gives the not-found error and leaves the table alone; otherwise the row is replaced by the validated update and the returned profile is the new row, or the first validation error is returned and the table is unchanged |
| UserService.CountEstado | backend/src/services/user.service.ts:185-191 | a count of progress records in one state never exceeds the number of records |
| UserService.CountEstadoEn | backend/src/services/user.service.ts:207-209 | a count of one subject's records in one state never exceeds the number of records |
| UserService.CountsNested | backend/src/services/user.service.ts:185-209 | a subject's completed topics never exceed all completed topics, and completed plus in-progress never exceed the number of records |
| UserService.ProgresoMateriaBounds | backend/src/services/user.service.ts:211-214 | a subject's progress lies in 0..100, never drops when more topics are completed, is 100 when all are and 0 when none is |
| UserService.TemasNoIniciadosMeans | backend/src/services/user.service.ts:262-263 | the topics not started are never negative; they complete the total when completed and in-progress topics fit in it, and are 0 otherwise |
| RoleMiddleware.RoleCheckMeans | backend/src/middleware/roleMiddleware.ts:10-46 | a request passes exactly when a user is attached and holds one of the allowed roles; no user gives 401 and any other role gives 403 |
| RoleMiddleware.PredefinedRoleSets | backend/src/middleware/roleMiddleware.ts:52-69 | any authenticated user passes the all-roles check; the admin-only, teacher-or-admin, student-only and teacher-only checks pass exactly the roles they name |
| RoleMiddleware.PropioDatosOAdminMeans | backend/src/middleware/roleMiddleware.ts:75-112 | no user gives 401; admins and teachers always pass; a student passes exactly when the requested user id, taken from the first non-empty of the two path parameters or else the body, parses to the student's own id |
| RoleMiddleware.OwnRecordsPass | backend/src/middleware/roleMiddleware.ts:85-103 | a student asking for their own id in the path passes |
| ErrorHandler.PredefinedStatuses | backend/src/middleware/errorHandler.ts:23-51 | the predefined errors carry 404, 401, 403, 400 and 409 |
| ErrorHandler.Classify | backend/src/middleware/errorHandler.ts:76-144 | an application error keeps its status and message and gets its class's type name; any other error gets 400, 401, 409 or 500, 500 exactly with type "InternalServerError", and then no details |
| ErrorHandler.Respond | backend/src/middleware/errorHandler.ts:146-161 | the response carries the path, the timestamp and the classified status, type and message; outside development no stack and no details; in development the error's stack; details are never empty |
| ErrorHandler.ErrorHandlerAsWritten | backend/src/middleware/errorHandler.ts:70-168 | as written, every application error is reported as type "AppError" with its own status and message, and any other error is answered as by HandleError |
| ErrorHandler.HandleError | backend/src/middleware/errorHandler.ts:70-168 | with the corrected prototype chain, an application error is reported under its own class name, with its own status and message |
| ErrorHandler.AppErrorStatus | backend/src/middleware/errorHandler.ts:83-87 | an application error answers with its own status and message, and with the type the type-name function gives its class, whichever function that is, so both as written and corrected |
| ErrorHandler.ErrorTypeIsClassName | backend/src/middleware/errorHandler.ts:83-87 | with the corrected prototype chain an application error is reported under its own class name, and distinct classes get distinct names |
| ErrorHandler.SubclassNameLost | backend/src/middleware/errorHandler.ts:8-18 | as written, a not-found error is reported as "AppError" where its own class name is "NotFoundError" |
| ErrorHandler.StatusClassification | backend/src/middleware/errorHandler.ts:76-144 | whatever the type-name function, any other error answers 400, 401, 409 or 500, and 500 exactly when it is reported as an internal server error |
| ErrorHandler.UnrecognisedMeans | backend/src/middleware/errorHandler.ts:89-144 | whatever the type-name function, a non-application error answers 500 exactly when it is not a validation error, not a failed query, not a JSON syntax error with a body and not a token error |
| ErrorHandler.ConflictAndTokenStatuses | backend/src/middleware/errorHandler.ts:97-144 | whatever the type-name function, only a unique-constraint violation answers 409 and only token errors answer 401 |
| ErrorHandler.DetailsOnlyInDevelopment | backend/src/middleware/errorHandler.ts:146-161 | whatever the type-name function, outside development the response has neither stack nor details; in development it carries the error's stack |
| Validator.ValidateIdParam | backend/src/middleware/validator.ts:107-126 | a parameter that parses to a positive integer is rewritten as that number's decimal text and the request goes on; anything else gets the 400 answer naming the parameter and its raw value, and nothing else changes |
| Validator.IdRewriteStable | backend/src/middleware/validator.ts:110-123 | the rewritten parameter is the canonical decimal text and passes the check again with the same value |
| Validator.IdRefusesZero | backend/src/middleware/validator.ts:110-112 | "0" parses but is refused as an id |
| Validator.IdRefusesNegative | backend/src/middleware/validator.ts:110-112 | a minus sign is read, so a negative number is refused |
| Validator.IdRefusesNonNumeric | backend/src/middleware/validator.ts:109-112 | a missing parameter, an empty one, or one that starts with anything but a digit, a sign or white space does not parse and is refused |
| Validator.PaginationMeans | backend/src/middleware/validator.ts:136-159 | pagination passes exactly when the page (default 1) is at least 1 and the limit (default 10) lies in 1..100; a passing pair is in range, a refusal is a 400, and a bad page is reported before a bad limit |
| Validator.PaginationDefaults | backend/src/middleware/validator.ts:136-137 | missing, unreadable and zero values take the defaults 1 and 10 |
| Validator.OrDefaultOfText | backend/src/middleware/validator.ts:136-137 | the decimal text of a positive number reads back as that number |
| Validator.PaginationReadsHex | backend/src/middleware/validator.ts:136-137 | `parseInt` without a radix reads "0x" values as hexadecimal, so "0x" page and limit values in range pass with their hexadecimal values |
| Validator.PaginationStable | backend/src/middleware/validator.ts:161-163 | the rewritten page and limit pass again with the same values |
| Validator.ValidatePagination | backend/src/middleware/validator.ts:131-166 | on success the page and limit in the query are replaced by their checked values and the request goes on; otherwise the first refusal is answered and the query is unchanged; the route parameters and body never change |
| Validator.ScriptAt | backend/src/middleware/validator.ts:180 | a match of the script pattern is at least 16 characters long and lies within the text |
| Validator.ScriptAtIsMatcher | backend/src/middleware/validator.ts:180 | the pattern never matches an empty stretch |
| Validator.RemoveAll | backend/src/middleware/validator.ts:180 | a global replacement by nothing never makes a text longer |
| Validator.RemoveNothing | backend/src/middleware/validator.ts:180 | a text with no match is left as it is |
| Validator.RemoveShrinks | backend/src/middleware/validator.ts:180 | a text with a match somewhere gets shorter |
| Validator.RemoveKeepsPrefix | backend/src/middleware/validator.ts:180 | the characters before the first match are kept in order |
| Validator.LoneBlockRemoved | backend/src/middleware/validator.ts:179-181 | a lone `<script></script>` is removed and sanitises to the empty string |
| Validator.BlockRemoved | backend/src/middleware/validator.ts:180 | an empty script block at the start is removed and the scan resumes right after it |
| Validator.SplitHeadKept | backend/src/middleware/validator.ts:180 | a `<scr` followed by another tag starts no match and is kept |
| Validator.OnePassLeavesScript | backend/src/middleware/validator.ts:176-182 | as written, one pass turns `<scr<script></script>ipt></script>` into `<script></script>`, a text that still matches the pattern |
| Validator.SanitizeStringAsWritten | backend/src/middleware/validator.ts:177-182 | the sanitiser as written never lengthens a text, and leaves a text without a script block trimmed and otherwise as it is |
| Validator.OnePassSuffices | backend/src/middleware/validator.ts:179-181 | when one pass leaves no script block, the sanitiser as written and the corrected one agree |
| Validator.RemoveUntilStableMeans | backend/src/middleware/validator.ts:180 | repeating the replacement until nothing changes leaves no match, and repeating it again changes nothing |
| Validator.SanitizeString | backend/src/middleware/validator.ts:179-181 | the corrected sanitiser, which repeats the replacement until nothing changes, never lengthens a text, and leaves a text without a script block trimmed and otherwise as it is |
| Validator.SanitizeStringClean | backend/src/middleware/validator.ts:176-182 | the corrected sanitiser leaves no script block in a string, even after trimming |
| Validator.SanitizeStringIdempotent | backend/src/middleware/validator.ts:176-182 | sanitising the corrected sanitiser's result again changes nothing |
| Validator.SanitizeShape | backend/src/middleware/validator.ts:176-197 | sanitising keeps the shape of a value: strings stay strings and go through the sanitiser as written, arrays keep their length with each element sanitised, objects keep their keys in order with each value sanitised, and other values are unchanged |
| Validator.Sanitize | backend/src/middleware/validator.ts:176-197 | `sanitize` as written: a string goes through the one-pass sanitiser, arrays and objects keep their length and keys, other values are unchanged |
| Validator.SanitizeWith | backend/src/middleware/validator.ts:176-197 | the recursive walk with a given string cleaner keeps kinds, lengths and keys and changes no value that is not a string, an array or an object |
| Validator.SanitizeNotIdempotent | backend/src/middleware/validator.ts:176-197 | as written, sanitising is not idempotent: the split script text sanitises to `<script></script>`, and a second pass to the empty string |
| Validator.SanitizeCorrected | backend/src/middleware/validator.ts:176-197 | the walk with the corrected sanitiser: strings stay strings and are cleaned, arrays and objects keep their length and keys |
| Validator.SanitizeCorrectedClean | backend/src/middleware/validator.ts:176-197 | with the corrected sanitiser no string anywhere in the result holds a script block |
| Validator.SanitizeWithIdempotent | backend/src/middleware/validator.ts:176-197 | the walk with an idempotent cleaner is idempotent, at any depth |
| Validator.SanitizeCorrectedIdempotent | backend/src/middleware/validator.ts:176-197 | sanitising twice with the corrected sanitiser is the same as sanitising once |
| Validator.SanitizeLookup | backend/src/middleware/validator.ts:188-193 | looking a key up in a sanitised object gives the sanitised value of the original lookup |
| Validator.MapValuesIdempotent | backend/src/middleware/validator.ts:188-193 | mapping an idempotent cleaner over every value of a map is idempotent |
| Validator.SanitizeMap | backend/src/middleware/validator.ts:203-209 | the query or parameters sanitised as written keep the same keys |
| Validator.SanitizeMapTrimsClean | backend/src/middleware/validator.ts:203-209 | a query or parameter value without a script block is only trimmed |
| Validator.SanitizeMapNotIdempotent | backend/src/middleware/validator.ts:203-209 | as written, a query value holding the split script text is left holding `<script></script>`, and a second pass changes it again |
| Validator.SanitizeMapCorrected | backend/src/middleware/validator.ts:203-209 | with the corrected sanitiser the query or parameters keep the same keys |
| Validator.SanitizeMapCorrectedClean | backend/src/middleware/validator.ts:203-209 | with the corrected sanitiser no query or parameter value holds a script block |
| Validator.SanitizeMapCorrectedIdempotent | backend/src/middleware/validator.ts:203-209 | with the corrected sanitiser, sanitising the query or the parameters again changes nothing |
| Validator.SanitizeStrings | backend/src/middleware/validator.ts:171-212 | the body, when truthy, and every query and parameter value are replaced by their versions sanitised as written, and the request goes on |
| Text.ParseIntHex | backend/src/middleware/validator.ts:136-137 | `parseInt` without a radix reads "0x" followed by hexadecimal digits as the hexadecimal value of those digits |
| Text.ParseIntNatToString | backend/src/middleware/validator.ts:110 | the decimal text of any natural number parses back to that number, both with radix 10 and without a radix |

## Left out

- Json.JNumber: finite numbers are integers only. Fractional values in the model's answers (a score of 7.5, a fractional count of test cases) and conversions such as `Number("1.5")` downstream are not represented.
- JSON parsing itself: `JSON.parse` is a parameter. Its error messages and the position they report come from the oracle.
- md5 is a function parameter, not RFC 1321.
- The Gemini SDK and network are a sequence of attempt outcomes. The waits between attempts are returned instead of slept.
- Database access is not modelled: repositories, SQL queries, relation loading (the `opciones` of quiz questions) and result ordering. The tables that are read or written are sequences in small store classes.
- A database write that may fail is a boolean parameter.
- A failed read of stored questions or feedback is not modelled.
- `obtenerPerfil`, the SQL part of `obtenerProgresoGeneral` and the `promedioGeneral` average are not modelled; only the percentage and clamp arithmetic are.
- Floating-point outputs are left out: average latency, `porcentajeCache`, the monthly percentages and `toFixed` strings. The alert thresholds are integer comparisons (`100·real >= 95·limit`).
- QuizService.SubmitQuizAttempt: the grade is the exactly rounded value of 100·correct/total. The source computes `Math.round((correct/total)*100)` in floating point, which can round down at a half-way point (57 of 200 gives 28 there, not 29).
- UserService.ProgresoMateriaBounds: the same exact rounding stands in for the floating-point `Math.round`.
- CodeParser.PuntosObtenidos: the same exact rounding stands in for the floating-point `Math.round`.
- CodeParser.ToNumber: reads only optional-sign decimal integer text. Text such as "1e2", "0x1A" or "3.0" is a number for JavaScript's `Number` but NaN here.
- CodeParser.CalcularPuntos: a finite quotient is rounded exactly, with halves rounded up, and there is no negative zero. The source computes `100 * (p / t)` in floating point before `Math.round`.
- Text.ToUpper: maps ASCII and Latin-1 letters only, like Text.ToLower. It is used only to classify transient model errors.
- GenerateQuestions.Execute: bounds the number of questions only for a non-negative `cantidad`. A negative one makes `slice(0, cantidad)` count from the end, which the model follows but does not bound.
- Wall clock: time is an integer in milliseconds and a day is 86 400 000 ms. Daylight-saving shifts of `Date.setDate` and ISO date strings are not modelled; a record's day is its UTC day index.
- Logging and console output are left out.
- Async interleaving is left out: each operation runs as one sequential step.
- Text.ToLower: maps ASCII and Latin-1 letters only. Case mapping beyond Latin-1 is not modelled.
- Strings are sequences of code points. The source's `.length`, `substring` and `slice` count UTF-16 units, which differ for characters outside the Basic Multilingual Plane.
- Text.ParseInt: models decimal and `0x` hexadecimal input on unbounded integers. The loss of precision for values above 2^53 is not modelled.
- The free-text regular expression of `extractSuggestions` is a parameter: the list of its captured groups. Only the de-duplication and the bound of three are modelled.
- Prompt wording is left out: each prompt is modelled by its structure (history slice, context lines, counts).
- ValidateCode.Persist: writes the table row before the memory cache, the reverse of the source's order. The two writes touch disjoint state and the insert outcome is a parameter, so the final state is the same.
- The cache's `try/catch` that turns a failed lookup into a miss catches nothing in the model, since the modelled lookups cannot fail.
- The `try/catch` of `soloPropioDatosOAdmin` that answers 500 (a request without a body) is not modelled: the body is always present.
- The monitor reads the model name once, at construction.
- Request objects carry only the fields the middlewares read. Nested query values and repeated query keys are not modelled.

## Findings

| source | as written | input that shows it | evidently intended | confidence | as-written member | corrected member |
|---|---|---|---|---|---|---|
| backend/src/application/use-cases/ValidateCodeUseCase.ts:309-318 | `calcularPuntos` divides by `casos_prueba_totales` after defaulting a missing value to 0, and does not cap passed cases | `{"resultado":"incorrecto","casos_prueba_pasados":3}` scores +Infinity (3/0); 5 passed of 3 scores 167 | a score between 0 and 100, 0 when there are no cases | not executed | CodeParser.ScoreOutOfRange | CodeParser.PuntosObtenidos |
| backend/src/middleware/errorHandler.ts:8-18 | `Object.setPrototypeOf(this, AppError.prototype)` in the base constructor makes every subclass instance report `constructor.name` "AppError" | a `NotFoundError` is answered with error type "AppError" | each error reported under its own class name | not executed | ErrorHandler.SubclassNameLost | ErrorHandler.ErrorTypeIsClassName |
| backend/src/middleware/validator.ts:176-182 | `sanitize` applies the script-block replacement once | `<scr<script></script>ipt></script>` becomes `<script></script>` | no script block left in a sanitised string | not executed | Validator.SanitizeNotIdempotent | Validator.SanitizeCorrectedClean |
