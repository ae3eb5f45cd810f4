/** Quiz grading and the per-subtopic progress record (QuizService): an
    attempt is graded against the correct option recorded for each question,
    one attempt row is stored per answer, and the progress record keeps the
    best grade, counts the attempts and moves its status forward. Questions
    for a subtopic are topped up by the generator when the bank holds too few. */
module QuizService {
  import opened Wrappers

  /** The grade from which a subtopic counts as completed. */
  const COMPLETION_GRADE := 80

  datatype Answer = Answer(preguntaId: int, opcionElegidaId: int)

  /** A correct option as the lookup of correct options returns it. */
  datatype CorrectOption = CorrectOption(id: int, preguntaId: int)

  /** One row of `intentos_quiz`. */
  datatype QuizAttempt = QuizAttempt(usuarioId: int, preguntaId: int, opcionSeleccionadaId: int, esCorrecta: bool)

  /** One entry of `detalles`; the correct option is `undefined` for a
      question with no correct option on record. */
  datatype Detail = Detail(preguntaId: int, esCorrecta: bool, opcionCorrectaId: Option<int>)

  datatype Submission = Submission(calificacion: int, respuestasCorrectas: nat, totalPreguntas: nat, detalles: seq<Detail>)

  datatype Estado = NoIniciado | EnProgreso | Completado

  /** A progress record; its status column is nullable. */
  datatype Progress = Progress(estado: Option<Estado>, porcentajeCompletado: int, intentos: nat, fechaUltimoAcceso: int)

  // ---------------------------------------------------------------- grading

  /** `mapaRespuestasCorrectas`: the options are folded in order, each one
      overwriting the entry of its question. */
  function CorrectMap(opciones: seq<CorrectOption>): map<int, int> {
    if opciones == [] then map[]
    else
      var last := opciones[|opciones| - 1];
      CorrectMap(opciones[..|opciones| - 1])[last.preguntaId := last.id]
  }

  /** Option `i` is the last returned option of its question. */
  predicate LastOfQuestion(opciones: seq<CorrectOption>, i: nat)
    requires i < |opciones|
  {
    forall j :: i < j < |opciones| ==> opciones[j].preguntaId != opciones[i].preguntaId
  }

  /** A question has an entry exactly when one of its options was returned. */
  lemma {:induction false} CorrectMapDomain(opciones: seq<CorrectOption>, q: int)
    ensures q in CorrectMap(opciones) <==> exists i :: 0 <= i < |opciones| && opciones[i].preguntaId == q
  {
    if opciones != [] {
      var init := opciones[..|opciones| - 1];
      var last := opciones[|opciones| - 1];
      CorrectMapDomain(init, q);
      if last.preguntaId == q {
        assert opciones[|opciones| - 1].preguntaId == q;
      } else {
        if exists i :: 0 <= i < |opciones| && opciones[i].preguntaId == q {
          var i :| 0 <= i < |opciones| && opciones[i].preguntaId == q;
          assert init[i] == opciones[i];
        }
        if q in CorrectMap(init) {
          var i :| 0 <= i < |init| && init[i].preguntaId == q;
          assert opciones[i] == init[i];
        }
      }
    }
  }

  /** When several options of a question were returned, the last one wins. */
  lemma {:induction false} CorrectMapLastWins(opciones: seq<CorrectOption>, q: int, i: nat)
    requires i < |opciones| && opciones[i].preguntaId == q && LastOfQuestion(opciones, i)
    ensures q in CorrectMap(opciones) && CorrectMap(opciones)[q] == opciones[i].id
  {
    var init := opciones[..|opciones| - 1];
    var last := opciones[|opciones| - 1];
    if i < |opciones| - 1 {
      assert last.preguntaId != q;
      assert init[i] == opciones[i];
      assert LastOfQuestion(init, i) by {
        forall j | i < j < |init| ensures init[j].preguntaId != init[i].preguntaId {
          assert init[j] == opciones[j];
        }
      }
      CorrectMapLastWins(init, q, i);
    }
  }

  /** `opcionCorrectaId === respuesta.opcionElegidaId`: a question with no
      correct option on record compares `undefined` and fails. */
  predicate IsCorrect(mapa: map<int, int>, r: Answer) {
    r.preguntaId in mapa && mapa[r.preguntaId] == r.opcionElegidaId
  }

  /** The number of correctly answered questions. */
  function CountCorrect(mapa: map<int, int>, respuestas: seq<Answer>): (n: nat)
    ensures n <= |respuestas|
  {
    if respuestas == [] then 0
    else CountCorrect(mapa, respuestas[..|respuestas| - 1]) + (if IsCorrect(mapa, respuestas[|respuestas| - 1]) then 1 else 0)
  }

  /** Every answer correct gives the full count, none correct gives zero. */
  lemma {:induction false} CountCorrectExtremes(mapa: map<int, int>, respuestas: seq<Answer>)
    ensures (forall i :: 0 <= i < |respuestas| ==> IsCorrect(mapa, respuestas[i])) ==> CountCorrect(mapa, respuestas) == |respuestas|
    ensures (forall i :: 0 <= i < |respuestas| ==> !IsCorrect(mapa, respuestas[i])) ==> CountCorrect(mapa, respuestas) == 0
  {
    if respuestas != [] {
      var init := respuestas[..|respuestas| - 1];
      CountCorrectExtremes(mapa, init);
      assert forall i :: 0 <= i < |init| ==> init[i] == respuestas[i];
    }
  }

  function AttemptOf(usuarioId: int, mapa: map<int, int>, r: Answer): QuizAttempt {
    QuizAttempt(usuarioId, r.preguntaId, r.opcionElegidaId, IsCorrect(mapa, r))
  }

  /** The grading loop: counts the correct answers and prepares one attempt
      row per answer, in the order of the answers. */
  method GradeAnswers(usuarioId: int, respuestas: seq<Answer>, mapa: map<int, int>)
    returns (respuestasCorrectas: nat, intentos: seq<QuizAttempt>)
    ensures respuestasCorrectas == CountCorrect(mapa, respuestas)
    ensures |intentos| == |respuestas|
    ensures forall i :: 0 <= i < |respuestas| ==> intentos[i] == AttemptOf(usuarioId, mapa, respuestas[i])
  {
    respuestasCorrectas := 0;
    intentos := [];
    for k := 0 to |respuestas|
      invariant respuestasCorrectas == CountCorrect(mapa, respuestas[..k])
      invariant |intentos| == k
      invariant forall i :: 0 <= i < k ==> intentos[i] == AttemptOf(usuarioId, mapa, respuestas[i])
    {
      var respuesta := respuestas[k];
      var esCorrecta := respuesta.preguntaId in mapa && mapa[respuesta.preguntaId] == respuesta.opcionElegidaId;
      if esCorrecta {
        respuestasCorrectas := respuestasCorrectas + 1;
      }
      intentos := intentos + [QuizAttempt(usuarioId, respuesta.preguntaId, respuesta.opcionElegidaId, esCorrecta)];
      assert respuestas[..k + 1][..k] == respuestas[..k];
    }
    assert respuestas[..|respuestas|] == respuestas;
  }

  /** A submission completes the subtopic exactly when at least 79.5 % of
      its answers are correct (the grade rounds up to 80). */
  lemma CalificacionCompletes(correctas: nat, total: nat)
    requires total > 0
    ensures RoundedPercent(correctas, total) >= COMPLETION_GRADE <==> 200 * correctas >= 159 * total
  {
    var n := 2 * (100 * correctas) + total;
    var d := 2 * total;
    var r := n / d;
    assert RoundedPercent(correctas, total) == r;
    assert n == d * r + n % d && 0 <= n % d < d;
    if r >= 80 {
      MultiplyCancels(d, 80, r);
    } else {
      MultiplyCancels(d, r + 1, 80);
      assert d * (r + 1) == d * r + d;
    }
  }

  // --------------------------------------------------------------- progress

  /** `actualizarProgreso` on the record found for the user and subtopic (or
      none): a new record takes the grade and one attempt; an existing one
      keeps the better percentage, counts one more attempt, and moves to
      completed at 80 or from not-started to in-progress. */
  function Progressed(prev: Option<Progress>, calificacion: int, now: int): Progress {
    match prev
    case None =>
      Progress(Some(if calificacion >= COMPLETION_GRADE then Completado else EnProgreso), calificacion, 1, now)
    case Some(p) =>
      var porcentaje := Max(p.porcentajeCompletado, calificacion);
      var estado :=
        if porcentaje >= COMPLETION_GRADE then Some(Completado)
        else if p.estado == Some(NoIniciado) then Some(EnProgreso)
        else p.estado;
      Progress(estado, porcentaje, p.intentos + 1, now)
  }

  /** The percentage never decreases and reaches the new grade; the attempt
      counter grows by exactly one; a completed subtopic stays completed and
      none is left not-started. */
  lemma ProgressedMeans(prev: Option<Progress>, calificacion: int, now: int)
    ensures var p := Progressed(prev, calificacion, now);
      && p.porcentajeCompletado >= calificacion
      && (prev.Some? ==> p.porcentajeCompletado >= prev.value.porcentajeCompletado)
      && p.intentos == (if prev.Some? then prev.value.intentos else 0) + 1
      && (p.porcentajeCompletado >= COMPLETION_GRADE ==> p.estado == Some(Completado))
      && (prev.Some? && prev.value.estado == Some(Completado) ==> p.estado == Some(Completado))
      && p.estado != Some(NoIniciado)
      && p.fechaUltimoAcceso == now
  {
  }

  /** The status of a subtopic reached through submissions only is
      completed exactly when its best grade reaches 80, and in-progress
      otherwise. */
  function Replay(grades: seq<int>, now: int): (p: Option<Progress>)
    ensures p.Some? <==> grades != []
  {
    if grades == [] then None
    else Some(Progressed(Replay(grades[..|grades| - 1], now), grades[|grades| - 1], now))
  }

  function Best(grades: seq<int>): int
    requires grades != []
  {
    if |grades| == 1 then grades[0] else Max(Best(grades[..|grades| - 1]), grades[|grades| - 1])
  }

  /** After any run of submissions the record holds the best grade, one
      attempt per submission, and is completed exactly when the best grade
      reaches 80. */
  lemma {:induction false} ReplayMeans(grades: seq<int>, now: int)
    requires grades != []
    ensures var p := Replay(grades, now).value;
      && p.porcentajeCompletado == Best(grades)
      && p.intentos == |grades|
      && p.estado == Some(if Best(grades) >= COMPLETION_GRADE then Completado else EnProgreso)
  {
    if |grades| > 1 {
      ReplayMeans(grades[..|grades| - 1], now);
    }
  }

  // ------------------------------------------------------------ submission

  /** The attempt rows and the progress records. */
  class QuizStore {
    var attempts: seq<QuizAttempt>
    var progress: map<(int, int), Progress>

    constructor ()
      ensures attempts == [] && progress == map[]
    {
      attempts := [];
      progress := map[];
    }
  }

  /** `actualizarProgreso`: find the record of the user and subtopic, create
      or update it, save it. */
  method ActualizarProgreso(store: QuizStore, usuarioId: int, subtemaId: int, calificacion: int, now: int)
    modifies store
    ensures store.progress == old(store.progress)[(usuarioId, subtemaId) :=
      Progressed(if (usuarioId, subtemaId) in old(store.progress) then Some(old(store.progress)[(usuarioId, subtemaId)]) else None,
                 calificacion, now)]
    ensures store.attempts == old(store.attempts)
  {
    var key := (usuarioId, subtemaId);
    var progreso: Progress;
    if key !in store.progress {
      progreso := Progress(Some(if calificacion >= COMPLETION_GRADE then Completado else EnProgreso), calificacion, 1, now);
    } else {
      progreso := store.progress[key];
      progreso := progreso.(porcentajeCompletado := Max(progreso.porcentajeCompletado, calificacion));
      progreso := progreso.(intentos := progreso.intentos + 1);
      progreso := progreso.(fechaUltimoAcceso := now);
      if progreso.porcentajeCompletado >= COMPLETION_GRADE {
        progreso := progreso.(estado := Some(Completado));
      } else if progreso.estado == Some(NoIniciado) {
        progreso := progreso.(estado := Some(EnProgreso));
      }
    }
    store.progress := store.progress[key := progreso];
  }

  /** `submitQuizAttempt`, given the correct options the lookup returns: the
      attempt rows are stored in the order of the answers, the progress
      record is updated with the grade, and `detalles` mirrors the attempts. */
  method SubmitQuizAttempt(store: QuizStore, usuarioId: int, subtemaId: int, respuestas: seq<Answer>,
                           opcionesCorrectas: seq<CorrectOption>, now: int)
    returns (response: Submission)
    modifies store
    ensures var mapa := CorrectMap(opcionesCorrectas);
      && response.respuestasCorrectas == CountCorrect(mapa, respuestas)
      && response.totalPreguntas == |respuestas|
      && response.calificacion == RoundedPercent(CountCorrect(mapa, respuestas), |respuestas|)
      && |response.detalles| == |respuestas|
      && (forall i :: 0 <= i < |respuestas| ==> response.detalles[i] == Detail(
            respuestas[i].preguntaId, IsCorrect(mapa, respuestas[i]),
            if respuestas[i].preguntaId in mapa then Some(mapa[respuestas[i].preguntaId]) else None))
    ensures var mapa := CorrectMap(opcionesCorrectas);
      && |store.attempts| == |old(store.attempts)| + |respuestas|
      && store.attempts[..|old(store.attempts)|] == old(store.attempts)
      && (forall i :: 0 <= i < |respuestas| ==>
            store.attempts[|old(store.attempts)| + i] == AttemptOf(usuarioId, mapa, respuestas[i]))
    ensures store.progress == old(store.progress)[(usuarioId, subtemaId) :=
      Progressed(if (usuarioId, subtemaId) in old(store.progress) then Some(old(store.progress)[(usuarioId, subtemaId)]) else None,
                 RoundedPercent(CountCorrect(CorrectMap(opcionesCorrectas), respuestas), |respuestas|), now)]
  {
    var mapa := CorrectMap(opcionesCorrectas);
    var respuestasCorrectas, intentos := GradeAnswers(usuarioId, respuestas, mapa);
    var totalPreguntas := |respuestas|;
    var calificacion := if totalPreguntas > 0 then RoundDiv(100 * respuestasCorrectas, totalPreguntas) else 0;
    store.attempts := store.attempts + intentos;
    ActualizarProgreso(store, usuarioId, subtemaId, calificacion, now);
    var detalles := seq(|intentos|, i requires 0 <= i < |intentos| =>
      Detail(intentos[i].preguntaId, intentos[i].esCorrecta,
             if intentos[i].preguntaId in mapa then Some(mapa[intentos[i].preguntaId]) else None));
    response := Submission(calificacion, respuestasCorrectas, totalPreguntas, detalles);
  }

  // ------------------------------------------------------- question lookup

  /** A stored question of the bank; rows are kept in insertion order, which
      is the order of their generated ids. */
  datatype StoredQuestion = StoredQuestion(id: int, subtemaId: int)

  /** The questions of a subtopic in the bank. */
  function CountOf(rows: seq<StoredQuestion>, subtemaId: int): nat {
    if rows == [] then 0
    else CountOf(rows[..|rows| - 1], subtemaId) + (if rows[|rows| - 1].subtemaId == subtemaId then 1 else 0)
  }

  lemma {:induction false} CountOfAppend(a: seq<StoredQuestion>, b: seq<StoredQuestion>, subtemaId: int)
    ensures CountOf(a + b, subtemaId) == CountOf(a, subtemaId) + CountOf(b, subtemaId)
  {
    if b == [] {
      assert a + b == a;
    } else {
      assert (a + b)[..|a + b| - 1] == a + b[..|b| - 1];
      assert (a + b)[|a + b| - 1] == b[|b| - 1];
      CountOfAppend(a, b[..|b| - 1], subtemaId);
    }
  }

  /** The lookup `find({ where: { subtemaId }, take: limite, order: { id: 'DESC' } })`:
      the newest `limite` questions of the subtopic, newest first. */
  function Find(rows: seq<StoredQuestion>, subtemaId: int, limite: nat): (r: seq<StoredQuestion>)
    ensures forall x :: x in r ==> x in rows && x.subtemaId == subtemaId
  {
    if rows == [] || limite == 0 then []
    else
      var last := rows[|rows| - 1];
      if last.subtemaId == subtemaId then [last] + Find(rows[..|rows| - 1], subtemaId, limite - 1)
      else Find(rows[..|rows| - 1], subtemaId, limite)
  }

  /** The lookup returns `limite` questions, or all of the subtopic's when
      there are fewer. */
  lemma {:induction false} FindLength(rows: seq<StoredQuestion>, subtemaId: int, limite: nat)
    ensures |Find(rows, subtemaId, limite)| == Min(limite, CountOf(rows, subtemaId))
  {
    if rows != [] && limite != 0 {
      var last := rows[|rows| - 1];
      if last.subtemaId == subtemaId {
        FindLength(rows[..|rows| - 1], subtemaId, limite - 1);
      } else {
        FindLength(rows[..|rows| - 1], subtemaId, limite);
      }
    }
  }

  /** The lookup with its `take` option: a `take` of 0 sets no limit, so
      every question of the subtopic is returned. */
  function Take(rows: seq<StoredQuestion>, subtemaId: int, limite: nat): (r: seq<StoredQuestion>)
    ensures limite == 0 ==> |r| == CountOf(rows, subtemaId)
    ensures limite > 0 ==> |r| == Min(limite, CountOf(rows, subtemaId))
  {
    var n := if limite == 0 then |rows| else limite;
    FindLength(rows, subtemaId, n);
    CountOfBound(rows, subtemaId);
    Find(rows, subtemaId, n)
  }

  lemma {:induction false} CountOfBound(rows: seq<StoredQuestion>, subtemaId: int)
    ensures CountOf(rows, subtemaId) <= |rows|
  {
    if rows != [] {
      CountOfBound(rows[..|rows| - 1], subtemaId);
    }
  }

  /** `getQuestionsBySubtopic`: when the bank holds fewer than `limite`
      questions of the subtopic, the generator is asked for exactly the
      missing number and the lookup is repeated; a generator failure keeps
      the first lookup. `generated` is what the generator adds to the bank
      (or its error); `solicitud` is the count it was asked for, if it was
      called. */
  method GetQuestionsBySubtopic(bank: QuestionBank, subtemaId: int, limite: nat,
                                generated: Result<seq<StoredQuestion>, string>)
    returns (preguntas: seq<StoredQuestion>, solicitud: Option<nat>)
    modifies bank
    ensures var found := |Take(old(bank.rows), subtemaId, limite)|;
      solicitud == if found < limite then Some(limite - found) else None
    ensures solicitud.Some? && generated.Ok? ==>
      bank.rows == old(bank.rows) + generated.value && preguntas == Take(bank.rows, subtemaId, limite)
    ensures solicitud.None? || generated.Err? ==>
      bank.rows == old(bank.rows) && preguntas == Take(old(bank.rows), subtemaId, limite)
  {
    preguntas := Take(bank.rows, subtemaId, limite);
    var preguntasFaltantes := limite - |preguntas|;
    solicitud := None;
    if preguntasFaltantes > 0 {
      solicitud := Some(preguntasFaltantes);
      match generated
      case Ok(added) =>
        bank.rows := bank.rows + added;
        preguntas := Take(bank.rows, subtemaId, limite);
      case Err(_) =>
    }
  }

  /** When the generator adds at least the missing number of questions of
      the subtopic, the repeated lookup returns exactly `limite` questions. */
  lemma ShortfallFilled(rows: seq<StoredQuestion>, added: seq<StoredQuestion>, subtemaId: int, limite: nat)
    requires |Find(rows, subtemaId, limite)| < limite
    requires CountOf(added, subtemaId) >= limite - |Find(rows, subtemaId, limite)|
    ensures |Find(rows + added, subtemaId, limite)| == limite
  {
    FindLength(rows, subtemaId, limite);
    FindLength(rows + added, subtemaId, limite);
    CountOfAppend(rows, added, subtemaId);
  }

  /** The question rows of the bank. */
  class QuestionBank {
    var rows: seq<StoredQuestion>

    constructor (rows: seq<StoredQuestion>)
      ensures this.rows == rows
    {
      this.rows := rows;
    }
  }
}
