/** The question-generation use case (GenerateQuestionsUseCase): a cache
    lookup first; on a miss the subtopic is read, the model is asked, its
    answer is parsed and validated, the questions are written to the
    database (a failed write is swallowed) and appended to the cache. */
module GenerateQuestions {
  import opened Wrappers
  import opened Text
  import opened Json
  import opened QuestionParser
  import opened Cache
  import opened GeminiClient

  const WRAP_ERROR := "Error al generar preguntas: "
  const NO_QUESTIONS := "No se generaron preguntas"
  /** The TypeError the debug line's `pregunta.texto?.substring(0, 50)`
      raises when the text is neither a string nor null or undefined. */
  const SUBSTRING_NOT_A_FUNCTION := "pregunta.texto?.substring is not a function"
  const CONTENT_PREFIX := 200

  /** The subtopic row the prompt is built from. */
  datatype Subtema = Subtema(nombre: string, descripcion: string, temaNombre: Option<string>, contenidoDetalle: Option<string>)

  datatype Request = Request(subtemaId: int, cantidad: int, dificultad: string)

  datatype Response = Response(preguntas: seq<GeneratedQuestion>, subtemaId: int, cantidadGenerada: int)

  /** The values the prompt interpolates; its wording is not modelled. */
  datatype QuestionPrompt = QuestionPrompt(cantidad: int, tema: string, subtema: string, contenido: string, dificultad: string)

  /** The options of the model call. */
  const GENERATION_OPTIONS := GenerateOptions(Some(0.7), Some(3000))

  // ---------------------------------------------------------------------
  // buildPrompt
  // ---------------------------------------------------------------------

  /** `subtema.tema?.nombre || 'N/A'`. */
  function TemaLine(s: Subtema): (t: string)
    ensures t != []
    ensures s.temaNombre.Some? && s.temaNombre.value != [] ==> t == s.temaNombre.value
  {
    if s.temaNombre.Some? && s.temaNombre.value != [] then s.temaNombre.value else "N/A"
  }

  /** `subtema.contenidoDetalle?.substring(0, 200) || subtema.descripcion`. */
  function ContenidoLine(s: Subtema): (c: string)
    ensures s.contenidoDetalle.Some? && s.contenidoDetalle.value != [] ==>
      |c| == Min(CONTENT_PREFIX, |s.contenidoDetalle.value|) && c <= s.contenidoDetalle.value
    ensures s.contenidoDetalle == None || s.contenidoDetalle == Some([]) ==> c == s.descripcion
  {
    if s.contenidoDetalle.Some? && s.contenidoDetalle.value != [] then
      var d := s.contenidoDetalle.value;
      d[..Min(CONTENT_PREFIX, |d|)]
    else
      s.descripcion
  }

  function BuildPrompt(s: Subtema, r: Request): QuestionPrompt {
    QuestionPrompt(r.cantidad, TemaLine(s), s.nombre, ContenidoLine(s), r.dificultad)
  }

  // ---------------------------------------------------------------------
  // validateQuestions
  // ---------------------------------------------------------------------

  function InvalidText(i: nat): string {
    "Pregunta " + NatToString(i + 1) + " inválida: debe tener texto válido"
  }

  function WrongCorrectCount(i: nat, n: nat): string {
    "Pregunta " + NatToString(i + 1) + " inválida: debe tener exactamente 1 opción correcta (tiene " + NatToString(n) + ")"
  }

  predicate MarkedCorrect(o: GeneratedOption) {
    Truthy(Some(o.esCorrecta))
  }

  /** `opciones.filter(o => o.es_correcta).length`. */
  function CorrectCount(os: seq<GeneratedOption>): (n: nat)
    ensures n <= |os|
  {
    if os == [] then 0
    else CorrectCount(os[..|os| - 1]) + (if MarkedCorrect(os[|os| - 1]) then 1 else 0)
  }

  /** Exactly one option is marked correct. */
  predicate OneCorrect(os: seq<GeneratedOption>) {
    exists k :: 0 <= k < |os| && MarkedCorrect(os[k]) &&
      forall j :: 0 <= j < |os| && j != k ==> !MarkedCorrect(os[j])
  }

  /** No option is marked correct. */
  predicate NoneCorrect(os: seq<GeneratedOption>) {
    forall j :: 0 <= j < |os| ==> !MarkedCorrect(os[j])
  }

  lemma {:induction false} CountZero(os: seq<GeneratedOption>)
    ensures CorrectCount(os) == 0 <==> NoneCorrect(os)
  {
    if os != [] {
      var init := os[..|os| - 1];
      CountZero(init);
      assert forall j :: 0 <= j < |init| ==> init[j] == os[j];
    }
  }

  lemma {:induction false} CountOfSingleCorrect(os: seq<GeneratedOption>, k: nat)
    requires k < |os| && MarkedCorrect(os[k])
    requires forall j :: 0 <= j < |os| && j != k ==> !MarkedCorrect(os[j])
    ensures CorrectCount(os) == 1
  {
    var init := os[..|os| - 1];
    if k == |os| - 1 {
      CountZero(init);
    } else {
      CountOfSingleCorrect(init, k);
    }
  }

  lemma {:induction false} SingleCorrectOfCount(os: seq<GeneratedOption>)
    requires CorrectCount(os) == 1
    ensures OneCorrect(os)
  {
    var init := os[..|os| - 1];
    if MarkedCorrect(os[|os| - 1]) {
      CountZero(init);
      assert forall j :: 0 <= j < |os| - 1 ==> !MarkedCorrect(os[j]) by {
        forall j | 0 <= j < |os| - 1 ensures !MarkedCorrect(os[j]) {
          assert init[j] == os[j];
        }
      }
    } else {
      SingleCorrectOfCount(init);
      var k :| 0 <= k < |init| && MarkedCorrect(init[k]) &&
        forall j :: 0 <= j < |init| && j != k ==> !MarkedCorrect(init[j]);
      assert MarkedCorrect(os[k]);
      forall j | 0 <= j < |os| && j != k ensures !MarkedCorrect(os[j]) {
        if j < |init| {
          assert init[j] == os[j];
        }
      }
    }
  }

  /** The count the validator compares with 1 is one exactly when a single
      option is marked correct. */
  lemma CountOne(os: seq<GeneratedOption>)
    ensures CorrectCount(os) == 1 <==> OneCorrect(os)
  {
    if CorrectCount(os) == 1 {
      SingleCorrectOfCount(os);
    }
    if OneCorrect(os) {
      var k :| 0 <= k < |os| && MarkedCorrect(os[k]) &&
        forall j :: 0 <= j < |os| && j != k ==> !MarkedCorrect(os[j]);
      CountOfSingleCorrect(os, k);
    }
  }

  /** The text check: `pregunta.texto` is a non-empty string. */
  predicate HasText(q: GeneratedQuestion) {
    q.texto.JString? && q.texto.s != []
  }

  predicate WellFormed(q: GeneratedQuestion) {
    HasText(q) && OneCorrect(q.opciones)
  }

  /** `?.` calls `substring` on anything that is not null or undefined. */
  predicate SubstringCallable(texto: Json) {
    texto.JNull? || texto.JString?
  }

  /** The complaint about question `i`, if any: first the debug line's call
      of `substring` on a text that has none, then the text check, then the
      count of correct options. The option-array check of the source cannot
      fail here, since the parser always produces an array, and a count
      other than four only warns. */
  function QuestionError(q: GeneratedQuestion, i: nat): (r: Option<string>)
    ensures r == None <==> WellFormed(q)
    ensures !SubstringCallable(q.texto) ==> r == Some(SUBSTRING_NOT_A_FUNCTION)
    ensures q.texto == JNull || q.texto == JString("") ==> r == Some(InvalidText(i))
    ensures HasText(q) && !OneCorrect(q.opciones) ==> r == Some(WrongCorrectCount(i, CorrectCount(q.opciones)))
  {
    CountOne(q.opciones);
    if !SubstringCallable(q.texto) then Some(SUBSTRING_NOT_A_FUNCTION)
    else if !(Truthy(Some(q.texto)) && IsString(Some(q.texto))) then Some(InvalidText(i))
    else if CorrectCount(q.opciones) != 1 then Some(WrongCorrectCount(i, CorrectCount(q.opciones)))
    else None
  }

  /** The first complaint from question `from` on. */
  function FirstError(ps: seq<GeneratedQuestion>, from: nat): Option<string>
    requires from <= |ps|
    decreases |ps| - from
  {
    if from == |ps| then None
    else if QuestionError(ps[from], from).Some? then QuestionError(ps[from], from)
    else FirstError(ps, from + 1)
  }

  /** What `validateQuestions` throws, or None when it returns: it accepts
      exactly the non-empty lists whose questions all have a text and
      exactly one correct option. */
  function Validation(ps: seq<GeneratedQuestion>): (r: Option<string>)
    ensures ps == [] ==> r == Some(NO_QUESTIONS)
    ensures r == None <==> ps != [] && forall k :: 0 <= k < |ps| ==> WellFormed(ps[k])
  {
    if ps == [] then Some(NO_QUESTIONS)
    else
      FirstErrorNone(ps, 0);
      FirstError(ps, 0)
  }

  lemma {:induction false} FirstErrorNone(ps: seq<GeneratedQuestion>, from: nat)
    requires from <= |ps|
    ensures FirstError(ps, from) == None <==> forall k :: from <= k < |ps| ==> WellFormed(ps[k])
    decreases |ps| - from
  {
    if from < |ps| {
      FirstErrorNone(ps, from + 1);
    }
  }

  lemma {:induction false} FirstErrorNamesFirst(ps: seq<GeneratedQuestion>, from: nat, k: nat)
    requires from <= k < |ps|
    requires forall j :: from <= j < k ==> WellFormed(ps[j])
    requires !WellFormed(ps[k])
    ensures FirstError(ps, from) == QuestionError(ps[k], k) && QuestionError(ps[k], k).Some?
    decreases k - from
  {
    if from < k {
      FirstErrorNamesFirst(ps, from + 1, k);
    }
  }

  /** A list the validator refuses is refused for its first question that is
      not well formed. */
  lemma ValidationMeans(ps: seq<GeneratedQuestion>)
    ensures forall k :: 0 <= k < |ps| && !WellFormed(ps[k]) && (forall j :: 0 <= j < k ==> WellFormed(ps[j])) ==>
      Validation(ps) == QuestionError(ps[k], k)
  {
    forall k | 0 <= k < |ps| && !WellFormed(ps[k]) && (forall j :: 0 <= j < k ==> WellFormed(ps[j]))
      ensures Validation(ps) == QuestionError(ps[k], k)
    {
      FirstErrorNamesFirst(ps, 0, k);
    }
  }

  /** `validateQuestions`: the index loop. */
  method ValidateQuestions(ps: seq<GeneratedQuestion>) returns (error: Option<string>)
    ensures error == Validation(ps)
  {
    if |ps| == 0 {
      return Some(NO_QUESTIONS);
    }
    var i := 0;
    while i < |ps|
      invariant 0 <= i <= |ps|
      invariant FirstError(ps, 0) == FirstError(ps, i)
    {
      var pregunta := ps[i];
      if !SubstringCallable(pregunta.texto) {
        return Some(SUBSTRING_NOT_A_FUNCTION);
      }
      if !(Truthy(Some(pregunta.texto)) && IsString(Some(pregunta.texto))) {
        return Some(InvalidText(i));
      }
      var correctas := CorrectCount(pregunta.opciones);
      if correctas != 1 {
        return Some(WrongCorrectCount(i, correctas));
      }
      i := i + 1;
    }
    error := None;
  }

  // ---------------------------------------------------------------------
  // saveQuestionsToDatabase
  // ---------------------------------------------------------------------

  /** A row written by the save: a question of the subtopic, or an option of
      the question stored at position `preguntaId`, numbered from 1. */
  datatype SavedRow =
    | QuestionRow(subtemaId: int, texto: Json, dificultad: Json, retroCorrecta: Json, retroIncorrecta: Json)
    | OptionRow(preguntaId: nat, texto: Json, esCorrecta: Json, explicacion: Json, orden: nat)

  /** The question and option tables, as one sequence of rows in write order;
      a row's id is its position. The database accepts or refuses each write
      by position. */
  class QuestionStore {
    var rows: seq<SavedRow>
    const accepts: nat -> bool

    constructor(accepts: nat -> bool)
      ensures rows == [] && this.accepts == accepts
    {
      rows := [];
      this.accepts := accepts;
    }

    /** `repository.save`: the id of the new row, or None when the database
        refuses the write. */
    method Save(row: SavedRow) returns (id: Option<nat>)
      modifies this
      ensures accepts(|old(rows)|) ==> rows == old(rows) + [row] && id == Some(|old(rows)|)
      ensures !accepts(|old(rows)|) ==> rows == old(rows) && id == None
    {
      if accepts(|rows|) {
        id := Some(|rows|);
        rows := rows + [row];
      } else {
        id := None;
      }
    }
  }

  /** The option rows of a question stored at position `at`, in order. */
  function OptionRows(os: seq<GeneratedOption>, at: nat): (r: seq<SavedRow>)
    ensures |r| == |os|
  {
    if os == [] then []
    else
      var last := os[|os| - 1];
      OptionRows(os[..|os| - 1], at) + [OptionRow(at, last.texto, last.esCorrecta, last.explicacion, |os|)]
  }

  function QuestionRowOf(q: GeneratedQuestion, subtemaId: int): SavedRow {
    QuestionRow(subtemaId, q.texto, q.dificultad, q.retroalimentacionCorrecta, q.retroalimentacionIncorrecta)
  }

  /** The rows of one question stored at position `at`: the question, then its
      options in order. */
  function QuestionRows(q: GeneratedQuestion, subtemaId: int, at: nat): (r: seq<SavedRow>)
    ensures |r| == 1 + |q.opciones|
  {
    [QuestionRowOf(q, subtemaId)] + OptionRows(q.opciones, at)
  }

  /** Every row the save writes when the database accepts them all, starting
      at position `base`. */
  function Plan(ps: seq<GeneratedQuestion>, subtemaId: int, base: nat): seq<SavedRow> {
    if ps == [] then []
    else
      var init := Plan(ps[..|ps| - 1], subtemaId, base);
      init + QuestionRows(ps[|ps| - 1], subtemaId, base + |init|)
  }

  /** The first position in `from .. to` the database refuses, or `to`. */
  function FirstRefused(accepts: nat -> bool, from: nat, to: nat): (p: nat)
    requires from <= to
    ensures from <= p <= to
    decreases (to as int) - (from as int)
  {
    if from == to || !accepts(from) then from else FirstRefused(accepts, from + 1, to)
  }

  /** Every write before the first refused one was accepted. */
  lemma {:induction false} FirstRefusedMeans(accepts: nat -> bool, from: nat, to: nat)
    requires from <= to
    ensures AllAccepted(accepts, from, FirstRefused(accepts, from, to))
    ensures FirstRefused(accepts, from, to) < to ==> !accepts(FirstRefused(accepts, from, to))
    decreases (to as int) - (from as int)
  {
    if from < to && accepts(from) {
      FirstRefusedMeans(accepts, from + 1, to);
    }
  }

  lemma {:induction false} FirstRefusedAt(accepts: nat -> bool, from: nat, to: nat, p: nat)
    requires from <= p <= to
    requires forall k :: from <= k < p ==> accepts(k)
    requires p < to ==> !accepts(p)
    ensures FirstRefused(accepts, from, to) == p
    decreases (to as int) - (from as int)
  {
    if from < p {
      FirstRefusedAt(accepts, from + 1, to, p);
    }
  }

  /** The plan of a prefix of the questions is a prefix of the whole plan. */
  lemma {:induction false} PlanPrefix(ps: seq<GeneratedQuestion>, subtemaId: int, base: nat, i: nat)
    requires i <= |ps|
    ensures Plan(ps[..i], subtemaId, base) <= Plan(ps, subtemaId, base)
    decreases |ps| - i
  {
    if i < |ps| {
      PlanPrefix(ps[..|ps| - 1], subtemaId, base, i);
      assert ps[..|ps| - 1][..i] == ps[..i];
    } else {
      assert ps[..i] == ps;
    }
  }

  /** The rows of `rows`, written from position `at` on, that come before the
      first refused write. */
  function Cut(rows: seq<SavedRow>, accepts: nat -> bool, at: nat): (r: seq<SavedRow>)
    ensures r <= rows
  {
    rows[..FirstRefused(accepts, at, at + |rows|) - at]
  }

  /** What is left in the tables after the save: the planned rows up to the
      first refused write. */
  function Saved(ps: seq<GeneratedQuestion>, subtemaId: int, base: nat, accepts: nat -> bool): seq<SavedRow> {
    Cut(Plan(ps, subtemaId, base), accepts, base)
  }

  /** One more question extends the plan by that question's rows, and the
      plan of the longer prefix is still a prefix of the whole plan. */
  lemma PlanStep(ps: seq<GeneratedQuestion>, subtemaId: int, base: nat, i: nat)
    requires i < |ps|
    ensures var done := Plan(ps[..i], subtemaId, base);
      Plan(ps[..i + 1], subtemaId, base) == done + QuestionRows(ps[i], subtemaId, base + |done|)
    ensures Plan(ps[..i + 1], subtemaId, base) <= Plan(ps, subtemaId, base)
  {
    var pre := ps[..i + 1];
    assert pre[..|pre| - 1] == ps[..i];
    assert pre[|pre| - 1] == ps[i];
    PlanPrefix(ps, subtemaId, base, i + 1);
  }

  ghost predicate AllAccepted(accepts: nat -> bool, from: nat, to: nat) {
    forall k :: from <= k < to ==> accepts(k)
  }

  lemma AllAcceptedJoin(accepts: nat -> bool, from: nat, mid: nat, to: nat)
    requires AllAccepted(accepts, from, mid) && AllAccepted(accepts, mid, to)
    ensures AllAccepted(accepts, from, to)
  {
  }

  /** The rows of question `q` left in the tables when its writes start at
      position `at`: those before the first refused write. */
  function QuestionSaved(q: GeneratedQuestion, subtemaId: int, at: nat, accepts: nat -> bool): (r: seq<SavedRow>)
    ensures r <= QuestionRows(q, subtemaId, at)
  {
    Cut(QuestionRows(q, subtemaId, at), accepts, at)
  }

  /** All of a question's rows are saved only when all its writes are
      accepted. */
  lemma QuestionSavedWhole(q: GeneratedQuestion, subtemaId: int, at: nat, accepts: nat -> bool)
    requires QuestionSaved(q, subtemaId, at, accepts) == QuestionRows(q, subtemaId, at)
    ensures AllAccepted(accepts, at, at + |QuestionRows(q, subtemaId, at)|)
  {
    var rq := QuestionRows(q, subtemaId, at);
    FirstRefusedMeans(accepts, at, at + |rq|);
  }

  /** The writes of one question: the question row, then its options in
      order, up to the first refused write; `ok` says none was refused. */
  method SaveQuestion(store: QuestionStore, pregunta: GeneratedQuestion, subtemaId: int) returns (ok: bool)
    modifies store
    ensures store.rows == old(store.rows) + QuestionSaved(pregunta, subtemaId, |old(store.rows)|, store.accepts)
    ensures ok <==> (QuestionSaved(pregunta, subtemaId, |old(store.rows)|, store.accepts)
      == QuestionRows(pregunta, subtemaId, |old(store.rows)|))
  {
    ghost var start := store.rows;
    ghost var at := |store.rows|;
    ghost var rq := QuestionRows(pregunta, subtemaId, at);
    var guardada := store.Save(QuestionRowOf(pregunta, subtemaId));
    if guardada.None? {
      FirstRefusedAt(store.accepts, at, at + |rq|, at);
      assert QuestionSaved(pregunta, subtemaId, at, store.accepts) == rq[..0];
      return false;
    }
    var preguntaId := guardada.value;
    var j := 0;
    while j < |pregunta.opciones|
      invariant 0 <= j <= |pregunta.opciones|
      invariant store.rows == start + rq[..1 + j]
      invariant AllAccepted(store.accepts, at, at + 1 + j)
    {
      var opcion := pregunta.opciones[j];
      var saved := store.Save(OptionRow(preguntaId, opcion.texto, opcion.esCorrecta, opcion.explicacion, j + 1));
      if saved.None? {
        FirstRefusedAt(store.accepts, at, at + |rq|, at + 1 + j);
        assert QuestionSaved(pregunta, subtemaId, at, store.accepts) == rq[..1 + j];
        return false;
      }
      OptionsFollowTheirQuestion(pregunta, subtemaId, at, j);
      assert rq[..2 + j] == rq[..1 + j] + [rq[1 + j]];
      j := j + 1;
    }
    FirstRefusedAt(store.accepts, at, at + |rq|, at + |rq|);
    assert rq[..|rq|] == rq;
    ok := true;
  }

  /** Rows `done` all written, then a refusal inside the rows `rq` that
      follow them: the cut falls inside `rq`. */
  lemma CutInside(plan: seq<SavedRow>, done: seq<SavedRow>, rq: seq<SavedRow>, accepts: nat -> bool, base: nat)
    requires done + rq <= plan
    requires AllAccepted(accepts, base, base + |done|)
    ensures var cut := Cut(rq, accepts, base + |done|);
      cut != rq ==> Cut(plan, accepts, base) == done + cut
  {
    var at := base + |done|;
    var p := FirstRefused(accepts, at, at + |rq|);
    if p < at + |rq| {
      FirstRefusedMeans(accepts, at, at + |rq|);
      AllAcceptedJoin(accepts, base, at, p);
      FirstRefusedAt(accepts, base, base + |plan|, p);
      assert plan[..p - base] == (done + rq)[..p - base];
    } else {
      assert rq[..p - at] == rq;
    }
  }

  /** A refusal among the writes of question `i` ends the saved rows there. */
  lemma SavedStopsAt(ps: seq<GeneratedQuestion>, subtemaId: int, base: nat, accepts: nat -> bool, i: nat)
    requires i < |ps|
    requires AllAccepted(accepts, base, base + |Plan(ps[..i], subtemaId, base)|)
    ensures var done := Plan(ps[..i], subtemaId, base);
      var at := base + |done|;
      QuestionSaved(ps[i], subtemaId, at, accepts) != QuestionRows(ps[i], subtemaId, at) ==>
        Saved(ps, subtemaId, base, accepts) == done + QuestionSaved(ps[i], subtemaId, at, accepts)
  {
    var done := Plan(ps[..i], subtemaId, base);
    var rq := QuestionRows(ps[i], subtemaId, base + |done|);
    PlanStep(ps, subtemaId, base, i);
    CutInside(Plan(ps, subtemaId, base), done, rq, accepts, base);
  }

  /** A question saved whole extends the saved plan by its rows, all of
      them accepted. */
  lemma SavedNext(ps: seq<GeneratedQuestion>, subtemaId: int, base: nat, accepts: nat -> bool, i: nat)
    requires i < |ps|
    requires AllAccepted(accepts, base, base + |Plan(ps[..i], subtemaId, base)|)
    requires var at := base + |Plan(ps[..i], subtemaId, base)|;
      QuestionSaved(ps[i], subtemaId, at, accepts) == QuestionRows(ps[i], subtemaId, at)
    ensures var done := Plan(ps[..i], subtemaId, base);
      Plan(ps[..i + 1], subtemaId, base) == done + QuestionRows(ps[i], subtemaId, base + |done|)
    ensures AllAccepted(accepts, base, base + |Plan(ps[..i + 1], subtemaId, base)|)
  {
    var done := Plan(ps[..i], subtemaId, base);
    var at := base + |done|;
    QuestionSavedWhole(ps[i], subtemaId, at, accepts);
    AllAcceptedJoin(accepts, base, at, at + |QuestionRows(ps[i], subtemaId, at)|);
    PlanStep(ps, subtemaId, base, i);
  }

  /** With every planned write accepted, the whole plan is saved. */
  lemma SavedWhole(ps: seq<GeneratedQuestion>, subtemaId: int, base: nat, accepts: nat -> bool)
    requires AllAccepted(accepts, base, base + |Plan(ps, subtemaId, base)|)
    ensures Saved(ps, subtemaId, base, accepts) == Plan(ps, subtemaId, base)
  {
    var plan := Plan(ps, subtemaId, base);
    FirstRefusedAt(accepts, base, base + |plan|, base + |plan|);
  }

  /** `saveQuestionsToDatabase`: every question with its options; the first
      refused write ends the save, and the failure is swallowed. */
  method SaveQuestionsToDatabase(store: QuestionStore, ps: seq<GeneratedQuestion>, subtemaId: int)
    modifies store
    ensures store.rows == old(store.rows) + Saved(ps, subtemaId, |old(store.rows)|, store.accepts)
  {
    ghost var base := |store.rows|;
    ghost var start := store.rows;
    var i := 0;
    while i < |ps|
      invariant 0 <= i <= |ps|
      invariant store.rows == start + Plan(ps[..i], subtemaId, base)
      invariant AllAccepted(store.accepts, base, |store.rows|)
    {
      ghost var done := Plan(ps[..i], subtemaId, base);
      ghost var at := |store.rows|;
      var ok := SaveQuestion(store, ps[i], subtemaId);
      AppendAssoc(start, done, QuestionSaved(ps[i], subtemaId, at, store.accepts));
      if !ok {
        SavedStopsAt(ps, subtemaId, base, store.accepts, i);
        return;
      }
      SavedNext(ps, subtemaId, base, store.accepts, i);
      i := i + 1;
    }
    assert ps[..i] == ps;
    SavedWhole(ps, subtemaId, base, store.accepts);
  }

  /** The save writes a prefix of the planned rows, all of them when the
      database refuses nothing. */
  lemma SavedIsPrefix(ps: seq<GeneratedQuestion>, subtemaId: int, base: nat, accepts: nat -> bool)
    ensures Saved(ps, subtemaId, base, accepts) <= Plan(ps, subtemaId, base)
    ensures (forall k :: k >= base ==> accepts(k)) ==> Saved(ps, subtemaId, base, accepts) == Plan(ps, subtemaId, base)
  {
    var plan := Plan(ps, subtemaId, base);
    if forall k :: k >= base ==> accepts(k) {
      FirstRefusedAt(accepts, base, base + |plan|, base + |plan|);
    }
  }

  /** Every question row is followed by its options, numbered 1, 2, ... and
      pointing at the question's position. */
  lemma {:induction false} OptionsFollowTheirQuestion(q: GeneratedQuestion, subtemaId: int, at: nat, j: nat)
    requires j < |q.opciones|
    ensures var r := QuestionRows(q, subtemaId, at);
      r[0].QuestionRow? && r[1 + j] == OptionRow(at, q.opciones[j].texto, q.opciones[j].esCorrecta, q.opciones[j].explicacion, j + 1)
  {
    OptionRowsAt(q.opciones, at, j);
  }

  lemma {:induction false} OptionRowsAt(os: seq<GeneratedOption>, at: nat, j: nat)
    requires j < |os|
    ensures OptionRows(os, at)[j] == OptionRow(at, os[j].texto, os[j].esCorrecta, os[j].explicacion, j + 1)
  {
    if j < |os| - 1 {
      OptionRowsAt(os[..|os| - 1], at, j);
    }
  }

  // ---------------------------------------------------------------------
  // execute
  // ---------------------------------------------------------------------

  function SubtemaNotFound(id: int): string {
    "Subtema " + IntToString(id) + " no encontrado"
  }

  /** Everything after a cache miss up to the validated questions: the
      subtopic, the model call, the parser and the validator. The database
      and the cache play no part in it. Generated questions are never
      empty, all have a text and exactly one correct option, and all carry
      their default fields. */
  function Generated(request: Request, subtemas: map<int, Subtema>,
                     client: (QuestionPrompt, GenerateOptions) -> Result<string, string>,
                     parse: string -> ParseOutcome): (r: Result<seq<GeneratedQuestion>, string>)
    ensures r.Ok? ==> r.value != [] && forall k :: 0 <= k < |r.value| ==> WellFormed(r.value[k]) && Completed(r.value[k])
    ensures request.subtemaId !in subtemas ==> r == Err(SubtemaNotFound(request.subtemaId))
  {
    if request.subtemaId !in subtemas then
      Err(SubtemaNotFound(request.subtemaId))
    else
      match client(BuildPrompt(subtemas[request.subtemaId], request), GENERATION_OPTIONS)
      case Err(e) => Err(e)
      case Ok(respuesta) =>
        match ParseQuestions(respuesta, parse)
        case Err(e) => Err(e)
        case Ok(ps) =>
          if Validation(ps).Some? then Err(Validation(ps).value) else Ok(ps)
  }


  /** `execute`. `llamadas` is the number of model calls made. */
  method Execute(request: Request, cache: InMemoryCacheService, store: QuestionStore,
                 subtemas: map<int, Subtema>,
                 client: (QuestionPrompt, GenerateOptions) -> Result<string, string>,
                 parse: string -> ParseOutcome, now: int)
    returns (r: Result<Response, string>, llamadas: nat)
    requires cache.Valid()
    modifies cache, store
    ensures cache.Valid()
    ensures var hit := old(cache.BuscarPreguntas(request.subtemaId, request.cantidad, request.dificultad, now));
      && (hit.QuestionsHit? && |hit.questions| >= request.cantidad ==>
            && r == Ok(Response(Slice(hit.questions, request.cantidad), request.subtemaId, request.cantidad))
            && llamadas == 0
            && cache.cache == old(cache.cache) && store.rows == old(store.rows))
      && (!(hit.QuestionsHit? && |hit.questions| >= request.cantidad) ==>
            var g := Generated(request, subtemas, client, parse);
            && llamadas == (if request.subtemaId in subtemas then 1 else 0)
            && (g.Err? ==> r == Err(WRAP_ERROR + g.error) && cache.cache == old(cache.cache) && store.rows == old(store.rows))
            && (g.Ok? ==>
                  && r == Ok(Response(Slice(g.value, request.cantidad), request.subtemaId, |g.value|))
                  && store.rows == old(store.rows) + Saved(g.value, request.subtemaId, |old(store.rows)|, store.accepts)
                  && cache.cache == AppendQuestions(old(cache.cache),
                       QuestionsKey(request.subtemaId, BatchDifficulty(g.value)), g.value, now, cache.ttlDays)))
    ensures r.Ok? && request.cantidad >= 0 ==> |r.value.preguntas| <= request.cantidad
  {
    var cacheResult := cache.BuscarPreguntas(request.subtemaId, request.cantidad, request.dificultad, now);
    if cacheResult.QuestionsHit? && |cacheResult.questions| >= request.cantidad {
      return Ok(Response(Slice(cacheResult.questions, request.cantidad), request.subtemaId, request.cantidad)), 0;
    }
    r, llamadas := GenerateAndSave(request, cache, store, subtemas, client, parse, now);
  }

  /** The part of `execute` after a cache miss: the questions are generated,
      saved to the database up to the first refused write and appended to
      the cache; every failure is wrapped. */
  method GenerateAndSave(request: Request, cache: InMemoryCacheService, store: QuestionStore,
                         subtemas: map<int, Subtema>,
                         client: (QuestionPrompt, GenerateOptions) -> Result<string, string>,
                         parse: string -> ParseOutcome, now: int)
    returns (r: Result<Response, string>, llamadas: nat)
    requires cache.Valid()
    modifies cache, store
    ensures cache.Valid()
    ensures var g := Generated(request, subtemas, client, parse);
      && llamadas == (if request.subtemaId in subtemas then 1 else 0)
      && (g.Err? ==> r == Err(WRAP_ERROR + g.error) && cache.cache == old(cache.cache) && store.rows == old(store.rows))
      && (g.Ok? ==>
            && r == Ok(Response(Slice(g.value, request.cantidad), request.subtemaId, |g.value|))
            && store.rows == old(store.rows) + Saved(g.value, request.subtemaId, |old(store.rows)|, store.accepts)
            && cache.cache == AppendQuestions(old(cache.cache),
                 QuestionsKey(request.subtemaId, BatchDifficulty(g.value)), g.value, now, cache.ttlDays))
  {
    llamadas := 0;
    if request.subtemaId !in subtemas {
      return Err(WRAP_ERROR + SubtemaNotFound(request.subtemaId)), 0;
    }
    var subtema := subtemas[request.subtemaId];
    var prompt := BuildPrompt(subtema, request);
    var respuestaGemini := client(prompt, GENERATION_OPTIONS);
    llamadas := 1;
    if respuestaGemini.Err? {
      return Err(WRAP_ERROR + respuestaGemini.error), llamadas;
    }
    var preguntasGeneradas := ParseResponse(respuestaGemini.value, parse);
    if preguntasGeneradas.Err? {
      return Err(WRAP_ERROR + preguntasGeneradas.error), llamadas;
    }
    var invalid := ValidateQuestions(preguntasGeneradas.value);
    if invalid.Some? {
      return Err(WRAP_ERROR + invalid.value), llamadas;
    }
    SaveQuestionsToDatabase(store, preguntasGeneradas.value, request.subtemaId);
    cache.GuardarPreguntas(request.subtemaId, preguntasGeneradas.value, now);
    r := Ok(Response(Slice(preguntasGeneradas.value, request.cantidad), request.subtemaId, |preguntasGeneradas.value|));
  }
}
