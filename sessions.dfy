/**
 * The session endpoints' decision logic: the closed enumerations a session
 * request is validated against (`SessionCreate`), session creation
 * (`create_session`), question serving (`get_text_question`) and text-answer
 * submission (`submit_text_answer`). The store is reduced to whether it is
 * configured; the model records which document would be handed to it.
 */
module Sessions {
  import opened Wrappers
  import opened Identifiers
  import opened QuestionBank
  import opened Scoring

  /** Rounds in a session. */
  const TotalRounds: int := 5

  datatype Mode = Text | Voice

  datatype Difficulty = Easy | Intermediate | Advanced | Mixed

  function ModeLabel(m: Mode): string {
    match m
    case Text => "text"
    case Voice => "voice"
  }

  function DifficultyLabel(d: Difficulty): string {
    match d
    case Easy => "Easy"
    case Intermediate => "Intermediate"
    case Advanced => "Advanced"
    case Mixed => "Mixed"
  }

  /** The `Literal["text", "voice"]` check on `mode`. */
  function ParseMode(s: string): (r: Option<Mode>)
    ensures r.Some? <==> s == "text" || s == "voice"
    ensures r.Some? ==> ModeLabel(r.value) == s
  {
    if s == "text" then Some(Text)
    else if s == "voice" then Some(Voice)
    else None
  }

  /** The `Literal["Easy", "Intermediate", "Advanced", "Mixed"]` check on `difficulty`. */
  function ParseDifficulty(s: string): (r: Option<Difficulty>)
    ensures r.Some? <==> s == "Easy" || s == "Intermediate" || s == "Advanced" || s == "Mixed"
    ensures r.Some? ==> DifficultyLabel(r.value) == s
  {
    if s == "Easy" then Some(Easy)
    else if s == "Intermediate" then Some(Intermediate)
    else if s == "Advanced" then Some(Advanced)
    else if s == "Mixed" then Some(Mixed)
    else None
  }

  /** Every mode is accepted under its own label. */
  lemma ParseModeLabel(m: Mode)
    ensures ParseMode(ModeLabel(m)) == Some(m)
  {
  }

  /** Every difficulty is accepted under its own label. */
  lemma ParseDifficultyLabel(d: Difficulty)
    ensures ParseDifficulty(DifficultyLabel(d)) == Some(d)
  {
  }

  /** The concrete difficulties are the catalogue's levels; Mixed is the selection-only label. */
  lemma DifficultyLabelsMatchBank(d: Difficulty)
    ensures d != Mixed <==> DifficultyLabel(d) in Bank
    ensures d != Mixed <==> DifficultyLabel(d) in LevelOrder
    ensures d == Mixed <==> DifficultyLabel(d) == MixedLabel
  {
  }

  /** A session-creation body before validation. */
  datatype SessionRequest = SessionRequest(
    mode: string,
    jobRole: string,
    experience: string,
    company: Option<string>,
    difficulty: string,
    resumeText: Option<string>)

  /** A validated session-creation body (`SessionCreate`). */
  datatype SessionCreate = SessionCreate(
    mode: Mode,
    jobRole: string,
    experience: string,
    company: Option<string>,
    difficulty: Difficulty,
    resumeText: Option<string>)

  /** A field that failed validation. */
  datatype Field = ModeField | DifficultyField

  /** The enumeration checks on a session body; every failing field is reported, in declaration order. */
  function ValidateSession(req: SessionRequest): (r: Result<SessionCreate, seq<Field>>)
    ensures r.Success? <==> ParseMode(req.mode).Some? && ParseDifficulty(req.difficulty).Some?
    ensures r.Success? ==>
      ModeLabel(r.value.mode) == req.mode && DifficultyLabel(r.value.difficulty) == req.difficulty &&
      r.value.jobRole == req.jobRole && r.value.experience == req.experience &&
      r.value.company == req.company && r.value.resumeText == req.resumeText
    ensures r.Failure? ==>
      r.error != [] &&
      (ModeField in r.error <==> ParseMode(req.mode).None?) &&
      (DifficultyField in r.error <==> ParseDifficulty(req.difficulty).None?)
  {
    var mode, difficulty := ParseMode(req.mode), ParseDifficulty(req.difficulty);
    if mode.Some? && difficulty.Some? then
      Success(SessionCreate(mode.value, req.jobRole, req.experience, req.company, difficulty.value, req.resumeText))
    else
      Failure((if mode.None? then [ModeField] else []) + (if difficulty.None? then [DifficultyField] else []))
  }

  /** A request with mode "video" or difficulty "Hard" is rejected and names the offending field. */
  lemma RejectsVideoAndHard(req: SessionRequest)
    requires req.mode == "video" || req.difficulty == "Hard"
    ensures ValidateSession(req).Failure?
    ensures req.mode == "video" ==> ModeField in ValidateSession(req).error
    ensures req.difficulty == "Hard" ==> DifficultyField in ValidateSession(req).error
  {
  }

  /** Validation accepts exactly the bodies whose labels are those of some mode and difficulty. */
  lemma ValidateRoundTrip(m: Mode, d: Difficulty, req: SessionRequest)
    requires req.mode == ModeLabel(m) && req.difficulty == DifficultyLabel(d)
    ensures ValidateSession(req) ==
      Success(SessionCreate(m, req.jobRole, req.experience, req.company, d, req.resumeText))
  {
    ParseModeLabel(m);
    ParseDifficultyLabel(d);
  }

  datatype Progress = Progress(current: int, total: int)

  /** The session invariant on progress: a round count between 0 and the fixed total. */
  predicate ProgressValid(p: Progress) {
    p.total == TotalRounds && 0 <= p.current <= p.total
  }

  /** The session document built by `create_session` (timestamps are not modelled). */
  datatype SessionDoc = SessionDoc(
    id: string,
    mode: Mode,
    jobRole: string,
    experience: string,
    company: Option<string>,
    difficulty: Difficulty,
    resumeText: Option<string>,
    paid: bool,
    progress: Progress)

  /** `{session_id, progress}`, the reply to a session request. */
  datatype SessionCreated = SessionCreated(sessionId: string, progress: Progress)

  /** The reply, the document built, and whether that document is handed to the store. */
  datatype CreateOutcome = CreateOutcome(response: SessionCreated, doc: SessionDoc, stored: bool)

  /**
   * `create_session` with the identifier's random suffix drawn as `suffix`
   * and `dbConfigured` telling whether a store is configured.
   */
  function CreateSession(payload: SessionCreate, suffix: string, dbConfigured: bool): (r: CreateOutcome)
    requires IsSuffix(suffix)
    ensures r.response.progress == Progress(0, TotalRounds) && ProgressValid(r.response.progress)
    ensures r.doc.paid && r.doc.progress == r.response.progress
    ensures r.response.sessionId == r.doc.id
    ensures ParseId(SessionPrefix, r.doc.id) == Some(suffix) && |r.doc.id| == 15
    ensures r.doc.mode == payload.mode && r.doc.difficulty == payload.difficulty
    ensures r.doc.jobRole == payload.jobRole && r.doc.experience == payload.experience
    ensures r.doc.company == payload.company && r.doc.resumeText == payload.resumeText
    ensures r.stored == dbConfigured
  {
    var id := MakeId(SessionPrefix, suffix);
    ParseMakeId(SessionPrefix, suffix);
    var doc := SessionDoc(id, payload.mode, payload.jobRole, payload.experience, payload.company,
                          payload.difficulty, payload.resumeText, true, Progress(0, TotalRounds));
    if !dbConfigured then
      // no store configured: reply without persisting
      CreateOutcome(SessionCreated(id, doc.progress), doc, false)
    else
      // the document is handed to the store, then the reply is built
      CreateOutcome(SessionCreated(id, doc.progress), doc, true)
  }

  /** Whether or not a store is configured, the reply and the document are the same. */
  lemma CreateSessionIgnoresStore(payload: SessionCreate, suffix: string)
    requires IsSuffix(suffix)
    ensures CreateSession(payload, suffix, false).response == CreateSession(payload, suffix, true).response
    ensures CreateSession(payload, suffix, false).doc == CreateSession(payload, suffix, true).doc
  {
  }

  /** Sessions created from different suffixes get different identifiers. */
  lemma SessionIdsDistinct(p1: SessionCreate, p2: SessionCreate, s1: string, s2: string, db1: bool, db2: bool)
    requires IsSuffix(s1) && IsSuffix(s2) && s1 != s2
    ensures CreateSession(p1, s1, db1).response.sessionId != CreateSession(p2, s2, db2).response.sessionId
  {
    MakeIdInjective(SessionPrefix, s1, s2);
  }

  /** `difficulty or "Mixed"`: a missing or empty label asks for Mixed. */
  function RequestedDifficulty(difficulty: Option<string>): (r: string)
    ensures r != []
    ensures r == MixedLabel <==> difficulty.None? || difficulty.value == [] || difficulty.value == MixedLabel
    ensures difficulty.Some? && difficulty.value != [] ==> r == difficulty.value
  {
    if difficulty.None? || difficulty.value == [] then MixedLabel else difficulty.value
  }

  /** The question part of the reply: the reference answer is withheld. */
  datatype QuestionView = QuestionView(id: string, text: string, difficulty: string)

  datatype TextQuestion = TextQuestion(question: QuestionView, progress: Progress)

  /**
   * `get_text_question` with the pool index drawn as `choice`, the question
   * identifier's suffix as `suffix` and `random.randint(1, 5)` as `roll`.
   * The session identifier is accepted and not consulted.
   */
  method GetTextQuestion(sessionId: string, difficulty: Option<string>, choice: nat, suffix: string, roll: int)
    returns (r: TextQuestion)
    requires choice < |Pool(RequestedDifficulty(difficulty))|
    requires IsSuffix(suffix)
    requires 1 <= roll <= TotalRounds
    ensures r.progress == Progress(roll, TotalRounds)
    ensures ProgressValid(r.progress) && r.progress.current >= 1
    ensures ParseId(QuestionPrefix, r.question.id) == Some(suffix)
    ensures r.question.text == Pool(RequestedDifficulty(difficulty))[choice].text
    ensures r.question.difficulty == Pool(RequestedDifficulty(difficulty))[choice].level
    ensures RequestedDifficulty(difficulty) == MixedLabel ==> r.question.difficulty in LevelOrder
    ensures RequestedDifficulty(difficulty) != MixedLabel ==> r.question.difficulty == difficulty.value
  {
    var q := PickQuestion(RequestedDifficulty(difficulty), choice, suffix);
    ParseMakeId(QuestionPrefix, suffix);
    r := TextQuestion(QuestionView(q.id, q.text, q.difficulty), Progress(roll, TotalRounds));
  }

  /** The body of a text-answer submission. */
  datatype TextAnswer = TextAnswer(sessionId: string, questionId: string, answer: string)

  /** The response document handed to the store (the timestamp is not modelled). */
  datatype ResponseRecord = ResponseRecord(sessionId: string, questionId: string, answer: string, feedback: Feedback)

  datatype SubmitOutcome = SubmitOutcome(feedback: Feedback, stored: Option<ResponseRecord>)

  /** `submit_text_answer`, with `dbConfigured` telling whether a store is configured. */
  function SubmitTextAnswer(payload: TextAnswer, dbConfigured: bool): (r: SubmitOutcome)
    ensures r.feedback == ScoreAnswer(payload.answer)
    ensures 40 <= r.feedback.contentScore <= 100 && r.feedback.nextAvailable
    ensures r.stored.Some? <==> dbConfigured
    ensures r.stored.Some? ==>
      r.stored.value == ResponseRecord(payload.sessionId, payload.questionId, payload.answer, r.feedback)
  {
    var feedback := ScoreAnswer(payload.answer);
    if dbConfigured then
      SubmitOutcome(feedback, Some(ResponseRecord(payload.sessionId, payload.questionId, payload.answer, feedback)))
    else
      SubmitOutcome(feedback, None)
  }

  /** The feedback does not depend on the store, on the session or on the question identifier. */
  lemma SubmitFeedbackOnlyFromAnswer(p1: TextAnswer, p2: TextAnswer, db1: bool, db2: bool)
    requires p1.answer == p2.answer
    ensures SubmitTextAnswer(p1, db1).feedback == SubmitTextAnswer(p2, db2).feedback
  {
  }
}
