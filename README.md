# Mock-interview backend: session and assessment logic in Dafny

This project models the decision logic of a mock-interview practice backend
(`main.py`). The backend creates practice sessions, serves interview questions
at a requested difficulty, and scores free-text answers. The HTTP layer and the
optional document store are stripped away. What remains is modelled and proved:

- **Identifiers** (`identifiers.dfy`). An identifier is a prefix, an underscore
  and a 10-character suffix over `a-z0-9`. The random suffix is an argument.
  Identifiers parse back to their suffix, and different suffixes give different
  identifiers.
- **Question bank and selection** (`question_bank.dfy`). The catalogue is a
  string-keyed map, as in the source. `_pick_question` is modelled by
  `PickQuestion`. The pool it builds is modelled by `BuildPool`, a method that
  keeps the source's loop over the three levels. `BuildPool` is proved equal to
  a case-by-case pool definition (`Pool`). The lemmas say which questions a
  label can yield and with which tag. The random pick is an index argument.
- **Scoring** (`scoring.dfy`). The model includes Python's `str.strip()`, with
  CPython's full whitespace set, and the integer formula
  `max(30, min(100, L // 5 + 40))`. The lemmas cover bounds, monotonicity, the
  correctness threshold and insensitivity to surrounding whitespace.
- **Sessions** (`sessions.dfy`). This file holds the closed `mode` and
  `difficulty` enumerations with their validation, session creation, question
  serving with its progress report, and text-answer submission. The store is
  reduced to one flag saying whether it is configured. Each operation records
  the document it would hand to the store.
- `wrappers.dfy` holds the Option and Result types.

Points about the code worth stating:

- An answer is correct exactly when its trimmed length is at least 105.
  Trimmed lengths 101 to 104 score exactly 60, which is not above 60, so those
  answers are not correct (`ContentScore`, `JustOverHundredIsNotCorrect`).
- An example answer about REST APIs ("I have built REST APIs using HTTP and
  HTTPS ...") is 161 characters once trimmed. It scores 72 and
  is correct (`ExampleAnswerScore`).
- The progress reported by `get_text_question` is a random round number in
  1..5. It is not a counter. The model keeps this: the reported round is the
  `roll` argument, which the precondition keeps in 1..5.
- A session identifier is `sess_` followed by ten characters, 15 characters in
  all (`SessionIdShape`).
- `difficulty or "Mixed"` treats an empty string like a missing label, so both
  ask for Mixed (`RequestedDifficulty`). Any other unknown label reaches the
  fallback question.

## Model

| member | source | states |
|---|---|---|
| `Identifiers.MakeId` | main.py:57-58 | the identifier is the prefix, `_` and a 10-character suffix over a-z0-9, length prefix + 11 |
| `Identifiers.ParseId` | main.py:57-58 | recognises exactly the strings of that shape and returns their suffix |
| `Identifiers.ParseMakeId` | main.py:57-58 | parsing a made identifier gives back the suffix it was made from |
| `Identifiers.MakeParsedId` | main.py:57-58 | every identifier that parses is the one made from its suffix |
| `Identifiers.MakeIdInjective` | main.py:57-58 | with a common prefix, two identifiers are equal iff their suffixes are |
| `Identifiers.SessionIdShape` | main.py:104 | a session identifier is "sess_" plus the suffix, 15 characters |
| `QuestionBank.BankKeys` | main.py:41-54 | the catalogue's keys are exactly Easy, Intermediate, Advanced; Mixed is not a key |
| `QuestionBank.Fallback` | main.py:69 | the fallback question is tagged with the requested label and is not a catalogue entry under any level |
| `QuestionBank.Tagged` | main.py:65 | the comprehension keeps every entry, in order, and tags each with the given level |
| `QuestionBank.Lookup` | main.py:67 | `QUESTIONS_BANK.get(label, [])` is a level's entries for a key, and empty exactly for a label that is not a key |
| `QuestionBank.Pool` | main.py:62-69 | the pool has 6 elements for Mixed, 2 for a known level and 1 (the fallback) for any other label |
| `QuestionBank.BuildPool` | main.py:61-69 | the loop-built pool equals the case-by-case pool and is never empty |
| `QuestionBank.PickQuestion` | main.py:61-76 | the question's text, reference answer and tag all come from the chosen pool element; its id is "q_" plus the suffix; its tag is the request unless Mixed, and a concrete level if Mixed |
| `QuestionBank.PoolNonEmpty` | main.py:67-69 | every label, known or not, has a non-empty pool, so selection never fails |
| `QuestionBank.KnownLevelPool` | main.py:66-67 | a known level's pool is its two entries in catalogue order, each tagged with that level |
| `QuestionBank.MixedPool` | main.py:63-65 | the Mixed pool is the Easy, Intermediate and Advanced pools one after another, 6 elements |
| `QuestionBank.UnknownLabelPool` | main.py:67-69 | a label that is neither Mixed nor a key gets the single "Tell me about yourself." question tagged with that label |
| `QuestionBank.PoolLevels` | main.py:63-69 | every pool element is tagged with the request unless it is Mixed; under Mixed the tag is a concrete level, never Mixed |
| `QuestionBank.PoolProvenance` | main.py:62-70 | every pool element is a catalogue entry filed under its tag, or the fallback for a label the catalogue lacks |
| `QuestionBank.MixedCoversLevels` | main.py:63-65 | each of the three levels can be drawn under Mixed |
| `Scoring.IsSpace` | main.py:141 | the characters `str.strip()` removes, given as code-point ranges, are exactly the 29 code points `str.isspace` accepts |
| `Scoring.SkipLeading` | main.py:141 | returns the first non-whitespace index, with only whitespace before it |
| `Scoring.SkipTrailing` | main.py:141 | returns the end of the text once trailing whitespace is dropped, with only whitespace after it |
| `Scoring.Strip` | main.py:141 | the stripped answer is no longer than the answer and begins and ends with non-whitespace |
| `Scoring.StripPadded` | main.py:141 | stripping a whitespace-padded string whose ends are not whitespace gives that string |
| `Scoring.StripSplits` | main.py:141 | every answer is its stripped form with whitespace only before and after |
| `Scoring.StripIdempotent` | main.py:141 | stripping twice is stripping once |
| `Scoring.StripIgnoresPadding` | main.py:141 | adding whitespace at either end does not change the stripped answer |
| `Scoring.ContentScore` | main.py:142-143 | the score lies in [40, 100], is above 60 iff the trimmed length is at least 105, is 100 from length 300 on, and is 40 below length 5 |
| `Scoring.ContentScoreMonotone` | main.py:142 | the score is non-decreasing in the trimmed length |
| `Scoring.ContentScoreBelowCap` | main.py:142 | below length 300 the score is exactly L // 5 + 40; the floor of 30 never applies |
| `Scoring.JustOverHundredIsNotCorrect` | main.py:142-143 | trimmed lengths 101 to 104 score exactly 60, which is not correct |
| `Scoring.ScoreAnswer` | main.py:141-149 | the score is the content score of the trimmed length; the feedback is correct iff its score exceeds 60, iff the trimmed length is at least 105; the score lies in [40, 100]; next_available is true; the advice and sample answer are fixed |
| `Scoring.ScoreAnswerMonotone` | main.py:141-142 | a longer trimmed answer never gets a lower feedback score |
| `Scoring.ExampleAnswerScore` | main.py:141-143 | a 161-character example answer scores 72 and is correct |
| `Scoring.ScoreIgnoresPadding` | main.py:141-149 | adding leading or trailing whitespace to an answer does not change its feedback |
| `Scoring.ScoreDependsOnTrimmedLength` | main.py:141-149 | answers with trimmed forms of equal length get identical feedback |
| `Scoring.BlankAnswer` | main.py:141-143 | an empty or whitespace-only answer scores 40 and is not correct |
| `Sessions.ParseMode` | main.py:26 | the mode check accepts exactly "text" and "voice", and reads back the label it was given |
| `Sessions.ParseDifficulty` | main.py:30 | the difficulty check accepts exactly Easy, Intermediate, Advanced, Mixed, and reads back the label it was given |
| `Sessions.ParseModeLabel` | main.py:26 | every mode is accepted under its own label |
| `Sessions.ParseDifficultyLabel` | main.py:30 | every difficulty is accepted under its own label |
| `Sessions.DifficultyLabelsMatchBank` | main.py:30 | the concrete difficulties are exactly the catalogue's levels, and Mixed is the label that is not one |
| `Sessions.ValidateSession` | main.py:25-31 | a body is accepted iff both enumerations are valid, and its other fields are kept; a rejection names exactly the invalid fields |
| `Sessions.RejectsVideoAndHard` | main.py:26-30 | mode "video" and difficulty "Hard" are rejected, naming the offending field |
| `Sessions.ValidateRoundTrip` | main.py:25-31 | a body built from the labels of a mode and a difficulty validates to exactly that mode and difficulty |
| `Sessions.CreateSession` | main.py:102-122 | progress starts at 0 of 5 and the document is marked paid; the reply carries the document's id, which is "sess_" plus the suffix; the payload's fields are copied; the document is stored iff a store is configured |
| `Sessions.CreateSessionIgnoresStore` | main.py:118-122 | the reply and the document are the same whether or not a store is configured |
| `Sessions.SessionIdsDistinct` | main.py:104 | sessions created from different suffixes have different identifiers |
| `Sessions.RequestedDifficulty` | main.py:127 | a missing or empty label asks for Mixed; any other label is passed on unchanged |
| `Sessions.GetTextQuestion` | main.py:125-135 | the progress is the drawn round, in [1, 5], out of 5; the question's id is "q_" plus the suffix; its text and tag come from the chosen pool element; the tag is the request unless Mixed is asked for, and a concrete level if it is |
| `Sessions.SubmitTextAnswer` | main.py:138-159 | the feedback is the answer's score, in [40, 100], with next_available true; a response record with the submitted ids, the answer and that feedback is produced iff a store is configured |
| `Sessions.SubmitFeedbackOnlyFromAnswer` | main.py:139-159 | the feedback depends only on the answer text, not on the session, the question id or the store |

## Left out

- FastAPI application, CORS middleware, routes (main.py:7-21) and pydantic parsing of the request models (main.py:25-37): these are transport. Only the enumeration constraints they enforce are modelled (`ValidateSession`).
- The document store (`insert_one` at main.py:121 and main.py:151-158): it lives in the separate `database` module (main.py:11). The model keeps only whether a store is configured and which document would be handed to it. The model assumes every write succeeds. In the source a failing `insert_one` is not caught, so it propagates out of the handler and no reply is returned; that path is not modelled.
- The `/test` diagnostics endpoint and its environment checks (main.py:211-242): these are I/O and environment reads.
- `random.choices`, `random.choice` and `random.randint`: each becomes an argument with its range as a precondition (a suffix over a-z0-9 of length 10, a pool index, a round in 1..5). Uniformity of the draws is not modelled.
- Timestamps (`datetime.now`, main.py:115-116 and main.py:157): these are clock reads and are not fields of the modelled documents.
- Resume extraction (main.py:94-99): byte reading and decoding of an upload.
- The root, pricing, voice-answer, summary and report handlers (main.py:80-91, main.py:162-203): they return fixed constants.
- The payment handler (main.py:206-208): it returns a fixed status, a fresh `pay_` identifier (the `MakeId` scheme) and the amount and mode it was given. It has no decision logic beyond that.
- `ValidateSession`: pydantic's type checks on the free-text fields and its error messages are not modelled. Only which enumeration fields fail is modelled.
- `Scoring.Strip`: Python strings may hold lone surrogate code points, which Dafny characters cannot. Lengths are counted in code points, as Python does.
