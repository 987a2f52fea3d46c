# Flashcard study pipeline — a Dafny model

This project models the core of a language-learning flashcard app. The app
has a React Native client and a Node/Prisma backend. The model covers:

- **The study screen's session reducer** (`study.tsx`). A deck of cards is
  graded one card at a time. A right swipe marks a card known, a left swipe
  unknown, and a pass skips it. Grading the last card shows the results.
  The finish button skips every card from the one on screen to the end.
  Replay starts over. The three tallies feed the save and analyze requests.
  The results view splits each AI mnemonic on `:::`.
- **The AnalyzeStudySession use case**, with the store as maps:
  - it validates its input and looks up the flashcard;
  - it decides whether to call the AI webhook and builds the webhook payload;
  - it normalises the three reply shapes the webhook uses;
  - in one all-or-nothing transaction, it inserts a StudySession, upserts a
    WordAnalytics row per analysed word (incrementing `wrongCount` in place),
    and sets the flashcard's `lastStudiedAt`;
  - it shapes the `aiAnalysis` it returns.
- **The SaveStudySession use case**: the same transaction without analysis.
- **The CreateFlashcard and UpdateFlashcard validation chains.**
- **The create/edit form**: the word-pair list editing, the ordered
  trimmed checks, and the request built on submit.
- **Pure helpers**:
  - `getApiUrl` and `getApiBaseUrl`;
  - `getFlagEmoji`, which builds Unicode Regional Indicator Symbols
    (U+1F1E6..U+1F1FF), the scheme of emoji flag sequences in Unicode
    Technical Standard #51;
  - the GetLanguageByCode result logic;
  - the Flashcard and Language entities' `fromPersistence`/`toJSON`.

JavaScript semantics are written out where the code depends on them:

- **Truthiness and `||` defaults.** JSON cannot encode NaN, so a number is
  falsy exactly when it is zero.
- **Destructuring defaults.** A default applies only when the value is
  `undefined`.
- **Property reads on null or undefined.** These throw a TypeError, which
  the model carries as V8's message text.
- **ECMAScript `trim`.** It uses the full WhiteSpace and LineTerminator set.
- **`split` and `join`.**
- **The ORM's coercion.** A column takes a value of its own type, and an
  `Int` column takes only 32-bit integers. Anything else fails the
  statement.

A storage failure is an explicit input, `Fault(step, message)`. Statement 0
of a transaction is the session insert. Statements 1.. are the upserts, and
the last statement is the flashcard update. The clock (`new Date()`,
`toISOString()`), the webhook's answer and the environment's webhook URL
are inputs too.

Files:

- `common.dfy`: Option and Result.
- `json.dfy`: JavaScript values.
- `jsstring.dfy`: `trim`, `split`, `join`.
- `dto.dfy`: the client's data types.
- `study_session.dfy`: the study reducer.
- `records.dfy`: the rows and the ORM's coercion.
- `word_analytics.dfy`: the upsert.
- `analysis.dfy`: the gate, the payload, normalisation and shaping.
- `store.dfy`: the store and both use cases.
- `flashcard_validation.dfy`: the create and update checks.
- `flashcard_form.dfy`: the create/edit form.
- `api_config.dfy`: the URL helpers.
- `flag_emoji.dfy`: `getFlagEmoji`.
- `language.dfy`: the Language entity and GetLanguageByCode.
- `flashcard_entity.dfy`: the Flashcard entity.

The study screen's handlers require that the results are hidden. The screen
renders the swipe deck, and with it the pass and finish buttons, only while
`showResults` is false (`study.tsx:596-614`).

## Model

| member | source | states |
|---|---|---|
| `JsString.TrimStart` | backend/src/features/flashcard/usecases/CreateFlashcard.js:11 | the result is a suffix of the input that starts with a non-space, and the part dropped is all whitespace |
| `JsString.TrimEnd` | backend/src/features/flashcard/usecases/CreateFlashcard.js:11 | the result is a prefix that ends with a non-space, and the part dropped is all whitespace |
| `JsString.TrimEmptyIff` | backend/src/features/flashcard/usecases/CreateFlashcard.js:11 | `s.trim() === ''` holds exactly when every character of `s` is whitespace |
| `JsString.TrimShape` | mobile/app/flashcard/study.tsx:355 | a trimmed string (`Trim`, `trimEnd` after `trimStart`) is the slice of the original between its first and last non-space characters |
| `JsString.TrimIdempotent` | mobile/app/flashcard/create.tsx:76-82 | trimming an already trimmed string changes nothing |
| `JsString.IndexFrom` | mobile/app/flashcard/study.tsx:353 | the result is the first occurrence of the separator at or after `from`, and `None` means there is none |
| `JsString.Split` | mobile/app/flashcard/study.tsx:353 | splitting on a non-empty separator gives at least one piece; what the pieces are is stated by `SplitFirstPiece`, `JoinSplit` and `SplitPiecesFree` |
| `JsString.SplitFirstPiece` | mobile/app/flashcard/study.tsx:353 | the first piece is the prefix before the leftmost occurrence of the separator, or the whole string when it does not occur |
| `JsString.JoinSplit` | mobile/app/flashcard/study.tsx:353 | joining the untrimmed pieces with `:::` gives back the original mnemonic |
| `JsString.SplitPiecesFree` | mobile/app/flashcard/study.tsx:353 | no piece of a split contains the separator |
| `StudySession.Positions` | mobile/app/flashcard/study.tsx:424-467 | the positions given a verdict are strictly increasing, in range, each carries that verdict, and every such position is listed |
| `StudySession.SelectInDeckOrder` | mobile/app/flashcard/study.tsx:424-467 | each tally list is the words at the positions of its verdict, so it keeps deck order |
| `StudySession.TallyTotal` | mobile/app/flashcard/study.tsx:424-467 | every handled card is in exactly one of known, unknown and skipped |
| `StudySession.SelectAppend` | mobile/app/flashcard/study.tsx:439-443 | grading one more card appends its word to its own list and leaves the other two unchanged |
| `StudySession.SelectSkipRest` | mobile/app/flashcard/study.tsx:424-431 | skipping all the remaining cards at once appends `cards.slice(start)` (the words of the cards from `start`, `Words`) to skipped and adds nothing to known or unknown, whatever the number `k` of skipped verdicts (`Repeat`) |
| `StudySession.MnemonicSentences` | mobile/app/flashcard/study.tsx:353-355 | one rendered sentence per piece of the split, sentence `k` being piece `k` trimmed; each is trimmed and free of `:::` |
| `StudySession.TrimKeepsFree` | mobile/app/flashcard/study.tsx:355 | trimming a piece cannot create an occurrence of the separator |
| `StudySession.Session.Load` | mobile/app/flashcard/study.tsx:403-408 | the deck is as loaded (`InitialCards`: card `i` holds word `i`, index `i` and is pending), the index is 0, the tallies are empty, the results are hidden and there is no analysis |
| `StudySession.Session.FinishStudy` | mobile/app/flashcard/study.tsx:424-432 | every card from the start index (the override, else `currentIndex`) is appended to skipped and the results are shown; known, unknown, the deck and the index are unchanged |
| `StudySession.Session.SwipeComplete` | mobile/app/flashcard/study.tsx:434-453 | a no-op past the end; otherwise a right swipe appends the card's word to known and a left swipe to unknown. A card before the last advances the index by 1 and keeps the results hidden; the last card shows the results, adds nothing to skipped and leaves the index where it is |
| `StudySession.Session.Pass` | mobile/app/flashcard/study.tsx:455-468 | a no-op past the end; otherwise appends the card's word to skipped and advances or finishes as a swipe does |
| `StudySession.Session.Finish` | mobile/app/flashcard/study.tsx:470-484 | `finishStudy()` without an index: the card on screen and every card after it are skipped |
| `StudySession.Session.Replay` | mobile/app/flashcard/study.tsx:486-493 | index 0, empty tallies, results hidden, analysis cleared, deck and card statuses untouched |
| `StudySession.Session.ReceiveAnalysis` | mobile/app/flashcard/study.tsx:534-547 | an analysis in the reply replaces the stored one; a reply without one leaves everything unchanged |
| `StudySession.CountInvariant` | mobile/app/flashcard/study.tsx:424-467 | `known + unknown + skipped` equals `currentIndex` while the results are hidden and the deck size once they are shown |
| `StudySession.PayloadsCoverDeck` | mobile/app/flashcard/study.tsx:495-523 | on the results screen, the save body (`SavePayload`, without `unknownWords`) and the analyze body (`AnalyzePayload`) carry counts that add up to the deck size, and the analyze body's `unknownWords` is exactly the unknown list, in deck order |
| `StudySession.GradeWholeDeck` | mobile/app/flashcard/study.tsx:445-451 | grading all three cards of a deck (right, left, right) gives 2 known, 1 unknown and 0 skipped: the last card is not counted twice |
| `StudySession.GradeOneThenFinish` | mobile/app/flashcard/study.tsx:480 | grading the first of three cards and pressing finish skips exactly the other two |
| `Records.StoredCount` | backend/src/features/flashcard/usecases/AnalyzeStudySession.js:91-93 | a count defaulted to 0 when falsy, in an Int column: a falsy value stores 0, a 32-bit integer stores itself, any stored value is the one given, and anything else is rejected naming the field |
| `Records.StoredText` | backend/src/features/flashcard/usecases/AnalyzeStudySession.js:94 | an optional text defaulted to null when falsy: no text exactly when `v` is falsy, a non-empty string is stored, and only a truthy non-string is rejected |
| `Records.StoredFloat` | backend/src/features/flashcard/usecases/AnalyzeStudySession.js:111 | an optional float defaulted to null when falsy: zero or missing means no value, any other number is stored, and only a truthy non-number is rejected |
| `WordAnalytics.ParseEntry` | backend/src/features/flashcard/usecases/AnalyzeStudySession.js:100-121 | an entry is accepted exactly when it is not null, its `wordKey` is a string, and its mnemonic and difficulty pass their columns; the key read is the entry's `wordKey` |
| `WordAnalytics.Upsert` | backend/src/features/flashcard/usecases/AnalyzeStudySession.js:100-121 | the key `(flashcardId, wordKey)` gains one wrong answer on top of what it had (starting from 0) and keeps its correct count; a new row is `(0, 1)` with the entry's mnemonic and difficulty or null; an existing row takes only the fields the entry supplies; no other row changes or appears |
| `WordAnalytics.UpsertAll` | backend/src/features/flashcard/usecases/AnalyzeStudySession.js:99-123 | a successful run over the entries removes no row, and no statement of the run hit the injected fault |
| `WordAnalytics.UpsertAllOkIff` | backend/src/features/flashcard/usecases/AnalyzeStudySession.js:99-122 | a run of upserts succeeds exactly when every entry is non-null with a string `wordKey` and a mnemonic and difficulty its columns accept, and no upsert statement hits the injected fault; otherwise the whole transaction rolls back |
| `WordAnalytics.UpsertAllFailsEarly` | backend/src/features/flashcard/usecases/AnalyzeStudySession.js:100-122 | the first failing upsert fails the whole loop |
| `WordAnalytics.UpsertAllWrongCount` | backend/src/features/flashcard/usecases/AnalyzeStudySession.js:99-123 | after the loop, a key's `wrongCount` has grown by the number of entries naming it (a key repeated in one reply counts each time), and a row exists exactly when it did before or some entry names it |
| `WordAnalytics.UpsertAllFrame` | backend/src/features/flashcard/usecases/AnalyzeStudySession.js:108-117 | `correctCount` never changes (a new row starts at 0), other flashcards' rows are untouched, and a row of this flashcard that no entry names is kept as it was, mnemonic and difficulty included |
| `WordAnalytics.UpdateTakesOnlyTruthyFields` | backend/src/features/flashcard/usecases/AnalyzeStudySession.js:110-111 | on an existing row a truthy difficulty or mnemonic replaces the stored one, and a falsy one (including 0 or `''`) never overwrites it |
| `WordAnalytics.UpsertSameWordTwice` | backend/src/features/flashcard/usecases/AnalyzeStudySession.js:101-121 | a new word seen twice has one row with `wrongCount` 2 and `correctCount` 0, holding the second analysis's fields wherever it supplied them |
| `Analysis.BuildPayload` | backend/src/features/flashcard/usecases/AnalyzeStudySession.js:17-44 | the payload carries the flashcard id, title and language, the three counts exactly as sent, their sum as `total` when all three are numbers, `unknownWords` defaulted to `[]` only when undefined (`UnknownWordsOf`), and the timestamp |
| `Analysis.WebhookGate` | backend/src/features/flashcard/usecases/AnalyzeStudySession.js:32 | the webhook is called exactly when a URL is configured and `unknownWords` is non-empty; a configured URL with a null `unknownWords` throws reading `length` |
| `Analysis.Normalise` | backend/src/features/flashcard/usecases/AnalyzeStudySession.js:65-77 | normalisation throws exactly on a null body or a non-empty array whose first item is null, and any analysis it yields is truthy |
| `Analysis.Wrap` | backend/src/features/flashcard/usecases/AnalyzeStudySession.js:60-77 | each of the three reply formats, `{output}`, `[{response: {output}}, ...]` and the bare analysis, normalises back to the analysis it carries |
| `Analysis.NormaliseUnrecognised` | backend/src/features/flashcard/usecases/AnalyzeStudySession.js:65-77 | a body with no truthy `output`, not a non-empty array, and with neither a truthy `aiFeedback` nor `wordAnalysis` gives no analysis |
| `Analysis.RandomFieldGivesNone` | backend/src/features/flashcard/usecases/AnalyzeStudySession.js:65-77 | `{"randomField": 1}` gives no analysis |
| `Analysis.OutputWins` | backend/src/features/flashcard/usecases/AnalyzeStudySession.js:65-67 | a truthy `output` is the analysis, whatever else the body holds |
| `Analysis.ArrayWithoutOutputGivesNone` | backend/src/features/flashcard/usecases/AnalyzeStudySession.js:68-73 | a non-empty array whose first item has no truthy `response.output` gives no analysis and never falls through to the direct shape |
| `Analysis.NormaliseFromShape` | backend/src/features/flashcard/usecases/AnalyzeStudySession.js:65-77 | every analysis comes from one of the three shapes: the truthy `output`, the first item's `response.output`, or the bare body with a truthy `aiFeedback` or `wordAnalysis` and no truthy `output` |
| `Analysis.AiResponse` | backend/src/features/flashcard/usecases/AnalyzeStudySession.js:52-55 | a non-2xx reply gives no analysis, a rejection propagates, and a parsed body gives exactly what normalising it gives |
| `Analysis.AiOutcome` | backend/src/features/flashcard/usecases/AnalyzeStudySession.js:31-83 | with the gate closed there is no analysis; a gate error is the outcome; with the gate open the outcome is the reply's; an analysis exists only if the gate was open and the call was answered |
| `Analysis.Shape` | backend/src/features/flashcard/usecases/AnalyzeStudySession.js:134-140 | `aiAnalysis` is null exactly when normalisation gave null; otherwise a truthy `aiFeedback` or `wordAnalysis` is passed through, and a falsy one becomes exactly `''` or `[]` |
| `Analysis.WordEntries` | backend/src/features/flashcard/usecases/AnalyzeStudySession.js:99-100 | upserts run over `wordAnalysis` only when it is an array, and over nothing otherwise |
| `Analysis.SessionRowFor` | backend/src/features/flashcard/usecases/AnalyzeStudySession.js:88-96 | the row is built exactly when the three counts and the feedback pass their columns; it belongs to the flashcard, a falsy count is stored as 0 and a truthy one as itself; with an analysis the feedback is its `aiFeedback` as the text column stores it, without one it is null |
| `Analysis.ClientBodyTotals` | backend/src/features/flashcard/usecases/AnalyzeStudySession.js:41-93 | for the body the client sends, the webhook's `total` is the sum of the three counts and the session row stores them unchanged |
| `Analysis.GateClosedCases` | backend/src/features/flashcard/usecases/AnalyzeStudySession.js:17-32 | a body with no or empty `unknownWords` (such as the save payload; `UnknownWordsOf` defaults a missing list to `[]`) never reaches the webhook, and no body does without a URL |
| `Store.AnalyzeWithoutAnalysisIsSave` | backend/src/features/flashcard/usecases/SaveStudySession.js:25-44 | with no analysis, the analyze transaction commits what the save transaction commits and leaves WordAnalytics alone |
| `Store.AnalyzeTx` | backend/src/features/flashcard/usecases/AnalyzeStudySession.js:85-131 | the analyze transaction commits exactly when the session row is accepted, the upsert run succeeds and no statement up to the flashcard update hits the fault; the committed session belongs to the flashcard and no WordAnalytics row disappears |
| `Store.SaveTx` | backend/src/features/flashcard/usecases/SaveStudySession.js:25-44 | the save transaction commits exactly when the session row is accepted and neither of its two statements hits the fault; the committed session belongs to the flashcard and has no feedback |
| `Store.StageUpserts` | backend/src/features/flashcard/usecases/AnalyzeStudySession.js:99-123 | the loop over the entries, updating rows of a staged table in place, computes exactly the upsert run |
| `Store.Store.constructor` | backend/src/features/flashcard/usecases/AnalyzeStudySession.js:20-23 | a store holding the given tables, every flashcard's language present |
| `Store.CallWebhook` | backend/src/features/flashcard/usecases/AnalyzeStudySession.js:31-83 | the payload is posted exactly when the gate is open and is the one built from the flashcard, its language and the session; the outcome is the gate's error, no analysis, the call's rejection, or the normalised reply |
| `Store.Store.RunAnalyzeTransaction` | backend/src/features/flashcard/usecases/AnalyzeStudySession.js:86-132 | on any failing statement nothing changes; on success exactly one session is appended, WordAnalytics becomes the upsert run's result, and only that flashcard's `lastStudiedAt` is set to now |
| `Store.Store.AnalyzeStudySession` | backend/src/features/flashcard/usecases/AnalyzeStudySession.js:11-145 | missing input, then an unknown flashcard, each fail unprefixed before any call. The webhook gets the built payload exactly when the gate is open. A gate, call or normalisation error, or a failed transaction, fails with `Failed to analyze study session: ` and changes nothing. Otherwise the transaction's effect is returned with the shaped analysis |
| `Store.Store.SaveStudySession` | backend/src/features/flashcard/usecases/SaveStudySession.js:11-51 | the same two unprefixed errors; a transaction failure fails with `Failed to save study session: ` and changes nothing; success appends one session with null feedback, touches only that flashcard's `lastStudiedAt`, and never touches WordAnalytics |
| `FlashcardValidation.PairError` | backend/src/features/flashcard/usecases/CreateFlashcard.js:25 | a pair passes exactly when both sides are truthy (no trimming); reading a side of a null pair throws |
| `FlashcardValidation.FirstPairError` | backend/src/features/flashcard/usecases/CreateFlashcard.js:24-28 | no error exactly when every pair is complete; otherwise the error of a pair all of whose predecessors are complete |
| `FlashcardValidation.WordsError` | backend/src/features/flashcard/usecases/CreateFlashcard.js:19-28 | passes exactly on a non-empty array of complete pairs; a non-array or empty array gets `At least one word pair is required` |
| `FlashcardValidation.CreateTitleError` | backend/src/features/flashcard/usecases/CreateFlashcard.js:11-13 | passes exactly on a string that is not all whitespace; `Title is required` exactly for a falsy or whitespace-only string title |
| `FlashcardValidation.UpdateTitleError` | backend/src/features/flashcard/usecases/UpdateFlashcard.js:11-13 | passes exactly on a falsy title or a non-blank string; `Title cannot be empty` exactly for a non-empty whitespace-only string |
| `FlashcardValidation.ValidateCreate` | backend/src/features/flashcard/usecases/CreateFlashcard.js:11-30 | accepted exactly when the title is a non-blank string, `languageId` is truthy and `words` is a non-empty array of complete pairs; an accepted body is forwarded unchanged |
| `FlashcardValidation.ValidateUpdate` | backend/src/features/flashcard/usecases/UpdateFlashcard.js:11-27 | accepted exactly when the title is falsy or non-blank and `words` is absent/falsy or acceptable, with no language check; forwards `(id, body)` unchanged |
| `FlashcardValidation.CreateCheckOrder` | backend/src/features/flashcard/usecases/CreateFlashcard.js:11-21 | the failures are reported in the order title, language, words, each only when the earlier checks passed |
| `FlashcardValidation.UpdateAcceptsMore` | backend/src/features/flashcard/usecases/UpdateFlashcard.js:11-16 | everything create accepts, update accepts; update also accepts `title: ''` with no language and no words, which create refuses |
| `FlashcardValidation.BlankSidesAccepted` | backend/src/features/flashcard/usecases/CreateFlashcard.js:25 | a pair whose sides are single spaces passes |
| `FlashcardForm.WithoutRemovesOne` | mobile/app/flashcard/create.tsx:39 | the filter (`Without`) removes exactly the pair at the index and keeps the others in order; an index outside the list removes nothing |
| `FlashcardForm.PairFilled` | mobile/app/flashcard/create.tsx:61 | a pair is filled exactly when neither side is all whitespace |
| `FlashcardForm.FormAlert` | mobile/app/flashcard/create.tsx:49-68 | no alert exactly when the title is not blank, a language is selected and no pair side is blank; a blank title alerts first, then a missing language, then a blank pair side (the edit screen's checks at edit.tsx:80-99 are the same) |
| `FlashcardForm.OptionalTrimmed` | mobile/app/flashcard/create.tsx:77-78 | `Optional`: a blank description or notes becomes undefined, anything else is sent trimmed |
| `FlashcardForm.TrimPairsTrimmed` | mobile/app/flashcard/create.tsx:79-82 | `TrimPairs`: one pair is sent per form pair, in order, each side trimmed |
| `FlashcardForm.PayloadTrimmed` | mobile/app/flashcard/create.tsx:75-84 | `Payload`: every string in the request is trimmed, and description or notes is left out exactly when blank (edit.tsx:106-115 builds the same request) |
| `FlashcardForm.InputJsonAccepted` | backend/src/features/flashcard/usecases/CreateFlashcard.js:11-28 | a request with a non-blank title, a non-zero language id and non-empty pair sides passes the create checks |
| `FlashcardForm.SubmittedFormIsAccepted` | mobile/app/flashcard/create.tsx:70-84 | a form that passes its own checks, with a language whose id is not 0, sends a request both CreateFlashcard and UpdateFlashcard accept unchanged |
| `FlashcardForm.Form.Blank` | mobile/app/flashcard/create.tsx:24-27 | blank fields and exactly one empty pair |
| `FlashcardForm.Form.Loaded` | mobile/app/flashcard/edit.tsx:44-47 | the loaded title; a missing description or notes becomes `''`; an empty word list becomes one empty pair |
| `FlashcardForm.Form.AddWordPair` | mobile/app/flashcard/create.tsx:30-32 | one empty pair is appended and nothing else changes (edit.tsx:61-63 is the same) |
| `FlashcardForm.Form.RemoveWordPair` | mobile/app/flashcard/edit.tsx:65-72 | refused exactly when one pair is left, so the list is never empty; otherwise exactly the pair at the index goes and the rest keep their order (create.tsx:34-41 is the same) |
| `FlashcardForm.Form.UpdateWordPair` | mobile/app/flashcard/edit.tsx:74-78 | only the addressed side of the addressed pair changes (create.tsx:43-47 is the same) |
| `FlashcardForm.Form.Submit` | mobile/app/flashcard/create.tsx:70-84 | a request is built exactly when validation raises no alert, and it is the trimmed payload with the selected language's id |
| `ApiConfig.GetApiUrl` | mobile/constants/api.ts:17-22 | the result starts with the base URL; an endpoint starting with `/` follows it verbatim; any other endpoint `e` gives `getApiBaseUrl() + '/' + e` (`GetApiBaseUrl`, the base URL followed by `/api`, lines 25-27) |
| `ApiConfig.PathOf` | mobile/constants/api.ts:20-21 | the path after the base URL is the endpoint itself, or `/api/` plus the endpoint |
| `ApiConfig.SameUrlIff` | mobile/constants/api.ts:20-21 | two endpoints give the same URL exactly when they are equal or one is `/api/` plus the other, relative, one |
| `ApiConfig.LanguagesUrl` | mobile/constants/api.ts:11 | the configured languages endpoint and the relative `languages` give the same URL, the base URL plus `/languages` |
| `FlagEmoji.GetFlagEmoji` | mobile/services/languageService.ts:132-143 | one code point per input unit |
| `FlagEmoji.LettersBecomeIndicators` | mobile/services/languageService.ts:138-142 | for any code except `en`, each letter, upper-cased (`UpperAll`), becomes U+1F1E6 plus its position in the alphabet, so it lies in U+1F1E6..U+1F1FF |
| `FlagEmoji.OnlyEnRemapped` | mobile/services/languageService.ts:135-136 | `en` in any letter case gives the flag of `gb` (U+1F1EC U+1F1E7); every other code is converted unit by unit as it is |
| `FlagEmoji.IgnoresCase` | mobile/services/languageService.ts:135-139 | `getFlagEmoji(x) == getFlagEmoji(lower(x))`, lower-casing with `LowerAll` |
| `Languages.ToJson` | backend/src/features/language/domain/entities/Language.js:20-26 | the serialised object has exactly the keys `id`, `code` and `name` |
| `Languages.ToJsonFromPersistence` | backend/src/features/language/domain/entities/Language.js:12-26 | serialising a loaded row (`FromPersistence`) gives the row's `{id, code, name}` projection |
| `Languages.FromPersistenceToJson` | backend/src/features/language/domain/entities/Language.js:6-26 | loading a serialised language gives the same language |
| `Languages.NoNativeNameOrFlag` | backend/src/features/language/domain/entities/Language.js:6-18 | `nativeName` and `flag` are never produced |
| `Languages.GetLanguageByCode` | backend/src/features/language/usecases/GetLanguageByCode.js:11-39 | an empty code fails with `Language code is required` whatever the table holds; a lookup failure fails with the repository's message; an absent code fails with `Language not found`; a present one succeeds with the row's three fields |
| `Languages.FoundHasThreeFields` | backend/src/features/language/usecases/GetLanguageByCode.js:28-31 | a found language comes back with exactly three fields |
| `FlashcardEntity.ToJson` | backend/src/features/flashcard/domain/entities/Flashcard.js:32-44 | the serialised object has exactly the nine fields |
| `FlashcardEntity.ToJsonFromPersistence` | backend/src/features/flashcard/domain/entities/Flashcard.js:18-44 | serialising a loaded row (`FromPersistence`) gives the row restricted to the nine fields, unchanged |
| `FlashcardEntity.FromPersistenceToJson` | backend/src/features/flashcard/domain/entities/Flashcard.js:6-44 | loading a serialised flashcard gives the same flashcard, field for field |
| `FlashcardEntity.IncludedLanguageDropped` | backend/src/features/flashcard/domain/entities/Flashcard.js:18-30 | an included `language` is dropped |

## Left out

- HTTP. The fetch wrappers, controllers, routes and server start-up are left out. The webhook call is its outcome (`Reply`), and the webhook URL is an input.
- The client's `INVALID_RESPONSE` error has no status and is rewritten to `NETWORK_ERROR` in the flashcard service. That service is not part of this model.
- An error thrown by the flashcard lookup itself (before the `try` in both study-session use cases) is not modelled. The repositories' own failures are not modelled either, except the language lookup's, which GetLanguageByCode turns into its result.
- The repository calls that follow a successful create or update validation are not modelled. The model ends with the body the repository receives.
- `Records.Rejected` stands for the ORM's rejection of a value of the wrong type. Its message wording is not the ORM's. Null-safety of ORM inputs beyond the types is not modelled.
- Ids, `createdAt` and `updatedAt` that the database assigns are not modelled. A StudySession row has no id here.
- `Analysis.Sum3`: a `total` built from values that are not all numbers (JavaScript's NaN or string concatenation) is `None` rather than the value JavaScript computes.
- `Analysis.HasItems`: `unknownWords.length` is read only for arrays and strings. An object with its own `length` field counts as empty.
- `Json.Get` returns `undefined` for every key of a non-object. A prototype member, such as an array's `length`, is never read by the modelled code except in `HasItems`.
- `FlagEmoji.LowerAll` and `FlagEmoji.UpperAll` map the ASCII letters only. JavaScript's full Unicode case mapping, which can also change a string's length, is not modelled.
- The form's text inputs (`setTitle`, `setDescription`, `setNotes`) are plain assignments of the typed text and are left out.
- `FlashcardForm.Form.UpdateWordPair` requires an index inside the list. The screen passes only indices of rendered pairs. The source would throw a TypeError for any other index.
- The study screen's animations, gesture thresholds, percentage bars and difficulty buckets are floating-point presentation, so they are left out. So is the `isAnalyzing` re-entrancy guard, a concurrency concern.
- The alert dialogs are left out, except as the alert text the form's checks produce. So is navigation, the edit screen's missing-id path, and the loading failures of both screens.
- Concurrent requests and upsert races are left out. Each use case runs alone against the store.
- `StudySession.MnemonicSentences`: the client's `WordAnalysis` type holds the mnemonic as a string. A webhook entry without `aiMnemonic`, which the backend forwards unchecked, makes the results screen's `split` throw while rendering; that crash is not modelled.
- Logging is left out.
