/** The pure parts of the analyze use case: when the webhook is called,
    what it is sent, how its reply is normalised, and the `aiAnalysis`
    returned to the client. */
module Analysis {
  import opened Common
  import opened Json
  import opened Records
  import Dto

  /** What the webhook call came to, when it is made: a reply whose status is
      not 2xx, a rejection from `fetch` or from `response.json()`, or a
      parsed body. */
  datatype Reply = NonOk(statusText: string) | Threw(message: string) | Replied(body: Json)

  /** The webhook URL is configured: the controller passes
      `process.env.N8N_WEBHOOK_URL || null`. */
  predicate Configured(url: Option<string>) {
    url.Some? && url.value != ""
  }

  /** `unknownWords.length > 0` for a value whose length can be read (an
      object's own `length` field is not modelled). */
  predicate HasItems(v: Json) {
    (v.Arr? && |v.items| > 0) || (v.Str? && v.s != "")
  }

  /** `const { unknownWords = [] } = sessionData`: the default applies only
      when the field is undefined. */
  function UnknownWordsOf(sessionData: Json): (r: Json)
    requires !Nullish(sessionData)
    ensures Get(sessionData, "unknownWords").Undefined? ==> r == Arr([])
    ensures !Get(sessionData, "unknownWords").Undefined? ==> r == Get(sessionData, "unknownWords")
  {
    var w := Get(sessionData, "unknownWords");
    if w.Undefined? then Arr([]) else w
  }

  /** `n8nWebhookUrl && unknownWords.length > 0`: the length is read only
      once a URL is configured, and reading it from null throws. */
  function WebhookGate(url: Option<string>, unknownWords: Json): (r: Result<bool>)
    ensures r == Ok(true) <==> Configured(url) && HasItems(unknownWords)
    ensures r.Err? <==> Configured(url) && Nullish(unknownWords)
    ensures r.Err? ==> r.message == ReadError(unknownWords, "length")
  {
    if !Configured(url) then Ok(false)
    else if Nullish(unknownWords) then Err(ReadError(unknownWords, "length"))
    else Ok(HasItems(unknownWords))
  }

  datatype LanguageRef = LanguageRef(id: int, code: string, name: string)

  datatype Results = Results(knownCount: Json, unknownCount: Json, skippedCount: Json, total: Option<real>)

  /** The JSON body posted to the webhook. */
  datatype WebhookPayload = WebhookPayload(
    flashcardId: string,
    flashcardTitle: string,
    language: LanguageRef,
    results: Results,
    unknownWords: Json,
    timestamp: string)

  /** `a + b + c` when all three are numbers; `None` stands for the NaN or
      string concatenation JavaScript gives otherwise, which is not modelled. */
  function Sum3(a: Json, b: Json, c: Json): (r: Option<real>)
    ensures r.Some? <==> a.Num? && b.Num? && c.Num?
    ensures r.Some? ==> r.value == a.n + b.n + c.n
  {
    if a.Num? && b.Num? && c.Num? then Some(a.n + b.n + c.n) else None
  }

  /** The webhook payload: the flashcard's title and language, the three
      counts exactly as the client sent them with their sum, the unknown
      words after the destructuring default, and the clock's timestamp. */
  function BuildPayload(flashcardId: string, flashcard: FlashcardRow, language: LanguageRow,
                        sessionData: Json, timestamp: string): (r: WebhookPayload)
    requires !Nullish(sessionData)
    ensures r.flashcardId == flashcardId && r.flashcardTitle == flashcard.title && r.timestamp == timestamp
    ensures r.language.id == language.id && r.language.code == language.code && r.language.name == language.name
    ensures r.results.knownCount == Get(sessionData, "knownCount")
    ensures r.results.unknownCount == Get(sessionData, "unknownCount")
    ensures r.results.skippedCount == Get(sessionData, "skippedCount")
    ensures r.results.total.Some? <==> r.results.knownCount.Num? && r.results.unknownCount.Num? && r.results.skippedCount.Num?
    ensures r.results.total.Some? ==>
      r.results.total.value == r.results.knownCount.n + r.results.unknownCount.n + r.results.skippedCount.n
    ensures Get(sessionData, "unknownWords").Undefined? ==> r.unknownWords == Arr([])
    ensures !Get(sessionData, "unknownWords").Undefined? ==> r.unknownWords == Get(sessionData, "unknownWords")
  {
    var known := Get(sessionData, "knownCount");
    var unknown := Get(sessionData, "unknownCount");
    var skipped := Get(sessionData, "skippedCount");
    WebhookPayload(
      flashcardId,
      flashcard.title,
      LanguageRef(language.id, language.code, language.name),
      Results(known, unknown, skipped, Sum3(known, unknown, skipped)),
      UnknownWordsOf(sessionData),
      timestamp)
  }

  /** The three reply shapes, tried in this order: `{output}`, an array
      whose first item is `{response: {output}}`, and the analysis itself.
      A non-empty array never falls through to the direct shape, and a
      property read on null throws as in JavaScript. */
  function Normalise(raw: Json): (r: Result<Option<Json>>)
    ensures r.Err? <==> Nullish(raw) || (raw.Arr? && |raw.items| > 0 && Nullish(raw.items[0]))
    ensures r.Ok? && r.value.Some? ==> Truthy(r.value.value)
  {
    var output :- Read(raw, "output");
    if Truthy(output) then Ok(Some(output))
    else if IsArray(raw) && |raw.items| > 0 then
      var firstItem := raw.items[0];
      var response :- Read(firstItem, "response");
      if Truthy(response) && Truthy(Get(response, "output")) then Ok(Some(Get(response, "output")))
      else Ok(None)
    else if Truthy(Get(raw, "aiFeedback")) || Truthy(Get(raw, "wordAnalysis")) then Ok(Some(raw))
    else Ok(None)
  }

  /** The reply formats the webhook is known to use. */
  datatype Format = OutputField | ArrayWrapped | Direct

  /** An analysis can be sent in a format: wrapped, any truthy value; bare,
      an object that has a truthy `aiFeedback` or `wordAnalysis` and no
      truthy `output`. */
  predicate Wrappable(f: Format, analysis: Json) {
    match f
    case OutputField => Truthy(analysis)
    case ArrayWrapped => Truthy(analysis)
    case Direct =>
      && analysis.Obj?
      && !Truthy(Get(analysis, "output"))
      && (Truthy(Get(analysis, "aiFeedback")) || Truthy(Get(analysis, "wordAnalysis")))
  }

  /** The reply the webhook sends for `analysis` in format `f`, `rest` being
      any further array items; normalising it recovers the analysis. */
  function Wrap(f: Format, analysis: Json, rest: seq<Json>): (w: Json)
    requires Wrappable(f, analysis)
    ensures Normalise(w) == Ok(Some(analysis))
  {
    match f
    case OutputField => Obj(map["output" := analysis])
    case ArrayWrapped => Arr([Obj(map["response" := Obj(map["output" := analysis])])] + rest)
    case Direct => analysis
  }

  /** A body in none of the three shapes normalises to no analysis, as
      `{"randomField": 1}` does. */
  lemma NormaliseUnrecognised(raw: Json)
    requires !Nullish(raw)
    requires !Truthy(Get(raw, "output")) && !(raw.Arr? && |raw.items| > 0)
    requires !Truthy(Get(raw, "aiFeedback")) && !Truthy(Get(raw, "wordAnalysis"))
    ensures Normalise(raw) == Ok(None)
  {
  }

  lemma RandomFieldGivesNone()
    ensures Normalise(Obj(map["randomField" := Num(1.0)])) == Ok(None)
  {
    var raw := Obj(map["randomField" := Num(1.0)]);
    assert Get(raw, "output") == Undefined && Get(raw, "aiFeedback") == Undefined && Get(raw, "wordAnalysis") == Undefined;
  }

  /** A truthy `output` is taken first, whatever else the body holds. */
  lemma OutputWins(raw: Json)
    requires !Nullish(raw) && Truthy(Get(raw, "output"))
    ensures Normalise(raw) == Ok(Some(Get(raw, "output")))
  {
  }

  /** A non-empty array is only ever read as the wrapped shape: when its
      first item has no truthy `response.output` there is no analysis, even
      if the array could be read some other way. */
  lemma ArrayWithoutOutputGivesNone(raw: Json)
    requires raw.Arr? && |raw.items| > 0 && !Nullish(raw.items[0])
    requires !(Truthy(Get(raw.items[0], "response")) && Truthy(Get(Get(raw.items[0], "response"), "output")))
    ensures Normalise(raw) == Ok(None)
  {
  }

  /** Every analysis comes from one of the three shapes, in the order they
      are tried. */
  lemma NormaliseFromShape(raw: Json, analysis: Json)
    requires Normalise(raw) == Ok(Some(analysis))
    ensures !Nullish(raw)
    ensures
      || (Truthy(Get(raw, "output")) && analysis == Get(raw, "output"))
      || (&& !Truthy(Get(raw, "output")) && raw.Arr? && |raw.items| > 0 && !Nullish(raw.items[0])
          && Truthy(Get(raw.items[0], "response"))
          && analysis == Get(Get(raw.items[0], "response"), "output") && Truthy(analysis))
      || (&& !Truthy(Get(raw, "output")) && !(raw.Arr? && |raw.items| > 0)
          && analysis == raw && (Truthy(Get(raw, "aiFeedback")) || Truthy(Get(raw, "wordAnalysis"))))
  {
  }

  /** Only a parsed body is normalised; a non-2xx reply means no analysis and
      a rejection propagates. */
  function AiResponse(reply: Reply): (r: Result<Option<Json>>)
    ensures reply.NonOk? ==> r == Ok(None)
    ensures reply.Threw? ==> r == Err(reply.message)
    ensures reply.Replied? ==> r == Normalise(reply.body)
    ensures r.Ok? && r.value.Some? ==> reply.Replied? && Truthy(r.value.value)
  {
    match reply
    case NonOk(_) => Ok(None)
    case Threw(message) => Err(message)
    case Replied(body) => Normalise(body)
  }

  /** Everything between the lookup and the transaction: the gate, the call
      and the normalisation. An analysis exists only if the call was made
      and answered with a recognised body. */
  function AiOutcome(url: Option<string>, sessionData: Json, reply: Reply): (r: Result<Option<Json>>)
    requires !Nullish(sessionData)
    ensures WebhookGate(url, UnknownWordsOf(sessionData)) == Ok(false) ==> r == Ok(None)
    ensures WebhookGate(url, UnknownWordsOf(sessionData)).Err? ==> r == Err(WebhookGate(url, UnknownWordsOf(sessionData)).message)
    ensures WebhookGate(url, UnknownWordsOf(sessionData)) == Ok(true) ==> r == AiResponse(reply)
    ensures r.Ok? && r.value.Some? ==> WebhookGate(url, UnknownWordsOf(sessionData)) == Ok(true) && reply.Replied?
    ensures r.Ok? && r.value.Some? ==> Truthy(r.value.value)
  {
    var open :- WebhookGate(url, UnknownWordsOf(sessionData));
    if open then AiResponse(reply) else Ok(None)
  }

  /** The `aiAnalysis` returned to the client. */
  datatype AnalysisView = AnalysisView(aiFeedback: Json, wordAnalysis: Json)

  /** No analysis exactly when normalisation gave none; otherwise a falsy
      feedback becomes `''` and a falsy word list `[]`. */
  function Shape(aiResponse: Option<Json>): (r: Option<AnalysisView>)
    requires aiResponse.Some? ==> !Nullish(aiResponse.value)
    ensures r.None? <==> aiResponse.None?
    ensures r.Some? ==> Truthy(r.value.aiFeedback) || r.value.aiFeedback == Str("")
    ensures r.Some? ==> Truthy(r.value.wordAnalysis) || r.value.wordAnalysis == Arr([])
    ensures r.Some? && Truthy(Get(aiResponse.value, "aiFeedback")) ==> r.value.aiFeedback == Get(aiResponse.value, "aiFeedback")
    ensures r.Some? && Truthy(Get(aiResponse.value, "wordAnalysis")) ==> r.value.wordAnalysis == Get(aiResponse.value, "wordAnalysis")
    ensures r.Some? && !Truthy(Get(aiResponse.value, "aiFeedback")) ==> r.value.aiFeedback == Str("")
    ensures r.Some? && !Truthy(Get(aiResponse.value, "wordAnalysis")) ==> r.value.wordAnalysis == Arr([])
  {
    match aiResponse
    case None => None
    case Some(a) => Some(AnalysisView(Or(Get(a, "aiFeedback"), Str("")), Or(Get(a, "wordAnalysis"), Arr([]))))
  }

  /** The `wordAnalysis` entries that get upserted: none unless the field is
      an array. */
  function WordEntries(aiResponse: Option<Json>): (r: seq<Json>)
    requires aiResponse.Some? ==> !Nullish(aiResponse.value)
    ensures aiResponse.None? ==> r == []
    ensures aiResponse.Some? && Get(aiResponse.value, "wordAnalysis").Arr? ==> r == Get(aiResponse.value, "wordAnalysis").items
    ensures aiResponse.Some? && !Get(aiResponse.value, "wordAnalysis").Arr? ==> r == []
  {
    match aiResponse
    case None => []
    case Some(a) => var w := Get(a, "wordAnalysis"); if Truthy(w) && IsArray(w) then w.items else []
  }

  /** The new StudySession row: counts default to 0, feedback is the
      analysis's truthy `aiFeedback` or null. */
  function SessionRowFor(flashcardId: string, sessionData: Json, aiResponse: Option<Json>): (r: Result<SessionRow>)
    requires !Nullish(sessionData)
    requires aiResponse.Some? ==> !Nullish(aiResponse.value)
    ensures r.Ok? ==> r.value.flashcardId == flashcardId
    ensures r.Ok? && aiResponse.None? ==> r.value.aiFeedback == None
    ensures r.Ok? && !Truthy(Get(sessionData, "knownCount")) ==> r.value.knownCount == 0
    ensures r.Ok? && !Truthy(Get(sessionData, "unknownCount")) ==> r.value.unknownCount == 0
    ensures r.Ok? && !Truthy(Get(sessionData, "skippedCount")) ==> r.value.skippedCount == 0
    ensures r.Ok? && Truthy(Get(sessionData, "knownCount")) ==> Get(sessionData, "knownCount") == Num(r.value.knownCount as real)
    ensures r.Ok? && Truthy(Get(sessionData, "unknownCount")) ==> Get(sessionData, "unknownCount") == Num(r.value.unknownCount as real)
    ensures r.Ok? && Truthy(Get(sessionData, "skippedCount")) ==> Get(sessionData, "skippedCount") == Num(r.value.skippedCount as real)
    ensures aiResponse.Some? && r.Ok? ==>
      StoredText(Get(aiResponse.value, "aiFeedback"), "aiFeedback") == Ok(r.value.aiFeedback)
    ensures r.Ok? <==>
      && StoredCount(Get(sessionData, "knownCount"), "knownCount").Ok?
      && StoredCount(Get(sessionData, "unknownCount"), "unknownCount").Ok?
      && StoredCount(Get(sessionData, "skippedCount"), "skippedCount").Ok?
      && (aiResponse.Some? ==> StoredText(Get(aiResponse.value, "aiFeedback"), "aiFeedback").Ok?)
  {
    var known :- StoredCount(Get(sessionData, "knownCount"), "knownCount");
    var unknown :- StoredCount(Get(sessionData, "unknownCount"), "unknownCount");
    var skipped :- StoredCount(Get(sessionData, "skippedCount"), "skippedCount");
    var feedback :- if aiResponse.Some? then StoredText(Get(aiResponse.value, "aiFeedback"), "aiFeedback") else Ok(None);
    Ok(SessionRow(flashcardId, known, unknown, skipped, feedback))
  }

  /** The JSON body the client's `StudySessionData` becomes on the wire. */
  function RequestBody(d: Dto.StudySessionData): Json {
    var counts := map[
      "knownCount" := Num(d.knownCount as real),
      "unknownCount" := Num(d.unknownCount as real),
      "skippedCount" := Num(d.skippedCount as real)];
    match d.unknownWords
    case Omitted => Obj(counts)
    case Included(pairs) => Obj(counts["unknownWords" := Arr(seq(|pairs|, i requires 0 <= i < |pairs| => Dto.PairJson(pairs[i])))])
  }

  /** For a body the client sends, the webhook's `total` is the sum of the
      three counts and the session row stores them unchanged. */
  lemma ClientBodyTotals(d: Dto.StudySessionData, flashcardId: string, flashcard: FlashcardRow,
                         language: LanguageRow, timestamp: string)
    requires d.knownCount <= MaxInt32 && d.unknownCount <= MaxInt32 && d.skippedCount <= MaxInt32
    ensures BuildPayload(flashcardId, flashcard, language, RequestBody(d), timestamp).results.total
            == Some((d.knownCount + d.unknownCount + d.skippedCount) as real)
    ensures SessionRowFor(flashcardId, RequestBody(d), None)
            == Ok(SessionRow(flashcardId, d.knownCount, d.unknownCount, d.skippedCount, None))
  {
    var body := RequestBody(d);
    assert Get(body, "knownCount") == Num(d.knownCount as real);
    assert Get(body, "unknownCount") == Num(d.unknownCount as real);
    assert Get(body, "skippedCount") == Num(d.skippedCount as real);
  }

  /** A body whose `unknownWords` is an empty list never reaches the
      webhook; nor does any body when no URL is configured. */
  lemma GateClosedCases(url: Option<string>, d: Dto.StudySessionData)
    requires d.unknownWords == Dto.Omitted || d.unknownWords == Dto.Included([]) || !Configured(url)
    ensures WebhookGate(url, UnknownWordsOf(RequestBody(d))) == Ok(false)
  {
    var body := RequestBody(d);
    if !Configured(url) {
    } else if d.unknownWords.Included? {
      assert |Get(body, "unknownWords").items| == 0;
    } else {
      assert "unknownWords" !in body.fields;
    }
  }
}
