/** The backing store as maps, and the two study-session use cases that
    write to it: AnalyzeStudySession (webhook, then one transaction with the
    session insert, the WordAnalytics upserts and the `lastStudiedAt`
    update) and SaveStudySession (the same transaction without analysis). */
module Store {
  import opened Common
  import opened Json
  import opened Records
  import opened WordAnalytics
  import opened Analysis

  const RequiredMessage: string := "Flashcard ID and session data are required"
  const NotFoundMessage: string := "Flashcard not found"
  const AnalyzePrefix: string := "Failed to analyze study session: "
  const SavePrefix: string := "Failed to save study session: "

  datatype AnalyzeResponse = AnalyzeResponse(studySession: SessionRow, aiAnalysis: Option<AnalysisView>)

  /** `!flashcardId || !sessionData`. */
  predicate MissingInput(flashcardId: string, sessionData: Json) {
    flashcardId == "" || !Truthy(sessionData)
  }

  /** Statement 0 of a transaction: the StudySession insert. */
  function CreateStep(flashcardId: string, sessionData: Json, aiResponse: Option<Json>, fault: Option<Fault>)
    : (r: Result<SessionRow>)
    requires !Nullish(sessionData)
    requires aiResponse.Some? ==> !Nullish(aiResponse.value)
  {
    var row :- SessionRowFor(flashcardId, sessionData, aiResponse);
    if FailsAt(fault, 0) then Err(fault.value.message) else Ok(row)
  }

  /** What the analyze transaction commits: the new session and the
      WordAnalytics table after the upserts; the flashcard update is the
      statement after the last upsert. */
  function AnalyzeTx(analytics: map<Key, AnalyticsRow>, flashcardId: string, sessionData: Json,
                     aiResponse: Option<Json>, fault: Option<Fault>)
    : (r: Result<(SessionRow, map<Key, AnalyticsRow>)>)
    requires !Nullish(sessionData)
    requires aiResponse.Some? ==> !Nullish(aiResponse.value)
    ensures r.Ok? <==>
      && SessionRowFor(flashcardId, sessionData, aiResponse).Ok?
      && UpsertAll(analytics, flashcardId, WordEntries(aiResponse), fault).Ok?
      && !(fault.Some? && fault.value.step <= 1 + |WordEntries(aiResponse)|)
    ensures r.Ok? ==> r.value.0.flashcardId == flashcardId && analytics.Keys <= r.value.1.Keys
  {
    var row :- CreateStep(flashcardId, sessionData, aiResponse, fault);
    var entries := WordEntries(aiResponse);
    var rows :- UpsertAll(analytics, flashcardId, entries, fault);
    if FailsAt(fault, 1 + |entries|) then Err(fault.value.message) else Ok((row, rows))
  }

  /** What the save transaction commits: the new session, with statement 1
      the flashcard update. */
  function SaveTx(flashcardId: string, sessionData: Json, fault: Option<Fault>): (r: Result<SessionRow>)
    requires !Nullish(sessionData)
    ensures r.Ok? <==> SessionRowFor(flashcardId, sessionData, None).Ok? && !(fault.Some? && fault.value.step <= 1)
    ensures r.Ok? ==> r.value.flashcardId == flashcardId && r.value.aiFeedback == None
  {
    var row :- CreateStep(flashcardId, sessionData, None, fault);
    if FailsAt(fault, 1) then Err(fault.value.message) else Ok(row)
  }

  /** Without an analysis, the analyze transaction is the save transaction
      and leaves WordAnalytics as it was. */
  lemma AnalyzeWithoutAnalysisIsSave(analytics: map<Key, AnalyticsRow>, flashcardId: string,
                                     sessionData: Json, fault: Option<Fault>)
    requires !Nullish(sessionData)
    ensures var save := SaveTx(flashcardId, sessionData, fault);
      AnalyzeTx(analytics, flashcardId, sessionData, None, fault)
        == if save.Ok? then Ok((save.value, analytics)) else Err(save.message)
  {
  }

  /** The upsert loop of the analyze transaction, on a staged copy of the
      table: each entry either fails the run or updates its row in place. */
  method StageUpserts(rows: map<Key, AnalyticsRow>, flashcardId: string, entries: seq<Json>, fault: Option<Fault>)
    returns (r: Result<map<Key, AnalyticsRow>>)
    ensures r == UpsertAll(rows, flashcardId, entries, fault)
  {
    var staged := rows;
    var i := 0;
    while i < |entries|
      invariant 0 <= i <= |entries|
      invariant UpsertAll(rows, flashcardId, entries[..i], fault) == Ok(staged)
    {
      UpsertAllExtend(rows, flashcardId, entries, i, fault);
      var step := UpsertStep(staged, flashcardId, entries[i], i + 1, fault);
      if step.Err? {
        UpsertAllFailsEarly(rows, flashcardId, entries, i + 1, fault);
        return step;
      }
      staged := step.value;
      i := i + 1;
    }
    assert entries[..i] == entries;
    r := Ok(staged);
  }

  /** The webhook step of `AnalyzeStudySession.execute`: the gate, the POST
      of the built payload, and the normalisation of its reply. The payload
      is sent exactly when the gate is open, and the outcome is the one
      `AiOutcome` describes. */
  method CallWebhook(flashcardId: string, flashcard: FlashcardRow, language: LanguageRow, sessionData: Json,
                     webhookUrl: Option<string>, reply: Reply, timestamp: string)
    returns (ai: Result<Option<Json>>, sent: Option<WebhookPayload>)
    requires !Nullish(sessionData)
    ensures ai == AiOutcome(webhookUrl, sessionData, reply)
    ensures sent.Some? <==> WebhookGate(webhookUrl, UnknownWordsOf(sessionData)) == Ok(true)
    ensures sent.Some? ==> sent.value == BuildPayload(flashcardId, flashcard, language, sessionData, timestamp)
  {
    var gate := WebhookGate(webhookUrl, UnknownWordsOf(sessionData));
    if gate.Err? {
      return Err(gate.message), None;
    }
    if !gate.value {
      return Ok(None), None;
    }
    sent := Some(BuildPayload(flashcardId, flashcard, language, sessionData, timestamp));
    match reply {
      case NonOk(_) =>
        ai := Ok(None);
      case Threw(message) =>
        ai := Err(message);
      case Replied(body) =>
        ai := Normalise(body);
    }
  }

  class Store {
    var flashcards: map<string, FlashcardRow>
    var languages: map<int, LanguageRow>
    var sessions: seq<SessionRow>
    var analytics: map<Key, AnalyticsRow>

    /** Every flashcard's language exists (the schema's required relation). */
    ghost predicate Valid()
      reads this
    {
      forall id :: id in flashcards ==> flashcards[id].languageId in languages
    }

    constructor (flashcards: map<string, FlashcardRow>, languages: map<int, LanguageRow>,
                 sessions: seq<SessionRow>, analytics: map<Key, AnalyticsRow>)
      requires forall id :: id in flashcards ==> flashcards[id].languageId in languages
      ensures Valid()
      ensures this.flashcards == flashcards && this.languages == languages
      ensures this.sessions == sessions && this.analytics == analytics
    {
      this.flashcards := flashcards;
      this.languages := languages;
      this.sessions := sessions;
      this.analytics := analytics;
    }

    /** The analyze transaction: the upserts run on a staged copy of the
        table, and nothing is written back unless every statement succeeds. */
    method RunAnalyzeTransaction(flashcardId: string, sessionData: Json, aiResponse: Option<Json>,
                                 now: Timestamp, fault: Option<Fault>) returns (r: Result<SessionRow>)
      requires Valid() && flashcardId in flashcards
      requires !Nullish(sessionData)
      requires aiResponse.Some? ==> !Nullish(aiResponse.value)
      modifies this
      ensures Valid() && languages == old(languages)
      ensures var tx := AnalyzeTx(old(analytics), flashcardId, sessionData, aiResponse, fault);
        && (tx.Err? ==> r == Err(tx.message)
                        && flashcards == old(flashcards) && sessions == old(sessions) && analytics == old(analytics))
        && (tx.Ok? ==> r == Ok(tx.value.0)
                        && sessions == old(sessions) + [tx.value.0]
                        && analytics == tx.value.1
                        && flashcards == old(flashcards)[flashcardId := old(flashcards)[flashcardId].(lastStudiedAt := Some(now))])
    {
      var created := CreateStep(flashcardId, sessionData, aiResponse, fault);
      if created.Err? {
        return Err(created.message);
      }
      var entries := WordEntries(aiResponse);
      var staged := StageUpserts(analytics, flashcardId, entries, fault);
      if staged.Err? {
        return Err(staged.message);
      }
      if FailsAt(fault, 1 + |entries|) {
        return Err(fault.value.message);
      }
      sessions := sessions + [created.value];
      analytics := staged.value;
      flashcards := flashcards[flashcardId := flashcards[flashcardId].(lastStudiedAt := Some(now))];
      r := Ok(created.value);
    }

    /** `AnalyzeStudySession.execute`. Input and existence errors come before
        anything else and carry no prefix; everything after them is inside
        one `try`, so a webhook rejection, a property read on null or a
        failed transaction becomes "Failed to analyze study session: ..."
        with the store unchanged. `sent` is the payload posted to the
        webhook, if it was called; `reply` is what that call came to. */
    method AnalyzeStudySession(flashcardId: string, sessionData: Json, webhookUrl: Option<string>,
                               reply: Reply, timestamp: string, now: Timestamp, fault: Option<Fault>)
      returns (r: Result<AnalyzeResponse>, sent: Option<WebhookPayload>)
      requires Valid()
      modifies this
      ensures Valid() && languages == old(languages)
      ensures r.Err? ==> flashcards == old(flashcards) && sessions == old(sessions) && analytics == old(analytics)
      ensures MissingInput(flashcardId, sessionData) ==> r == Err(RequiredMessage) && sent == None
      ensures !MissingInput(flashcardId, sessionData) && flashcardId !in old(flashcards) ==>
        r == Err(NotFoundMessage) && sent == None
      ensures !MissingInput(flashcardId, sessionData) && flashcardId in old(flashcards) ==>
        var flashcard := old(flashcards)[flashcardId];
        var ai := AiOutcome(webhookUrl, sessionData, reply);
        && (sent.Some? <==> WebhookGate(webhookUrl, UnknownWordsOf(sessionData)) == Ok(true))
        && (sent.Some? ==> sent.value == BuildPayload(flashcardId, flashcard, languages[flashcard.languageId], sessionData, timestamp))
        && (ai.Err? ==> r == Err(AnalyzePrefix + ai.message))
        && (ai.Ok? ==>
              var tx := AnalyzeTx(old(analytics), flashcardId, sessionData, ai.value, fault);
              && (tx.Err? ==> r == Err(AnalyzePrefix + tx.message))
              && (tx.Ok? ==> r == Ok(AnalyzeResponse(tx.value.0, Shape(ai.value)))
                             && sessions == old(sessions) + [tx.value.0]
                             && analytics == tx.value.1
                             && flashcards == old(flashcards)[flashcardId := flashcard.(lastStudiedAt := Some(now))]))
    {
      sent := None;
      if flashcardId == "" || !Truthy(sessionData) {
        return Err(RequiredMessage), None;
      }
      if flashcardId !in flashcards {
        return Err(NotFoundMessage), None;
      }
      var flashcard := flashcards[flashcardId];
      var language := languages[flashcard.languageId];

      var ai;
      ai, sent := CallWebhook(flashcardId, flashcard, language, sessionData, webhookUrl, reply, timestamp);
      if ai.Err? {
        return Err(AnalyzePrefix + ai.message), sent;
      }
      var aiResponse := ai.value;
      var result := RunAnalyzeTransaction(flashcardId, sessionData, aiResponse, now, fault);
      if result.Err? {
        return Err(AnalyzePrefix + result.message), sent;
      }
      r := Ok(AnalyzeResponse(result.value, Shape(aiResponse)));
    }

    /** `SaveStudySession.execute`: the same checks, then one transaction
        inserting a session without feedback and updating `lastStudiedAt`.
        `unknownWords` is ignored and WordAnalytics is never touched. */
    method SaveStudySession(flashcardId: string, sessionData: Json, now: Timestamp, fault: Option<Fault>)
      returns (r: Result<SessionRow>)
      requires Valid()
      modifies this
      ensures Valid() && languages == old(languages) && analytics == old(analytics)
      ensures r.Err? ==> flashcards == old(flashcards) && sessions == old(sessions)
      ensures MissingInput(flashcardId, sessionData) ==> r == Err(RequiredMessage)
      ensures !MissingInput(flashcardId, sessionData) && flashcardId !in old(flashcards) ==> r == Err(NotFoundMessage)
      ensures !MissingInput(flashcardId, sessionData) && flashcardId in old(flashcards) ==>
        var tx := SaveTx(flashcardId, sessionData, fault);
        && (tx.Err? ==> r == Err(SavePrefix + tx.message))
        && (tx.Ok? ==> r == tx && tx.value.aiFeedback == None
                       && sessions == old(sessions) + [tx.value]
                       && flashcards == old(flashcards)[flashcardId := old(flashcards)[flashcardId].(lastStudiedAt := Some(now))])
    {
      if flashcardId == "" || !Truthy(sessionData) {
        return Err(RequiredMessage);
      }
      if flashcardId !in flashcards {
        return Err(NotFoundMessage);
      }
      var created := SessionRowFor(flashcardId, sessionData, None);
      if created.Err? {
        return Err(SavePrefix + created.message);
      }
      if FailsAt(fault, 0) {
        return Err(SavePrefix + fault.value.message);
      }
      if FailsAt(fault, 1) {
        return Err(SavePrefix + fault.value.message);
      }
      sessions := sessions + [created.value];
      flashcards := flashcards[flashcardId := flashcards[flashcardId].(lastStudiedAt := Some(now))];
      r := Ok(created.value);
    }
  }
}
