/** The WordAnalytics upsert the analyze use case runs for each entry of an
    analysis's `wordAnalysis` array, and what a whole run of them does to
    the table. */
module WordAnalytics {
  import opened Common
  import opened Json
  import opened Records

  /** One `wordAnalysis` entry once the ORM has accepted it: mnemonic and
      difficulty are `None` when the entry's value is falsy. */
  datatype WordData = WordData(wordKey: string, aiMnemonic: Option<string>, difficultyLevel: Option<real>)

  /** Reading an entry: a null entry throws a TypeError; a key that is not
      a string, a truthy mnemonic that is not a string or a truthy
      difficulty that is not a number is rejected by the ORM. */
  function ParseEntry(entry: Json): (r: Result<WordData>)
    ensures r.Ok? <==>
      && !Nullish(entry)
      && Get(entry, "wordKey").Str?
      && StoredText(Get(entry, "aiMnemonic"), "aiMnemonic").Ok?
      && StoredFloat(Get(entry, "difficultyLevel"), "difficultyLevel").Ok?
    ensures r.Ok? ==> r.value.wordKey == Get(entry, "wordKey").s
  {
    var key :- Read(entry, "wordKey");
    if !key.Str? then Err(Rejected("wordKey"))
    else
      var mnemonic :- StoredText(Get(entry, "aiMnemonic"), "aiMnemonic");
      var difficulty :- StoredFloat(Get(entry, "difficultyLevel"), "difficultyLevel");
      Ok(WordData(key.s, mnemonic, difficulty))
  }

  /** One upsert on `(flashcardId, wordKey)`: a new row starts with one wrong
      answer and no correct one; an existing row gets one more wrong answer
      and takes the mnemonic and difficulty only where the entry has them. */
  function Upsert(rows: map<Key, AnalyticsRow>, flashcardId: string, w: WordData): (r: map<Key, AnalyticsRow>)
    ensures var key := (flashcardId, w.wordKey);
      && r.Keys == rows.Keys + {key}
      && r[key].wrongCount == WrongCount(rows, key) + 1
      && r[key].correctCount == CorrectCount(rows, key)
      && (key !in rows ==> r[key] == AnalyticsRow(0, 1, w.aiMnemonic, w.difficultyLevel))
      && (key in rows ==> r[key].aiMnemonic == (if w.aiMnemonic.Some? then w.aiMnemonic else rows[key].aiMnemonic))
      && (key in rows ==> r[key].difficultyLevel == (if w.difficultyLevel.Some? then w.difficultyLevel else rows[key].difficultyLevel))
      && forall k :: k in rows && k != key ==> r[k] == rows[k]
  {
    var key := (flashcardId, w.wordKey);
    if key in rows then
      var row := rows[key];
      rows[key := row.(
        wrongCount := row.wrongCount + 1,
        aiMnemonic := if w.aiMnemonic.Some? then w.aiMnemonic else row.aiMnemonic,
        difficultyLevel := if w.difficultyLevel.Some? then w.difficultyLevel else row.difficultyLevel)]
    else
      rows[key := AnalyticsRow(0, 1, w.aiMnemonic, w.difficultyLevel)]
  }

  /** The upserts for `entries`, in order, as statements 1.. of the
      transaction: the first entry that cannot be read or whose statement
      hits the injected fault fails the whole run. */
  function UpsertAll(rows: map<Key, AnalyticsRow>, flashcardId: string, entries: seq<Json>, fault: Option<Fault>)
    : (r: Result<map<Key, AnalyticsRow>>)
    decreases |entries|
    ensures r.Ok? ==> rows.Keys <= r.value.Keys
    ensures r.Ok? ==> !(fault.Some? && 1 <= fault.value.step <= |entries|)
  {
    if entries == [] then Ok(rows)
    else
      var n := |entries| - 1;
      var staged :- UpsertAll(rows, flashcardId, entries[..n], fault);
      UpsertStep(staged, flashcardId, entries[n], n + 1, fault)
  }

  /** Statement `step` of the transaction: the upsert for one entry, which
      fails if the entry cannot be read or the statement hits the fault. */
  function UpsertStep(rows: map<Key, AnalyticsRow>, flashcardId: string, entry: Json, step: nat, fault: Option<Fault>)
    : Result<map<Key, AnalyticsRow>>
  {
    var w :- ParseEntry(entry);
    if FailsAt(fault, step) then Err(fault.value.message) else Ok(Upsert(rows, flashcardId, w))
  }

  function WrongCount(rows: map<Key, AnalyticsRow>, key: Key): nat {
    if key in rows then rows[key].wrongCount else 0
  }

  function CorrectCount(rows: map<Key, AnalyticsRow>, key: Key): nat {
    if key in rows then rows[key].correctCount else 0
  }

  /** The number of entries naming `wordKey`. */
  function Occurrences(entries: seq<Json>, wordKey: string): nat
    decreases |entries|
  {
    if entries == [] then 0
    else
      var n := |entries| - 1;
      var e := entries[n];
      Occurrences(entries[..n], wordKey) + (if !Nullish(e) && Get(e, "wordKey") == Str(wordKey) then 1 else 0)
  }

  /** Extending a successful prefix by one entry runs one more step. */
  lemma UpsertAllExtend(rows: map<Key, AnalyticsRow>, flashcardId: string,
                        entries: seq<Json>, i: nat, fault: Option<Fault>)
    requires i < |entries|
    requires UpsertAll(rows, flashcardId, entries[..i], fault).Ok?
    ensures UpsertAll(rows, flashcardId, entries[..i + 1], fault)
         == UpsertStep(UpsertAll(rows, flashcardId, entries[..i], fault).value, flashcardId, entries[i], i + 1, fault)
  {
    assert entries[..i + 1][..i] == entries[..i];
  }

  /** A run of upserts succeeds exactly when every entry can be read and
      the injected fault misses all of its statements. */
  lemma {:induction false} UpsertAllOkIff(rows: map<Key, AnalyticsRow>, flashcardId: string,
                                          entries: seq<Json>, fault: Option<Fault>)
    ensures UpsertAll(rows, flashcardId, entries, fault).Ok? <==>
      && (forall i :: 0 <= i < |entries| ==> ParseEntry(entries[i]).Ok?)
      && !(fault.Some? && 1 <= fault.value.step <= |entries|)
    decreases |entries|
  {
    if entries != [] {
      var n := |entries| - 1;
      var prefix := entries[..n];
      UpsertAllOkIff(rows, flashcardId, prefix, fault);
      UpsertAllLastStep(rows, flashcardId, entries, fault);
      ReadableSnoc(entries);
    }
  }

  /** Every entry can be read exactly when every entry but the last can and the last can. */
  lemma ReadableSnoc(entries: seq<Json>)
    requires entries != []
    ensures var n := |entries| - 1;
      (forall i :: 0 <= i < |entries| ==> ParseEntry(entries[i]).Ok?) <==>
      (forall i :: 0 <= i < n ==> ParseEntry(entries[..n][i]).Ok?) && ParseEntry(entries[n]).Ok?
  {
    var n := |entries| - 1;
    assert forall i :: 0 <= i < n ==> entries[..n][i] == entries[i];
  }

  /** The run over a non-empty list succeeds exactly when the run over all but
      the last entry does and the last upsert can be made. */
  lemma UpsertAllLastStep(rows: map<Key, AnalyticsRow>, flashcardId: string,
                          entries: seq<Json>, fault: Option<Fault>)
    requires entries != []
    ensures var n := |entries| - 1;
      UpsertAll(rows, flashcardId, entries, fault).Ok? <==>
      && UpsertAll(rows, flashcardId, entries[..n], fault).Ok?
      && ParseEntry(entries[n]).Ok?
      && !FailsAt(fault, n + 1)
  {
  }

  /** A failure in a prefix of the entries is the failure of the whole run. */
  lemma {:induction false} UpsertAllFailsEarly(rows: map<Key, AnalyticsRow>, flashcardId: string,
                                               entries: seq<Json>, i: nat, fault: Option<Fault>)
    requires i <= |entries|
    requires UpsertAll(rows, flashcardId, entries[..i], fault).Err?
    ensures UpsertAll(rows, flashcardId, entries, fault) == UpsertAll(rows, flashcardId, entries[..i], fault)
    decreases |entries| - i
  {
    if i < |entries| {
      var prefix := entries[..|entries| - 1];
      assert prefix[..i] == entries[..i];
      UpsertAllFailsEarly(rows, flashcardId, prefix, i, fault);
      assert UpsertAll(rows, flashcardId, prefix, fault).Err?;
    } else {
      assert entries[..i] == entries;
    }
  }

  /** After a successful run, each key of the flashcard has one more wrong
      answer per entry naming it (a key repeated in one analysis counts once
      per occurrence), and a row exists exactly when it did before or some
      entry names it. */
  lemma {:induction false} UpsertAllWrongCount(rows: map<Key, AnalyticsRow>, flashcardId: string,
                                               entries: seq<Json>, fault: Option<Fault>, wordKey: string)
    requires UpsertAll(rows, flashcardId, entries, fault).Ok?
    ensures var after := UpsertAll(rows, flashcardId, entries, fault).value;
      && WrongCount(after, (flashcardId, wordKey)) == WrongCount(rows, (flashcardId, wordKey)) + Occurrences(entries, wordKey)
      && ((flashcardId, wordKey) in after <==> (flashcardId, wordKey) in rows || Occurrences(entries, wordKey) > 0)
    decreases |entries|
  {
    if entries != [] {
      var n := |entries| - 1;
      UpsertAllWrongCount(rows, flashcardId, entries[..n], fault, wordKey);
    }
  }

  /** A successful run never changes a correct count (a new row starts at
      zero) and never touches another flashcard's rows. */
  lemma {:induction false} UpsertAllFrame(rows: map<Key, AnalyticsRow>, flashcardId: string,
                                          entries: seq<Json>, fault: Option<Fault>)
    requires UpsertAll(rows, flashcardId, entries, fault).Ok?
    ensures var after := UpsertAll(rows, flashcardId, entries, fault).value;
      && (forall key :: key in after ==> after[key].correctCount == CorrectCount(rows, key))
      && (forall key :: key in after && key.0 != flashcardId ==> key in rows && after[key] == rows[key])
      && (forall key :: key in rows && key.0 == flashcardId && Occurrences(entries, key.1) == 0 ==> after[key] == rows[key])
    decreases |entries|
  {
    if entries != [] {
      var prefix := entries[..|entries| - 1];
      UpsertAllFrame(rows, flashcardId, prefix, fault);
    }
  }

  /** On an existing row, a truthy difficulty or mnemonic replaces the
      stored one, and a falsy one (0, `''` or missing) leaves it as it was. */
  lemma UpdateTakesOnlyTruthyFields(rows: map<Key, AnalyticsRow>, flashcardId: string, entry: Json)
    requires ParseEntry(entry).Ok?
    requires (flashcardId, ParseEntry(entry).value.wordKey) in rows
    ensures var key := (flashcardId, ParseEntry(entry).value.wordKey);
      var after := Upsert(rows, flashcardId, ParseEntry(entry).value);
      && (!Truthy(Get(entry, "difficultyLevel")) ==> after[key].difficultyLevel == rows[key].difficultyLevel)
      && (!Truthy(Get(entry, "aiMnemonic")) ==> after[key].aiMnemonic == rows[key].aiMnemonic)
      && (Truthy(Get(entry, "difficultyLevel")) ==> after[key].difficultyLevel == Some(Get(entry, "difficultyLevel").n))
      && (Truthy(Get(entry, "aiMnemonic")) ==> after[key].aiMnemonic == Some(Get(entry, "aiMnemonic").s))
  {
  }

  /** A word seen for the first time and then again: one row, two wrong
      answers, no correct one, and the second analysis's mnemonic and
      difficulty wherever it supplied them. */
  lemma UpsertSameWordTwice(rows: map<Key, AnalyticsRow>, flashcardId: string, first: WordData, second: WordData)
    requires (flashcardId, first.wordKey) !in rows && second.wordKey == first.wordKey
    ensures var after := Upsert(Upsert(rows, flashcardId, first), flashcardId, second);
      && after.Keys == rows.Keys + {(flashcardId, first.wordKey)}
      && after[(flashcardId, first.wordKey)] == AnalyticsRow(0, 2,
           if second.aiMnemonic.Some? then second.aiMnemonic else first.aiMnemonic,
           if second.difficultyLevel.Some? then second.difficultyLevel else first.difficultyLevel)
  {
  }
}
