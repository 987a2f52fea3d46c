/** The form state of the create and edit screens, which share the same
    word-pair list editing, validation and request mapping; they differ only
    in how the form is first filled and where the request goes. */
module FlashcardForm {
  import opened Common
  import opened Json
  import opened JsString
  import opened Dto
  import FlashcardValidation

  const TitleAlert: string := "Başlık alanı zorunludur."
  const LanguageAlert: string := "Lütfen önce bir dil seçin."
  const WordsAlert: string := "Tüm kelime çiftlerini doldurmalısınız."

  const EmptyPair: WordPair := WordPair("", "")

  datatype Side = Front | Back

  /** The flashcard the edit screen loads: description and notes may be
      missing. */
  datatype LoadedFlashcard = LoadedFlashcard(title: string, description: Option<string>, notes: Option<string>,
                                             words: seq<WordPair>)

  /** The body of the create and update requests. A missing description or
      notes is `undefined`, which `JSON.stringify` leaves out. */
  datatype FlashcardInput = FlashcardInput(title: string, description: Option<string>, notes: Option<string>,
                                           words: seq<WordPair>, languageId: int)

  /** `words.filter((_, i) => i !== index)`. */
  function Without(words: seq<WordPair>, index: int): seq<WordPair>
    decreases |words|
  {
    if words == [] then []
    else
      var n := |words| - 1;
      Without(words[..n], index) + (if n == index then [] else [words[n]])
  }

  /** The filter removes exactly the pair at `index` and keeps the rest in
      order; an index outside the list removes nothing. */
  lemma {:induction false} WithoutRemovesOne(words: seq<WordPair>, index: int)
    ensures 0 <= index < |words| ==> Without(words, index) == words[..index] + words[index + 1..]
    ensures !(0 <= index < |words|) ==> Without(words, index) == words
    decreases |words|
  {
    if words != [] {
      var n := |words| - 1;
      WithoutRemovesOne(words[..n], index);
      if index == n {
        assert words[index + 1..] == [];
      } else if 0 <= index < n {
        assert words[..n][..index] == words[..index];
        assert words[..index] + words[index + 1..] == words[..index] + words[..n][index + 1..] + [words[n]];
      } else {
        assert words[..n] + [words[n]] == words;
      }
    }
  }

  /** The negation of `!word.front.trim() || !word.back.trim()`. */
  predicate PairFilled(p: WordPair)
    ensures PairFilled(p) <==> !AllSpace(p.front) && !AllSpace(p.back)
  {
    TrimEmptyIff(p.front);
    TrimEmptyIff(p.back);
    Trim(p.front) != "" && Trim(p.back) != ""
  }

  /** `validateForm`: the alert of the first failing check, in the order
      title, language, pairs; `None` when the form may be sent. */
  function FormAlert(title: string, words: seq<WordPair>, selectedLanguage: Option<int>): (r: Option<string>)
    ensures r.None? <==>
      && !AllSpace(title)
      && selectedLanguage.Some?
      && forall i :: 0 <= i < |words| ==> !AllSpace(words[i].front) && !AllSpace(words[i].back)
    ensures AllSpace(title) ==> r == Some(TitleAlert)
    ensures !AllSpace(title) && selectedLanguage.None? ==> r == Some(LanguageAlert)
    ensures !AllSpace(title) && selectedLanguage.Some?
            && (exists i :: 0 <= i < |words| && (AllSpace(words[i].front) || AllSpace(words[i].back)))
            ==> r == Some(WordsAlert)
  {
    TrimEmptyIff(title);
    if Trim(title) == "" then Some(TitleAlert)
    else if selectedLanguage.None? then Some(LanguageAlert)
    else if exists i :: 0 <= i < |words| && !PairFilled(words[i]) then Some(WordsAlert)
    else None
  }

  /** `description.trim() || undefined`. */
  function Optional(s: string): Option<string> {
    var t := Trim(s);
    if t == "" then None else Some(t)
  }

  function TrimPairs(words: seq<WordPair>): seq<WordPair> {
    seq(|words|, i requires 0 <= i < |words| => WordPair(Trim(words[i].front), Trim(words[i].back)))
  }

  /** The object `handleSubmit` passes to the service. */
  function Payload(title: string, description: string, notes: string, words: seq<WordPair>, languageId: int)
    : FlashcardInput
  {
    FlashcardInput(Trim(title), Optional(description), Optional(notes), TrimPairs(words), languageId)
  }

  /** The request body the backend receives for a payload. */
  function InputJson(p: FlashcardInput): Json {
    var required := map[
      "title" := Str(p.title),
      "words" := Arr(seq(|p.words|, i requires 0 <= i < |p.words| => PairJson(p.words[i]))),
      "languageId" := Num(p.languageId as real)];
    var withDescription := if p.description.Some? then required["description" := Str(p.description.value)] else required;
    Obj(if p.notes.Some? then withDescription["notes" := Str(p.notes.value)] else withDescription)
  }

  /** A blank field is left out; anything else is sent trimmed. */
  lemma {:induction false} OptionalTrimmed(s: string)
    ensures Optional(s).None? <==> AllSpace(s)
    ensures Optional(s).Some? ==> Trim(Optional(s).value) == Optional(s).value
  {
    TrimEmptyIff(s);
    TrimIdempotent(s);
  }

  /** One pair per pair of the form, in order, each side trimmed. */
  lemma {:induction false} TrimPairsTrimmed(words: seq<WordPair>)
    ensures |TrimPairs(words)| == |words|
    ensures forall i :: 0 <= i < |words| ==>
      && TrimPairs(words)[i] == WordPair(Trim(words[i].front), Trim(words[i].back))
      && Trim(TrimPairs(words)[i].front) == TrimPairs(words)[i].front
      && Trim(TrimPairs(words)[i].back) == TrimPairs(words)[i].back
  {
    forall i | 0 <= i < |words|
      ensures Trim(Trim(words[i].front)) == Trim(words[i].front) && Trim(Trim(words[i].back)) == Trim(words[i].back)
    {
      TrimIdempotent(words[i].front);
      TrimIdempotent(words[i].back);
    }
  }

  /** Every string in a payload is already trimmed, one pair is sent per
      pair in the form and in the same order, and a description or notes
      is left out exactly when it is blank. */
  lemma {:induction false} PayloadTrimmed(title: string, description: string, notes: string, words: seq<WordPair>,
                                          languageId: int)
    ensures var p := Payload(title, description, notes, words, languageId);
      && Trim(p.title) == p.title
      && p.words == TrimPairs(words)
      && p.languageId == languageId
      && (p.description.None? <==> AllSpace(description))
      && (p.notes.None? <==> AllSpace(notes))
      && (p.description.Some? ==> Trim(p.description.value) == p.description.value)
      && (p.notes.Some? ==> Trim(p.notes.value) == p.notes.value)
  {
    TrimIdempotent(title);
    OptionalTrimmed(description);
    OptionalTrimmed(notes);
  }

  /** A request with a non-blank title, a non-zero language id and at
      least one pair, none of whose sides is empty, passes the create
      checks. */
  lemma {:induction false} InputJsonAccepted(p: FlashcardInput)
    requires !AllSpace(p.title) && p.languageId != 0 && |p.words| > 0
    requires forall i :: 0 <= i < |p.words| ==> p.words[i].front != "" && p.words[i].back != ""
    ensures FlashcardValidation.ValidateCreate(InputJson(p)) == Ok(InputJson(p))
  {
    var items := seq(|p.words|, i requires 0 <= i < |p.words| => PairJson(p.words[i]));
    InputJsonFields(p, items);
    forall i | 0 <= i < |items|
      ensures FlashcardValidation.PairComplete(items[i])
    {
      assert items[i] == PairJson(p.words[i]);
    }
    assert FlashcardValidation.WordsAcceptable(Get(InputJson(p), "words"));
  }

  /** The request's required fields read back as the form's values. */
  lemma InputJsonFields(p: FlashcardInput, items: seq<Json>)
    requires items == seq(|p.words|, i requires 0 <= i < |p.words| => PairJson(p.words[i]))
    ensures !Nullish(InputJson(p))
    ensures Get(InputJson(p), "title") == Str(p.title)
    ensures Get(InputJson(p), "languageId") == Num(p.languageId as real)
    ensures Get(InputJson(p), "words") == Arr(items)
  {
  }

  /** The request built from a form that passes its own checks has a
      non-blank title and no empty pair side. */
  lemma {:induction false} PayloadFilled(title: string, description: string, notes: string,
                                         words: seq<WordPair>, languageId: int)
    requires FormAlert(title, words, Some(languageId)) == None
    ensures var p := Payload(title, description, notes, words, languageId);
      && !AllSpace(p.title) && |p.words| == |words|
      && forall i :: 0 <= i < |p.words| ==> p.words[i].front != "" && p.words[i].back != ""
  {
    var p := Payload(title, description, notes, words, languageId);
    TrimmedNotBlank(title);
    forall i | 0 <= i < |p.words|
      ensures p.words[i].front != "" && p.words[i].back != ""
    {
      assert PairFilled(words[i]);
    }
  }

  /** Trimming a string that is not blank leaves a string that is not blank. */
  lemma TrimmedNotBlank(s: string)
    requires !AllSpace(s)
    ensures Trim(s) != "" && !AllSpace(Trim(s))
  {
    TrimEmptyIff(s);
    TrimIdempotent(s);
    TrimEmptyIff(Trim(s));
  }

  /** A form that passes its own checks, with a language whose id is not
      zero, produces a request both the create and the update use case
      accept. */
  lemma {:induction false} SubmittedFormIsAccepted(title: string, description: string, notes: string,
                                                   words: seq<WordPair>, languageId: int, id: string)
    requires FormAlert(title, words, Some(languageId)) == None
    requires words != [] && languageId != 0
    ensures var body := InputJson(Payload(title, description, notes, words, languageId));
      && FlashcardValidation.ValidateCreate(body) == Ok(body)
      && FlashcardValidation.ValidateUpdate(id, body) == Ok((id, body))
  {
    var p := Payload(title, description, notes, words, languageId);
    PayloadFilled(title, description, notes, words, languageId);
    InputJsonAccepted(p);
    FlashcardValidation.UpdateAcceptsMore(id, InputJson(p));
  }

  /** The form of the create and edit screens. */
  class Form {
    var title: string
    var description: string
    var notes: string
    var words: seq<WordPair>

    /** The list is never empty: it starts with a pair and removal refuses
        to take the last one. */
    ghost predicate Valid()
      reads this
    {
      |words| >= 1
    }

    /** The create screen's initial state: blank fields and one empty pair. */
    constructor Blank()
      ensures Valid()
      ensures title == "" && description == "" && notes == "" && words == [EmptyPair]
    {
      title := "";
      description := "";
      notes := "";
      words := [EmptyPair];
    }

    /** The edit screen after `loadFlashcard`: a missing description or
        notes becomes `''` and an empty list becomes one empty pair. */
    constructor Loaded(card: LoadedFlashcard)
      ensures Valid()
      ensures title == card.title
      ensures description == (if card.description.Some? then card.description.value else "")
      ensures notes == (if card.notes.Some? then card.notes.value else "")
      ensures words == (if |card.words| > 0 then card.words else [EmptyPair])
    {
      title := card.title;
      description := if card.description.Some? then card.description.value else "";
      notes := if card.notes.Some? then card.notes.value else "";
      words := if |card.words| > 0 then card.words else [EmptyPair];
    }

    /** `addWordPair`: one empty pair at the end, nothing else changes. */
    method AddWordPair()
      requires Valid()
      modifies this
      ensures Valid()
      ensures words == old(words) + [EmptyPair]
      ensures title == old(title) && description == old(description) && notes == old(notes)
    {
      words := words + [EmptyPair];
    }

    /** `removeWordPair`: refused (with an alert) when one pair is left;
        otherwise the pair at `index` goes and the others keep their order. */
    method RemoveWordPair(index: int) returns (refused: bool)
      requires Valid()
      modifies this
      ensures Valid()
      ensures refused <==> |old(words)| == 1
      ensures refused ==> words == old(words)
      ensures !refused && 0 <= index < |old(words)| ==> words == old(words)[..index] + old(words)[index + 1..]
      ensures !refused && !(0 <= index < |old(words)|) ==> words == old(words)
      ensures title == old(title) && description == old(description) && notes == old(notes)
    {
      if |words| == 1 {
        return true;
      }
      WithoutRemovesOne(words, index);
      words := Without(words, index);
      refused := false;
    }

    /** `updateWordPair(index, field, value)`: only that side of that pair. */
    method UpdateWordPair(index: nat, field: Side, value: string)
      requires Valid() && index < |words|
      modifies this
      ensures Valid()
      ensures |words| == |old(words)|
      ensures forall i :: 0 <= i < |words| && i != index ==> words[i] == old(words)[i]
      ensures field == Front ==> words[index] == old(words)[index].(front := value)
      ensures field == Back ==> words[index] == old(words)[index].(back := value)
      ensures title == old(title) && description == old(description) && notes == old(notes)
    {
      var pair := words[index];
      words := words[index := if field == Front then pair.(front := value) else pair.(back := value)];
    }

    /** `handleSubmit`: an alert, or the request built from the trimmed
        fields and the selected language's id. */
    method Submit(selectedLanguage: Option<int>) returns (alert: Option<string>, request: Option<FlashcardInput>)
      ensures alert == FormAlert(title, words, selectedLanguage)
      ensures request.Some? <==> alert.None?
      ensures request.Some? ==> selectedLanguage.Some?
                                && request.value == Payload(title, description, notes, words, selectedLanguage.value)
    {
      alert := FormAlert(title, words, selectedLanguage);
      if alert.Some? {
        return alert, None;
      }
      request := Some(Payload(title, description, notes, words, selectedLanguage.value));
    }
  }
}
