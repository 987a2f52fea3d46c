/** The validation chains of the CreateFlashcard and UpdateFlashcard use
    cases, over the request body. A body that passes is forwarded to the
    repository unchanged; what the repository does with it is not modelled. */
module FlashcardValidation {
  import opened Common
  import opened Json
  import opened JsString

  const TitleRequired: string := "Title is required"
  const TitleEmpty: string := "Title cannot be empty"
  const LanguageRequired: string := "Language ID is required"
  const WordsRequired: string := "At least one word pair is required"
  const PairIncomplete: string := "Each word must have front and back values"
  const TrimNotAFunction: string := "flashcardData.title.trim is not a function"

  /** A pair both sides of which are truthy. */
  predicate PairComplete(word: Json) {
    !Nullish(word) && Truthy(Get(word, "front")) && Truthy(Get(word, "back"))
  }

  /** `!word.front || !word.back` for one pair: reading a side of null or
      undefined throws. */
  function PairError(word: Json): (r: Option<string>)
    ensures r.None? <==> PairComplete(word)
  {
    if Nullish(word) then Some(ReadError(word, "front"))
    else if !Truthy(Get(word, "front")) || !Truthy(Get(word, "back")) then Some(PairIncomplete)
    else None
  }

  /** The `for ... of` loop over the pairs: the error of the first pair that
      has one. */
  function FirstPairError(words: seq<Json>): (r: Option<string>)
    decreases |words|
    ensures r.None? <==> forall i :: 0 <= i < |words| ==> PairComplete(words[i])
    ensures r.Some? ==> exists i :: 0 <= i < |words| && PairError(words[i]) == r
                                    && forall j :: 0 <= j < i ==> PairComplete(words[j])
  {
    if words == [] then None
    else if PairError(words[0]).Some? then PairError(words[0])
    else
      var r := FirstPairError(words[1..]);
      assert forall i :: 1 <= i < |words| ==> words[i] == words[1..][i - 1];
      r
  }

  /** `words` is a non-empty array every pair of which is complete. */
  predicate WordsAcceptable(words: Json) {
    words.Arr? && |words.items| > 0 && forall i :: 0 <= i < |words.items| ==> PairComplete(words.items[i])
  }

  /** The words checks shared by both use cases. */
  function WordsError(words: Json): (r: Option<string>)
    ensures r.None? <==> WordsAcceptable(words)
    ensures !words.Arr? || words.items == [] ==> r == Some(WordsRequired)
  {
    if !Truthy(words) || !IsArray(words) || |words.items| == 0 then Some(WordsRequired)
    else FirstPairError(words.items)
  }

  /** `!title || title.trim() === ''`, where `trim` exists only on strings. */
  function CreateTitleError(title: Json): (r: Option<string>)
    ensures r.None? <==> title.Str? && !AllSpace(title.s)
    ensures r == Some(TitleRequired) <==> !Truthy(title) || (title.Str? && AllSpace(title.s))
  {
    TrimEmptyIff(if title.Str? then title.s else "");
    if !Truthy(title) then Some(TitleRequired)
    else if !title.Str? then Some(TrimNotAFunction)
    else if Trim(title.s) == "" then Some(TitleRequired)
    else None
  }

  /** `title && title.trim() === ''`: only a truthy title is examined. */
  function UpdateTitleError(title: Json): (r: Option<string>)
    ensures r.None? <==> !Truthy(title) || (title.Str? && !AllSpace(title.s))
    ensures r == Some(TitleEmpty) <==> title.Str? && title.s != "" && AllSpace(title.s)
  {
    TrimEmptyIff(if title.Str? then title.s else "");
    if !Truthy(title) then None
    else if !title.Str? then Some(TrimNotAFunction)
    else if Trim(title.s) == "" then Some(TitleEmpty)
    else None
  }

  /** `CreateFlashcard.execute` up to the repository call: the checks run in
      the order title, language, words, pairs; the first failure is the
      result, and a body that passes them all is what `create` receives. */
  function ValidateCreate(body: Json): (r: Result<Json>)
    ensures r.Ok? ==> r.value == body
    ensures r.Ok? <==>
      && !Nullish(body)
      && Get(body, "title").Str? && !AllSpace(Get(body, "title").s)
      && Truthy(Get(body, "languageId"))
      && WordsAcceptable(Get(body, "words"))
    ensures Nullish(body) ==> r == Err(ReadError(body, "title"))
  {
    var title :- Read(body, "title");
    match CreateTitleError(title)
    case Some(e) => Err(e)
    case None =>
      if !Truthy(Get(body, "languageId")) then Err(LanguageRequired)
      else match WordsError(Get(body, "words"))
        case Some(e) => Err(e)
        case None => Ok(body)
  }

  /** `UpdateFlashcard.execute` up to the repository call: a falsy title is
      accepted, there is no language check, and the words are checked only
      when present and truthy. A body that passes is what `update(id, ...)`
      receives. */
  function ValidateUpdate(id: string, body: Json): (r: Result<(string, Json)>)
    ensures r.Ok? ==> r.value == (id, body)
    ensures r.Ok? <==>
      && !Nullish(body)
      && (!Truthy(Get(body, "title")) || (Get(body, "title").Str? && !AllSpace(Get(body, "title").s)))
      && (!Truthy(Get(body, "words")) || WordsAcceptable(Get(body, "words")))
    ensures Nullish(body) ==> r == Err(ReadError(body, "title"))
  {
    var title :- Read(body, "title");
    match UpdateTitleError(title)
    case Some(e) => Err(e)
    case None =>
      var words := Get(body, "words");
      if !Truthy(words) then Ok((id, body))
      else match WordsError(words)
        case Some(e) => Err(e)
        case None => Ok((id, body))
  }

  /** Each check reports its own message, and only when every earlier check
      passed. */
  lemma CreateCheckOrder(body: Json)
    requires !Nullish(body)
    ensures var title := Get(body, "title");
      && (!Truthy(title) || (title.Str? && AllSpace(title.s)) ==> ValidateCreate(body) == Err(TitleRequired))
      && (Truthy(title) && !title.Str? ==> ValidateCreate(body) == Err(TrimNotAFunction))
      && (title.Str? && !AllSpace(title.s) && !Truthy(Get(body, "languageId")) ==>
            ValidateCreate(body) == Err(LanguageRequired))
      && (title.Str? && !AllSpace(title.s) && Truthy(Get(body, "languageId")) && !Get(body, "words").Arr? ==>
            ValidateCreate(body) == Err(WordsRequired))
  {
  }

  /** Update accepts everything create accepts, and more: an empty title, a
      missing language and missing words all pass. */
  lemma UpdateAcceptsMore(id: string, body: Json)
    ensures ValidateCreate(body).Ok? ==> ValidateUpdate(id, body).Ok?
    ensures ValidateUpdate(id, Obj(map["title" := Str("")])).Ok?
    ensures ValidateCreate(Obj(map["title" := Str("")])) == Err(TitleRequired)
  {
    var empty := Obj(map["title" := Str("")]);
    assert Get(empty, "words") == Undefined;
    assert AllSpace("");
  }

  /** There is no trimming of pair sides: a pair of blanks is complete. */
  lemma BlankSidesAccepted()
    ensures PairComplete(Obj(map["front" := Str(" "), "back" := Str(" ")]))
  {
  }
}
