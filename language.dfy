/** The Language entity and the GetLanguageByCode use case. */
module Languages {
  import opened Common
  import opened Json

  const Keys: set<string> := {"id", "code", "name"}

  datatype Language = Language(id: Json, code: Json, name: Json)

  /** `Language.fromPersistence(data)`: the three named fields, nothing else. */
  function FromPersistence(data: Json): Language
    requires !Nullish(data)
  {
    Language(Get(data, "id"), Get(data, "code"), Get(data, "name"))
  }

  /** `language.toJSON()`: an object with exactly the three fields. */
  function ToJson(l: Language): (r: Json)
    ensures r.Obj? && r.fields.Keys == Keys
  {
    Obj(map["id" := l.id, "code" := l.code, "name" := l.name])
  }

  /** Loading and serialising keeps `id`, `code` and `name` of the row and
      drops everything else. */
  lemma {:induction false} ToJsonFromPersistence(data: Json)
    requires !Nullish(data)
    ensures ToJson(FromPersistence(data)) == Pick(data, Keys)
  {
    var a := ToJson(FromPersistence(data)).fields;
    var b := Pick(data, Keys).fields;
    assert forall k :: k in Keys ==> a[k] == b[k];
    assert a == b;
  }

  /** Serialising and loading again gives the same language. */
  lemma FromPersistenceToJson(l: Language)
    ensures FromPersistence(ToJson(l)) == l
  {
  }

  /** The descriptive fields the client type declares are never produced. */
  lemma NoNativeNameOrFlag(data: Json)
    requires !Nullish(data)
    ensures "nativeName" !in ToJson(FromPersistence(data)).fields
    ensures "flag" !in ToJson(FromPersistence(data)).fields
  {
  }

  const CodeRequired: string := "Language code is required"
  const NotFound: string := "Language not found"
  const FetchFailed: string := "Failed to fetch language by code: "

  /** The use case's `{success, data}` or `{success, error}` object. */
  datatype Outcome = Success(data: Json) | Failure(error: string)

  /** `GetLanguageByCode.execute(code)` over the language table keyed by its
      unique code. `dbError` is the cause when the lookup itself throws;
      the repository wraps it and the use case returns it as an error, so
      the use case never throws. */
  function GetLanguageByCode(code: string, rows: map<string, map<string, Json>>, dbError: Option<string>)
    : (r: Outcome)
    ensures code == "" ==> r == Failure(CodeRequired)
    ensures code != "" && dbError.Some? ==> r == Failure(FetchFailed + dbError.value)
    ensures code != "" && dbError.None? && code !in rows ==> r == Failure(NotFound)
    ensures code != "" && dbError.None? && code in rows ==> r == Success(Pick(Obj(rows[code]), Keys))
  {
    if code == "" then Failure(CodeRequired)
    else if dbError.Some? then Failure(FetchFailed + dbError.value)
    else if code !in rows then Failure(NotFound)
    else
      ToJsonFromPersistence(Obj(rows[code]));
      Success(ToJson(FromPersistence(Obj(rows[code]))))
  }

  /** A found language is returned with exactly the three fields. */
  lemma FoundHasThreeFields(code: string, rows: map<string, map<string, Json>>)
    requires code in rows && code != ""
    ensures GetLanguageByCode(code, rows, None).Success?
    ensures GetLanguageByCode(code, rows, None).data.Obj?
    ensures GetLanguageByCode(code, rows, None).data.fields.Keys == Keys
  {
  }
}
