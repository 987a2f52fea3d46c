/** The Flashcard entity: the nine fields of a flashcard row, loaded from
    and serialised back to plain objects. */
module FlashcardEntity {
  import opened Json

  const Keys: set<string> :=
    {"id", "title", "description", "notes", "words", "languageId", "lastStudiedAt", "createdAt", "updatedAt"}

  datatype Flashcard = Flashcard(
    id: Json,
    title: Json,
    description: Json,
    notes: Json,
    words: Json,
    languageId: Json,
    lastStudiedAt: Json,
    createdAt: Json,
    updatedAt: Json)

  /** `Flashcard.fromPersistence(data)`: the nine named fields; anything
      else on the row, such as an included `language`, is dropped. */
  function FromPersistence(data: Json): Flashcard
    requires !Nullish(data)
  {
    Flashcard(Get(data, "id"), Get(data, "title"), Get(data, "description"), Get(data, "notes"),
              Get(data, "words"), Get(data, "languageId"), Get(data, "lastStudiedAt"),
              Get(data, "createdAt"), Get(data, "updatedAt"))
  }

  /** `flashcard.toJSON()`: an object with exactly the nine fields. */
  function ToJson(f: Flashcard): (r: Json)
    ensures r.Obj? && r.fields.Keys == Keys
  {
    Obj(map[
      "id" := f.id, "title" := f.title, "description" := f.description, "notes" := f.notes,
      "words" := f.words, "languageId" := f.languageId, "lastStudiedAt" := f.lastStudiedAt,
      "createdAt" := f.createdAt, "updatedAt" := f.updatedAt])
  }

  /** Loading and serialising a row keeps its nine fields unchanged and
      nothing else. */
  lemma {:induction false} ToJsonFromPersistence(data: Json)
    requires !Nullish(data)
    ensures ToJson(FromPersistence(data)) == Pick(data, Keys)
  {
    var a := ToJson(FromPersistence(data)).fields;
    var b := Pick(data, Keys).fields;
    assert forall k :: k in Keys ==> a[k] == b[k];
    assert a == b;
  }

  /** Serialising and loading again gives the same flashcard, field for field. */
  lemma FromPersistenceToJson(f: Flashcard)
    ensures FromPersistence(ToJson(f)) == f
  {
  }

  /** A row with its language included loses it. */
  lemma IncludedLanguageDropped(data: Json)
    requires data.Obj? && "language" in data.fields
    ensures "language" !in ToJson(FromPersistence(data)).fields
  {
  }
}
