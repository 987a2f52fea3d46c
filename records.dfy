/** The rows the backend persists and the way the ORM coerces the values a
    use case hands it: a column accepts a value of its own type, anything
    else is rejected and the statement fails. */
module Records {
  import opened Common
  import opened Json

  type Timestamp = nat

  /** The columns of a Flashcard row the study use cases read or write. */
  datatype FlashcardRow = FlashcardRow(title: string, languageId: int, lastStudiedAt: Option<Timestamp>)

  datatype LanguageRow = LanguageRow(id: int, code: string, name: string)

  datatype SessionRow = SessionRow(
    flashcardId: string,
    knownCount: int,
    unknownCount: int,
    skippedCount: int,
    aiFeedback: Option<string>)

  /** A WordAnalytics row; its key `(flashcardId, wordKey)` is the map key. */
  datatype AnalyticsRow = AnalyticsRow(
    correctCount: nat,
    wrongCount: nat,
    aiMnemonic: Option<string>,
    difficultyLevel: Option<real>)

  type Key = (string, string)

  /** An injected storage failure: the statement numbered `step` of a
      transaction throws `message`. */
  datatype Fault = Fault(step: nat, message: string)

  predicate FailsAt(fault: Option<Fault>, step: nat) {
    fault.Some? && fault.value.step == step
  }

  /** The ORM's complaint about a value of the wrong type (its exact wording
      is not part of this model). */
  function Rejected(field: string): string {
    "Invalid value provided for argument `" + field + "`"
  }

  const MinInt32: int := -0x8000_0000
  const MaxInt32: int := 0x7FFF_FFFF

  /** `v || 0` stored in a 32-bit integer column. */
  function StoredCount(v: Json, field: string): (r: Result<int>)
    ensures !Truthy(v) ==> r == Ok(0)
    ensures forall k: int :: MinInt32 <= k <= MaxInt32 && v == Num(k as real) ==> r == Ok(k)
    ensures r.Ok? ==> MinInt32 <= r.value <= MaxInt32
    ensures r.Ok? ==> !Truthy(v) || v == Num(r.value as real)
    ensures r.Err? ==> r.message == Rejected(field)
  {
    var c := Or(v, Num(0.0));
    if c.Num? && c.n == c.n.Floor as real && MinInt32 <= c.n.Floor <= MaxInt32
    then Ok(c.n.Floor)
    else Err(Rejected(field))
  }

  /** `v || null` (or `v || undefined`) for an optional text column: a falsy
      value means no text, a non-empty string is stored. */
  function StoredText(v: Json, field: string): (r: Result<Option<string>>)
    ensures !Truthy(v) <==> r == Ok(None)
    ensures forall s :: v == Str(s) && s != "" ==> r == Ok(Some(s))
    ensures r.Err? <==> Truthy(v) && !v.Str?
  {
    if !Truthy(v) then Ok(None)
    else if v.Str? then Ok(Some(v.s))
    else Err(Rejected(field))
  }

  /** `v || null` (or `v || undefined`) for an optional float column: zero
      counts as no value. */
  function StoredFloat(v: Json, field: string): (r: Result<Option<real>>)
    ensures !Truthy(v) <==> r == Ok(None)
    ensures forall x :: v == Num(x) && x != 0.0 ==> r == Ok(Some(x))
    ensures r.Err? <==> Truthy(v) && !v.Num?
  {
    if !Truthy(v) then Ok(None)
    else if v.Num? then Ok(Some(v.n))
    else Err(Rejected(field))
  }
}
