/** The client's data-transfer types (the interfaces of the mobile
    flashcard service): what the screens hold and send. */
module Dto {
  import opened Json

  /** One front/back translation unit of a flashcard. */
  datatype WordPair = WordPair(front: string, back: string)

  /** A pair as `JSON.stringify` sends it. */
  function PairJson(p: WordPair): Json {
    Obj(map["front" := Str(p.front), "back" := Str(p.back)])
  }

  /** The body of the save-session and analyze requests. */
  datatype StudySessionData = StudySessionData(
    knownCount: nat,
    unknownCount: nat,
    skippedCount: nat,
    unknownWords: UnknownWords)

  /** `unknownWords` is left out of the save payload and present in the analyze payload. */
  datatype UnknownWords = Omitted | Included(pairs: seq<WordPair>)

  datatype WordAnalysis = WordAnalysis(wordKey: string, aiMnemonic: string, difficultyLevel: real)

  /** The `aiAnalysis` part of the analyze response, as the client keeps it. */
  datatype AiAnalysis = AiAnalysis(aiFeedback: string, wordAnalysis: seq<WordAnalysis>)
}
