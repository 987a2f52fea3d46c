/** The study screen's session reducer: a deck of cards graded one at a
    time by swipe (known / unknown) or pass (skipped), finished either by
    grading the last card or by the finish button, then replayable. */
module StudySession {
  import opened Common
  import opened Dto
  import JsString

  datatype Verdict = Known | Unknown | Skipped

  /** A card's status; the screen creates every card `Pending` and never
      assigns another status. */
  datatype Status = Pending | Graded(verdict: Verdict)

  datatype CardStatus = CardStatus(word: WordPair, index: nat, status: Status)

  datatype Direction = Left | Right

  /** The words of the deck, in order. */
  function Words(cards: seq<CardStatus>): (r: seq<WordPair>)
    ensures |r| == |cards|
    ensures forall i :: 0 <= i < |cards| ==> r[i] == cards[i].word
  {
    seq(|cards|, i requires 0 <= i < |cards| => cards[i].word)
  }

  /** `cards.slice(start).map(c => c.word)`: empty once `start` passes the end. */
  function Remaining(cards: seq<CardStatus>, start: nat): seq<WordPair> {
    if start >= |cards| then [] else Words(cards[start..])
  }

  /** The deck as the screen builds it on load. */
  function InitialCards(words: seq<WordPair>): (r: seq<CardStatus>)
    ensures |r| == |words|
    ensures forall i :: 0 <= i < |r| ==> r[i] == CardStatus(words[i], i, Pending)
  {
    seq(|words|, i requires 0 <= i < |words| => CardStatus(words[i], i, Pending))
  }

  function Repeat(v: Verdict, k: nat): (r: seq<Verdict>)
    ensures |r| == k && forall i :: 0 <= i < k ==> r[i] == v
  {
    seq(k, _ => v)
  }

  /** Card `i` has index `i` and is pending, as the screen builds the deck. */
  predicate AsLoaded(cards: seq<CardStatus>) {
    forall i :: 0 <= i < |cards| ==> cards[i].index == i && cards[i].status == Pending
  }

  /** The words of the cards given verdict `v`, card by card in deck order;
      `verdicts[i]` is the verdict on card `i`. */
  function Select(cards: seq<CardStatus>, verdicts: seq<Verdict>, v: Verdict): seq<WordPair>
    requires |verdicts| <= |cards|
    decreases |verdicts|
  {
    if verdicts == [] then []
    else
      var n := |verdicts| - 1;
      Select(cards, verdicts[..n], v) + (if verdicts[n] == v then [cards[n].word] else [])
  }

  /** The deck positions given verdict `v`, in increasing order. */
  function Positions(verdicts: seq<Verdict>, v: Verdict): (ps: seq<nat>)
    decreases |verdicts|
    ensures forall k :: 0 <= k < |ps| ==> ps[k] < |verdicts| && verdicts[ps[k]] == v
    ensures forall k, l :: 0 <= k < l < |ps| ==> ps[k] < ps[l]
    ensures forall i :: 0 <= i < |verdicts| && verdicts[i] == v ==> i in ps
  {
    if verdicts == [] then []
    else
      var n := |verdicts| - 1;
      Positions(verdicts[..n], v) + (if verdicts[n] == v then [n] else [])
  }

  /** Each list holds exactly the words of the cards at the positions of its
      verdict, so it keeps the deck's order. */
  lemma {:induction false} SelectInDeckOrder(cards: seq<CardStatus>, verdicts: seq<Verdict>, v: Verdict)
    requires |verdicts| <= |cards|
    ensures var s := Select(cards, verdicts, v); var ps := Positions(verdicts, v);
      |s| == |ps| && forall k :: 0 <= k < |ps| ==> s[k] == cards[ps[k]].word
    decreases |verdicts|
  {
    if verdicts != [] {
      SelectInDeckOrder(cards, verdicts[..|verdicts| - 1], v);
    }
  }

  /** Every graded card lands in exactly one of the three lists. */
  lemma {:induction false} TallyTotal(cards: seq<CardStatus>, verdicts: seq<Verdict>)
    requires |verdicts| <= |cards|
    ensures |Select(cards, verdicts, Known)| + |Select(cards, verdicts, Unknown)|
            + |Select(cards, verdicts, Skipped)| == |verdicts|
    decreases |verdicts|
  {
    if verdicts != [] {
      TallyTotal(cards, verdicts[..|verdicts| - 1]);
    }
  }

  /** Grading one more card extends its own list by that card's word only. */
  lemma {:induction false} SelectAppend(cards: seq<CardStatus>, verdicts: seq<Verdict>, g: Verdict, v: Verdict)
    requires |verdicts| < |cards|
    ensures Select(cards, verdicts + [g], v)
         == Select(cards, verdicts, v) + (if g == v then [cards[|verdicts|].word] else [])
  {
    assert (verdicts + [g])[..|verdicts|] == verdicts;
  }

  /** Grading the next card, for all three lists at once. */
  lemma GradeTallies(cards: seq<CardStatus>, verdicts: seq<Verdict>, g: Verdict)
    requires |verdicts| < |cards|
    ensures var w := cards[|verdicts|].word;
      && Select(cards, verdicts + [g], Known) == Select(cards, verdicts, Known) + (if g == Known then [w] else [])
      && Select(cards, verdicts + [g], Unknown) == Select(cards, verdicts, Unknown) + (if g == Unknown then [w] else [])
      && Select(cards, verdicts + [g], Skipped) == Select(cards, verdicts, Skipped) + (if g == Skipped then [w] else [])
  {
    SelectAppend(cards, verdicts, g, Known);
    SelectAppend(cards, verdicts, g, Unknown);
    SelectAppend(cards, verdicts, g, Skipped);
  }

  /** Skipping the rest of the deck at once appends the remaining words to
      skipped and leaves the other two lists alone. */
  lemma {:induction false} SelectSkipRest(cards: seq<CardStatus>, verdicts: seq<Verdict>, v: Verdict)
    requires |verdicts| <= |cards|
    ensures var all := verdicts + Repeat(Skipped, |cards| - |verdicts|);
      |all| == |cards|
      && Select(cards, all, v)
         == Select(cards, verdicts, v) + (if v == Skipped then Remaining(cards, |verdicts|) else [])
    decreases |cards| - |verdicts|
  {
    var k := |cards| - |verdicts|;
    if k > 0 {
      SelectSkipRest(cards, verdicts + [Skipped], v);
      SkipRestStep(cards, verdicts, v);
    } else {
      assert verdicts + Repeat(Skipped, k) == verdicts;
    }
  }

  /** The inductive step of `SelectSkipRest`: skipping the card at
      `|verdicts|` and then the rest is skipping from `|verdicts|` on. */
  lemma SkipRestStep(cards: seq<CardStatus>, verdicts: seq<Verdict>, v: Verdict)
    requires |verdicts| < |cards|
    requires var next := verdicts + [Skipped];
      Select(cards, next + Repeat(Skipped, |cards| - |next|), v)
      == Select(cards, next, v) + (if v == Skipped then Remaining(cards, |next|) else [])
    ensures Select(cards, verdicts + Repeat(Skipped, |cards| - |verdicts|), v)
         == Select(cards, verdicts, v) + (if v == Skipped then Remaining(cards, |verdicts|) else [])
  {
    var k := |cards| - |verdicts|;
    RepeatUnfold(verdicts, k);
    SelectAppend(cards, verdicts, Skipped, v);
    if v == Skipped {
      RemainingUnfold(cards, |verdicts|);
    }
  }

  /** Skipping the rest of the deck, for all three lists at once. */
  lemma SkipRestTallies(cards: seq<CardStatus>, verdicts: seq<Verdict>)
    requires |verdicts| <= |cards|
    ensures var all := verdicts + Repeat(Skipped, |cards| - |verdicts|);
      && |all| == |cards|
      && Select(cards, all, Known) == Select(cards, verdicts, Known)
      && Select(cards, all, Unknown) == Select(cards, verdicts, Unknown)
      && Select(cards, all, Skipped) == Select(cards, verdicts, Skipped) + Remaining(cards, |verdicts|)
  {
    SelectSkipRest(cards, verdicts, Known);
    SelectSkipRest(cards, verdicts, Unknown);
    SelectSkipRest(cards, verdicts, Skipped);
  }

  /** One skip followed by `k - 1` more is `k` skips. */
  lemma RepeatUnfold(verdicts: seq<Verdict>, k: nat)
    requires k > 0
    ensures verdicts + [Skipped] + Repeat(Skipped, k - 1) == verdicts + Repeat(Skipped, k)
  {
    var x := verdicts + [Skipped] + Repeat(Skipped, k - 1);
    var y := verdicts + Repeat(Skipped, k);
    assert |x| == |y|;
    forall m | 0 <= m < |x|
      ensures x[m] == y[m]
    {
      if m >= |verdicts| {
        assert x[m] == Skipped;
      }
    }
  }

  /** The words from `start` on are the card at `start` and those after it. */
  lemma RemainingUnfold(cards: seq<CardStatus>, start: nat)
    requires start < |cards|
    ensures Remaining(cards, start) == [cards[start].word] + Remaining(cards, start + 1)
  {
    var x := Remaining(cards, start);
    var y := [cards[start].word] + Remaining(cards, start + 1);
    assert |x| == |y|;
    forall m | 0 <= m < |x|
      ensures x[m] == y[m]
    {
      assert x[m] == cards[start + m].word;
      if m > 0 {
        assert y[m] == Remaining(cards, start + 1)[m - 1];
      }
    }
  }

  /** The pieces `ResultsView` renders for a mnemonic: split on `:::`, each trimmed. */
  function MnemonicSentences(aiMnemonic: string): (r: seq<string>)
    ensures |r| == |JsString.Split(aiMnemonic, ":::")| >= 1
    ensures forall k :: 0 <= k < |r| ==> r[k] == JsString.Trim(JsString.Split(aiMnemonic, ":::")[k])
    ensures forall k :: 0 <= k < |r| ==>
      r[k] == JsString.Trim(r[k]) && !JsString.Contains(r[k], ":::")
  {
    var pieces := JsString.Split(aiMnemonic, ":::");
    JsString.SplitPiecesFree(aiMnemonic, ":::");
    var r := seq(|pieces|, k requires 0 <= k < |pieces| => JsString.Trim(pieces[k]));
    assert forall k :: 0 <= k < |r| ==> r[k] == JsString.Trim(r[k]) && !JsString.Contains(r[k], ":::") by {
      forall k | 0 <= k < |r|
        ensures r[k] == JsString.Trim(r[k]) && !JsString.Contains(r[k], ":::")
      {
        assert pieces[k] in pieces;
        JsString.TrimIdempotent(pieces[k]);
        TrimKeepsFree(pieces[k], ":::");
      }
    }
    r
  }

  /** An occurrence inside a slice is an occurrence in the whole string. */
  lemma {:induction false} ContainsWidens(p: string, a: nat, b: nat, sep: string)
    requires a <= b <= |p| && JsString.Contains(p[a..b], sep)
    ensures JsString.Contains(p, sep)
  {
    var q := p[a..b];
    var j: nat :| j <= |q| && JsString.OccursAt(q, sep, j);
    var inQ := q[j..j + |sep|];
    var inP := p[a + j..a + j + |sep|];
    forall m | 0 <= m < |sep|
      ensures inQ[m] == inP[m]
    {
      assert inQ[m] == q[j + m] == p[a + j + m];
    }
    assert inQ == inP;
    assert JsString.OccursAt(p, sep, a + j);
  }

  /** Trimming cannot create an occurrence of a separator. */
  lemma {:induction false} TrimKeepsFree(p: string, sep: string)
    requires !JsString.Contains(p, sep)
    ensures !JsString.Contains(JsString.Trim(p), sep)
  {
    var r := JsString.Trim(p);
    var a := |p| - |JsString.TrimStart(p)|;
    JsString.TrimShape(p);
    if JsString.Contains(r, sep) {
      ContainsWidens(p, a, a + |r|, sep);
    }
  }

  /** The `save-session` request body. */
  function SavePayload(known: seq<WordPair>, unknown: seq<WordPair>, skipped: seq<WordPair>): StudySessionData {
    StudySessionData(|known|, |unknown|, |skipped|, Omitted)
  }

  /** The `analyze` request body: the same counts plus the unknown words. */
  function AnalyzePayload(known: seq<WordPair>, unknown: seq<WordPair>, skipped: seq<WordPair>): StudySessionData {
    StudySessionData(|known|, |unknown|, |skipped|, Included(unknown))
  }

  class Session {
    var cards: seq<CardStatus>
    var currentIndex: nat
    var knownCards: seq<WordPair>
    var unknownCards: seq<WordPair>
    var skippedCards: seq<WordPair>
    var showResults: bool
    var aiAnalysis: Option<AiAnalysis>
    /** The verdict on each card handled so far, in deck order. */
    ghost var verdicts: seq<Verdict>

    /** The lists are the deck filtered by verdict; the deck itself is as loaded. */
    ghost predicate Tallied()
      reads this
    {
      && AsLoaded(cards)
      && currentIndex <= |cards|
      && |verdicts| <= |cards|
      && knownCards == Select(cards, verdicts, Known)
      && unknownCards == Select(cards, verdicts, Unknown)
      && skippedCards == Select(cards, verdicts, Skipped)
    }

    /** While the deck is on screen, exactly the cards before `currentIndex`
        have a verdict; once the results are shown, every card has one. */
    ghost predicate Valid()
      reads this
    {
      Tallied() && |verdicts| == (if showResults then |cards| else currentIndex)
    }

    /** The state once `loadFlashcard` has set the deck. */
    constructor Load(words: seq<WordPair>)
      ensures Valid()
      ensures Words(cards) == words && cards == InitialCards(words)
      ensures currentIndex == 0 && !showResults && aiAnalysis == None
      ensures knownCards == [] && unknownCards == [] && skippedCards == []
    {
      cards := InitialCards(words);
      currentIndex := 0;
      knownCards, unknownCards, skippedCards := [], [], [];
      showResults := false;
      aiAnalysis := None;
      verdicts := [];
    }

    /** `finishStudy(indexOverride?)`: every card from the start index on is
        skipped and the results are shown. The grading handlers pass the
        deck's length, the finish button passes nothing. */
    method FinishStudy(indexOverride: Option<nat>)
      requires Tallied() && !showResults
      requires |verdicts| == (if indexOverride.Some? then indexOverride.value else currentIndex)
      modifies this
      ensures Valid() && showResults
      ensures skippedCards == old(skippedCards)
        + Remaining(cards, if indexOverride.Some? then indexOverride.value else old(currentIndex))
      ensures knownCards == old(knownCards) && unknownCards == old(unknownCards)
      ensures cards == old(cards) && currentIndex == old(currentIndex) && aiAnalysis == old(aiAnalysis)
    {
      var startIndex := if indexOverride.Some? then indexOverride.value else currentIndex;
      var remaining := Remaining(cards, startIndex);
      ghost var all := verdicts + Repeat(Skipped, |cards| - |verdicts|);
      SkipRestTallies(cards, verdicts);
      skippedCards := skippedCards + remaining;
      verdicts := all;
      showResults := true;
    }

    /** The step both grading handlers end with, once the card on screen
        has its verdict: move to the next card, or `finishStudy(nextIndex)`
        when there is none, which skips nothing more. */
    method Advance()
      requires Tallied() && !showResults
      requires currentIndex < |cards| && |verdicts| == currentIndex + 1
      modifies this
      ensures Valid()
      ensures cards == old(cards) && aiAnalysis == old(aiAnalysis)
      ensures knownCards == old(knownCards) && unknownCards == old(unknownCards)
      ensures skippedCards == old(skippedCards)
      ensures if old(currentIndex) + 1 < |cards|
              then currentIndex == old(currentIndex) + 1 && !showResults
              else currentIndex == old(currentIndex) && showResults
    {
      var nextIndex := currentIndex + 1;
      if nextIndex >= |cards| {
        FinishStudy(Some(nextIndex));
      } else {
        currentIndex := nextIndex;
      }
    }

    /** `handleSwipeComplete`: a right swipe marks the card on screen known,
        a left swipe unknown; grading the last card shows the results. */
    method SwipeComplete(direction: Direction)
      requires Valid() && !showResults
      modifies this
      ensures Valid()
      ensures cards == old(cards) && aiAnalysis == old(aiAnalysis)
      ensures old(currentIndex) >= |cards| ==>
        && currentIndex == old(currentIndex) && !showResults
        && knownCards == old(knownCards) && unknownCards == old(unknownCards)
        && skippedCards == old(skippedCards)
      ensures old(currentIndex) < |cards| ==>
        var w := cards[old(currentIndex)].word;
        && knownCards == old(knownCards) + (if direction == Right then [w] else [])
        && unknownCards == old(unknownCards) + (if direction == Left then [w] else [])
        && skippedCards == old(skippedCards)
        && if old(currentIndex) + 1 < |cards|
           then currentIndex == old(currentIndex) + 1 && !showResults
           else currentIndex == old(currentIndex) && showResults
    {
      if currentIndex >= |cards| {
        return;
      }
      var currentCard := cards[currentIndex];
      var verdict := if direction == Right then Known else Unknown;
      GradeTallies(cards, verdicts, verdict);
      if direction == Right {
        knownCards := knownCards + [currentCard.word];
      } else {
        unknownCards := unknownCards + [currentCard.word];
      }
      verdicts := verdicts + [verdict];
      Advance();
    }

    /** `handlePass`: the card on screen is skipped; passing the last card
        shows the results. */
    method Pass()
      requires Valid() && !showResults
      modifies this
      ensures Valid()
      ensures cards == old(cards) && aiAnalysis == old(aiAnalysis)
      ensures knownCards == old(knownCards) && unknownCards == old(unknownCards)
      ensures old(currentIndex) >= |cards| ==>
        currentIndex == old(currentIndex) && !showResults && skippedCards == old(skippedCards)
      ensures old(currentIndex) < |cards| ==>
        && skippedCards == old(skippedCards) + [cards[old(currentIndex)].word]
        && if old(currentIndex) + 1 < |cards|
           then currentIndex == old(currentIndex) + 1 && !showResults
           else currentIndex == old(currentIndex) && showResults
    {
      if currentIndex >= |cards| {
        return;
      }
      var currentCard := cards[currentIndex];
      GradeTallies(cards, verdicts, Skipped);
      skippedCards := skippedCards + [currentCard.word];
      verdicts := verdicts + [Skipped];
      Advance();
    }

    /** The finish button (`handleFinish`, once confirmed): `finishStudy()`
        with no index, so the card on screen is skipped as well. */
    method Finish()
      requires Valid() && !showResults
      modifies this
      ensures Valid() && showResults
      ensures skippedCards == old(skippedCards) + Remaining(cards, old(currentIndex))
      ensures knownCards == old(knownCards) && unknownCards == old(unknownCards)
      ensures cards == old(cards) && currentIndex == old(currentIndex) && aiAnalysis == old(aiAnalysis)
    {
      FinishStudy(None);
    }

    /** `handleReplay`: back to the first card with empty tallies; the deck is kept. */
    method Replay()
      requires Valid()
      modifies this
      ensures Valid()
      ensures cards == old(cards)
      ensures currentIndex == 0 && !showResults && aiAnalysis == None
      ensures knownCards == [] && unknownCards == [] && skippedCards == []
    {
      currentIndex := 0;
      knownCards := [];
      unknownCards := [];
      skippedCards := [];
      showResults := false;
      aiAnalysis := None;
      verdicts := [];
    }

    /** What `handleAnalyze` keeps from the backend's reply: the analysis when
        there is one; a reply without one leaves the state as it was. */
    method ReceiveAnalysis(reply: Option<AiAnalysis>)
      modifies this
      ensures reply.Some? ==> aiAnalysis == reply
      ensures reply.None? ==> aiAnalysis == old(aiAnalysis)
      ensures cards == old(cards) && currentIndex == old(currentIndex) && showResults == old(showResults)
      ensures knownCards == old(knownCards) && unknownCards == old(unknownCards)
      ensures skippedCards == old(skippedCards) && verdicts == old(verdicts)
    {
      if reply.Some? {
        aiAnalysis := reply;
      }
    }
  }

  /** The counting invariant: the three tallies add up to the cards handled
      so far, and to the whole deck once the results are shown. */
  lemma CountInvariant(s: Session)
    requires s.Valid()
    ensures |s.knownCards| + |s.unknownCards| + |s.skippedCards|
            == if s.showResults then |s.cards| else s.currentIndex
  {
    TallyTotal(s.cards, s.verdicts);
  }

  /** The payloads sent from the results screen count every card once and
      carry exactly the unknown words, in deck order. */
  lemma PayloadsCoverDeck(s: Session)
    requires s.Valid() && s.showResults
    ensures var save := SavePayload(s.knownCards, s.unknownCards, s.skippedCards);
      save.knownCount + save.unknownCount + save.skippedCount == |s.cards|
    ensures var analyze := AnalyzePayload(s.knownCards, s.unknownCards, s.skippedCards);
      && analyze.knownCount + analyze.unknownCount + analyze.skippedCount == |s.cards|
      && analyze.unknownWords == Included(Select(s.cards, s.verdicts, Unknown))
      && |analyze.unknownWords.pairs| == |Positions(s.verdicts, Unknown)|
  {
    TallyTotal(s.cards, s.verdicts);
    SelectInDeckOrder(s.cards, s.verdicts, Unknown);
  }

  /** Grading all three cards of a three-card deck skips none of them. */
  method GradeWholeDeck(a: WordPair, b: WordPair, c: WordPair) returns (skipped: nat, known: nat, unknown: nat)
    ensures skipped == 0 && known == 2 && unknown == 1
  {
    var s := new Session.Load([a, b, c]);
    s.SwipeComplete(Right);
    s.SwipeComplete(Left);
    s.SwipeComplete(Right);
    assert s.showResults;
    skipped, known, unknown := |s.skippedCards|, |s.knownCards|, |s.unknownCards|;
  }

  /** Grading the first card of three and then pressing finish skips the other two. */
  method GradeOneThenFinish(a: WordPair, b: WordPair, c: WordPair) returns (skipped: seq<WordPair>, known: nat)
    ensures skipped == [b, c] && known == 1
  {
    var s := new Session.Load([a, b, c]);
    s.SwipeComplete(Right);
    s.Finish();
    skipped, known := s.skippedCards, |s.knownCards|;
  }
}
