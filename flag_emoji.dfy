/** `getFlagEmoji`: a two-letter code to the pair of Unicode Regional
    Indicator Symbols (U+1F1E6 to U+1F1FF) that emoji flag sequences are
    made of, as Unicode Technical Standard #51 defines them. The input is a
    JavaScript string, so a sequence of UTF-16 code units; the result is a
    sequence of code points. */
module FlagEmoji {

  type CodeUnit = u: int | 0 <= u < 0x1_0000

  /** What `String.fromCodePoint(ch.charCodeAt(0) + 127397)` adds. */
  const Offset: int := 127397

  const RegionalA: char := '\U{1F1E6}'
  const RegionalZ: char := '\U{1F1FF}'

  const En: seq<CodeUnit> := [0x65, 0x6E]
  const Gb: seq<CodeUnit> := [0x67, 0x62]

  /** `toLowerCase` on one unit, for the ASCII letters. */
  function Lower(u: CodeUnit): CodeUnit {
    if 0x41 <= u <= 0x5A then u + 0x20 else u
  }

  /** `toUpperCase` on one unit, for the ASCII letters. */
  function Upper(u: CodeUnit): CodeUnit {
    if 0x61 <= u <= 0x7A then u - 0x20 else u
  }

  function LowerAll(s: seq<CodeUnit>): (r: seq<CodeUnit>)
    ensures |r| == |s| && forall i :: 0 <= i < |s| ==> r[i] == Lower(s[i])
  {
    seq(|s|, i requires 0 <= i < |s| => Lower(s[i]))
  }

  function UpperAll(s: seq<CodeUnit>): (r: seq<CodeUnit>)
    ensures |r| == |s| && forall i :: 0 <= i < |s| ==> r[i] == Upper(s[i])
  {
    seq(|s|, i requires 0 <= i < |s| => Upper(s[i]))
  }

  /** The units the regular expression `.` does not match. */
  predicate IsLineTerminator(u: CodeUnit) {
    u == 0x0A || u == 0x0D || u == 0x2028 || u == 0x2029
  }

  /** The replacement for one unit of the upper-cased code: shifted by the
      offset, except that `.` leaves line terminators in place. */
  function Shift(u: CodeUnit): char {
    if IsLineTerminator(u) then u as char else (u + Offset) as char
  }

  /** The code after lower-casing, with `en` (which has no flag) replaced by `gb`. */
  function CountryCode(code: seq<CodeUnit>): seq<CodeUnit> {
    var lower := LowerAll(code);
    if lower == En then Gb else lower
  }

  function GetFlagEmoji(code: seq<CodeUnit>): (r: string)
    ensures |r| == |code|
  {
    var upper := UpperAll(CountryCode(code));
    seq(|upper|, i requires 0 <= i < |upper| => Shift(upper[i]))
  }

  predicate IsLetter(u: CodeUnit) {
    (0x41 <= u <= 0x5A) || (0x61 <= u <= 0x7A)
  }

  /** The letter's position in the alphabet, ignoring case. */
  function LetterIndex(u: CodeUnit): int
    requires IsLetter(u)
  {
    Upper(u) - 0x41
  }

  /** Each letter of any code but `en` becomes the regional indicator of
      the same letter, in U+1F1E6..U+1F1FF. */
  lemma {:induction false} LettersBecomeIndicators(code: seq<CodeUnit>)
    requires LowerAll(code) != En
    ensures forall i :: 0 <= i < |code| && IsLetter(code[i]) ==>
      && GetFlagEmoji(code)[i] as int == RegionalA as int + LetterIndex(code[i])
      && RegionalA <= GetFlagEmoji(code)[i] <= RegionalZ
  {
    forall i | 0 <= i < |code| && IsLetter(code[i])
      ensures GetFlagEmoji(code)[i] as int == RegionalA as int + LetterIndex(code[i])
    {
      assert UpperAll(CountryCode(code))[i] == Upper(Lower(code[i]));
    }
  }

  /** Only `en`, in any letter case, is remapped, and it gives the flag of
      `gb`; every other code is converted as it is. */
  lemma {:induction false} OnlyEnRemapped(code: seq<CodeUnit>)
    ensures LowerAll(code) == En ==>
      GetFlagEmoji(code) == GetFlagEmoji(Gb) == ['\U{1F1EC}', '\U{1F1E7}']
    ensures LowerAll(code) != En ==>
      GetFlagEmoji(code) == seq(|code|, i requires 0 <= i < |code| => Shift(Upper(code[i])))
  {
    if LowerAll(code) == En {
      assert LowerAll(Gb) == Gb;
    } else {
      forall i | 0 <= i < |code|
        ensures UpperAll(CountryCode(code))[i] == Upper(code[i])
      {
        assert Upper(Lower(code[i])) == Upper(code[i]);
      }
    }
  }

  /** Letter case does not matter. */
  lemma {:induction false} IgnoresCase(code: seq<CodeUnit>)
    ensures GetFlagEmoji(code) == GetFlagEmoji(LowerAll(code))
  {
    var lower := LowerAll(code);
    assert LowerAll(lower) == lower;
  }
}
