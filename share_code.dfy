/**
 * Share codes (bot.py:18-19): eight characters drawn with replacement from
 * `string.ascii_letters + string.digits`. The random draw is not modelled;
 * `GenerateCode` takes the eight alphabet positions the draw produced.
 */
module ShareCode {

  const CodeLength: nat := 8
  const AlphabetSize: nat := 62

  /** `count` consecutive characters starting at `first` (an ASCII range). */
  function CharRun(first: char, count: nat): (r: string)
    requires first as int + count <= 128
    ensures |r| == count
    ensures forall i :: 0 <= i < count ==> r[i] as int == first as int + i
  {
    seq(count, i requires 0 <= i < count => (first as int + i) as char)
  }

  /** Python's `string.ascii_letters + string.digits`: a-z, then A-Z, then 0-9. */
  function Alphabet(): (r: string)
    ensures |r| == AlphabetSize
  {
    CharRun('a', 26) + CharRun('A', 26) + CharRun('0', 10)
  }

  predicate IsAsciiAlnum(c: char) {
    ('a' <= c <= 'z') || ('A' <= c <= 'Z') || ('0' <= c <= '9')
  }

  /** A well-formed share code: eight ASCII letters or digits. */
  predicate ValidCode(code: string) {
    |code| == CodeLength && forall i :: 0 <= i < |code| ==> IsAsciiAlnum(code[i])
  }

  /** Eight draws, each a position in the alphabet, as `random.choices` makes them. */
  predicate ValidPicks(picks: seq<nat>) {
    |picks| == CodeLength && forall i :: 0 <= i < |picks| ==> picks[i] < AlphabetSize
  }

  /** The alphabet position of a letter or digit: the inverse of indexing `Alphabet()`. */
  function AlphabetIndex(c: char): (k: nat)
    requires IsAsciiAlnum(c)
    ensures k < AlphabetSize && Alphabet()[k] == c
  {
    if 'a' <= c <= 'z' then c as int - 'a' as int
    else if 'A' <= c <= 'Z' then 26 + (c as int - 'A' as int)
    else 52 + (c as int - '0' as int)
  }

  /** Every alphabet character is an ASCII letter or digit, at exactly one position. */
  lemma AlphabetIsAlnum(k: nat)
    requires k < AlphabetSize
    ensures IsAsciiAlnum(Alphabet()[k]) && AlphabetIndex(Alphabet()[k]) == k
  {
  }

  /** `generate_code`: the characters at the drawn positions; always a valid code. */
  function GenerateCode(picks: seq<nat>): (code: string)
    requires ValidPicks(picks)
    ensures ValidCode(code)
    ensures forall i :: 0 <= i < CodeLength ==> AlphabetIndex(code[i]) == picks[i]
  {
    var code := seq(CodeLength, i requires 0 <= i < CodeLength => Alphabet()[picks[i]]);
    assert forall i :: 0 <= i < CodeLength ==>
      IsAsciiAlnum(code[i]) && AlphabetIndex(code[i]) == picks[i] by {
      forall i | 0 <= i < CodeLength
        ensures IsAsciiAlnum(code[i]) && AlphabetIndex(code[i]) == picks[i]
      {
        AlphabetIsAlnum(picks[i]);
      }
    }
    code
  }

  /** The draws that produce a given valid code. */
  function CodePicks(code: string): (picks: seq<nat>)
    requires ValidCode(code)
    ensures ValidPicks(picks)
  {
    seq(CodeLength, i requires 0 <= i < CodeLength => AlphabetIndex(code[i]))
  }

  /**
   * Generation is a bijection between draws and valid codes: every valid
   * code is produced by exactly one sequence of draws, so all 62^8 codes are
   * reachable and distinct draws give distinct codes.
   */
  lemma CodeRoundTrip(code: string, picks: seq<nat>)
    requires ValidCode(code) && ValidPicks(picks)
    ensures GenerateCode(CodePicks(code)) == code
    ensures CodePicks(GenerateCode(picks)) == picks
  {
  }
}
