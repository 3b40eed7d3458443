/**
 * One-time codes and auth tokens (`generate_code`, app.py:34-35).
 *
 * The source draws 8 characters with `random.choices` from
 * `string.ascii_uppercase + string.digits`. The randomness is an input here:
 * `picks` holds the 8 indices into that 36-character alphabet.
 */
module Codes {

  const CodeLength: nat := 8

  /** `string.ascii_uppercase + string.digits`. */
  const Alphabet: string := "ABCDEFGHIJKLMNOPQRSTUVWXYZ0123456789"

  /** The i-th letter of the Latin alphabet, by code point arithmetic. */
  function Upper(i: nat): char requires i < 26 { ('A' as int + i) as char }

  /** The i-th decimal digit, by code point arithmetic. */
  function Digit(i: nat): char requires i < 10 { ('0' as int + i) as char }

  predicate IsCodeChar(c: char) {
    ('A' <= c <= 'Z') || ('0' <= c <= '9')
  }

  /** The format of every code and auth token the server hands out. */
  predicate IsCode(s: string) {
    |s| == CodeLength && forall i :: 0 <= i < |s| ==> IsCodeChar(s[i])
  }

  /** What `random.choices(alphabet, k=8)` can return: 8 in-range indices. */
  predicate ValidPicks(picks: seq<nat>) {
    |picks| == CodeLength && forall i :: 0 <= i < |picks| ==> picks[i] < |Alphabet|
  }

  /** The alphabet is the 26 upper-case letters in order, then the 10 digits in order. */
  lemma AlphabetAt(i: nat)
    requires i < |Alphabet|
    ensures Alphabet[i] == if i < 26 then Upper(i) else Digit(i - 26)
  {
  }

  function GenerateCode(picks: seq<nat>): (code: string)
    requires ValidPicks(picks)
    ensures IsCode(code)
    ensures forall i :: 0 <= i < |code| ==> code[i] == Alphabet[picks[i]]
  {
    var code := seq(|picks|, i requires 0 <= i < |picks| => Alphabet[picks[i]]);
    assert forall i :: 0 <= i < |code| ==> IsCodeChar(code[i]) by {
      forall i | 0 <= i < |code| ensures IsCodeChar(code[i]) { AlphabetAt(picks[i]); }
    }
    code
  }

  /** Position of a code character in the alphabet. */
  function IndexOf(c: char): (k: nat)
    requires IsCodeChar(c)
    ensures k < |Alphabet| && Alphabet[k] == c
  {
    var k := if 'A' <= c <= 'Z' then c as int - 'A' as int else 26 + (c as int - '0' as int);
    AlphabetAt(k);
    k
  }

  /** Every string of the code format can be drawn: the generator's range is exactly `IsCode`. */
  lemma EveryCodeIsGenerated(code: string)
    requires IsCode(code)
    ensures exists picks :: ValidPicks(picks) && GenerateCode(picks) == code
  {
    var picks := seq(|code|, i requires 0 <= i < |code| => IndexOf(code[i]));
    assert ValidPicks(picks);
    assert GenerateCode(picks) == code;
  }

  /** Different draws give different codes: the alphabet has no repeated character. */
  lemma GenerateCodeInjective(p: seq<nat>, q: seq<nat>)
    requires ValidPicks(p) && ValidPicks(q) && p != q
    ensures GenerateCode(p) != GenerateCode(q)
  {
    var i :| 0 <= i < |p| && p[i] != q[i];
    AlphabetAt(p[i]);
    AlphabetAt(q[i]);
    assert GenerateCode(p)[i] != GenerateCode(q)[i];
  }
}
