/** The two string primitives the environment-key translation is built from:
    ASCII upper-casing (`strtoupper`) and single-character replacement
    (`str_replace` with one-character needle and replacement). */
module Text {

  /** Lower-case ASCII letters, the only characters `UpperChar` changes. */
  predicate IsLowerAscii(c: char) {
    'a' <= c <= 'z'
  }

  /** The ASCII upper-case form of one character; every other character is kept. */
  function UpperChar(c: char): (u: char)
    ensures !IsLowerAscii(u)
    ensures IsLowerAscii(c) ==> u as int == c as int - 32 && 'A' <= u <= 'Z'
    ensures !IsLowerAscii(c) ==> u == c
  {
    if IsLowerAscii(c) then (c as int - 'a' as int + 'A' as int) as char else c
  }

  /** ASCII upper-casing of a whole string, character by character. */
  function ToUpperAscii(s: string): (r: string)
    ensures |r| == |s|
    ensures forall i :: 0 <= i < |s| ==> r[i] == UpperChar(s[i])
    ensures forall i :: 0 <= i < |r| ==> !IsLowerAscii(r[i])
  {
    if s == [] then [] else [UpperChar(s[0])] + ToUpperAscii(s[1..])
  }

  /** Every occurrence of `from` in `s` replaced by `to`, nothing else changed. */
  function ReplaceChar(s: string, from: char, to: char): (r: string)
    ensures |r| == |s|
    ensures forall i :: 0 <= i < |s| && s[i] == from ==> r[i] == to
    ensures forall i :: 0 <= i < |s| && s[i] != from ==> r[i] == s[i]
    ensures from != to ==> from !in r
  {
    if s == [] then [] else [if s[0] == from then to else s[0]] + ReplaceChar(s[1..], from, to)
  }

  /** Replacing a character that is no ASCII letter by one that upper-casing
      leaves alone commutes with upper-casing; so the order in which the two
      steps of the environment-key translation run does not matter. (With an
      upper-case letter as `from` it would not: `'a'` upper-cases to `'A'`
      only after the replacement has passed it by.) */
  lemma {:induction false} ReplaceCommutesWithUpper(s: string, from: char, to: char)
    requires !IsLowerAscii(from) && !('A' <= from <= 'Z') && !IsLowerAscii(to)
    ensures ReplaceChar(ToUpperAscii(s), from, to) == ToUpperAscii(ReplaceChar(s, from, to))
  {
    if s != [] {
      ReplaceCommutesWithUpper(s[1..], from, to);
    }
  }
}
