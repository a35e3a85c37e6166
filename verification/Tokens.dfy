/** The token estimate of backend/etl/tokens.py: one token per CJK character, four other
    characters to a token, rounded up. */
module Tokens {

  type Counter = string -> nat

  const CHARS_PER_TOKEN := 4

  predicate IsCjk(c: char) {
    var code := c as int;
    || 0x3000 <= code <= 0x303F
    || 0x3040 <= code <= 0x30FF
    || 0x3400 <= code <= 0x4DBF
    || 0x4E00 <= code <= 0x9FFF
    || 0xAC00 <= code <= 0xD7AF
    || 0xF900 <= code <= 0xFAFF
    || 0xFF00 <= code <= 0xFFEF
  }

  function CjkCount(s: string): (n: nat)
    ensures n <= |s|
  {
    if s == "" then 0 else (if IsCjk(s[0]) then 1 else 0) + CjkCount(s[1..])
  }

  function CeilDiv(n: nat, d: nat): nat
    requires d > 0
  {
    (n + d - 1) / d
  }

  function EstimateTokens(text: string): nat {
    var cjk := CjkCount(text);
    cjk + CeilDiv(|text| - cjk, CHARS_PER_TOKEN)
  }

  lemma {:induction false} CjkCountConcat(a: string, b: string)
    ensures CjkCount(a + b) == CjkCount(a) + CjkCount(b)
  {
    if a == "" {
      assert a + b == b;
    } else {
      assert (a + b)[1..] == a[1..] + b;
      CjkCountConcat(a[1..], b);
    }
  }

  /** Joining two texts never costs more than the two apart, never less than either one,
      and saves at most one token. */
  lemma EstimateConcat(a: string, b: string)
    ensures EstimateTokens(a + b) <= EstimateTokens(a) + EstimateTokens(b)
    ensures EstimateTokens(a) + EstimateTokens(b) <= EstimateTokens(a + b) + 1
    ensures EstimateTokens(a) <= EstimateTokens(a + b)
    ensures EstimateTokens(b) <= EstimateTokens(a + b)
  {
    CjkCountConcat(a, b);
  }

  lemma EstimateSlice(s: string, i: nat, j: nat)
    requires i <= j <= |s|
    ensures EstimateTokens(s[i..j]) <= EstimateTokens(s)
  {
    assert s == s[..i] + (s[i..j] + s[j..]);
    EstimateConcat(s[..i], s[i..j] + s[j..]);
    EstimateConcat(s[i..j], s[j..]);
  }

  lemma {:induction false} CjkCountExtremes(s: string)
    ensures (forall i :: 0 <= i < |s| ==> IsCjk(s[i])) ==> CjkCount(s) == |s|
    ensures (forall i :: 0 <= i < |s| ==> !IsCjk(s[i])) ==> CjkCount(s) == 0
  {
    if s != "" {
      CjkCountExtremes(s[1..]);
      assert forall i :: 0 <= i < |s[1..]| ==> s[1..][i] == s[i + 1];
    }
  }

  /** Chinese, Japanese and Korean characters with their punctuation and full-width forms. */
  predicate Wide(s: string) {
    forall c :: c in s ==>
      || '\U{3000}' <= c <= '\U{30FF}' || '\U{3400}' <= c <= '\U{4DBF}' || '\U{4E00}' <= c <= '\U{9FFF}'
      || '\U{AC00}' <= c <= '\U{D7AF}' || '\U{F900}' <= c <= '\U{FAFF}' || '\U{FF00}' <= c <= '\U{FFEF}'
  }

  /** The letters, digits and marks of every script below those. */
  predicate Narrow(s: string) {
    forall c :: c in s ==> c < '\U{3000}'
  }

  /** A token for every wide character, and one for every four narrow ones or part of four. */
  lemma EstimateOfBoth(wide: string, narrow: string)
    requires Wide(wide) && Narrow(narrow)
    ensures EstimateTokens(wide + narrow) == |wide| + (|narrow| + 3) / 4 == EstimateTokens(narrow + wide)
  {
    assert forall i :: 0 <= i < |wide| ==> wide[i] in wide;
    assert forall i :: 0 <= i < |narrow| ==> narrow[i] in narrow;
    CjkCountExtremes(wide);
    CjkCountExtremes(narrow);
    CjkCountConcat(wide, narrow);
    CjkCountConcat(narrow, wide);
  }

  /** The estimate lies between a quarter of the length and the length. */
  lemma EstimateRange(s: string)
    ensures |s| <= 4 * EstimateTokens(s)
    ensures EstimateTokens(s) <= |s|
  {}
}
