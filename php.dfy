/** The parts of PHP's value semantics that the gateway's decisions depend on:
    JSON values as `json_decode($body, true)` yields them, truthiness (`!$x`),
    `isset`/`??` on array fields, string conversion, loose `switch` comparison
    against a case label, `strtolower`, and how a decimal id reads and prints. */
module Php {
  import opened Wrappers

  /** A scalar JSON value as PHP decodes it (floats and nested arrays are not modelled). */
  datatype Value = JNull | JBool(b: bool) | JInt(i: int) | JString(s: string)

  /** What `json_decode($body, true)` returns: null for a body that does not
      decode, a scalar for a scalar document, an array of fields otherwise. */
  datatype Decoded = Undecodable | Scalar(v: Value) | Fields(m: map<string, Value>)

  /** A string is truthy unless it is "" or "0" (so `empty("0")` holds). */
  predicate TruthyText(s: string) {
    s != "" && s != "0"
  }

  predicate Truthy(v: Value) {
    match v
    case JNull => false
    case JBool(b) => b
    case JInt(i) => i != 0
    case JString(s) => TruthyText(s)
  }

  /** `!$data` is false exactly for a decoded scalar that is truthy or a non-empty array. */
  predicate DecodedTruthy(d: Decoded) {
    match d
    case Undecodable => false
    case Scalar(v) => Truthy(v)
    case Fields(m) => m != map[]
  }

  /** `$m[key]` as `isset` and `??` see it: absent when the key is missing or holds null. */
  function Get(m: map<string, Value>, key: string): Option<Value> {
    if key in m && m[key] != JNull then Some(m[key]) else None
  }

  /** `$data[key]` on any decoded value: a scalar has no fields that `isset` accepts. */
  function Field(d: Decoded, key: string): Option<Value> {
    match d
    case Fields(m) => Get(m, key)
    case _ => None
  }

  predicate IsDigit(c: char) {
    '0' <= c <= '9'
  }

  predicate AllDigits(s: string) {
    forall k :: 0 <= k < |s| ==> IsDigit(s[k])
  }

  /** Every character is a lower-case ASCII letter. */
  predicate LowerLetters(w: string) {
    forall k :: 0 <= k < |w| ==> 'a' <= w[k] <= 'z'
  }

  /** A lower-case ASCII word, as every `case` label of the gateway's switches is. */
  predicate IsWord(w: string) {
    |w| > 0 && LowerLetters(w)
  }

  function DigitChar(d: nat): (c: char)
    requires d < 10
    ensures IsDigit(c)
  {
    (('0' as int) + d) as char
  }

  /** Decimal text of a natural number, without leading zeros. */
  function NatText(n: nat): (r: string)
    ensures |r| > 0 && AllDigits(r)
    ensures r[0] == '0' ==> n == 0
  {
    if n < 10 then [DigitChar(n)] else NatText(n / 10) + [DigitChar(n % 10)]
  }

  /** PHP's `(string) $int`. */
  function IntText(i: int): string {
    if i < 0 then "-" + NatText(-i) else NatText(i)
  }

  /** The number a string of decimal digits denotes. */
  function DigitsValue(s: string): nat
    requires AllDigits(s)
  {
    if s == [] then 0 else DigitsValue(s[..|s| - 1]) * 10 + ((s[|s| - 1] as int) - ('0' as int))
  }

  /** Reading back the decimal text of `n` gives `n`. */
  lemma {:induction false} DigitsValueOfNatText(n: nat)
    ensures DigitsValue(NatText(n)) == n
  {
    if n >= 10 {
      var t := NatText(n);
      assert t[..|t| - 1] == NatText(n / 10);
      DigitsValueOfNatText(n / 10);
    }
  }

  /** PHP's string conversion of a scalar (`(string) $v`, `'...' . $v`). */
  function Text(v: Value): string {
    match v
    case JNull => ""
    case JBool(b) => if b then "1" else ""
    case JInt(i) => IntText(i)
    case JString(s) => s
  }

  function LowerChar(c: char): char {
    if 'A' <= c <= 'Z' then ((c as int) + 32) as char else c
  }

  /** `strtolower`: ASCII letters only. */
  function Lower(s: string): string {
    if s == [] then [] else [LowerChar(s[0])] + Lower(s[1..])
  }

  /** Lower-casing twice is lower-casing once. */
  lemma {:induction false} LowerIdempotent(s: string)
    ensures Lower(Lower(s)) == Lower(s)
  {
    if s != [] {
      var t := Lower(s);
      assert t[0] == LowerChar(s[0]) && t[1..] == Lower(s[1..]);
      LowerIdempotent(s[1..]);
    }
  }

  /** A lower-case word is its own lower-case form. */
  lemma {:induction false} LowerOfWord(w: string)
    requires LowerLetters(w)
    ensures Lower(w) == w
  {
    if w != [] {
      LowerOfWord(w[1..]);
    }
  }

  /** PHP 8's `$v == $word` as a `switch` evaluates it, for a lower-case word:
      a string compares as a string, a boolean against the word's truthiness,
      an integer through its decimal text, null through "". */
  function LooseEquals(v: Value, word: string): (r: bool)
    requires IsWord(word)
    ensures r <==> v == JString(word) || v == JBool(true)
  {
    match v
    case JNull => word == ""
    case JBool(b) =>
      assert 'a' <= word[0];
      b == TruthyText(word)
    case JInt(i) =>
      var t := IntText(i);
      assert t[0] == '-' || IsDigit(t[0]);
      t == word
    case JString(s) => s == word
  }
}
