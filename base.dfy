/** Small building blocks shared by the rest of the model: an optional value,
    bytes, and the few string operations the application relies on
    (JavaScript's `trim`, `includes` and number-to-text rendering). */
module Base {

  datatype Option<T> = None | Some(value: T)

  newtype byte = x: int | 0 <= x < 256

  /** The characters JavaScript's `String.prototype.trim` strips: the
      WhiteSpace and LineTerminator code points of ECMA-262. */
  predicate IsSpace(c: char) {
    || c == ' ' || c == '\t' || c == '\n' || c == '\r'
    || c == '\U{000B}' || c == '\U{000C}' || c == '\U{00A0}' || c == '\U{FEFF}'
    || c == '\U{1680}' || ('\U{2000}' <= c <= '\U{200A}')
    || c == '\U{2028}' || c == '\U{2029}' || c == '\U{202F}' || c == '\U{205F}'
    || c == '\U{3000}'
  }

  /** Drops leading whitespace: what is dropped is all whitespace, what is
      kept is a suffix of the input that does not start with whitespace. */
  function TrimStart(s: string): (r: string)
    ensures |r| <= |s| && r == s[|s| - |r|..]
    ensures r == [] || !IsSpace(r[0])
    ensures forall i :: 0 <= i < |s| - |r| ==> IsSpace(s[i])
  {
    if s != [] && IsSpace(s[0]) then TrimStart(s[1..]) else s
  }

  /** Drops trailing whitespace, symmetrically to TrimStart. */
  function TrimEnd(s: string): (r: string)
    ensures |r| <= |s| && r == s[..|r|]
    ensures r == [] || !IsSpace(r[|r| - 1])
    ensures forall i :: |r| <= i < |s| ==> IsSpace(s[i])
  {
    if s != [] && IsSpace(s[|s| - 1]) then TrimEnd(s[..|s| - 1]) else s
  }

  function Trim(s: string): string {
    TrimEnd(TrimStart(s))
  }

  /** `trim()` yields the empty string exactly when the input is all
      whitespace; this is the "blank input" test of the chat box and of the
      descriptor text field. */
  lemma TrimEmptyIff(s: string)
    ensures Trim(s) == [] <==> forall i :: 0 <= i < |s| ==> IsSpace(s[i])
  {
    var t := TrimStart(s);
    if Trim(s) == [] {
      forall i | 0 <= i < |s| ensures IsSpace(s[i]) {
        if i >= |s| - |t| {
          assert t[i - (|s| - |t|)] == s[i];
        }
      }
    } else {
      var k := |s| - |t|;
      assert !IsSpace(t[0]) && t[0] == s[k];
    }
  }

  predicate OccursAt(s: string, sub: string, i: int) {
    0 <= i <= |s| - |sub| && s[i..i + |sub|] == sub
  }

  /** JavaScript's `s.includes(sub)`. */
  predicate Contains(s: string, sub: string) {
    exists i | 0 <= i <= |s| - |sub| :: OccursAt(s, sub, i)
  }

  lemma ContainsSuffix(prefix: string, sub: string, rest: string)
    ensures Contains(prefix + sub + rest, sub)
  {
    var s := prefix + sub + rest;
    assert OccursAt(s, sub, |prefix|);
  }

  function DigitChar(d: nat): char
    requires d < 10
  {
    "0123456789"[d]
  }

  /** Decimal rendering of a natural number, as a template literal prints it. */
  function DecimalString(n: nat): (r: string)
    ensures 0 < |r|
    ensures forall i :: 0 <= i < |r| ==> '0' <= r[i] <= '9'
    ensures n > 0 ==> r[0] != '0'
  {
    if n < 10 then [DigitChar(n)] else DecimalString(n / 10) + [DigitChar(n % 10)]
  }

  /** The number a string of decimal digits denotes. */
  function DigitsValue(s: string): nat
    requires forall i :: 0 <= i < |s| ==> '0' <= s[i] <= '9'
  {
    if s == [] then 0 else 10 * DigitsValue(s[..|s| - 1]) + (s[|s| - 1] as int - '0' as int)
  }

  lemma DigitCharValue(d: nat)
    requires d < 10
    ensures DigitChar(d) as int - '0' as int == d
  {
    assert d == 0 || d == 1 || d == 2 || d == 3 || d == 4 || d == 5 || d == 6 || d == 7 || d == 8 || d == 9;
  }

  /** Reading back the rendered digits gives the number again. */
  lemma {:induction false} DecimalRoundTrip(n: nat)
    ensures DigitsValue(DecimalString(n)) == n
  {
    DigitCharValue(n % 10);
    if n >= 10 {
      DecimalRoundTrip(n / 10);
      var r := DecimalString(n);
      assert r[..|r| - 1] == DecimalString(n / 10);
    }
  }

  /** `Math.round(n / d)` for a natural numerator and a positive divisor:
      halves round up, as `Math.round` does for non-negative numbers. */
  function RoundDiv(n: nat, d: nat): (r: nat)
    requires d > 0
    ensures 2 * d * r <= 2 * n + d < 2 * d * (r + 1)
  {
    var q := (2 * n + d) / (2 * d);
    assert (2 * n + d) == 2 * d * q + (2 * n + d) % (2 * d);
    q
  }
}
