/**
 * String operations of JavaScript used by the catalog, search and form code:
 * `toLowerCase` (on ASCII letters), `includes`, `startsWith`, the `\s` and `\D`
 * regular-expression classes and `Number.parseInt(v) || 0`.
 */
module Text {
  import Seqs

  /** `toLowerCase` on one character; only ASCII letters change. */
  function LowerChar(c: char): char {
    if 'A' <= c <= 'Z' then (c as int + 32) as char else c
  }

  function Lower(s: string): string {
    seq(|s|, i requires 0 <= i < |s| => LowerChar(s[i]))
  }

  /** `s.startsWith(prefix)` */
  predicate StartsWith(s: string, prefix: string) {
    |prefix| <= |s| && s[..|prefix|] == prefix
  }

  /** `s.includes(t)` */
  predicate Contains(s: string, t: string) {
    exists i :: 0 <= i <= |s| && OccursAt(s, t, i)
  }

  /** `t` stands in `s` from position `i` on. */
  predicate OccursAt(s: string, t: string, i: nat) {
    i + |t| <= |s| && s[i..i + |t|] == t
  }

  /** Every string includes the empty string. */
  lemma ContainsEmpty(s: string)
    ensures Contains(s, "")
  {
    assert OccursAt(s, "", 0);
  }

  /** The `\d` class: ASCII digits only. */
  predicate IsDigit(c: char) {
    '0' <= c <= '9'
  }

  /** The `\s` class (WhiteSpace and LineTerminator of ECMAScript). */
  predicate IsSpace(c: char) {
    var n := c as int;
    || 0x09 <= n <= 0x0D || n == 0x20 || n == 0xA0 || n == 0x1680
    || 0x2000 <= n <= 0x200A || n == 0x2028 || n == 0x2029 || n == 0x202F
    || n == 0x205F || n == 0x3000 || n == 0xFEFF
  }

  /** `s.replace(/\D/g, "")` */
  function DigitsOnly(s: string): string {
    Seqs.Filter(s, IsDigit)
  }

  /** `trimStart`: the leading white space removed, the rest kept. */
  function TrimStart(s: string): (r: string)
    ensures |r| == 0 || !IsSpace(r[0])
    ensures |r| <= |s|
  {
    if |s| > 0 && IsSpace(s[0]) then TrimStart(s[1..]) else s
  }

  /** The longest prefix of `s` made of digits. */
  function LeadingDigits(s: string): (r: string)
    ensures |r| <= |s| && r == s[..|r|]
    ensures forall c :: c in r ==> IsDigit(c)
    ensures |r| < |s| ==> !IsDigit(s[|r|])
  {
    if |s| > 0 && IsDigit(s[0]) then [s[0]] + LeadingDigits(s[1..]) else []
  }

  function DigitValue(c: char): nat
    requires IsDigit(c)
  {
    (c as int - '0' as int) as nat
  }

  function DecimalValue(d: string): nat
    requires forall c :: c in d ==> IsDigit(c)
  {
    if d == [] then 0
    else
      assert d[|d| - 1] in d;
      DecimalValue(d[..|d| - 1]) * 10 + DigitValue(d[|d| - 1])
  }

  /**
   * `Number.parseInt(s) || 0` for decimal text: leading white space is skipped,
   * one sign is accepted, the longest run of digits that follows is read, and a
   * string without such digits (where `parseInt` gives NaN) yields 0.
   */
  function ParseIntOrZero(s: string): int {
    var t := TrimStart(s);
    var negative := |t| > 0 && t[0] == '-';
    var body := if |t| > 0 && (t[0] == '-' || t[0] == '+') then t[1..] else t;
    var digits := LeadingDigits(body);
    if digits == [] then 0
    else if negative then -(DecimalValue(digits) as int)
    else DecimalValue(digits)
  }

  /** The decimal text of a natural number, as `String(n)` writes it. */
  function Decimal(n: nat): (r: string)
    ensures |r| > 0 && forall c :: c in r ==> IsDigit(c)
  {
    if n < 10 then [('0' as int + n) as char]
    else Decimal(n / 10) + [('0' as int + n % 10) as char]
  }

  lemma {:induction false} DecimalValueOfDecimal(n: nat)
    ensures DecimalValue(Decimal(n)) == n
  {
    var d := Decimal(n);
    if n >= 10 {
      DecimalValueOfDecimal(n / 10);
      assert d[..|d| - 1] == Decimal(n / 10);
    } else {
      assert d[..|d| - 1] == [];
    }
  }

  lemma {:induction false} LeadingDigitsOfDigits(s: string)
    requires forall c :: c in s ==> IsDigit(c)
    ensures LeadingDigits(s) == s
  {
    if |s| > 0 {
      LeadingDigitsOfDigits(s[1..]);
    }
  }

  /** Reading back the decimal text of an integer, with a minus sign when negative, gives it back. */
  lemma ParseIntOfDecimal(n: nat)
    ensures ParseIntOrZero(Decimal(n)) == n
    ensures ParseIntOrZero("-" + Decimal(n)) == -(n as int)
  {
    var d := Decimal(n);
    assert !IsSpace(d[0]) by { assert d[0] in d; }
    LeadingDigitsOfDigits(d);
    DecimalValueOfDecimal(n);
    assert TrimStart(d) == d;
    var m := "-" + d;
    assert TrimStart(m) == m;
    assert m[1..] == d;
  }

  /** Text that does not start with white space, a sign or a digit reads as 0. */
  lemma ParseIntOfNonNumeric(s: string)
    requires |s| > 0 && !IsSpace(s[0]) && !IsDigit(s[0]) && s[0] != '-' && s[0] != '+'
    ensures ParseIntOrZero(s) == 0
  {
  }
}
