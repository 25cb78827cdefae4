/** `Number.prototype.toString(radix)` on non-negative integers, as the plugin
    uses it for HTTP status codes (radix 10) and for token digits (radix 16),
    together with the positional reading that undoes it. */
module Radix {

  /** The two radixes the plugin writes numbers in. */
  type Base = b: int | b == 10 || b == 16 witness 10

  /** Euclidean division by a base, as `toString` uses it to peel off the last digit. */
  lemma DivMod(n: nat, base: Base)
    ensures n == (n / base) * base + n % base && 0 <= n % base < base
    ensures n >= base ==> 1 <= n / base < n
  {
  }

  /** The characters JavaScript uses for digits: 0-9 then lower-case a-f. */
  predicate IsDigitChar(c: char)
  {
    '0' <= c <= '9' || 'a' <= c <= 'f'
  }

  function DigitValue(c: char): nat
  {
    if '0' <= c <= '9' then c as int - '0' as int
    else if 'a' <= c <= 'f' then c as int - 'a' as int + 10
    else 0
  }

  function DigitChar(d: nat): (c: char)
    requires d < 16
    ensures IsDigitChar(c) && DigitValue(c) == d
  {
    if d < 10 then ('0' as int + d) as char else ('a' as int + d - 10) as char
  }

  /** `n.toString(base)`: most significant digit first, "0" for zero. */
  function ToString(n: nat, base: Base): (s: string)
    ensures |s| >= 1
    ensures forall i :: 0 <= i < |s| ==> IsDigitChar(s[i]) && DigitValue(s[i]) < base
    ensures |s| > 1 ==> s[0] != '0'
    decreases n
  {
    if n < base then [DigitChar(n)]
    else DivMod(n, base); ToString(n / base, base) + [DigitChar(n % base)]
  }

  /** The number a string of digits denotes in the given base. */
  function Value(s: string, base: Base): nat
  {
    if s == [] then 0
    else Value(s[..|s| - 1], base) * base + DigitValue(s[|s| - 1])
  }

  /** Reading back what `toString` wrote gives the number it started from,
      so distinct numbers are written as distinct strings. */
  lemma {:induction false} ValueOfToString(n: nat, base: Base)
    ensures Value(ToString(n, base), base) == n
    decreases n
  {
    var s := ToString(n, base);
    if n >= base {
      var q, r := n / base, n % base;
      DivMod(n, base);
      assert s == ToString(q, base) + [DigitChar(r)];
      assert s[..|s| - 1] == ToString(q, base);
      ValueOfToString(q, base);
      assert Value(s, base) == q * base + r;
    }
  }
}
