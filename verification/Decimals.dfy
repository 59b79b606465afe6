/** Decimal numerals of natural numbers: `str(n)` and `int(text)` on digits. */
module Decimals {
  function Digit(d: nat): char
    requires d < 10
  {
    (d + 48) as char
  }

  function Show(n: nat): (s: string)
    ensures s != ""
  {
    if n < 10 then [Digit(n)] else Show(n / 10) + [Digit(n % 10)]
  }

  predicate IsDigit(c: char) { '0' <= c <= '9' }

  predicate AllDigits(s: string) { forall i :: 0 <= i < |s| ==> IsDigit(s[i]) }

  function Read(s: string): nat
    requires AllDigits(s)
  {
    if s == "" then 0 else Read(s[..|s| - 1]) * 10 + (s[|s| - 1] as int - 48)
  }

  lemma DigitsExactly(s: string)
    ensures AllDigits(s) <==> forall i :: 0 <= i < |s| ==> s[i] in "0123456789"
  {
  }

  lemma OneDigit(d: nat)
    requires d < 10
    ensures Show(d) == ["0123456789"[d]] && AllDigits(Show(d)) && Read(["0123456789"[d]]) == d
  {
  }

  lemma {:induction false} ReadShow(n: nat)
    ensures AllDigits(Show(n)) && Read(Show(n)) == n
  {
    if n < 10 {
      assert Show(n)[..0] == "";
    } else {
      ReadShow(n / 10);
      var s := Show(n);
      assert s[..|s| - 1] == Show(n / 10);
    }
  }
}
