/** Numbers and their digits in any base. */
module Bases {
  function Value(base: nat, ds: seq<nat>): nat {
    if ds == [] then 0 else Value(base, ds[..|ds| - 1]) * base + ds[|ds| - 1]
  }

  function Digits(base: nat, n: nat, x: nat): (ds: seq<nat>)
    requires base > 1
    ensures |ds| == n && forall i :: 0 <= i < n ==> ds[i] < base
  {
    if n == 0 then [] else Digits(base, n - 1, x / base) + [x % base]
  }

  function Power(base: nat, n: nat): (r: nat)
    requires base > 1
    ensures r > 0
  {
    if n == 0 then 1 else Power(base, n - 1) * base
  }

  lemma Scale(a: int, b: int, c: nat)
    ensures a <= b ==> a * c <= b * c
    ensures (a + 1) * c == a * c + c
  {
  }

  lemma DivModOf(x: nat, base: nat)
    requires base > 0
    ensures x == (x / base) * base + x % base
  {
  }

  lemma DivMod(q: nat, base: nat, r: nat)
    requires r < base
    ensures (q * base + r) / base == q && (q * base + r) % base == r
  {
    var x := q * base + r;
    DivModOf(x, base);
    Scale(q + 1, x / base, base);
    Scale(q, x / base, base);
    Scale(x / base + 1, q, base);
    Scale(x / base, q, base);
  }

  lemma {:induction false} ValueDigits(base: nat, n: nat, x: nat)
    requires base > 1 && x < Power(base, n)
    ensures Value(base, Digits(base, n, x)) == x
  {
    if n > 0 {
      var ds := Digits(base, n, x);
      assert ds[..n - 1] == Digits(base, n - 1, x / base);
      DivModOf(x, base);
      Scale(Power(base, n - 1), x / base, base);
      ValueDigits(base, n - 1, x / base);
    }
  }

  lemma {:induction false} DigitsValue(base: nat, ds: seq<nat>)
    requires base > 1 && forall i :: 0 <= i < |ds| ==> ds[i] < base
    ensures Value(base, ds) < Power(base, |ds|)
    ensures Digits(base, |ds|, Value(base, ds)) == ds
  {
    if ds != [] {
      var n := |ds| - 1;
      var q := Value(base, ds[..n]);
      DigitsValue(base, ds[..n]);
      DivMod(q, base, ds[n]);
      Scale(q + 1, Power(base, n), base);
      Scale(q, q, base);
      assert Digits(base, |ds|, q * base + ds[n]) == Digits(base, n, q) + [ds[n]];
      assert ds == ds[..n] + [ds[n]];
    }
  }

  lemma DivDiv(x: nat, b: nat, p: nat)
    requires b > 0 && p > 0
    ensures p * b > 0 && x / (p * b) == (x / b) / p
  {
    DivModOf(x, b);
    DivModOf(x / b, p);
    DivNested((x / b) / p, p, (x / b) % p, b, x % b);
  }

  lemma DivNested(q: nat, p: nat, r: nat, b: nat, s: nat)
    requires r < p && s < b
    ensures p * b > 0 && ((q * p + r) * b + s) / (p * b) == q
  {
    Below(r, p, s, b);
    Nested(q, p, r, b, s);
    DivMod(q, p * b, r * b + s);
  }

  /** A digit r below p, followed by a digit s below b, is below p * b. */
  lemma Below(r: nat, p: nat, s: nat, b: nat)
    requires r < p && s < b
    ensures 0 < p * b && r * b + s < p * b
  {
    Scale(r + 1, p, b);
    Scale(r, r, b);
  }

  lemma Nested(q: nat, p: nat, r: nat, b: nat, s: nat)
    ensures (q * p + r) * b + s == q * (p * b) + (r * b + s)
  {
  }

  /** A digit is what shifting and masking gives. */
  lemma {:induction false} DigitAt(base: nat, n: nat, x: nat, i: nat)
    requires base > 1 && i < n
    ensures Digits(base, n, x)[i] == (x / Power(base, n - 1 - i)) % base
  {
    if i < n - 1 {
      DigitAt(base, n - 1, x / base, i);
      DivDiv(x, base, Power(base, n - 2 - i));
    }
  }
}
