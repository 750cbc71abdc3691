/** Powers of two, bytes and the bitwise or of unsigned numbers. */
module Powers {
  function Pow2(n: nat): (r: nat)
    ensures r >= 1
  {
    if n == 0 then 1 else 2 * Pow2(n - 1)
  }

  const WORD := 0x1_0000_0000_0000_0000

  lemma {:induction false} Pow2Add(a: nat, b: nat)
    ensures Pow2(a + b) == Pow2(a) * Pow2(b)
  {
    if a > 0 { Pow2Add(a - 1, b); }
  }

  lemma {:induction false} Pow2Grows(a: nat, b: nat)
    requires a <= b
    ensures Pow2(a) <= Pow2(b)
    ensures a < b ==> Pow2(a) < Pow2(b)
  {
    if a < b { Pow2Grows(a, b - 1); }
  }

  lemma {:induction false} Pow2Word()
    ensures Pow2(64) == WORD && Pow2(63) == WORD / 2
  {
    Pow2Add(8, 8);
    Pow2Add(16, 16);
    Pow2Add(32, 32);
    assert Pow2(8) == 256;
  }

  // ----- division --------------------------------------------------------------------

  lemma {:induction false} Spread(x: int, y: int, d: int)
    ensures (x - y) * d == x * d - y * d && (x + y) * d == x * d + y * d
  {}

  lemma {:induction false} AtLeastOne(k: nat, d: nat)
    requires k > 0
    ensures k * d >= d
  {
    Spread(k, 1, d);
    Product(k - 1, d);
  }

  lemma {:induction false} Product(k: nat, d: nat)
    ensures k * d >= 0
  {}

  /** The quotient and the remainder are the only ones. */
  lemma {:induction false} DivIs(n: nat, d: nat, q: nat, r: nat)
    requires d > 0 && n == q * d + r && r < d
    ensures n / d == q && n % d == r
  {
    Spread(n / d, q, d);
    if n / d > q { AtLeastOne(n / d - q, d); }
    if n / d < q {
      Spread(q, n / d, d);
      AtLeastOne(q - n / d, d);
    }
  }

  lemma {:induction false} Below(t: nat, b: nat, a: nat, r: nat)
    requires t < b && r < a
    ensures t * a + r < a * b
  {
    AtLeastOne(b - t, a);
    Spread(b, t, a);
  }

  lemma {:induction false} DivDiv(n: nat, a: nat, b: nat)
    requires a > 0 && b > 0
    ensures a * b > 0 && n / (a * b) == n / a / b
    ensures n % (a * b) == n / a % b * a + n % a
  {
    var q, r := n / a, n % a;
    var s, t := q / b, q % b;
    Below(t, b, a, r);
    assert n == s * (a * b) + (t * a + r);
    DivIs(n, a * b, s, t * a + r);
  }

  // ----- bytes, most significant first -----------------------------------------------

  function Number(bytes: seq<nat>): nat {
    if bytes == [] then 0 else Number(bytes[..|bytes| - 1]) * 256 + bytes[|bytes| - 1]
  }

  function Digits(n: nat, k: nat): (d: seq<nat>)
    ensures |d| == k && forall i :: 0 <= i < k ==> d[i] < 256
  {
    if k == 0 then [] else Digits(n / 256, k - 1) + [n % 256]
  }

  function Pow256(k: nat): (r: nat)
    ensures r >= 1
  {
    if k == 0 then 1 else 256 * Pow256(k - 1)
  }

  lemma {:induction false} Pow256Word()
    ensures Pow256(8) == WORD && Pow256(16) == WORD * WORD
  {
    Pow256Add(8, 8);
  }

  lemma {:induction false} Pow256Add(a: nat, b: nat)
    ensures Pow256(a + b) == Pow256(a) * Pow256(b)
  {
    if a > 0 { Pow256Add(a - 1, b); }
  }

  lemma {:induction false} NumberOfDigits(n: nat, k: nat)
    ensures Number(Digits(n, k)) == n % Pow256(k)
  {
    if k > 0 {
      NumberOfDigits(n / 256, k - 1);
      var d := Digits(n, k);
      assert d[..k - 1] == Digits(n / 256, k - 1);
      DivDiv(n, 256, Pow256(k - 1));
    }
  }

  lemma {:induction false} DigitAt(n: nat, k: nat, j: nat)
    requires j < k
    ensures Digits(n, k)[j] == n / Pow256(k - 1 - j) % 256
  {
    if j < k - 1 {
      DigitAt(n / 256, k - 1, j);
      DivDiv(n, 256, Pow256(k - 2 - j));
    }
  }

  lemma {:induction false} DigitsSplit(n: nat, k: nat, m: nat)
    ensures Digits(n, k + m)[..k] == Digits(n / Pow256(m), k)
    ensures Digits(n, k + m)[k..] == Digits(n, m)
  {
    if m > 0 {
      DigitsSplit(n / 256, k, m - 1);
      DivDiv(n, 256, Pow256(m - 1));
      var d, e := Digits(n, k + m), Digits(n / 256, k + m - 1);
      assert d == e + [n % 256];
      assert d[..k] == e[..k] && d[k..] == e[k..] + [n % 256];
    }
  }

  lemma {:induction false} NumberJoin(a: seq<nat>, b: seq<nat>)
    ensures Number(a + b) == Number(a) * Pow256(|b|) + Number(b)
  {
    if b == [] {
      assert a + b == a;
    } else {
      var c := b[..|b| - 1];
      NumberJoin(a, c);
      assert (a + b)[..|a + b| - 1] == a + c;
      assert Number(a) * Pow256(|b|) == Number(a) * Pow256(|c|) * 256;
    }
  }

  // ----- the bitwise or --------------------------------------------------------------

  function Or(a: nat, b: nat): nat
    decreases a + b
  {
    if a == 0 then b else if b == 0 then a
    else 2 * Or(a / 2, b / 2) + if a % 2 == 1 || b % 2 == 1 then 1 else 0
  }

  /** Where no bit is set in both, the or is the sum. */
  lemma {:induction false} OrIsSum(a: nat, b: nat, k: nat)
    requires a % Pow2(k) == 0 && b < Pow2(k)
    ensures Or(a, b) == a + b
    decreases k
  {
    if k > 0 && a > 0 && b > 0 {
      DivDiv(a, 2, Pow2(k - 1));
      assert a / 2 % Pow2(k - 1) == 0 && a % 2 == 0;
      OrIsSum(a / 2, b / 2, k - 1);
    }
  }
}
