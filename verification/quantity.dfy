/**
 * Canonical strings of Kubernetes resource quantities (apimachinery's
 * resource.Quantity.String) for non-negative whole values that fit in an
 * int64, in the two formats the builder uses.
 *
 * DecimalSI strips factors of ten, keeps the exponent a multiple of three and
 * writes it as a suffix (5000 is "5k"). BinarySI strips factors of 1024 and
 * writes Ki, Mi, Gi, ... (209715200 is "200Mi"); values below 1024 are
 * written in DecimalSI.
 */
module Quantity {

  import opened Strconv

  const MaxInt64: nat := 0x7fff_ffff_ffff_ffff

  function Pow(b: nat, e: nat): (r: nat)
    ensures b >= 1 ==> r >= 1
  {
    if e == 0 then 1 else b * Pow(b, e - 1)
  }

  /** Divides v by base as long as it divides: v == amount * base^times. */
  function RemoveFactors(v: nat, base: nat): (r: (nat, nat))
    requires v > 0 && base >= 2
    ensures r.0 * Pow(base, r.1) == v
    ensures r.0 > 0 && r.0 % base != 0
    decreases v
  {
    if v % base != 0 then (v, 0)
    else
      Quotient(v, base);
      var r := RemoveFactors(v / base, base);
      assert Pow(base, r.1 + 1) == base * Pow(base, r.1);
      DivideOut(r.0, base, Pow(base, r.1), v);
      (r.0, r.1 + 1)
  }

  lemma Quotient(v: nat, base: nat)
    requires v > 0 && base >= 2 && v % base == 0
    ensures 0 < v / base < v
  {
    var q := v / base;
    assert v == base * q;
    assert base * q >= 2 * q;
  }

  lemma DivideOut(a: nat, b: nat, p: nat, v: nat)
    requires b >= 2 && v % b == 0 && a * p == v / b
    ensures a * (b * p) == v
  {
    MulLeftCommute(a, b, p);
    assert b * (v / b) == v;
  }

  lemma MulLeftCommute(a: int, b: int, c: int)
    ensures a * (b * c) == b * (a * c)
  {
  }

  lemma {:induction false} PowAdd(b: nat, x: nat, y: nat)
    ensures Pow(b, x + y) == Pow(b, x) * Pow(b, y)
  {
    if y > 0 {
      PowAdd(b, x, y - 1);
      assert Pow(b, x + y) == b * (Pow(b, x) * Pow(b, y - 1));
      MulLeftCommute(b, Pow(b, x), Pow(b, y - 1));
    }
  }

  lemma PowTenNineteen()
    ensures Pow(10, 19) > MaxInt64
  {
    assert Pow(10, 2) == 100;
    PowAdd(10, 2, 2);
    PowAdd(10, 4, 4);
    PowAdd(10, 8, 8);
    assert Pow(10, 3) == 1000;
    PowAdd(10, 16, 3);
  }

  lemma Pow1024Seven()
    ensures Pow(1024, 7) > MaxInt64
  {
    assert Pow(1024, 2) == 1048576;
    PowAdd(1024, 2, 2);
    PowAdd(1024, 4, 2);
    PowAdd(1024, 6, 1);
  }

  lemma {:induction false} PowGrows(b: nat, e: nat, k: nat)
    requires b >= 2 && e >= k
    ensures Pow(b, e) >= Pow(b, k)
  {
    if e > k {
      PowGrows(b, e - 1, k);
    }
  }

  /** An exponent can be no larger than the value it divides. */
  lemma ExponentBound(m: nat, b: nat, t: nat, n: nat, k: nat)
    requires m >= 1 && b >= 2 && m * Pow(b, t) == n && n < Pow(b, k)
    ensures t < k
  {
    AtLeastOnce(m, Pow(b, t));
    if t >= k {
      PowGrows(b, t, k);
    }
  }

  lemma AtLeastOnce(m: nat, p: nat)
    requires m >= 1
    ensures m * p >= p
  {
    assert m * p == (m - 1) * p + p;
  }

  function DecimalSuffix(i: nat): string
    requires i <= 6
  {
    ["", "k", "M", "G", "T", "P", "E"][i]
  }

  function BinarySuffix(i: nat): string
    requires i <= 6
  {
    ["", "Ki", "Mi", "Gi", "Ti", "Pi", "Ei"][i]
  }

  /** The DecimalSI canonical string of n. */
  function DecimalSI(n: nat): string
    requires n <= MaxInt64
  {
    if n == 0 then "0"
    else
      var (mantissa, exponent) := RemoveFactors(n, 10);
      DecimalExponentBound(n);
      NatToString(mantissa * Pow(10, exponent % 3)) + DecimalSuffix(exponent / 3)
  }

  /** The BinarySI canonical string of n. */
  function BinarySI(n: nat): string
    requires n <= MaxInt64
  {
    if n < 1024 then DecimalSI(n)
    else
      var (mantissa, exponent) := RemoveFactors(n, 1024);
      BinaryExponentBound(n);
      NatToString(mantissa) + BinarySuffix(exponent)
  }

  /** An int64 has at most 18 factors of ten, so its DecimalSI suffix index is at most 6. */
  lemma DecimalExponentBound(n: nat)
    requires 0 < n <= MaxInt64
    ensures RemoveFactors(n, 10).1 <= 18 && RemoveFactors(n, 10).1 / 3 <= 6
  {
    var r := RemoveFactors(n, 10);
    PowTenNineteen();
    ExponentBound(r.0, 10, r.1, n, 19);
  }

  /** An int64 has at most 6 factors of 1024. */
  lemma BinaryExponentBound(n: nat)
    requires 0 < n <= MaxInt64
    ensures RemoveFactors(n, 1024).1 <= 6
  {
    var r := RemoveFactors(n, 1024);
    Pow1024Seven();
    ExponentBound(r.0, 1024, r.1, n, 7);
  }

  /** Below one thousand, DecimalSI is the plain decimal number. */
  lemma DecimalSISmall(n: nat)
    requires n < 1000
    ensures DecimalSI(n) == NatToString(n)
  {
    if n > 0 {
      var r := RemoveFactors(n, 10);
      assert Pow(10, 3) == 1000;
      ExponentBound(r.0, 10, r.1, n, 3);
      assert r.1 % 3 == r.1 && r.1 / 3 == 0;
      assert r.0 * Pow(10, r.1 % 3) == n;
      assert DecimalSuffix(r.1 / 3) == "";
    }
  }

  /** k mebibytes, k not a multiple of 1024, print as k followed by "Mi". */
  lemma MebibytesString(k: nat)
    requires 1 <= k && k % 1024 != 0 && k * 1048576 <= MaxInt64
    ensures BinarySI(k * 1048576) == NatToString(k) + "Mi"
  {
    var n := k * 1048576;
    assert n % 1024 == 0 && n / 1024 == k * 1024;
    assert (k * 1024) % 1024 == 0 && (k * 1024) / 1024 == k;
    assert RemoveFactors(k, 1024) == (k, 0);
    assert RemoveFactors(k * 1024, 1024) == (k, 1);
    assert RemoveFactors(n, 1024) == (k, 2);
  }

  lemma TwoHundredMebibytes()
    ensures BinarySI(200 * 1048576) == "200Mi"
  {
    MebibytesString(200);
    TwoHundredDigits();
  }

  lemma TwoHundredDigits()
    ensures NatToString(200) == "200"
  {
    assert NatToString(20) == NatToString(2) + "0";
  }
}
