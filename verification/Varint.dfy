// Little-endian base-128 integers in 64-bit words (src/address_check.cpp, readVarint).
module Varint {
  import opened Bytes
  import opened Positional

  // ---- The word operations the code uses, on naturals below 2^64 ----

  function Or(a: nat, b: nat): nat {
    if a == 0 && b == 0 then 0
    else 2 * Or(a / 2, b / 2) + (if a % 2 == 1 || b % 2 == 1 then 1 else 0)
  }

  function ShiftLeft64(x: nat, n: nat): nat { x * Pow(2, n) % U64 }

  // ---- What it should read ----

  // The bytes of a varint that begins b: up to and including the first with its top bit clear.
  function TerminatorIndex(b: seq<byte>): (k: nat)
    ensures k <= |b| && (k < |b| ==> b[k] < 128) && forall i :: 0 <= i < k ==> b[i] >= 128
  {
    if b == [] || b[0] < 128 then 0 else 1 + TerminatorIndex(b[1..])
  }

  // The base-128 sum of the low seven bits, least significant first.
  function Sum(b: seq<byte>): nat {
    if b == [] then 0 else b[0] % 128 + 128 * Sum(b[1..])
  }

  method ReadVarint(b: seq<byte>) returns (ok: bool, v: nat, n: nat)
    ensures ok <==> TerminatorIndex(b) < Min(10, |b|)
    ensures ok ==> n == TerminatorIndex(b) + 1 && v == Sum(b[..n]) % U64
  {
    v := 0;
    n := 0;
    var shift := 0;
    while n < |b| && shift < 64
      invariant n <= |b| && shift == 7 * n && n <= 10
      invariant forall i :: 0 <= i < n ==> b[i] >= 128
      invariant v == Sum(b[..n]) % U64
    {
      OrAddsNext(b, n, v);
      v := Or(v, ShiftLeft64(b[n] % 128, shift));
      n := n + 1;
      if b[n - 1] < 128 { return true, v, n; }
      shift := shift + 7;
    }
    ok := false;
  }

  // ---- Or-ing in a shifted group is adding it ----

  // Bits that do not meet: or is plus.
  lemma {:induction false} OrDisjoint(a: nat, x: nat, s: nat)
    requires a < Pow(2, s)
    ensures Or(a, x * Pow(2, s)) == a + x * Pow(2, s)
    decreases s
  {
    if s == 0 {
      OrZero(x);
      assert x * Pow(2, s) == x;
    } else {
      var y := x * Pow(2, s - 1);
      assert x * Pow(2, s) == 2 * y;
      OrDisjoint(a / 2, x, s - 1);
    }
  }

  lemma {:induction false} OrZero(x: nat)
    ensures Or(0, x) == x
  {
    if x > 0 { OrZero(x / 2); }
  }

  lemma {:induction false} SumSnoc(b: seq<byte>, n: nat)
    requires n < |b|
    ensures Sum(b[..n + 1]) == Sum(b[..n]) + b[n] % 128 * Pow(128, n)
    decreases n
  {
    if n == 0 {
      assert b[..1] == [b[0]] && b[..1][1..] == [];
    } else {
      SumSnoc(b[1..], n - 1);
      assert b[..n + 1][1..] == b[1..][..n] && b[..n][1..] == b[1..][..n - 1];
      assert 128 * (b[n] % 128 * Pow(128, n - 1)) == b[n] % 128 * Pow(128, n);
    }
  }

  lemma {:induction false} SumBound(b: seq<byte>)
    ensures Sum(b) < Pow(128, |b|)
  {
    if b != [] { SumBound(b[1..]); }
  }

  lemma Powers()
    ensures Pow(2, 7) == 128 && Pow(2, 1) == 2 && Pow(2, 64) == U64 && Pow(2, 63) * 2 == U64
  {
    assert Pow(2, 4) == 16;
    PowAdd(2, 4, 3);
    PowAdd(2, 4, 4);
    PowAdd(2, 8, 8);
    PowAdd(2, 16, 16);
    PowAdd(2, 32, 32);
  }

  lemma OrAddsNext(b: seq<byte>, n: nat, v: nat)
    requires n < |b| && 7 * n < 64 && v == Sum(b[..n]) % U64
    ensures Or(v, ShiftLeft64(b[n] % 128, 7 * n)) == Sum(b[..n + 1]) % U64
  {
    hide Sum, Pow, Or;
    var s, x := 7 * n, b[n] % 128;
    Powers();
    PowMul(2, 7, n);
    PowAdd(2, s, 64 - s);
    SumBound(b[..n]);
    SumSnoc(b, n);
    var p, q := Pow(2, s), Pow(2, 64 - s);
    assert p * q == U64 && Sum(b[..n]) < p;
    Fits(Sum(b[..n]), p, q);
    ShiftWraps(x, p, q);
    OrDisjoint(v, x % q, s);
    AddWraps(Sum(b[..n]), x, p, q);
  }

  lemma Fits(a: nat, p: nat, q: nat)
    requires a < p && q > 0 && p * q == U64
    ensures a % U64 == a
  {
    MulBig(q, p);
    assert a < U64;
  }

  // Shifting out of a 64-bit word drops whole groups.
  lemma ShiftWraps(x: nat, p: nat, q: nat)
    requires p > 0 && q > 0 && p * q == U64
    ensures x * p % U64 == x % q * p
  {
    QuotientIsNat(x, q);
    assert x * p == (x / q * q + x % q) * p == x / q * (q * p) + x % q * p;
    Shifted(x % q, q, p, 0);
    assert q * p == p * q;
    DivModUnique(x / q, U64, x % q * p);
  }

  lemma AddWraps(a: nat, x: nat, p: nat, q: nat)
    requires a < p && q > 0 && p * q == U64
    ensures (a + x * p) % U64 == a + x % q * p
  {
    QuotientIsNat(x, q);
    assert x * p == (x / q * q + x % q) * p == x / q * (q * p) + x % q * p;
    Shifted(x % q, q, p, a);
    assert q * p == p * q;
    DivModUnique(x / q, U64, x % q * p + a);
  }

  // ---- The encoder and the round trip ----

  function Encode(v: nat): (bs: seq<byte>)
    ensures bs != [] && bs[|bs| - 1] < 128 && forall i :: 0 <= i < |bs| - 1 ==> bs[i] >= 128
  {
    if v < 128 then [v] else [v % 128 + 128] + Encode(v / 128)
  }

  lemma {:induction false} EncodeSum(v: nat)
    ensures Sum(Encode(v)) == v
  {
    if v >= 128 {
      EncodeSum(v / 128);
      assert Encode(v)[1..] == Encode(v / 128);
      assert (v % 128 + 128) % 128 == v % 128;
    } else {
      assert Encode(v)[1..] == [];
    }
  }

  lemma {:induction false} EncodeLength(v: nat, k: nat)
    requires v < Pow(128, k) && k > 0
    ensures |Encode(v)| <= k
    decreases k
  {
    if v >= 128 {
      assert k > 1 by { assert Pow(128, 1) == 128; }
      assert Pow(128, k) == 128 * Pow(128, k - 1);
      EncodeLength(v / 128, k - 1);
    }
  }

  // Reading what was written: any 64-bit value, whatever bytes follow.
  lemma RoundTrip(v: nat, rest: seq<byte>)
    requires v < U64
    ensures var b, n := Encode(v) + rest, |Encode(v)|;
      && n <= 10 && TerminatorIndex(b) == n - 1
      && Sum(b[..n]) % U64 == v
  {
    var e := Encode(v);
    var b := e + rest;
    assert forall i :: 0 <= i < |e| ==> b[i] == e[i];
    assert b[..|e|] == e;
    EncodeSum(v);
    Powers();
    PowMul(2, 7, 10);
    PowAdd(2, 64, 6);
    EncodeLength(v, 10);
  }
}
