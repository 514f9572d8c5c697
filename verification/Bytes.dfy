// Bytes, powers and positional notation: the arithmetic shared by base58, varints and decimals.
module Bytes {
  type byte = n: nat | n < 256

  const U64: nat := 0x1_0000_0000_0000_0000

  datatype Option<T> = None | Some(value: T)

  function Min(a: nat, b: nat): nat { if a < b then a else b }

  function Pow(b: nat, e: nat): (p: nat)
    ensures b > 0 ==> p > 0
  {
    if e == 0 then 1 else b * Pow(b, e - 1)
  }

  lemma {:induction false} PowAdd(b: nat, m: nat, n: nat)
    ensures Pow(b, m + n) == Pow(b, m) * Pow(b, n)
  {
    if m > 0 {
      PowAdd(b, m - 1, n);
      MulAssociates(b, Pow(b, m - 1), Pow(b, n));
    }
  }

  lemma MulAssociates(a: nat, b: nat, c: nat)
    ensures a * (b * c) == (a * b) * c
  {
  }

  lemma {:induction false} PowMul(b: nat, m: nat, n: nat)
    ensures Pow(Pow(b, m), n) == Pow(b, m * n)
  {
    if n > 0 {
      PowMul(b, m, n - 1);
      assert m * n == m + m * (n - 1);
      PowAdd(b, m, m * (n - 1));
    } else {
      assert m * n == 0;
    }
  }
}

// Big-endian positional notation in any base.
module Positional {
  import opened Bytes

  ghost predicate Digits(ds: seq<nat>, b: nat) {
    forall i :: 0 <= i < |ds| ==> ds[i] < b
  }

  // The value of a digit string, most significant digit first: each digit shifts what came before.
  function Value(ds: seq<nat>, b: nat): nat {
    if ds == [] then 0 else Value(ds[..|ds| - 1], b) * b + ds[|ds| - 1]
  }

  // The last n digits of v.
  function ToDigits(v: nat, b: nat, n: nat): (ds: seq<nat>)
    requires b > 0
    ensures |ds| == n && Digits(ds, b)
    decreases n
  {
    if n == 0 then [] else
      QuotientIsNat(v, b);
      ToDigits(v / b, b, n - 1) + [v % b]
  }

  lemma QuotientIsNat(v: nat, b: nat)
    requires b > 0
    ensures v / b >= 0 && v == (v / b) * b + v % b
  {
  }

  lemma MulBig(d: int, b: nat)
    ensures d >= 1 ==> d * b >= b
    ensures d <= -1 ==> d * b + b <= 0
  {
    assert d * b == (d - 1) * b + b == (d + 1) * b - b;
  }

  lemma DivModUnique(q: nat, b: nat, r: nat)
    requires r < b
    ensures (q * b + r) / b == q && (q * b + r) % b == r
  {
    var n := q * b + r;
    QuotientIsNat(n, b);
    var d := n / b - q;
    assert d * b == (n / b) * b - q * b;
    MulBig(d, b);
  }

  // One more digit keeps a value within one more power.
  lemma Shifted(hi: nat, p: nat, b: nat, low: nat)
    requires hi < p && low < b
    ensures hi * b + low < p * b
  {
    MulBig(p - hi, b);
    assert (p - hi) * b == p * b - hi * b;
  }

  lemma {:induction false} ValueBound(ds: seq<nat>, b: nat)
    requires b > 0 && Digits(ds, b)
    ensures Value(ds, b) < Pow(b, |ds|)
  {
    if ds != [] {
      var front := ds[..|ds| - 1];
      ValueBound(front, b);
      Shifted(Value(front, b), Pow(b, |ds| - 1), b, ds[|ds| - 1]);
    }
  }

  lemma {:induction false} DigitsOfValue(ds: seq<nat>, b: nat)
    requires b > 0 && Digits(ds, b)
    ensures ToDigits(Value(ds, b), b, |ds|) == ds
  {
    if ds != [] {
      var front, last := ds[..|ds| - 1], ds[|ds| - 1];
      DivModUnique(Value(front, b), b, last);
      DigitsOfValue(front, b);
      assert ds == front + [last];
    }
  }

  // v mod p*b from the last digit of v and the rest mod p.
  lemma ModByDigit(v: nat, p: nat, b: nat)
    requires p > 0 && b > 0 && p * b > 0
    ensures v / b >= 0 && (v / b % p) * b + v % b == v % (p * b)
  {
    QuotientIsNat(v, b);
    var u := v / b;
    QuotientIsNat(u, p);
    var q, r := u / p, u % p;
    Shifted(r, p, b, v % b);
    assert v == q * (p * b) + (r * b + v % b) by {
      assert u * b == (q * p + r) * b == q * p * b + r * b;
      assert q * p * b == q * (p * b);
    }
    DivModUnique(q, p * b, r * b + v % b);
  }

  lemma ValueSnoc(front: seq<nat>, d: nat, b: nat)
    ensures Value(front + [d], b) == Value(front, b) * b + d
  {
    assert (front + [d])[..|front|] == front;
  }

  lemma DigitsStep(v: nat, b: nat, n: nat)
    requires b > 0 && n > 0
    ensures v / b >= 0 && ToDigits(v, b, n) == ToDigits(v / b, b, n - 1) + [v % b]
    ensures Pow(b, n - 1) > 0 && Pow(b, n) == Pow(b, n - 1) * b > 0
  {
    QuotientIsNat(v, b);
  }

  lemma {:induction false} ValueOfDigits(v: nat, b: nat, n: nat)
    requires b > 0
    ensures Value(ToDigits(v, b, n), b) == v % Pow(b, n)
    decreases n
  {
    if n > 0 {
      hide Value, ToDigits, Pow;
      DigitsStep(v, b, n);
      var rest, p := v / b, Pow(b, n - 1);
      ValueSnoc(ToDigits(rest, b, n - 1), v % b, b);
      ValueOfDigits(rest, b, n - 1);
      ModByDigit(v, p, b);
    } else {
      assert v % 1 == 0;
    }
  }

  lemma DivDiv(v: nat, b: nat, p: nat)
    requires b > 0 && p > 0 && b * p > 0
    ensures v / b >= 0 && v / b / p == v / (b * p)
  {
    QuotientIsNat(v, b);
    var u := v / b;
    QuotientIsNat(u, p);
    Shifted(u % p, p, b, v % b);
    assert p * b == b * p;
    assert v == (u / p) * (b * p) + (u % p * b + v % b) by {
      assert u * b == (u / p * p + u % p) * b == u / p * p * b + u % p * b;
      assert u / p * p * b == (u / p) * (b * p);
    }
    DivModUnique(u / p, b * p, u % p * b + v % b);
  }

  // A digit by shifting: what a right shift and a mask read.
  lemma {:induction false} DigitAt(v: nat, b: nat, n: nat, k: nat)
    requires b > 0 && k < n
    ensures ToDigits(v, b, n)[k] == v / Pow(b, n - 1 - k) % b
    decreases n
  {
    QuotientIsNat(v, b);
    if k < n - 1 {
      DigitAt(v / b, b, n - 1, k);
      DivDiv(v, b, Pow(b, n - 2 - k));
    }
  }

  lemma ValueInjective(x: seq<nat>, y: seq<nat>, b: nat)
    requires b > 0 && Digits(x, b) && Digits(y, b) && |x| == |y| && Value(x, b) == Value(y, b)
    ensures x == y
  {
    DigitsOfValue(x, b);
    DigitsOfValue(y, b);
  }
}

// Decimal text of a natural number, as std::to_string and strtoull read it.
module Decimal {
  import opened Bytes

  predicate IsDigit(c: char) { '0' <= c <= '9' }

  predicate AllDigits(s: string) { forall i :: 0 <= i < |s| ==> IsDigit(s[i]) }

  function Text(n: nat): (s: string)
    ensures s != [] && AllDigits(s)
  {
    (if n < 10 then [] else Text(n / 10)) + ['0' + (n % 10) as char]
  }

  function Number(s: string): nat
    requires AllDigits(s)
  {
    if s == [] then 0 else Number(s[..|s| - 1]) * 10 + (s[|s| - 1] as nat - '0' as nat)
  }

  lemma {:induction false} NumberOfText(n: nat)
    ensures Number(Text(n)) == n
  {
    var last := '0' + (n % 10) as char;
    var s := Text(n);
    assert s[|s| - 1] == last;
    assert last as nat - '0' as nat == n % 10;
    if n >= 10 {
      NumberOfText(n / 10);
      assert s[..|s| - 1] == Text(n / 10);
    } else {
      assert s[..|s| - 1] == [];
    }
  }

  // Two tickets, or two pending transactions, never get the same key.
  lemma KeysInjective(prefix: string, m: nat, n: nat)
    requires prefix + Text(m) == prefix + Text(n)
    ensures m == n
  {
    assert (prefix + Text(m))[|prefix|..] == Text(m);
    assert (prefix + Text(n))[|prefix|..] == Text(n);
    NumberOfText(m);
    NumberOfText(n);
  }
}

// The first place of one sequence in another: find of the code's strings, index of its byte strings.
module Search {
  import opened Bytes

  predicate At<T(==)>(s: seq<T>, p: seq<T>, k: nat) { k + |p| <= |s| && s[k..k + |p|] == p }

  function IndexOf<T(==)>(s: seq<T>, p: seq<T>): (r: Option<nat>)
    ensures r.Some? ==> At(s, p, r.value) && forall j :: 0 <= j < r.value ==> !At(s, p, j)
    ensures r.None? ==> forall j :: 0 <= j <= |s| ==> !At(s, p, j)
  {
    IndexOfFrom(s, p, 0)
  }

  function IndexOfFrom<T(==)>(s: seq<T>, p: seq<T>, from: nat): (r: Option<nat>)
    ensures r.Some? ==> r.value >= from && At(s, p, r.value) && forall j :: from <= j < r.value ==> !At(s, p, j)
    ensures r.None? ==> forall j :: from <= j <= |s| ==> !At(s, p, j)
    decreases |s| - from
  {
    if from + |p| > |s| then None
    else if s[from..from + |p|] == p then Some(from)
    else IndexOfFrom(s, p, from + 1)
  }

  lemma IndexIs<T>(s: seq<T>, p: seq<T>, k: nat)
    requires At(s, p, k) && forall j :: 0 <= j < k ==> !At(s, p, j)
    ensures IndexOf(s, p) == Some(k)
  {
    assert IndexOf(s, p).None? ==> !At(s, p, k);
  }

  // What more arrives cannot move the first occurrence.
  lemma IndexStays<T>(s: seq<T>, more: seq<T>, p: seq<T>)
    requires IndexOf(s, p).Some?
    ensures IndexOf(s + more, p) == IndexOf(s, p)
  {
    var k := IndexOf(s, p).value;
    forall j | 0 <= j <= k ensures At(s + more, p, j) == At(s, p, j) {
      assert (s + more)[j..j + |p|] == s[j..j + |p|];
    }
    IndexIs(s + more, p, k);
  }
}
