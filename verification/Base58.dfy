// Monero's block base58 (src/address_check.cpp, decodeBlock and base58Decode): 8 bytes to 11
// characters, a shorter tail to ENC_SIZES[k].
module Base58 {
  import opened Bytes
  import opened Positional

  // Without 0, I, O and l.
  const ALPHABET: string := "123456789" + "ABCDEFGH" + "JKLMN" + "PQRSTUVWXYZ" + "abcdefghijk" + "mnopqrstuvwxyz"
  const ENC_SIZES: seq<nat> := [0, 2, 3, 5, 6, 7, 9, 10, 11]
  const U128: nat := 0x1_0000_0000_0000_0000_0000_0000_0000_0000

  // The digit a character stands for; 58 when it is not in the alphabet.
  function DigitOf(c: char): (d: nat)
    ensures d <= 58
  {
    if '1' <= c <= '9' then c as nat - '1' as nat
    else if 'A' <= c <= 'H' then c as nat - 'A' as nat + 9
    else if 'J' <= c <= 'N' then c as nat - 'J' as nat + 17
    else if 'P' <= c <= 'Z' then c as nat - 'P' as nat + 22
    else if 'a' <= c <= 'k' then c as nat - 'a' as nat + 33
    else if 'm' <= c <= 'z' then c as nat - 'm' as nat + 44
    else 58
  }

  predicate InAlphabet(c: char) { DigitOf(c) < 58 }

  ghost predicate AllInAlphabet(s: string) { forall i :: 0 <= i < |s| ==> InAlphabet(s[i]) }

  function DigitValues(s: string): (ds: seq<nat>)
    ensures |ds| == |s| && forall i :: 0 <= i < |s| ==> ds[i] == DigitOf(s[i])
  {
    seq(|s|, i requires 0 <= i < |s| => DigitOf(s[i]))
  }

  // The number a block of characters spells in base 58.
  function BlockValue(s: string): nat { Value(DigitValues(s), 58) }

  // How many bytes a block of n characters holds; 0 for a length no block has.
  function BlockBytes(n: nat): (size: nat)
    ensures size <= 8 && (size > 0 ==> ENC_SIZES[size] == n)
  {
    match n
    case 2 => 1 case 3 => 2 case 5 => 3 case 6 => 4
    case 7 => 5 case 9 => 6 case 10 => 7 case 11 => 8
    case _ => 0
  }

  function BytesOf(v: nat, size: nat): (bs: seq<byte>)
    ensures |bs| == size
  {
    var ds := ToDigits(v, 256, size);
    seq(size, i requires 0 <= i < size => ds[i])
  }

  ghost function DecodedBlock(s: string): Option<seq<byte>> {
    var size := BlockBytes(|s|);
    if size == 0 || !AllInAlphabet(s) then None
    else if size < 8 && BlockValue(s) >= Pow(256, size) then None
    else Some(BytesOf(BlockValue(s), size))
  }

  function Prepend(head: seq<byte>, rest: Option<seq<byte>>): Option<seq<byte>> {
    match rest case None => None case Some(bs) => Some(head + bs)
  }

  ghost function Decoded(s: string): Option<seq<byte>>
    decreases |s|
  {
    if s == "" then Some([]) else
      var n := Min(11, |s|);
      match DecodedBlock(s[..n])
      case None => None
      case Some(head) => Prepend(head, Decoded(s[n..]))
  }

  // ---- The encoder, as Monero's address printer defines it ----

  function Character(d: nat): (c: char)
    requires d < 58
    ensures DigitOf(c) == d
  {
    if d < 9 then '1' + d as char
    else if d < 17 then 'A' + (d - 9) as char
    else if d < 22 then 'J' + (d - 17) as char
    else if d < 33 then 'P' + (d - 22) as char
    else if d < 44 then 'a' + (d - 33) as char
    else 'm' + (d - 44) as char
  }

  function EncodedBlock(bs: seq<byte>): (s: string)
    requires 0 < |bs| <= 8
    ensures |s| == ENC_SIZES[|bs|]
  {
    var n := ENC_SIZES[|bs|];
    var ds := ToDigits(Value(bs, 256), 58, n);
    seq(n, i requires 0 <= i < n => Character(ds[i]))
  }

  function Encoded(bs: seq<byte>): string {
    if bs == [] then "" else
      var n := Min(8, |bs|);
      EncodedBlock(bs[..n]) + Encoded(bs[n..])
  }

  // ---- The code ----

  // Appends the block's bytes to `out`; a refused block leaves `out` as it was.
  method DecodeBlock(s: string, out: seq<byte>) returns (ok: bool, grown: seq<byte>)
    ensures ok <==> DecodedBlock(s).Some?
    ensures grown == if ok then out + DecodedBlock(s).value else out
  {
    var size := FindSize(|s|);
    if size <= 0 { return false, out; }
    var inAlphabet, v := Accumulate(s);
    if !inAlphabet || (size < 8 && v >= Pow(256, size)) { return false, out; }
    grown := PushBytes(v, size, out);
    ok := true;
  }

  // The last table entry that matches, or -1.
  method FindSize(n: nat) returns (size: int)
    ensures size > 0 ==> size == BlockBytes(n)
    ensures size <= 0 ==> BlockBytes(n) == 0
  {
    size := -1;
    for i := 0 to 9
      invariant -1 <= size < i
      invariant size >= 0 ==> ENC_SIZES[size] == n
      invariant forall j :: 0 <= j < i && ENC_SIZES[j] == n ==> j == size
    {
      if ENC_SIZES[i] == n { size := i; }
    }
  }

  // The 128-bit accumulator; it never wraps on a block.
  method Accumulate(s: string) returns (ok: bool, v: nat)
    requires |s| <= 11
    ensures ok <==> AllInAlphabet(s)
    ensures ok ==> v == BlockValue(s)
  {
    v := 0;
    for i := 0 to |s|
      invariant AllInAlphabet(s[..i])
      invariant v == BlockValue(s[..i])
    {
      var p := StrChr(ALPHABET, s[i]);
      PlaceIsDigit(s[i], p);
      if p == |ALPHABET| { return false, v; }
      OneMoreDigit(s, i);
      v := (v * 58 + p) % U128;
    }
    assert s[..|s|] == s;
    ok := true;
  }

  // One more character of the alphabet: the value goes on without a wrap.
  lemma OneMoreDigit(s: string, i: nat)
    requires i < |s| <= 11 && AllInAlphabet(s[..i]) && InAlphabet(s[i])
    ensures AllInAlphabet(s[..i + 1])
    ensures (BlockValue(s[..i]) * 58 + DigitOf(s[i])) % U128 == BlockValue(s[..i + 1])
  {
    hide BlockValue, DigitOf;
    var t := s[..i + 1];
    forall j | 0 <= j < |t| ensures InAlphabet(t[j]) {
      if j < i { assert s[..i][j] == t[j]; }
    }
    BlockValueSnoc(s, i);
    NoWrap(s[..i + 1]);
  }

  // strchr: the first place of c, or the length when it is not there.
  method StrChr(s: string, c: char) returns (p: nat)
    ensures p <= |s| && (p < |s| ==> s[p] == c) && c !in s[..p]
  {
    p := 0;
    while p < |s| && s[p] != c
      invariant p <= |s| && c !in s[..p]
    {
      p := p + 1;
    }
  }

  lemma PlaceIsDigit(c: char, p: nat)
    requires p <= 58 && (p < 58 ==> ALPHABET[p] == c) && c !in ALPHABET[..p]
    ensures p == DigitOf(c)
  {
    if p < 58 { AlphabetIs(p); }
    if DigitOf(c) < 58 {
      AlphabetIs(DigitOf(c));
      CharacterOfDigit(c);
      assert ALPHABET[DigitOf(c)] == c;
    }
  }

  method PushBytes(v: nat, size: nat, out: seq<byte>) returns (grown: seq<byte>)
    ensures grown == out + BytesOf(v, size)
  {
    ghost var bs := BytesOf(v, size);
    grown := out;
    var i: int := size - 1;
    while i >= 0
      invariant -1 <= i < size
      invariant grown == out + bs[..size - 1 - i]
    {
      DigitAt(v, 256, size, size - 1 - i);
      assert bs[..size - i] == bs[..size - 1 - i] + [bs[size - 1 - i]];
      grown := grown + [v / Pow(256, i) % 256];
      i := i - 1;
    }
    assert bs[..size] == bs;
  }

  method Base58Decode(s: string) returns (ok: bool, out: seq<byte>)
    ensures ok <==> Decoded(s).Some?
    ensures ok ==> out == Decoded(s).value
  {
    out := [];
    var i := 0;
    PrependNothing(s);
    while i < |s|
      invariant 0 <= i <= |s|
      invariant Decoded(s) == Prepend(out, Decoded(s[i..]))
    {
      var n := Min(11, |s| - i);
      ghost var before := out;
      DecodedStep(s, i, n);
      ok, out := DecodeBlock(s[i..i + n], out);
      if !ok { return; }
      PrependTwice(before, DecodedBlock(s[i..i + n]).value, Decoded(s[i + n..]));
      i := i + n;
    }
    ok := true;
  }

  // The alphabet is the characters of the digits 0 to 57, in order, and no others.
  lemma AlphabetIs(d: nat)
    requires d < 58
    ensures |ALPHABET| == 58 && ALPHABET[d] == Character(d)
  {
    if d < 9 { assert ALPHABET[d] == "123456789"[d]; }
    else if d < 17 { assert ALPHABET[d] == "ABCDEFGH"[d - 9]; }
    else if d < 22 { assert ALPHABET[d] == "JKLMN"[d - 17]; }
    else if d < 33 { assert ALPHABET[d] == "PQRSTUVWXYZ"[d - 22]; }
    else if d < 44 { assert ALPHABET[d] == "abcdefghijk"[d - 33]; }
    else { assert ALPHABET[d] == "mnopqrstuvwxyz"[d - 44]; }
  }

  // In other words: the digits and letters but 0, O, I and l, in the order of their codes.
  lemma AlphabetLetters(c: char)
    ensures InAlphabet(c) <==>
      ('0' <= c <= '9' || 'A' <= c <= 'Z' || 'a' <= c <= 'z') && c != '0' && c != 'O' && c != 'I' && c != 'l'
  {}

  lemma AlphabetOrder(c: char, d: char)
    requires InAlphabet(c) && InAlphabet(d)
    ensures c < d <==> DigitOf(c) < DigitOf(d)
  {}

  lemma AlphabetAscends(i: nat, j: nat)
    requires i < j < |ALPHABET|
    ensures |ALPHABET| == 58 && ALPHABET[i] < ALPHABET[j] && InAlphabet(ALPHABET[i])
  {
    AlphabetIs(0);
    AlphabetIs(i);
    AlphabetIs(j);
    AlphabetOrder(ALPHABET[i], ALPHABET[j]);
  }

  lemma CharacterOfDigit(c: char)
    requires InAlphabet(c)
    ensures Character(DigitOf(c)) == c
  {
  }

  lemma PrependNothing(s: string)
    ensures Decoded(s) == Prepend([], Decoded(s[0..]))
  {
    assert s[0..] == s;
    if Decoded(s).Some? { assert [] + Decoded(s).value == Decoded(s).value; }
  }

  lemma PrependTwice(a: seq<byte>, b: seq<byte>, rest: Option<seq<byte>>)
    ensures Prepend(a, Prepend(b, rest)) == Prepend(a + b, rest)
  {
    if rest.Some? { assert a + (b + rest.value) == a + b + rest.value; }
  }

  lemma DecodedStep(s: string, i: nat, n: nat)
    requires i < |s| && n == Min(11, |s| - i)
    ensures Decoded(s[i..]) == match DecodedBlock(s[i..i + n])
      case None => None
      case Some(head) => Prepend(head, Decoded(s[i + n..]))
  {
    assert s[i..][..n] == s[i..i + n] && s[i..][n..] == s[i + n..];
  }

  lemma BlockValueSnoc(s: string, i: nat)
    requires i < |s|
    ensures BlockValue(s[..i + 1]) == BlockValue(s[..i]) * 58 + DigitOf(s[i])
  {
    var ds := DigitValues(s[..i + 1]);
    assert ds[..i] == DigitValues(s[..i]);
  }

  lemma AlphabetDigits(s: string)
    requires AllInAlphabet(s)
    ensures Digits(DigitValues(s), 58)
  {
    var ds := DigitValues(s);
    forall i | 0 <= i < |ds| ensures ds[i] < 58 { assert InAlphabet(s[i]); }
  }

  lemma BlockValueBound(s: string)
    requires AllInAlphabet(s)
    ensures BlockValue(s) < Pow(58, |s|)
  {
    AlphabetDigits(s);
    var ds := DigitValues(s);
    ValueBound(ds, 58);
  }

  lemma PowGrows(b: nat, m: nat, n: nat)
    requires b > 0 && m <= n
    ensures Pow(b, m) <= Pow(b, n)
  {
    PowAdd(b, m, n - m);
    MulBig(Pow(b, n - m), Pow(b, m));
  }

  // Powers of 58, one multiplication at a time, against the powers of 256 the blocks must hold.
  lemma Powers()
    ensures Pow(58, 11) < U128
    ensures forall k :: 0 < k <= 8 ==> Pow(256, k) <= Pow(58, ENC_SIZES[k])
  {
    assert Pow(58, 2) == 3364 && Pow(58, 3) == 195112;
    assert Pow(58, 5) == 58 * (58 * Pow(58, 3)) == 656356768;
    assert Pow(58, 6) == 58 * Pow(58, 5) == 38068692544;
    assert Pow(58, 7) == 58 * Pow(58, 6) == 2207984167552;
    assert Pow(58, 9) == 58 * (58 * Pow(58, 7)) == 7427658739644928;
    assert Pow(58, 10) == 58 * Pow(58, 9) == 430804206899405824;
    assert Pow(58, 11) == 58 * Pow(58, 10) == 24986644000165537792;
    assert Pow(256, 1) == 256 && Pow(256, 2) == 65536;
    assert Pow(256, 3) == 256 * Pow(256, 2) == 16777216;
    assert Pow(256, 4) == 256 * Pow(256, 3) == 4294967296;
    assert Pow(256, 5) == 256 * Pow(256, 4) == 1099511627776;
    assert Pow(256, 6) == 256 * Pow(256, 5) == 281474976710656;
    assert Pow(256, 7) == 256 * Pow(256, 6) == 72057594037927936;
    assert Pow(256, 8) == 256 * Pow(256, 7) == 18446744073709551616;
  }

  // The accumulator stays far below 2^128: no block is longer than 11 characters.
  lemma NoWrap(s: string)
    requires AllInAlphabet(s) && |s| <= 11
    ensures BlockValue(s) < U128
  {
    BlockValueBound(s);
    PowGrows(58, |s|, 11);
    Powers();
  }
}
