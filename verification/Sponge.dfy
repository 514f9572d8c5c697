// The sponge of FIPS 202 on bit strings (module SpongeSpec), and the code's byte-wise Keccak-256
// (module Keccak256; src/address_check.cpp, keccak256).

module SpongeSpec {
  import opened Bytes
  import opened Lanes
  import opened Fips202

  type Bits = seq<bool>

  const WIDTH: nat := 1600
  const RATE: nat := 1088

  function Zeros(n: nat): (z: Bits)
    ensures |z| == n && forall i :: 0 <= i < n ==> !z[i]
  {
    seq(n, _ => false)
  }

  // Strings and state arrays (sections 3.1.2 and 3.1.3): bit 64(5y + x) + z is A[x, y, z].
  ghost function ToState(s: Bits): (a: State)
    requires |s| == WIDTH
    ensures forall i, z :: 0 <= i < 25 && 0 <= z < 64 ==> a[i][z] == s[64 * i + z]
  {
    seq(25, i requires 0 <= i < 25 => seq(64, z requires 0 <= z < 64 => s[64 * i + z]))
  }

  ghost function ToBits(a: State): (s: Bits)
    ensures |s| == WIDTH && forall k :: 0 <= k < WIDTH ==> s[k] == a[k / 64][k % 64]
  {
    seq(WIDTH, k requires 0 <= k < WIDTH => a[k / 64][k % 64])
  }

  // The permutation on strings.
  ghost function Permute(s: Bits): (r: Bits)
    requires |s| == WIDTH
    ensures |r| == WIDTH
  {
    ToBits(KeccakF1600(ToState(s)))
  }

  ghost function XorBits(s: Bits, t: Bits): (r: Bits)
    requires |s| == |t|
    ensures |r| == |s| && forall i :: 0 <= i < |s| ==> r[i] == (s[i] != t[i])
  {
    seq(|s|, i requires 0 <= i < |s| => s[i] != t[i])
  }

  // pad10*1 (section 5.1).
  ghost function PadZeros(x: nat, m: nat): (j: nat)
    requires x > 0
  {
    (0 - m - 2) % x
  }

  ghost function Pad(x: nat, m: nat): Bits
    requires x > 0
  {
    [true] + Zeros(PadZeros(x, m)) + [true]
  }

  // Section 4, algorithm 8: absorb every block, then squeeze d bits.
  ghost function Absorb(s: Bits, p: Bits): (r: Bits)
    requires |s| == WIDTH && |p| % RATE == 0
    ensures |r| == WIDTH
    decreases |p|
  {
    if p == [] then s
    else Absorb(Permute(XorBits(s, p[..RATE] + Zeros(WIDTH - RATE))), p[RATE..])
  }

  ghost function Squeeze(s: Bits, d: nat): (z: Bits)
    requires |s| == WIDTH
    ensures |z| == d
    decreases d
  {
    if d <= RATE then s[..d] else s[..RATE] + Squeeze(Permute(s), d - RATE)
  }

  lemma PaddedLength(m: nat)
    ensures (m + |Pad(RATE, m)|) % RATE == 0
  {
  }

  ghost function Padded(n: Bits): (p: Bits)
    ensures |p| % RATE == 0
  {
    PaddedLength(|n|);
    n + Pad(RATE, |n|)
  }

  ghost function Sponge(n: Bits, d: nat): (z: Bits)
    ensures |z| == d
  {
    Squeeze(Absorb(Zeros(WIDTH), Padded(n)), d)
  }

  // Different messages never pad to the same string.
  lemma PaddedInjective(m: Bits, n: Bits)
    requires Padded(m) == Padded(n)
    ensures m == n
  {
    var p := Padded(m);
    LastMark(m);
    LastMark(n);
    assert |m| == |n|;
    assert m == p[..|m|] && n == p[..|n|];
  }

  // The bit after the message is the last one set before the closing bit.
  lemma LastMark(m: Bits)
    ensures var p := Padded(m);
      && |m| < |p| - 1 && p[|m|] && forall i :: |m| < i < |p| - 1 ==> !p[i]
  {
  }
}

module Keccak256 {
  import opened Bytes
  import opened Positional
  import opened Lanes
  import opened Fips202
  import opened SpongeSpec
  import Keccak

  const RATE_BYTES: nat := 136

  function BitOf(b: byte, k: nat): bool { b / Pow(2, k) % 2 == 1 }

  // Bits of bytes, least significant first (section B.1).
  function BitsOf(bs: seq<byte>): (r: Bits)
    ensures |r| == 8 * |bs| && forall i :: 0 <= i < 8 * |bs| ==> r[i] == BitOf(bs[i / 8], i % 8)
  {
    seq(8 * |bs|, i requires 0 <= i < 8 * |bs| => BitOf(bs[i / 8], i % 8))
  }

  function Number(b: Bits): (n: nat)
    ensures n < Pow(2, |b|)
  {
    if b == [] then 0 else (if b[0] then 1 else 0) + 2 * Number(b[1..])
  }

  function ByteOf(b: Bits): byte
    requires |b| == 8
  {
    assert Pow(2, 8) == 256 by { assert Pow(2, 4) == 16; PowAdd(2, 4, 4); }
    Number(b)
  }

  function BytesOfBits(b: Bits): (bs: seq<byte>)
    requires |b| % 8 == 0
    ensures |bs| == |b| / 8
  {
    seq(|b| / 8, i requires 0 <= i < |b| / 8 => ByteOf(b[8 * i..8 * i + 8]))
  }

  lemma {:induction false} NumberBit(b: Bits, k: nat)
    requires k < |b|
    ensures Number(b) / Pow(2, k) % 2 == 1 <==> b[k]
  {
    var n := Number(b);
    if k > 0 {
      NumberBit(b[1..], k - 1);
      assert n / 2 == Number(b[1..]);
      DivDiv(n, 2, Pow(2, k - 1));
    }
  }

  lemma BytesRoundTrip(b: Bits)
    requires |b| % 8 == 0
    ensures BitsOf(BytesOfBits(b)) == b
  {
    var bs := BytesOfBits(b);
    forall i | 0 <= i < |b| ensures BitsOf(bs)[i] == b[i] {
      var chunk := b[8 * (i / 8)..8 * (i / 8) + 8];
      NumberBit(chunk, i % 8);
      assert bs[i / 8] == ByteOf(chunk);
      assert b[i] == chunk[i % 8];
    }
  }

  // KECCAK[512](M, 256) of section 5.2, on bytes.
  ghost function Digest(m: seq<byte>): (h: seq<byte>)
    ensures |h| == 32
  {
    BytesOfBits(Sponge(BitsOf(m), 256))
  }

  lemma DigestBits(m: seq<byte>)
    ensures BitsOf(Digest(m)) == Sponge(BitsOf(m), 256)
  {
    BytesRoundTrip(Sponge(BitsOf(m), 256));
  }

  // ---- The code ----

  // memcpy of eight bytes into a little-endian word.
  function LoadWord(bs: seq<byte>): (w: Lane)
    requires |bs| == 8
  {
    BitsOf(bs)
  }

  // A byte or-ed with a mask.
  function OrByte(a: byte, mask: byte): byte {
    var x, y := BitsOf([a]), BitsOf([mask]);
    ByteOf(seq(8, i requires 0 <= i < 8 => x[i] || y[i]))
  }

  // Hashes any message; `permutations` counts the calls of the permutation.
  method Hash(input: seq<byte>) returns (out: seq<byte>, ghost permutations: nat)
    ensures out == Digest(input)
    ensures permutations == |input| / RATE_BYTES + 1
  {
    hide Permute, XorBits, Absorb, Squeeze, BitsOf, Pad, Padded;
    ghost var total := Absorb(Zeros(WIDTH), Padded(BitsOf(input)));
    ghost var pad := Pad(RATE, 8 * |input|);
    var st := new Lane[25](_ => Zero());
    ZeroState(st[..]);
    var at: nat, len: nat := 0, |input|;
    permutations := 0;
    PaddedIs(input);
    assert input[0..] == input;
    while len >= RATE_BYTES
      invariant at + len == |input| && at == RATE_BYTES * permutations
      invariant (8 * len + |pad|) % RATE == 0
      invariant Absorb(ToBits(st[..]), BitsOf(input[at..]) + pad) == total
    {
      AbsorbWhole(ToBits(st[..]), input[at..], pad);
      assert input[at..][..RATE_BYTES] == input[at..at + RATE_BYTES];
      assert input[at..][RATE_BYTES..] == input[at + RATE_BYTES..];
      AbsorbBlock(st, input[at..at + RATE_BYTES]);
      at := at + RATE_BYTES;
      len := len - RATE_BYTES;
      permutations := permutations + 1;
    }
    var tmp := LastBlock(input[at..], |input|);
    AbsorbLast(ToBits(st[..]), tmp);
    AbsorbBlock(st, tmp);
    permutations := permutations + 1;
    SqueezeOnce(total);
    out := FirstBytes(st);
  }

  lemma ZeroState(a: State)
    requires forall i :: 0 <= i < 25 ==> a[i] == Zero()
    ensures ToBits(a) == Zeros(WIDTH)
  {
  }

  lemma PaddedIs(m: seq<byte>)
    ensures Padded(BitsOf(m)) == BitsOf(m) + Pad(RATE, 8 * |m|)
    ensures (8 * |m| + |Pad(RATE, 8 * |m|)|) % RATE == 0
  {
    PaddedLength(8 * |m|);
  }

  // The state string after one block of bytes.
  ghost function AfterBlock(s: Bits, block: seq<byte>): (r: Bits)
    requires |s| == WIDTH && |block| == RATE_BYTES
    ensures |r| == WIDTH
  {
    Permute(XorBits(s, BitsOf(block) + Zeros(WIDTH - RATE)))
  }

  lemma SplitBits(m: seq<byte>, pad: Bits)
    requires |m| >= RATE_BYTES
    ensures var p := BitsOf(m) + pad;
      p[..RATE] == BitsOf(m[..RATE_BYTES]) && p[RATE..] == BitsOf(m[RATE_BYTES..]) + pad
  {
    hide BitOf, BitsOf;
    var p, q := BitsOf(m), BitsOf(m[RATE_BYTES..]);
    forall i | 0 <= i < |q| ensures q[i] == p[RATE + i] {
      assert (RATE + i) / 8 == RATE_BYTES + i / 8 && (RATE + i) % 8 == i % 8;
    }
    assert p[..RATE] == BitsOf(m[..RATE_BYTES]);
    assert p[RATE..] == q;
    assert (p + pad)[RATE..] == p[RATE..] + pad;
  }

  lemma AbsorbWhole(s: Bits, m: seq<byte>, pad: Bits)
    requires |s| == WIDTH && |m| >= RATE_BYTES && (8 * |m| + |pad|) % RATE == 0
    ensures (8 * (|m| - RATE_BYTES) + |pad|) % RATE == 0
    ensures Absorb(s, BitsOf(m) + pad) == Absorb(AfterBlock(s, m[..RATE_BYTES]), BitsOf(m[RATE_BYTES..]) + pad)
  {
    hide Permute, XorBits, BitsOf, BitOf;
    SplitBits(m, pad);
  }

  lemma AbsorbLast(s: Bits, block: seq<byte>)
    requires |s| == WIDTH && |block| == RATE_BYTES
    ensures Absorb(s, BitsOf(block)) == AfterBlock(s, block)
  {
    hide Permute, XorBits;
    var p := BitsOf(block);
    assert p[..RATE] == p && p[RATE..] == [];
  }

  lemma SqueezeOnce(s: Bits)
    requires |s| == WIDTH
    ensures Squeeze(s, 256) == s[..256]
  {
  }

  method AbsorbBlock(st: array<Lane>, block: seq<byte>)
    requires st.Length == 25 && |block| == RATE_BYTES
    modifies st
    ensures ToBits(st[..]) == AfterBlock(ToBits(old(st[..])), block)
  {
    hide KeccakF1600, BitsOf, Xor;
    ghost var a: State := st[..];
    for i := 0 to RATE_BYTES / 8
      invariant forall k :: 0 <= k < 25 ==> st[k] == if k < i then Xor(a[k], LoadWord(block[8 * k..8 * k + 8])) else a[k]
    {
      st[i] := Xor(st[i], LoadWord(block[8 * i..8 * i + 8]));
    }
    XorByLanes(a, block, st[..]);
    Keccak.KeccakF(st);
  }

  lemma XorByLanes(a: State, block: seq<byte>, b: State)
    requires |block| == RATE_BYTES
    requires forall k :: 0 <= k < 25 ==> b[k] == if k < 17 then Xor(a[k], LoadWord(block[8 * k..8 * k + 8])) else a[k]
    ensures ToState(XorBits(ToBits(a), BitsOf(block) + Zeros(WIDTH - RATE))) == b
  {
    hide ToState, ToBits, XorBits, Xor, LoadWord, BitsOf;
    var mask := BitsOf(block) + Zeros(WIDTH - RATE);
    var c := ToState(XorBits(ToBits(a), mask));
    forall i | 0 <= i < 25 ensures c[i] == b[i] {
      forall z | 0 <= z < 64 ensures c[i][z] == b[i][z] {
        XorBit(a, mask, i, z);
        if i < 17 { WordBit(block, i, z); }
      }
    }
  }

  lemma XorBit(a: State, mask: Bits, i: nat, z: nat)
    requires |mask| == WIDTH && i < 25 && z < 64
    ensures ToState(XorBits(ToBits(a), mask))[i][z] == (a[i][z] != mask[64 * i + z])
  {
    hide ToState, ToBits, XorBits;
    var k := 64 * i + z;
    assert k / 64 == i && k % 64 == z;
  }

  lemma WordBit(block: seq<byte>, i: nat, z: nat)
    requires |block| == RATE_BYTES && i < 17 && z < 64
    ensures LoadWord(block[8 * i..8 * i + 8])[z] == BitsOf(block)[64 * i + z]
  {
    hide BitOf;
    var k := 64 * i + z;
    assert k / 8 == 8 * i + z / 8 && k % 8 == z % 8;
  }

  // The tail, its first free byte marked 0x01 and its last byte 0x80: one byte takes both marks
  // when the tail has 135 bytes.
  method LastBlock(rest: seq<byte>, whole: nat) returns (tmp: seq<byte>)
    requires |rest| == whole % RATE_BYTES
    ensures |tmp| == RATE_BYTES && BitsOf(tmp) == BitsOf(rest) + Pad(RATE, 8 * whole)
  {
    hide OrByte, BitsOf, Pad;
    var buffer := new byte[RATE_BYTES](_ => 0);
    var len := |rest|;
    for i := 0 to len
      invariant forall k :: 0 <= k < RATE_BYTES ==> buffer[k] == if k < i then rest[k] else 0
    {
      buffer[i] := rest[i];
    }
    buffer[len] := OrByte(buffer[len], 0x01);
    buffer[RATE_BYTES - 1] := OrByte(buffer[RATE_BYTES - 1], 0x80);
    tmp := buffer[..];
    Marks();
    LastBlockBits(rest, tmp);
    PadIs(whole);
  }

  lemma Marks()
    ensures OrByte(0, 0x01) == 0x01 && OrByte(0, 0x80) == 0x80 && OrByte(0x01, 0x80) == 0x81
  {
    hide BitOf, BitsOf, ByteOf;
    OrWithNothing(0x01);
    OrWithNothing(0x80);
    var x, y, z := BitsOf([0x01]), BitsOf([0x80]), BitsOf([0x81]);
    forall i | 0 <= i < 8 ensures z[i] == (x[i] || y[i]) { MarkBits(i); }
    assert seq(8, i requires 0 <= i < 8 => x[i] || y[i]) == z;
    NumberOfByte(0x81);
  }

  lemma PowersOf2()
    ensures Pow(2, 0) == 1 && Pow(2, 1) == 2 && Pow(2, 2) == 4 && Pow(2, 3) == 8
    ensures Pow(2, 4) == 16 && Pow(2, 5) == 32 && Pow(2, 6) == 64 && Pow(2, 7) == 128
  {
    assert Pow(2, 4) == 2 * Pow(2, 3) && Pow(2, 5) == 2 * Pow(2, 4) && Pow(2, 6) == 2 * Pow(2, 5);
  }

  function BitOfNumber(n: nat, i: nat): bool { n / Pow(2, i) % 2 == 1 }

  lemma HigherBit(n: nat, i: nat)
    ensures BitOfNumber(n / 2, i) == BitOfNumber(n, i + 1)
  {
    DivDiv(n, 2, Pow(2, i));
  }

  lemma LowestBit(n: nat)
    ensures n == (if BitOfNumber(n, 0) then 1 else 0) + 2 * (n / 2)
  {
    assert Pow(2, 0) == 1 && n / 1 == n;
  }

  lemma {:induction false} NumberOfBits(x: Bits, n: nat)
    requires n < Pow(2, |x|) && forall i :: 0 <= i < |x| ==> x[i] == BitOfNumber(n, i)
    ensures Number(x) == n
  {
    if x != [] {
      assert n / 2 < Pow(2, |x| - 1) && Number(x) == (if x[0] then 1 else 0) + 2 * Number(x[1..]);
      hide BitOfNumber, Pow, Number;
      forall i | 0 <= i < |x| - 1 ensures x[1..][i] == BitOfNumber(n / 2, i) { HigherBit(n, i); }
      NumberOfBits(x[1..], n / 2);
      LowestBit(n);
    }
  }

  // A byte's bits spell the byte.
  lemma NumberOfByte(b: byte)
    ensures ByteOf(BitsOf([b])) == b
  {
    hide BitsOf;
    PowersOf2();
    NumberOfBits(BitsOf([b]), b);
  }

  lemma MarkBits(j: nat)
    requires j < 8
    ensures !BitOf(0, j) && BitOf(0x01, j) == (j == 0) && BitOf(0x80, j) == (j == 7)
    ensures BitOf(0x81, j) == (j == 0 || j == 7)
  {
    PowersOf2();
  }

  lemma OrWithNothing(mask: byte)
    ensures OrByte(0, mask) == mask
  {
    hide BitOf, BitsOf, ByteOf;
    var x, y := BitsOf([0]), BitsOf([mask]);
    forall i | 0 <= i < 8 ensures !x[i] { MarkBits(i); }
    assert seq(8, i requires 0 <= i < 8 => x[i] || y[i]) == y;
    NumberOfByte(mask);
  }

  // In bytes, pad10*1 leaves 8 * (135 - tail) + 6 zero bits between its two marks.
  lemma PadOfBytes(whole: nat)
    ensures PadZeros(RATE, 8 * whole) == 8 * (RATE_BYTES - 1 - whole % RATE_BYTES) + 6
  {
    var q, r := whole / RATE_BYTES, whole % RATE_BYTES;
    assert 0 - 8 * whole - 2 == (-q - 1) * RATE + (8 * (RATE_BYTES - 1 - r) + 6);
  }

  lemma PadIs(whole: nat)
    ensures Pad(RATE, 8 * whole) == [true] + Zeros(8 * (RATE_BYTES - 1 - whole % RATE_BYTES) + 6) + [true]
  {
    PadOfBytes(whole);
  }

  lemma LastBlockBits(rest: seq<byte>, tmp: seq<byte>)
    requires |rest| < RATE_BYTES == |tmp|
    requires forall k :: 0 <= k < |rest| ==> tmp[k] == rest[k]
    requires forall k :: |rest| <= k < RATE_BYTES ==>
      tmp[k] == (if k == |rest| then 0x01 else 0) + (if k == RATE_BYTES - 1 then 0x80 else 0)
    ensures BitsOf(tmp) == BitsOf(rest) + ([true] + Zeros(8 * (RATE_BYTES - 1 - |rest|) + 6) + [true])
  {
    hide BitsOf, BitOf;
    var gap := 8 * (RATE_BYTES - 1 - |rest|) + 6;
    var mine, want := BitsOf(tmp), BitsOf(rest) + ([true] + Zeros(gap) + [true]);
    forall i | 0 <= i < RATE ensures mine[i] == want[i] {
      MarkBits(i % 8);
      if i / 8 >= |rest| { assert mine[i] == (i == 8 * |rest| || i == RATE - 1); }
    }
  }

  lemma EighthOfLane(a: State, i: nat)
    requires i < 32
    ensures ToBits(a)[..256][8 * i..8 * i + 8] == a[i / 8][8 * (i % 8)..8 * (i % 8) + 8]
  {
    var x, y := ToBits(a)[..256][8 * i..8 * i + 8], a[i / 8][8 * (i % 8)..8 * (i % 8) + 8];
    forall k | 0 <= k < 8 ensures x[k] == y[k] {
      assert (8 * i + k) / 64 == i / 8 && (8 * i + k) % 64 == 8 * (i % 8) + k;
    }
  }

  method FirstBytes(st: array<Lane>) returns (out: seq<byte>)
    requires st.Length == 25
    ensures out == BytesOfBits(ToBits(st[..])[..256])
  {
    out := [];
    for i := 0 to 32
      invariant |out| == i && forall k :: 0 <= k < i ==> out[k] == BytesOfBits(ToBits(st[..])[..256])[k]
    {
      EighthOfLane(st[..], i);
      out := out + [ByteOf(st[i / 8][8 * (i % 8)..8 * (i % 8) + 8])];
    }
  }
}
