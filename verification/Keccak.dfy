// Keccak-f[1600] as FIPS 202 defines it, bit by bit (module Fips202), and as the code computes
// it, in place on 25 lanes (module Keccak; src/address_check.cpp, keccakf).

// A 64-bit lane as its bits, least significant first, and the word operations on it.
module Lanes {
  type Lane = b: seq<bool> | |b| == 64 witness seq(64, _ => false)

  function Zero(): Lane { seq(64, _ => false) }

  function Xor(a: Lane, b: Lane): (r: Lane)
    ensures forall z :: 0 <= z < 64 ==> r[z] == (a[z] != b[z])
  {
    seq(64, z requires 0 <= z < 64 => a[z] != b[z])
  }

  function And(a: Lane, b: Lane): (r: Lane)
    ensures forall z :: 0 <= z < 64 ==> r[z] == (a[z] && b[z])
  {
    seq(64, z requires 0 <= z < 64 => a[z] && b[z])
  }

  function Or(a: Lane, b: Lane): (r: Lane)
    ensures forall z :: 0 <= z < 64 ==> r[z] == (a[z] || b[z])
  {
    seq(64, z requires 0 <= z < 64 => a[z] || b[z])
  }

  function Not(a: Lane): (r: Lane)
    ensures forall z :: 0 <= z < 64 ==> r[z] == !a[z]
  {
    seq(64, z requires 0 <= z < 64 => !a[z])
  }

  function Shl(a: Lane, n: nat): (r: Lane)
    ensures forall z :: 0 <= z < 64 ==> r[z] == (z >= n && a[z - n])
  {
    seq(64, z requires 0 <= z < 64 => z >= n && a[z - n])
  }

  function Shr(a: Lane, n: nat): (r: Lane)
    ensures forall z :: 0 <= z < 64 ==> r[z] == (z + n < 64 && a[z + n])
  {
    seq(64, z requires 0 <= z < 64 => z + n < 64 && a[z + n])
  }

  // Two shifts or-ed together turn the lane round.
  function Rotl(x: Lane, n: nat): (r: Lane)
    requires 0 < n < 64
    ensures forall z :: 0 <= z < 64 ==> r[z] == x[(z - n) % 64]
  {
    Or(Shl(x, n), Shr(x, 64 - n))
  }

  function HexValue(c: char): (v: nat)
    ensures v < 16
  {
    if '0' <= c <= '9' then c as nat - '0' as nat
    else if 'a' <= c <= 'f' then c as nat - 'a' as nat + 10
    else 0
  }

  function HexBit(c: char, k: nat): bool
    requires k < 4
  {
    var v := HexValue(c);
    if k == 0 then v % 2 == 1 else if k == 1 then v / 2 % 2 == 1 else if k == 2 then v / 4 % 2 == 1 else v / 8 == 1
  }

  // The lane a 16-digit hexadecimal constant writes.
  function OfHex(h: string): (r: Lane)
    requires |h| == 16
    ensures forall z :: 0 <= z < 64 ==> r[z] == HexBit(h[15 - z / 4], z % 4)
  {
    seq(64, z requires 0 <= z < 64 => HexBit(h[15 - z / 4], z % 4))
  }
}

module Fips202 {
  import opened Lanes

  // 25 lanes; lane 5y + x holds the bits A[x, y, z] of the state array (section 3.1.2).
  type State = s: seq<Lane> | |s| == 25 witness seq(25, _ => Zero())

  ghost function Bit(a: State, x: nat, y: nat, z: nat): bool
    requires x < 5 && y < 5 && z < 64
  { a[5 * y + x][z] }

  ghost function Plus(p: bool, q: bool): bool { p != q }

  // ---- theta (section 3.2.1) ----

  ghost function Parity(a: State, x: nat, z: nat): bool
    requires x < 5 && z < 64
  {
    Plus(Plus(Plus(Plus(Bit(a, x, 0, z), Bit(a, x, 1, z)), Bit(a, x, 2, z)), Bit(a, x, 3, z)), Bit(a, x, 4, z))
  }

  ghost function ThetaBit(a: State, x: nat, y: nat, z: nat): bool
    requires x < 5 && y < 5 && z < 64
  {
    Plus(Bit(a, x, y, z), Plus(Parity(a, (x - 1) % 5, z), Parity(a, (x + 1) % 5, (z - 1) % 64)))
  }

  ghost function Theta(a: State): (r: State)
    ensures forall i, z :: 0 <= i < 25 && 0 <= z < 64 ==> r[i][z] == ThetaBit(a, i % 5, i / 5, z)
  {
    seq(25, i requires 0 <= i < 25 => seq(64, z requires 0 <= z < 64 => ThetaBit(a, i % 5, i / 5, z)))
  }

  // ---- rho (section 3.2.2): step t of the walk from (1, 0) turns its lane by (t+1)(t+2)/2 ----

  ghost function Walk(t: nat): (p: (nat, nat))
    ensures p.0 < 5 && p.1 < 5
  {
    if t == 0 then (1, 0) else var (x, y) := Walk(t - 1); (y, (2 * x + 3 * y) % 5)
  }

  ghost function Triangle(t: nat): nat { (t + 1) * (t + 2) / 2 }

  // The offset the walk gives lane (x, y); (0, 0), which it never meets, is not turned.
  ghost function OffsetFrom(x: nat, y: nat, t: nat): nat
    requires t <= 24
    decreases 24 - t
  {
    if t == 24 then 0
    else if Walk(t) == (x, y) then Triangle(t)
    else OffsetFrom(x, y, t + 1)
  }

  ghost function RhoBit(a: State, x: nat, y: nat, z: nat): bool
    requires x < 5 && y < 5 && z < 64
  {
    Bit(a, x, y, (z - OffsetFrom(x, y, 0)) % 64)
  }

  ghost function Rho(a: State): (r: State)
    ensures forall i, z :: 0 <= i < 25 && 0 <= z < 64 ==> r[i][z] == RhoBit(a, i % 5, i / 5, z)
  {
    seq(25, i requires 0 <= i < 25 => seq(64, z requires 0 <= z < 64 => RhoBit(a, i % 5, i / 5, z)))
  }

  // ---- pi (section 3.2.3) ----

  ghost function PiBit(a: State, x: nat, y: nat, z: nat): bool
    requires x < 5 && y < 5 && z < 64
  {
    Bit(a, (x + 3 * y) % 5, x, z)
  }

  ghost function Pi(a: State): (r: State)
    ensures forall i, z :: 0 <= i < 25 && 0 <= z < 64 ==> r[i][z] == PiBit(a, i % 5, i / 5, z)
  {
    seq(25, i requires 0 <= i < 25 => seq(64, z requires 0 <= z < 64 => PiBit(a, i % 5, i / 5, z)))
  }

  // ---- chi (section 3.2.4) ----

  ghost function ChiBit(a: State, x: nat, y: nat, z: nat): bool
    requires x < 5 && y < 5 && z < 64
  {
    Plus(Bit(a, x, y, z), Plus(Bit(a, (x + 1) % 5, y, z), true) && Bit(a, (x + 2) % 5, y, z))
  }

  ghost function Chi(a: State): (r: State)
    ensures forall i, z :: 0 <= i < 25 && 0 <= z < 64 ==> r[i][z] == ChiBit(a, i % 5, i / 5, z)
  {
    seq(25, i requires 0 <= i < 25 => seq(64, z requires 0 <= z < 64 => ChiBit(a, i % 5, i / 5, z)))
  }

  // ---- iota (section 3.2.5), its constants from the feedback register of algorithm 5 ----

  datatype Reg = Reg(r0: bool, r1: bool, r2: bool, r3: bool, r4: bool, r5: bool, r6: bool, r7: bool)

  ghost function Shifted(r: Reg): Reg {
    Reg(r.r7, r.r0, r.r1, r.r2, Plus(r.r3, r.r7), Plus(r.r4, r.r7), Plus(r.r5, r.r7), r.r6)
  }

  ghost function Register(t: nat): Reg {
    if t == 0 then Reg(true, false, false, false, false, false, false, false) else Shifted(Register(t - 1))
  }

  ghost function Rc(t: nat): bool { Register(t % 255).r0 }

  // Bit 2^j - 1 of the constant is rc(j + 7 ir); the others are 0.
  ghost function RoundConstantBit(ir: nat, z: nat): bool {
    if z == 0 then Rc(7 * ir) else if z == 1 then Rc(1 + 7 * ir) else if z == 3 then Rc(2 + 7 * ir)
    else if z == 7 then Rc(3 + 7 * ir) else if z == 15 then Rc(4 + 7 * ir)
    else if z == 31 then Rc(5 + 7 * ir) else z == 63 && Rc(6 + 7 * ir)
  }

  ghost function IotaBit(a: State, ir: nat, x: nat, y: nat, z: nat): bool
    requires x < 5 && y < 5 && z < 64
  {
    if x == 0 && y == 0 then Plus(Bit(a, x, y, z), RoundConstantBit(ir, z)) else Bit(a, x, y, z)
  }

  ghost function Iota(a: State, ir: nat): (r: State)
    ensures forall i, z :: 0 <= i < 25 && 0 <= z < 64 ==> r[i][z] == IotaBit(a, ir, i % 5, i / 5, z)
  {
    seq(25, i requires 0 <= i < 25 => seq(64, z requires 0 <= z < 64 => IotaBit(a, ir, i % 5, i / 5, z)))
  }

  // ---- the rounds (sections 3.3 and 3.4) ----

  ghost function Round(a: State, ir: nat): State { Iota(Chi(Pi(Rho(Theta(a)))), ir) }

  ghost function Rounds(a: State, n: nat): State {
    if n == 0 then a else Round(Rounds(a, n - 1), n - 1)
  }

  ghost function KeccakF1600(a: State): State { Rounds(a, 24) }
}

module Keccak {
  import opened Lanes
  import opened Fips202

  const RC: seq<string> := [
    "0000000000000001", "0000000000008082", "800000000000808a", "8000000080008000",
    "000000000000808b", "0000000080000001", "8000000080008081", "8000000000008009",
    "000000000000008a", "0000000000000088", "0000000080008009", "000000008000000a",
    "000000008000808b", "800000000000008b", "8000000000008089", "8000000000008003",
    "8000000000008002", "8000000000000080", "000000000000800a", "800000008000000a",
    "8000000080008081", "8000000000008080", "0000000080000001", "8000000080008008"]
  const ROT: seq<nat> := [1, 3, 6, 10, 15, 21, 28, 36, 45, 55, 2, 14, 27, 41, 56, 8, 25, 43, 62, 18, 39, 61, 20, 44]
  const PIL: seq<nat> := [10, 7, 11, 17, 18, 3, 5, 16, 8, 21, 24, 4, 15, 23, 19, 13, 12, 2, 20, 14, 22, 9, 6, 1]

  method KeccakF(st: array<Lane>)
    requires st.Length == 25
    modifies st
    ensures st[..] == KeccakF1600(old(st[..]))
  {
    for r := 0 to 24
      invariant st[..] == Rounds(old(st[..]), r)
    {
      ThetaStep(st);
      RhoPiStep(st);
      ChiStep(st);
      IotaStep(st, r);
    }
  }

  // ---- theta ----

  // The lane form of a column's parity and of what theta adds to it.
  function ParityLane(a: State, x: nat): Lane
    requires x < 5
  {
    Xor(Xor(Xor(Xor(a[x], a[x + 5]), a[x + 10]), a[x + 15]), a[x + 20])
  }

  // What theta adds to every lane of column x.
  function ThetaEffect(a: State, x: nat): Lane
    requires x < 5
  {
    Xor(ParityLane(a, (x + 4) % 5), Rotl(ParityLane(a, (x + 1) % 5), 1))
  }

  method ThetaStep(st: array<Lane>)
    requires st.Length == 25
    modifies st
    ensures st[..] == Theta(old(st[..]))
  {
    hide Xor, Rotl, ParityLane, Theta;
    ghost var a: State := st[..];
    var bc := Parities(st);
    for i := 0 to 5
      invariant forall k :: 0 <= k < 25 ==> st[k] == if k % 5 < i then Xor(a[k], ThetaEffect(a, k % 5)) else a[k]
    {
      AddToColumn(st, i, Xor(bc[(i + 4) % 5], Rotl(bc[(i + 1) % 5], 1)));
    }
    ThetaByLanes(a, st[..]);
  }

  method Parities(st: array<Lane>) returns (bc: seq<Lane>)
    requires st.Length == 25
    ensures |bc| == 5 && forall k :: 0 <= k < 5 ==> bc[k] == ParityLane(st[..], k)
  {
    bc := [];
    for i := 0 to 5
      invariant |bc| == i && forall k :: 0 <= k < i ==> bc[k] == ParityLane(st[..], k)
    {
      bc := bc + [Xor(Xor(Xor(Xor(st[i], st[i + 5]), st[i + 10]), st[i + 15]), st[i + 20])];
    }
  }

  method AddToColumn(st: array<Lane>, i: nat, t: Lane)
    requires st.Length == 25 && i < 5
    modifies st
    ensures forall k :: 0 <= k < 25 ==> st[k] == if k % 5 == i then Xor(old(st[k]), t) else old(st[k])
  {
    var j := 0;
    while j < 25
      invariant 0 <= j <= 25 && j % 5 == 0
      invariant forall k :: 0 <= k < 25 ==> st[k] == if k % 5 == i && k < j then Xor(old(st[k]), t) else old(st[k])
    {
      st[j + i] := Xor(st[j + i], t);
      j := j + 5;
    }
  }

  lemma ParityBits(a: State, x: nat, z: nat)
    requires x < 5 && z < 64
    ensures ParityLane(a, x)[z] == Parity(a, x, z)
  {
    hide Xor;
  }

  lemma ThetaByLanes(a: State, b: State)
    requires forall i :: 0 <= i < 25 ==> b[i] == Xor(a[i], ThetaEffect(a, i % 5))
    ensures b == Theta(a)
  {
    hide Theta, ThetaEffect, ThetaBit;
    var c := Theta(a);
    forall i | 0 <= i < 25 ensures b[i] == c[i] {
      forall z | 0 <= z < 64 ensures b[i][z] == c[i][z] {
        ThetaEffectBit(a, i, z);
        assert c[i][z] == ThetaBit(a, i % 5, i / 5, z);
      }
    }
  }

  lemma ThetaEffectBit(a: State, i: nat, z: nat)
    requires i < 25 && z < 64
    ensures (a[i][z] != ThetaEffect(a, i % 5)[z]) == ThetaBit(a, i % 5, i / 5, z)
  {
    hide ParityLane, Parity, Xor, Rotl;
    var x := i % 5;
    ParityBits(a, (x + 4) % 5, z);
    ParityBits(a, (x + 1) % 5, (z - 1) % 64);
    assert (x - 1) % 5 == (x + 4) % 5 && i == 5 * (i / 5) + x;
  }

  // ---- rho and pi ----

  // The lane whose contents step k of the walk along pil moves.
  function Source(pil: seq<nat>, k: nat): nat
    requires k <= |pil|
  {
    if k == 0 then 1 else pil[k - 1]
  }

  ghost predicate IsWalk(pil: seq<nat>, rot: seq<nat>) {
    && |pil| == |rot|
    && (forall k :: 0 <= k < |pil| ==> 0 < pil[k] < 25 && 0 < rot[k] < 64)
    && (forall k, m :: 0 <= k < m < |pil| ==> pil[k] != pil[m])
  }

  // The state after i steps: every lane moved so far was read from the state before the walk.
  ghost function Walked(a: State, pil: seq<nat>, rot: seq<nat>, i: nat): State
    requires IsWalk(pil, rot) && i <= |pil|
  {
    if i == 0 then a else Walked(a, pil, rot, i - 1)[pil[i - 1] := Rotl(a[Source(pil, i - 1)], rot[i - 1])]
  }

  lemma {:induction false} NotYetWalked(a: State, pil: seq<nat>, rot: seq<nat>, i: nat, j: nat)
    requires IsWalk(pil, rot) && i <= |pil| && j < 25
    requires forall k :: 0 <= k < i ==> pil[k] != j
    ensures Walked(a, pil, rot, i)[j] == a[j]
  {
    hide Rotl;
    if i > 0 { NotYetWalked(a, pil, rot, i - 1, j); }
  }

  lemma {:induction false} AlreadyWalked(a: State, pil: seq<nat>, rot: seq<nat>, i: nat, k: nat)
    requires IsWalk(pil, rot) && k < i <= |pil|
    ensures Walked(a, pil, rot, i)[pil[k]] == Rotl(a[Source(pil, k)], rot[k])
  {
    hide Rotl;
    if k < i - 1 { AlreadyWalked(a, pil, rot, i - 1, k); }
  }

  // One lane is held back in t while its place is filled.
  method WalkInPlace(st: array<Lane>, pil: seq<nat>, rot: seq<nat>)
    requires st.Length == 25 && IsWalk(pil, rot)
    modifies st
    ensures st[..] == Walked(old(st[..]), pil, rot, |pil|)
  {
    hide Rotl;
    ghost var a: State := st[..];
    var t := st[1];
    for i := 0 to |pil|
      invariant t == a[Source(pil, i)]
      invariant st[..] == Walked(a, pil, rot, i)
    {
      var j := pil[i];
      NotYetWalked(a, pil, rot, i, j);
      var tmp := st[j];
      st[j] := Rotl(t, rot[i]);
      t := tmp;
    }
  }

  method RhoPiStep(st: array<Lane>)
    requires st.Length == 25
    modifies st
    ensures st[..] == Pi(Rho(old(st[..])))
  {
    hide Rotl;
    ghost var a: State := st[..];
    TableIsWalk();
    WalkInPlace(st, PIL, ROT);
    RhoPiByLanes(a, st[..]);
  }

  lemma TableIsWalk()
    ensures IsWalk(PIL, ROT) && |PIL| == 24 && 0 !in PIL
  {
    var pil, rot := PIL, ROT;
    assert |pil| == |rot| == 24;
    forall k | 0 <= k < 24 ensures 0 < pil[k] < 25 && 0 < rot[k] < 64 {}
    forall k, m | 0 <= k < m < 24 ensures pil[k] != pil[m] {}
  }

  // The table follows the standard's walk: one step of pi, and the triangular offset.
  lemma TableStep(k: nat)
    requires k < 24
    ensures |PIL| == |ROT| == 24
    ensures var s, j := Source(PIL, k), PIL[k];
      && s < 25 && 0 < j < 25 && 0 < ROT[k] < 64
      && j % 5 == s / 5 && j / 5 == (2 * (s % 5) + 3 * (s / 5)) % 5
      && ROT[k] == Triangle(k) % 64
  {
    var pil, rot := PIL, ROT;
    assert k == 0 || k == 1 || k == 2 || k == 3 || k == 4 || k == 5 || k == 6 || k == 7 || k == 8 || k == 9 || k == 10
      || k == 11 || k == 12 || k == 13 || k == 14 || k == 15 || k == 16 || k == 17 || k == 18 || k == 19 || k == 20
      || k == 21 || k == 22 || k == 23;
  }

  lemma {:induction false} WalkOfSource(k: nat)
    requires k < 24
    ensures var s := Source(PIL, k); s < 25 && Walk(k) == (s % 5, s / 5)
  {
    hide PIL, ROT, IsWalk, Triangle, Walk;
    TableStep(k);
    if k > 0 {
      TableStep(k - 1);
      WalkOfSource(k - 1);
      WalkOnce(k);
    } else {
      WalkStart();
    }
  }

  lemma WalkStart()
    ensures Walk(0) == (1, 0)
  {
  }

  lemma WalkOnce(k: nat)
    requires k > 0
    ensures var (x, y) := Walk(k - 1); Walk(k) == (y, (2 * x + 3 * y) % 5)
  {
  }

  // pi undoes the walk's step.
  lemma PiAgainstWalk(u: nat, v: nat)
    requires u < 5 && v < 5
    ensures (v + 3 * ((2 * u + 3 * v) % 5)) % 5 == u
  {
  }

  // Where each lane other than lane 0 stands in the table.
  const PLACE: seq<nat> :=
    [0, 23, 17, 5, 11, 6, 22, 1, 8, 21, 0, 2, 16, 15, 19, 12, 7, 3, 4, 14, 18, 9, 20, 13, 10]

  lemma WalkCovers(i: nat)
    requires 0 < i < 25
    ensures |PLACE| == 25 && |PIL| == 24 && PLACE[i] < 24 && PIL[PLACE[i]] == i
  {
    var pil, place := PIL, PLACE;
    assert i == 1 || i == 2 || i == 3 || i == 4 || i == 5 || i == 6 || i == 7 || i == 8 || i == 9 || i == 10
      || i == 11 || i == 12 || i == 13 || i == 14 || i == 15 || i == 16 || i == 17 || i == 18 || i == 19 || i == 20
      || i == 21 || i == 22 || i == 23 || i == 24;
  }

  lemma {:induction false} OffsetOfWalk(k: nat, t: nat)
    requires t <= k < 24
    ensures OffsetFrom(Walk(k).0, Walk(k).1, t) == Triangle(k)
    decreases k - t
  {
    hide Walk, Triangle, PIL;
    if t < k {
      WalkOfSource(t);
      WalkOfSource(k);
      SourcesDiffer(t, k);
      OffsetOfWalk(k, t + 1);
    }
  }

  lemma SourcesDiffer(t: nat, k: nat)
    requires t < k < 24
    ensures Source(PIL, t) != Source(PIL, k)
  {
    TableIsWalk();
    assert PIL[23] == 1;
  }

  lemma {:induction false} OriginIsNotTurned(t: nat)
    requires t <= 24
    ensures OffsetFrom(0, 0, t) == 0
    decreases 24 - t
  {
    if t < 24 {
      WalkOfSource(t);
      TableIsWalk();
      assert Source(PIL, t) != 0;
      OriginIsNotTurned(t + 1);
    }
  }

  lemma RhoPiLane(a: State, i: nat, z: nat)
    requires 0 < i < 25 && z < 64 && |PLACE| == 25 && |PIL| == |ROT| == 24
    requires var k := PLACE[i]; k < 24 && PIL[k] == i && Source(PIL, k) < 25 && 0 < ROT[k] < 64
    ensures PiBit(Rho(a), i % 5, i / 5, z) == Rotl(a[Source(PIL, PLACE[i])], ROT[PLACE[i]])[z]
  {
    hide Rotl, Pi, Rho, RhoBit, OffsetFrom, Walk, Triangle, PIL, ROT, PLACE, Source, IsWalk;
    var k := PLACE[i];
    TableStep(k);
    WalkOfSource(k);
    OffsetOfWalk(k, 0);
    var s := Source(PIL, k);
    PiAgainstWalk(s % 5, s / 5);
    RhoLane(a, s, z, Triangle(k));
  }

  lemma RhoLane(a: State, s: nat, z: nat, offset: nat)
    requires s < 25 && z < 64 && offset == OffsetFrom(s % 5, s / 5, 0)
    ensures Bit(Rho(a), s % 5, s / 5, z) == a[s][(z - offset % 64) % 64]
  {
    assert Bit(Rho(a), s % 5, s / 5, z) == Rho(a)[s][z] && s / 5 < 5;
    hide OffsetFrom, Rho;
    assert Rho(a)[s][z] == RhoBit(a, s % 5, s / 5, z);
    Turn64(z, offset);
  }

  lemma Turn64(z: nat, offset: nat)
    ensures (z - offset) % 64 == (z - offset % 64) % 64
  {
  }

  lemma OriginPi(a: State, z: nat)
    requires z < 64
    ensures PiBit(a, 0, 0, z) == Bit(a, 0, 0, z)
  {
  }

  lemma RhoPiOrigin(a: State)
    requires IsWalk(PIL, ROT) && |PIL| == 24 && 0 !in PIL
    ensures Walked(a, PIL, ROT, 24)[0] == Pi(Rho(a))[0]
  {
    hide Pi, Rho, PiBit, PIL, ROT, Walked, IsWalk, OffsetFrom, Walk, Triangle;
    var b, c := Walked(a, PIL, ROT, 24), Pi(Rho(a));
    forall k | 0 <= k < 24 ensures PIL[k] != 0 { TableStep(k); }
    NotYetWalked(a, PIL, ROT, 24, 0);
    OriginIsNotTurned(0);
    forall z | 0 <= z < 64 ensures b[0][z] == c[0][z] {
      assert c[0][z] == PiBit(Rho(a), 0 % 5, 0 / 5, z);
      RhoLane(a, 0, z, 0);
      OriginPi(Rho(a), z);
    }
  }

  lemma RhoPiAt(a: State, i: nat)
    requires 0 < i < 25 && IsWalk(PIL, ROT) && |PIL| == 24
    ensures Walked(a, PIL, ROT, 24)[i] == Pi(Rho(a))[i]
  {
    hide Rotl, Pi, Rho, PiBit, PIL, ROT, PLACE, Source, Walked, IsWalk;
    var b, c := Walked(a, PIL, ROT, 24), Pi(Rho(a));
    WalkCovers(i);
    TableStep(PLACE[i]);
    AlreadyWalked(a, PIL, ROT, 24, PLACE[i]);
    forall z | 0 <= z < 64 ensures b[i][z] == c[i][z] {
      assert c[i][z] == PiBit(Rho(a), i % 5, i / 5, z);
      RhoPiLane(a, i, z);
    }
  }

  lemma RhoPiByLanes(a: State, b: State)
    requires IsWalk(PIL, ROT) && |PIL| == 24 && 0 !in PIL && b == Walked(a, PIL, ROT, 24)
    ensures b == Pi(Rho(a))
  {
    hide Pi, Rho, Walked, IsWalk, PIL, ROT;
    forall i | 0 <= i < 25 ensures b[i] == Pi(Rho(a))[i] {
      if i == 0 { RhoPiOrigin(a); } else { RhoPiAt(a, i); }
    }
  }

  // ---- chi ----

  function ChiLane(a: State, i: nat): Lane
    requires i < 25
  {
    var row, x := 5 * (i / 5), i % 5;
    Xor(a[i], And(Not(a[row + (x + 1) % 5]), a[row + (x + 2) % 5]))
  }

  method ChiStep(st: array<Lane>)
    requires st.Length == 25
    modifies st
    ensures st[..] == Chi(old(st[..]))
  {
    hide Xor, And, Not, Chi, ChiLane;
    ghost var a: State := st[..];
    var j := 0;
    while j < 25
      invariant 0 <= j <= 25 && j % 5 == 0
      invariant forall k :: 0 <= k < 25 ==> st[k] == if k < j then ChiLane(a, k) else a[k]
    {
      ChiRow(st, a, j);
      j := j + 5;
    }
    ChiByLanes(a, st[..]);
  }

  method ChiRow(st: array<Lane>, ghost a: State, j: nat)
    requires st.Length == 25 && j <= 20 && j % 5 == 0
    requires forall k :: j <= k < j + 5 ==> st[k] == a[k]
    modifies st
    ensures forall k :: 0 <= k < 25 ==> st[k] == if j <= k < j + 5 then ChiLane(a, k) else old(st[k])
  {
    hide Xor, And, Not, ChiLane;
    var bc := st[j..j + 5];
    assert forall k :: 0 <= k < 5 ==> bc[k] == a[j + k];
    for i := 0 to 5
      invariant forall k :: 0 <= k < 25 ==> st[k] == if j <= k < j + i then ChiLane(a, k) else old(st[k])
    {
      ChiLaneInRow(a, j, i);
      assert bc[(i + 1) % 5] == a[j + (i + 1) % 5] && bc[(i + 2) % 5] == a[j + (i + 2) % 5];
      st[j + i] := Xor(st[j + i], And(Not(bc[(i + 1) % 5]), bc[(i + 2) % 5]));
    }
  }

  lemma ChiLaneInRow(a: State, j: nat, i: nat)
    requires j <= 20 && j % 5 == 0 && i < 5
    ensures ChiLane(a, j + i) == Xor(a[j + i], And(Not(a[j + (i + 1) % 5]), a[j + (i + 2) % 5]))
  {
    assert 5 * ((j + i) / 5) == j && (j + i) % 5 == i;
  }

  lemma ChiByLanes(a: State, b: State)
    requires forall i :: 0 <= i < 25 ==> b[i] == ChiLane(a, i)
    ensures b == Chi(a)
  {
    hide Chi, ChiLane, ChiBit;
    var c := Chi(a);
    forall i | 0 <= i < 25 ensures b[i] == c[i] {
      forall z | 0 <= z < 64 ensures b[i][z] == c[i][z] {
        ChiAt(a, i, z);
        assert c[i][z] == ChiBit(a, i % 5, i / 5, z);
      }
    }
  }

  lemma ChiAt(a: State, i: nat, z: nat)
    requires i < 25 && z < 64
    ensures ChiLane(a, i)[z] == ChiBit(a, i % 5, i / 5, z)
  {
    assert i == 5 * (i / 5) + i % 5;
  }

  // ---- iota ----

  method IotaStep(st: array<Lane>, r: nat)
    requires st.Length == 25 && r < 24
    modifies st
    ensures st[..] == Iota(old(st[..]), r)
  {
    hide Xor, OfHex, Iota;
    RcShape(r);
    ghost var a: State := st[..];
    st[0] := Xor(st[0], OfHex(RC[r]));
    IotaByLanes(a, r, st[..]);
  }

  lemma IotaByLanes(a: State, r: nat, b: State)
    requires r < 24 && |RC| == 24 && |RC[r]| == 16
    requires b == a[0 := Xor(a[0], OfHex(RC[r]))]
    ensures b == Iota(a, r)
  {
    hide Iota, RoundConstantBit, RC, OfHex;
    var c := Iota(a, r);
    forall i | 0 <= i < 25 ensures b[i] == c[i] {
      forall z | 0 <= z < 64 ensures b[i][z] == c[i][z] {
        assert c[i][z] == IotaBit(a, r, i % 5, i / 5, z);
        assert i == 5 * (i / 5) + i % 5;
        if i == 0 { RcBit(r, z); }
      }
    }
  }

  // The digits of a constant that has bits only at 0, 1, 3, 7, 15, 31 and 63.
  ghost predicate IsSparse(h: string) {
    && |h| == 16
    && (forall k :: 0 <= k < 15 && k !in {0, 8, 12, 14} ==> h[k] == '0')
    && (forall k :: k in {0, 8, 12, 14} ==> h[k] == '0' || h[k] == '8')
    && h[15] in {'0', '1', '2', '3', '8', '9', 'a', 'b'}
  }

  lemma SparseBit(h: string, z: nat)
    requires IsSparse(h) && z < 64
    ensures OfHex(h)[z] ==
      if z == 0 then HexBit(h[15], 0) else if z == 1 then HexBit(h[15], 1) else if z == 3 then HexBit(h[15], 3)
      else if z == 7 then h[14] == '8' else if z == 15 then h[12] == '8'
      else if z == 31 then h[8] == '8' else z == 63 && h[0] == '8'
  {
    var k := 15 - z / 4;
    assert OfHex(h)[z] == HexBit(h[k], z % 4);
    assert z == 4 * (15 - k) + z % 4;
  }

  // The seven bits that the feedback register gives round ir.
  ghost predicate Matches(h: string, ir: nat) {
    && IsSparse(h)
    && HexBit(h[15], 0) == Rc(7 * ir) && HexBit(h[15], 1) == Rc(1 + 7 * ir) && HexBit(h[15], 3) == Rc(2 + 7 * ir)
    && (h[14] == '8') == Rc(3 + 7 * ir) && (h[12] == '8') == Rc(4 + 7 * ir)
    && (h[8] == '8') == Rc(5 + 7 * ir) && (h[0] == '8') == Rc(6 + 7 * ir)
  }

  // The table is what the standard's register generates.
  lemma RcBit(r: nat, z: nat)
    requires r < 24 && z < 64
    ensures |RC| == 24 && |RC[r]| == 16 && OfHex(RC[r])[z] == RoundConstantBit(r, z)
  {
    hide OfHex, HexBit, Rc, IsSparse;
    RcTable(r);
    SparseBit(RC[r], z);
  }

  lemma RcShape(r: nat)
    requires r < 24
    ensures |RC| == 24 && |RC[r]| == 16
  {
    RcBit(r, 0);
  }

  // The register every seven steps, at the start of each round.
  const REGISTERS: seq<string> := [
    "10000000", "00000001", "00011011", "01011000", "11111011", "10010000",
    "10101100", "11110010", "01010011", "00001110", "10000010", "00110111",
    "10101011", "10110011", "11000110", "11010101", "01010101", "01010100",
    "01001111", "00010111", "11101100", "01111100", "11010000", "00100010"]

  ghost function OfBits(s: string): Reg
    requires |s| == 8
  {
    Reg(s[0] == '1', s[1] == '1', s[2] == '1', s[3] == '1', s[4] == '1', s[5] == '1', s[6] == '1', s[7] == '1')
  }

  ghost function Times(r: Reg, k: nat): Reg { if k == 0 then r else Shifted(Times(r, k - 1)) }

  lemma {:induction false} RegisterTimes(t: nat, k: nat)
    ensures Register(t + k) == Times(Register(t), k)
  {
    if k > 0 { RegisterTimes(t, k - 1); }
  }

  // One round's register gives its seven bits and, seven steps on, the next round's register.
  ghost predicate RoundReads(s: string, h: string) {
    && |s| == 8 && IsSparse(h)
    && var r := OfBits(s);
    && HexBit(h[15], 0) == r.r0 && HexBit(h[15], 1) == Times(r, 1).r0 && HexBit(h[15], 3) == Times(r, 2).r0
    && (h[14] == '8') == Times(r, 3).r0 && (h[12] == '8') == Times(r, 4).r0
    && (h[8] == '8') == Times(r, 5).r0 && (h[0] == '8') == Times(r, 6).r0
  }

  lemma RoundsRead(ir: nat)
    requires ir < 24
    ensures |REGISTERS| == |RC| == 24 && RoundReads(REGISTERS[ir], RC[ir])
  {
    if ir < 6 { RoundsRead0(ir); } else if ir < 12 { RoundsRead6(ir); }
    else if ir < 18 { RoundsRead12(ir); } else { RoundsRead18(ir); }
  }

  lemma RoundsRead0(ir: nat)
    requires 0 <= ir < 6
    ensures |REGISTERS| == |RC| == 24 && RoundReads(REGISTERS[ir], RC[ir])
  {
    assert ir == 0 || ir == 1 || ir == 2 || ir == 3 || ir == 4 || ir == 5;
  }

  lemma RoundsRead6(ir: nat)
    requires 6 <= ir < 12
    ensures |REGISTERS| == |RC| == 24 && RoundReads(REGISTERS[ir], RC[ir])
  {
    assert ir == 6 || ir == 7 || ir == 8 || ir == 9 || ir == 10 || ir == 11;
  }

  lemma RoundsRead12(ir: nat)
    requires 12 <= ir < 18
    ensures |REGISTERS| == |RC| == 24 && RoundReads(REGISTERS[ir], RC[ir])
  {
    assert ir == 12 || ir == 13 || ir == 14 || ir == 15 || ir == 16 || ir == 17;
  }

  lemma RoundsRead18(ir: nat)
    requires 18 <= ir < 24
    ensures |REGISTERS| == |RC| == 24 && RoundReads(REGISTERS[ir], RC[ir])
  {
    assert ir == 18 || ir == 19 || ir == 20 || ir == 21 || ir == 22 || ir == 23;
  }

  lemma TimesSeven(r: Reg)
    ensures Times(r, 7) == Shifted(Shifted(Shifted(Shifted(Shifted(Shifted(Shifted(r)))))))
  {
    assert Times(r, 0) == r && Times(r, 1) == Shifted(Times(r, 0)) && Times(r, 2) == Shifted(Times(r, 1));
    assert Times(r, 3) == Shifted(Times(r, 2)) && Times(r, 4) == Shifted(Times(r, 3));
    assert Times(r, 5) == Shifted(Times(r, 4)) && Times(r, 6) == Shifted(Times(r, 5));
  }

  lemma NextRegister(ir: nat)
    requires ir < 23
    ensures |REGISTERS| == 24 && |REGISTERS[ir]| == |REGISTERS[ir + 1]| == 8
    ensures Times(OfBits(REGISTERS[ir]), 7) == OfBits(REGISTERS[ir + 1])
  {
    if ir < 8 { EarlyRegister(ir); } else if ir < 16 { MiddleRegister(ir); } else { LateRegister(ir); }
  }

  lemma EarlyRegister(ir: nat)
    requires ir < 8
    ensures |REGISTERS| == 24 && |REGISTERS[ir]| == |REGISTERS[ir + 1]| == 8
    ensures Times(OfBits(REGISTERS[ir]), 7) == OfBits(REGISTERS[ir + 1])
  {
    assert ir == 0 || ir == 1 || ir == 2 || ir == 3 || ir == 4 || ir == 5 || ir == 6 || ir == 7;
    TimesSeven(OfBits(REGISTERS[ir]));
  }

  lemma MiddleRegister(ir: nat)
    requires 8 <= ir < 16
    ensures |REGISTERS| == 24 && |REGISTERS[ir]| == |REGISTERS[ir + 1]| == 8
    ensures Times(OfBits(REGISTERS[ir]), 7) == OfBits(REGISTERS[ir + 1])
  {
    assert ir == 8 || ir == 9 || ir == 10 || ir == 11 || ir == 12 || ir == 13 || ir == 14 || ir == 15;
    TimesSeven(OfBits(REGISTERS[ir]));
  }

  lemma LateRegister(ir: nat)
    requires 16 <= ir < 23
    ensures |REGISTERS| == 24 && |REGISTERS[ir]| == |REGISTERS[ir + 1]| == 8
    ensures Times(OfBits(REGISTERS[ir]), 7) == OfBits(REGISTERS[ir + 1])
  {
    assert ir == 16 || ir == 17 || ir == 18 || ir == 19 || ir == 20 || ir == 21 || ir == 22;
    TimesSeven(OfBits(REGISTERS[ir]));
  }

  lemma {:induction false} RegisterAt(ir: nat)
    requires ir < 24
    ensures |REGISTERS| == 24 && |REGISTERS[ir]| == 8 && Register(7 * ir) == OfBits(REGISTERS[ir])
  {
    hide REGISTERS, RC, OfBits, Times, IsSparse;
    RoundsRead(ir);
    if ir > 0 {
      RegisterAt(ir - 1);
      NextRegister(ir - 1);
      RegisterTimes(7 * (ir - 1), 7);
    } else {
      FirstRegister();
    }
  }

  lemma FirstRegister()
    ensures |REGISTERS| == 24 && |REGISTERS[0]| == 8 && Register(0) == OfBits(REGISTERS[0])
  {
  }

  lemma RcTable(r: nat)
    requires r < 24
    ensures |RC| == 24 && Matches(RC[r], r)
  {
    hide REGISTERS, RC, OfBits, IsSparse, HexBit, Register;
    RoundsRead(r);
    RegisterAt(r);
    RegisterTimes(7 * r, 1); RegisterTimes(7 * r, 2); RegisterTimes(7 * r, 3);
    RegisterTimes(7 * r, 4); RegisterTimes(7 * r, 5); RegisterTimes(7 * r, 6);
  }
}
