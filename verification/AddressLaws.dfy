// What an address looks like, byte by byte and character by character.
module AddressLaws {
  import opened Bytes
  import opened Positional
  import opened Base58
  import opened Base58Laws
  import opened Varint
  import opened Address
  import Keccak256

  // ---- In bytes ----

  // A prefix below 128 is one byte.
  lemma OneByte(head: seq<byte>)
    requires IsVarint(head) && head[0] < 128
    ensures |head| == 1 && Sum(head) == head[0]
  {
    assert head[1..] == [];
  }

  // Of bytes that begin with one below 128: the text is an address if and only if they are as many as
  // the kind has, of a prefix the network hands out, before the first four bytes of their own hash.
  lemma AcceptedIff(a: string, network: string, b: seq<byte>)
    requires Decoded(a) == Some(b) && |b| > 0 && b[0] < 128
    ensures IsAddress(a, network) <==>
      && (|b| == 69 || |b| == 77)
      && (match network
          case "mainnet" => (b[0] in {18, 42} && |b| == 69) || (b[0] == 19 && |b| == 77)
          case "regtest" => (b[0] in {18, 42} && |b| == 69) || (b[0] == 19 && |b| == 77)
          case "testnet" => (b[0] in {53, 63} && |b| == 69) || (b[0] == 54 && |b| == 77)
          case "stagenet" => (b[0] in {24, 36} && |b| == 69) || (b[0] == 25 && |b| == 77)
          case _ => false)
      && Keccak256.Digest(b[..|b| - 4])[..4] == b[|b| - 4..]
  {
    AddressIff(a, network);
    hide Decoded, Sum, IsAddress, SpellsIssued, Issued, Checksum;
    if exists head: seq<byte>, payload: seq<byte> :: SpellsIssued(a, network, head, payload) {
      var head: seq<byte>, payload: seq<byte> :| SpellsIssued(a, network, head, payload);
      Parts(a, network, head, payload);
    }
    if (|b| == 69 || |b| == 77) && Issued(network, b[0], |b| - 5) && Checksum(b[..|b| - 4]) == b[|b| - 4..] {
      Whole(a, network, b);
    }
    ChecksumSize(b[..if |b| >= 4 then |b| - 4 else 0]);
    IssuedTable(network, b[0]);
  }

  lemma IssuedTable(network: string, x: nat)
    ensures Issued(network, x, 64) <==>
      match network
      case "mainnet" => x in {18, 42}
      case "regtest" => x in {18, 42}
      case "testnet" => x in {53, 63}
      case "stagenet" => x in {24, 36}
      case _ => false
    ensures Issued(network, x, 72) <==>
      match network
      case "mainnet" => x == 19
      case "regtest" => x == 19
      case "testnet" => x == 54
      case "stagenet" => x == 25
      case _ => false
    ensures forall size: nat :: Issued(network, x, size) ==> size == 64 || size == 72
  {}

  lemma Parts(a: string, network: string, head: seq<byte>, payload: seq<byte>)
    requires SpellsIssued(a, network, head, payload) && Decoded(a).value != [] && Decoded(a).value[0] < 128
    ensures var b := Decoded(a).value;
      && (|payload| == 64 || |payload| == 72) && |b| == |payload| + 5 && b[0] == head[0]
      && Issued(network, b[0], |payload|) && Checksum(b[..|b| - 4]) == b[|b| - 4..]
  {
    hide Decoded, Sum, Checksum;
    IssuedTable(network, Sum(head) % U64);
    ChecksumSize(head + payload);
    SplitThree(head, payload, Checksum(head + payload));
    assert head[0] == Decoded(a).value[0];
    OneByte(head);
  }

  lemma Whole(a: string, network: string, b: seq<byte>)
    requires Decoded(a) == Some(b) && |b| > 5 && b[0] < 128
    requires Issued(network, b[0], |b| - 5) && Checksum(b[..|b| - 4]) == b[|b| - 4..]
    ensures exists head: seq<byte>, payload: seq<byte> :: SpellsIssued(a, network, head, payload)
  {
    hide Decoded, Sum, Checksum, Issued, IsVarint;
    var head, payload := b[..1], b[1..|b| - 4];
    assert head + payload == b[..|b| - 4] && b == b[..|b| - 4] + b[|b| - 4..];
    Single(b[0]);
    assert head == [b[0]];
    assert SpellsIssued(a, network, head, payload);
  }

  lemma Single(x: byte)
    requires x < 128
    ensures IsVarint([x]) && Sum([x]) == x && Sum([x]) % U64 == x && Encode(x) == [x]
  {
    assert [x][1..] == [];
  }

  // ---- In characters ----

  lemma {:induction false} LeadingDigit(ds: seq<nat>, b: nat)
    requires b > 0 && ds != [] && Digits(ds, b)
    ensures ds[0] * Pow(b, |ds| - 1) <= Value(ds, b) < (ds[0] + 1) * Pow(b, |ds| - 1)
    decreases |ds|
  {
    var p := Pow(b, |ds| - 1);
    if |ds| == 1 {
      assert ds[..0] == [];
    } else {
      var front, q, last := ds[..|ds| - 1], Pow(b, |ds| - 2), ds[|ds| - 1];
      LeadingDigit(front, b);
      var v := Value(front, b);
      assert p == b * q;
      Between(ds[0], q, v, b, last);
    }
  }

  lemma Between(d: nat, q: nat, v: nat, b: nat, last: nat)
    requires d * q <= v < (d + 1) * q && last < b
    ensures d * (b * q) <= v * b + last < (d + 1) * (b * q)
  {
    MulBig(v - d * q + 1, b);
    assert v * b >= d * q * b == d * (b * q) by { MulMore(d * q, v, b); }
    assert (v + 1) * b <= (d + 1) * q * b == (d + 1) * (b * q) by { MulMore(v + 1, (d + 1) * q, b); }
  }

  lemma MulMore(x: nat, y: nat, b: nat)
    requires x <= y
    ensures x * b <= y * b
  {}

  // The first character by the first byte, for a block no larger than eight bytes.
  lemma FirstDigit(s: string)
    requires |s| == 11 && AllInAlphabet(s)
    ensures var v, x, d := BlockValue(s), BytesOf(BlockValue(s), 8)[0], DigitOf(s[0]);
      && d * 430804206899405824 <= v < (d + 1) * 430804206899405824
      && (v < 0x1_0000_0000_0000_0000 ==> x * 0x100_0000_0000_0000 <= v < (x + 1) * 0x100_0000_0000_0000)
  {
    var v := BlockValue(s);
    AlphabetDigits(s);
    LeadingDigit(DigitValues(s), 58);
    DigitAt(v, 256, 8, 0);
    TwoPowers();
    if v < 0x1_0000_0000_0000_0000 {
      QuotientIsNat(v, 0x100_0000_0000_0000);
      SmallMod(v / 0x100_0000_0000_0000, 256);
    }
  }

  lemma TwoPowers()
    ensures Pow(58, 10) == 430804206899405824 && Pow(256, 7) == 0x100_0000_0000_0000
  {
    assert Pow(58, 2) == 3364;
    assert Pow(58, 5) == 58 * (58 * (58 * Pow(58, 2))) == 656356768;
    PowAdd(58, 5, 5);
    assert Pow(256, 3) == 0x100_0000;
    assert Pow(256, 7) == 256 * (256 * (256 * (256 * Pow(256, 3))));
  }

  lemma FirstBlock(a: string)
    requires Decoded(a).Some? && |a| >= 11
    ensures AllInAlphabet(a[..11]) && |Decoded(a).value| >= 8
    ensures Decoded(a).value[0] == BytesOf(BlockValue(a[..11]), 8)[0]
  {
    FullBlock(a[..11]);
  }

  // The first character of an address: 4 or 8 on mainnet and regtest, 9, A or B on testnet, 5 or 7
  // on stagenet, just where the first block is no more than its eight bytes can hold, as every
  // encoder writes it.
  lemma FirstCharacter(a: string, network: string)
    requires IsAddress(a, network) && Decoded(a).value != [] && Decoded(a).value[0] < 128
    ensures |a| == 95 || |a| == 106
    ensures BlockValue(a[..11]) < 0x1_0000_0000_0000_0000 <==>
      match network
      case "testnet" => a[0] in {'9', 'A', 'B'}
      case "stagenet" => a[0] in {'5', '7'}
      case _ => a[0] in {'4', '8'}
  {
    AddressLength(a, network);
    hide Decoded, IsAddress, BlockValue, BytesOf, AllInAlphabet, DigitOf, Character, Checksum;
    var b := Decoded(a).value;
    AcceptedIff(a, network, b);
    TextLength(a);
    FirstBlock(a);
    FirstDigit(a[..11]);
    assert a[..11][0] == a[0];
    FirstAre(a[0]);
  }

  lemma TextLength(a: string)
    requires Decoded(a).Some?
    ensures |Decoded(a).value| == 69 <==> |a| == 95
    ensures |Decoded(a).value| == 77 ==> |a| == 106
  {
    DecodedLength(a);
    hide Decoded;
    LengthBack(|a| / 11, |a| % 11);
  }

  lemma LengthBack(q: nat, r: nat)
    requires r < 11
    ensures 8 * q + BlockBytes(r) == 69 <==> 11 * q + r == 95
    ensures 8 * q + BlockBytes(r) == 77 ==> 11 * q + r == 106
  {}

  lemma FirstAre(c: char)
    ensures DigitOf(c) == 3 <==> c == '4'
    ensures DigitOf(c) == 4 <==> c == '5'
    ensures DigitOf(c) == 6 <==> c == '7'
    ensures DigitOf(c) == 7 <==> c == '8'
    ensures DigitOf(c) == 8 <==> c == '9'
    ensures DigitOf(c) == 9 <==> c == 'A'
    ensures DigitOf(c) == 10 <==> c == 'B'
  {}

  // A text of 95 characters can only have a prefix of one byte.
  lemma UsualLength(a: string, network: string)
    requires IsAddress(a, network) && |a| == 95
    ensures |Decoded(a).value| == 69 && Decoded(a).value[0] < 128
  {
    AddressIff(a, network);
    TextLength(a);
    hide Decoded, Sum, IsAddress, Checksum;
    var head: seq<byte>, payload: seq<byte> :| SpellsIssued(a, network, head, payload);
    ChecksumSize(head + payload);
    IssuedTable(network, Sum(head) % U64);
    assert Decoded(a).value[0] == head[0];
  }

  // Whatever the network hands out is accepted, once written with its checksum.
  lemma Printed(network: string, prefix: nat, payload: seq<byte>)
    requires Issued(network, prefix, |payload|)
    ensures var m := [prefix] + payload;
      IsAddress(Encoded(m + Keccak256.Digest(m)[..4]), network)
  {
    hide IsAddress, Encoded;
    Single(prefix);
    IssuedIff(network, prefix, |payload|);
    Complete(network, prefix, payload);
  }
}
