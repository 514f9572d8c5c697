// Address validation (src/address_check.cpp, monero_addr::valid): base58, a varint prefix that
// names the network and the kind, the keys, and four bytes of Keccak-256.
module Address {
  import opened Bytes
  import opened Base58
  import opened Base58Laws
  import opened Varint
  import Keccak256

  datatype Prefixes = Prefixes(standard: nat, subaddress: nat, integrated: nat)

  function PrefixesOf(network: string): Option<Prefixes> {
    if network == "mainnet" || network == "regtest" then Some(Prefixes(18, 42, 19))
    else if network == "testnet" then Some(Prefixes(53, 63, 54))
    else if network == "stagenet" then Some(Prefixes(24, 36, 25))
    else None
  }

  ghost function Checksum(m: seq<byte>): seq<byte> { Keccak256.Digest(m)[..4] }

  // A varint on its own: one terminator, in last place, within ten bytes.
  ghost predicate IsVarint(head: seq<byte>) { 0 < |head| <= 10 && TerminatorIndex(head) == |head| - 1 }

  // Two keys, and a payment id too when integrated; -1 for another network's prefix.
  function PayloadSize(prefix: nat, ps: Prefixes): int {
    if prefix == ps.standard || prefix == ps.subaddress then 64 else if prefix == ps.integrated then 72 else -1
  }

  // A prefix with as many payload bytes as its kind has.
  ghost predicate IsBody(head: seq<byte>, payload: seq<byte>, ps: Prefixes) {
    IsVarint(head) && |payload| == PayloadSize(Sum(head) % U64, ps)
  }

  ghost predicate Spells(b: seq<byte>, head: seq<byte>, payload: seq<byte>) {
    b == head + payload + Checksum(head + payload)
  }

  // The addresses of a network, with no bound on their length.
  ghost predicate IsAddress(a: string, network: string) {
    && PrefixesOf(network).Some?
    && Decoded(a).Some?
    && exists head: seq<byte>, payload: seq<byte> ::
      IsBody(head, payload, PrefixesOf(network).value) && Spells(Decoded(a).value, head, payload)
  }

  // The prefixes each network hands out, by how many bytes follow: standard, subaddress, and
  // integrated with its payment id.
  ghost predicate Issued(network: string, prefix: nat, size: nat) {
    || (network in {"mainnet", "regtest"} && ((prefix in {18, 42} && size == 64) || (prefix == 19 && size == 72)))
    || (network == "testnet" && ((prefix in {53, 63} && size == 64) || (prefix == 54 && size == 72)))
    || (network == "stagenet" && ((prefix in {24, 36} && size == 64) || (prefix == 25 && size == 72)))
  }

  lemma IssuedIff(network: string, prefix: nat, size: nat)
    ensures Issued(network, prefix, size) <==>
      PrefixesOf(network).Some? && size == PayloadSize(prefix, PrefixesOf(network).value)
  {}

  ghost predicate SpellsIssued(a: string, network: string, head: seq<byte>, payload: seq<byte>) {
    && Decoded(a).Some? && IsVarint(head) && Issued(network, Sum(head) % U64, |payload|)
    && Spells(Decoded(a).value, head, payload)
  }

  lemma AddressIff(a: string, network: string)
    ensures IsAddress(a, network) <==>
      exists head: seq<byte>, payload: seq<byte> :: SpellsIssued(a, network, head, payload)
  {
    hide Decoded, Spells, Sum, IsVarint, Issued, PrefixesOf, PayloadSize;
    if IsAddress(a, network) {
      var head, payload :| IsBody(head, payload, PrefixesOf(network).value) && Spells(Decoded(a).value, head, payload);
      IssuedIff(network, Sum(head) % U64, |payload|);
      assert SpellsIssued(a, network, head, payload);
    }
    if exists head: seq<byte>, payload: seq<byte> :: SpellsIssued(a, network, head, payload) {
      var head, payload :| SpellsIssued(a, network, head, payload);
      IssuedIff(network, Sum(head) % U64, |payload|);
      assert IsBody(head, payload, PrefixesOf(network).value);
    }
  }

  // The 90-character gate refuses no address of any network.
  method Valid(address: string, network: string) returns (r: bool)
    ensures r <==> IsAddress(address, network)
    ensures r <==> exists head: seq<byte>, payload: seq<byte> :: SpellsIssued(address, network, head, payload)
  {
    AddressIff(address, network);
    hide SpellsIssued;
    hide Decoded, Checksum, Sum, TerminatorIndex;
    var known := PrefixesOf(network);
    if known.None? { return false; }
    var ps := known.value;
    if |address| < 90 {
      if IsAddress(address, network) { AddressLength(address, network); }
      return false;
    }
    var ok, b := Base58Decode(address);
    if !ok { return false; }
    if |b| < 4 {
      if IsAddress(address, network) { AddressLength(address, network); }
      return false;
    }
    var read, prefix, n := ReadVarint(b);
    AddressDecides(address, network, b);
    if !read { return false; }
    var body := |b| - 4;
    if prefix == ps.standard || prefix == ps.subaddress {
      if body != n + 64 { return false; }
    } else if prefix == ps.integrated {
      if body != n + 72 { return false; }
    } else {
      return false;
    }
    var h, _ := Keccak256.Hash(b[..body]);
    ChecksumSize(b[..body]);
    r := h[..4] == b[body..];
  }

  // What the code tests, in its own order.
  ghost predicate Tested(b: seq<byte>, ps: Prefixes) {
    var n := TerminatorIndex(b) + 1;
    && |b| >= 4
    && n <= Min(10, |b|)
    && 0 <= PayloadSize(Sum(b[..n]) % U64, ps) == |b| - 4 - n
    && Checksum(b[..|b| - 4]) == b[|b| - 4..]
  }

  lemma ChecksumSize(m: seq<byte>)
    ensures |Checksum(m)| == 4 && Checksum(m) == Keccak256.Digest(m)[..4]
  {
  }

  lemma {:induction false} TerminatorInPrefix(head: seq<byte>, rest: seq<byte>)
    requires TerminatorIndex(head) < |head|
    ensures TerminatorIndex(head + rest) == TerminatorIndex(head)
  {
    var b, k := head + rest, TerminatorIndex(head);
    assert forall i :: 0 <= i < |head| ==> b[i] == head[i];
  }

  lemma {:induction false} TerminatorOfTake(b: seq<byte>)
    requires TerminatorIndex(b) < |b|
    ensures TerminatorIndex(b[..TerminatorIndex(b) + 1]) == TerminatorIndex(b)
  {
    TerminatorIsFirst(b[..TerminatorIndex(b) + 1], TerminatorIndex(b));
  }

  lemma TerminatorIsFirst(b: seq<byte>, k: nat)
    requires k < |b| && b[k] < 128 && forall i :: 0 <= i < k ==> b[i] >= 128
    ensures TerminatorIndex(b) == k
  {
  }

  // A spelled address has its varint in front and its checksum behind.
  lemma SpelledParts(b: seq<byte>, head: seq<byte>, payload: seq<byte>, ps: Prefixes)
    requires IsBody(head, payload, ps) && Spells(b, head, payload)
    ensures TerminatorIndex(b) == |head| - 1 && b[..|head|] == head
    ensures |b| == |head| + |payload| + 4 && b[..|b| - 4] == head + payload
    ensures Tested(b, ps)
  {
    hide Checksum, Sum, TerminatorIndex, PayloadSize, U64;
    ChecksumSize(head + payload);
    SplitThree(head, payload, Checksum(head + payload));
    TerminatorInPrefix(head, payload + Checksum(head + payload));
  }

  lemma SplitThree(x: seq<byte>, y: seq<byte>, z: seq<byte>)
    ensures var b, m := x + y + z, x + y;
      b == x + (y + z) && b[..|x|] == x && b[..|m|] == m && b[|m|..] == z
  {
  }

  lemma AddressDecides(a: string, network: string, b: seq<byte>)
    requires PrefixesOf(network).Some? && Decoded(a) == Some(b)
    ensures IsAddress(a, network) <==> Tested(b, PrefixesOf(network).value)
  {
    hide Checksum, Sum, Decoded, TerminatorIndex;
    var ps := PrefixesOf(network).value;
    if IsAddress(a, network) {
      var head, payload :| IsBody(head, payload, ps) && Spells(b, head, payload);
      SpelledParts(b, head, payload, ps);
    }
    if Tested(b, ps) {
      var n := TerminatorIndex(b) + 1;
      var head, payload := b[..n], b[n..|b| - 4];
      TerminatorOfTake(b);
      assert head + payload == b[..|b| - 4];
      assert b == b[..|b| - 4] + b[|b| - 4..];
      assert IsBody(head, payload, ps) && Spells(b, head, payload);
    }
  }

  // 69 bytes or more decode only from 95 characters or more.
  lemma AddressLength(a: string, network: string)
    requires IsAddress(a, network)
    ensures |a| >= 95 && |Decoded(a).value| >= 69
  {
    hide Checksum, Sum, Decoded, TerminatorIndex;
    var b := Decoded(a).value;
    var ps := PrefixesOf(network).value;
    var head, payload :| IsBody(head, payload, ps) && Spells(b, head, payload);
    SpelledParts(b, head, payload, ps);
    DecodedLength(a);
    Language(a);
  }

  // Every prefix of a network, with any keys, is accepted once encoded with its checksum.
  lemma Complete(network: string, prefix: nat, payload: seq<byte>)
    requires PrefixesOf(network).Some?
    requires var ps := PrefixesOf(network).value;
      (prefix in {ps.standard, ps.subaddress} && |payload| == 64) || (prefix == ps.integrated && |payload| == 72)
    ensures var m := Encode(prefix) + payload;
      IsAddress(Encoded(m + Checksum(m)), network)
  {
    hide Checksum, Sum, Encoded, Decoded, TerminatorIndex, Encode;
    var head := Encode(prefix);
    var b := head + payload + Checksum(head + payload);
    Base58Laws.RoundTrip(b);
    Varint.RoundTrip(prefix, []);
    assert head + [] == head && head[..|head|] == head;
    assert IsBody(head, payload, PrefixesOf(network).value) && Spells(b, head, payload);
  }

  function Family(network: string): nat {
    if network == "testnet" then 1 else if network == "stagenet" then 2 else 0
  }

  // No address is valid on two families of networks.
  lemma OneFamily(a: string, m: string, n: string)
    requires IsAddress(a, m) && IsAddress(a, n)
    ensures Family(m) == Family(n)
  {
    hide Checksum, Sum, Decoded, TerminatorIndex, IsVarint, U64;
    var b := Decoded(a).value;
    var p, q := PrefixesOf(m).value, PrefixesOf(n).value;
    var head, payload :| IsBody(head, payload, p) && Spells(b, head, payload);
    var head2, payload2 :| IsBody(head2, payload2, q) && Spells(b, head2, payload2);
    SpelledParts(b, head, payload, p);
    SpelledParts(b, head2, payload2, q);
    assert head == head2;
  }
}
