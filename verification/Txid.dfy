// The transaction ids shown to the user (src/wallet_runtime.cpp, looksLikeTxid).
module Txid {
  predicate IsHex(c: char) { '0' <= c <= '9' || 'a' <= c <= 'f' || 'A' <= c <= 'F' }

  lemma HexIff(c: char)
    ensures IsHex(c) <==> c in "0123456789abcdefABCDEF"
  {
    var digits := "0123456789abcdefABCDEF";
    if '0' <= c <= '9' { assert digits[c as nat - '0' as nat] == c; }
    if 'a' <= c <= 'f' { assert digits[c as nat - 'a' as nat + 10] == c; }
    if 'A' <= c <= 'F' { assert digits[c as nat - 'A' as nat + 16] == c; }
  }

  ghost predicate IsHash(s: string) { |s| == 64 && forall i :: 0 <= i < 64 ==> IsHex(s[i]) }

  // Parts joined by commas, as the wallet's separator-joining getters build them.
  function Join(parts: seq<string>): string {
    if parts == [] then "" else if |parts| == 1 then parts[0] else parts[0] + "," + Join(parts[1..])
  }

  function IndexOfComma(s: string): (k: nat)
    ensures k <= |s| && (k < |s| ==> s[k] == ',') && forall i :: 0 <= i < k ==> s[i] != ','
  {
    if s == "" || s[0] == ',' then 0 else 1 + IndexOfComma(s[1..])
  }

  // The parts between the commas; there is always at least one.
  function Split(s: string): (parts: seq<string>)
    ensures parts != []
    decreases |s|
  {
    var k := IndexOfComma(s);
    if k == |s| then [s] else [s[..k]] + Split(s[k + 1..])
  }

  ghost predicate AllHashes(parts: seq<string>) {
    parts == [] || (IsHash(parts[0]) && AllHashes(parts[1..]))
  }

  // The accepted language: one or more hashes, joined by commas.
  ghost predicate IsTxid(s: string) {
    exists parts: seq<string> :: parts != [] && AllHashes(parts) && s == Join(parts)
  }

  method LooksLikeTxid(joined: string) returns (r: bool)
    ensures r <==> IsTxid(joined)
  {
    SplitDecides(joined);
    if joined == "" {
      SplitHead(joined);
      return false;
    }
    var start := 0;
    while start <= |joined|
      invariant 0 <= start <= |joined|
      invariant AllHashes(Split(joined)) <==> AllHashes(Split(joined[start..]))
      decreases |joined| - start
    {
      ghost var rest := joined[start..];
      var comma := IndexOfComma(joined[start..]);
      var one := joined[start..start + comma];
      assert one == rest[..comma];
      SplitHead(rest);
      var hex := IsHash64(one);
      if !hex { return false; }
      if start + comma == |joined| { break; }
      assert rest[comma + 1..] == joined[start + comma + 1..];
      start := start + comma + 1;
    }
    return true;
  }

  method IsHash64(one: string) returns (r: bool)
    ensures r <==> IsHash(one)
  {
    if |one| != 64 { return false; }
    for i := 0 to 64
      invariant forall j :: 0 <= j < i ==> IsHex(one[j])
    {
      if !IsHex(one[i]) { return false; }
    }
    return true;
  }

  // The scan's step: the part up to the first comma, and what follows it.
  lemma SplitHead(s: string)
    ensures var k := IndexOfComma(s);
      AllHashes(Split(s)) <==> IsHash(s[..k]) && (k == |s| || AllHashes(Split(s[k + 1..])))
  {
    var k, parts := IndexOfComma(s), Split(s);
    if k < |s| {
      assert parts[1..] == Split(s[k + 1..]) && parts[0] == s[..k];
    } else {
      assert parts[0] == s == s[..k] && parts[1..] == [];
    }
  }

  lemma JoinMore(first: string, rest: seq<string>)
    requires rest != []
    ensures Join([first] + rest) == first + "," + Join(rest)
  {
    assert ([first] + rest)[1..] == rest;
  }

  // Splitting then joining is the identity on every string.
  lemma {:induction false} JoinOfSplit(s: string)
    ensures Join(Split(s)) == s
    decreases |s|
  {
    hide Join;
    var k := IndexOfComma(s);
    if k < |s| {
      JoinOfSplit(s[k + 1..]);
      JoinMore(s[..k], Split(s[k + 1..]));
      assert s == s[..k] + "," + s[k + 1..];
    } else {
      JoinOne(s);
    }
  }

  lemma JoinOne(s: string)
    ensures Join([s]) == s
  {
  }

  lemma HashHasNoComma(s: string)
    requires IsHash(s)
    ensures ',' !in s
  {
    assert forall i :: 0 <= i < |s| ==> IsHex(s[i]);
  }

  lemma CommaAfter(first: string, rest: string)
    requires ',' !in first
    ensures IndexOfComma(first) == |first|
    ensures IndexOfComma(first + "," + rest) == |first|
  {
    var s := first + "," + rest;
    assert s[|first|] == ',' && forall i :: 0 <= i < |first| ==> s[i] == first[i];
  }

  // Joining then splitting is the identity on hashes.
  lemma {:induction false} SplitOfJoin(parts: seq<string>)
    requires parts != [] && AllHashes(parts)
    ensures Split(Join(parts)) == parts
  {
    var first := parts[0];
    HashHasNoComma(first);
    if |parts| == 1 {
      CommaAfter(first, "");
      assert parts == [first];
    } else {
      var rest := Join(parts[1..]);
      CommaAfter(first, rest);
      SplitOfJoin(parts[1..]);
      var s := first + "," + rest;
      assert s[..|first|] == first && s[|first| + 1..] == rest;
      assert parts == [first] + parts[1..];
    }
  }

  lemma SplitDecides(s: string)
    ensures IsTxid(s) <==> AllHashes(Split(s))
  {
    if IsTxid(s) {
      var parts :| parts != [] && AllHashes(parts) && s == Join(parts);
      SplitOfJoin(parts);
    }
    JoinOfSplit(s);
  }

  lemma {:induction false} JoinLength(parts: seq<string>)
    requires parts != [] && AllHashes(parts)
    ensures var s := Join(parts); |s| + 1 == 65 * |parts| && s[|s| - 1] != ','
  {
    HashHasNoComma(parts[0]);
    if |parts| > 1 {
      JoinLength(parts[1..]);
    }
  }

  // An accepted string splits into n hashes, has length 65n - 1, and has no empty part:
  // no trailing, leading or doubled comma.
  lemma TxidShape(s: string)
    requires IsTxid(s)
    ensures AllHashes(Split(s)) && Join(Split(s)) == s && |s| + 1 == 65 * |Split(s)|
    ensures s != "" && s[0] != ',' && s[|s| - 1] != ','
    ensures forall i :: 0 <= i < |s| - 1 ==> !(s[i] == ',' && s[i + 1] == ',')
  {
    var parts := Split(s);
    SplitDecides(s);
    assert Join(parts) == s by { JoinOfSplit(s); }
    NoDoubledComma(s);
    assert |s| + 1 == 65 * |parts| && s[|s| - 1] != ',' by { JoinLength(parts); }
  }

  lemma {:induction false} NoDoubledComma(s: string)
    requires AllHashes(Split(s))
    ensures s != "" && s[0] != ','
    ensures forall i :: 0 <= i < |s| - 1 ==> !(s[i] == ',' && s[i + 1] == ',')
    decreases |s|
  {
    var k := IndexOfComma(s);
    SplitHead(s);
    if k < |s| {
      var rest := s[k + 1..];
      NoDoubledComma(rest);
      forall i | 0 <= i < |s| - 1 ensures !(s[i] == ',' && s[i + 1] == ',') {
        if i > k { assert rest[i - k - 1] == s[i] && rest[i - k] == s[i + 1]; }
        else if i == k { assert rest[0] == s[i + 1]; }
      }
    }
  }
}
