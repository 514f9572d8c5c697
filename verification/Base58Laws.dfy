// What base58 promises: the round trip, the exact accepted language, and when re-encoding
// gives the text back.
module Base58Laws {
  import opened Bytes
  import opened Positional
  import opened Base58

  lemma BytesAreDigits(bs: seq<byte>)
    ensures Digits(bs, 256)
  {
  }

  lemma BytesOfValue(bs: seq<byte>)
    ensures BytesOf(Value(bs, 256), |bs|) == bs
  {
    DigitsOfValue(bs, 256);
  }

  lemma ValueOfBytes(v: nat, size: nat)
    ensures Value(BytesOf(v, size), 256) == v % Pow(256, size)
  {
    ValueOfDigits(v, 256, size);
    var bs: seq<nat> := BytesOf(v, size);
    assert bs == ToDigits(v, 256, size);
  }

  // The characters of an encoded block spell the block's number.
  lemma EncodedBlockSpells(bs: seq<byte>)
    requires 0 < |bs| <= 8
    ensures AllInAlphabet(EncodedBlock(bs)) && BlockValue(EncodedBlock(bs)) == Value(bs, 256) < Pow(256, |bs|)
  {
    var n := ENC_SIZES[|bs|];
    var v := Value(bs, 256);
    var ds, s := ToDigits(v, 58, n), EncodedBlock(bs);
    forall i | 0 <= i < n ensures DigitOf(s[i]) == ds[i] { assert s[i] == Character(ds[i]); }
    assert DigitValues(s) == ds;
    BytesAreDigits(bs);
    ValueBound(bs, 256);
    Powers();
    ValueOfDigits(v, 58, n);
    SmallMod(v, Pow(58, n));
  }

  lemma SmallMod(v: nat, p: nat)
    requires v < p
    ensures v % p == v
  {
  }

  lemma BlockSizes(k: nat)
    requires 0 < k <= 8
    ensures BlockBytes(ENC_SIZES[k]) == k
  {
  }

  lemma BlockRoundTrip(bs: seq<byte>)
    requires 0 < |bs| <= 8
    ensures DecodedBlock(EncodedBlock(bs)) == Some(bs)
  {
    BlockSizes(|bs|);
    EncodedBlockSpells(bs);
    BytesOfValue(bs);
  }

  // Decoding inverts encoding on every byte sequence.
  lemma {:induction false} RoundTrip(bs: seq<byte>)
    ensures Decoded(Encoded(bs)) == Some(bs)
    decreases |bs|
  {
    if bs != [] {
      var n := Min(8, |bs|);
      var head, rest := EncodedBlock(bs[..n]), Encoded(bs[n..]);
      BlockRoundTrip(bs[..n]);
      RoundTrip(bs[n..]);
      var s := head + rest;
      if n < 8 { assert bs[n..] == [] && rest == ""; }
      assert ENC_SIZES[n] <= 11 && (n < 8 ==> rest == "") && (n == 8 ==> |head| == 11);
      assert s[..Min(11, |s|)] == head && s[Min(11, |s|)..] == rest;
      assert bs[..n] + bs[n..] == bs;
    }
  }

  // ---- The exact language ----

  function Tail(s: string): string { s[|s| - |s| % 11..] }

  predicate TailLength(n: nat) { n in {0, 2, 3, 5, 6, 7, 9, 10} }

  ghost predicate InLanguage(s: string) {
    && AllInAlphabet(s)
    && TailLength(|s| % 11)
    && (|s| % 11 != 0 ==> BlockValue(Tail(s)) < Pow(256, BlockBytes(|s| % 11)))
  }

  lemma FullBlock(s: string)
    requires |s| == 11
    ensures DecodedBlock(s) == if AllInAlphabet(s) then Some(BytesOf(BlockValue(s), 8)) else None
  {
  }

  lemma AllInAlphabetSplit(s: string, n: nat)
    requires n <= |s|
    ensures AllInAlphabet(s) <==> AllInAlphabet(s[..n]) && AllInAlphabet(s[n..])
  {
    if AllInAlphabet(s[..n]) && AllInAlphabet(s[n..]) {
      forall i | 0 <= i < |s| ensures InAlphabet(s[i]) {
        if i < n { assert s[i] == s[..n][i]; } else { assert s[i] == s[n..][i - n]; }
      }
    }
    if AllInAlphabet(s) {
      forall i | 0 <= i < |s| - n ensures InAlphabet(s[n..][i]) { assert s[n..][i] == s[n + i]; }
    }
  }

  lemma {:induction false} Language(s: string)
    ensures Decoded(s).Some? <==> InLanguage(s)
    decreases |s|
  {
    hide BytesOf, BlockValue, AllInAlphabet, Pow;
    if s == "" {
      assert AllInAlphabet(s) by { NothingInAlphabet(); }
    } else if |s| < 11 {
      ShortDecoded(s);
      ShortInAlphabet(s);
      assert Tail(s) == s;
    } else {
      FullBlock(s[..11]);
      Language(s[11..]);
      AllInAlphabetSplit(s, 11);
      SameTail(s);
    }
  }

  lemma SameTail(s: string)
    requires |s| >= 11
    ensures |s[11..]| % 11 == |s| % 11 && Tail(s[11..]) == Tail(s)
  {
  }

  lemma NothingInAlphabet()
    ensures AllInAlphabet("")
  {
  }

  // A short text decodes only in the alphabet and below its bound.
  lemma ShortInAlphabet(s: string)
    requires 0 < |s| < 11
    ensures DecodedBlock(s).Some? <==>
      BlockBytes(|s|) > 0 && AllInAlphabet(s) && BlockValue(s) < Pow(256, BlockBytes(|s|))
  {
    hide BytesOf, BlockValue, InAlphabet, Pow;
  }

  lemma ShortDecoded(s: string)
    requires 0 < |s| < 11
    ensures Decoded(s) == DecodedBlock(s)
    ensures BlockBytes(|s|) < 8 && (BlockBytes(|s|) > 0 <==> TailLength(|s|))
  {
    hide BytesOf, BlockValue, InAlphabet, Pow;
    assert s[..|s|] == s && s[|s|..] == "";
    if DecodedBlock(s).Some? { assert DecodedBlock(s).value + [] == DecodedBlock(s).value; }
  }

  // ---- Re-encoding ----

  // A full block decodes modulo 2^64, so only blocks below 2^64 come back.
  ghost predicate FullBlocksFit(s: string)
    decreases |s|
  {
    |s| < 11 || (BlockValue(s[..11]) < Pow(256, 8) && FullBlocksFit(s[11..]))
  }

  lemma BlockReencodes(s: string)
    requires DecodedBlock(s).Some?
    ensures var bs := DecodedBlock(s).value;
      && 0 < |bs| == BlockBytes(|s|) <= 8
      && (EncodedBlock(bs) == s <==> BlockValue(s) < Pow(256, |bs|))
  {
    var bs := DecodedBlock(s).value;
    var e := EncodedBlock(bs);
    ValueOfBytes(BlockValue(s), |bs|);
    EncodedBlockSpells(bs);
    if BlockValue(s) < Pow(256, |bs|) {
      SmallMod(BlockValue(s), Pow(256, |bs|));
      AlphabetDigits(s);
      AlphabetDigits(e);
      ValueInjective(DigitValues(s), DigitValues(e), 58);
      forall i | 0 <= i < |s| ensures s[i] == e[i] {
        assert DigitValues(s)[i] == DigitValues(e)[i];
        assert InAlphabet(s[i]) && InAlphabet(e[i]);
        CharacterOfDigit(s[i]);
        CharacterOfDigit(e[i]);
      }
    }
  }

  lemma {:induction false} Reencode(s: string)
    requires Decoded(s).Some?
    ensures Encoded(Decoded(s).value) == s <==> FullBlocksFit(s)
    decreases |s|
  {
    hide BytesOf, BlockValue, InAlphabet, Pow, EncodedBlock;
    if s == "" {
    } else if |s| < 11 {
      ShortDecoded(s);
      BlockReencodes(s);
      var bs := Decoded(s).value;
      assert bs[..|bs|] == bs && bs[|bs|..] == [] && Encoded(bs) == EncodedBlock(bs) + "";
    } else {
      var head, rest := DecodedBlock(s[..11]).value, Decoded(s[11..]).value;
      BlockReencodes(s[..11]);
      Reencode(s[11..]);
      var bs := Decoded(s).value;
      assert bs == head + rest && |head| == 8;
      assert bs[..8] == head && bs[8..] == rest;
      var e, f := EncodedBlock(head), Encoded(rest);
      assert Encoded(bs) == e + f;
      assert s == s[..11] + s[11..];
      assert (e + f)[..11] == e && (e + f)[11..] == f;
    }
  }

  // How long the decoded bytes are, from the text alone.
  lemma {:induction false} DecodedLength(s: string)
    requires Decoded(s).Some?
    ensures |Decoded(s).value| == 8 * (|s| / 11) + BlockBytes(|s| % 11)
    decreases |s|
  {
    hide BytesOf, BlockValue, InAlphabet, Pow;
    if s == "" {
    } else if |s| < 11 {
      ShortDecoded(s);
    } else {
      DecodedLength(s[11..]);
      FullBlock(s[..11]);
      assert |s[11..]| / 11 == |s| / 11 - 1 && |s[11..]| % 11 == |s| % 11;
    }
  }
}
