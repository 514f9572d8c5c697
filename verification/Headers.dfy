// What a header says of the length of a body, as a client writes it.
module HeaderLaws {
  import opened Bytes
  import opened Search
  import opened Streams
  import Decimal

  // ---- Blanks around ----

  // Space, tab, line feed, vertical tab, form feed and carriage return: what strip takes off.
  ghost predicate Blank(s: Text) { forall i :: 0 <= i < |s| ==> s[i] in {32, 9, 10, 11, 12, 13} }

  ghost predicate Trimmed(s: Text) {
    s != [] && s[0] !in {32, 9, 10, 11, 12, 13} && s[|s| - 1] !in {32, 9, 10, 11, 12, 13}
  }

  lemma {:induction false} StripLeftIs(before: Text, s: Text)
    requires Blank(before) && (s == [] || s[0] !in {32, 9, 10, 11, 12, 13})
    ensures StripLeft(before + s) == s
  {
    if before == [] {
      assert before + s == s;
    } else {
      assert before[0] in {32, 9, 10, 11, 12, 13};
      assert (before + s)[1..] == before[1..] + s;
      StripLeftIs(before[1..], s);
    }
  }

  lemma {:induction false} StripRightIs(s: Text, after: Text)
    requires Blank(after) && (s == [] || s[|s| - 1] !in {32, 9, 10, 11, 12, 13})
    ensures StripRight(s + after) == s
  {
    if after == [] {
      assert s + after == s;
    } else {
      assert after[|after| - 1] in {32, 9, 10, 11, 12, 13};
      assert (s + after)[..|s + after| - 1] == s + after[..|after| - 1];
      StripRightIs(s, after[..|after| - 1]);
    }
  }

  lemma StripIs(before: Text, s: Text, after: Text)
    requires Blank(before) && Blank(after) && Trimmed(s)
    ensures Strip(before + s + after) == s
  {
    assert before + s + after == before + (s + after) && (s + after)[0] == s[0];
    StripLeftIs(before, s + after);
    StripRightIs(s, after);
  }

  lemma {:induction false} StripLeftParts(s: Text) returns (before: Text)
    ensures Blank(before) && s == before + StripLeft(s)
    ensures StripLeft(s) == [] || StripLeft(s)[0] !in {32, 9, 10, 11, 12, 13}
  {
    if s != [] && IsSpace(s[0]) {
      var more := StripLeftParts(s[1..]);
      before := [s[0]] + more;
    } else {
      before := [];
    }
  }

  lemma {:induction false} StripRightParts(s: Text) returns (after: Text)
    ensures Blank(after) && s == StripRight(s) + after
    ensures StripRight(s) == [] || StripRight(s)[|StripRight(s)| - 1] !in {32, 9, 10, 11, 12, 13}
    ensures StripRight(s) != [] ==> s != [] && StripRight(s)[0] == s[0]
  {
    if s != [] && IsSpace(s[|s| - 1]) {
      var more := StripRightParts(s[..|s| - 1]);
      after := more + [s[|s| - 1]];
    } else {
      after := [];
    }
  }

  lemma StripParts(s: Text) returns (before: Text, after: Text)
    ensures Blank(before) && Blank(after) && s == before + Strip(s) + after
  {
    before := StripLeftParts(s);
    after := StripRightParts(StripLeft(s));
  }

  // ---- The name ----

  // A word in bytes, each of its small letters in either case.
  ghost predicate Reads(s: Text, word: string) {
    |s| == |word| && forall i :: 0 <= i < |s| ==>
      s[i] == word[i] as nat || ('a' <= word[i] <= 'z' && s[i] == word[i] as nat - 32)
  }

  lemma NameIs()
    ensures |CONTENT_LENGTH| == |"content-length"|
    ensures forall i :: 0 <= i < 14 ==> CONTENT_LENGTH[i] == "content-length"[i] as nat
  {
    var s := "content-length";
    assert s[0] == 'c' && s[1] == 'o' && s[2] == 'n' && s[3] == 't' && s[4] == 'e' && s[5] == 'n' && s[6] == 't';
    assert s[7] == '-' && s[8] == 'l' && s[9] == 'e' && s[10] == 'n' && s[11] == 'g' && s[12] == 't' && s[13] == 'h';
  }

  lemma LowerReads(s: Text)
    ensures Lower(s) == CONTENT_LENGTH <==> Reads(s, "content-length")
  {
    NameIs();
    if Reads(s, "content-length") {
      forall i | 0 <= i < 14 ensures Lower(s)[i] == CONTENT_LENGTH[i] { Letter(s, i); }
    }
    if Lower(s) == CONTENT_LENGTH {
      forall i | 0 <= i < |s|
        ensures var c := "content-length"[i]; s[i] == c as nat || ('a' <= c <= 'z' && s[i] == c as nat - 32)
      {
        Letter(s, i);
        assert Lower(s)[i] == CONTENT_LENGTH[i];
      }
    }
  }

  lemma Letter(s: Text, i: nat)
    requires i < |s| && i < 14
    ensures var c := "content-length"[i];
      && (s[i] == c as nat || ('a' <= c <= 'z' && s[i] == c as nat - 32) <==> Lower(s)[i] == c as nat)
      && (Lower(s)[i] == c as nat ==> s[i] !in {32, 9, 10, 11, 12, 13, 58})
  {
    NameIs();
  }

  lemma NamePlain(name: Text)
    requires Reads(name, "content-length")
    ensures Trimmed(name) && 58 !in name
  {
    NameIs();
    forall i | 0 <= i < |name| ensures name[i] !in {32, 9, 10, 11, 12, 13, 58} { Letter(name, i); }
  }

  // ---- The line ----

  lemma PartitionAt(key: Text, value: Text)
    requires 58 !in key
    ensures Partition(key) == (key, []) && Partition(key + [58] + value) == (key, value)
  {
    var s := key + [58] + value;
    assert s[|key|..|key| + 1] == [58];
    forall j | 0 <= j < |key| ensures !At(s, [58], j) { assert s[j..j + 1] == [key[j]] && key[j] in key; }
    IndexIs(s, [58], |key|);
    assert s[..|key|] == key && s[|key| + 1..] == value;
    forall j | 0 <= j < |key| ensures !At(key, [58], j) { assert key[j..j + 1] == [key[j]] && key[j] in key; }
    assert IndexOf(key, [58]).None?;
  }

  lemma PartitionParts(line: Text)
    ensures var (key, value) := Partition(line); line == key || line == key + [58] + value
  {
    var k := IndexOf(line, [58]);
    if k.Some? { assert line == line[..k.value] + [58] + line[k.value + 1..]; }
  }

  // Blanks, the name in any case, blanks, and nothing or a colon and a value.
  ghost predicate Named(line: Text, before: Text, name: Text, after: Text, value: Text) {
    && Blank(before) && Reads(name, "content-length") && Blank(after)
    && (line == before + name + after || line == before + name + after + [58] + value)
  }

  ghost predicate NamesLength(line: Text) {
    exists before: Text, name: Text, after: Text, value: Text :: Named(line, before, name, after, value)
  }

  lemma LengthLineIff(line: Text)
    ensures IsLengthLine(line) <==> NamesLength(line)
  {
    hide IndexOf, Strip, Lower, Partition;
    if IsLengthLine(line) {
      var (key, value) := Partition(line);
      PartitionParts(line);
      var before, after := StripParts(key);
      LowerReads(Strip(key));
      assert Named(line, before, Strip(key), after, value);
    }
    if NamesLength(line) {
      var before: Text, name: Text, after: Text, value: Text :| Named(line, before, name, after, value);
      NamePlain(name);
      LowerReads(name);
      StripIs(before, name, after);
      NoColon(before, name, after);
      PartitionAt(before + name + after, value);
    }
  }

  lemma NoColon(before: Text, name: Text, after: Text)
    requires Blank(before) && 58 !in name && Blank(after)
    ensures 58 !in before + name + after
  {}

  // A line of any other name decides nothing.
  lemma OtherLines(line: Text, more: seq<Text>)
    requires !NamesLength(line)
    ensures LengthIn([line] + more) == LengthIn(more)
  {
    LengthLineIff(line);
    assert ([line] + more)[1..] == more;
  }

  // ---- The value ----

  ghost function Written(n: nat): Text {
    var t := Decimal.Text(n);
    seq(|t|, i requires 0 <= i < |t| => CodeOf(t, i))
  }

  ghost function CodeOf(t: string, i: nat): byte
    requires i < |t| && Decimal.AllDigits(t)
  {
    assert Decimal.IsDigit(t[i]);
    t[i] as nat
  }

  lemma {:induction false} WrittenReads(n: nat)
    ensures Written(n) != [] && (forall i :: 0 <= i < |Written(n)| ==> 48 <= Written(n)[i] <= 57)
    ensures ParseDigits(Written(n)) == Some(n)
  {
    var s, t := Written(n), Decimal.Text(n);
    assert forall i :: 0 <= i < |s| ==> Decimal.IsDigit(t[i]) && s[i] == t[i] as nat;
    assert t[|t| - 1] == '0' + (n % 10) as char;
    assert s[|s| - 1] == 48 + n % 10;
    if n >= 10 {
      WrittenReads(n / 10);
      assert t[..|t| - 1] == Decimal.Text(n / 10);
      assert s[..|s| - 1] == Written(n / 10);
      assert s[|s| - 2] == Written(n / 10)[|s| - 2] != 95;
    }
  }

  // As Python reads integers: digits, with single underscores between digits.
  ghost predicate Grouped(s: Text) {
    && s != [] && IsDigit(s[0]) && IsDigit(s[|s| - 1])
    && (forall i :: 0 <= i < |s| ==> 48 <= s[i] <= 57 || s[i] == 95)
    && (forall i :: 0 <= i < |s| - 1 ==> s[i] != 95 || s[i + 1] != 95)
  }

  lemma {:induction false} DigitsIff(s: Text)
    ensures ParseDigits(s).Some? <==> Grouped(s)
    decreases |s|
  {
    if |s| >= 2 && IsDigit(s[|s| - 1]) {
      var front := if s[|s| - 2] == 95 then s[..|s| - 2] else s[..|s| - 1];
      DigitsIff(front);
      if Grouped(s) {
        assert front != [] && (s[|s| - 2] == 95 ==> |s| >= 3 && s[|s| - 3] != 95);
        assert Grouped(front);
      }
      if Grouped(front) { assert Grouped(s); }
    }
  }

  ghost function Plain(s: Text): Text {
    if s == [] then [] else Plain(s[..|s| - 1]) + if s[|s| - 1] == 95 then [] else [s[|s| - 1]]
  }

  // All but the last digit, and the underscore before it, if any.
  ghost function Front(s: Text): Text
    requires |s| >= 2
  {
    if s[|s| - 2] == 95 then s[..|s| - 2] else s[..|s| - 1]
  }

  ghost function Pushed(v: Option<nat>, d: byte): Option<nat>
    requires IsDigit(d)
  {
    match v case None => None case Some(n) => Some(10 * n + (d - 48))
  }

  lemma FrontParses(s: Text)
    requires Grouped(s) && |s| >= 2
    ensures var f := Front(s);
      Grouped(f) && f[|f| - 1] != 95 && ParseDigits(s) == Pushed(ParseDigits(f), s[|s| - 1])
  {
    assert s[|s| - 2] == 95 ==> |s| >= 3 && s[|s| - 3] != 95;
  }

  lemma FrontPlain(s: Text)
    requires Grouped(s) && |s| >= 2
    ensures Plain(s) == Plain(Front(s)) + [s[|s| - 1]]
  {
    if s[|s| - 2] == 95 {
      assert s[..|s| - 1][..|s| - 2] == s[..|s| - 2];
      assert Plain(s[..|s| - 1]) == Plain(Front(s)) + [];
    }
  }

  lemma DigitPushed(q: Text, d: byte)
    requires q != [] && q[|q| - 1] != 95 && IsDigit(d)
    ensures ParseDigits(q + [d]) == Pushed(ParseDigits(q), d)
  {
    hide ParseDigits;
    var s := q + [d];
    assert s[..|s| - 1] == q && s[|s| - 2] == q[|q| - 1] && s[|s| - 1] == d;
    LastDigit(s);
  }

  lemma LastDigit(s: Text)
    requires |s| >= 2 && s[|s| - 2] != 95 && IsDigit(s[|s| - 1])
    ensures ParseDigits(s) == Pushed(ParseDigits(s[..|s| - 1]), s[|s| - 1])
  {}

  // Underscores count for nothing.
  lemma {:induction false} UnderscoresAddNothing(s: Text)
    requires Grouped(s)
    ensures Plain(s) != [] && Plain(s)[|Plain(s)| - 1] == s[|s| - 1] && 95 !in Plain(s)
    ensures ParseDigits(Plain(s)) == ParseDigits(s)
    decreases |s|
  {
    if |s| == 1 {
      assert Plain(s[..0]) == [] && Plain(s) == [] + s;
    } else {
      hide Plain, ParseDigits;
      FrontParses(s);
      FrontPlain(s);
      UnderscoresAddNothing(Front(s));
      DigitPushed(Plain(Front(s)), s[|s| - 1]);
    }
  }

  lemma WrittenInt(n: nat, before: Text, after: Text)
    requires Blank(before) && Blank(after)
    ensures ParseInt(Strip(before + Written(n) + after)) == Some(n)
    ensures ParseInt(Strip(before + ([45] + Written(n)) + after)) == Some(0 - n)
    ensures ParseInt(Strip(before + ([43] + Written(n)) + after)) == Some(n)
  {
    hide Written, Strip;
    WrittenReads(n);
    var w := Written(n);
    StripIs(before, w, after);
    StripIs(before, [45] + w, after);
    StripIs(before, [43] + w, after);
    assert ([45] + w)[1..] == w && ([43] + w)[1..] == w;
  }

  // ---- The header ----

  // Content-Length as it is written: its name in any case, blanks around name and value, a number in
  // decimal.
  ghost function HeaderLine(before: Text, name: Text, after: Text, lead: Text, n: nat, trail: Text): Text {
    before + name + after + [58] + (lead + Written(n) + trail)
  }

  lemma HeaderReads(before: Text, name: Text, after: Text, lead: Text, n: nat, trail: Text, more: seq<Text>)
    requires Blank(before) && Reads(name, "content-length") && Blank(after) && Blank(lead) && Blank(trail)
    ensures LengthIn([HeaderLine(before, name, after, lead, n, trail)] + more) == Ok(n)
  {
    hide IndexOf, Strip, Lower, Partition, Written, ParseInt, IsLengthLine;
    var line, value := HeaderLine(before, name, after, lead, n, trail), lead + Written(n) + trail;
    assert Named(line, before, name, after, value);
    LengthLineIff(line);
    NamePlain(name);
    NoColon(before, name, after);
    PartitionAt(before + name + after, value);
    WrittenInt(n, lead, trail);
    assert ([line] + more)[0] == line;
  }

  // Lines of other names before it make no difference.
  lemma {:induction false} HeaderAfter(others: seq<Text>, line: Text, n: int, more: seq<Text>)
    requires forall i :: 0 <= i < |others| ==> !NamesLength(others[i])
    requires LengthIn([line] + more) == Ok(n)
    ensures LengthIn(others + [line] + more) == Ok(n)
  {
    hide LengthIn, NamesLength;
    if others == [] {
      assert others + [line] + more == [line] + more;
    } else {
      HeaderAfter(others[1..], line, n, more);
      OtherLines(others[0], others[1..] + [line] + more);
      assert [others[0]] + (others[1..] + [line] + more) == others + [line] + more;
    }
  }
}
