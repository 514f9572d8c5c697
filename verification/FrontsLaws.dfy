// What the relay promises of well-formed streams: every complete request, in order, and only that.
module RelayLaws {
  import opened Bytes
  import opened Search
  import opened Streams
  import opened Socks
  import opened Relay
  import opened Front
  import opened HeaderLaws
  import Decimal

  ghost function Concat(ms: seq<Text>): Text { if ms == [] then [] else ms[0] + Concat(ms[1..]) }

  // A text that is one complete message.
  ghost predicate IsMessage(m: Text) {
    var r := FirstMessage(m);
    r.Whole? && r.bytes == m && r.rest == []
  }

  lemma FirstOfMany(m: Text, rest: Text)
    requires IsMessage(m)
    ensures FirstMessage(m + rest) == Whole(m, FirstMessage(m).head, rest)
  {
    hide IndexOf, LengthOf;
    IndexStays(m, rest, END_OF_HEAD);
    var k := IndexOf(m, END_OF_HEAD).value;
    var n := LengthOf(m[..k + 4]).value;
    assert (m + rest)[..k + 4] == m[..k + 4];
    assert (m + rest)[k + 4..] == m[k + 4..] + rest;
    assert (m[k + 4..] + rest)[..n] == m[k + 4..][..n] && (m[k + 4..] + rest)[n..] == m[k + 4..][n..] + rest;
    assert m[k + 4..][n..] == [];
  }

  ghost predicate IsRequest(m: Text) { IsMessage(m) && PathOf(FirstMessage(m).head).Ok? }

  ghost function Path(m: Text): Text
    requires IsRequest(m)
  { PathOf(FirstMessage(m).head).value }

  ghost predicate AllRequests(ms: seq<Text>) { forall i :: 0 <= i < |ms| ==> IsRequest(ms[i]) }

  ghost predicate AllMessages(ms: seq<Text>) { forall i :: 0 <= i < |ms| ==> IsMessage(ms[i]) }

  // Requests with answers enough are all forwarded, in order, and answered in order, whatever
  // unfinished head follows them and whatever else the node had to say.
  lemma {:induction false} AllForwarded(requests: seq<Text>, answers: seq<Text>, tail: Text, extra: Text)
    requires AllRequests(requests) && AllMessages(answers) && |answers| == |requests|
    requires FirstMessage(tail).NoHead?
    ensures var t := Exchange(Concat(requests) + tail, Concat(answers) + extra);
      && t.up == Concat(requests) && t.down == Concat(answers)
      && t.exact && t.end == ClientDone
      && |t.paths| == |requests| && forall i :: 0 <= i < |requests| ==> t.paths[i] == Path(requests[i])
  {
    hide FirstMessage, PathOf;
    if requests == [] {
      assert Concat(requests) + tail == tail;
    } else {
      var q, a := requests[0], answers[0];
      var qs, rest := Concat(requests[1..]) + tail, Concat(answers[1..]) + extra;
      assert Concat(requests) + tail == q + qs && Concat(answers) + extra == a + rest;
      FirstOfMany(q, qs);
      FirstOfMany(a, rest);
      AllForwarded(requests[1..], answers[1..], tail, extra);
    }
  }

  // The same of relay_http whole: all but a first request whose first byte is that of a TLS hello.
  lemma AllRelayed(requests: seq<Text>, answers: seq<Text>, tail: Text, extra: Text)
    requires AllRequests(requests) && AllMessages(answers) && |answers| == |requests|
    requires FirstMessage(tail).NoHead? && requests != []
    ensures var t := Relayed(Concat(requests) + tail, Concat(answers) + extra);
      if requests[0][0] == 0x16 then t == Traffic([], [], [], Tls, true)
      else
        && t.up == Concat(requests) && t.down == Concat(answers)
        && t.exact && t.end == ClientDone
        && |t.paths| == |requests| && forall i :: 0 <= i < |requests| ==> t.paths[i] == Path(requests[i])
  {
    hide Exchange, PathOf, Path;
    assert IsRequest(requests[0]);
    NotEmpty(requests[0]);
    var s := Concat(requests) + tail;
    assert s[0] == requests[0][0];
    AllForwarded(requests, answers, tail, extra);
  }

  lemma NotEmpty(m: Text)
    requires IsMessage(m)
    ensures m != []
  {
    HeadDecides(m);
  }

  // The requests after a handshake that is read back reach the node whole and in order.
  lemma ThroughSocks(
    hello: Text, target: Target, decodes: Text -> bool, requests: seq<Text>, answers: seq<Text>, tail: Text, extra: Text)
    requires Handshake(hello + (Concat(requests) + tail), decodes) == Got(target, Concat(requests) + tail)
    requires AllRequests(requests) && AllMessages(answers) && |answers| == |requests|
    requires FirstMessage(tail).NoHead? && requests != [] && requests[0][..1] != [0x16]
    ensures var s := Connection(true, hello + (Concat(requests) + tail), Concat(answers) + extra, decodes);
      && s.target == Some(target) && s.traffic.exact && s.traffic.end == ClientDone
      && s.traffic.up == Concat(requests) && s.traffic.down == Concat(answers)
  {
    hide Handshake, Relayed;
    AllRelayed(requests, answers, tail, extra);
    NotEmpty(requests[0]);
    assert requests[0][..1] == [requests[0][0]];
  }

  // And so through the SOCKS front: after a handshake of version 5 for any target, or of version 4
  // or 4a for any it can carry, the requests that follow, in whatever pieces.
  lemma AllThroughSocks(
    hello: Text, target: Target, decodes: Text -> bool,
    requests: seq<Text>, answers: seq<Text>, tail: Text, extra: Text)
    requires IsHello(hello, target, decodes)
    requires AllRequests(requests) && AllMessages(answers) && |answers| == |requests|
    requires FirstMessage(tail).NoHead? && requests != [] && requests[0][..1] != [0x16]
    ensures var s := Connection(true, hello + (Concat(requests) + tail), Concat(answers) + extra, decodes);
      && s.target == Some(target) && s.traffic.exact && s.traffic.end == ClientDone
      && s.traffic.up == Concat(requests) && s.traffic.down == Concat(answers)
  {
    hide Handshake, Connection, Sent5, Sent4, MarksName, FirstMessage;
    var rest := Concat(requests) + tail;
    if methods: Text, cmd: byte :| |methods| < 256 && IsTarget(target, decodes) && hello == Sent5(methods, cmd, target, decodes) {
      Socks5Target(methods, cmd, target, decodes, rest);
    } else {
      var cmd: byte, user: Text :| Carries4(user, target, decodes) && hello == Sent4(cmd, user, target, decodes);
      Socks4Target(cmd, user, target, decodes, rest);
    }
    ThroughSocks(hello, target, decodes, requests, answers, tail, extra);
  }

  // A handshake some client may send for that target.
  ghost predicate IsHello(hello: Text, t: Target, decodes: Text -> bool) {
    || (exists methods: Text, cmd: byte ::
         |methods| < 256 && IsTarget(t, decodes) && hello == Sent5(methods, cmd, t, decodes))
    || (exists cmd: byte, user: Text :: Carries4(user, t, decodes) && hello == Sent4(cmd, user, t, decodes))
  }

  // What version 4, or 4a for a name, can say.
  ghost predicate Carries4(user: Text, t: Target, decodes: Text -> bool) {
    && IsTarget(t, decodes) && !t.host.Ipv6? && 0 !in user
    && (t.host.Ipv4? ==> !MarksName(t.host.ip)) && (t.host.Name? ==> 0 !in t.host.name)
  }

  // ---- Messages as a client writes them ----

  // A head: its lines, each ended by CRLF, then a blank line.
  ghost function Head(lines: seq<Text>): Text {
    if lines == [] then CRLF else lines[0] + CRLF + Head(lines[1..])
  }

  ghost predicate IsLine(line: Text) { line != [] && 13 !in line }

  ghost predicate AllLines(lines: seq<Text>) { forall i :: 0 <= i < |lines| ==> IsLine(lines[i]) }

  lemma {:induction false} HeadEnds(lines: seq<Text>)
    requires lines != [] && AllLines(lines)
    ensures var s := Head(lines); |s| >= 4 && IndexOf(s, END_OF_HEAD) == Some(|s| - 4)
    ensures Head(lines)[0] != 13
  {
    hide IndexOf, At;
    var line, more := lines[0], Head(lines[1..]);
    assert IsLine(line) && Head(lines) == line + CRLF + more;
    if |lines| == 1 { BlankAfterLine(line); } else {
      HeadEnds(lines[1..]);
      EndAfterLine(line, more);
    }
  }

  lemma LineHasNoEnd(line: Text, more: Text)
    requires IsLine(line)
    ensures forall j :: 0 <= j < |line| ==> !At(line + CRLF + more, END_OF_HEAD, j)
  {
    var s := line + CRLF + more;
    assert forall j :: 0 <= j < |line| ==> s[j] == line[j] && line[j] in line;
    NoCrBefore(s, |line|);
  }

  lemma BlankAfterLine(line: Text)
    requires IsLine(line)
    ensures IndexOf(line + CRLF + CRLF, END_OF_HEAD) == Some(|line|)
    ensures line[0] != 13
  {
    var s := line + CRLF + CRLF;
    assert s[|line|..|line| + 4] == END_OF_HEAD && line[0] in line;
    LineHasNoEnd(line, CRLF);
    IndexIs(s, END_OF_HEAD, |line|);
  }

  lemma EndAfterLine(line: Text, more: Text)
    requires IsLine(line) && |more| >= 4 && more[0] != 13 && IndexOf(more, END_OF_HEAD) == Some(|more| - 4)
    ensures var s := line + CRLF + more; IndexOf(s, END_OF_HEAD) == Some(|s| - 4)
    ensures line[0] != 13
  {
    var s, d, k := line + CRLF + more, |line| + 2, |more| - 4;
    assert s[d..] == more && line[0] in line;
    LineHasNoEnd(line, more);
    assert At(more, END_OF_HEAD, k) && forall j :: 0 <= j < k ==> !At(more, END_OF_HEAD, j);
    forall j | |line| <= j < d + k ensures !At(s, END_OF_HEAD, j) {
      if j == |line| { assert s[j + 2] == more[0]; NotAt(s, j, 2); }
      else if j == |line| + 1 { NotAt(s, j, 0); }
      else { Suffix(s, d, j); }
    }
    Suffix(s, d, d + k);
    IndexIs(s, END_OF_HEAD, d + k);
  }

  lemma NotAt(s: Text, j: nat, m: nat)
    requires m < 4 && j + m < |s| && s[j + m] != END_OF_HEAD[m]
    ensures !At(s, END_OF_HEAD, j)
  {
    if j + 4 <= |s| { assert s[j..j + 4][m] == s[j + m]; }
  }

  lemma NoCrBefore(s: Text, n: nat)
    requires n <= |s| && forall j :: 0 <= j < n ==> s[j] != 13
    ensures forall j :: 0 <= j < n ==> !At(s, END_OF_HEAD, j)
  {
    forall j | 0 <= j < n ensures !At(s, END_OF_HEAD, j) { NotAt(s, j, 0); }
  }

  lemma Suffix(s: Text, d: nat, j: nat)
    requires d <= j <= |s|
    ensures At(s, END_OF_HEAD, j) <==> At(s[d..], END_OF_HEAD, j - d)
  {
    if j + 4 <= |s| { assert s[j..j + 4] == s[d..][j - d..j - d + 4]; }
  }

  lemma LineFirst(line: Text, more: Text)
    requires 13 !in line
    ensures IndexOf(line + CRLF + more, CRLF) == Some(|line|)
  {
    var s := line + CRLF + more;
    assert s[|line|..|line| + 2] == CRLF;
    forall j | 0 <= j < |line| ensures !At(s, CRLF, j) {
      assert s[j..j + 2][0] == line[j] && line[j] in line;
    }
    IndexIs(s, CRLF, |line|);
  }

  lemma LineOff(line: Text, more: Text)
    requires 13 !in line
    ensures Lines(line + CRLF + more) == [line] + Lines(more)
  {
    hide IndexOf;
    var s := line + CRLF + more;
    LineFirst(line, more);
    assert s[..|line|] == line && s[|line| + 2..] == more;
  }

  lemma BlankLines()
    ensures Lines(CRLF) == [[], []]
  {
    LineOff([], []);
    assert [] + CRLF + [] == CRLF;
    assert IndexOf([], CRLF).None?;
  }

  lemma {:induction false} LinesOfHead(lines: seq<Text>)
    requires AllLines(lines)
    ensures Lines(Head(lines)) == lines + [[], []]
  {
    hide Lines, IndexOf;
    if lines == [] {
      BlankLines();
    } else {
      assert IsLine(lines[0]);
      LineOff(lines[0], Head(lines[1..]));
      LinesOfHead(lines[1..]);
      assert [lines[0]] + (lines[1..] + [[], []]) == lines + [[], []];
    }
  }

  lemma {:induction false} BlankLinesSayNothing(lines: seq<Text>)
    ensures LengthIn(lines + [[], []]) == LengthIn(lines)
  {
    if lines == [] {
      BlankIsNoLength();
      var blank: seq<Text> := [[]];
      assert lines + [[], []] == blank + blank;
      assert blank[1..] == [] && (blank + blank)[1..] == blank;
      assert LengthIn(blank) == LengthIn([]);
      assert LengthIn(blank + blank) == LengthIn(blank);
    } else {
      BlankLinesSayNothing(lines[1..]);
      assert (lines + [[], []])[0] == lines[0] && (lines + [[], []])[1..] == lines[1..] + [[], []];
    }
  }

  lemma BlankIsNoLength()
    ensures !IsLengthLine([])
  {
    assert IndexOf([], [58]).None?;
  }

  // A head that announces its body's length, and the body, are one message.
  lemma WrittenMessage(lines: seq<Text>, body: Text)
    requires lines != [] && AllLines(lines) && LengthIn(lines[1..]) == Ok(|body|)
    ensures IsMessage(Head(lines) + body) && FirstMessage(Head(lines) + body).head == Head(lines)
  {
    hide IndexOf, Lines, LengthIn;
    var head := Head(lines);
    var s := head + body;
    HeadEnds(lines);
    IndexStays(head, body, END_OF_HEAD);
    LinesOfHead(lines);
    assert (lines + [[], []])[1..] == lines[1..] + [[], []];
    BlankLinesSayNothing(lines[1..]);
    assert s[..|head|] == head && s[|head|..] == body;
    assert body[..|body|] == body && body[|body|..] == [];
  }

  // And so for Content-Length as clients write it, in any case and with any blanks, after lines of
  // other names, of a body as long as it says.
  lemma OrdinaryMessage(
    first: Text, others: seq<Text>, line: Text, more: seq<Text>, body: Text,
    before: Text, name: Text, after: Text, lead: Text, trail: Text)
    requires line == HeaderLine(before, name, after, lead, |body|, trail)
    requires Blank(before) && Reads(name, "content-length") && Blank(after) && Blank(lead) && Blank(trail)
    requires AllLines([first] + (others + [line] + more)) && forall i :: 0 <= i < |others| ==> !NamesLength(others[i])
    ensures var head := Head([first] + (others + [line] + more));
      IsMessage(head + body) && FirstMessage(head + body).head == head
  {
    hide LengthIn, NamesLength, HeaderLine, IsMessage, FirstMessage, Head;
    var lines := [first] + (others + [line] + more);
    HeaderReads(before, name, after, lead, |body|, trail, more);
    HeaderAfter(others, line, |body|, more);
    assert lines[1..] == others + [line] + more;
    WrittenMessage(lines, body);
  }

  // "Content-Length: 5".
  lemma ContentLength5(more: seq<Text>)
    ensures var line := [67, 111, 110, 116, 101, 110, 116, 45, 76, 101, 110, 103, 116, 104, 58, 32, 53];
      LengthIn([line] + more) == Ok(5)
  {
    hide IsLengthLine, Strip, Partition, ParseInt;
    var name: Text := [67, 111, 110, 116, 101, 110, 116, 45, 76, 101, 110, 103, 116, 104];
    NameIs();
    assert Reads(name, "content-length");
    assert Decimal.Text(5) == "5" && Written(5) == [53];
    HeaderReads([], name, [], [32], 5, [], more);
    assert HeaderLine([], name, [], [32], 5, []) ==
      [67, 111, 110, 116, 101, 110, 116, 45, 76, 101, 110, 103, 116, 104, 58, 32, 53];
  }

  // ---- The request line and the SOCKS answers, as the client knows them ----

  // The path logged is the second word of the request line.
  lemma PathIsSecondWord(verb: Text, path: Text, rest: Text)
    requires 32 !in verb && 32 !in path
    ensures PathOf(verb + [32] + path + [32] + rest) == Ok(path)
    ensures PathOf(verb + [32] + path) == Ok(path) && PathOf(verb) == Raised(IndexError)
  {
    SpaceAt(verb, path + [32] + rest);
    SpaceAt(verb, path);
    SpaceAt(path, rest);
    var s, t := verb + [32] + path + [32] + rest, verb + [32] + path;
    assert s == verb + [32] + (path + [32] + rest);
    assert s[|verb| + 1..] == path + [32] + rest && t[|verb| + 1..] == path;
    assert (path + [32] + rest)[..|path|] == path;
  }

  lemma SpaceAt(word: Text, rest: Text)
    requires 32 !in word
    ensures IndexOf(word, [32]).None? && IndexOf(word + [32] + rest, [32]) == Some(|word|)
  {
    var s := word + [32] + rest;
    assert s[|word|..|word| + 1] == [32];
    forall j | 0 <= j < |word| ensures !At(s, [32], j) && !At(word, [32], j) {
      assert s[j..j + 1] == [word[j]] && word[j..j + 1] == [word[j]] && word[j] in word;
    }
    IndexIs(s, [32], |word|);
  }

  // Section 3 of RFC 1928: version 5, no authentication; section 6: succeeded, and an address of its
  // type; then what follows.
  ghost predicate Succeeds5(s: Text, rest: Text) {
    && |s| >= 7 && s[..2] == [5, 0] && s[2..5] == [5, 0, 0] && s[5] in {1, 3, 4}
    && var named: nat := s[6];
       var size := if s[5] == 1 then 4 else if s[5] == 4 then 16 else 1 + named;
       |s| >= 6 + size + 2 && rest == s[6 + size + 2..]
  }

  // SOCKS 4: a reply of version 0 that grants the request, of eight bytes.
  ghost predicate Succeeds4(s: Text, rest: Text) {
    |s| >= 8 && s[0] == 0 && s[1] == 90 && rest == s[8..]
  }

  // A client that sent either handshake reads that it succeeded, and then the node's bytes.
  lemma ClientSucceeds(s: Text, decodes: Text -> bool, more: Text)
    requires Handshake(s, decodes).Got?
    ensures if s[..1] == [5] then Succeeds5(Answers(true, s, decodes) + more, more)
            else s[..1] == [4] && Succeeds4(Answers(true, s, decodes) + more, more)
  {
    hide Target4, Greeting5;
    var t := Answers(true, s, decodes) + more;
    assert |Answers(true, s, decodes)| == if s[0] == 5 then 12 else 8;
    assert t[|Answers(true, s, decodes)|..] == more;
  }

  // A head that announces a negative length: the one kind the code cuts by its buffer.
  lemma NegativeLength(lines: seq<Text>, n: int, rest: Text)
    requires lines != [] && AllLines(lines) && LengthIn(lines[1..]) == Ok(n) && n < 0
    ensures FirstMessage(Head(lines) + rest) == Negative
  {
    hide IndexOf, Lines, LengthIn;
    var s := Head(lines);
    HeadEnds(lines);
    IndexStays(s, rest, END_OF_HEAD);
    assert (s + rest)[..|s|] == s;
    LinesOfHead(lines);
    assert (lines + [[], []])[1..] == lines[1..] + [[], []];
    BlankLinesSayNothing(lines[1..]);
  }

  // "G", "content-length:-1".
  lemma SuchAHead(rest: Text)
    ensures FirstMessage(Head([[71], CONTENT_LENGTH + [58, 45, 49]]) + rest) == Negative
  {
    hide IndexOf, IsLengthLine, Strip, Partition, ParseInt, Lines;
    var line := CONTENT_LENGTH + [58, 45, 49];
    NameIs();
    assert Reads(CONTENT_LENGTH, "content-length");
    NamePlain(CONTENT_LENGTH);
    assert line == [] + CONTENT_LENGTH + [] + [58] + [45, 49];
    assert Named(line, [], CONTENT_LENGTH, [], [45, 49]);
    LengthLineIff(line);
    assert line == CONTENT_LENGTH + [58] + [45, 49];
    PartitionAt(CONTENT_LENGTH, [45, 49]);
    assert Decimal.Text(1) == "1" && Written(1) == [49];
    WrittenInt(1, [], []);
    assert [] + ([45] + Written(1)) + [] == [45, 49];
    assert LengthIn([line]) == Ok(-1);
    OneLineNegative(line, rest);
  }

  lemma OneLineNegative(line: Text, rest: Text)
    requires LengthIn([line]) == Ok(-1) && IsLine(line)
    ensures FirstMessage(Head([[71], line]) + rest) == Negative
  {
    hide FirstMessage, Head, LengthIn;
    var lines := [[71], line];
    assert lines[1..] == [line];
    NegativeLength(lines, -1, rest);
  }
}
