// Buffered readers over a byte stream that arrives in arbitrary pieces
// (tools/tor-modes/fronts.py, read_head, read_exact, content_length).
module Streams {
  import opened Bytes
  import opened Search

  type Text = seq<byte>

  datatype Error = EofError | ValueError | IndexError | NotSocks | UnicodeError
  datatype Result<T> = Ok(value: T) | Raised(error: Error)

  // `incoming` is every byte the peer will still deliver before it closes; how recv cuts it into
  // pieces is left open, so what is proved of a reader holds for every fragmentation.
  class Socket {
    var incoming: Text
    var sent: Text

    constructor (incoming: Text)
      ensures this.incoming == incoming && sent == []
    {
      this.incoming := incoming;
      sent := [];
    }

    // recv(65536): a piece of any size, empty only at the end of the stream.
    method Recv() returns (data: Text)
      modifies this`incoming
      ensures data + incoming == old(incoming)
      ensures data == [] <==> old(incoming) == []
    {
      if incoming == [] { return []; }
      var k: nat :| 1 <= k <= 65536 && k <= |incoming|;
      data := incoming[..k];
      incoming := incoming[k..];
    }

    // recv(1, MSG_PEEK): the next byte, left in place.
    method Peek() returns (data: Text)
      ensures data == incoming[..Min(1, |incoming|)]
    {
      data := if incoming == [] then [] else [incoming[0]];
    }

    method SendAll(data: Text)
      modifies this`sent
      ensures sent == old(sent) + data
    {
      sent := sent + data;
    }
  }

  const CRLF: Text := [13, 10]
  const END_OF_HEAD: Text := [13, 10, 13, 10]

  // ---- The readers ----

  // Reads up to and including the first blank line; None when the stream ends before it.
  method ReadHead(sock: Socket, buf: Text) returns (head: Option<Text>, left: Text)
    modifies sock`incoming
    ensures var all := buf + old(sock.incoming);
      match IndexOf(all, END_OF_HEAD)
      case Some(k) => head == Some(all[..k + 4]) && left + sock.incoming == all[k + 4..]
      case None => head == None && left == all && sock.incoming == []
  {
    hide IndexOf;
    left := buf;
    ghost var all := buf + sock.incoming;
    while IndexOf(left, END_OF_HEAD).None?
      invariant left + sock.incoming == all
      decreases |sock.incoming|
    {
      var data := sock.Recv();
      if data == [] {
        assert left == all;
        return None, left;
      }
      assert left + (data + sock.incoming) == left + data + sock.incoming;
      left := left + data;
    }
    IndexStays(left, sock.incoming, END_OF_HEAD);
    var end := IndexOf(left, END_OF_HEAD).value + 4;
    assert all[..end] == left[..end] && all[end..] == left[end..] + sock.incoming;
    head, left := Some(left[..end]), left[end..];
  }

  // The index Python gives a slice bound: a negative one counts from the end.
  function SliceBound(n: int, length: nat): (k: nat)
    ensures k <= length
  {
    if n >= 0 then Min(n, length) else if length + n >= 0 then length + n else 0
  }

  // What read_exact returns from a buffer and what is still to come.
  ghost function ReadOut(buf: Text, incoming: Text, n: int): Result<Text> {
    if n < 0 then Ok(buf[..SliceBound(n, |buf|)])
    else if n <= |buf + incoming| then Ok((buf + incoming)[..n])
    else Raised(EofError)
  }

  // The result depends on the stream alone, however it was cut, exactly for counts that are not
  // negative.
  lemma ReadOutIgnoresPieces(n: int)
    ensures n >= 0 <==>
      forall b: Text, i: Text, b2: Text, i2: Text :: b + i == b2 + i2 ==> ReadOut(b, i, n) == ReadOut(b2, i2, n)
  {
    if n < 0 {
      var b: Text := seq(1 - n, _ => 0);
      assert b + [] == [] + b;
      assert ReadOut(b, [], n) == Ok(b[..1]) && ReadOut([], b, n) == Ok([]);
    }
  }

  // A negative count reads nothing and cuts what happens to be buffered.
  method ReadExact(sock: Socket, buf: Text, n: int) returns (r: Result<Text>, left: Text)
    modifies sock`incoming
    ensures r == ReadOut(buf, old(sock.incoming), n)
    ensures var all := buf + old(sock.incoming);
      && (0 <= n <= |all| ==> left + sock.incoming == all[n..])
      && (n > |all| ==> left == all && sock.incoming == [])
      && (n < 0 ==> left == buf[SliceBound(n, |buf|)..] && sock.incoming == old(sock.incoming))
  {
    left := buf;
    ghost var all := buf + sock.incoming;
    while |left| < n
      invariant left + sock.incoming == all
      invariant n < 0 ==> left == buf && sock.incoming == old(sock.incoming)
      decreases |sock.incoming|
    {
      var data := sock.Recv();
      if data == [] {
        assert left == all;
        return Raised(EofError), left;
      }
      assert left + (data + sock.incoming) == left + data + sock.incoming;
      left := left + data;
    }
    var k := SliceBound(n, |left|);
    if n >= 0 { assert all[..n] == left[..n] && all[n..] == left[n..] + sock.incoming; }
    r, left := Ok(left[..k]), left[k..];
  }

  // ---- content_length ----

  // bytes.split on CRLF.
  function Lines(s: Text): (lines: seq<Text>)
    ensures lines != []
    decreases |s|
  {
    match IndexOf(s, CRLF)
    case None => [s]
    case Some(k) => [s[..k]] + Lines(s[k + 2..])
  }

  predicate IsSpace(b: byte) { b == 32 || 9 <= b <= 13 }

  function StripLeft(s: Text): Text { if s != [] && IsSpace(s[0]) then StripLeft(s[1..]) else s }

  function StripRight(s: Text): Text {
    if s != [] && IsSpace(s[|s| - 1]) then StripRight(s[..|s| - 1]) else s
  }

  function Strip(s: Text): Text { StripRight(StripLeft(s)) }

  function LowerByte(b: byte): byte { if 65 <= b <= 90 then b + 32 else b }

  function Lower(s: Text): (r: Text)
    ensures |r| == |s|
  {
    seq(|s|, i requires 0 <= i < |s| => LowerByte(s[i]))
  }

  // bytes.partition on a colon.
  function Partition(line: Text): (Text, Text) {
    match IndexOf(line, [58])
    case None => (line, [])
    case Some(k) => (line[..k], line[k + 1..])
  }

  // Python's int() on stripped bytes: a sign, digits, single underscores between digits.
  function ParseInt(s: Text): Option<int> {
    if s != [] && s[0] == 45 then
      match ParseDigits(s[1..]) case None => None case Some(v) => Some(0 - v)
    else if s != [] && s[0] == 43 then
      match ParseDigits(s[1..]) case None => None case Some(v) => Some(v)
    else
      match ParseDigits(s) case None => None case Some(v) => Some(v)
  }

  predicate IsDigit(b: byte) { 48 <= b <= 57 }

  function ParseDigits(s: Text): Option<nat> {
    if s == [] || !IsDigit(s[|s| - 1]) then None
    else if |s| == 1 then Some(s[0] - 48)
    else
      var front := if s[|s| - 2] == 95 then s[..|s| - 2] else s[..|s| - 1];
      match ParseDigits(front)
      case None => None
      case Some(v) => var d: nat := s[|s| - 1]; Some(10 * v + (d - 48))
  }

  // "content-length"
  const CONTENT_LENGTH: Text := [99, 111, 110, 116, 101, 110, 116, 45, 108, 101, 110, 103, 116, 104]

  predicate IsLengthLine(line: Text) { Lower(Strip(Partition(line).0)) == CONTENT_LENGTH }

  // The first such header decides; none means no body.
  ghost function LengthIn(lines: seq<Text>): Result<int> {
    if lines == [] then Ok(0)
    else if IsLengthLine(lines[0]) then
      match ParseInt(Strip(Partition(lines[0]).1)) case None => Raised(ValueError) case Some(n) => Ok(n)
    else LengthIn(lines[1..])
  }

  ghost function LengthOf(head: Text): Result<int> { LengthIn(Lines(head)[1..]) }

  method ContentLength(head: Text) returns (r: Result<int>)
    ensures r == LengthOf(head)
  {
    hide IsLengthLine, Lines;
    var lines := Lines(head)[1..];
    for i := 0 to |lines|
      invariant LengthIn(lines) == LengthIn(lines[i..])
    {
      assert lines[i..][1..] == lines[i + 1..];
      if IsLengthLine(lines[i]) {
        var n := ParseInt(Strip(Partition(lines[i]).1));
        return if n.None? then Raised(ValueError) else Ok(n.value);
      }
    }
    r := Ok(0);
  }
}
