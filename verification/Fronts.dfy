// The SOCKS handshake and the HTTP relay of the test fronts (tools/tor-modes/fronts.py,
// socks_target and relay_http).
module Socks {
  import opened Bytes
  import opened Search
  import opened Streams

  datatype Host = Ipv4(ip: Text) | Name(name: Text) | Ipv6(ip6: Text)
  datatype Target = Target(host: Host, port: nat)

  // ---- The handshake as a function of the whole stream ----

  datatype Parsed<T> = Got(value: T, rest: Text) | Bad(error: Error)

  function Take(s: Text, n: nat): Parsed<Text> { if n <= |s| then Got(s[..n], s[n..]) else Bad(EofError) }

  function UpToNul(s: Text): Parsed<Text> {
    match IndexOf(s, [0])
    case None => Bad(EofError)
    case Some(k) => Got(s[..k], s[k + 1..])
  }

  function Port(b: Text): nat
    requires |b| == 2
  { var hi: nat, lo: nat := b[0], b[1]; 256 * hi + lo }

  // Version 4 or 4a after its first byte; a target 0.0.0.x with x not 0 carries a name.
  function Target4(s: Text, decodes: Text -> bool): Parsed<Target> {
    match Take(s, 7)
    case Bad(e) => Bad(e)
    case Got(h, s1) =>
      match UpToNul(s1)
      case Bad(e) => Bad(e)
      case Got(_, s2) =>
        var ip := h[3..];
        if ip[..3] == [0, 0, 0] && ip[3] != 0 then
          match UpToNul(s2)
          case Bad(e) => Bad(e)
          case Got(name, s3) => if decodes(name) then Got(Target(Name(name), Port(h[1..3])), s3) else Bad(UnicodeError)
        else Got(Target(Ipv4(ip), Port(h[1..3])), s2)
  }

  function Counted(s: Text): Parsed<Text> {
    match Take(s, 1)
    case Bad(e) => Bad(e)
    case Got(n, rest) => Take(rest, n[0])
  }

  function Host5(atyp: byte, s: Text, decodes: Text -> bool): Parsed<Host> {
    if atyp == 1 then
      match Take(s, 4) case Bad(e) => Bad(e) case Got(ip, rest) => Got(Ipv4(ip), rest)
    else if atyp == 3 then
      match Counted(s)
      case Bad(e) => Bad(e)
      case Got(name, rest) => if decodes(name) then Got(Name(name), rest) else Bad(UnicodeError)
    else
      match Take(s, 16) case Bad(e) => Bad(e) case Got(ip, rest) => Got(Ipv6(ip), rest)
  }

  function Request5(s: Text, decodes: Text -> bool): Parsed<Target> {
    match Take(s, 4)
    case Bad(e) => Bad(e)
    case Got(h, s1) =>
      match Host5(h[3], s1, decodes)
      case Bad(e) => Bad(e)
      case Got(host, s2) =>
        match Take(s2, 2)
        case Bad(e) => Bad(e)
        case Got(port, rest) => Got(Target(host, Port(port)), rest)
  }

  function Greeting5(s: Text, decodes: Text -> bool): Parsed<Target> {
    match Counted(s)
    case Bad(e) => Bad(e)
    case Got(_, s2) => Request5(s2, decodes)
  }

  function Handshake(s: Text, decodes: Text -> bool): Parsed<Target> {
    match Take(s, 1)
    case Bad(e) => Bad(e)
    case Got(ver, s1) =>
      if ver == [4] then Target4(s1, decodes)
      else if ver == [5] then Greeting5(s1, decodes)
      else Bad(NotSocks)
  }

  const REPLY4: Text := [0, 0x5a, 0, 0, 0, 0, 0, 0]
  const CHOICE5: Text := [5, 0]
  const REPLY5: Text := [5, 0, 0, 1, 0, 0, 0, 0, 0, 0]

  // Version 5, and as far as the methods offered: the one point at which a handshake that then fails
  // has already been answered.
  predicate Greeted(s: Text) {
    s != [] && s[0] == 5 && Counted(s[1..]).Got?
  }

  // What a finished handshake answers.
  function Replies(s: Text): Text { if s != [] && s[0] == 4 then REPLY4 else CHOICE5 + REPLY5 }

  // ---- The code: closures over one buffer become methods that hand it on ----

  method TakeBytes(c: Socket, buf: Text, n: nat) returns (r: Result<Text>, left: Text)
    modifies c`incoming
    ensures match Take(buf + old(c.incoming), n)
      case Got(out, rest) => r == Ok(out) && left + c.incoming == rest
      case Bad(e) => r == Raised(e)
  {
    r, left := ReadExact(c, buf, n);
  }

  method UntilNul(c: Socket, buf: Text) returns (r: Result<Text>, left: Text)
    modifies c`incoming
    ensures match UpToNul(buf + old(c.incoming))
      case Got(out, rest) => r == Ok(out) && left + c.incoming == rest
      case Bad(e) => r == Raised(e)
  {
    hide IndexOf;
    left := buf;
    ghost var all := buf + c.incoming;
    while IndexOf(left, [0]).None?
      invariant left + c.incoming == all
      decreases |c.incoming|
    {
      var data := c.Recv();
      if data == [] {
        assert left == all;
        return Raised(EofError), left;
      }
      assert left + (data + c.incoming) == left + data + c.incoming;
      left := left + data;
    }
    IndexStays(left, c.incoming, [0]);
    var k := IndexOf(left, [0]).value;
    assert all[..k] == left[..k] && all[k + 1..] == left[k + 1..] + c.incoming;
    r, left := Ok(left[..k]), left[k + 1..];
  }

  // The result is a function of the stream, not of how it was cut into pieces, and every byte
  // after the handshake is handed back or still unread.
  method SocksTarget(c: Socket, decodes: Text -> bool) returns (r: Result<Target>, left: Text)
    modifies c
    ensures match Handshake(old(c.incoming), decodes)
      case Got(t, rest) => r == Ok(t) && left + c.incoming == rest && c.sent == old(c.sent) + Replies(old(c.incoming))
      case Bad(e) => r == Raised(e) && c.sent == old(c.sent) + if Greeted(old(c.incoming)) then CHOICE5 else []
  {
    hide UpToNul, Port, Target4, Greeting5, Counted;
    ghost var all := c.incoming;
    assert c.sent + [] == c.sent;
    left := [];
    assert left + c.incoming == all;
    var ver;
    ver, left := TakeBytes(c, left, 1);
    if ver.Raised? { return Raised(ver.error), left; }
    if ver.value == [4] {
      r, left := FromVersion4(c, left, decodes);
      if r.Ok? { c.SendAll(REPLY4); }
      return;
    }
    if ver.value == [5] {
      r, left := Version5(c, left, decodes);
      return;
    }
    r := Raised(NotSocks);
  }

  // Version 5 after its first byte: the methods offered, the choice, then the request.
  method Version5(c: Socket, buf: Text, decodes: Text -> bool) returns (r: Result<Target>, left: Text)
    modifies c
    ensures match Greeting5(buf + old(c.incoming), decodes)
      case Got(t, rest) => r == Ok(t) && left + c.incoming == rest && c.sent == old(c.sent) + (CHOICE5 + REPLY5)
      case Bad(e) =>
        r == Raised(e) && c.sent == old(c.sent) + if Counted(buf + old(c.incoming)).Got? then CHOICE5 else []
  {
    hide Request5;
    assert c.sent + [] == c.sent;
    var n, methods;
    n, left := TakeBytes(c, buf, 1);
    if n.Raised? { return Raised(n.error), left; }
    methods, left := TakeBytes(c, left, n.value[0]);
    if methods.Raised? { return Raised(methods.error), left; }
    c.SendAll(CHOICE5);
    r, left := FromVersion5(c, left, decodes);
    if r.Ok? { c.SendAll(REPLY5); }
  }

  method FromVersion4(c: Socket, buf: Text, decodes: Text -> bool) returns (r: Result<Target>, left: Text)
    modifies c`incoming
    ensures match Target4(buf + old(c.incoming), decodes)
      case Got(t, rest) => r == Ok(t) && left + c.incoming == rest
      case Bad(e) => r == Raised(e)
  {
    hide UpToNul, Port;
    var head, user, name;
    head, left := TakeBytes(c, buf, 7);
    if head.Raised? { return Raised(head.error), left; }
    user, left := UntilNul(c, left);
    if user.Raised? { return Raised(user.error), left; }
    var port, ip := Port(head.value[1..3]), head.value[3..];
    if ip[..3] == [0, 0, 0] && ip[3] != 0 {
      name, left := UntilNul(c, left);
      if name.Raised? { return Raised(name.error), left; }
      if !decodes(name.value) { return Raised(UnicodeError), left; }
      return Ok(Target(Name(name.value), port)), left;
    }
    r := Ok(Target(Ipv4(ip), port));
  }

  method FromVersion5(c: Socket, buf: Text, decodes: Text -> bool) returns (r: Result<Target>, left: Text)
    modifies c`incoming
    ensures match Request5(buf + old(c.incoming), decodes)
      case Got(t, rest) => r == Ok(t) && left + c.incoming == rest
      case Bad(e) => r == Raised(e)
  {
    hide Port;
    var head, size, addr, port, host: Host;
    head, left := TakeBytes(c, buf, 4);
    if head.Raised? { return Raised(head.error), left; }
    var atyp := head.value[3];
    if atyp == 1 {
      addr, left := TakeBytes(c, left, 4);
      if addr.Raised? { return Raised(addr.error), left; }
      host := Ipv4(addr.value);
    } else if atyp == 3 {
      size, left := TakeBytes(c, left, 1);
      if size.Raised? { return Raised(size.error), left; }
      addr, left := TakeBytes(c, left, size.value[0]);
      if addr.Raised? { return Raised(addr.error), left; }
      if !decodes(addr.value) { return Raised(UnicodeError), left; }
      host := Name(addr.value);
    } else {
      addr, left := TakeBytes(c, left, 16);
      if addr.Raised? { return Raised(addr.error), left; }
      host := Ipv6(addr.value);
    }
    port, left := TakeBytes(c, left, 2);
    if port.Raised? { return Raised(port.error), left; }
    r := Ok(Target(host, Port(port.value)));
  }

  // ---- What a client sends: RFC 1928, sections 3 to 5, and SOCKS 4 and 4a ----

  ghost predicate IsTarget(t: Target, decodes: Text -> bool) {
    && t.port < 65536
    && match t.host
       case Ipv4(ip) => |ip| == 4
       case Name(name) => |name| < 256 && decodes(name)
       case Ipv6(ip) => |ip| == 16
  }

  ghost function PortBytes(port: nat): Text
    requires port < 65536
  { [port / 256, port % 256] }

  ghost function Address5(h: Host): Text
    requires h.Name? ==> |h.name| < 256
  {
    match h
    case Ipv4(ip) => [1] + ip
    case Name(name) => [3, |name|] + name
    case Ipv6(ip) => [4] + ip
  }

  ghost function Sent5(methods: Text, cmd: byte, t: Target, decodes: Text -> bool): Text
    requires |methods| < 256 && IsTarget(t, decodes)
  {
    [5, |methods|] + methods + ([5, cmd, 0] + Address5(t.host) + PortBytes(t.port))
  }

  // SOCKS 4 carries an address that is not 0.0.0.x with x not 0; 4a marks a name with one that is.
  ghost function Sent4(cmd: byte, user: Text, t: Target, decodes: Text -> bool): Text
    requires IsTarget(t, decodes) && !t.host.Ipv6?
  {
    match t.host
    case Ipv4(ip) => [4, cmd] + PortBytes(t.port) + ip + user + [0]
    case Name(name) => [4, cmd] + PortBytes(t.port) + [0, 0, 0, 1] + user + [0] + name + [0]
    case Ipv6(ip) => []
  }

  lemma TakeFront(a: Text, b: Text)
    ensures Take(a + b, |a|) == Got(a, b)
  {
    assert (a + b)[..|a|] == a && (a + b)[|a|..] == b;
  }

  lemma NulAfter(a: Text, b: Text)
    requires 0 !in a
    ensures UpToNul(a + [0] + b) == Got(a, b)
  {
    var s := a + [0] + b;
    assert s[|a|..|a| + 1] == [0];
    forall j | 0 <= j < |a| ensures !At(s, [0], j) { assert s[j..j + 1] == [a[j]] && a[j] in a; }
    IndexIs(s, [0], |a|);
    assert s[..|a|] == a && s[|a| + 1..] == b;
  }

  lemma PortRoundTrip(port: nat)
    requires port < 65536
    ensures Port(PortBytes(port)) == port
  {
  }

  // A version 5 handshake yields the target it encodes and leaves what follows it.
  lemma Socks5Target(methods: Text, cmd: byte, t: Target, decodes: Text -> bool, rest: Text)
    requires |methods| < 256 && IsTarget(t, decodes)
    ensures Handshake(Sent5(methods, cmd, t, decodes) + rest, decodes) == Got(t, rest)
  {
    hide Take;
    var tail := PortBytes(t.port) + rest;
    var request := [5, cmd, 0] + Address5(t.host) + tail;
    var s := Sent5(methods, cmd, t, decodes) + rest;
    assert s == [5] + ([|methods|] + (methods + request));
    TakeFront([5], [|methods|] + (methods + request));
    TakeFront([|methods|], methods + request);
    TakeFront(methods, request);
    Request5Target(cmd, t, decodes, rest);
  }

  lemma Request5Target(cmd: byte, t: Target, decodes: Text -> bool, rest: Text)
    requires IsTarget(t, decodes)
    ensures Request5([5, cmd, 0] + Address5(t.host) + (PortBytes(t.port) + rest), decodes) == Got(t, rest)
  {
    hide Take, Port;
    var tail := PortBytes(t.port) + rest;
    var s := [5, cmd, 0] + Address5(t.host) + tail;
    match t.host {
      case Ipv4(ip) =>
        assert s == [5, cmd, 0, 1] + (ip + tail);
        TakeFront([5, cmd, 0, 1], ip + tail);
        TakeFront(ip, tail);
      case Name(name) =>
        assert s == [5, cmd, 0, 3] + ([|name|] + (name + tail));
        TakeFront([5, cmd, 0, 3], [|name|] + (name + tail));
        TakeFront([|name|], name + tail);
        TakeFront(name, tail);
      case Ipv6(ip) =>
        assert s == [5, cmd, 0, 4] + (ip + tail);
        TakeFront([5, cmd, 0, 4], ip + tail);
        TakeFront(ip, tail);
    }
    TakeFront(PortBytes(t.port), rest);
    PortRoundTrip(t.port);
  }

  // Every address type but 1 and 3 is taken for the one of sixteen bytes.
  lemma OtherTypes(methods: Text, cmd: byte, atyp: byte, ip6: Text, port: nat, decodes: Text -> bool, rest: Text)
    requires |methods| < 256 && atyp != 1 && atyp != 3 && |ip6| == 16 && port < 65536
    ensures Handshake([5, |methods|] + methods + ([5, cmd, 0, atyp] + ip6 + PortBytes(port)) + rest, decodes)
      == Got(Target(Ipv6(ip6), port), rest)
  {
    hide Take, Port;
    var tail := PortBytes(port) + rest;
    var request := [5, cmd, 0, atyp] + (ip6 + tail);
    assert [5, |methods|] + methods + ([5, cmd, 0, atyp] + ip6 + PortBytes(port)) + rest ==
      [5] + ([|methods|] + (methods + request));
    TakeFront([5], [|methods|] + (methods + request));
    TakeFront([|methods|], methods + request);
    TakeFront(methods, request);
    TakeFront([5, cmd, 0, atyp], ip6 + tail);
    TakeFront(ip6, tail);
    TakeFront(PortBytes(port), rest);
    PortRoundTrip(port);
  }

  // ---- A handshake cut short ----

  // What more arrives is left over, turns the end of the stream into something else, or does not matter.
  ghost predicate Extends<T>(p: Parsed<T>, q: Parsed<T>, more: Text) {
    match p
    case Got(v, rest) => q == Got(v, rest + more)
    case Bad(e) => e == EofError || q == Bad(e)
  }

  lemma TakeExtends(s: Text, more: Text, n: nat)
    ensures Extends(Take(s, n), Take(s + more, n), more)
  {
    if n <= |s| { assert (s + more)[..n] == s[..n] && (s + more)[n..] == s[n..] + more; }
  }

  lemma NulExtends(s: Text, more: Text)
    ensures Extends(UpToNul(s), UpToNul(s + more), more)
  {
    if IndexOf(s, [0]).Some? {
      IndexStays(s, more, [0]);
      var k := IndexOf(s, [0]).value;
      assert (s + more)[..k] == s[..k] && (s + more)[k + 1..] == s[k + 1..] + more;
    }
  }

  lemma CountedExtends(s: Text, more: Text)
    ensures Extends(Counted(s), Counted(s + more), more)
  {
    assert Take(s, 1).Got? ==> |Take(s, 1).value| == 1;
    hide Take;
    TakeExtends(s, more, 1);
    if Take(s, 1).Got? { TakeExtends(Take(s, 1).rest, more, Take(s, 1).value[0]); }
  }

  lemma Target4Extends(s: Text, more: Text, decodes: Text -> bool)
    ensures Extends(Target4(s, decodes), Target4(s + more, decodes), more)
  {
    hide Take, UpToNul, Port;
    TakeExtends(s, more, 7);
    var h := Take(s, 7);
    if h.Got? {
      NulExtends(h.rest, more);
      var user := UpToNul(h.rest);
      if user.Got? { NulExtends(user.rest, more); }
    }
  }

  lemma Host5Extends(atyp: byte, s: Text, more: Text, decodes: Text -> bool)
    ensures Extends(Host5(atyp, s, decodes), Host5(atyp, s + more, decodes), more)
  {
    hide Take, Counted;
    TakeExtends(s, more, 4);
    TakeExtends(s, more, 16);
    CountedExtends(s, more);
  }

  lemma Request5Extends(s: Text, more: Text, decodes: Text -> bool)
    ensures Extends(Request5(s, decodes), Request5(s + more, decodes), more)
  {
    assert Take(s, 4).Got? ==> |Take(s, 4).value| == 4;
    hide Take, Host5, Port;
    TakeExtends(s, more, 4);
    var h := Take(s, 4);
    if h.Got? {
      Host5Extends(h.value[3], h.rest, more, decodes);
      var host := Host5(h.value[3], h.rest, decodes);
      if host.Got? { TakeExtends(host.rest, more, 2); }
    }
  }

  lemma Greeting5Extends(s: Text, more: Text, decodes: Text -> bool)
    ensures Extends(Greeting5(s, decodes), Greeting5(s + more, decodes), more)
  {
    hide Counted, Request5;
    CountedExtends(s, more);
    if Counted(s).Got? { Request5Extends(Counted(s).rest, more, decodes); }
  }

  lemma HandshakeExtends(s: Text, more: Text, decodes: Text -> bool)
    ensures Extends(Handshake(s, decodes), Handshake(s + more, decodes), more)
  {
    hide Take, Target4, Greeting5;
    TakeExtends(s, more, 1);
    if Take(s, 1).Got? {
      Target4Extends(Take(s, 1).rest, more, decodes);
      Greeting5Extends(Take(s, 1).rest, more, decodes);
    }
  }

  // A handshake of which the end is missing raises the end of the stream, wherever it is cut.
  lemma CutShort(s: Text, missing: Text, decodes: Text -> bool)
    requires Handshake(s + missing, decodes).Got? && |Handshake(s + missing, decodes).rest| < |missing|
    ensures Handshake(s, decodes) == Bad(EofError)
  {
    hide Handshake;
    HandshakeExtends(s, missing, decodes);
  }

  ghost predicate MarksName(ip: Text)
    requires |ip| == 4
  { ip[..3] == [0, 0, 0] && ip[3] != 0 }

  const NAMED: Text := [0, 0, 0, 1]

  ghost function Request4(cmd: byte, port: nat, ip: Text): (r: Text)
    requires port < 65536 && |ip| == 4
    ensures |r| == 7 && r[1..3] == PortBytes(port) && r[3..] == ip
  {
    [cmd] + PortBytes(port) + ip
  }

  lemma Sent4Plain(cmd: byte, user: Text, t: Target, decodes: Text -> bool, rest: Text)
    requires IsTarget(t, decodes) && t.host.Ipv4?
    ensures Sent4(cmd, user, t, decodes) + rest == [4] + (Request4(cmd, t.port, t.host.ip) + (user + [0] + rest))
  {
    hide PortBytes;
  }

  lemma Sent4Named(cmd: byte, user: Text, t: Target, decodes: Text -> bool, rest: Text)
    requires IsTarget(t, decodes) && t.host.Name?
    ensures Sent4(cmd, user, t, decodes) + rest
      == [4] + (Request4(cmd, t.port, NAMED) + (user + [0] + (t.host.name + [0] + rest)))
  {
    hide PortBytes;
    var p := [4, cmd] + PortBytes(t.port) + [0, 0, 0, 1];
    assert p == [4] + Request4(cmd, t.port, NAMED);
    var name := t.host.name;
    assert Sent4(cmd, user, t, decodes) == p + user + [0] + name + [0];
    hide Request4, Sent4;
    Regroup4(p, user + [0], name + [0], rest);
    assert p + user + [0] + name + [0] == p + (user + [0]) + (name + [0]);
    assert p + (user + [0] + (name + [0] + rest)) == [4] + (Request4(cmd, t.port, NAMED) + (user + [0] + (name + [0] + rest)));
  }

  lemma Regroup4(a: Text, b: Text, c: Text, d: Text)
    ensures a + b + c + d == a + (b + (c + d))
  {
  }

  lemma Target4Plain(cmd: byte, port: nat, ip: Text, user: Text, decodes: Text -> bool, rest: Text)
    requires port < 65536 && |ip| == 4 && !MarksName(ip) && 0 !in user
    ensures Target4(Request4(cmd, port, ip) + (user + [0] + rest), decodes) == Got(Target(Ipv4(ip), port), rest)
  {
    hide Take, Port, UpToNul, Request4, PortBytes;
    TakeFront(Request4(cmd, port, ip), user + [0] + rest);
    NulAfter(user, rest);
    PortRoundTrip(port);
  }

  lemma Target4Named(cmd: byte, port: nat, user: Text, name: Text, decodes: Text -> bool, rest: Text)
    requires port < 65536 && 0 !in user && 0 !in name && decodes(name)
    ensures Target4(Request4(cmd, port, NAMED) + (user + [0] + (name + [0] + rest)), decodes)
      == Got(Target(Name(name), port), rest)
  {
    hide Take, Port, UpToNul, Request4, PortBytes;
    TakeFront(Request4(cmd, port, NAMED), user + [0] + (name + [0] + rest));
    NulAfter(user, name + [0] + rest);
    NulAfter(name, rest);
    PortRoundTrip(port);
  }

  // A version 4 or 4a handshake likewise. An address of the form 0.0.0.x, x not 0, is the mark
  // of a name, so it cannot itself be a version 4 target.
  lemma Socks4Target(cmd: byte, user: Text, t: Target, decodes: Text -> bool, rest: Text)
    requires IsTarget(t, decodes) && !t.host.Ipv6? && 0 !in user
    requires t.host.Ipv4? ==> !MarksName(t.host.ip)
    requires t.host.Name? ==> 0 !in t.host.name
    ensures Handshake(Sent4(cmd, user, t, decodes) + rest, decodes) == Got(t, rest)
  {
    hide Take, Target4, Sent4;
    match t.host
    case Ipv4(ip) =>
      Sent4Plain(cmd, user, t, decodes, rest);
      Target4Plain(cmd, t.port, ip, user, decodes, rest);
      TakeFront([4], Request4(cmd, t.port, ip) + (user + [0] + rest));
    case Name(name) =>
      Sent4Named(cmd, user, t, decodes, rest);
      Target4Named(cmd, t.port, user, name, decodes, rest);
      TakeFront([4], Request4(cmd, t.port, NAMED) + (user + [0] + (name + [0] + rest)));
  }
}

module Relay {
  import opened Bytes
  import opened Search
  import opened Streams

  datatype End = NoData | Tls | ClientDone | UpstreamDone | Failed(error: Error)

  // What one connection forwards, in bytes: to the node, to the client, and the paths it logs.
  datatype Traffic = Traffic(up: Text, down: Text, paths: seq<Text>, end: End, exact: bool)

  // head.split(b" ", 2)[1].
  function PathOf(head: Text): Result<Text> {
    match IndexOf(head, [32])
    case None => Raised(IndexError)
    case Some(k) =>
      match IndexOf(head[k + 1..], [32])
      case None => Ok(head[k + 1..])
      case Some(m) => Ok(head[k + 1..][..m])
  }

  datatype Message =
    | Whole(bytes: Text, head: Text, rest: Text)  // a head and the body it announces
    | NoHead                                      // the stream ends first
    | NoBody(error: Error)                        // a bad length, or a body cut short
    | Negative                                    // a negative length: cut where the buffer is

  // The first message of a stream.
  ghost function FirstMessage(s: Text): Message {
    match IndexOf(s, END_OF_HEAD)
    case None => NoHead
    case Some(k) =>
      WithHead(s[..k + 4], s[k + 4..])
  }

  ghost function WithHead(head: Text, after: Text): Message {
    match LengthOf(head)
    case Raised(e) => NoBody(e)
    case Ok(n) =>
      if n < 0 then Negative
      else if n > |after| then NoBody(EofError)
      else Whole(head + after[..n], head, after[n..])
  }

  // The whole exchange as a function of the two streams; not `exact` once a length is negative.
  ghost function Exchange(c: Text, u: Text): Traffic
    decreases |c|
  {
    match FirstMessage(c)
    case NoHead => Traffic([], [], [], ClientDone, true)
    case NoBody(e) => Traffic([], [], [], Failed(e), true)
    case Negative => Traffic([], [], [], ClientDone, false)
    case Whole(request, head, cRest) =>
      match PathOf(head)
      case Raised(e) => Traffic([], [], [], Failed(e), true)
      case Ok(path) =>
        match FirstMessage(u)
        case NoHead => Traffic(request, [], [path], UpstreamDone, true)
        case NoBody(e) => Traffic(request, [], [path], Failed(e), true)
        case Negative => Traffic(request, [], [path], UpstreamDone, false)
        case Whole(response, _, uRest) =>
          var t := Exchange(cRest, uRest);
          Traffic(request + t.up, response + t.down, [path] + t.paths, t.end, t.exact)
  }

  ghost function Relayed(c: Text, u: Text): Traffic {
    if c == [] then Traffic([], [], [], NoData, true)
    else if c[0] == 0x16 then Traffic([], [], [], Tls, true)
    else Exchange(c, u)
  }

  // ---- The code ----

  datatype Reading = Message(head: Text, body: Text) | Ended | Broken(error: Error)

  // A head and the body it announces. No byte is lost: what is not returned is still to come.
  method ReadMessage(sock: Socket, buf: Text) returns (r: Reading, left: Text)
    modifies sock`incoming
    ensures var all := buf + old(sock.incoming);
      && (r.Message? ==> r.head + r.body + (left + sock.incoming) == all && |r.head| >= 4)
      && (r.Ended? ==> left + sock.incoming == all)
      && match FirstMessage(all)
         case Whole(bytes, head, rest) =>
           r.Message? && r.head == head && r.head + r.body == bytes && left + sock.incoming == rest
         case NoHead => r == Ended
         case NoBody(e) => r == Broken(e)
         case Negative => r.Message?
  {
    hide IndexOf, LengthOf, FirstMessage;
    ghost var all := buf + sock.incoming;
    HeadDecides(all);
    var h, n, body;
    h, left := ReadHead(sock, buf);
    if h.None? { return Ended, left; }
    ghost var after := left + sock.incoming;
    Rejoin(all, h.value, after);
    n := ContentLength(h.value);
    if n.Raised? { return Broken(n.error), left; }
    ghost var buffered, unread := left, sock.incoming;
    body, left := ReadExact(sock, left, n.value);
    if body.Raised? { return Broken(body.error), left; }
    if n.value < 0 {
      Rejoin(buffered, body.value, left);
      Regroup(body.value, left, unread);
    } else {
      Rejoin(after, body.value, left + sock.incoming);
    }
    Regroup(h.value, body.value, left + sock.incoming);
    r := Message(h.value, body.value);
  }

  lemma HeadDecides(s: Text)
    ensures match IndexOf(s, END_OF_HEAD)
      case None => FirstMessage(s) == NoHead
      case Some(k) => k + 4 <= |s| && FirstMessage(s) == WithHead(s[..k + 4], s[k + 4..])
  {
  }

  lemma Rejoin(s: Text, front: Text, back: Text)
    ensures |front| <= |s| && front == s[..|front|] && back == s[|front|..] ==> front + back == s
  {
  }

  lemma Regroup(a: Text, b: Text, c: Text)
    ensures a + b + c == a + (b + c)
  {
  }

  // The traffic of a run that first forwarded these bytes.
  ghost function After(up: Text, down: Text, paths: seq<Text>, t: Traffic): Traffic {
    Traffic(up + t.up, down + t.down, paths + t.paths, t.end, t.exact)
  }

  lemma AfterAfter(up: Text, down: Text, paths: seq<Text>, up2: Text, down2: Text, paths2: seq<Text>, t: Traffic)
    ensures After(up, down, paths, After(up2, down2, paths2, t)) == After(up + up2, down + down2, paths + paths2, t)
  {
    Regroup(up, up2, t.up);
    Regroup(down, down2, t.down);
    assert paths + (paths2 + t.paths) == paths + paths2 + t.paths;
  }

  predicate HasFailed(stop: Option<End>) { stop.Some? && stop.value.Failed? }

  // One turn of the loop: a request forwarded and its answer returned, or the end.
  method Turn(client: Socket, up: Socket, cbuf: Text, ubuf: Text)
    returns (stop: Option<End>, paths: seq<Text>, cLeft: Text, uLeft: Text, ghost request: Text, ghost response: Text)
    requires client != up
    modifies client, up
    ensures up.sent == old(up.sent) + request && client.sent == old(client.sent) + response
    ensures var c, u := cbuf + old(client.incoming), ubuf + old(up.incoming);
      && (HasFailed(stop) ==> request <= c && response == [])
      && (HasFailed(stop) || request + (cLeft + client.incoming) == c)
      && (HasFailed(stop) || response + (uLeft + up.incoming) == u)
      && (stop.None? ==> |cLeft + client.incoming| < |c|)
      && (Exchange(c, u).exact ==>
        if stop.Some? then Exchange(c, u) == Traffic(request, response, paths, stop.value, true)
        else
          var next := Exchange(cLeft + client.incoming, uLeft + up.incoming);
          Exchange(c, u) == After(request, response, paths, next))
  {
    hide FirstMessage;
    paths, cLeft, uLeft, request, response := [], cbuf, ubuf, [], [];
    var asked, answered;
    asked, cLeft := ReadMessage(client, cLeft);
    if asked.Ended? { return Some(ClientDone), paths, cLeft, uLeft, [], []; }
    if asked.Broken? { return Some(Failed(asked.error)), paths, cLeft, uLeft, [], []; }
    var path := PathOf(asked.head);
    if path.Raised? { return Some(Failed(path.error)), paths, cLeft, uLeft, [], []; }
    paths := [path.value];
    up.SendAll(asked.head + asked.body);
    request := asked.head + asked.body;
    answered, uLeft := ReadMessage(up, uLeft);
    if answered.Ended? { return Some(UpstreamDone), paths, cLeft, uLeft, request, []; }
    if answered.Broken? { return Some(Failed(answered.error)), paths, cLeft, uLeft, request, []; }
    client.SendAll(answered.head + answered.body);
    response := answered.head + answered.body;
    stop := None;
  }

  // Forwards complete requests and their answers in order. On every input nothing is lost,
  // repeated or reordered: what was forwarded, then what is buffered or unread, is the stream.
  method RelayHttp(client: Socket, up: Socket, cbuf: Text)
    returns (end: End, paths: seq<Text>, cLeft: Text, uLeft: Text)
    requires client != up
    modifies client, up
    ensures old(up.sent) <= up.sent && old(client.sent) <= client.sent
    ensures var t := Relayed(cbuf + old(client.incoming), old(up.incoming));
      && (t.exact ==> up.sent == old(up.sent) + t.up && client.sent == old(client.sent) + t.down)
      && (t.exact ==> paths == t.paths && end == t.end)
    ensures !end.Failed? ==>
      && up.sent[|old(up.sent)|..] + (cLeft + client.incoming) == cbuf + old(client.incoming)
      && client.sent[|old(client.sent)|..] + (uLeft + up.incoming) == old(up.incoming)
    ensures end.Failed? ==>
      && up.sent[|old(up.sent)|..] <= cbuf + old(client.incoming)
      && client.sent[|old(client.sent)|..] <= old(up.incoming)
  {
    ghost var c, u := cbuf + client.incoming, up.incoming;
    paths, cLeft, uLeft := [], cbuf, [];
    ghost var up0, down0 := up.sent, client.sent;
    assert up.sent[|up0|..] == [] && client.sent[|down0|..] == [] && uLeft + up.incoming == u;
    assert up0 + [] == up0 && down0 + [] == down0;
    var peek := cbuf[..Min(1, |cbuf|)];
    if peek == [] { peek := client.Peek(); }
    if peek == [] { return NoData, paths, cLeft, uLeft; }
    assert c[0] == peek[0];
    if peek[0] == 0x16 { return Tls, paths, cLeft, uLeft; }
    end, paths, cLeft, uLeft := Forward(client, up, cLeft);
  }

  // The loop of relay_http.
  method Forward(client: Socket, up: Socket, cbuf: Text)
    returns (end: End, paths: seq<Text>, cLeft: Text, uLeft: Text)
    requires client != up
    modifies client, up
    ensures old(up.sent) <= up.sent && old(client.sent) <= client.sent
    ensures var t := Exchange(cbuf + old(client.incoming), old(up.incoming));
      && (t.exact ==> up.sent == old(up.sent) + t.up && client.sent == old(client.sent) + t.down)
      && (t.exact ==> paths == t.paths && end == t.end)
    ensures !end.Failed? ==>
      && up.sent[|old(up.sent)|..] + (cLeft + client.incoming) == cbuf + old(client.incoming)
      && client.sent[|old(client.sent)|..] + (uLeft + up.incoming) == old(up.incoming)
    ensures end.Failed? ==>
      && up.sent[|old(up.sent)|..] <= cbuf + old(client.incoming)
      && client.sent[|old(client.sent)|..] <= old(up.incoming)
  {
    hide Exchange;
    ghost var c, u := cbuf + client.incoming, up.incoming;
    paths, cLeft, uLeft := [], cbuf, [];
    ghost var up0, down0 := up.sent, client.sent;
    assert uLeft + up.incoming == u && up0 + [] == up0 && down0 + [] == down0;
    ghost var sentUp: Text, sentDown: Text := [], [];
    assert sentUp + (cLeft + client.incoming) == c && sentDown + (uLeft + up.incoming) == u;
    while true
      invariant up.sent == up0 + sentUp && client.sent == down0 + sentDown
      invariant sentUp + (cLeft + client.incoming) == c && sentDown + (uLeft + up.incoming) == u
      invariant Exchange(c, u).exact ==>
        Exchange(c, u) == After(sentUp, sentDown, paths, Exchange(cLeft + client.incoming, uLeft + up.incoming))
      decreases |cLeft + client.incoming|
    {
      var stop, seen;
      ghost var request, response;
      stop, seen, cLeft, uLeft, request, response := Turn(client, up, cLeft, uLeft);
      AfterAfter(sentUp, sentDown, paths, request, response, seen, Exchange(cLeft + client.incoming, uLeft + up.incoming));
      Regroup(up0, sentUp, request);
      Regroup(down0, sentDown, response);
      Regroup(sentUp, request, cLeft + client.incoming);
      Regroup(sentDown, response, uLeft + up.incoming);
      sentUp, sentDown, paths := sentUp + request, sentDown + response, paths + seen;
      if stop.Some? {
        assert up.sent[|up0|..] == sentUp && client.sent[|down0|..] == sentDown;
        return stop.value, paths, cLeft, uLeft;
      }
    }
  }
}

// One connection of a front, from its first byte (the function one of serve).
module Front {
  import opened Bytes
  import opened Search
  import opened Streams
  import opened Socks
  import opened Relay

  // What a connection through the SOCKS front comes to: the target, and the traffic after it.
  datatype Served = Served(target: Option<Target>, traffic: Traffic)

  ghost function Connection(socks: bool, c: Text, u: Text, decodes: Text -> bool): Served {
    if !socks then Served(None, Relayed(c, u))
    else
      match Handshake(c, decodes)
      case Bad(e) => Served(None, Traffic([], [], [], Failed(e), true))
      case Got(t, rest) => Served(Some(t), Relayed(rest, u))
  }

  // What is left for the relay: all of it, or what follows the handshake.
  ghost function ToRelay(socks: bool, c: Text, decodes: Text -> bool): Text {
    if !socks then c else match Handshake(c, decodes) case Bad(_) => [] case Got(_, rest) => rest
  }

  // What goes to the client before anything of the node's: the answers to its handshake.
  ghost function Answers(socks: bool, c: Text, decodes: Text -> bool): Text {
    if !socks then []
    else match Handshake(c, decodes)
      case Bad(_) => if Greeted(c) then CHOICE5 else []
      case Got(_, _) => Replies(c)
  }

  // The handshake's answers go before the node's bytes; what the handshake left over is relayed
  // first. Either way every byte is accounted for, in order: what was forwarded, then what is
  // buffered or unread, is the stream, and after a failure what was forwarded is a prefix of it. A
  // failed handshake forwards nothing.
  method One(client: Socket, up: Socket, socks: bool, decodes: Text -> bool)
    returns (target: Option<Target>, end: End, paths: seq<Text>, cLeft: Text, uLeft: Text)
    requires client != up
    modifies client, up
    ensures var s := Connection(socks, old(client.incoming), old(up.incoming), decodes);
      && target == s.target
      && (s.traffic.exact ==>
        && up.sent == old(up.sent) + s.traffic.up && paths == s.traffic.paths && end == s.traffic.end
        && client.sent == old(client.sent) + Answers(socks, old(client.incoming), decodes) + s.traffic.down)
    ensures var c, u := ToRelay(socks, old(client.incoming), decodes), old(up.incoming);
      var heard := old(client.sent) + Answers(socks, old(client.incoming), decodes);
      && old(up.sent) <= up.sent && heard <= client.sent
      && var forwarded, returned := up.sent[|old(up.sent)|..], client.sent[|heard|..];
        if end.Failed? then forwarded <= c && returned <= u
        else forwarded + (cLeft + client.incoming) == c && returned + (uLeft + up.incoming) == u
  {
    hide Handshake, Relayed, Replies, Greeted;
    target, cLeft := None, [];
    ghost var sent := client.sent;
    assert sent + [] == sent && [] + client.incoming == client.incoming && up.sent + [] == up.sent;
    if socks {
      var asked;
      asked, cLeft := SocksTarget(client, decodes);
      if asked.Raised? { return None, Failed(asked.error), [], cLeft, []; }
      target := Some(asked.value);
    }
    end, paths, cLeft, uLeft := RelayHttp(client, up, cLeft);
  }
}
