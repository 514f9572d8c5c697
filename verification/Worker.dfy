// The worker thread of the wallet runtime (src/wallet_runtime.cpp), one locked section or one
// wallet2 call at a time.

// URLs, wallet names and amounts, as the runtime reads them.
module Text {
  import opened Bytes
  import opened Search
  import Decimal

  predicate Contains(s: string, p: string) { IndexOf(s, p).Some? }

  function AfterScheme(url: string): string {
    match IndexOf(url, "://") case None => url case Some(k) => url[k + 3..]
  }

  function WithoutSlashes(s: string): (r: string)
    ensures r == "" || r[|r| - 1] != '/'
    ensures r <= s && forall i :: |r| <= i < |s| ==> s[i] == '/'
  {
    if s != "" && s[|s| - 1] == '/' then WithoutSlashes(s[..|s| - 1]) else s
  }

  // hostPort and proxyHostPort of the code: the same text without its scheme and last slashes.
  function HostPort(url: string): string { WithoutSlashes(AfterScheme(url)) }

  method StripUrl(url: string) returns (r: string)
    ensures r == HostPort(url)
  {
    var at := IndexOf(url, "://");
    r := if at.Some? then url[at.value + 3..] else url;
    while r != "" && r[|r| - 1] == '/'
      invariant WithoutSlashes(r) == HostPort(url)
      decreases |r|
    {
      r := r[..|r| - 1];
    }
  }

  // A proxy names a host to dial exactly when something other than slashes follows its scheme.
  lemma HostPartIff(proxy: string)
    ensures HostPort(proxy) != "" <==> exists i :: 0 <= i < |AfterScheme(proxy)| && AfterScheme(proxy)[i] != '/'
  {
    var s := AfterScheme(proxy);
    var r := WithoutSlashes(s);
    if r != "" { assert s[|r| - 1] != '/'; }
  }

  // A scheme, a mark, a host, and slashes after it: the host part is the host, whatever it holds
  // besides an end in a slash, as long as no mark comes before the scheme's own.
  lemma HostPartOf(scheme: string, host: string, slashes: string)
    requires ':' !in scheme && (host == "" || host[|host| - 1] != '/')
    requires forall i :: 0 <= i < |slashes| ==> slashes[i] == '/'
    ensures HostPort(scheme + "://" + host + slashes) == host
  {
    var url := scheme + "://" + host + slashes;
    var k := |scheme|;
    assert url[k..k + 3] == "://" && url[k + 3..] == host + slashes;
    forall j | 0 <= j < k ensures !At(url, "://", j) { assert url[j..j + 3][0] == scheme[j] && scheme[j] in scheme; }
    IndexIs(url, "://", k);
    OnlyTheSlashes(host, slashes);
  }

  // Without a mark only the slashes at the end go.
  lemma HostPartBare(host: string, slashes: string)
    requires (host == "" || host[|host| - 1] != '/') && forall i :: 0 <= i < |slashes| ==> slashes[i] == '/'
    requires forall x: string, y: string :: host + slashes != x + "://" + y
    ensures HostPort(host + slashes) == host
  {
    OnlyTheSlashes(host, slashes);
    ContainsIff(host + slashes, "://");
  }

  lemma {:induction false} OnlyTheSlashes(host: string, slashes: string)
    requires (host == "" || host[|host| - 1] != '/') && forall i :: 0 <= i < |slashes| ==> slashes[i] == '/'
    ensures WithoutSlashes(host + slashes) == host
  {
    if slashes == "" {
      assert host + slashes == host;
    } else {
      assert (host + slashes)[..|host + slashes| - 1] == host + slashes[..|slashes| - 1];
      OnlyTheSlashes(host, slashes[..|slashes| - 1]);
    }
  }

  // A non-empty proxy text with no host part.
  lemma NoHostPart()
    ensures HostPort("socks5://") == ""
  {
    var s := "socks5://";
    forall j | 0 <= j < 6 ensures !At(s, "://", j) { assert s[j..j + 3][0] == s[j] != ':'; }
    IndexIs(s, "://", 6);
    assert AfterScheme(s) == "";
  }

  predicate IsLoopback(url: string) {
    Contains(url, "127.0.0.1") || Contains(url, "localhost") || Contains(url, "[::1]")
  }

  predicate NameOk(name: string) { name != "" && '/' !in name && !Contains(name, "..") }

  const NETWORKS: set<string> := {"mainnet", "stagenet", "testnet", "regtest"}

  function NettypeOf(network: string): int {
    if network == "testnet" then 1 else if network == "stagenet" then 2 else 0
  }

  // Decimal text of a 64-bit amount; a larger number is out of strtoull's range.
  function ParseAtomic(s: string): Option<nat> {
    if s == "" || !Decimal.AllDigits(s) || Decimal.Number(s) >= U64 then None else Some(Decimal.Number(s))
  }

  lemma AtomicRoundTrip(n: nat)
    ensures ParseAtomic(Decimal.Text(n)) == if n < U64 then Some(n) else None
  {
    Decimal.NumberOfText(n);
  }

  function Zeros(k: nat): string { seq(k, _ => '0') }

  // A positive amount in 64 bits.
  ghost predicate IsAmount(s: string) {
    exists k: nat, n: nat :: 0 < n < 0x1_0000_0000_0000_0000 && s == Zeros(k) + Decimal.Text(n)
  }

  lemma AmountDecides(s: string)
    ensures IsAmount(s) <==> ParseAtomic(s).Some? && ParseAtomic(s).value > 0
  {
    if IsAmount(s) {
      var k: nat, n: nat :| 0 < n < 0x1_0000_0000_0000_0000 && s == Zeros(k) + Decimal.Text(n);
      AmountIff(s, n);
    }
    if ParseAtomic(s).Some? { AmountIff(s, ParseAtomic(s).value); }
  }

  // What is read as an amount: a number below 2^64 in decimal, with any zeros before it, and nothing else.
  lemma AmountIff(s: string, n: nat)
    ensures ParseAtomic(s) == Some(n) <==>
      n < 0x1_0000_0000_0000_0000 && exists k: nat :: s == Zeros(k) + Decimal.Text(n)
  {
    if ParseAtomic(s) == Some(n) {
      var k := ZerosFirst(s);
      assert s == Zeros(k) + Decimal.Text(n);
    }
    if exists k: nat :: s == Zeros(k) + Decimal.Text(n) {
      var k: nat :| s == Zeros(k) + Decimal.Text(n);
      ZerosAddNothing(k, Decimal.Text(n));
      Decimal.NumberOfText(n);
    }
  }

  lemma {:induction false} ZerosAddNothing(k: nat, s: string)
    requires Decimal.AllDigits(s)
    ensures Decimal.AllDigits(Zeros(k) + s) && Decimal.Number(Zeros(k) + s) == Decimal.Number(s)
    decreases k + |s|
  {
    var t := Zeros(k) + s;
    if s != "" {
      ZerosAddNothing(k, s[..|s| - 1]);
      assert t[..|t| - 1] == Zeros(k) + s[..|s| - 1];
    } else if k > 0 {
      ZerosAddNothing(k - 1, "");
      assert t[..k - 1] == Zeros(k - 1) + "";
    }
  }

  lemma {:induction false} ZerosFirst(s: string) returns (k: nat)
    requires s != "" && Decimal.AllDigits(s)
    ensures s == Zeros(k) + Decimal.Text(Decimal.Number(s))
    decreases |s|
  {
    var front, last := s[..|s| - 1], s[|s| - 1];
    var n, m, d := Decimal.Number(s), Decimal.Number(front), last as nat - '0' as nat;
    assert Decimal.IsDigit(last) && '0' + d as char == last && n == m * 10 + d;
    hide Decimal.Number, Decimal.Text;
    TextOfDigit(m, d);
    if m == 0 && front == "" {
      k := 0;
      assert s == Zeros(0) + [last];
    } else {
      var j := ZerosFirst(front);
      if m == 0 {
        k := j + 1;
        TextOfDigit(0, 0);
        OneMoreZero(j);
        assert s == front + [last];
      } else {
        k := j;
        assert s == front + [last] == Zeros(j) + (Decimal.Text(m) + [last]);
      }
    }
  }

  lemma OneMoreZero(j: nat)
    ensures Zeros(j) + ['0'] == Zeros(j + 1)
  {}

  lemma TenAndRest(m: nat, d: nat)
    requires d < 10
    ensures (m * 10 + d) / 10 == m && (m * 10 + d) % 10 == d
  {}

  lemma TextOfDigit(m: nat, d: nat)
    requires d < 10
    ensures Decimal.Text(m * 10 + d) == (if m == 0 then [] else Decimal.Text(m)) + ['0' + d as char]
  {
    TenAndRest(m, d);
  }

  // The daemons that may be trusted.
  lemma LoopbackIff(url: string)
    ensures IsLoopback(url) <==>
      || (exists x: string, y: string :: url == x + "127.0.0.1" + y)
      || (exists x: string, y: string :: url == x + "localhost" + y)
      || (exists x: string, y: string :: url == x + "[::1]" + y)
  {
    ContainsIff(url, "127.0.0.1");
    ContainsIff(url, "localhost");
    ContainsIff(url, "[::1]");
  }

  lemma ContainsIff(s: string, p: string)
    ensures Contains(s, p) <==> exists x: string, y: string :: s == x + p + y
  {
    if exists x: string, y: string :: s == x + p + y {
      var x: string, y: string :| s == x + p + y;
      ContainsAt(s, x, p, y);
    }
    if Contains(s, p) {
      var k := IndexOf(s, p).value;
      hide IndexOf;
      assert s == s[..k] + p + s[k + |p|..];
    }
  }

  lemma ContainsAt(s: string, x: string, p: string, y: string)
    requires s == x + p + y
    ensures Contains(s, p)
  {
    assert s[|x|..|x| + |p|] == p && At(s, p, |x|);
  }

  // The names a wallet may not have: none, one with a slash, one with two dots in a row.
  lemma NameOkIff(name: string)
    ensures NameOk(name) <==>
      && name != "" && (forall i :: 0 <= i < |name| ==> name[i] != '/')
      && (forall i :: 0 <= i < |name| - 1 ==> !(name[i] == '.' && name[i + 1] == '.'))
  {
    ContainsIff(name, "..");
    if !NameOk(name) && name != "" && '/' !in name {
      var x: string, y: string :| name == x + ".." + y;
      assert name[|x|] == '.' && name[|x| + 1] == '.';
    }
    forall i | 0 <= i < |name| - 1 && name[i] == '.' && name[i + 1] == '.' ensures !NameOk(name) {
      assert name == name[..i] + ".." + name[i + 2..];
    }
  }
}

module Worker {
  import opened Bytes
  import opened Text
  import Decimal
  import Address

  datatype State = NoWallet | Opening | Syncing | Ready | Closing | Failed
  datatype Route = Direct | CatchUp | WaitingForTor | Tor

  type Instant = int  // steady_clock, in nanoseconds

  const GIVE_UP: int := 90_000_000_000
  const TOR_ASK_EVERY: int := 60_000_000_000
  const NO_ROUTE: string := "nowhere"

  // ---- wallet2, as far as the runtime drives it ----

  // Draining: offline, but a request may still be in flight until a refresh has returned.
  datatype Mode = Unset | Online | Draining | Offline

  datatype Purpose = Refresh | Create | Commit
  datatype Request = Request(purpose: Purpose, url: string, proxy: string)

  // One handle ever returned by open, create or restore. The rest from `closes` on is history: how
  // often it was closed, the route and the node its session opened with, whether that route was
  // left, every request it issued, and how many it had issued when a move first took it offline.
  datatype Wallet2 = Wallet2(
    mode: Mode, url: string, proxy: string, source: string, trusted: bool,
    closes: nat, began: Route, origin: Node, moved: bool, log: seq<Request>, before: Option<nat>)

  predicate Issues(mode: Mode) { mode.Online? || mode.Draining? }

  // Not offline, or not yet for sure, and not closed.
  predicate CanIssue(w: Wallet2) { Issues(w.mode) && w.closes == 0 }

  // ---- What the node module answers ----

  // `source` is the configured URL, of which wallet2 dials host and port.
  datatype Node = Node(
    error: bool, url: string, proxy: string, proxyRequired: bool, trusted: bool, torUse: string, catchUp: string)

  predicate TorReady(n: Node) { !n.error && n.url != "" && n.proxy != "" && n.proxy != "tor" }

  function RouteOf(n: Node): Route {
    if n.catchUp != "" then CatchUp else if n.proxy == "tor" then WaitingForTor else if n.proxy != "" then Tor else Direct
  }

  function DialUrl(n: Node): string { if RouteOf(n).CatchUp? then n.catchUp else n.url }

  function DialProxy(n: Node): string {
    match RouteOf(n) case Tor => HostPort(n.proxy) case WaitingForTor => NO_ROUTE case _ => ""
  }

  // ---- Jobs and their answers ----

  datatype OpenKind = OpenWallet | CreateWallet | RestoreFromSeed | RestoreFromKeys
  datatype OpenJob = OpenJob(kind: OpenKind, name: string, network: string)

  datatype Job =
    | OpenLike(open: OpenJob) | Close | Rescan
    | CreateTransaction(amount: string, address: string)
    | CommitTransaction(handle: string) | DisposeTransaction(handle: string)
    | ChangePassword | Tick

  datatype Code =
    | BadName | UnknownNetwork | NodeError | NoDaemon | ProxyRequired | AlreadyOpen | NoSuchWallet | WalletExists
    | OpenFailed | WrongNetwork | InitFailed | Unreachable | NoWalletOpen | CloseFailed | WaitsForTor | ViewOnly
    | BadAmount | BadAddress | BuiltNothing | BuildFailed | UnknownHandle | CommitFailed | WrongPassword | PasswordKept
    | Thrown  // an exception out of wallet2 or the node module

  datatype Outcome = Okay | Err(code: Code)

  datatype Built = Nothing | Bad | Good

  // Everything one job or tick learns from outside: the node module, the file system, wallet2
  // and the clock. `wild` is whatever a failed init leaves behind.
  datatype Answers = Answers(
    node: Node, present: bool, handle: bool, statusOk: bool, nettype: int, initOk: bool, wild: (string, string),
    polls: seq<bool>, closeOk: bool, watchOnly: bool, built: Built, commitOk: bool, oldPasswordOk: bool,
    passwordSet: bool, synced: bool, height: nat, now: Instant, later: Instant)

  // ---- The worker's view of the runtime ----

  datatype Fate = Live(owner: nat) | Committed | Disposed | Dropped

  // Fields of the runtime, and history: `heightFrom` the handle m_daemonHeight was read from,
  // `seen` the heights read since the open, `openedAt` and `lastTick` when, `fates` and `commits`
  // what became of every transaction built. `locks` is the node module's.
  datatype Core = Core(
    dirSet: bool, locksReset: bool,
    wallet: Option<nat>, pending: map<string, nat>, nextTx: nat,
    state: State, network: string, route: Route,
    probed: bool, connected: bool, daemonHeight: nat, dialPeer: string,
    progressHeight: nat, progressAt: Instant, torUrl: string, torAskedAt: Instant,
    wallets: seq<Wallet2>, locks: set<string>,
    heightFrom: nat, seen: seq<(Instant, nat)>, openedAt: Instant, lastTick: Instant,
    fates: map<string, Fate>, commits: seq<string>)

  function Fresh(locks: set<string>): Core {
    Core(false, false, None, map[], 1, NoWallet, "", Direct, false, false, 0, "", 0, 0, "", 0,
      [], locks, 0, [], 0, 0, map[], [])
  }

  function TxKey(n: nat): string { "tx" + Decimal.Text(n) }

  // ---- Where the worker stands ----

  datatype OpenStage =
    | Policy | Guard | Announce | Call | CheckNetwork | Init | GoOffline | Trust | Connect
    | Install | Publish | Notify | Finish | Discard(code: Code) | GiveUp(code: Code)

  datatype CloseStage = Detach | CloseHandle | Forget | Unlock | Leave

  datatype MoveStage = ReadRoute | Resolve | Quiet | Drain | Redial | Distrust | Resume | Settle

  datatype Pc =
    | Idle(out: Outcome)
    | AtOpen(open: OpenStage, job: OpenJob, node: Node, handle: nat)
    | AtClose(close: CloseStage, handle: nat)
    | AtRescan(called: bool)
    | AtSend(send: Job)
    | TickRead | TickNote(synced: bool, height: nat)
    | TickAsk(synced: bool, network: string, bound: string) | TickFlip(synced: bool)
    | AtMove(move: MoveStage, synced: bool, abandon: bool, given: Option<Node>, from: Route, target: Node, moved: bool)

  const NO_NODE: Node := Node(true, "", "", false, false, "", "")

  function Entry(job: Job): Pc {
    match job
    case OpenLike(open) => AtOpen(Policy, open, NO_NODE, 0)
    case Close => AtClose(Detach, 0)
    case Rescan => AtRescan(false)
    case Tick => TickRead
    case _ => AtSend(job)
  }

  // resetLocksOnce, then the job.
  function Reset(c: Core): Core {
    if c.locksReset || !c.dirSet then c else c.(locksReset := true, locks := c.locks - NETWORKS)
  }

  // How many steps the worker can still take.
  function Rank(pc: Pc): nat {
    match pc
    case Idle(_) => 0
    case AtOpen(open, _, _, _) =>
      (match open
       case Policy => 16 case Guard => 15 case Announce => 14 case Call => 13 case CheckNetwork => 12 case Init => 11
       case GoOffline => 10 case Trust => 9 case Connect => 8 case Install => 7 case Publish => 6 case Notify => 5
       case Finish => 4 case Discard(_) => 2 case GiveUp(_) => 1)
    case AtClose(close, _) =>
      (match close case Detach => 5 case CloseHandle => 4 case Forget => 3 case Unlock => 2 case Leave => 1)
    case AtRescan(called) => if called then 1 else 2
    case AtSend(_) => 1
    case TickRead => 14
    case TickNote(_, _) => 13
    case TickAsk(_, _, _) => 12
    case TickFlip(_) => 1
    case AtMove(move, _, _, _, _, _, _) =>
      (match move
       case ReadRoute => 11 case Resolve => 10 case Quiet => 9 case Drain => 8
       case Redial => 7 case Distrust => 6 case Resume => 5 case Settle => 4)
  }

  datatype Step = Step(c: Core, pc: Pc)

  function SetWallet(c: Core, h: nat, w: Wallet2): (d: Core)
    requires h < |c.wallets|
    ensures d.wallet == c.wallet && |d.wallets| == |c.wallets|
  { c.(wallets := c.wallets[h := w]) }

  // The handles a step will use exist, and where it holds the handle lock a wallet is open.
  predicate Fits(c: Core, pc: Pc) {
    && (c.wallet.Some? ==> c.wallet.value < |c.wallets|)
    && (pc.AtOpen? && pc.open !in {Policy, Guard, Announce, Call} && !pc.open.GiveUp? ==> pc.handle < |c.wallets|)
    && (pc.AtClose? && pc.close.CloseHandle? ==> pc.handle < |c.wallets|)
    && (pc.AtMove? && pc.move in {Drain, Distrust, Resume} ==> c.wallet.Some?)
  }

  function InitTo(w: Wallet2, source: string, proxy: string): Wallet2 {
    w.(mode := if w.mode.Unset? then Online else w.mode, url := HostPort(source), proxy := proxy, source := source)
  }

  function Fail(c: Core, code: Code): Step { Step(c.(state := NoWallet), Idle(Err(code))) }

  // ---- doOpenLike ----

  function PolicyError(job: OpenJob, n: Node): Option<Code> {
    if !NameOk(job.name) then Some(BadName)
    else if job.network !in NETWORKS then Some(UnknownNetwork)
    else if n.error then Some(NodeError)
    else if n.url == "" then Some(NoDaemon)
    else if n.proxyRequired && n.proxy == "" then Some(ProxyRequired)
    else None
  }

  predicate AnyPoll(polls: seq<bool>) { exists i :: 0 <= i < |polls| && i < 20 && polls[i] }

  // A new handle, before its daemon is configured.
  function NewWallet(n: Node): Wallet2 { Wallet2(Unset, "", "", "", false, 0, RouteOf(n), n, false, [], None) }

  function OpenStep(c: Core, pc: Pc, a: Answers): (s: Step)
    requires pc.AtOpen? && Fits(c, pc)
    ensures Fits(s.c, s.pc) && Rank(s.pc) < Rank(pc)
  {
    if pc.open in {Policy, Guard, Announce, Call} || pc.open.GiveUp? then BeforeHandle(c, pc, a)
    else if pc.open in {Install, Publish, Notify, Finish} then AfterSetup(c, pc, a)
    else WithHandle(c, pc, a)
  }

  // Until wallet2 returns a handle, and after one that failed is closed.
  function BeforeHandle(c: Core, pc: Pc, a: Answers): (s: Step)
    requires pc.AtOpen? && (pc.open in {Policy, Guard, Announce, Call} || pc.open.GiveUp?) && Fits(c, pc)
    ensures Fits(s.c, s.pc) && Rank(s.pc) < Rank(pc)
  {
    var job, n := pc.job, pc.node;
    match pc.open
    case Policy =>
      var e := PolicyError(job, a.node);
      if e.Some? then Step(c, Idle(Err(e.value))) else Step(c, AtOpen(Guard, job, a.node, 0))
    case Guard =>
      if c.wallet.Some? then Step(c, Idle(Err(AlreadyOpen))) else Step(c, pc.(open := Announce))
    case Announce => Step(c.(state := Opening), pc.(open := Call))
    case Call =>
      if job.kind.OpenWallet? && !a.present then Fail(c, NoSuchWallet)
      else if !job.kind.OpenWallet? && a.present then Fail(c, WalletExists)
      else if !a.handle then Fail(c, OpenFailed)
      else
        Step(c.(wallets := c.wallets + [NewWallet(n)]),
          pc.(open := if a.statusOk then CheckNetwork else Discard(OpenFailed), handle := |c.wallets|))
    case GiveUp(code) => Fail(c, code)
  }

  // The new handle is set up, or closed again.
  function WithHandle(c: Core, pc: Pc, a: Answers): (s: Step)
    requires pc.AtOpen? && (pc.open in {CheckNetwork, Init, GoOffline, Trust, Connect} || pc.open.Discard?) && Fits(c, pc)
    ensures Fits(s.c, s.pc) && Rank(s.pc) < Rank(pc)
  {
    var job, n, h := pc.job, pc.node, pc.handle;
    var route := RouteOf(n);
    match pc.open
    case CheckNetwork => Step(c, pc.(open := if a.nettype != NettypeOf(job.network) then Discard(WrongNetwork) else Init))
    case Init =>
      if a.initOk then Step(SetWallet(c, h, InitTo(c.wallets[h], DialUrl(n), DialProxy(n))), pc.(open := GoOffline))
      else Step(c, pc.(open := Discard(InitFailed)))
    case GoOffline =>
      Step(if route.WaitingForTor? then SetWallet(c, h, c.wallets[h].(mode := Draining)) else c, pc.(open := Trust))
    case Trust =>
      var trusted := route.Direct? && n.trusted && IsLoopback(n.url);
      Step(SetWallet(c, h, c.wallets[h].(trusted := trusted)), pc.(open := Connect))
    case Connect =>
      if route.Tor? && n.torUse == "" && !AnyPoll(a.polls) && n.proxyRequired then Step(c, pc.(open := Discard(Unreachable)))
      else Step(c, pc.(open := Install))
    case Discard(code) =>
      Step(SetWallet(c, h, c.wallets[h].(closes := c.wallets[h].closes + 1)), pc.(open := GiveUp(code)))
  }

  // The bookkeeping of a wallet just opened.
  function Opened(c: Core, job: OpenJob, n: Node, now: Instant): Core {
    var route := RouteOf(n);
    c.(network := job.network, route := route, probed := false, connected := false, daemonHeight := 0,
      dialPeer := if route.Tor? then DialProxy(n) else if route.WaitingForTor? then "" else HostPort(DialUrl(n)),
      progressHeight := 0, progressAt := now, torAskedAt := now, torUrl := if route.Tor? then n.url else "",
      seen := [], openedAt := now, lastTick := now)
  }

  // The handle becomes the open wallet.
  function AfterSetup(c: Core, pc: Pc, a: Answers): (s: Step)
    requires pc.AtOpen? && pc.open in {Install, Publish, Notify, Finish} && Fits(c, pc)
    ensures Fits(s.c, s.pc) && Rank(s.pc) < Rank(pc)
  {
    var job, n, h := pc.job, pc.node, pc.handle;
    match pc.open
    case Install => Step(c.(wallet := Some(h)), pc.(open := Publish))
    case Publish =>
      Step(Opened(c, job, n, a.now),
        pc.(open := Notify))
    case Notify => Step(c.(locks := c.locks + {job.network}), pc.(open := Finish))
    case Finish => Step(c.(state := Syncing), Idle(Okay))
  }

  // ---- doClose ----

  ghost function DroppedFates(fates: map<string, Fate>, pending: map<string, nat>): map<string, Fate> {
    fates + map k | k in pending :: Dropped
  }

  ghost function CloseStep(c: Core, pc: Pc, a: Answers): (s: Step)
    requires pc.AtClose? && Fits(c, pc)
    ensures Fits(s.c, s.pc) && Rank(s.pc) < Rank(pc)
  {
    match pc.close
    case Detach =>
      if c.wallet.None? then Step(c, Idle(Err(NoWalletOpen)))
      else
        Step(c.(state := Closing, wallet := None, pending := map[], fates := DroppedFates(c.fates, c.pending)),
          AtClose(CloseHandle, c.wallet.value))
    case CloseHandle =>
      var w := c.wallets[pc.handle];
      Step(SetWallet(c, pc.handle, w.(closes := w.closes + 1)), pc.(close := Forget))
    case Forget =>
      Step(c.(route := Direct, probed := false, connected := false, daemonHeight := 0, dialPeer := ""), pc.(close := Unlock))
    case Unlock => Step(c.(locks := c.locks - {c.network}), pc.(close := Leave))
    case Leave => Step(c.(state := NoWallet), Idle(if a.closeOk then Okay else Err(CloseFailed)))
  }

  // ---- doRescan ----

  function RescanStep(c: Core, pc: Pc): (s: Step)
    requires pc.AtRescan? && Fits(c, pc)
    ensures Fits(s.c, s.pc) && Rank(s.pc) < Rank(pc)
  {
    if pc.called then Step(c.(state := Syncing), Idle(Okay))
    else if c.wallet.None? then Step(c, Idle(Err(NoWalletOpen)))
    else Step(c, AtRescan(true))
  }

  // ---- doCreateTransaction, doCommit, doDispose, doChangePassword: one locked section each ----

  function Log(c: Core, h: nat, purpose: Purpose): Core
    requires h < |c.wallets|
  {
    var w := c.wallets[h];
    SetWallet(c, h, w.(log := w.log + [Request(purpose, w.url, w.proxy)]))
  }

  // A request of the open wallet goes out only where wallet2 issues any.
  function Sent(c: Core, h: nat, purpose: Purpose): (d: Core)
    requires h < |c.wallets|
    ensures d == c.(wallets := d.wallets) && |d.wallets| == |c.wallets|
  {
    if CanIssue(c.wallets[h]) then Log(c, h, purpose) else c
  }

  predicate SendsWait(c: Core) { c.route.CatchUp? || c.route.WaitingForTor? }

  ghost function CreateStep(c: Core, amount: string, address: string, a: Answers): (s: Step)
    requires c.wallet.Some? ==> c.wallet.value < |c.wallets|
    ensures s.pc.Idle? && Fits(s.c, s.pc)
  {
    hide Address.IsAddress, ParseAtomic, Sent, TxKey;
    if c.wallet.None? then Step(c, Idle(Err(NoWalletOpen)))
    else if SendsWait(c) then Step(c, Idle(Err(WaitsForTor)))
    else if a.watchOnly then Step(c, Idle(Err(ViewOnly)))
    else if ParseAtomic(amount).None? || ParseAtomic(amount).value == 0 then Step(c, Idle(Err(BadAmount)))
    else if !Address.IsAddress(address, c.network) then Step(c, Idle(Err(BadAddress)))
    else
      var h := c.wallet.value;
      var d := Sent(c, h, Create);
      match a.built
      case Nothing => Step(d, Idle(Err(BuiltNothing)))
      case Bad => Step(d, Idle(Err(BuildFailed)))
      case Good =>
        var k := TxKey(c.nextTx);
        Step(d.(pending := d.pending[k := h], nextTx := d.nextTx + 1, fates := d.fates[k := Live(h)]), Idle(Okay))
  }

  function CommitStep(c: Core, k: string, a: Answers): (s: Step)
    requires c.wallet.Some? ==> c.wallet.value < |c.wallets|
    ensures s.pc.Idle? && Fits(s.c, s.pc)
  {
    if c.wallet.None? then Step(c, Idle(Err(NoWalletOpen)))
    else if SendsWait(c) then Step(c, Idle(Err(WaitsForTor)))
    else if k !in c.pending then Step(c, Idle(Err(UnknownHandle)))
    else
      var d := Sent(c, c.wallet.value, Commit);
      if !a.commitOk then Step(d, Idle(Err(CommitFailed)))
      else Step(d.(pending := d.pending - {k}, fates := d.fates[k := Committed], commits := d.commits + [k]), Idle(Okay))
  }

  function DisposeStep(c: Core, k: string): (s: Step)
    ensures s.pc.Idle? && s.c.wallet == c.wallet && s.c.wallets == c.wallets
  {
    if k !in c.pending then Step(c, Idle(Err(UnknownHandle)))
    else Step(c.(pending := c.pending - {k}, fates := c.fates[k := Disposed]), Idle(Okay))
  }

  function PasswordStep(c: Core, a: Answers): Step {
    if c.wallet.None? then Step(c, Idle(Err(NoWalletOpen)))
    else if !a.oldPasswordOk then Step(c, Idle(Err(WrongPassword)))
    else if !a.passwordSet then Step(c, Idle(Err(PasswordKept)))
    else Step(c, Idle(Okay))
  }

  ghost function SendStep(c: Core, job: Job, a: Answers): (s: Step)
    requires c.wallet.Some? ==> c.wallet.value < |c.wallets|
    ensures s.pc.Idle? && Fits(s.c, s.pc)
  {
    hide CreateStep, CommitStep, DisposeStep;
    match job
    case CreateTransaction(amount, address) => CreateStep(c, amount, address, a)
    case CommitTransaction(k) => CommitStep(c, k, a)
    case DisposeTransaction(k) => DisposeStep(c, k)
    case _ => PasswordStep(c, a)
  }

  // ---- tick ----

  // The progress fields after one more height, and the asking time if it is time to ask.
  function Ticked(c: Core, height: nat, now: Instant): Core {
    var rose := height > c.progressHeight;
    c.(progressHeight := if rose then height else c.progressHeight, progressAt := if rose then now else c.progressAt,
      torAskedAt := if c.route.Tor? && now - c.torAskedAt >= TOR_ASK_EVERY then now else c.torAskedAt,
      seen := c.seen + [(now, height)], lastTick := now)
  }

  function TickStep(c: Core, pc: Pc, a: Answers): (s: Step)
    requires (pc.TickRead? || pc.TickNote? || pc.TickAsk? || pc.TickFlip?) && Fits(c, pc)
    ensures Fits(s.c, s.pc) && Rank(s.pc) < Rank(pc)
  {
    match pc
    case TickRead =>
      if c.wallet.None? then Step(c, Idle(Okay)) else Step(c, TickNote(a.synced, a.height))
    case TickNote(synced, height) =>
      var d := Ticked(c, height, a.now);
      var stuck := c.route.CatchUp? && !synced && a.now - d.progressAt > GIVE_UP;
      var askTor := c.route.Tor? && a.now - c.torAskedAt >= TOR_ASK_EVERY;
      Step(d,
        if (c.route.CatchUp? && (synced || stuck)) || c.route.WaitingForTor? then
          AtMove(ReadRoute, synced, stuck && !synced, None, Direct, NO_NODE, false)
        else if askTor then TickAsk(synced, c.network, c.torUrl)
        else TickFlip(synced))
    case TickAsk(synced, _, bound) =>
      Step(c,
        if TorReady(a.node) && a.node.url != bound then AtMove(ReadRoute, synced, false, Some(a.node), Direct, NO_NODE, false)
        else TickFlip(synced))
    case TickFlip(synced) =>
      Step(if c.state.Syncing? && synced then c.(state := Ready)
           else if c.state.Ready? && !synced then c.(state := Syncing) else c,
        Idle(Okay))
  }

  // ---- moveToTor ----

  // Offline, with no request in flight.
  function Hushed(w: Wallet2): Wallet2 {
    w.(mode := Offline, before := if w.before.Some? then w.before else Some(|w.log|))
  }

  lemma RedialFitsOn(c: Core, pc: Pc, w: Wallet2, done: bool)
    requires pc.AtMove? && pc.move.Redial? && c.wallet.Some? && c.wallet.value < |c.wallets|
    ensures var qc := if done then pc.(move := Distrust) else pc.(move := Settle, moved := false);
      Fits(SetWallet(c, c.wallet.value, w), qc) && Rank(qc) < Rank(pc)
  {}

  function RedialStep(c: Core, pc: Pc, a: Answers): (s: Step)
    requires pc.AtMove? && pc.move.Redial? && Fits(c, pc)
    ensures Fits(s.c, s.pc) && Rank(s.pc) < Rank(pc)
  {
    assert c.wallet.Some? ==> c.wallet.value < |c.wallets|;
    hide HostPort, InitTo, TorReady, SetWallet;
    var n := pc.target;
    if c.wallet.None? then Step(c, TickFlip(pc.synced))
    else if !TorReady(n) then Step(c, pc.(move := Settle, moved := false))
    else
      var w := c.wallets[c.wallet.value];
      var v := if a.initOk then InitTo(w, n.url, HostPort(n.proxy)) else w.(url := a.wild.0, proxy := a.wild.1);
      RedialFitsOn(c, pc, v, a.initOk);
      Step(SetWallet(c, c.wallet.value, v), if a.initOk then pc.(move := Distrust) else pc.(move := Settle, moved := false))
  }

  // The bookkeeping after a move.
  function SettleStep(c: Core, pc: Pc, a: Answers): (s: Step)
    requires pc.AtMove? && pc.move.Settle? && Fits(c, pc)
    ensures Fits(s.c, s.pc) && Rank(s.pc) < Rank(pc)
  {
    var n := pc.target;
    var d := c.(route := if pc.moved then Tor else WaitingForTor, progressAt := a.later, torAskedAt := a.later,
      torUrl := if pc.moved then n.url else "", connected := false,
      dialPeer := if pc.moved then HostPort(n.proxy) else "");
    Step(if c.wallet.Some?
         then SetWallet(d, c.wallet.value, d.wallets[c.wallet.value].(moved := true)) else d,
      TickFlip(pc.synced))
  }

  function MoveStep(c: Core, pc: Pc, a: Answers): (s: Step)
    requires pc.AtMove? && Fits(c, pc)
    ensures Fits(s.c, s.pc) && Rank(s.pc) < Rank(pc)
  {
    match pc.move
    case ReadRoute => Step(c, pc.(move := Resolve, from := c.route))
    case Resolve =>
      var target := if pc.given.Some? then pc.given.value else a.node;
      if !TorReady(target) && pc.from.WaitingForTor? then Step(c, TickFlip(pc.synced))
      else Step(c, pc.(move := Quiet, target := target))
    case Quiet =>
      if c.wallet.None? then Step(c, TickFlip(pc.synced))
      else
        var w := c.wallets[c.wallet.value];
        Step(SetWallet(c, c.wallet.value, w.(mode := if w.mode.Offline? then Offline else Draining)), pc.(move := Drain))
    case Drain =>
      Step(SetWallet(c, c.wallet.value, Hushed(c.wallets[c.wallet.value])), pc.(move := Redial))
    case Redial => RedialStep(c, pc, a)
    case Distrust =>
      Step(SetWallet(c, c.wallet.value, c.wallets[c.wallet.value].(trusted := false)), pc.(move := Resume))
    case Resume =>
      Step(SetWallet(c, c.wallet.value, c.wallets[c.wallet.value].(mode := Online)), pc.(move := Settle, moved := true))
    case Settle => SettleStep(c, pc, a)
  }

  // ---- One step of the worker ----

  ghost function WorkerStep(c: Core, pc: Pc, a: Answers): (s: Step)
    requires Fits(c, pc)
    ensures Fits(s.c, s.pc) && (Rank(s.pc) < Rank(pc) || pc.Idle?)
  {
    hide OpenStep, CloseStep, RescanStep, SendStep, MoveStep, TickStep;
    if pc.Idle? then Step(c, pc)
    else if pc.AtOpen? then OpenStep(c, pc, a)
    else if pc.AtClose? then CloseStep(c, pc, a)
    else if pc.AtRescan? then RescanStep(c, pc)
    else if pc.AtSend? then SendStep(c, pc.send, a)
    else if pc.AtMove? then MoveStep(c, pc, a)
    else TickStep(c, pc, a)
  }

  // A job alone: its steps one after another, with nothing in between.
  ghost function RunFrom(c: Core, pc: Pc, a: Answers): (s: Step)
    requires Fits(c, pc)
    ensures s.pc.Idle? && Fits(s.c, s.pc)
    decreases Rank(pc)
  {
    hide WorkerStep;
    if pc.Idle? then Step(c, pc) else
      var s := WorkerStep(c, pc, a);
      RunFrom(s.c, s.pc, a)
  }

  ghost function RunJob(c: Core, job: Job, a: Answers): Step
    requires c.wallet.Some? ==> c.wallet.value < |c.wallets|
  {
    RunFrom(Reset(c), Entry(job), a)
  }
}
