// How each long job ends, said at once: what an open comes to, and what a tick decides.
module Endings {
  import opened Bytes
  import opened Text
  import opened Worker
  import Address

  // ---- doOpenLike ----

  function Aimed(pc: Pc, a: Answers): Node
    requires pc.AtOpen?
  {
    if pc.open.Policy? then a.node else pc.node
  }

  // Where wallet2 then dials.
  function PeerOf(n: Node): string {
    match RouteOf(n) case Tor => HostPort(n.proxy) case WaitingForTor => "" case _ => HostPort(DialUrl(n))
  }

  // The session's fields once the open has published it.
  predicate OnRoute(c: Core, job: OpenJob, n: Node, now: Instant) {
    && c.route == RouteOf(n) && c.network == job.network && c.dialPeer == PeerOf(n)
    && c.torAskedAt == now && c.torUrl == if RouteOf(n).Tor? then n.url else ""
  }

  // The handle at each section of its setting up.
  function HandleAt(n: Node, left: nat): Wallet2 {
    var dialled := InitTo(NewWallet(n), DialUrl(n), DialProxy(n));
    var hushed := if RouteOf(n).WaitingForTor? then dialled.(mode := Draining) else dialled;
    if left >= 11 then NewWallet(n)
    else if left >= 10 then dialled
    else if left >= 9 then hushed
    else hushed.(trusted := RouteOf(n).Direct? && n.trusted && IsLoopback(n.url))
  }

  predicate InHandAs(c: Core, pc: Pc, n: Node)
    requires pc.AtOpen?
  {
    4 <= Rank(pc) <= 12 ==> pc.handle < |c.wallets| && c.wallets[pc.handle] == HandleAt(n, Rank(pc))
  }

  predicate Unreached(n: Node, a: Answers) {
    RouteOf(n).Tor? && n.torUse == "" && n.proxyRequired && !AnyPoll(a.polls)
  }

  // The first thing to go wrong from a section on, in the order the code looks.
  function Refusal(c: Core, pc: Pc, a: Answers): Option<Code>
    requires pc.AtOpen?
  {
    var job, n, left := pc.job, Aimed(pc, a), Rank(pc);
    if pc.open.Discard? || pc.open.GiveUp? then Some(pc.open.code)
    else if left >= 16 && PolicyError(job, n).Some? then PolicyError(job, n)
    else if left >= 15 && c.wallet.Some? then Some(AlreadyOpen)
    else if left >= 13 && job.kind.OpenWallet? && !a.present then Some(NoSuchWallet)
    else if left >= 13 && !job.kind.OpenWallet? && a.present then Some(WalletExists)
    else if left >= 13 && (!a.handle || !a.statusOk) then Some(OpenFailed)
    else if left >= 12 && a.nettype != NettypeOf(job.network) then Some(WrongNetwork)
    else if left >= 11 && !a.initOk then Some(InitFailed)
    else if left >= 8 && Unreached(n, a) then Some(Unreachable)
    else None
  }

  // One section of an open leads on to the same end.
  ghost predicate OpenLeadsOn(c: Core, pc: Pc, t: Step, a: Answers)
    requires pc.AtOpen?
  {
    if t.pc.AtOpen? then
      && Refusal(t.c, t.pc, a) == Refusal(c, pc, a) && t.pc.job == pc.job && Aimed(t.pc, a) == Aimed(pc, a)
      && (Refusal(c, pc, a).Some? ==> t.c.wallet == c.wallet && t.c.locks == c.locks && t.c.network == c.network)
      && (Rank(t.pc) < 6 && Refusal(c, pc, a).None? ==>
           OnRoute(t.c, pc.job, Aimed(pc, a), a.now) && t.c.wallet == Some(t.pc.handle))
      && (Rank(t.pc) < 5 && Refusal(c, pc, a).None? ==> pc.job.network in t.c.locks)
      && (Rank(t.pc) == 6 && Refusal(c, pc, a).None? ==> t.c.wallet == Some(t.pc.handle))
    else
      && t.pc == Idle(if Refusal(c, pc, a).Some? then Err(Refusal(c, pc, a).value) else Okay)
      && (Refusal(c, pc, a).Some? ==> t.c == c.(state := t.c.state))
      && (Refusal(c, pc, a).None? ==>
           Rank(pc) == 4 && t.c == c.(state := Syncing) && OnRoute(t.c, pc.job, Aimed(pc, a), a.now))
  }

  // What holds on the way when nothing goes wrong.
  ghost predicate OnItsWay(c: Core, pc: Pc, a: Answers)
    requires pc.AtOpen?
  {
    Refusal(c, pc, a).None? ==>
      && (Rank(pc) <= 6 ==> c.wallet == Some(pc.handle))
      && (Rank(pc) <= 5 ==> OnRoute(c, pc.job, Aimed(pc, a), a.now))
      && (Rank(pc) <= 4 ==> pc.job.network in c.locks)
  }

  lemma BeforeLeadsOn(c: Core, pc: Pc, a: Answers)
    requires pc.AtOpen? && (pc.open in {Policy, Guard, Announce} || pc.open.GiveUp?) && Fits(c, pc)
    ensures OpenLeadsOn(c, pc, BeforeHandle(c, pc, a), a)
  {
    hide PolicyError, NettypeOf, RouteOf, PeerOf, AnyPoll, Unreached;
  }

  lemma CallLeadsOn(c: Core, pc: Pc, a: Answers)
    requires pc.AtOpen? && pc.open.Call? && Fits(c, pc)
    ensures OpenLeadsOn(c, pc, BeforeHandle(c, pc, a), a)
  {
    hide PolicyError, NettypeOf, RouteOf, PeerOf, AnyPoll, Unreached;
    if pc.job.kind.OpenWallet? && !a.present {
      assert BeforeHandle(c, pc, a) == Fail(c, NoSuchWallet);
    } else if !pc.job.kind.OpenWallet? && a.present {
      assert BeforeHandle(c, pc, a) == Fail(c, WalletExists);
    } else if !a.handle {
      assert BeforeHandle(c, pc, a) == Fail(c, OpenFailed);
    } else {
      var next := if a.statusOk then CheckNetwork else Discard(OpenFailed);
      assert BeforeHandle(c, pc, a).pc == pc.(open := next, handle := |c.wallets|);
    }
  }

  lemma WithLeadsOn(c: Core, pc: Pc, a: Answers)
    requires pc.AtOpen? && (pc.open in {CheckNetwork, Init, GoOffline, Trust, Connect} || pc.open.Discard?) && Fits(c, pc)
    ensures OpenLeadsOn(c, pc, WithHandle(c, pc, a), a)
  {
    hide PolicyError, NettypeOf, RouteOf, PeerOf, AnyPoll, IsLoopback, DialUrl, DialProxy, InitTo;
  }

  lemma AfterLeadsOn(c: Core, pc: Pc, a: Answers)
    requires pc.AtOpen? && pc.open in {Install, Publish, Notify, Finish} && Fits(c, pc) && OnItsWay(c, pc, a)
    ensures OpenLeadsOn(c, pc, AfterSetup(c, pc, a), a)
  {
    hide PolicyError, NettypeOf, RouteOf, AnyPoll, IsLoopback, DialUrl, HostPort;
  }

  // The handle is set up on, section by section.
  lemma CallSetsUp(c: Core, pc: Pc, a: Answers)
    requires pc.AtOpen? && pc.open.Call? && Fits(c, pc)
    ensures var t := BeforeHandle(c, pc, a); t.pc.AtOpen? && !t.pc.open.Discard? ==> InHandAs(t.c, t.pc, pc.node)
  {
    hide RouteOf, DialUrl, DialProxy, IsLoopback, InitTo;
    var t := BeforeHandle(c, pc, a);
    if t.pc.AtOpen? && !t.pc.open.Discard? {
      assert t == Step(c.(wallets := c.wallets + [NewWallet(pc.node)]), pc.(open := CheckNetwork, handle := |c.wallets|));
    }
  }

  lemma WithSetsUp(c: Core, pc: Pc, a: Answers)
    requires pc.AtOpen? && pc.open in {CheckNetwork, Init, GoOffline, Trust, Connect} && Fits(c, pc)
    requires InHandAs(c, pc, pc.node)
    ensures var t := WithHandle(c, pc, a); t.pc.AtOpen? && !t.pc.open.Discard? ==> InHandAs(t.c, t.pc, pc.node)
  {
    hide RouteOf, DialUrl, DialProxy, IsLoopback, InitTo, AnyPoll, NettypeOf;
  }

  lemma AfterSetsUp(c: Core, pc: Pc, a: Answers)
    requires pc.AtOpen? && pc.open in {Install, Publish, Notify, Finish} && Fits(c, pc)
    requires InHandAs(c, pc, pc.node)
    ensures var t := AfterSetup(c, pc, a);
      && (t.pc.AtOpen? ==> InHandAs(t.c, t.pc, pc.node))
      && (t.pc.Idle? ==> t.c.wallet == c.wallet && t.c.wallets == c.wallets)
  {
    hide RouteOf, DialUrl, DialProxy, IsLoopback, InitTo, HostPort, HandleAt, Opened;
    SameSetUp(pc.node);
    if pc.open.Publish? { OpenedOnly(c, pc.job, pc.node, a.now); }
  }

  lemma SameSetUp(n: Node)
    ensures HandleAt(n, 7) == HandleAt(n, 6) == HandleAt(n, 5) == HandleAt(n, 4)
  {
    hide RouteOf, DialUrl, DialProxy, IsLoopback, InitTo;
  }

  lemma OpenedOnly(c: Core, job: OpenJob, n: Node, now: Instant)
    ensures Opened(c, job, n, now).wallets == c.wallets && Opened(c, job, n, now).wallet == c.wallet
  {
    hide RouteOf, HostPort, DialUrl, DialProxy;
  }

  // What an open without an obstacle has, from the section where it stands to the end.
  lemma {:induction false} SetsUp(c: Core, pc: Pc, a: Answers)
    requires pc.AtOpen? && Fits(c, pc) && OnItsWay(c, pc, a) && Refusal(c, pc, a).None?
    requires InHandAs(c, pc, Aimed(pc, a))
    ensures var t := RunFrom(c, pc, a).c;
      t.wallet.Some? && t.wallet.value < |t.wallets| && t.wallets[t.wallet.value] == HandleAt(Aimed(pc, a), 4)
    decreases Rank(pc)
  {
    hide BeforeHandle, WithHandle, AfterSetup, Refusal, OnRoute, RunFrom, InHandAs, HandleAt;
    var t := OpenStep(c, pc, a);
    OpenNext(c, pc, a);
    NoObstacle(c, pc, a);
    if pc.open in {Policy, Guard, Announce} {
      BeforeLeadsOn(c, pc, a);
      NoHandleYet(c, pc, a);
    } else if pc.open.Call? {
      CallLeadsOn(c, pc, a);
      CallSetsUp(c, pc, a);
    } else if pc.open in {Install, Publish, Notify, Finish} {
      AfterLeadsOn(c, pc, a);
      AfterSetsUp(c, pc, a);
    } else {
      WithLeadsOn(c, pc, a);
      WithSetsUp(c, pc, a);
    }
    hide OpenStep;
    if t.pc.AtOpen? {
      NoObstacle(t.c, t.pc, a);
      SetsUp(t.c, t.pc, a);
    } else {
      AtTheEnd(c, pc, Aimed(pc, a));
    }
  }

  lemma NoObstacle(c: Core, pc: Pc, a: Answers)
    requires pc.AtOpen? && Refusal(c, pc, a).None?
    ensures !pc.open.Discard? && !pc.open.GiveUp?
  {}

  lemma NoHandleYet(c: Core, pc: Pc, a: Answers)
    requires pc.AtOpen? && pc.open in {Policy, Guard, Announce} && Fits(c, pc)
    ensures var t := BeforeHandle(c, pc, a); t.pc.AtOpen? ==> InHandAs(t.c, t.pc, Aimed(pc, a))
  {
    hide PolicyError, HandleAt;
  }

  lemma AtTheEnd(c: Core, pc: Pc, n: Node)
    requires pc.AtOpen? && Rank(pc) == 4 && InHandAs(c, pc, n)
    ensures pc.handle < |c.wallets| && c.wallets[pc.handle] == HandleAt(n, 4)
  {}

  lemma OpenNext(c: Core, pc: Pc, a: Answers)
    requires pc.AtOpen? && Fits(c, pc)
    ensures var t := OpenStep(c, pc, a);
      RunFrom(c, pc, a) == RunFrom(t.c, t.pc, a) && (t.pc.Idle? ==> RunFrom(t.c, t.pc, a) == t)
  {
    hide OpenStep;
    assert WorkerStep(c, pc, a) == OpenStep(c, pc, a);
  }

  lemma {:induction false} OpenFrom(c: Core, pc: Pc, a: Answers)
    requires pc.AtOpen? && Fits(c, pc) && OnItsWay(c, pc, a)
    ensures var t, e := RunFrom(c, pc, a), Refusal(c, pc, a);
      && t.pc == Idle(if e.Some? then Err(e.value) else Okay)
      && (e.Some? ==> t.c.wallet == c.wallet && t.c.locks == c.locks && t.c.network == c.network)
      && (e.None? ==>
           && t.c.wallet.Some? && t.c.state.Syncing? && pc.job.network in t.c.locks
           && OnRoute(t.c, pc.job, Aimed(pc, a), a.now))
    decreases Rank(pc)
  {
    hide BeforeHandle, WithHandle, AfterSetup, Refusal, OnRoute, RunFrom;
    var t := OpenStep(c, pc, a);
    OpenNext(c, pc, a);
    if pc.open in {Policy, Guard, Announce} || pc.open.GiveUp? {
      BeforeLeadsOn(c, pc, a);
    } else if pc.open.Call? {
      CallLeadsOn(c, pc, a);
    } else if pc.open in {Install, Publish, Notify, Finish} {
      AfterLeadsOn(c, pc, a);
    } else {
      WithLeadsOn(c, pc, a);
    }
    hide OpenStep;
    if t.pc.AtOpen? { OpenFrom(t.c, t.pc, a); }
  }

  // An open succeeds just when nothing is in its way, and then a wallet is open on the node's route
  // with its network locked; otherwise the first obstacle is the answer, and no wallet opens, no
  // lock is set and none that was open is touched.
  lemma OpenEnds(c: Core, job: OpenJob, a: Answers)
    requires c.wallet.Some? ==> c.wallet.value < |c.wallets|
    ensures var start := AtOpen(Policy, job, NO_NODE, 0);
      var t, e := RunFrom(c, start, a), Refusal(c, start, a);
      && t.pc == Idle(if e.Some? then Err(e.value) else Okay)
      && (e.Some? ==> t.c.wallet == c.wallet && t.c.locks == c.locks && t.c.network == c.network)
      && (e.None? ==>
           && t.c.wallet.Some? && t.c.state.Syncing? && job.network in t.c.locks && OnRoute(t.c, job, a.node, a.now))
  {
    hide RunFrom, Refusal, OnRoute;
    OpenFrom(c, AtOpen(Policy, job, NO_NODE, 0), a);
  }

  // ---- The same without the code's own words: by the fields of job, node and answers ----

  // What lets an open through.
  ghost predicate Admits(c: Core, existing: bool, name: string, network: string, a: Answers) {
    var n := a.node;
    && name != "" && '/' !in name && !Contains(name, "..")
    && network in {"mainnet", "stagenet", "testnet", "regtest"}
    && !n.error && n.url != "" && (n.proxyRequired ==> n.proxy != "")
    && c.wallet.None? && a.present == existing && a.handle && a.statusOk
    && a.nettype == (if network == "testnet" then 1 else if network == "stagenet" then 2 else 0)
    && a.initOk
    && (n.catchUp == "" && n.proxy != "tor" && n.proxyRequired && n.torUse == "" ==>
         exists i :: 0 <= i < |a.polls| && i < 20 && a.polls[i])
  }

  // Runtime and wallet2 after it: a catch-up node goes before everything, then a Tor still joining,
  // then a proxy.
  ghost predicate SessionOn(c: Core, network: string, n: Node) {
    && c.wallet.Some? && c.wallet.value < |c.wallets| && c.state.Syncing? && c.network == network && network in c.locks
    && var w := c.wallets[c.wallet.value];
       && w.log == [] && w.closes == 0 && w.origin == n
       && (w.trusted <==> n.catchUp == "" && n.proxy == "" && n.trusted && IsLoopback(n.url))
       && if n.catchUp != "" then
            c.route.CatchUp? && w.mode.Online? && w.proxy == "" && c.dialPeer == w.url == HostPort(n.catchUp)
          else if n.proxy == "" then
            c.route.Direct? && w.mode.Online? && w.proxy == "" && c.dialPeer == w.url == HostPort(n.url)
          else if n.proxy == "tor" then
            c.route.WaitingForTor? && w.mode.Draining? && w.proxy == "nowhere" && c.dialPeer == ""
          else
            && c.route.Tor? && w.mode.Online? && w.url == HostPort(n.url) && w.proxy == c.dialPeer == HostPort(n.proxy)
            && c.torUrl == n.url
  }

  lemma AdmitsIff(c: Core, job: OpenJob, a: Answers)
    ensures Refusal(c, AtOpen(Policy, job, NO_NODE, 0), a).None? <==>
      Admits(c, job.kind.OpenWallet?, job.name, job.network, a)
  {
    hide Contains;
  }

  lemma SessionIs(c: Core, job: OpenJob, n: Node, now: Instant)
    requires c.wallet.Some? && c.wallet.value < |c.wallets| && c.wallets[c.wallet.value] == HandleAt(n, 4)
    requires c.state.Syncing? && job.network in c.locks && OnRoute(c, job, n, now)
    ensures SessionOn(c, job.network, n)
  {
    hide HostPort, IsLoopback;
  }

  // An open goes through if and only if all of that is given, on a session as the node's fields say;
  // else the wallet that was open, if any, still is.
  lemma OpenOpens(c: Core, job: OpenJob, a: Answers)
    requires c.wallet.Some? ==> c.wallet.value < |c.wallets|
    ensures var t := RunFrom(c, AtOpen(Policy, job, NO_NODE, 0), a);
      && (t.pc == Idle(Okay) <==> Admits(c, job.kind.OpenWallet?, job.name, job.network, a))
      && (t.pc == Idle(Okay) ==> SessionOn(t.c, job.network, a.node))
      && (t.pc != Idle(Okay) ==> t.c.wallet == c.wallet && t.c.locks == c.locks)
  {
    var start := AtOpen(Policy, job, NO_NODE, 0);
    hide RunFrom, Refusal, OnRoute, Admits, SessionOn, HandleAt;
    OpenEnds(c, job, a);
    AdmitsIff(c, job, a);
    if Refusal(c, start, a).None? {
      SetsUp(c, start, a);
      SessionIs(RunFrom(c, start, a).c, job, a.node, a.now);
    }
  }

  // ---- The jobs of one section ----

  // Off the two routes that wait for Tor.
  predicate MaySend(c: Core) { c.wallet.Some? && (c.route.Direct? || c.route.Tor?) }

  // Each refusal of a create, exactly, and its success; a create that succeeds adds its transaction
  // under the next key, and nothing else changes what is pending.
  lemma CreateEnds(c: Core, amount: string, address: string, a: Answers)
    requires c.wallet.Some? ==> c.wallet.value < |c.wallets|
    ensures var t := CreateStep(c, amount, address, a);
      var out, asked := t.pc.out, MaySend(c) && !a.watchOnly;
      && (out == Err(NoWalletOpen) <==> c.wallet.None?)
      && (out == Err(WaitsForTor) <==> c.wallet.Some? && (c.route.CatchUp? || c.route.WaitingForTor?))
      && (out == Err(ViewOnly) <==> MaySend(c) && a.watchOnly)
      && (out == Err(BadAmount) <==> asked && !IsAmount(amount))
      && (out == Err(BadAddress) <==> asked && IsAmount(amount) && !Address.IsAddress(address, c.network))
      && (out == Okay <==> asked && IsAmount(amount) && Address.IsAddress(address, c.network) && a.built.Good?)
      && t.c.wallet == c.wallet && t.c.state == c.state && t.c.route == c.route
      && t.c.pending == if out.Okay? then c.pending[TxKey(c.nextTx) := c.wallet.value] else c.pending
  {
    hide Address.IsAddress, ParseAtomic, IsAmount, TxKey, Sent, Fits;
    AmountDecides(amount);
  }

  lemma CommitEnds(c: Core, k: string, a: Answers)
    requires c.wallet.Some? ==> c.wallet.value < |c.wallets|
    ensures var t := CommitStep(c, k, a);
      var out := t.pc.out;
      && (out == Err(NoWalletOpen) <==> c.wallet.None?)
      && (out == Err(WaitsForTor) <==> c.wallet.Some? && (c.route.CatchUp? || c.route.WaitingForTor?))
      && (out == Err(UnknownHandle) <==> MaySend(c) && k !in c.pending)
      && (out == Okay <==> MaySend(c) && k in c.pending && a.commitOk)
      && t.c.wallet == c.wallet && t.c.state == c.state && t.c.route == c.route
      && t.c.pending == (if out.Okay? then c.pending - {k} else c.pending)
      && t.c.commits == (if out.Okay? then c.commits + [k] else c.commits)
  {
    hide Sent, Fits;
  }

  // Where wallet2 issues requests, a send it is asked for goes the way it dials.
  lemma CreateGoesOut(c: Core, amount: string, address: string, a: Answers)
    requires MaySend(c) && c.wallet.value < |c.wallets| && CanIssue(c.wallets[c.wallet.value])
    requires !a.watchOnly && IsAmount(amount) && Address.IsAddress(address, c.network)
    ensures var t, w := CreateStep(c, amount, address, a).c, c.wallets[c.wallet.value];
      && |t.wallets| == |c.wallets|
      && t.wallets[c.wallet.value] == w.(log := w.log + [Request(Create, w.url, w.proxy)])
  {
    hide Address.IsAddress, ParseAtomic, IsAmount, Sent, CreateStep, CanIssue;
    AmountDecides(amount);
    SentIs(c, Create);
    BuildSends(c, amount, address, a);
  }

  // Past the refusals, what wallet2 answers changes nothing of what it has sent.
  lemma BuildSends(c: Core, amount: string, address: string, a: Answers)
    requires c.wallet.Some? && c.wallet.value < |c.wallets| && !SendsWait(c) && !a.watchOnly
    requires ParseAtomic(amount).Some? && ParseAtomic(amount).value > 0 && Address.IsAddress(address, c.network)
    ensures CreateStep(c, amount, address, a).c.wallets == Sent(c, c.wallet.value, Create).wallets
  {
    hide Address.IsAddress, ParseAtomic, TxKey, Fits, Sent, SendsWait;
    var d := Sent(c, c.wallet.value, Create);
    var t := CreateStep(c, amount, address, a);
    if a.built.Nothing? {
      assert t.c == d;
    } else if a.built.Bad? {
      assert t.c == d;
    } else {
      assert t.c.wallets == d.wallets;
    }
  }

  lemma CommitGoesOut(c: Core, k: string, a: Answers)
    requires MaySend(c) && c.wallet.value < |c.wallets| && CanIssue(c.wallets[c.wallet.value]) && k in c.pending
    ensures var t, w := CommitStep(c, k, a).c, c.wallets[c.wallet.value];
      && |t.wallets| == |c.wallets|
      && t.wallets[c.wallet.value] == w.(log := w.log + [Request(Commit, w.url, w.proxy)])
  {
    SentIs(c, Commit);
    hide Fits, Sent, CanIssue;
  }

  lemma SentIs(c: Core, purpose: Purpose)
    requires c.wallet.Some? && c.wallet.value < |c.wallets| && CanIssue(c.wallets[c.wallet.value])
    ensures var d, w := Sent(c, c.wallet.value, purpose), c.wallets[c.wallet.value];
      d.wallets == c.wallets[c.wallet.value := w.(log := w.log + [Request(purpose, w.url, w.proxy)])]
  {}

  lemma SendNext(c: Core, job: Job, a: Answers)
    requires !job.OpenLike? && !job.Close? && !job.Rescan? && !job.Tick?
    requires c.wallet.Some? ==> c.wallet.value < |c.wallets|
    ensures RunFrom(c, Entry(job), a) == SendStep(c, job, a)
  {
    hide SendStep;
    var t := SendStep(c, job, a);
    assert WorkerStep(c, AtSend(job), a) == t;
    assert RunFrom(t.c, t.pc, a) == t;
  }

  // A rescan keeps wallet, handles and transactions, and leaves the wallet syncing.
  lemma RescanEnds(c: Core, a: Answers)
    requires c.wallet.Some? ==> c.wallet.value < |c.wallets|
    ensures RunFrom(c, Entry(Job.Rescan), a) ==
      if c.wallet.Some? then Step(c.(state := Syncing), Idle(Okay)) else Step(c, Idle(Err(NoWalletOpen)))
  {
    RescanNext(c, AtRescan(false), a);
    hide RunFrom;
    if c.wallet.Some? { RescanNext(c, AtRescan(true), a); }
  }

  lemma RescanNext(c: Core, pc: Pc, a: Answers)
    requires pc.AtRescan? && Fits(c, pc)
    ensures var t := RescanStep(c, pc);
      RunFrom(c, pc, a) == RunFrom(t.c, t.pc, a) && (t.pc.Idle? ==> RunFrom(t.c, t.pc, a) == t)
  {
    hide RescanStep;
    assert WorkerStep(c, pc, a) == RescanStep(c, pc);
  }

  // ---- doClose ----

  // A close with a wallet open always ends with none: nothing pending, no route, no peer, no height,
  // its network unlocked, and its handle closed once more, even where wallet2 says the close failed.
  lemma CloseEnds(c: Core, a: Answers)
    requires c.wallet.Some? && c.wallet.value < |c.wallets|
    ensures var t, w := RunFrom(c, AtClose(Detach, 0), a), c.wallet.value;
      && t.pc == Idle(if a.closeOk then Okay else Err(CloseFailed))
      && t.c.wallet.None? && t.c.state.NoWallet? && t.c.pending == map[] && t.c.locks == c.locks - {c.network}
      && t.c.route.Direct? && t.c.dialPeer == "" && t.c.daemonHeight == 0 && !t.c.connected && !t.c.probed
      && |t.c.wallets| == |c.wallets| && t.c.wallets[w].closes == c.wallets[w].closes + 1
  {
    hide RunFrom, DroppedFates;
    var w := c.wallet.value;
    var t1 := CloseStep(c, AtClose(Detach, 0), a);
    CloseNext(c, AtClose(Detach, 0), a);
    var t2 := CloseStep(t1.c, t1.pc, a);
    CloseNext(t1.c, t1.pc, a);
    var t3 := CloseStep(t2.c, t2.pc, a);
    CloseNext(t2.c, t2.pc, a);
    var t4 := CloseStep(t3.c, t3.pc, a);
    CloseNext(t3.c, t3.pc, a);
    CloseNext(t4.c, t4.pc, a);
  }

  lemma CloseNext(c: Core, pc: Pc, a: Answers)
    requires pc.AtClose? && Fits(c, pc)
    ensures var t := CloseStep(c, pc, a);
      RunFrom(c, pc, a) == RunFrom(t.c, t.pc, a) && (t.pc.Idle? ==> RunFrom(t.c, t.pc, a) == t)
  {
    hide CloseStep;
    assert WorkerStep(c, pc, a) == CloseStep(c, pc, a);
  }

  // ---- moveToTor and tick ----

  // Whether a move from here on ends on Tor.
  predicate WillMove(pc: Pc, a: Answers)
    requires pc.AtMove?
  {
    if pc.move.Settle? then pc.moved
    else if pc.move.Distrust? || pc.move.Resume? then true
    else TorReady(Aim(pc, a)) && a.initOk
  }

  function Aim(pc: Pc, a: Answers): Node
    requires pc.AtMove?
  {
    if !(pc.move.ReadRoute? || pc.move.Resolve?) then pc.target else if pc.given.Some? then pc.given.value else a.node
  }

  // One section of a move leads on to the same end.
  ghost predicate LeadsOn(c: Core, pc: Pc, t: Step, a: Answers)
    requires pc.AtMove?
  {
    && t.c.state == c.state && t.c.wallet == c.wallet && t.c.network == c.network
    && if t.pc.AtMove? then
      && t.pc.synced == pc.synced && (t.pc.move.ReadRoute? || t.pc.from == t.c.route)
      && (WillMove(t.pc, a) <==> WillMove(pc, a)) && Aim(t.pc, a) == Aim(pc, a)
    else
      && t.pc == TickFlip(pc.synced) && t.c.route == (if WillMove(pc, a) then Route.Tor else WaitingForTor)
      && (WillMove(pc, a) ==> t.c.dialPeer == HostPort(Aim(pc, a).proxy))
  }

  lemma EarlyLeadsOn(c: Core, pc: Pc, a: Answers)
    requires pc.AtMove? && pc.move in {ReadRoute, Resolve, Quiet, Drain} && Fits(c, pc)
    requires c.wallet.Some? && (pc.move.ReadRoute? || pc.from == c.route)
    ensures LeadsOn(c, pc, MoveStep(c, pc, a), a)
  {
    hide TorReady, HostPort, InitTo, Fits;
  }

  lemma RedialLeadsOn(c: Core, pc: Pc, a: Answers)
    requires pc.AtMove? && pc.move.Redial? && Fits(c, pc) && c.wallet.Some? && pc.from == c.route
    ensures LeadsOn(c, pc, MoveStep(c, pc, a), a)
  {
    hide TorReady, HostPort, InitTo;
    if !TorReady(pc.target) {
      assert MoveStep(c, pc, a).pc == pc.(move := Settle, moved := false);
    } else if a.initOk {
      assert MoveStep(c, pc, a).pc == pc.(move := Distrust);
    } else {
      assert MoveStep(c, pc, a).pc == pc.(move := Settle, moved := false);
    }
  }

  lemma LateLeadsOn(c: Core, pc: Pc, a: Answers)
    requires pc.AtMove? && pc.move in {Distrust, Resume, Settle} && Fits(c, pc)
    requires c.wallet.Some? && pc.from == c.route
    ensures LeadsOn(c, pc, MoveStep(c, pc, a), a)
  {
    hide TorReady, HostPort, InitTo;
  }

  // A move ends on Tor just when a ready node was resolved and init took it, and waiting for Tor
  // otherwise, from Tor as from anywhere.
  lemma {:induction false} MoveEnds(c: Core, pc: Pc, a: Answers)
    requires pc.AtMove? && Fits(c, pc) && c.wallet.Some? && (pc.move.ReadRoute? || pc.from == c.route)
    ensures var t := RunFrom(c, pc, a).c;
      && t.route == (if WillMove(pc, a) then Route.Tor else WaitingForTor)
      && t.wallet == c.wallet && t.network == c.network
      && (WillMove(pc, a) ==> t.dialPeer == HostPort(Aim(pc, a).proxy))
    decreases Rank(pc)
  {
    hide MoveStep, WillMove, Aim, HostPort, Fits;
    var t := MoveStep(c, pc, a);
    assert WorkerStep(c, pc, a) == t;
    if pc.move in {ReadRoute, Resolve, Quiet, Drain} {
      EarlyLeadsOn(c, pc, a);
    } else if pc.move.Redial? {
      RedialLeadsOn(c, pc, a);
    } else {
      LateLeadsOn(c, pc, a);
    }
    if t.pc.AtMove? {
      MoveEnds(t.c, t.pc, a);
    } else {
      FlipKeepsRoute(t.c, t.pc, a);
    }
  }

  lemma FlipsState(c: Core, pc: Pc, a: Answers)
    requires pc.TickFlip? && Fits(c, pc)
    ensures var t := WorkerStep(c, pc, a); t.pc == Idle(Okay) && t.c == c.(state := t.c.state)
  {
    hide OpenStep, CloseStep, RescanStep, SendStep, MoveStep, Fits;
    assert WorkerStep(c, pc, a) == TickStep(c, pc, a);
    hide WorkerStep;
    if c.state.Syncing? && pc.synced {
      assert TickStep(c, pc, a) == Step(c.(state := Ready), Idle(Okay));
    } else if c.state.Ready? && !pc.synced {
      assert TickStep(c, pc, a) == Step(c.(state := Syncing), Idle(Okay));
    } else {
      assert TickStep(c, pc, a) == Step(c, Idle(Okay));
    }
  }

  lemma FlipEnds(c: Core, pc: Pc, a: Answers)
    requires pc.TickFlip? && Fits(c, pc)
    ensures var t := RunFrom(c, pc, a); t.pc == Idle(Okay) && t.c == c.(state := t.c.state)
  {
    hide WorkerStep, Fits;
    FlipsState(c, pc, a);
    var t := WorkerStep(c, pc, a);
    assert RunFrom(t.c, t.pc, a) == t;
  }

  lemma FlipKeepsRoute(c: Core, pc: Pc, a: Answers)
    requires pc.TickFlip? && Fits(c, pc)
    ensures var t := RunFrom(c, pc, a).c;
      t.route == c.route && t.wallet == c.wallet && t.network == c.network && t.dialPeer == c.dialPeer
  {
    hide RunFrom;
    FlipEnds(c, pc, a);
  }

  // What a tick learnt of synchronization, on its way through the sections.
  function Synced(pc: Pc): bool
    requires pc.TickNote? || pc.TickAsk? || pc.TickFlip? || pc.AtMove?
  { pc.synced }

  // A tick with a wallet open leaves it ready if synchronized and syncing if not, through a move
  // to Tor as without one.
  lemma {:induction false} TickTells(c: Core, pc: Pc, a: Answers)
    requires (pc.TickNote? || pc.TickAsk? || pc.TickFlip? || pc.AtMove?) && Fits(c, pc)
    requires c.wallet.Some? && (c.state.Syncing? || c.state.Ready?)
    requires pc.AtMove? && !pc.move.ReadRoute? ==> pc.from == c.route
    ensures RunFrom(c, pc, a).c.state == if Synced(pc) then Ready else Syncing
    decreases Rank(pc)
  {
    hide MoveStep, WillMove, Fits, TorReady;
    if pc.AtMove? {
      var t := MoveStep(c, pc, a);
      assert WorkerStep(c, pc, a) == t;
      if pc.move in {ReadRoute, Resolve, Quiet, Drain} {
        EarlyLeadsOn(c, pc, a);
      } else if pc.move.Redial? {
        RedialLeadsOn(c, pc, a);
      } else {
        LateLeadsOn(c, pc, a);
      }
      TickTells(t.c, t.pc, a);
    } else {
      var t := TickStep(c, pc, a);
      assert WorkerStep(c, pc, a) == t;
      if !t.pc.Idle? { TickTells(t.c, t.pc, a); }
    }
  }

  // Where one tick leaves the route: CatchUp for as long as neither synchronized nor 90 s without a
  // new block, Tor unless another onion was picked and refused, and waiting until Tor takes it.
  predicate Decides(c: Core, synced: bool, height: nat, a: Answers, to: Route) {
    var since := if height > c.progressHeight then a.now else c.progressAt;
    var ready := !a.node.error && a.node.url != "" && a.node.proxy != "" && a.node.proxy != "tor";
    match c.route
    case Direct => to.Direct?
    case CatchUp =>
      to == if !synced && a.now - since <= 90_000_000_000 then CatchUp
            else if ready && a.initOk then Route.Tor else WaitingForTor
    case WaitingForTor => to == if ready && a.initOk then Route.Tor else WaitingForTor
    case Tor =>
      to == if a.now - c.torAskedAt >= 60_000_000_000 && ready && a.node.url != c.torUrl && !a.initOk
            then WaitingForTor else Route.Tor
  }

  lemma TickRoute(c: Core, synced: bool, height: nat, a: Answers)
    requires c.wallet.Some? && c.wallet.value < |c.wallets|
    ensures var t := RunFrom(c, TickNote(synced, height), a).c;
      Decides(c, synced, height, a, t.route) && t.wallet == c.wallet
  {
    assert TorReady(a.node) <==> !a.node.error && a.node.url != "" && a.node.proxy != "" && a.node.proxy != "tor";
    hide TorReady, RunFrom, TickStep;
    var t := TickStep(c, TickNote(synced, height), a);
    NoteNext(c, TickNote(synced, height), a);
    NoteLeads(c, synced, height, a);
    RouteFrom(t.c, t.pc, a);
  }

  lemma NoteLeads(c: Core, synced: bool, height: nat, a: Answers)
    requires c.wallet.Some? && c.wallet.value < |c.wallets|
    ensures var t := TickStep(c, TickNote(synced, height), a);
      var since := if height > c.progressHeight then a.now else c.progressAt;
      && t.c.route == c.route && t.c.wallet == c.wallet && t.c.wallets == c.wallets
      && if (c.route.CatchUp? && (synced || a.now - since > 90_000_000_000)) || c.route.WaitingForTor? then
           t.pc.AtMove? && t.pc.move.ReadRoute? && t.pc.given.None?
         else if c.route.Tor? && a.now - c.torAskedAt >= 60_000_000_000 then t.pc == TickAsk(synced, c.network, c.torUrl)
         else t.pc == TickFlip(synced)
  {}

  lemma NoteNext(c: Core, pc: Pc, a: Answers)
    requires pc.TickNote? && Fits(c, pc)
    ensures RunFrom(c, pc, a) == RunFrom(TickStep(c, pc, a).c, TickStep(c, pc, a).pc, a)
  {
    hide TorReady;
    assert WorkerStep(c, pc, a) == TickStep(c, pc, a);
  }

  // The same of the tick whole, from the reset of the locks on.
  lemma TickEnds(c: Core, a: Answers)
    requires c.wallet.Some? && c.wallet.value < |c.wallets|
    ensures var t := RunJob(c, Job.Tick, a).c;
      && Decides(c, a.synced, a.height, a, t.route) && t.wallet == c.wallet
      && (c.state.Syncing? || c.state.Ready? ==> t.state == if a.synced then Ready else Syncing)
  {
    hide RunFrom, TorReady, Decides;
    var d := Reset(c);
    ReadsFirst(d, a);
    TickRoute(d, a.synced, a.height, a);
    SameDecision(c, a, RunFrom(d, TickRead, a).c.route);
    if c.state.Syncing? || c.state.Ready? { TickTells(d, TickNote(a.synced, a.height), a); }
  }

  lemma ReadsFirst(c: Core, a: Answers)
    requires c.wallet.Some? && c.wallet.value < |c.wallets|
    ensures RunFrom(c, TickRead, a) == RunFrom(c, TickNote(a.synced, a.height), a)
  {
    assert WorkerStep(c, TickRead, a) == Step(c, TickNote(a.synced, a.height));
  }

  // The reset of the locks decides nothing of the route.
  lemma SameDecision(c: Core, a: Answers, to: Route)
    ensures Decides(Reset(c), a.synced, a.height, a, to) == Decides(c, a.synced, a.height, a, to)
  {
    hide TorReady;
  }

  // A catch-up that is over moves to the node's onion, through whatever host part its proxy has.
  lemma CatchUpMoves(c: Core, height: nat, a: Answers)
    requires c.wallet.Some? && c.wallet.value < |c.wallets| && c.route.CatchUp? && TorReady(a.node) && a.initOk
    ensures var t := RunFrom(c, TickNote(true, height), a).c;
      t.route.Tor? && t.wallet == c.wallet && t.network == c.network && t.dialPeer == HostPort(a.node.proxy)
  {
    hide TorReady, HostPort;
    var t := TickStep(c, TickNote(true, height), a);
    assert WorkerStep(c, TickNote(true, height), a) == t;
    MoveEnds(t.c, t.pc, a);
  }

  // The route a tick ends on, from the section after its decision.
  lemma RouteFrom(c: Core, pc: Pc, a: Answers)
    requires Fits(c, pc) && c.wallet.Some?
    requires pc.TickAsk? || pc.TickFlip? || (pc.AtMove? && pc.move.ReadRoute?)
    ensures RunFrom(c, pc, a).c.wallet == c.wallet
    ensures RunFrom(c, pc, a).c.route ==
      if pc.AtMove? then (if WillMove(pc, a) then Route.Tor else WaitingForTor)
      else if pc.TickAsk? && TorReady(a.node) && a.node.url != pc.bound then
        if a.initOk then Route.Tor else WaitingForTor
      else c.route
  {
    hide TorReady, RunFrom, MoveStep;
    if pc.AtMove? {
      MoveEnds(c, pc, a);
    } else if pc.TickFlip? {
      FlipKeepsRoute(c, pc, a);
    } else {
      var t := TickStep(c, pc, a);
      AskLeadsOn(c, pc, a);
      if t.pc.AtMove? {
        MoveEnds(t.c, t.pc, a);
      } else {
        FlipKeepsRoute(t.c, t.pc, a);
      }
    }
  }

  lemma AskLeadsOn(c: Core, pc: Pc, a: Answers)
    requires pc.TickAsk? && Fits(c, pc)
    ensures var t := TickStep(c, pc, a); t.c == c && RunFrom(c, pc, a) == RunFrom(c, t.pc, a)
  {
    hide TorReady;
    assert WorkerStep(c, pc, a) == TickStep(c, pc, a);
  }
}
