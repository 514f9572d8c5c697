// The class WalletRuntime (src/wallet_runtime.h, src/wallet_runtime.cpp): its fields, and the
// bodies of its jobs, tick and probe as they run when nothing runs between their sections.
module Runtime {
  import opened Bytes
  import opened Text
  import opened Worker
  import opened System
  import opened Invariant
  import opened Laws
  import opened Runs
  import opened Endings
  import Address
  import Decimal

  // ---- From one section to the next ----

  lemma Next(c: Core, pc: Pc, a: Answers, t: Step)
    requires Fits(c, pc) && !pc.Idle? && WorkerStep(c, pc, a) == t
    ensures RunFrom(c, pc, a) == RunFrom(t.c, t.pc, a)
  {
    hide WorkerStep;
  }

  lemma Stops(c: Core, out: Outcome, a: Answers)
    requires Fits(c, Idle(out))
    ensures RunFrom(c, Idle(out), a) == Step(c, Idle(out))
  {}

  lemma TxKeyIs(n: nat)
    ensures TxKey(n) == "tx" + Decimal.Text(n)
  {}

  class WalletRuntime {
    var dirSet: bool                  // m_walletsDir is not empty
    var locksReset: bool
    var wallet: Option<nat>
    var pending: map<string, nat>
    var nextTx: nat
    var state: State
    var network: string
    var route: Route
    var probed: bool
    var connected: bool
    var daemonHeight: nat
    var dialPeer: string
    var progressHeight: nat
    var progressAt: Instant
    var torUrl: string
    var torAskedAt: Instant

    // Outside: every handle of wallet2, and the node module's settings locks.
    var wallets: seq<Wallet2>
    var locks: set<string>

    // History.
    ghost var heightFrom: nat
    ghost var seen: seq<(Instant, nat)>
    ghost var openedAt: Instant
    ghost var lastTick: Instant
    ghost var fates: map<string, Fate>
    ghost var commits: seq<string>

    ghost function Now(): Core
      reads this
    {
      Core(dirSet, locksReset, wallet, pending, nextTx, state, network, route, probed, connected, daemonHeight, dialPeer,
        progressHeight, progressAt, torUrl, torAskedAt, wallets, locks, heightFrom, seen, openedAt, lastTick, fates, commits)
    }

    ghost predicate Sound()
      reads this
    {
      wallet.Some? ==> wallet.value < |wallets|
    }

    constructor (locks: set<string>)
      ensures Valid() && Now() == Fresh(locks)
    {
      dirSet, locksReset, wallet, pending, nextTx, state, network, route := false, false, None, map[], 1, NoWallet, "", Direct;
      probed, connected, daemonHeight, dialPeer, progressHeight, progressAt, torUrl, torAskedAt := false, false, 0, "", 0, 0, "", 0;
      wallets, this.locks := [], locks;
      heightFrom, seen, openedAt, lastTick, fates, commits := 0, [], 0, 0, map[], [];
      new;
      BootFits(locks, ANY_WORLD);
    }

    // ---- Small groups of fields ----

    method SetState(s: State)
      modifies this`state
      ensures Now() == old(Now()).(state := s)
    {
      state := s;
    }

    method SetWallet2(h: nat, w: Wallet2)
      requires h < |wallets|
      modifies this`wallets
      ensures Now() == SetWallet(old(Now()), h, w)
    {
      wallets := wallets[h := w];
    }

    method SetReading(probed: bool, connected: bool, height: nat)
      modifies this`probed, this`connected, this`daemonHeight
      ensures Now() == old(Now()).(probed := probed, connected := connected, daemonHeight := height)
    {
      this.probed, this.connected, daemonHeight := probed, connected, height;
    }

    method SetRoute(r: Route, peer: string)
      modifies this`route, this`dialPeer
      ensures Now() == old(Now()).(route := r, dialPeer := peer)
    {
      route, dialPeer := r, peer;
    }

    method SetTor(url: string, askedAt: Instant)
      modifies this`torUrl, this`torAskedAt
      ensures Now() == old(Now()).(torUrl := url, torAskedAt := askedAt)
    {
      torUrl, torAskedAt := url, askedAt;
    }

    method SetProgress(height: nat, at: Instant)
      modifies this`progressHeight, this`progressAt
      ensures Now() == old(Now()).(progressHeight := height, progressAt := at)
    {
      progressHeight, progressAt := height, at;
    }

    ghost method StartHistory(at: Instant)
      modifies this`seen, this`openedAt, this`lastTick
      ensures Now() == old(Now()).(seen := [], openedAt := at, lastTick := at)
    {
      seen, openedAt, lastTick := [], at, at;
    }

    ghost method RecordTick(at: Instant, height: nat)
      modifies this`seen, this`lastTick
      ensures Now() == old(Now()).(seen := old(seen) + [(at, height)], lastTick := at)
    {
      seen, lastTick := seen + [(at, height)], at;
    }

    // ---- Settings locks ----

    method NotifyOpen(network: string, open: bool)
      modifies this`locks
      ensures Now() == old(Now()).(locks := locks)
      ensures network in locks <==> open
      ensures forall other :: other != network ==> (other in locks <==> other in old(locks))
    {
      locks := if open then locks + {network} else locks - {network};
    }

    method ResetLocksOnce()
      modifies this`locks, this`locksReset
      ensures Now() == Reset(old(Now()))
    {
      if locksReset || !dirSet { return; }
      locksReset := true;
      var nets := ["mainnet", "stagenet", "testnet", "regtest"];
      assert forall n :: n in NETWORKS <==> n in nets;
      for i := 0 to |nets|
        invariant locks == old(locks) - set n | n in nets[..i]
        invariant Now() == old(Now()).(locksReset := true, locks := locks)
      {
        assert nets[..i + 1] == nets[..i] + [nets[i]];
        ghost var was := locks;
        NotifyOpen(nets[i], false);
        assert locks == was - {nets[i]};
      }
      assert nets[..|nets|] == nets;
      assert (set n | n in nets) == NETWORKS;
    }

    // ---- doOpenLike ----

    // Refusals that touch nothing: a node is used only where a required proxy is configured.
    method CheckPolicy(job: OpenJob, node: Node) returns (refused: Option<Code>)
      ensures refused == PolicyError(job, node)
      ensures var known, unnamed := job.network in {"mainnet", "stagenet", "testnet", "regtest"}, !NameOk(job.name);
        && (refused == Some(BadName) <==> unnamed)
        && (refused == Some(UnknownNetwork) <==> !unnamed && !known)
        && (refused == Some(NodeError) <==> !unnamed && known && node.error)
        && (refused == Some(NoDaemon) <==> !unnamed && known && !node.error && node.url == "")
        && (refused == Some(ProxyRequired) <==>
             !unnamed && known && !node.error && node.url != "" && node.proxyRequired && node.proxy == "")
      ensures refused.None? ==> job.name != "" && '/' !in job.name && job.network in NETWORKS
      ensures refused.None? ==> !node.error && node.url != "" && (node.proxyRequired ==> RouteOf(node) != Direct)
      ensures refused.Some? ==> refused.value in {BadName, UnknownNetwork, NodeError, NoDaemon, ProxyRequired}
      ensures refused == Some(ProxyRequired) ==> node.proxyRequired && node.proxy == ""
    {
      refused := None;
      if !NameOk(job.name) {
        refused := Some(BadName);
      } else if job.network !in NETWORKS {
        refused := Some(UnknownNetwork);
      } else if node.error {
        refused := Some(NodeError);
      } else if node.url == "" {
        refused := Some(NoDaemon);
      } else if node.proxyRequired && node.proxy == "" {
        refused := Some(ProxyRequired);
      }
    }

    method DoOpenLike(job: OpenJob, a: Answers) returns (out: Outcome)
      requires Sound()
      modifies this
      ensures Sound() && RunFrom(old(Now()), AtOpen(Policy, job, NO_NODE, 0), a) == Step(Now(), Idle(out))
      ensures var e := Refusal(old(Now()), AtOpen(Policy, job, NO_NODE, 0), a);
        && out == (if e.Some? then Err(e.value) else Okay)
        && (out.Okay? ==>
             && old(wallet).None? && wallet.Some? && state.Syncing? && route == RouteOf(a.node)
             && dialPeer == PeerOf(a.node) && network == job.network && network in locks)
        && (!out.Okay? ==> wallet == old(wallet) && locks == old(locks))
      ensures out.Okay? <==> Admits(old(Now()), job.kind.OpenWallet?, job.name, job.network, a)
      ensures out.Okay? ==> SessionOn(Now(), job.network, a.node)
    {
      hide Refusal, PeerOf, RouteOf, RunFrom, Admits, SessionOn;
      OpenEnds(Now(), job, a);
      OpenOpens(Now(), job, a);
      OpensOnce(Now(), job, a);
      out := CheckAndOpen(job, a);
    }

    method CheckAndOpen(job: OpenJob, a: Answers) returns (out: Outcome)
      requires Sound()
      modifies this
      ensures Sound() && RunFrom(old(Now()), AtOpen(Policy, job, NO_NODE, 0), a) == Step(Now(), Idle(out))
    {
      hide PolicyError, NETWORKS, NameOk, NettypeOf, RunFrom, DialUrl, DialProxy,
        WithHandle, AfterSetup, CloseStep, RescanStep, SendStep, TickStep, MoveStep;
      ghost var c := Now();
      ghost var start := AtOpen(Policy, job, NO_NODE, 0);
      var node := a.node;
      var refused := CheckPolicy(job, node);
      if refused.Some? {
        out := Err(refused.value);
        Next(c, start, a, Step(c, Idle(out)));
        Stops(c, out, a);
        return;
      }
      Next(c, start, a, Step(c, AtOpen(Guard, job, node, 0)));
      out := Admit(job, node, a);
    }

    method Admit(job: OpenJob, node: Node, a: Answers) returns (out: Outcome)
      requires Sound()
      modifies this
      ensures Sound() && RunFrom(old(Now()), AtOpen(Guard, job, node, 0), a) == Step(Now(), Idle(out))
    {
      hide PolicyError, NETWORKS, NameOk, NettypeOf, RunFrom, DialUrl, DialProxy,
        WithHandle, AfterSetup, CloseStep, RescanStep, SendStep, TickStep, MoveStep;
      ghost var c := Now();
      if wallet.Some? {
        out := Err(AlreadyOpen);
        Next(c, AtOpen(Guard, job, node, 0), a, Step(c, Idle(out)));
        Stops(c, out, a);
        return;
      }
      Next(c, AtOpen(Guard, job, node, 0), a, Step(c, AtOpen(Announce, job, node, 0)));
      SetState(Opening);
      Next(c, AtOpen(Announce, job, node, 0), a, Step(Now(), AtOpen(Call, job, node, 0)));
      out := CallWallet2(job, node, a);
    }

    // From the check that the file is there, or not there, to the end.
    method CallWallet2(job: OpenJob, node: Node, a: Answers) returns (out: Outcome)
      requires wallet.None?
      modifies this
      ensures Sound() && RunFrom(old(Now()), AtOpen(Call, job, node, 0), a) == Step(Now(), Idle(out))
    {
      hide NettypeOf, RunFrom, DialUrl, DialProxy, RouteOf,
        WithHandle, AfterSetup, CloseStep, RescanStep, SendStep, TickStep, MoveStep;
      ghost var c := Now();
      var failed := None;
      if job.kind.OpenWallet? {
        if !a.present { failed := Some(NoSuchWallet); }
      } else {
        if a.present { failed := Some(WalletExists); }
      }
      if failed.None? && !a.handle { failed := Some(OpenFailed); }
      if failed.Some? {
        SetState(NoWallet);
        out := Err(failed.value);
        Next(c, AtOpen(Call, job, node, 0), a, Step(Now(), Idle(out)));
        Stops(Now(), out, a);
        return;
      }
      var h := |wallets|;
      wallets := wallets + [NewWallet(node)];
      if !a.statusOk {
        Next(c, AtOpen(Call, job, node, 0), a, Step(Now(), AtOpen(Discard(OpenFailed), job, node, h)));
        out := Discarded(OpenFailed, job, node, h, a);
        return;
      }
      Next(c, AtOpen(Call, job, node, 0), a, Step(Now(), AtOpen(CheckNetwork, job, node, h)));
      out := SetUp(job, node, h, a);
    }

    // A handle that will not do is closed again.
    method Discarded(code: Code, job: OpenJob, node: Node, h: nat, a: Answers) returns (out: Outcome)
      requires wallet.None? && h < |wallets|
      modifies this
      ensures Sound() && RunFrom(old(Now()), AtOpen(Discard(code), job, node, h), a) == Step(Now(), Idle(out))
    {
      hide NettypeOf, RunFrom, DialUrl, DialProxy, RouteOf,
        AfterSetup, CloseStep, RescanStep, SendStep, TickStep, MoveStep;
      ghost var c := Now();
      CloseWallet(h);
      Next(c, AtOpen(Discard(code), job, node, h), a, Step(Now(), AtOpen(GiveUp(code), job, node, h)));
      ghost var d := Now();
      SetState(NoWallet);
      out := Err(code);
      Next(d, AtOpen(GiveUp(code), job, node, h), a, Step(Now(), Idle(out)));
      Stops(Now(), out, a);
    }

    method CloseWallet(h: nat)
      requires h < |wallets|
      modifies this`wallets
      ensures Now() == SetWallet(old(Now()), h, old(wallets)[h].(closes := old(wallets)[h].closes + 1))
    {
      wallets := wallets[h := wallets[h].(closes := wallets[h].closes + 1)];
    }

    // The handle's network is checked and its daemon configured.
    method SetUp(job: OpenJob, node: Node, h: nat, a: Answers) returns (out: Outcome)
      requires wallet.None? && h < |wallets|
      modifies this
      ensures Sound() && RunFrom(old(Now()), AtOpen(CheckNetwork, job, node, h), a) == Step(Now(), Idle(out))
    {
      hide NettypeOf, RunFrom, HostPort, IsLoopback, DialUrl, DialProxy, RouteOf, AnyPoll,
        BeforeHandle, AfterSetup, CloseStep, RescanStep, SendStep, TickStep, MoveStep;
      ghost var c := Now();
      if a.nettype != NettypeOf(job.network) {
        Next(c, AtOpen(CheckNetwork, job, node, h), a, Step(c, AtOpen(Discard(WrongNetwork), job, node, h)));
        out := Discarded(WrongNetwork, job, node, h, a);
        return;
      }
      Next(c, AtOpen(CheckNetwork, job, node, h), a, Step(c, AtOpen(Init, job, node, h)));
      if !a.initOk {
        Next(c, AtOpen(Init, job, node, h), a, Step(c, AtOpen(Discard(InitFailed), job, node, h)));
        out := Discarded(InitFailed, job, node, h, a);
        return;
      }
      out := Dialled(job, node, h, a);
    }

    method Dialled(job: OpenJob, node: Node, h: nat, a: Answers) returns (out: Outcome)
      requires wallet.None? && h < |wallets| && a.initOk
      modifies this
      ensures Sound() && RunFrom(old(Now()), AtOpen(Init, job, node, h), a) == Step(Now(), Idle(out))
    {
      hide NettypeOf, RunFrom, HostPort, IsLoopback, DialUrl, DialProxy, RouteOf, AnyPoll,
        BeforeHandle, AfterSetup, CloseStep, RescanStep, SendStep, TickStep, MoveStep;
      ghost var c := Now();
      SetWallet2(h, InitTo(wallets[h], DialUrl(node), DialProxy(node)));
      Next(c, AtOpen(Init, job, node, h), a, Step(Now(), AtOpen(GoOffline, job, node, h)));
      out := Readied(job, node, h, a);
    }

    method Readied(job: OpenJob, node: Node, h: nat, a: Answers) returns (out: Outcome)
      requires wallet.None? && h < |wallets|
      modifies this
      ensures Sound() && RunFrom(old(Now()), AtOpen(GoOffline, job, node, h), a) == Step(Now(), Idle(out))
    {
      hide NettypeOf, RunFrom, HostPort, IsLoopback, DialUrl, DialProxy, RouteOf, AnyPoll,
        BeforeHandle, AfterSetup, CloseStep, RescanStep, SendStep, TickStep, MoveStep;
      ghost var c := Now();
      if RouteOf(node).WaitingForTor? { SetWallet2(h, wallets[h].(mode := Draining)); }
      Next(c, AtOpen(GoOffline, job, node, h), a, Step(Now(), AtOpen(Trust, job, node, h)));
      out := Trusted(job, node, h, a);
    }

    method Trusted(job: OpenJob, node: Node, h: nat, a: Answers) returns (out: Outcome)
      requires wallet.None? && h < |wallets|
      modifies this
      ensures Sound() && RunFrom(old(Now()), AtOpen(Trust, job, node, h), a) == Step(Now(), Idle(out))
    {
      hide NettypeOf, RunFrom, HostPort, IsLoopback, DialUrl, DialProxy, RouteOf, AnyPoll,
        BeforeHandle, AfterSetup, CloseStep, RescanStep, SendStep, TickStep, MoveStep;
      ghost var c := Now();
      var trusted := RouteOf(node).Direct? && node.trusted && IsLoopback(node.url);
      SetWallet2(h, wallets[h].(trusted := trusted));
      Next(c, AtOpen(Trust, job, node, h), a, Step(Now(), AtOpen(Connect, job, node, h)));
      out := ConnectAndInstall(job, node, h, a);
    }

    // Up to twenty times wallet2 is asked whether it has connected.
    method Poll(polls: seq<bool>) returns (up: bool)
      ensures up == AnyPoll(polls)
    {
      up := false;
      var i := 0;
      while i < 20 && !up
        invariant 0 <= i <= 20
        invariant up <==> exists j :: 0 <= j < |polls| && j < i && polls[j]
      {
        up := i < |polls| && polls[i];
        i := i + 1;
      }
    }

    method ConnectAndInstall(job: OpenJob, node: Node, h: nat, a: Answers) returns (out: Outcome)
      requires wallet.None? && h < |wallets|
      modifies this
      ensures Sound() && RunFrom(old(Now()), AtOpen(Connect, job, node, h), a) == Step(Now(), Idle(out))
    {
      hide NettypeOf, RunFrom, HostPort, IsLoopback, DialUrl, DialProxy, RouteOf, AnyPoll,
        BeforeHandle, AfterSetup, CloseStep, RescanStep, SendStep, TickStep, MoveStep;
      ghost var c := Now();
      if RouteOf(node).Tor? && node.torUse == "" {
        var up := Poll(a.polls);
        if !up && node.proxyRequired {
          Next(c, AtOpen(Connect, job, node, h), a, Step(c, AtOpen(Discard(Unreachable), job, node, h)));
          out := Discarded(Unreachable, job, node, h, a);
          return;
        }
      }
      Next(c, AtOpen(Connect, job, node, h), a, Step(c, AtOpen(Install, job, node, h)));
      out := Installed(job, node, h, a);
    }

    // The handle becomes the open wallet.
    method Installed(job: OpenJob, node: Node, h: nat, a: Answers) returns (out: Outcome)
      requires wallet.None? && h < |wallets|
      modifies this
      ensures Sound() && out == Okay && RunFrom(old(Now()), AtOpen(Install, job, node, h), a) == Step(Now(), Idle(out))
    {
      hide NettypeOf, RunFrom, HostPort, DialUrl, DialProxy, RouteOf,
        BeforeHandle, WithHandle, CloseStep, RescanStep, SendStep, TickStep, MoveStep;
      ghost var c := Now();
      wallet := Some(h);
      Next(c, AtOpen(Install, job, node, h), a, Step(Now(), AtOpen(Publish, job, node, h)));
      out := Published(job, node, h, a);
    }

    method Bookkeep(job: OpenJob, node: Node, now: Instant)
      modifies this
      ensures Now() == Opened(old(Now()), job, node, now) && wallet == old(wallet) && wallets == old(wallets)
    {
      hide HostPort, DialUrl, DialProxy, RouteOf;
      var to := RouteOf(node);
      network := job.network;
      SetRoute(to, if to.Tor? then DialProxy(node) else if to.WaitingForTor? then "" else HostPort(DialUrl(node)));
      SetReading(false, false, 0);
      SetProgress(0, now);
      SetTor(if to.Tor? then node.url else "", now);
      StartHistory(now);
    }

    method Published(job: OpenJob, node: Node, h: nat, a: Answers) returns (out: Outcome)
      requires wallet == Some(h) && h < |wallets|
      modifies this
      ensures Sound() && out == Okay && RunFrom(old(Now()), AtOpen(Publish, job, node, h), a) == Step(Now(), Idle(out))
    {
      hide Opened, NettypeOf, RunFrom, HostPort, DialUrl, DialProxy, RouteOf,
        BeforeHandle, WithHandle, CloseStep, RescanStep, SendStep, TickStep, MoveStep;
      ghost var c := Now();
      Bookkeep(job, node, a.now);
      Next(c, AtOpen(Publish, job, node, h), a, Step(Now(), AtOpen(Notify, job, node, h)));
      out := Announced(job, node, h, a);
    }

    method Announced(job: OpenJob, node: Node, h: nat, a: Answers) returns (out: Outcome)
      requires wallet == Some(h) && h < |wallets|
      modifies this
      ensures Sound() && out == Okay && RunFrom(old(Now()), AtOpen(Notify, job, node, h), a) == Step(Now(), Idle(out))
    {
      hide NettypeOf, RunFrom, HostPort, DialUrl, DialProxy, RouteOf,
        BeforeHandle, WithHandle, CloseStep, RescanStep, SendStep, TickStep, MoveStep;
      ghost var c := Now();
      NotifyOpen(job.network, true);
      assert locks == c.locks + {job.network};
      Next(c, AtOpen(Notify, job, node, h), a, Step(Now(), AtOpen(Finish, job, node, h)));
      c := Now();
      SetState(Syncing);
      out := Okay;
      Next(c, AtOpen(Finish, job, node, h), a, Step(Now(), Idle(out)));
      Stops(Now(), out, a);
    }

    // ---- doClose, doRescan ----

    method DoClose(a: Answers) returns (out: Outcome)
      requires Sound()
      modifies this
      ensures Sound() && RunFrom(old(Now()), AtClose(Detach, 0), a) == Step(Now(), Idle(out))
      ensures old(wallet).None? ==> out == Err(NoWalletOpen) && Now() == old(Now())
      ensures old(wallet).Some? ==>
        && out == (if a.closeOk then Okay else Err(CloseFailed))
        && wallet.None? && state.NoWallet? && pending == map[] && locks == old(locks) - {old(network)}
        && route.Direct? && dialPeer == "" && daemonHeight == 0 && !connected
        && old(wallet).value < |wallets| && wallets[old(wallet).value].closes == old(wallets[wallet.value]).closes + 1
    {
      if wallet.Some? { CloseEnds(Now(), a); }
      hide RunFrom, DroppedFates,
        OpenStep, BeforeHandle, WithHandle, AfterSetup, RescanStep, SendStep, TickStep, MoveStep;
      ghost var c := Now();
      if wallet.None? {
        out := Err(NoWalletOpen);
        Next(c, AtClose(Detach, 0), a, Step(c, Idle(out)));
        Stops(c, out, a);
        return;
      }
      SetState(Closing);
      var w := wallet.value;
      DropAll();
      Next(c, AtClose(Detach, 0), a, Step(Now(), AtClose(CloseHandle, w)));
      out := CloseDown(w, a);
    }

    // wallet2 closes the handle, out of the lock; then the fields and the settings lock.
    method CloseDown(w: nat, a: Answers) returns (out: Outcome)
      requires wallet.None? && w < |wallets|
      modifies this
      ensures Sound() && RunFrom(old(Now()), AtClose(CloseHandle, w), a) == Step(Now(), Idle(out))
    {
      hide RunFrom, DroppedFates,
        OpenStep, BeforeHandle, WithHandle, AfterSetup, RescanStep, SendStep, TickStep, MoveStep;
      ghost var c := Now();
      CloseWallet(w);
      Next(c, AtClose(CloseHandle, w), a, Step(Now(), AtClose(Forget, w)));
      c := Now();
      var closing := network;
      SetRoute(Direct, "");
      SetReading(false, false, 0);
      Next(c, AtClose(Forget, w), a, Step(Now(), AtClose(Unlock, w)));
      c := Now();
      NotifyOpen(closing, false);
      assert locks == c.locks - {c.network};
      Next(c, AtClose(Unlock, w), a, Step(Now(), AtClose(Leave, w)));
      c := Now();
      SetState(NoWallet);
      out := if a.closeOk then Okay else Err(CloseFailed);
      Next(c, AtClose(Leave, w), a, Step(Now(), Idle(out)));
      Stops(Now(), out, a);
    }

    method DropAll()
      modifies this`wallet, this`pending, this`fates
      ensures Now() == old(Now()).(wallet := None, pending := map[], fates := DroppedFates(old(fates), old(pending)))
    {
      hide DroppedFates;
      fates := DroppedFates(fates, pending);
      wallet, pending := None, map[];
    }

    method DoRescan(a: Answers) returns (out: Outcome)
      requires Sound()
      modifies this`state
      ensures Sound() && RunFrom(old(Now()), AtRescan(false), a) == Step(Now(), Idle(out))
      ensures out == if wallet.Some? then Okay else Err(NoWalletOpen)
      ensures state == if wallet.Some? then Syncing else old(state)
    {
      hide RunFrom,
        OpenStep, BeforeHandle, WithHandle, AfterSetup, CloseStep, SendStep, TickStep, MoveStep;
      ghost var c := Now();
      if wallet.None? {
        out := Err(NoWalletOpen);
        Next(c, AtRescan(false), a, Step(c, Idle(out)));
        Stops(c, out, a);
        return;
      }
      Next(c, AtRescan(false), a, Step(c, AtRescan(true)));
      SetState(Syncing);
      out := Okay;
      Next(c, AtRescan(true), a, Step(Now(), Idle(out)));
      Stops(Now(), out, a);
    }

    // ---- doCreateTransaction, doCommit, doDispose, doChangePassword ----

    method Send(h: nat, purpose: Purpose)
      requires h < |wallets|
      modifies this`wallets
      ensures Now() == Sent(old(Now()), h, purpose)
    {
      if !CanIssue(wallets[h]) { return; }
      wallets := wallets[h := wallets[h].(log := wallets[h].log + [Request(purpose, wallets[h].url, wallets[h].proxy)])];
    }

    method DoCreateTransaction(amount: string, address: string, a: Answers) returns (out: Outcome)
      requires Sound()
      modifies this
      ensures Sound() && CreateStep(old(Now()), amount, address, a) == Step(Now(), Idle(out))
      ensures out.Okay? ==> Address.IsAddress(address, network) && !SendsWait(old(Now())) && TxKey(old(nextTx)) in pending
      ensures var open, waits := old(wallet.Some?), old(route.CatchUp? || route.WaitingForTor?);
        var asked, known := open && !waits && !a.watchOnly, Address.IsAddress(address, old(network));
        && (out == Err(NoWalletOpen) <==> !open)
        && (out == Err(WaitsForTor) <==> open && waits)
        && (out == Err(ViewOnly) <==> open && !waits && a.watchOnly)
        && (out == Err(BadAmount) <==> asked && !IsAmount(amount))
        && (out == Err(BadAddress) <==> asked && IsAmount(amount) && !known)
        && (out == Okay <==> asked && IsAmount(amount) && known && a.built.Good?)
      ensures pending == if out.Okay? then old(pending)["tx" + Decimal.Text(old(nextTx)) := old(wallet).value] else old(pending)
    {
      hide Address.IsAddress, IsAmount, TxKey, CreateStep;
      CreateEnds(Now(), amount, address, a);
      TxKeyIs(nextTx);
      out := BuildTransaction(amount, address, a);
      assert pending == Now().pending;
    }

    method BuildTransaction(amount: string, address: string, a: Answers) returns (out: Outcome)
      requires Sound()
      modifies this
      ensures Sound() && CreateStep(old(Now()), amount, address, a) == Step(Now(), Idle(out))
      ensures out.Okay? ==> Address.IsAddress(address, network) && !SendsWait(old(Now())) && TxKey(old(nextTx)) in pending
    {
      hide Address.IsAddress, ParseAtomic, TxKey;
      if wallet.None? { return Err(NoWalletOpen); }
      if route.CatchUp? || route.WaitingForTor? { return Err(WaitsForTor); }
      if a.watchOnly { return Err(ViewOnly); }
      var units := ParseAtomic(amount);
      if units.None? || units.value == 0 { return Err(BadAmount); }
      var ok := Address.Valid(address, network);
      if !ok { return Err(BadAddress); }
      var h := wallet.value;
      Send(h, Create);
      if a.built.Nothing? { return Err(BuiltNothing); }
      if a.built.Bad? { return Err(BuildFailed); }
      var k := TxKey(nextTx);
      Keep(k, h);
      out := Okay;
    }

    method Keep(k: string, h: nat)
      modifies this`nextTx, this`pending, this`fates
      ensures Now() ==
        old(Now()).(nextTx := old(nextTx) + 1, pending := old(pending)[k := h], fates := old(fates)[k := Live(h)])
    {
      nextTx, pending, fates := nextTx + 1, pending[k := h], fates[k := Live(h)];
    }

    method Drop(k: string, fate: Fate)
      modifies this`pending, this`fates
      ensures Now() == old(Now()).(pending := old(pending) - {k}, fates := old(fates)[k := fate])
    {
      pending, fates := pending - {k}, fates[k := fate];
    }

    method DoCommit(k: string, a: Answers) returns (out: Outcome)
      requires Sound()
      modifies this
      ensures Sound() && CommitStep(old(Now()), k, a) == Step(Now(), Idle(out))
      ensures out.Okay? <==> old(wallet.Some? && k in pending && !SendsWait(Now())) && a.commitOk
      ensures out == Err(NoWalletOpen) <==> old(wallet).None?
      ensures out == Err(WaitsForTor) <==> old(wallet.Some? && (route.CatchUp? || route.WaitingForTor?))
      ensures out == Okay <==> old(wallet.Some? && (route.Direct? || route.Tor?) && k in pending) && a.commitOk
      ensures pending == if out.Okay? then old(pending) - {k} else old(pending)
      ensures out.Okay? ==> k !in pending
    {
      CommitEnds(Now(), k, a);
      if wallet.None? { return Err(NoWalletOpen); }
      if route.CatchUp? || route.WaitingForTor? { return Err(WaitsForTor); }
      if k !in pending { return Err(UnknownHandle); }
      Send(wallet.value, Commit);
      if !a.commitOk { return Err(CommitFailed); }
      Drop(k, Committed);
      commits := commits + [k];
      out := Okay;
    }

    method DoDispose(k: string) returns (out: Outcome)
      requires Sound()
      modifies this`pending, this`fates
      ensures Sound() && DisposeStep(old(Now()), k) == Step(Now(), Idle(out))
      ensures out.Okay? <==> k in old(pending)
      ensures k !in pending && pending == old(pending) - {k}
    {
      if k !in pending { return Err(UnknownHandle); }
      Drop(k, Disposed);
      out := Okay;
    }

    method DoChangePassword(a: Answers) returns (out: Outcome)
      requires Sound()
      ensures PasswordStep(Now(), a) == Step(Now(), Idle(out))
      ensures out.Okay? <==> wallet.Some? && a.oldPasswordOk && a.passwordSet
      ensures out == Err(WrongPassword) <==> wallet.Some? && !a.oldPasswordOk
    {
      if wallet.None? { return Err(NoWalletOpen); }
      if !a.oldPasswordOk { return Err(WrongPassword); }
      if !a.passwordSet { return Err(PasswordKept); }
      out := Okay;
    }

    // ---- tick and moveToTor ----

    method TickOnce(a: Answers)
      requires Sound()
      modifies this
      ensures Sound() && RunJob(old(Now()), Worker.Job.Tick, a) == Step(Now(), Idle(Okay))
      ensures old(wallet).Some? ==> Decides(old(Now()), a.synced, a.height, a, route)
      ensures old(wallet.Some? && (state.Syncing? || state.Ready?)) ==> state == if a.synced then Ready else Syncing
    {
      hide RunFrom, Decides, Reset;
      if wallet.Some? { TickEnds(Now(), a); }
      TickThrough(a);
    }

    method TickThrough(a: Answers)
      requires Sound()
      modifies this
      ensures Sound() && RunJob(old(Now()), Worker.Job.Tick, a) == Step(Now(), Idle(Okay))
    {
      hide RunFrom, TorReady,
        OpenStep, BeforeHandle, WithHandle, AfterSetup, CloseStep, RescanStep, SendStep, MoveStep;
      ResetLocksOnce();
      ghost var c := Now();
      if wallet.None? {
        Next(c, TickRead, a, Step(c, Idle(Okay)));
        Stops(c, Okay, a);
        return;
      }
      Next(c, TickRead, a, Step(c, TickNote(a.synced, a.height)));
      Noted(a.synced, a.height, a);
      c := Now();
      if state.Syncing? && a.synced {
        SetState(Ready);
      } else if state.Ready? && !a.synced {
        SetState(Syncing);
      }
      Next(c, TickFlip(a.synced), a, Step(Now(), Idle(Okay)));
      Stops(Now(), Okay, a);
    }

    // The progress fields, and whether this tick moves the wallet to Tor.
    method Note(height: nat, now: Instant)
      modifies this
      ensures Now() == Ticked(old(Now()), height, now)
    {
      if height > progressHeight { SetProgress(height, now); }
      if route.Tor? && now - torAskedAt >= TOR_ASK_EVERY { SetTor(torUrl, now); }
      RecordTick(now, height);
    }

    method Noted(synced: bool, height: nat, a: Answers)
      requires Sound() && wallet.Some?
      modifies this
      ensures Sound() && RunFrom(old(Now()), TickNote(synced, height), a) == RunFrom(Now(), TickFlip(synced), a)
    {
      hide RunFrom, TorReady,
        OpenStep, BeforeHandle, WithHandle, AfterSetup, CloseStep, RescanStep, SendStep, MoveStep;
      ghost var c := Now();
      var askTor := route.Tor? && a.now - torAskedAt >= TOR_ASK_EVERY;
      var bound := torUrl;
      Note(height, a.now);
      var stuck := route.CatchUp? && !synced && a.now - progressAt > GIVE_UP;
      if (route.CatchUp? && (synced || stuck)) || route.WaitingForTor? {
        Next(c, TickNote(synced, height), a,
          Step(Now(), AtMove(ReadRoute, synced, stuck && !synced, None, Direct, NO_NODE, false)));
        MoveToTor(synced, stuck && !synced, None, a);
      } else if askTor {
        Next(c, TickNote(synced, height), a, Step(Now(), TickAsk(synced, network, bound)));
        AskTor(synced, bound, a);
      } else {
        Next(c, TickNote(synced, height), a, Step(Now(), TickFlip(synced)));
      }
    }

    // On Tor the node module is asked again: another onion is moved to.
    method AskTor(synced: bool, bound: string, a: Answers)
      requires Sound() && wallet.Some?
      modifies this
      ensures Sound() && RunFrom(old(Now()), TickAsk(synced, old(network), bound), a) == RunFrom(Now(), TickFlip(synced), a)
    {
      hide RunFrom, TorReady,
        OpenStep, BeforeHandle, WithHandle, AfterSetup, CloseStep, RescanStep, SendStep, MoveStep;
      ghost var c := Now();
      var node := a.node;
      if TorReady(node) && node.url != bound {
        Next(c, TickAsk(synced, network, bound), a,
          Step(c, AtMove(ReadRoute, synced, false, Some(node), Direct, NO_NODE, false)));
        MoveToTor(synced, false, Some(node), a);
      } else {
        Next(c, TickAsk(synced, network, bound), a, Step(c, TickFlip(synced)));
      }
    }

    method MoveToTor(synced: bool, abandon: bool, given: Option<Node>, a: Answers)
      requires Sound() && wallet.Some?
      modifies this
      ensures Sound()
      ensures RunFrom(old(Now()), AtMove(ReadRoute, synced, abandon, given, Direct, NO_NODE, false), a)
        == RunFrom(Now(), TickFlip(synced), a)
    {
      hide RunFrom, TorReady, HostPort,
        OpenStep, BeforeHandle, WithHandle, AfterSetup, CloseStep, RescanStep, SendStep, TickStep;
      ghost var c := Now();
      ghost var pc := AtMove(ReadRoute, synced, abandon, given, Direct, NO_NODE, false);
      var from := route;
      Next(c, pc, a, Step(c, pc.(move := Resolve, from := from)));
      pc := pc.(move := Resolve, from := from);
      var node := if given.Some? then given.value else a.node;
      var ready := TorReady(node);
      if !ready && from.WaitingForTor? {
        Next(c, pc, a, Step(c, TickFlip(synced)));
        return;
      }
      Next(c, pc, a, Step(c, pc.(move := Quiet, target := node)));
      pc := pc.(move := Quiet, target := node);
      Redirect(pc, node, a);
    }

    // Offline first; then the new daemon, and the bookkeeping.
    method Redirect(ghost pc: Pc, node: Node, a: Answers)
      requires Sound() && wallet.Some? && pc.AtMove? && pc.move.Quiet? && pc.target == node
      modifies this
      ensures Sound() && RunFrom(old(Now()), pc, a) == RunFrom(Now(), TickFlip(pc.synced), a)
    {
      hide RunFrom, TorReady, HostPort, MoveStep,
        OpenStep, BeforeHandle, WithHandle, AfterSetup, CloseStep, RescanStep, SendStep, TickStep;
      Quieten(pc, a);
      var moved := Redialled(pc.(move := Redial), node, a);
      Record(pc.(move := Settle, moved := moved), node, moved, a);
    }

    // Nothing more goes out: offline, then the request in flight waited out.
    method Quieten(ghost pc: Pc, a: Answers)
      requires Sound() && wallet.Some? && pc.AtMove? && pc.move.Quiet?
      modifies this`wallets
      ensures Sound() && RunFrom(old(Now()), pc, a) == RunFrom(Now(), pc.(move := Redial), a)
    {
      hide RunFrom, TorReady, HostPort, MoveStep,
        OpenStep, BeforeHandle, WithHandle, AfterSetup, CloseStep, RescanStep, SendStep, TickStep;
      Pause(pc, a);
      Flush(pc.(move := Drain), a);
    }

    method Pause(ghost pc: Pc, a: Answers)
      requires Sound() && wallet.Some? && pc.AtMove? && pc.move.Quiet?
      modifies this`wallets
      ensures Sound() && RunFrom(old(Now()), pc, a) == RunFrom(Now(), pc.(move := Drain), a)
    {
      hide RunFrom, TorReady, HostPort, RedialStep, SettleStep, Hushed,
        OpenStep, BeforeHandle, WithHandle, AfterSetup, CloseStep, RescanStep, SendStep, TickStep;
      ghost var c := Now();
      var w := wallets[wallet.value];
      SetWallet2(wallet.value, w.(mode := if w.mode.Offline? then Offline else Draining));
      Next(c, pc, a, Step(Now(), pc.(move := Drain)));
    }

    method Flush(ghost pc: Pc, a: Answers)
      requires Sound() && wallet.Some? && pc.AtMove? && pc.move.Drain?
      modifies this`wallets
      ensures Sound() && RunFrom(old(Now()), pc, a) == RunFrom(Now(), pc.(move := Redial), a)
    {
      hide RunFrom, TorReady, HostPort,
        OpenStep, BeforeHandle, WithHandle, AfterSetup, CloseStep, RescanStep, SendStep, TickStep;
      ghost var c := Now();
      SetWallet2(wallet.value, Hushed(wallets[wallet.value]));
      Next(c, pc, a, Step(Now(), pc.(move := Redial)));
    }

    // The new daemon, dialled through its proxy.
    method Redialled(ghost pc: Pc, node: Node, a: Answers) returns (moved: bool)
      requires Sound() && wallet.Some? && pc.AtMove? && pc.move.Redial? && pc.target == node
      modifies this`wallets
      ensures Sound() && moved == (TorReady(node) && a.initOk)
      ensures RunFrom(old(Now()), pc, a) == RunFrom(Now(), pc.(move := Settle, moved := moved), a)
    {
      hide RunFrom, TorReady, HostPort,
        OpenStep, BeforeHandle, WithHandle, AfterSetup, CloseStep, RescanStep, SendStep, TickStep;
      ghost var c := Now();
      var h := wallet.value;
      moved := false;
      if TorReady(node) {
        if a.initOk {
          SetWallet2(h, InitTo(wallets[h], node.url, HostPort(node.proxy)));
          Next(c, pc, a, Step(Now(), pc.(move := Distrust)));
          moved := true;
          ComeOnline(pc.(move := Distrust), a);
        } else {
          SetWallet2(h, wallets[h].(url := a.wild.0, proxy := a.wild.1));
          Next(c, pc, a, Step(Now(), pc.(move := Settle, moved := false)));
        }
      } else {
        Next(c, pc, a, Step(c, pc.(move := Settle, moved := false)));
      }
    }

    method ComeOnline(ghost pc: Pc, a: Answers)
      requires Sound() && wallet.Some? && pc.AtMove? && pc.move.Distrust?
      modifies this`wallets
      ensures Sound() && RunFrom(old(Now()), pc, a) == RunFrom(Now(), pc.(move := Settle, moved := true), a)
    {
      hide RunFrom, TorReady, HostPort,
        OpenStep, BeforeHandle, WithHandle, AfterSetup, CloseStep, RescanStep, SendStep, TickStep;
      ghost var c := Now();
      var h := wallet.value;
      SetWallet2(h, wallets[h].(trusted := false));
      Next(c, pc, a, Step(Now(), pc.(move := Resume)));
      c := Now();
      SetWallet2(h, wallets[h].(mode := Online));
      Next(c, pc.(move := Resume), a, Step(Now(), pc.(move := Settle, moved := true)));
    }

    method Record(ghost pc: Pc, node: Node, moved: bool, a: Answers)
      requires Sound() && wallet.Some? && pc.AtMove? && pc.move.Settle? && pc.moved == moved && pc.target == node
      modifies this
      ensures Sound() && RunFrom(old(Now()), pc, a) == RunFrom(Now(), TickFlip(pc.synced), a)
    {
      hide RunFrom, HostPort,
        OpenStep, BeforeHandle, WithHandle, AfterSetup, CloseStep, RescanStep, SendStep, TickStep;
      ghost var c := Now();
      SetRoute(if moved then Route.Tor else WaitingForTor, if moved then HostPort(node.proxy) else "");
      SetProgress(progressHeight, a.later);
      SetTor(if moved then node.url else "", a.later);
      SetReading(probed, false, daemonHeight);
      SetWallet2(wallet.value, wallets[wallet.value].(moved := true));
      Next(c, pc, a, Step(Now(), TickFlip(pc.synced)));
    }

    // ---- run: the worker's turn with a job ----

    // The invariant of the whole runtime, with no section at work and nothing assumed of the world.
    ghost predicate Valid()
      reads this
    {
      CoreInv(Now(), Idle(Okay), ANY_WORLD) && HeightFits(Now(), Asleep)
    }

    method Run(job: Job, a: Answers) returns (out: Outcome)
      requires Valid() && (job.Tick? || dirSet)
      modifies this
      ensures Valid() && Step(Now(), Idle(out)) == RunJob(old(Now()), job, a) && (old(dirSet) ==> dirSet)
    {
      hide CoreInv, HeightFits, RunFrom, CreateStep, CommitStep, DisposeStep, PasswordStep;
      JobKeeps(Now(), job, a, ANY_WORLD);
      IsSound();
      ghost var was := Now();
      if job.Tick? {
        TickOnce(a);
        out := Okay;
      } else {
        ResetLocksOnce();
        out := Dispatch(job, a);
      }
      IdleAlike(Now(), out, ANY_WORLD);
    }

    lemma IsSound()
      requires Valid()
      ensures Sound()
    {}

    method Dispatch(job: Job, a: Answers) returns (out: Outcome)
      requires Sound() && !job.Tick?
      modifies this
      ensures Sound() && RunFrom(old(Now()), Entry(job), a) == Step(Now(), Idle(out))
    {
      hide RunFrom, CreateStep, CommitStep, DisposeStep, PasswordStep,
        OpenStep, CloseStep, RescanStep, TickStep, MoveStep;
      ghost var c := Now();
      match job
      case OpenLike(open) => out := DoOpenLike(open, a);
      case Close => out := DoClose(a);
      case Rescan => out := DoRescan(a);
      case CreateTransaction(amount, address) =>
        out := DoCreateTransaction(amount, address, a);
        Answered(c, job, a, out);
      case CommitTransaction(k) =>
        out := DoCommit(k, a);
        Answered(c, job, a, out);
      case DisposeTransaction(k) =>
        out := DoDispose(k);
        Answered(c, job, a, out);
      case ChangePassword =>
        out := DoChangePassword(a);
        Answered(c, job, a, out);
    }

    // A job of one section is done after it.
    lemma Answered(c: Core, job: Job, a: Answers, out: Outcome)
      requires Entry(job) == AtSend(job) && Fits(c, AtSend(job)) && SendStep(c, job, a) == Step(Now(), Idle(out)) && Sound()
      ensures RunFrom(c, Entry(job), a) == Step(Now(), Idle(out))
    {
      hide RunFrom, SendStep, OpenStep, CloseStep, RescanStep, TickStep, MoveStep;
      Next(c, AtSend(job), a, Step(Now(), Idle(out)));
      Stops(Now(), out, a);
    }

    // ---- setWalletsDir, the probe's pass, shutdown ----

    method SetWalletsDir()
      requires Valid()
      modifies this`dirSet
      ensures Valid() && Now() == old(Now()).(dirSet := true)
    {
      hide CoreInv, HeightFits;
      DirSetFits(Now());
      dirSet := true;
    }

    method ProbePass(sockets: bool, synced: bool, height: nat)
      requires Valid()
      modifies this
      ensures Valid() && Now() == Probed(old(Now()), sockets, synced, height)
      ensures old(wallet).Some? ==>
        && probed && connected == (old(dialPeer) != "" && sockets)
        && daemonHeight == if connected && synced && height != 0 then height else old(daemonHeight)
      ensures old(wallet).None? ==> Now() == old(Now())
    {
      hide CoreInv, HeightFits;
      ProbedFits(Now(), sockets, synced, height);
      if wallet.None? { return; }
      var peer := dialPeer;
      var up := peer != "" && sockets;
      var read := if up && synced then height else 0;
      if read != 0 { heightFrom := wallet.value; }
      SetReading(true, up, if read != 0 then read else daemonHeight);
    }

    // Every handle is closed, and the instance is done with.
    method Shutdown()
      requires Valid()
      modifies this
      ensures Now() == Closed(old(Now())) && DownInv(Now(), Idle(Okay), ANY_WORLD)
    {
      hide CoreInv, DownInv, HeightFits;
      IsSound();
      ShutdownFits(Now());
      if wallet.None? { return; }
      CloseWallet(wallet.value);
      wallet := None;
    }
  }

  lemma ProbedFits(c: Core, sockets: bool, synced: bool, height: nat)
    requires CoreInv(c, Idle(Okay), ANY_WORLD) && HeightFits(c, Asleep)
    ensures var d := Probed(c, sockets, synced, height); CoreInv(d, Idle(Okay), ANY_WORLD) && HeightFits(d, Asleep)
  {
    hide PlaceFits, StateFits, SessionFits, PendingFits, PaceFits, LocksFit, WalletsFit, HandlesFit, Legal, After;
    var s := AtRest(c);
    PassIsRun(s, sockets, synced, height, ANY_WORLD);
    var acts :=
      if c.wallet.None? then [ProbeWake]
      else [ProbeWake] + ([ProbePeer] + ([ProbeMeasure(sockets, synced, height)] + [ProbeWrite]));
    RunKeeps(s, acts, ANY_WORLD);
  }

  lemma ShutdownFits(c: Core)
    requires CoreInv(c, Idle(Okay), ANY_WORLD) && HeightFits(c, Asleep)
    ensures DownInv(Closed(c), Idle(Okay), ANY_WORLD)
  {
    hide HandlesFit, WalletsFit, PlaceFits, StateFits, SessionFits, PendingFits, PaceFits, LocksFit;
    ShutdownKeeps(AtRest(c), ANY_WORLD);
  }

  lemma DirSetFits(c: Core)
    requires CoreInv(c, Idle(Okay), ANY_WORLD) && HeightFits(c, Asleep)
    ensures CoreInv(c.(dirSet := true), Idle(Okay), ANY_WORLD) && HeightFits(c.(dirSet := true), Asleep)
  {
    hide HandlesFit, WalletsFit, PlaceFits, StateFits, SessionFits, PendingFits, PaceFits, LocksFit;
    OtherKeeps(AtRest(c), SetDir, ANY_WORLD);
  }

  lemma OpensOnce(c: Core, job: OpenJob, a: Answers)
    ensures Refusal(c, AtOpen(Policy, job, NO_NODE, 0), a).None? ==> c.wallet.None?
  {
    hide PolicyError;
  }

  // What one pass of the probe leaves, with nothing in between.
  function Probed(c: Core, sockets: bool, synced: bool, height: nat): Core {
    if c.wallet.None? then c else
      var up := c.dialPeer != "" && sockets;
      var d := c.(probed := true, connected := up);
      if up && synced && height != 0 then d.(daemonHeight := height, heightFrom := c.wallet.value) else d
  }

  lemma PassIsRun(s: System, sockets: bool, synced: bool, height: nat, m: World)
    requires !s.down && s.probe.Asleep? && s.pc.Idle? && !s.writer && Fits(s.c, s.pc)
    ensures var acts :=
        if s.c.wallet.None? then [ProbeWake]
        else [ProbeWake] + ([ProbePeer] + ([ProbeMeasure(sockets, synced, height)] + [ProbeWrite]));
      && Legal(s, acts, m)
      && After(s, acts, m) ==
           if s.c.wallet.None? then s
           else s.(c := Probed(s.c, sockets, synced, height), measured := s.c.dialPeer, early := false)
  {
    hide Legal, After;
    var s1 := Do(s, ProbeWake);
    if s.c.wallet.None? {
      One(s, ProbeWake, m);
    } else {
      var measure := ProbeMeasure(sockets, synced, height);
      var s2 := Do(s1, ProbePeer);
      var s3 := Do(s2, measure);
      One(s3, ProbeWrite, m);
      Prepend(s2, measure, [ProbeWrite], m);
      Prepend(s1, ProbePeer, [measure] + [ProbeWrite], m);
      Prepend(s, ProbeWake, [ProbePeer] + ([measure] + [ProbeWrite]), m);
    }
  }
}
