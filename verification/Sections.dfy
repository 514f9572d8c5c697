// One lemma for each section of the worker: it keeps the invariant and rewrites no history.
module Sections {
  import opened Bytes
  import opened Text
  import opened Worker
  import opened System
  import opened Invariant
  import Address
  import Decimal

  // A tick while catching up comes soon after the one before, and its height is in bounds.
  predicate Timely(c: Core, pc: Pc, a: Answers, m: World) {
    pc.TickNote? && c.route.CatchUp? ==> c.lastTick <= a.now <= c.lastTick + m.gap && pc.height <= m.ceiling
  }

  // Before a section: the invariant, and what its locks and the world grant.
  ghost predicate Poised(c: Core, pc: Pc, a: Answers, p: Probe, m: World) {
    && CoreInv(c, pc, m) && HeightFits(c, p) && (TakesUnique(pc) ==> p.Asleep?)
    && (m.hosts ==> HasHost(a.node)) && (m.paced ==> Timely(c, pc, a, m))
  }

  // After it: the invariant again, and the past as it was.
  ghost predicate Kept(c: Core, t: Step, p: Probe, m: World) {
    && CoreInv(t.c, t.pc, m) && HeightFits(t.c, p)
    && AllGrow(c.wallets, t.c.wallets) && Final(c.fates, c.commits, t.c.fates, t.c.commits)
    && (c.locksReset ==> t.c.locksReset) && t.c.dirSet == c.dirSet
  }

  // ---- The wallets, one changed, one added, one closed ----

  lemma Rewritten(ws: seq<Wallet2>, h: nat, w: Wallet2, wallet: Option<nat>, owned: Option<nat>, hosts: bool)
    requires h < |ws| && w.closes == ws[h].closes && HandlesFit(ws, wallet, owned) && WalletsFit(ws, hosts)
    requires WalletFits(w, hosts) && Grows(ws[h], w)
    ensures HandlesFit(ws[h := w], wallet, owned) && WalletsFit(ws[h := w], hosts) && AllGrow(ws, ws[h := w])
  {
    hide WalletFits;
  }

  lemma Added(ws: seq<Wallet2>, w: Wallet2, hosts: bool)
    requires w.closes == 0 && HandlesFit(ws, None, None) && WalletsFit(ws, hosts) && WalletFits(w, hosts)
    ensures HandlesFit(ws + [w], None, Some(|ws|)) && WalletsFit(ws + [w], hosts) && AllGrow(ws, ws + [w])
  {
    hide WalletFits;
  }

  lemma ClosedOnce(ws: seq<Wallet2>, h: nat, hosts: bool)
    requires h < |ws| && HandlesFit(ws, None, Some(h)) && WalletsFit(ws, hosts)
    ensures var us := ws[h := ws[h].(closes := ws[h].closes + 1)];
      HandlesFit(us, None, None) && WalletsFit(us, hosts) && AllGrow(ws, us)
  {
    assert WalletFits(ws[h], hosts);
    assert WalletFits(ws[h].(closes := ws[h].closes + 1), hosts) by { hide CutAt, Straight, AllProxied, IsLoopback, RouteOf, HostPort; }
    hide WalletFits;
  }

  // Closing a wallet drops whatever it had built.
  lemma AllDropped(c: Core)
    requires PendingFits(c.wallet, c.pending, c.nextTx, c.fates, c.commits)
    ensures PendingFits(None, map[], c.nextTx, DroppedFates(c.fates, c.pending), c.commits)
    ensures Final(c.fates, c.commits, DroppedFates(c.fates, c.pending), c.commits)
  {
    hide TxKey;
  }

  lemma NewFits(n: Node, hosts: bool)
    ensures WalletFits(NewWallet(n), hosts)
  {
    hide IsLoopback, RouteOf, HostPort;
  }

  lemma InitFits(w: Wallet2, n: Node, hosts: bool)
    requires WalletFits(w, hosts) && SetUpFits(w, Init, n) && (hosts ==> HasHost(n))
    ensures var v := InitTo(w, DialUrl(n), DialProxy(n)); WalletFits(v, hosts) && SetUpFits(v, GoOffline, n)
  {
    hide IsLoopback, HostPort;
  }

  lemma OfflineFits(w: Wallet2, n: Node, hosts: bool)
    requires WalletFits(w, hosts) && SetUpFits(w, GoOffline, n) && RouteOf(n).WaitingForTor?
    ensures var v := w.(mode := Draining); WalletFits(v, hosts) && SetUpFits(v, Trust, n)
  {
    hide IsLoopback, HostPort, RouteOf, DialUrl, DialProxy;
  }

  lemma TrustFits(w: Wallet2, trusted: bool, n: Node, hosts: bool)
    requires WalletFits(w, hosts) && SetUpFits(w, Trust, n)
    requires trusted ==> RouteOf(n).Direct? && IsLoopback(n.url)
    ensures var v := w.(trusted := trusted); WalletFits(v, hosts) && SetUpFits(v, Connect, n)
  {
    hide IsLoopback, HostPort, RouteOf, DialProxy, CutAt, Straight, AllProxied;
  }

  lemma FitsAt(ws: seq<Wallet2>, h: nat, hosts: bool)
    requires h < |ws| && WalletsFit(ws, hosts)
    ensures WalletFits(ws[h], hosts)
  {
    hide WalletFits;
  }

  // The worker's handle becomes the open wallet, or the other way round.
  lemma Installed(ws: seq<Wallet2>, h: nat)
    ensures HandlesFit(ws, Some(h), None) <==> HandlesFit(ws, None, Some(h))
  {}

  lemma SamePast(c: Core)
    ensures AllGrow(c.wallets, c.wallets) && Final(c.fates, c.commits, c.fates, c.commits)
  {}

  // ---- doOpenLike ----

  lemma PolicyKeeps(c: Core, pc: Pc, a: Answers, p: Probe, m: World)
    requires pc.AtOpen? && pc.open.Policy? && Poised(c, pc, a, p, m)
    ensures Kept(c, BeforeHandle(c, pc, a), p, m)
  {
    hide PaceFits, HandlesFit, WalletsFit, AllGrow, WalletFits, Final, HostPort, IsLoopback, NameOk, NettypeOf,
      AnyPoll, DialUrl, DialProxy, RouteOf, PendingFits;
    SamePast(c);
  }

  lemma GuardKeeps(c: Core, pc: Pc, a: Answers, p: Probe, m: World)
    requires pc.AtOpen? && pc.open.Guard? && Poised(c, pc, a, p, m)
    ensures Kept(c, BeforeHandle(c, pc, a), p, m)
  {
    hide PaceFits, HandlesFit, WalletsFit, AllGrow, WalletFits, Final, HostPort, IsLoopback, NameOk, NettypeOf,
      AnyPoll, DialUrl, DialProxy, RouteOf, PolicyError, PendingFits;
    SamePast(c);
  }

  lemma AnnounceKeeps(c: Core, pc: Pc, a: Answers, p: Probe, m: World)
    requires pc.AtOpen? && pc.open.Announce? && Poised(c, pc, a, p, m)
    ensures Kept(c, BeforeHandle(c, pc, a), p, m)
  {
    hide PaceFits, HandlesFit, WalletsFit, AllGrow, WalletFits, Final, HostPort, IsLoopback, NameOk, NettypeOf,
      AnyPoll, DialUrl, DialProxy, RouteOf, PolicyError, PendingFits;
    SamePast(c);
  }

  lemma FailKeeps(c: Core, pc: Pc, code: Code, a: Answers, p: Probe, m: World)
    requires pc.AtOpen? && (pc.open.Call? || pc.open.GiveUp?) && Poised(c, pc, a, p, m)
    ensures Kept(c, Fail(c, code), p, m)
  {
    hide PaceFits, HandlesFit, WalletsFit, AllGrow, WalletFits, Final, HostPort, IsLoopback, NameOk, NettypeOf,
      AnyPoll, DialUrl, DialProxy, RouteOf, PendingFits, Lineage, Agrees, SetUpFits, MoveFits;
    SamePast(c);
  }

  lemma CallRefusedKeeps(c: Core, pc: Pc, a: Answers, p: Probe, m: World)
    requires pc.AtOpen? && pc.open.Call? && (pc.job.kind.OpenWallet? != a.present || !a.handle) && Poised(c, pc, a, p, m)
    ensures Kept(c, BeforeHandle(c, pc, a), p, m)
  {
    hide PaceFits, Kept, HandlesFit, WalletsFit, AllGrow, WalletFits, Final, DialUrl, DialProxy, RouteOf,
      PendingFits, Lineage, Agrees, MoveFits, SetUpFits, LocksFit, StateFits, PlaceFits;
    var code :=
      if pc.job.kind.OpenWallet? && !a.present then NoSuchWallet
      else if !pc.job.kind.OpenWallet? && a.present then WalletExists
      else OpenFailed;
    assert BeforeHandle(c, pc, a) == Fail(c, code);
    FailKeeps(c, pc, code, a, p, m);
  }

  lemma CallAnsweredKeeps(c: Core, pc: Pc, a: Answers, p: Probe, m: World)
    requires pc.AtOpen? && pc.open.Call? && !(pc.job.kind.OpenWallet? != a.present || !a.handle) && Poised(c, pc, a, p, m)
    ensures Kept(c, BeforeHandle(c, pc, a), p, m)
  {
    hide PaceFits, HandlesFit, WalletsFit, AllGrow, WalletFits, Final, HostPort, IsLoopback, NameOk, NettypeOf,
      AnyPoll, DialUrl, DialProxy, RouteOf, PolicyError, PendingFits;
    SamePast(c);
    assert WalletFits(NewWallet(pc.node), m.hosts) by { NewFits(pc.node, m.hosts); }
    Added(c.wallets, NewWallet(pc.node), m.hosts);
  }

  lemma GiveUpKeeps(c: Core, pc: Pc, a: Answers, p: Probe, m: World)
    requires pc.AtOpen? && pc.open.GiveUp? && Poised(c, pc, a, p, m)
    ensures Kept(c, BeforeHandle(c, pc, a), p, m)
  {
    hide PaceFits, HandlesFit, WalletsFit, AllGrow, WalletFits, Final, HostPort, IsLoopback, NameOk, NettypeOf,
      AnyPoll, DialUrl, DialProxy, RouteOf, PolicyError, PendingFits;
    SamePast(c);
  }

  lemma CheckNetworkKeeps(c: Core, pc: Pc, a: Answers, p: Probe, m: World)
    requires pc.AtOpen? && pc.open.CheckNetwork? && Poised(c, pc, a, p, m)
    ensures Kept(c, WithHandle(c, pc, a), p, m)
  {
    hide PaceFits, HandlesFit, WalletsFit, AllGrow, WalletFits, Final, HostPort, IsLoopback, NameOk, NettypeOf,
      AnyPoll, DialUrl, DialProxy, RouteOf, PendingFits;
    SamePast(c);
  }

  // A new handle is set up further.
  lemma SetUp(c: Core, pc: Pc, v: Wallet2, open: OpenStage, p: Probe, m: World)
    requires pc.AtOpen? && pc.open in {Init, GoOffline, Trust} && open in {GoOffline, Trust, Connect}
    requires CoreInv(c, pc, m) && HeightFits(c, p)
    requires v.closes == c.wallets[pc.handle].closes && Grows(c.wallets[pc.handle], v)
    requires WalletFits(v, m.hosts) && SetUpFits(v, open, pc.node)
    ensures Kept(c, Step(SetWallet(c, pc.handle, v), pc.(open := open)), p, m)
  {
    hide PaceFits, HandlesFit, WalletsFit, AllGrow, WalletFits, Final, HostPort, IsLoopback, DialUrl, DialProxy,
      RouteOf, PendingFits, SetUpFits, Lineage, Agrees, MoveFits, HasHost;
    SamePast(c);
    Rewritten(c.wallets, pc.handle, v, None, Some(pc.handle), m.hosts);
  }

  // The new handle as its set-up finds it.
  lemma InHand(c: Core, pc: Pc, m: World)
    requires pc.AtOpen? && pc.open in {Init, GoOffline, Trust} && CoreInv(c, pc, m)
    ensures pc.handle < |c.wallets|
    ensures WalletFits(c.wallets[pc.handle], m.hosts) && SetUpFits(c.wallets[pc.handle], pc.open, pc.node)
    ensures m.hosts ==> HasHost(pc.node)
  {
    hide PaceFits, HandlesFit, WalletsFit, WalletFits, PendingFits, SetUpFits, Lineage, Agrees, MoveFits, HasHost,
      PlaceFits, StateFits, LocksFit;
    FitsAt(c.wallets, pc.handle, m.hosts);
  }

  // A section of the set-up that changes nothing but where the worker stands.
  lemma PassedOver(c: Core, pc: Pc, open: OpenStage, p: Probe, m: World)
    requires pc.AtOpen? && CoreInv(c, pc, m) && HeightFits(c, p)
    requires (pc.open.Init? && open == Discard(InitFailed))
      || (pc.open.GoOffline? && open.Trust? && !RouteOf(pc.node).WaitingForTor?)
    ensures Kept(c, Step(c, pc.(open := open)), p, m)
  {
    hide PaceFits, HandlesFit, WalletsFit, AllGrow, WalletFits, Final, HostPort, IsLoopback, DialUrl, DialProxy,
      RouteOf, PendingFits, Lineage, Agrees, MoveFits, HasHost;
    SamePast(c);
  }

  lemma InitKeeps(c: Core, pc: Pc, a: Answers, p: Probe, m: World)
    requires pc.AtOpen? && pc.open.Init? && Poised(c, pc, a, p, m)
    ensures Kept(c, WithHandle(c, pc, a), p, m)
  {
    hide CoreInv, Kept, HeightFits, SetUpFits, WalletFits, HasHost, InitTo, DialUrl, DialProxy, RouteOf;
    InHand(c, pc, m);
    if a.initOk {
      var v := InitTo(c.wallets[pc.handle], DialUrl(pc.node), DialProxy(pc.node));
      InitFits(c.wallets[pc.handle], pc.node, m.hosts);
      InitGrows(c.wallets[pc.handle], DialUrl(pc.node), DialProxy(pc.node));
      SetUp(c, pc, v, GoOffline, p, m);
    } else {
      PassedOver(c, pc, Discard(InitFailed), p, m);
    }
  }

  lemma InitGrows(w: Wallet2, source: string, proxy: string)
    ensures var v := InitTo(w, source, proxy); v.closes == w.closes && v.moved == w.moved && Grows(w, v)
  {}

  lemma GoOfflineKeeps(c: Core, pc: Pc, a: Answers, p: Probe, m: World)
    requires pc.AtOpen? && pc.open.GoOffline? && Poised(c, pc, a, p, m)
    ensures Kept(c, WithHandle(c, pc, a), p, m)
  {
    hide CoreInv, Kept, HeightFits, SetUpFits, WalletFits, HasHost, RouteOf;
    InHand(c, pc, m);
    if RouteOf(pc.node).WaitingForTor? {
      OfflineFits(c.wallets[pc.handle], pc.node, m.hosts);
      SetUp(c, pc, c.wallets[pc.handle].(mode := Draining), Trust, p, m);
    } else {
      PassedOver(c, pc, Trust, p, m);
    }
  }

  lemma TrustKeeps(c: Core, pc: Pc, a: Answers, p: Probe, m: World)
    requires pc.AtOpen? && pc.open.Trust? && Poised(c, pc, a, p, m)
    ensures Kept(c, WithHandle(c, pc, a), p, m)
  {
    hide CoreInv, Kept, HeightFits, SetUpFits, WalletFits, HasHost, RouteOf, IsLoopback;
    InHand(c, pc, m);
    var trusted := RouteOf(pc.node).Direct? && pc.node.trusted && IsLoopback(pc.node.url);
    TrustFits(c.wallets[pc.handle], trusted, pc.node, m.hosts);
    SetUp(c, pc, c.wallets[pc.handle].(trusted := trusted), Connect, p, m);
  }

  lemma ConnectKeeps(c: Core, pc: Pc, a: Answers, p: Probe, m: World)
    requires pc.AtOpen? && pc.open.Connect? && Poised(c, pc, a, p, m)
    ensures Kept(c, WithHandle(c, pc, a), p, m)
  {
    hide PaceFits, HandlesFit, WalletsFit, AllGrow, WalletFits, Final, HostPort, IsLoopback, NameOk, NettypeOf,
      AnyPoll, DialUrl, DialProxy, RouteOf, PendingFits;
    SamePast(c);
  }

  lemma DiscardKeeps(c: Core, pc: Pc, a: Answers, p: Probe, m: World)
    requires pc.AtOpen? && pc.open.Discard? && Poised(c, pc, a, p, m)
    ensures Kept(c, WithHandle(c, pc, a), p, m)
  {
    hide PaceFits, HandlesFit, WalletsFit, AllGrow, WalletFits, Final, HostPort, IsLoopback, NameOk, NettypeOf,
      AnyPoll, DialUrl, DialProxy, RouteOf, PendingFits;
    SamePast(c);
    ClosedOnce(c.wallets, pc.handle, m.hosts);
  }

  lemma InstallKeeps(c: Core, pc: Pc, a: Answers, p: Probe, m: World)
    requires pc.AtOpen? && pc.open.Install? && Poised(c, pc, a, p, m)
    ensures Kept(c, AfterSetup(c, pc, a), p, m)
  {
    hide PaceFits, HandlesFit, WalletsFit, AllGrow, WalletFits, Final, HostPort, IsLoopback, NameOk, NettypeOf,
      AnyPoll, DialUrl, DialProxy, RouteOf;
    SamePast(c);
    Installed(c.wallets, pc.handle);
  }

  lemma PublishKeeps(c: Core, pc: Pc, a: Answers, p: Probe, m: World)
    requires pc.AtOpen? && pc.open.Publish? && Poised(c, pc, a, p, m)
    ensures Kept(c, AfterSetup(c, pc, a), p, m)
  {
    hide HandlesFit, WalletsFit, AllGrow, WalletFits, Final, HostPort, IsLoopback, NameOk, NettypeOf, AnyPoll;
    SamePast(c);
  }

  lemma NotifyKeeps(c: Core, pc: Pc, a: Answers, p: Probe, m: World)
    requires pc.AtOpen? && pc.open.Notify? && Poised(c, pc, a, p, m)
    ensures Kept(c, AfterSetup(c, pc, a), p, m)
  {
    hide PaceFits, HandlesFit, WalletsFit, AllGrow, WalletFits, Final, HostPort, IsLoopback, NameOk, NettypeOf,
      AnyPoll, DialUrl, DialProxy, RouteOf, PendingFits;
    SamePast(c);
  }

  lemma FinishKeeps(c: Core, pc: Pc, a: Answers, p: Probe, m: World)
    requires pc.AtOpen? && pc.open.Finish? && Poised(c, pc, a, p, m)
    ensures Kept(c, AfterSetup(c, pc, a), p, m)
  {
    hide PaceFits, HandlesFit, WalletsFit, AllGrow, WalletFits, Final, HostPort, IsLoopback, NameOk, NettypeOf,
      AnyPoll, DialUrl, DialProxy, RouteOf, PendingFits;
    SamePast(c);
  }

  // ---- doClose and doRescan ----

  lemma DetachKeeps(c: Core, pc: Pc, a: Answers, p: Probe, m: World)
    requires pc.AtClose? && pc.close.Detach? && Poised(c, pc, a, p, m)
    ensures Kept(c, CloseStep(c, pc, a), p, m)
  {
    hide PaceFits, HandlesFit, WalletsFit, AllGrow, WalletFits, Final, HostPort, IsLoopback, NameOk, NettypeOf,
      AnyPoll, DialUrl, DialProxy, RouteOf, DroppedFates, PendingFits;
    SamePast(c);
    if c.wallet.Some? {
      Installed(c.wallets, c.wallet.value);
      AllDropped(c);
    }
  }

  lemma CloseHandleKeeps(c: Core, pc: Pc, a: Answers, p: Probe, m: World)
    requires pc.AtClose? && pc.close.CloseHandle? && Poised(c, pc, a, p, m)
    ensures Kept(c, CloseStep(c, pc, a), p, m)
  {
    hide PaceFits, HandlesFit, WalletsFit, AllGrow, WalletFits, Final, HostPort, IsLoopback, NameOk, NettypeOf,
      AnyPoll, DialUrl, DialProxy, RouteOf, DroppedFates, PendingFits;
    SamePast(c);
    ClosedOnce(c.wallets, pc.handle, m.hosts);
  }

  lemma ForgetKeeps(c: Core, pc: Pc, a: Answers, p: Probe, m: World)
    requires pc.AtClose? && pc.close.Forget? && Poised(c, pc, a, p, m)
    ensures Kept(c, CloseStep(c, pc, a), p, m)
  {
    hide Highest, FirstReached, Waits, HandlesFit, WalletsFit, AllGrow, WalletFits, Final, HostPort, IsLoopback,
      NameOk, NettypeOf, AnyPoll, DialUrl, DialProxy, RouteOf, DroppedFates, PendingFits;
    SamePast(c);
  }

  lemma UnlockKeeps(c: Core, pc: Pc, a: Answers, p: Probe, m: World)
    requires pc.AtClose? && pc.close.Unlock? && Poised(c, pc, a, p, m)
    ensures Kept(c, CloseStep(c, pc, a), p, m)
  {
    hide PaceFits, HandlesFit, WalletsFit, AllGrow, WalletFits, Final, HostPort, IsLoopback, NameOk, NettypeOf,
      AnyPoll, DialUrl, DialProxy, RouteOf, DroppedFates, PendingFits;
    SamePast(c);
  }

  lemma LeaveKeeps(c: Core, pc: Pc, a: Answers, p: Probe, m: World)
    requires pc.AtClose? && pc.close.Leave? && Poised(c, pc, a, p, m)
    ensures Kept(c, CloseStep(c, pc, a), p, m)
  {
    hide PaceFits, HandlesFit, WalletsFit, AllGrow, WalletFits, Final, HostPort, IsLoopback, NameOk, NettypeOf,
      AnyPoll, DialUrl, DialProxy, RouteOf, DroppedFates, PendingFits;
    SamePast(c);
  }

  // A rescan or a tick ends, with the state the open wallet is found in.
  lemma Ended(c: Core, pc: Pc, state: State, out: Outcome, p: Probe, m: World)
    requires (pc.TickFlip? || pc.AtRescan?) && CoreInv(c, pc, m) && HeightFits(c, p)
    requires state == c.state || (c.wallet.Some? && (state.Syncing? || state.Ready?))
    ensures Kept(c, Step(c.(state := state), Idle(out)), p, m)
  {
    hide PaceFits, HandlesFit, WalletsFit, AllGrow, WalletFits, Final, HostPort, IsLoopback, DialUrl, DialProxy,
      RouteOf, PendingFits, Lineage, Agrees, SetUpFits, MoveFits;
    SamePast(c);
  }

  lemma RescanCalls(c: Core, pc: Pc, p: Probe, m: World)
    requires pc.AtRescan? && !pc.called && CoreInv(c, pc, m) && HeightFits(c, p) && c.wallet.Some?
    ensures Kept(c, Step(c, AtRescan(true)), p, m)
  {
    hide PaceFits, HandlesFit, WalletsFit, AllGrow, WalletFits, Final, HostPort, IsLoopback, DialUrl, DialProxy,
      RouteOf, PendingFits, Lineage, Agrees, SetUpFits, MoveFits;
    SamePast(c);
  }

  lemma RescanKeeps(c: Core, pc: Pc, a: Answers, p: Probe, m: World)
    requires pc.AtRescan? && Poised(c, pc, a, p, m)
    ensures Kept(c, RescanStep(c, pc), p, m)
  {
    hide Kept, StateFits, SessionFits, LocksFit, PaceFits, HandlesFit, WalletsFit, PendingFits, HeightFits;
    if pc.called {
      Ended(c, pc, Syncing, Okay, p, m);
    } else if c.wallet.None? {
      Ended(c, pc, c.state, Err(NoWalletOpen), p, m);
    } else {
      RescanCalls(c, pc, p, m);
    }
  }

  // ---- tick ----

  lemma TickReadKeeps(c: Core, pc: Pc, a: Answers, p: Probe, m: World)
    requires pc.TickRead? && Poised(c, pc, a, p, m)
    ensures Kept(c, TickStep(c, pc, a), p, m)
  {
    hide PaceFits, HandlesFit, WalletsFit, AllGrow, WalletFits, Final, HostPort, IsLoopback, NameOk, NettypeOf,
      AnyPoll, DialUrl, DialProxy, RouteOf, PendingFits;
    SamePast(c);
  }

  // One more height: the greatest so far and when it came stay right, and in good time.
  lemma NotePace(
    seen: seq<(Instant, nat)>, openedAt: Instant, lastTick: Instant, top: nat, at: Instant,
    now: Instant, height: nat, m: World)
    requires Highest(seen, top)
    ensures var next := if height > top then height else top; Highest(seen + [(now, height)], next)
    ensures FirstReached(seen, openedAt, top, at) ==>
      var next, since := if height > top then height else top, if height > top then now else at;
      FirstReached(seen + [(now, height)], openedAt, next, since)
    ensures Waits(top, at, openedAt, lastTick, false, m) && lastTick <= now <= lastTick + m.gap && height <= m.ceiling ==>
      var next, since := if height > top then height else top, if height > top then now else at;
      && Waits(next, since, openedAt, now, true, m)
      && (now - since <= GIVE_UP ==> Waits(next, since, openedAt, now, false, m))
  {
    var longer := seen + [(now, height)];
    if height > top {
      assert longer[|seen|] == (now, height);
      OneMoreWait(top, height, Patience(m));
    } else {
      assert forall i :: 0 <= i < |seen| ==> longer[i] == seen[i];
    }
  }

  lemma OneMoreWait(top: nat, height: nat, wait: nat)
    requires top < height
    ensures top * wait + wait <= height * wait
  {
    assert height * wait == (top + 1) * wait + (height - top - 1) * wait;
  }

  lemma TickNoteKeeps(c: Core, pc: Pc, a: Answers, p: Probe, m: World)
    requires pc.TickNote? && Poised(c, pc, a, p, m)
    ensures Kept(c, TickStep(c, pc, a), p, m)
  {
    hide Patience, Highest, FirstReached, Waits, HandlesFit, WalletsFit, AllGrow, WalletFits, Final, HostPort,
      IsLoopback, NameOk, NettypeOf, AnyPoll, DialUrl, DialProxy, RouteOf, PendingFits;
    SamePast(c);
    NotePace(c.seen, c.openedAt, c.lastTick, c.progressHeight, c.progressAt, a.now, pc.height, m);
  }

  lemma TickAskKeeps(c: Core, pc: Pc, a: Answers, p: Probe, m: World)
    requires pc.TickAsk? && Poised(c, pc, a, p, m)
    ensures Kept(c, TickStep(c, pc, a), p, m)
  {
    hide Highest, FirstReached, Waits, HandlesFit, WalletsFit, AllGrow, WalletFits, Final, HostPort, IsLoopback,
      NameOk, NettypeOf, AnyPoll, DialUrl, DialProxy, RouteOf, PendingFits;
    SamePast(c);
  }

  lemma TickFlipKeeps(c: Core, pc: Pc, a: Answers, p: Probe, m: World)
    requires pc.TickFlip? && Poised(c, pc, a, p, m)
    ensures Kept(c, TickStep(c, pc, a), p, m)
  {
    hide Kept, StateFits, SessionFits, LocksFit, PaceFits, HandlesFit, WalletsFit, PendingFits, HeightFits;
    if c.state.Syncing? && pc.synced {
      Ended(c, pc, Ready, Okay, p, m);
    } else if c.state.Ready? && !pc.synced {
      Ended(c, pc, Syncing, Okay, p, m);
    } else {
      Ended(c, pc, c.state, Okay, p, m);
    }
  }

  // ---- doCreateTransaction, doCommit, doDispose, doChangePassword ----

  lemma LogFits(w: Wallet2, purpose: Purpose, hosts: bool)
    requires WalletFits(w, hosts) && CanIssue(w)
    requires hosts && !w.began.Direct? && w.proxy == "" ==> purpose.Refresh?
    ensures WalletFits(w.(log := w.log + [Request(purpose, w.url, w.proxy)]), hosts)
  {
    hide IsLoopback, RouteOf, HostPort;
  }

  // One more request, of a wallet that sends it where the invariant allows.
  lemma Logged(ws: seq<Wallet2>, h: nat, purpose: Purpose, wallet: Option<nat>, owned: Option<nat>, hosts: bool)
    requires h < |ws| && HandlesFit(ws, wallet, owned) && WalletsFit(ws, hosts)
    requires CanIssue(ws[h]) && (hosts && !ws[h].began.Direct? && ws[h].proxy == "" ==> purpose.Refresh?)
    ensures var us := ws[h := ws[h].(log := ws[h].log + [Request(purpose, ws[h].url, ws[h].proxy)])];
      HandlesFit(us, wallet, owned) && WalletsFit(us, hosts) && AllGrow(ws, us)
  {
    hide HandlesFit, WalletsFit, AllGrow, WalletFits, RequestsFit, IsLoopback;
    var w := ws[h];
    FitsAt(ws, h, hosts);
    LogFits(w, purpose, hosts);
    Rewritten(ws, h, w.(log := w.log + [Request(purpose, w.url, w.proxy)]), wallet, owned, hosts);
  }

  lemma Building(h: nat, pending: map<string, nat>, nextTx: nat, fates: map<string, Fate>, commits: seq<string>)
    requires PendingFits(Some(h), pending, nextTx, fates, commits)
    ensures var k := TxKey(nextTx);
      && k !in fates && PendingFits(Some(h), pending[k := h], nextTx + 1, fates[k := Live(h)], commits)
      && Final(fates, commits, fates[k := Live(h)], commits)
  {
    hide TxKey;
    forall n | n > nextTx ensures TxKey(n) != TxKey(nextTx) { KeysDiffer(n, nextTx); }
  }

  lemma KeysDiffer(m: nat, n: nat)
    requires m != n
    ensures TxKey(m) != TxKey(n)
  {
    if TxKey(m) == TxKey(n) { Decimal.KeysInjective("tx", m, n); }
  }

  lemma Ending(
    k: string, fate: Fate, wallet: Option<nat>, pending: map<string, nat>, nextTx: nat,
    fates: map<string, Fate>, commits: seq<string>)
    requires PendingFits(wallet, pending, nextTx, fates, commits) && k in pending && !fate.Live?
    ensures var commits' := if fate.Committed? then commits + [k] else commits;
      && PendingFits(wallet, pending - {k}, nextTx, fates[k := fate], commits')
      && Final(fates, commits, fates[k := fate], commits')
  {
    hide TxKey;
    assert forall n :: n >= nextTx ==> TxKey(n) != k;
  }

  lemma Answered(c: Core, pc: Pc, out: Outcome, a: Answers, p: Probe, m: World)
    requires pc.AtSend? && Poised(c, pc, a, p, m)
    ensures Kept(c, Step(c, Idle(out)), p, m)
  {
    hide PaceFits, HandlesFit, WalletsFit, AllGrow, WalletFits, Final, HostPort, IsLoopback, NameOk, NettypeOf,
      AnyPoll, DialUrl, DialProxy, RouteOf, PendingFits;
    SamePast(c);
  }

  // Where sends do not wait the open wallet issues requests, through a proxy unless it began direct.
  lemma MaySpend(c: Core, pc: Pc, m: World)
    requires pc.AtSend? && CoreInv(c, pc, m) && c.wallet.Some? && !SendsWait(c)
    ensures var w := c.wallets[c.wallet.value]; CanIssue(w) && (m.hosts && !w.began.Direct? ==> w.proxy != "")
  {
    hide PaceFits, WalletsFit, WalletFits, PendingFits, LocksFit, HostPort;
  }

  // A request that spends, and what it did to the transactions built.
  lemma Spent(c: Core, pc: Pc, purpose: Purpose, d: Core, out: Outcome, a: Answers, p: Probe, m: World)
    requires pc.AtSend? && Poised(c, pc, a, p, m) && c.wallet.Some? && !SendsWait(c)
    requires d == Sent(c, c.wallet.value, purpose).(pending := d.pending, nextTx := d.nextTx, fates := d.fates, commits := d.commits)
    requires PendingFits(c.wallet, d.pending, d.nextTx, d.fates, d.commits) && Final(c.fates, c.commits, d.fates, d.commits)
    ensures Kept(c, Step(d, Idle(out)), p, m)
  {
    hide PaceFits, HandlesFit, WalletsFit, AllGrow, WalletFits, Final, PendingFits, CanIssue, HostPort;
    MaySpend(c, pc, m);
    Logged(c.wallets, c.wallet.value, purpose, c.wallet, None, m.hosts);
  }

  lemma CreateKeeps(c: Core, pc: Pc, a: Answers, p: Probe, m: World)
    requires pc.AtSend? && pc.send.CreateTransaction? && Poised(c, pc, a, p, m)
    ensures Kept(c, SendStep(c, pc.send, a), p, m)
  {
    hide PaceFits, Kept, HandlesFit, WalletsFit, AllGrow, Final, PlaceFits, StateFits, SessionFits, LocksFit,
      HeightFits, PendingFits, Address.IsAddress, ParseAtomic, TxKey;
    SamePast(c);
    var t := SendStep(c, pc.send, a);
    if t.c == c {
      Answered(c, pc, t.pc.out, a, p, m);
    } else {
      if a.built.Good? { Building(c.wallet.value, c.pending, c.nextTx, c.fates, c.commits); }
      Spent(c, pc, Create, t.c, t.pc.out, a, p, m);
    }
  }

  lemma CommitKeeps(c: Core, pc: Pc, a: Answers, p: Probe, m: World)
    requires pc.AtSend? && pc.send.CommitTransaction? && Poised(c, pc, a, p, m)
    ensures Kept(c, SendStep(c, pc.send, a), p, m)
  {
    hide PaceFits, Kept, HandlesFit, WalletsFit, AllGrow, Final, PlaceFits, StateFits, SessionFits, LocksFit,
      HeightFits, PendingFits, Address.IsAddress, ParseAtomic, TxKey;
    SamePast(c);
    var k := pc.send.handle;
    var t := SendStep(c, pc.send, a);
    if c.wallet.None? || SendsWait(c) || k !in c.pending {
      Answered(c, pc, t.pc.out, a, p, m);
    } else {
      if a.commitOk { Ending(k, Committed, c.wallet, c.pending, c.nextTx, c.fates, c.commits); }
      Spent(c, pc, Commit, t.c, t.pc.out, a, p, m);
    }
  }

  lemma DisposeKeeps(c: Core, pc: Pc, a: Answers, p: Probe, m: World)
    requires pc.AtSend? && pc.send.DisposeTransaction? && Poised(c, pc, a, p, m)
    ensures Kept(c, SendStep(c, pc.send, a), p, m)
  {
    hide PaceFits, HandlesFit, WalletsFit, AllGrow, WalletFits, Final, HostPort, IsLoopback, NameOk, NettypeOf,
      AnyPoll, DialUrl, DialProxy, RouteOf, PendingFits, Address.IsAddress, ParseAtomic, TxKey;
    SamePast(c);
    var k := pc.send.handle;
    if k in c.pending { Ending(k, Disposed, c.wallet, c.pending, c.nextTx, c.fates, c.commits); }
  }

  lemma PasswordKeeps(c: Core, pc: Pc, a: Answers, p: Probe, m: World)
    requires pc.AtSend? && !pc.send.CreateTransaction? && !pc.send.CommitTransaction? && !pc.send.DisposeTransaction?
    requires Poised(c, pc, a, p, m)
    ensures Kept(c, SendStep(c, pc.send, a), p, m)
  {
    hide PaceFits, HandlesFit, WalletsFit, AllGrow, WalletFits, Final, HostPort, IsLoopback, NameOk, NettypeOf,
      AnyPoll, DialUrl, DialProxy, RouteOf, PendingFits, Address.IsAddress, ParseAtomic, TxKey;
    SamePast(c);
  }

  // ---- moveToTor ----

  lemma ReadRouteKeeps(c: Core, pc: Pc, a: Answers, p: Probe, m: World)
    requires pc.AtMove? && pc.move.ReadRoute? && Poised(c, pc, a, p, m)
    ensures Kept(c, MoveStep(c, pc, a), p, m)
  {
    hide PaceFits, HandlesFit, WalletsFit, AllGrow, WalletFits, Final, HostPort, IsLoopback, NameOk, NettypeOf,
      AnyPoll, DialUrl, DialProxy, RouteOf, PendingFits;
    SamePast(c);
  }

  lemma NothingReady(c: Core, pc: Pc, p: Probe, m: World)
    requires pc.AtMove? && pc.move.Resolve? && pc.from.WaitingForTor? && CoreInv(c, pc, m) && HeightFits(c, p)
    ensures Kept(c, Step(c, TickFlip(pc.synced)), p, m)
  {
    hide Highest, FirstReached, Waits, HandlesFit, WalletsFit, AllGrow, WalletFits, Final, HostPort, IsLoopback,
      DialUrl, DialProxy, RouteOf, PendingFits, Lineage, Agrees;
    SamePast(c);
  }

  lemma TargetTaken(c: Core, pc: Pc, target: Node, p: Probe, m: World)
    requires pc.AtMove? && pc.move.Resolve? && CoreInv(c, pc, m) && HeightFits(c, p)
    requires m.hosts ==> HasHost(target)
    ensures Kept(c, Step(c, pc.(move := Quiet, target := target)), p, m)
  {
    hide PaceFits, HandlesFit, WalletsFit, AllGrow, WalletFits, Final, HostPort, IsLoopback, DialUrl, DialProxy,
      RouteOf, PendingFits, HasHost, Lineage, Agrees;
    SamePast(c);
  }

  lemma ResolveKeeps(c: Core, pc: Pc, a: Answers, p: Probe, m: World)
    requires pc.AtMove? && pc.move.Resolve? && Poised(c, pc, a, p, m)
    ensures Kept(c, MoveStep(c, pc, a), p, m)
  {
    hide Kept, PlaceFits, StateFits, SessionFits, LocksFit, PaceFits, HandlesFit, WalletsFit, PendingFits,
      HeightFits, TorReady, HasHost;
    OnTheWay(c, pc, m);
    var target := if pc.given.Some? then pc.given.value else a.node;
    if !TorReady(target) && pc.from.WaitingForTor? {
      NothingReady(c, pc, p, m);
    } else {
      TargetTaken(c, pc, target, p, m);
    }
  }

  // A move changes only how the open wallet is dialled.
  lemma Redirected(c: Core, pc: Pc, v: Wallet2, qc: Pc, p: Probe, m: World)
    requires pc.AtMove? && CoreInv(c, pc, m) && HeightFits(c, p) && c.wallet.Some? && Fits(c, qc)
    requires !pc.move.ReadRoute? && qc.AtMove? && qc.from == pc.from && qc.move in {Drain, Redial, Distrust, Resume, Settle}
    requires m.hosts ==> HasHost(qc.target) && (qc.given.Some? ==> HasHost(qc.given.value))
    requires Lineage(c.route, v) && MoveFits(v, qc, m.hosts) && WalletFits(v, m.hosts)
    requires var w := c.wallets[c.wallet.value]; v.closes == w.closes && Grows(w, v)
    ensures Kept(c, Step(SetWallet(c, c.wallet.value, v), qc), p, m)
  {
    hide HandlesFit, WalletsFit, AllGrow, WalletFits, Final, HostPort, IsLoopback, NameOk, NettypeOf, AnyPoll,
      DialUrl, DialProxy, RouteOf, PendingFits, PaceFits, Lineage, MoveFits, WalletFits, HasHost;
    SamePast(c);
    Rewritten(c.wallets, c.wallet.value, v, c.wallet, None, m.hosts);
  }

  lemma OnTheWay(c: Core, pc: Pc, m: World)
    requires pc.AtMove? && CoreInv(c, pc, m)
    ensures c.wallet.Some? && Fits(c, pc)
    ensures var w := c.wallets[c.wallet.value];
      Lineage(c.route, w) && MoveFits(w, pc, m.hosts) && WalletFits(w, m.hosts)
    ensures m.hosts ==> HasHost(pc.target) && (pc.given.Some? ==> HasHost(pc.given.value))
  {
    hide HandlesFit, WalletsFit, AllGrow, WalletFits, Final, HostPort, IsLoopback, NameOk, NettypeOf, AnyPoll,
      DialUrl, DialProxy, RouteOf, PendingFits, Lineage, MoveFits, HasHost;
    FitsAt(c.wallets, c.wallet.value, m.hosts);
  }

  // What each step of a move makes of the wallet.
  lemma MovedOn(w: Wallet2, pc: Pc, hosts: bool)
    requires pc.AtMove? && WalletFits(w, hosts) && MoveFits(w, pc, hosts)
    ensures pc.move.Quiet? ==>
      var v := w.(mode := if w.mode.Offline? then Offline else Draining);
      WalletFits(v, hosts) && MoveFits(v, pc.(move := Drain), hosts)
    ensures pc.move.Drain? ==> WalletFits(Hushed(w), hosts) && MoveFits(Hushed(w), pc.(move := Redial), hosts)
    ensures pc.move.Distrust? ==>
      WalletFits(w.(trusted := false), hosts) && MoveFits(w.(trusted := false), pc.(move := Resume), hosts)
    ensures pc.move.Resume? ==>
      WalletFits(w.(mode := Online), hosts) && MoveFits(w.(mode := Online), pc.(move := Settle, moved := true), hosts)
  {
    hide HostPort, IsLoopback, RouteOf;
  }

  lemma RedialFits(w: Wallet2, pc: Pc, hosts: bool)
    requires pc.AtMove? && pc.move.Redial? && WalletFits(w, hosts) && MoveFits(w, pc, hosts) && TorReady(pc.target)
    requires hosts ==> HasHost(pc.target)
    ensures var v := InitTo(w, pc.target.url, HostPort(pc.target.proxy));
      WalletFits(v, hosts) && MoveFits(v, pc.(move := Distrust), hosts)
  {
    hide HostPort, IsLoopback, RouteOf;
  }

  lemma WildFits(w: Wallet2, pc: Pc, wild: (string, string), hosts: bool)
    requires pc.AtMove? && pc.move.Redial? && WalletFits(w, hosts) && MoveFits(w, pc, hosts)
    ensures var v := w.(url := wild.0, proxy := wild.1);
      WalletFits(v, hosts) && MoveFits(v, pc.(move := Settle, moved := false), hosts)
  {
    hide HostPort, IsLoopback, RouteOf;
  }

  lemma QuietKeeps(c: Core, pc: Pc, a: Answers, p: Probe, m: World)
    requires pc.AtMove? && pc.move.Quiet? && Poised(c, pc, a, p, m)
    ensures Kept(c, MoveStep(c, pc, a), p, m)
  {
    hide CoreInv, Kept, HeightFits, SetWallet, WalletFits, MoveFits, HasHost;
    OnTheWay(c, pc, m);
    var w := c.wallets[c.wallet.value];
    MovedOn(w, pc, m.hosts);
    Redirected(c, pc, w.(mode := if w.mode.Offline? then Offline else Draining), pc.(move := Drain), p, m);
  }

  lemma DrainKeeps(c: Core, pc: Pc, a: Answers, p: Probe, m: World)
    requires pc.AtMove? && pc.move.Drain? && Poised(c, pc, a, p, m)
    ensures Kept(c, MoveStep(c, pc, a), p, m)
  {
    hide CoreInv, Kept, HeightFits, SetWallet, WalletFits, MoveFits, HasHost;
    OnTheWay(c, pc, m);
    MovedOn(c.wallets[c.wallet.value], pc, m.hosts);
    Redirected(c, pc, Hushed(c.wallets[c.wallet.value]), pc.(move := Redial), p, m);
  }

  lemma Redialled(c: Core, pc: Pc, p: Probe, m: World)
    requires pc.AtMove? && pc.move.Redial? && CoreInv(c, pc, m) && HeightFits(c, p) && c.wallet.Some? && TorReady(pc.target)
    ensures var v := InitTo(c.wallets[c.wallet.value], pc.target.url, HostPort(pc.target.proxy));
      Kept(c, Step(SetWallet(c, c.wallet.value, v), pc.(move := Distrust)), p, m)
  {
    hide CoreInv, Kept, HeightFits, SetWallet, WalletFits, MoveFits, HasHost, TorReady, HostPort, InitTo;
    OnTheWay(c, pc, m);
    var w := c.wallets[c.wallet.value];
    RedialFits(w, pc, m.hosts);
    InitGrows(w, pc.target.url, HostPort(pc.target.proxy));
    var v := InitTo(w, pc.target.url, HostPort(pc.target.proxy));
    Redirected(c, pc, v, pc.(move := Distrust), p, m);
  }

  lemma NotRedialled(c: Core, pc: Pc, p: Probe, m: World)
    requires pc.AtMove? && pc.move.Redial? && CoreInv(c, pc, m) && HeightFits(c, p)
    ensures Kept(c, Step(c, pc.(move := Settle, moved := false)), p, m)
  {
    hide Kept, PlaceFits, StateFits, SessionFits, LocksFit, PaceFits, HandlesFit, WalletsFit, PendingFits,
      HeightFits, HostPort, IsLoopback, DialUrl, DialProxy, RouteOf, RequestsFit, HasHost, Lineage;
    OnTheWay(c, pc, m);
    var w := c.wallets[c.wallet.value];
    assert SetWallet(c, c.wallet.value, w) == c;
    hide SetWallet;
    Redirected(c, pc, w, pc.(move := Settle, moved := false), p, m);
  }

  lemma RedialFailed(c: Core, pc: Pc, wild: (string, string), p: Probe, m: World)
    requires pc.AtMove? && pc.move.Redial? && CoreInv(c, pc, m) && HeightFits(c, p) && c.wallet.Some?
    ensures var v := c.wallets[c.wallet.value].(url := wild.0, proxy := wild.1);
      Kept(c, Step(SetWallet(c, c.wallet.value, v), pc.(move := Settle, moved := false)), p, m)
  {
    hide CoreInv, Kept, HeightFits, SetWallet, WalletFits, MoveFits, HasHost;
    OnTheWay(c, pc, m);
    WildFits(c.wallets[c.wallet.value], pc, wild, m.hosts);
    Redirected(c, pc, c.wallets[c.wallet.value].(url := wild.0, proxy := wild.1), pc.(move := Settle, moved := false), p, m);
  }

  lemma RedialKeeps(c: Core, pc: Pc, a: Answers, p: Probe, m: World)
    requires pc.AtMove? && pc.move.Redial? && Poised(c, pc, a, p, m)
    ensures Kept(c, MoveStep(c, pc, a), p, m)
  {
    hide CoreInv, Kept, PlaceFits, StateFits, SessionFits, LocksFit, PaceFits, HandlesFit, WalletsFit, PendingFits,
      HeightFits, HostPort, IsLoopback, DialUrl, DialProxy, RouteOf, RequestsFit, InitTo, HasHost,
      TorReady, Lineage, WalletFits, MoveFits;
    OnTheWay(c, pc, m);
    if !TorReady(pc.target) {
      NotRedialled(c, pc, p, m);
    } else if a.initOk {
      Redialled(c, pc, p, m);
    } else {
      RedialFailed(c, pc, a.wild, p, m);
    }
  }

  lemma DistrustKeeps(c: Core, pc: Pc, a: Answers, p: Probe, m: World)
    requires pc.AtMove? && pc.move.Distrust? && Poised(c, pc, a, p, m)
    ensures Kept(c, MoveStep(c, pc, a), p, m)
  {
    hide CoreInv, Kept, HeightFits, SetWallet, WalletFits, MoveFits, HasHost;
    OnTheWay(c, pc, m);
    var w := c.wallets[c.wallet.value];
    MovedOn(w, pc, m.hosts);
    Redirected(c, pc, w.(trusted := false), pc.(move := Resume), p, m);
  }

  lemma ResumeKeeps(c: Core, pc: Pc, a: Answers, p: Probe, m: World)
    requires pc.AtMove? && pc.move.Resume? && Poised(c, pc, a, p, m)
    ensures Kept(c, MoveStep(c, pc, a), p, m)
  {
    hide CoreInv, Kept, HeightFits, SetWallet, WalletFits, MoveFits, HasHost;
    OnTheWay(c, pc, m);
    var w := c.wallets[c.wallet.value];
    MovedOn(w, pc, m.hosts);
    Redirected(c, pc, w.(mode := Online), pc.(move := Settle, moved := true), p, m);
  }

  // The bookkeeping after a move.
  lemma Settling(c: Core, pc: Pc, route: Route, at: Instant, torUrl: string, peer: string, p: Probe, m: World)
    requires pc.AtMove? && pc.move.Settle? && CoreInv(c, pc, m) && HeightFits(c, p) && c.wallet.Some?
    requires if pc.moved then route.Tor? && torUrl == pc.target.url && peer == HostPort(pc.target.proxy)
             else route.WaitingForTor? && torUrl == "" && peer == ""
    ensures var d := c.(route := route, progressAt := at, torAskedAt := at, torUrl := torUrl, connected := false, dialPeer := peer);
      var h := c.wallet.value;
      Kept(c, Step(SetWallet(d, h, d.wallets[h].(moved := true)), TickFlip(pc.synced)), p, m)
  {
    hide Highest, FirstReached, Waits, HandlesFit, WalletsFit, AllGrow, Final, PendingFits, HostPort, IsLoopback,
      CutAt, Straight, AllProxied, RouteOf;
    SamePast(c);
    var h := c.wallet.value;
    FitsAt(c.wallets, h, m.hosts);
    Rewritten(c.wallets, h, c.wallets[h].(moved := true), c.wallet, None, m.hosts);
  }

  lemma SettleKeeps(c: Core, pc: Pc, a: Answers, p: Probe, m: World)
    requires pc.AtMove? && pc.move.Settle? && Poised(c, pc, a, p, m)
    ensures Kept(c, MoveStep(c, pc, a), p, m)
  {
    hide Kept, PlaceFits, StateFits, SessionFits, LocksFit, PaceFits, HandlesFit, WalletsFit, PendingFits,
      HeightFits, HostPort;
    OnTheWay(c, pc, m);
    if pc.moved {
      Settling(c, pc, Tor, a.later, pc.target.url, HostPort(pc.target.proxy), p, m);
    } else {
      Settling(c, pc, WaitingForTor, a.later, "", "", p, m);
    }
  }

}
