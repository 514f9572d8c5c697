// What holds of the runtime between any two sections, of whichever thread.
module Invariant {
  import opened Bytes
  import opened Text
  import opened Worker
  import opened System

  // ---- Handles: each is closed once, or is the open wallet, or is in the worker's hands ----

  // A live handle the worker holds without it being the open wallet.
  function Owned(pc: Pc): Option<nat> {
    if pc.AtOpen? && (pc.open in {CheckNetwork, Init, GoOffline, Trust, Connect, Install} || pc.open.Discard?) then Some(pc.handle)
    else if pc.AtClose? && pc.close.CloseHandle? then Some(pc.handle)
    else None
  }

  ghost predicate HandlesFit(ws: seq<Wallet2>, wallet: Option<nat>, owned: Option<nat>) {
    forall h :: 0 <= h < |ws| ==>
      && ws[h].closes <= 1
      && (ws[h].closes == 0 <==> wallet == Some(h) || owned == Some(h))
  }

  // Whether a wallet is installed, by where the worker stands.
  ghost predicate PlaceFits(c: Core, pc: Pc) {
    && (pc.AtOpen? && !(pc.open in {Policy, Guard, Publish, Notify, Finish}) ==> c.wallet.None?)
    && (pc.AtOpen? && pc.open in {Publish, Notify, Finish} ==> c.wallet == Some(pc.handle))
    && (pc.AtClose? && !pc.close.Detach? ==> c.wallet.None?)
    && (pc.AtMove? || pc.TickNote? || pc.TickAsk? || pc.TickFlip? ==> c.wallet.Some?)
    && (pc.AtRescan? && pc.called ==> c.wallet.Some?)
  }

  // Places where the state field is not in flux.
  predicate Steady(pc: Pc) {
    !(pc.AtOpen? && !(pc.open in {Policy, Guard, Announce})) && !(pc.AtClose? && !pc.close.Detach?)
  }

  ghost predicate StateFits(c: Core, pc: Pc) {
    && !c.state.Failed?
    && (Steady(pc) ==> if c.wallet.Some? then c.state.Syncing? || c.state.Ready? else c.state.NoWallet?)
  }

  // ---- The request log ----

  // A proxy that is set names a host, so that wallet2 does dial it.
  predicate HasHost(n: Node) { n.proxy != "" && n.proxy != "tor" ==> HostPort(n.proxy) != "" }

  // Everything goes straight to that peer.
  ghost predicate Straight(log: seq<Request>, peer: string) {
    forall i :: 0 <= i < |log| ==> log[i].proxy == "" && log[i].url == peer
  }

  ghost predicate AllProxied(log: seq<Request>) { forall i :: 0 <= i < |log| ==> log[i].proxy != "" }

  // Up to `cut` nothing but refreshes, straight to that peer; from there nothing but through a proxy.
  ghost predicate CutAt(log: seq<Request>, cut: nat, peer: string) {
    && cut <= |log|
    && (forall i :: 0 <= i < cut ==> log[i] == Request(Refresh, peer, ""))
    && (forall i :: cut <= i < |log| ==> log[i].proxy != "")
  }

  function Cut(w: Wallet2): nat { if w.before.Some? then w.before.value else |w.log| }

  // What a session sends, by the node it opened with.
  ghost predicate KeepsRoute(w: Wallet2) {
    match w.began
    case Direct => Straight(w.log, HostPort(w.origin.url))
    case CatchUp => CutAt(w.log, Cut(w), HostPort(w.origin.catchUp))
    case _ => AllProxied(w.log)
  }

  // Where its next request would go.
  ghost predicate AimedRight(w: Wallet2) {
    Issues(w.mode) ==>
      match w.began
      case Direct => w.proxy == "" && w.url == HostPort(w.origin.url)
      case CatchUp => if w.before.Some? then w.proxy != "" else w.proxy == "" && w.url == HostPort(w.origin.catchUp)
      case _ => w.proxy != ""
  }

  ghost predicate RequestsFit(w: Wallet2, hosts: bool) {
    && (w.before.Some? ==> w.before.value <= |w.log|)
    && (hosts || w.began.Direct? ==> KeepsRoute(w) && AimedRight(w))
  }

  ghost predicate WalletFits(w: Wallet2, hosts: bool) {
    && w.began == RouteOf(w.origin)
    && (w.mode.Unset? ==> w.log == [] && !w.trusted && w.before.None?)
    && (w.trusted ==> w.began.Direct? && IsLoopback(w.source))
    && (w.moved ==> w.before.Some?)
    && (w.before.Some? ==> !w.began.Direct?)
    && RequestsFit(w, hosts)
  }

  ghost predicate WalletsFit(ws: seq<Wallet2>, hosts: bool) {
    forall h :: 0 <= h < |ws| ==> WalletFits(ws[h], hosts)
  }

  // ---- The route and what wallet2 was last told ----

  // A wallet leaves the route it began on for a Tor one, if at all.
  ghost predicate Lineage(route: Route, w: Wallet2) {
    if w.moved then !w.began.Direct? && (route.WaitingForTor? || route.Tor?) else route == w.began
  }

  ghost predicate Agrees(route: Route, dialPeer: string, torUrl: string, w: Wallet2, hosts: bool) {
    match route
    case Direct => w.mode.Online? && w.proxy == "" && w.url == dialPeer == HostPort(w.source)
    case CatchUp => w.mode.Online? && w.proxy == "" && w.url == dialPeer == HostPort(w.source)
    case WaitingForTor => (w.mode.Draining? || w.mode.Offline?) && dialPeer == "" && torUrl == ""
    case Tor =>
      && w.mode.Online? && w.source == torUrl && w.url == HostPort(torUrl) && w.proxy == dialPeer
      && (hosts ==> dialPeer != "")
  }

  // A new handle, by how far it has been set up.
  ghost predicate SetUpFits(w: Wallet2, open: OpenStage, n: Node) {
    && w.origin == n && w.began == RouteOf(n) && !w.moved
    && (open in {CheckNetwork, Init} ==> w.mode.Unset?)
    && (open in {GoOffline, Trust, Connect, Install, Publish} ==>
         && w.source == DialUrl(n) && w.url == HostPort(w.source) && w.proxy == DialProxy(n)
         && if w.began.WaitingForTor? && !open.GoOffline? then w.mode.Draining? else w.mode.Online?)
  }

  // An open wallet on its way to Tor, by how far it has gone.
  ghost predicate MoveFits(w: Wallet2, pc: Pc, hosts: bool)
    requires pc.AtMove?
  {
    var there := pc.move in {Distrust, Resume} || (pc.move.Settle? && pc.moved);
    && !w.began.Direct? && !w.mode.Unset?
    && (pc.move.Drain? ==> w.mode.Draining? || w.mode.Offline?)
    && (pc.move.Redial? || pc.move.Distrust? || pc.move.Resume? || (pc.move.Settle? && !pc.moved) ==> w.mode.Offline?)
    && (pc.move in {Redial, Distrust, Resume, Settle} ==> w.before.Some?)
    && (pc.move.Settle? && pc.moved ==> w.mode.Online?)
    && (there ==>
         && w.source == pc.target.url && w.url == HostPort(w.source) && w.proxy == HostPort(pc.target.proxy)
         && (hosts ==> w.proxy != ""))
  }

  // Between these the bookkeeping and wallet2 agree.
  predicate Settled(pc: Pc) {
    && !(pc.AtOpen? && pc.open.Publish?)
    && !(pc.AtMove? && pc.move in {Drain, Redial, Distrust, Resume, Settle})
  }

  ghost predicate SessionFits(c: Core, pc: Pc, hosts: bool)
    requires Fits(c, pc)
  {
    && (pc.AtOpen? && !(pc.open in {Policy, Guard, Announce, Call, Notify, Finish}) && !pc.open.Discard? && !pc.open.GiveUp? ==>
         SetUpFits(c.wallets[pc.handle], pc.open, pc.node))
    && (c.wallet.Some? && !(pc.AtOpen? && pc.open.Publish?) ==>
         var w := c.wallets[c.wallet.value];
         && Lineage(c.route, w)
         && (Settled(pc) ==> Agrees(c.route, c.dialPeer, c.torUrl, w, hosts))
         && (pc.AtMove? ==> MoveFits(w, pc, hosts))
         && (pc.TickAsk? ==> c.route.Tor?)
         && (pc.AtMove? && !pc.move.ReadRoute? ==> pc.from == c.route))
    && (c.wallet.None? && !(pc.AtClose? && pc.close in {CloseHandle, Forget}) ==>
         c.route.Direct? && c.dialPeer == "" && c.daemonHeight == 0)
    && (hosts && pc.AtOpen? ==> HasHost(pc.node))
    && (hosts && pc.AtMove? ==> HasHost(pc.target) && (pc.given.Some? ==> HasHost(pc.given.value)))
  }

  // ---- Built transactions ----

  ghost predicate PendingFits(
    wallet: Option<nat>, pending: map<string, nat>, nextTx: nat, fates: map<string, Fate>, commits: seq<string>)
  {
    && (forall k :: k in pending ==> wallet == Some(pending[k]) && k in fates && fates[k] == Live(pending[k]))
    && (forall k :: k in fates && fates[k].Live? ==> k in pending)
    && (forall n :: n >= nextTx ==> TxKey(n) !in fates)
    && (forall k :: k in commits <==> k in fates && fates[k].Committed?)
    && (forall i, j :: 0 <= i < j < |commits| ==> commits[i] != commits[j])
  }

  // ---- The node module's locks ----

  function LockSet(c: Core, pc: Pc): set<string> {
    if (c.wallet.Some? && !(pc.AtOpen? && pc.open in {Publish, Notify})) || (pc.AtClose? && pc.close in {CloseHandle, Forget, Unlock})
    then {c.network} else {}
  }

  ghost predicate LocksFit(c: Core, pc: Pc) {
    && (c.locksReset ==> c.locks * NETWORKS == LockSet(c, pc))
    && (!c.locksReset ==> c.wallet.None? && (pc.Idle? || pc.TickRead?))
    && (pc.AtOpen? && !pc.open.Policy? ==> pc.job.network in NETWORKS)
    && (LockSet(c, pc) != {} || (pc.AtOpen? && pc.open.Notify?) ==> c.network in NETWORKS)
    && (pc.AtOpen? && pc.open in {Notify, Finish} ==> c.network == pc.job.network)
  }

  // ---- The probe ----

  function Reading(p: Probe): Option<nat> { if p.Asleep? then None else Some(p.handle) }

  // The probe reads only the open wallet, and so does the height it left.
  ghost predicate HeightFits(c: Core, p: Probe) {
    && (!p.Asleep? ==> c.wallet == Reading(p))
    && (c.wallet.Some? && c.daemonHeight != 0 ==> c.wallet == Some(c.heightFrom))
  }

  // ---- Catching up ----

  // `top` is the greatest height seen, 0 before any.
  ghost predicate Highest(seen: seq<(Instant, nat)>, top: nat) {
    && (forall i :: 0 <= i < |seen| ==> seen[i].1 <= top)
    && (top != 0 ==> exists i :: 0 <= i < |seen| && seen[i].1 == top)
  }

  // ... and `at` is when it was first seen.
  ghost predicate FirstReached(seen: seq<(Instant, nat)>, openedAt: Instant, top: nat, at: Instant) {
    if top == 0 then at == openedAt
    else exists i :: 0 <= i < |seen| && seen[i] == (at, top) && forall j :: 0 <= j < i ==> seen[j].1 < top
  }

  // What some theorems assume of the world: every proxy names a host; while catching up, ticks
  // come at most `gap` apart and heights stay at or below `ceiling`.
  datatype World = World(hosts: bool, paced: bool, gap: nat, ceiling: nat)

  const ANY_WORLD: World := World(false, false, 0, 0)

  function Patience(m: World): int { GIVE_UP + m.gap }

  // Each block buys at most one more wait.
  ghost predicate Waits(top: nat, at: Instant, openedAt: Instant, lastTick: Instant, moving: bool, m: World) {
    && top <= m.ceiling
    && at <= openedAt + top * Patience(m)
    && lastTick <= at + (if moving then Patience(m) else GIVE_UP)
  }

  ghost predicate PaceFits(
    route: Route, seen: seq<(Instant, nat)>, openedAt: Instant, lastTick: Instant, top: nat, at: Instant, moving: bool, m: World)
  {
    && Highest(seen, top)
    && (route.CatchUp? ==> FirstReached(seen, openedAt, top, at) && (m.paced ==> Waits(top, at, openedAt, lastTick, moving, m)))
  }

  // ---- All of it ----

  ghost predicate CoreInv(c: Core, pc: Pc, m: World) {
    && Fits(c, pc) && HandlesFit(c.wallets, c.wallet, Owned(pc)) && WalletsFit(c.wallets, m.hosts)
    && PlaceFits(c, pc) && StateFits(c, pc) && SessionFits(c, pc, m.hosts) && LocksFit(c, pc)
    && PendingFits(c.wallet, c.pending, c.nextTx, c.fates, c.commits)
    && PaceFits(c.route, c.seen, c.openedAt, c.lastTick, c.progressHeight, c.progressAt, pc.AtMove?, m)
  }

  ghost predicate DownInv(c: Core, pc: Pc, m: World) {
    && c.wallet.None? && pc.Idle? && HandlesFit(c.wallets, None, None) && WalletsFit(c.wallets, m.hosts)
  }

  ghost predicate Inv(s: System, m: World) {
    && (if s.down then DownInv(s.c, s.pc, m) else CoreInv(s.c, s.pc, m))
    && HeightFits(s.c, s.probe)
  }

  // ---- History: what one step may do to the past ----

  ghost predicate Grows(v: Wallet2, w: Wallet2) {
    && v.began == w.began && v.origin == w.origin && (v.moved ==> w.moved) && v.closes <= w.closes && v.log <= w.log
    && (v.before.Some? ==> w.before == v.before)
  }

  ghost predicate AllGrow(vs: seq<Wallet2>, ws: seq<Wallet2>) {
    |vs| <= |ws| && forall h :: 0 <= h < |vs| ==> Grows(vs[h], ws[h])
  }

  // A transaction committed, disposed of or dropped stays so.
  ghost predicate Final(
    fates: map<string, Fate>, commits: seq<string>, fates': map<string, Fate>, commits': seq<string>)
  {
    && (forall k :: k in fates ==> k in fates' && (fates[k].Live? || fates'[k] == fates[k]))
    && commits <= commits'
  }
}
