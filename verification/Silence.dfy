// What a move that throws leaves behind when it had begun from Tor: the runtime still says Tor, and
// wallet2 stays offline until another onion is picked.
module Silence {
  import opened Bytes
  import opened Text
  import opened Worker
  import opened System
  import opened Invariant
  import opened Runs
  import opened Throws
  import opened Endings
  import Address

  // ---- A session on Tor whose wallet2 is offline ----

  // Wallet h is offline; while it is the open one, the route is Tor, bound to that onion, and no move
  // is under way.
  ghost predicate MuteAt(c: Core, pc: Pc, h: nat, onion: string) {
    && h < |c.wallets| && c.wallets[h].mode.Offline? && !(pc.AtOpen? && Owned(pc) == Some(h))
    && (c.wallet == Some(h) ==>
         && c.route.Tor? && c.torUrl == onion && !pc.AtMove? && (pc.TickAsk? ==> pc.bound == onion)
         && !(pc.AtOpen? && pc.open in {Publish, Notify, Finish}))
  }

  // Neither its mode nor its requests change.
  predicate SameTalk(vs: seq<Wallet2>, ws: seq<Wallet2>, h: nat) {
    h < |vs| && h < |ws| && ws[h].mode == vs[h].mode && ws[h].log == vs[h].log
  }

  // No answer that this section acts upon names another onion that is ready.
  predicate NoOtherOnion(pc: Pc, a: Answers, onion: string) {
    pc.TickAsk? ==> !(TorReady(a.node) && a.node.url != onion)
  }

  ghost predicate StaysMute(c: Core, t: Step, h: nat, onion: string) {
    MuteAt(t.c, t.pc, h, onion) && SameTalk(c.wallets, t.c.wallets, h)
  }

  // A section that touches no wallet of old, nor what the session is bound to.
  lemma Untouched(c: Core, pc: Pc, t: Step, h: nat, onion: string)
    requires MuteAt(c, pc, h, onion) && c.wallets <= t.c.wallets
    requires t.c.wallet == c.wallet && t.c.route == c.route && t.c.torUrl == c.torUrl
    requires !(t.pc.AtOpen? && Owned(t.pc) == Some(h)) && !t.pc.AtMove?
    requires t.pc.TickAsk? ==> t.pc.bound == c.torUrl
    requires t.pc.AtOpen? && t.pc.open in {Publish, Notify, Finish} ==> c.wallet != Some(h)
    ensures StaysMute(c, t, h, onion)
  {}

  lemma BeforeMute(c: Core, pc: Pc, a: Answers, h: nat, onion: string)
    requires pc.AtOpen? && (pc.open in {Policy, Guard, Announce} || pc.open.GiveUp?)
    requires Fits(c, pc) && MuteAt(c, pc, h, onion)
    ensures StaysMute(c, BeforeHandle(c, pc, a), h, onion)
  {
    hide PolicyError, RouteOf, StaysMute, MuteAt;
    Untouched(c, pc, BeforeHandle(c, pc, a), h, onion);
  }

  lemma CallMute(c: Core, pc: Pc, a: Answers, h: nat, onion: string)
    requires pc.AtOpen? && pc.open.Call? && Fits(c, pc) && MuteAt(c, pc, h, onion)
    ensures StaysMute(c, BeforeHandle(c, pc, a), h, onion)
  {
    assert h < |c.wallets|;
    hide RouteOf, StaysMute, MuteAt;
    var t := BeforeHandle(c, pc, a);
    if t.pc.AtOpen? {
      assert t.c == c.(wallets := c.wallets + [NewWallet(pc.node)]);
      assert t.pc.handle == |c.wallets| && (t.pc.open.CheckNetwork? || t.pc.open.Discard?);
    } else {
      assert t.pc.Idle? && t.c == c.(state := NoWallet);
    }
    hide BeforeHandle;
    Untouched(c, pc, t, h, onion);
  }

  // A section of an open, which has another wallet in hand.
  lemma SetsUpAnother(c: Core, pc: Pc, t: Step, h: nat, onion: string)
    requires pc.AtOpen? && MuteAt(c, pc, h, onion) && Owned(pc) == Some(pc.handle) && pc.handle < |c.wallets|
    requires t.c == c.(wallets := t.c.wallets) && |t.c.wallets| == |c.wallets|
    requires forall k :: 0 <= k < |c.wallets| && k != pc.handle ==> t.c.wallets[k] == c.wallets[k]
    requires t.pc.AtOpen? && t.pc.handle == pc.handle && t.pc.open !in {Publish, Notify, Finish}
    ensures StaysMute(c, t, h, onion)
  {}

  lemma WithMute(c: Core, pc: Pc, a: Answers, h: nat, onion: string)
    requires pc.AtOpen? && (pc.open in {CheckNetwork, Init, GoOffline, Trust, Connect} || pc.open.Discard?)
    requires Fits(c, pc) && MuteAt(c, pc, h, onion)
    ensures StaysMute(c, WithHandle(c, pc, a), h, onion)
  {
    hide RouteOf, DialUrl, DialProxy, HostPort, IsLoopback, AnyPoll, NettypeOf, InitTo, MuteAt, StaysMute;
    SetsUpAnother(c, pc, WithHandle(c, pc, a), h, onion);
  }

  lemma AfterMute(c: Core, pc: Pc, a: Answers, h: nat, onion: string)
    requires pc.AtOpen? && pc.open in {Install, Publish, Notify, Finish}
    requires Fits(c, pc) && PlaceFits(c, pc) && MuteAt(c, pc, h, onion)
    ensures StaysMute(c, AfterSetup(c, pc, a), h, onion)
  {
    hide RouteOf, DialUrl, DialProxy, HostPort;
  }

  lemma CloseHandleMute(c: Core, pc: Pc, a: Answers, h: nat, onion: string)
    requires pc.AtClose? && pc.close.CloseHandle? && Fits(c, pc) && MuteAt(c, pc, h, onion)
    ensures StaysMute(c, CloseStep(c, pc, a), h, onion)
  {
    var t := CloseStep(c, pc, a);
    assert t == Step(SetWallet(c, pc.handle, c.wallets[pc.handle].(closes := c.wallets[pc.handle].closes + 1)), pc.(close := Forget));
    hide CloseStep;
  }

  lemma CloseMute(c: Core, pc: Pc, a: Answers, h: nat, onion: string)
    requires pc.AtClose? && !pc.close.CloseHandle? && Fits(c, pc) && PlaceFits(c, pc) && MuteAt(c, pc, h, onion)
    ensures StaysMute(c, CloseStep(c, pc, a), h, onion)
  {
    hide DroppedFates;
    var t := CloseStep(c, pc, a);
    assert t.c.wallets == c.wallets && (t.pc.Idle? || t.pc.AtClose?);
    assert t.c.wallet.None?;
    hide CloseStep;
  }

  // A send of an offline wallet logs nothing.
  lemma SentMute(c: Core, at: nat, purpose: Purpose, h: nat)
    requires at < |c.wallets| && h < |c.wallets| && c.wallets[h].mode.Offline?
    ensures SameTalk(c.wallets, Sent(c, at, purpose).wallets, h)
  {}

  lemma CreateMute(c: Core, amount: string, address: string, a: Answers, h: nat)
    requires c.wallet.Some? ==> c.wallet.value < |c.wallets|
    requires h < |c.wallets| && c.wallets[h].mode.Offline?
    ensures var t := CreateStep(c, amount, address, a).c;
      && SameTalk(c.wallets, t.wallets, h)
      && t.wallet == c.wallet && t.route == c.route && t.torUrl == c.torUrl
  {
    hide Address.IsAddress, ParseAtomic, TxKey, Sent, Fits, SendsWait;
    var t := CreateStep(c, amount, address, a).c;
    if t != c {
      var d := Sent(c, c.wallet.value, Create);
      SentMute(c, c.wallet.value, Create, h);
      assert t.wallets == d.wallets && t.wallet == d.wallet && t.route == d.route && t.torUrl == d.torUrl;
    }
  }

  lemma CommitMute(c: Core, k: string, a: Answers, h: nat)
    requires c.wallet.Some? ==> c.wallet.value < |c.wallets|
    requires h < |c.wallets| && c.wallets[h].mode.Offline?
    ensures var t := CommitStep(c, k, a).c;
      && SameTalk(c.wallets, t.wallets, h)
      && t.wallet == c.wallet && t.route == c.route && t.torUrl == c.torUrl
  {
    hide Sent, Fits, SendsWait;
    if c.wallet.Some? { SentMute(c, c.wallet.value, Commit, h); }
  }

  lemma SendMute(c: Core, pc: Pc, a: Answers, h: nat, onion: string)
    requires pc.AtSend? && Fits(c, pc) && MuteAt(c, pc, h, onion)
    ensures StaysMute(c, SendStep(c, pc.send, a), h, onion)
  {
    hide CreateStep, CommitStep;
    match pc.send
    case CreateTransaction(amount, address) => CreateMute(c, amount, address, a, h);
    case CommitTransaction(k) => CommitMute(c, k, a, h);
    case _ =>
  }

  lemma NoteMute(c: Core, pc: Pc, a: Answers, h: nat, onion: string)
    requires pc.TickNote? && Fits(c, pc) && MuteAt(c, pc, h, onion)
    ensures StaysMute(c, TickStep(c, pc, a), h, onion)
  {}

  lemma AskMute(c: Core, pc: Pc, a: Answers, h: nat, onion: string)
    requires pc.TickAsk? && Fits(c, pc) && MuteAt(c, pc, h, onion) && NoOtherOnion(pc, a, onion)
    ensures StaysMute(c, TickStep(c, pc, a), h, onion)
  {
    hide TorReady;
    var t := TickStep(c, pc, a);
    assert t.c == c && (t.pc == TickFlip(pc.synced) || (t.pc.AtMove? && c.wallet != Some(h)));
    hide TickStep;
  }

  lemma TickMute(c: Core, pc: Pc, a: Answers, h: nat, onion: string)
    requires (pc.TickRead? || pc.TickFlip?) && Fits(c, pc) && MuteAt(c, pc, h, onion)
    ensures StaysMute(c, TickStep(c, pc, a), h, onion)
  {
    hide StaysMute, MuteAt;
    var t := TickStep(c, pc, a);
    if pc.TickRead? {
      assert t.c == c && (t.pc.Idle? || t.pc.TickNote?);
    } else if c.state.Syncing? && pc.synced {
      assert t == Step(c.(state := Ready), Idle(Okay));
    } else if c.state.Ready? && !pc.synced {
      assert t == Step(c.(state := Syncing), Idle(Okay));
    } else {
      assert t == Step(c, Idle(Okay));
    }
    hide TickStep;
    Untouched(c, pc, t, h, onion);
  }

  // A section of a move, which is of another wallet.
  lemma MovesAnother(c: Core, pc: Pc, t: Step, h: nat, onion: string)
    requires pc.AtMove? && MuteAt(c, pc, h, onion)
    requires t.c.wallet == c.wallet && SameTalk(c.wallets, t.c.wallets, h) && !t.pc.AtOpen?
    ensures StaysMute(c, t, h, onion)
  {}

  lemma EarlyMoveMute(c: Core, pc: Pc, a: Answers, h: nat)
    requires pc.AtMove? && pc.move in {ReadRoute, Resolve, Quiet, Drain} && Fits(c, pc)
    requires h < |c.wallets| && c.wallet != Some(h)
    ensures var t := MoveStep(c, pc, a);
      t.c.wallet == c.wallet && SameTalk(c.wallets, t.c.wallets, h) && !t.pc.AtOpen?
  {
    hide TorReady;
  }

  lemma LateMoveMute(c: Core, pc: Pc, a: Answers, h: nat)
    requires pc.AtMove? && pc.move in {Distrust, Resume, Settle} && Fits(c, pc)
    requires h < |c.wallets| && c.wallet != Some(h)
    ensures var t := MoveStep(c, pc, a);
      t.c.wallet == c.wallet && SameTalk(c.wallets, t.c.wallets, h) && !t.pc.AtOpen?
  {
    hide HostPort;
  }

  lemma RedialMute(c: Core, pc: Pc, a: Answers, h: nat)
    requires pc.AtMove? && pc.move.Redial? && Fits(c, pc)
    requires h < |c.wallets| && c.wallet != Some(h)
    ensures var t := MoveStep(c, pc, a);
      t.c.wallet == c.wallet && SameTalk(c.wallets, t.c.wallets, h) && !t.pc.AtOpen?
  {
    hide HostPort, TorReady, InitTo;
  }

  lemma MoveMute(c: Core, pc: Pc, a: Answers, h: nat, onion: string)
    requires pc.AtMove? && Fits(c, pc) && MuteAt(c, pc, h, onion)
    ensures StaysMute(c, MoveStep(c, pc, a), h, onion)
  {
    assert h < |c.wallets| && c.wallet != Some(h);
    hide MoveStep, MuteAt, StaysMute, SameTalk;
    if pc.move in {ReadRoute, Resolve, Quiet, Drain} {
      EarlyMoveMute(c, pc, a, h);
    } else if pc.move.Redial? {
      RedialMute(c, pc, a, h);
    } else {
      LateMoveMute(c, pc, a, h);
    }
    MovesAnother(c, pc, MoveStep(c, pc, a), h, onion);
  }

  lemma WorkerMute(c: Core, pc: Pc, a: Answers, h: nat, onion: string)
    requires !pc.Idle? && Fits(c, pc) && PlaceFits(c, pc) && MuteAt(c, pc, h, onion) && NoOtherOnion(pc, a, onion)
    ensures StaysMute(c, WorkerStep(c, pc, a), h, onion)
  {
    hide StaysMute, MuteAt, PlaceFits, BeforeHandle, WithHandle, AfterSetup, CloseStep, SendStep, TickStep, MoveStep,
      NoOtherOnion;
    match pc
    case AtOpen(open, _, _, _) =>
      if open in {Policy, Guard, Announce} || open.GiveUp? {
        BeforeMute(c, pc, a, h, onion);
      } else if open.Call? {
        CallMute(c, pc, a, h, onion);
      } else if open in {Install, Publish, Notify, Finish} {
        AfterMute(c, pc, a, h, onion);
      } else {
        WithMute(c, pc, a, h, onion);
      }
    case AtClose(close, _) =>
      if close.CloseHandle? { CloseHandleMute(c, pc, a, h, onion); } else { CloseMute(c, pc, a, h, onion); }
    case AtRescan(_) => RescanMute(c, pc, h, onion);
    case AtSend(_) => SendMute(c, pc, a, h, onion);
    case AtMove(_, _, _, _, _, _, _) => MoveMute(c, pc, a, h, onion);
    case TickNote(_, _) => NoteMute(c, pc, a, h, onion);
    case TickAsk(_, _, _) => AskMute(c, pc, a, h, onion);
    case _ => TickMute(c, pc, a, h, onion);
  }

  lemma RescanMute(c: Core, pc: Pc, h: nat, onion: string)
    requires pc.AtRescan? && Fits(c, pc) && MuteAt(c, pc, h, onion)
    ensures StaysMute(c, RescanStep(c, pc), h, onion)
  {}

  // ---- Runs ----

  ghost predicate Mute(s: System, h: nat, onion: string) { MuteAt(s.c, s.pc, h, onion) }

  lemma WorkMute(s: System, a: Answers, h: nat, onion: string)
    requires Intact(s) && Enabled(s, Work(a)) && Mute(s, h, onion) && NoOtherOnion(s.pc, a, onion)
    ensures Mute(Do(s, Work(a)), h, onion) && SameTalk(s.c.wallets, Do(s, Work(a)).c.wallets, h)
  {
    hide WorkerStep, PlaceFits, Held, MuteAt, NoOtherOnion;
    WorkerMute(s.c, s.pc, a, h, onion);
  }

  lemma IssueMute(s: System, at: nat, h: nat, onion: string)
    requires Fits(s.c, s.pc) && Enabled(s, Issue(at)) && Mute(s, h, onion)
    ensures Mute(Do(s, Issue(at)), h, onion) && SameTalk(s.c.wallets, Do(s, Issue(at)).c.wallets, h)
  {
    assert at != h;
  }

  lemma BeginMute(s: System, job: Job, h: nat, onion: string)
    requires Fits(s.c, s.pc) && Enabled(s, Begin(job)) && Mute(s, h, onion)
    ensures Mute(Do(s, Begin(job)), h, onion) && SameTalk(s.c.wallets, Do(s, Begin(job)).c.wallets, h)
  {}

  lemma ShutdownMute(s: System, h: nat, onion: string)
    requires Fits(s.c, s.pc) && Enabled(s, Shutdown) && Mute(s, h, onion)
    ensures Mute(Do(s, Shutdown), h, onion) && SameTalk(s.c.wallets, Do(s, Shutdown).c.wallets, h)
  {
    assert h < |s.c.wallets|;
    hide Closed, MuteAt, SameTalk;
    ClosedTalk(s.c, h);
    MuteAlone(s.c, Closed(s.c), s.pc, h, onion);
  }

  lemma ClosedTalk(c: Core, h: nat)
    requires (c.wallet.Some? ==> c.wallet.value < |c.wallets|) && h < |c.wallets|
    ensures Closed(c).wallet.None? && SameTalk(c.wallets, Closed(c).wallets, h)
  {}

  lemma MuteAlone(c: Core, d: Core, pc: Pc, h: nat, onion: string)
    requires MuteAt(c, pc, h, onion) && d.wallet.None? && SameTalk(c.wallets, d.wallets, h)
    ensures MuteAt(d, pc, h, onion)
  {}

  lemma StillMute(c: Core, d: Core, pc: Pc, h: nat, onion: string)
    requires MuteAt(c, pc, h, onion)
    requires d.wallets == c.wallets && d.wallet == c.wallet && d.route == c.route && d.torUrl == c.torUrl
    ensures MuteAt(d, pc, h, onion) && SameTalk(c.wallets, d.wallets, h)
  {}

  lemma WriteMute(s: System, h: nat, onion: string)
    requires Fits(s.c, s.pc) && Enabled(s, ProbeWrite) && Mute(s, h, onion)
    ensures Mute(Do(s, ProbeWrite), h, onion) && SameTalk(s.c.wallets, Do(s, ProbeWrite).c.wallets, h)
  {
    hide MuteAt, SameTalk, Fits;
    StillMute(s.c, Do(s, ProbeWrite).c, s.pc, h, onion);
  }

  lemma OtherMute(s: System, act: Act, h: nat, onion: string)
    requires Fits(s.c, s.pc) && Enabled(s, act) && Mute(s, h, onion)
    requires !act.Work? && !act.Restart? && !act.Issue? && !act.Begin? && !act.Shutdown? && !act.ProbeWrite?
    ensures Mute(Do(s, act), h, onion) && SameTalk(s.c.wallets, Do(s, act).c.wallets, h)
  {
    hide MuteAt, SameTalk, Fits;
    var t := Do(s, act);
    StillMute(s.c, s.c, s.pc, h, onion);
    StillMute(s.c, s.c.(dirSet := true), s.pc, h, onion);
    if act.SetDir? {
      assert t == s.(c := s.c.(dirSet := true));
    } else {
      assert t.c == s.c && t.pc == s.pc;
    }
    hide Do, Enabled;
  }

  lemma EdgeMute(s: System, e: Edge, h: nat, onion: string)
    requires Intact(s) && Possible(s, e) && e != Acts(Restart) && Mute(s, h, onion)
    requires e.Acts? && e.act.Work? ==> NoOtherOnion(s.pc, e.act.a, onion)
    ensures Mute(Next(s, e), h, onion) && SameTalk(s.c.wallets, Next(s, e).c.wallets, h)
  {
    hide Enabled, Do, PlaceFits, Held, NoOtherOnion;
    match e
    case Throws =>
    case Acts(act) =>
      hide MuteAt;
      match act
      case Work(a) => WorkMute(s, a, h, onion);
      case Issue(at) => IssueMute(s, at, h, onion);
      case Begin(job) => BeginMute(s, job, h, onion);
      case Shutdown => ShutdownMute(s, h, onion);
      case ProbeWrite => WriteMute(s, h, onion);
      case _ => OtherMute(s, act, h, onion);
  }

  ghost predicate OnlyThatOnion(s: System, es: seq<Edge>, onion: string)
    requires LegalEdges(s, es)
    decreases |es|
  {
    es == [] ||
      ((es[0].Acts? && es[0].act.Work? ==> NoOtherOnion(s.pc, es[0].act.a, onion))
       && OnlyThatOnion(Next(s, es[0]), es[1..], onion))
  }

  // Whatever runs and whatever throws, for as long as asking finds no other onion ready: the wallet
  // stays offline, no request of its own goes out, a send as little as a refresh, and while it is
  // open the runtime says Tor.
  lemma {:induction false} SilentOnTor(s: System, es: seq<Edge>, h: nat, onion: string)
    requires Intact(s) && LegalEdges(s, es) && Acts(Restart) !in es && OnlyThatOnion(s, es, onion) && Mute(s, h, onion)
    ensures var t := AfterEdges(s, es); Mute(t, h, onion) && SameTalk(s.c.wallets, t.c.wallets, h)
    decreases |es|
  {
    assert SameTalk(s.c.wallets, s.c.wallets, h);
    hide Intact, Possible, Next, MuteAt, NoOtherOnion;
    if es != [] {
      EdgeStrays(s, es[0]);
      EdgeMute(s, es[0], h, onion);
      SilentOnTor(Next(s, es[0]), es[1..], h, onion);
    }
  }

  // How it comes about: a throw in a move from Tor, from the redial on and short of going online.
  lemma ThrowMutes(s: System, m: World)
    requires Inv(s, m) && !s.down && s.pc.AtMove? && s.c.route.Tor?
    requires s.pc.move in {Redial, Distrust, Resume} || (s.pc.move.Settle? && !s.pc.moved)
    ensures Possible(s, Throws) && s.c.wallet.Some? && Mute(Next(s, Throws), s.c.wallet.value, s.c.torUrl)
  {
    hide HandlesFit, WalletsFit, StateFits, PendingFits, PaceFits, LocksFit, HostPort, HasHost;
  }

  // ---- How it ends ----

  // A wallet on its way through a move.
  predicate Midway(c: Core, pc: Pc)
    requires pc.AtMove?
  {
    && c.wallet.Some? && c.wallet.value < |c.wallets|
    && var w, there := c.wallets[c.wallet.value], pc.move in {Distrust, Resume} || (pc.move.Settle? && pc.moved);
       && (match pc.move
           case ReadRoute => w.mode.Offline? || !c.route.WaitingForTor?
           case Resolve => w.mode.Offline? || !pc.from.WaitingForTor?
           case Quiet => true
           case Drain => w.mode.Offline? || w.mode.Draining?
           case Settle => if pc.moved then w.mode.Online? else w.mode.Offline?
           case _ => w.mode.Offline?)
       && (there ==> w.source == pc.target.url && w.url == HostPort(pc.target.url) && w.proxy == HostPort(pc.target.proxy))
       && (there && !pc.move.Distrust? ==> !w.trusted)
  }

  // Online on that onion, as the runtime's fields have it, or offline as before.
  predicate CameTo(c: Core, h: nat, online: bool, n: Node) {
    && c.wallet == Some(h) && h < |c.wallets|
    && var w := c.wallets[h];
       if online then
         && w.mode.Online? && !w.trusted && w.source == n.url == c.torUrl && w.url == HostPort(n.url)
         && w.proxy == HostPort(n.proxy) == c.dialPeer
       else w.mode.Offline?
  }

  // One section of such a move.
  ghost predicate GoesThrough(c: Core, pc: Pc, t: Step, a: Answers)
    requires pc.AtMove? && c.wallet.Some? && c.wallet.value < |c.wallets|
  {
    && t.c.wallet == c.wallet && SameLogs(c.wallets, t.c.wallets)
    && if t.pc.AtMove? then
         Midway(t.c, t.pc) && (WillMove(t.pc, a) <==> WillMove(pc, a)) && Aim(t.pc, a) == Aim(pc, a)
       else t.pc == TickFlip(pc.synced) && CameTo(t.c, c.wallet.value, WillMove(pc, a), Aim(pc, a))
  }

  predicate SameLogs(vs: seq<Wallet2>, ws: seq<Wallet2>) {
    |ws| == |vs| && forall h :: 0 <= h < |vs| ==> ws[h].log == vs[h].log
  }

  lemma EarlyGoesThrough(c: Core, pc: Pc, a: Answers)
    requires pc.AtMove? && pc.move in {ReadRoute, Resolve, Quiet, Drain} && Fits(c, pc) && Midway(c, pc)
    ensures GoesThrough(c, pc, MoveStep(c, pc, a), a)
  {
    hide TorReady, HostPort, InitTo;
  }

  lemma RedialGoesThrough(c: Core, pc: Pc, a: Answers)
    requires pc.AtMove? && pc.move.Redial? && Fits(c, pc) && Midway(c, pc)
    ensures GoesThrough(c, pc, MoveStep(c, pc, a), a)
  {
    hide TorReady, HostPort;
    var t := MoveStep(c, pc, a);
    if !TorReady(pc.target) {
      assert t == Step(c, pc.(move := Settle, moved := false));
    } else if a.initOk {
      assert t.pc == pc.(move := Distrust);
    } else {
      assert t.pc == pc.(move := Settle, moved := false);
    }
    hide MoveStep;
  }

  lemma LateGoesThrough(c: Core, pc: Pc, a: Answers)
    requires pc.AtMove? && pc.move in {Distrust, Resume, Settle} && Fits(c, pc) && Midway(c, pc)
    ensures GoesThrough(c, pc, MoveStep(c, pc, a), a)
  {
    hide TorReady, HostPort;
  }

  lemma {:induction false} MoveRepairs(c: Core, pc: Pc, a: Answers)
    requires pc.AtMove? && Fits(c, pc) && Midway(c, pc)
    ensures var t := RunFrom(c, pc, a).c;
      CameTo(t, c.wallet.value, WillMove(pc, a), Aim(pc, a)) && SameLogs(c.wallets, t.wallets)
    decreases Rank(pc)
  {
    assert c.wallet.Some? && c.wallet.value < |c.wallets|;
    hide MoveStep, Midway, CameTo, WillMove, Aim, Fits;
    var t := MoveStep(c, pc, a);
    assert WorkerStep(c, pc, a) == t;
    if pc.move in {ReadRoute, Resolve, Quiet, Drain} {
      EarlyGoesThrough(c, pc, a);
    } else if pc.move.Redial? {
      RedialGoesThrough(c, pc, a);
    } else {
      LateGoesThrough(c, pc, a);
    }
    if t.pc.AtMove? {
      MoveRepairs(t.c, t.pc, a);
    } else {
      FlipLeaves(t.c, t.pc, a, c.wallet.value, WillMove(pc, a), Aim(pc, a));
    }
  }

  lemma FlipLeaves(c: Core, pc: Pc, a: Answers, h: nat, online: bool, n: Node)
    requires pc.TickFlip? && Fits(c, pc) && CameTo(c, h, online, n)
    ensures CameTo(RunFrom(c, pc, a).c, h, online, n) && SameLogs(c.wallets, RunFrom(c, pc, a).c.wallets)
  {
    hide HostPort, RunFrom;
    FlipEnds(c, pc, a);
  }

  // Of a wallet left offline on a Tor route: the next tick brings it online, on the onion then
  // resolved, if and only if that is ready, init takes it, and, where the runtime says Tor, 60 s have
  // passed since it last asked and the onion is another; else it is offline still.
  lemma TickRepairs(c: Core, a: Answers)
    requires c.wallet.Some? && c.wallet.value < |c.wallets| && c.wallets[c.wallet.value].mode.Offline?
    requires c.route.Tor? || c.route.WaitingForTor?
    ensures var t := RunJob(c, Job.Tick, a).c;
      var due := c.route.Tor? ==> a.now - c.torAskedAt >= TOR_ASK_EVERY && a.node.url != c.torUrl;
      && CameTo(t, c.wallet.value, TorReady(a.node) && a.initOk && due, a.node)
      && SameLogs(c.wallets, t.wallets)
  {
    hide RunFrom, TorReady, CameTo;
    var d := Reset(c);
    ReadsFirst(d, a);
    NoteRepairs(d, TickNote(a.synced, a.height), a);
  }

  // A move takes the wallet online on the onion resolved, or leaves it offline: so it is when a
  // catch-up is over, by synchronization or 90 s without a new block, and when another onion is asked
  // for on Tor and found.
  lemma TickDials(c: Core, a: Answers)
    requires c.wallet.Some? && c.wallet.value < |c.wallets|
    requires var since := if a.height > c.progressHeight then a.now else c.progressAt;
      || (c.route.CatchUp? && (a.synced || a.now - since > 90_000_000_000))
      || (c.route.Tor? && a.now - c.torAskedAt >= 60_000_000_000 && TorReady(a.node) && a.node.url != c.torUrl)
    ensures var t := RunJob(c, Job.Tick, a).c;
      CameTo(t, c.wallet.value, TorReady(a.node) && a.initOk, a.node) && SameLogs(c.wallets, t.wallets)
  {
    hide RunFrom, TorReady, CameTo;
    var d := Reset(c);
    ReadsFirst(d, a);
    NoteDials(d, TickNote(a.synced, a.height), a);
  }

  lemma NoteDials(c: Core, pc: Pc, a: Answers)
    requires pc.TickNote? && Fits(c, pc) && c.wallet.Some?
    requires var since := if pc.height > c.progressHeight then a.now else c.progressAt;
      || (c.route.CatchUp? && (pc.synced || a.now - since > 90_000_000_000))
      || (c.route.Tor? && a.now - c.torAskedAt >= 60_000_000_000 && TorReady(a.node) && a.node.url != c.torUrl)
    ensures var t := RunFrom(c, pc, a).c;
      CameTo(t, c.wallet.value, TorReady(a.node) && a.initOk, a.node) && SameLogs(c.wallets, t.wallets)
  {
    hide TorReady, RunFrom, HostPort, CameTo;
    var t := TickStep(c, pc, a);
    NextRun(c, pc, a);
    hide MoveStep;
    if t.pc.AtMove? {
      MoveRepairs(t.c, t.pc, a);
    } else {
      AskLeadsOn(t.c, t.pc, a);
      var u := TickStep(t.c, t.pc, a);
      MoveRepairs(u.c, u.pc, a);
    }
  }

  lemma NoteRepairs(c: Core, pc: Pc, a: Answers)
    requires pc.TickNote? && Fits(c, pc) && c.wallet.Some? && c.wallets[c.wallet.value].mode.Offline?
    requires c.route.Tor? || c.route.WaitingForTor?
    ensures var t := RunFrom(c, pc, a).c;
      var due := c.route.Tor? ==> a.now - c.torAskedAt >= TOR_ASK_EVERY && a.node.url != c.torUrl;
      && CameTo(t, c.wallet.value, TorReady(a.node) && a.initOk && due, a.node)
      && SameLogs(c.wallets, t.wallets)
  {
    hide TorReady, RunFrom, HostPort;
    var t := TickStep(c, pc, a);
    NextRun(c, pc, a);
    hide MoveStep;
    if t.pc.AtMove? {
      MoveRepairs(t.c, t.pc, a);
    } else if t.pc.TickFlip? {
      FlipLeaves(t.c, t.pc, a, c.wallet.value, false, a.node);
    } else {
      AskLeadsOn(t.c, t.pc, a);
      var u := TickStep(t.c, t.pc, a);
      if u.pc.AtMove? {
        MoveRepairs(u.c, u.pc, a);
      } else {
        FlipLeaves(u.c, u.pc, a, c.wallet.value, false, a.node);
      }
    }
  }

  lemma NextRun(c: Core, pc: Pc, a: Answers)
    requires pc.TickNote? && Fits(c, pc)
    ensures RunFrom(c, pc, a) == RunFrom(TickStep(c, pc, a).c, TickStep(c, pc, a).pc, a)
  {
    hide TorReady;
    assert WorkerStep(c, pc, a) == TickStep(c, pc, a);
  }
}
