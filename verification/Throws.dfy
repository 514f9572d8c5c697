// Exceptions out of wallet2 or the node module, which run and threadMain catch: the section at work
// ends, its locks are let go, and what it held in hand is lost.
module Throws {
  import opened Bytes
  import opened Text
  import opened Worker
  import opened System
  import opened Invariant
  import opened Runs
  import opened Peers
  import Address

  datatype Edge = Acts(act: Act) | Throws

  ghost predicate Possible(s: System, e: Edge) {
    Fits(s.c, s.pc) && match e case Acts(act) => Enabled(s, act) case Throws => !s.down && !s.pc.Idle?
  }

  ghost function Next(s: System, e: Edge): System
    requires Possible(s, e)
  {
    match e case Acts(act) => Do(s, act) case Throws => s.(pc := Idle(Err(Thrown)))
  }

  ghost predicate LegalEdges(s: System, es: seq<Edge>)
    decreases |es|
  {
    es == [] || (Possible(s, es[0]) && LegalEdges(Next(s, es[0]), es[1..]))
  }

  ghost function AfterEdges(s: System, es: seq<Edge>): System
    requires LegalEdges(s, es)
    decreases |es|
  {
    if es == [] then s else AfterEdges(Next(s, es[0]), es[1..])
  }

  // ---- What one section does to the handles ----

  ghost predicate SameCloses(ws: seq<Wallet2>, us: seq<Wallet2>) {
    |us| == |ws| && forall h :: 0 <= h < |ws| ==> us[h].closes == ws[h].closes
  }

  lemma Tuned(ws: seq<Wallet2>, h: nat)
    requires h < |ws|
    ensures SameCloses(ws, ws)
    ensures forall w: Wallet2 :: w.closes == ws[h].closes ==> SameCloses(ws, ws[h := w])
  {}

  lemma Untuned(ws: seq<Wallet2>)
    ensures SameCloses(ws, ws)
  {}

  // Nothing, a new one in hand, the one in hand closed, the one in hand installed, or the open one
  // taken in hand.
  ghost predicate HandleMove(
    ws: seq<Wallet2>, wallet: Option<nat>, owned: Option<nat>, us: seq<Wallet2>, wallet': Option<nat>, owned': Option<nat>)
  {
    || (SameCloses(ws, us) && wallet' == wallet && owned' == owned)
    || (owned.None? && owned' == Some(|ws|) && wallet' == wallet && |us| == |ws| + 1 && us[..|ws|] == ws && us[|ws|].closes == 0)
    || (owned.Some? && owned'.None? && wallet' == wallet && owned.value < |ws|
        && us == ws[owned.value := ws[owned.value].(closes := ws[owned.value].closes + 1)])
    || (us == ws && wallet.None? && owned.Some? && wallet' == owned && owned'.None?)
    || (us == ws && wallet.Some? && owned.None? && wallet'.None? && owned' == wallet)
  }

  ghost predicate Carries(c: Core, pc: Pc, t: Step) {
    && PlaceFits(t.c, t.pc) && HandleMove(c.wallets, c.wallet, Owned(pc), t.c.wallets, t.c.wallet, Owned(t.pc))
    && (t.c.wallet.Some? && t.c.wallet != c.wallet ==> pc.AtOpen?) && t.c.dirSet == c.dirSet
  }

  lemma BeforeCarries(c: Core, pc: Pc, a: Answers)
    requires pc.AtOpen? && (pc.open in {Policy, Guard, Announce} || pc.open.GiveUp?) && Fits(c, pc) && PlaceFits(c, pc)
    ensures Carries(c, pc, BeforeHandle(c, pc, a))
  {
    hide PolicyError, RouteOf, SameCloses;
    Untuned(c.wallets);
  }

  lemma FailCarries(c: Core, pc: Pc, code: Code)
    requires pc.AtOpen? && pc.open.Call? && PlaceFits(c, pc)
    ensures Carries(c, pc, Fail(c, code))
  {
    hide SameCloses;
    Untuned(c.wallets);
  }

  lemma CallCarries(c: Core, pc: Pc, a: Answers)
    requires pc.AtOpen? && pc.open.Call? && Fits(c, pc) && PlaceFits(c, pc)
    ensures Carries(c, pc, BeforeHandle(c, pc, a))
  {
    hide RouteOf, SameCloses, Carries, PlaceFits;
    if pc.job.kind.OpenWallet? && !a.present {
      assert BeforeHandle(c, pc, a) == Fail(c, NoSuchWallet);
      FailCarries(c, pc, NoSuchWallet);
    } else if !pc.job.kind.OpenWallet? && a.present {
      assert BeforeHandle(c, pc, a) == Fail(c, WalletExists);
      FailCarries(c, pc, WalletExists);
    } else if !a.handle {
      assert BeforeHandle(c, pc, a) == Fail(c, OpenFailed);
      FailCarries(c, pc, OpenFailed);
    } else {
      HandReturned(c, pc, a);
    }
  }

  lemma HandReturned(c: Core, pc: Pc, a: Answers)
    requires pc.AtOpen? && pc.open.Call? && Fits(c, pc) && PlaceFits(c, pc) && a.handle
    requires pc.job.kind.OpenWallet? == a.present
    ensures Carries(c, pc, BeforeHandle(c, pc, a))
  {
    hide RouteOf, SameCloses;
    var next := if a.statusOk then CheckNetwork else Discard(OpenFailed);
    assert BeforeHandle(c, pc, a).pc == pc.(open := next, handle := |c.wallets|);
  }

  lemma SetUpHolds(c: Core, pc: Pc, t: Step)
    requires pc.AtOpen? && pc.open in {CheckNetwork, Init, GoOffline, Trust, Connect} && PlaceFits(c, pc)
    requires t.pc.AtOpen? && t.pc.handle == pc.handle
    requires t.pc.open in {Init, GoOffline, Trust, Connect, Install} || t.pc.open.Discard?
    requires t.c.wallet == c.wallet && SameCloses(c.wallets, t.c.wallets) && t.c.dirSet == c.dirSet
    ensures Carries(c, pc, t)
  {
    hide SameCloses;
  }

  lemma WithCarries(c: Core, pc: Pc, a: Answers)
    requires pc.AtOpen? && pc.open in {CheckNetwork, Init, GoOffline, Trust, Connect} && Fits(c, pc) && PlaceFits(c, pc)
    ensures Carries(c, pc, WithHandle(c, pc, a))
  {
    hide RouteOf, DialUrl, DialProxy, HostPort, IsLoopback, AnyPoll, NettypeOf, SameCloses, Carries, PlaceFits;
    Tuned(c.wallets, pc.handle);
    SetUpHolds(c, pc, WithHandle(c, pc, a));
  }

  lemma DiscardCarries(c: Core, pc: Pc, a: Answers)
    requires pc.AtOpen? && pc.open.Discard? && Fits(c, pc) && PlaceFits(c, pc)
    ensures Carries(c, pc, WithHandle(c, pc, a))
  {
    hide RouteOf, SameCloses;
  }

  lemma AfterCarries(c: Core, pc: Pc, a: Answers)
    requires pc.AtOpen? && pc.open in {Install, Publish, Notify, Finish} && Fits(c, pc) && PlaceFits(c, pc)
    ensures Carries(c, pc, AfterSetup(c, pc, a))
  {
    hide RouteOf, DialUrl, DialProxy, HostPort, SameCloses;
    Untuned(c.wallets);
  }

  lemma DetachCarries(c: Core, pc: Pc, a: Answers)
    requires pc.AtClose? && pc.close in {Detach, CloseHandle} && Fits(c, pc) && PlaceFits(c, pc)
    ensures Carries(c, pc, CloseStep(c, pc, a))
  {
    hide DroppedFates, SameCloses;
    Untuned(c.wallets);
  }

  lemma CloseCarries(c: Core, pc: Pc, a: Answers)
    requires pc.AtClose? && pc.close !in {Detach, CloseHandle} && Fits(c, pc) && PlaceFits(c, pc)
    ensures Carries(c, pc, CloseStep(c, pc, a))
  {
    hide DroppedFates, SameCloses;
    Untuned(c.wallets);
  }

  lemma TickCarries(c: Core, pc: Pc, a: Answers)
    requires (pc.TickRead? || pc.TickNote? || pc.TickAsk? || pc.TickFlip?) && Fits(c, pc) && PlaceFits(c, pc)
    ensures Carries(c, pc, TickStep(c, pc, a))
  {
    hide TorReady, SameCloses;
    Untuned(c.wallets);
  }

  lemma RescanCarries(c: Core, pc: Pc)
    requires pc.AtRescan? && Fits(c, pc) && PlaceFits(c, pc)
    ensures Carries(c, pc, RescanStep(c, pc))
  {
    hide SameCloses;
    Untuned(c.wallets);
  }

  lemma EarlyMoveCarries(c: Core, pc: Pc, a: Answers)
    requires pc.AtMove? && pc.move in {ReadRoute, Resolve, Quiet, Drain} && Fits(c, pc) && PlaceFits(c, pc)
    ensures Carries(c, pc, MoveStep(c, pc, a))
  {
    hide TorReady, HostPort, SameCloses;
    Tuned(c.wallets, c.wallet.value);
  }

  lemma RedialHolds(c: Core, pc: Pc, t: Step)
    requires pc.AtMove? && pc.move.Redial? && PlaceFits(c, pc)
    requires t.pc in {pc.(move := Settle, moved := false), pc.(move := Distrust)}
    requires t.c.wallet == c.wallet && SameCloses(c.wallets, t.c.wallets) && t.c.dirSet == c.dirSet
    ensures Carries(c, pc, t)
  {
    hide SameCloses;
  }

  lemma RedialCarries(c: Core, pc: Pc, a: Answers)
    requires pc.AtMove? && pc.move.Redial? && Fits(c, pc) && PlaceFits(c, pc)
    ensures Carries(c, pc, MoveStep(c, pc, a))
  {
    hide HostPort, SameCloses, Carries;
    Tuned(c.wallets, c.wallet.value);
    var w := c.wallets[c.wallet.value];
    if !TorReady(pc.target) {
      assert MoveStep(c, pc, a) == Step(c, pc.(move := Settle, moved := false));
      RedialHolds(c, pc, MoveStep(c, pc, a));
    } else if a.initOk {
      var v := InitTo(w, pc.target.url, HostPort(pc.target.proxy));
      assert MoveStep(c, pc, a) == Step(SetWallet(c, c.wallet.value, v), pc.(move := Distrust)) && v.closes == w.closes;
      RedialHolds(c, pc, MoveStep(c, pc, a));
    } else {
      var v := w.(url := a.wild.0, proxy := a.wild.1);
      assert MoveStep(c, pc, a) == Step(SetWallet(c, c.wallet.value, v), pc.(move := Settle, moved := false));
      RedialHolds(c, pc, MoveStep(c, pc, a));
    }
  }

  lemma LateMoveCarries(c: Core, pc: Pc, a: Answers)
    requires pc.AtMove? && pc.move in {Distrust, Resume, Settle} && Fits(c, pc) && PlaceFits(c, pc)
    ensures Carries(c, pc, MoveStep(c, pc, a))
  {
    hide HostPort, SameCloses;
    Tuned(c.wallets, c.wallet.value);
  }

  lemma SentCarries(c: Core, h: nat, purpose: Purpose)
    requires h < |c.wallets|
    ensures SameCloses(c.wallets, Sent(c, h, purpose).wallets)
  {
    hide CanIssue;
  }

  // A section that ends the job with every handle where it was.
  lemma EndsCarry(c: Core, pc: Pc, t: Step)
    requires t.pc.Idle? && Owned(pc).None?
    requires t.c.wallet == c.wallet && SameCloses(c.wallets, t.c.wallets) && t.c.dirSet == c.dirSet
    ensures Carries(c, pc, t)
  {
    hide SameCloses;
  }

  lemma CreateCarries(c: Core, amount: string, address: string, a: Answers)
    requires c.wallet.Some? ==> c.wallet.value < |c.wallets|
    ensures var t := CreateStep(c, amount, address, a).c;
      t.wallet == c.wallet && SameCloses(c.wallets, t.wallets) && t.dirSet == c.dirSet
  {
    hide Address.IsAddress, ParseAtomic, TxKey, Sent, Fits, SendsWait, SameCloses;
    Untuned(c.wallets);
    var t := CreateStep(c, amount, address, a).c;
    if t != c {
      var d := Sent(c, c.wallet.value, Create);
      SentCarries(c, c.wallet.value, Create);
      assert t.wallet == d.wallet && t.wallets == d.wallets && t.dirSet == d.dirSet;
    }
  }

  lemma CommitCarries(c: Core, k: string, a: Answers)
    requires c.wallet.Some? ==> c.wallet.value < |c.wallets|
    ensures var t := CommitStep(c, k, a).c;
      t.wallet == c.wallet && SameCloses(c.wallets, t.wallets) && t.dirSet == c.dirSet
  {
    hide Sent, Fits, SendsWait, SameCloses;
    Untuned(c.wallets);
    if c.wallet.Some? { SentCarries(c, c.wallet.value, Commit); }
  }

  lemma SendCarries(c: Core, pc: Pc, a: Answers)
    requires pc.AtSend? && Fits(c, pc) && PlaceFits(c, pc)
    ensures Carries(c, pc, SendStep(c, pc.send, a))
  {
    hide CreateStep, CommitStep, SameCloses, Carries, PlaceFits;
    Untuned(c.wallets);
    match pc.send {
      case CreateTransaction(amount, address) => CreateCarries(c, amount, address, a);
      case CommitTransaction(k) => CommitCarries(c, k, a);
      case _ =>
    }
    EndsCarry(c, pc, SendStep(c, pc.send, a));
  }

  lemma WorkerCarries(c: Core, pc: Pc, a: Answers)
    requires !pc.Idle? && Fits(c, pc) && PlaceFits(c, pc)
    ensures Carries(c, pc, WorkerStep(c, pc, a))
  {
    hide Carries, PlaceFits, BeforeHandle, WithHandle, AfterSetup, CloseStep, RescanStep, SendStep, TickStep, MoveStep;
    match pc
    case AtOpen(open, _, _, _) =>
      if open in {Policy, Guard, Announce} || open.GiveUp? {
        BeforeCarries(c, pc, a);
      } else if open.Call? {
        CallCarries(c, pc, a);
      } else if open in {CheckNetwork, Init, GoOffline, Trust, Connect} {
        WithCarries(c, pc, a);
      } else if open.Discard? {
        DiscardCarries(c, pc, a);
      } else {
        AfterCarries(c, pc, a);
      }
    case AtClose(close, _) => if close in {Detach, CloseHandle} { DetachCarries(c, pc, a); } else { CloseCarries(c, pc, a); }
    case AtRescan(_) => RescanCarries(c, pc);
    case AtSend(_) => SendCarries(c, pc, a);
    case AtMove(move, _, _, _, _, _, _) =>
      if move in {ReadRoute, Resolve, Quiet, Drain} {
        EarlyMoveCarries(c, pc, a);
      } else if move.Redial? {
        RedialCarries(c, pc, a);
      } else {
        LateMoveCarries(c, pc, a);
      }
    case _ => TickCarries(c, pc, a);
  }

  // ---- Handles that nobody holds ----

  // Live, but neither the open wallet nor in the worker's hands: leaked.
  ghost predicate StrayAt(ws: seq<Wallet2>, wallet: Option<nat>, owned: Option<nat>, h: nat) {
    h < |ws| && ws[h].closes == 0 && wallet != Some(h) && owned != Some(h)
  }

  ghost predicate Stray(s: System, h: nat) { StrayAt(s.c.wallets, s.c.wallet, Owned(s.pc), h) }

  // What is open or in hand is live; no handle is closed twice.
  ghost predicate Held(ws: seq<Wallet2>, wallet: Option<nat>, owned: Option<nat>) {
    && (forall h :: 0 <= h < |ws| ==> ws[h].closes <= 1)
    && (wallet.Some? ==> wallet.value < |ws| && ws[wallet.value].closes == 0 && owned.None?)
    && (owned.Some? ==> owned.value < |ws| && ws[owned.value].closes == 0)
  }

  lemma StraysStay(
    ws: seq<Wallet2>, wallet: Option<nat>, owned: Option<nat>, us: seq<Wallet2>, wallet': Option<nat>, owned': Option<nat>)
    requires HandleMove(ws, wallet, owned, us, wallet', owned') && Held(ws, wallet, owned)
    requires wallet'.Some? ==> owned'.None?
    ensures Held(us, wallet', owned')
    ensures forall h: nat :: StrayAt(us, wallet', owned', h) <==> StrayAt(ws, wallet, owned, h)
  {
    if owned.None? && owned' == Some(|ws|) && |us| == |ws| + 1 && us[..|ws|] == ws {
      assert forall h :: 0 <= h < |ws| ==> us[h] == us[..|ws|][h];
    }
  }

  ghost predicate Intact(s: System) {
    && Fits(s.c, s.pc) && PlaceFits(s.c, s.pc) && (s.down ==> s.c.wallet.None? && s.pc.Idle?)
    && Held(s.c.wallets, s.c.wallet, Owned(s.pc))
  }

  ghost predicate SameStrays(s: System, t: System) { forall h: nat :: Stray(t, h) <==> Stray(s, h) }

  lemma OneHand(c: Core, pc: Pc)
    requires PlaceFits(c, pc)
    ensures c.wallet.Some? ==> Owned(pc).None?
  {}

  lemma WorkStrays(s: System, a: Answers)
    requires Intact(s) && Enabled(s, Work(a))
    ensures Intact(Do(s, Work(a))) && SameStrays(s, Do(s, Work(a)))
  {
    hide WorkerStep, PlaceFits, HandleMove, Held, StrayAt, Owned;
    WorkerCarries(s.c, s.pc, a);
    var t := WorkerStep(s.c, s.pc, a);
    OneHand(t.c, t.pc);
    StraysStay(s.c.wallets, s.c.wallet, Owned(s.pc), t.c.wallets, t.c.wallet, Owned(t.pc));
  }

  // Shutdown closes the open wallet and finds no stray.
  lemma ShutdownStrays(s: System)
    requires Intact(s) && Enabled(s, Shutdown)
    ensures Intact(Do(s, Shutdown)) && SameStrays(s, Do(s, Shutdown))
  {
  }

  lemma BeginStrays(s: System, job: Job)
    requires Intact(s) && Enabled(s, Begin(job))
    ensures Intact(Do(s, Begin(job))) && SameStrays(s, Do(s, Begin(job)))
  {
    hide Held, StrayAt;
    assert Owned(Entry(job)).None? && Reset(s.c).wallets == s.c.wallets && Reset(s.c).wallet == s.c.wallet;
    hide Reset;
  }

  lemma OtherStrays(s: System, act: Act)
    requires Intact(s) && Enabled(s, act)
    requires !act.Work? && !act.Shutdown? && !act.Restart? && !act.Issue? && !act.Begin?
    ensures Intact(Do(s, act)) && SameStrays(s, Do(s, act))
  {
    hide Held, StrayAt, Owned;
    var t := Do(s, act);
    assert t.pc == s.pc && t.down == s.down && t.c.wallets == s.c.wallets && t.c.wallet == s.c.wallet;
  }

  lemma IssueStrays(s: System, h: nat)
    requires Intact(s) && Enabled(s, Issue(h))
    ensures Intact(Do(s, Issue(h))) && SameStrays(s, Do(s, Issue(h)))
  {
  }

  // A throw strays exactly what the section had in hand, and nothing else ever does.
  lemma ThrowStrays(s: System)
    requires Intact(s) && Possible(s, Throws)
    ensures var t := Next(s, Throws);
      && Intact(t)
      && (forall h: nat :: Stray(t, h) <==> Stray(s, h) || Owned(s.pc) == Some(h))
      && ((exists h: nat :: Stray(t, h) && !Stray(s, h)) <==> Owned(s.pc).Some?)
  {
    var t := Next(s, Throws);
    if Owned(s.pc).Some? {
      OneHand(s.c, s.pc);
      assert Stray(t, Owned(s.pc).value);
    }
  }

  // ---- Runs ----

  lemma EdgeStrays(s: System, e: Edge)
    requires Intact(s) && Possible(s, e) && e != Acts(Restart)
    ensures Intact(Next(s, e))
    ensures forall h: nat :: Stray(Next(s, e), h) <==> Stray(s, h) || (e.Throws? && Owned(s.pc) == Some(h))
  {
    hide Intact, Enabled, Do, Stray;
    match e
    case Throws => ThrowStrays(s);
    case Acts(act) =>
      match act
      case Work(a) => WorkStrays(s, a);
      case Shutdown => ShutdownStrays(s);
      case Issue(h) => IssueStrays(s, h);
      case Begin(job) => BeginStrays(s, job);
      case _ => OtherStrays(s, act);
  }

  // What the worker had in hand each time a section threw.
  ghost function Lost(s: System, es: seq<Edge>): set<nat>
    requires LegalEdges(s, es)
    decreases |es|
  {
    if es == [] then {}
    else
      var t := Next(s, es[0]);
      Lost(t, es[1..]) + if es[0].Throws? && Owned(s.pc).Some? then {Owned(s.pc).value} else {}
  }

  lemma {:induction false} EdgesStray(s: System, es: seq<Edge>)
    requires Intact(s) && LegalEdges(s, es) && Acts(Restart) !in es
    ensures Intact(AfterEdges(s, es))
    ensures forall h: nat :: Stray(AfterEdges(s, es), h) <==> Stray(s, h) || h in Lost(s, es)
    decreases |es|
  {
    hide Intact, Possible, Next, Stray;
    if es != [] {
      EdgeStrays(s, es[0]);
      EdgesStray(Next(s, es[0]), es[1..]);
    }
  }

  // With exceptions anywhere, no handle is closed twice, and the live handles that are neither open
  // nor in hand are exactly those a section had in hand when it threw; after shutdown they are all
  // that is live. With no exception there are none.
  lemma LeaksExactly(locks: set<string>, es: seq<Edge>)
    requires LegalEdges(Boot(locks), es) && Acts(Restart) !in es
    ensures var s := AfterEdges(Boot(locks), es);
      && (forall h :: 0 <= h < |s.c.wallets| ==> s.c.wallets[h].closes <= 1)
      && (forall h: nat :: Stray(s, h) <==> h in Lost(Boot(locks), es))
      && (s.down ==> forall h :: 0 <= h < |s.c.wallets| ==> (s.c.wallets[h].closes == 0 <==> h in Lost(Boot(locks), es)))
      && (Throws !in es ==> Lost(Boot(locks), es) == {})
  {
    hide LegalEdges, AfterEdges, Lost, PlaceFits, Fits;
    BootIntact(locks);
    EdgesStray(Boot(locks), es);
    var s := AfterEdges(Boot(locks), es);
    if Throws !in es { NothingLost(Boot(locks), es); }
    if s.down {
      forall h | 0 <= h < |s.c.wallets| ensures s.c.wallets[h].closes == 0 <==> h in Lost(Boot(locks), es) {
        assert Stray(s, h) <==> h in Lost(Boot(locks), es);
      }
    }
  }

  lemma BootIntact(locks: set<string>)
    ensures Intact(Boot(locks)) && forall h: nat :: !Stray(Boot(locks), h)
  {}

  lemma {:induction false} NothingLost(s: System, es: seq<Edge>)
    requires LegalEdges(s, es) && Throws !in es
    ensures Lost(s, es) == {}
    decreases |es|
  {
    hide Possible, Next;
    if es != [] {
      assert es[0] != Throws;
      NothingLost(Next(s, es[0]), es[1..]);
    }
  }

  // ---- A resolver that throws every time ----

  // The sections that ask the node module.
  predicate Asks(pc: Pc) {
    (pc.AtOpen? && pc.open.Policy?) || (pc.AtMove? && pc.move.Resolve?) || pc.TickAsk?
  }

  ghost predicate AskingThrows(s: System, es: seq<Edge>)
    requires LegalEdges(s, es)
    decreases |es|
  {
    es == [] || ((es[0].Acts? && es[0].act.Work? ==> !Asks(s.pc)) && AskingThrows(Next(s, es[0]), es[1..]))
  }

  // A wallet on CatchUp, with no move past its asking and no open past its own.
  ghost predicate Stuck(s: System, h: nat) {
    && (s.c.wallet == Some(h) ==> s.c.route.CatchUp?)
    && (s.c.wallet.Some? ==> s.c.wallet == Some(h))
    && (s.pc.AtOpen? ==> s.pc.open.Policy?)
    && (s.pc.AtMove? ==> s.pc.move.ReadRoute? || s.pc.move.Resolve?)
  }

  lemma WorkStuck(s: System, a: Answers, h: nat)
    requires Intact(s) && Enabled(s, Work(a)) && Stuck(s, h) && !Asks(s.pc)
    ensures Stuck(Do(s, Work(a)), h)
  {
    hide WorkerStep, Held, HandleMove;
    WorkerSteady(s.c, s.pc, a);
    WorkerCarries(s.c, s.pc, a);
  }

  lemma OtherStuck(s: System, act: Act, h: nat)
    requires Intact(s) && Enabled(s, act) && Stuck(s, h) && !act.Work? && !act.Restart?
    ensures Stuck(Do(s, act), h)
  {
    hide Held, PlaceFits, Log;
    if act.Begin? {
      var pc := Entry(act.job);
      assert !pc.AtMove? && (pc.AtOpen? ==> pc.open.Policy?);
      assert Reset(s.c).wallet == s.c.wallet && Reset(s.c).route == s.c.route;
      hide Reset, Entry;
    } else if act.Issue? {
      LogOnly(s.c, act.handle);
    } else if act.Shutdown? {
      assert Closed(s.c).wallet.None?;
    }
  }

  lemma LogOnly(c: Core, h: nat)
    requires h < |c.wallets|
    ensures Log(c, h, Refresh).wallet == c.wallet && Log(c, h, Refresh).route == c.route
  {}

  lemma EdgeStuck(s: System, e: Edge, h: nat)
    requires Intact(s) && Possible(s, e) && e != Acts(Restart) && Stuck(s, h)
    requires e.Acts? && e.act.Work? ==> !Asks(s.pc)
    ensures Stuck(Next(s, e), h)
  {
    hide Intact, Enabled, Do, Asks;
    match e
    case Throws =>
    case Acts(act) => if act.Work? { WorkStuck(s, act.a, h); } else { OtherStuck(s, act, h); }
  }

  // It keeps the wallet on CatchUp for good.
  lemma {:induction false} StuckOnCatchUp(s: System, es: seq<Edge>, h: nat)
    requires Intact(s) && LegalEdges(s, es) && Acts(Restart) !in es && AskingThrows(s, es) && Stuck(s, h)
    ensures Stuck(AfterEdges(s, es), h)
    decreases |es|
  {
    hide Intact, Possible, Next, Stuck, Asks;
    if es != [] {
      EdgeStrays(s, es[0]);
      EdgeStuck(s, es[0], h);
      StuckOnCatchUp(Next(s, es[0]), es[1..], h);
    }
  }
}
