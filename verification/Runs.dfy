// Whole runs: any interleaving of the worker, the probe, wallet2, callers, shutdown and restarts.
module Runs {
  import opened Bytes
  import opened Text
  import opened Worker
  import opened System
  import opened Invariant
  import opened Sections

  lemma WorkerKeeps(c: Core, pc: Pc, a: Answers, p: Probe, m: World)
    requires !pc.Idle? && Fits(c, pc) && Poised(c, pc, a, p, m)
    ensures Kept(c, WorkerStep(c, pc, a), p, m)
  {
    hide Poised, Kept, BeforeHandle, WithHandle, AfterSetup, CloseStep, RescanStep, SendStep, TickStep, MoveStep,
      Fits;
    match pc
    case AtOpen(_, _, _, _) => OpenKeeps(c, pc, a, p, m);
    case AtClose(_, _) => CloseKeeps(c, pc, a, p, m);
    case AtRescan(_) => RescanKeeps(c, pc, a, p, m);
    case AtSend(_) => SendKeeps(c, pc, a, p, m);
    case TickRead => TickReadKeeps(c, pc, a, p, m);
    case TickNote(_, _) => TickNoteKeeps(c, pc, a, p, m);
    case TickAsk(_, _, _) => TickAskKeeps(c, pc, a, p, m);
    case TickFlip(_) => TickFlipKeeps(c, pc, a, p, m);
    case AtMove(_, _, _, _, _, _, _) => MoveKeeps(c, pc, a, p, m);
  }

  lemma OpenKeeps(c: Core, pc: Pc, a: Answers, p: Probe, m: World)
    requires pc.AtOpen? && Fits(c, pc) && Poised(c, pc, a, p, m)
    ensures Kept(c, OpenStep(c, pc, a), p, m)
  {
    hide Poised, Kept, BeforeHandle, WithHandle, AfterSetup, Fits;
    match pc.open
    case Policy => PolicyKeeps(c, pc, a, p, m);
    case Guard => GuardKeeps(c, pc, a, p, m);
    case Announce => AnnounceKeeps(c, pc, a, p, m);
    case Call =>
      if pc.job.kind.OpenWallet? != a.present || !a.handle {
        CallRefusedKeeps(c, pc, a, p, m);
      } else {
        CallAnsweredKeeps(c, pc, a, p, m);
      }
    case CheckNetwork => CheckNetworkKeeps(c, pc, a, p, m);
    case Init => InitKeeps(c, pc, a, p, m);
    case GoOffline => GoOfflineKeeps(c, pc, a, p, m);
    case Trust => TrustKeeps(c, pc, a, p, m);
    case Connect => ConnectKeeps(c, pc, a, p, m);
    case Install => InstallKeeps(c, pc, a, p, m);
    case Publish => PublishKeeps(c, pc, a, p, m);
    case Notify => NotifyKeeps(c, pc, a, p, m);
    case Finish => FinishKeeps(c, pc, a, p, m);
    case Discard(_) => DiscardKeeps(c, pc, a, p, m);
    case GiveUp(_) => GiveUpKeeps(c, pc, a, p, m);
  }

  lemma CloseKeeps(c: Core, pc: Pc, a: Answers, p: Probe, m: World)
    requires pc.AtClose? && Fits(c, pc) && Poised(c, pc, a, p, m)
    ensures Kept(c, CloseStep(c, pc, a), p, m)
  {
    hide Poised, Kept, CloseStep, Fits;
    match pc.close
    case Detach => DetachKeeps(c, pc, a, p, m);
    case CloseHandle => CloseHandleKeeps(c, pc, a, p, m);
    case Forget => ForgetKeeps(c, pc, a, p, m);
    case Unlock => UnlockKeeps(c, pc, a, p, m);
    case Leave => LeaveKeeps(c, pc, a, p, m);
  }

  lemma SendKeeps(c: Core, pc: Pc, a: Answers, p: Probe, m: World)
    requires pc.AtSend? && Fits(c, pc) && Poised(c, pc, a, p, m)
    ensures Kept(c, SendStep(c, pc.send, a), p, m)
  {
    hide Poised, Kept, SendStep;
    match pc.send
    case CreateTransaction(_, _) => CreateKeeps(c, pc, a, p, m);
    case CommitTransaction(_) => CommitKeeps(c, pc, a, p, m);
    case DisposeTransaction(_) => DisposeKeeps(c, pc, a, p, m);
    case _ => PasswordKeeps(c, pc, a, p, m);
  }

  lemma MoveKeeps(c: Core, pc: Pc, a: Answers, p: Probe, m: World)
    requires pc.AtMove? && Fits(c, pc) && Poised(c, pc, a, p, m)
    ensures Kept(c, MoveStep(c, pc, a), p, m)
  {
    hide Poised, Kept, MoveStep, Fits;
    match pc.move
    case ReadRoute => ReadRouteKeeps(c, pc, a, p, m);
    case Resolve => ResolveKeeps(c, pc, a, p, m);
    case Quiet => QuietKeeps(c, pc, a, p, m);
    case Drain => DrainKeeps(c, pc, a, p, m);
    case Redial => RedialKeeps(c, pc, a, p, m);
    case Distrust => DistrustKeeps(c, pc, a, p, m);
    case Resume => ResumeKeeps(c, pc, a, p, m);
    case Settle => SettleKeeps(c, pc, a, p, m);
  }

  // ---- One step of anyone ----

  predicate Allowed(s: System, act: Act, m: World) {
    Enabled(s, act) && (act.Work? ==> (m.hosts ==> HasHost(act.a.node)) && (m.paced ==> Timely(s.c, s.pc, act.a, m)))
  }

  ghost predicate Remembers(s: System, t: System) {
    && AllGrow(s.c.wallets, t.c.wallets) && Final(s.c.fates, s.c.commits, t.c.fates, t.c.commits)
    && (s.c.locksReset ==> t.c.locksReset) && (s.c.dirSet ==> t.c.dirSet)
  }

  ghost predicate StepOk(s: System, act: Act, m: World)
    requires Inv(s, m) && Allowed(s, act, m)
  {
    var t := Do(s, act);
    Inv(t, m) && (!act.Restart? ==> Remembers(s, t))
  }

  lemma WorkKeeps(s: System, a: Answers, m: World)
    requires Inv(s, m) && Allowed(s, Work(a), m)
    ensures StepOk(s, Work(a), m)
  {
    hide WorkerStep, HandlesFit, WalletsFit, PlaceFits, StateFits, SessionFits, PendingFits, PaceFits, LocksFit,
      HeightFits, AllGrow, Final;
    WorkerKeeps(s.c, s.pc, a, s.probe, m);
  }

  lemma BeginKeeps(s: System, job: Job, m: World)
    requires Inv(s, m) && Allowed(s, Begin(job), m)
    ensures StepOk(s, Begin(job), m)
  {
    hide HandlesFit, WalletsFit, PaceFits, PendingFits, AllGrow, Final, Lineage, Agrees, SetUpFits, MoveFits;
    SamePast(s.c);
    assert s.c.locks - NETWORKS != s.c.locks || (s.c.locks - NETWORKS) * NETWORKS == {};
  }

  // A request logged leaves every session as it was set up.
  lemma IssuedInSession(c: Core, pc: Pc, h: nat, hosts: bool)
    requires Fits(c, pc) && SessionFits(c, pc, hosts) && h < |c.wallets|
    ensures Fits(Log(c, h, Refresh), pc) && SessionFits(Log(c, h, Refresh), pc, hosts)
  {
    hide HostPort, DialUrl, DialProxy, RouteOf, HasHost;
  }

  // What does not speak of the handles.
  lemma SameButWallets(c: Core, pc: Pc, ws: seq<Wallet2>)
    requires PlaceFits(c, pc) && StateFits(c, pc) && LocksFit(c, pc)
    ensures var d := c.(wallets := ws); PlaceFits(d, pc) && StateFits(d, pc) && LocksFit(d, pc)
  {}

  lemma LogOnlyLogs(c: Core, h: nat, purpose: Purpose)
    requires h < |c.wallets|
    ensures Log(c, h, purpose) == c.(wallets := Log(c, h, purpose).wallets)
  {}

  lemma IssuedOnly(c: Core, pc: Pc, h: nat, m: World)
    requires CoreInv(c, pc, m) && h < |c.wallets| && CanIssue(c.wallets[h])
    ensures CoreInv(Log(c, h, Refresh), pc, m) && AllGrow(c.wallets, Log(c, h, Refresh).wallets)
  {
    hide SessionFits, HandlesFit, WalletsFit, PaceFits, PendingFits, PlaceFits, StateFits, LocksFit, AllGrow, CanIssue;
    IssuedInSession(c, pc, h, m.hosts);
    Logged(c.wallets, h, Refresh, c.wallet, Owned(pc), m.hosts);
    LogOnlyLogs(c, h, Refresh);
    SameButWallets(c, pc, Log(c, h, Refresh).wallets);
    hide Fits;
  }

  lemma IssueKeeps(s: System, h: nat, m: World)
    requires Inv(s, m) && Allowed(s, Issue(h), m)
    ensures StepOk(s, Issue(h), m)
  {
    hide CoreInv, DownInv, AllGrow, Final;
    SamePast(s.c);
    if s.down {
      NoneIssues(s.c, s.pc, h, m);
    } else {
      IssuedOnly(s.c, s.pc, h, m);
    }
  }

  lemma NoneIssues(c: Core, pc: Pc, h: nat, m: World)
    requires DownInv(c, pc, m) && h < |c.wallets|
    ensures !CanIssue(c.wallets[h])
  {}

  lemma ProbeKeeps(s: System, act: Act, m: World)
    requires act.ProbeWake? || act.ProbePeer? || act.ProbeMeasure?
    requires Inv(s, m) && Allowed(s, act, m)
    ensures StepOk(s, act, m)
  {
    hide CoreInv, DownInv, AllGrow, Final;
    SamePast(s.c);
  }

  // A reading of the open wallet changes nothing else the invariant speaks of.
  lemma ReadingOnly(c: Core, pc: Pc, connected: bool, height: nat, from: nat, m: World)
    requires CoreInv(c, pc, m) && (c.wallet.Some? || height == c.daemonHeight)
    ensures CoreInv(c.(probed := true, connected := connected, daemonHeight := height, heightFrom := from), pc, m)
  {
    hide HandlesFit, WalletsFit, PaceFits, PendingFits, Lineage, Agrees, SetUpFits, MoveFits, HasHost;
  }

  lemma WriteKeeps(s: System, m: World)
    requires Inv(s, m) && Allowed(s, ProbeWrite, m)
    ensures StepOk(s, ProbeWrite, m)
  {
    hide CoreInv, DownInv, AllGrow, Final;
    SamePast(s.c);
    if !s.down {
      ReadingOnly(s.c, s.pc, s.probe.sockets, s.c.daemonHeight, s.c.heightFrom, m);
      ReadingOnly(s.c, s.pc, s.probe.sockets, s.probe.height, s.probe.handle, m);
    } else {
      DownHasNone(s.c, s.pc, m);
    }
  }

  lemma DownHasNone(c: Core, pc: Pc, m: World)
    requires DownInv(c, pc, m)
    ensures c.wallet.None?
  {}

  // The open wallet, closed by shutdown.
  lemma ClosesOpen(c: Core, hosts: bool)
    requires c.wallet.Some? ==> c.wallet.value < |c.wallets|
    requires HandlesFit(c.wallets, c.wallet, None) && WalletsFit(c.wallets, hosts)
    ensures var d := Closed(c);
      && d.wallet.None? && HandlesFit(d.wallets, None, None) && WalletsFit(d.wallets, hosts)
      && AllGrow(c.wallets, d.wallets) && d == c.(wallet := None, wallets := d.wallets)
  {
    SamePast(c);
    hide HandlesFit, WalletsFit, AllGrow;
    if c.wallet.Some? {
      Installed(c.wallets, c.wallet.value);
      ClosedOnce(c.wallets, c.wallet.value, hosts);
    }
  }

  lemma ShutdownKeeps(s: System, m: World)
    requires Inv(s, m) && Allowed(s, Shutdown, m)
    ensures StepOk(s, Shutdown, m)
  {
    SamePast(s.c);
    hide HandlesFit, WalletsFit, PaceFits, PendingFits, AllGrow, Final, PlaceFits, StateFits, SessionFits,
      LocksFit, Closed;
    ClosesOpen(s.c, m.hosts);
  }

  lemma BootFits(locks: set<string>, m: World)
    ensures Inv(Boot(locks), m)
  {}

  lemma OtherKeeps(s: System, act: Act, m: World)
    requires act.ReaderIn? || act.ReaderOut? || act.WriterIn? || act.WriterOut? || act.SetDir?
    requires Inv(s, m) && Allowed(s, act, m)
    ensures StepOk(s, act, m)
  {
    hide HandlesFit, WalletsFit, PaceFits, PendingFits, AllGrow, Final, Lineage, Agrees, SetUpFits, MoveFits, HasHost;
    SamePast(s.c);
  }

  lemma RestartKeeps(s: System, m: World)
    requires Inv(s, m)
    ensures StepOk(s, Restart, m)
  {
    hide Inv;
    BootFits(s.c.locks, m);
  }

  lemma DoKeeps(s: System, act: Act, m: World)
    requires Inv(s, m) && Allowed(s, act, m)
    ensures StepOk(s, act, m)
  {
    hide StepOk, Inv, HasHost;
    match act
    case Begin(job) => BeginKeeps(s, job, m);
    case Work(a) => WorkKeeps(s, a, m);
    case Issue(h) => IssueKeeps(s, h, m);
    case Shutdown => ShutdownKeeps(s, m);
    case Restart => RestartKeeps(s, m);
    case ProbeWake => ProbeKeeps(s, act, m);
    case ProbePeer => ProbeKeeps(s, act, m);
    case ProbeMeasure(_, _, _) => ProbeKeeps(s, act, m);
    case ProbeWrite => WriteKeeps(s, m);
    case _ => OtherKeeps(s, act, m);
  }
}
