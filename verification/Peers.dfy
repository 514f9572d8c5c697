// What m_daemonConnected is a reading of: the peer wallet2 dials now, or one a move has just left.
module Peers {
  import opened Bytes
  import opened Text
  import opened Worker
  import opened System
  import opened Invariant
  import opened Sections
  import opened Runs
  import opened Laws
  import Address

  // ---- The sections that change where wallet2 dials ----

  predicate Redials(pc: Pc) {
    (pc.AtOpen? && pc.open.Publish?) || (pc.AtClose? && pc.close.Forget?) || AtSettle(pc)
  }

  predicate Past(pc: Pc, qc: Pc) {
    && (qc.AtOpen? && qc.open.Publish? ==> pc.AtOpen? && pc.open.Install?)
    && (AtSettle(qc) ==> pc.AtMove? && (pc.move.Redial? || pc.move.Resume?))
    && (HoldsUnique(qc) ==> pc.AtMove? && (pc.move.Redial? || HoldsUnique(pc)))
    && (qc.AtMove? && qc.move !in {ReadRoute, Resolve} ==> pc.AtMove? && !pc.move.ReadRoute?)
    && (qc.AtOpen? ==> pc.AtOpen?)
  }

  // They leave nothing connected; no other section touches the reading, the peer or the route.
  predicate PeerStays(c: Core, pc: Pc, t: Step) {
    && Past(pc, t.pc)
    && if Redials(pc) then !t.c.connected else t.c.connected == c.connected && t.c.dialPeer == c.dialPeer && t.c.route == c.route
  }

  lemma BeforeSteady(c: Core, pc: Pc, a: Answers)
    requires pc.AtOpen? && (pc.open in {Policy, Guard, Announce} || pc.open.GiveUp?) && Fits(c, pc)
    ensures PeerStays(c, pc, BeforeHandle(c, pc, a))
  {
    hide PolicyError, RouteOf;
  }

  lemma CallSteady(c: Core, pc: Pc, a: Answers)
    requires pc.AtOpen? && pc.open.Call? && Fits(c, pc)
    ensures PeerStays(c, pc, BeforeHandle(c, pc, a))
  {
    hide RouteOf;
    if pc.job.kind.OpenWallet? && !a.present {
      assert BeforeHandle(c, pc, a) == Fail(c, NoSuchWallet);
    } else if !pc.job.kind.OpenWallet? && a.present {
      assert BeforeHandle(c, pc, a) == Fail(c, WalletExists);
    } else if !a.handle {
      assert BeforeHandle(c, pc, a) == Fail(c, OpenFailed);
    } else {
      var next := if a.statusOk then CheckNetwork else Discard(OpenFailed);
      assert BeforeHandle(c, pc, a).pc == pc.(open := next, handle := |c.wallets|);
    }
  }

  lemma WithSteady(c: Core, pc: Pc, a: Answers)
    requires pc.AtOpen? && (pc.open in {CheckNetwork, Init, GoOffline, Trust, Connect} || pc.open.Discard?) && Fits(c, pc)
    ensures PeerStays(c, pc, WithHandle(c, pc, a))
  {
    hide RouteOf, DialUrl, DialProxy, InitTo, IsLoopback, AnyPoll, NettypeOf;
  }

  lemma AfterSteady(c: Core, pc: Pc, a: Answers)
    requires pc.AtOpen? && pc.open in {Install, Publish, Notify, Finish} && Fits(c, pc)
    ensures PeerStays(c, pc, AfterSetup(c, pc, a))
  {
    hide RouteOf, DialUrl, DialProxy, HostPort;
  }

  lemma ForgetSteady(c: Core, pc: Pc, a: Answers)
    requires pc.AtClose? && pc.close.Forget? && Fits(c, pc)
    ensures PeerStays(c, pc, CloseStep(c, pc, a))
  {
  }

  lemma CloseSteady(c: Core, pc: Pc, a: Answers)
    requires pc.AtClose? && !pc.close.Forget? && Fits(c, pc)
    ensures PeerStays(c, pc, CloseStep(c, pc, a))
  {
    CloseGoesOn(c, pc, a);
    hide DroppedFates, Past;
    var t := CloseStep(c, pc, a).c;
    if pc.close.Detach? {
      assert t.connected == c.connected && t.dialPeer == c.dialPeer && t.route == c.route;
    } else if pc.close.CloseHandle? {
      assert t.connected == c.connected && t.dialPeer == c.dialPeer && t.route == c.route;
    } else if pc.close.Unlock? {
      assert t.connected == c.connected && t.dialPeer == c.dialPeer && t.route == c.route;
    } else {
      assert t.connected == c.connected && t.dialPeer == c.dialPeer && t.route == c.route;
    }
  }

  lemma CloseGoesOn(c: Core, pc: Pc, a: Answers)
    requires pc.AtClose? && Fits(c, pc)
    ensures Past(pc, CloseStep(c, pc, a).pc)
  {
    hide DroppedFates;
  }

  lemma RescanSteady(c: Core, pc: Pc)
    requires pc.AtRescan? && Fits(c, pc)
    ensures PeerStays(c, pc, RescanStep(c, pc))
  {}

  // A section that ends the job and lets the reading and the peer be.
  lemma EndsSteady(c: Core, pc: Pc, t: Step)
    requires t.pc.Idle? && !Redials(pc)
    requires t.c.connected == c.connected && t.c.dialPeer == c.dialPeer && t.c.route == c.route
    ensures PeerStays(c, pc, t)
  {}

  lemma CreateSteady(c: Core, amount: string, address: string, a: Answers)
    requires c.wallet.Some? ==> c.wallet.value < |c.wallets|
    ensures var t := CreateStep(c, amount, address, a).c; t.connected == c.connected && t.dialPeer == c.dialPeer && t.route == c.route
  {
    hide Address.IsAddress, ParseAtomic, TxKey, Sent, Fits, SendsWait;
    var t := CreateStep(c, amount, address, a).c;
    if t != c {
      var d := Sent(c, c.wallet.value, Create);
      assert t.connected == d.connected && t.dialPeer == d.dialPeer && t.route == d.route;
    }
  }

  lemma CommitSteady(c: Core, k: string, a: Answers)
    requires c.wallet.Some? ==> c.wallet.value < |c.wallets|
    ensures var t := CommitStep(c, k, a).c; t.connected == c.connected && t.dialPeer == c.dialPeer && t.route == c.route
  {
    hide Sent;
  }

  lemma SendSteady(c: Core, pc: Pc, a: Answers)
    requires pc.AtSend? && Fits(c, pc)
    ensures PeerStays(c, pc, SendStep(c, pc.send, a))
  {
    hide CreateStep, CommitStep, PeerStays, Past;
    match pc.send {
      case CreateTransaction(amount, address) => CreateSteady(c, amount, address, a);
      case CommitTransaction(k) => CommitSteady(c, k, a);
      case _ =>
    }
    EndsSteady(c, pc, SendStep(c, pc.send, a));
  }

  lemma TickSteady(c: Core, pc: Pc, a: Answers)
    requires (pc.TickRead? || pc.TickAsk? || pc.TickFlip?) && Fits(c, pc)
    ensures PeerStays(c, pc, TickStep(c, pc, a))
  {
    hide TorReady;
    if pc.TickRead? {
      assert TickStep(c, pc, a).c == c && (TickStep(c, pc, a).pc.Idle? || TickStep(c, pc, a).pc.TickNote?);
    } else if pc.TickAsk? {
      assert TickStep(c, pc, a).c == c && (TickStep(c, pc, a).pc.AtMove? || TickStep(c, pc, a).pc.TickFlip?);
    } else {
      assert TickStep(c, pc, a).pc.Idle?;
    }
  }

  lemma NoteSteady(c: Core, pc: Pc, a: Answers)
    requires pc.TickNote? && Fits(c, pc)
    ensures PeerStays(c, pc, TickStep(c, pc, a))
  {
  }

  lemma EarlyPast(pc: Pc, qc: Pc)
    requires pc.AtMove? && pc.move in {ReadRoute, Resolve, Quiet, Drain}
    requires qc.TickFlip? || (qc.AtMove? && qc.move in {Resolve, Quiet, Drain, Redial})
    requires pc.move.ReadRoute? ==> qc.AtMove? && qc.move.Resolve?
    ensures Past(pc, qc)
  {}

  lemma EarlyMoveSteady(c: Core, pc: Pc, a: Answers)
    requires pc.AtMove? && pc.move in {ReadRoute, Resolve, Quiet, Drain} && Fits(c, pc)
    ensures PeerStays(c, pc, MoveStep(c, pc, a))
  {
    hide TorReady, HostPort, InitTo, Past;
    var t := MoveStep(c, pc, a);
    assert t.c.connected == c.connected && t.c.dialPeer == c.dialPeer && t.c.route == c.route;
    EarlyPast(pc, t.pc);
  }

  lemma RedialSteady(c: Core, pc: Pc, a: Answers)
    requires pc.AtMove? && pc.move.Redial? && Fits(c, pc)
    ensures PeerStays(c, pc, MoveStep(c, pc, a))
  {
    hide HostPort, InitTo, PeerStays, Past;
    var off, on, done := pc.(move := Settle, moved := false), pc.(move := Distrust), TickFlip(pc.synced);
    if c.wallet.None? {
      assert MoveStep(c, pc, a) == Step(c, done);
      RedialStays(c, pc, MoveStep(c, pc, a));
    } else if !TorReady(pc.target) {
      assert MoveStep(c, pc, a) == Step(c, off);
      RedialStays(c, pc, MoveStep(c, pc, a));
    } else if a.initOk {
      assert MoveStep(c, pc, a).pc == on;
      RedialStays(c, pc, MoveStep(c, pc, a));
    } else {
      assert MoveStep(c, pc, a).pc == off;
      RedialStays(c, pc, MoveStep(c, pc, a));
    }
  }

  lemma RedialStays(c: Core, pc: Pc, t: Step)
    requires pc.AtMove? && pc.move.Redial?
    requires t.pc in {pc.(move := Settle, moved := false), pc.(move := Distrust), TickFlip(pc.synced)}
    requires t.c.connected == c.connected && t.c.dialPeer == c.dialPeer && t.c.route == c.route
    ensures PeerStays(c, pc, t)
  {
  }

  lemma ComingOnlineSteady(c: Core, pc: Pc, a: Answers)
    requires pc.AtMove? && pc.move in {Distrust, Resume} && Fits(c, pc)
    ensures PeerStays(c, pc, MoveStep(c, pc, a))
  {
  }

  lemma SettleSteady(c: Core, pc: Pc, a: Answers)
    requires pc.AtMove? && pc.move.Settle? && Fits(c, pc)
    ensures PeerStays(c, pc, MoveStep(c, pc, a))
  {
    hide HostPort, Past;
    assert MoveStep(c, pc, a).pc == TickFlip(pc.synced) && Past(pc, TickFlip(pc.synced)) by { BackToTick(pc); }
    if c.wallet.Some? {
      assert !MoveStep(c, pc, a).c.connected;
    } else {
      assert !MoveStep(c, pc, a).c.connected;
    }
  }

  lemma BackToTick(pc: Pc)
    requires AtSettle(pc)
    ensures Past(pc, TickFlip(pc.synced))
  {}

  lemma WorkerSteady(c: Core, pc: Pc, a: Answers)
    requires !pc.Idle? && Fits(c, pc)
    ensures PeerStays(c, pc, WorkerStep(c, pc, a))
  {
    hide PeerStays, BeforeHandle, WithHandle, AfterSetup, CloseStep, RescanStep, SendStep, TickStep, MoveStep;
    match pc
    case AtOpen(open, _, _, _) =>
      if open in {Policy, Guard, Announce} || open.GiveUp? {
        BeforeSteady(c, pc, a);
      } else if open.Call? {
        CallSteady(c, pc, a);
      } else if open in {CheckNetwork, Init, GoOffline, Trust, Connect} || open.Discard? {
        WithSteady(c, pc, a);
      } else {
        AfterSteady(c, pc, a);
      }
    case AtClose(close, _) => if close.Forget? { ForgetSteady(c, pc, a); } else { CloseSteady(c, pc, a); }
    case AtRescan(_) => RescanSteady(c, pc);
    case AtSend(_) => SendSteady(c, pc, a);
    case AtMove(move, _, _, _, _, _, _) =>
      if move in {ReadRoute, Resolve, Quiet, Drain} {
        EarlyMoveSteady(c, pc, a);
      } else if move.Redial? {
        RedialSteady(c, pc, a);
      } else if move.Settle? {
        SettleSteady(c, pc, a);
      } else {
        ComingOnlineSteady(c, pc, a);
      }
    case TickNote(_, _) => NoteSteady(c, pc, a);
    case _ => TickSteady(c, pc, a);
  }

  // ---- The reading ----

  predicate Reads(p: Probe) { p.Knows? || p.Measured? }

  ghost predicate ReadingFits(s: System) {
    && (Reads(s.probe) ==> s.probe.early || s.probe.peer == "" || s.probe.peer == s.c.dialPeer)
    && (s.probe.Measured? && s.probe.sockets ==> s.probe.peer != "")
    && (s.c.connected ==> s.measured != "" && (s.early || s.measured == s.c.dialPeer))
    && (s.pc.AtOpen? && s.pc.open.Publish? ==> s.c.dialPeer == "")
    && (HoldsUnique(s.pc) ==> s.probe.Asleep?)
    && (AtSettle(s.pc) && Reads(s.probe) ==> s.probe.early)
  }

  lemma WorkReads(s: System, a: Answers, m: World)
    requires Inv(s, m) && Allowed(s, Work(a), m) && ReadingFits(s)
    ensures ReadingFits(Do(s, Work(a)))
  {
    hide WorkerStep, HandlesFit, WalletsFit, StateFits, PendingFits, PaceFits, LocksFit, Lineage, Agrees, MoveFits,
      SetUpFits, HasHost;
    WorkerSteady(s.c, s.pc, a);
  }

  lemma WriteReads(s: System, m: World)
    requires Inv(s, m) && Allowed(s, ProbeWrite, m) && ReadingFits(s)
    ensures ReadingFits(Do(s, ProbeWrite))
  {
    hide CoreInv, DownInv, HeightFits;
  }

  lemma ProbeReads(s: System, act: Act, m: World)
    requires Inv(s, m) && Allowed(s, act, m) && ReadingFits(s)
    requires act.ProbeWake? || act.ProbePeer? || act.ProbeMeasure?
    ensures ReadingFits(Do(s, act))
  {
    hide CoreInv, DownInv, HeightFits;
  }

  lemma IssueReads(s: System, h: nat, m: World)
    requires Inv(s, m) && Allowed(s, Issue(h), m) && ReadingFits(s)
    ensures ReadingFits(Do(s, Issue(h)))
  {
    InvFits(s, m);
    hide Inv;
    var t := Do(s, Issue(h));
    assert t.c.connected == s.c.connected && t.c.dialPeer == s.c.dialPeer;
  }

  lemma ActReads(s: System, act: Act, m: World)
    requires Inv(s, m) && Allowed(s, act, m) && ReadingFits(s)
    requires act.ReaderIn? || act.ReaderOut? || act.WriterIn? || act.WriterOut? || act.SetDir? || act.Shutdown? || act.Restart?
    ensures ReadingFits(Do(s, act))
  {
    hide CoreInv, DownInv, HeightFits;
  }

  lemma BeginReads(s: System, job: Job, m: World)
    requires Inv(s, m) && Allowed(s, Begin(job), m) && ReadingFits(s)
    ensures ReadingFits(Do(s, Begin(job)))
  {
    hide CoreInv, DownInv, HeightFits;
    EntryIsFirst(job);
    assert Reset(s.c).connected == s.c.connected && Reset(s.c).dialPeer == s.c.dialPeer;
    hide Reset;
  }

  lemma EntryIsFirst(job: Job)
    ensures var pc := Entry(job); !HoldsUnique(pc) && !AtSettle(pc) && !(pc.AtOpen? && pc.open.Publish?)
  {}

  lemma {:induction false} RunReads(s: System, acts: seq<Act>, m: World)
    requires Inv(s, m) && Legal(s, acts, m) && ReadingFits(s)
    ensures ReadingFits(After(s, acts, m))
    decreases |acts|
  {
    hide Inv, Enabled, Do, ReadingFits;
    if acts != [] {
      DoKeeps(s, acts[0], m);
      match acts[0] {
        case Work(a) => WorkReads(s, a, m);
        case Begin(job) => BeginReads(s, job, m);
        case Issue(h) => IssueReads(s, h, m);
        case ProbeWake => ProbeReads(s, acts[0], m);
        case ProbePeer => ProbeReads(s, acts[0], m);
        case ProbeMeasure(_, _, _) => ProbeReads(s, acts[0], m);
        case ProbeWrite => WriteReads(s, m);
        case _ => ActReads(s, acts[0], m);
      }
      RunReads(Do(s, acts[0]), acts[1..], m);
    }
  }

  lemma ReadingReached(s: System, locks: set<string>, acts: seq<Act>, m: World)
    requires Reached(s, locks, acts, m)
    ensures Inv(s, m) && ReadingFits(s)
  {
    hide Inv, Legal;
    BootFits(locks, m);
    RunKeeps(Boot(locks), acts, m);
    RunReads(Boot(locks), acts, m);
  }

  // Shown as connected, the runtime is connected to the peer wallet2 now dials, unless the probe
  // read that peer between a move's letting go of the handle and its bookkeeping.
  lemma ConnectedIsCurrent(s: System, locks: set<string>, acts: seq<Act>, m: World)
    requires Reached(s, locks, acts, m) && s.c.connected
    ensures s.measured != "" && (s.early || s.measured == s.c.dialPeer)
  {
    hide Inv, Legal;
    ReadingReached(s, locks, acts, m);
  }

  // ---- A stale reading ----

  // What a move's bookkeeping makes the peer.
  function NextPeer(pc: Pc): string
    requires AtSettle(pc)
  {
    if pc.moved then HostPort(pc.target.proxy) else ""
  }

  predicate Works(acts: seq<Act>) { exists i :: 0 <= i < |acts| && acts[i].Work? }

  // Acts of one instance before the probe has written.
  predicate Unwritten(acts: seq<Act>) { forall i :: 0 <= i < |acts| ==> !acts[i].ProbeWrite? && !acts[i].Restart? }

  // The probe has read a peer and not yet written.
  ghost predicate MidReading(s: System) {
    ReadingFits(s) && !s.down && Reads(s.probe) && !(s.pc.AtOpen? && s.pc.open.Publish?)
  }

  lemma WorkMidReading(s: System, a: Answers, m: World)
    requires Inv(s, m) && Allowed(s, Work(a), m) && MidReading(s)
    ensures var t := Do(s, Work(a));
      && MidReading(t) && t.probe == s.probe && !AtSettle(t.pc)
      && t.c.dialPeer == if AtSettle(s.pc) then NextPeer(s.pc) else s.c.dialPeer
  {
    hide WorkerStep, HandlesFit, WalletsFit, StateFits, SessionFits, PendingFits, PaceFits, LocksFit, HostPort,
      HasHost, ReadingFits;
    WorkReads(s, a, m);
    WorkerSteady(s.c, s.pc, a);
    NotHeldBack(s);
    if AtSettle(s.pc) { SettledPeer(s.c, s.pc, a); }
  }

  // While the probe has the handle, nothing that wants it for itself is under way.
  lemma NotHeldBack(s: System)
    requires ReadingFits(s) && !s.probe.Asleep?
    ensures !HoldsUnique(s.pc)
  {}

  lemma OtherMidReading(s: System, act: Act, m: World)
    requires Inv(s, m) && Allowed(s, act, m) && MidReading(s)
    requires !act.Work? && !act.Begin? && !act.ProbeWrite? && !act.Restart?
    ensures var t := Do(s, act);
      MidReading(t) && t.probe.peer == s.probe.peer && t.pc == s.pc && t.c.dialPeer == s.c.dialPeer
  {
    hide Inv, ReadingFits;
    InvFits(s, m);
    match act {
      case Issue(h) => IssueReads(s, h, m);
      case ProbeMeasure(_, _, _) => ProbeReads(s, act, m);
      case _ => ActReads(s, act, m);
    }
  }

  lemma BeginMidReading(s: System, job: Job, m: World)
    requires Inv(s, m) && Allowed(s, Begin(job), m) && MidReading(s)
    ensures var t := Do(s, Begin(job));
      && MidReading(t) && t.probe == s.probe && !AtSettle(s.pc) && !AtSettle(t.pc) && t.c.dialPeer == s.c.dialPeer
  {
    hide Inv, ReadingFits;
    InvFits(s, m);
    BeginReads(s, job, m);
    EntryIsFirst(job);
  }

  // Until the probe writes, at most one move's bookkeeping changes the peer, and only one under way
  // when the probe read it: later ones wait for the handle.
  lemma {:induction false} PeerAtWriting(s: System, acts: seq<Act>, m: World)
    requires Inv(s, m) && MidReading(s) && Legal(s, acts, m) && Unwritten(acts)
    ensures var t := After(s, acts, m);
      && Inv(t, m) && MidReading(t) && t.probe.peer == s.probe.peer
      && t.c.dialPeer == if AtSettle(s.pc) && Works(acts) then NextPeer(s.pc) else s.c.dialPeer
    decreases |acts|
  {
    hide Inv, Enabled, Do, MidReading, HostPort;
    if acts != [] {
      var act := acts[0];
      var t := Do(s, act);
      DoKeeps(s, act, m);
      if act.Work? {
        WorkMidReading(s, act.a, m);
      } else if act.Begin? {
        BeginMidReading(s, act.job, m);
      } else {
        OtherMidReading(s, act, m);
      }
      PeerAtWriting(t, acts[1..], m);
      FirstWorks(acts);
    }
  }

  lemma FirstWorks(acts: seq<Act>)
    requires acts != []
    ensures Works(acts) <==> acts[0].Work? || Works(acts[1..])
  {
    if Works(acts[1..]) {
      var i :| 0 <= i < |acts[1..]| && acts[1..][i].Work?;
      assert acts[i + 1].Work?;
    }
    if Works(acts) && !acts[0].Work? {
      var i :| 0 <= i < |acts| && acts[i].Work?;
      assert acts[1..][i - 1].Work?;
    }
  }

  // What the probe has read, it will write.
  lemma {:induction false} PeerKept(s: System, acts: seq<Act>, m: World)
    requires Reads(s.probe) && Legal(s, acts, m) && Unwritten(acts)
    ensures var t := After(s, acts, m); Reads(t.probe) && t.probe.peer == s.probe.peer
    decreases |acts|
  {
    hide Enabled, Do;
    if acts != [] {
      PeerKeptBy(s, acts[0], m);
      PeerKept(Do(s, acts[0]), acts[1..], m);
    }
  }

  lemma PeerKeptBy(s: System, act: Act, m: World)
    requires Fits(s.c, s.pc) && Allowed(s, act, m) && Reads(s.probe) && !act.ProbeWrite? && !act.Restart?
    ensures var t := Do(s, act); Reads(t.probe) && t.probe.peer == s.probe.peer
  {
    hide Fits, HasHost, Timely;
  }

  lemma Written(s: System, m: World)
    requires Reads(s.probe) && Legal(s, [ProbeWrite], m)
    ensures var t := After(s, [ProbeWrite], m);
      t.measured == s.probe.peer && t.c.dialPeer == s.c.dialPeer && (t.c.connected ==> s.probe.Measured? && s.probe.sockets)
  {
    assert [ProbeWrite][0] == ProbeWrite;
    One(s, ProbeWrite, m);
    hide Legal, After, Fits, HasHost, Timely;
  }

  // Whatever anyone does between the probe's reading of a peer and its writing: what it then shows as
  // connected is another peer than the one dialled if and only if a move stood before its
  // bookkeeping when the peer was read, the bookkeeping changes the peer, and it was done meanwhile.
  lemma StaleExactly(s: System, locks: set<string>, before: seq<Act>, acts: seq<Act>, m: World)
    requires Reached(s, locks, before, m) && s.probe.Holding?
    requires Unwritten(acts) && Legal(s, [ProbePeer] + (acts + [ProbeWrite]), m)
    ensures var t := After(s, [ProbePeer] + (acts + [ProbeWrite]), m);
      && t.measured == s.c.dialPeer
      && (t.c.connected ==>
           (t.measured != t.c.dialPeer <==> AtSettle(s.pc) && NextPeer(s.pc) != s.c.dialPeer && Works(acts)))
  {
    hide Inv, Enabled, Do, ReadingFits, MidReading, HostPort;
    ReadingReached(s, locks, before, m);
    var t := Do(s, ProbePeer);
    Peered(s, m);
    assert ([ProbePeer] + (acts + [ProbeWrite]))[1..] == acts + [ProbeWrite];
    Parted(t, acts, [ProbeWrite], m);
    PeerKept(t, acts, m);
    Written(After(t, acts, m), m);
    if s.c.dialPeer == "" {
      RunReads(t, acts + [ProbeWrite], m);
      Unconnected(After(t, acts + [ProbeWrite], m));
    } else {
      PeerAtWriting(t, acts, m);
    }
  }

  lemma Peered(s: System, m: World)
    requires Inv(s, m) && ReadingFits(s) && s.probe.Holding?
    ensures Enabled(s, ProbePeer) && Fits(s.c, s.pc)
    ensures var t := Do(s, ProbePeer);
      && Inv(t, m) && ReadingFits(t) && Reads(t.probe) && t.probe.peer == t.c.dialPeer == s.c.dialPeer && t.pc == s.pc
      && (s.c.dialPeer != "" ==> MidReading(t))
  {
    InvFits(s, m);
    StillUp(s, m);
    hide Inv;
    DoKeeps(s, ProbePeer, m);
    ProbeReads(s, ProbePeer, m);
  }

  lemma StillUp(s: System, m: World)
    requires Inv(s, m) && !s.probe.Asleep?
    ensures !s.down
  {
    hide HandlesFit, WalletsFit, CoreInv;
  }

  lemma Unconnected(s: System)
    requires ReadingFits(s) && s.measured == ""
    ensures !s.c.connected
  {}

  lemma InvFits(s: System, m: World)
    requires Inv(s, m)
    ensures Fits(s.c, s.pc)
  {}

  lemma SettledPeer(c: Core, pc: Pc, a: Answers)
    requires AtSettle(pc) && Fits(c, pc)
    ensures WorkerStep(c, pc, a).c.dialPeer == if pc.moved then HostPort(pc.target.proxy) else ""
  {
    hide HostPort;
    assert WorkerStep(c, pc, a) == MoveStep(c, pc, a);
  }
}
