// Whole runs, from the start, of what the other theorems say can happen.
module Witnesses {
  import opened Bytes
  import opened Text
  import opened Worker
  import opened System
  import opened Invariant
  import opened Runs
  import opened Laws
  import opened Endings
  import opened Peers
  import opened Hostless
  import opened Throws
  import opened Silence
  import Address
  import Decimal

  // ---- One act more ----

  lemma Then(s: System, acts: seq<Act>, act: Act)
    requires Legal(s, acts, ANY_WORLD)
    requires var t := After(s, acts, ANY_WORLD); Fits(t.c, t.pc) && Enabled(t, act)
    ensures Legal(s, acts + [act], ANY_WORLD)
    ensures After(s, acts + [act], ANY_WORLD) == Do(After(s, acts, ANY_WORLD), act)
    ensures OneInstance(acts) && !act.Restart? ==> OneInstance(acts + [act])
  {
    hide Legal, After, Enabled, Do, Fits;
    One(After(s, acts, ANY_WORLD), act, ANY_WORLD);
    Joined(s, acts, [act], ANY_WORLD);
  }

  // The worker's next section, with nobody else about.
  lemma ThenWork(s: System, acts: seq<Act>, a: Answers)
    requires Legal(s, acts, ANY_WORLD)
    requires var t := After(s, acts, ANY_WORLD); Fits(t.c, t.pc) && !t.down && !t.pc.Idle? && NobodyElse(t)
    ensures Legal(s, acts + [Work(a)], ANY_WORLD) && (OneInstance(acts) ==> OneInstance(acts + [Work(a)]))
    ensures var t := After(s, acts, ANY_WORLD);
      var u := WorkerStep(t.c, t.pc, a);
      After(s, acts + [Work(a)], ANY_WORLD) == t.(c := u.c, pc := u.pc) && Fits(u.c, u.pc)
  {
    hide Legal, After, Fits, WorkerStep;
    Then(s, acts, Work(a));
  }

  // A move under way goes on to its wait, to its redial, or to its bookkeeping.
  lemma {:induction false} StopsAt(s: System, left: nat, a: Answers) returns (acts: seq<Act>)
    requires s.pc.AtMove? && Fits(s.c, s.pc) && !s.down && NobodyElse(s) && s.c.wallet.Some?
    requires left in {4, 7, 8} && Rank(s.pc) >= left && TorReady(Aim(s.pc, a))
    requires s.pc.move.ReadRoute? || s.pc.from == s.c.route
    ensures Legal(s, acts, ANY_WORLD)
    ensures var t := After(s, acts, ANY_WORLD);
      && t == s.(c := t.c, pc := t.pc) && t.pc.AtMove? && Rank(t.pc) == left && Fits(t.c, t.pc)
      && t.c.wallet == s.c.wallet && t.c.dialPeer == s.c.dialPeer && t.c.route == s.c.route
      && Aim(t.pc, a) == Aim(s.pc, a) && (WillMove(t.pc, a) <==> WillMove(s.pc, a))
    decreases Rank(s.pc)
  {
    hide MoveStep, Aim, WillMove, Fits;
    if Rank(s.pc) == left {
      acts := [];
    } else {
      var t := MoveStep(s.c, s.pc, a);
      assert WorkerStep(s.c, s.pc, a) == t;
      NotYet(s.c, s.pc, left, a);
      WorkerSteady(s.c, s.pc, a);
      if s.pc.move in {ReadRoute, Resolve, Quiet, Drain} {
        EarlyLeadsOn(s.c, s.pc, a);
      } else if s.pc.move.Redial? {
        RedialLeadsOn(s.c, s.pc, a);
      } else {
        LateLeadsOn(s.c, s.pc, a);
      }
      var u := s.(c := t.c, pc := t.pc);
      assert Do(s, Work(a)) == u;
      var rest := StopsAt(u, left, a);
      Prepend(s, Work(a), rest, ANY_WORLD);
      acts := [Work(a)] + rest;
    }
  }

  lemma NotYet(c: Core, pc: Pc, left: nat, a: Answers)
    requires pc.AtMove? && Fits(c, pc) && c.wallet.Some? && TorReady(Aim(pc, a))
    requires left in {4, 7, 8} && Rank(pc) > left
    ensures var t := MoveStep(c, pc, a); t.pc.AtMove? && Rank(t.pc) >= left
  {
    hide TorReady, HostPort, InitTo;
  }

  // ---- The catch-up node first ----

  // Whatever its proxy says, be it a Tor still joining: created on a node with a catch-up node, a
  // wallet is on CatchUp, and its first refresh goes straight there.
  lemma CatchesUpFirst(locks: set<string>, n: Node) returns (acts: seq<Act>)
    requires !n.error && n.url != "" && n.catchUp != "" && (n.proxyRequired ==> n.proxy != "")
    ensures Legal(Boot(locks), acts, ANY_WORLD)
    ensures var t := After(Boot(locks), acts, ANY_WORLD);
      && t.pc == Idle(Okay) && t.c.wallet.Some? && t.c.wallet.value < |t.c.wallets| && t.c.route.CatchUp?
      && t.c.wallets[t.c.wallet.value].log == [Request(Refresh, HostPort(n.catchUp), "")]
  {
    hide Legal, After, Inv, HostPort, IsLoopback, OnRoute;
    acts := Created(locks, n);
    var s := After(Boot(locks), acts, ANY_WORLD);
    Peers.InvFits(s, ANY_WORLD);
    Then(Boot(locks), acts, Issue(s.c.wallet.value));
    acts := acts + [Issue(s.c.wallet.value)];
  }

  // ---- A send on a direct node ----

  // The job, done by the worker with nobody else about.
  lemma ThenJob(s: System, acts: seq<Act>, job: Job, a: Answers) returns (more: seq<Act>)
    requires Legal(s, acts, ANY_WORLD)
    requires var t := After(s, acts, ANY_WORLD);
      Inv(t, ANY_WORLD) && t.pc.Idle? && !t.down && NobodyElse(t) && t.c.dirSet
    ensures var t := After(s, acts, ANY_WORLD);
      && Fits(t.c, t.pc) && Legal(s, acts + more, ANY_WORLD)
      && After(s, acts + more, ANY_WORLD) == t.(c := RunJob(t.c, job, a).c, pc := RunJob(t.c, job, a).pc)
      && Inv(After(s, acts + more, ANY_WORLD), ANY_WORLD) && After(s, acts + more, ANY_WORLD).c.dirSet
  {
    hide Legal, After, Inv, RunFrom, Steps, Reset, AllGrow, Final;
    var t := After(s, acts, ANY_WORLD);
    Peers.InvFits(t, ANY_WORLD);
    more := JobActs(t.c, job, a);
    JobRuns(t, job, a, ANY_WORLD);
    OneJob(t.c, job, a);
    RunKeeps(t, more, ANY_WORLD);
    RunRemembers(t, more, ANY_WORLD);
    Joined(s, acts, more, ANY_WORLD);
  }

  lemma CreatesDirect(c: Core, address: string, a: Answers)
    requires c.wallet.Some? && c.wallet.value < |c.wallets| && c.route.Direct? && c.network == "mainnet"
    requires CanIssue(c.wallets[c.wallet.value]) && Address.IsAddress(address, "mainnet") && !a.watchOnly && a.built.Good?
    ensures var w, t := c.wallets[c.wallet.value], RunJob(c, CreateTransaction(Decimal.Text(1), address), a);
      && t.pc == Idle(Okay) && t.c.wallet == c.wallet && t.c.route == c.route && TxKey(c.nextTx) in t.c.pending
      && |t.c.wallets| == |c.wallets|
      && t.c.wallets[c.wallet.value] == w.(log := w.log + [Request(Create, w.url, w.proxy)])
  {
    hide RunFrom, Address.IsAddress, TxKey, CreateStep, IsAmount, Reset;
    var d, job := Reset(c), CreateTransaction(Decimal.Text(1), address);
    SameOpen(c);
    AtomicRoundTrip(1);
    AmountDecides(Decimal.Text(1));
    SendNext(d, job, a);
    CreateEnds(d, Decimal.Text(1), address, a);
    CreateGoesOut(d, Decimal.Text(1), address, a);
  }

  lemma CommitsDirect(c: Core, k: string, a: Answers)
    requires c.wallet.Some? && c.wallet.value < |c.wallets| && c.route.Direct? && k in c.pending
    requires CanIssue(c.wallets[c.wallet.value]) && a.commitOk
    ensures var w, t := c.wallets[c.wallet.value], RunJob(c, CommitTransaction(k), a);
      && t.pc == Idle(Okay) && t.c.wallet == c.wallet && |t.c.wallets| == |c.wallets|
      && t.c.wallets[c.wallet.value] == w.(log := w.log + [Request(Commit, w.url, w.proxy)])
  {
    hide RunFrom, CommitStep, Reset;
    SameOpen(c);
    SendNext(Reset(c), CommitTransaction(k), a);
    CommitEnds(Reset(c), k, a);
    CommitGoesOut(Reset(c), k, a);
  }

  lemma SameOpen(c: Core)
    ensures var d := Reset(c); d == c.(locks := d.locks, locksReset := d.locksReset)
  {}

  // On a node with neither catch-up node nor proxy: a wallet is created, a transaction built and
  // committed, each job succeeds, and both requests go straight to the node.
  lemma SendsDirect(locks: set<string>, n: Node, address: string)
    returns (open: seq<Act>, create: seq<Act>, commit: seq<Act>)
    requires !n.error && n.url != "" && n.catchUp == "" && n.proxy == "" && !n.proxyRequired
    requires Address.IsAddress(address, "mainnet")
    ensures Legal(Boot(locks), open, ANY_WORLD) && Legal(Boot(locks), open + create, ANY_WORLD)
    ensures Legal(Boot(locks), open + create + commit, ANY_WORLD)
    ensures After(Boot(locks), open, ANY_WORLD).pc == Idle(Okay)
    ensures After(Boot(locks), open + create, ANY_WORLD).pc == Idle(Okay)
    ensures var t := After(Boot(locks), open + create + commit, ANY_WORLD);
      && t.pc == Idle(Okay) && t.c.wallet.Some? && t.c.wallet.value < |t.c.wallets|
      && t.c.wallets[t.c.wallet.value].log ==
        [Request(Create, HostPort(n.url), ""), Request(Commit, HostPort(n.url), "")]
  {
    hide Legal, After, Inv, HostPort, IsLoopback, OnRoute, RunFrom, Address.IsAddress, TxKey, Reset;
    var s0, a := Boot(locks), Fair(n);
    open := Created(locks, n);
    var s1 := After(s0, open, ANY_WORLD);
    create := ThenJob(s0, open, CreateTransaction(Decimal.Text(1), address), a);
    CreatesDirect(s1.c, address, a);
    var s2 := After(s0, open + create, ANY_WORLD);
    commit := ThenJob(s0, open + create, CommitTransaction(TxKey(s1.c.nextTx)), a);
    CommitsDirect(s2.c, TxKey(s1.c.nextTx), a);
  }

  // ---- A stale reading ----

  // Caught up, and a tick has decided to move.
  lemma TickToMove(s: System, n: Node) returns (acts: seq<Act>)
    requires OpenOn(s, n, CatchUp)
    ensures Legal(s, acts, ANY_WORLD)
    ensures var t := After(s, acts, ANY_WORLD);
      && Inv(t, ANY_WORLD) && t == s.(c := t.c, pc := t.pc) && t.pc == AtMove(ReadRoute, true, false, None, Direct, NO_NODE, false)
      && t.c.wallet == s.c.wallet && t.c.dialPeer == s.c.dialPeer && Fits(t.c, t.pc)
  {
    hide Legal, After, Inv, WorkerStep, HostPort;
    var a := Fair(n);
    Peers.InvFits(s, ANY_WORLD);
    NoneYet(s);
    Then(s, [], Begin(Job.Tick));
    acts := [] + [Begin(Job.Tick)];
    var s1 := After(s, acts, ANY_WORLD);
    assert s1.c == Reset(s.c) && s1.pc == TickRead;
    ThenWork(s, acts, a);
    FirstTick(s1.c, a);
    acts := acts + [Work(a)];
    ThenWork(s, acts, a);
    acts := acts + [Work(a)];
    RunKeeps(s, acts, ANY_WORLD);
  }

  lemma NoneYet(s: System)
    ensures Legal(s, [], ANY_WORLD) && After(s, [], ANY_WORLD) == s
  {}

  lemma FirstTick(c: Core, a: Answers)
    requires c.wallet.Some? && c.wallet.value < |c.wallets| && c.route.CatchUp? && a.synced
    ensures WorkerStep(c, TickRead, a) == Step(c, TickNote(true, a.height))
    ensures var t := WorkerStep(c, TickNote(true, a.height), a);
      t.pc == AtMove(ReadRoute, true, false, None, Direct, NO_NODE, false) && t.c.wallet == c.wallet && t.c.dialPeer == c.dialPeer
  {
    assert WorkerStep(c, TickRead, a) == TickStep(c, TickRead, a);
    assert WorkerStep(c, TickNote(true, a.height), a) == TickStep(c, TickNote(true, a.height), a);
  }

  // The probe reads the peer of a move about to write its own, and writes after it.
  lemma ReadsStale(s: System, a: Answers) returns (acts: seq<Act>)
    requires AtSettle(s.pc) && Fits(s.c, s.pc) && s.c.wallet.Some? && !s.down && NobodyElse(s) && s.c.dialPeer != ""
    ensures Legal(s, acts, ANY_WORLD)
    ensures var t := After(s, acts, ANY_WORLD);
      t.c.connected && t.measured == s.c.dialPeer && t.c.dialPeer == NextPeer(s.pc)
  {
    hide Legal, After, WorkerStep, HostPort;
    NoneYet(s);
    Then(s, [], ProbeWake);
    acts := [] + [ProbeWake];
    Then(s, acts, ProbePeer);
    acts := acts + [ProbePeer];
    Then(s, acts, Work(a));
    SettledPeer(s.c, s.pc, a);
    acts := acts + [Work(a)];
    Then(s, acts, ProbeMeasure(true, true, 1));
    acts := acts + [ProbeMeasure(true, true, 1)];
    Then(s, acts, ProbeWrite);
    acts := acts + [ProbeWrite];
  }

  // Created with a catch-up node and caught up, a wallet's move to Tor is overtaken by the probe: the
  // runtime shows a connection, to the catch-up node, while wallet2 dials through Tor.
  lemma StaleRun(locks: set<string>, n: Node) returns (acts: seq<Act>)
    requires TorReady(n) && n.catchUp != "" && HostPort(n.catchUp) != "" && HostPort(n.catchUp) != HostPort(n.proxy)
    ensures Legal(Boot(locks), acts, ANY_WORLD)
    ensures var t := After(Boot(locks), acts, ANY_WORLD);
      t.c.connected && t.measured == HostPort(n.catchUp) && t.c.dialPeer == HostPort(n.proxy)
  {
    hide Legal, After, Inv, HostPort, Fits, NobodyElse;
    var s0 := Boot(locks);
    acts := Created(locks, n);
    var s1 := After(s0, acts, ANY_WORLD);
    var tick := TickToMove(s1, n);
    var s2 := After(s1, tick, ANY_WORLD);
    Joined(s0, acts, tick, ANY_WORLD);
    WalletThere(s1);
    var move := StopsAt(s2, 4, Fair(n));
    var s3 := After(s2, move, ANY_WORLD);
    Joined(s0, acts + tick, move, ANY_WORLD);
    SettlesThere(s3.pc, Fair(n));
    var last := ReadsStale(s3, Fair(n));
    Joined(s0, acts + tick + move, last, ANY_WORLD);
    acts := acts + tick + move + last;
  }

  // Reads go on through a switch: while it waits out the request in flight, a caller comes in and so
  // does the probe; once the wait is over, the redial waits for them to leave.
  lemma ReadsGoOn(locks: set<string>, n: Node) returns (before: seq<Act>, during: seq<Act>)
    requires TorReady(n) && n.catchUp != ""
    ensures Legal(Boot(locks), before + during, ANY_WORLD) && Legal(Boot(locks), before, ANY_WORLD)
    ensures var s := After(Boot(locks), before, ANY_WORLD); s.pc.AtMove? && s.pc.move.Drain?
    ensures |during| == 4 && during[0] == ReaderIn && during[1] == ProbeWake && during[2].Work?
    ensures var t := After(Boot(locks), before + during, ANY_WORLD);
      && t.pc.AtMove? && t.pc.move.Redial? && t.readers == 0 && !t.probe.Asleep?
      && forall a :: !Enabled(t, Work(a))
  {
    hide Legal, After, Inv, HostPort, NobodyElse, WorkerStep, OnRoute, SessionOn;
    var s0, a := Boot(locks), Fair(n);
    var open := Created(locks, n);
    var s1 := After(s0, open, ANY_WORLD);
    var tick := TickToMove(s1, n);
    var s2 := After(s1, tick, ANY_WORLD);
    Joined(s0, open, tick, ANY_WORLD);
    WalletThere(s1);
    var move := StopsAt(s2, 8, a);
    var s3 := After(s2, move, ANY_WORLD);
    Joined(s0, open + tick, move, ANY_WORLD);
    before := open + tick + move;
    assert s3.readers == 0 && !s3.writer && s3.probe.Asleep? && !s3.down by { AtWait(s1, s3); }
    during := ReadsAtWait(s3, a);
    Joined(s0, before, during, ANY_WORLD);
  }

  lemma AtWait(s: System, t: System)
    requires NobodyElse(s) && !s.down && t == s.(c := t.c, pc := t.pc)
    ensures t.readers == 0 && !t.writer && t.probe.Asleep? && !t.down
  {}

  lemma ReadsAtWait(s: System, a: Answers) returns (during: seq<Act>)
    requires s.pc.AtMove? && s.pc.move.Drain? && Fits(s.c, s.pc) && s.c.wallet.Some?
    requires s.readers == 0 && !s.writer && s.probe.Asleep? && !s.down
    ensures Legal(s, during, ANY_WORLD)
    ensures |during| == 4 && during[0] == ReaderIn && during[1] == ProbeWake && during[2].Work?
    ensures var t := After(s, during, ANY_WORLD);
      && t.pc.AtMove? && t.pc.move.Redial? && t.readers == 0 && !t.probe.Asleep?
      && forall a :: !Enabled(t, Work(a))
  {
    hide Legal, After, Fits;
    var w := WorkerStep(s.c, s.pc, a);
    WaitEnds(s.c, s.pc, a);
    hide WorkerStep;
    NoneYet(s);
    Then(s, [], ReaderIn);
    during := [] + [ReaderIn];
    Then(s, during, ProbeWake);
    during := during + [ProbeWake];
    Then(s, during, Work(a));
    during := during + [Work(a)];
    Then(s, during, ReaderOut);
    during := during + [ReaderOut];
    RedialWaits(After(s, during, ANY_WORLD));
  }

  lemma WaitEnds(c: Core, pc: Pc, a: Answers)
    requires pc.AtMove? && pc.move.Drain? && Fits(c, pc)
    ensures WorkerStep(c, pc, a).pc == pc.(move := Redial) && Fits(WorkerStep(c, pc, a).c, pc.(move := Redial))
  {
    hide OpenStep, CloseStep, RescanStep, SendStep, TickStep;
  }

  lemma RedialWaits(s: System)
    requires s.pc.AtMove? && s.pc.move.Redial? && !s.probe.Asleep?
    ensures forall a :: !Enabled(s, Work(a))
  {}

  lemma WalletThere(s: System)
    requires NobodyElse(s)
    ensures forall c, pc :: NobodyElse(s.(c := c, pc := pc))
  {}

  lemma SettlesThere(pc: Pc, a: Answers)
    requires pc.AtMove? && Rank(pc) == 4
    ensures AtSettle(pc) && Aim(pc, a) == pc.target && (WillMove(pc, a) <==> pc.moved)
  {}

  // ---- Back from Tor ----

  // A route does move away from Tor: created on a Tor node, a wallet is waiting again after a tick
  // 60 s later, of another onion that init refuses.
  lemma BackFromTor(locks: set<string>, n: Node, other: Node) returns (open: seq<Act>, tick: seq<Act>)
    requires TorReady(n) && n.catchUp == "" && TorReady(other) && other.url != n.url
    ensures Legal(Boot(locks), open + tick, ANY_WORLD) && Legal(Boot(locks), open, ANY_WORLD) && OneInstance(tick)
    ensures var s, t := After(Boot(locks), open, ANY_WORLD), After(Boot(locks), open + tick, ANY_WORLD);
      && s.pc.Idle? && t.pc.Idle? && t.c.wallet.Some? && t.c.wallet == s.c.wallet
      && s.c.route.Tor? && t.c.route.WaitingForTor?
  {
    hide Legal, After, Inv, HostPort, RunFrom, Steps;
    open := Created(locks, n);
    var s := After(Boot(locks), open, ANY_WORLD);
    var a := Fair(other).(initOk := false, now := TOR_ASK_EVERY);
    Peers.InvFits(s, ANY_WORLD);
    tick := JobActs(s.c, Job.Tick, a);
    JobRuns(s, Job.Tick, a, ANY_WORLD);
    TickEnds(s.c, a);
    OneJob(s.c, Job.Tick, a);
    Joined(Boot(locks), open, tick, ANY_WORLD);
  }

  lemma OneJob(c: Core, job: Job, a: Answers)
    requires c.wallet.Some? ==> c.wallet.value < |c.wallets|
    ensures OneInstance(JobActs(c, job, a)) && RunJob(c, job, a).pc.Idle?
  {
    hide Steps, Reset, RunFrom;
    ResetFits(c, job);
    RepeatOnly(Work(a), Steps(Reset(c), Entry(job), a));
  }

  // ---- Runs that end in a throw ----

  function Edges(acts: seq<Act>): seq<Edge> { if acts == [] then [] else [Acts(acts[0])] + Edges(acts[1..]) }

  // A run without exceptions, and then one.
  lemma {:induction false} ThenThrow(s: System, acts: seq<Act>)
    requires Legal(s, acts, ANY_WORLD)
    requires var t := After(s, acts, ANY_WORLD); Throws.Possible(t, Edge.Throws)
    ensures var es := Edges(acts) + [Edge.Throws];
      && LegalEdges(s, es) && (OneInstance(acts) ==> Acts(Restart) !in es)
      && AfterEdges(s, es) == Throws.Next(After(s, acts, ANY_WORLD), Edge.Throws)
    decreases |acts|
  {
    hide Enabled, Do, Fits;
    var es := Edges(acts) + [Edge.Throws];
    if acts == [] {
      assert es == [Edge.Throws] && es[1..] == [];
    } else {
      ThenThrow(Do(s, acts[0]), acts[1..]);
      assert es[0] == Acts(acts[0]) && es[1..] == Edges(acts[1..]) + [Edge.Throws];
      if OneInstance(acts) { assert !acts[0].Restart?; }
    }
  }

  // wallet2 hands out a wallet, and throws when asked its network: nobody holds it any more.
  lemma LeakRun(locks: set<string>, n: Node) returns (es: seq<Edge>)
    requires !n.error && n.url != "" && (n.proxyRequired ==> n.proxy != "")
    ensures LegalEdges(Boot(locks), es) && Acts(Restart) !in es && Stray(AfterEdges(Boot(locks), es), 0)
  {
    hide Legal, After, LegalEdges, AfterEdges, OneInstance;
    var acts := HandleGot(locks, n);
    ThenThrow(Boot(locks), acts);
    es := Edges(acts) + [Edge.Throws];
  }

  lemma HandleGot(locks: set<string>, n: Node) returns (acts: seq<Act>)
    requires !n.error && n.url != "" && (n.proxyRequired ==> n.proxy != "")
    ensures Legal(Boot(locks), acts, ANY_WORLD) && OneInstance(acts)
    ensures var t := After(Boot(locks), acts, ANY_WORLD);
      && !t.down && t.pc.AtOpen? && t.pc.open.CheckNetwork? && t.pc.handle == 0
      && t.c.wallets == [NewWallet(n)] && t.c.wallet.None? && Fits(t.c, t.pc)
  {
    var s, a := Boot(locks), Fair(n);
    assert OneInstance([]);
    hide Legal, After, WorkerStep, OneInstance, Fits;
    NoneYet(s);
    FitsAtRest(s.c);
    Then(s, [], SetDir);
    acts := [] + [SetDir];
    FitsAtRest(s.c.(dirSet := true));
    Then(s, acts, Begin(CREATE));
    acts := acts + [Begin(CREATE)];
    var c := Reset(s.c.(dirSet := true));
    FitsAtRest(c);
    FourSections(c, n);
    ThenWork(s, acts, a);
    acts := acts + [Work(a)];
    ThenWork(s, acts, a);
    acts := acts + [Work(a)];
    ThenWork(s, acts, a);
    acts := acts + [Work(a)];
    ThenWork(s, acts, a);
    acts := acts + [Work(a)];
  }

  lemma FitsAtRest(c: Core)
    requires c.wallet.None?
    ensures Fits(c, Idle(Okay)) && Fits(c, Entry(CREATE))
  {}

  // The sections of an open up to the one that gets a handle.
  lemma FourSections(c: Core, n: Node)
    requires c.wallet.None? && c.wallets == [] && !n.error && n.url != "" && (n.proxyRequired ==> n.proxy != "")
    ensures var a, pc := Fair(n), AtOpen(Guard, CREATE.open, n, 0);
      var d := c.(state := Opening);
      && WorkerStep(c, AtOpen(Policy, CREATE.open, NO_NODE, 0), a) == Step(c, pc)
      && WorkerStep(c, pc, a) == Step(c, pc.(open := Announce))
      && WorkerStep(c, pc.(open := Announce), a) == Step(d, pc.(open := Call))
      && WorkerStep(d, pc.(open := Call), a) == Step(d.(wallets := [NewWallet(n)]), pc.(open := CheckNetwork))
  {
    hide WithHandle, AfterSetup, CloseStep, RescanStep, SendStep, TickStep, MoveStep, RouteOf;
    NothingInTheWay(c, n);
  }

  // Created on a Tor node, a wallet whose move to another onion throws at its redial: offline, with
  // the runtime saying Tor.
  lemma MuteRun(locks: set<string>, n: Node, other: Node) returns (es: seq<Edge>, h: nat)
    requires TorReady(n) && n.catchUp == "" && TorReady(other) && other.url != n.url
    ensures LegalEdges(Boot(locks), es)
    ensures var t := AfterEdges(Boot(locks), es); t.c.wallet == Some(h) && Mute(t, h, t.c.torUrl)
  {
    hide Legal, After, LegalEdges, AfterEdges, Inv, HostPort, Fits, NobodyElse, MuteAt;
    var a := Fair(other).(now := TOR_ASK_EVERY);
    var open := Created(locks, n);
    var s := After(Boot(locks), open, ANY_WORLD);
    var tick := TickToAsk(s, n, other);
    var t := After(s, tick, ANY_WORLD);
    WalletThere(s);
    var move := StopsAt(t, 7, a);
    Joined(s, tick, move, ANY_WORLD);
    RunKeeps(s, tick + move, ANY_WORLD);
    Joined(Boot(locks), open, tick + move, ANY_WORLD);
    var u := After(s, tick + move, ANY_WORLD);
    assert u.pc.move.Redial?;
    ThrowMutes(u, ANY_WORLD);
    ThenThrow(Boot(locks), open + (tick + move));
    es, h := Edges(open + (tick + move)) + [Edge.Throws], u.c.wallet.value;
  }

  // On Tor for 60 s, a tick asks, and another onion is ready.
  lemma TickToAsk(s: System, n: Node, other: Node) returns (acts: seq<Act>)
    requires OpenOn(s, n, Route.Tor) && s.c.torAskedAt == 0 && TorReady(other) && other.url != s.c.torUrl
    ensures Legal(s, acts, ANY_WORLD)
    ensures var t := After(s, acts, ANY_WORLD);
      && t == s.(c := t.c, pc := t.pc) && t.pc == AtMove(ReadRoute, true, false, Some(other), Direct, NO_NODE, false)
      && t.c.wallet == s.c.wallet && t.c.route.Tor? && Fits(t.c, t.pc)
  {
    hide Legal, After, Inv, WorkerStep, HostPort, TorReady;
    var a := Fair(other).(now := TOR_ASK_EVERY);
    Peers.InvFits(s, ANY_WORLD);
    NoneYet(s);
    Then(s, [], Begin(Job.Tick));
    acts := [] + [Begin(Job.Tick)];
    AsksOnTor(Reset(s.c), a);
    ThenWork(s, acts, a);
    acts := acts + [Work(a)];
    ThenWork(s, acts, a);
    acts := acts + [Work(a)];
    ThenWork(s, acts, a);
    acts := acts + [Work(a)];
  }

  lemma AsksOnTor(c: Core, a: Answers)
    requires c.wallet.Some? && c.wallet.value < |c.wallets| && c.route.Tor? && a.now - c.torAskedAt >= TOR_ASK_EVERY
    requires a.synced && TorReady(a.node) && a.node.url != c.torUrl
    ensures WorkerStep(c, TickRead, a) == Step(c, TickNote(true, a.height))
    ensures var t := WorkerStep(c, TickNote(true, a.height), a);
      && t.pc == TickAsk(true, c.network, c.torUrl) && t.c.wallet == c.wallet && t.c.route == c.route
      && WorkerStep(t.c, t.pc, a) == Step(t.c, AtMove(ReadRoute, true, false, Some(a.node), Direct, NO_NODE, false))
  {
    hide OpenStep, CloseStep, RescanStep, SendStep, MoveStep, TorReady;
  }
}
