// What the runtime promises, of every run from a fresh start.
module Laws {
  import opened Bytes
  import opened Text
  import opened Worker
  import opened System
  import opened Invariant
  import opened Sections
  import opened Runs

  // ---- Runs ----

  ghost predicate Legal(s: System, acts: seq<Act>, m: World)
    decreases |acts|
  {
    acts == [] || (Fits(s.c, s.pc) && Allowed(s, acts[0], m) && Legal(Do(s, acts[0]), acts[1..], m))
  }

  ghost function After(s: System, acts: seq<Act>, m: World): System
    requires Legal(s, acts, m)
    decreases |acts|
  {
    if acts == [] then s else After(Do(s, acts[0]), acts[1..], m)
  }

  predicate OneInstance(acts: seq<Act>) { forall i :: 0 <= i < |acts| ==> !acts[i].Restart? }

  lemma {:induction false} RunKeeps(s: System, acts: seq<Act>, m: World)
    requires Inv(s, m) && Legal(s, acts, m)
    ensures Inv(After(s, acts, m), m)
    decreases |acts|
  {
    hide Inv, Enabled, Do;
    if acts != [] {
      DoKeeps(s, acts[0], m);
      RunKeeps(Do(s, acts[0]), acts[1..], m);
    }
  }

  lemma {:induction false} RunRemembers(s: System, acts: seq<Act>, m: World)
    requires Inv(s, m) && Legal(s, acts, m) && OneInstance(acts)
    ensures Remembers(s, After(s, acts, m))
    decreases |acts|
  {
    hide Inv, Enabled, Do, Fits, Grows;
    if acts == [] {
      SamePast(s.c);
    } else {
      DoKeeps(s, acts[0], m);
      RunRemembers(Do(s, acts[0]), acts[1..], m);
      assert forall h :: 0 <= h < |s.c.wallets| ==> Grows(s.c.wallets[h], Do(s, acts[0]).c.wallets[h]);
      forall h | 0 <= h < |s.c.wallets|
        ensures Grows(s.c.wallets[h], After(s, acts, m).c.wallets[h])
      {
        GrowsOn(s.c.wallets[h], Do(s, acts[0]).c.wallets[h], After(s, acts, m).c.wallets[h]);
      }
    }
  }

  lemma GrowsOn(u: Wallet2, v: Wallet2, w: Wallet2)
    requires Grows(u, v) && Grows(v, w)
    ensures Grows(u, w)
  {}

  // ---- Putting runs together ----

  lemma Prepend(s: System, act: Act, rest: seq<Act>, m: World)
    requires Fits(s.c, s.pc) && Allowed(s, act, m) && Legal(Do(s, act), rest, m)
    ensures Legal(s, [act] + rest, m) && After(s, [act] + rest, m) == After(Do(s, act), rest, m)
  {
    hide Enabled, Do, Fits;
    assert ([act] + rest)[1..] == rest;
  }

  lemma One(s: System, act: Act, m: World)
    requires Fits(s.c, s.pc) && Allowed(s, act, m)
    ensures Legal(s, [act], m) && After(s, [act], m) == Do(s, act)
  {
    hide Enabled, Do, Fits;
    assert [act][1..] == [];
  }

  lemma {:induction false} Joined(s: System, first: seq<Act>, rest: seq<Act>, m: World)
    requires Legal(s, first, m) && Legal(After(s, first, m), rest, m)
    ensures Legal(s, first + rest, m) && After(s, first + rest, m) == After(After(s, first, m), rest, m)
    decreases |first|
  {
    hide Enabled, Do, Fits;
    if first == [] {
      assert first + rest == rest;
    } else {
      Joined(Do(s, first[0]), first[1..], rest, m);
      assert (first + rest)[0] == first[0] && (first + rest)[1..] == first[1..] + rest;
    }
  }

  lemma {:induction false} Parted(s: System, first: seq<Act>, rest: seq<Act>, m: World)
    requires Legal(s, first + rest, m)
    ensures Legal(s, first, m) && Legal(After(s, first, m), rest, m)
    ensures After(s, first + rest, m) == After(After(s, first, m), rest, m)
    decreases |first|
  {
    hide Enabled, Do, Fits;
    if first == [] {
      assert first + rest == rest;
    } else {
      assert (first + rest)[0] == first[0] && (first + rest)[1..] == first[1..] + rest;
      Parted(Do(s, first[0]), first[1..], rest, m);
    }
  }

  // A state some legal run reaches, under what is assumed of the world.
  ghost predicate Reached(s: System, locks: set<string>, acts: seq<Act>, m: World) {
    Legal(Boot(locks), acts, m) && s == After(Boot(locks), acts, m)
  }

  lemma Reachable(s: System, locks: set<string>, acts: seq<Act>, m: World)
    requires Reached(s, locks, acts, m)
    ensures Inv(s, m)
  {
    hide Inv, Legal;
    BootFits(locks, m);
    RunKeeps(Boot(locks), acts, m);
  }

  // ---- Handles ----

  predicate Shut(w: Wallet2) { w.closes == 1 }

  // Every handle that open, create or restore returned is closed exactly once, or is the open
  // wallet, or is in the hands of the section at work; at rest a wallet is open exactly while the
  // state is syncing or ready; after shutdown every handle is closed.
  lemma HandlesConserved(s: System, locks: set<string>, acts: seq<Act>, m: World)
    requires Reached(s, locks, acts, m)
    ensures forall h :: 0 <= h < |s.c.wallets| ==>
      s.c.wallets[h].closes <= 1 && (!Shut(s.c.wallets[h]) <==> s.c.wallet == Some(h) || Owned(s.pc) == Some(h))
    ensures !s.down && s.pc.Idle? ==>
      && (s.c.wallet.Some? <==> s.c.state.Syncing? || s.c.state.Ready?)
      && (s.c.wallet.None? <==> s.c.state.NoWallet?)
    ensures s.pc.Idle? ==> Owned(s.pc).None?
    ensures s.down ==> forall h :: 0 <= h < |s.c.wallets| ==> Shut(s.c.wallets[h])
    ensures !s.down ==> !s.c.state.Failed?
  {
    hide WalletsFit, PendingFits, PaceFits, SessionFits, LocksFit, HeightFits, Legal, After;
    Reachable(s, locks, acts, m);
  }

  // ---- Requests ----

  // A session opened on a direct node sends straight to that node alone. One opened with a catch-up
  // node refreshes straight from it, and does nothing else, until a move first takes it offline;
  // from there on everything goes through a proxy, transactions built and committed among it. One
  // opened on Tor, or waiting for it, sends nothing but through a proxy.
  lemma SendsGoOverTor(s: System, locks: set<string>, acts: seq<Act>, m: World, h: nat)
    requires Reached(s, locks, acts, m) && h < |s.c.wallets| && (m.hosts || s.c.wallets[h].began.Direct?)
    ensures s.c.wallets[h].began == RouteOf(s.c.wallets[h].origin) && KeepsRoute(s.c.wallets[h])
    ensures s.c.wallets[h].moved ==> s.c.wallets[h].before.Some?
  {
    hide HandlesFit, PendingFits, PaceFits, SessionFits, LocksFit, HeightFits, Legal, After, PlaceFits, StateFits,
      KeepsRoute, AimedRight, IsLoopback, RouteOf;
    Reachable(s, locks, acts, m);
    assert WalletFits(s.c.wallets[h], m.hosts);
  }

  // Once a move has taken it offline, whatever it sends afterwards goes through a proxy.
  lemma NothingDirectAfter(s: System, more: seq<Act>, m: World, h: nat)
    requires Inv(s, m) && Legal(s, more, m) && OneInstance(more) && m.hosts
    requires h < |s.c.wallets| && s.c.wallets[h].before.Some?
    ensures h < |After(s, more, m).c.wallets|
    ensures var before, after := s.c.wallets[h].log, After(s, more, m).c.wallets[h].log;
      before <= after && AllProxied(after[|before|..])
  {
    hide HandlesFit, PendingFits, PaceFits, SessionFits, LocksFit, HeightFits, Legal, After, PlaceFits, StateFits,
      AimedRight, IsLoopback, RouteOf, Final;
    RunKeeps(s, more, m);
    RunRemembers(s, more, m);
    var v, w := s.c.wallets[h], After(s, more, m).c.wallets[h];
    assert Grows(v, w) && WalletFits(v, true) && WalletFits(w, true);
    assert forall i :: |v.log| <= i < |w.log| ==> w.log[i].proxy != "";
  }

  // ---- Bookkeeping ----

  // Between the worker's steps the runtime's route and what wallet2 was last told agree.
  lemma BookkeepingAgrees(s: System, locks: set<string>, acts: seq<Act>, m: World)
    requires Reached(s, locks, acts, m) && !s.down && s.pc.Idle? && s.c.wallet.Some?
    ensures s.c.wallet.value < |s.c.wallets|
    ensures var c, w := s.c, s.c.wallets[s.c.wallet.value];
      && (c.route.Direct? || c.route.CatchUp? ==>
           w.mode.Online? && w.proxy == "" && w.url == c.dialPeer == HostPort(w.source))
      && (c.route.Tor? ==> w.mode.Online? && !w.trusted && w.url == HostPort(c.torUrl) && w.proxy == c.dialPeer)
      && (c.route.WaitingForTor? ==> (w.mode.Draining? || w.mode.Offline?) && c.dialPeer == "")
      && (w.trusted ==> c.route.Direct? && IsLoopback(w.source))
    ensures m.hosts ==> (s.c.dialPeer == "" <==> s.c.route.WaitingForTor?) || s.c.route.Direct? || s.c.route.CatchUp?
  {
    hide HandlesFit, PendingFits, PaceFits, LocksFit, HeightFits, Legal, After, HostPort, IsLoopback, KeepsRoute,
      AimedRight;
    Reachable(s, locks, acts, m);
    assert WalletFits(s.c.wallets[s.c.wallet.value], m.hosts);
  }

  // While a wallet stays open its route goes only from Direct or CatchUp to a Tor one: CatchUp is
  // never entered again, and Direct never at all.
  lemma RouteOnlyForward(s: System, more: seq<Act>, m: World)
    requires Inv(s, m) && Legal(s, more, m) && OneInstance(more)
    requires var t := After(s, more, m); !s.down && !t.down && s.c.wallet.Some? && t.c.wallet == s.c.wallet
    requires !(s.pc.AtOpen? && s.pc.open.Publish?) && !(After(s, more, m).pc.AtOpen? && After(s, more, m).pc.open.Publish?)
    ensures var before, after := s.c.route, After(s, more, m).c.route;
      && (before.Direct? <==> after.Direct?)
      && (before.WaitingForTor? || before.Tor? ==> after.WaitingForTor? || after.Tor?)
  {
    hide HandlesFit, PendingFits, PaceFits, LocksFit, HeightFits, Legal, PlaceFits, StateFits, Agrees, MoveFits,
      SetUpFits, Final;
    RunKeeps(s, more, m);
    RunRemembers(s, more, m);
    var h, t := s.c.wallet.value, After(s, more, m);
    assert WalletFits(s.c.wallets[h], m.hosts) && WalletFits(t.c.wallets[h], m.hosts);
    assert Lineage(s.c.route, s.c.wallets[h]) && Lineage(t.c.route, t.c.wallets[h]) && Grows(s.c.wallets[h], t.c.wallets[h]);
  }

  // ---- The node module's locks ----

  // From an instance's first job or tick with a directory on, and whatever was locked before, the
  // networks locked between steps are the open wallet's, or none; before it, no wallet opens.
  lemma LocksMatch(s: System, locks: set<string>, acts: seq<Act>, m: World)
    requires Reached(s, locks, acts, m) && !s.down && s.pc.Idle?
    ensures s.c.locksReset ==> s.c.locks * NETWORKS == if s.c.wallet.Some? then {s.c.network} else {}
    ensures !s.c.locksReset ==> s.c.wallet.None?
  {
    hide HandlesFit, PendingFits, PaceFits, HeightFits, Legal, After, SessionFits, WalletsFit;
    Reachable(s, locks, acts, m);
  }

  // No lock of this instance is set before the reset, whatever directory is set when.
  lemma ResetFirst(s: System, locks: set<string>, acts: seq<Act>, m: World)
    requires Reached(s, locks, acts, m) && !s.down && s.pc.AtOpen?
    ensures s.c.locksReset
  {
    hide HandlesFit, PendingFits, PaceFits, HeightFits, Legal, After, SessionFits, WalletsFit;
    Reachable(s, locks, acts, m);
  }

  // The first job or tick with a directory resets, and the reset stands.
  lemma ResetOnce(s: System, more: seq<Act>, m: World)
    requires Inv(s, m) && Legal(s, more, m) && OneInstance(more) && s.c.dirSet
    requires more != [] && more[0].Begin?
    ensures After(s, more, m).c.locksReset
  {
    hide Inv, Fits, CoreInv, DownInv;
    DoKeeps(s, more[0], m);
    RunRemembers(Do(s, more[0]), more[1..], m);
  }

  // ---- The daemon height ----

  // A height shown while a wallet is open was read from that wallet, whoever runs in between.
  lemma HeightIsOwn(s: System, locks: set<string>, acts: seq<Act>, m: World)
    requires Reached(s, locks, acts, m) && s.c.daemonHeight != 0 && s.c.wallet.Some?
    ensures s.c.heightFrom == s.c.wallet.value
  {
    hide CoreInv, DownInv, Legal, After;
    Reachable(s, locks, acts, m);
  }

  // Once a close has cleared the fields, and until a wallet is open again, none is shown.
  lemma NoHeightWithoutWallet(s: System, locks: set<string>, acts: seq<Act>, m: World)
    requires Reached(s, locks, acts, m) && !s.down && s.c.wallet.None?
    requires !(s.pc.AtClose? && (s.pc.close.CloseHandle? || s.pc.close.Forget?))
    ensures s.c.daemonHeight == 0
  {
    hide HandlesFit, WalletsFit, PendingFits, PaceFits, LocksFit, HeightFits, Legal, After;
    Reachable(s, locks, acts, m);
  }

  // ---- Built transactions ----

  // Every transaction held was built by the wallet now open.
  lemma PendingIsOwn(s: System, locks: set<string>, acts: seq<Act>, m: World)
    requires Reached(s, locks, acts, m) && !s.down
    ensures forall k :: k in s.c.pending ==>
      s.c.wallet == Some(s.c.pending[k]) && k in s.c.fates && s.c.fates[k] == Live(s.c.pending[k])
    ensures s.c.wallet.None? ==> s.c.pending == map[]
    ensures forall i, j :: 0 <= i < j < |s.c.commits| ==> s.c.commits[i] != s.c.commits[j]
    ensures forall k :: k in s.c.commits <==> k in s.c.fates && s.c.fates[k].Committed?
  {
    hide HandlesFit, WalletsFit, SessionFits, PaceFits, LocksFit, HeightFits, Legal, After, TxKey;
    Reachable(s, locks, acts, m);
  }

  // A transaction once committed, disposed of or dropped is never committed afterwards.
  lemma NoCommitAfterEnd(s: System, more: seq<Act>, m: World, k: string)
    requires Inv(s, m) && Legal(s, more, m) && OneInstance(more) && !s.down && !After(s, more, m).down
    requires k in s.c.fates && !s.c.fates[k].Live?
    ensures var t := After(s, more, m);
      && k in t.c.fates && t.c.fates[k] == s.c.fates[k] && k !in t.c.pending
      && (k in t.c.commits <==> k in s.c.commits)
  {
    hide HandlesFit, WalletsFit, SessionFits, PaceFits, LocksFit, HeightFits, Legal, TxKey, AllGrow;
    RunKeeps(s, more, m);
    RunRemembers(s, more, m);
  }

  // ---- Catching up ----

  // The progress fields: the greatest height since the open, and when it first came.
  lemma ProgressIsRecord(s: System, locks: set<string>, acts: seq<Act>, m: World)
    requires Reached(s, locks, acts, m) && !s.down
    ensures forall i :: 0 <= i < |s.c.seen| ==> s.c.seen[i].1 <= s.c.progressHeight
    ensures s.c.progressHeight != 0 ==> exists i :: 0 <= i < |s.c.seen| && s.c.seen[i].1 == s.c.progressHeight
    ensures s.c.route.CatchUp? ==> FirstReached(s.c.seen, s.c.openedAt, s.c.progressHeight, s.c.progressAt)
  {
    hide HandlesFit, WalletsFit, SessionFits, PendingFits, LocksFit, HeightFits, Legal, After, FirstReached, Waits;
    Reachable(s, locks, acts, m);
  }

  // With heights up to the ceiling and ticks at most a gap apart, the route has left CatchUp once
  // (ceiling + 1) * (90 s + gap) have passed since the open.
  lemma CatchUpEnds(s: System, locks: set<string>, acts: seq<Act>, m: World, now: Instant)
    requires Reached(s, locks, acts, m) && m.paced && !s.down
    requires s.pc.Idle? && now <= s.c.lastTick + m.gap
    requires now > s.c.openedAt + (m.ceiling + 1) * (GIVE_UP + m.gap)
    ensures !s.c.route.CatchUp?
  {
    hide HandlesFit, WalletsFit, SessionFits, PendingFits, LocksFit, HeightFits, Legal, After, FirstReached, Highest;
    Reachable(s, locks, acts, m);
    if s.c.route.CatchUp? { MoreHeight(s.c.progressHeight, m.ceiling, Patience(m)); }
  }

  lemma MoreHeight(top: nat, ceiling: nat, wait: nat)
    requires top <= ceiling
    ensures top * wait + wait <= (ceiling + 1) * wait
  {
    assert (ceiling + 1) * wait == top * wait + wait + (ceiling - top) * wait;
  }

  // ---- A job alone ----

  // With nobody else about, the worker's steps make up one run of the system, and it ends.
  ghost function Steps(c: Core, pc: Pc, a: Answers): nat
    requires Fits(c, pc)
    decreases Rank(pc)
  {
    hide WorkerStep;
    if pc.Idle? then 0 else
      var t := WorkerStep(c, pc, a);
      1 + Steps(t.c, t.pc, a)
  }

  function Repeat(act: Act, n: nat): seq<Act> { if n == 0 then [] else [act] + Repeat(act, n - 1) }

  lemma {:induction false} AloneRuns(s: System, a: Answers, m: World)
    requires Fits(s.c, s.pc) && !s.down && NobodyElse(s) && !m.paced && (m.hosts ==> HasHost(a.node))
    ensures var acts := Repeat(Work(a), Steps(s.c, s.pc, a));
      && Legal(s, acts, m)
      && After(s, acts, m) == s.(c := RunFrom(s.c, s.pc, a).c, pc := RunFrom(s.c, s.pc, a).pc)
    decreases Rank(s.pc)
  {
    hide WorkerStep, HasHost, Fits;
    if !s.pc.Idle? {
      var t := WorkerStep(s.c, s.pc, a);
      AloneRuns(s.(c := t.c, pc := t.pc), a, m);
      var rest := Repeat(Work(a), Steps(t.c, t.pc, a));
      assert ([Work(a)] + rest)[1..] == rest;
    }
  }

  // The acts of a job alone, and where they lead.
  ghost function JobActs(c: Core, job: Job, a: Answers): seq<Act>
    requires c.wallet.Some? ==> c.wallet.value < |c.wallets|
  {
    [Begin(job)] + Repeat(Work(a), Steps(Reset(c), Entry(job), a))
  }

  lemma JobRuns(s: System, job: Job, a: Answers, m: World)
    requires Fits(s.c, s.pc) && s.pc.Idle? && !s.down && NobodyElse(s) && (job.Tick? || s.c.dirSet)
    requires !m.paced && (m.hosts ==> HasHost(a.node))
    ensures var acts := JobActs(s.c, job, a);
      Legal(s, acts, m) && After(s, acts, m) == s.(c := RunJob(s.c, job, a).c, pc := RunJob(s.c, job, a).pc)
  {
    hide RunFrom, Steps, HasHost, Reset, Legal, After;
    var b := s.(c := Reset(s.c), pc := Entry(job));
    assert Do(s, Begin(job)) == b;
    assert Fits(b.c, b.pc) by { ResetFits(s.c, job); }
    AloneRuns(b, a, m);
    Prepend(s, Begin(job), Repeat(Work(a), Steps(b.c, b.pc, a)), m);
  }

  lemma ResetFits(c: Core, job: Job)
    requires c.wallet.Some? ==> c.wallet.value < |c.wallets|
    ensures Fits(Reset(c), Entry(job))
  {}

  lemma JobKeeps(c: Core, job: Job, a: Answers, m: World)
    requires CoreInv(c, Idle(Okay), m) && HeightFits(c, Asleep) && (job.Tick? || c.dirSet)
    requires !m.paced && (m.hosts ==> HasHost(a.node))
    ensures var t := RunJob(c, job, a);
      t.pc.Idle? && CoreInv(t.c, t.pc, m) && HeightFits(t.c, Asleep) && (c.dirSet ==> t.c.dirSet)
  {
    hide HandlesFit, WalletsFit, PlaceFits, StateFits, SessionFits, PendingFits, PaceFits, LocksFit, WorkerStep,
      HasHost, AllGrow, Final;
    var s := AtRest(c);
    BeginKeeps(s, job, m);
    var b := Do(s, Begin(job));
    assert b.c == Reset(c) && b.pc == Entry(job) && (c.dirSet ==> b.c.dirSet);
    hide Reset;
    AloneRuns(b, a, m);
    var acts := Repeat(Work(a), Steps(b.c, b.pc, a));
    RepeatOnly(Work(a), Steps(b.c, b.pc, a));
    RunKeeps(b, acts, m);
    RunRemembers(b, acts, m);
  }

  lemma {:induction false} RepeatOnly(act: Act, n: nat)
    ensures forall i :: 0 <= i < |Repeat(act, n)| ==> Repeat(act, n)[i] == act
  {
    if n > 0 { RepeatOnly(act, n - 1); }
  }

  lemma IdleAlike(c: Core, out: Outcome, m: World)
    requires CoreInv(c, Idle(out), m)
    ensures CoreInv(c, Idle(Okay), m)
  {
    hide HandlesFit, WalletsFit, PendingFits, PaceFits, Lineage, Agrees;
  }
}
