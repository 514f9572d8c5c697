// What one turn of the worker thread does to ticket and wallet, by the kind of the oldest ticket
// (src/wallet_runtime.cpp, run).
module Kinds {
  import opened Bytes
  import opened Text
  import D = TicketDesk
  import opened Worker
  import opened Endings
  import opened Thread
  import Address
  import Decimal

  // A ticket of that kind, with those parameters, is the next to be taken.
  ghost predicate NextUp(b: Both, kind: string, p: D.Params) {
    && Turnable(b) && !b.desk.stop && b.desk.queue != []
    && b.desk.queue[0] in b.desk.tickets
    && b.desk.tickets[b.desk.queue[0]].kind == kind && b.desk.tickets[b.desk.queue[0]].params == p
  }

  // It is off the queue and settled, as done or as failed, and no other ticket is touched.
  ghost predicate SettledAs(d: D.Desk, e: D.Desk, done: bool) {
    && d.queue != [] && e.queue == d.queue[1..] && e.running.None? && e.tickets.Keys == d.tickets.Keys
    && d.queue[0] in e.tickets && (if done then e.tickets[d.queue[0]].status.Done? else e.tickets[d.queue[0]].status.Failed?)
    && forall n :: n in d.tickets && n != d.queue[0] ==> e.tickets[n] == d.tickets[n]
  }

  lemma TurnIs(b: Both, kind: string, p: D.Params, a: Answers, shown: Outcome -> string)
    requires NextUp(b, kind, p)
    ensures kind in D.KINDS
    ensures var r, ran := TurnOf(b, a, shown), RunJob(b.core, JobOf(kind, p), a);
      r.core == ran.c && SettledAs(b.desk, r.desk, ran.pc.out.Okay?)
  {
    hide RunFrom, JobOf, Reset, Entry, D.KINDS, D.QueueFits, D.Partition, D.StartedFits;
    var d := b.desk;
    assert D.Oldest(d) == d.tickets[d.queue[0]];
    var ran := RunJob(b.core, JobOf(kind, p), a);
    var status := StatusOf(ran.pc.out, shown);
    assert D.Finished(status);
    assert D.Taken(d).running == Some(d.queue[0]);
  }

  // The reset touches nothing but the four networks' locks.
  lemma ResetIs(c: Core)
    ensures var d := Reset(c); d == c.(locks := d.locks, locksReset := d.locksReset) && d.locks <= c.locks
  {}

  // close_wallet: the wallet is gone, with its transactions, its route and its network's lock.
  lemma TurnCloses(b: Both, p: D.Params, a: Answers, shown: Outcome -> string)
    requires NextUp(b, "close_wallet", p)
    ensures var c, r := b.core, TurnOf(b, a, shown);
      && r.core.wallet.None? && SettledAs(b.desk, r.desk, c.wallet.Some? && a.closeOk)
      && (c.wallet.Some? ==>
           && r.core.state.NoWallet? && r.core.pending == map[] && c.network !in r.core.locks
           && r.core.route.Direct? && r.core.dialPeer == "" && r.core.daemonHeight == 0
           && |r.core.wallets| == |c.wallets|
           && r.core.wallets[c.wallet.value].closes == c.wallets[c.wallet.value].closes + 1)
      && (c.wallet.None? ==> r.core == c.(locks := r.core.locks, locksReset := r.core.locksReset))
  {
    hide TurnOf, RunFrom, Reset, SettledAs;
    TurnIs(b, "close_wallet", p, a, shown);
    ResetIs(b.core);
    var d := Reset(b.core);
    assert Entry(JobOf("close_wallet", p)) == AtClose(Detach, 0);
    if d.wallet.Some? { CloseEnds(d, a); } else { NothingToClose(d, a); }
  }

  lemma NothingToClose(c: Core, a: Answers)
    requires c.wallet.None?
    ensures RunFrom(c, AtClose(Detach, 0), a) == Step(c, Idle(Err(NoWalletOpen)))
  {
    CloseNext(c, AtClose(Detach, 0), a);
  }

  // rescan: the wallet stays, syncing.
  lemma TurnRescans(b: Both, p: D.Params, a: Answers, shown: Outcome -> string)
    requires NextUp(b, "rescan", p)
    ensures var c, r := b.core, TurnOf(b, a, shown);
      && SettledAs(b.desk, r.desk, c.wallet.Some?)
      && r.core == c.(state := if c.wallet.Some? then Syncing else c.state,
                      locks := r.core.locks, locksReset := r.core.locksReset)
  {
    hide TurnOf, RunFrom, Reset, SettledAs;
    TurnIs(b, "rescan", p, a, shown);
    ResetIs(b.core);
    assert Entry(JobOf("rescan", p)) == Entry(Job.Rescan);
    RescanEnds(Reset(b.core), a);
  }

  // create_transaction: of the amount and to the address asked for, and kept under the next key.
  lemma TurnCreates(b: Both, p: D.Params, a: Answers, shown: Outcome -> string)
    requires NextUp(b, "create_transaction", p)
    ensures var c, r := b.core, TurnOf(b, a, shown);
      var good := c.wallet.Some? && (c.route.Direct? || c.route.Tor?) && !a.watchOnly
        && IsAmount(p.amount) && Address.IsAddress(p.address, c.network) && a.built.Good?;
      && SettledAs(b.desk, r.desk, good) && r.core.wallet == c.wallet && r.core.state == c.state
      && r.core.pending == if good then c.pending["tx" + Decimal.Text(c.nextTx) := c.wallet.value] else c.pending
  {
    hide TurnOf, RunFrom, Reset, SettledAs, Address.IsAddress, IsAmount, TxKey, CreateStep;
    TurnIs(b, "create_transaction", p, a, shown);
    ResetIs(b.core);
    var job := JobOf("create_transaction", p);
    assert job == CreateTransaction(p.amount, p.address);
    SendNext(Reset(b.core), job, a);
    CreateEnds(Reset(b.core), p.amount, p.address, a);
    assert TxKey(b.core.nextTx) == "tx" + Decimal.Text(b.core.nextTx) by { KeyText(b.core.nextTx); }
  }

  lemma KeyText(n: nat)
    ensures TxKey(n) == "tx" + Decimal.Text(n)
  {}

  // commit_transaction: that transaction and no other, off the routes that wait for Tor.
  lemma TurnCommits(b: Both, p: D.Params, a: Answers, shown: Outcome -> string)
    requires NextUp(b, "commit_transaction", p)
    ensures var c, r := b.core, TurnOf(b, a, shown);
      var good := c.wallet.Some? && (c.route.Direct? || c.route.Tor?) && p.txHandle in c.pending && a.commitOk;
      && SettledAs(b.desk, r.desk, good) && r.core.wallet == c.wallet && r.core.state == c.state
      && r.core.pending == (if good then c.pending - {p.txHandle} else c.pending)
      && r.core.commits == (if good then c.commits + [p.txHandle] else c.commits)
  {
    hide TurnOf, RunFrom, Reset, SettledAs, CommitStep;
    TurnIs(b, "commit_transaction", p, a, shown);
    ResetIs(b.core);
    var job := JobOf("commit_transaction", p);
    assert job == CommitTransaction(p.txHandle);
    SendNext(Reset(b.core), job, a);
    CommitEnds(Reset(b.core), p.txHandle, a);
  }

  // dispose_transaction: that transaction and no other, uncommitted.
  lemma TurnDisposes(b: Both, p: D.Params, a: Answers, shown: Outcome -> string)
    requires NextUp(b, "dispose_transaction", p)
    ensures var c, r := b.core, TurnOf(b, a, shown);
      && SettledAs(b.desk, r.desk, p.txHandle in c.pending)
      && r.core.pending == c.pending - {p.txHandle} && r.core.commits == c.commits
      && r.core.wallet == c.wallet && r.core.wallets == c.wallets && r.core.state == c.state
  {
    hide TurnOf, RunFrom, Reset, SettledAs;
    TurnIs(b, "dispose_transaction", p, a, shown);
    ResetIs(b.core);
    var job := JobOf("dispose_transaction", p);
    assert job == DisposeTransaction(p.txHandle);
    SendNext(Reset(b.core), job, a);
    if p.txHandle !in b.core.pending { assert b.core.pending - {p.txHandle} == b.core.pending; }
  }

  // change_password: nothing of the runtime changes.
  lemma TurnChangesPassword(b: Both, p: D.Params, a: Answers, shown: Outcome -> string)
    requires NextUp(b, "change_password", p)
    ensures var c, r := b.core, TurnOf(b, a, shown);
      && SettledAs(b.desk, r.desk, c.wallet.Some? && a.oldPasswordOk && a.passwordSet)
      && r.core == c.(locks := r.core.locks, locksReset := r.core.locksReset)
  {
    hide TurnOf, RunFrom, Reset, SettledAs;
    TurnIs(b, "change_password", p, a, shown);
    ResetIs(b.core);
    var job := JobOf("change_password", p);
    assert job == ChangePassword;
    SendNext(Reset(b.core), job, a);
  }

  // The four that open: open_wallet needs its file there, the others need it absent.
  lemma TurnOpens(b: Both, kind: string, p: D.Params, a: Answers, shown: Outcome -> string)
    requires NextUp(b, kind, p)
    requires kind in {"open_wallet", "create_wallet", "restore_from_seed", "restore_from_keys"}
    ensures var c, r := b.core, TurnOf(b, a, shown);
      var good := Admits(c, kind == "open_wallet", p.name, p.network, a);
      && SettledAs(b.desk, r.desk, good)
      && (good ==> SessionOn(r.core, p.network, a.node))
      && (!good ==> r.core.wallet == c.wallet && r.core.locks <= c.locks)
  {
    hide TurnOf, RunFrom, Reset, SettledAs, SessionOn;
    TurnIs(b, kind, p, a, shown);
    ResetIs(b.core);
    var job := JobOf(kind, p);
    assert job.OpenLike? && job.open.name == p.name && job.open.network == p.network;
    assert job.open.kind.OpenWallet? <==> kind == "open_wallet";
    OpenOpens(Reset(b.core), job.open, a);
    assert Admits(Reset(b.core), kind == "open_wallet", p.name, p.network, a) <==>
      Admits(b.core, kind == "open_wallet", p.name, p.network, a);
  }

  // With no ticket waiting the turn is a tick.
  lemma TurnTicks(b: Both, a: Answers, shown: Outcome -> string)
    requires Turnable(b) && !b.desk.stop && b.desk.queue == []
    ensures var c, r := b.core, TurnOf(b, a, shown);
      && r.desk == b.desk && r.core.wallet == c.wallet
      && (c.wallet.Some? ==> Decides(c, a.synced, a.height, a, r.core.route))
      && (c.wallet.Some? && (c.state.Syncing? || c.state.Ready?) ==> r.core.state == if a.synced then Ready else Syncing)
  {
    hide RunFrom, Reset, Decides;
    if b.core.wallet.Some? { TickEnds(b.core, a); } else { NothingToTick(b.core, a); }
  }

  lemma NothingToTick(c: Core, a: Answers)
    requires c.wallet.None?
    ensures RunJob(c, Job.Tick, a).c == Reset(c) && Reset(c).wallet == c.wallet
  {
    var d := Reset(c);
    assert WorkerStep(d, TickRead, a) == Step(d, Idle(Okay));
  }
}
