// The worker thread (src/wallet_runtime.cpp, threadMain and run): a ticket off the queue, its job,
// and the outcome back in the ticket; or a tick when nothing is queued; and again.
module Thread {
  import opened Bytes
  import TicketDesk
  import opened Tickets
  import W = Worker
  import opened Invariant
  import opened Runtime

  function JobOf(kind: string, p: TicketDesk.Params): (job: W.Job)
    requires kind in TicketDesk.KINDS
    ensures !job.Tick?
  {
    if kind == "open_wallet" then W.OpenLike(W.OpenJob(W.OpenWallet, p.name, p.network))
    else if kind == "create_wallet" then W.OpenLike(W.OpenJob(W.CreateWallet, p.name, p.network))
    else if kind == "restore_from_seed" then W.OpenLike(W.OpenJob(W.RestoreFromSeed, p.name, p.network))
    else if kind == "restore_from_keys" then W.OpenLike(W.OpenJob(W.RestoreFromKeys, p.name, p.network))
    else if kind == "close_wallet" then W.Close
    else if kind == "rescan" then W.Rescan
    else if kind == "create_transaction" then W.CreateTransaction(p.amount, p.address)
    else if kind == "commit_transaction" then W.CommitTransaction(p.txHandle)
    else if kind == "dispose_transaction" then W.DisposeTransaction(p.txHandle)
    else W.ChangePassword
  }

  function StatusOf(out: W.Outcome, shown: W.Outcome -> string): (s: TicketDesk.Status)
    ensures TicketDesk.Finished(s) && (s.Done? <==> out.Okay?)
  {
    if out.Okay? then TicketDesk.Done(shown(out)) else TicketDesk.Failed(shown(out))
  }

  // ---- One turn, and many, on values ----

  datatype Both = Both(desk: TicketDesk.Desk, core: W.Core)

  // Between turns.
  ghost predicate Turnable(b: Both) {
    TicketDesk.Valid(b.desk) && b.desk.running.None? && (b.core.wallet.Some? ==> b.core.wallet.value < |b.core.wallets|)
  }

  // What the oldest ticket asks for.
  ghost function NextJob(d: TicketDesk.Desk): W.Job
    requires TicketDesk.Valid(d) && d.queue != []
  {
    JobOf(TicketDesk.Oldest(d).kind, TicketDesk.Oldest(d).params)
  }

  ghost function TurnOf(b: Both, a: W.Answers, shown: W.Outcome -> string): (r: Both)
    requires Turnable(b)
    ensures Turnable(r)
  {
    hide W.RunFrom, TicketDesk.Valid, JobOf, StatusOf, TicketDesk.Oldest;
    if b.desk.stop then b
    else if b.desk.queue == [] then b.(core := W.RunJob(b.core, W.Job.Tick, a).c)
    else
      var ran := W.RunJob(b.core, NextJob(b.desk), a);
      var status := StatusOf(ran.pc.out, shown);
      TicketDesk.TakeKeeps(b.desk);
      TicketDesk.SettleKeeps(TicketDesk.Taken(b.desk), status);
      TakenRuns(b.desk, status);
      Both(TicketDesk.Settled(TicketDesk.Taken(b.desk), status), ran.c)
  }

  lemma TakenRuns(d: TicketDesk.Desk, status: TicketDesk.Status)
    requires TicketDesk.Valid(d) && d.queue != [] && !d.stop && d.running.None? && TicketDesk.Finished(status)
    ensures TicketDesk.Settled(TicketDesk.Taken(d), status).running.None?
  {
    assert d.queue[0] in d.queue;
  }

  ghost function TurnsOf(b: Both, turns: seq<W.Answers>, shown: W.Outcome -> string): (r: Both)
    requires Turnable(b)
    ensures Turnable(r)
  {
    if turns == [] then b else TurnOf(TurnsOf(b, turns[..|turns| - 1], shown), turns[|turns| - 1], shown)
  }

  // ---- The code ----

  // The ticket taken is the one settled, with what its own job came to; the wallet is where that
  // job, or the tick, leaves it; both keep all their promises, so that the next turn can follow.
  method Turn(q: TicketQueue, w: WalletRuntime, a: W.Answers, shown: W.Outcome -> string)
    requires q.Valid() && w.Valid() && q.desk.running.None? && (q.queue != [] ==> w.dirSet)
    modifies q, q.jobs.Values, w
    ensures q.Valid() && w.Valid() && q.desk.running.None? && (q.queue != [] ==> w.dirSet) && q.jobs == old(q.jobs)
    ensures Turnable(old(Both(q.desk, w.Now()))) && Both(q.desk, w.Now()) == TurnOf(old(Both(q.desk, w.Now())), a, shown)
  {
    hide CoreInv, HeightFits, W.RunJob, JobOf, StatusOf, TicketDesk.Valid, TicketDesk.KINDS, TicketDesk.Oldest,
      TicketDesk.Settled, TicketDesk.Taken, TicketQueue.Fits;
    w.IsSound();
    if q.stop { return; }
    var job := q.TakeJob();
    var out;
    if job.None? {
      out := w.Run(W.Job.Tick, a);
    } else {
      out := w.Run(JobOf(job.value.kind, job.value.params), a);
      q.SettleJob(job.value, StatusOf(out, shown));
    }
  }

  // The loop, for as many turns as there are answers.
  method ThreadMain(q: TicketQueue, w: WalletRuntime, turns: seq<W.Answers>, shown: W.Outcome -> string)
    requires q.Valid() && w.Valid() && q.desk.running.None? && (q.queue != [] ==> w.dirSet)
    modifies q, q.jobs.Values, w
    ensures q.Valid() && w.Valid() && q.desk.running.None?
    ensures Turnable(old(Both(q.desk, w.Now()))) && Both(q.desk, w.Now()) == TurnsOf(old(Both(q.desk, w.Now())), turns, shown)
  {
    hide CoreInv, HeightFits, TurnOf, TicketDesk.Valid, TicketQueue.Fits;
    w.IsSound();
    for i := 0 to |turns|
      invariant q.Valid() && w.Valid() && q.desk.running.None? && (q.queue != [] ==> w.dirSet) && q.jobs == old(q.jobs)
      invariant Both(q.desk, w.Now()) == TurnsOf(old(Both(q.desk, w.Now())), turns[..i], shown)
    {
      assert turns[..i + 1][..i] == turns[..i] && turns[..i + 1][i] == turns[i];
      Turn(q, w, turns[i], shown);
    }
    assert turns[..|turns|] == turns;
  }
}
