// How often a tick asks the node module while the wallet is on Tor.
module Asking {
  import opened Bytes
  import opened Text
  import opened Worker
  import opened Endings

  lemma FlipIgnores(c: Core, pc: Pc, a: Answers, b: Answers)
    requires pc.TickFlip? && Fits(c, pc)
    ensures RunFrom(c, pc, a) == RunFrom(c, pc, b)
  {
    hide OpenStep, CloseStep, RescanStep, SendStep, MoveStep, Fits;
    var t := TickStep(c, pc, a);
    assert t == TickStep(c, pc, b) && t.pc.Idle?;
    hide TickStep;
    assert WorkerStep(c, pc, a) == t && WorkerStep(c, pc, b) == t;
    hide WorkerStep;
    assert RunFrom(t.c, t.pc, a) == t && RunFrom(t.c, t.pc, b) == t;
  }

  // On Tor, within 60 s of the last asking, a tick does the same whatever the node module would say.
  lemma TickIgnores(c: Core, a: Answers, n: Node)
    requires c.wallet.Some? && c.wallet.value < |c.wallets| && c.route.Tor? && a.now - c.torAskedAt < 60_000_000_000
    ensures var t := RunJob(c, Job.Tick, a);
      && t == RunJob(c, Job.Tick, a.(node := n))
      && t.c.wallet == c.wallet && t.c.wallets == c.wallets && t.c.route.Tor? && t.c.torAskedAt == c.torAskedAt
  {
    hide RunFrom, MoveStep, Reset;
    SameButLocks(c);
    var d, b := Reset(c), a.(node := n);
    ReadsFirst(d, a);
    ReadsFirst(d, b);
    NoteQuiet(d, a.synced, a.height, a);
    NoteQuiet(d, a.synced, a.height, b);
    var e := Ticked(d, a.height, a.now);
    FlipIgnores(e, TickFlip(a.synced), a, b);
    FlipEnds(e, TickFlip(a.synced), a);
  }

  lemma SameButLocks(c: Core)
    ensures var d := Reset(c); d == c.(locks := d.locks, locksReset := d.locksReset)
  {}

  lemma NoteQuiet(c: Core, synced: bool, height: nat, a: Answers)
    requires c.wallet.Some? && c.wallet.value < |c.wallets| && c.route.Tor? && a.now - c.torAskedAt < 60_000_000_000
    ensures RunFrom(c, TickNote(synced, height), a) == RunFrom(Ticked(c, height, a.now), TickFlip(synced), a)
    ensures Ticked(c, height, a.now).torAskedAt == c.torAskedAt
  {
    hide TorReady;
    assert WorkerStep(c, TickNote(synced, height), a) == TickStep(c, TickNote(synced, height), a);
  }

  // One that asks notes when: at the tick, or at the move it led to.
  lemma TickNotesAsking(c: Core, a: Answers)
    requires c.wallet.Some? && c.wallet.value < |c.wallets| && c.route.Tor? && a.now - c.torAskedAt >= 60_000_000_000
    requires RunJob(c, Job.Tick, a).c.route.Tor?
    ensures var t := RunJob(c, Job.Tick, a).c;
      t.wallet == c.wallet && |t.wallets| == |c.wallets| && (t.torAskedAt == a.now || t.torAskedAt == a.later)
  {
    hide RunFrom, MoveStep, Reset, TorReady;
    SameButLocks(c);
    var d := Reset(c);
    ReadsFirst(d, a);
    NoteAsks(d, a.synced, a.height, a);
    var e, ask := Ticked(d, a.height, a.now), TickAsk(a.synced, d.network, d.torUrl);
    AskLeadsOn(e, ask, a);
    var u := TickStep(e, ask, a);
    if u.pc.AtMove? { MoveNotes(u.c, u.pc, a); } else { FlipEnds(u.c, u.pc, a); }
  }

  lemma NoteAsks(c: Core, synced: bool, height: nat, a: Answers)
    requires c.wallet.Some? && c.wallet.value < |c.wallets| && c.route.Tor? && a.now - c.torAskedAt >= 60_000_000_000
    ensures var e := Ticked(c, height, a.now);
      && RunFrom(c, TickNote(synced, height), a) == RunFrom(e, TickAsk(synced, c.network, c.torUrl), a)
      && e.torAskedAt == a.now && e.wallets == c.wallets && e.wallet == c.wallet && e.route == c.route
  {
    hide TorReady;
    assert WorkerStep(c, TickNote(synced, height), a) == TickStep(c, TickNote(synced, height), a);
  }

  lemma {:induction false} MoveNotes(c: Core, pc: Pc, a: Answers)
    requires pc.AtMove? && Fits(c, pc) && c.wallet.Some? && (pc.move.ReadRoute? || pc.from == c.route)
    ensures var t := RunFrom(c, pc, a).c;
      (t.torAskedAt == a.later || t.route == c.route == WaitingForTor) && t.wallet == c.wallet && |t.wallets| == |c.wallets|
    decreases Rank(pc)
  {
    hide MoveStep, WillMove, Aim, HostPort, Fits;
    var t := MoveStep(c, pc, a);
    assert WorkerStep(c, pc, a) == t;
    if pc.move in {ReadRoute, Resolve, Quiet, Drain} {
      EarlyNotes(c, pc, a);
    } else if pc.move.Redial? {
      RedialNotes(c, pc, a);
    } else {
      LateNotes(c, pc, a);
    }
    if t.pc.AtMove? { MoveNotes(t.c, t.pc, a); } else { FlipEnds(t.c, t.pc, a); }
  }

  // One section of a move, which keeps the route until its bookkeeping.
  ghost predicate NotesOn(c: Core, pc: Pc, t: Step, a: Answers)
    requires pc.AtMove?
  {
    && t.c.wallet == c.wallet && |t.c.wallets| == |c.wallets|
    && if t.pc.AtMove? then t.c.route == c.route && (t.pc.move.ReadRoute? || t.pc.from == t.c.route)
       else t.pc.TickFlip? && (t.c.torAskedAt == a.later || t.c.route == c.route == WaitingForTor)
  }

  lemma EarlyNotes(c: Core, pc: Pc, a: Answers)
    requires pc.AtMove? && pc.move in {ReadRoute, Resolve, Quiet, Drain} && Fits(c, pc) && c.wallet.Some?
    requires pc.move.ReadRoute? || pc.from == c.route
    ensures NotesOn(c, pc, MoveStep(c, pc, a), a)
  {
    hide TorReady, HostPort, InitTo, Hushed;
  }

  lemma RedialNotes(c: Core, pc: Pc, a: Answers)
    requires pc.AtMove? && pc.move.Redial? && Fits(c, pc) && c.wallet.Some? && pc.from == c.route
    ensures NotesOn(c, pc, MoveStep(c, pc, a), a)
  {
    hide TorReady, HostPort, InitTo;
    var t := MoveStep(c, pc, a);
    if !TorReady(pc.target) {
      assert t == Step(c, pc.(move := Settle, moved := false));
    } else if a.initOk {
      assert t.pc == pc.(move := Distrust);
    } else {
      assert t.pc == pc.(move := Settle, moved := false);
    }
  }

  lemma LateNotes(c: Core, pc: Pc, a: Answers)
    requires pc.AtMove? && pc.move in {Distrust, Resume, Settle} && Fits(c, pc) && c.wallet.Some? && pc.from == c.route
    ensures NotesOn(c, pc, MoveStep(c, pc, a), a)
  {
    hide TorReady, HostPort, InitTo;
  }

  // ---- Many ticks ----

  ghost function AfterTicks(c: Core, ticks: seq<Answers>): Core
    requires c.wallet.Some? ==> c.wallet.value < |c.wallets|
    ensures AfterTicks(c, ticks).wallet.Some? ==> AfterTicks(c, ticks).wallet.value < |AfterTicks(c, ticks).wallets|
    decreases |ticks|
  {
    if ticks == [] then c else AfterTicks(RunJob(c, Job.Tick, ticks[0]).c, ticks[1..])
  }

  // The same ticks, had the node module said that instead every time.
  function SayingInstead(ticks: seq<Answers>, n: Node): (r: seq<Answers>)
    ensures |r| == |ticks| && forall i :: 0 <= i < |ticks| ==> r[i] == ticks[i].(node := n)
  {
    seq(|ticks|, i requires 0 <= i < |ticks| => ticks[i].(node := n))
  }

  lemma {:induction false} QuietFrom(c: Core, since: Instant, ticks: seq<Answers>, n: Node)
    requires c.wallet.Some? && c.wallet.value < |c.wallets| && c.route.Tor? && c.torAskedAt >= since
    requires forall i :: 0 <= i < |ticks| ==> ticks[i].now < since + 60_000_000_000
    ensures AfterTicks(c, ticks) == AfterTicks(c, SayingInstead(ticks, n))
    decreases |ticks|
  {
    hide RunFrom, Reset;
    if ticks != [] {
      TickIgnores(c, ticks[0], n);
      assert SayingInstead(ticks, n)[1..] == SayingInstead(ticks[1..], n);
      QuietFrom(RunJob(c, Job.Tick, ticks[0]).c, since, ticks[1..], n);
    } else {
      assert SayingInstead(ticks, n) == ticks;
    }
  }

  // On Tor the node module is asked at most once in 60 s: after a tick that asked, and left the wallet
  // on Tor, no answer of its makes a difference to any tick in the next 60 s.
  lemma AskedOnceAMinute(c: Core, a: Answers, ticks: seq<Answers>, n: Node)
    requires c.wallet.Some? && c.wallet.value < |c.wallets| && c.route.Tor?
    requires a.now - c.torAskedAt >= 60_000_000_000 && a.later >= a.now && RunJob(c, Job.Tick, a).c.route.Tor?
    requires forall i :: 0 <= i < |ticks| ==> ticks[i].now < a.now + 60_000_000_000
    ensures var d := RunJob(c, Job.Tick, a).c; AfterTicks(d, ticks) == AfterTicks(d, SayingInstead(ticks, n))
  {
    hide RunFrom, Reset;
    TickNotesAsking(c, a);
    QuietFrom(RunJob(c, Job.Tick, a).c, a.now, ticks, n);
  }

  // Nor in the 60 s after an open on Tor, or after a tick that moved there.
  lemma QuietAfterOpen(c: Core, job: OpenJob, a: Answers, ticks: seq<Answers>, n: Node)
    requires c.wallet.Some? ==> c.wallet.value < |c.wallets|
    requires Admits(c, job.kind.OpenWallet?, job.name, job.network, a)
    requires a.node.catchUp == "" && a.node.proxy != "" && a.node.proxy != "tor"
    requires forall i :: 0 <= i < |ticks| ==> ticks[i].now < a.now + 60_000_000_000
    ensures var d := RunFrom(c, AtOpen(Policy, job, NO_NODE, 0), a).c; AfterTicks(d, ticks) == AfterTicks(d, SayingInstead(ticks, n))
  {
    hide RunFrom, Admits, Refusal, PeerOf;
    OpenEnds(c, job, a);
    AdmitsIff(c, job, a);
    QuietFrom(RunFrom(c, AtOpen(Policy, job, NO_NODE, 0), a).c, a.now, ticks, n);
  }

  lemma QuietAfterMove(c: Core, a: Answers, ticks: seq<Answers>, n: Node)
    requires c.wallet.Some? && c.wallet.value < |c.wallets| && (c.route.CatchUp? || c.route.WaitingForTor?)
    requires RunJob(c, Job.Tick, a).c.route.Tor?
    requires forall i :: 0 <= i < |ticks| ==> ticks[i].now < a.later + 60_000_000_000
    ensures var d := RunJob(c, Job.Tick, a).c; AfterTicks(d, ticks) == AfterTicks(d, SayingInstead(ticks, n))
  {
    hide RunJob;
    MoveAsked(c, a);
    QuietFrom(RunJob(c, Job.Tick, a).c, a.later, ticks, n);
  }

  lemma MoveAsked(c: Core, a: Answers)
    requires c.wallet.Some? && c.wallet.value < |c.wallets| && (c.route.CatchUp? || c.route.WaitingForTor?)
    requires RunJob(c, Job.Tick, a).c.route.Tor?
    ensures var t := RunJob(c, Job.Tick, a).c;
      t.torAskedAt == a.later && t.wallet == c.wallet && |t.wallets| == |c.wallets|
  {
    hide RunFrom, Reset, MoveStep;
    SameButLocks(c);
    ReadsFirst(Reset(c), a);
    NoteMoves(Reset(c), a.synced, a.height, a);
  }

  lemma NoteMoves(c: Core, synced: bool, height: nat, a: Answers)
    requires c.wallet.Some? && c.wallet.value < |c.wallets| && (c.route.CatchUp? || c.route.WaitingForTor?)
    requires RunFrom(c, TickNote(synced, height), a).c.route.Tor?
    ensures var t := RunFrom(c, TickNote(synced, height), a).c;
      t.torAskedAt == a.later && t.wallet == c.wallet && |t.wallets| == |c.wallets|
  {
    hide RunFrom, MoveStep, TorReady, TickStep;
    var t := TickStep(c, TickNote(synced, height), a);
    NoteNext(c, TickNote(synced, height), a);
    NoteLeads(c, synced, height, a);
    if t.pc.AtMove? { MoveNotes(t.c, t.pc, a); } else { FlipEnds(t.c, t.pc, a); }
  }
}
