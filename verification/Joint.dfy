// The ticket queue and the runtime in one step system: callers at the queue, the worker between
// queue and wallet, the probe and the rest, in any order.
module Joint {
  import opened Bytes
  import D = TicketDesk
  import opened Worker
  import opened System
  import opened Invariant
  import opened Sections
  import opened Runs
  import T = Thread
  import X = Throws

  // One turn of the worker, as history: whose ticket, what job, and how it ended once it has.
  datatype Ran = Ran(ticket: Option<nat>, job: Worker.Job, out: Option<Outcome>)

  datatype Whole = Whole(desk: D.Desk, sys: System, runs: seq<Ran>)

  datatype Move =
    | Caller(op: D.Op)  // startJob, ackJob, cancelJob, or the stop flag
    | TakeTurn          // the worker takes a ticket, or ticks
    | Other(act: Act)   // any step of worker, probe, wallet2, lock holders or shutdown
    | Throw             // the section at work ends in an exception, which the worker catches
    | SettleTicket      // the worker writes the outcome into its ticket
    | Crash             // the instance is started anew: its tickets are gone, the node module's locks are not

  function Start(locks: set<string>): Whole { Whole(D.EMPTY, Boot(locks), []) }

  ghost predicate Possible(w: Whole, move: Move, m: World) {
    match move
    case Caller(op) => !op.Take? && !op.Settle? && (op.Start? ==> op.dirSet == w.sys.c.dirSet)
    case TakeTurn => D.Valid(w.desk) && !w.desk.stop && !w.sys.down && w.desk.running.None? && w.sys.pc.Idle?
    case Other(act) =>
      && Allowed(w.sys, act, m) && Fits(w.sys.c, w.sys.pc) && !act.Begin? && !act.Restart?
      && (act.Shutdown? ==> w.desk.stop && w.desk.running.None?)
    case Throw => !w.sys.down && !w.sys.pc.Idle?
    case SettleTicket => w.desk.running.Some? && w.sys.pc.Idle?
    case Crash => true
  }

  function Ended(runs: seq<Ran>, pc: Pc): seq<Ran> {
    if runs == [] || !pc.Idle? then runs else runs[|runs| - 1 := runs[|runs| - 1].(out := Some(pc.out))]
  }

  function Begun(s: System, job: Worker.Job): System { s.(c := Reset(s.c), pc := Entry(job)) }

  ghost function Next(w: Whole, move: Move, m: World, shown: Outcome -> string): Whole
    requires Possible(w, move, m)
  {
    match move
    case Caller(op) => w.(desk := D.Apply(w.desk, op))
    case TakeTurn =>
      if w.desk.queue == [] then w.(sys := Begun(w.sys, Job.Tick), runs := w.runs + [Ran(None, Job.Tick, None)])
      else
        var job := T.NextJob(w.desk);
        Whole(D.Taken(w.desk), Begun(w.sys, job), w.runs + [Ran(Some(w.desk.queue[0]), job, None)])
    case Other(act) =>
      var s := Do(w.sys, act);
      w.(sys := s, runs := if act.Work? then Ended(w.runs, s.pc) else w.runs)
    case Throw =>
      var s := w.sys.(pc := Idle(Err(Thrown)));
      w.(sys := s, runs := Ended(w.runs, s.pc))
    case SettleTicket => w.(desk := D.Settled(w.desk, T.StatusOf(w.sys.pc.out, shown)))
    case Crash => Start(w.sys.c.locks)
  }

  // ---- What every step keeps ----

  // A ticket's result is what its own job came to.
  ghost predicate Told(runs: seq<Ran>, n: nat, t: D.Ticket, shown: Outcome -> string)
    requires t.kind in D.KINDS
  {
    exists i :: 0 <= i < |runs| &&
      runs[i].ticket == Some(n) && runs[i].job == T.JobOf(t.kind, t.params) && runs[i].out.Some?
      && t.status == T.StatusOf(runs[i].out.value, shown)
  }

  ghost predicate AllTold(d: D.Desk, runs: seq<Ran>, shown: Outcome -> string)
    requires D.Valid(d)
  {
    forall n :: n in d.tickets && D.Finished(d.tickets[n].status) ==> Told(runs, n, d.tickets[n], shown)
  }

  // The tickets whose jobs were begun, in order.
  function Begunners(runs: seq<Ran>): seq<nat> {
    if runs == [] then []
    else
      var last := runs[|runs| - 1].ticket;
      Begunners(runs[..|runs| - 1]) + if last.Some? then [last.value] else []
  }

  // The last turn is the one under way, or done and perhaps not yet settled.
  ghost predicate LastFits(d: D.Desk, pc: Pc, runs: seq<Ran>)
    requires D.Valid(d)
  {
    && (!pc.Idle? ==> runs != [] && runs[|runs| - 1].out.None? && runs[|runs| - 1].ticket == d.running)
    && (d.running.Some? ==>
         var t := d.tickets[d.running.value];
         && runs != [] && runs[|runs| - 1].ticket == d.running && runs[|runs| - 1].job == T.JobOf(t.kind, t.params)
         && (pc.Idle? ==> runs[|runs| - 1].out == Some(pc.out)))
  }

  predicate Unthrown(runs: seq<Ran>) { forall i :: 0 <= i < |runs| ==> runs[i].out != Some(Err(Thrown)) }

  ghost predicate WholeInv(w: Whole, m: World, shown: Outcome -> string) {
    && D.Valid(w.desk) && X.Intact(w.sys) && (Unthrown(w.runs) ==> Inv(w.sys, m)) && (w.desk.nextId > 1 ==> w.sys.c.dirSet)
    && LastFits(w.desk, w.sys.pc, w.runs) && AllTold(w.desk, w.runs, shown) && Begunners(w.runs) == w.desk.started
  }

  lemma CallTells(d: D.Desk, op: D.Op)
    requires D.Valid(d) && !op.Take? && !op.Settle?
    ensures var e := D.Apply(d, op);
      && e.running == d.running && e.started == d.started && (e.nextId > 1 && d.nextId == 1 ==> op.Start? && op.dirSet)
      && (d.nextId > 1 ==> e.nextId > 1)
      && forall n :: n in e.tickets ==> (n in d.tickets && e.tickets[n] == d.tickets[n]) || e.tickets[n].status.Queued?
  {
    hide D.Without;
  }

  lemma CallKeeps(w: Whole, op: D.Op, m: World, shown: Outcome -> string)
    requires WholeInv(w, m, shown) && Possible(w, Caller(op), m)
    ensures WholeInv(Next(w, Caller(op), m, shown), m, shown)
  {
    hide D.Apply, Inv, X.Intact, Told, T.JobOf, T.StatusOf;
    D.StepKeeps(w.desk, op);
    CallTells(w.desk, op);
  }

  lemma Longer(runs: seq<Ran>, x: Ran)
    ensures Begunners(runs + [x]) == Begunners(runs) + if x.ticket.Some? then [x.ticket.value] else []
    ensures Unthrown(runs + [x]) ==> Unthrown(runs)
  {
    if Unthrown(runs + [x]) { assert forall i :: 0 <= i < |runs| ==> runs[i] == (runs + [x])[i]; }
    assert (runs + [x])[..|runs|] == runs;
  }

  lemma StillTold(runs: seq<Ran>, x: Ran, n: nat, t: D.Ticket, shown: Outcome -> string)
    requires t.kind in D.KINDS && Told(runs, n, t, shown)
    ensures Told(runs + [x], n, t, shown)
  {
    hide T.JobOf, T.StatusOf;
    var i :| 0 <= i < |runs| &&
      runs[i].ticket == Some(n) && runs[i].job == T.JobOf(t.kind, t.params) && runs[i].out.Some?
      && t.status == T.StatusOf(runs[i].out.value, shown);
    assert (runs + [x])[i] == runs[i];
  }

  // A section begun is a step of the system.
  lemma BeginsWell(s: System, job: Worker.Job, m: World)
    requires X.Intact(s) && !s.down && s.pc.Idle? && (job.Tick? || s.c.dirSet)
    ensures X.Intact(Begun(s, job)) && (Inv(s, m) ==> Inv(Begun(s, job), m)) && (s.c.dirSet ==> Begun(s, job).c.dirSet)
  {
    IntactFits(s);
    hide Inv, X.Intact, AllGrow, Final;
    assert Reset(s.c).dirSet == s.c.dirSet;
    hide Reset;
    X.BeginStrays(s, job);
    if Inv(s, m) { BeginKeeps(s, job, m); }
  }

  lemma IntactFits(s: System)
    requires X.Intact(s)
    ensures Fits(s.c, s.pc)
  {}

  lemma TickKeeps(w: Whole, m: World, shown: Outcome -> string)
    requires WholeInv(w, m, shown) && Possible(w, TakeTurn, m) && w.desk.queue == []
    ensures WholeInv(Next(w, TakeTurn, m, shown), m, shown)
  {
    hide Inv, X.Intact, Unthrown, Told, T.JobOf, T.StatusOf, Begun, D.QueueFits, D.RunningFits, D.Partition, D.StartedFits;
    var x := Ran(None, Job.Tick, None);
    BeginsWell(w.sys, Job.Tick, m);
    BegunIsBusy(w.sys, Job.Tick);
    Longer(w.runs, x);
    forall n | n in w.desk.tickets && D.Finished(w.desk.tickets[n].status)
      ensures Told(w.runs + [x], n, w.desk.tickets[n], shown)
    {
      StillTold(w.runs, x, n, w.desk.tickets[n], shown);
    }
  }

  lemma TakeKeeps(w: Whole, m: World, shown: Outcome -> string)
    requires WholeInv(w, m, shown) && Possible(w, TakeTurn, m) && w.desk.queue != []
    ensures WholeInv(Next(w, TakeTurn, m, shown), m, shown)
  {
    hide Inv, X.Intact, Unthrown, Told, T.JobOf, T.StatusOf, Begun, LastFits;
    var job := T.NextJob(w.desk);
    var x := Ran(Some(w.desk.queue[0]), job, None);
    QueuedWasIssued(w.desk);
    BeginsWell(w.sys, job, m);
    BegunIsBusy(w.sys, job);
    Longer(w.runs, x);
    D.TakeKeeps(w.desk);
    TakenLast(w.desk, Begun(w.sys, job).pc, w.runs);
    forall n | n in w.desk.tickets && D.Finished(w.desk.tickets[n].status)
      ensures Told(w.runs + [x], n, w.desk.tickets[n], shown)
    {
      StillTold(w.runs, x, n, w.desk.tickets[n], shown);
    }
  }

  // The turn just begun is that of the ticket now running.
  lemma TakenLast(d: D.Desk, pc: Pc, runs: seq<Ran>)
    requires D.Valid(d) && d.queue != [] && !d.stop && d.running.None? && !pc.Idle?
    ensures D.Valid(D.Taken(d)) && LastFits(D.Taken(d), pc, runs + [Ran(Some(d.queue[0]), T.NextJob(d), None)])
  {
    hide T.JobOf;
    D.TakeKeeps(d);
    QueuedWasIssued(d);
  }

  lemma QueuedWasIssued(d: D.Desk)
    requires D.Valid(d)
    ensures d.queue != [] ==> d.nextId > 1 && d.queue[0] in d.tickets
  {
    if d.queue != [] { assert d.queue[0] in d.queue; }
  }

  lemma BegunIsBusy(s: System, job: Worker.Job)
    ensures !Begun(s, job).pc.Idle?
  {}

  // The end of a job is written to the last turn, which was open till then.
  lemma EndedIs(runs: seq<Ran>, pc: Pc)
    ensures |Ended(runs, pc)| == |runs| && Begunners(Ended(runs, pc)) == Begunners(runs)
    ensures runs != [] && runs[|runs| - 1].out.None? && Unthrown(Ended(runs, pc)) ==> Unthrown(runs)
  {
    if runs != [] && pc.Idle? {
      var e := Ended(runs, pc);
      assert e[..|e| - 1] == runs[..|runs| - 1];
      if runs[|runs| - 1].out.None? && Unthrown(e) { assert forall i :: 0 <= i < |runs| - 1 ==> runs[i] == e[i]; }
    }
  }

  lemma ToldAtEnd(runs: seq<Ran>, pc: Pc, n: nat, t: D.Ticket, shown: Outcome -> string)
    requires runs != [] && runs[|runs| - 1].out.None? && t.kind in D.KINDS && Told(runs, n, t, shown)
    ensures Told(Ended(runs, pc), n, t, shown)
  {
    hide T.JobOf, T.StatusOf;
    var i :| 0 <= i < |runs| &&
      runs[i].ticket == Some(n) && runs[i].job == T.JobOf(t.kind, t.params) && runs[i].out.Some?
      && t.status == T.StatusOf(runs[i].out.value, shown);
    assert Ended(runs, pc)[i] == runs[i];
  }

  // A directory once set stays set.
  lemma DirStays(s: System, act: Act)
    requires X.Intact(s) && Enabled(s, act) && Fits(s.c, s.pc) && !act.Restart?
    ensures s.c.dirSet ==> Do(s, act).c.dirSet
  {
    hide WorkerStep, X.Held, PlaceFits, X.HandleMove;
    if act.Work? { X.WorkerCarries(s.c, s.pc, act.a); }
  }

  lemma ActKeeps(s: System, act: Act, m: World)
    requires X.Intact(s) && Fits(s.c, s.pc) && Allowed(s, act, m) && !act.Begin? && !act.Restart?
    ensures var t := Do(s, act);
      && X.Intact(t) && (Inv(s, m) ==> Inv(t, m)) && (s.c.dirSet ==> t.c.dirSet)
      && (!act.Work? ==> t.pc == s.pc) && (act.Work? ==> !s.pc.Idle?)
  {
    hide Inv, X.Intact, AllGrow, Final, WorkerStep;
    DirStays(s, act);
    X.EdgeStrays(s, X.Acts(act));
    if Inv(s, m) { DoKeeps(s, act, m); }
  }

  // The turn at work ends, whichever way.
  lemma EndTells(w: Whole, pc: Pc, m: World, shown: Outcome -> string)
    requires WholeInv(w, m, shown) && !w.sys.pc.Idle?
    ensures var runs := Ended(w.runs, pc);
      && LastFits(w.desk, pc, runs) && AllTold(w.desk, runs, shown) && Begunners(runs) == w.desk.started
      && (Unthrown(runs) ==> Unthrown(w.runs)) && (pc == Idle(Err(Thrown)) ==> !Unthrown(runs))
  {
    hide Inv, X.Intact, Told, T.JobOf, T.StatusOf, D.QueueFits, D.RunningFits, D.Partition, D.StartedFits;
    var runs := Ended(w.runs, pc);
    EndedIs(w.runs, pc);
    forall n | n in w.desk.tickets && D.Finished(w.desk.tickets[n].status)
      ensures Told(runs, n, w.desk.tickets[n], shown)
    {
      ToldAtEnd(w.runs, pc, n, w.desk.tickets[n], shown);
    }
    if pc == Idle(Err(Thrown)) { assert runs[|runs| - 1].out == Some(Err(Thrown)); }
  }

  lemma OtherKeeps(w: Whole, act: Act, m: World, shown: Outcome -> string)
    requires WholeInv(w, m, shown) && Possible(w, Other(act), m)
    ensures WholeInv(Next(w, Other(act), m, shown), m, shown)
  {
    hide Inv, X.Intact, AllTold, Do, Enabled, Ended, Unthrown, D.QueueFits, D.RunningFits, D.Partition, D.StartedFits;
    ActKeeps(w.sys, act, m);
    if act.Work? { EndTells(w, Do(w.sys, act).pc, m, shown); }
  }

  lemma ThrowKeeps(w: Whole, m: World, shown: Outcome -> string)
    requires WholeInv(w, m, shown) && Possible(w, Throw, m)
    ensures WholeInv(Next(w, Throw, m, shown), m, shown)
  {
    IntactFits(w.sys);
    hide Inv, X.Intact, AllTold, Ended, Unthrown, D.QueueFits, D.RunningFits, D.Partition, D.StartedFits;
    X.ThrowStrays(w.sys);
    EndTells(w, Idle(Err(Thrown)), m, shown);
  }

  lemma SettleKeeps(w: Whole, m: World, shown: Outcome -> string)
    requires WholeInv(w, m, shown) && Possible(w, SettleTicket, m)
    ensures WholeInv(Next(w, SettleTicket, m, shown), m, shown)
  {
    hide Inv, X.Intact, Unthrown, T.JobOf, D.QueueFits, D.Partition, D.StartedFits, D.KINDS;
    var status := T.StatusOf(w.sys.pc.out, shown);
    assert D.Finished(status);
    hide T.StatusOf;
    D.SettleKeeps(w.desk, status);
    var n := w.desk.running.value;
    var e := Next(w, SettleTicket, m, shown).desk;
    var last := |w.runs| - 1;
    assert w.runs[last].ticket == Some(n) && w.runs[last].out == Some(w.sys.pc.out);
    assert Told(w.runs, n, e.tickets[n], shown);
  }

  lemma NextKeeps(w: Whole, move: Move, m: World, shown: Outcome -> string)
    requires WholeInv(w, m, shown) && Possible(w, move, m)
    ensures WholeInv(Next(w, move, m, shown), m, shown)
  {
    hide WholeInv;
    match move
    case Caller(op) => CallKeeps(w, op, m, shown);
    case TakeTurn => if w.desk.queue == [] { TickKeeps(w, m, shown); } else { TakeKeeps(w, m, shown); }
    case Other(act) => OtherKeeps(w, act, m, shown);
    case Throw => ThrowKeeps(w, m, shown);
    case Crash => StartFits(w.sys.c.locks, m, shown);
    case SettleTicket => SettleKeeps(w, m, shown);
  }

  // ---- Runs ----

  ghost predicate LegalMoves(w: Whole, moves: seq<Move>, m: World, shown: Outcome -> string)
    decreases |moves|
  {
    moves == [] || (Possible(w, moves[0], m) && LegalMoves(Next(w, moves[0], m, shown), moves[1..], m, shown))
  }

  ghost function AfterMoves(w: Whole, moves: seq<Move>, m: World, shown: Outcome -> string): Whole
    requires LegalMoves(w, moves, m, shown)
    decreases |moves|
  {
    if moves == [] then w else AfterMoves(Next(w, moves[0], m, shown), moves[1..], m, shown)
  }

  lemma {:induction false} MovesKeep(w: Whole, moves: seq<Move>, m: World, shown: Outcome -> string)
    requires WholeInv(w, m, shown) && LegalMoves(w, moves, m, shown)
    ensures WholeInv(AfterMoves(w, moves, m, shown), m, shown)
    decreases |moves|
  {
    hide WholeInv, Possible, Next;
    if moves != [] {
      NextKeeps(w, moves[0], m, shown);
      MovesKeep(Next(w, moves[0], m, shown), moves[1..], m, shown);
    }
  }

  lemma StartFits(locks: set<string>, m: World, shown: Outcome -> string)
    ensures WholeInv(Start(locks), m, shown)
  {
    hide Inv, X.Intact;
    BootFits(locks, m);
    X.BootIntact(locks);
    D.EmptyIsValid();
  }

  // Whatever callers, probe, wallet2 and lock holders do in between, whichever section throws, and
  // however often the instance is started anew: a ticket that shows a result shows what the job it
  // asked for came to, done if and only if that succeeded, and failed if it threw; the jobs of
  // tickets are begun in the order of the tickets, each once; the queue keeps all its promises, and
  // so does the wallet for as long as nothing of this instance has thrown.
  lemma ResultsAreOwn(locks: set<string>, moves: seq<Move>, m: World, shown: Outcome -> string)
    requires LegalMoves(Start(locks), moves, m, shown)
    ensures var w := AfterMoves(Start(locks), moves, m, shown);
      && D.Valid(w.desk) && X.Intact(w.sys) && (Unthrown(w.runs) ==> Inv(w.sys, m))
      && (forall n :: n in w.desk.tickets && D.Finished(w.desk.tickets[n].status) ==>
           Told(w.runs, n, w.desk.tickets[n], shown))
      && Begunners(w.runs) == w.desk.started && D.Ascending(w.desk.started)
  {
    hide LegalMoves, AfterMoves, Told, Inv, X.Intact, Unthrown;
    StartFits(locks, m, shown);
    MovesKeep(Start(locks), moves, m, shown);
    var w := AfterMoves(Start(locks), moves, m, shown);
    D.AscendingParts(w.desk.started, w.desk.queue);
  }
}
