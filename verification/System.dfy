// The whole runtime as a step system: the worker's sections, the probe thread, wallet2's own
// requests, the callers' locks, shutdown, and a crash or restart of the instance, in any order.
module System {
  import opened Bytes
  import opened Worker

  datatype Probe =
    | Asleep
    | Holding(handle: nat)                                        // the handle lock, shared
    | Knows(handle: nat, peer: string, early: bool)               // m_dialPeer read
    | Measured(handle: nat, peer: string, early: bool, sockets: bool, height: nat)  // about to write

  // `readers` and `writer` are callers inside the handle lock; `down` is after shutdown. The rest is
  // history: the peer the last reading was of, and whether the probe read that peer `early`, while a
  // move had let go of the lock and not yet written its own.
  datatype System = System(
    c: Core, pc: Pc, probe: Probe, readers: nat, writer: bool, down: bool, measured: string, early: bool)

  // The runtime with nobody in it.
  function AtRest(c: Core): System { System(c, Idle(Okay), Asleep, 0, false, false, "", false) }

  function Boot(locks: set<string>): System { AtRest(Fresh(locks)) }

  predicate AtSettle(pc: Pc) { pc.AtMove? && pc.move.Settle? }

  datatype Act =
    | Begin(job: Job) | Work(a: Answers) | Issue(handle: nat)
    | ProbeWake | ProbePeer | ProbeMeasure(sockets: bool, synced: bool, height: nat) | ProbeWrite
    | ReaderIn | ReaderOut | WriterIn | WriterOut
    | SetDir | Shutdown | Restart

  // ---- The handle lock ----

  // Sections of the worker that take the lock uniquely, or shared, and those that still hold it.
  predicate TakesUnique(pc: Pc) {
    || (pc.AtOpen? && (pc.open.Guard? || pc.open.Install?))
    || (pc.AtClose? && pc.close.Detach?)
    || (pc.AtRescan? && !pc.called)
    || pc.AtSend?
    || (pc.AtMove? && pc.move.Redial?)
  }

  predicate TakesShared(pc: Pc) { pc.TickRead? || (pc.AtMove? && pc.move.Quiet?) }

  predicate HoldsUnique(pc: Pc) { pc.AtMove? && (pc.move.Distrust? || pc.move.Resume?) }

  predicate HoldsShared(pc: Pc) { pc.AtMove? && pc.move.Drain? }

  predicate NobodyElse(s: System) { s.probe.Asleep? && s.readers == 0 && !s.writer }

  // ---- Steps ----

  predicate Enabled(s: System, act: Act) {
    match act
    case Begin(job) => !s.down && s.pc.Idle? && (job.Tick? || s.c.dirSet)
    case Work(_) =>
      && !s.down && !s.pc.Idle? && Fits(s.c, s.pc)
      && (TakesUnique(s.pc) ==> NobodyElse(s))
      && (TakesShared(s.pc) ==> !s.writer)
    case Issue(h) => h < |s.c.wallets| && CanIssue(s.c.wallets[h])
    case ProbeWake => !s.down && s.probe.Asleep? && !s.writer && !HoldsUnique(s.pc)
    case ProbePeer => s.probe.Holding?
    case ProbeMeasure(_, _, _) => s.probe.Knows?
    case ProbeWrite => s.probe.Measured?
    case ReaderIn => !s.writer && !HoldsUnique(s.pc)
    case ReaderOut => s.readers > 0
    case WriterIn => NobodyElse(s) && !HoldsUnique(s.pc) && !HoldsShared(s.pc)
    case WriterOut => s.writer
    case SetDir => true
    case Shutdown => !s.down && s.pc.Idle? && NobodyElse(s)
    case Restart => true
  }

  function Closed(c: Core): Core
    requires c.wallet.Some? ==> c.wallet.value < |c.wallets|
  {
    if c.wallet.None? then c
    else
      var w := c.wallets[c.wallet.value];
      SetWallet(c, c.wallet.value, w.(closes := w.closes + 1)).(wallet := None)
  }

  ghost function Do(s: System, act: Act): System
    requires Enabled(s, act) && Fits(s.c, s.pc)
  {
    match act
    case Begin(job) => s.(c := Reset(s.c), pc := Entry(job))
    case Work(a) => var t := WorkerStep(s.c, s.pc, a); s.(c := t.c, pc := t.pc)
    case Issue(h) => s.(c := Log(s.c, h, Refresh))
    case ProbeWake => if s.c.wallet.None? then s else s.(probe := Holding(s.c.wallet.value))
    case ProbePeer => s.(probe := Knows(s.probe.handle, s.c.dialPeer, AtSettle(s.pc)))
    case ProbeMeasure(sockets, synced, height) =>
      var connected := s.probe.peer != "" && sockets;
      s.(probe := Measured(s.probe.handle, s.probe.peer, s.probe.early, connected, if connected && synced then height else 0))
    case ProbeWrite =>
      var c := s.c.(probed := true, connected := s.probe.sockets);
      s.(c := if s.probe.height != 0 then c.(daemonHeight := s.probe.height, heightFrom := s.probe.handle) else c,
        probe := Asleep, measured := s.probe.peer, early := s.probe.early)
    case ReaderIn => s.(readers := s.readers + 1)
    case ReaderOut => s.(readers := s.readers - 1)
    case WriterIn => s.(writer := true)
    case WriterOut => s.(writer := false)
    case SetDir => s.(c := s.c.(dirSet := true))
    case Shutdown => s.(c := Closed(s.c), down := true)
    case Restart => Boot(s.c.locks)
  }
}
