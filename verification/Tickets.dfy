// The ticket queue (src/wallet_runtime.cpp, startJob to cancelJob, threadMain, the end of run).
// Every access holds m_qmu, so an interleaving of callers and worker is a sequence of these
// operations. Module TicketDesk gives the operations on values and what holds over every run of them.
module TicketDesk {
  import opened Bytes
  import Decimal

  datatype Status = Queued | Running | Done(result: string) | Failed(error: string)

  // What a caller asks for besides the kind; a text left out is empty.
  datatype Params = Params(name: string, network: string, amount: string, address: string, txHandle: string)

  datatype Ticket = Ticket(receipt: string, kind: string, params: Params, status: Status)

  // Tickets by issue number; their public name is Key. `running`, `started`, `acked` and
  // `cancelled` record what became of them.
  datatype Desk = Desk(
    queue: seq<nat>, tickets: map<nat, Ticket>, nextId: nat, stop: bool,
    running: Option<nat>, started: seq<nat>, acked: set<nat>, cancelled: set<nat>)

  const EMPTY: Desk := Desk([], map[], 1, false, None, [], {}, {})

  const KINDS: set<string> := {
    "open_wallet", "create_wallet", "restore_from_seed", "restore_from_keys", "close_wallet", "rescan",
    "create_transaction", "commit_transaction", "dispose_transaction", "change_password"}

  function Key(n: nat): string { "j" + Decimal.Text(n) }

  lemma KeyInjective(m: nat, n: nat)
    requires Key(m) == Key(n)
    ensures m == n
  {
    Decimal.KeysInjective("j", m, n);
  }

  predicate Finished(s: Status) { s.Done? || s.Failed? }

  // The ticket a caller's id names, if it is still held and the receipt is right.
  ghost function Named(d: Desk, id: string, receipt: string): (r: Option<nat>)
    ensures r.Some? ==> r.value in d.tickets && Key(r.value) == id && d.tickets[r.value].receipt == receipt
    ensures r.None? ==> forall n :: n in d.tickets && Key(n) == id ==> d.tickets[n].receipt != receipt
  {
    if exists n :: n in d.tickets && Key(n) == id && d.tickets[n].receipt == receipt
    then var n :| n in d.tickets && Key(n) == id && d.tickets[n].receipt == receipt; Some(n)
    else None
  }

  // ---- The operations ----

  datatype Op =
    | Start(kind: string, params: Params, receipt: string, dirSet: bool)
    | Ack(id: string, receipt: string)
    | Cancel(id: string, receipt: string)
    | Take
    | Settle(outcome: Status)
    | Stop

  // The first place of n in the queue, or its length.
  function PlaceOf(q: seq<nat>, n: nat): (k: nat)
    ensures k <= |q| && (k < |q| ==> q[k] == n) && forall i :: 0 <= i < k ==> q[i] != n
  {
    if q == [] || q[0] == n then 0 else 1 + PlaceOf(q[1..], n)
  }

  // The queue after its first entry for n is erased.
  function Without(q: seq<nat>, n: nat): seq<nat> {
    var k := PlaceOf(q, n);
    if k == |q| then q else q[..k] + q[k + 1..]
  }

  ghost function Started(d: Desk, kind: string, params: Params, receipt: string, dirSet: bool): Desk {
    if kind !in KINDS || !dirSet then d
    else d.(nextId := d.nextId + 1, queue := d.queue + [d.nextId],
            tickets := d.tickets[d.nextId := Ticket(receipt, kind, params, Queued)])
  }

  ghost function Acked(d: Desk, n: Option<nat>): Desk {
    if n.None? || n.value !in d.tickets || !Finished(d.tickets[n.value].status) then d
    else d.(tickets := d.tickets - {n.value}, acked := d.acked + {n.value})
  }

  ghost function Cancelled(d: Desk, n: Option<nat>): Desk {
    if n.None? || n.value !in d.tickets || !d.tickets[n.value].status.Queued? then d
    else d.(tickets := d.tickets - {n.value}, queue := Without(d.queue, n.value), cancelled := d.cancelled + {n.value})
  }

  ghost function Taken(d: Desk): Desk {
    if d.stop || d.running.Some? || d.queue == [] || d.queue[0] !in d.tickets then d
    else
      var n := d.queue[0];
      d.(queue := d.queue[1..], tickets := d.tickets[n := d.tickets[n].(status := Running)],
         running := Some(n), started := d.started + [n])
  }

  ghost function Settled(d: Desk, outcome: Status): Desk {
    if d.running.None? || d.running.value !in d.tickets || !Finished(outcome) then d
    else
      var n := d.running.value;
      d.(tickets := d.tickets[n := d.tickets[n].(status := outcome)], running := None)
  }

  ghost function Apply(d: Desk, op: Op): Desk {
    match op
    case Start(kind, params, receipt, dirSet) => Started(d, kind, params, receipt, dirSet)
    case Ack(id, receipt) => Acked(d, Named(d, id, receipt))
    case Cancel(id, receipt) => Cancelled(d, Named(d, id, receipt))
    case Take => Taken(d)
    case Settle(outcome) => Settled(d, outcome)
    case Stop => d.(stop := true)
  }

  ghost function Run(d: Desk, ops: seq<Op>): Desk
    decreases |ops|
  {
    if ops == [] then d else Run(Apply(d, ops[0]), ops[1..])
  }

  // ---- What every run keeps ----

  ghost predicate Ascending(s: seq<nat>) { forall i, j :: 0 <= i < j < |s| ==> s[i] < s[j] }

  // The queue is exactly the queued tickets, in issue order.
  ghost predicate QueueFits(d: Desk) {
    Ascending(d.queue) && forall n :: n in d.queue <==> n in d.tickets && d.tickets[n].status.Queued?
  }

  // At most one ticket runs.
  ghost predicate RunningFits(d: Desk) {
    && (forall n :: n in d.tickets ==> (d.tickets[n].status.Running? <==> d.running == Some(n)))
    && (d.running.Some? ==> d.running.value in d.tickets)
  }

  // Every ticket ever issued is held, acked or cancelled, and only one of the three.
  ghost predicate Partition(d: Desk) {
    && d.nextId > 0
    && (forall n :: n in d.tickets || n in d.acked || n in d.cancelled <==> 0 < n < d.nextId)
    && (forall n :: n in d.tickets ==> n !in d.acked && n !in d.cancelled)
    && (forall n :: n in d.acked ==> n !in d.cancelled)
  }

  // Jobs start in issue order, each once: of those issued, all but the cancelled and the waiting.
  ghost predicate StartedFits(d: Desk) {
    && Ascending(d.started + d.queue)
    && forall n :: n in d.started + d.queue <==> 0 < n < d.nextId && n !in d.cancelled
  }

  // Only jobs of a known kind are ever issued.
  ghost predicate KindsFit(d: Desk) { forall n :: n in d.tickets ==> d.tickets[n].kind in KINDS }

  ghost predicate Valid(d: Desk) { QueueFits(d) && RunningFits(d) && Partition(d) && StartedFits(d) && KindsFit(d) }

  // The ticket at the head of the queue.
  ghost function Oldest(d: Desk): (t: Ticket)
    requires Valid(d) && d.queue != []
    ensures t.kind in KINDS && t.status.Queued?
  {
    assert d.queue[0] in d.queue;
    d.tickets[d.queue[0]]
  }

  lemma EmptyIsValid()
    ensures Valid(EMPTY)
  {
  }

  lemma StartKeeps(d: Desk, kind: string, params: Params, receipt: string, dirSet: bool)
    requires Valid(d)
    ensures Valid(Started(d, kind, params, receipt, dirSet))
  {
    hide KINDS;
    var e := Started(d, kind, params, receipt, dirSet);
    if e != d {
      StartWaits(d, kind, params, receipt);
      StartQueues(d, kind, params, receipt);
      hide QueueFits, StartedFits;
      assert RunningFits(e);
      assert Partition(e);
    }
  }

  lemma StartWaits(d: Desk, kind: string, params: Params, receipt: string)
    requires Valid(d) && kind in KINDS
    ensures QueueFits(Started(d, kind, params, receipt, true))
  {
    hide KINDS, StartedFits, RunningFits, KindsFit;
    AscendingParts(d.queue, [d.nextId]);
    assert forall n :: n in d.queue ==> n < d.nextId;
  }

  // The new ticket is last of all.
  lemma StartQueues(d: Desk, kind: string, params: Params, receipt: string)
    requires Valid(d) && kind in KINDS
    ensures StartedFits(Started(d, kind, params, receipt, true))
  {
    hide KINDS, QueueFits, RunningFits, KindsFit;
    var e, n := Started(d, kind, params, receipt, true), d.nextId;
    assert e.started + e.queue == d.started + d.queue + [n];
    AscendingParts(d.started + d.queue, [n]);
    assert forall x :: x in d.started + d.queue ==> x < n;
  }

  lemma AckKeeps(d: Desk, n: Option<nat>)
    requires Valid(d)
    ensures Valid(Acked(d, n))
  {
    var e := Acked(d, n);
    if e != d {
      assert e.tickets.Keys == d.tickets.Keys - {n.value};
      assert QueueFits(e);
      assert RunningFits(e);
      assert Partition(e);
      assert StartedFits(e);
    }
  }

  lemma WithoutIs(q: seq<nat>, n: nat)
    requires Ascending(q) && n in q
    ensures Ascending(Without(q, n))
    ensures forall x :: x in Without(q, n) <==> x in q && x != n
  {
    var k := PlaceOf(q, n);
    assert k < |q|;
    var w := Without(q, n);
    forall x ensures x in w <==> x in q && x != n {
      if x in q && x != n {
        var i :| 0 <= i < |q| && q[i] == x;
        assert if i < k then w[i] == x else w[i - 1] == x;
      }
    }
  }

  lemma CancelKeeps(d: Desk, n: Option<nat>)
    requires Valid(d)
    ensures Valid(Cancelled(d, n))
  {
    hide Without;
    if Cancelled(d, n) != d {
      WithoutIs(d.queue, n.value);
      CancelStarts(d, n.value);
      assert QueueFits(Cancelled(d, n));
      assert RunningFits(Cancelled(d, n));
      assert Partition(Cancelled(d, n));
    }
  }

  // The jobs begun are those that were.
  lemma CancelStarts(d: Desk, n: nat)
    requires Valid(d) && n in d.queue
    ensures StartedFits(Cancelled(d, Some(n)))
  {
    var e := Cancelled(d, Some(n));
    WithoutIs(d.queue, n);
    hide Without, QueueFits, RunningFits, Partition, KindsFit;
    AscendingParts(d.started, d.queue);
    AscendingParts(e.started, e.queue);
    assert n !in d.started;
  }

  lemma AscendingParts(a: seq<nat>, b: seq<nat>)
    ensures Ascending(a + b) <==>
      Ascending(a) && Ascending(b) && forall x, y :: x in a && y in b ==> x < y
    ensures forall x :: x in a + b <==> x in a || x in b
  {
    var s := a + b;
    if Ascending(s) {
      forall i, j | 0 <= i < j < |a| ensures a[i] < a[j] { assert s[i] == a[i] && s[j] == a[j]; }
      forall i, j | 0 <= i < j < |b| ensures b[i] < b[j] { assert s[|a| + i] == b[i] && s[|a| + j] == b[j]; }
      forall x, y | x in a && y in b ensures x < y {
        var i :| 0 <= i < |a| && a[i] == x;
        var j :| 0 <= j < |b| && b[j] == y;
        assert s[i] == x && s[|a| + j] == y;
      }
    } else {
      var i, j :| 0 <= i < j < |s| && s[i] >= s[j];
      if i < |a| <= j { assert s[i] in a && s[j] in b; }
    }
  }

  lemma TakeKeeps(d: Desk)
    requires Valid(d)
    ensures Valid(Taken(d))
  {
    var e := Taken(d);
    if e != d {
      assert e.started + e.queue == d.started + d.queue;
      assert d.queue == [d.queue[0]] + e.queue;
      assert e.tickets.Keys == d.tickets.Keys;
      assert QueueFits(e);
      assert RunningFits(e);
      assert Partition(e);
      assert StartedFits(e);
    }
  }

  lemma SettleKeeps(d: Desk, outcome: Status)
    requires Valid(d)
    ensures Valid(Settled(d, outcome))
  {
    var e := Settled(d, outcome);
    if e != d {
      assert e.tickets.Keys == d.tickets.Keys;
      assert QueueFits(e);
      assert RunningFits(e);
      assert Partition(e);
      assert StartedFits(e);
    }
  }

  // Every interleaving keeps it all.
  lemma {:induction false} RunKeeps(d: Desk, ops: seq<Op>)
    requires Valid(d)
    ensures Valid(Run(d, ops))
    decreases |ops|
  {
    hide Valid;
    if ops != [] {
      StepKeeps(d, ops[0]);
      RunKeeps(Apply(d, ops[0]), ops[1..]);
    }
  }

  lemma StepKeeps(d: Desk, op: Op)
    requires Valid(d)
    ensures Valid(Apply(d, op))
  {
    hide Started, Acked, Cancelled, Taken, Settled;
    match op
    case Start(kind, params, receipt, dirSet) => StartKeeps(d, kind, params, receipt, dirSet);
    case Ack(id, receipt) => AckKeeps(d, Named(d, id, receipt));
    case Cancel(id, receipt) => CancelKeeps(d, Named(d, id, receipt));
    case Take => TakeKeeps(d);
    case Settle(outcome) => SettleKeeps(d, outcome);
    case Stop =>
  }

  // The same, spelled out for every run from the start: what waits is the queued tickets in issue
  // order, one ticket at most runs, and the jobs begun are those issued, in issue order and each
  // once, but for the cancelled and the waiting.
  lemma EveryRun(ops: seq<Op>)
    ensures var d := Run(EMPTY, ops);
      && Ascending(d.queue) && (forall n :: n in d.queue <==> n in d.tickets && d.tickets[n].status.Queued?)
      && (forall n :: n in d.tickets && d.tickets[n].status.Running? <==> d.running == Some(n))
      && Ascending(d.started) && (forall n :: n in d.started <==> 0 < n < d.nextId && n !in d.cancelled && n !in d.queue)
      && (forall n :: n in d.tickets || n in d.acked || n in d.cancelled <==> 0 < n < d.nextId)
      && d.tickets.Keys !! d.acked && d.tickets.Keys !! d.cancelled && d.acked !! d.cancelled
  {
    hide Apply;
    EmptyIsValid();
    RunKeeps(EMPTY, ops);
    var d := Run(EMPTY, ops);
    AscendingParts(d.started, d.queue);
    assert forall n :: n in d.started && n in d.queue ==> n < n;
  }

  // ---- What a caller sees ----

  // jobStatus and jobResult answer from this.
  ghost function Seen(d: Desk, id: string, receipt: string): Option<Status> {
    var n := Named(d, id, receipt);
    if n.None? then None else Some(d.tickets[n.value].status)
  }

  lemma NamedIs(d: Desk, n: nat)
    requires n in d.tickets
    ensures Named(d, Key(n), d.tickets[n].receipt) == Some(n)
  {
    var m := Named(d, Key(n), d.tickets[n].receipt);
    assert m.Some?;
    KeyInjective(m.value, n);
  }

  // The ticket just issued answers to its name and the receipt it came with, and to no other receipt;
  // it waits with the kind and parameters asked for, and no other ticket changed.
  lemma JustIssued(d: Desk, kind: string, params: Params, receipt: string)
    requires Valid(d) && kind in KINDS
    ensures var e := Started(d, kind, params, receipt, true);
      && Named(e, Key(d.nextId), receipt) == Some(d.nextId) && Seen(e, Key(d.nextId), receipt) == Some(Queued)
      && e.tickets[d.nextId] == Ticket(receipt, kind, params, Queued)
      && (forall other: string :: other != receipt ==> Named(e, Key(d.nextId), other) == None)
      && e.queue == d.queue + [d.nextId]
      && d.nextId !in d.tickets && e.tickets.Keys == d.tickets.Keys + {d.nextId}
      && forall n :: n in d.tickets ==> e.tickets[n] == d.tickets[n]
  {
    hide KINDS, QueueFits, RunningFits, StartedFits, KindsFit, Key;
    var e := Started(d, kind, params, receipt, true);
    NamedIs(e, d.nextId);
    forall other: string | other != receipt ensures Named(e, Key(d.nextId), other) == None {
      var m := Named(e, Key(d.nextId), other);
      if m.Some? { KeyInjective(m.value, d.nextId); }
    }
  }

  // An ack or a cancel forgets the ticket named, or nothing: what any other name shows is as it was.
  lemma OnlyThatOne(d: Desk, op: Op)
    requires op.Ack? || op.Cancel?
    ensures var e := Apply(d, op);
      && (e == d || Seen(e, op.id, op.receipt) == None)
      && forall id2: string, receipt2: string :: id2 != op.id ==> Seen(e, id2, receipt2) == Seen(d, id2, receipt2)
  {
    hide Key, Without;
    var e, n := Apply(d, op), Named(d, op.id, op.receipt);
    if e != d {
      assert e.tickets == d.tickets - {n.value} && Key(n.value) == op.id;
      if Named(e, op.id, op.receipt).Some? {
        KeyInjective(Named(e, op.id, op.receipt).value, n.value);
      }
      forall id2: string, receipt2: string | id2 != op.id ensures Seen(e, id2, receipt2) == Seen(d, id2, receipt2) {
        SeenAlike(d, e, n.value, id2, receipt2);
      }
    }
  }

  lemma SeenAlike(d: Desk, e: Desk, gone: nat, id: string, receipt: string)
    requires e.tickets == d.tickets - {gone} && Key(gone) != id
    ensures Seen(e, id, receipt) == Seen(d, id, receipt)
  {
    hide Key;
    var m, n := Named(d, id, receipt), Named(e, id, receipt);
    if m.Some? { assert m.value in e.tickets && e.tickets[m.value] == d.tickets[m.value]; }
    if n.Some? { assert n.value in d.tickets && e.tickets[n.value] == d.tickets[n.value]; }
    if m.Some? && n.Some? { KeyInjective(m.value, n.value); }
  }

  // A ticket once issued stays what it was asked to be, and only moves on: from queued to running
  // or cancelled, from running to finished, from finished to acked, where the result stays.
  ghost predicate Follows(d: Desk, e: Desk, n: nat) {
    && (n in e.tickets ==> n in d.tickets && e.tickets[n].(status := d.tickets[n].status) == d.tickets[n])
    && (n in d.tickets && d.tickets[n].status.Running? ==>
      if n in e.tickets then !e.tickets[n].status.Queued? else n in e.acked)
    && (n in d.tickets && Finished(d.tickets[n].status) ==>
      if n in e.tickets then e.tickets[n] == d.tickets[n] else n in e.acked)
    && (n in d.acked ==> n in e.acked)
    && (n in d.cancelled ==> n in e.cancelled)
    && (n in d.started ==> n in e.started)
  }

  lemma StepFollows(d: Desk, op: Op, n: nat)
    requires Valid(d) && n < d.nextId
    ensures Follows(d, Apply(d, op), n) && n < Apply(d, op).nextId
  {
  }

  lemma {:induction false} RunFollows(d: Desk, ops: seq<Op>, n: nat)
    requires Valid(d) && n < d.nextId
    ensures Follows(d, Run(d, ops), n) && n < Run(d, ops).nextId
    decreases |ops|
  {
    hide Valid, Apply;
    if ops != [] {
      StepKeeps(d, ops[0]);
      StepFollows(d, ops[0], n);
      RunFollows(Apply(d, ops[0]), ops[1..], n);
    }
  }

  // A finished result reads the same until it is acked.
  lemma ResultStable(d: Desk, ops: seq<Op>, id: string, receipt: string)
    requires Valid(d) && Seen(d, id, receipt).Some? && Finished(Seen(d, id, receipt).value)
    ensures var e, n := Run(d, ops), Named(d, id, receipt).value;
      if n in e.acked then Seen(e, id, receipt) == None else Seen(e, id, receipt) == Seen(d, id, receipt)
  {
    hide Valid, Run, Partition;
    var n := Named(d, id, receipt).value;
    var e := Run(d, ops);
    InRange(d, n);
    RunFollows(d, ops, n);
    RunKeeps(d, ops);
    if n in e.tickets {
      NamedIs(e, n);
      InRange(e, n);
    } else {
      NobodyNamed(e, n, receipt);
    }
  }

  lemma InRange(d: Desk, n: nat)
    requires Valid(d) && n in d.tickets
    ensures n < d.nextId && n !in d.acked
  {
  }

  lemma NobodyNamed(d: Desk, n: nat, receipt: string)
    requires n !in d.tickets
    ensures Named(d, Key(n), receipt) == None
  {
    var m := Named(d, Key(n), receipt);
    if m.Some? { KeyInjective(m.value, n); }
  }

  // An id whose ticket was acked or cancelled is unknown, whatever receipt comes with it, for
  // ever: its number is never issued again, and no other number has its name.
  lemma UnknownEverAfter(d: Desk, ops: seq<Op>, n: nat, receipt: string)
    requires Valid(d) && (n in d.acked || n in d.cancelled)
    ensures Seen(Run(d, ops), Key(n), receipt) == None
  {
    RunFollows(d, ops, n);
    NobodyNamed(Run(d, ops), n, receipt);
  }
}

module Tickets {
  import opened Bytes
  import opened TicketDesk
  import Decimal

  // A ticket's record, shared by the queue, the map and the worker.
  class Job {
    const id: string
    const receipt: string
    const kind: string
    const params: Params
    ghost const serial: nat
    var status: Status
    var acked: bool

    constructor (id: string, receipt: string, kind: string, params: Params, ghost serial: nat)
      ensures this.id == id && this.receipt == receipt && this.kind == kind && this.params == params && this.serial == serial
      ensures status == Queued && !acked
    {
      this.id, this.receipt, this.kind, this.params, this.serial := id, receipt, kind, params, serial;
      status, acked := Queued, false;
    }
  }

  datatype Answer<T> = Yes(value: T) | No(error: string)

  class TicketQueue {
    var queue: seq<Job>
    var jobs: map<string, Job>
    var nextId: nat
    var stop: bool
    ghost var desk: Desk  // the whole history, on values

    ghost predicate Valid()
      reads this, jobs.Values
    {
      && TicketDesk.Valid(desk)
      && nextId == desk.nextId && stop == desk.stop
      && Fits(queue, jobs, desk)
    }

    // The map holds the desk's tickets under their names, and the queue holds the same records.
    static ghost predicate Fits(queue: seq<Job>, jobs: map<string, Job>, d: Desk)
      reads jobs.Values
    {
      && (forall id :: id in jobs ==>
        var j := jobs[id];
        && id == j.id == Key(j.serial) && !j.acked
        && j.serial in d.tickets && d.tickets[j.serial] == Ticket(j.receipt, j.kind, j.params, j.status))
      && (forall n :: n in d.tickets ==> Key(n) in jobs)
      && |queue| == |d.queue|
      && (forall i :: 0 <= i < |queue| ==> queue[i].serial == d.queue[i] && queue[i].id in jobs && jobs[queue[i].id] == queue[i])
    }

    constructor ()
      ensures Valid() && desk == EMPTY && jobs == map[]
    {
      queue, jobs, nextId, stop, desk := [], map[], 1, false, EMPTY;
      new;
      EmptyIsValid();
    }

    // What a lookup by id and receipt finds.
    lemma Lookup(id: string, receipt: string)
      requires Valid()
      ensures (id in jobs && jobs[id].receipt == receipt) <==> Named(desk, id, receipt).Some?
      ensures id in jobs && jobs[id].receipt == receipt ==> Named(desk, id, receipt) == Some(jobs[id].serial)
    {
      var n := Named(desk, id, receipt);
      if id in jobs && jobs[id].receipt == receipt { NamedIs(desk, jobs[id].serial); }
      if n.Some? { KeyInjective(n.value, jobs[id].serial); }
    }

    method StartJob(kind: string, params: Params, receipt: string, dirSet: bool) returns (r: Answer<string>)
      requires Valid()
      modifies this
      ensures Valid() && desk == Apply(old(desk), Start(kind, params, receipt, dirSet))
      ensures r.Yes? <==> kind in KINDS && dirSet
      ensures r.Yes? <==> dirSet && kind in {
        "open_wallet", "create_wallet", "restore_from_seed", "restore_from_keys", "close_wallet", "rescan",
        "create_transaction", "commit_transaction", "dispose_transaction", "change_password"}
      ensures r.Yes? ==> r.value == Key(old(desk).nextId) == "j" + Decimal.Text(old(nextId))
      ensures r.Yes? ==>
        && Seen(desk, r.value, receipt) == Some(Queued) && r.value in jobs && r.value !in old(jobs)
        && jobs[r.value].receipt == receipt && jobs[r.value].kind == kind && jobs[r.value].params == params
        && queue == old(queue) + [jobs[r.value]]
      ensures fresh(jobs.Values - old(jobs.Values))
    {
      hide KINDS, Key, TicketDesk.Valid, Acked, Cancelled, Taken, Settled, Seen, Named, Fits;
      TenKinds(kind);
      KeyIs(nextId);
      if kind !in KINDS { return No("unknown job kind: " + kind); }
      if !dirSet { return No("module context not ready (no wallets directory)"); }
      JustIssued(desk, kind, params, receipt);
      var id := Enqueue(kind, params, receipt);
      r := Yes(id);
    }

    method Enqueue(kind: string, params: Params, receipt: string) returns (id: string)
      requires Valid() && kind in KINDS
      modifies this
      ensures Valid() && desk == Started(old(desk), kind, params, receipt, true)
      ensures id == Key(old(nextId)) && id in jobs && id !in old(jobs) && queue == old(queue) + [jobs[id]]
      ensures jobs[id].receipt == receipt && jobs[id].kind == kind && jobs[id].params == params
      ensures fresh(jobs.Values - old(jobs.Values))
    {
      hide KINDS, Key, TicketDesk.Valid;
      StepKeeps(desk, Start(kind, params, receipt, true));
      NewName(desk);
      var job := new Job(Key(nextId), receipt, kind, params, nextId);
      ghost var e := Started(desk, kind, params, receipt, true);
      AddFits(queue, jobs, desk, job, e);
      nextId := nextId + 1;
      jobs := jobs[job.id := job];
      queue := queue + [job];
      desk := e;
      id := job.id;
    }

    lemma TenKinds(kind: string)
      ensures kind in KINDS <==> kind in {
        "open_wallet", "create_wallet", "restore_from_seed", "restore_from_keys", "close_wallet", "rescan",
        "create_transaction", "commit_transaction", "dispose_transaction", "change_password"}
    {}

    lemma KeyIs(n: nat)
      ensures Key(n) == "j" + Decimal.Text(n)
    {}

    lemma AddFits(queue: seq<Job>, jobs: map<string, Job>, d: Desk, job: Job, e: Desk)
      requires Fits(queue, jobs, d) && TicketDesk.Valid(d)
      requires job.serial == d.nextId && job.id == Key(d.nextId) && !job.acked
      requires e.queue == d.queue + [d.nextId]
      requires e.tickets == d.tickets[d.nextId := Ticket(job.receipt, job.kind, job.params, job.status)]
      ensures Fits(queue + [job], jobs[job.id := job], e)
    {
      hide Key, TicketDesk.Valid;
      NewName(d);
    }

    method JobStatus(id: string, receipt: string) returns (r: Answer<Status>)
      requires Valid()
      ensures match Seen(desk, id, receipt) case Some(s) => r == Yes(s) case None => r == No("unknown job")
    {
      Lookup(id, receipt);
      if id !in jobs || jobs[id].receipt != receipt { return No("unknown job"); }
      r := Yes(jobs[id].status);
    }

    // A result is given once done, again on every asking, until it is acked.
    method JobResult(id: string, receipt: string) returns (r: Answer<string>)
      requires Valid()
      ensures match Seen(desk, id, receipt)
        case Some(Done(result)) => r == Yes(result)
        case Some(Failed(error)) => r == No(error)
        case Some(_) => r == No("job not finished")
        case None => r == No("unknown job")
    {
      Lookup(id, receipt);
      if id !in jobs || jobs[id].receipt != receipt { return No("unknown job"); }
      var j := jobs[id];
      if j.acked { return No("job already acked"); }
      if j.status.Failed? { return No(j.status.error); }
      if !j.status.Done? { return No("job not finished"); }
      r := Yes(j.status.result);
    }

    method AckJob(id: string, receipt: string) returns (ok: bool)
      requires Valid()
      modifies this
      ensures Valid() && desk == Apply(old(desk), Ack(id, receipt))
      ensures ok <==> Seen(old(desk), id, receipt).Some? && Finished(Seen(old(desk), id, receipt).value)
      ensures ok ==> Seen(desk, id, receipt) == None && queue == old(queue)
      ensures forall id2: string, receipt2: string ::
        id2 != id || !ok ==> Seen(desk, id2, receipt2) == Seen(old(desk), id2, receipt2)
    {
      hide Key, TicketDesk.Valid, Named, TicketQueue.Fits;
      StepKeeps(desk, Ack(id, receipt));
      OnlyThatOne(desk, Ack(id, receipt));
      Lookup(id, receipt);
      if id !in jobs || jobs[id].receipt != receipt { return false; }
      Behind(id);
      if !jobs[id].status.Done? && !jobs[id].status.Failed? { return false; }
      ghost var e := Apply(desk, Ack(id, receipt));
      AckFits(queue, jobs, desk, id, e);
      desk := e;
      jobs := jobs - {id};
      ok := true;
    }

    lemma AckFits(queue: seq<Job>, jobs: map<string, Job>, d: Desk, id: string, e: Desk)
      requires Fits(queue, jobs, d) && id in jobs && TicketDesk.Valid(e)
      requires e.tickets == d.tickets - {jobs[id].serial} && e.queue == d.queue
      ensures Fits(queue, jobs - {id}, e)
    {
      hide Key, TicketDesk.Valid;
      WaitingIsQueued(e);
      RemoveFits(queue, jobs, d, id, queue, e);
    }

    lemma NameGone(was: Desk, id: string, n: nat)
      requires id == Key(n)
      ensures forall m :: m in was.tickets && m != n ==> Key(m) != id
    {
      forall m | m in was.tickets && m != n ensures Key(m) != id {
        if Key(m) == id { KeyInjective(m, n); }
      }
    }

    lemma NewName(d: Desk)
      requires TicketDesk.Valid(d)
      ensures d.nextId !in d.tickets && forall m :: m in d.tickets ==> Key(m) != Key(d.nextId)
    {
      NameGone(d, Key(d.nextId), d.nextId);
    }

    lemma WaitingIsQueued(d: Desk)
      requires TicketDesk.Valid(d)
      ensures forall i :: 0 <= i < |d.queue| ==> d.queue[i] in d.tickets && d.tickets[d.queue[i]].status.Queued?
    {
      assert forall i :: 0 <= i < |d.queue| ==> d.queue[i] in d.queue;
    }

    // The ticket behind a record.
    lemma Behind(id: string)
      requires Valid() && id in jobs
      ensures var j := jobs[id];
        id == Key(j.serial) && j.serial in desk.tickets && desk.tickets[j.serial].status == j.status && Fits(queue, jobs, desk)
    {
    }

    method CancelJob(id: string, receipt: string) returns (ok: bool)
      requires Valid()
      modifies this
      ensures Valid() && desk == Apply(old(desk), Cancel(id, receipt))
      ensures ok <==> Seen(old(desk), id, receipt) == Some(Queued)
      ensures ok ==> Seen(desk, id, receipt) == None
      ensures forall id2: string, receipt2: string ::
        id2 != id || !ok ==> Seen(desk, id2, receipt2) == Seen(old(desk), id2, receipt2)
    {
      hide Key, TicketDesk.Valid, Named, Without, TicketQueue.Fits;
      StepKeeps(desk, Cancel(id, receipt));
      OnlyThatOne(desk, Cancel(id, receipt));
      Lookup(id, receipt);
      if id !in jobs || jobs[id].receipt != receipt { return false; }
      Behind(id);
      if !jobs[id].status.Queued? { return false; }
      ghost var before := queue;
      var q := EraseFromQueue(id);
      ghost var e := Apply(desk, Cancel(id, receipt));
      CancelFits(before, jobs, desk, id, q, queue, e);
      desk := e;
      jobs := jobs - {id};
      ok := true;
    }

    // The entry erased by name is the one the desk erases by number.
    lemma CancelFits(queue: seq<Job>, jobs: map<string, Job>, d: Desk, id: string, q: nat, left: seq<Job>, e: Desk)
      requires Fits(queue, jobs, d) && id in jobs && d.tickets[jobs[id].serial].status.Queued?
      requires TicketDesk.Valid(e) && e == Cancelled(d, Some(jobs[id].serial))
      requires q <= |queue| && (forall i :: 0 <= i < q ==> queue[i].id != id) && (q < |queue| ==> queue[q].id == id)
      requires left == if q == |queue| then queue else queue[..q] + queue[q + 1..]
      ensures Fits(left, jobs - {id}, e)
    {
      hide Key, TicketDesk.Valid, Without;
      var n := jobs[id].serial;
      SameNames(d, queue, id, n, q);
      ErasedFirst(d.queue, n, q);
      WaitingIsQueued(e);
      forall i | 0 <= i < |left| ensures left[i] in queue && left[i].serial == e.queue[i] {
        var k := if i < q then i else i + 1;
        assert left[i] == queue[k] && e.queue[i] == d.queue[k];
      }
      hide Fits;
      RemoveFits(queue, jobs, d, id, left, e);
    }

    // Dropping one ticket, and at most its own queue entry, keeps map and queue in step.
    lemma RemoveFits(queue: seq<Job>, jobs: map<string, Job>, d: Desk, id: string, left: seq<Job>, e: Desk)
      requires Fits(queue, jobs, d) && id in jobs
      requires e.tickets == d.tickets - {jobs[id].serial} && |left| == |e.queue|
      requires forall i :: 0 <= i < |left| ==>
        left[i] in queue && left[i].serial == e.queue[i] && e.queue[i] in e.tickets
      ensures Fits(left, jobs - {id}, e)
    {
      hide Key;
      NameGone(d, id, jobs[id].serial);
    }

    // Erases the first entry with this id, and says where it stood.
    method EraseFromQueue(id: string) returns (q: nat)
      modifies this`queue
      ensures q <= |old(queue)| && forall i :: 0 <= i < q ==> old(queue)[i].id != id
      ensures q < |old(queue)| ==> old(queue)[q].id == id
      ensures queue == if q == |old(queue)| then old(queue) else old(queue)[..q] + old(queue)[q + 1..]
    {
      q := 0;
      while q < |queue|
        invariant q <= |queue| && queue == old(queue)
        invariant forall i :: 0 <= i < q ==> queue[i].id != id
      {
        if queue[q].id == id {
          queue := queue[..q] + queue[q + 1..];
          return;
        }
        q := q + 1;
      }
    }

    lemma SameNames(was: Desk, entries: seq<Job>, id: string, n: nat, q: nat)
      requires |entries| == |was.queue| && id == Key(n) && q <= |entries|
      requires forall i :: 0 <= i < |entries| ==> entries[i].serial == was.queue[i] && entries[i].id == Key(entries[i].serial)
      requires (forall i :: 0 <= i < q ==> entries[i].id != id) && (q < |entries| ==> entries[q].id == id)
      ensures (forall i :: 0 <= i < q ==> was.queue[i] != n) && (q < |entries| ==> was.queue[q] == n)
    {
      if q < |entries| { NamesApart(was.queue[q], n); }
      forall i | 0 <= i < q ensures was.queue[i] != n { NamesApart(was.queue[i], n); }
    }

    lemma NamesApart(m: nat, n: nat)
      ensures Key(m) == Key(n) <==> m == n
    {
      if Key(m) == Key(n) { KeyInjective(m, n); }
    }

    // Stopping at place q erases what the desk erases.
    lemma ErasedFirst(s: seq<nat>, n: nat, q: nat)
      requires q <= |s| && (forall i :: 0 <= i < q ==> s[i] != n) && (q < |s| ==> s[q] == n)
      ensures Without(s, n) == if q == |s| then s else s[..q] + s[q + 1..]
    {
    }

    // threadMain's locked section: the oldest queued ticket, now running, or none.
    method TakeJob() returns (job: Option<Job>)
      requires Valid() && desk.running.None?
      modifies this, jobs.Values
      ensures Valid() && desk == Apply(old(desk), Take)
      ensures job.Some? <==> !old(stop) && old(queue) != []
      ensures job.Some? ==> desk.running == Some(job.value.serial) && job.value.id in jobs && jobs[job.value.id] == job.value
      ensures job.Some? ==>
        && old(desk).queue != [] && !old(desk).stop && queue == old(queue)[1..]
        && job.value.kind == Oldest(old(desk)).kind && job.value.params == Oldest(old(desk)).params
      ensures job.None? ==> desk == old(desk) && queue == old(queue) && (desk.stop || desk.queue == [])
      ensures jobs == old(jobs) && stop == old(stop)
    {
      hide Key, TicketDesk.Valid, Started, Acked, Cancelled, Settled, KINDS;
      StepKeeps(desk, Take);
      if stop || queue == [] { return None; }
      WaitingIsQueued(desk);
      ghost var head := Oldest(desk);
      var j := queue[0];
      ghost var e := Apply(desk, Take);
      assert desk.queue[0] == j.serial;
      queue := queue[1..];
      j.status := Running;
      desk := e;
      job := Some(j);
    }

    // The locked section at the end of run.
    method SettleJob(job: Job, outcome: Status)
      requires Valid() && Finished(outcome)
      requires desk.running == Some(job.serial) && job.id in jobs && jobs[job.id] == job
      modifies this, job
      ensures Valid() && desk == Apply(old(desk), Settle(outcome))
      ensures job.status == outcome && desk.running.None? && jobs == old(jobs) && queue == old(queue)
    {
      hide Key, TicketDesk.Valid, Started, Acked, Cancelled, Taken, KINDS;
      StepKeeps(desk, Settle(outcome));
      job.status := outcome;
      desk := Apply(desk, Settle(outcome));
    }

    method Stop()
      requires Valid()
      modifies this
      ensures Valid() && desk == Apply(old(desk), TicketDesk.Stop) && jobs == old(jobs)
    {
      StepKeeps(desk, TicketDesk.Stop);
      stop := true;
      desk := Apply(desk, TicketDesk.Stop);
    }
  }
}
