// A proxy text without a host part, carried through a whole run: the one way a session begun with a
// catch-up node or a proxy sends in the clear, and exactly when it can.
module Hostless {
  import opened Bytes
  import opened Text
  import opened Worker
  import opened System
  import opened Invariant
  import opened Sections
  import opened Runs
  import opened Laws
  import opened Endings
  import Decimal
  import Address
  import Base58
  import Varint

  const HOSTS: World := World(true, false, 0, 0)

  // Every resolver answer along a run is this node.
  ghost predicate AnswersWith(acts: seq<Act>, n: Node) {
    forall i :: 0 <= i < |acts| && acts[i].Work? ==> acts[i].a.node == n
  }

  // Every session sends as the node it was opened with says.
  ghost predicate SendsInOrder(s: System) {
    forall h :: 0 <= h < |s.c.wallets| ==> KeepsRoute(s.c.wallets[h])
  }

  ghost predicate AlwaysInOrder(n: Node) {
    forall locks: set<string>, acts: seq<Act> ::
      Legal(Boot(locks), acts, ANY_WORLD) && AnswersWith(acts, n) ==> SendsInOrder(After(Boot(locks), acts, ANY_WORLD))
  }

  // ---- A node whose proxy has a host part: in order, always ----

  lemma {:induction false} LegalWithHosts(s: System, acts: seq<Act>, n: Node)
    requires Legal(s, acts, ANY_WORLD) && AnswersWith(acts, n) && HasHost(n)
    ensures Legal(s, acts, HOSTS) && After(s, acts, HOSTS) == After(s, acts, ANY_WORLD)
    decreases |acts|
  {
    hide Enabled, Do, Fits, HasHost;
    if acts != [] {
      assert forall i :: 0 <= i < |acts[1..]| ==> acts[1..][i] == acts[i + 1];
      LegalWithHosts(Do(s, acts[0]), acts[1..], n);
    }
  }

  lemma InOrder(locks: set<string>, acts: seq<Act>, n: Node)
    requires Legal(Boot(locks), acts, ANY_WORLD) && AnswersWith(acts, n) && HasHost(n)
    ensures SendsInOrder(After(Boot(locks), acts, ANY_WORLD))
  {
    hide Legal, After, KeepsRoute, HasHost;
    LegalWithHosts(Boot(locks), acts, n);
    var s := After(Boot(locks), acts, ANY_WORLD);
    forall h | 0 <= h < |s.c.wallets| ensures KeepsRoute(s.c.wallets[h]) {
      SendsGoOverTor(s, locks, acts, HOSTS, h);
    }
  }

  // ---- One whose proxy has none: a run that sends in the clear ----

  // Everything goes well, and the wallet is at once synchronized.
  function Fair(n: Node): Answers {
    Answers(n, false, true, true, 0, true, ("", ""), [true], true, false, Good, true, true, true, true, 1, 0, 0)
  }

  const CREATE: Job := OpenLike(OpenJob(CreateWallet, "w", "mainnet"))

  // A wallet is created on this node.
  ghost predicate OpenOn(s: System, n: Node, route: Route) {
    && Inv(s, ANY_WORLD) && !s.down && s.pc.Idle? && NobodyElse(s) && s.c.dirSet && s.c.wallet.Some?
    && s.c.route == route && s.c.network == "mainnet" && (route.Tor? ==> s.c.dialPeer == HostPort(n.proxy))
    && (route.CatchUp? ==> s.c.dialPeer == HostPort(n.catchUp))
  }

  lemma Created(locks: set<string>, n: Node) returns (acts: seq<Act>)
    requires !n.error && n.url != "" && (n.proxyRequired ==> n.proxy != "")
    ensures AnswersWith(acts, n) && Legal(Boot(locks), acts, ANY_WORLD)
    ensures var t := After(Boot(locks), acts, ANY_WORLD);
      OpenOn(t, n, RouteOf(n)) && OnRoute(t.c, CREATE.open, n, 0) && t.pc == Idle(Okay) && SessionOn(t.c, "mainnet", n)
  {
    hide SessionOn, Admits, Legal, After, Inv, RunFrom, HostPort, NETWORKS, Steps, RouteOf, DialUrl, PeerOf, Refusal, AllGrow, Final;
    var s0 := Boot(locks);
    var s1 := Do(s0, SetDir);
    One(s0, SetDir, ANY_WORLD);
    BootFits(locks, ANY_WORLD);
    RunKeeps(s0, [SetDir], ANY_WORLD);
    var open := JobActs(s1.c, CREATE, Fair(n));
    JobRuns(s1, CREATE, Fair(n), ANY_WORLD);
    OnlyThatNode(s1.c, CREATE, n);
    RunKeeps(s1, open, ANY_WORLD);
    RunRemembers(s1, open, ANY_WORLD);
    Joined(s0, [SetDir], open, ANY_WORLD);
    acts := [SetDir] + open;
    NothingInTheWay(Reset(s1.c), n);
    OpenEnds(Reset(s1.c), CREATE.open, Fair(n));
    OpenOpens(Reset(s1.c), CREATE.open, Fair(n));
    PeerOnRoute(n);
  }

  lemma PeerOnRoute(n: Node)
    ensures RouteOf(n).Tor? ==> PeerOf(n) == HostPort(n.proxy)
    ensures RouteOf(n).CatchUp? ==> PeerOf(n) == HostPort(n.catchUp)
  {
    hide HostPort;
  }

  lemma NothingInTheWay(c: Core, n: Node)
    requires c.wallet.None? && !n.error && n.url != "" && (n.proxyRequired ==> n.proxy != "")
    ensures Refusal(c, AtOpen(Policy, CREATE.open, NO_NODE, 0), Fair(n)).None?
  {
    assert Fair(n).polls[0];
    assert NameOk("w") by { assert "w"[0] == 'w'; }
  }

  lemma OnlyThatNode(c: Core, job: Job, n: Node)
    requires c.wallet.Some? ==> c.wallet.value < |c.wallets|
    ensures AnswersWith(JobActs(c, job, Fair(n)), n) && OneInstance(JobActs(c, job, Fair(n)))
  {
    hide Steps, Reset;
    ResetFits(c, job);
    RepeatOnly(Work(Fair(n)), Steps(Reset(c), Entry(job), Fair(n)));
  }

  // The catch-up is over, and the wallet moves.
  lemma CaughtUp(s: System, n: Node) returns (acts: seq<Act>)
    requires OpenOn(s, n, CatchUp) && TorReady(n)
    ensures AnswersWith(acts, n) && Legal(s, acts, ANY_WORLD) && OpenOn(After(s, acts, ANY_WORLD), n, Route.Tor)
  {
    hide Legal, After, CoreInv, HeightFits, RunFrom, HostPort, NETWORKS, Steps, TorReady, AllGrow, Final;
    InvFits(s);
    acts := JobActs(s.c, Job.Tick, Fair(n));
    JobRuns(s, Job.Tick, Fair(n), ANY_WORLD);
    OnlyThatNode(s.c, Job.Tick, n);
    RunKeeps(s, acts, ANY_WORLD);
    RunRemembers(s, acts, ANY_WORLD);
    var c := Reset(s.c);
    ReadsFirst(c, Fair(n));
    CatchUpMoves(c, 1, Fair(n));
  }

  lemma InvFits(s: System)
    requires Inv(s, ANY_WORLD)
    ensures Fits(s.c, s.pc)
  {}

  // A send on a Tor route with an empty peer goes out with no proxy.
  lemma SentInTheClear(s: System, n: Node, address: string) returns (acts: seq<Act>)
    requires OpenOn(s, n, Route.Tor) && HostPort(n.proxy) == "" && Address.IsAddress(address, "mainnet")
    ensures AnswersWith(acts, n) && Legal(s, acts, ANY_WORLD) && !SendsInOrder(After(s, acts, ANY_WORLD))
  {
    hide Legal, After, RunFrom, HostPort, Steps, Address.IsAddress, KeepsRoute;
    InvFits(s);
    var job := CreateTransaction(Decimal.Text(1), address);
    acts := JobActs(s.c, job, Fair(n));
    JobRuns(s, job, Fair(n), ANY_WORLD);
    OnlyThatNode(s.c, job, n);
    var c := Reset(s.c);
    var h := c.wallet.value;
    OnTorWithoutPeer(s);
    Creates(c, address, n);
    var t := After(s, acts, ANY_WORLD);
    assert h < |t.c.wallets| && !t.c.wallets[h].began.Direct?;
    OutOfOrder(t.c.wallets[h]);
  }

  lemma OnTorWithoutPeer(s: System)
    requires Inv(s, ANY_WORLD) && !s.down && s.pc.Idle? && s.c.wallet.Some? && s.c.route.Tor?
    ensures s.c.wallet.value < |s.c.wallets|
    ensures var w := s.c.wallets[s.c.wallet.value]; w.proxy == s.c.dialPeer && !w.began.Direct? && CanIssue(w)
  {
    hide WalletsFit, PendingFits, PaceFits, LocksFit, HeightFits, PlaceFits, StateFits;
  }

  lemma Creates(c: Core, address: string, n: Node)
    requires c.wallet.Some? && c.wallet.value < |c.wallets| && c.route.Tor? && c.network == "mainnet"
    requires Address.IsAddress(address, "mainnet") && CanIssue(c.wallets[c.wallet.value])
    ensures var h, job := c.wallet.value, CreateTransaction(Decimal.Text(1), address);
      RunFrom(c, AtSend(job), Fair(n)).c.wallets == Log(c, h, Create).wallets
  {
    hide Address.IsAddress, ParseAtomic;
    var job := CreateTransaction(Decimal.Text(1), address);
    AtomicRoundTrip(1);
    var t := SendStep(c, job, Fair(n));
    assert WorkerStep(c, AtSend(job), Fair(n)) == t;
    assert RunFrom(t.c, t.pc, Fair(n)) == t;
  }

  lemma OutOfOrder(w: Wallet2)
    requires !w.began.Direct? && w.log != [] && w.log[|w.log| - 1].proxy == "" && !w.log[|w.log| - 1].purpose.Refresh?
    ensures !KeepsRoute(w)
  {
    NoCutBefore(w.log, Cut(w), HostPort(w.origin.catchUp));
    hide CutAt, HostPort;
  }

  lemma NoCutBefore(log: seq<Request>, cut: nat, peer: string)
    requires log != [] && log[|log| - 1].proxy == "" && !log[|log| - 1].purpose.Refresh?
    ensures !CutAt(log, cut, peer)
  {}

  lemma SomeAddress() returns (address: string)
    ensures Address.IsAddress(address, "mainnet")
  {
    hide Address.IsAddress, Address.Checksum;
    var payload: seq<byte> := seq(64, _ => 0);
    Address.Complete("mainnet", 18, payload);
    address := Base58.Encoded(Varint.Encode(18) + payload + Address.Checksum(Varint.Encode(18) + payload));
  }

  // ---- The condition, exactly ----

  // Of a node an open gets past, every run it answers keeps every session's sends in order if and
  // only if its proxy, where it has one, has a host part.
  lemma ProvisoIsExact(n: Node)
    requires !n.error && n.url != "" && (n.proxyRequired ==> n.proxy != "")
    ensures AlwaysInOrder(n) <==> HasHost(n)
  {
    hide Legal, After, SendsInOrder, AnswersWith, OpenOn, Inv;
    if HasHost(n) {
      forall locks: set<string>, acts: seq<Act> | Legal(Boot(locks), acts, ANY_WORLD) && AnswersWith(acts, n)
        ensures SendsInOrder(After(Boot(locks), acts, ANY_WORLD))
      {
        InOrder(locks, acts, n);
      }
    } else {
      var acts := RunInTheClear({}, n);
    }
  }

  lemma RunInTheClear(locks: set<string>, n: Node) returns (acts: seq<Act>)
    requires !n.error && n.url != "" && !HasHost(n)
    ensures Legal(Boot(locks), acts, ANY_WORLD) && AnswersWith(acts, n) && !SendsInOrder(After(Boot(locks), acts, ANY_WORLD))
  {
    hide Legal, After, SendsInOrder, OpenOn, Inv, HostPort, Address.IsAddress;
    var s := Boot(locks);
    acts := Created(locks, n);
    if RouteOf(n).CatchUp? {
      var more := CaughtUp(After(s, acts, ANY_WORLD), n);
      Joined(s, acts, more, ANY_WORLD);
      acts := acts + more;
    }
    var address := SomeAddress();
    var last := SentInTheClear(After(s, acts, ANY_WORLD), n, address);
    Joined(s, acts, last, ANY_WORLD);
    acts := acts + last;
  }

  // Such a proxy text.
  lemma InTheClearAt(locks: set<string>, url: string) returns (acts: seq<Act>)
    requires url != ""
    ensures Legal(Boot(locks), acts, ANY_WORLD) && AnswersWith(acts, Node(false, url, "socks5://", true, false, "all", ""))
    ensures !SendsInOrder(After(Boot(locks), acts, ANY_WORLD))
  {
    hide Legal, After, SendsInOrder, AnswersWith, HostPort;
    NoHostPart();
    acts := RunInTheClear(locks, Node(false, url, "socks5://", true, false, "all", ""));
  }
}
