# The wallet runtime, its address check and its test fronts: a verified model

This project models three parts of a Monero wallet module and proves what they promise.

**The wallet runtime** (`src/wallet_runtime.cpp`, `src/wallet_runtime.h`). A worker thread, a probe
thread and any number of callers share a ticket queue, one wallet2 handle behind a reader/writer lock
and a block of state behind a mutex.

- `Tickets.dfy`: the queue as a class over records, and its history as a value, over all interleavings.
- `Worker.dfy`: every job and the tick, one locked section or wallet2 call at a time, and wallet2 as
  far as the runtime drives it: how it was last told to dial, whether it is offline, whether it was
  closed, and a log of the requests it issued. What the node module, the file system, wallet2 and the
  clock answer is a record of arbitrary values, new at every section.
- `System.dfy`: the step system: those sections, the probe's, wallet2's own refreshes, callers holding the
  handle lock, shutdown, and a crash or restart of the instance, in any order the locks allow.
- `Invariant.dfy`, `Sections.dfy`, `Runs.dfy`: one invariant, and that every step keeps it. `Sections`
  has one lemma for each section of the code.
- `Laws.dfy`, `Hostless.dfy`, `Peers.dfy`, `Throws.dfy`, `Silence.dfy`: what follows for every run; proxy
  texts without a host part; what the probe's reading is of; exceptions; and what one leaves of a move
  from Tor. `Witnesses.dfy` has runs from the start that do what these say can happen. `World` names
  what a theorem assumes of its surroundings: that every proxy text has a host part (`hosts`), or that
  ticks and heights are bounded (`paced`).
- `Endings.dfy`, `Asking.dfy`: what each job and a tick come to, said at once and by the fields of job, node
  and answers; and how often a tick asks the node module.
- `Runtime.dfy`, `Thread.dfy`: the class itself, its fields and job bodies, proved to do what the sections
  do, and the worker thread over the ticket queue.
- `Kinds.dfy`: what one turn of that thread does to ticket and wallet, kind by kind.
- `Joint.dfy`: queue and runtime as one step system, exceptions and restarts among its steps.

**The address check** (`src/address_check.cpp`): block base58, varints, Keccak-f[1600] in place, the
sponge, and the final test. `Keccak.dfy` and `Sponge.dfy` state FIPS 202 bit by bit and prove the code,
which works on 64-bit lanes and bytes, equal to it. `AddressLaws.dfy` says what an address looks like,
byte by byte and by its first character. The hash has the padding of section 5.1 and not
the suffix of section 6.1.

**The test fronts** (`tools/tor-modes/fronts.py`): the buffered readers, the SOCKS handshake and the
HTTP relay over a stream that arrives in arbitrary pieces; `Headers.dfy` has the content-length header as
clients write it.

`dafny verify dfyconfig.toml` checks the whole project.

Where the code differs from its documentation, the model follows the code:

- The repository's README.md (line 42) says a route only ever moves toward Tor. A move whose `init`
  fails takes Tor back to waiting for Tor: `Witnesses.BackFromTor` is a run that does, `Endings.MoveEnds`
  says exactly when, and `Laws.RouteOnlyForward` what does hold.
- A `Job`'s `acked` flag and `State::Failed` are declared and never set. `Tickets.TicketQueue` carries
  the flag and its invariant says it is false; `Laws.HandlesConserved` says the state is never failed.
- A proxy text that is not empty may still have no host part, and wallet2 then dials without a proxy.
  `Text.NoHostPart` gives one, `Text.HostPartIff` says exactly which texts do, and
  `Hostless.ProvisoIsExact` that exactly these nodes let a session send in the clear.
- A probe that wakes in the moment between a move's letting go of the handle and its bookkeeping shows
  a connection to the peer just left. `Peers.StaleExactly` says exactly when, `Witnesses.StaleRun` is a
  run that does.
- A move that throws between going offline and coming online leaves a session on Tor saying so while
  wallet2 sends nothing. `Silence.SilentOnTor` says for how long, `Silence.TickRepairs` exactly when the
  next tick repairs it.
- A full block of base58 above 2^64 is accepted, as its value modulo 2^64, so an address has other
  spellings with other first characters. `Base58Laws.Reencode` and `AddressLaws.FirstCharacter` say exactly
  which.
- `read_exact` with a negative count cuts whatever happens to be buffered, so its result then depends on
  how the stream arrived. `Streams.ReadOutIgnoresPieces` gives the exact condition.

## Model

| member | source | states |
|---|---|---|
| TicketDesk.KeyInjective | src/wallet_runtime.cpp:247 | ticket names are "j" and a decimal number, so two tickets never share a name |
| TicketDesk.StepKeeps | src/wallet_runtime.cpp:232-346 | every queue operation keeps: the queue is the queued tickets in issue order, at most one runs, only known kinds are issued, and issued tickets split into held, acked and cancelled |
| TicketDesk.EveryRun | src/wallet_runtime.cpp:232-346 | over every interleaving from the start: the queue holds exactly the queued tickets in issue order, at most one ticket runs, jobs begin in issue order and each once except the cancelled, and held, acked and cancelled tickets partition those issued |
| TicketDesk.RunFollows | src/wallet_runtime.cpp:255-293 | over every run a ticket keeps what it was asked to be and only moves on: a running one is never queued or cancelled again, a finished one stays as it is until acked, and acked or cancelled is for good |
| TicketDesk.ResultStable | src/wallet_runtime.cpp:255-281 | a finished result answers the same on every asking until it is acked, and not at all afterwards |
| TicketDesk.UnknownEverAfter | src/wallet_runtime.cpp:274-293 | a ticket acked or cancelled is unknown ever after, under any receipt |
| TicketDesk.JustIssued | src/wallet_runtime.cpp:232-253 | a ticket just issued answers to its name under its own receipt and no other, waiting, last in the queue, with the kind and parameters asked for; no other ticket changes |
| TicketDesk.OnlyThatOne | src/wallet_runtime.cpp:274-293 | an ack or a cancel leaves what every other name shows as it was |
| Tickets.TicketQueue.StartJob | src/wallet_runtime.cpp:232-253 | any of the ten kinds, with a wallets directory, is queued under "j" and the next number, with the receipt and parameters given; anything else changes nothing |
| Tickets.TicketQueue.JobStatus | src/wallet_runtime.cpp:255-261 | the status of the one ticket named by id and receipt, or unknown |
| Tickets.TicketQueue.JobResult | src/wallet_runtime.cpp:263-272 | the result if done, the error if failed, not finished or unknown otherwise, whatever `acked` says: it is never set |
| Tickets.TicketQueue.AckJob | src/wallet_runtime.cpp:274-281 | succeeds exactly on a finished ticket with its receipt, and forgets that one only |
| Tickets.TicketQueue.CancelJob | src/wallet_runtime.cpp:283-293 | succeeds exactly on a queued ticket with its receipt; the search erases that ticket and no other from the queue |
| Tickets.TicketQueue.TakeJob | src/wallet_runtime.cpp:297-305 | the oldest queued ticket becomes the running one, unless stopped or empty |
| Tickets.TicketQueue.SettleJob | src/wallet_runtime.cpp:334-340 | the running ticket gets its outcome and nothing else changes |
| Tickets.TicketQueue.Stop | src/wallet_runtime.cpp:922-927 | stopping keeps every ticket and lets none be taken again |
| Text.StripUrl | src/wallet_runtime.cpp:94-106 | the text after the first scheme mark, without the slashes at its end |
| Text.HostPartIff | src/wallet_runtime.cpp:94-99 | a proxy has a host part if and only if something other than slashes follows its scheme |
| Text.NoHostPart | src/wallet_runtime.cpp:94-99 | a non-empty proxy text that has no host part |
| Text.HostPartOf | src/wallet_runtime.cpp:94-106 | a scheme, a mark, a host and slashes: what is dialled is that host |
| Text.HostPartBare | src/wallet_runtime.cpp:94-106 | of a text without a mark only the slashes at its end go |
| Text.LoopbackIff | src/wallet_runtime.cpp:88-92 | trust is for URLs that hold 127.0.0.1, localhost or [::1], and no others |
| Text.NameOkIff | src/wallet_runtime.cpp:492-493 | a wallet name is refused if and only if it is empty, holds a slash or two dots in a row |
| Text.AtomicRoundTrip | src/wallet_runtime.cpp:116-121 | an amount written in decimal is read back if and only if it fits 64 bits |
| Text.AmountIff | src/wallet_runtime.cpp:116-121 | a text is read as n if and only if n is below 2^64 and the text is n in decimal with any zeros before it |
| Worker.OpenStep | src/wallet_runtime.cpp:489-622 | one section of doOpenLike; the handle it goes on with exists, and fewer sections are left |
| Worker.CloseStep | src/wallet_runtime.cpp:624-645 | one section of doClose; fewer are left |
| Worker.MoveStep | src/wallet_runtime.cpp:412-460 | one section of moveToTor; a wallet is open wherever the handle lock is held, and fewer sections are left |
| Worker.TickStep | src/wallet_runtime.cpp:380-410 | one section of tick; fewer are left |
| Worker.WorkerStep | src/wallet_runtime.cpp:314-346 | any section of any job leaves fewer to do, so that every job and tick ends |
| Sections.Building | src/wallet_runtime.cpp:692-693 | a transaction just built gets a handle no earlier one had, and joins those of the open wallet |
| Sections.Ending | src/wallet_runtime.cpp:717-731 | a transaction committed or disposed of leaves the pending ones, for good; one committed is committed for the first time |
| Sections.AllDropped | src/wallet_runtime.cpp:626-631 | a close drops every pending transaction, and brings no ended one back |
| Sections.NotePace | src/wallet_runtime.cpp:395-397 | one more height keeps the greatest so far and when it first came, and each rise buys at most one more wait of 90 s and a gap |
| Sections.Redirected | src/wallet_runtime.cpp:423-446 | a move to Tor changes only how the open wallet dials: every other promise stands |
| Runs.OpenKeeps | src/wallet_runtime.cpp:489-622 | every section of doOpenLike keeps the invariant of the whole runtime and rewrites no history, on every branch |
| Runs.CloseKeeps | src/wallet_runtime.cpp:624-645 | every section of doClose keeps it |
| Runs.SendKeeps | src/wallet_runtime.cpp:671-742 | doCreateTransaction, doCommit, doDispose and doChangePassword keep it |
| Runs.MoveKeeps | src/wallet_runtime.cpp:412-460 | every section of moveToTor keeps it, whether or not init succeeds |
| Runs.WorkerKeeps | src/wallet_runtime.cpp:314-346 | every section of the worker keeps it, with the probe anywhere its lock lets it be |
| Runs.WriteKeeps | src/wallet_runtime.cpp:367-371 | the probe writes under the handle lock, so its reading is still the open wallet's |
| Runs.IssueKeeps | src/wallet_runtime.cpp:592-596 | wallet2's own refreshes, at any moment while it is not offline, keep the log in order |
| Runs.ShutdownKeeps | src/wallet_runtime.cpp:922-937 | shutdown closes the open handle, and only that one |
| Runs.DoKeeps | src/wallet_runtime.cpp:297-375 | every step of worker, probe, wallet2, callers, shutdown, crash or restart keeps the invariant |
| Laws.RunKeeps | src/wallet_runtime.cpp:297-375 | the invariant holds all along every run |
| Laws.RunRemembers | src/wallet_runtime.cpp:297-375 | along every run of one instance the request logs, the closings and the ends of transactions only grow |
| Laws.HandlesConserved | src/wallet_runtime.cpp:518-643 | in every run in which no section throws (Throws.LeaksExactly is of the others): each handle ever returned is closed exactly once, or is the open wallet, or is in the hands of the section at work; at rest a wallet is open exactly while the state is syncing or ready; after shutdown every handle is closed; failed is never a state |
| Laws.SendsGoOverTor | README.md:30-42 | by the node a session was opened with: on a direct node every request goes straight to that node; with a catch-up node nothing but refreshes straight to it until a move first takes wallet2 offline, and from there on nothing but through a proxy; on Tor or waiting for it (`all`, README.md line 72) nothing but through a proxy, ever. Every proxy text is taken to have a host part, save for the direct node |
| Laws.NothingDirectAfter | README.md:38-41 | along any run of one instance, whatever a wallet sends after a move has first taken it offline goes through a proxy |
| Hostless.ProvisoIsExact | src/wallet_runtime.cpp:380-460 | of a node an open gets past: in every run it answers every session sends as its node says if and only if its proxy, where it has one, has a host part |
| Hostless.RunInTheClear | src/wallet_runtime.cpp:94-106 | for every node whose proxy has no host part, a run, directory, open, the move where it catches up first, and a send, in which the send goes out direct |
| Hostless.InTheClearAt | src/wallet_runtime.cpp:94-99 | that run at the proxy text "socks5://" |
| Witnesses.SendsDirect | src/wallet_runtime.cpp:671-723 | a run from the start on a node with neither catch-up node nor proxy: open, create and commit all succeed, and the requests are just these two, straight to the node |
| Witnesses.CatchesUpFirst | src/wallet_runtime.cpp:511-516 | a run from the start on a node with a catch-up node, whatever its proxy says: the wallet is on CatchUp and its first refresh goes straight there |
| Laws.BookkeepingAgrees | src/wallet_runtime.cpp:566-611 | between steps: on Direct and CatchUp online, no proxy, the dialled peer the node's; on Tor online, untrusted, the onion through the dialled peer; waiting offline with no peer; a trusted daemon only on Direct and only on a loopback URL |
| Laws.RouteOnlyForward | src/wallet_runtime.cpp:448-457 | while one wallet stays open, CatchUp is never entered again once left, and Direct is neither entered nor left |
| Endings.MoveEnds | src/wallet_runtime.cpp:412-460 | a move ends on Tor if and only if a ready node was resolved and init took it, and waiting for Tor otherwise, from Tor as from anywhere |
| Witnesses.BackFromTor | README.md:41-42 | the route does not only move toward Tor: a run from the start, with any two different onions, in which a tick 60 s after the open takes the open wallet from Tor to waiting |
| Witnesses.ReadsGoOn | README.md:45-46 | a run from the start in which, while a switch waits out the request in flight, a caller and the probe come in, and the redial then waits for them to leave |
| Laws.LocksMatch | src/wallet_runtime.cpp:464-474 | whatever locks earlier instances left, after the one reset the networks locked between steps are exactly the open wallet's, or none; before it no wallet is open |
| Laws.ResetFirst | src/wallet_runtime.cpp:314-315 | no section of an open runs before this instance has reset the locks, so none of its own locks comes first |
| Laws.ResetOnce | src/wallet_runtime.cpp:314-315 | the first job or tick with a wallets directory has done the reset, and it stays done |
| Laws.HeightIsOwn | src/wallet_runtime.cpp:356-371 | a daemon height seen while a wallet is open was read from that wallet, in every interleaving |
| Laws.NoHeightWithoutWallet | src/wallet_runtime.cpp:635-641 | once a close has cleared its fields, and until the next wallet, no daemon height is held |
| Laws.PendingIsOwn | src/wallet_runtime.cpp:671-731 | until shutdown every pending transaction was built by the wallet now open, and none is held without one; each handle commits at most once |
| Laws.NoCommitAfterEnd | src/wallet_runtime.cpp:704-731 | a transaction committed, disposed of or dropped by a close is never pending or committed afterwards |
| Laws.ProgressIsRecord | src/wallet_runtime.cpp:388-400 | the progress height is the greatest seen since the open, and on CatchUp the progress time is when it was first seen, or the open |
| Laws.CatchUpEnds | src/wallet_runtime.cpp:388-400 | with heights up to H and ticks at most g apart the route has left CatchUp (H+1)·(90 s + g) after the open |
| Laws.AloneRuns | src/wallet_runtime.cpp:297-346 | a job alone is one run of the step system, and it ends |
| Laws.JobKeeps | src/wallet_runtime.cpp:314-346 | every job, run alone, keeps the invariant |
| Endings.OpenEnds | src/wallet_runtime.cpp:489-622 | the first obstacle, in the code's order, is the answer, and then no wallet opens and no lock is set; without one the wallet is open on the node's route, its network locked |
| Endings.AdmitsIff | src/wallet_runtime.cpp:489-590 | nothing is in the way if and only if: a plain name, one of the four networks, a configured node with the proxy it requires, no wallet open, the file there for open and absent else, wallet2 hands out a wallet of network number 0, 1 or 2 as the name says, and init and, where it is asked, the connection succeed |
| Endings.OpenOpens | src/wallet_runtime.cpp:508-622 | an open succeeds if and only if that holds; then, by the node's own fields: with a catch-up node, whatever the proxy says, on CatchUp straight to it; else with no proxy on Direct; else at proxy "tor" waiting, dialling nowhere; else on Tor through the proxy; trusted only direct, loopback and marked so |
| Endings.CloseEnds | src/wallet_runtime.cpp:624-645 | a close ends with no wallet, nothing pending, the fields cleared, the network unlocked and the handle closed once more, also where wallet2 reports failure |
| Endings.CreateEnds | src/wallet_runtime.cpp:671-702 | each refusal of a create exactly, the routes that wait for Tor being CatchUp and WaitingForTor; it succeeds if and only if a wallet is open on Direct or Tor, not view-only, the amount is 1 to 2^64 - 1, the address is one of its network and wallet2 builds |
| Endings.CommitEnds | src/wallet_runtime.cpp:704-723 | each refusal of a commit exactly; it succeeds if and only if a wallet is open on Direct or Tor, the handle is pending and wallet2 commits, and drops that handle alone |
| Endings.RescanEnds | src/wallet_runtime.cpp:647-654 | a rescan changes the state to syncing and nothing else |
| Endings.TickTells | src/wallet_runtime.cpp:385-409 | a tick leaves the wallet ready if synchronized and syncing if not, through a move to Tor as without one |
| Endings.TickRoute | src/wallet_runtime.cpp:388-404 | where a tick leaves each route: CatchUp is left if and only if synchronized or 90 s without a new block, for Tor if the node is ready and init takes it; Tor is left if and only if, 60 s after the last asking, another ready onion was resolved and init refused it |
| Silence.TickDials | src/wallet_runtime.cpp:388-460 | a catch-up that ends, and another onion found on Tor, leave wallet2 online on that onion, untrusted, as the runtime's fields have it, if and only if the node is ready and init takes it; else offline |
| Asking.AskedOnceAMinute | src/wallet_runtime.cpp:397-404 | after a tick on Tor that asked the node module, no answer of its makes a difference to any tick in the next 60 s |
| Asking.QuietAfterOpen | src/wallet_runtime.cpp:388-404 | nor in the 60 s after an open on Tor |
| Asking.QuietAfterMove | src/wallet_runtime.cpp:448-457 | nor in the 60 s after a tick that moved there |
| Peers.ConnectedIsCurrent | src/wallet_runtime.cpp:359-370 | connected, where shown, is of the peer wallet2 now dials, unless the probe read the peer after a move let go of the handle and before its bookkeeping |
| Peers.StaleExactly | src/wallet_runtime.cpp:447-457 | in every run, whatever anyone does between the probe's reading of a peer and its writing: what is then shown as connected is another peer than the one dialled if and only if the peer was read while a move stood before its bookkeeping, that bookkeeping changes the peer, and it was done before the probe wrote |
| Witnesses.StaleRun | src/wallet_runtime.cpp:447-457 | a run from the start, with any node that has a catch-up node and an onion behind different peers, that shows such a connection |
| Throws.LeaksExactly | src/wallet_runtime.cpp:307-333 | with exceptions in any section no handle is closed twice, and the live handles neither open nor in hand are exactly those a section had in hand when it threw; after shutdown those alone are live |
| Witnesses.LeakRun | src/wallet_runtime.cpp:528-560 | a run from the start that loses a handle: wallet2 hands it out and throws at the next question |
| Throws.ThrowStrays | src/wallet_runtime.cpp:327-333 | a throw loses a handle if and only if the worker had one in hand that was not the open wallet |
| Throws.StuckOnCatchUp | src/wallet_runtime.cpp:412-416 | a resolver that throws every time keeps a wallet on CatchUp for as long as it is open |
| Silence.ThrowMutes | src/wallet_runtime.cpp:433-446 | a throw in a move from Tor, after wallet2 is offline and before it is online again, leaves the route at Tor and wallet2 offline |
| Silence.SilentOnTor | src/wallet_runtime.cpp:401-404 | from there on, whatever runs and throws, for as long as asking finds no other onion ready: wallet2 stays offline, not one request goes out, sends included, and while the wallet is open the route is Tor |
| Silence.TickRepairs | src/wallet_runtime.cpp:388-404 | the next tick brings it online, on the onion then resolved and with the fields that say so, if and only if that onion is ready, init takes it and, where the route is Tor, 60 s have passed and the onion is another; else it stays offline |
| Witnesses.MuteRun | src/wallet_runtime.cpp:433-446 | a run from the start that ends so |
| Joint.ResultsAreOwn | src/wallet_runtime.cpp:297-346 | over every interleaving of callers, worker, probe and wallet2, with exceptions in any section and new instances at any moment: a ticket's result is what the job it asked for came to, failed where it threw; jobs of tickets begin in ticket order, each once; the queue keeps all its promises, and the runtime all of its own until a section throws |
| Runtime.WalletRuntime.constructor | src/wallet_runtime.h:100-141 | a new instance starts from the declared field values, with the node module's locks as they are, and meets the invariant |
| Runtime.WalletRuntime.SetWalletsDir | src/wallet_runtime.cpp:221-224 | a directory is set, nothing else changes and the invariant stands: the act of the step system |
| Runtime.WalletRuntime.ResetLocksOnce | src/wallet_runtime.cpp:464-469 | the four networks are unlocked, once per instance and only with a wallets directory |
| Runtime.WalletRuntime.NotifyOpen | src/wallet_runtime.cpp:471-474 | exactly the named network is then locked or not, as asked; no other network's lock changes |
| Runtime.WalletRuntime.DoOpenLike | src/wallet_runtime.cpp:489-522 | succeeds if and only if nothing is in the way, then with a wallet open on the node's route and its network locked; refused, it leaves wallet and locks alone; all of the state is what the open's sections leave |
| Runtime.WalletRuntime.CheckPolicy | src/wallet_runtime.cpp:491-507 | a node is used only for a plain name and a known network, with a daemon configured, and never on the direct route where a proxy is required |
| Runtime.WalletRuntime.CallWallet2 | src/wallet_runtime.cpp:528-551 | the file must be there to open and absent to create or restore; a handle in error is closed again |
| Runtime.WalletRuntime.SetUp | src/wallet_runtime.cpp:555-572 | a wallet of another network, or one whose init fails, is closed again |
| Runtime.WalletRuntime.Dialled | src/wallet_runtime.cpp:566-573 | the daemon and proxy of the route, offline while waiting for Tor |
| Runtime.WalletRuntime.Trusted | src/wallet_runtime.cpp:574 | trust on a direct loopback node only |
| Runtime.WalletRuntime.Poll | src/wallet_runtime.cpp:581-584 | connected if and only if one of the first twenty answers says so |
| Runtime.WalletRuntime.ConnectAndInstall | src/wallet_runtime.cpp:579-590 | under a required proxy an older node module's Tor route must connect or the handle is closed |
| Runtime.WalletRuntime.Published | src/wallet_runtime.cpp:603-613 | the session's fields as the open's sections leave them |
| Runtime.WalletRuntime.DoClose | src/wallet_runtime.cpp:624-631 | ends with no wallet, nothing pending, no route, peer or height, the network unlocked and the handle closed once more, whatever wallet2 answers; all of the state is what the close's sections leave |
| Runtime.WalletRuntime.CloseDown | src/wallet_runtime.cpp:632-645 | the handle is closed, the fields cleared and the network unlocked, whatever the close answers |
| Runtime.WalletRuntime.DoRescan | src/wallet_runtime.cpp:647-654 | back to syncing, if a wallet is open |
| Runtime.WalletRuntime.DoCreateTransaction | src/wallet_runtime.cpp:671-702 | succeeds only with a wallet, off the waiting routes, to an address of the wallet's network, and then under the next handle |
| Runtime.WalletRuntime.DoCommit | src/wallet_runtime.cpp:704-723 | succeeds exactly on a pending handle, off the waiting routes, when wallet2 commits; the handle is then gone |
| Runtime.WalletRuntime.DoDispose | src/wallet_runtime.cpp:725-731 | succeeds exactly on a pending handle; it is then gone |
| Runtime.WalletRuntime.DoChangePassword | src/wallet_runtime.cpp:733-742 | succeeds if and only if a wallet is open, the old password is right and wallet2 takes the new one; changes nothing of the runtime |
| Runtime.WalletRuntime.TickOnce | src/wallet_runtime.cpp:380-410 | the route after one tick is the one its decisions call for, and the state tells whether the wallet is synchronized; all of the state is what its sections leave |
| Runtime.WalletRuntime.Noted | src/wallet_runtime.cpp:388-405 | the progress fields, the 90 s and 60 s decisions, and the move where one is due |
| Runtime.WalletRuntime.MoveToTor | src/wallet_runtime.cpp:412-460 | one move leaves what its sections leave one after another |
| Runtime.WalletRuntime.Redialled | src/wallet_runtime.cpp:436-446 | moved if and only if a ready node was resolved and init succeeded |
| Runtime.WalletRuntime.Run | src/wallet_runtime.cpp:314-346 | any job or tick keeps the whole invariant and the wallets directory, and does what its sections do |
| Runtime.WalletRuntime.ProbePass | src/wallet_runtime.cpp:356-371 | one pass of the probe, alone, leaves its reading and keeps the invariant |
| Runtime.PassIsRun | src/wallet_runtime.cpp:356-371 | the probe's four steps, with nothing between, are that pass |
| Runtime.WalletRuntime.Shutdown | src/wallet_runtime.cpp:932-937 | every handle is then closed, and none is open |
| Thread.Turn | src/wallet_runtime.cpp:299-346 | one turn of the thread: nothing once stopped, a tick when nothing is queued, else the oldest ticket, its own job, and the outcome in that ticket; queue and wallet keep all their promises, so the next turn can follow |
| Thread.ThreadMain | src/wallet_runtime.cpp:297-312 | the loop: any number of turns one after another |
| Kinds.TurnCloses | src/wallet_runtime.cpp:321 | a turn at a close_wallet ticket leaves no wallet, nothing pending, no route and the network unlocked, and the ticket done if and only if a wallet was open and wallet2 closed it |
| Kinds.TurnRescans | src/wallet_runtime.cpp:322 | at a rescan ticket: the wallet stays, syncing, and nothing else changes |
| Kinds.TurnCreates | src/wallet_runtime.cpp:323 | at a create_transaction ticket: done if and only if its own amount and address pass and wallet2 builds, and then kept under "tx" and the next number |
| Kinds.TurnCommits | src/wallet_runtime.cpp:324 | at a commit_transaction ticket: its own handle, and no other, is committed and dropped |
| Kinds.TurnDisposes | src/wallet_runtime.cpp:325 | at a dispose_transaction ticket: its own handle, and no other, is dropped, uncommitted |
| Kinds.TurnChangesPassword | src/wallet_runtime.cpp:326 | at a change_password ticket: done if and only if a wallet is open, the old password is right and wallet2 takes the new one; nothing changes |
| Kinds.TurnOpens | src/wallet_runtime.cpp:319-320 | at a ticket of the four that open: done if and only if nothing is in the way of its own name and network, open_wallet with its file there and the three others with none; then a session as the node's fields say |
| Kinds.TurnTicks | src/wallet_runtime.cpp:299-312 | with no ticket waiting: a tick, and no ticket touched |
| Txid.LooksLikeTxid | src/wallet_runtime.cpp:48-60 | accepts exactly the comma joins of one or more 64-digit hexadecimal strings |
| Txid.JoinOfSplit | src/wallet_runtime.cpp:50-58 | splitting at commas and joining again is the identity, on every text |
| Txid.SplitOfJoin | src/wallet_runtime.cpp:50-58 | joined hashes are split into the same hashes |
| Txid.SplitDecides | src/wallet_runtime.cpp:48-60 | a text is accepted if and only if each part between commas is a hash |
| Txid.TxidShape | src/wallet_runtime.cpp:48-60 | an accepted text is one shorter than a multiple of 65 and has no leading, trailing or doubled comma |
| Txid.HexIff | src/wallet_runtime.cpp:55 | the hexadecimal digits, in either case |
| Base58.DecodeBlock | src/address_check.cpp:59-72 | the block's bytes appended, or refusal with nothing appended, exactly as the block's base-58 value and length say |
| Base58.Accumulate | src/address_check.cpp:63-68 | the 128-bit accumulator holds the exact base-58 value and never wraps |
| Base58.PushBytes | src/address_check.cpp:70 | the value modulo 256^size, greatest byte first |
| Base58.Base58Decode | src/address_check.cpp:74-79 | the blocks' bytes in order, or refusal if any block is refused |
| Base58.Powers | src/address_check.cpp:57-69 | 58^11 is below 2^128, and 58^ENC_SIZES[k] is at least 256^k for every k |
| Base58.AlphabetLetters | src/address_check.cpp:56 | the alphabet is the digits and letters without 0, O, I and l |
| Base58.AlphabetAscends | src/address_check.cpp:56 | all 58 in the order of their codes |
| Base58Laws.RoundTrip | src/address_check.cpp:55-79 | every byte sequence, encoded by blocks, decodes to itself |
| Base58Laws.Language | src/address_check.cpp:59-79 | decoding accepts if and only if every character is in the alphabet, the tail has 0, 2, 3, 5, 6, 7, 9 or 10 characters and its value is below 256^size |
| Base58Laws.Reencode | src/address_check.cpp:59-79 | encoding what was decoded gives the text back if and only if every full block is below 2^64 |
| Base58Laws.DecodedLength | src/address_check.cpp:57-79 | the decoded length follows from the text's length alone |
| Varint.ReadVarint | src/address_check.cpp:81-88 | succeeds if and only if one of the first ten bytes has its top bit clear; the value is the base-128 sum modulo 2^64 and the count exact |
| Varint.OrAddsNext | src/address_check.cpp:83-84 | each or-of-a-shift is the sum of the digits so far modulo 2^64, the tenth byte's lost bits included |
| Varint.RoundTrip | src/address_check.cpp:81-88 | the 7-bit encoding of any 64-bit value, before any bytes, is read back with its exact length |
| Keccak.KeccakF | src/address_check.cpp:22-38 | in place, on any 25 lanes: KECCAK-f[1600], 24 rounds of the step mappings of sections 3.2.1 to 3.2.5 of FIPS 202 |
| Keccak.ThetaStep | src/address_check.cpp:25-29 | the theta of section 3.2.1, bit for bit |
| Keccak.WalkInPlace | src/address_check.cpp:30-31 | holding one displaced lane, the walk puts into every lane of the table its source turned, for any table that visits no lane twice |
| Keccak.RhoPiStep | src/address_check.cpp:30-31 | the walk over PIL and ROT is the simultaneous rho and pi of sections 3.2.2 and 3.2.3 |
| Keccak.TableIsWalk | src/address_check.cpp:17-18 | PIL visits the 24 lanes other than lane 0 once each |
| Keccak.ChiStep | src/address_check.cpp:32-35 | the chi of section 3.2.4, row by row in place |
| Keccak.IotaStep | src/address_check.cpp:36 | the iota of section 3.2.5 |
| Keccak.RcTable | src/address_check.cpp:10-16 | each round constant is the one Algorithms 5 and 6 of FIPS 202 compute from the shift register |
| Keccak256.Hash | src/address_check.cpp:40-53 | KECCAK[512](M, 256) of section 5.2 of FIPS 202 on a message of any length, in exactly len/136 + 1 permutations |
| Keccak256.DigestBits | src/address_check.cpp:40-53 | the digest, bit by bit, is the sponge of section 4 with rate 1088 and pad10*1 |
| Keccak256.LastBlock | src/address_check.cpp:48-49 | the last block is the rest of the message and its padding, both pad bits in one byte when 135 bytes are left |
| SpongeSpec.PaddedInjective | src/address_check.cpp:48-50 | no two messages have the same padded form |
| Address.Valid | src/address_check.cpp:94-114 | accepts if and only if the text decodes to a varint prefix the network hands out (18, 42, 19 on mainnet and regtest; 53, 63, 54 on testnet; 24, 36, 25 on stagenet), a payload of 64 bytes, or 72 for the last, and their 4-byte Keccak checksum; the 90-character gate refuses none of these |
| Address.AddressDecides | src/address_check.cpp:102-113 | that form, stated with unknown parts, is what the code tests on the decoded bytes |
| Address.AddressLength | src/address_check.cpp:103 | a well-formed address has at least 95 characters, so the gate and the 4-byte test refuse none |
| Address.Complete | src/address_check.cpp:94-114 | every prefix of a network with any payload of its size, encoded with its checksum, is an address |
| Address.OneFamily | src/address_check.cpp:95-100 | no text is an address of two of mainnet with regtest, testnet and stagenet |
| AddressLaws.AcceptedIff | src/address_check.cpp:94-114 | of bytes that begin below 128: an address if and only if there are 69, or 77 for an integrated one, of a first byte the network hands out, and the last four are the first four of the hash of the rest |
| AddressLaws.FirstCharacter | src/address_check.cpp:59-114 | such an address has 95 or 106 characters, and begins with 4 or 8 on mainnet and regtest, 9, A or B on testnet, 5 or 7 on stagenet, if and only if its first block is below 2^64 |
| AddressLaws.UsualLength | src/address_check.cpp:94-114 | every address of 95 characters is of that kind |
| AddressLaws.Printed | src/address_check.cpp:94-114 | every first byte a network hands out, with any payload of its size and its checksum, is accepted |
| Streams.Socket.Recv | tools/tor-modes/fronts.py:30-40 | any non-empty piece of the stream, empty only at its end |
| Streams.ReadHead | tools/tor-modes/fronts.py:28-35 | the text up to and including the first blank line, however the stream is cut; what is buffered and unread is the rest |
| Streams.ReadExact | tools/tor-modes/fronts.py:38-44 | exactly n bytes and the rest, or the end of the stream, however it is cut; a negative n cuts the buffer |
| Streams.ReadOutIgnoresPieces | tools/tor-modes/fronts.py:38-44 | the result depends on the stream alone if and only if the count is not negative |
| Streams.ContentLength | tools/tor-modes/fronts.py:47-52 | the first content-length line decides, in any case and spacing; none is zero; a bad number raises |
| HeaderLaws.LengthLineIff | tools/tor-modes/fronts.py:49-50 | a line decides if and only if it is blanks, the name content-length with each letter in either case, blanks, and nothing or a colon and a value |
| HeaderLaws.HeaderReads | tools/tor-modes/fronts.py:47-52 | that name, any blanks around name and value, and a number in decimal give that number, whatever lines follow |
| HeaderLaws.HeaderAfter | tools/tor-modes/fronts.py:47-52 | lines of other names before it decide nothing |
| HeaderLaws.WrittenInt | tools/tor-modes/fronts.py:51 | a number in decimal is read back, with either sign and any blanks |
| HeaderLaws.DigitsIff | tools/tor-modes/fronts.py:51 | digits are read if and only if there are some, with single underscores only between them |
| HeaderLaws.UnderscoresAddNothing | tools/tor-modes/fronts.py:51 | and the underscores count for nothing |
| Socks.SocksTarget | tools/tor-modes/fronts.py:85-124 | target, answer and what is left are a function of the stream, for every fragmentation; every byte after the handshake is returned or unread; a handshake that fails has been answered by a version 5 choice of method or not at all |
| Socks.Socks5Target | tools/tor-modes/fronts.py:111-123 | a well-formed SOCKS 5 handshake (sections 3 to 5 of RFC 1928), with any methods and anything after it, yields its target and the rest |
| Socks.Socks4Target | tools/tor-modes/fronts.py:105-110 | a well-formed SOCKS 4 or 4a request yields its target and the rest |
| Socks.OtherTypes | tools/tor-modes/fronts.py:111-123 | every address type but 1 and 3 is read as sixteen bytes |
| Socks.CutShort | tools/tor-modes/fronts.py:85-124 | a handshake whose end is missing raises the end of the stream, wherever it is cut |
| Relay.ReadMessage | tools/tor-modes/fronts.py:67-70 | one message off the stream: head and body are its first bytes and the rest is kept |
| Relay.Turn | tools/tor-modes/fronts.py:66-80 | one turn forwards one request and returns one answer, each a beginning of what is unread, or ends; a failed one returns none |
| Relay.RelayHttp | tools/tor-modes/fronts.py:55-82 | what was forwarded, then what is buffered or unread, is the client's stream, and likewise back: no byte lost, doubled or reordered; where it fails, what was forwarded each way is a beginning of the stream; on streams whose lengths are not negative the whole traffic is a function of the two |
| RelayLaws.AllForwarded | tools/tor-modes/fronts.py:66-80 | in the loop of relay_http, complete requests with answers enough are all forwarded in order and answered in order, with their paths |
| RelayLaws.AllRelayed | tools/tor-modes/fronts.py:55-80 | the same of relay_http from its first byte, unless the first request begins like a TLS hello: then nothing is forwarded |
| RelayLaws.AllThroughSocks | tools/tor-modes/fronts.py:136-142 | requests that follow a well-formed SOCKS 5, 4 or 4a handshake reach the node whole and in order, and their answers the client |
| RelayLaws.SuchAHead | tools/tor-modes/fronts.py:47-52 | a head whose content-length is negative |
| RelayLaws.NegativeLength | tools/tor-modes/fronts.py:47-52 | every head of lines that announces a negative length is the one kind cut by its buffer |
| Front.One | tools/tor-modes/fronts.py:136-142 | one connection of either front: the answers to its handshake, if any, then the relay of all that follows; on every stream what was forwarded, then what is buffered or unread, is what came, each way, and after a failure what was forwarded is a beginning of it; a failed handshake forwards nothing |
| RelayLaws.WrittenMessage | tools/tor-modes/fronts.py:28-52 | lines and a body of the length they announce are one message |
| RelayLaws.OrdinaryMessage | tools/tor-modes/fronts.py:28-52 | so are a request or status line, headers with a content-length in any case and blanks, and a body of that length |
| RelayLaws.ContentLength5 | tools/tor-modes/fronts.py:47-52 | "Content-Length: 5" gives 5 |
| RelayLaws.PathIsSecondWord | tools/tor-modes/fronts.py:71 | the path is the second word of the request line; a head of one word raises |
| RelayLaws.ClientSucceeds | tools/tor-modes/fronts.py:85-142 | a client of version 5 or 4 that reads the answers as its protocol has them finds that it succeeded, and then the node's bytes |

## Left out

- wallet2 and monero_c are foreign code: the model keeps only what the runtime tells them, and lets them answer anything. It takes from the source's comments that wallet2 issues requests only while not offline, and that none is in flight once setOffline and refresh have returned.
- socketsTo, samePeer, name resolution, file permissions and directory listing are the operating system's; whether a socket to the peer exists is an arbitrary answer, and dropping a stuck node's connection has no effect in the model.
- Rendering of JSON, events, error texts, subaddresses, history, balances, seeds and view keys.
- Wallet names, addresses and the last error as fields: nothing proved depends on them.
- Decoding of job parameters and node fields: inputs are taken to have the types the code expects.
- Laws.HandlesConserved: speaks, as all of Laws, of runs in which no section throws. Exceptions are in Throws, Silence and Joint, which let every section throw: Throws.LeaksExactly says what the handles come to, Throws.StuckOnCatchUp what a resolver that always throws does, and Silence what a move from Tor leaves. Of a throw in an open or a close beyond its handle, such as a state left at opening or closing, nothing is stated.
- Silence.ThrowMutes: is about moves from Tor past the wait for a request in flight; a throw during that wait leaves wallet2 draining, which in the model still sends, through the proxy it has.
- Receipts are arbitrary texts; nothing is proved about guessing one.
- status() reads under two locks in turn and is no single snapshot; no snapshot theorem is stated.
- When the worker wakes, and fairness between jobs and ticks: ticks are counted, and `Laws.CatchUpEnds` assumes how far apart they are.
- Timeouts on the handle lock: a reader that gives up is a reader that never came in. Callers that hold the lock uniquely change nothing the model tracks.
- A runtime made without a notifier: the model always has one, and notifications take effect.
- The counters m_nextId and m_nextTx are unbounded in the model; 2^64 jobs or transactions are out of reach.
- Time is a whole number of nanoseconds, with no bound.
- Forwarding wrappers in src/monero_wallet_core_impl.cpp, and whether setWalletsDir could be called with an empty text: its callers never do.
- Text forms of SOCKS hosts (inet_ntoa, inet_ntop) and of the target line: a target is its raw host and port. Decoding of a host name is an arbitrary predicate.
- The hold file that makes the HTTP front wait, its log file, its sockets' time limits, and Python's limit on the digits of an int.
- Hostless.ProvisoIsExact: is about nodes an open gets past; any other node opens no session.
- Runtime.WalletRuntime.Run: runs a job with nothing between its sections; what others do in between is in the step system, of which Laws.AloneRuns shows such a job to be one run.
- Laws.CatchUpEnds: speaks of moments when the worker is at rest and the last tick is at most one gap ago, because the code measures time only in ticks.
- Relay.RelayHttp: equates the traffic with a function of the streams only where no content-length is negative, because with a negative one the code's own result depends on how the stream was cut; that no byte is lost, doubled or reordered is stated for every stream, on a failure for the bytes forwarded, since what was read by then is dropped by the code.
- Socks.Socks4Target: asks that a user name and a host name hold no zero byte and that a plain address is not of the form 0.0.0.x with x not zero, because such a request means something else on the wire.
