# JoinMarket Lightning and PeerSwap bridge: a Dafny model

jmlightning funds Lightning channels and splices from a JoinMarket wallet; jmpeerswap lets PeerSwap ask that wallet for
transactions. Both hold coins under leases while other programs decide what becomes of a transaction, so most of their
code is about what may be released, answered or signed when something fails half-way. This project models that code and
proves what it keeps.

`dafny verify dfyconfig.toml` checks everything.

## What is modelled

**Crash-safe funding** (`Outpoints`, `Records`, `Worlds`, `Adapter`, `Lifecycle`, `Transcripts`, `FundingRun`,
`OpenChannel`, `MultiOpenChannel`, `SpliceIn`, `Releases`, `Evidence`, `Recovery`, `CrashRuns`, `JournalLocking`,
`OperationThreads`, `Leases`).
A `World` holds what survives a crash, namely the journal file, JoinMarket's lease store and whether the transaction has
been handed to the network, and keeps every durable state it passes through. Each atomic step must lead to a state that
satisfies `Good`, so a crash at any step is a restart from any element of the history. The three operations are the
code's own branches with every external call free to take effect or not and to answer, raise or never return, journal
writes included; a renewal worker and other processes take any number of steps in between. A `Fate` passed to a method
is one such outcome, chosen freely by its callers. `CrashRuns.Life` puts a run, a crash and any number of crashing
recoveries together. `Releases` is the release loop of a recovery by itself.

A run also keeps a log of what it asked of Core Lightning and was told. `Transcripts` says which logs are in order, what
they leave open at Core Lightning, and so what may be handed over or given back; the three operations answer for their
logs. `Evidence` says the same of the answers a recovery goes by.

`JournalLocking` refines the journal's single step into load, change and replace under its two locks, and
`UpdatesAreSerial` says when the two come to the same; `OperationThreads` says for which runs of the operations that is
so: for all but those in which the closing of an adapter is interrupted while its worker is writing.

**The rendezvous** (`RendezvousSpec`, `RendezvousQueues`, `RendezvousReplies`, `RendezvousAnswers`, `RendezvousWatchers`,
`RendezvousWaiters`, `RendezvousProgress`, `Rendezvous`, `Proxy`). `RendezvousSpec` is a transition system: a locked section is one step, and what it delivers after
letting go of the lock becomes tasks taken up later in any order. Five modules prove invariants of all its runs, and
`RendezvousProgress` what a call achieves in whatever state one has come to.
`Rendezvous` is the object with its loops, each method proved equal to its step; `Proxy` adds the response sink of a
PeerSwap connection that may drop at any moment.

**Splice PSBTs and signing** (`Encodings`, `Psbts`, `Splices`, `SpliceInputs`, `Signing`, `SpliceSigning`). PSBTs are structured records
after BIP 174 and BIP 370, serial ids follow the even-parity rule for initiators in "Interactive Transaction
Construction" of BOLT #2. The wallet that signs may answer anything.

**Planning** (`Planner`, `Selection`, `SweepFees`) and **prepared PeerSwap transactions** (`PeerSwap`).

## Hypotheses

- `Setting.truthful` says that a call that answers has taken effect and that a funding reported as broadcast is. Only the
  last claim about a completed operation, that its transaction is out, needs it.
- Owner tokens and request ids are random; nobody else uses this operation's tokens, and ids are new.
- Core Lightning never reports a transaction that was sent as still withheld, and the spender lookups of the Bitcoin
  backend are truthful about sent inputs; `get_transaction` may miss anything.
- The wallet's selector returns different coins of the pool worth the target, or raises.

## Where the code differs from what is promised

- The repository's `README.md:913` says that a successful PeerSwap broadcast releases the JoinMarket locks; the code keeps
  them until their lease ends (`jmlightning/src/jmlightning/operations/peerswap.py:467-474`), and so does the model.
- A PeerSwap transaction whose broadcast took effect but was not confirmed to the caller stays PREPARED, so a later
  discard or close gives its coins back. `PeerSwap.LostAnswer` shows it, and the contract of
  `PeerSwap.PreparedPeerSwapTransaction.Discard` says exactly when it happens, also for a discard that fails half-way.
- A `lock` that fails after JoinMarket granted the lease (the call raised all the same, the journal write after it failed,
  or an interruption came before the caller noted the coin) leaves a lease that cleanup does not give back and whose record
  it drops. `Durable.stray` marks exactly these runs; the cover holds for every other lease, and `CrashRuns.FailedLock`
  carries each of these failures out.
- A cancellation watcher that registers after the answer was accepted may be told completed although the delivery fails,
  if it comes before that failure is recorded: `RendezvousWatchers.LateWatcherHearsTheTruth`, and the runs
  `LateWatcherMayBeMisled` and `LateWatcherMayComeBetween`.
- `release_lifetime` takes no thread lock, so a lifetime lock given up while another thread of the process updates the
  journal can lose an edit: `JournalLocking.HarmlessExactly` gives the exact condition. The operations meet it whenever
  closing the adapter joins the worker; a cancellation of that join is caught nowhere, and then they may not:
  `OperationThreads.OperationsAreSerial` and `CancelledJoinLosesAnUpdate`.
- A run interrupted while it waits for the answer to `fundchannel_start` or `splice_init` gives its coins back although
  Core Lightning may hold the channel open: `Transcripts.CutAtStart` is that case in the contracts of the operations, and
  `CrashRuns.InterruptedStart` carries it out.
- A PeerSwap record interrupted during release is refused afterwards: `Releases.InterruptedPeerSwapRecordIsRefused`.
- A sweep requires all its coins in every round, so with two or more the first round is refused:
  `SpliceInputs.SweepOfTwoIsRefused`. The allocation loop is proved without that call.
- The broadcast test of a failed multi-channel completion iterates over peer names and never fires
  (`jmlightning/src/jmlightning/operations/multi_open_channel.py:347-350`); nothing has been sent at that point.

## Model

| member | source | states |
|---|---|---|
| CrashRuns.Life | jmlightning/src/jmlightning/operations/open_channel.py:271-640 | every run of open, multi-open or splice-in, stopped at any step, followed by any number of recoveries each stopped at any step: in every durable state no effective release of an input of a transaction already sent, and every lease of the operation listed with its token or its transaction through, save one granted by a `lock` that failed; a record that is gone leaves no other lease unless the transaction is through |
| CrashRuns.FailedLock | jmlightning/src/jmlightning/adapters/joinmarket.py:385-414 | that exception, exactly: of all ways in which a `lock` can fail with nobody interfering, just those in which the lease was granted all the same (the call raised after taking effect, the write after it failed, the caller never noted the coin) end, after a cleanup without error, with the lease running and no record of it |
| CrashRuns.InterruptedStart | jmlightning/src/jmlightning/operations/lifecycle.py:85-130 | the exception in giving back is real: a run that locks its coin without trouble and is interrupted after CLN answered `fundchannel_start` ends with every lease given back, no record, and the channel open |
| OpenChannel.Execute | jmlightning/src/jmlightning/operations/open_channel.py:271-640 | a whole run keeps every durable state good and adds no release once the transaction is sent; every call to CLN is made in its turn and a transaction that is out was handed over; it completes only after a hand-over that was answered, or tried and then reported out; coins are given back only if, by the log of calls, nothing is left open at CLN or the run was interrupted before its channel open was answered; with nothing left open and a cleanup that works they all are |
| Transcripts.BeforeHandOver | jmlightning/src/jmlightning/operations/open_channel.py:296-498 | in every run of `Execute`: whatever is handed over comes after an answered start and then an answered completion with that very transaction, on the user's word, for every peer |
| Transcripts.RenewedBefore | jmlightning/src/jmlightning/operations/open_channel.py:289-500 | whatever but a cancel is asked of CLN comes right after all leases were renewed, or in a loop of starts or completions begun right after it |
| Transcripts.BeforeSpliceSigned | jmlightning/src/jmlightning/operations/splice.py:526-693 | what a splice hands over is what the wallet signed of the PSBT that CLN, asked for an update of this channel, last reported as secured, on the user's word |
| Transcripts.ClosedMeans | jmlightning/src/jmlightning/operations/open_channel.py:350-412 | whatever may have opened a channel, a channel not left open was closed after it: by an answered cancel, or found absent before any hand-over was tried |
| Transcripts.InOrderAt | jmlightning/src/jmlightning/operations/open_channel.py:296-498 | in a log that is in order every single call has had what must come before it |
| OpenChannel.Start | jmlightning/src/jmlightning/operations/open_channel.py:296-412 | whichever way it ends, the log of calls is in order and coins may be freed exactly if it leaves nothing open at CLN or was interrupted before the start was answered; phases move legally; it completes only in BROADCAST |
| OpenChannel.Complete | jmlightning/src/jmlightning/operations/open_channel.py:418-491 | the same from the completion on: the signed transaction cannot be sent without the answered completion |
| OpenChannel.AfterFailedSend | jmlightning/src/jmlightning/operations/open_channel.py:504-570 | after a send of unknown outcome the coins are freed exactly if CLN said that it still withholds the funding and then answered the cancel; completes only in BROADCAST |
| OpenChannel.Send | jmlightning/src/jmlightning/operations/open_channel.py:491-588 | a transaction that is out is named by the record, next to its inputs; coins may be freed only if it is not |
| MultiOpenChannel.Execute | jmlightning/src/jmlightning/operations/multi_open_channel.py:215-490 | the same for several channels funded by one transaction: it is handed over only once every channel is completed with it, and coins are given back only if no channel is left open or the run was interrupted before all were started; no destination, or one named twice, is refused before anything is written |
| MultiOpenChannel.StartAll | jmlightning/src/jmlightning/operations/multi_open_channel.py:225-262 | stays LOCKED and sends nothing; goes on only if every start answered |
| MultiOpenChannel.CancelStarted | jmlightning/src/jmlightning/operations/multi_open_channel.py:491-499 | asks for every cancel in turn; exactly those that failed are counted, and exactly their channels are left open by the log of calls; an interruption leaves its channel open; nothing is sent or released |
| MultiOpenChannel.FundingStates | jmlightning/src/jmlightning/operations/multi_open_channel.py:501-512 | asks every peer: the states are the last ones reported, there are exactly as many errors as peers that could not be asked, and the answers are in the log |
| MultiOpenChannel.AfterFailedComplete | jmlightning/src/jmlightning/operations/multi_open_channel.py:344-369 | although the broadcast test there looks at the keys: coins may be freed only if nothing was sent, and recovery is asked for only with the coins kept |
| MultiOpenChannel.AfterFailedSend | jmlightning/src/jmlightning/operations/multi_open_channel.py:389-439 | never completes; frees the coins exactly if every peer said withheld and every cancel then answered |
| MultiOpenChannel.CancelAllAndFree | jmlightning/src/jmlightning/operations/multi_open_channel.py:281-313 | frees the coins exactly if every cancel answered, and asks for recovery only with an error |
| MultiOpenChannel.CompleteAll | jmlightning/src/jmlightning/operations/multi_open_channel.py:319-370 | renews the leases first, and goes on only once every channel is completed with this transaction |
| MultiOpenChannel.AskAll | jmlightning/src/jmlightning/operations/multi_open_channel.py:389-439 | whatever the answers, keeping the coins is right; only if every peer was asked and none said more than withheld may the channels be cancelled, and then nothing is sent |
| SpliceIn.Execute | jmlightning/src/jmlightning/operations/splice.py:312-834 | the same for a whole splice-in: what is handed over is what the wallet signed of the PSBT CLN reported as secured, and coins are given back only if no splice was begun or the run was interrupted before the answer to `splice_init` |
| SpliceIn.Initiate | jmlightning/src/jmlightning/operations/splice.py:333-383 | completes only in SIGNED; recovery is asked for only with the coins kept; nothing is released |
| SpliceIn.AddCoins | jmlightning/src/jmlightning/operations/splice.py:384-524 | from here on nothing is released; SIGNED exactly if the splice completes |
| SpliceIn.Negotiate | jmlightning/src/jmlightning/operations/splice.py:526-616 | any number of update rounds, each phase change legal, nothing released or sent; it goes on only with the PSBT that CLN reported as secured in its latest answer |
| SpliceIn.Submit | jmlightning/src/jmlightning/operations/splice.py:663-785 | SIGNED exactly if it completes; a transaction that is out is named by the record next to its inputs; nothing is released |
| SpliceIn.Sign | jmlightning/src/jmlightning/operations/splice.py:641-662 | only a secured PSBT the user agreed to is given to the wallet, and only what it signed is submitted |
| FundingRuns.FundingRun.ReserveInputs | jmlightning/src/jmlightning/operations/open_channel.py:271-294 | on success exactly the selected coins are locked, known and in phase LOCKED; nothing has been sent or released either way |
| FundingRuns.FundingRun.RenewLocks | jmlightning/src/jmlightning/adapters/joinmarket.py:548-563 | a renewal is logged only if it succeeded: then every coin is ours in each durable state until a full TTL after the first |
| FundingRuns.FundingRun.KeepLocked | jmlightning/src/jmlightning/operations/open_channel.py:279-294 | the coins are ready only with the worker started and all leases renewed; with nothing failing they are |
| FundingRuns.FundingRun.Call | jmlightning/src/jmlightning/recovery.py:315-338 | a call that is not due cannot be made; it is logged with what CLN and the caller learned of it; between any two of its steps others may act and the run may stop; releases nothing, and sends only if it hands over a transaction already named, with the coins kept |
| FundingRuns.FundingRun.HandOver | jmlightning/src/jmlightning/operations/open_channel.py:493-503 | possible only with the coins kept and the record naming the transaction; afterwards the cover still holds |
| FundingRuns.FundingRun.CancelAndFree | jmlightning/src/jmlightning/operations/open_channel.py:385-412 | the coins become free exactly if the cancel answered, and exactly then the log leaves nothing open |
| FundingRuns.FundingRun.Finish | jmlightning/src/jmlightning/operations/lifecycle.py:85-130 | releases nothing of a sent transaction and nothing at all if the coins are kept; then the record stays unless the phase is terminal; a cleanup in which nothing fails gives every coin back and drops the record; a stray lease is never given back |
| FundingRuns.FundingRun.UnlockAll | jmlightning/src/jmlightning/operations/lifecycle.py:94-107 | without errors no owner token is left but that of a stray lease; never after sending |
| FundingRuns.StartRun | jmlightning/src/jmlightning/recovery.py:219-240 | a fresh record is on disk before anything is locked |
| Lifecycles.OperationLifecycle.Transition | jmlightning/src/jmlightning/operations/lifecycle.py:40-83 | moves exactly along the allowed edges and changes nothing otherwise; the operations above assert that each of their moves is legal |
| Lifecycles.TerminalPhasesAreFinal | jmlightning/src/jmlightning/operations/lifecycle.py:43-78 | no path of allowed moves leaves BROADCAST or DISCARDED |
| Adapters.JoinMarketAdapter.Lock | jmlightning/src/jmlightning/adapters/joinmarket.py:362-414 | on success the coin is held exclusively for a full TTL under a token the adapter and the record know; on failure nothing of ours is unknown but a lease granted all the same, which is marked stray exactly then; a coin already locked is refused |
| Adapters.JoinMarketAdapter.Reserve | jmlightning/src/jmlightning/adapters/joinmarket.py:400-414 | asked for only with the token on record; success adds exactly this outpoint and token, held for a full TTL; a failure leaves a stray lease exactly if the lease was granted |
| Adapters.JoinMarketAdapter.Unlock | jmlightning/src/jmlightning/adapters/joinmarket.py:565-600 | never after sending; the token is forgotten only when no lease carries it, so a failed release can be retried |
| Adapters.JoinMarketAdapter.Renew | jmlightning/src/jmlightning/adapters/joinmarket.py:509-546 | success only for a live lease of this very token, which then runs a full TTL |
| Adapters.JoinMarketAdapter.RenewLocks | jmlightning/src/jmlightning/adapters/joinmarket.py:548-563 | on success every listed coin stays exclusively held until a full TTL after the first of the renewals, with the worker and others interfering in between |
| Adapters.JoinMarketAdapter.RenewAndProceed | jmlightning/src/jmlightning/adapters/joinmarket.py:548-563 | after a successful renewal every listed coin is its owner's in each durable state the worker and other processes lead through, until that TTL has passed |
| Adapters.JoinMarketAdapter.WorkerStep | jmlightning/src/jmlightning/adapters/joinmarket.py:451-493 | each atomic step of the renewal worker releases nothing and keeps the cover, although it reads the owner map twice before writing |
| Adapters.JoinMarketAdapter.Interfere | jmlightning/src/jmlightning/adapters/joinmarket.py:472-493 | any number of steps of the worker and of other processes: no lease of ours appears, is cut short or goes unrecorded, from each durable state to the next |
| Adapters.JoinMarketAdapter.JournalCurrent | jmlightning/src/jmlightning/adapters/joinmarket.py:98-117 | writing the record from two separate reads of the owner map loses no lease and releases nothing |
| Adapters.JoinMarketAdapter.StartLockRenewal | jmlightning/src/jmlightning/adapters/joinmarket.py:416-449 | on success with coins held the worker runs; nothing is released |
| Adapters.JoinMarketAdapter.Close | jmlightning/src/jmlightning/adapters/joinmarket.py:190-197 | no worker runs afterwards |
| Adapters.RecoveryJournal.Update | jmlightning/src/jmlightning/recovery.py:242-259 | changes one record, replaces the file as one step or not at all, whether or not it then raises; fails for an unknown id |
| Adapters.RecoveryJournal.Write | jmlightning/src/jmlightning/recovery.py:196-217 | the file before or the file after, nothing in between |
| Adapters.RecoveryJournal.Resolve | jmlightning/src/jmlightning/recovery.py:307-310 | removes exactly the records with that id |
| Leases.OnlyTheOwnerEndsALease | jmlightning/src/jmlightning/adapters/joinmarket.py:385-405 | among any actions of others a lease stays its owner's until it runs out: at most one live owner at a time |
| Leases.StaleOwnerIsHarmless | jmlightning/src/jmlightning/adapters/joinmarket.py:584-610 | releases and renewals under a replaced token change nothing |
| Worlds.ReleaseIsGood | jmlightning/src/jmlightning/adapters/joinmarket.py:584-600 | a compare-and-release that is not of a sent input keeps every invariant |
| Records.IdentityIsNeverCleared | jmlightning/src/jmlightning/recovery.py:261-305 | after any sequence of mutations txid and psbt are the last ones passed; mutations that omit them clear neither |
| Records.CodecRoundTrip | jmlightning/src/jmlightning/recovery.py:48-115 | a record written to a dictionary and read back is the same record |
| Records.TokensRoundTrip | jmlightning/src/jmlightning/recovery.py:102-111 | the text map of owner tokens reads back from the dictionary |
| Releases.OwnersRoundTrip | jmlightning/src/jmlightning/recovery.py:272-273 | the owner of every outpoint survives the trip through printed keys, the dictionary and recovery's parsing |
| Records.FileRoundTrip | jmlightning/src/jmlightning/recovery.py:182-217 | a file written record by record loads as the same records; one bad record and nothing loads |
| Records.LookupOfUpdated | jmlightning/src/jmlightning/recovery.py:242-258 | an update changes its record by exactly the changes passed |
| Records.LookupOther | jmlightning/src/jmlightning/recovery.py:242-258 | and no other record |
| Outpoints.MakeOutpoint | jmlightning/src/jmlightning/models.py:8-19 | exactly non-empty ids and non-negative indices are outpoints |
| Outpoints.ParseInvertsPrint | jmlightning/src/jmlightning/recovery.py:508-525 | splitting the printed form at its last colon gives the outpoint back, for every txid, colons included, and every index |
| Outpoints.PrintIsInjective | jmlightning/src/jmlightning/models.py:21-22 | different outpoints print differently, so owner tokens cannot collide |
| JournalLocking.UpdatesAreSerial | jmlightning/src/jmlightning/recovery.py:131-180 | in every interleaving in which no process gives its lifetime lock up while a thread of it is between entering an update and its commit, the file is the committed edits applied whole in the order of their commits |
| JournalLocking.HarmlessExactly | jmlightning/src/jmlightning/recovery.py:171-180 | a release of the lifetime lock is harmless to every continuation if and only if no thread of the process is between entering an update and its commit |
| JournalLocking.EarlyReleaseLosesAnUpdate | jmlightning/src/jmlightning/recovery.py:133-180 | otherwise, whichever thread it is and whatever two edits are made, a run exists in which the later commit overwrites the earlier one |
| OperationThreads.OperationsAreSerial | jmlightning/src/jmlightning/operations/open_channel.py:600-641 | any number of operations with their renewal workers: no update is lost unless a cleanup cut short gives the lock up while the worker is in mid-update |
| OperationThreads.UninterruptedIsGentle | jmlightning/src/jmlightning/operations/lifecycle.py:85-118 | without an interruption of the cleanup that never happens: closing joins the worker before the lock goes |
| OperationThreads.ReleaseIsHarmless | jmlightning/src/jmlightning/adapters/joinmarket.py:495-507 | the guard in the operation's terms: it holds after every join, and after a cut exactly if the worker is not in mid-update |
| OperationThreads.CancelledJoinLosesAnUpdate | jmlightning/src/jmlightning/adapters/joinmarket.py:495-507 | the input that breaks it: a join cancelled while the worker has the file loaded, and the next operation's update is lost |
| JournalLocking.RecordSeesOnlyItsOwnChanges | jmlightning/src/jmlightning/recovery.py:242-259 | a record is its own committed changes applied in order, whatever else was written |
| JournalLocking.TxidSurvivesInterleaving | jmlightning/src/jmlightning/recovery.py:242-305 | a recorded txid or psbt is the last one passed, in every such interleaving |
| Recovery.RecoveryManager.ReconcileAll | jmlightning/src/jmlightning/recovery.py:355-375 | every durable state stays good through a recovery of all records; exactly the settled ones are gone from the file and exactly those settled now are reported |
| Recovery.RecoveryManager.Reconcile | jmlightning/src/jmlightning/recovery.py:428-526 | settles a record only on the answers that allow it: a PeerSwap transaction confirmed; for any other, the transaction unknown to Bitcoin if it has an id and every peer or channel of the record absent at CLN; with these answers, a complete record and nothing failing on the way it does settle; one left pending was not cleared and nothing of it is touched; settled means no lease of the operation is left but a stray one |
| Recovery.RecoveryManager.BitcoinHasTransaction | jmlightning/src/jmlightning/recovery.py:377-416 | present exactly if the transaction is known or a recorded input reported spent; absent exactly if it is unknown and every recorded input was reported unspent, so never for a sent transaction; a light client cannot tell |
| Recovery.RecoveryManager.CLNStatus | jmlightning/src/jmlightning/recovery.py:528-564 | absent exactly if CLN was asked about everyone the record names and knows of nothing with any of them |
| Recovery.RecoveryManager.Judge | jmlightning/src/jmlightning/recovery.py:428-500 | the release is allowed exactly on clearing answers, and then no recorded input belongs to a sent transaction |
| Evidences.SubjectsOfRecords | jmlightning/src/jmlightning/operations/open_channel.py:78-90 | the record each operation writes names exactly the peers, or the channel, CLN is asked about |
| Recovery.RecoveryManager.ReleaseAll | jmlightning/src/jmlightning/recovery.py:501-526 | on success nothing is leased under a recorded token any more; wherever it ends, the journal and the leases are what a first part of the loop, in some order of the keys, and the moves of others make of them |
| Recovery.RecoveryManager.ReleaseOne | jmlightning/src/jmlightning/recovery.py:508-525 | one turn: write ahead, then compare-and-release of that outpoint |
| Releases.EncodeInvertsDecode | jmlightning/src/jmlightning/recovery.py:515-519 | rebuilding outpoints from the recorded keys and printing them again changes nothing |
| Releases.ReleaseChangesKeepIdentity | jmlightning/src/jmlightning/recovery.py:510-524 | the write ahead of a release keeps txid, psbt, inputs and tokens |
| Releases.ResumedRecoveryEndsAlike | jmlightning/src/jmlightning/recovery.py:501-526 | a release loop cut after any number of durable steps and run again in any order, with other processes acting before, between and after: leases still held by their recorded tokens gone, all others as the others left them, the record gone, as after one loop never cut |
| CrashRuns.StopAndResume | jmlightning/src/jmlightning/recovery.py:501-526 | the same of the manager's own loop, stopped wherever a step fails and run again on what it left |
| Releases.InterruptedPeerSwapRecordIsRefused | jmlightning/src/jmlightning/recovery.py:430-467 | a PeerSwap record is eligible again exactly if it was cut before its first write |
| RendezvousQueues.QueuesInEveryRun | jmpeerswap/src/jmpeerswap/rendezvous.py:64-132 | in every run: the unassigned queue is exactly the queued requests, never both queues non-empty, both pools within the bound |
| RendezvousQueues.FirstComeFirstServed | jmpeerswap/src/jmpeerswap/rendezvous.py:369-391 | the k-th waiter gets the k-th request not dropped while queued, each at most once |
| RendezvousQueues.NoWaiterIsLost | jmpeerswap/src/jmpeerswap/rendezvous.py:369-391 | while running, each waiter that arrived has work or is in line |
| RendezvousQueues.MatchesAtMostOnce | jmpeerswap/src/jmpeerswap/rendezvous.py:369-391 | between two sections matching meets no stale id: that branch is unreachable |
| RendezvousReplies.OneReplyPerRequest | jmpeerswap/src/jmpeerswap/rendezvous.py:83-132 | in every run a sink is called at most once and with its own peer id (section 5 of JSON-RPC 2.0); one reply made or due for a request that left, none for a cancelled or outstanding one, one for a refused submit |
| RendezvousWaiters.OneOutcomePerWaiter | jmpeerswap/src/jmpeerswap/rendezvous.py:64-81 | in every run, for every wait call, refused ones included: nothing is made or due for it while it is in line and exactly one outcome afterwards, work or failure; work is of the very request it was matched with |
| RendezvousWaiters.OneOutcomePerWatcher | jmpeerswap/src/jmpeerswap/rendezvous.py:134-200 | a watch call that is not registered is turned away, or told what is remembered, exactly once; a registered one never by that way |
| RendezvousWaiters.CallsInEveryRun | jmpeerswap/src/jmpeerswap/rendezvous.py:64-447 | the counts this rests on hold in every reachable state |
| RendezvousWaiters.CountFails | jmpeerswap/src/jmpeerswap/rendezvous.py:353-354 | stopping fails each waiter in line once |
| RendezvousProgress.WaitIsTakenUp | jmpeerswap/src/jmpeerswap/rendezvous.py:64-81 | in every reachable state a client gets the oldest queued request, or stands last in line; it is failed exactly if the rendezvous is stopped or the line is full |
| RendezvousProgress.SubmitIsTakenUp | jmpeerswap/src/jmpeerswap/rendezvous.py:83-132 | in every reachable state a request goes to the first client in line, or last into the queue; it is refused exactly if the rendezvous is stopped or the table is full |
| RendezvousProgress.WatchIsTakenUp | jmpeerswap/src/jmpeerswap/rendezvous.py:154-191 | a watcher is registered exactly on an assigned request nobody watches; of a remembered one it is told at once, of any other it is refused |
| RendezvousProgress.AnswerIsTakenUp | jmpeerswap/src/jmpeerswap/rendezvous.py:235-270 | an answer is taken exactly for an assigned request, goes to the sink it came with, and is remembered as completed for the timeout |
| RendezvousProgress.CancelIsTakenUp | jmpeerswap/src/jmpeerswap/rendezvous.py:286-329 | in every reachable state a closed connection takes its request out, and out of the queue, whatever its phase; exactly its watcher hears of it |
| RendezvousProgress.ExpiryIsTakenUp | jmpeerswap/src/jmpeerswap/rendezvous.py:405-447 | in every reachable state a timeout takes out exactly a queued request, with the timeout error to its sink |
| RendezvousReplies.RepliesInEveryRun | jmpeerswap/src/jmpeerswap/rendezvous.py:202-447 | the count of replies made and due that this rests on holds in every reachable state |
| RendezvousWatchers.WatcherHearsOnce | jmpeerswap/src/jmpeerswap/rendezvous.py:134-200 | a watcher registered on an assigned request is told once, completed if and only if the answer reached PeerSwap, else cancelled; until then it is attached or its result is due |
| RendezvousWatchers.WatchersInEveryRun | jmpeerswap/src/jmpeerswap/rendezvous.py:235-447 | the invariant behind it in every reachable state |
| RendezvousWatchers.TimeoutSparesAssigned | jmpeerswap/src/jmpeerswap/rendezvous.py:405-422 | a request once assigned is never touched by the queue timeout |
| RendezvousWatchers.LateWatcherHearsTheTruth | jmpeerswap/src/jmpeerswap/rendezvous.py:173-191 | a watcher that comes after the answer is told at once what is remembered; over the whole run that is how the answer ends up, if and only if it does not fail or its failure was recorded when the watcher came |
| RendezvousWatchers.LateWatcherMayBeMisled | jmpeerswap/src/jmpeerswap/rendezvous.py:173-272 | a run in which such a watcher is told completed and the answer then fails |
| RendezvousWatchers.LateWatcherMayComeBetween | jmpeerswap/src/jmpeerswap/rendezvous.py:270-272 | and one in which it comes between the failure and its recording |
| RendezvousWatchers.AnswerIsTried | jmpeerswap/src/jmpeerswap/rendezvous.py:270-272 | an answer is tried once: it has arrived, or its failure is next to be recorded |
| RendezvousAnswers.AnswersInEveryRun | jmpeerswap/src/jmpeerswap/rendezvous.py:202-284 | in every reachable state an answer given is in exactly one place: on its way, arrived, failed without record, or failed and recorded; it has failed exactly in the last two |
| Rendezvous.PeerSwapRendezvous.constructor | jmpeerswap/src/jmpeerswap/rendezvous.py:41-52 | starts empty and running |
| Rendezvous.PeerSwapRendezvous.PurgeTerminal | jmpeerswap/src/jmpeerswap/rendezvous.py:54-62 | forgets exactly what is outdated |
| Rendezvous.PeerSwapRendezvous.Wait | jmpeerswap/src/jmpeerswap/rendezvous.py:64-81 | refines the waiting section |
| Rendezvous.PeerSwapRendezvous.Submit | jmpeerswap/src/jmpeerswap/rendezvous.py:83-132 | refines the submitting section; an id exactly if there is room and it runs |
| Rendezvous.PeerSwapRendezvous.WaitCancel | jmpeerswap/src/jmpeerswap/rendezvous.py:154-191 | refines the watching section |
| Rendezvous.PeerSwapRendezvous.Respond | jmpeerswap/src/jmpeerswap/rendezvous.py:235-253 | refines the answering section; accepted exactly for an assigned request |
| Rendezvous.PeerSwapRendezvous.Cancel | jmpeerswap/src/jmpeerswap/rendezvous.py:286-319 | refines the cancelling section |
| Rendezvous.PeerSwapRendezvous.Withdraw | jmpeerswap/src/jmpeerswap/rendezvous.py:301-314 | takes the request out of table and queue, into memory only if it was assigned |
| Rendezvous.PeerSwapRendezvous.Stop | jmpeerswap/src/jmpeerswap/rendezvous.py:331-367 | refines stopping: every waiter, watcher and request is answered, each once by the counts over all runs |
| Rendezvous.PeerSwapRendezvous.MatchLocked | jmpeerswap/src/jmpeerswap/rendezvous.py:369-391 | the loop computes the pairing of the two queues |
| Rendezvous.PeerSwapRendezvous.ExpireRequest | jmpeerswap/src/jmpeerswap/rendezvous.py:405-422 | refines expiry: only queued requests |
| Rendezvous.PeerSwapRendezvous.Deliver | jmpeerswap/src/jmpeerswap/rendezvous.py:255-284 | what a thread does after letting go of the lock, one statement at a time: the response, the recording of its failure, the watcher's result |
| Proxy.ProxyResponse.SetDisconnectHandler | jmpeerswap/src/jmpeerswap/proxy.py:34-42 | registers, or hands the callback back to run now if the connection is gone |
| Proxy.ProxyResponse.Disconnect | jmpeerswap/src/jmpeerswap/proxy.py:44-52 | takes the handler once |
| Proxy.DisconnectRunsOnce | jmpeerswap/src/jmpeerswap/plugin.py:556-561 | whenever the connection drops, the callback runs at most once, never before the drop, has run or is about to once registered, and afterwards the request is gone for good whatever removed it |
| Proxy.GoneStaysGone | jmpeerswap/src/jmpeerswap/rendezvous.py:286-314 | a request that left the table never comes back |
| Planner.PlansAreSound | jmlightning/src/jmlightning/planner.py:55-142 | every plan over distinct coins has inputs, passes the builder's check, has change zero or at least dust, funding outputs summing to the amount, and the rounded-up fee |
| Planner.WhenAPlanExists | jmlightning/src/jmlightning/planner.py:67-119 | a plan exists exactly for well-formed targets the coins can pay with the fee, leaving no dust |
| Planner.FundingTxOutputs | jmlightning/src/jmlightning/tx_builder.py:133-150 | one funding output, change behind it, inputs minus outputs is the fee; refused exactly for an invalid plan or missing change address |
| Planner.MultifundingTxOutputs | jmlightning/src/jmlightning/tx_builder.py:229-259 | one output per channel in the plan's order, then change; inputs minus outputs is the fee |
| Planner.PlanAndBuild | jmlightning/src/jmlightning/planner.py:55-142 | planning and building together: every target paid with the output type asked for, fee at least size times rate for the inputs and outputs the transaction has |
| Planner.PlansAreSized | jmlightning/src/jmlightning/planner.py:87-100 | a plan's size is that of its coins, segwit script or key, its funding outputs and, unless everything is swept, one change output |
| Planner.WhyNoPlan | jmlightning/src/jmlightning/planner.py:104-119 | funds are insufficient exactly if the coins do not cover amounts and fee, and dust is refused exactly if it would be left |
| Selection.SelectForOpen | jmlightning/src/jmlightning/operations/open_channel.py:189-255 | terminates with the one outcome the rounds lead to, sweep included: a plan is sound, pays exactly the amount asked for from coins the policy permits; not permitted is answered only for a selection the wallet returned and the policy refuses, not plannable only for one whose plan fails so; never insufficient funds |
| Selection.SelectForMultiOpen | jmlightning/src/jmlightning/operations/multi_open_channel.py:67-199 | the same although the estimate truncates: the growing reserve puts every target out of reach of the last coins; amounts and rates that are not positive are refused before any coin is asked for |
| Selection.SelectForSplice | jmlightning/src/jmlightning/operations/splice.py:219-296 | the same for exactly one coin, which also pays for the larger splice |
| Selection.PlanSplice | jmlightning/src/jmlightning/operations/splice.py:250-296 | the coin pays, or the next target is out of its reach |
| Selection.OutcomeIsUnique | jmlightning/src/jmlightning/operations/open_channel.py:189-255 | the rounds lead to one outcome only: the selector's refusal of a target rightly asked for, or the verdict that ends them |
| Selection.OutcomeIsJustified | jmlightning/src/jmlightning/operations/open_channel.py:189-255 | whatever a search comes to: a plan is of permitted coins the wallet selected, sound and with exactly the outputs asked for; each refusal is of a selection that deserves it |
| Selection.NextTargetIsEnough | jmlightning/src/jmlightning/operations/open_channel.py:235-255 | what is asked for next is enough for coins of the same kinds, and for one channel and PeerSwap no more than enough |
| Selection.SelectAll | jmlightning/src/jmlightning/operations/open_channel.py:170-186 | a sweep takes the whole pool, refused exactly if there is none, the policy says no or no plan exists |
| Selection.Retry | jmlightning/src/jmlightning/operations/open_channel.py:235-255 | the next target is out of reach of the coins just tried, so they are not those tried before |
| Selection.MultiTargetIsOutOfReach | jmlightning/src/jmlightning/operations/multi_open_channel.py:149-158 | truncated estimate plus reserve is at least amounts and fee of the last coins |
| Selection.SelectForPeerSwap | jmlightning/src/jmlightning/operations/peerswap.py:702-756 | the same for PeerSwap's outputs, refused beforehand if not positive |
| Selection.NeverTheSame | jmlightning/src/jmlightning/operations/open_channel.py:235-236 | a selection worth a raised target is not the last one |
| Selection.Shortfall | jmlightning/src/jmlightning/planner.py:104-114 | funds are insufficient only if the coins do not cover amounts and fee |
| Selection.SameCoinsSameWorth | jmlightning/src/jmlightning/operations/open_channel.py:220-236 | the same set of outpoints is worth the same |
| SweepFees.SpreadSweepFee | jmlightning/src/jmlightning/operations/splice.py:444-490 | goes through exactly if the fee does not exceed what the coins can spare; then each coin has a valid plan of its own, the plans' fees sum to the fee and their amounts to everything but the fee |
| SweepFees.AllocateFee | jmlightning/src/jmlightning/operations/splice.py:453-468 | each plan takes all its coin can spare of what earlier ones left; what remains is the fee beyond the spare total |
| SweepFees.OrderDoesNotMatter | jmlightning/src/jmlightning/operations/splice.py:445-449 | sorting changes neither worth nor spare |
| SweepFees.SpareOfPositiveCoins | jmlightning/src/jmlightning/operations/splice.py:201-204 | positive coins can spare all but one satoshi each |
| Splices.AcceptedMeans | jmlightning/src/jmlightning/tx_builder.py:612-704 | accepted exactly if maps match, the approved coins are each spent once at their value, and outputs have one of the two shapes, the final one with the sum of all input values less the outputs within the fee |
| Splices.ShapesExcludeEachOther | jmlightning/src/jmlightning/tx_builder.py:661-681 | the two output multisets exclude each other unless the contribution is zero |
| Splices.ChannelGrowsInPlace | jmlightning/src/jmlightning/tx_builder.py:666-676 | in the final shape the channel output is exchanged for one larger by exactly the contribution |
| Splices.FinalSpliceEconomics | jmlightning/src/jmlightning/tx_builder.py:424-447 | with the value of each input: JoinMarket pays contribution plus maximum fee whatever other inputs there are; the sum of the other values pays the fee above that, never more than nothing |
| Splices.InputTotalMeans | jmlightning/src/jmlightning/tx_builder.py:692-697 | the total exists exactly if every input's records vouch for a value, and is the sum of these values |
| Splices.InputValueMeans | jmlightning/src/jmlightning/tx_builder.py:585-610 | a value is the first eight bytes of the one witness UTXO, or the output with the input's number in the previous transaction of the one non-witness record |
| Splices.RefusedMeans | jmlightning/src/jmlightning/tx_builder.py:681-704 | outputs in neither shape, a fee below zero and one above the maximum are each refused as that and nothing else is |
| Splices.PreMeans | jmlightning/src/jmlightning/tx_builder.py:661-664 | counter equality in the pre shape is multiset equality |
| Splices.FinalMeans | jmlightning/src/jmlightning/tx_builder.py:666-679 | and in the final shape, deleted zero counts included |
| SpliceInputs.AddSpliceInInput | jmlightning/src/jmlightning/tx_builder.py:342-583 | succeeds on exactly the inputs the code asks for, unless all random draws are taken, and returns the PSBT grown by the coin, its evidence and the change, and the agreed terms |
| SpliceInputs.ChannelOutputMeans | jmlightning/src/jmlightning/tx_builder.py:431-447 | the channel output is the only P2WSH output, or else the only output; with neither there is none |
| SpliceInputs.AcceptedAfterAdding | jmlightning/src/jmlightning/tx_builder.py:612-704 | validating what was added always accepts, with and without the coin required |
| SpliceInputs.StillConsistent | jmlightning/src/jmlightning/tx_builder.py:540-571 | map counts, global records and the unsigned transaction still agree, in versions 0 and 2 |
| SpliceInputs.OwnValue | jmlightning/src/jmlightning/tx_builder.py:476-504 | the stored witness UTXO reads back as the coin's value and script, and vouches for the value |
| SpliceSigning.NewInputIsSignable | jmlightning/src/jmlightning/tx_builder.py:476-520 | the input added is one that signing accepts for the coin: both UTXO records vouch for it, it asks for SIGHASH_ALL, names key and derivation, and is unsigned |
| SpliceInputs.SerialsAreFresh | jmlightning/src/jmlightning/tx_builder.py:469-474 | new serial ids are even, non-zero, distinct from each other and from all existing ones |
| SpliceInputs.AgreedIsFromPlan | jmlightning/src/jmlightning/tx_builder.py:573-582 | the terms are those of the plan unless change was due without an address |
| SpliceInputs.SweepOfTwoIsRefused | jmlightning/src/jmlightning/operations/splice.py:476-480 | with a second coin the first round of a sweep is always refused |
| SpliceInputs.NewSerialId | jmlightning/src/jmlightning/lightning/cln.py:53-58 | the first acceptable draw, even, non-zero, below 2^64 and new; none only if every draw is zero or taken |
| SpliceInputs.SerialIds | jmlightning/src/jmlightning/lightning/cln.py:61-71 | all serial ids, or an error exactly for a malformed one |
| Encodings.WitnessUtxoRoundTrip | jmlightning/src/jmlightning/lightning/cln.py:82-89 | value and script survive the record, CompactSize length included |
| Encodings.VarintRoundTrip | jmlightning/src/jmlightning/lightning/cln.py:86-88 | a CompactSize length reads back at any offset |
| Encodings.BigRoundTrip | jmlightning/src/jmlightning/tx_builder.py:519-519 | an eight-byte serial id reads back |
| Signing.SignPsbt | jmlightning/src/jmlightning/tx_builder.py:972-1190 | accepts exactly the faithful answers of a wallet that may answer anything |
| Signing.SignSplicePsbt | jmlightning/src/jmlightning/tx_builder.py:819-896 | returns the source with exactly one verified signature appended to each planned input and nothing else changed |
| SpliceSigning.SignedForTheCoin | jmlightning/src/jmlightning/tx_builder.py:819-896 | whatever the wallet answers, each planned input returned spends its coin, its records give the coin's value and script and a previous transaction paying just that, and it has exactly one signature, by the coin's key, over everything |
| Signing.OtherInputsUntouched | jmlightning/src/jmlightning/tx_builder.py:1086-1125 | inputs not to be signed keep their records |
| Signing.SignedInputGainsOne | jmlightning/src/jmlightning/tx_builder.py:1127-1168 | a signed input keeps its other records and gains one signature that verifies |
| Signing.GlobalsKept | jmlightning/src/jmlightning/tx_builder.py:1040-1080 | globals keep keys and values but for two cleared flag bits in version 2 |
| Signing.CheckSignable | jmlightning/src/jmlightning/tx_builder.py:837-861 | a planned input is unsigned and both its UTXO records vouch for the approved coin |
| Signing.FinaliseInputs | jmlightning/src/jmlightning/psbt.py:25-58 | planned inputs swap their one signature for a witness, others are untouched |
| Signing.FinalisedCarriesWitness | jmlightning/src/jmlightning/psbt.py:44-54 | the last record is a final witness made of the verified signature and the coin's own key; no partial signature is left |
| Signing.WitnessRoundTrip | jmlightning/src/jmlightning/psbt.py:44-47 | the final witness reads back as signature and key |
| PeerSwap.PreparedPeerSwapTransaction.Send | jmlightning/src/jmlightning/operations/peerswap.py:404-495 | refused exactly if it is not PREPARED, the background renewal broke, a coin's renewal is not answered, or the journal cannot be written; never sends a transaction of which a coin was released; never releases; becomes BROADCAST only after it was sent; with nothing in its way it does |
| PeerSwap.PreparedPeerSwapTransaction.RenewReservations | jmlightning/src/jmlightning/operations/peerswap.py:181-184 | succeeds exactly if the transaction is PREPARED, the background renewal sound and every coin's renewal answered under its token with its lease still there; then no coin was ever released or freed |
| PeerSwap.PreparedPeerSwapTransaction.CleanupPrepared | jmlightning/src/jmlightning/operations/peerswap.py:568-618 | retries only coins not released yet and closes the adapter only after all of them |
| PeerSwap.PreparedPeerSwapTransaction.Discard | jmlightning/src/jmlightning/operations/peerswap.py:655-680 | whatever the outcome: goes through exactly if every release still owed answers and the wallet closes; coins of a sent transaction are given back exactly if a PREPARED one had in fact been sent and the cleanup ends a lease still there; never, if no send returned an unknown outcome |
| PeerSwap.PreparedPeerSwapTransaction.Unlock | jmlightning/src/jmlightning/adapters/joinmarket.py:565-600 | a release that raises keeps the token, whether or not the lease is gone |
| PeerSwap.PeerSwapPrepareTxOperation.Session | jmlightning/src/jmlightning/operations/peerswap.py:404-680 | after any sequence of calls with any failures: no coin touched after BROADCAST, none unlocked twice, adapters closed last, nothing sent of which a coin was given back |
| PeerSwap.PeerSwapPrepareTxOperation.Close | jmlightning/src/jmlightning/operations/peerswap.py:620-653 | the same of every transaction in the table: exactly those whose cleanup fails stay, and each gives coins of a sent transaction back on exactly that condition |
| PeerSwap.OnlyUnconfirmedLoseCoins | jmlightning/src/jmlightning/operations/peerswap.py:461-494 | coins of a sent transaction are freed only if it never became BROADCAST |
| PeerSwap.LosingSentCoins | jmlightning/src/jmlightning/operations/peerswap.py:568-595 | the exact condition under which that happens |
| PeerSwap.LostAnswer | jmlightning/src/jmlightning/operations/peerswap.py:447-459 | it does happen: sent, answer lost, discarded |
| OpenChannel.Fund | jmlightning/src/jmlightning/operations/open_channel.py:271-588 | the body from locking on leaves a state fit for cleanup, whichever way it ends, and releases nothing itself |
| OpenChannel.AfterFailedComplete | jmlightning/src/jmlightning/operations/open_channel.py:434-483 | never completes; the coins are freed exactly if the channel is left closed by the log of calls |
| MultiOpenChannel.Fund | jmlightning/src/jmlightning/operations/multi_open_channel.py:215-442 | as for one channel |
| MultiOpenChannel.AfterFailedStart | jmlightning/src/jmlightning/operations/multi_open_channel.py:249-260 | keeps the coins and the phase, and never completes |
| MultiOpenChannel.Prepare | jmlightning/src/jmlightning/operations/multi_open_channel.py:264-370 | from building the transaction on: completes only in BROADCAST, asks for recovery only with the coins kept |
| MultiOpenChannel.Send | jmlightning/src/jmlightning/operations/multi_open_channel.py:372-442 | as for one channel |
| SpliceIn.Fund | jmlightning/src/jmlightning/operations/splice.py:312-785 | as for one channel, with SIGNED as its last phase |
| FundingRuns.FundingRun.LockAll | jmlightning/src/jmlightning/operations/splice.py:312-316 | locks one coin after the other and stops at the first refusal; the coins locked so far are exactly those the adapter knows |
| FundingRuns.FundingRun.JournalBefore | jmlightning/src/jmlightning/recovery.py:261-289 | the record names every coin held, and the transaction if one is passed |
| FundingRuns.FundingRun.RecordSigned | jmlightning/src/jmlightning/operations/splice.py:663-672 | putting the signed splice on record loses no lease and sends nothing |
| FundingRuns.FundingRun.FundingStatus | jmlightning/src/jmlightning/lightning/cln.py:522-606 | withheld is reported only for a transaction that is not out, and the answer is in the log |
| FundingRuns.CreateIsGood | jmlightning/src/jmlightning/recovery.py:228-240 | a new record under a new id keeps every invariant |
| Adapters.JoinMarketAdapter.Free | jmlightning/src/jmlightning/adapters/joinmarket.py:587-600 | compare-and-release: the token is forgotten only when no lease carries it |
| Adapters.JoinMarketAdapter.JournalReservation | jmlightning/src/jmlightning/adapters/joinmarket.py:392-399 | the record names the new outpoint and token next to those held before the lease is asked for |
| Adapters.JoinMarketAdapter.JournalMutation | jmlightning/src/jmlightning/recovery.py:261-289 | on success the record lists every owner passed, the outpoints passed and the txid if one is passed |
| Adapters.JoinMarketAdapter.StoreReserve | jmlightning/src/jmlightning/adapters/joinmarket.py:400-410 | a lease is granted only where none is running, for a full TTL |
| Adapters.JoinMarketAdapter.StoreRenew | jmlightning/src/jmlightning/adapters/joinmarket.py:535-546 | a lease is extended only for the owner it still belongs to |
| Adapters.JoinMarketAdapter.RenewNext | jmlightning/src/jmlightning/adapters/joinmarket.py:562-563 | coins renewed earlier stay held while the next one is renewed |
| Recovery.RecoveryManager.Handle | jmlightning/src/jmlightning/recovery.py:364-370 | a record is dropped exactly if settled: it was marked resolved or its answers cleared it; if nothing fails it is; no other record changes |
| Recovery.RecoveryManager.GiveBack | jmlightning/src/jmlightning/recovery.py:525-525 | one recorded token is given back and no other lease of the operation is touched |
| Recovery.RecoveryManager.WriteAhead | jmlightning/src/jmlightning/recovery.py:510-524 | the write ahead of a release changes no other record and undoes no release |
| Recovery.NothingLeft | jmlightning/src/jmlightning/recovery.py:501-526 | giving back all recorded tokens leaves the operation no lease but a stray one |
| Records.OutpointsRoundTrip | jmlightning/src/jmlightning/recovery.py:48-115 | recorded outpoints read back in order |
| Records.ToDictDescribes | jmlightning/src/jmlightning/recovery.py:48-64 | the dictionary written describes the record field by field |
| RendezvousQueues.NextKeepsQueues | jmpeerswap/src/jmpeerswap/rendezvous.py:64-447 | every step keeps both queues as they should be |
| RendezvousReplies.StopKeepsReplies | jmpeerswap/src/jmpeerswap/rendezvous.py:331-367 | stopping schedules exactly one reply for each outstanding request |
| RendezvousAnswers.NothingDue | jmpeerswap/src/jmpeerswap/rendezvous.py:202-284 | while a request is outstanding no answer to it exists |
| RendezvousAnswers.OnlyAnswer | jmpeerswap/src/jmpeerswap/rendezvous.py:202-284 | an answer on its way, or its recording, is the only one there is |
| Rendezvous.PeerSwapRendezvous.RemoveUnassigned | jmpeerswap/src/jmpeerswap/rendezvous.py:304-307 | removes the first occurrence, ignores an absent id |
| Proxy.HandlerInEveryPlay | jmpeerswap/src/jmpeerswap/proxy.py:34-52 | the handler is in exactly one place, registered, taken up or run, in every reachable state |
| Selection.SelectOnce | jmlightning/src/jmlightning/adapters/joinmarket.py:639-674 | what the wallet selects becomes different pool coins worth the target |
| Selection.PartIsWorthLess | jmlightning/src/jmlightning/operations/open_channel.py:193-202 | a selection is worth no more than the pool |
| Planner.FeeCovers | jmlightning/src/jmlightning/planner.py:102-102 | the fee is the rate times the size, rounded up |
| Splices.CoinMeans | jmlightning/src/jmlightning/tx_builder.py:631-641 | the coin check passes exactly if one input spends the outpoint and its records vouch for the value |
| Splices.RequiredMeans | jmlightning/src/jmlightning/tx_builder.py:643-659 | and for required coins exactly if each passes it |
| Splices.SameMultisetSameSum | jmlightning/src/jmlightning/tx_builder.py:696-697 | output sums depend on the multiset only |
| Splices.FinalSum | jmlightning/src/jmlightning/tx_builder.py:666-697 | final outputs sum to the baseline plus change plus contribution |
| SpliceInputs.CheckParent | jmlightning/src/jmlightning/tx_builder.py:350-377 | passes exactly for a previous transaction that pays the coin |
| SpliceInputs.CheckUnsigned | jmlightning/src/jmlightning/tx_builder.py:379-402 | passes exactly for an unsigned PSBT that does not spend the coin yet |
| SpliceInputs.ReplaceGlobal | jmlightning/src/jmlightning/tx_builder.py:545-571 | changes the first record under the key and nothing else; a missing key is an error |
| SpliceInputs.InputMap | jmlightning/src/jmlightning/tx_builder.py:481-520 | the records of the new input, in order |
| SpliceInputs.GlobalsRecounted | jmlightning/src/jmlightning/tx_builder.py:540-571 | counts or the unsigned transaction are up to date, one replacement not undoing the other |
| Psbts.FindPut | jmlightning/src/jmlightning/tx_builder.py:545-551 | replacing one key leaves every other as it was |
| Encodings.LittleRoundTrip | jmlightning/src/jmlightning/tx_builder.py:476-480 | a little-endian number that fits reads back |
| Encodings.HexRoundTrip | jmlightning/src/jmlightning/tx_builder.py:485-488 | a transaction id survives its hexadecimal form |
| Signing.CheckGlobals | jmlightning/src/jmlightning/tx_builder.py:1041-1080 | passes exactly for globals equal up to the cleared flag bits |
| Signing.CheckInputs | jmlightning/src/jmlightning/tx_builder.py:1086-1168 | passes exactly if each input kept its records and is signed as planned |
| Signing.CheckSignature | jmlightning/src/jmlightning/tx_builder.py:1127-1168 | passes exactly for the coin's own key, a non-empty signature over everything that verifies |
| Signing.GoodSignatureMeans | jmlightning/src/jmlightning/tx_builder.py:1127-1168 | that is: a partial signature under the coin's own key, ending in SIGHASH_ALL, that verifies |
| Signing.CheckIndices | jmlightning/src/jmlightning/tx_builder.py:996-1015 | passes exactly if the wallet names each planned input once |
| Signing.CopySignatures | jmlightning/src/jmlightning/tx_builder.py:879-896 | appends exactly the one verified signature to each planned input |
| Signing.FlagBits | jmlightning/src/jmlightning/tx_builder.py:1071-1077 | clearing takes exactly the two lowest bits |
| Signing.KindsArePartition | jmlightning/src/jmlightning/tx_builder.py:1093-1117 | signatures and the other records together are all records |
| PeerSwap.PreparedPeerSwapTransaction.ReleaseAll | jmlightning/src/jmlightning/operations/peerswap.py:576-604 | tries every coin not released yet; ends exactly the leases still there whose release answers or takes effect |
| PeerSwap.PreparedPeerSwapTransaction.CloseAdapter | jmlightning/src/jmlightning/operations/peerswap.py:547-566 | possible only after the broadcast or after every coin was unlocked |
| PeerSwap.PeerSwapPrepareTxOperation.Execute | jmlightning/src/jmlightning/operations/peerswap.py:351-371 | a second transaction of the same id is refused; otherwise a new PREPARED one is kept |
| PeerSwap.PeerSwapPrepareTxOperation.SendTx | jmlightning/src/jmlightning/operations/peerswap.py:404-495 | sends the transaction of that id and forgets it if and only if its adapter is closed; all other transactions stay as they are |
| PeerSwap.PeerSwapPrepareTxOperation.DiscardTx | jmlightning/src/jmlightning/operations/peerswap.py:655-680 | forgets the transaction exactly if its cleanup goes through; gives coins of a sent one back on exactly the condition of a discard; touches no other |

## Left out

- Splice-out, which locks no JoinMarket coins, and the command line, configuration, confirmation prompts and logging.
- Unix sockets, subprocesses, relay threads, JSON-RPC framing, and parameter checks of RPC handlers.
- `PeerSwapRendezvousClient` and `PeerSwapOperationDispatcher`, whose behaviour rests on asyncio chaining outside the
  repository; concurrent send and discard of one transaction.
- JSON text, base64, `updated_at`, fsync and file permissions: the journal file is a sequence of records replaced at once.
- Cancellation from outside between two Python bytecodes of one call, other than at the stops modelled.
- Hashing, signature verification, address decoding, `parse_transaction_bytes` and size estimation: functions passed in
  as parameters. jmcore and jmwallet are not part of this model.
- PSBT byte serialisation: a PSBT is its records; `Psbts.Consistent` says what a reader needs to rebuild the transaction.
- Splice fee and weight estimates of `cln.py`: constants and sums that no other property here depends on.
- Floating point: fee rates are reals, and not-a-number and infinity do not occur.
- The spending policy, wallet synchronisation and coin selection itself.
- CrashRuns.Life: negotiation rounds, retries and recoveries are bounded by an arbitrary number, as an interruption would.
- SpliceInputs.NewSerialId: draws come as a finite sequence; with all of them refused the code keeps drawing.
- Signing.SignPsbt: signed indices are integers (the check for other Python types is not modelled), and planned indices
  are natural numbers, so the refusal of a negative one is not.
- Rendezvous.PeerSwapRendezvous.Deliver: a delivery that raises and so keeps a thread from its next one is a task that is
  never taken up.
- PeerSwap.PeerSwapPrepareTxOperation.Session: a failed preparation keeps nothing; the release of its own locks on the
  way out is not part of the model.
- Transcripts: the log does not hold amounts; that the transaction handed over pays the channels what was planned is
  `Planner.PlanAndBuild`. That recovery parses the recorded PSBT again
  before it writes it back, and raises if it cannot, is not modelled.
- Worlds: Core Lightning's channel states are answers chosen freely, apart from the hypotheses above.
