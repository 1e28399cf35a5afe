/**
 Whole lives of a funding operation: run it, crash anywhere or not at all, then
 recover any number of times, each recovery crashing anywhere or not at all.
 */
module CrashRuns {
  import opened Prelude
  import opened Outpoints
  import opened Records
  import opened Worlds
  import opened Adapters
  import opened Lifecycles
  import opened Transcripts
  import opened FundingRuns
  import opened Recovery
  import opened Releases
  import OpenChannel
  import MultiOpenChannel
  import SpliceIn

  datatype Operation = Open(peer: string) | MultiOpen(peers: seq<string>) | Splice(channel: string)

  /** The current process may die with the durable state of any moment since it began. */
  method MaybeCrash(world: World, start: nat)
    requires world.Valid() && start < |world.history|
    modifies world
    ensures world.Valid() && |world.history| > start
  {
    var crash: bool := *;
    var k: nat := *;
    if crash && start <= k < |world.history| {
      world.Restart(k);
    }
  }

  /**
   For every run of every funding operation, with a crash at any step and any
   number of recoveries: at each moment no lease on an input of a transaction
   already sent has been released, and every lease of the operation is on record
   or its transaction is through, save one that went stray when `lock` failed.
   Once the record is gone without the transaction being through, no lease is
   left but a stray one.
   */
  method Life(world: World, op: Operation, selected: seq<Outpoint>, psbt: string, neutrino: bool)
    requires world.Valid() && Fresh(world.d, world.s)
    requires forall o :: o in selected <==> o in world.s.inputs
    modifies world
    ensures world.Valid()
    ensures forall i :: 0 <= i < |world.history| ==> ReleasesSafe(world.history[i], world.s)
    ensures forall i :: 0 <= i < |world.history| ==> CoveredButStray(world.history[i], world.s)
    ensures forall i :: 0 <= i < |world.history| && world.history[i].stray.None? ==> Covered(world.history[i], world.s)
    ensures !HasId(world.d.file, world.s.rid) && !world.d.terminal ==>
              forall o :: Own(world.d, world.s, o) ==> IsStray(world.d, o, world.d.leases[o].owner)
  {
    var start := |world.history| - 1;
    var ending: Ending;
    ghost var trace: seq<Event>;
    var cleanup: CleanupFate := *;
    match op {
      case Open(peer) => ending, trace := OpenChannel.Execute(world, peer, selected, psbt, cleanup);
      case MultiOpen(peers) => ending, trace := MultiOpenChannel.Execute(world, peers, selected, psbt, cleanup);
      case Splice(channel) => ending, trace := SpliceIn.Execute(world, channel, selected, cleanup);
    }
    MaybeCrash(world, start);
    var recoveries: nat := *;
    while recoveries > 0
      invariant world.Valid()
    {
      start := |world.history| - 1;
      var manager := new RecoveryManager(world, neutrino);
      var resolved, _ := manager.ReconcileAll();
      MaybeCrash(world, start);
      recoveries := recoveries - 1;
    }
    AllCovered(world.history, world.s);
  }

  lemma AllCovered(history: seq<Durable>, s: Setting)
    requires forall i :: 0 <= i < |history| ==> Good(history[i], s)
    ensures forall i :: 0 <= i < |history| && history[i].stray.None? ==> Covered(history[i], s)
  {
    forall i | 0 <= i < |history| && history[i].stray.None? ensures Covered(history[i], s) {
      assert Good(history[i], s);
    }
  }

  /**
   The exception is real. Take any operation about to lock its first coin, and
   any failure of that `lock`. If, and only if, the lease was granted all the
   same, a cleanup that meets no error leaves it without a record: the cover is
   lost until the lease runs out.
   */
  method FailedLock(world: World, operation: string, identity: map<string, Json>, o: Outpoint,
                    lock: LockFate, cleanup: CleanupFate)
    requires world.Valid() && Fresh(world.d, world.s) && operation != PEERSWAP
    requires Available(world.d, o) && lock.quiet && !lock.Succeeds() && cleanup.Clean()
    modifies world
    ensures world.Valid() && !HasId(world.d.file, world.s.rid)
    ensures Covered(world.d, world.s) <==> !(lock.ahead.Works? && lock.Strays())
    ensures lock.ahead.Works? && lock.Strays() ==>
              Own(world.d, world.s, o) && IsStray(world.d, o, world.d.leases[o].owner)
    ensures world.d.now == old(world.d.now)
  {
    var run, begun := StartRun(world, operation, identity, Channels([]), Works);
    var locked := run.LockNext(o, lock);
    run.Finish(Broadcast, cleanup);
    if world.d.stray.Some? {
      StrayIsUncovered(world.d, world.s);
    } else {
      assert Good(world.history[|world.history| - 1], world.s);
    }
  }

  /**
   The one way around "no coins back while CLN may hold the channel" is real: a
   run that locks its coin without trouble and is interrupted after CLN answered
   `fundchannel_start` ends with every lease given back and no record, and the
   channel still open.
   */
  method InterruptedStart(world: World, peer: string, o: Outpoint, settle: Fate, cleanup: CleanupFate)
    returns (ghost trace: seq<Event>)
    requires world.Valid() && Fresh(world.d, world.s) && cleanup.Clean()
    requires world.s.inputs == {o} && Available(world.d, o)
    modifies world
    ensures trace == READY + [Called(FundStart(peer), Received, Interrupted)] && LeftOpen(trace, peer)
    ensures !HasId(world.d.file, world.s.rid) && AllGivenBack(world.d, world.s)
  {
    assert "open_channel"[0] != PEERSWAP[0];
    var run, begun := StartRun(world, "open_channel", map["peer_id" := JText(peer)], Channels([peer]), Works);
    LockOne(run, o);
    StartAndStop(run, peer, settle);
    trace := run.trace;
    run.Finish(Broadcast, cleanup);
  }

  /** CLN answers, and the run is interrupted before it goes on. */
  method StartAndStop(run: FundingRun, peer: string, settle: Fate)
    requires run.Running() && !run.world.d.sent && run.trace == READY && run.aim == Channels([peer])
    modifies run`trace, run.world, run.adapter`worker, run.adapter`renewalFailed
    ensures run.Running() && !run.world.d.sent && old(run.world.history) <= run.world.history
    ensures run.trace == READY + [Called(FundStart(peer), Received, Interrupted)] && LeftOpen(run.trace, peer)
  {
    var fate := CallFate(Works, true, true, settle, AfterAnswer);
    var r := run.CallFirst(FundStart(peer), fate);
    MoreOf(READY, fate.Said(FundStart(peer)), peer);
  }

  /** With nothing going wrong the one coin gets locked, and kept by the worker. */
  method LockOne(run: FundingRun, o: Outpoint)
    requires run.Holding() && run.locked == [] && run.adapter.lockOwners == map[] && run.adapter.worker == Off
    requires run.lifecycle.phase == Prestart && run.lifecycle.releaseLocks && !run.adapter.renewalFailed
    requires !run.world.d.sent && run.world.d.stray.None? && run.trace == []
    requires run.world.s.inputs == {o} && Available(run.world.d, o)
    modifies run, run.world, run.adapter, run.lifecycle`phase
    ensures run.Running() && old(run.world.history) <= run.world.history
    ensures run.lifecycle.phase == Locked && run.lifecycle.releaseLocks && run.trace == READY
    ensures !run.world.d.sent
  {
    TakeOne(run, o);
    var ok := run.KeepLocked(true);
  }

  method TakeOne(run: FundingRun, o: Outpoint)
    requires run.Holding() && run.locked == [] && run.adapter.lockOwners == map[] && run.adapter.worker == Off
    requires run.lifecycle.phase == Prestart && !run.world.d.sent && run.world.d.stray.None?
    requires Available(run.world.d, o)
    modifies run`locked, run.world, run.adapter
    ensures run.Holding() && old(run.world.history) <= run.world.history
    ensures run.adapter.worker == Off && run.adapter.renewalFailed == old(run.adapter.renewalFailed)
    ensures run.adapter.lockOwners.Keys == {o} && !run.world.d.sent && run.world.d.stray.None?
    ensures run.adapter.AllHoldNow(run.world.d, run.locked)
  {
    var ok := run.LockNext(o, LockFate(true, Works, Works, Works, true));
    OnlyOne(run.locked, o);
  }

  lemma OnlyOne(locked: seq<Outpoint>, o: Outpoint)
    requires locked == [] + [o]
    ensures forall x :: x in locked <==> x == o
  {
  }

  /**
   A recovery of one record that fails or dies after any durable step, others
   acting meanwhile, and is run again on what it left: if the second run gets
   through, everything ends as after a single run that was not disturbed.
   */
  method StopAndResume(world: World, neutrino: bool, r: RecoveryRecord)
    returns (ok: bool, ghost moves: seq<Move>)
    requires world.Valid() && MayRelease(world.d, world.s, r) && Complete(r) && Lookup(world.d.file, r.id) == r
    requires forall k :: k in r.ownerTokens ==> r.ownerTokens[k] in world.s.tokens
    modifies world
    ensures world.Valid() && ForeignMoves(moves, world.s)
    ensures ok ==> Without(world.d.file, r.id) == Without(old(world.d.file), r.id)
    ensures ok ==> world.d.leases
                   == Remaining(MovedAll(old(world.d.leases), moves), r.ownerTokens, r.ownerTokens.Keys)
  {
    ghost var first, rest: seq<Atom>, order, again: seq<string>;
    var manager := new RecoveryManager(world, neutrino);
    var done: bool;
    done, first, order := manager.ReleaseAll(r, false);
    ghost var cut := world.d;
    CutRecord(StoreOf(old(world.d)), r, first);
    var left := Lookup(world.d.file, r.id);
    manager := new RecoveryManager(world, neutrino);
    ok, rest, again := manager.ReleaseAll(left, false);
    moves := MovesOf(first) + MovesOf(rest);
    ForeignIsStrange(first, r, world.s);
    ForeignIsStrange(rest, r, world.s);
    ForeignMovesOf(first, rest, world.s);
    if ok { ResumedRecoveryEndsAlike(StoreOf(old(world.d)), r, order, first, again, rest); }
  }
}
