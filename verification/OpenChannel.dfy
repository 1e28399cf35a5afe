/** Opening one channel: every branch of `OpenChannelOperation.execute` after planning. */
module OpenChannel {
  import opened Prelude
  import opened Outpoints
  import opened Records
  import opened Worlds
  import opened Adapters
  import opened Lifecycles
  import opened Transcripts
  import opened FundingRuns

  /** The `try` block: what it leaves behind is fit for cleanup, whichever way it ends. */
  method Fund(run: FundingRun, peer: string, selected: seq<Outpoint>, psbt: string) returns (e: Ending)
    requires run.Holding() && run.locked == [] && run.adapter.lockOwners == map[] && run.adapter.worker == Off
    requires run.lifecycle.phase == Prestart && run.lifecycle.releaseLocks
    requires !run.world.d.sent && run.world.d.stray.None?
    requires forall o :: o in selected <==> o in run.world.s.inputs
    requires run.aim == Channels([peer]) && run.trace == []
    modifies run, run.world, run.adapter, run.lifecycle`phase, run.lifecycle`releaseLocks
    ensures run.Holding() && old(run.world.history) <= run.world.history
    ensures run.Ends(e, Broadcast)
    ensures run.world.d.releases == old(run.world.d.releases)
  {
    var ok := run.ReserveInputs(selected);
    if !ok {
      OnlySetback(run.aim);
      return Failed;
    }
    e := Start(run, peer, psbt);
  }

  /** `fundchannel_start`, then the transaction while the channel open is pending. */
  method Start(run: FundingRun, peer: string, psbt: string) returns (e: Ending)
    requires run.Running() && run.lifecycle.phase == Locked && run.lifecycle.releaseLocks && !run.world.d.sent
    requires run.aim == Channels([peer]) && run.trace == READY
    modifies run`trace, run.world, run.adapter`worker, run.adapter`renewalFailed
    modifies run.lifecycle`phase, run.lifecycle`releaseLocks
    ensures run.Running() && old(run.world.history) <= run.world.history
    ensures run.Ends(e, Broadcast)
    ensures run.world.d.releases == old(run.world.d.releases)
  {
    var step := run.Begin(FundStart(peer), true, Broadcast);
    if step.Halt? { return step.ending; }
    NothingDecided(Through(FundStart(peer)));
    e := Build(run, peer, psbt);
  }

  /** Build the transaction; if that fails the open is cancelled. */
  method Build(run: FundingRun, peer: string, psbt: string) returns (e: Ending)
    requires run.Opened(Started) && run.aim == Channels([peer]) && Decided(false) !in run.trace
    modifies run`trace, run.world, run.adapter`worker, run.adapter`renewalFailed
    modifies run.lifecycle`phase, run.lifecycle`releaseLocks
    ensures run.Running() && old(run.world.history) <= run.world.history
    ensures run.Ends(e, Broadcast)
    ensures run.world.d.releases == old(run.world.d.releases)
  {
    var built: bool, stop: bool := *, *;
    if built && !stop {
      e := Confirm(run, peer, psbt);
      return;
    }
    if stop {
      run.GiveUp(Stopped, Broadcast);
      return Stopped;
    }
    More(run.trace, Setback);
    run.Note(Setback);
    NothingWithheld(run.trace, peer);
    e := run.CancelAndFree(peer, None, Failed);
  }

  /** Ask for confirmation; if it is declined the open is cancelled. */
  method Confirm(run: FundingRun, peer: string, psbt: string) returns (e: Ending)
    requires run.Opened(Started) && run.aim == Channels([peer]) && Decided(false) !in run.trace
    modifies run`trace, run.world, run.adapter`worker, run.adapter`renewalFailed
    modifies run.lifecycle`phase, run.lifecycle`releaseLocks
    ensures run.Running() && old(run.world.history) <= run.world.history
    ensures run.Ends(e, Broadcast)
    ensures run.world.d.releases == old(run.world.d.releases)
  {
    var confirmed: bool := *;
    More(run.trace, Decided(confirmed));
    StaysOpen(run.trace, Decided(confirmed), run.aim);
    run.Note(Decided(confirmed));
    if !confirmed {
      NothingWithheld(run.trace, peer);
      e := run.CancelAndFree(peer, Some(run.world.s.txid), Declined);
      return;
    }
    e := Complete(run, peer, psbt);
  }

  /** What the answer to the one question about this channel leaves known. */
  lemma AfterQuestion(before: seq<Event>, peer: string, status: Status)
    requires Underway(before, Channels([peer])) && Trouble(before)
    requires InOrder(before + [Told(peer, status)], Channels([peer]))
    ensures var t := before + [Told(peer, status)];
            && Due(t, FundCancel(peer), Channels([peer])) && AllOpened(t, Channels([peer])) && Trouble(t)
            && if status == IsAbsent then Account(t, Channels([peer]), Failed, false, true)
               else Account(t, Channels([peer]), RecoveryRequired, false, false)
  {
    var t := before + [Told(peer, status)];
    More(before, Told(peer, status));
    MoreOf(before, Told(peer, status), peer);
    NothingWithheld(t, peer);
    if status != IsAbsent {
      StaysOpen(before, Told(peer, status), Channels([peer]));
      Halts(t, Channels([peer]), RecoveryRequired, false);
    }
  }

  /** The transaction has not been sent: a withheld open is cancelled, an absent one needs nothing. */
  method AfterFailedComplete(run: FundingRun, peer: string) returns (e: Ending)
    requires run.Opened(Started) && run.aim == Channels([peer]) && Trouble(run.trace)
    modifies run`trace, run.world, run.adapter`worker, run.adapter`renewalFailed
    modifies run.lifecycle`phase, run.lifecycle`releaseLocks
    ensures run.Running() && old(run.world.history) <= run.world.history
    ensures e != Completed && run.Ends(e, Broadcast)
    ensures run.world.d.releases == old(run.world.d.releases)
  {
    ghost var before := run.trace;
    var status := run.FundingStatus(peer);
    AfterQuestion(before, peer, status);
    match status
    case IsWithheld =>
      e := run.CancelAndFree(peer, Some(run.world.s.txid), Failed);
    case IsAbsent =>
      run.lifecycle.releaseLocks := true;
      var legal := run.lifecycle.Transition(Locked);
      assert legal;
      e := Failed;
    case _ =>
      e := RecoveryRequired;
  }

  /** The transaction may be out: only a state still withheld proves that it is not. */
  method AfterFailedSend(run: FundingRun, peer: string) returns (e: Ending)
    requires run.Running() && run.Booked() && run.lifecycle.phase == Withheld && !run.lifecycle.releaseLocks
    requires run.aim == Channels([peer]) && AllOpened(run.trace, run.aim) && StillOpen(run.trace, run.aim)
    requires Trouble(run.trace) && Tried(run.trace)
    modifies run`trace, run.world, run.adapter`worker, run.adapter`renewalFailed
    modifies run.lifecycle`phase, run.lifecycle`releaseLocks
    ensures run.Running() && old(run.world.history) <= run.world.history
    ensures run.Ends(e, Broadcast)
    ensures run.world.d.releases == old(run.world.d.releases)
  {
    ghost var before := run.trace;
    var status := run.FundingStatus(peer);
    More(before, Told(peer, status));
    StaysOpen(before, Told(peer, status), run.aim);
    match status
    case IsWithheld =>
      MoreOf(before, Told(peer, status), peer);
      e := run.CancelAndFree(peer, Some(run.world.s.txid), Failed);
    case IsBroadcast =>
      StillOpenIsNotClosed(run.trace, run.aim);
      var legal := run.lifecycle.Transition(Broadcast);
      assert legal;
      e := Completed;
    case _ =>
      e := RecoveryRequired;
  }

  /** From `fundchannel_complete` on. */
  method Complete(run: FundingRun, peer: string, psbt: string) returns (e: Ending)
    requires run.Opened(Started) && run.aim == Channels([peer]) && Approved(run.trace)
    modifies run`trace, run.world, run.adapter`worker, run.adapter`renewalFailed
    modifies run.lifecycle`phase, run.lifecycle`releaseLocks
    ensures run.Running() && old(run.world.history) <= run.world.history
    ensures run.Ends(e, Broadcast)
    ensures run.world.d.releases == old(run.world.d.releases)
  {
    var step := run.RenewAndCall(FundComplete(peer, psbt), Some(run.world.s.txid), Broadcast);
    if step.Halt? { return step.ending; }
    if step.Unsure? {
      e := AfterFailedComplete(run, peer);
      return;
    }
    run.Advance(Withheld);
    NowCompleted(run.trace, peer, psbt);
    e := Send(run, peer, psbt);
  }

  lemma NowCompleted(t: seq<Event>, peer: string, psbt: string)
    requires Through(FundComplete(peer, psbt)) in t
    ensures Placed(t, SendPsbt(psbt), Channels([peer]))
  {
  }

  /** `sendpsbt` and what follows from its outcome. */
  method Send(run: FundingRun, peer: string, psbt: string) returns (e: Ending)
    requires run.Opened(Withheld) && run.aim == Channels([peer])
    requires Placed(run.trace, SendPsbt(psbt), run.aim)
    modifies run`trace, run.world, run.adapter`worker, run.adapter`renewalFailed
    modifies run.lifecycle`phase, run.lifecycle`releaseLocks
    ensures run.Running() && old(run.world.history) <= run.world.history
    ensures run.Ends(e, Broadcast)
    ensures run.world.d.releases == old(run.world.d.releases)
  {
    var step := run.RenewAndCall(SendPsbt(psbt), Some(run.world.s.txid), Broadcast);
    if step.Halt? { return step.ending; }
    if step.Unsure? {
      e := AfterFailedSend(run, peer);
      return;
    }
    e := run.Accept(Broadcast);
  }

  /**
   The whole operation. Every durable state it passes through is good: a crash
   at any step leaves a record that covers every lease and names a transaction
   already sent, and no release ever hits an input of such a transaction. Each
   call to CLN is made in its turn, and coins are given back only with nothing
   left open at CLN, or by a run interrupted before its channel open was answered.
   */
  method Execute(world: World, peer: string, selected: seq<Outpoint>, psbt: string, cleanup: CleanupFate)
    returns (e: Ending, ghost trace: seq<Event>)
    requires world.Valid() && Fresh(world.d, world.s)
    requires forall o :: o in selected <==> o in world.s.inputs
    modifies world
    ensures world.Valid() && old(world.history) <= world.history
    ensures Answers(old(world.d), world.d, world.s, Channels([peer]), trace, e, cleanup.Clean())
  {
    assert "open_channel"[0] != PEERSWAP[0];
    var fate: Fate := *;
    var run, ok := StartRun(world, "open_channel", map["peer_id" := JText(peer)], Channels([peer]), fate);
    if !ok {
      OnlySetback(Channels([peer]));
      return Failed, [Setback];
    }
    e := Fund(run, peer, selected, psbt);
    trace := run.trace;
    run.Finish(Broadcast, cleanup);
  }
}
