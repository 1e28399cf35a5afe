/** Splicing JoinMarket coins into a channel: `SpliceInOperation.execute` after planning. */
module SpliceIn {
  import opened Prelude
  import opened Sequences
  import opened Outpoints
  import opened Records
  import opened Worlds
  import opened Adapters
  import opened Lifecycles
  import opened Transcripts
  import opened FundingRuns

  /** The `try` block. Once CLN has accepted the splice the coins are never released here. */
  method Fund(run: FundingRun, channel: string, selected: seq<Outpoint>) returns (e: Ending)
    requires run.Holding() && run.locked == [] && run.adapter.lockOwners == map[] && run.adapter.worker == Off
    requires run.lifecycle.phase == Prestart && run.lifecycle.releaseLocks
    requires !run.world.d.sent && run.world.d.stray.None?
    requires forall o :: o in selected <==> o in run.world.s.inputs
    requires run.aim == Growth(channel) && run.trace == []
    modifies run, run.world, run.adapter, run.lifecycle`phase, run.lifecycle`releaseLocks
    ensures run.Holding() && old(run.world.history) <= run.world.history
    ensures run.Ends(e, Signed)
    ensures run.world.d.releases == old(run.world.d.releases)
  {
    var ok := run.ReserveInputs(selected);
    if !ok {
      OnlySetback(run.aim);
      return Failed;
    }
    e := Initiate(run, channel);
  }

  /** `splice_init`; from its answer on the coins stay locked whatever happens. */
  method Initiate(run: FundingRun, channel: string) returns (e: Ending)
    requires run.Running() && run.lifecycle.phase == Locked && run.lifecycle.releaseLocks && !run.world.d.sent
    requires run.aim == Growth(channel) && run.trace == READY
    modifies run`trace, run.world, run.adapter`worker, run.adapter`renewalFailed
    modifies run.lifecycle`phase, run.lifecycle`releaseLocks
    ensures run.Running() && old(run.world.history) <= run.world.history
    ensures run.Ends(e, Signed)
    ensures run.world.d.releases == old(run.world.d.releases)
  {
    var wellFormed: bool := *;
    var step := run.Begin(SpliceInit(channel), wellFormed, Signed);
    if step.Halt? { return step.ending; }
    e := AddCoins(run, channel);
  }

  /** The fee is affordable, the coins are in the PSBT; then negotiate and sign. */
  method AddCoins(run: FundingRun, channel: string) returns (e: Ending)
    requires run.Opened(Started) && run.aim == Growth(channel) && run.trace == READY + [Through(SpliceInit(channel))]
    modifies run`trace, run.world, run.adapter`worker, run.adapter`renewalFailed
    modifies run.lifecycle`phase
    ensures run.Running() && old(run.world.history) <= run.world.history
    ensures run.Ends(e, Signed)
    ensures run.world.d.releases == old(run.world.d.releases)
  {
    var affordable: bool := *;
    if !affordable {
      run.GiveUp(RecoveryRequired, Signed);
      return RecoveryRequired;
    }
    var ok := run.RenewOpened(Signed);
    if !ok { return Failed; }
    var added: bool, psbt: string := *, *;
    if !added {
      run.GiveUp(Failed, Signed);
      return Failed;
    }
    NothingLearned(channel, psbt);
    e := Settle(run, channel, psbt);
  }

  lemma NothingLearned(channel: string, psbt: string)
    ensures GoesOn(READY + [Through(SpliceInit(channel))] + [LeasesRenewed], psbt)
  {
    assert READY == [LeasesKept] + [LeasesRenewed] && [LeasesKept] == [] + [LeasesKept];
    MoreOfSplice([], LeasesKept);
    MoreOfSplice([LeasesKept], LeasesRenewed);
    MoreOfSplice(READY, Through(SpliceInit(channel)));
    MoreOfSplice(READY + [Through(SpliceInit(channel))], LeasesRenewed);
  }

  /** Negotiate, then confirm, sign and submit. */
  method Settle(run: FundingRun, channel: string, psbt: string) returns (e: Ending)
    requires run.Opened(Started) && run.aim == Growth(channel) && GoesOn(run.trace, psbt)
    modifies run`trace, run.world, run.adapter`worker, run.adapter`renewalFailed
    modifies run.lifecycle`phase
    ensures run.Running() && old(run.world.history) <= run.world.history
    ensures run.Ends(e, Signed)
    ensures run.world.d.releases == old(run.world.d.releases)
  {
    var secured;
    e, secured := Negotiate(run, channel, psbt);
    if e != Completed { return; }
    e := Confirm(run, channel, secured);
  }

  /** What CLN answers to the next update is to go on from. */
  ghost predicate GoesOn(t: seq<Event>, psbt: string) {
    (LatestPsbt(t) == None || LatestPsbt(t) == Some(psbt)) && Decided(true) !in t && Decided(false) !in t
  }

  /** CLN's last answer says that the commitments to this PSBT are secured. */
  ghost predicate IsSecured(t: seq<Event>, psbt: string) {
    Secured(true, psbt) in t && LatestPsbt(t) == Some(psbt) && Decided(true) !in t && Decided(false) !in t
  }

  /**
   `splice_update` rounds until CLN reports the commitments secured; `Completed`
   here means just that. A peer may keep the rounds going for ever: `rounds`
   stands for where an interruption ends such a run.
   */
  method Negotiate(run: FundingRun, channel: string, psbt: string) returns (e: Ending, current: string)
    requires run.Opened(Started) && run.aim == Growth(channel) && GoesOn(run.trace, psbt)
    modifies run`trace, run.world, run.adapter`worker, run.adapter`renewalFailed
    modifies run.lifecycle`phase
    ensures run.Running() && old(run.world.history) <= run.world.history && !run.world.d.sent
    ensures if e == Completed then run.Opened(Updated) && IsSecured(run.trace, current) else run.Ends(e, Signed)
    ensures run.world.d.releases == old(run.world.d.releases)
  {
    var rounds: nat := *;
    var secured := false;
    current := psbt;
    while !secured
      invariant run.Opened(if secured then Updated else Started) && old(run.world.history) <= run.world.history
      invariant if secured then IsSecured(run.trace, current) else GoesOn(run.trace, current)
      invariant run.world.d.releases == old(run.world.d.releases)
      decreases rounds, if secured then 0 else 1
    {
      if rounds == 0 {
        run.GiveUp(Stopped, Signed);
        return Stopped, current;
      }
      rounds := rounds - 1;
      e, secured, current := UpdateRound(run, channel, current);
      if e != Completed { return; }
    }
    e := Completed;
  }

  /** One round: secured commitments leave it in `Updated`, otherwise it is back where it began. */
  method UpdateRound(run: FundingRun, channel: string, psbt: string) returns (e: Ending, secured: bool, next: string)
    requires run.Opened(Started) && run.aim == Growth(channel) && GoesOn(run.trace, psbt)
    modifies run`trace, run.world, run.adapter`worker, run.adapter`renewalFailed
    modifies run.lifecycle`phase
    ensures run.Running() && old(run.world.history) <= run.world.history && !run.world.d.sent
    ensures e != Completed ==> run.Ends(e, Signed)
    ensures e == Completed && secured ==> run.Opened(Updated) && IsSecured(run.trace, next)
    ensures e == Completed && !secured ==> run.Opened(Started) && GoesOn(run.trace, next)
    ensures run.world.d.releases == old(run.world.d.releases)
  {
    secured, next := *, *;
    ghost var before := run.trace;
    var step := run.RenewAndCall(SpliceUpdate(channel, psbt), None, Signed);
    if step.Halt? { return step.ending, secured, next; }
    var valid: bool := *;
    if step.Unsure? || !valid {
      run.GiveUp(RecoveryRequired, Signed);
      return RecoveryRequired, secured, next;
    }
    Asked(before, Through(SpliceUpdate(channel, psbt)), psbt);
    Answer(run, channel, psbt, secured, next);
    e := Completed;
  }

  lemma Asked(t: seq<Event>, e: Event, psbt: string)
    requires GoesOn(t, psbt) && e.Called?
    ensures var u := t + [LeasesRenewed] + [e];
            GoesOn(u, psbt) && u != [] && Last(u) == e
  {
    MoreOfSplice(t, LeasesRenewed);
    MoreOfSplice(t + [LeasesRenewed], e);
    LastOf(t + [LeasesRenewed], e);
  }

  /** CLN's answer to an update: `UPDATED`, and back to `STARTED` while the commitments are not secured. */
  method Answer(run: FundingRun, channel: string, psbt: string, secured: bool, next: string)
    requires run.Opened(Started) && run.aim == Growth(channel) && GoesOn(run.trace, psbt)
    requires run.trace != [] && Last(run.trace) == Through(SpliceUpdate(channel, psbt))
    modifies run`trace, run.lifecycle`phase
    ensures run.Opened(if secured then Updated else Started)
    ensures if secured then IsSecured(run.trace, next) else GoesOn(run.trace, next)
  {
    ghost var e := Secured(secured, next);
    More(run.trace, e);
    MoreOfSplice(run.trace, e);
    StaysOpen(run.trace, e, run.aim);
    run.Note(e);
    run.Advance(Updated);
    if !secured { run.Advance(Started); }
  }

  /** Ask for confirmation; a refusal keeps the coins locked. */
  method Confirm(run: FundingRun, channel: string, psbt: string) returns (e: Ending)
    requires run.Opened(Updated) && run.aim == Growth(channel) && IsSecured(run.trace, psbt)
    modifies run`trace, run.world, run.adapter`worker, run.adapter`renewalFailed
    modifies run.lifecycle`phase
    ensures run.Running() && old(run.world.history) <= run.world.history
    ensures run.Ends(e, Signed)
    ensures run.world.d.releases == old(run.world.d.releases)
  {
    var confirmed: bool := *;
    More(run.trace, Decided(confirmed));
    MoreOfSplice(run.trace, Decided(confirmed));
    StaysOpen(run.trace, Decided(confirmed), run.aim);
    run.Note(Decided(confirmed));
    if !confirmed {
      Halts(run.trace, run.aim, RecoveryRequired, false);
      return RecoveryRequired;
    }
    e := Sign(run, channel, psbt);
  }

  /** Sign, put the signed splice and its id on record. */
  method Sign(run: FundingRun, channel: string, psbt: string) returns (e: Ending)
    requires run.Opened(Updated) && run.aim == Growth(channel)
    requires Secured(true, psbt) in run.trace && LatestPsbt(run.trace) == Some(psbt) && Approved(run.trace)
    modifies run`trace, run.world, run.adapter`worker, run.adapter`renewalFailed
    modifies run.lifecycle`phase
    ensures run.Running() && old(run.world.history) <= run.world.history
    ensures run.Ends(e, Signed)
    ensures run.world.d.releases == old(run.world.d.releases)
  {
    MoreOfSplice(run.trace, LeasesRenewed);
    LastOf(run.trace, LeasesRenewed);
    var ok := run.RenewOpened(Signed);
    if !ok { return Failed; }
    var can: bool, signed: string := *, *;
    if !can {
      run.GiveUp(RecoveryRequired, Signed);
      return RecoveryRequired;
    }
    More(run.trace, WalletSigned(psbt, signed));
    MoreOfSplice(run.trace, WalletSigned(psbt, signed));
    StaysOpen(run.trace, WalletSigned(psbt, signed), run.aim);
    run.Note(WalletSigned(psbt, signed));
    e := Record(run, channel, signed);
  }

  method Record(run: FundingRun, channel: string, signed: string) returns (e: Ending)
    requires run.Opened(Updated) && run.aim == Growth(channel) && SignedAs(run.trace, signed)
    modifies run`trace, run.world, run.adapter`worker, run.adapter`renewalFailed
    modifies run.lifecycle`phase
    ensures run.Running() && old(run.world.history) <= run.world.history
    ensures run.Ends(e, Signed)
    ensures run.world.d.releases == old(run.world.d.releases)
  {
    run.Interfere();
    var ok := run.RecordSigned(signed);
    var valid: bool := *;
    if !ok || !valid {
      run.GiveUp(RecoveryRequired, Signed);
      return RecoveryRequired;
    }
    e := Submit(run, channel, signed);
  }

  /** `splice_signed` gives the transaction away. */
  method Submit(run: FundingRun, channel: string, signed: string) returns (e: Ending)
    requires run.Opened(Updated) && run.aim == Growth(channel) && SignedAs(run.trace, signed)
    modifies run`trace, run.world, run.adapter`worker, run.adapter`renewalFailed
    modifies run.lifecycle`phase
    ensures run.Running() && old(run.world.history) <= run.world.history
    ensures run.Ends(e, Signed)
    ensures run.world.d.releases == old(run.world.d.releases)
  {
    var step := run.RenewAndCall(SpliceSigned(channel, signed), Some(run.world.s.txid), Signed);
    if step.Halt? { return step.ending; }
    if step.Unsure? {
      run.GiveUp(RecoveryRequired, Signed);
      return RecoveryRequired;
    }
    e := run.Accept(Signed);
  }

  /**
   The whole operation. What is handed over is what the wallet signed of the PSBT
   that CLN reported as secured; coins are given back only if no splice was
   begun, or the run was interrupted before CLN's answer to `splice_init`.
   */
  method Execute(world: World, channel: string, selected: seq<Outpoint>, cleanup: CleanupFate)
    returns (e: Ending, ghost trace: seq<Event>)
    requires world.Valid() && Fresh(world.d, world.s)
    requires forall o :: o in selected <==> o in world.s.inputs
    modifies world
    ensures world.Valid() && old(world.history) <= world.history
    ensures Answers(old(world.d), world.d, world.s, Growth(channel), trace, e, cleanup.Clean())
  {
    OnlySetback(Growth(channel));
    assert "splice"[0] != PEERSWAP[0];
    var fate: Fate := *;
    var run, ok := StartRun(world, "splice", map["channel_id" := JText(channel)], Growth(channel), fate);
    if !ok { return Failed, [Setback]; }
    e := Fund(run, channel, selected);
    trace := run.trace;
    run.Finish(Signed, cleanup);
  }
}
