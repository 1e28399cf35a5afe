/**
 One run of a funding operation: the coins it locked, the calls it makes through
 the journal, and the cleanup every run ends with. An external call takes effect
 or not and answers or fails, independently; a run may also be interrupted
 between any two steps by an exception no handler catches.
 */
module FundingRuns {
  import opened Prelude
  import opened Sequences
  import opened Outpoints
  import opened Records
  import opened Worlds
  import opened Adapters
  import opened Lifecycles
  import opened Transcripts

  /** What the ending tells the caller: coins kept and on record if recovery is required, kept and sent if it completed. */
  ghost predicate Tells(e: Ending, before: Durable, after: Durable, s: Setting) {
    && (e == Completed && s.truthful ==> after.sent)
    && (e == Completed || e == RecoveryRequired ==> after.releases == before.releases)
    && (e == RecoveryRequired ==> HasId(after.file, s.rid))
  }

  /**
   What a whole run answers for, by the log of its calls: nothing is given back of
   a transaction already sent; every call was made in its turn; what is sent was
   handed over; coins are given back only with nothing left open at CLN, or by a
   run interrupted before everything was open; and they are, with nothing left
   open, if cleanup works.
   */
  ghost predicate Answers(before: Durable, after: Durable, s: Setting, aim: Aim, trace: seq<Event>, e: Ending, clean: bool) {
    && (after.sent ==> after.releases == before.releases) && Tells(e, before, after, s)
    && InOrder(trace, aim) && Explains(trace, e)
    && (after.sent ==> HandedOver(trace))
    && (after.releases != before.releases ==> Closed(trace, aim) || CutAtStart(trace, aim))
    && (clean && Closed(trace, aim) && (e == Failed || e == Declined) ==> AllGivenBack(after, s))
    && (clean && e == Completed ==> !HasId(after.file, s.rid))
  }

  /** No lease of the operation is left but a stray one. */
  ghost predicate AllGivenBack(d: Durable, s: Setting) {
    forall o :: Own(d, s, o) ==> IsStray(d, o, d.leases[o].owner)
  }

  /** The state an operation starts from: no record of it, no use of its tokens. */
  ghost predicate Fresh(d: Durable, s: Setting) {
    && Good(d, s) && !HasId(d.file, s.rid) && !d.sent && !d.terminal && d.stray.None?
    && (forall o :: o in d.leases ==> d.leases[o].owner !in s.tokens)
  }

  lemma CreateIsGood(d: Durable, s: Setting, r: RecoveryRecord)
    requires Fresh(d, s) && r.id == s.rid && r.status == PENDING && r.operation != PEERSWAP && r.ownerTokens == map[]
    ensures Good(d.(file := d.file + [r]), s)
    ensures HasId(d.file + [r], s.rid) && Lookup(d.file + [r], s.rid) == r
  {
    var file := d.file + [r];
    forall i | 0 <= i < |d.file| ensures file[i].id != s.rid {
      assert file[i] == d.file[i];
    }
    assert file[|d.file|].id == s.rid;
    assert IndexOf(file, s.rid) == |d.file|;
  }

  /**
   How cleanup goes: whether every coin is given back without error, others keep
   still while the wallet closes, an exception cuts it short, the wallet closes,
   the record's removal works.
   */
  datatype CleanupFate = CleanupFate(smooth: bool, quiet: bool, cut: bool, closes: bool, resolve: Fate)
  {
    predicate Clean() { smooth && quiet && !cut && closes && resolve.Works? }
  }

  /** Where an interruption hits a call made through the journal. */
  datatype Cut = Never | BeforeAsking | AfterAsking | AfterAnswer

  /** What befalls such a call: the write ahead, whether CLN acts and answers, the write after, an interruption. */
  datatype CallFate = CallFate(ahead: Fate, acts: bool, answers: bool, settle: Fate, cut: Cut)
  {
    function Reply(): Reply {
      if cut == BeforeAsking || !ahead.Works? then Unasked
      else if answers then Received else Lost
    }

    function Outcome(): Outcome {
      if cut == BeforeAsking then Interrupted
      else if !ahead.Works? then Raised
      else if cut == AfterAsking then Interrupted
      else if !answers then Raised
      else if cut == AfterAnswer then Interrupted
      else if settle.Works? then Answered else Raised
    }

    function Said(q: Request): Event {
      Called(q, Reply(), Outcome())
    }
  }

  /** A call made with everything open. */
  lemma MoreCalls(before: seq<Event>, aim: Aim, request: Request, fate: CallFate, sent: bool)
    requires AllOpened(before, aim) && StillOpen(before, aim) && !request.FundCancel?
    requires InOrder(before + [fate.Said(request)], aim)
    requires sent ==> HandedOver(before + [fate.Said(request)])
    ensures AllOpened(before + [fate.Said(request)], aim) && StillOpen(before + [fate.Said(request)], aim)
    ensures Tried(before + [fate.Said(request)]) == (Tried(before) || HandsOver(request))
    ensures fate.Outcome() != Answered ==> Trouble(before + [fate.Said(request)])
    ensures fate.Outcome() == Answered && HandsOver(request) ==> Delivered(before + [fate.Said(request)])
    ensures fate.Outcome() == Interrupted ==> Account(before + [fate.Said(request)], aim, Stopped, sent, false)
  {
    More(before, fate.Said(request));
    StaysOpen(before, fate.Said(request), aim);
    StillOpenIsNotClosed(before + [fate.Said(request)], aim);
  }

  /** A renewal, answered or not, leaves open what is open. */
  lemma RenewalKeepsOpen(t: seq<Event>, aim: Aim)
    requires Underway(t, aim)
    ensures Underway(t + [LeasesRenewed], aim) && Underway(t + [Setback], aim) && Trouble(t + [Setback])
  {
    More(t, Setback);
    StaysOpen(t, Setback, aim);
    More(t, LeasesRenewed);
    StaysOpen(t, LeasesRenewed, aim);
  }

  /** A cancel, whatever came of it. */
  lemma AfterCancel(before: seq<Event>, t: seq<Event>, peer: string, fate: CallFate, ending: Ending)
    requires t == before + [fate.Said(FundCancel(peer))] && InOrder(t, Channels([peer]))
    requires AllOpened(before, Channels([peer]))
    requires Trouble(before) && (ending == Failed || (ending == Declined && Decided(false) in before))
    ensures fate.Outcome() == Interrupted ==> Account(t, Channels([peer]), Stopped, false, false)
    ensures fate.Outcome() == Raised ==> Account(t, Channels([peer]), RecoveryRequired, false, false)
    ensures fate.Outcome() == Answered ==> Account(t, Channels([peer]), ending, false, true)
  {
    More(before, fate.Said(FundCancel(peer)));
    MoreOf(before, fate.Said(FundCancel(peer)), peer);
    assert LeftOpen(t, peer) <==> fate.Outcome() != Answered;
  }

  /** How the operation goes on after a call: as planned, not at all, or by asking what became of it. */
  datatype Step = Go | Halt(ending: Ending) | Unsure

  class FundingRun {
    const world: World
    const journal: RecoveryJournal
    const adapter: JoinMarketAdapter
    const lifecycle: OperationLifecycle
    var locked: seq<Outpoint>
    /** What the operation is about, and what it asked and was told so far; only the books. */
    ghost const aim: Aim
    ghost var trace: seq<Event>

    constructor (world: World, journal: RecoveryJournal, adapter: JoinMarketAdapter, lifecycle: OperationLifecycle,
                 ghost aim: Aim)
      ensures this.world == world && this.journal == journal && this.adapter == adapter && this.lifecycle == lifecycle
      ensures locked == [] && this.aim == aim && trace == []
    {
      this.world, this.journal, this.adapter, this.lifecycle := world, journal, adapter, lifecycle;
      locked := [];
      this.aim, trace := aim, [];
    }

    ghost predicate Wired()
    {
      adapter.world == world && journal.world == world && adapter.journal == journal
    }

    /** What cleanup relies on. */
    ghost predicate Holding()
      reads this`locked, world, adapter, lifecycle`phase, lifecycle`releaseLocks
    {
      && Wired() && adapter.Ready() && !world.d.terminal
      && (forall o :: o in locked ==> o in adapter.lockOwners)
      && (forall o :: o in adapter.lockOwners ==> o in locked || IsStray(world.d, o, adapter.lockOwners[o]))
      && (world.d.stray.Some? ==> StrayApart())
      && (lifecycle.releaseLocks ==> !world.d.sent)
    }

    /** The books are in order, and a transaction that is out was handed over by a call they hold. */
    ghost predicate Booked()
      reads this`trace, world
    {
      InOrder(trace, aim) && (world.d.sent ==> HandedOver(trace))
    }

    /** The stray lease is on a coin not counted among the locked ones, and nothing renews it. */
    ghost predicate StrayApart()
      requires world.d.stray.Some?
      reads this`locked, world, adapter, lifecycle`phase
    {
      && adapter.worker == Off && lifecycle.phase == Prestart
      && world.d.stray.value.outpoint !in locked && StraySafe(world.d, world.s)
    }

    /** While the body runs with all coins locked. */
    ghost predicate Running()
      reads this`locked, world, adapter, lifecycle`phase, lifecycle`releaseLocks
    {
      && Holding() && world.d.stray.None?
      && adapter.lockOwners.Keys == world.s.inputs
      && (forall o :: o in locked <==> o in world.s.inputs)
    }

    /**
     What the body of an operation leaves behind, whichever way it ends: coins that
     stay locked if it completed or asks for recovery, and books that account for
     what was sent and for what cleanup may give back.
     */
    ghost predicate Ends(e: Ending, terminalPhase: Phase)
      reads this`trace, world, lifecycle`phase, lifecycle`releaseLocks
    {
      && (e == Completed ==> lifecycle.phase == terminalPhase && (world.s.truthful ==> world.d.sent))
      && (lifecycle.phase == terminalPhase ==> !lifecycle.releaseLocks)
      && (e == RecoveryRequired ==> !lifecycle.releaseLocks && lifecycle.phase != terminalPhase)
      && Account(trace, aim, e, world.d.sent, lifecycle.releaseLocks)
    }

    /** The coins are locked, nothing was sent, and every channel or splice was acknowledged. */
    ghost predicate Opened(phase: Phase)
      reads this`locked, this`trace, world, adapter, lifecycle`phase, lifecycle`releaseLocks
    {
      && Running() && Booked() && Underway(trace, aim)
      && lifecycle.phase == phase && !lifecycle.releaseLocks && !world.d.sent
    }

    /** `for coin in selected: lock; locked.append`. */
    method LockAll(selected: seq<Outpoint>) returns (ok: bool)
      requires Holding() && locked == [] && adapter.lockOwners == map[] && adapter.worker == Off
      requires !world.d.sent && world.d.stray.None? && lifecycle.phase == Prestart
      modifies this`locked, world, adapter
      ensures Holding() && old(world.history) <= world.history
      ensures !world.d.sent && world.d.releases == old(world.d.releases)
      ensures ok ==> world.d.stray.None? && locked == selected
      ensures adapter.worker == Off
    {
      var i := 0;
      while i < |selected|
        invariant 0 <= i <= |selected| && locked == selected[..i]
        invariant Holding() && old(world.history) <= world.history
        invariant adapter.worker == Off && world.d.stray.None?
        invariant !world.d.sent && world.d.releases == old(world.d.releases)
      {
        PrefixGrows(selected, i);
        var fate: LockFate := *;
        ok := LockNext(selected[i], fate);
        if !ok { return; }
        i := i + 1;
      }
      ok := true;
    }

    /** One coin of the loop. */
    method LockNext(o: Outpoint, fate: LockFate) returns (ok: bool)
      requires Holding() && adapter.worker == Off && lifecycle.phase == Prestart
      requires !world.d.sent && world.d.stray.None?
      modifies this`locked, world, adapter
      ensures Holding() && old(world.history) <= world.history && adapter.worker == Off
      ensures !world.d.sent && world.d.releases == old(world.d.releases)
      ensures locked == if ok then old(locked) + [o] else old(locked)
      ensures ok ==> world.d.stray.None? && fate.Succeeds()
      ensures world.d.stray.Some? ==> StrayFrom(world.d.stray.value, o, old(world.d.now))
      ensures fate.quiet && o !in old(locked) && Available(old(world.d), o) ==>
                (world.d.stray.Some? <==> fate.ahead.Works? && fate.Strays())
      ensures fate.quiet && o !in old(adapter.lockOwners) && Available(old(world.d), o) ==> (ok <==> fate.Succeeds())
      ensures fate.quiet ==> world.d.now == old(world.d.now)
      ensures fate.quiet && ok ==> adapter.HoldsNow(world.d, o)
      ensures ok ==> adapter.lockOwners.Keys == old(adapter.lockOwners.Keys) + {o}
      ensures adapter.renewalFailed == old(adapter.renewalFailed)
    {
      ok := adapter.Lock(o, fate);
      if ok { locked := locked + [o]; }
    }

    /** Plan, lock, start the renewal worker and renew: nothing has been asked of CLN yet. */
    method ReserveInputs(selected: seq<Outpoint>) returns (ok: bool)
      requires Holding() && locked == [] && adapter.lockOwners == map[] && adapter.worker == Off
      requires lifecycle.phase == Prestart && lifecycle.releaseLocks && !world.d.sent && world.d.stray.None?
      requires forall o :: o in selected <==> o in world.s.inputs
      requires trace == []
      modifies this`locked, this`trace, world, adapter, lifecycle`phase
      ensures Holding() && old(world.history) <= world.history
      ensures !world.d.sent && world.d.releases == old(world.d.releases)
      ensures lifecycle.phase == Prestart || lifecycle.phase == Locked
      ensures ok ==> Running() && lifecycle.phase == Locked
      ensures trace == if ok then READY else [Setback]
    {
      var planned: bool := *;
      ok := planned;
      if ok { ok := LockSelected(selected); }
      if !ok { trace := [Setback]; }
    }

    /** The locks, the renewal worker and the first renewal. */
    method LockSelected(selected: seq<Outpoint>) returns (ok: bool)
      requires Holding() && locked == [] && adapter.lockOwners == map[] && adapter.worker == Off
      requires lifecycle.phase == Prestart && lifecycle.releaseLocks && !world.d.sent && world.d.stray.None?
      requires forall o :: o in selected <==> o in world.s.inputs
      requires trace == []
      modifies this`locked, this`trace, world, adapter, lifecycle`phase
      ensures ok ==> trace == READY
      ensures Holding() && old(world.history) <= world.history
      ensures !world.d.sent && world.d.releases == old(world.d.releases)
      ensures lifecycle.phase == Prestart || lifecycle.phase == Locked
      ensures ok ==> Running() && lifecycle.phase == Locked
    {
      ok := LockAll(selected);
      if !ok { return; }
      ok := KeepLocked(false);
    }

    /** The renewal worker and the first renewal; if nothing fails (`smooth`) both succeed for coins that are held. */
    method KeepLocked(smooth: bool) returns (ok: bool)
      requires Holding() && adapter.worker == Off && world.d.stray.None? && !world.d.sent
      requires lifecycle.phase == Prestart && lifecycle.releaseLocks && trace == []
      requires adapter.lockOwners.Keys == world.s.inputs
      modifies this`trace, world, adapter`worker, adapter`renewalFailed, lifecycle`phase
      ensures Running() && old(world.history) <= world.history
      ensures !world.d.sent && world.d.releases == old(world.d.releases)
      ensures lifecycle.phase == Locked
      ensures ok ==> trace == READY
      ensures smooth && old(!adapter.renewalFailed && adapter.AllHoldNow(world.d, locked)) ==> ok
    {
      var legal := lifecycle.Transition(Locked);
      assert legal;
      ok := adapter.StartLockRenewal(smooth);
      if !ok { return; }
      NoteKeeping();
      ghost var first: int, since: nat;
      ok, first, since := RenewLocks(smooth);
    }

    /** The worker that renews the leases runs. */
    ghost method NoteKeeping()
      requires adapter.worker != Off
      modifies this`trace
      ensures trace == old(trace) + [LeasesKept]
    {
      trace := trace + [LeasesKept];
    }

    /** One more line in the books, about anything but a hand-over. */
    ghost method Note(e: Event)
      requires e != LeasesKept && e != LeasesRenewed
      requires (e.Called? ==> !HandsOver(e.request)) && InPlace(trace, e, aim)
      modifies this`trace
      ensures trace == old(trace) + [e]
      ensures old(Booked()) ==> Booked()
    {
      if Booked() { StillInOrder(trace, e, aim); }
      More(trace, e);
      trace := trace + [e];
    }

    /** The write ahead of a call to CLN. */
    method JournalBefore(action: string, phase: Phase, psbt: Option<string>, txid: Option<string>, fate: Fate)
      returns (ok: bool)
      requires Running() && (txid == None || txid == Some(world.s.txid))
      modifies world
      ensures Running() && old(world.history) <= world.history
      ensures world.d.sent == old(world.d.sent) && world.d.releases == old(world.d.releases)
      ensures ok && txid.Some? ==> Lookup(world.d.file, world.s.rid).txid == txid
      ensures ok <==> fate.Works?
    {
      ok := adapter.JournalMutation(action, Name(phase), locked, adapter.lockOwners, psbt, txid, fate);
    }

    method JournalAfter(phase: Phase, txid: Option<string>, fate: Fate) returns (ok: bool)
      requires Running() && (txid == None || txid == Some(world.s.txid))
      modifies world
      ensures Running() && old(world.history) <= world.history
      ensures world.d.sent == old(world.d.sent) && world.d.releases == old(world.d.releases)
      ensures ok <==> fate.Works?
    {
      var ch := AfterChanges(Name(phase), txid);
      OwnWriteIsGood(world.d, world.s, ch);
      LookupOfUpdated(world.d.file, world.s.rid, ch);
      ok := journal.Update(world.s.rid, ch, fate);
    }

    /** The signed splice and its id go on record before the transaction is handed over. */
    method RecordSigned(psbt: string) returns (ok: bool)
      requires Running()
      modifies world
      ensures Running() && old(world.history) <= world.history
      ensures world.d.sent == old(world.d.sent) && world.d.releases == old(world.d.releases)
    {
      var ch := Changes(None, None, None, None, None, Some(Some(psbt)), Some(Some(world.s.txid)));
      OwnWriteIsGood(world.d, world.s, ch);
      LookupOfUpdated(world.d.file, world.s.rid, ch);
      var fate: Fate := *;
      ok := journal.Update(world.s.rid, ch, fate);
    }

    method Interfere()
      requires Running()
      modifies adapter`worker, adapter`renewalFailed, world
      ensures Running() && old(world.history) <= world.history
      ensures world.d.sent == old(world.d.sent) && world.d.releases == old(world.d.releases)
      ensures Lookup(world.d.file, world.s.rid).txid == old(Lookup(world.d.file, world.s.rid).txid)
    {
      adapter.Interfere(false);
    }

    /** On success every coin is ours, in each durable state from `since` on, until a TTL after `first` has passed. */
    method RenewLocks(smooth: bool) returns (ok: bool, ghost first: int, ghost since: nat)
      requires Running()
      modifies this`trace, adapter`worker, adapter`renewalFailed, world
      ensures Running() && old(world.history) <= world.history
      ensures world.d.sent == old(world.d.sent) && world.d.releases == old(world.d.releases)
      ensures trace == old(trace) + [if ok then LeasesRenewed else Setback]
      ensures old(Booked()) ==> Booked()
      ensures since < |world.history| && old(world.d.now) <= first
      ensures ok ==> forall i :: since <= i < |world.history| ==>
                adapter.AllHeldIn(world.history[i], locked, first + LOCK_TTL_SECONDS)
      ensures smooth && old(!adapter.renewalFailed && adapter.AllHoldNow(world.d, locked)) ==> ok
    {
      ok, first, since := adapter.RenewAndProceed(locked, smooth);
      ghost var e := if ok then LeasesRenewed else Setback;
      if Booked() { StillInOrder(trace, e, aim); }
      More(trace, e);
      trace := trace + [e];
    }

    /** The transaction leaves: only under a record that names it and its inputs. */
    method HandOver()
      requires Running() && !lifecycle.releaseLocks
      requires Lookup(world.d.file, world.s.rid).txid == Some(world.s.txid)
      modifies world
      ensures Running() && old(world.history) <= world.history
      ensures world.d == old(world.d).(sent := true)
    {
      var o :| o in world.s.inputs;
      assert o in Lookup(world.d.file, world.s.rid).lockedOutpoints;
      world.Step(world.d.(sent := true));
    }

    /** `journal.call`, made only when it is due: write ahead, call, write after. */
    method Call(request: Request, phase: Phase, txid: Option<string>, fate: CallFate) returns (r: Outcome)
      requires Running() && Booked() && (txid == None || txid == Some(world.s.txid))
      requires Due(trace, request, aim)
      requires HandsOver(request) ==> txid.Some? && !lifecycle.releaseLocks
      modifies this`trace, adapter`worker, adapter`renewalFailed, world
      ensures Running() && Booked() && old(world.history) <= world.history
      ensures trace == old(trace) + [fate.Said(request)] && r == fate.Outcome()
      ensures !HandsOver(request) || fate.Reply() == Unasked ==> world.d.sent == old(world.d.sent)
      ensures HandsOver(request) && fate.Reply() == Received && world.s.truthful ==> world.d.sent
      ensures world.d.releases == old(world.d.releases)
    {
      r := Perform(request, phase, txid, fate);
      StillInOrder(trace, fate.Said(request), aim);
      More(trace, fate.Said(request));
      trace := trace + [fate.Said(request)];
    }

    method Perform(request: Request, phase: Phase, txid: Option<string>, fate: CallFate) returns (r: Outcome)
      requires Running() && (txid == None || txid == Some(world.s.txid))
      requires HandsOver(request) ==> txid.Some? && !lifecycle.releaseLocks
      modifies adapter`worker, adapter`renewalFailed, world
      ensures Running() && old(world.history) <= world.history
      ensures r == fate.Outcome()
      ensures !HandsOver(request) || fate.Reply() == Unasked ==> world.d.sent == old(world.d.sent)
      ensures HandsOver(request) && fate.Reply() == Received && world.s.truthful ==> world.d.sent
      ensures world.d.releases == old(world.d.releases)
    {
      var recorded := Announce(request, phase, txid, fate.ahead);
      if fate.cut == BeforeAsking { return Interrupted; }
      if !recorded { return Raised; }
      Ask(request, fate);
      if fate.cut == AfterAsking { return Interrupted; }
      if !fate.answers { return Raised; }
      var settled := NoteAnswer(phase, txid, fate.settle);
      if fate.cut == AfterAnswer { return Interrupted; }
      r := if settled then Answered else Raised;
    }

    /** The first call of all. */
    method CallFirst(request: Request, fate: CallFate) returns (r: Outcome)
      requires Running() && !world.d.sent && trace == READY && IsOpening(request, aim)
      modifies this`trace, world, adapter`worker, adapter`renewalFailed
      ensures Running() && Booked() && !world.d.sent && old(world.history) <= world.history
      ensures world.d.releases == old(world.d.releases)
      ensures r == fate.Outcome() && trace == READY + [fate.Said(request)]
    {
      Ready(aim);
      OpeningCall(fate.Said(request), aim);
      r := Call(request, lifecycle.phase, None, fate);
    }

    /**
     The call that opens a channel or a splice at CLN. If nobody knows what became
     of it, or its answer is of no use, the coins stay locked for recovery; an
     interruption leaves cleanup free to give them back.
     */
    method Begin(request: Request, usable: bool, ghost terminalPhase: Phase) returns (step: Step)
      requires Running() && lifecycle.phase == Locked && lifecycle.releaseLocks && !world.d.sent
      requires trace == READY && IsOpening(request, aim) && terminalPhase != Locked
      modifies this`trace, world, adapter`worker, adapter`renewalFailed, lifecycle`phase, lifecycle`releaseLocks
      ensures Running() && old(world.history) <= world.history
      ensures world.d.releases == old(world.d.releases)
      ensures step.Go? || step.Halt?
      ensures step.Halt? ==> Ends(step.ending, terminalPhase) && step.ending != Completed
      ensures step.Go? ==> Opened(Started) && trace == READY + [Through(request)]
    {
      var fate: CallFate := *;
      OpeningCall(fate.Said(request), aim);
      var r := CallFirst(request, fate);
      if r == Interrupted { return Halt(Stopped); }
      lifecycle.releaseLocks := false;
      if r == Raised { return Halt(RecoveryRequired); }
      step := Use(usable, terminalPhase);
    }

    /** The answer to the opening call, if it is of any use. */
    method Use(usable: bool, ghost terminalPhase: Phase) returns (step: Step)
      requires Opened(Locked) && terminalPhase != Locked
      modifies this`trace, lifecycle`phase
      ensures Running() && (step.Go? || step == Halt(RecoveryRequired))
      ensures step.Halt? ==> Ends(RecoveryRequired, terminalPhase)
      ensures step.Go? ==> Opened(Started) && trace == old(trace)
    {
      if !usable {
        GiveUp(RecoveryRequired, terminalPhase);
        return Halt(RecoveryRequired);
      }
      Advance(Started);
      step := Go;
    }

    /** A change of phase on the way to the hand-over. */
    method Advance(target: Phase)
      requires Opened(lifecycle.phase) && target in Allowed(lifecycle.phase)
      modifies lifecycle`phase
      ensures Opened(target)
    {
      var legal := lifecycle.Transition(target);
      assert legal;
    }

    /** `renew_locks` before the next step; if it fails the operation ends here, coins kept. */
    method RenewOpened(ghost terminalPhase: Phase) returns (ok: bool)
      requires Opened(lifecycle.phase) && lifecycle.phase != terminalPhase
      modifies this`trace, adapter`worker, adapter`renewalFailed, world
      ensures Running() && !world.d.sent && old(world.history) <= world.history
      ensures world.d.releases == old(world.d.releases)
      ensures ok ==> Opened(lifecycle.phase) && trace == old(trace) + [LeasesRenewed]
      ensures !ok ==> Ends(Failed, terminalPhase)
    {
      RenewalKeepsOpen(trace, aim);
      ghost var first: int, since: nat;
      ok, first, since := RenewLocks(false);
      if !ok { Halts(trace, aim, Failed, false); }
    }

    /** The leases are renewed, then the call is made. */
    method RenewAndCall(request: Request, txid: Option<string>, ghost terminalPhase: Phase) returns (step: Step)
      requires Opened(lifecycle.phase) && lifecycle.phase != terminalPhase
      requires (txid == None || txid == Some(world.s.txid)) && (HandsOver(request) ==> txid.Some?)
      requires Placed(trace, request, aim) && !request.FundCancel?
      modifies this`trace, adapter`worker, adapter`renewalFailed, world
      ensures Running() && old(world.history) <= world.history
      ensures world.d.releases == old(world.d.releases)
      ensures step.Halt? ==> Ends(step.ending, terminalPhase) && step.ending != Completed
      ensures !HandsOver(request) ==> !world.d.sent
      ensures !step.Halt? ==> Booked() && AllOpened(trace, aim) && StillOpen(trace, aim)
      ensures !step.Halt? ==> if HandsOver(request) then Tried(trace) else Opened(lifecycle.phase)
      ensures step.Unsure? ==> Trouble(trace)
      ensures step.Go? && HandsOver(request) ==> Delivered(trace)
      ensures step.Go? ==> trace == old(trace) + [LeasesRenewed] + [Through(request)]
      ensures step.Go? && HandsOver(request) && world.s.truthful ==> world.d.sent
    {
      DueOnceRenewed(trace, request, aim);
      var renewed := RenewOpened(terminalPhase);
      if !renewed { return Halt(Failed); }
      step := MakeCall(request, txid, terminalPhase);
    }

    /**
     A call made with everything open. An interruption ends the operation, coins
     kept; if the call raises, the operation has to find out what became of it.
     */
    method MakeCall(request: Request, txid: Option<string>, ghost terminalPhase: Phase) returns (step: Step)
      requires Opened(lifecycle.phase) && lifecycle.phase != terminalPhase
      requires (txid == None || txid == Some(world.s.txid)) && (HandsOver(request) ==> txid.Some?)
      requires Due(trace, request, aim) && !request.FundCancel?
      modifies this`trace, adapter`worker, adapter`renewalFailed, world
      ensures Running() && old(world.history) <= world.history
      ensures world.d.releases == old(world.d.releases)
      ensures step.Halt? ==> Ends(step.ending, terminalPhase) && step.ending != Completed
      ensures !HandsOver(request) ==> !world.d.sent
      ensures !step.Halt? ==> Booked() && AllOpened(trace, aim) && StillOpen(trace, aim)
      ensures !step.Halt? ==> if HandsOver(request) then Tried(trace) else Opened(lifecycle.phase)
      ensures step.Unsure? ==> Trouble(trace)
      ensures step.Go? && HandsOver(request) ==> Delivered(trace)
      ensures step.Go? ==> trace == old(trace) + [Through(request)]
      ensures step.Go? && HandsOver(request) && world.s.truthful ==> world.d.sent
    {
      ghost var before := trace;
      var fate: CallFate := *;
      var r := Call(request, lifecycle.phase, txid, fate);
      MoreCalls(before, aim, request, fate, world.d.sent);
      step := if r == Answered then Go else if r == Interrupted then Halt(Stopped) else Unsure;
    }

    /** The write ahead of the call, with interference on both sides of it. */
    method Announce(request: Request, phase: Phase, txid: Option<string>, fate: Fate) returns (ok: bool)
      requires Running() && (txid == None || txid == Some(world.s.txid))
      modifies adapter`worker, adapter`renewalFailed, world
      ensures Running() && old(world.history) <= world.history
      ensures world.d.sent == old(world.d.sent) && world.d.releases == old(world.d.releases)
      ensures ok && txid.Some? ==> Lookup(world.d.file, world.s.rid).txid == txid
      ensures ok <==> fate.Works?
    {
      Interfere();
      ok := JournalBefore(Action(request), phase, Carried(request), txid, fate);
      Interfere();
    }

    /** The call itself. */
    method Ask(request: Request, fate: CallFate)
      requires Running() && fate.Reply() != Unasked
      requires HandsOver(request) ==> !lifecycle.releaseLocks
      requires HandsOver(request) ==> Lookup(world.d.file, world.s.rid).txid == Some(world.s.txid)
      modifies world
      ensures Running() && old(world.history) <= world.history
      ensures world.d == old(world.d) || (HandsOver(request) && world.d == old(world.d).(sent := true))
      ensures HandsOver(request) && fate.answers && world.s.truthful ==> world.d.sent
    {
      if HandsOver(request) && (fate.acts || (fate.answers && world.s.truthful)) { HandOver(); }
    }

    /** The write after an answer. */
    method NoteAnswer(phase: Phase, txid: Option<string>, fate: Fate) returns (ok: bool)
      requires Running() && (txid == None || txid == Some(world.s.txid))
      modifies adapter`worker, adapter`renewalFailed, world
      ensures Running() && old(world.history) <= world.history
      ensures world.d.sent == old(world.d.sent) && world.d.releases == old(world.d.releases)
      ensures ok <==> fate.Works?
    {
      Interfere();
      ok := JournalAfter(phase, txid, fate);
    }

    /** CLN's funding state: a transaction that left is never reported as still withheld. */
    method FundingStatus(peer: string) returns (status: Status)
      requires Running()
      modifies this`trace
      ensures Running() && trace == old(trace) + [Told(peer, status)]
      ensures old(Booked()) ==> Booked()
      ensures status == IsWithheld ==> !world.d.sent
      ensures status == IsBroadcast && world.s.truthful ==> world.d.sent
    {
      status := *;
      if status == IsWithheld && world.d.sent { status := IsBroadcast; }
      if status == IsBroadcast && !world.d.sent && world.s.truthful { status := Unknown; }
      Note(Told(peer, status));
    }

    /** Once everything is open, a failure or an interruption ends the operation, coins kept. */
    ghost method GiveUp(e: Ending, terminalPhase: Phase)
      requires Running() && Booked() && AllOpened(trace, aim) && StillOpen(trace, aim)
      requires !lifecycle.releaseLocks && lifecycle.phase != terminalPhase
      requires e == Failed || e == Stopped || e == RecoveryRequired
      modifies this`trace
      ensures Running() && Ends(e, terminalPhase)
    {
      More(trace, Setback);
      StaysOpen(trace, Setback, aim);
      Note(Setback);
      Halts(trace, aim, e, world.d.sent);
    }

    /** An answered hand-over completes the operation if the answer is the expected one. */
    method Accept(terminalPhase: Phase) returns (e: Ending)
      requires Running() && Booked() && AllOpened(trace, aim) && StillOpen(trace, aim) && Delivered(trace)
      requires lifecycle.phase != terminalPhase && terminalPhase in Allowed(lifecycle.phase)
      requires !lifecycle.releaseLocks && (world.s.truthful ==> world.d.sent)
      modifies this`trace, lifecycle`phase
      ensures Running() && Ends(e, terminalPhase)
    {
      var expected: bool := *;
      if !expected {
        GiveUp(RecoveryRequired, terminalPhase);
        return RecoveryRequired;
      }
      StillOpenIsNotClosed(trace, aim);
      var legal := lifecycle.Transition(terminalPhase);
      assert legal;
      e := Completed;
    }

    /** Cancel the channel open at CLN; only an answered cancel makes the inputs free again. */
    method CancelAndFree(peer: string, txid: Option<string>, ending: Ending) returns (e: Ending)
      requires Running() && Booked() && !world.d.sent && Locked in Allowed(lifecycle.phase)
      requires ending == Failed || ending == Declined
      requires txid == None || txid == Some(world.s.txid)
      requires Due(trace, FundCancel(peer), aim) && AllOpened(trace, aim)
      requires Trouble(trace) && (ending == Declined ==> Decided(false) in trace)
      requires aim == Channels([peer])
      modifies this`trace, adapter`worker, adapter`renewalFailed, world, lifecycle`phase, lifecycle`releaseLocks
      ensures Running() && old(world.history) <= world.history
      ensures e == ending || e == RecoveryRequired || e == Stopped
      ensures e == ending <==> lifecycle.releaseLocks
      ensures e == ending ==> lifecycle.phase == Locked
      ensures Account(trace, aim, e, world.d.sent, lifecycle.releaseLocks)
      ensures !world.d.sent && world.d.releases == old(world.d.releases)
      ensures lifecycle.phase == old(lifecycle.phase) || lifecycle.phase == Locked
    {
      lifecycle.releaseLocks := false;
      var fate: CallFate := *;
      ghost var before := trace;
      var r := Call(FundCancel(peer), lifecycle.phase, txid, fate);
      AfterCancel(before, trace, peer, fate, ending);
      if r == Interrupted { return Stopped; }
      if r == Raised { return RecoveryRequired; }
      lifecycle.releaseLocks := true;
      var legal := lifecycle.Transition(Locked);
      assert legal;
      e := ending;
    }

    /**
     `cleanup` then `resolve_if_clean`, interruptible between any two steps. A
     stray lease is not among those given back.
     */
    method Finish(terminalPhase: Phase, fate: CleanupFate)
      requires Holding() && terminalPhase != Prestart
      modifies this, world, adapter, lifecycle
      ensures world.Valid() && old(world.history) <= world.history
      ensures world.d.sent == old(world.d.sent)
      ensures world.d.sent || !old(lifecycle.releaseLocks) ==> world.d.releases == old(world.d.releases)
      ensures !old(lifecycle.releaseLocks) && old(lifecycle.phase) != terminalPhase ==> HasId(world.d.file, world.s.rid)
      ensures world.d.stray == old(world.d.stray)
      ensures world.d.stray.Some? ==> StraySafe(world.d, world.s) && !world.d.terminal
      ensures old(lifecycle.cleanupErrors) > 0 ==> HasId(world.d.file, world.s.rid)
      ensures fate.Clean() && old(lifecycle.Done(terminalPhase)) ==> !HasId(world.d.file, world.s.rid)
      ensures fate.Clean() && old(lifecycle.Done(terminalPhase) && lifecycle.phase != terminalPhase) ==>
                AllGivenBack(world.d, world.s)
      ensures old(locked) == [] && fate.Clean() ==> world.d.now == old(world.d.now)
    {
      var stop := false;
      if lifecycle.releaseLocks {
        stop := UnlockAll(fate.smooth);
      }
      if stop || fate.cut { return; }
      CloseAndResolve(terminalPhase, fate);
      assert Good(world.d, world.s);
    }

    /** Close the wallet, then drop the record if no error was kept. */
    method CloseAndResolve(terminalPhase: Phase, fate: CleanupFate)
      requires Wired() && adapter.Ready() && !world.d.terminal && StraySafe(world.d, world.s)
      requires lifecycle.releaseLocks && lifecycle.cleanupErrors == 0 ==> OnlyStrayLeft()
      requires lifecycle.phase == terminalPhase ==> world.d.stray.None?
      modifies world, adapter`worker, adapter`renewalFailed, lifecycle`cleanupErrors
      ensures world.Valid() && old(world.history) <= world.history
      ensures world.d.sent == old(world.d.sent) && world.d.releases == old(world.d.releases)
      ensures !lifecycle.releaseLocks && lifecycle.phase != terminalPhase ==> HasId(world.d.file, world.s.rid)
      ensures world.d.stray == old(world.d.stray)
      ensures world.d.stray.Some? ==> StraySafe(world.d, world.s) && !world.d.terminal
      ensures old(lifecycle.cleanupErrors) > 0 ==> HasId(world.d.file, world.s.rid)
      ensures fate.Clean() && old(lifecycle.Done(terminalPhase)) ==> !HasId(world.d.file, world.s.rid)
      ensures old(lifecycle.phase) != terminalPhase ==> !world.d.terminal
      ensures fate.Clean() ==> world.d.now == old(world.d.now)
    {
      ghost var before := world.d;
      var closed := adapter.Close(fate.quiet, fate.closes);
      StrayStays(before, world.d, world.s);
      if !closed { lifecycle.cleanupErrors := lifecycle.cleanupErrors + 1; }
      if lifecycle.Done(terminalPhase) { DropRecord(terminalPhase, fate.resolve); }
    }

    /** The record goes: nothing is held any more, or the operation is through. */
    method DropRecord(terminalPhase: Phase, fate: Fate)
      requires Wired() && adapter.Ready() && !world.d.terminal && StraySafe(world.d, world.s)
      requires lifecycle.Done(terminalPhase) && (lifecycle.releaseLocks ==> OnlyStrayLeft())
      requires lifecycle.phase == terminalPhase ==> world.d.stray.None?
      modifies world
      ensures world.Valid() && old(world.history) <= world.history
      ensures world.d == old(world.d).(file := world.d.file, terminal := world.d.terminal)
      ensures world.d.stray.Some? ==> StraySafe(world.d, world.s) && !world.d.terminal
      ensures fate.Works? ==> !HasId(world.d.file, world.s.rid)
      ensures lifecycle.phase != terminalPhase ==> !world.d.terminal
    {
      var through := lifecycle.phase == terminalPhase;
      ResolveIsGood(world.d, world.s, world.s.rid, through);
      var resolved := journal.Resolve(world.s.rid, through, fate);
    }

    /** No owner token is left but that of a stray lease. */
    ghost predicate OnlyStrayLeft()
      reads world, adapter
    {
      forall o :: o in adapter.lockOwners ==> IsStray(world.d, o, adapter.lockOwners[o])
    }

    /** Every coin is tried; each failure is kept and the rest still go. */
    method UnlockAll(smooth: bool) returns (stop: bool)
      requires Holding() && !world.d.sent
      modifies world, adapter, lifecycle`cleanupErrors
      ensures Wired() && adapter.Ready() && !world.d.terminal && old(world.history) <= world.history
      ensures !world.d.sent && world.d.stray == old(world.d.stray) && StraySafe(world.d, world.s)
      ensures !stop && lifecycle.cleanupErrors == 0 ==> OnlyStrayLeft()
      ensures lifecycle.cleanupErrors >= old(lifecycle.cleanupErrors)
      ensures smooth ==> !stop && lifecycle.cleanupErrors == old(lifecycle.cleanupErrors)
      ensures locked == [] ==> world.d == old(world.d)
    {
      stop := false;
      var i := 0;
      while i < |locked|
        invariant 0 <= i <= |locked|
        invariant Wired() && adapter.Ready() && !world.d.terminal && old(world.history) <= world.history
        invariant !world.d.sent && world.d.stray == old(world.d.stray) && StraySafe(world.d, world.s)
        invariant lifecycle.cleanupErrors == 0 ==> forall j :: 0 <= j < i ==> locked[j] !in adapter.lockOwners
        invariant world.d.stray.Some? ==> world.d.stray.value.outpoint !in locked
        invariant forall o :: o in adapter.lockOwners ==> o in locked || IsStray(world.d, o, adapter.lockOwners[o])
        invariant lifecycle.cleanupErrors >= old(lifecycle.cleanupErrors)
        invariant smooth ==> !stop && lifecycle.cleanupErrors == old(lifecycle.cleanupErrors)
        invariant i == 0 ==> world.d == old(world.d)
      {
        stop := *;
        if stop && !smooth { return; }
        stop := false;
        var fate: UnlockFate := *;
        UnlockNext(locked[i], if smooth then UnlockFate(Works, Works, Works) else fate);
        i := i + 1;
      }
    }

    /** One coin of the loop; a failure counts as a cleanup error. */
    method UnlockNext(o: Outpoint, fate: UnlockFate)
      requires Wired() && adapter.Ready() && !world.d.sent && StraySafe(world.d, world.s) && !StrayOn(world.d, o)
      modifies world, adapter, lifecycle`cleanupErrors
      ensures adapter.Ready() && old(world.history) <= world.history
      ensures !world.d.sent && world.d.terminal == old(world.d.terminal)
      ensures world.d.stray == old(world.d.stray) && StraySafe(world.d, world.s)
      ensures adapter.lockOwners == old(adapter.lockOwners) || adapter.lockOwners == old(adapter.lockOwners) - {o}
      ensures lifecycle.cleanupErrors
              == old(lifecycle.cleanupErrors) + if o in old(adapter.lockOwners) && !fate.Works() then 1 else 0
      ensures o in old(adapter.lockOwners) && fate.Works() ==> o !in adapter.lockOwners
    {
      var ok := adapter.Unlock(o, fate);
      if !ok { lifecycle.cleanupErrors := lifecycle.cleanupErrors + 1; }
    }
  }

  /** `journal.begin` and the operation's objects. */
  method StartRun(world: World, operation: string, identity: map<string, Json>, ghost aim: Aim, fate: Fate)
    returns (run: FundingRun, ok: bool)
    requires world.Valid() && Fresh(world.d, world.s) && operation != PEERSWAP
    modifies world
    ensures fresh(run) && fresh(run.adapter) && fresh(run.lifecycle) && run.world == world
    ensures run.aim == aim && run.trace == []
    ensures world.Valid() && old(world.history) <= world.history
    ensures world.d.sent == old(world.d.sent) && world.d.releases == old(world.d.releases)
    ensures ok <==> fate.Works?
    ensures ok ==> world.d.file == old(world.d.file) + [NewRecord(world.s.rid, operation, identity)]
    ensures world.d.stray.None? && world.d.leases == old(world.d.leases) && world.d.now == old(world.d.now)
    ensures ok ==> run.Holding() && run.locked == [] && run.adapter.lockOwners == map[] && run.adapter.worker == Off
    ensures ok ==> !run.adapter.renewalFailed
    ensures ok ==> run.lifecycle.phase == Prestart && run.lifecycle.releaseLocks && run.lifecycle.cleanupErrors == 0
  {
    var journal := new RecoveryJournal(world);
    var adapter := new JoinMarketAdapter(world, journal);
    var lifecycle := new OperationLifecycle();
    run := new FundingRun(world, journal, adapter, lifecycle, aim);
    var record := NewRecord(world.s.rid, operation, identity);
    CreateIsGood(world.d, world.s, record);
    ok := journal.Write(world.d.file + [record], world.d.terminal, fate);
  }
}
