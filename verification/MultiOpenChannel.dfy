/** Several channels from one transaction: `MultiOpenChannelOperation.execute` after planning. */
module MultiOpenChannel {
  import opened Prelude
  import opened Sequences
  import opened Outpoints
  import opened Records
  import opened Worlds
  import opened Adapters
  import opened Lifecycles
  import opened Transcripts
  import opened FundingRuns

  /** Each of these peers has a channel open whose cancel is due. */
  ghost predicate MayCancel(t: seq<Event>, peers: seq<string>) {
    forall p :: p in peers ==> Through(FundStart(p)) in t && WithheldSince(t, p)
  }

  ghost predicate InterruptedCancel(t: seq<Event>, peers: seq<string>) {
    Interruption(t) && Last(t).request.FundCancel? && Last(t).request.peer in peers && LeftOpen(t, Last(t).request.peer)
  }

  /** Since `a` nothing but cancels of these peers was asked for. */
  ghost predicate OnlyCancels(a: seq<Event>, b: seq<Event>, peers: seq<string>) {
    Asides(a, b) && forall p :: p !in peers ==> LeftOpen(b, p) == LeftOpen(a, p)
  }

  /** The first of the cancels asked for; `failed` says which of them did not go through. */
  ghost predicate Cancelling(a: seq<Event>, b: seq<Event>, peers: seq<string>, failed: seq<bool>) {
    && OnlyCancels(a, b, peers) && MayCancel(b, peers) && (b == a || !Interruption(b))
    && |failed| <= |peers| && OpenAs(b, peers, failed)
  }

  /** One cancel more, answered, refused or interrupted. */
  lemma OneMoreCancel(a: seq<Event>, b: seq<Event>, e: Event, peers: seq<string>, failed: seq<bool>)
    requires Cancelling(a, b, peers, failed) && |failed| < |peers| && Distinct(peers)
    requires e.Called? && e.request == FundCancel(peers[|failed|]) && (e.outcome == Answered ==> e.reply == Received)
    ensures OnlyCancels(a, b + [e], peers)
    ensures e.outcome == Interrupted ==> InterruptedCancel(b + [e], peers)
    ensures e.outcome != Interrupted ==> Cancelling(a, b + [e], peers, failed + [e.outcome != Answered])
  {
    OneCancelMore(b, e, peers, failed);
    OneAsideMore(a, b, e);
    LastOf(b, e);
  }

  /**
   `_cancel_started_channels`: every peer is tried in turn; `failed` says which
   cancels did not go through, and of these peers just those are left open.
   */
  method CancelStarted(run: FundingRun, peers: seq<string>) returns (errors: nat, stop: bool, ghost failed: seq<bool>)
    requires run.Running() && run.Booked() && Distinct(peers) && MayCancel(run.trace, peers)
    modifies run`trace, run.world, run.adapter`worker, run.adapter`renewalFailed
    ensures run.Running() && run.Booked() && old(run.world.history) <= run.world.history
    ensures run.world.d.sent == old(run.world.d.sent) && run.world.d.releases == old(run.world.d.releases)
    ensures errors == multiset(failed)[true]
    ensures OnlyCancels(old(run.trace), run.trace, peers)
    ensures if stop then InterruptedCancel(run.trace, peers)
            else |failed| == |peers| && Cancelling(old(run.trace), run.trace, peers, failed)
  {
    errors, stop, failed := 0, false, [];
    for i := 0 to |peers|
      invariant |failed| == i && errors == multiset(failed)[true]
      invariant run.Running() && run.Booked() && old(run.world.history) <= run.world.history
      invariant run.world.d.sent == old(run.world.d.sent) && run.world.d.releases == old(run.world.d.releases)
      invariant Cancelling(old(run.trace), run.trace, peers, failed)
    {
      var cancelled: bool;
      cancelled, stop := CancelOne(run, peers, old(run.trace), failed);
      if stop { return; }
      if !cancelled { errors := errors + 1; }
      failed := failed + [!cancelled];
    }
  }

  /** The next cancel of the loop, made without the journal. */
  method CancelOne(run: FundingRun, peers: seq<string>, ghost start: seq<Event>, ghost failed: seq<bool>)
    returns (cancelled: bool, stop: bool)
    requires run.Running() && run.Booked() && Distinct(peers)
    requires Cancelling(start, run.trace, peers, failed) && |failed| < |peers|
    modifies run`trace, run.world, run.adapter`worker, run.adapter`renewalFailed
    ensures run.Running() && run.Booked() && old(run.world.history) <= run.world.history
    ensures run.world.d.sent == old(run.world.d.sent) && run.world.d.releases == old(run.world.d.releases)
    ensures OnlyCancels(start, run.trace, peers)
    ensures stop ==> InterruptedCancel(run.trace, peers)
    ensures !stop ==> Cancelling(start, run.trace, peers, failed + [!cancelled])
  {
    run.Interfere();
    ghost var i := |failed|;
    var reply: Reply := *;
    cancelled, stop := *, *;
    ghost var q := FundCancel(peers[i]);
    ghost var e := if stop then Called(q, reply, Interrupted) else if cancelled then Through(q) else Called(q, reply, Raised);
    OneMoreCancel(start, run.trace, e, peers, failed);
    run.Note(e);
  }

  /** The states kept: the last one reported for each peer that could be asked. */
  ghost predicate Reported(states: map<string, Status>, peers: seq<string>, answers: seq<Status>)
    requires |answers| <= |peers|
  {
    && (forall i :: 0 <= i < |answers| && answers[i] != Unknown ==> peers[i] in states)
    && (forall p :: p in states ==> states[p] != Unknown && exists i :: Latest(peers, answers, p, states[p], i))
  }

  /** The i-th answer is the last that was one about this peer. */
  ghost predicate Latest(peers: seq<string>, answers: seq<Status>, p: string, status: Status, i: nat)
    requires |answers| <= |peers|
  {
    && i < |answers| && peers[i] == p && answers[i] == status
    && forall j :: i < j < |answers| && peers[j] == p ==> answers[j] == Unknown
  }

  /** One peer of the loop. */
  method AskNext(run: FundingRun, peers: seq<string>, i: nat, states: map<string, Status>, ghost answers: seq<Status>,
                 ghost start: seq<Event>) returns (status: Status)
    requires run.Running() && run.Booked() && Distinct(peers)
    requires i == |answers| < |peers| && Reported(states, peers, answers) && Learned(start, run.trace, peers, answers)
    modifies run`trace
    ensures run.Running() && run.Booked()
    ensures Reported(if status == Unknown then states else states[peers[i] := status], peers, answers + [status])
    ensures Learned(start, run.trace, peers, answers + [status])
    ensures status == IsWithheld ==> !run.world.d.sent
  {
    ghost var before := run.trace;
    status := run.FundingStatus(peers[i]);
    ReportedNext(states, peers, answers, status);
    OneAnswerMore(start, before, peers, answers, status);
  }

  /** `_get_funding_states`: the states CLN reported, and how many peers could not be asked. */
  method FundingStates(run: FundingRun, peers: seq<string>)
    returns (states: map<string, Status>, errors: nat, ghost answers: seq<Status>)
    requires run.Running() && run.Booked() && Distinct(peers)
    modifies run`trace
    ensures run.Running() && run.Booked() && |answers| == |peers| && Reported(states, peers, answers)
    ensures errors == multiset(answers)[Unknown]
    ensures IsWithheld in answers ==> !run.world.d.sent
    ensures Learned(old(run.trace), run.trace, peers, answers)
  {
    states, errors, answers := map[], 0, [];
    for i := 0 to |peers|
      invariant run.Running() && run.Booked() && |answers| == i && Reported(states, peers, answers)
      invariant errors == multiset(answers)[Unknown]
      invariant IsWithheld in answers ==> !run.world.d.sent
      invariant Learned(old(run.trace), run.trace, peers, answers)
    {
      var status := AskNext(run, peers, i, states, answers, old(run.trace));
      if status == Unknown { errors := errors + 1; } else { states := states[peers[i] := status]; }
      answers := answers + [status];
    }
  }

  lemma AllKnown(states: map<string, Status>, peers: seq<string>, answers: seq<Status>)
    requires |answers| == |peers| && Reported(states, peers, answers) && multiset(answers)[Unknown] == 0
    ensures forall i :: 0 <= i < |peers| ==> peers[i] in states
  {
    forall i | 0 <= i < |peers| ensures peers[i] in states {
      assert answers[i] in multiset(answers);
    }
  }

  lemma ReportedNext(states: map<string, Status>, peers: seq<string>, answers: seq<Status>, status: Status)
    requires |answers| < |peers| && Reported(states, peers, answers)
    ensures var next := if status == Unknown then states else states[peers[|answers|] := status];
            Reported(next, peers, answers + [status])
  {
    var next := if status == Unknown then states else states[peers[|answers|] := status];
    var more := answers + [status];
    forall p | p in next ensures next[p] != Unknown && exists i :: Latest(peers, more, p, next[p], i) {
      if status != Unknown && p == peers[|answers|] {
        assert Latest(peers, more, p, next[p], |answers|);
      } else {
        var i :| Latest(peers, answers, p, states[p], i);
        assert Latest(peers, more, p, next[p], i);
      }
    }
  }

  /** The state every part of the operation works on. */
  ghost predicate Ours(run: FundingRun, peers: seq<string>)
    reads run.lifecycle`cleanupErrors
  {
    run.aim == Channels(peers) && peers != [] && Distinct(peers) && run.lifecycle.cleanupErrors == 0
  }

  /** An error kept on the way ends in recovery, unless the run is interrupted. */
  ghost predicate Tidy(run: FundingRun, e: Ending)
    reads run.lifecycle`cleanupErrors
  {
    run.lifecycle.cleanupErrors == 0 || e == RecoveryRequired || e == Stopped
  }

  /** The `try` block. */
  method Fund(run: FundingRun, peers: seq<string>, selected: seq<Outpoint>, psbt: string) returns (e: Ending)
    requires run.Holding() && run.locked == [] && run.adapter.lockOwners == map[] && run.adapter.worker == Off
    requires run.lifecycle.phase == Prestart && run.lifecycle.releaseLocks
    requires !run.world.d.sent && run.world.d.stray.None?
    requires forall o :: o in selected <==> o in run.world.s.inputs
    requires Ours(run, peers) && run.trace == []
    modifies run, run.world, run.adapter, run.lifecycle
    ensures run.Holding() && old(run.world.history) <= run.world.history
    ensures run.Ends(e, Broadcast) && Tidy(run, e)
    ensures run.world.d.releases == old(run.world.d.releases)
  {
    var ok := run.ReserveInputs(selected);
    if !ok {
      OnlySetback(run.aim);
      return Failed;
    }
    e := Start(run, peers, psbt);
  }

  /** From the first `fundchannel_start` on. */
  method Start(run: FundingRun, peers: seq<string>, psbt: string) returns (e: Ending)
    requires run.Running() && run.lifecycle.phase == Locked && run.lifecycle.releaseLocks && !run.world.d.sent
    requires Ours(run, peers) && run.trace == READY
    modifies run`trace, run.world, run.adapter`worker, run.adapter`renewalFailed, run.lifecycle
    ensures run.Running() && old(run.world.history) <= run.world.history
    ensures run.Ends(e, Broadcast) && Tidy(run, e)
    ensures run.world.d.releases == old(run.world.d.releases)
  {
    var failure := StartAll(run, peers);
    if failure.Some? { return failure.value; }
    run.lifecycle.releaseLocks := false;
    run.Advance(Started);
    e := Prepare(run, peers, psbt);
  }

  /** `fundchannel_start` for every peer in turn; `None` if all of them answered. */
  method StartAll(run: FundingRun, peers: seq<string>) returns (failure: Option<Ending>)
    requires run.Running() && run.lifecycle.phase == Locked && run.lifecycle.releaseLocks && !run.world.d.sent
    requires Ours(run, peers) && run.trace == READY
    modifies run`trace, run.world, run.adapter`worker, run.adapter`renewalFailed, run.lifecycle
    ensures run.Running() && old(run.world.history) <= run.world.history
    ensures run.lifecycle.phase == Locked && !run.world.d.sent
    ensures failure.Some? ==> failure.value != Completed && run.Ends(failure.value, Broadcast) && Tidy(run, failure.value)
    ensures failure.None? ==> run.Booked() && run.lifecycle.cleanupErrors == 0
    ensures failure.None? ==> Underway(run.trace, run.aim) && Decided(false) !in run.trace
    ensures run.world.d.releases == old(run.world.d.releases)
  {
    Ready(run.aim);
    for i := 0 to |peers|
      invariant run.Running() && run.Booked() && old(run.world.history) <= run.world.history
      invariant run.lifecycle.phase == Locked && run.lifecycle.releaseLocks && !run.world.d.sent
      invariant run.lifecycle.cleanupErrors == 0
      invariant OpenedUpTo(run.trace, peers, i) && Decided(false) !in run.trace
      invariant run.world.d.releases == old(run.world.d.releases)
    {
      var e := StartNext(run, peers, i);
      if e.Some? { return e; }
    }
    AllOpenedNow(run.trace, peers);
    return None;
  }

  /** One peer of the loop. */
  method StartNext(run: FundingRun, peers: seq<string>, i: nat) returns (failure: Option<Ending>)
    requires run.Running() && run.Booked() && i < |peers| && Ours(run, peers)
    requires run.lifecycle.phase == Locked && run.lifecycle.releaseLocks && !run.world.d.sent
    requires OpenedUpTo(run.trace, peers, i) && Decided(false) !in run.trace
    modifies run`trace, run.world, run.adapter`worker, run.adapter`renewalFailed, run.lifecycle
    ensures run.Running() && run.Booked() && old(run.world.history) <= run.world.history
    ensures run.lifecycle.phase == Locked && !run.world.d.sent
    ensures failure.Some? ==> failure.value != Completed && run.Ends(failure.value, Broadcast) && Tidy(run, failure.value)
    ensures failure.None? ==> run.lifecycle.releaseLocks && run.lifecycle.cleanupErrors == 0
    ensures failure.None? ==> OpenedUpTo(run.trace, peers, i + 1) && Decided(false) !in run.trace
    ensures run.world.d.releases == old(run.world.d.releases)
  {
    var fate: CallFate := *;
    SameLoop(run.trace, FundStart(""), FundStart(peers[i]));
    OneOpeningMore(run.trace, fate.Said(FundStart(peers[i])), peers, i);
    LastOf(run.trace, fate.Said(FundStart(peers[i])));
    var r := run.Call(FundStart(peers[i]), Locked, None, fate);
    if r == Answered { return None; }
    NotAllStarted(run.trace, peers, i);
    if r == Interrupted { return Some(Stopped); }
    var e := AfterFailedStart(run, peers, i);
    return Some(e);
  }

  /** The channels started before the one that failed are cancelled; the coins stay locked all the same. */
  method AfterFailedStart(run: FundingRun, peers: seq<string>, i: nat) returns (e: Ending)
    requires run.Running() && run.Booked() && i < |peers| && Ours(run, peers)
    requires run.lifecycle.phase == Locked && run.lifecycle.releaseLocks && !run.world.d.sent
    requires OpenedUpTo(run.trace, peers, i) && LeftOpen(run.trace, peers[i])
    requires Trouble(run.trace) && !Interruption(run.trace)
    modifies run`trace, run.world, run.adapter`worker, run.adapter`renewalFailed, run.lifecycle
    ensures run.Running() && run.Booked() && old(run.world.history) <= run.world.history
    ensures e != Completed && run.lifecycle.phase == Locked && !run.world.d.sent
    ensures run.Ends(e, Broadcast) && Tidy(run, e)
    ensures run.world.d.releases == old(run.world.d.releases)
  {
    ghost var before := run.trace;
    MayCancelStarted(before, peers, i);
    var errors, stop, _ := CancelStarted(run, peers[..i]);
    AfterStartCancels(before, run.trace, peers, i, stop);
    run.lifecycle.cleanupErrors := run.lifecycle.cleanupErrors + errors;
    if stop { return Stopped; }
    run.lifecycle.releaseLocks := false;
    e := RecoveryRequired;
  }

  lemma MayCancelStarted(t: seq<Event>, peers: seq<string>, i: nat)
    requires i <= |peers| && OpenedUpTo(t, peers, i) && Distinct(peers)
    ensures MayCancel(t, peers[..i]) && Distinct(peers[..i])
  {
    DistinctPrefix(peers, i);
    forall p | p in peers[..i] ensures WithheldSince(t, p) { NothingWithheld(t, p); }
  }

  lemma AfterStartCancels(a: seq<Event>, b: seq<Event>, peers: seq<string>, i: nat, stop: bool)
    requires i < |peers| && Distinct(peers) && OpenedUpTo(a, peers, i) && LeftOpen(a, peers[i])
    requires Trouble(a) && !Interruption(a) && Asides(a, b) && InOrder(b, Channels(peers))
    requires forall p :: p !in peers[..i] ==> LeftOpen(b, p) == LeftOpen(a, p)
    requires if stop then InterruptedCancel(b, peers[..i]) else b == a || !Interruption(b)
    ensures Account(b, Channels(peers), if stop then Stopped else RecoveryRequired, false, stop)
  {
    NotAllOpened(a, peers, i);
    NotAllStarted(b, peers, i);
  }

  /** What became of the cancels decides what cleanup may do. */
  lemma AfterAllCancels(a: seq<Event>, b: seq<Event>, peers: seq<string>, failed: seq<bool>, stop: bool, ending: Ending)
    requires peers != [] && AllOpened(a, Channels(peers)) && Asides(a, b) && InOrder(b, Channels(peers))
    requires Trouble(a) && (ending == Failed || (ending == Declined && Decided(false) in a))
    requires !stop ==> |failed| == |peers| && OpenAs(b, peers, failed)
    requires stop ==> InterruptedCancel(b, peers)
    ensures stop ==> Account(b, Channels(peers), Stopped, false, false)
    ensures !stop && multiset(failed)[true] == 0 ==> Account(b, Channels(peers), ending, false, true)
    ensures !stop && multiset(failed)[true] > 0 ==> Account(b, Channels(peers), RecoveryRequired, false, false)
  {
    if !stop { AllTried(b, peers, failed); }
  }

  /** Cancel every channel; the inputs are free only if every cancel went through. */
  method CancelAllAndFree(run: FundingRun, peers: seq<string>, ending: Ending) returns (e: Ending)
    requires run.Running() && run.Booked() && Ours(run, peers) && !run.world.d.sent
    requires Locked in Allowed(run.lifecycle.phase) && run.lifecycle.phase != Broadcast && !run.lifecycle.releaseLocks
    requires AllOpened(run.trace, run.aim) && MayCancel(run.trace, peers)
    requires Trouble(run.trace) && (ending == Failed || (ending == Declined && Decided(false) in run.trace))
    modifies run`trace, run.world, run.adapter`worker, run.adapter`renewalFailed, run.lifecycle
    ensures run.Running() && old(run.world.history) <= run.world.history
    ensures e == ending || e == RecoveryRequired || e == Stopped
    ensures e == ending <==> run.lifecycle.releaseLocks
    ensures run.Ends(e, Broadcast) && Tidy(run, e)
    ensures run.world.d.releases == old(run.world.d.releases)
  {
    ghost var before := run.trace;
    var errors, stop, failed := CancelStarted(run, peers);
    AfterAllCancels(before, run.trace, peers, failed, stop, ending);
    run.lifecycle.cleanupErrors := run.lifecycle.cleanupErrors + errors;
    if stop { return Stopped; }
    e := FreeUnlessErrors(run, ending);
  }

  /** The inputs are free if every cancel went through. */
  method FreeUnlessErrors(run: FundingRun, ending: Ending) returns (e: Ending)
    requires run.Running() && !run.world.d.sent && (ending == Failed || ending == Declined)
    requires Locked in Allowed(run.lifecycle.phase) && run.lifecycle.phase != Broadcast
    requires run.lifecycle.cleanupErrors == 0 ==> Account(run.trace, run.aim, ending, false, true)
    requires run.lifecycle.cleanupErrors > 0 ==> Account(run.trace, run.aim, RecoveryRequired, false, false)
    modifies run.lifecycle`phase, run.lifecycle`releaseLocks
    ensures run.Running() && run.Ends(e, Broadcast)
    ensures e == if run.lifecycle.cleanupErrors == 0 then ending else RecoveryRequired
    ensures e == ending <==> run.lifecycle.releaseLocks
  {
    run.lifecycle.releaseLocks := run.lifecycle.cleanupErrors == 0;
    if !run.lifecycle.releaseLocks { return RecoveryRequired; }
    var legal := run.lifecycle.Transition(Locked);
    assert legal;
    e := ending;
  }

  /** Build the shared transaction; if that fails every channel open is cancelled. */
  method Prepare(run: FundingRun, peers: seq<string>, psbt: string) returns (e: Ending)
    requires run.Opened(Started) && Ours(run, peers) && Decided(false) !in run.trace
    modifies run`trace, run.world, run.adapter`worker, run.adapter`renewalFailed, run.lifecycle
    ensures run.Running() && old(run.world.history) <= run.world.history
    ensures run.Ends(e, Broadcast) && Tidy(run, e)
    ensures run.world.d.releases == old(run.world.d.releases)
  {
    var built: bool, stop: bool := *, *;
    if built && !stop {
      e := Confirm(run, peers, psbt);
      return;
    }
    if stop {
      run.GiveUp(Stopped, Broadcast);
      return Stopped;
    }
    More(run.trace, Setback);
    run.Note(Setback);
    // The error's type asks for recovery; with every channel cancelled there is nothing to recover.
    MayCancelAll(run.trace, peers);
    e := CancelAllAndFree(run, peers, Failed);
  }

  lemma MayCancelAll(t: seq<Event>, peers: seq<string>)
    requires AllOpened(t, Channels(peers)) && !Tried(t)
    ensures MayCancel(t, peers)
  {
    forall p | p in peers ensures WithheldSince(t, p) { NothingWithheld(t, p); }
  }

  /** Ask for confirmation, renew the leases, complete every channel. */
  method Confirm(run: FundingRun, peers: seq<string>, psbt: string) returns (e: Ending)
    requires run.Opened(Started) && Ours(run, peers) && Decided(false) !in run.trace
    modifies run`trace, run.world, run.adapter`worker, run.adapter`renewalFailed, run.lifecycle
    ensures run.Running() && old(run.world.history) <= run.world.history
    ensures run.Ends(e, Broadcast) && Tidy(run, e)
    ensures run.world.d.releases == old(run.world.d.releases)
  {
    var confirmed: bool := *;
    More(run.trace, Decided(confirmed));
    StaysOpen(run.trace, Decided(confirmed), run.aim);
    run.Note(Decided(confirmed));
    if !confirmed {
      MayCancelAll(run.trace, peers);
      e := CancelAllAndFree(run, peers, Declined);
      return;
    }
    e := Finish(run, peers, psbt);
  }

  /** Renew the leases, complete every channel, hand the transaction over. */
  method Finish(run: FundingRun, peers: seq<string>, psbt: string) returns (e: Ending)
    requires run.Opened(Started) && Ours(run, peers) && Approved(run.trace)
    modifies run`trace, run.world, run.adapter`worker, run.adapter`renewalFailed, run.lifecycle
    ensures run.Running() && old(run.world.history) <= run.world.history
    ensures run.Ends(e, Broadcast) && Tidy(run, e)
    ensures run.world.d.releases == old(run.world.d.releases)
  {
    var failure := CompleteAll(run, peers, psbt);
    if failure.Some? { return failure.value; }
    e := Send(run, peers, psbt);
  }

  /** The user agreed, the leases were renewed, and the first `i` channels are completed with this PSBT. */
  ghost predicate CompletedUpTo(t: seq<Event>, peers: seq<string>, psbt: string, i: nat)
    requires i <= |peers|
  {
    && Approved(t) && Renewing(t, FundComplete("", psbt))
    && forall j :: 0 <= j < i ==> Through(FundComplete(peers[j], psbt)) in t
  }

  /** The one renewal before the loop of completions. */
  method RenewToComplete(run: FundingRun, peers: seq<string>, psbt: string) returns (ok: bool)
    requires run.Opened(Started) && Ours(run, peers) && Approved(run.trace)
    modifies run`trace, run.world, run.adapter`worker, run.adapter`renewalFailed
    ensures run.Running() && old(run.world.history) <= run.world.history
    ensures ok ==> run.Opened(Started) && CompletedUpTo(run.trace, peers, psbt, 0)
    ensures !ok ==> run.Ends(Failed, Broadcast)
    ensures run.world.d.releases == old(run.world.d.releases)
  {
    NoneCompleted(run.trace, peers, psbt);
    ok := run.RenewOpened(Broadcast);
  }

  lemma NoneCompleted(t: seq<Event>, peers: seq<string>, psbt: string)
    requires Approved(t)
    ensures CompletedUpTo(t + [LeasesRenewed], peers, psbt, 0)
  {
    LastOf(t, LeasesRenewed);
  }

  /** The leases are renewed, then `fundchannel_complete` for every channel in turn; `None` if all of them answered. */
  method CompleteAll(run: FundingRun, peers: seq<string>, psbt: string) returns (failure: Option<Ending>)
    requires run.Opened(Started) && Ours(run, peers) && Approved(run.trace)
    modifies run`trace, run.world, run.adapter`worker, run.adapter`renewalFailed, run.lifecycle
    ensures run.Running() && old(run.world.history) <= run.world.history
    ensures failure.Some? ==> run.Ends(failure.value, Broadcast) && Tidy(run, failure.value)
    ensures failure.None? ==> run.Opened(Started) && Ours(run, peers) && Placed(run.trace, SendPsbt(psbt), run.aim)
    ensures run.world.d.releases == old(run.world.d.releases)
  {
    var ok := RenewToComplete(run, peers, psbt);
    if !ok { return Some(Failed); }
    for i := 0 to |peers|
      invariant run.Opened(Started) && old(run.world.history) <= run.world.history
      invariant Ours(run, peers) && CompletedUpTo(run.trace, peers, psbt, i)
      invariant run.world.d.releases == old(run.world.d.releases)
    {
      failure := CompleteNext(run, peers, psbt, i);
      if failure.Some? { return; }
    }
    AllCompleted(run.trace, peers, psbt);
    failure := None;
  }

  /** One channel of the loop. */
  method CompleteNext(run: FundingRun, peers: seq<string>, psbt: string, i: nat) returns (failure: Option<Ending>)
    requires run.Opened(Started) && Ours(run, peers) && i < |peers| && CompletedUpTo(run.trace, peers, psbt, i)
    modifies run`trace, run.world, run.adapter`worker, run.adapter`renewalFailed, run.lifecycle
    ensures run.Running() && old(run.world.history) <= run.world.history
    ensures failure.Some? ==> run.Ends(failure.value, Broadcast) && Tidy(run, failure.value)
    ensures failure.None? ==> run.Opened(Started) && Ours(run, peers) && CompletedUpTo(run.trace, peers, psbt, i + 1)
    ensures run.world.d.releases == old(run.world.d.releases)
  {
    OneCompletionMore(run.trace, peers, psbt, i);
    var step := run.MakeCall(FundComplete(peers[i], psbt), Some(run.world.s.txid), Broadcast);
    if step.Halt? { return Some(step.ending); }
    if step.Go? { return None; }
    var e := AfterFailedComplete(run, peers);
    return Some(e);
  }

  lemma OneCompletionMore(t: seq<Event>, peers: seq<string>, psbt: string, i: nat)
    requires i < |peers| && CompletedUpTo(t, peers, psbt, i) && AllOpened(t, Channels(peers))
    ensures Due(t, FundComplete(peers[i], psbt), Channels(peers))
    ensures CompletedUpTo(t + [Through(FundComplete(peers[i], psbt))], peers, psbt, i + 1)
  {
    assert Through(FundStart(peers[i])) in t;
    SameLoop(t, FundComplete("", psbt), FundComplete(peers[i], psbt));
    StillRenewing(t, Through(FundComplete(peers[i], psbt)), FundComplete("", psbt));
  }

  /**
   The broadcast test of the source runs over the peers' names, so it never
   holds and only failed queries stop here. Going on is safe because nothing has
   been sent at this point.
   */
  method AfterFailedComplete(run: FundingRun, peers: seq<string>) returns (e: Ending)
    requires run.Opened(Started) && Ours(run, peers) && Trouble(run.trace)
    modifies run`trace, run.world, run.adapter`worker, run.adapter`renewalFailed, run.lifecycle
    ensures run.Running() && old(run.world.history) <= run.world.history
    ensures e != Completed && run.Ends(e, Broadcast) && Tidy(run, e)
    ensures run.world.d.releases == old(run.world.d.releases)
  {
    ghost var before := run.trace;
    var states, errors, answers := FundingStates(run, peers);
    AfterQuestions(before, run.trace, peers, answers, false);
    run.lifecycle.cleanupErrors := run.lifecycle.cleanupErrors + errors;
    if run.lifecycle.cleanupErrors > 0 { return RecoveryRequired; }
    MayCancelAll(run.trace, peers);
    e := CancelAllAndFree(run, peers, Failed);
  }

  /** If a peer could not be asked, or the hand-over was tried, nobody can say that all is closed. */
  lemma AfterQuestions(a: seq<Event>, b: seq<Event>, peers: seq<string>, answers: seq<Status>, sent: bool)
    requires |answers| == |peers| && Learned(a, b, peers, answers) && InOrder(b, Channels(peers))
    requires AllOpened(a, Channels(peers)) && StillOpen(a, Channels(peers)) && Trouble(a) && (sent ==> HandedOver(b))
    ensures AllOpened(b, Channels(peers)) && Trouble(b) && Tried(b) == Tried(a)
    ensures multiset(answers)[Unknown] > 0 || Tried(a) ==> Account(b, Channels(peers), RecoveryRequired, sent, false)
  {
    if multiset(answers)[Unknown] > 0 || Tried(a) {
      var j := 0;
      if multiset(answers)[Unknown] > 0 {
        assert Unknown in answers;
        j :| 0 <= j < |answers| && answers[j] == Unknown;
      }
      assert peers[j] in peers && LeftOpen(b, peers[j]);
    }
  }

  lemma AllCompleted(t: seq<Event>, peers: seq<string>, psbt: string)
    requires CompletedUpTo(t, peers, psbt, |peers|)
    ensures Placed(t, SendPsbt(psbt), Channels(peers))
  {
  }

  method Send(run: FundingRun, peers: seq<string>, psbt: string) returns (e: Ending)
    requires run.Opened(Started) && Ours(run, peers)
    requires Placed(run.trace, SendPsbt(psbt), run.aim)
    modifies run`trace, run.world, run.adapter`worker, run.adapter`renewalFailed, run.lifecycle
    ensures run.Running() && old(run.world.history) <= run.world.history
    ensures run.Ends(e, Broadcast) && Tidy(run, e)
    ensures run.world.d.releases == old(run.world.d.releases)
  {
    run.Advance(Withheld);
    var step := run.RenewAndCall(SendPsbt(psbt), Some(run.world.s.txid), Broadcast);
    if step.Halt? { return step.ending; }
    if step.Unsure? {
      e := AfterFailedSend(run, peers);
      return;
    }
    e := run.Accept(Broadcast);
  }

  /** Only when every peer answers and every one is still withheld may the channels be cancelled. */
  method AfterFailedSend(run: FundingRun, peers: seq<string>) returns (e: Ending)
    requires run.Running() && run.Booked() && run.lifecycle.phase == Withheld && !run.lifecycle.releaseLocks
    requires Ours(run, peers) && AllOpened(run.trace, run.aim) && StillOpen(run.trace, run.aim)
    requires Trouble(run.trace) && Tried(run.trace)
    modifies run`trace, run.world, run.adapter`worker, run.adapter`renewalFailed, run.lifecycle
    ensures run.Running() && old(run.world.history) <= run.world.history
    ensures e != Completed && run.Ends(e, Broadcast) && Tidy(run, e)
    ensures run.world.d.releases == old(run.world.d.releases)
  {
    var states := AskAll(run, peers);
    var ambiguous := SaysMore(states);
    if ambiguous || run.lifecycle.cleanupErrors > 0 { return RecoveryRequired; }
    e := CancelWithheld(run, peers, states);
  }

  /** The states of all channels; peers that cannot be asked count as errors. */
  method AskAll(run: FundingRun, peers: seq<string>) returns (states: map<string, Status>)
    requires run.Running() && run.Booked() && Ours(run, peers)
    requires AllOpened(run.trace, run.aim) && StillOpen(run.trace, run.aim)
    requires Trouble(run.trace) && Tried(run.trace)
    modifies run`trace, run.lifecycle`cleanupErrors
    ensures run.Running() && run.Booked() && AllOpened(run.trace, run.aim) && Trouble(run.trace)
    ensures Account(run.trace, run.aim, RecoveryRequired, run.world.d.sent, false)
    ensures run.lifecycle.cleanupErrors == 0 && OnlyWithheld(states) ==>
              AllWithheld(states, peers) && MayCancel(run.trace, peers) && !run.world.d.sent
  {
    ghost var before := run.trace;
    var errors: nat;
    ghost var answers: seq<Status>;
    states, errors, answers := FundingStates(run, peers);
    AfterAsking(before, run.trace, states, peers, answers, run.world.d.sent);
    run.lifecycle.cleanupErrors := run.lifecycle.cleanupErrors + errors;
  }

  lemma AfterAsking(a: seq<Event>, b: seq<Event>, states: map<string, Status>, peers: seq<string>, answers: seq<Status>,
                    sent: bool)
    requires |answers| == |peers| && peers != [] && Distinct(peers) && Reported(states, peers, answers)
    requires AllOpened(a, Channels(peers)) && StillOpen(a, Channels(peers)) && Trouble(a) && Tried(a)
    requires Learned(a, b, peers, answers) && InOrder(b, Channels(peers)) && (sent ==> HandedOver(b))
    requires IsWithheld in answers ==> !sent
    ensures AllOpened(b, Channels(peers)) && Trouble(b) && Account(b, Channels(peers), RecoveryRequired, sent, false)
    ensures multiset(answers)[Unknown] == 0 && OnlyWithheld(states) ==>
              AllWithheld(states, peers) && MayCancel(b, peers) && !sent
  {
    AfterQuestions(a, b, peers, answers, sent);
    if multiset(answers)[Unknown] == 0 && OnlyWithheld(states) {
      AllKnown(states, peers, answers);
      ProvedWithheld(a, b, states, peers, answers);
    }
  }

  /** Every peer's channel is known to be withheld. */
  ghost predicate AllWithheld(states: map<string, Status>, peers: seq<string>) {
    forall i :: 0 <= i < |peers| ==> peers[i] in states && states[peers[i]] == IsWithheld
  }

  /** No channel's funding is reported broadcast or absent. */
  ghost predicate OnlyWithheld(states: map<string, Status>) {
    forall p :: p in states ==> states[p] != IsBroadcast && states[p] != IsAbsent
  }

  /** Every channel is still withheld. */
  method CancelWithheld(run: FundingRun, peers: seq<string>, states: map<string, Status>) returns (e: Ending)
    requires run.Running() && run.Booked() && Ours(run, peers) && !run.world.d.sent
    requires run.lifecycle.phase == Withheld && !run.lifecycle.releaseLocks
    requires AllOpened(run.trace, run.aim) && MayCancel(run.trace, peers) && Trouble(run.trace)
    requires AllWithheld(states, peers)
    modifies run`trace, run.world, run.adapter`worker, run.adapter`renewalFailed, run.lifecycle
    ensures run.Running() && old(run.world.history) <= run.world.history
    ensures e != Completed && run.Ends(e, Broadcast) && Tidy(run, e)
    ensures run.world.d.releases == old(run.world.d.releases)
  {
    var withheld := WithheldPeers(peers, states);
    e := CancelAllAndFree(run, withheld, Failed);
  }

  /** Whether some channel's funding is reported broadcast or absent. */
  method SaysMore(states: map<string, Status>) returns (more: bool)
    ensures more <==> !OnlyWithheld(states)
  {
    more := IsBroadcast in states.Values || IsAbsent in states.Values;
  }

  lemma ProvedWithheld(a: seq<Event>, b: seq<Event>, states: map<string, Status>, peers: seq<string>,
                       answers: seq<Status>)
    requires |answers| == |peers| && Distinct(peers) && Reported(states, peers, answers)
    requires forall i :: 0 <= i < |peers| ==> peers[i] in states
    requires OnlyWithheld(states)
    requires AllOpened(a, Channels(peers)) && Learned(a, b, peers, answers)
    ensures AllWithheld(states, peers) && MayCancel(b, peers) && (peers != [] ==> IsWithheld in answers)
  {
    NothingElse(states, peers, answers);
    if peers != [] { assert answers[0] == IsWithheld; }
  }

  /** Every peer is in the dictionary, and nothing else is left for its state to be. */
  lemma NothingElse(states: map<string, Status>, peers: seq<string>, answers: seq<Status>)
    requires |answers| == |peers| && Distinct(peers) && Reported(states, peers, answers)
    requires forall i :: 0 <= i < |peers| ==> peers[i] in states
    requires OnlyWithheld(states)
    ensures forall i :: 0 <= i < |peers| ==> states[peers[i]] == IsWithheld && answers[i] == IsWithheld
  {
    DistinctMeans(peers);
    forall i | 0 <= i < |peers| ensures states[peers[i]] == IsWithheld && answers[i] == IsWithheld {
      var p := peers[i];
      assert states[p] != Unknown;
      var k: nat :| Latest(peers, answers, p, states[p], k);
      assert peers[k] == peers[i];
    }
  }

  /** The peers whose channel is still withheld, in the order of the dictionary. */
  method WithheldPeers(peers: seq<string>, states: map<string, Status>) returns (withheld: seq<string>)
    requires AllWithheld(states, peers)
    ensures withheld == peers
  {
    withheld := [];
    for i := 0 to |peers|
      invariant withheld == peers[..i]
    {
      PrefixGrows(peers, i);
      if peers[i] in states && states[peers[i]] == IsWithheld { withheld := withheld + [peers[i]]; }
    }
  }

  /**
   The whole operation. No destination, or one named twice, is refused before
   anything is written. The transaction goes out only once every channel is
   completed with it; coins are given back exactly when the last word on every
   channel is that it is closed, or a run was interrupted before all were open.
   */
  method Execute(world: World, peers: seq<string>, selected: seq<Outpoint>, psbt: string, cleanup: CleanupFate)
    returns (e: Ending, ghost trace: seq<Event>)
    requires world.Valid() && Fresh(world.d, world.s)
    requires forall o :: o in selected <==> o in world.s.inputs
    modifies world
    ensures world.Valid() && old(world.history) <= world.history
    ensures Answers(old(world.d), world.d, world.s, Channels(peers), trace, e, cleanup.Clean())
    ensures peers == [] || !Distinct(peers) ==> e == Failed && world.d == old(world.d)
  {
    OnlySetback(Channels(peers));
    if peers == [] || !Distinct(peers) { return Failed, [Setback]; }
    e, trace := Undertake(world, peers, selected, psbt, cleanup);
  }

  /** The operation for destinations that are worth it. */
  method Undertake(world: World, peers: seq<string>, selected: seq<Outpoint>, psbt: string, cleanup: CleanupFate)
    returns (e: Ending, ghost trace: seq<Event>)
    requires world.Valid() && Fresh(world.d, world.s) && peers != [] && Distinct(peers)
    requires forall o :: o in selected <==> o in world.s.inputs
    modifies world
    ensures world.Valid() && old(world.history) <= world.history
    ensures Answers(old(world.d), world.d, world.s, Channels(peers), trace, e, cleanup.Clean())
  {
    OnlySetback(Channels(peers));
    assert "multi_open_channel"[0] != PEERSWAP[0];
    var fate: Fate := *;
    var run, ok := StartRun(world, "multi_open_channel",
                            map["peers" := JList(seq(|peers|, i requires 0 <= i < |peers| => JText(peers[i])))],
                            Channels(peers), fate);
    if !ok { return Failed, [Setback]; }
    e := Fund(run, peers, selected, psbt);
    trace := run.trace;
    run.Finish(Broadcast, cleanup);
  }
}
