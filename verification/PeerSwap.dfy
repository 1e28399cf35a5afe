/**
 Prepared PeerSwap transactions: sent, discarded, closed, and retried after any
 part of it failed. A ghost log records what happened to the coins and to the
 transaction. Any lease may have run out, or have been taken over, whenever a call
 looks at it: at its renewal in a send, at its release in a cleanup.
 */
module PeerSwap {
  import opened Prelude
  import opened Outpoints

  datatype Phase = PREPARED | BROADCAST | DISCARDED

  /**
   Freed: a release call removed the lease. Unlocked: the release call returned.
   Sent: the broadcast took effect, whatever the caller was told.
   */
  datatype Event = Freed(coin: Outpoint) | Unlocked(coin: Outpoint) | Sent | BecameBroadcast | Closed

  predicate ConcernsCoin(e: Event) {
    e.Freed? || e.Unlocked?
  }

  ghost predicate AllUnlocked(log: seq<Event>, coins: set<Outpoint>) {
    forall o :: o in coins ==> Unlocked(o) in log
  }

  /** No coin is touched once the transaction is known to be broadcast. */
  ghost predicate KeptAfterBroadcast(log: seq<Event>) {
    forall i, j :: 0 <= i < j < |log| && log[i] == BecameBroadcast ==> !ConcernsCoin(log[j])
  }

  /** No coin is unlocked twice. */
  ghost predicate UnlockedOnce(log: seq<Event>) {
    forall i, j :: 0 <= i < j < |log| && log[i].Unlocked? && log[j].Unlocked? ==> log[i].coin != log[j].coin
  }

  /** The adapter, which holds the owner tokens, goes only after the broadcast or after every coin. */
  ghost predicate ClosedLast(log: seq<Event>, coins: set<Outpoint>) {
    forall i :: 0 <= i < |log| && log[i] == Closed ==>
      BecameBroadcast in log[..i] || AllUnlocked(log[..i], coins)
  }

  /** Nothing is sent of which a coin was given back. */
  ghost predicate SentWhole(log: seq<Event>) {
    forall i, j :: 0 <= i < j < |log| && log[j] == Sent ==> !ConcernsCoin(log[i])
  }

  /** Known to be broadcast only right after it was sent. */
  ghost predicate Confirmed(log: seq<Event>) {
    forall i :: 0 <= i < |log| && log[i] == BecameBroadcast ==> i > 0 && log[i - 1] == Sent
  }

  ghost predicate Sane(log: seq<Event>, coins: set<Outpoint>) {
    KeptAfterBroadcast(log) && UnlockedOnce(log) && ClosedLast(log, coins) && SentWhole(log) && Confirmed(log)
  }

  lemma ClosedLastAppend(log: seq<Event>, coins: set<Outpoint>, e: Event)
    requires ClosedLast(log, coins)
    requires e == Closed ==> BecameBroadcast in log || AllUnlocked(log, coins)
    ensures ClosedLast(log + [e], coins)
  {
    var n := log + [e];
    forall i | 0 <= i < |n| && n[i] == Closed
      ensures BecameBroadcast in n[..i] || AllUnlocked(n[..i], coins)
    {
      PrefixOfMore(log, e, i);
    }
  }

  lemma PrefixOfMore(log: seq<Event>, e: Event, i: nat)
    requires i <= |log|
    ensures (log + [e])[..i] == log[..i] && log[..|log|] == log
  {
  }

  lemma KeptAppend(log: seq<Event>, e: Event)
    requires KeptAfterBroadcast(log) && (ConcernsCoin(e) ==> BecameBroadcast !in log)
    ensures KeptAfterBroadcast(log + [e])
  {
  }

  lemma OnceAppend(log: seq<Event>, e: Event)
    requires UnlockedOnce(log) && (e.Unlocked? ==> e !in log)
    ensures UnlockedOnce(log + [e])
  {
    if e.Unlocked? {
      forall i | 0 <= i < |log| && log[i].Unlocked? ensures log[i].coin != e.coin {
        assert log[i] in log;
      }
    }
  }

  lemma WholeAppend(log: seq<Event>, e: Event)
    requires SentWhole(log) && (e == Sent ==> forall x :: x in log ==> !ConcernsCoin(x))
    ensures SentWhole(log + [e])
  {
  }

  lemma ConfirmedAppend(log: seq<Event>, e: Event)
    requires Confirmed(log) && (e == BecameBroadcast ==> log != [] && log[|log| - 1] == Sent)
    ensures Confirmed(log + [e])
  {
  }

  /** What each kind of event needs to keep the log sane. */
  lemma SaneAppend(log: seq<Event>, coins: set<Outpoint>, e: Event)
    requires Sane(log, coins)
    requires ConcernsCoin(e) ==> BecameBroadcast !in log
    requires e.Unlocked? ==> e !in log
    requires e == Closed ==> BecameBroadcast in log || AllUnlocked(log, coins)
    requires e == Sent ==> forall x :: x in log ==> !ConcernsCoin(x)
    requires e == BecameBroadcast ==> log != [] && log[|log| - 1] == Sent
    ensures Sane(log + [e], coins)
  {
    KeptAppend(log, e);
    OnceAppend(log, e);
    ClosedLastAppend(log, coins, e);
    WholeAppend(log, e);
    ConfirmedAppend(log, e);
  }

  /** How a send goes: each renewal answered or raising, and whether each later step works. */
  datatype SendFate = SendFate(
    broken: bool,                      // background renewal failed earlier
    survivors: nat -> set<Outpoint>,   // leases still there when coin i is renewed
    renews: nat -> bool,               // the store answers for coin i instead of raising
    journalBefore: bool, takesEffect: bool, answersRightly: bool, journalAfter: bool, closes: bool)

  /**
   How a cleanup goes: which leases are still there when their release is called,
   which releases answer, and which of the failing ones remove the lease all the same.
   */
  datatype CleanupFate = CleanupFate(
    survives: Outpoint -> bool, frees: Outpoint -> bool, answers: Outpoint -> bool, closes: bool)
  {
    /** The release of this coin ends the lease. */
    predicate Ends(o: Outpoint) { survives(o) && (answers(o) || frees(o)) }
  }

  /** Some of these leases are ended by the cleanup. */
  ghost predicate GivesBack(held: set<Outpoint>, fate: CleanupFate) {
    exists o :: o in held && fate.Ends(o)
  }

  function Ended(held: set<Outpoint>, fate: CleanupFate): set<Outpoint> {
    set o | o in held && fate.Ends(o)
  }

  function Answered(coins: set<Outpoint>, fate: CleanupFate): set<Outpoint> {
    set o | o in coins && fate.answers(o)
  }

  /** Those whose lease is not there any more once their release was called. */
  function Gone(coins: set<Outpoint>, fate: CleanupFate): set<Outpoint> {
    set o | o in coins && !(fate.survives(o) && !fate.Ends(o))
  }

  ghost predicate AllAnswer(coins: set<Outpoint>, fate: CleanupFate) {
    forall o :: o in coins ==> fate.answers(o)
  }

  /** The history after one release. */
  function AfterUnlock(log: seq<Event>, o: Outpoint, freed: bool, unlocked: bool): seq<Event> {
    var first := if freed then log + [Freed(o)] else log;
    if unlocked then first + [Unlocked(o)] else first
  }

  lemma AfterUnlockHas(log: seq<Event>, o: Outpoint, freed: bool, unlocked: bool)
    ensures log <= AfterUnlock(log, o, freed, unlocked)
    ensures forall e :: e in AfterUnlock(log, o, freed, unlocked) <==>
              e in log || (freed && e == Freed(o)) || (unlocked && e == Unlocked(o))
    ensures Loses(log, AfterUnlock(log, o, freed, unlocked), if freed then {o} else {})
  {
  }

  datatype SendResult = Refused | NotSentOrUnknown | SentOpen | SentClosed

  ghost predicate FreedAfterSent(log: seq<Event>) {
    exists i, j :: 0 <= i < j < |log| && log[i] == Sent && log[j].Freed?
  }

  /** What a cleanup finds. */
  datatype Prospect = Prospect(log: seq<Event>, phase: Phase, held: set<Outpoint>, owed: set<Outpoint>)
  {
    /** It goes through: every release still owed answers, and the wallet closes. */
    ghost predicate Gives(fate: CleanupFate) {
      fate.closes && (phase == PREPARED ==> AllAnswer(owed, fate))
    }

    /**
     What it leaves behind: coins of a sent transaction are given back exactly if
     that happened before, or a send of unknown outcome had in fact been sent and
     the cleanup ends a lease.
     */
    ghost predicate LosesExactly(fate: CleanupFate, after: seq<Event>) {
      FreedAfterSent(after) <==>
        FreedAfterSent(log) || (phase == PREPARED && Sent in log && GivesBack(held, fate))
    }
  }

  class PreparedPeerSwapTransaction {
    const txid: string
    const reservations: seq<Outpoint>
    var phase: Phase
    var released: set<Outpoint>
    var owners: set<Outpoint>  // outpoints whose owner token the adapter remembers
    var held: set<Outpoint>    // outpoints the store has leased under those tokens
    var connected: bool
    ghost var log: seq<Event>
    ghost var doubtful: bool   // some send has returned NotSentOrUnknown

    ghost function Coins(): set<Outpoint> {
      set i | 0 <= i < |reservations| :: reservations[i]
    }

    ghost function Now(): Prospect
      reads this
    {
      Prospect(log, phase, held, Coins() - released)
    }

    ghost predicate Leases()
      reads this
    {
      && released <= Coins() && owners == Coins() - released && held <= owners
      && (forall o :: Unlocked(o) in log <==> o in released)
      && (forall o :: Freed(o) in log ==> o in Coins() && o !in held)
    }

    ghost predicate Phases()
      reads this
    {
      && (phase == BROADCAST <==> BecameBroadcast in log)
      && (phase == BROADCAST ==> Sent in log)
      && (phase == PREPARED ==> connected && Closed !in log)
      && (phase == DISCARDED ==> released == Coins())
      && (phase == PREPARED && Sent in log ==> doubtful)
    }

    ghost predicate Valid()
      reads this
    {
      Leases() && Phases() && Sane(log, Coins())
    }

    /** All coins were locked under fresh tokens, and nothing has happened to them. */
    constructor (txid: string, reservations: seq<Outpoint>)
      ensures Valid() && phase == PREPARED && log == [] && held == Coins() && !doubtful
      ensures this.txid == txid && this.reservations == reservations
    {
      this.txid, this.reservations := txid, reservations;
      phase, released, connected, log, doubtful := PREPARED, {}, true, [], false;
      owners := set i | 0 <= i < |reservations| :: reservations[i];
      held := set i | 0 <= i < |reservations| :: reservations[i];
    }

    ghost method Note(e: Event)
      requires Sane(log, Coins())
      requires ConcernsCoin(e) ==> BecameBroadcast !in log
      requires e.Unlocked? ==> e !in log
      requires e == Closed ==> BecameBroadcast in log || AllUnlocked(log, Coins())
      requires e == Sent ==> Untouched()
      requires e == BecameBroadcast ==> log != [] && log[|log| - 1] == Sent
      modifies this`log
      ensures log == old(log) + [e] && Sane(log, Coins())
    {
      SaneAppend(log, Coins(), e);
      log := log + [e];
    }

    ghost predicate Untouched()
      reads this
    {
      forall e :: e in log ==> !ConcernsCoin(e)
    }

    /** Every renewal is answered and no lease expires meanwhile. */
    ghost predicate Undisturbed(fate: SendFate) {
      !fate.broken && forall i :: 0 <= i < |reservations| ==> fate.renews(i) && Coins() <= fate.survivors(i)
    }

    /** The renewal of coin `i` is answered: its token is known, and its lease has lasted until then. */
    ghost predicate Renewed(i: nat, fate: SendFate)
      requires i < |reservations|
      reads this`owners, this`held
    {
      && reservations[i] in owners && fate.renews(i) && reservations[i] in held
      && forall j: nat :: j <= i ==> reservations[i] in fate.survivors(j)
    }

    /** The renewal goes through: still prepared, the background renewal sound, and every coin renewed. */
    ghost predicate AllRenewed(fate: SendFate)
      reads this`phase, this`owners, this`held
    {
      phase == PREPARED && !fate.broken && forall i: nat :: i < |reservations| ==> Renewed(i, fate)
    }

    /** Each coin is renewed under its token or the whole fails: a released coin has no token, a freed one no lease. */
    method RenewReservations(fate: SendFate) returns (ok: bool)
      requires Valid()
      modifies this`held
      ensures Valid()
      ensures ok <==> old(AllRenewed(fate))
      ensures ok ==> phase == PREPARED && Untouched()
      ensures (phase == PREPARED && old(held) == Coins() && Undisturbed(fate)) ==> (ok && held == Coins())
    {
      if phase != PREPARED || fate.broken { return false; }
      for i := 0 to |reservations|
        invariant Valid()
        invariant forall j :: 0 <= j < i ==> Unlocked(reservations[j]) !in log && Freed(reservations[j]) !in log
        invariant (old(held) == Coins() && Undisturbed(fate)) ==> held == Coins()
        invariant forall o :: o in held <==> o in old(held) && forall j: nat :: j < i ==> o in fate.survivors(j)
        invariant forall k: nat :: k < i ==> old(Renewed(k, fate))
      {
        held := held * fate.survivors(i);
        assert old(Renewed(i, fate)) == (reservations[i] in owners && fate.renews(i) && reservations[i] in held);
        if reservations[i] !in owners || !fate.renews(i) || reservations[i] !in held { return false; }
      }
      assert forall o :: o in Coins() ==> Unlocked(o) !in log && Freed(o) !in log;
      return true;
    }

    method CloseAdapter(closes: bool) returns (ok: bool)
      requires Leases() && Sane(log, Coins()) && (BecameBroadcast in log || AllUnlocked(log, Coins()))
      modifies this`connected, this`log
      ensures ok == closes && Leases() && Sane(log, Coins())
      ensures log == if closes then old(log) + [Closed] else old(log)
      ensures connected == (old(connected) && !closes)
    {
      if !closes { return false; }
      connected := false;
      Note(Closed);
      return true;
    }

    /** Renew, journal, broadcast, journal, advance, close; whatever fails, no coin is released. */
    method Send(fate: SendFate) returns (r: SendResult)
      requires Valid()
      modifies this
      ensures Valid() && released == old(released)
      ensures r == Refused <==> !old(AllRenewed(fate)) || !fate.journalBefore
      ensures r == Refused ==> log == old(log) && phase == old(phase)
      ensures r.SentOpen? || r.SentClosed? ==> old(phase) == PREPARED && phase == BROADCAST && Sent in log
      ensures r.SentClosed? <==> old(phase) == PREPARED && Closed in log
      ensures r == NotSentOrUnknown ==> phase == PREPARED && (log == old(log) || log == old(log) + [Sent])
      ensures !old(Untouched()) ==> log == old(log)
      ensures doubtful == (old(doubtful) || r == NotSentOrUnknown)
      ensures (old(phase) == PREPARED && old(held) == Coins() && Undisturbed(fate)
               && fate.journalBefore && fate.takesEffect && !fate.answersRightly) ==>
                (r == NotSentOrUnknown && log == old(log) + [Sent] && held == Coins())
      ensures (old(phase) == PREPARED && old(held) == Coins() && Undisturbed(fate)
               && fate.journalBefore && fate.takesEffect && fate.answersRightly && fate.journalAfter) ==>
                r == (if fate.closes then SentClosed else SentOpen) && held == Coins()
    {
      var renewed := RenewReservations(fate);
      if !renewed { return Refused; }
      if !fate.journalBefore { return Refused; }
      r := Broadcast(fate);
    }

    /** The broadcast, and what follows if its answer is the expected one. */
    method Broadcast(fate: SendFate) returns (r: SendResult)
      requires Valid() && phase == PREPARED && Untouched()
      modifies this`phase, this`connected, this`log, this`doubtful
      ensures Valid() && doubtful == (old(doubtful) || r == NotSentOrUnknown)
      ensures r == NotSentOrUnknown <==> !(fate.takesEffect && fate.answersRightly && fate.journalAfter)
      ensures r == NotSentOrUnknown ==> phase == PREPARED && log == old(log) + (if fate.takesEffect then [Sent] else [])
      ensures r != NotSentOrUnknown ==> phase == BROADCAST && r == if fate.closes then SentClosed else SentOpen
      ensures r != NotSentOrUnknown ==> Sent in log && (Closed in log <==> fate.closes)
    {
      if fate.takesEffect { Note(Sent); }
      if !fate.takesEffect || !fate.answersRightly || !fate.journalAfter {
        doubtful := true;
        return NotSentOrUnknown;
      }
      phase := BROADCAST;
      Note(BecameBroadcast);
      var closed := CloseAdapter(fate.closes);
      return if closed then SentClosed else SentOpen;
    }

    /** One release: an error keeps the token, whether or not the lease is gone. */
    method Unlock(o: Outpoint, fate: CleanupFate) returns (ok: bool)
      requires Valid() && phase == PREPARED && o in Coins() && o !in released
      modifies this`held, this`owners, this`log
      ensures ok == fate.answers(o)
      ensures Sane(log, Coins()) && BecameBroadcast !in log && Closed !in log
      ensures held == (if ok || fate.frees(o) || !fate.survives(o) then old(held) - {o} else old(held))
      ensures owners == (if ok then old(owners) - {o} else old(owners))
      ensures log == AfterUnlock(old(log), o, o in old(held) && fate.Ends(o), ok)
    {
      ok := fate.answers(o);
      if o in held && fate.Ends(o) { Note(Freed(o)); }
      if !fate.survives(o) || ok || fate.frees(o) { held := held - {o}; }
      if ok {
        owners := owners - {o};
        Note(Unlocked(o));
      }
    }

    /** What a cleanup may change, and what it owes if all goes well. */
    twostate predicate CleanedUp(ok: bool)
      reads this
    {
      && old(released) <= released && held <= old(held)
      && (ok ==> released == Coins() && Closed in log)
    }

    /** One coin of the cleanup, skipped if a former try released it. */
    method ReleaseCoin(o: Outpoint, fate: CleanupFate) returns (ok: bool)
      requires Valid() && phase == PREPARED && o in Coins()
      modifies this`held, this`owners, this`released, this`log
      ensures Valid() && released == if fate.answers(o) then old(released) + {o} else old(released)
      ensures held == if fate.survives(o) && !fate.Ends(o) then old(held) else old(held) - {o}
      ensures Loses(old(log), log, if o in old(held) && fate.Ends(o) then {o} else {})
      ensures ok <==> o in released
    {
      if o in released {
        ok := true;
      } else {
        AfterUnlockHas(log, o, o in held && fate.Ends(o), fate.answers(o));
        ok := Unlock(o, fate);
        if ok { released := released + {o}; }
      }
    }

    /** The coins from index `i` on. */
    ghost function Behind(i: nat): (coins: set<Outpoint>)
      requires i <= |reservations|
      ensures i == 0 ==> coins == Coins()
    {
      set j | i <= j < |reservations| :: reservations[j]
    }

    lemma OneMoreBehind(i: nat)
      requires 0 < i <= |reservations|
      ensures Behind(i - 1) == Behind(i) + {reservations[i - 1]} && reservations[i - 1] in Coins()
    {
      assert reservations[i - 1] in Behind(i - 1);
    }

    /** Backwards over the coins; false if any release failed. */
    method ReleaseAll(fate: CleanupFate) returns (ok: bool)
      requires Valid() && phase == PREPARED
      modifies this`held, this`owners, this`released, this`log
      ensures Valid() && old(released) <= released && held <= old(held)
      ensures Loses(old(log), log, Ended(old(held), fate))
      ensures ok ==> released == Coins()
      ensures ok <==> AllAnswer(Coins() - old(released), fate)
    {
      ghost var start, tried := Cleanup(log, held, released), {};
      CleanupBegins(start, fate);
      var errors, i := 0, |reservations|;
      while i > 0
        invariant Valid() && phase == PREPARED && 0 <= i <= |reservations| && tried == Behind(i)
        invariant Done(start, tried, fate)
        invariant errors == 0 <==> AllAnswer(tried - start.released, fate)
      {
        i := i - 1;
        OneMoreBehind(i + 1);
        var done := ReleaseNext(reservations[i], fate, start, tried);
        if !done { errors := errors + 1; }
        tried := tried + {reservations[i]};
      }
      ok := errors == 0;
      CleanupEnds(start, fate);
    }

    lemma CleanupBegins(start: Cleanup, fate: CleanupFate)
      requires start == Cleanup(log, held, released)
      ensures Behind(|reservations|) == {} && Done(start, {}, fate) && AllAnswer({} - start.released, fate)
    {
      assert Answered({}, fate) == {} && Gone({}, fate) == {} && start.held * {} == {};
    }

    lemma CleanupEnds(start: Cleanup, fate: CleanupFate)
      requires Leases() && start.held <= Coins() && start.released <= Coins() && Done(start, Coins(), fate)
      ensures start.released <= released && held <= start.held && Loses(start.log, log, Ended(start.held, fate))
      ensures AllAnswer(Coins() - start.released, fate) ==> released == Coins()
    {
      AllTried(start.held, start.released, Coins(), fate);
    }

    /** How far a cleanup is that has tried these coins. */
    ghost predicate Done(start: Cleanup, tried: set<Outpoint>, fate: CleanupFate)
      reads this
    {
      && released == start.released + Answered(tried, fate)
      && held == start.held - Gone(tried, fate)
      && Loses(start.log, log, Ended(start.held * tried, fate))
    }

    /** One coin of the loop. */
    method ReleaseNext(o: Outpoint, fate: CleanupFate, ghost start: Cleanup, ghost tried: set<Outpoint>) returns (done: bool)
      requires Valid() && phase == PREPARED && o in Coins() && Done(start, tried, fate)
      modifies this`held, this`owners, this`released, this`log
      ensures Valid() && Done(start, tried + {o}, fate)
      ensures (done && AllAnswer(tried - start.released, fate)) <==> AllAnswer((tried + {o}) - start.released, fate)
    {
      OneMoreTried(start.held, start.released, tried, o, fate);
      done := ReleaseCoin(o, fate);
      OneMoreEnded(start.log, old(log), log, start.held, old(held), tried, o, fate);
    }

    /** The adapter is closed only if every release succeeded. */
    method CleanupPrepared(fate: CleanupFate) returns (ok: bool)
      requires Valid()
      modifies this`held, this`owners, this`released, this`log, this`connected
      ensures Leases() && Sane(log, Coins())
      ensures phase != PREPARED ==> !ok && log == old(log) && released == old(released)
      ensures ok ==> BecameBroadcast !in log
      ensures !ok ==> Valid()
      ensures phase == PREPARED ==> CleanedUp(ok) && Loses(old(log), log, Ended(old(held), fate))
      ensures phase == PREPARED ==> ok == old(Now()).Gives(fate)
    {
      if phase != PREPARED { return false; }
      var clean := ReleaseAll(fate);
      if !clean { return false; }
      ghost var log1 := log;
      ok := CloseAdapter(fate.closes);
      LosesMore(old(log), log1, log, Ended(old(held), fate), {});
    }

    /** Given up before it was broadcast, or tidied up after; true if it can be forgotten. */
    method Discard(fate: CleanupFate) returns (ok: bool)
      requires Valid()
      modifies this
      ensures Valid() && doubtful == old(doubtful)
      ensures ok <==> old(phase) != DISCARDED && old(Now()).Gives(fate)
      ensures old(phase) == DISCARDED ==> log == old(log) && phase == DISCARDED
      ensures old(phase) == BROADCAST ==>
                phase == BROADCAST && released == old(released) && held == old(held)
                && log == old(log) + (if ok then [Closed] else [])
      ensures old(phase) == PREPARED ==> phase == (if ok then DISCARDED else PREPARED) && CleanedUp(ok)
      ensures old(Now()).LosesExactly(fate, log)
      // What a caller can rely on who has seen the outcome of every send.
      ensures !doubtful ==> (FreedAfterSent(log) <==> old(FreedAfterSent(log)))
    {
      match phase
      case DISCARDED =>
        ok := false;
      case BROADCAST =>
        ok := CloseAdapter(fate.closes);
        LosingSentCoins(old(log), log, Coins(), {});
      case PREPARED =>
        ok := CleanupPrepared(fate);
        LosingSentCoins(old(log), log, Coins(), Ended(old(held), fate));
        assert GivesBack(old(held), fate) <==> Ended(old(held), fate) != {};
        if ok { phase := DISCARDED; }
    }
  }

  // ---- when coins of a sent transaction are given back ----

  lemma NeverBroadcast(log: seq<Event>, coins: set<Outpoint>, j: nat, k: nat)
    requires Sane(log, coins) && j < |log| && log[j].Freed? && k < |log|
    requires exists i :: 0 <= i < j && log[i] == Sent
    ensures log[k] != BecameBroadcast
  {
    if k > j {
      var m := k - 1;
      assert ConcernsCoin(log[j]);
      assert log[m] != Sent;
    }
  }

  /** A transaction known to be broadcast keeps its coins: only one whose broadcast was never confirmed can lose them. */
  lemma OnlyUnconfirmedLoseCoins(log: seq<Event>, coins: set<Outpoint>)
    requires Sane(log, coins) && FreedAfterSent(log)
    ensures BecameBroadcast !in log
  {
    var i, j :| 0 <= i < j < |log| && log[i] == Sent && log[j].Freed?;
    forall k | 0 <= k < |log| ensures log[k] != BecameBroadcast {
      NeverBroadcast(log, coins, j, k);
    }
  }

  /** It does happen: the broadcast took effect, its answer was lost, and the caller gave up. */
  method LostAnswer(txid: string, o: Outpoint) returns (p: PreparedPeerSwapTransaction)
    ensures p.Valid() && p.phase == DISCARDED && FreedAfterSent(p.log)
  {
    p := new PreparedPeerSwapTransaction(txid, [o]);
    assert p.reservations[0] in p.Coins();
    var all := p.held;
    var r := p.Send(SendFate(false, i => all, i => true, true, true, false, true, true));
    assert p.log == [Sent] && o in p.held;
    var ok := p.Discard(CleanupFate(c => true, c => true, c => true, true));
  }

  lemma FreedComesAfter(log: seq<Event>, coins: set<Outpoint>, o: Outpoint)
    requires Sane(log, coins) && Sent in log && Freed(o) in log
    ensures FreedAfterSent(log)
  {
    var i :| 0 <= i < |log| && log[i] == Sent;
    var j :| 0 <= j < |log| && log[j] == Freed(o);
    assert j < i ==> !ConcernsCoin(log[j]);
  }

  /** A step adds releases of the coins in `lost`, and no new send. */
  ghost predicate Loses(before: seq<Event>, after: seq<Event>, lost: set<Outpoint>) {
    && before <= after
    && (forall j :: |before| <= j < |after| ==> after[j] != Sent && (after[j].Freed? ==> after[j].coin in lost))
    && (forall o :: o in lost ==> Freed(o) in after)
  }

  /** Where a cleanup began. */
  datatype Cleanup = Cleanup(log: seq<Event>, held: set<Outpoint>, released: set<Outpoint>)

  /** What is known of the coins tried so far, and of the next one. */
  lemma OneMoreTried(held: set<Outpoint>, released: set<Outpoint>, tried: set<Outpoint>, o: Outpoint, fate: CleanupFate)
    ensures released + Answered(tried + {o}, fate)
         == if fate.answers(o) then (released + Answered(tried, fate)) + {o} else released + Answered(tried, fate)
    ensures held - Gone(tried + {o}, fate)
         == if fate.survives(o) && !fate.Ends(o) then held - Gone(tried, fate) else (held - Gone(tried, fate)) - {o}
    ensures AllAnswer((tried + {o}) - released, fate)
       <==> AllAnswer(tried - released, fate) && (o in released || fate.answers(o))
  {
  }

  lemma AllTried(held: set<Outpoint>, released: set<Outpoint>, coins: set<Outpoint>, fate: CleanupFate)
    requires held <= coins && released <= coins
    ensures Ended(held * coins, fate) == Ended(held, fate)
    ensures AllAnswer(coins - released, fate) ==> released + Answered(coins, fate) == coins
  {
    assert held * coins == held;
  }

  /** The coin released next, among those already tried. */
  lemma OneMoreEnded(a: seq<Event>, b: seq<Event>, c: seq<Event>, held0: set<Outpoint>, held1: set<Outpoint>,
                     tried: set<Outpoint>, o: Outpoint, fate: CleanupFate)
    requires held1 == held0 - Gone(tried, fate)
    requires Loses(a, b, Ended(held0 * tried, fate))
    requires Loses(b, c, if o in held1 && fate.Ends(o) then {o} else {})
    ensures Loses(a, c, Ended(held0 * (tried + {o}), fate))
  {
    var lost, more := Ended(held0 * tried, fate), if o in held1 && fate.Ends(o) then {o} else {};
    LosesMore(a, b, c, lost, more);
    assert Ended(held0 * (tried + {o}), fate) == lost + more;
  }

  lemma LosesMore(a: seq<Event>, b: seq<Event>, c: seq<Event>, lost: set<Outpoint>, more: set<Outpoint>)
    requires Loses(a, b, lost) && Loses(b, c, more)
    ensures Loses(a, c, lost + more)
  {
    forall j | |a| <= j < |c| ensures c[j] != Sent && (c[j].Freed? ==> c[j].coin in lost + more) {
      if j < |b| { assert c[j] == b[j]; }
    }
    forall o | o in lost ensures Freed(o) in c {
      PrefixKeeps(b, c, Freed(o));
    }
  }

  lemma LosingSentCoins(before: seq<Event>, after: seq<Event>, coins: set<Outpoint>, lost: set<Outpoint>)
    requires Sane(after, coins) && Loses(before, after, lost)
    ensures FreedAfterSent(after) <==> FreedAfterSent(before) || (Sent in before && lost != {})
  {
    if FreedAfterSent(before) {
      var i, j :| 0 <= i < j < |before| && before[i] == Sent && before[j].Freed?;
      assert after[i] == Sent && after[j].Freed?;
    }
    if Sent in before && lost != {} {
      var o :| o in lost;
      PrefixKeeps(before, after, Sent);
      FreedComesAfter(after, coins, o);
    }
    if FreedAfterSent(after) {
      var i, j :| 0 <= i < j < |after| && after[i] == Sent && after[j].Freed?;
      assert i < |before| && before[i] == Sent;
      if j < |before| { assert before[j] == after[j]; }
    }
  }

  lemma PrefixKeeps(before: seq<Event>, after: seq<Event>, e: Event)
    requires before <= after
    ensures e in before ==> e in after
  {
    if e in before {
      var i :| 0 <= i < |before| && before[i] == e;
      assert after[i] == e;
    }
  }

  // ---- the operation ----

  datatype Call =
    | Prepare(txid: string, coins: seq<Outpoint>, built: bool)
    | Transmit(txid: string, send: SendFate)
    | GiveUp(txid: string, cleanup: CleanupFate)
    | CloseAll(each: string -> CleanupFate)

  /** The cleanups that are not left to do have left behind what they leave behind. */
  ghost predicate Settled(before: map<string, Prospect>, logs: map<string, seq<Event>>, left: set<string>,
                          each: string -> CleanupFate)
  {
    logs.Keys == before.Keys && forall t :: t in before && t !in left ==> before[t].LosesExactly(each(t), logs[t])
  }

  lemma SettledMore(before: map<string, Prospect>, logs: map<string, seq<Event>>, left: set<string>, txid: string,
                    log: seq<Event>, each: string -> CleanupFate) returns (more: map<string, seq<Event>>)
    requires Settled(before, logs, left, each) && txid in before && before[txid].LosesExactly(each(txid), log)
    ensures Settled(before, more, left - {txid}, each)
    ensures more.Keys == logs.Keys && more[txid] == log && forall t :: t in logs && t != txid ==> more[t] == logs[t]
  {
    more := logs[txid := log];
  }

  /** Of those not left to do exactly the ones that failed are still in the table. */
  ghost predicate Stays(before: map<string, Prospect>, keys: set<string>, left: set<string>, each: string -> CleanupFate) {
    forall t :: t in before && t !in left ==> (t in keys <==> !before[t].Gives(each(t)))
  }

  lemma StaysMore(before: map<string, Prospect>, a: set<string>, b: set<string>, left: set<string>, txid: string,
                  gone: bool, each: string -> CleanupFate)
    requires Stays(before, a, left, each) && txid in before && txid in a && txid in left
    requires gone <==> before[txid].Gives(each(txid))
    requires b == if gone then a - {txid} else a
    ensures Stays(before, b, left - {txid}, each)
  {
  }

  class PeerSwapPrepareTxOperation {
    var prepared: map<string, PreparedPeerSwapTransaction>
    ghost var all: set<PreparedPeerSwapTransaction>  // also those no longer in the table

    ghost predicate Valid()
      reads this, all
    {
      && (forall p {:trigger p.Valid()} :: p in all ==> p.Valid())
      && (forall t :: t in prepared ==> prepared[t] in all && prepared[t].txid == t && prepared[t].phase != DISCARDED)
    }

    constructor ()
      ensures Valid() && all == {}
    {
      prepared, all := map[], {};
    }

    /** Locking, building and signing succeeded, or nothing is kept; a second transaction of the same id is refused. */
    method Execute(txid: string, coins: seq<Outpoint>, built: bool) returns (ok: bool)
      requires Valid()
      modifies this
      ensures Valid() && fresh(all - old(all)) && old(all) <= all
      ensures ok == (built && txid !in old(prepared))
      ensures ok ==> txid in prepared && prepared[txid].phase == PREPARED
    {
      if !built || txid in prepared { return false; }
      var p := new PreparedPeerSwapTransaction(txid, coins);
      prepared, all := prepared[txid := p], all + {p};
      return true;
    }

    method SendTx(txid: string, fate: SendFate) returns (r: Option<SendResult>)
      requires Valid()
      modifies this, all
      ensures Valid() && all == old(all)
      ensures r.None? <==> txid !in old(prepared)
      ensures prepared == if r == Some(SentClosed) then old(prepared) - {txid} else old(prepared)
      ensures forall p {:trigger p.Now()} :: p in all && p.txid != txid ==> p.Now() == old(p.Now())
    {
      if txid !in prepared { return None; }
      var p := prepared[txid];
      var sent := p.Send(fate);
      if sent.SentClosed? { prepared := prepared - {txid}; }
      return Some(sent);
    }

    method DiscardTx(txid: string, fate: CleanupFate) returns (ok: bool)
      requires Valid()
      modifies this, all
      ensures Valid() && all == old(all)
      ensures ok <==> txid in old(prepared) && old(prepared[txid].Now()).Gives(fate)
      ensures prepared == if ok then old(prepared) - {txid} else old(prepared)
      ensures prepared.Keys == if ok then old(prepared.Keys) - {txid} else old(prepared.Keys)
      ensures txid in old(prepared) ==> old(prepared[txid].Now()).LosesExactly(fate, old(prepared)[txid].log)
      ensures forall p {:trigger p.Now()} :: p in all && p.txid != txid ==> p.Now() == old(p.Now())
    {
      if txid !in prepared { return false; }
      var p := prepared[txid];
      ok := p.Discard(fate);
      if ok { prepared := prepared - {txid}; }
    }

    /** Everything that can be given up is; exactly what fails stays for another try. */
    method Close(each: string -> CleanupFate)
      requires Valid()
      modifies this, all
      ensures Valid() && all == old(all) && prepared.Keys <= old(prepared).Keys
      ensures forall t :: t in old(prepared) ==> old(prepared[t].Now()).LosesExactly(each(t), old(prepared)[t].log)
      ensures forall t :: t in old(prepared) ==> (t in prepared <==> !old(prepared[t].Now()).Gives(each(t)))
      ensures forall t :: t in prepared ==> prepared[t] == old(prepared)[t]
    {
      var left := prepared.Keys;
      ghost var table, before := prepared, map t | t in prepared :: prepared[t].Now();
      ghost var logs := map t | t in prepared :: prepared[t].log;
      while left != {}
        invariant Valid() && all == old(all) && InTable(table, before, logs, left)
        invariant Settled(before, logs, left, each)
        invariant Stays(before, prepared.Keys, left, each)
        decreases left
      {
        var txid :| txid in left;
        logs := CloseNext(txid, each, table, before, logs, left);
        left := left - {txid};
      }
    }

    /** How far `close` is: what is left to do is as it was. */
    ghost predicate InTable(table: map<string, PreparedPeerSwapTransaction>, before: map<string, Prospect>,
                            logs: map<string, seq<Event>>, left: set<string>)
      reads this, all
    {
      && table.Keys == before.Keys == logs.Keys && left <= prepared.Keys && prepared.Keys <= table.Keys
      && (forall t :: t in table ==> table[t] in all && table[t].txid == t && logs[t] == table[t].Now().log)
      && (forall t :: t in prepared ==> prepared[t] == table[t])
      && (forall t :: t in left ==> table[t].Now() == before[t])
    }

    method CloseNext(txid: string, each: string -> CleanupFate, ghost table: map<string, PreparedPeerSwapTransaction>,
                     ghost before: map<string, Prospect>, ghost logs: map<string, seq<Event>>, ghost left: set<string>)
      returns (ghost more: map<string, seq<Event>>)
      requires Valid() && txid in left && InTable(table, before, logs, left)
      requires Settled(before, logs, left, each) && Stays(before, prepared.Keys, left, each)
      modifies this, all
      ensures Valid() && all == old(all) && InTable(table, before, more, left - {txid})
      ensures Settled(before, more, left - {txid}, each) && Stays(before, prepared.Keys, left - {txid}, each)
    {
      var gone := DiscardTx(txid, each(txid));
      more := SettledMore(before, logs, left, txid, table[txid].Now().log, each);
      StaysMore(before, old(prepared.Keys), prepared.Keys, left, txid, gone, each);
    }

    /** Any sequence of calls, with any failures: every transaction ever prepared has a sane history. */
    static method Session(calls: seq<Call>) returns (op: PeerSwapPrepareTxOperation)
      ensures fresh(op) && op.Valid()
      ensures forall p :: p in op.all ==> Sane(p.log, p.Coins())
    {
      op := new PeerSwapPrepareTxOperation();
      for i := 0 to |calls|
        invariant fresh(op) && op.Valid() && fresh(op.all)
      {
        match calls[i]
        case Prepare(txid, coins, built) => var a := op.Execute(txid, coins, built);
        case Transmit(txid, fate) => var b := op.SendTx(txid, fate);
        case GiveUp(txid, fate) => var c := op.DiscardTx(txid, fate);
        case CloseAll(each) => op.Close(each);
      }
      forall p | p in op.all ensures Sane(p.log, p.Coins()) {
        assert p.Valid();
      }
    }
  }
}
