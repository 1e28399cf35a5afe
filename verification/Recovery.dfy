/**
 Recovery after a crash: `RecoveryManager` reads every record, asks CLN and the
 Bitcoin backend, and releases a record's leases only when both show nothing.
 The answers are arbitrary except for one thing: a backend that answers a
 spender query about an input of a sent transaction reports a spender.
 */
module Recovery {
  import opened Prelude
  import opened Sequences
  import opened Outpoints
  import opened Records
  import opened Worlds
  import opened Adapters
  import opened Transcripts
  import opened FundingRuns
  import opened Releases
  import opened Evidences

  datatype Verdict = Settled | Pending | Aborted

  /** What a release may rely on: the operation under study has nothing out. */
  ghost predicate MayRelease(d: Durable, s: Setting, r: RecoveryRecord) {
    && HasId(d.file, r.id)
    && Lookup(d.file, r.id).ownerTokens == r.ownerTokens
    && (r.id == s.rid ==> !d.sent)
    && (r.id != s.rid ==> NamesNone(r, s.tokens))
  }

  lemma OwnReleaseWriteIsGood(d: Durable, s: Setting, r: RecoveryRecord)
    requires Good(d, s) && s.Valid() && HasId(d.file, s.rid) && r.id == s.rid && !d.sent
    requires Lookup(d.file, s.rid).ownerTokens == r.ownerTokens && Complete(r)
    ensures Good(d.(file := Updated(d.file, s.rid, ReleaseChanges(r))), s)
  {
    CompleteIsCanonical(r);
    var held := Decode(r.ownerTokens);
    EncodeInvertsDecode(r.ownerTokens);
    forall o | o in held ensures o in r.lockedOutpoints {
      ParseInvertsPrint(o);
    }
    BeforeWriteIsGood(d, s, held, "recovery_release", r.phase, r.lockedOutpoints, held, r.psbt, r.txid);
  }

  /** A write that passes the same tokens keeps the release allowed. */
  lemma StillMayRelease(d: Durable, s: Setting, r: RecoveryRecord, ch: Changes)
    requires MayRelease(d, s, r) && ch.ownerTokens == Some(r.ownerTokens)
    ensures MayRelease(d.(file := Updated(d.file, r.id, ch)), s, r)
  {
    LookupOfUpdated(d.file, r.id, ch);
  }

  lemma OtherReleaseWriteIsGood(d: Durable, s: Setting, r: RecoveryRecord, ch: Changes)
    requires Good(d, s) && MayRelease(d, s, r) && r.id != s.rid && ch.ownerTokens == Some(r.ownerTokens)
    ensures Good(d.(file := Updated(d.file, r.id, ch)), s)
  {
    OtherWriteIsGood(d, s, r.id, ch);
  }

  lemma ReleaseWriteIsGood(d: Durable, s: Setting, r: RecoveryRecord)
    requires Good(d, s) && s.Valid() && MayRelease(d, s, r) && Complete(r)
    ensures Good(d.(file := Updated(d.file, r.id, ReleaseChanges(r))), s)
    ensures MayRelease(d.(file := Updated(d.file, r.id, ReleaseChanges(r))), s, r)
  {
    ReleaseChangesKeepTokens(r);
    StillMayRelease(d, s, r, ReleaseChanges(r));
    if r.id == s.rid {
      OwnReleaseWriteIsGood(d, s, r);
    } else {
      OtherReleaseWriteIsGood(d, s, r, ReleaseChanges(r));
    }
  }

  class RecoveryManager {
    const world: World
    const journal: RecoveryJournal
    const neutrino: bool

    constructor (world: World, neutrino: bool)
      ensures this.world == world && this.neutrino == neutrino && journal.world == world
    {
      this.world, this.neutrino := world, neutrino;
      journal := new RecoveryJournal(world);
    }

    /**
     `None` when the backend cannot tell. It says no only if it does not know the
     transaction and reports no spender for any recorded input.
     */
    method BitcoinHasTransaction(r: RecoveryRecord)
      returns (seen: Option<bool>, raised: bool, ghost known: bool, ghost spent: seq<Option<bool>>)
      requires world.Valid()
      ensures !raised && seen == Some(false) ==> !(world.d.sent && TouchesInputs(r.lockedOutpoints, world.s))
      ensures neutrino ==> seen == None && !raised
      ensures !neutrino && !raised ==> (seen == Some(true) <==> known || Some(true) in spent)
      ensures !neutrino && !raised ==>
                (seen == Some(false) <==>
                   !known && |spent| == |r.lockedOutpoints| && forall x :: x in spent ==> x == Some(false))
    {
      raised, known, spent := false, false, [];
      if neutrino {
        seen := None;
        return;
      }
      raised := *;
      var found: bool := *;
      known := found;
      if raised || found {
        seen := Some(true);
        return;
      }
      for i := 0 to |r.lockedOutpoints|
        invariant |spent| == i && forall x :: x in spent ==> x == Some(false)
        invariant forall j :: 0 <= j < i && world.d.sent ==> r.lockedOutpoints[j] !in world.s.inputs
      {
        var answer := SpenderOf(r.lockedOutpoints[i]);
        spent := spent + [answer];
        if answer != Some(false) {
          assert answer in spent;
          seen := answer;
          return;
        }
      }
      seen := Some(false);
    }

    /** `get_mempool_spender`: whether one is reported, `None` if the query raises. */
    method SpenderOf(o: Outpoint) returns (answer: Option<bool>)
      requires world.Valid()
      ensures answer == Some(false) ==> !(world.d.sent && o in world.s.inputs)
    {
      var raised: bool, spent: bool := *, *;
      if world.d.sent && o in world.s.inputs { spent := true; }
      answer := if raised then None else Some(spent);
    }

    /** Whether the transaction is confirmed; the light client cannot tell. */
    method TransactionConfirmed() returns (confirmed: Option<bool>, raised: bool)
      ensures neutrino ==> confirmed == None && !raised
    {
      if neutrino { return None, false; }
      confirmed, raised := *, *;
    }

    /** `_cln_status`: absent only if CLN knows of nothing with any of the subjects; `None` if a query fails. */
    method CLNStatus(r: RecoveryRecord) returns (status: Option<Status>, ghost reports: Option<map<string, Status>>)
      ensures status.Some? <==> reports.Some?
      ensures status == Some(IsAbsent) <==> NoneKnown(r, reports)
      ensures status == Some(IsBroadcast) <==> reports.Some? && exists p :: p in reports.value && reports.value[p] == IsBroadcast
    {
      var subjects := Subjects(r);
      if subjects == None { return None, None; }
      var states: map<string, Status> := map[];
      for i := 0 to |subjects.value|
        invariant forall p :: p in states <==> p in subjects.value[..i]
        invariant forall p :: p in states ==> states[p] != Unknown
      {
        var state: Status := *;
        if state == Unknown { return None, None; }
        states := states[subjects.value[i] := state];
      }
      assert subjects.value[..|subjects.value|] == subjects.value;
      reports := Some(states);
      if IsBroadcast in states.Values {
        status := Some(IsBroadcast);
      } else if IsWithheld in states.Values {
        status := Some(IsWithheld);
      } else {
        status := Some(IsAbsent);
        forall p | p in states ensures states[p] == IsAbsent { assert states[p] in states.Values; }
      }
    }

    /**
     `reconcile_all`: every record of the file in turn; an error ends the run and
     keeps what is left. `verdicts` are those on the records it came to the end of.
     */
    method ReconcileAll() returns (resolved: seq<string>, ghost verdicts: seq<Verdict>)
      requires world.Valid() && journal.world == world
      modifies world
      ensures world.Valid() && old(world.history) <= world.history
      ensures world.d.sent == old(world.d.sent)
      ensures |verdicts| <= |old(world.d.file)| && resolved == SettledIds(old(world.d.file), verdicts)
      ensures Followed(old(world.d.file), world.d.file, verdicts)
    {
      resolved, verdicts := [], [];
      var records := world.d.file;
      UniqueLookups(records);
      var blocked: bool := *;
      if blocked { return; }
      var i := 0;
      while i < |records|
        invariant 0 <= i <= |records| && UniqueIds(records) && |verdicts| == i
        invariant world.Valid() && old(world.history) <= world.history
        invariant world.d.sent == old(world.d.sent)
        invariant StillThere(records[i..], world.d.file) && Followed(records, world.d.file, verdicts)
        invariant resolved == SettledIds(records, verdicts)
      {
        var r := records[i];
        assert records[i..][0] == r;
        ghost var before := world.d.file;
        var smooth: bool := *;
        var ok: bool, v: Verdict;
        ghost var e: Evidence;
        ok, v, e := Handle(r, smooth);
        FollowedOn(records, before, world.d.file, verdicts, if ok then Some(v) else None);
        if !ok { return; }
        if v == Settled && r.status != RESOLVED { resolved := resolved + [r.id]; }
        SettledIdsOn(records, verdicts, v);
        verdicts := verdicts + [v];
        i := i + 1;
      }
    }

    /** One record: reconcile it and drop it if settled. */
    method Handle(r: RecoveryRecord, smooth: bool) returns (ok: bool, v: Verdict, ghost e: Evidence)
      requires world.Valid() && journal.world == world
      requires HasId(world.d.file, r.id) && Lookup(world.d.file, r.id) == r
      modifies world
      ensures world.Valid() && old(world.history) <= world.history
      ensures world.d.sent == old(world.d.sent)
      ensures OthersAsBefore(old(world.d.file), world.d.file, r.id)
      ensures ok ==> v != Aborted && (v == Settled <==> !HasId(world.d.file, r.id))
      ensures ok && v == Pending ==> world.d == old(world.d)
      ensures ok && v == Settled ==> r.status == RESOLVED || (Cleared(r, e) && Complete(r))
      ensures smooth && (r.status == RESOLVED || (Cleared(r, e) && Complete(r))) ==> ok && v == Settled
    {
      v, e := Settled, NO_EVIDENCE;
      if r.status == RESOLVED {
        assert |PENDING| != |RESOLVED|;
      } else {
        v, e := Reconcile(r, smooth);
      }
      if v != Settled { return v == Pending, v, e; }
      OthersSurvive(old(world.d.file), world.d.file, r.id);
      ResolveIsGood(world.d, world.s, r.id, world.d.terminal);
      var fate: Fate := *;
      ok := journal.Resolve(r.id, world.d.terminal, if smooth then Works else fate);
    }

    /**
     `_reconcile`: `Settled` is the return value True. A record is settled only on
     the answers that clear it, and it is if nothing fails on the way; one left
     pending was not cleared and nothing of it was touched.
     */
    method Reconcile(r: RecoveryRecord, smooth: bool) returns (v: Verdict, ghost e: Evidence)
      requires world.Valid() && journal.world == world
      requires HasId(world.d.file, r.id) && Lookup(world.d.file, r.id) == r
      modifies world
      ensures world.Valid() && old(world.history) <= world.history
      ensures OtherRecordsKept(old(world.d.file), world.d.file, r.id) && HasId(world.d.file, r.id)
      ensures world.d.sent == old(world.d.sent) && world.d.terminal == old(world.d.terminal)
      ensures v == Settled && r.id == world.s.rid ==>
                forall o :: Own(world.d, world.s, o) ==> IsStray(world.d, o, world.d.leases[o].owner)
      ensures v == Settled ==> Cleared(r, e) && Complete(r)
      ensures smooth && Cleared(r, e) && Complete(r) ==> v == Settled
      ensures v == Pending ==> !Cleared(r, e) && world.d == old(world.d)
      ensures v == Settled && (r.operation == PEERSWAP || r.txid.Some?) ==> !neutrino
    {
      ghost var before := world.d;
      v, e := Judge(r);
      if v != Settled { return; }
      if !Complete(r) { return Aborted, e; }
      ghost var atoms: seq<Atom>, order: seq<string>;
      var ok: bool;
      ok, atoms, order := ReleaseAll(r, smooth);
      if !ok { return Aborted, e; }
      if r.id == world.s.rid { NothingLeft(world.d, world.s, r); }
    }

    /** The answers: `Settled` here means that they allow the release. */
    method Judge(r: RecoveryRecord) returns (v: Verdict, ghost e: Evidence)
      requires world.Valid()
      requires HasId(world.d.file, r.id) && Lookup(world.d.file, r.id) == r
      ensures v == Settled <==> Cleared(r, e)
      ensures v == Settled ==> MayRelease(world.d, world.s, r)
      ensures v == Settled && (r.operation == PEERSWAP || r.txid.Some?) ==> !neutrino
    {
      OthersAreForeign(world.d, world.s, r);
      if r.operation == PEERSWAP {
        v, e := JudgePeerSwap(r);
      } else {
        v, e := JudgeFunding(r);
      }
    }

    method JudgePeerSwap(r: RecoveryRecord) returns (v: Verdict, ghost e: Evidence)
      requires r.operation == PEERSWAP
      ensures v == Settled <==> Cleared(r, e)
      ensures v == Settled ==> !neutrino
    {
      e := NO_EVIDENCE;
      if !PeerSwapEligible(r) { return Pending, e; }
      var confirmed, raised := TransactionConfirmed();
      if raised { return Aborted, e; }
      e := Evidence(confirmed, None, None);
      v := if confirmed == Some(true) then Settled else Pending;
    }

    method JudgeFunding(r: RecoveryRecord) returns (v: Verdict, ghost e: Evidence)
      requires world.Valid() && r.operation != PEERSWAP
      ensures v == Settled <==> Cleared(r, e)
      ensures v == Settled && r.txid.Some? ==> !neutrino && !(world.d.sent && TouchesInputs(r.lockedOutpoints, world.s))
    {
      e := NO_EVIDENCE;
      if r.txid.Some? {
        var seen, raised, _, _ := BitcoinHasTransaction(r);
        if raised { return Aborted, e; }
        e := Evidence(None, seen, None);
        if seen != Some(false) { return Pending, e; }
      }
      var status: Option<Status>;
      ghost var reports: Option<map<string, Status>>;
      status, reports := CLNStatus(r);
      e := e.(reports := reports);
      v := if status == None then Aborted else if status == Some(IsAbsent) then Settled else Pending;
    }

    /**
     The release loop: every recorded token is given back, each behind its own
     write ahead. Its durable steps, and those of others around them, are `atoms`.
     Wherever it ends it has made a first part of the loop over some order of the keys.
     */
    method ReleaseAll(r: RecoveryRecord, smooth: bool) returns (ok: bool, ghost atoms: seq<Atom>, ghost order: seq<string>)
      requires world.Valid() && journal.world == world
      requires MayRelease(world.d, world.s, r) && Complete(r)
      modifies world
      ensures world.Valid() && old(world.history) <= world.history
      ensures MayRelease(world.d, world.s, r) && OtherRecordsKept(old(world.d.file), world.d.file, r.id)
      ensures world.d.sent == old(world.d.sent) && world.d.terminal == old(world.d.terminal)
      ensures ok ==> forall o :: Own(world.d, world.s, o) ==> !Lists(r, o, world.d.leases[o].owner)
      ensures smooth ==> ok
      ensures Leads(old(world.d), world.d, r, atoms, world.s)
      ensures Enumerates(order, r.ownerTokens)
      ensures if ok then LoopOf(atoms) == Loop(order) else LoopOf(atoms) <= Loop(order)
    {
      CompleteIsCanonical(r);
      ghost var left: set<string>;
      ok, atoms, order, left := ReleaseKeys(r, r.ownerTokens.Keys, smooth);
      order := CompleteOrder(order, r.ownerTokens.Keys, LoopOf(atoms));
    }

    /** The loop itself: `order` are the keys it came to, `rest` those it did not. */
    method ReleaseKeys(r: RecoveryRecord, keys: set<string>, smooth: bool)
      returns (ok: bool, ghost atoms: seq<Atom>, ghost order: seq<string>, ghost left: set<string>)
      requires world.Valid() && journal.world == world
      requires MayRelease(world.d, world.s, r) && Complete(r) && Canonical(r.ownerTokens) && keys == r.ownerTokens.Keys
      modifies world
      ensures world.Valid() && old(world.history) <= world.history
      ensures MayRelease(world.d, world.s, r) && OtherRecordsKept(old(world.d.file), world.d.file, r.id)
      ensures world.d.sent == old(world.d.sent) && world.d.terminal == old(world.d.terminal)
      ensures ok ==> left == {} && Given(world.d, world.s, r, {})
      ensures smooth ==> ok
      ensures Leads(old(world.d), world.d, r, atoms, world.s)
      ensures KeySet(order) + left == keys
      ensures if ok then LoopOf(atoms) == Loop(order) else LoopOf(atoms) <= Loop(order)
    {
      var rest := keys;
      atoms, order, ok := [], [], true;
      ghost var start := world.d;
      while rest != {} && ok
        invariant rest <= keys && KeySet(order) + rest == keys
        invariant world.Valid() && old(world.history) <= world.history
        invariant MayRelease(world.d, world.s, r) && OtherRecordsKept(start.file, world.d.file, r.id)
        invariant world.d.sent == start.sent && world.d.terminal == start.terminal
        invariant ok ==> Given(world.d, world.s, r, rest)
        invariant smooth ==> ok
        invariant Leads(start, world.d, r, atoms, world.s)
        invariant if ok then LoopOf(atoms) == Loop(order) else LoopOf(atoms) <= Loop(order)
        decreases rest
      {
        var key :| key in rest;
        ok, atoms := NextTurn(r, key, smooth, rest, start, atoms, order);
        order, rest := order + [key], rest - {key};
      }
      left := rest;
    }

    /** One turn after those made since `start`. */
    method NextTurn(r: RecoveryRecord, key: string, smooth: bool, ghost rest: set<string>,
                    ghost start: Durable, ghost soFar: seq<Atom>, ghost order: seq<string>)
      returns (ok: bool, ghost atoms: seq<Atom>)
      requires world.Valid() && journal.world == world
      requires MayRelease(world.d, world.s, r) && Complete(r) && Canonical(r.ownerTokens)
      requires key in r.ownerTokens && Given(world.d, world.s, r, rest)
      requires Leads(start, world.d, r, soFar, world.s) && LoopOf(soFar) == Loop(order)
      requires key in rest && OtherRecordsKept(start.file, world.d.file, r.id)
      modifies world
      ensures world.Valid() && old(world.history) <= world.history
      ensures MayRelease(world.d, world.s, r) && OtherRecordsKept(start.file, world.d.file, r.id)
      ensures world.d.sent == old(world.d.sent) && world.d.terminal == old(world.d.terminal)
      ensures smooth ==> ok
      ensures KeySet(order + [key]) + (rest - {key}) == KeySet(order) + rest
      ensures ok ==> Given(world.d, world.s, r, rest - {key})
      ensures Leads(start, world.d, r, atoms, world.s)
      ensures if ok then LoopOf(atoms) == Loop(order + [key]) else LoopOf(atoms) <= Loop(order + [key])
    {
      ghost var turn: seq<Atom>;
      ok, turn := ReleaseOne(r, key, smooth, rest);
      LeadsOn(start, old(world.d), world.d, r, soFar, turn, world.s);
      KeysMove(order, rest, key);
      LoopGrows(soFar, turn, order, key);
      atoms := soFar + turn;
    }

    /** One turn of the loop, with other processes around each step. */
    method ReleaseOne(r: RecoveryRecord, key: string, smooth: bool, ghost rest: set<string>)
      returns (ok: bool, ghost atoms: seq<Atom>)
      requires world.Valid() && journal.world == world
      requires MayRelease(world.d, world.s, r) && Complete(r) && Canonical(r.ownerTokens)
      requires key in r.ownerTokens && Given(world.d, world.s, r, rest)
      modifies world
      ensures world.Valid() && old(world.history) <= world.history
      ensures MayRelease(world.d, world.s, r) && OtherRecordsKept(old(world.d.file), world.d.file, r.id)
      ensures world.d.sent == old(world.d.sent) && world.d.terminal == old(world.d.terminal)
      ensures ok ==> Given(world.d, world.s, r, rest - {key})
      ensures Leads(old(world.d), world.d, r, atoms, world.s)
      ensures if ok then LoopOf(atoms) == Turn(key) else LoopOf(atoms) <= Turn(key)
      ensures smooth ==> ok
    {
      ok, atoms := WriteAhead(r, smooth, rest);
      if !ok { return; }
      ghost var before, last := world.d, [];
      ok, last := GiveBack(r, key, smooth, rest);
      TurnLeads(old(world.d), before, world.d, r, key, atoms, last, world.s);
      atoms := atoms + last;
    }

    /** `recover_release` of one recorded token. */
    method GiveBack(r: RecoveryRecord, key: string, smooth: bool, ghost rest: set<string>)
      returns (ok: bool, ghost atoms: seq<Atom>)
      requires world.Valid() && MayRelease(world.d, world.s, r) && Given(world.d, world.s, r, rest)
      requires Canonical(r.ownerTokens) && key in r.ownerTokens
      modifies world
      ensures world.Valid() && old(world.history) <= world.history
      ensures world.d.file == old(world.d.file)
      ensures world.d.sent == old(world.d.sent) && world.d.terminal == old(world.d.terminal)
      ensures ok ==> Given(world.d, world.s, r, rest - {key})
      ensures Leads(old(world.d), world.d, r, atoms, world.s)
      ensures LoopOf(atoms) == [Give(key)] || (!ok && LoopOf(atoms) == [])
      ensures smooth ==> ok
    {
      assert r.id != world.s.rid ==> r.ownerTokens[key] !in world.s.tokens;
      ReleaseKeepsGiven(world.d, world.s, r, key, rest);
      var fate: Fate := *;
      if smooth { fate := Works; }
      world.ReleaseInputs(Parse(key).value, r.ownerTokens[key], fate);
      ok := fate.Works?;
      atoms := if |world.history| == |old(world.history)| then [] else [Give(key)];
      OneAtom(StoreOf(old(world.d)), r, Give(key));
    }

    /** Other processes take steps; nothing the loop relies on moves. */
    method Meanwhile(ghost r: RecoveryRecord, ghost rest: set<string>) returns (ghost atoms: seq<Atom>)
      requires world.Valid() && MayRelease(world.d, world.s, r) && Given(world.d, world.s, r, rest)
      modifies world
      ensures world.Valid() && old(world.history) <= world.history
      ensures world.d.file == old(world.d.file)
      ensures world.d.sent == old(world.d.sent) && world.d.terminal == old(world.d.terminal)
      ensures Given(world.d, world.s, r, rest)
      ensures Leads(old(world.d), world.d, r, atoms, world.s) && LoopOf(atoms) == []
    {
      ghost var moves := world.Environment();
      ForeignKeepsGiven(old(world.d), world.d, world.s, r, rest);
      atoms := Outside(moves);
      MovesLead(old(world.d), world.d, r, moves, world.s);
    }

    /** `before_mutation` of the loop, with other processes before and after. */
    method WriteAhead(r: RecoveryRecord, smooth: bool, ghost rest: set<string>)
      returns (ok: bool, ghost atoms: seq<Atom>)
      requires world.Valid() && journal.world == world
      requires MayRelease(world.d, world.s, r) && Complete(r) && Given(world.d, world.s, r, rest)
      modifies world
      ensures world.Valid() && old(world.history) <= world.history
      ensures MayRelease(world.d, world.s, r) && OtherRecordsKept(old(world.d.file), world.d.file, r.id)
      ensures world.d.sent == old(world.d.sent) && world.d.terminal == old(world.d.terminal)
      ensures Given(world.d, world.s, r, rest)
      ensures Leads(old(world.d), world.d, r, atoms, world.s)
      ensures LoopOf(atoms) == [Announce] || (!ok && LoopOf(atoms) == [])
      ensures smooth ==> ok
    {
      ghost var own, after: seq<Atom>;
      atoms := Meanwhile(r, rest);
      ghost var d1 := world.d;
      ghost var landed: bool;
      ok, landed := WriteRelease(r, smooth);
      ghost var d2 := world.d;
      own := AnnounceLeads(d1, d2, r, landed, world.s);
      after := Meanwhile(r, rest);
      LeadsThrough(old(world.d), d1, d2, world.d, r, atoms, own, after, world.s);
      atoms := atoms + own + after;
    }

    method WriteRelease(r: RecoveryRecord, smooth: bool) returns (ok: bool, ghost landed: bool)
      requires world.Valid() && journal.world == world
      requires MayRelease(world.d, world.s, r) && Complete(r)
      modifies world
      ensures world.Valid() && old(world.history) <= world.history
      ensures MayRelease(world.d, world.s, r) && OtherRecordsKept(old(world.d.file), world.d.file, r.id)
      ensures world.d == if landed then old(world.d).(file := Updated(old(world.d.file), r.id, ReleaseChanges(r)))
                         else old(world.d)
      ensures ok ==> landed
      ensures smooth ==> ok
    {
      ReleaseWriteIsGood(world.d, world.s, r);
      OthersKeptByUpdate(world.d.file, r.id, ReleaseChanges(r));
      var fate: Fate := *;
      ok := journal.Update(r.id, ReleaseChanges(r), if smooth then Works else fate);
      landed := |world.history| > |old(world.history)|;
    }
  }

  lemma ReleaseKeepsGiven(d: Durable, s: Setting, r: RecoveryRecord, key: string, rest: set<string>)
    requires Given(d, s, r, rest) && Canonical(r.ownerTokens) && key in r.ownerTokens
    ensures Given(Released(d, s, Parse(key).value, r.ownerTokens[key]), s, r, rest - {key})
  {
    var next := Released(d, s, Parse(key).value, r.ownerTokens[key]);
    forall o | Own(next, s, o) && Lists(r, o, next.leases[o].owner)
      ensures Print(o) in rest - {key}
    {
      assert Own(d, s, o);
      if Print(o) == key { ParseInvertsPrint(o); }
    }
  }

  lemma ForeignKeepsGiven(a: Durable, b: Durable, s: Setting, r: RecoveryRecord, rest: set<string>)
    requires Given(a, s, r, rest) && Foreign(a, b, s)
    ensures Given(b, s, r, rest)
  {
    forall o | Own(b, s, o) && Lists(r, o, b.leases[o].owner)
      ensures Print(o) in rest
    {
      assert Own(a, s, o);
    }
  }

  lemma OthersAreForeign(d: Durable, s: Setting, r: RecoveryRecord)
    requires Good(d, s) && HasId(d.file, r.id) && Lookup(d.file, r.id) == r
    ensures r.id != s.rid ==> NamesNone(r, s.tokens)
  {
    assert d.file[IndexOf(d.file, r.id)] == r;
  }

  /** Every lease of ours but a stray one is on record, so no other is left once the recorded ones are gone. */
  lemma NothingLeft(d: Durable, s: Setting, r: RecoveryRecord)
    requires Good(d, s) && r.id == s.rid && HasId(d.file, s.rid)
    requires Lookup(d.file, s.rid).ownerTokens == r.ownerTokens
    requires forall o :: Own(d, s, o) ==> !Lists(r, o, d.leases[o].owner)
    ensures forall o :: Own(d, s, o) ==> IsStray(d, o, d.leases[o].owner)
  {
    forall o | Own(d, s, o) ensures IsStray(d, o, d.leases[o].owner) {
      assert !Lists(Lookup(d.file, s.rid), o, d.leases[o].owner);
    }
  }

  ghost predicate StillThere(records: seq<RecoveryRecord>, file: seq<RecoveryRecord>) {
    forall j :: 0 <= j < |records| ==> HasId(file, records[j].id) && Lookup(file, records[j].id) == records[j]
  }

  lemma UniqueLookups(file: seq<RecoveryRecord>)
    requires UniqueIds(file)
    ensures StillThere(file, file)
  {
    forall j | 0 <= j < |file| ensures HasId(file, file[j].id) && Lookup(file, file[j].id) == file[j] {
      assert IndexOf(file, file[j].id) == j;
    }
  }

  /** Every record but this one is there exactly if it was, and as it was. */
  ghost predicate OthersAsBefore(a: seq<RecoveryRecord>, b: seq<RecoveryRecord>, id: string) {
    forall other :: other != id ==>
      HasId(b, other) == HasId(a, other) && (HasId(a, other) ==> Lookup(b, other) == Lookup(a, other))
  }

  /** Changing one record's fields and then dropping it leaves every other lookup alone. */
  lemma OthersSurvive(a: seq<RecoveryRecord>, b: seq<RecoveryRecord>, id: string)
    requires OtherRecordsKept(a, b, id)
    ensures OthersAsBefore(a, b, id) && OthersAsBefore(a, Without(b, id), id)
  {
    forall other | other != id
      ensures HasId(b, other) == HasId(a, other) && (HasId(a, other) ==> Lookup(b, other) == Lookup(a, other))
      ensures HasId(Without(b, id), other) == HasId(a, other)
      ensures HasId(a, other) ==> Lookup(Without(b, id), other) == Lookup(a, other)
    {
      SameIds(a, b, id, other);
      WithoutKeepsLookup(b, id, other);
    }
  }

  lemma SameIds(a: seq<RecoveryRecord>, b: seq<RecoveryRecord>, id: string, other: string)
    requires OtherRecordsKept(a, b, id) && other != id
    ensures HasId(b, other) == HasId(a, other) && (HasId(a, other) ==> Lookup(b, other) == Lookup(a, other))
  {
    if HasId(b, other) {
      var i :| 0 <= i < |b| && b[i].id == other;
      assert a[i].id == other;
    }
    if HasId(a, other) {
      var i := IndexOf(a, other);
      assert b[i].id == other;
      assert IndexOf(b, other) == i;
    }
  }

  // ---- a pass over the file ----

  /** A settled record is gone, a pending one as it was. */
  ghost predicate Followed(records: seq<RecoveryRecord>, file: seq<RecoveryRecord>, verdicts: seq<Verdict>)
    requires |verdicts| <= |records|
  {
    forall j :: 0 <= j < |verdicts| ==>
      && (verdicts[j] == Settled ==> !HasId(file, records[j].id))
      && (verdicts[j] == Pending ==> HasId(file, records[j].id) && Lookup(file, records[j].id) == records[j])
  }

  /** The ids reported as resolved: those settled now, in the order of the file. */
  function SettledIds(records: seq<RecoveryRecord>, verdicts: seq<Verdict>): seq<string>
    requires |verdicts| <= |records|
  {
    if verdicts == [] then [] else
      var k := |verdicts| - 1;
      var earlier := SettledIds(records, verdicts[..k]);
      if verdicts[k] == Settled && records[k].status != RESOLVED then earlier + [records[k].id] else earlier
  }

  lemma SettledIdsOn(records: seq<RecoveryRecord>, verdicts: seq<Verdict>, v: Verdict)
    requires |verdicts| < |records|
    ensures var earlier, r := SettledIds(records, verdicts), records[|verdicts|];
            SettledIds(records, verdicts + [v])
            == if v == Settled && r.status != RESOLVED then earlier + [r.id] else earlier
  {
    LastOf(verdicts, v);
  }

  /** One record handled; `None` if the pass ends there. */
  lemma FollowedOn(records: seq<RecoveryRecord>, a: seq<RecoveryRecord>, b: seq<RecoveryRecord>,
                   verdicts: seq<Verdict>, v: Option<Verdict>)
    requires UniqueIds(records) && |verdicts| < |records| && Followed(records, a, verdicts)
    requires StillThere(records[|verdicts|..], a) && OthersAsBefore(a, b, records[|verdicts|].id)
    requires v == Some(Settled) ==> !HasId(b, records[|verdicts|].id)
    requires v == Some(Pending) ==> b == a
    ensures Followed(records, b, verdicts)
    ensures v.Some? ==> Followed(records, b, verdicts + [v.value])
    ensures StillThere(records[|verdicts| + 1..], b)
  {
    var i := |verdicts|;
    forall j | 0 <= j < |records| && j != i ensures records[j].id != records[i].id { }
    var rest := records[i + 1..];
    forall j | 0 <= j < |rest| ensures HasId(b, rest[j].id) && Lookup(b, rest[j].id) == rest[j] {
      assert rest[j] == records[i..][j + 1] == records[i + 1 + j];
    }
    assert records[i..][0] == records[i];
  }

  /** Of the tokens of ours that the record lists, only those still to come may be on a lease. */
  ghost predicate Given(d: Durable, s: Setting, r: RecoveryRecord, rest: set<string>) {
    forall o :: Own(d, s, o) && Lists(r, o, d.leases[o].owner) ==> Print(o) in rest
  }

  lemma OthersKeptByUpdate(file: seq<RecoveryRecord>, id: string, ch: Changes)
    ensures OtherRecordsKept(file, Updated(file, id, ch), id)
  {
  }
}
