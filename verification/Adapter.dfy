/**
 The journal of a live process and the JoinMarket adapter: leases taken and
 renewed under owner tokens, each written ahead of the change, with a renewal
 worker that writes the same record at any moment.
 */
module Adapters {
  import opened Prelude
  import opened Outpoints
  import opened Records
  import opened Worlds

  const LOCKED_PHASE := "locked"

  /** The journal as a process uses it: each update loads the file, changes one record and replaces the file. */
  class RecoveryJournal {
    const world: World

    constructor (world: World)
      ensures this.world == world
    {
      this.world := world;
    }

    /** Replace the file in one step. `terminal` only keeps track of why a record went. */
    method Write(records: seq<RecoveryRecord>, terminal: bool, fate: Fate) returns (ok: bool)
      requires world.Valid() && Good(world.d.(file := records, terminal := terminal), world.s)
      modifies world
      ensures world.Valid() && AtMostOneStep(old(world.history), world.history)
      ensures world.d == old(world.d) || world.d == old(world.d).(file := records, terminal := terminal)
      ensures ok <==> fate.Works?
      ensures fate.FailsEarly? <==> |world.history| == |old(world.history)|
      ensures !fate.FailsEarly? ==> world.d == old(world.d).(file := records, terminal := terminal)
    {
      if !fate.FailsEarly? { world.Step(world.d.(file := records, terminal := terminal)); }
      ok := fate.Works?;
    }

    method Update(id: string, ch: Changes, fate: Fate) returns (ok: bool)
      requires world.Valid() && Good(world.d.(file := Updated(world.d.file, id, ch)), world.s)
      modifies world
      ensures world.Valid() && AtMostOneStep(old(world.history), world.history)
      ensures world.d == old(world.d) || world.d == old(world.d).(file := Updated(old(world.d.file), id, ch))
      ensures ok ==> world.d == old(world.d).(file := Updated(old(world.d.file), id, ch))
      ensures ok <==> fate.Works? && HasId(old(world.d.file), id)
      ensures |world.history| == |old(world.history)| ==> !ok && world.d == old(world.d)
      ensures |world.history| > |old(world.history)| ==>
                world.d == old(world.d).(file := Updated(old(world.d.file), id, ch))
    {
      var records := world.d.file;
      var i := 0;
      while i < |records| && records[i].id != id
        invariant i <= |records|
        invariant forall j :: 0 <= j < i ==> records[j].id != id
      {
        i := i + 1;
      }
      if i == |records| { return false; }
      assert IndexOf(records, id) == i;
      ok := Write(records[i := Apply(records[i], ch)], world.d.terminal, fate);
    }

    method Resolve(id: string, terminal: bool, fate: Fate) returns (ok: bool)
      requires world.Valid() && Good(world.d.(file := Without(world.d.file, id), terminal := terminal), world.s)
      modifies world
      ensures world.Valid() && old(world.history) <= world.history
      ensures world.d == old(world.d)
              || world.d == old(world.d).(file := Without(old(world.d.file), id), terminal := terminal)
      ensures fate.FailsEarly? || world.d == old(world.d).(file := Without(old(world.d.file), id), terminal := terminal)
      ensures ok <==> fate.Works?
    {
      ok := Write(Without(world.d.file, id), terminal, fate);
    }
  }

  /** How far the renewal worker is with one outpoint; it reads the owner map twice before it writes. */
  datatype Stage =
    | Begin
    | HaveOutpoints(outs: seq<Outpoint>)
    | HaveOwners(outs: seq<Outpoint>, owners: map<Outpoint, Token>)
    | Recorded
    | Renewed(renewed: bool)

  datatype Worker = Off | Waiting | Busy(todo: seq<(Outpoint, Token)>, stage: Stage)

  ghost predicate Snapshot(outs: seq<Outpoint>, owners: map<Outpoint, Token>) {
    forall o :: o in owners ==> o in outs
  }

  ghost predicate Includes(big: map<Outpoint, Token>, small: map<Outpoint, Token>) {
    forall o :: o in small ==> o in big && big[o] == small[o]
  }

  ghost predicate OurTokens(owners: map<Outpoint, Token>, s: Setting) {
    forall o :: o in owners ==> owners[o] in s.tokens
  }

  /** Everything the worker still has to write covers what is held now: the owner map only shrinks while it runs. */
  ghost predicate WorkerReady(w: Worker, owners: map<Outpoint, Token>, s: Setting) {
    w.Busy? ==>
      && (forall i :: 0 <= i < |w.todo| ==> w.todo[i].1 in s.tokens)
      && (w.stage.HaveOutpoints? ==> Snapshot(w.stage.outs, owners))
      && (w.stage.HaveOwners? ==> Snapshot(w.stage.outs, owners) && Includes(w.stage.owners, owners))
      && (!w.stage.Begin? ==> w.todo != [])
  }

  /** Every lease under one of our tokens is one the adapter knows, or the stray one. */
  ghost predicate Tracked(d: Durable, s: Setting, owners: map<Outpoint, Token>) {
    forall o :: Own(d, s, o) ==> (o in owners && owners[o] == d.leases[o].owner) || IsStray(d, o, d.leases[o].owner)
  }

  /** What the adapter's own calls leave as it was: the run's progress and the record's identity. */
  ghost predicate SameRun(a: Durable, b: Durable, s: Setting) {
    && b.sent == a.sent && b.terminal == a.terminal && a.now <= b.now
    && (a.stray.Some? ==> b.stray == a.stray)
    && (HasId(a.file, s.rid) ==>
          HasId(b.file, s.rid) && Lookup(b.file, s.rid).txid == Lookup(a.file, s.rid).txid)
  }

  /** Interference and renewal: nothing is released, no lease of ours appears or is cut short. */
  ghost predicate Kept(a: Durable, b: Durable, s: Setting) {
    SameRun(a, b, s) && b.releases == a.releases && b.stray == a.stray && OwnShrinks(a, b, s) && OwnPersists(a, b, s)
  }

  /** No lease of ours appears, none is shortened. */
  ghost predicate OwnShrinks(a: Durable, b: Durable, s: Setting) {
    forall o :: Own(b, s, o) ==>
                  o in a.leases && a.leases[o].owner == b.leases[o].owner && a.leases[o].expiry <= b.leases[o].expiry
  }

  /** A lease of ours that has not run out by now is still there. */
  ghost predicate OwnPersists(a: Durable, b: Durable, s: Setting) {
    forall o :: Own(a, s, o) && b.now < a.leases[o].expiry ==>
                  o in b.leases && b.leases[o].owner == a.leases[o].owner && a.leases[o].expiry <= b.leases[o].expiry
  }

  /** The record names each of the owners. */
  ghost predicate ListsAll(d: Durable, s: Setting, owners: map<Outpoint, Token>) {
    HasId(d.file, s.rid) && forall o :: o in owners ==> Lists(Lookup(d.file, s.rid), o, owners[o])
  }

  lemma KeptTransitive(a: Durable, b: Durable, c: Durable, s: Setting)
    requires Kept(a, b, s) && Kept(b, c, s)
    ensures Kept(a, c, s)
  {
    forall o | Own(c, s, o)
      ensures o in a.leases && a.leases[o].owner == c.leases[o].owner && a.leases[o].expiry <= c.leases[o].expiry
    {
      assert Own(b, s, o);
    }
    forall o | Own(a, s, o) && c.now < a.leases[o].expiry
      ensures o in c.leases && c.leases[o].owner == a.leases[o].owner && a.leases[o].expiry <= c.leases[o].expiry
    {
      assert Own(b, s, o);
    }
  }

  lemma ForeignIsKept(a: Durable, b: Durable, s: Setting)
    requires Foreign(a, b, s)
    ensures Kept(a, b, s)
  {
  }

  lemma ForeignKeepsTracked(a: Durable, b: Durable, s: Setting, owners: map<Outpoint, Token>)
    requires Foreign(a, b, s) && Tracked(a, s, owners)
    ensures Tracked(b, s, owners)
  {
    forall o | Own(b, s, o)
      ensures (o in owners && owners[o] == b.leases[o].owner) || IsStray(b, o, b.leases[o].owner)
    {
      assert Own(a, s, o);
    }
  }

  lemma WriteIsKept(d: Durable, s: Setting, ch: Changes)
    requires HasId(d.file, s.rid) && ch.txid.None?
    ensures Kept(d, d.(file := Updated(d.file, s.rid, ch)), s)
  {
    LookupOfUpdated(d.file, s.rid, ch);
  }

  /** Naming at least what is held, and all of the inputs once they are out, keeps the durable state good. */
  lemma BeforeWriteIsGood(d: Durable, s: Setting, held: map<Outpoint, Token>, action: string, phase: string,
                          outs: seq<Outpoint>, owners: map<Outpoint, Token>, psbt: Option<string>, txid: Option<string>)
    requires Good(d, s) && s.Valid() && HasId(d.file, s.rid)
    requires Tracked(d, s, held)
    requires Includes(owners, held) && Snapshot(outs, held)
    requires d.sent ==> s.inputs <= held.Keys && (txid == None || txid == Some(s.txid))
    ensures Good(d.(file := Updated(d.file, s.rid, BeforeChanges(action, phase, outs, owners, psbt, txid))), s)
    ensures HasId(Updated(d.file, s.rid, BeforeChanges(action, phase, outs, owners, psbt, txid)), s.rid)
  {
    if d.sent {
      var o :| o in s.inputs;
      assert o in held && o in outs;
    }
    OwnWriteIsGood(d, s, BeforeChanges(action, phase, outs, owners, psbt, txid));
  }

  /** What the record says after a write ahead. */
  lemma BeforeWriteFacts(d: Durable, s: Setting, action: string, phase: string, outs: seq<Outpoint>,
                         owners: map<Outpoint, Token>, psbt: Option<string>, txid: Option<string>)
    requires HasId(d.file, s.rid)
    ensures var ch := BeforeChanges(action, phase, outs, owners, psbt, txid);
            var next := d.(file := Updated(d.file, s.rid, ch));
            && ListsAll(next, s, owners)
            && HasId(next.file, s.rid)
            && Lookup(next.file, s.rid).lockedOutpoints == outs
            && Lookup(next.file, s.rid).txid == if txid.Some? then txid else Lookup(d.file, s.rid).txid
  {
    LookupOfUpdated(d.file, s.rid, BeforeChanges(action, phase, outs, owners, psbt, txid));
  }

  lemma HeldStays(a: Durable, b: Durable, s: Setting, o: Outpoint, owner: Token, until: int)
    requires HeldUntil(a, o, owner, until) && owner in s.tokens && Kept(a, b, s)
    ensures HeldUntil(b, o, owner, until)
  {
    if b.now < until { assert Own(a, s, o); }
  }

  /** From index `from` on nothing happened but interference and renewal. */
  ghost predicate Interfered(h: seq<Durable>, from: nat, s: Setting) {
    forall i :: from < i < |h| ==> Kept(h[i - 1], h[i], s)
  }

  lemma UndisturbedIsKept(h: seq<Durable>, from: nat, s: Setting)
    requires Undisturbed(h, from, s)
    ensures Interfered(h, from, s)
  {
  }

  /** A lease held until some time is there in every state in between, and exclusively ours. */
  lemma {:induction false} HeldThroughout(h: seq<Durable>, from: nat, s: Setting, o: Outpoint, owner: Token,
                                          until: int, i: nat)
    requires from <= i < |h| && owner in s.tokens && HeldUntil(h[from], o, owner, until)
    requires Interfered(h, from, s)
    ensures HeldUntil(h[i], o, owner, until)
    decreases i
  {
    if from < i {
      HeldThroughout(h, from, s, o, owner, until, i - 1);
      HeldStays(h[i - 1], h[i], s, o, owner, until);
    }
  }

  /** Extending a lease that is ours and has not run out. */
  lemma RenewFacts(d: Durable, s: Setting, held: map<Outpoint, Token>, o: Outpoint, owner: Token)
    requires Good(d, s) && Tracked(d, s, held) && owner in s.tokens
    requires o in d.leases && d.leases[o].owner == owner && d.now < d.leases[o].expiry
    ensures var next := d.(leases := d.leases[o := Lease(owner, d.now + LOCK_TTL_SECONDS)]);
            Good(next, s) && Kept(d, next, s) && Tracked(next, s, held)
  {
    var next := d.(leases := d.leases[o := Lease(owner, d.now + LOCK_TTL_SECONDS)]);
    forall p | Own(next, s, p)
      ensures OnRecord(next, s, p, next.leases[p].owner) || IsStray(next, p, next.leases[p].owner)
      ensures (p in held && held[p] == next.leases[p].owner) || IsStray(next, p, next.leases[p].owner)
      ensures next.leases[p].expiry <= next.now + LOCK_TTL_SECONDS
      ensures p in d.leases && d.leases[p].owner == next.leases[p].owner && d.leases[p].expiry <= next.leases[p].expiry
    {
      assert Own(d, s, p);
    }
  }

  lemma ReserveIsGood(d: Durable, s: Setting, held: map<Outpoint, Token>, o: Outpoint, owner: Token, stray: Option<Stray>)
    requires Good(d, s) && HasId(d.file, s.rid)
    requires d.stray.None? && Tracked(d, s, held) && ListsAll(d, s, held[o := owner])
    requires stray.None? || stray == Some(Stray(o, owner, d.now + LOCK_TTL_SECONDS))
    ensures Good(Reserved(d, o, owner, stray), s)
  {
    var next := Reserved(d, o, owner, stray);
    forall p | Own(next, s, p)
      ensures OnRecord(next, s, p, next.leases[p].owner) && next.leases[p].expiry <= next.now + LOCK_TTL_SECONDS
    {
      var all := held[o := owner];
      if p != o { assert Own(d, s, p); }
      assert p in all && all[p] == next.leases[p].owner;
    }
  }

  ghost predicate Available(d: Durable, o: Outpoint) {
    o !in d.leases || d.leases[o].expiry <= d.now
  }

  function StrayIf(raised: bool, d: Durable, o: Outpoint, owner: Token): Option<Stray> {
    if raised then Some(Stray(o, owner, d.now + LOCK_TTL_SECONDS)) else None
  }

  /** A stray lease on this coin, granted for a full TTL no earlier than at `start`. */
  ghost predicate StrayFrom(stray: Stray, o: Outpoint, start: int) {
    stray.outpoint == o && stray.until >= start + LOCK_TTL_SECONDS
  }

  ghost predicate StrayOn(d: Durable, o: Outpoint) {
    d.stray.Some? && d.stray.value.outpoint == o
  }

  /** What a release of our own may change. */
  lemma ReleasedFacts(a: Durable, b: Durable, s: Setting, owners: map<Outpoint, Token>, o: Outpoint)
    requires o in owners && Tracked(a, s, owners) && (b == a || b == Released(a, s, o, owners[o]))
    ensures Tracked(b, s, owners) && SameRun(a, b, s) && b.stray == a.stray
    ensures b != a ==> Tracked(b, s, owners - {o}) && (o in b.leases ==> b.leases[o].owner != owners[o])
    ensures StraySafe(a, s) && !StrayOn(b, o) ==> StraySafe(b, s)
  {
    forall p | Own(b, s, p)
      ensures (p in owners && owners[p] == b.leases[p].owner) || IsStray(b, p, b.leases[p].owner)
      ensures b != a && p == o ==> b.leases[p].owner != owners[o]
    {
      assert Own(a, s, p);
    }
  }

  ghost predicate StraySafe(d: Durable, s: Setting) {
    d.stray.Some? ==>
      d.stray.value.owner in s.tokens && HeldUntil(d, d.stray.value.outpoint, d.stray.value.owner, d.stray.value.until)
  }

  lemma StrayStays(a: Durable, b: Durable, s: Setting)
    requires StraySafe(a, s) && Kept(a, b, s)
    ensures StraySafe(b, s)
  {
    if a.stray.Some? { HeldStays(a, b, s, a.stray.value.outpoint, a.stray.value.owner, a.stray.value.until); }
  }

  /** While a stray lease runs and the record is gone without the transaction being through, the cover is lost. */
  lemma StrayIsUncovered(d: Durable, s: Setting)
    requires d.stray.Some? && StraySafe(d, s) && d.now < d.stray.value.until
    requires !HasId(d.file, s.rid) && !d.terminal
    ensures !Covered(d, s)
  {
    assert Own(d, s, d.stray.value.outpoint);
  }

  lemma MarkIsGood(d: Durable, s: Setting, stray: Stray)
    requires Good(d, s) && d.stray.None?
    ensures Good(d.(stray := Some(stray)), s)
  {
    var next := d.(stray := Some(stray));
    forall o | Own(next, s, o)
      ensures OnRecord(next, s, o, next.leases[o].owner) && next.leases[o].expiry <= next.now + LOCK_TTL_SECONDS
    {
      assert Own(d, s, o);
    }
  }

  /** What is known of the leases once one more was granted. */
  lemma ReservedFacts(a: Durable, b: Durable, s: Setting, held: map<Outpoint, Token>, o: Outpoint, owner: Token,
                      stray: Option<Stray>)
    requires a.stray.None? && Tracked(a, s, held) && b == Reserved(a, o, owner, stray)
    requires stray.None? || stray == Some(Stray(o, owner, a.now + LOCK_TTL_SECONDS))
    ensures Tracked(b, s, if stray.Some? then held else held[o := owner])
    ensures SameRun(a, b, s)
    ensures HeldUntil(b, o, owner, a.now + LOCK_TTL_SECONDS)
  {
    var owners := if stray.Some? then held else held[o := owner];
    forall p | Own(b, s, p)
      ensures (p in owners && owners[p] == b.leases[p].owner) || IsStray(b, p, b.leases[p].owner)
    {
      if p != o { assert Own(a, s, p); }
    }
  }

  /** The lease is granted; `stray` says whether the call told so. */
  function Reserved(d: Durable, o: Outpoint, owner: Token, stray: Option<Stray>): Durable {
    d.(leases := d.leases[o := Lease(owner, d.now + LOCK_TTL_SECONDS)], stray := stray)
  }

  /** Unless the time has come, the lease is there and stays until then. */
  ghost predicate HeldUntil(d: Durable, o: Outpoint, owner: Token, until: int) {
    d.now < until ==> o in d.leases && d.leases[o].owner == owner && until <= d.leases[o].expiry
  }

  /**
   What befalls one `lock`: whether others keep still meanwhile, the write ahead,
   the reservation, the write after, and whether the caller gets to note the coin.
   */
  datatype LockFate = LockFate(quiet: bool, ahead: Fate, reserve: Fate, settle: Fate, noted: bool)
  {
    predicate Succeeds() {
      ahead.Works? && reserve.Works? && settle.Works? && noted
    }

    /** A granted lease the operation will not count among those it locked. */
    predicate Strays() {
      reserve.FailsLate? || (reserve.Works? && !(settle.Works? && noted))
    }
  }

  /** What befalls one `renew`: whether others keep still, the write ahead, the store's answer, the write after. */
  datatype RenewFate = RenewFate(quiet: bool, ahead: Fate, store: Fate, settle: Fate)
  {
    predicate Clean() { quiet && ahead.Works? && store.Works? && settle.Works? }
  }

  /** What befalls one `unlock`: the write ahead, the release, the write after. */
  datatype UnlockFate = UnlockFate(ahead: Fate, release: Fate, settle: Fate)
  {
    predicate Works() { ahead.Works? && release.Works? && settle.Works? }
  }

  class JoinMarketAdapter {
    const world: World
    const journal: RecoveryJournal
    var lockedUtxos: set<Outpoint>
    var lockOwners: map<Outpoint, Token>
    var worker: Worker
    var renewalFailed: bool

    constructor (world: World, journal: RecoveryJournal)
      ensures this.world == world && this.journal == journal
      ensures lockedUtxos == {} && lockOwners == map[] && worker == Off && !renewalFailed
    {
      this.world := world;
      this.journal := journal;
      lockedUtxos, lockOwners, worker, renewalFailed := {}, map[], Off, false;
    }

    /** What is true whenever the process holds the journal and is between two calls. */
    ghost predicate Ready()
      reads this, world
    {
      && world.Valid() && journal.world == world
      && Attached()
      && Tracked(world.d, world.s, lockOwners)
    }

    /** The same without the claim about leases. */
    ghost predicate Attached()
      reads this, world
    {
      && lockedUtxos == lockOwners.Keys
      && OurTokens(lockOwners, world.s)
      && HasId(world.d.file, world.s.rid)
      && WorkerReady(worker, lockOwners, world.s)
      && Snapshot(Lookup(world.d.file, world.s.rid).lockedOutpoints, lockOwners)
      && (world.d.sent ==> world.s.inputs <= lockOwners.Keys)
    }

    /** `list(...)` of a set: its elements, once each, in some order. */
    static method Enumerate(elements: set<Outpoint>) returns (outs: seq<Outpoint>)
      ensures forall o :: o in outs <==> o in elements
      ensures |outs| == |elements|
    {
      outs := [];
      var rest := elements;
      while rest != {}
        invariant rest <= elements
        invariant forall o :: o in outs <==> o in elements - rest
        invariant |outs| + |rest| == |elements|
        decreases |rest|
      {
        var o :| o in rest;
        outs, rest := outs + [o], rest - {o};
      }
    }

    /** Other processes, the clock and the renewal worker take any number of steps, or none if all is quiet. */
    method Interfere(quiet: bool)
      requires Ready()
      modifies this`worker, this`renewalFailed, world
      ensures Ready() && old(world.history) <= world.history
      ensures Kept(old(world.d), world.d, world.s)
      ensures old(worker) == Off ==> worker == Off && renewalFailed == old(renewalFailed)
      ensures old(worker) == Off ==> world.d.file == old(world.d.file)
      ensures quiet ==> world.d == old(world.d)
      ensures Interfered(world.history, |old(world.history)| - 1, world.s)
    {
      var n: nat := *;
      if quiet { n := 0; }
      while n > 0
        invariant Ready() && old(world.history) <= world.history
        invariant Kept(old(world.d), world.d, world.s)
        invariant old(worker) == Off ==> worker == Off && renewalFailed == old(renewalFailed)
        invariant old(worker) == Off ==> world.d.file == old(world.d.file)
        invariant quiet ==> n == 0 && world.d == old(world.d)
        invariant Interfered(world.history, |old(world.history)| - 1, world.s)
      {
        ghost var before := world.d;
        InterfereOnce();
        KeptTransitive(old(world.d), before, world.d, world.s);
        n := n - 1;
      }
    }

    method InterfereOnce()
      requires Ready()
      modifies this`worker, this`renewalFailed, world
      ensures Ready() && old(world.history) <= world.history
      ensures Kept(old(world.d), world.d, world.s)
      ensures old(worker) == Off ==> worker == Off && renewalFailed == old(renewalFailed)
      ensures old(worker) == Off ==> world.d.file == old(world.d.file)
      ensures Interfered(world.history, |old(world.history)| - 1, world.s)
    {
      var others: bool := *;
      if worker == Off || others {
        ghost var moves := world.Environment();
        UndisturbedIsKept(world.history, |old(world.history)| - 1, world.s);
        ForeignIsKept(old(world.d), world.d, world.s);
        ForeignKeepsTracked(old(world.d), world.d, world.s, lockOwners);
      } else {
        WorkerStep();
      }
    }

    /** One atomic step of the renewal worker. */
    method WorkerStep()
      requires Ready() && worker != Off
      modifies this`worker, this`renewalFailed, world
      ensures Ready() && AtMostOneStep(old(world.history), world.history)
      ensures Kept(old(world.d), world.d, world.s)
    {
      match worker
      case Off =>
      case Waiting =>
        if lockOwners == map[] {
          worker := Off;
        } else {
          var owners := lockOwners;
          var outs := Enumerate(owners.Keys);
          var todo := seq(|outs|, i requires 0 <= i < |outs| && outs[i] in owners => (outs[i], owners[outs[i]]));
          worker := Busy(todo, Begin);
        }
      case Busy(todo, stage) =>
        RenewalStep(todo, stage);
    }

    /** The worker in the middle of a pass over the outpoints it owned when the pass began. */
    method RenewalStep(todo: seq<(Outpoint, Token)>, stage: Stage)
      requires Ready() && worker == Busy(todo, stage)
      modifies this`worker, this`renewalFailed, world
      ensures Ready() && AtMostOneStep(old(world.history), world.history)
      ensures Kept(old(world.d), world.d, world.s)
    {
      match stage
      case Begin =>
        if todo == [] {
          worker := Waiting;
        } else {
          var outs := Enumerate(lockOwners.Keys);
          worker := Busy(todo, HaveOutpoints(outs));
        }
      case HaveOutpoints(outs) =>
        worker := Busy(todo, HaveOwners(outs, lockOwners));
      case HaveOwners(outs, owners) =>
        var fate: Fate := *;
        var ok := JournalOwners("renew_coinjoin_inputs", outs, owners, fate);
        if ok { worker := Busy(todo, Recorded); } else { worker, renewalFailed := Off, true; }
      case Recorded =>
        var fate: Fate := *;
        var renewed := StoreRenew(todo[0].0, todo[0].1, fate);
        if !fate.Works? { worker, renewalFailed := Off, true; } else { worker := Busy(todo, Renewed(renewed)); }
      case Renewed(renewed) =>
        var fate: Fate := *;
        var ok := JournalAfter(fate);
        if ok && renewed { worker := Busy(todo[1..], Begin); } else { worker, renewalFailed := Off, true; }
    }

    /** Write the record's outpoints and owner tokens ahead of a change to a lease. */
    method JournalOwners(action: string, outs: seq<Outpoint>, owners: map<Outpoint, Token>, fate: Fate)
      returns (ok: bool)
      requires Ready()
      requires Snapshot(outs, lockOwners) && Includes(owners, lockOwners)
      modifies world
      ensures Ready() && AtMostOneStep(old(world.history), world.history)
      ensures Kept(old(world.d), world.d, world.s)
      ensures world.d == old(world.d).(file := world.d.file)
      ensures ok ==> ListsAll(world.d, world.s, owners)
      ensures ok ==> Lookup(world.d.file, world.s.rid).lockedOutpoints == outs
      ensures ok <==> fate.Works?
    {
      WriteIsKept(world.d, world.s, BeforeChanges(action, LOCKED_PHASE, outs, owners, None, None));
      ok := JournalMutation(action, LOCKED_PHASE, outs, owners, None, None, fate);
    }

    /** `before_mutation` for the record of this process. */
    method JournalMutation(action: string, phase: string, outs: seq<Outpoint>, owners: map<Outpoint, Token>,
                           psbt: Option<string>, txid: Option<string>, fate: Fate) returns (ok: bool)
      requires Ready()
      requires Snapshot(outs, lockOwners) && Includes(owners, lockOwners)
      requires world.d.sent ==> txid == None || txid == Some(world.s.txid)
      modifies world
      ensures Ready() && AtMostOneStep(old(world.history), world.history)
      ensures var next := old(world.d).(file := Updated(old(world.d.file), world.s.rid,
                                                        BeforeChanges(action, phase, outs, owners, psbt, txid)));
              && (world.d == old(world.d) || world.d == next)
              && (ok ==> world.d == next)
      ensures world.d == old(world.d).(file := world.d.file)
      ensures ok ==> ListsAll(world.d, world.s, owners)
      ensures ok ==> Lookup(world.d.file, world.s.rid).lockedOutpoints == outs
      ensures ok && txid.Some? ==> Lookup(world.d.file, world.s.rid).txid == txid
      ensures ok <==> fate.Works?
    {
      BeforeWriteFacts(world.d, world.s, action, phase, outs, owners, psbt, txid);
      BeforeWriteIsGood(world.d, world.s, lockOwners, action, phase, outs, owners, psbt, txid);
      ok := journal.Update(world.s.rid, BeforeChanges(action, phase, outs, owners, psbt, txid), fate);
    }

    method JournalAfter(fate: Fate) returns (ok: bool)
      requires Ready()
      modifies world
      ensures Ready() && AtMostOneStep(old(world.history), world.history)
      ensures Kept(old(world.d), world.d, world.s)
      ensures world.d.leases == old(world.d.leases) && world.d.now == old(world.d.now)
      ensures ok <==> fate.Works?
    {
      var ch := AfterChanges(LOCKED_PHASE, None);
      OwnWriteIsGood(world.d, world.s, ch);
      WriteIsKept(world.d, world.s, ch);
      ok := journal.Update(world.s.rid, ch, fate);
    }

    /** `renew_coinjoin_inputs`: extends a lease only for the owner it still belongs to. */
    method StoreRenew(o: Outpoint, owner: Token, fate: Fate) returns (renewed: bool)
      requires Ready() && owner in world.s.tokens
      modifies world
      ensures Ready() && AtMostOneStep(old(world.history), world.history)
      ensures Kept(old(world.d), world.d, world.s)
      ensures world.d.file == old(world.d.file) && world.d.now == old(world.d.now)
      ensures renewed <==> HeldUntil(old(world.d), o, owner, old(world.d.now) + 1)
      ensures renewed && !fate.FailsEarly? ==> o in world.d.leases && world.d.leases[o] == Lease(owner, world.d.now + LOCK_TTL_SECONDS)
    {
      var d := world.d;
      renewed := o in d.leases && d.leases[o].owner == owner && d.now < d.leases[o].expiry;
      if renewed && !fate.FailsEarly? {
        RenewFacts(d, world.s, lockOwners, o, owner);
        world.Step(d.(leases := d.leases[o := Lease(owner, d.now + LOCK_TTL_SECONDS)]));
      }
    }

    /** `_journal_before_reservation`: two reads of the owner map, then the write, with interference all around. */
    method JournalCurrent(action: string, quiet: bool, fate: Fate) returns (ok: bool)
      requires Ready()
      modifies this`worker, this`renewalFailed, world
      ensures Ready() && old(world.history) <= world.history
      ensures Kept(old(world.d), world.d, world.s)
      ensures old(worker) == Off ==> worker == Off && renewalFailed == old(renewalFailed)
      ensures ok <==> fate.Works?
      ensures quiet ==> world.d == old(world.d).(file := world.d.file)
    {
      Interfere(quiet);
      var outs := Enumerate(lockOwners.Keys);
      ghost var d := world.d;
      Interfere(quiet);
      KeptTransitive(old(world.d), d, world.d, world.s);
      ok := JournalThen(action, outs, lockOwners, quiet, fate);
    }

    /** The write, and what others do before the next step. */
    method JournalThen(action: string, outs: seq<Outpoint>, owners: map<Outpoint, Token>, quiet: bool, fate: Fate)
      returns (ok: bool)
      requires Ready()
      requires Snapshot(outs, lockOwners) && Includes(owners, lockOwners)
      modifies this`worker, this`renewalFailed, world
      ensures Ready() && old(world.history) <= world.history
      ensures Kept(old(world.d), world.d, world.s)
      ensures old(worker) == Off ==> worker == Off && renewalFailed == old(renewalFailed)
      ensures old(worker) == Off && ok ==> ListsAll(world.d, world.s, owners)
      ensures old(worker) == Off && ok ==> Lookup(world.d.file, world.s.rid).lockedOutpoints == outs
      ensures ok <==> fate.Works?
      ensures quiet ==> world.d == old(world.d).(file := world.d.file)
    {
      ok := JournalOwners(action, outs, owners, fate);
      ghost var d := world.d;
      Interfere(quiet);
      KeptTransitive(old(world.d), d, world.d, world.s);
    }

    /** `_journal_after_reservation`, after interference. */
    method JournalSettled(quiet: bool, fate: Fate) returns (ok: bool)
      requires Ready()
      modifies this`worker, this`renewalFailed, world
      ensures Ready() && old(world.history) <= world.history
      ensures Kept(old(world.d), world.d, world.s)
      ensures old(worker) == Off ==> worker == Off && renewalFailed == old(renewalFailed)
      ensures ok <==> fate.Works?
      ensures quiet ==> world.d == old(world.d).(file := world.d.file)
    {
      Interfere(quiet);
      ghost var d := world.d;
      ok := JournalAfter(fate);
      KeptTransitive(old(world.d), d, world.d, world.s);
    }

    /**
     `reserve_coinjoin_inputs`: refused while an unexpired lease is there. If it
     raises after the lease was granted, the lease is the operation's stray one.
     */
    method StoreReserve(o: Outpoint, owner: Token, fate: Fate) returns (reserved: bool)
      requires Ready() && owner in world.s.tokens && o !in lockOwners && world.d.stray.None?
      requires ListsAll(world.d, world.s, lockOwners[o := owner])
      modifies world
      ensures world.Valid() && old(world.history) <= world.history
      ensures reserved <==> Available(old(world.d), o) && !fate.FailsEarly?
      ensures world.d == if reserved then Reserved(old(world.d), o, owner, StrayIf(fate.FailsLate?, old(world.d), o, owner))
                         else old(world.d)
    {
      reserved := (o !in world.d.leases || world.d.leases[o].expiry <= world.d.now) && !fate.FailsEarly?;
      if reserved {
        var stray := StrayIf(fate.FailsLate?, world.d, o, owner);
        ReserveIsGood(world.d, world.s, lockOwners, o, owner, stray);
        world.Step(Reserved(world.d, o, owner, stray));
      }
    }

    /** The write ahead of a reservation names the new outpoint and token next to those held. */
    method JournalReservation(o: Outpoint, owner: Token, quiet: bool, fate: Fate) returns (ok: bool)
      requires Ready() && worker == Off && o !in lockOwners && owner in world.s.tokens
      modifies this`worker, this`renewalFailed, world
      ensures Ready() && old(world.history) <= world.history
      ensures worker == Off && renewalFailed == old(renewalFailed)
      ensures Kept(old(world.d), world.d, world.s)
      ensures ok ==> ListsAll(world.d, world.s, lockOwners[o := owner])
      ensures ok ==> o in Lookup(world.d.file, world.s.rid).lockedOutpoints
      ensures ok <==> fate.Works?
      ensures quiet ==> world.d == old(world.d).(file := world.d.file)
    {
      Interfere(quiet);
      var outs := Enumerate(lockedUtxos);
      ghost var d := world.d;
      ok := JournalThen("reserve_coinjoin_inputs", outs + [o], lockOwners[o := owner], quiet, fate);
      KeptTransitive(old(world.d), d, world.d, world.s);
    }

    /**
     The rest of `lock`: ask for the lease, remember its owner, settle the record.
     Whatever raises once the lease is granted leaves it stray, an interruption
     that comes before the caller has noted the coin included.
     */
    method Reserve(o: Outpoint, owner: Token, fate: LockFate) returns (ok: bool)
      requires Ready() && worker == Off && !world.d.sent && o !in lockOwners && owner in world.s.tokens
      requires world.d.stray.None? && ListsAll(world.d, world.s, lockOwners[o := owner])
      requires o in Lookup(world.d.file, world.s.rid).lockedOutpoints
      modifies this, world
      ensures Ready() && old(world.history) <= world.history
      ensures worker == Off && renewalFailed == old(renewalFailed)
      ensures SameRun(old(world.d), world.d, world.s)
      ensures world.d.releases == old(world.d.releases)
      ensures lockOwners == old(lockOwners) || lockOwners == old(lockOwners)[o := owner]
      ensures ok ==> lockOwners == old(lockOwners)[o := owner]
      ensures ok ==> HeldUntil(world.d, o, owner, old(world.d.now) + LOCK_TTL_SECONDS)
      ensures ok ==> world.d.stray.None?
      ensures !ok && world.d.stray.None? ==> lockOwners == old(lockOwners)
      ensures !ok && lockOwners != old(lockOwners) ==> IsStray(world.d, o, owner)
      ensures StraySafe(world.d, world.s)
      ensures world.d.stray.Some? ==> StrayFrom(world.d.stray.value, o, old(world.d.now))
      ensures ok <==> Available(old(world.d), o) && fate.reserve.Works? && fate.settle.Works? && fate.noted
      ensures Available(old(world.d), o) ==> (world.d.stray.Some? <==> fate.Strays())
      ensures fate.quiet ==> world.d.now == old(world.d.now)
    {
      var until := world.d.now + LOCK_TTL_SECONDS;
      var granted := Grant(o, owner, fate.reserve);
      if !granted || fate.reserve.FailsLate? { return false; }
      ok := Settle(o, owner, until, fate);
    }

    /** The reservation itself; its owner is remembered only if the call says that it was granted. */
    method Grant(o: Outpoint, owner: Token, fate: Fate) returns (granted: bool)
      requires Ready() && worker == Off && !world.d.sent && o !in lockOwners && owner in world.s.tokens
      requires world.d.stray.None? && ListsAll(world.d, world.s, lockOwners[o := owner])
      requires o in Lookup(world.d.file, world.s.rid).lockedOutpoints
      modifies this`lockedUtxos, this`lockOwners, world
      ensures Ready() && old(world.history) <= world.history
      ensures SameRun(old(world.d), world.d, world.s)
      ensures world.d.releases == old(world.d.releases) && world.d.now == old(world.d.now)
      ensures granted <==> Available(old(world.d), o) && !fate.FailsEarly?
      ensures lockOwners == if granted && fate.Works? then old(lockOwners)[o := owner] else old(lockOwners)
      ensures granted ==> HeldUntil(world.d, o, owner, old(world.d.now) + LOCK_TTL_SECONDS)
      ensures world.d.stray == if granted then StrayIf(fate.FailsLate?, old(world.d), o, owner) else None
    {
      ghost var start := world.d;
      granted := StoreReserve(o, owner, fate);
      if granted {
        ReservedFacts(start, world.d, world.s, lockOwners, o, owner, StrayIf(fate.FailsLate?, start, o, owner));
        if fate.Works? { lockedUtxos, lockOwners := lockedUtxos + {o}, lockOwners[o := owner]; }
      }
    }

    /** The record is settled and the caller notes the coin; if either fails the lease is stray. */
    method Settle(o: Outpoint, owner: Token, until: int, fate: LockFate) returns (ok: bool)
      requires Ready() && worker == Off && world.d.stray.None? && owner in world.s.tokens
      requires HeldUntil(world.d, o, owner, until)
      modifies this`worker, this`renewalFailed, world
      ensures Ready() && old(world.history) <= world.history
      ensures worker == Off && renewalFailed == old(renewalFailed)
      ensures SameRun(old(world.d), world.d, world.s)
      ensures world.d.releases == old(world.d.releases)
      ensures HeldUntil(world.d, o, owner, until)
      ensures world.d.stray == if ok then None else Some(Stray(o, owner, until))
      ensures ok <==> fate.settle.Works? && fate.noted
      ensures fate.quiet ==> world.d.now == old(world.d.now)
    {
      ok := JournalSettled(fate.quiet, fate.settle);
      HeldStays(old(world.d), world.d, world.s, o, owner, until);
      ok := ok && fate.noted;
      if !ok {
        MarkIsGood(world.d, world.s, Stray(o, owner, until));
        world.Step(world.d.(stray := Some(Stray(o, owner, until))));
      }
    }

    /** `lock`: a fresh owner token is on disk before the lease is asked for. */
    method Lock(o: Outpoint, fate: LockFate) returns (ok: bool)
      requires Ready() && worker == Off && !world.d.sent && world.d.stray.None?
      modifies this, world
      ensures Ready() && old(world.history) <= world.history
      ensures worker == Off && renewalFailed == old(renewalFailed)
      ensures SameRun(old(world.d), world.d, world.s)
      ensures world.d.releases == old(world.d.releases)
      ensures ok ==> o !in old(lockOwners) && lockOwners.Keys == old(lockOwners.Keys) + {o}
      ensures ok ==> HeldUntil(world.d, o, lockOwners[o], old(world.d.now) + LOCK_TTL_SECONDS)
      ensures ok ==> world.d.stray.None?
      ensures !ok && world.d.stray.None? ==> lockOwners == old(lockOwners)
      ensures Includes(lockOwners, old(lockOwners)) && lockOwners.Keys <= old(lockOwners.Keys) + {o}
      ensures StraySafe(world.d, world.s)
      ensures world.d.stray.Some? ==> StrayFrom(world.d.stray.value, o, old(world.d.now)) && o !in old(lockOwners)
      ensures ok ==> fate.Succeeds()
      ensures fate.quiet && Available(old(world.d), o) && o !in old(lockOwners) ==> (ok <==> fate.Succeeds())
      ensures !ok ==> forall p :: p in lockOwners ==> p in old(lockOwners) || IsStray(world.d, p, lockOwners[p])
      ensures fate.quiet && o !in old(lockOwners) && Available(old(world.d), o) ==>
                (world.d.stray.Some? <==> fate.ahead.Works? && fate.Strays())
      ensures fate.quiet ==> world.d.now == old(world.d.now)
    {
      if o in lockedUtxos { return false; }
      var owner :| owner in world.s.tokens;
      ok := LockUnder(o, owner, fate);
    }

    method LockUnder(o: Outpoint, owner: Token, fate: LockFate) returns (ok: bool)
      requires Ready() && worker == Off && !world.d.sent && world.d.stray.None?
      requires o !in lockOwners && owner in world.s.tokens
      modifies this, world
      ensures Ready() && old(world.history) <= world.history
      ensures worker == Off && renewalFailed == old(renewalFailed)
      ensures SameRun(old(world.d), world.d, world.s)
      ensures world.d.releases == old(world.d.releases)
      ensures lockOwners == old(lockOwners) || lockOwners == old(lockOwners)[o := owner]
      ensures ok ==> lockOwners == old(lockOwners)[o := owner] && fate.Succeeds()
      ensures ok ==> HeldUntil(world.d, o, owner, old(world.d.now) + LOCK_TTL_SECONDS)
      ensures ok ==> world.d.stray.None?
      ensures !ok && world.d.stray.None? ==> lockOwners == old(lockOwners)
      ensures !ok && lockOwners != old(lockOwners) ==> IsStray(world.d, o, owner)
      ensures StraySafe(world.d, world.s)
      ensures world.d.stray.Some? ==> StrayFrom(world.d.stray.value, o, old(world.d.now))
      ensures fate.quiet && Available(old(world.d), o) ==>
                (world.d.stray.Some? <==> fate.ahead.Works? && fate.Strays())
      ensures fate.quiet && Available(old(world.d), o) ==> (ok <==> fate.Succeeds())
      ensures fate.quiet ==> world.d.now == old(world.d.now)
    {
      var recorded := JournalReservation(o, owner, fate.quiet, fate.ahead);
      if !recorded { return false; }
      ok := Reserve(o, owner, fate);
    }

    ghost predicate NoLeaseUnder(o: Outpoint, owner: Token)
      reads world
    {
      o in world.d.leases ==> world.d.leases[o].owner != owner
    }

    /** The second half of `unlock`: compare-and-release, then forget the token and settle the record. */
    method Free(o: Outpoint, fate: UnlockFate) returns (ok: bool)
      requires Ready() && !world.d.sent && o in lockOwners
      modifies this, world
      ensures Ready() && old(world.history) <= world.history
      ensures SameRun(old(world.d), world.d, world.s) && world.d.stray == old(world.d.stray)
      ensures lockOwners == old(lockOwners) || lockOwners == old(lockOwners) - {o}
      ensures o in lockOwners <==> !fate.release.Works?
      ensures ok <==> fate.release.Works? && fate.settle.Works?
      ensures o !in lockOwners ==> NoLeaseUnder(o, old(lockOwners)[o])
      ensures worker == Off || old(worker) != Off
      ensures StraySafe(old(world.d), world.s) && !StrayOn(world.d, o) ==> StraySafe(world.d, world.s)
    {
      var given := GiveBack(o, fate.release);
      if !given { return false; }
      ghost var d := world.d;
      ok := JournalSettled(false, fate.settle);
      assert Own(world.d, world.s, o) ==> o in d.leases && d.leases[o].owner == world.d.leases[o].owner;
      if StraySafe(d, world.s) { StrayStays(d, world.d, world.s); }
    }

    /** The release; the owner is kept while it may still be retried. */
    method GiveBack(o: Outpoint, fate: Fate) returns (given: bool)
      requires Ready() && !world.d.sent && o in lockOwners
      modifies this`lockOwners, this`lockedUtxos, world
      ensures Ready() && old(world.history) <= world.history
      ensures SameRun(old(world.d), world.d, world.s) && world.d.stray == old(world.d.stray)
      ensures lockOwners == if given then old(lockOwners) - {o} else old(lockOwners)
      ensures given <==> fate.Works?
      ensures given ==> NoLeaseUnder(o, old(lockOwners)[o])
      ensures StraySafe(old(world.d), world.s) && !StrayOn(world.d, o) ==> StraySafe(world.d, world.s)
    {
      world.ReleaseInputs(o, lockOwners[o], fate);
      given := fate.Works?;
      ReleasedFacts(old(world.d), world.d, world.s, lockOwners, o);
      if given { lockOwners, lockedUtxos := lockOwners - {o}, lockedUtxos - {o}; }
    }

    /** `unlock`: silent for a coin without a local owner; the owner is kept while a release may still be retried. */
    method Unlock(o: Outpoint, fate: UnlockFate) returns (ok: bool)
      requires Ready() && !world.d.sent
      modifies this, world
      ensures Ready() && old(world.history) <= world.history
      ensures SameRun(old(world.d), world.d, world.s) && world.d.stray == old(world.d.stray)
      ensures StraySafe(old(world.d), world.s) && !StrayOn(world.d, o) ==> StraySafe(world.d, world.s)
      ensures lockOwners == old(lockOwners) || lockOwners == old(lockOwners) - {o}
      ensures ok <==> o !in old(lockOwners) || fate.Works()
      ensures o in old(lockOwners) ==> (o in lockOwners <==> !(fate.ahead.Works? && fate.release.Works?))
      ensures o in old(lockOwners) && o !in lockOwners ==> NoLeaseUnder(o, old(lockOwners)[o])
      ensures worker == Off || old(worker) != Off
    {
      if o !in lockOwners { return true; }
      var recorded := JournalCurrent("release_coinjoin_inputs", false, fate.ahead);
      if StraySafe(old(world.d), world.s) { StrayStays(old(world.d), world.d, world.s); }
      if !recorded { return false; }
      ok := Free(o, fate);
    }

    /** The coin has an owner here, whose lease has not run out. */
    ghost predicate HoldsNow(d: Durable, o: Outpoint)
      reads this
    {
      o in lockOwners && HeldUntil(d, o, lockOwners[o], d.now + 1)
    }

    /** `renew`: extends one lease, or reports that it can no longer be proven ours. */
    method Renew(o: Outpoint, fate: RenewFate) returns (ok: bool, ghost at: int)
      requires Ready()
      modifies this`worker, this`renewalFailed, world
      ensures Ready() && old(world.history) <= world.history
      ensures Kept(old(world.d), world.d, world.s)
      ensures old(world.d.now) <= at <= world.d.now
      ensures ok ==> o in lockOwners && HeldUntil(world.d, o, lockOwners[o], at + LOCK_TTL_SECONDS)
      ensures fate.Clean() ==> (ok <==> HoldsNow(old(world.d), o)) && world.d.now == old(world.d.now)
      ensures old(worker) == Off ==> worker == Off && renewalFailed == old(renewalFailed)
    {
      at := world.d.now;
      if o !in lockOwners { return false, at; }
      var recorded := JournalCurrent("renew_coinjoin_inputs", fate.quiet, fate.ahead);
      ghost var d1 := world.d;
      at := world.d.now;
      if !recorded { ok := false; return; }
      var renewed := StoreRenew(o, lockOwners[o], fate.store);
      ghost var d2 := world.d;
      KeptTransitive(old(world.d), d1, d2, world.s);
      if !fate.store.Works? { ok := false; return; }
      ok := JournalSettled(fate.quiet, fate.settle);
      KeptTransitive(old(world.d), d2, world.d, world.s);
      ok := ok && renewed;
    }

    /**
     `renew_locks`: on success every listed coin is exclusively ours until a full
     TTL has passed since the first of the renewals, whatever happened between
     them. Refused once the worker has failed; otherwise, if nothing goes wrong
     (`smooth`), it succeeds for coins that are held.
     */
    method RenewLocks(coins: seq<Outpoint>, smooth: bool) returns (ok: bool, ghost first: int)
      requires Ready()
      modifies this`worker, this`renewalFailed, world
      ensures Ready() && old(world.history) <= world.history
      ensures Kept(old(world.d), world.d, world.s)
      ensures old(worker) == Off ==> worker == Off && renewalFailed == old(renewalFailed)
      ensures old(world.d.now) <= first <= world.d.now
      ensures ok ==> !old(renewalFailed) && AllHeld(coins, first + LOCK_TTL_SECONDS)
      ensures smooth && !old(renewalFailed) && AllHoldNow(old(world.d), coins) ==> ok
    {
      first := world.d.now;
      if renewalFailed { return false, first; }
      ok, first := RenewEach(coins, smooth);
    }

    ghost predicate AllHoldNow(d: Durable, coins: seq<Outpoint>)
      reads this
    {
      forall o :: o in coins ==> HoldsNow(d, o)
    }

    /** Each coin in turn, up to the first that fails. */
    method RenewEach(coins: seq<Outpoint>, smooth: bool) returns (ok: bool, ghost first: int)
      requires Ready()
      modifies this`worker, this`renewalFailed, world
      ensures Ready() && old(world.history) <= world.history
      ensures Kept(old(world.d), world.d, world.s)
      ensures old(worker) == Off ==> worker == Off && renewalFailed == old(renewalFailed)
      ensures old(world.d.now) <= first <= world.d.now
      ensures ok ==> AllHeld(coins, first + LOCK_TTL_SECONDS)
      ensures smooth && AllHoldNow(old(world.d), coins) ==> ok
      ensures smooth ==> world.d.now == old(world.d.now)
    {
      first := world.d.now;
      var i := 0;
      while i < |coins|
        invariant 0 <= i <= |coins|
        invariant Ready() && old(world.history) <= world.history
        invariant Kept(old(world.d), world.d, world.s)
        invariant old(worker) == Off ==> worker == Off && renewalFailed == old(renewalFailed)
        invariant old(world.d.now) <= first <= world.d.now
        invariant AllHeld(coins[..i], first + LOCK_TTL_SECONDS)
        invariant smooth ==> world.d.now == old(world.d.now)
      {
        ghost var at: int;
        ghost var before := world.d;
        var fate: RenewFate := *;
        if smooth {
          fate := RenewFate(true, Works, Works, Works);
          StillHolds(old(world.d), before, coins, i);
        }
        ok, at := RenewNext(coins, i, first, fate);
        KeptTransitive(old(world.d), before, world.d, world.s);
        first := at;
        if !ok { return; }
        i := i + 1;
      }
      assert coins[..i] == coins;
      ok := true;
    }

    /** No time has passed and nothing was released: what was held still is. */
    lemma StillHolds(a: Durable, b: Durable, coins: seq<Outpoint>, i: nat)
      requires OurTokens(lockOwners, world.s) && Kept(a, b, world.s) && b.now == a.now && i < |coins|
      ensures AllHoldNow(a, coins) ==> HoldsNow(b, coins[i])
    {
      if AllHoldNow(a, coins) {
        assert HoldsNow(a, coins[i]);
        HeldStays(a, b, world.s, coins[i], lockOwners[coins[i]], a.now + 1);
      }
    }

    ghost predicate AllHeld(coins: seq<Outpoint>, until: int)
      reads this, world
    {
      AllHeldIn(world.d, coins, until)
    }

    ghost predicate AllHeldIn(d: Durable, coins: seq<Outpoint>, until: int)
      reads this
    {
      forall o :: o in coins ==> o in lockOwners && HeldUntil(d, o, lockOwners[o], until)
    }

    /**
     `renew_locks` and whatever others do before the operation goes on: on
     success every listed coin is ours in each durable state from then on, until a
     full TTL has passed since the first renewal.
     */
    method RenewAndProceed(coins: seq<Outpoint>, smooth: bool) returns (ok: bool, ghost first: int, ghost since: nat)
      requires Ready()
      modifies this`worker, this`renewalFailed, world
      ensures Ready() && old(world.history) <= world.history
      ensures Kept(old(world.d), world.d, world.s)
      ensures |old(world.history)| - 1 <= since < |world.history|
      ensures old(world.d.now) <= first <= world.history[since].now
      ensures ok ==> forall i :: since <= i < |world.history| ==>
                AllHeldIn(world.history[i], coins, first + LOCK_TTL_SECONDS)
      ensures smooth && !old(renewalFailed) && AllHoldNow(old(world.d), coins) ==> ok
    {
      ok, first := RenewLocks(coins, smooth);
      ghost var d := world.d;
      since := |world.history| - 1;
      Interfere(false);
      KeptTransitive(old(world.d), d, world.d, world.s);
      if ok { StaysHeld(coins, since, first + LOCK_TTL_SECONDS); }
    }

    lemma StaysHeld(coins: seq<Outpoint>, since: nat, until: int)
      requires Ready() && since < |world.history| && Interfered(world.history, since, world.s)
      requires AllHeldIn(world.history[since], coins, until)
      ensures forall i :: since <= i < |world.history| ==> AllHeldIn(world.history[i], coins, until)
    {
      forall i, o | since <= i < |world.history| && o in coins ensures HeldUntil(world.history[i], o, lockOwners[o], until) {
        HeldThroughout(world.history, since, world.s, o, lockOwners[o], until, i);
      }
    }

    /** One turn of the loop: the coins renewed before stay held. */
    method RenewNext(coins: seq<Outpoint>, i: nat, ghost first: int, fate: RenewFate)
      returns (ok: bool, ghost start: int)
      requires Ready() && i < |coins| && first <= world.d.now
      requires AllHeld(coins[..i], first + LOCK_TTL_SECONDS)
      modifies this`worker, this`renewalFailed, world
      ensures Ready() && old(world.history) <= world.history
      ensures Kept(old(world.d), world.d, world.s)
      ensures old(worker) == Off ==> worker == Off && renewalFailed == old(renewalFailed)
      ensures i == 0 ==> old(world.d.now) <= start <= world.d.now
      ensures i > 0 ==> start == first
      ensures ok ==> AllHeld(coins[..i + 1], start + LOCK_TTL_SECONDS)
      ensures fate.Clean() ==> (ok <==> HoldsNow(old(world.d), coins[i])) && world.d.now == old(world.d.now)
    {
      ok, start := Renew(coins[i], fate);
      if i > 0 { start := first; }
      forall o | o in coins[..i] ensures HeldUntil(world.d, o, lockOwners[o], first + LOCK_TTL_SECONDS) {
        HeldStays(old(world.d), world.d, world.s, o, lockOwners[o], first + LOCK_TTL_SECONDS);
      }
      assert coins[..i + 1] == coins[..i] + [coins[i]];
    }

    /** `start_lock_renewal`: renews everything once, then lets the worker run; not once it has failed. */
    method StartLockRenewal(smooth: bool) returns (ok: bool)
      requires Ready()
      modifies this`worker, this`renewalFailed, world
      ensures Ready() && old(world.history) <= world.history
      ensures Kept(old(world.d), world.d, world.s)
      ensures ok && lockOwners != map[] ==> worker != Off && !old(renewalFailed)
      ensures ok && old(worker) == Off ==> forall o :: o in lockOwners ==>
                HeldUntil(world.d, o, lockOwners[o], old(world.d.now) + LOCK_TTL_SECONDS)
      ensures smooth && !old(renewalFailed) && (forall o :: o in lockOwners ==> HoldsNow(old(world.d), o)) ==> ok
      ensures smooth ==> world.d.now == old(world.d.now)
      ensures old(worker) == Off ==> renewalFailed == old(renewalFailed)
    {
      if lockOwners == map[] { return true; }
      if renewalFailed { return false; }
      if worker != Off { return true; }
      ok := RenewOwned(smooth);
      if ok { worker := Waiting; }
    }

    /** Every coin that has an owner here, in some order. */
    method RenewOwned(smooth: bool) returns (ok: bool)
      requires Ready()
      modifies this`worker, this`renewalFailed, world
      ensures Ready() && old(world.history) <= world.history
      ensures Kept(old(world.d), world.d, world.s)
      ensures old(worker) == Off ==> worker == Off && renewalFailed == old(renewalFailed)
      ensures ok ==> forall o :: o in lockOwners ==>
                HeldUntil(world.d, o, lockOwners[o], old(world.d.now) + LOCK_TTL_SECONDS)
      ensures smooth && (forall o :: o in lockOwners ==> HoldsNow(old(world.d), o)) ==> ok
      ensures smooth ==> world.d.now == old(world.d.now)
    {
      var outs := Enumerate(lockOwners.Keys);
      ghost var first: int;
      ok, first := RenewEach(outs, smooth);
      assert forall o :: o in lockOwners ==> o in outs;
    }

    /** `close`: the worker is joined first, so nothing of it writes afterwards; closing the wallet may fail. */
    method Close(quiet: bool, closes: bool) returns (ok: bool)
      requires Ready()
      modifies this`worker, this`renewalFailed, world
      ensures Ready() && old(world.history) <= world.history
      ensures worker == Off
      ensures Kept(old(world.d), world.d, world.s)
      ensures quiet ==> world.d == old(world.d)
      ensures ok == closes
    {
      Interfere(quiet);
      worker := Off;
      ok := closes;
    }
  }
}
