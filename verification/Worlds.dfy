/**
 What survives a crash: the journal file, JoinMarket's lease store, and whether
 the operation's transaction has been handed to the network. A `World` keeps
 every durable state it passes through, so that "the process may crash at any
 step" is the same as "restart from any element of the history".
 */
module Worlds {
  import opened Prelude
  import opened Sequences
  import opened Outpoints
  import opened Records

  const LOCK_TTL_SECONDS := 30 * 60
  const PENDING := "pending"
  const RESOLVED := "resolved"
  const PEERSWAP := "peerswap"

  datatype Lease = Lease(owner: Token, expiry: int)

  /**
   One call of `release_coinjoin_inputs`: whether the token was one of this
   operation's, whether a lease went, and whether the transaction was out by then.
   */
  datatype Release = Release(outpoint: Outpoint, own: bool, effective: bool, afterSend: bool)

  /**
   A lease that was granted although `lock` failed, so that the operation does
   not count its coin among those it locked.
   */
  datatype Stray = Stray(outpoint: Outpoint, owner: Token, until: int)

  /** `terminal`, `releases` and `stray` only keep the books; nothing in the program reads them. */
  datatype Durable = Durable(
    file: seq<RecoveryRecord>,
    leases: map<Outpoint, Lease>,
    now: int,
    sent: bool,
    terminal: bool,
    releases: seq<Release>,
    stray: Option<Stray>)

  /** An external call works, or raises after it took effect, or raises without any. */
  datatype Fate = Works | FailsLate | FailsEarly

  /**
   One operation under study: its record id, the id and the JoinMarket inputs of
   its transaction, the owner tokens it mints, and whether a call that answers
   has taken effect and a broadcast reported has happened (`truthful`).
   */
  datatype Setting = Setting(rid: string, txid: string, inputs: set<Outpoint>, tokens: set<Token>, truthful: bool)
  {
    predicate Valid() { inputs != {} && tokens != {} }
  }

  // ---- what must hold at every step ----

  ghost predicate Own(d: Durable, s: Setting, o: Outpoint) {
    o in d.leases && d.leases[o].owner in s.tokens
  }

  ghost predicate Written(tokens: map<string, Token>, o: Outpoint, t: Token) {
    Print(o) in tokens && tokens[Print(o)] == t
  }

  ghost predicate Lists(r: RecoveryRecord, o: Outpoint, t: Token) {
    Written(r.ownerTokens, o, t)
  }

  /**
   Write-ahead cover: a lease under one of the operation's tokens is in the
   record with that token, or the record went because the transaction reached
   its terminal phase.
   */
  ghost predicate Covered(d: Durable, s: Setting) {
    forall o :: Own(d, s, o) ==> OnRecord(d, s, o, d.leases[o].owner)
  }

  ghost predicate OnRecord(d: Durable, s: Setting, o: Outpoint, t: Token) {
    if HasId(d.file, s.rid) then Lists(Lookup(d.file, s.rid), o, t) else d.terminal
  }

  predicate IsStray(d: Durable, o: Outpoint, t: Token) {
    d.stray.Some? && d.stray.value.outpoint == o && d.stray.value.owner == t
  }

  /** The cover as it holds in every run: all leases but the stray one, if there is one. */
  ghost predicate CoveredButStray(d: Durable, s: Setting) {
    forall o :: Own(d, s, o) ==> OnRecord(d, s, o, d.leases[o].owner) || IsStray(d, o, d.leases[o].owner)
  }

  ghost predicate TouchesInputs(outs: seq<Outpoint>, s: Setting) {
    exists o :: o in outs && o in s.inputs
  }

  /** A transaction handed over is named by the record, next to at least one of its inputs. */
  ghost predicate Identified(d: Durable, s: Setting) {
    d.sent && HasId(d.file, s.rid) ==>
      Lookup(d.file, s.rid).txid == Some(s.txid) && TouchesInputs(Lookup(d.file, s.rid).lockedOutpoints, s)
  }

  ghost predicate SafeRelease(e: Release, s: Setting) {
    e.own && e.effective && e.outpoint in s.inputs ==> !e.afterSend
  }

  ghost predicate ReleasesSafe(d: Durable, s: Setting) {
    forall i :: 0 <= i < |d.releases| ==> SafeRelease(d.releases[i], s)
  }

  ghost predicate NamesNone(r: RecoveryRecord, tokens: set<Token>) {
    forall k :: k in r.ownerTokens ==> r.ownerTokens[k] !in tokens
  }

  ghost predicate OthersDisjoint(file: seq<RecoveryRecord>, s: Setting) {
    forall i :: 0 <= i < |file| && file[i].id != s.rid ==> NamesNone(file[i], s.tokens)
  }

  ghost predicate Shape(d: Durable, s: Setting) {
    HasId(d.file, s.rid) ==>
      Lookup(d.file, s.rid).status == PENDING && Lookup(d.file, s.rid).operation != PEERSWAP
  }

  ghost predicate Bounded(d: Durable, s: Setting) {
    forall o :: Own(d, s, o) ==> d.leases[o].expiry <= d.now + LOCK_TTL_SECONDS
  }

  ghost predicate Good(d: Durable, s: Setting) {
    && UniqueIds(d.file)
    && CoveredButStray(d, s)
    && Identified(d, s)
    && ReleasesSafe(d, s)
    && OthersDisjoint(d.file, s)
    && Shape(d, s)
    && Bounded(d, s)
  }

  // ---- what other processes and the clock may do meanwhile ----

  /** Nobody else uses the operation's tokens; its leases end only by expiring. */
  ghost predicate Foreign(a: Durable, b: Durable, s: Setting) {
    && b.file == a.file && b.sent == a.sent && b.terminal == a.terminal && b.releases == a.releases
    && b.stray == a.stray
    && a.now <= b.now
    && (forall o :: Own(b, s, o) ==> o in a.leases && a.leases[o] == b.leases[o])
    && (forall o :: Own(a, s, o) && b.now < a.leases[o].expiry ==> o in b.leases && b.leases[o] == a.leases[o])
  }

  lemma ForeignKeepsGood(a: Durable, b: Durable, s: Setting)
    requires Good(a, s) && Foreign(a, b, s)
    ensures Good(b, s)
  {
    forall o | Own(b, s, o)
      ensures OnRecord(b, s, o, b.leases[o].owner) || IsStray(b, o, b.leases[o].owner)
      ensures b.leases[o].expiry <= b.now + LOCK_TTL_SECONDS
    {
      assert Own(a, s, o);
    }
  }

  lemma ForeignTransitive(a: Durable, b: Durable, c: Durable, s: Setting)
    requires Foreign(a, b, s) && Foreign(b, c, s)
    ensures Foreign(a, c, s)
  {
    forall o | Own(c, s, o) ensures o in a.leases && a.leases[o] == c.leases[o] {
      assert Own(b, s, o);
    }
    forall o | Own(a, s, o) && c.now < a.leases[o].expiry ensures o in c.leases && c.leases[o] == a.leases[o] {
      assert Own(b, s, o);
    }
  }

  /** Compare-and-release, with its entry in the list of releases. */
  function Released(d: Durable, s: Setting, o: Outpoint, owner: Token): Durable {
    var effective := o in d.leases && d.leases[o].owner == owner;
    d.(leases := if effective then d.leases - {o} else d.leases,
       releases := d.releases + [Release(o, owner in s.tokens, effective, d.sent)])
  }

  lemma ReleaseIsGood(d: Durable, s: Setting, o: Outpoint, owner: Token)
    requires Good(d, s)
    requires owner in s.tokens && o in s.inputs && o in d.leases && d.leases[o].owner == owner ==> !d.sent
    ensures Good(Released(d, s, o, owner), s)
  {
    var next := Released(d, s, o, owner);
    forall p | Own(next, s, p)
      ensures OnRecord(next, s, p, next.leases[p].owner) || IsStray(next, p, next.leases[p].owner)
      ensures next.leases[p].expiry <= next.now + LOCK_TTL_SECONDS
    {
      assert Own(d, s, p);
    }
  }

  /** What one step of another process, or of the clock, does to the leases. */
  datatype Move = Idle | Put(outpoint: Outpoint, lease: Lease) | Vacate(outpoint: Outpoint)

  function Moved(leases: map<Outpoint, Lease>, m: Move): map<Outpoint, Lease> {
    match m
    case Idle => leases
    case Put(o, lease) => leases[o := lease]
    case Vacate(o) => leases - {o}
  }

  function MovedAll(leases: map<Outpoint, Lease>, moves: seq<Move>): map<Outpoint, Lease> {
    if moves == [] then leases else Moved(MovedAll(leases, moves[..|moves| - 1]), moves[|moves| - 1])
  }

  ghost predicate ForeignMoves(moves: seq<Move>, s: Setting) {
    forall i :: 0 <= i < |moves| && moves[i].Put? ==> moves[i].lease.owner !in s.tokens
  }

  ghost predicate ForeignMove(a: Durable, m: Move, b: Durable, s: Setting) {
    && Foreign(a, b, s) && b.leases == Moved(a.leases, m)
    && (m.Put? ==> m.lease.owner !in s.tokens)
  }

  /** From index `from` on the history is what others did. */
  ghost predicate Undisturbed(h: seq<Durable>, from: nat, s: Setting) {
    forall i :: from < i < |h| ==> Foreign(h[i - 1], h[i], s)
  }

  lemma UndisturbedOn(h: seq<Durable>, g: seq<Durable>, from: nat, s: Setting)
    requires h != [] && h <= g && |g| == |h| + 1 && Undisturbed(h, from, s) && Foreign(h[|h| - 1], g[|h|], s)
    ensures Undisturbed(g, from, s)
  {
  }

  lemma MovesOn(leases: map<Outpoint, Lease>, moves: seq<Move>, m: Move, s: Setting)
    requires ForeignMoves(moves, s) && (m.Put? ==> m.lease.owner !in s.tokens)
    ensures MovedAll(leases, moves + [m]) == Moved(MovedAll(leases, moves), m) && ForeignMoves(moves + [m], s)
  {
    LastOf(moves, m);
  }

  ghost predicate AtMostOneStep(a: seq<Durable>, b: seq<Durable>) {
    a <= b && |b| <= |a| + 1
  }

  class World {
    const s: Setting
    var d: Durable
    var history: seq<Durable>

    ghost predicate Valid()
      reads this
    {
      && s.Valid()
      && history != [] && history[|history| - 1] == d && Good(d, s)
      && (forall i {:trigger Good(history[i], s)} :: 0 <= i < |history| ==> Good(history[i], s))
    }

    constructor (s: Setting, d: Durable)
      requires s.Valid() && Good(d, s)
      ensures Valid() && this.s == s && this.d == d && history == [d]
    {
      this.s := s;
      this.d := d;
      this.history := [d];
    }

    /** Every durable change is one atomic step to a state that is good again. */
    method Step(next: Durable)
      requires Valid() && Good(next, s)
      modifies this
      ensures Valid() && d == next && history == old(history) + [next]
    {
      d := next;
      history := history + [next];
    }

    /** A crash: the durable state is that of an arbitrary earlier moment; what followed never happened. */
    method Restart(k: nat)
      requires Valid() && k < |history|
      modifies this
      ensures Valid() && d == old(history)[k] && history == old(history)[..k + 1]
    {
      d := history[k];
      history := history[..k + 1];
    }

    /**
     `release_coinjoin_inputs` for one outpoint: removes the lease only if it is
     still the given owner's. The call may raise before or after it took effect.
     */
    method ReleaseInputs(o: Outpoint, owner: Token, fate: Fate)
      requires Valid()
      requires owner in s.tokens && o in s.inputs && o in d.leases && d.leases[o].owner == owner ==> !d.sent
      modifies this
      ensures Valid()
      ensures AtMostOneStep(old(history), history)
      ensures fate.FailsEarly? <==> |history| == |old(history)|
      ensures d == if fate.FailsEarly? then old(d) else Released(old(d), s, o, owner)
    {
      if !fate.FailsEarly? {
        ReleaseIsGood(d, s, o, owner);
        Step(Released(d, s, o, owner));
      }
    }

    /** Any number of steps of other processes and of the clock. */
    method Environment() returns (ghost moves: seq<Move>)
      requires Valid()
      modifies this
      ensures Valid() && old(history) <= history
      ensures Foreign(old(d), d, s)
      ensures d.leases == MovedAll(old(d.leases), moves) && ForeignMoves(moves, s)
      ensures Undisturbed(history, |old(history)| - 1, s)
    {
      var n: nat := *;
      moves := [];
      while n > 0
        invariant Valid() && old(history) <= history
        invariant Foreign(old(d), d, s)
        invariant d.leases == MovedAll(old(d.leases), moves) && ForeignMoves(moves, s)
        invariant Undisturbed(history, |old(history)| - 1, s)
      {
        ghost var h, before := history, d;
        ghost var m := ForeignStep();
        MovesOn(old(d.leases), moves, m, s);
        UndisturbedOn(h, history, |old(history)| - 1, s);
        ForeignTransitive(old(d), before, d, s);
        moves := moves + [m];
        n := n - 1;
      }
    }

    method ForeignStep() returns (ghost m: Move)
      requires Valid()
      modifies this
      ensures Valid() && history == old(history) + [d]
      ensures ForeignMove(old(d), m, d, s)
    {
      var clock: bool := *;
      if clock { Tick(); m := Idle; } else { m := ForeignLease(); }
    }

    method Tick()
      requires Valid()
      modifies this
      ensures Valid() && history == old(history) + [d]
      ensures ForeignMove(old(d), Idle, d, s)
    {
      var later: int := *;
      var next := d.(now := if d.now <= later then later else d.now);
      ForeignKeepsGood(d, next, s);
      Step(next);
    }

    /** Another process takes a lease that is free or ran out, renews one of its own or gives it back. */
    method ForeignLease() returns (ghost m: Move)
      requires Valid()
      modifies this
      ensures Valid() && history == old(history) + [d]
      ensures ForeignMove(old(d), m, d, s)
    {
      var o: Outpoint := *;
      var t: Token := *;
      var drop: bool := *;
      var next := d;
      m := Idle;
      if t !in s.tokens && (o !in d.leases || d.leases[o].expiry <= d.now || d.leases[o].owner == t) {
        if drop && o in d.leases && d.leases[o].owner == t {
          next, m := d.(leases := d.leases - {o}), Vacate(o);
        } else {
          var lease := Lease(t, d.now + LOCK_TTL_SECONDS);
          next, m := d.(leases := d.leases[o := lease]), Put(o, lease);
        }
      }
      ForeignKeepsGood(d, next, s);
      Step(next);
    }
  }

  // ---- one write to the operation's own record ----

  lemma OwnWriteIsGood(d: Durable, s: Setting, ch: Changes)
    requires Good(d, s) && HasId(d.file, s.rid)
    requires ch.status.Some? ==> ch.status.value == PENDING
    requires d.sent ==> ch.txid == None || ch.txid == Some(Some(s.txid))
    requires d.sent && ch.lockedOutpoints.Some? ==> TouchesInputs(ch.lockedOutpoints.value, s)
    requires ch.ownerTokens.Some? ==>
               forall o :: Own(d, s, o) ==>
                 Written(ch.ownerTokens.value, o, d.leases[o].owner) || IsStray(d, o, d.leases[o].owner)
    ensures Good(d.(file := Updated(d.file, s.rid, ch)), s)
    ensures HasId(Updated(d.file, s.rid, ch), s.rid)
  {
    LookupOfUpdated(d.file, s.rid, ch);
    var file := Updated(d.file, s.rid, ch);
    assert UniqueIds(file);
    assert OthersDisjoint(file, s) by {
      forall i | 0 <= i < |file| && file[i].id != s.rid ensures NamesNone(file[i], s.tokens) {
        assert file[i] == d.file[i];
      }
    }
  }

  /** A write to another operation's record leaves this one as it was. */
  lemma OtherWriteIsGood(d: Durable, s: Setting, id: string, ch: Changes)
    requires Good(d, s) && HasId(d.file, id) && id != s.rid
    requires ch.ownerTokens.Some? ==> forall k :: k in ch.ownerTokens.value ==> ch.ownerTokens.value[k] !in s.tokens
    ensures Good(d.(file := Updated(d.file, id, ch)), s)
    ensures HasId(d.file, s.rid) ==> Lookup(Updated(d.file, id, ch), s.rid) == Lookup(d.file, s.rid)
    ensures HasId(Updated(d.file, id, ch), s.rid) == HasId(d.file, s.rid)
  {
    var file := Updated(d.file, id, ch);
    if HasId(d.file, s.rid) { LookupOther(d.file, id, ch, s.rid); }
    assert HasId(file, s.rid) == HasId(d.file, s.rid) by {
      if HasId(file, s.rid) {
        var i :| 0 <= i < |file| && file[i].id == s.rid;
        assert d.file[i].id == s.rid;
      }
    }
    assert OthersDisjoint(file, s) by {
      forall i | 0 <= i < |file| && file[i].id != s.rid ensures NamesNone(file[i], s.tokens) {
        assert NamesNone(d.file[i], s.tokens);
        if i == IndexOf(d.file, id) {
          assert file[i] == Apply(d.file[i], ch);
        } else {
          assert file[i] == d.file[i];
        }
      }
    }
  }

  /** Removing a record: the operation's own only once it holds nothing or is through. */
  lemma ResolveIsGood(d: Durable, s: Setting, id: string, terminal: bool)
    requires Good(d, s)
    requires id == s.rid ==> terminal || forall o :: Own(d, s, o) ==> IsStray(d, o, d.leases[o].owner)
    requires id != s.rid ==> terminal == d.terminal
    ensures Good(d.(file := Without(d.file, id), terminal := terminal), s)
    ensures !HasId(Without(d.file, id), id)
  {
    var file := Without(d.file, id);
    WithoutKeepsUnique(d.file, id);
    if id != s.rid { WithoutKeepsLookup(d.file, id, s.rid); }
    assert OthersDisjoint(file, s) by {
      forall i | 0 <= i < |file| && file[i].id != s.rid ensures NamesNone(file[i], s.tokens) {
        assert file[i] in file;
        assert file[i] in d.file;
      }
    }
  }

  lemma {:induction false} WithoutKeepsLookup(file: seq<RecoveryRecord>, id: string, other: string)
    requires id != other
    ensures HasId(Without(file, id), other) == HasId(file, other)
    ensures HasId(file, other) ==> Lookup(Without(file, id), other) == Lookup(file, other)
  {
    if file != [] {
      WithoutKeepsLookup(file[1..], id, other);
      var f := Without(file, id);
      if file[0].id != id {
        assert f[1..] == Without(file[1..], id);
        HasIdStep(f, other);
      }
      HasIdStep(file, other);
    }
  }

  lemma HasIdStep(file: seq<RecoveryRecord>, id: string)
    requires file != []
    ensures HasId(file, id) == (file[0].id == id || HasId(file[1..], id))
    ensures HasId(file, id) && file[0].id != id ==> Lookup(file, id) == Lookup(file[1..], id)
  {
    if HasId(file, id) && file[0].id != id {
      var i :| 0 <= i < |file| && file[i].id == id;
      assert file[1..][i - 1].id == id;
    }
    if HasId(file[1..], id) {
      var i :| 0 <= i < |file[1..]| && file[1..][i].id == id;
      assert file[i + 1].id == id;
    }
  }
}
