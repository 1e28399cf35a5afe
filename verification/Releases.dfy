/**
 The release loop of a recovery by itself: what its durable steps do to the file
 and to the leases, with steps of other processes anywhere in between, and what
 an interrupted recovery leaves for the next one.
 */
module Releases {
  import opened Prelude
  import opened Sequences
  import opened Outpoints
  import opened Records
  import opened Worlds

  /** The keys are exactly the printed outpoints of the list: the check made before any release. */
  predicate Complete(r: RecoveryRecord) {
    r.ownerTokens.Keys == set o | o in r.lockedOutpoints :: Print(o)
  }

  ghost predicate Canonical(tokens: map<string, Token>) {
    forall k :: k in tokens ==> Parse(k).Some? && Print(Parse(k).value) == k
  }

  lemma CompleteIsCanonical(r: RecoveryRecord)
    requires Complete(r)
    ensures Canonical(r.ownerTokens)
    ensures forall k :: k in r.ownerTokens ==> Parse(k).value in r.lockedOutpoints
  {
    forall k | k in r.ownerTokens
      ensures Parse(k).Some? && Print(Parse(k).value) == k && Parse(k).value in r.lockedOutpoints
    {
      assert k in r.ownerTokens.Keys;
      var o :| o in r.lockedOutpoints && Print(o) == k;
      ParseInvertsPrint(o);
    }
  }

  /** The record's tokens by outpoint, as recovery rebuilds them from the printed keys. */
  function Decode(tokens: map<string, Token>): map<Outpoint, Token> {
    map o | o in (set k | k in tokens && Parse(k).Some? :: Parse(k).value) && Print(o) in tokens :: tokens[Print(o)]
  }

  lemma DecodeHas(tokens: map<string, Token>, o: Outpoint)
    ensures o in Decode(tokens) <==> Print(o) in tokens
    ensures o in Decode(tokens) ==> Decode(tokens)[o] == tokens[Print(o)]
  {
    ParseInvertsPrint(o);
  }

  lemma EncodeHas(owners: map<Outpoint, Token>, o: Outpoint)
    ensures Print(o) in Encode(owners) <==> o in owners
  {
    if Print(o) in Encode(owners) {
      var p :| p in owners && Print(p) == Print(o);
      ParseInvertsPrint(p);
      ParseInvertsPrint(o);
    }
  }

  lemma EncodeInvertsDecode(tokens: map<string, Token>)
    requires Canonical(tokens)
    ensures Encode(Decode(tokens)) == tokens
    ensures forall o :: o in Decode(tokens) <==> Print(o) in tokens
  {
    forall o: Outpoint | Print(o) in tokens ensures o in Decode(tokens) {
      ParseInvertsPrint(o);
    }
    var m := Encode(Decode(tokens));
    forall k | k in tokens ensures k in m && m[k] == tokens[k] {
      var o := Parse(k).value;
      assert Print(o) == k && o in Decode(tokens);
    }
  }

  lemma DecodeIs(tokens: map<string, Token>, owners: map<Outpoint, Token>)
    requires forall o: Outpoint :: Print(o) in tokens <==> o in owners
    requires forall o :: o in owners ==> tokens[Print(o)] == owners[o]
    ensures Decode(tokens) == owners
  {
    var m := Decode(tokens);
    forall o: Outpoint ensures (o in m <==> o in owners) && (o in m ==> m[o] == owners[o]) {
      DecodeHas(tokens, o);
    }
  }

  /**
   The owner of every reservation comes back from the file: printed outpoints as
   keys, JSON texts as values, read and parsed again.
   */
  lemma OwnersRoundTrip(owners: map<Outpoint, Token>, str: Json -> string)
    requires forall s :: str(JText(s)) == s
    ensures ReadTokens(TextMap(Encode(owners)), str).Some?
    ensures Decode(ReadTokens(TextMap(Encode(owners)), str).value) == owners
  {
    TokensRoundTrip(Encode(owners), str);
    forall o: Outpoint ensures Print(o) in Encode(owners) <==> o in owners {
      EncodeHas(owners, o);
    }
    DecodeIs(Encode(owners), owners);
  }

  /** The write ahead of each recovery release. */
  function ReleaseChanges(r: RecoveryRecord): Changes {
    BeforeChanges("recovery_release", r.phase, r.lockedOutpoints, Decode(r.ownerTokens), r.psbt, r.txid)
  }

  /** It leaves everything recovery looks at as it was. */
  lemma ReleaseChangesKeepIdentity(r: RecoveryRecord)
    requires Complete(r)
    ensures Apply(r, ReleaseChanges(r)) == r.(action := Some("recovery_release"), status := PENDING)
  {
    CompleteIsCanonical(r);
    EncodeInvertsDecode(r.ownerTokens);
  }

  lemma ReleaseChangesKeepTokens(r: RecoveryRecord)
    requires Complete(r)
    ensures ReleaseChanges(r).ownerTokens == Some(r.ownerTokens)
  {
    CompleteIsCanonical(r);
    EncodeInvertsDecode(r.ownerTokens);
  }

  /** A PeerSwap record is looked at only if no mutation is open on it and its broadcast was recorded. */
  predicate PeerSwapEligible(r: RecoveryRecord) {
    r.action.None? && r.phase == "broadcast" && r.txid.Some?
  }

  // ---- the durable steps of the loop ----

  datatype Store = Store(file: seq<RecoveryRecord>, leases: map<Outpoint, Lease>)

  /** Each turn of the loop writes ahead and gives one token back; others act at any time. */
  datatype Atom = Announce | Give(key: string) | Others(move: Move)

  function Turn(key: string): seq<Atom> {
    [Announce, Give(key)]
  }

  function Loop(keys: seq<string>): seq<Atom> {
    if keys == [] then [] else Loop(keys[..|keys| - 1]) + Turn(keys[|keys| - 1])
  }

  function Do(st: Store, r: RecoveryRecord, a: Atom): Store {
    match a
    case Announce => st.(file := Updated(st.file, r.id, ReleaseChanges(r)))
    case Give(k) =>
      if k in r.ownerTokens && Parse(k).Some? && Parse(k).value in st.leases
         && st.leases[Parse(k).value].owner == r.ownerTokens[k]
      then st.(leases := st.leases - {Parse(k).value}) else st
    case Others(m) => st.(leases := Moved(st.leases, m))
  }

  function DoAll(st: Store, r: RecoveryRecord, atoms: seq<Atom>): Store {
    if atoms == [] then st else Do(DoAll(st, r, atoms[..|atoms| - 1]), r, atoms[|atoms| - 1])
  }

  /** The loop's own steps among the atoms, and those of others. */
  function LoopOf(atoms: seq<Atom>): seq<Atom> {
    if atoms == [] then []
    else if atoms[|atoms| - 1].Others? then LoopOf(atoms[..|atoms| - 1])
    else LoopOf(atoms[..|atoms| - 1]) + [atoms[|atoms| - 1]]
  }

  function MovesOf(atoms: seq<Atom>): seq<Move> {
    if atoms == [] then []
    else if atoms[|atoms| - 1].Others? then MovesOf(atoms[..|atoms| - 1]) + [atoms[|atoms| - 1].move]
    else MovesOf(atoms[..|atoms| - 1])
  }

  /** Nobody else takes a lease under a token of the record. */
  ghost predicate Strange(m: Move, tokens: map<string, Token>) {
    m.Put? ==> !Written(tokens, m.outpoint, m.lease.owner)
  }

  ghost predicate AllStrange(atoms: seq<Atom>, tokens: map<string, Token>) {
    forall i :: 0 <= i < |atoms| && atoms[i].Others? ==> Strange(atoms[i].move, tokens)
  }

  /** Leases left once the recorded tokens under the given keys are given back. */
  function Remaining(leases: map<Outpoint, Lease>, tokens: map<string, Token>, keys: set<string>): map<Outpoint, Lease> {
    map o | o in leases && !(Print(o) in keys && Print(o) in tokens && tokens[Print(o)] == leases[o].owner) :: leases[o]
  }

  function KeysOf(atoms: seq<Atom>): set<string> {
    if atoms == [] then {}
    else KeysOf(atoms[..|atoms| - 1])
         + (if atoms[|atoms| - 1].Give? then {atoms[|atoms| - 1].key} else {})
  }

  predicate Writes(atoms: seq<Atom>) {
    atoms != [] && (atoms[|atoms| - 1].Announce? || Writes(atoms[..|atoms| - 1]))
  }

  function KeySet(keys: seq<string>): set<string> {
    if keys == [] then {} else KeySet(keys[..|keys| - 1]) + {keys[|keys| - 1]}
  }

  ghost predicate Enumerates(keys: seq<string>, tokens: map<string, Token>) {
    KeySet(keys) == tokens.Keys
  }

  // ---- composing stretches of the loop ----

  function StoreOf(d: Durable): Store {
    Store(d.file, d.leases)
  }

  /** From one state to a later one by these atoms; what others took they took under tokens of their own. */
  ghost predicate Leads(a: Durable, b: Durable, r: RecoveryRecord, atoms: seq<Atom>, s: Setting) {
    StoreOf(b) == DoAll(StoreOf(a), r, atoms) && OnlyForeign(atoms, s)
  }

  ghost predicate OnlyForeign(atoms: seq<Atom>, s: Setting) {
    forall i :: 0 <= i < |atoms| && atoms[i].Others? && atoms[i].move.Put? ==> atoms[i].move.lease.owner !in s.tokens
  }

  lemma {:induction false} DoneInTwo(st: Store, r: RecoveryRecord, a: seq<Atom>, b: seq<Atom>)
    ensures DoAll(st, r, a + b) == DoAll(DoAll(st, r, a), r, b)
    decreases |b|
  {
    if b == [] {
      PlusNothing(a);
    } else {
      DoneInTwo(st, r, a, b[..|b| - 1]);
      LastOfSum(a, b);
    }
  }

  /** One stretch between two in which the loop takes no step. */
  lemma LeadsThrough(a: Durable, b: Durable, c: Durable, d: Durable, r: RecoveryRecord,
                     x: seq<Atom>, y: seq<Atom>, z: seq<Atom>, s: Setting)
    requires Leads(a, b, r, x, s) && Leads(b, c, r, y, s) && Leads(c, d, r, z, s)
    requires LoopOf(x) == [] && LoopOf(z) == []
    ensures Leads(a, d, r, x + y + z, s) && LoopOf(x + y + z) == LoopOf(y)
  {
    LeadsOn(a, b, c, r, x, y, s);
    LeadsOn(a, c, d, r, x + y, z, s);
    PlusNothing(LoopOf(y));
  }

  lemma LeadsOn(a: Durable, b: Durable, c: Durable, r: RecoveryRecord, x: seq<Atom>, y: seq<Atom>, s: Setting)
    requires Leads(a, b, r, x, s) && Leads(b, c, r, y, s)
    ensures Leads(a, c, r, x + y, s)
    ensures LoopOf(x + y) == LoopOf(x) + LoopOf(y)
  {
    DoneInTwo(StoreOf(a), r, x, y);
    LoopOfJoin(x, y);
  }

  /** Others' moves are a stretch with no step of the loop. */
  function Outside(moves: seq<Move>): (atoms: seq<Atom>)
    ensures |atoms| == |moves| && forall i :: 0 <= i < |moves| ==> atoms[i] == Others(moves[i])
  {
    seq(|moves|, i requires 0 <= i < |moves| => Others(moves[i]))
  }

  lemma {:induction false} OutsideOf(st: Store, r: RecoveryRecord, moves: seq<Move>)
    ensures LoopOf(Outside(moves)) == [] && MovesOf(Outside(moves)) == moves
    ensures DoAll(st, r, Outside(moves)) == st.(leases := MovedAll(st.leases, moves))
  {
    if moves != [] {
      OutsideOf(st, r, moves[..|moves| - 1]);
      assert Outside(moves)[..|moves| - 1] == Outside(moves[..|moves| - 1]);
    }
  }

  lemma MovesLead(a: Durable, b: Durable, r: RecoveryRecord, moves: seq<Move>, s: Setting)
    requires b.file == a.file && b.leases == MovedAll(a.leases, moves) && ForeignMoves(moves, s)
    ensures Leads(a, b, r, Outside(moves), s) && LoopOf(Outside(moves)) == []
  {
    OutsideOf(StoreOf(a), r, moves);
  }

  lemma OneAtom(st: Store, r: RecoveryRecord, a: Atom)
    requires !a.Others?
    ensures LoopOf([a]) == [a] && LoopOf([]) == []
    ensures DoAll(st, r, [a]) == Do(st, r, a) && DoAll(st, r, []) == st
  {
    assert [a][..0] == [];
    assert [] + [a] == [a];
  }

  lemma {:induction false} LoopOfJoin(a: seq<Atom>, b: seq<Atom>)
    ensures LoopOf(a + b) == LoopOf(a) + LoopOf(b)
    ensures MovesOf(a + b) == MovesOf(a) + MovesOf(b)
    decreases |b|
  {
    if b == [] {
      PlusNothing(a);
    } else {
      LoopOfJoin(a, b[..|b| - 1]);
      LastOfSum(a, b);
    }
  }

  lemma AnnounceLeads(a: Durable, b: Durable, r: RecoveryRecord, landed: bool, s: Setting) returns (atoms: seq<Atom>)
    requires b == if landed then a.(file := Updated(a.file, r.id, ReleaseChanges(r))) else a
    ensures Leads(a, b, r, atoms, s) && LoopOf(atoms) == if landed then [Announce] else []
  {
    OneAtom(StoreOf(a), r, Announce);
    atoms := if landed then [Announce] else [];
  }

  /** A turn whose write landed, with its release or without. */
  lemma TurnLeads(a: Durable, b: Durable, c: Durable, r: RecoveryRecord, key: string,
                  x: seq<Atom>, y: seq<Atom>, s: Setting)
    requires Leads(a, b, r, x, s) && Leads(b, c, r, y, s)
    requires LoopOf(x) == [Announce] && (LoopOf(y) == [Give(key)] || LoopOf(y) == [])
    ensures Leads(a, c, r, x + y, s)
    ensures LoopOf(x + y) <= Turn(key) && (LoopOf(y) == [Give(key)] ==> LoopOf(x + y) == Turn(key))
  {
    LeadsOn(a, b, c, r, x, y, s);
  }

  /** One more turn, made in full or in part. */
  lemma LoopGrows(atoms: seq<Atom>, turn: seq<Atom>, order: seq<string>, key: string)
    requires LoopOf(atoms) == Loop(order)
    ensures LoopOf(turn) == Turn(key) ==> LoopOf(atoms + turn) == Loop(order + [key])
    ensures LoopOf(turn) <= Turn(key) ==> LoopOf(atoms + turn) <= Loop(order + [key])
    ensures KeySet(order + [key]) == KeySet(order) + {key}
  {
    LoopOfJoin(atoms, turn);
    LastOf(order, key);
  }

  lemma KeysMove(order: seq<string>, rest: set<string>, key: string)
    requires key in rest
    ensures KeySet(order + [key]) + (rest - {key}) == KeySet(order) + rest
  {
    LastOf(order, key);
  }

  /** Any order of some keys goes on to one of all of them. */
  ghost function CompleteOrder(order: seq<string>, keys: set<string>, part: seq<Atom>): (all: seq<string>)
    requires KeySet(order) <= keys && part <= Loop(order)
    ensures KeySet(all) == keys && part <= Loop(all)
    ensures KeySet(order) == keys ==> all == order
    decreases keys - KeySet(order)
  {
    if KeySet(order) == keys then order
    else
      assert keys - KeySet(order) != {};
      var key :| key in keys - KeySet(order);
      LastOf(order, key);
      assert Loop(order + [key]) == Loop(order) + Turn(key);
      CompleteOrder(order + [key], keys, part)
  }

  lemma {:induction false} MovesAreForeign(atoms: seq<Atom>, s: Setting)
    requires OnlyForeign(atoms, s)
    ensures ForeignMoves(MovesOf(atoms), s)
  {
    if atoms != [] { MovesAreForeign(atoms[..|atoms| - 1], s); }
  }

  lemma ForeignMovesOf(a: seq<Atom>, b: seq<Atom>, s: Setting)
    requires OnlyForeign(a, s) && OnlyForeign(b, s)
    ensures ForeignMoves(MovesOf(a) + MovesOf(b), s)
  {
    MovesAreForeign(a, s);
    MovesAreForeign(b, s);
  }

  lemma ForeignIsStrange(atoms: seq<Atom>, r: RecoveryRecord, s: Setting)
    requires OnlyForeign(atoms, s) && forall k :: k in r.ownerTokens ==> r.ownerTokens[k] in s.tokens
    ensures AllStrange(atoms, r.ownerTokens)
  {
  }

  // ---- any stretch of the loop ----

  lemma {:induction false} OwnStepsMatter(atoms: seq<Atom>)
    ensures KeysOf(LoopOf(atoms)) == KeysOf(atoms)
    ensures Writes(LoopOf(atoms)) == Writes(atoms)
  {
    if atoms != [] {
      var most, last := atoms[..|atoms| - 1], atoms[|atoms| - 1];
      OwnStepsMatter(most);
      LastOf(LoopOf(most), last);
    }
  }

  /** The leases depend on what others did and on which keys were given back. */
  lemma {:induction false} StretchLeases(st: Store, r: RecoveryRecord, atoms: seq<Atom>)
    requires Canonical(r.ownerTokens) && KeysOf(atoms) <= r.ownerTokens.Keys && AllStrange(atoms, r.ownerTokens)
    ensures DoAll(st, r, atoms).leases == Remaining(MovedAll(st.leases, MovesOf(atoms)), r.ownerTokens, KeysOf(atoms))
  {
    if atoms == [] {
      assert Remaining(st.leases, r.ownerTokens, {}) == st.leases;
    } else {
      var most, last := atoms[..|atoms| - 1], atoms[|atoms| - 1];
      StretchLeases(st, r, most);
      StepLeases(MovedAll(st.leases, MovesOf(most)), DoAll(st, r, most), r, KeysOf(most), last);
      if last.Others? { LastOf(MovesOf(most), last.move); }
    }
  }

  lemma StepLeases(free: map<Outpoint, Lease>, st: Store, r: RecoveryRecord, keys: set<string>, a: Atom)
    requires Canonical(r.ownerTokens) && (a.Give? ==> a.key in r.ownerTokens)
    requires a.Others? ==> Strange(a.move, r.ownerTokens)
    requires st.leases == Remaining(free, r.ownerTokens, keys)
    ensures Do(st, r, a).leases == Remaining(if a.Others? then Moved(free, a.move) else free, r.ownerTokens,
                                             keys + if a.Give? then {a.key} else {})
  {
    assert keys + {} == keys;
    match a
    case Announce =>
    case Give(k) => GiveBackEffect(free, r.ownerTokens, keys, k);
    case Others(m) => MoveEffect(free, r.ownerTokens, keys, m);
  }

  lemma MoveEffect(leases: map<Outpoint, Lease>, tokens: map<string, Token>, keys: set<string>, m: Move)
    requires Strange(m, tokens)
    ensures Moved(Remaining(leases, tokens, keys), m) == Remaining(Moved(leases, m), tokens, keys)
  {
  }

  lemma GiveBackEffect(leases: map<Outpoint, Lease>, tokens: map<string, Token>, keys: set<string>, k: string)
    requires Canonical(tokens) && k in tokens
    ensures var o := Parse(k).value;
            var left := Remaining(leases, tokens, keys);
            Remaining(leases, tokens, keys + {k})
            == if o in left && left[o].owner == tokens[k] then left - {o} else left
  {
    forall p: Outpoint ensures Print(p) == k <==> p == Parse(k).value {
      ParseInvertsPrint(p);
    }
  }

  /** The file depends on whether a write happened. */
  lemma {:induction false} StretchFile(st: Store, r: RecoveryRecord, atoms: seq<Atom>)
    requires HasId(st.file, r.id) && Lookup(st.file, r.id) == r && Complete(r)
    ensures DoAll(st, r, atoms).file
         == if Writes(atoms) then Updated(st.file, r.id, ReleaseChanges(r)) else st.file
  {
    if atoms != [] {
      StretchFile(st, r, atoms[..|atoms| - 1]);
      RepeatedWrite(st.file, r);
    }
  }

  lemma RepeatedWrite(file: seq<RecoveryRecord>, r: RecoveryRecord)
    requires HasId(file, r.id) && Lookup(file, r.id) == r && Complete(r)
    ensures var once := Updated(file, r.id, ReleaseChanges(r));
            Updated(once, r.id, ReleaseChanges(r)) == once
  {
    var once := Updated(file, r.id, ReleaseChanges(r));
    ReleaseChangesKeepIdentity(r);
    var i := IndexOf(file, r.id);
    assert once[i].id == r.id;
    assert IndexOf(once, r.id) == i;
  }

  lemma {:induction false} LoopGivesBackEverything(keys: seq<string>)
    ensures KeysOf(Loop(keys)) == KeySet(keys)
    ensures keys != [] ==> Writes(Loop(keys))
  {
    if keys != [] {
      var most := keys[..|keys| - 1];
      LoopGivesBackEverything(most);
      var atoms := Loop(keys);
      assert atoms[..|atoms| - 1] == Loop(most) + [Announce];
      assert atoms[..|atoms| - 1][..|atoms| - 2] == Loop(most);
    }
  }

  lemma {:induction false} PrefixKeys(part: seq<Atom>, atoms: seq<Atom>)
    requires part <= atoms
    ensures KeysOf(part) <= KeysOf(atoms)
    decreases |atoms|
  {
    if |part| < |atoms| {
      PrefixKeys(part, atoms[..|atoms| - 1]);
    } else {
      assert part == atoms;
    }
  }

  ghost predicate OtherRecordsKept(a: seq<RecoveryRecord>, b: seq<RecoveryRecord>, id: string) {
    |a| == |b| && forall i :: 0 <= i < |a| ==> b[i].id == a[i].id && (a[i].id != id ==> b[i] == a[i])
  }

  lemma {:induction false} WithoutIgnoresUpdate(file: seq<RecoveryRecord>, id: string, ch: Changes)
    ensures Without(Updated(file, id, ch), id) == Without(file, id)
  {
    if HasId(file, id) {
      var i := IndexOf(file, id);
      SameWithout(file, Updated(file, id, ch), id);
    }
  }

  lemma {:induction false} SameWithout(a: seq<RecoveryRecord>, b: seq<RecoveryRecord>, id: string)
    requires OtherRecordsKept(a, b, id)
    ensures Without(a, id) == Without(b, id)
  {
    if a != [] {
      assert OtherRecordsKept(a[1..], b[1..], id);
      SameWithout(a[1..], b[1..], id);
    }
  }

  // ---- a recovery that is stopped and run again ----

  /** The record an interrupted loop leaves differs at most in its action and status. */
  lemma CutRecord(st: Store, r: RecoveryRecord, part: seq<Atom>)
    requires HasId(st.file, r.id) && Lookup(st.file, r.id) == r && Complete(r)
    ensures var cut := DoAll(st, r, part);
            && HasId(cut.file, r.id)
            && Lookup(cut.file, r.id)
               == (if Writes(part) then r.(action := Some("recovery_release"), status := PENDING) else r)
            && Without(cut.file, r.id) == Without(st.file, r.id)
  {
    StretchFile(st, r, part);
    LookupOfUpdated(st.file, r.id, ReleaseChanges(r));
    ReleaseChangesKeepIdentity(r);
    WithoutIgnoresUpdate(st.file, r.id, ReleaseChanges(r));
  }

  lemma {:induction false} RemainingThroughMoves(leases: map<Outpoint, Lease>, tokens: map<string, Token>, keys: set<string>,
                                                 moves: seq<Move>)
    requires forall i :: 0 <= i < |moves| ==> Strange(moves[i], tokens)
    ensures MovedAll(Remaining(leases, tokens, keys), moves) == Remaining(MovedAll(leases, moves), tokens, keys)
  {
    if moves != [] {
      RemainingThroughMoves(leases, tokens, keys, moves[..|moves| - 1]);
      MoveEffect(MovedAll(leases, moves[..|moves| - 1]), tokens, keys, moves[|moves| - 1]);
    }
  }

  lemma RemainingTwice(leases: map<Outpoint, Lease>, tokens: map<string, Token>, keys: set<string>)
    requires keys <= tokens.Keys
    ensures Remaining(Remaining(leases, tokens, keys), tokens, tokens.Keys) == Remaining(leases, tokens, tokens.Keys)
  {
  }

  lemma {:induction false} MovedInTwo(leases: map<Outpoint, Lease>, a: seq<Move>, b: seq<Move>)
    ensures MovedAll(leases, a + b) == MovedAll(MovedAll(leases, a), b)
    decreases |b|
  {
    if b == [] {
      PlusNothing(a);
    } else {
      MovedInTwo(leases, a, b[..|b| - 1]);
      LastOfSum(a, b);
    }
  }

  lemma {:induction false} MovesAreStrange(atoms: seq<Atom>, tokens: map<string, Token>)
    requires AllStrange(atoms, tokens)
    ensures forall i :: 0 <= i < |MovesOf(atoms)| ==> Strange(MovesOf(atoms)[i], tokens)
  {
    if atoms != [] { MovesAreStrange(atoms[..|atoms| - 1], tokens); }
  }

  /** A loop over all keys, from any state in which the record lists the same tokens. */
  lemma WholeLoop(st: Store, r: RecoveryRecord, atoms: seq<Atom>, keys: seq<string>)
    requires HasId(st.file, r.id) && Lookup(st.file, r.id) == r && Complete(r)
    requires LoopOf(atoms) == Loop(keys) && Enumerates(keys, r.ownerTokens) && AllStrange(atoms, r.ownerTokens)
    ensures DoAll(st, r, atoms).leases == Remaining(MovedAll(st.leases, MovesOf(atoms)), r.ownerTokens, r.ownerTokens.Keys)
    ensures Without(DoAll(st, r, atoms).file, r.id) == Without(st.file, r.id)
  {
    CompleteIsCanonical(r);
    LoopGivesBackEverything(keys);
    OwnStepsMatter(atoms);
    StretchLeases(st, r, atoms);
    CutRecord(st, r, atoms);
  }

  /**
   A recovery stopped after any number of durable steps, in the middle of a turn
   or between two, and run again in any order, with other processes acting
   before, between and after: the leases still under recorded tokens are gone,
   every other lease is as others left it, and the record goes. It ends exactly
   like a recovery that was never stopped.
   */
  lemma ResumedRecoveryEndsAlike(st: Store, r: RecoveryRecord, first: seq<string>, part: seq<Atom>,
                                 again: seq<string>, rest: seq<Atom>)
    requires HasId(st.file, r.id) && Lookup(st.file, r.id) == r && Complete(r)
    requires Enumerates(first, r.ownerTokens) && Enumerates(again, r.ownerTokens)
    requires LoopOf(part) <= Loop(first) && LoopOf(rest) == Loop(again)
    requires AllStrange(part, r.ownerTokens) && AllStrange(rest, r.ownerTokens)
    ensures var cut := DoAll(st, r, part);
            && HasId(cut.file, r.id) && Complete(Lookup(cut.file, r.id))
            && var resumed := DoAll(cut, Lookup(cut.file, r.id), rest);
            && Without(resumed.file, r.id) == Without(st.file, r.id)
            && resumed.leases
               == Remaining(MovedAll(st.leases, MovesOf(part) + MovesOf(rest)), r.ownerTokens, r.ownerTokens.Keys)
  {
    var cut := DoAll(st, r, part);
    var tokens := r.ownerTokens;
    CompleteIsCanonical(r);
    LoopGivesBackEverything(first);
    PrefixKeys(LoopOf(part), Loop(first));
    OwnStepsMatter(part);
    StretchLeases(st, r, part);
    CutRecord(st, r, part);
    WholeLoop(cut, Lookup(cut.file, r.id), rest, again);
    MovesAreStrange(rest, tokens);
    var free := MovedAll(st.leases, MovesOf(part));
    RemainingThroughMoves(free, tokens, KeysOf(part), MovesOf(rest));
    RemainingTwice(MovedAll(free, MovesOf(rest)), tokens, KeysOf(part));
    MovedInTwo(st.leases, MovesOf(part), MovesOf(rest));
  }

  /** A PeerSwap record does not come back to the loop: the first write ahead makes it ineligible. */
  lemma InterruptedPeerSwapRecordIsRefused(st: Store, r: RecoveryRecord, first: seq<string>, part: seq<Atom>)
    requires HasId(st.file, r.id) && Lookup(st.file, r.id) == r && Complete(r) && PeerSwapEligible(r)
    requires LoopOf(part) <= Loop(first)
    ensures var cut := DoAll(st, r, part);
            HasId(cut.file, r.id) && (PeerSwapEligible(Lookup(cut.file, r.id)) <==> LoopOf(part) == [])
  {
    CutRecord(st, r, part);
    OwnStepsMatter(part);
    if LoopOf(part) != [] {
      LoopStartsWithWrite(first);
      WriteCounts(LoopOf(part));
    }
  }

  lemma {:induction false} WriteCounts(atoms: seq<Atom>)
    requires atoms != [] && atoms[0] == Announce
    ensures Writes(atoms)
  {
    if |atoms| > 1 { WriteCounts(atoms[..|atoms| - 1]); }
  }

  lemma {:induction false} LoopStartsWithWrite(keys: seq<string>)
    requires Loop(keys) != []
    ensures Loop(keys)[0] == Announce
  {
    if |keys| > 1 { LoopStartsWithWrite(keys[..|keys| - 1]); }
  }
}
