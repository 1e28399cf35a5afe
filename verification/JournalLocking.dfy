/**
 Journal updates of several threads in several processes. Each update loads the
 file, changes it and replaces it, three separate steps; what keeps them apart
 is a thread lock per journal instance and a file lock that a process may hold
 for a whole operation.
 */
module JournalLocking {
  import opened Prelude
  import opened Sequences
  import opened Records
  import opened Worlds

  datatype Thread = Thread(process: nat, number: nat)

  datatype Edit = Create(record: RecoveryRecord) | Change(id: string, changes: Changes) | Drop(id: string)

  function Effect(file: seq<RecoveryRecord>, e: Edit): seq<RecoveryRecord> {
    match e
    case Create(r) => file + [r]
    case Change(id, ch) => Updated(file, id, ch)
    case Drop(id) => Without(file, id)
  }

  function Fold(file: seq<RecoveryRecord>, edits: seq<Edit>): seq<RecoveryRecord> {
    if edits == [] then file else Effect(Fold(file, edits[..|edits| - 1]), edits[|edits| - 1])
  }

  datatype Holder = ByLifetime(process: nat) | ByCall(thread: Thread)

  datatype Stage = Entered | Loaded(records: seq<RecoveryRecord>) | Written

  datatype State = State(
    file: seq<RecoveryRecord>,
    committed: seq<Edit>,
    fileLock: Option<Holder>,
    lifetime: set<nat>,
    threadLock: map<nat, Thread>,
    inside: map<Thread, Stage>)

  datatype Step =
    | AcquireLifetime(process: nat)
    | ReleaseLifetime(process: nat)
    | Enter(thread: Thread)
    | Load(thread: Thread)
    | Commit(thread: Thread, edit: Edit)
    | Exit(thread: Thread)

  function Initial(file: seq<RecoveryRecord>): State {
    State(file, [], None, {}, map[], map[])
  }

  /** `None`: the step cannot be taken now, its thread waits. */
  function Next(s: State, step: Step): Option<State> {
    match step
    case AcquireLifetime(p) =>
      if p in s.lifetime || s.fileLock.Some? then None
      else Some(s.(fileLock := Some(ByLifetime(p)), lifetime := s.lifetime + {p}))
    case ReleaseLifetime(p) =>
      if p !in s.lifetime then None
      else Some(s.(fileLock := None, lifetime := s.lifetime - {p}))
    case Enter(t) =>
      if t in s.inside || t.process in s.threadLock then None
      else if t.process in s.lifetime then
        Some(s.(threadLock := s.threadLock[t.process := t], inside := s.inside[t := Entered]))
      else if s.fileLock.Some? then None
      else
        Some(s.(fileLock := Some(ByCall(t)), threadLock := s.threadLock[t.process := t],
                inside := s.inside[t := Entered]))
    case Load(t) =>
      if t !in s.inside || s.inside[t] != Entered then None
      else Some(s.(inside := s.inside[t := Loaded(s.file)]))
    case Commit(t, e) =>
      if t !in s.inside || !s.inside[t].Loaded? then None
      else Some(s.(file := Effect(s.inside[t].records, e), committed := s.committed + [e],
                   inside := s.inside[t := Written]))
    case Exit(t) =>
      if t !in s.inside then None
      else Some(s.(fileLock := if s.fileLock == Some(ByCall(t)) then None else s.fileLock,
                   threadLock := s.threadLock - {t.process}, inside := s.inside - {t}))
  }

  function Run(s: State, steps: seq<Step>): Option<State> {
    if steps == [] then Some(s)
    else match Run(s, steps[..|steps| - 1])
         case None => None
         case Some(mid) => Next(mid, steps[|steps| - 1])
  }

  lemma Extend(s: State, steps: seq<Step>, step: Step)
    ensures Run(s, steps + [step])
         == match Run(s, steps) case None => None case Some(mid) => Next(mid, step)
  {
    LastOf(steps, step);
  }

  /** No thread of the process is between entering an update and replacing the file. */
  predicate Harmless(s: State, p: nat) {
    forall t :: t in s.inside && t.process == p ==> s.inside[t] == Written
  }

  /** A lifetime lock is given up only while that is harmless. */
  predicate Orderly(s: State, step: Step) {
    step.ReleaseLifetime? ==> Harmless(s, step.process)
  }

  /** Every step of the run is orderly in the state it is taken in. */
  predicate OrderlyRun(s: State, steps: seq<Step>) {
    steps == []
    || (OrderlyRun(s, steps[..|steps| - 1])
        && (Run(s, steps[..|steps| - 1]).Some? ==>
              Orderly(Run(s, steps[..|steps| - 1]).value, steps[|steps| - 1])))
  }

  /** A thread that has not replaced the file yet holds the file lock, itself or through its process. */
  ghost predicate Exclusive(s: State) {
    && (forall p :: p in s.lifetime ==> s.fileLock == Some(ByLifetime(p)))
    && (forall t :: t in s.inside ==> t.process in s.threadLock && s.threadLock[t.process] == t)
    && (forall p :: p in s.threadLock ==> s.threadLock[p] in s.inside && s.threadLock[p].process == p)
    && (forall t :: t in s.inside && s.inside[t] != Written ==>
          s.fileLock == Some(ByCall(t)) || s.fileLock == Some(ByLifetime(t.process)))
    && (forall t :: t in s.inside && s.inside[t].Loaded? ==> s.inside[t].records == s.file)
  }

  lemma OneBeforeItsCommit(s: State, t: Thread, u: Thread)
    requires Exclusive(s) && t in s.inside && u in s.inside && s.inside[t] != Written && s.inside[u] != Written
    ensures t == u
  {
    assert t.process == u.process;
  }

  lemma NextKeepsExclusive(s: State, step: Step)
    requires Exclusive(s) && Orderly(s, step) && Next(s, step).Some?
    ensures Exclusive(Next(s, step).value)
  {
    match step
    case AcquireLifetime(p) =>
    case ReleaseLifetime(p) =>
    case Enter(t) =>
    case Load(t) =>
    case Commit(t, e) =>
      forall u | u in s.inside && s.inside[u].Loaded? ensures u == t { OneBeforeItsCommit(s, t, u); }
    case Exit(t) =>
      forall u | u in s.inside && s.inside[u] != Written && s.fileLock == Some(ByCall(t)) ensures u == t {
      }
  }

  /** The file is what the committed edits make of it, applied whole and in the order of their commits. */
  ghost predicate Serial(file: seq<RecoveryRecord>, s: State) {
    s.file == Fold(file, s.committed)
  }

  lemma NextKeepsSerial(file: seq<RecoveryRecord>, s: State, step: Step)
    requires Exclusive(s) && Serial(file, s) && Next(s, step).Some?
    ensures Serial(file, Next(s, step).value)
  {
    if step.Commit? {
      assert s.inside[step.thread].records == s.file;
      LastOf(s.committed, step.edit);
    }
  }

  /** From a serial state every orderly run stays serial: no update is lost or torn. */
  lemma {:induction false} StaysSerial(file: seq<RecoveryRecord>, s: State, steps: seq<Step>)
    requires Exclusive(s) && Serial(file, s) && OrderlyRun(s, steps) && Run(s, steps).Some?
    ensures Exclusive(Run(s, steps).value) && Serial(file, Run(s, steps).value)
  {
    if steps != [] {
      var most, last := steps[..|steps| - 1], steps[|steps| - 1];
      StaysSerial(file, s, most);
      NextKeepsExclusive(Run(s, most).value, last);
      NextKeepsSerial(file, Run(s, most).value, last);
    }
  }

  lemma UpdatesAreSerial(file: seq<RecoveryRecord>, steps: seq<Step>)
    requires OrderlyRun(Initial(file), steps) && Run(Initial(file), steps).Some?
    ensures Serial(file, Run(Initial(file), steps).value)
  {
    StaysSerial(file, Initial(file), steps);
  }

  // ---- exactly when a release is harmless ----

  /** What follows the release keeps the file serial, as far as it is orderly itself. */
  ghost predicate SerialAfter(file: seq<RecoveryRecord>, s: State, p: nat, steps: seq<Step>)
    requires p in s.lifetime
  {
    var released := Next(s, ReleaseLifetime(p)).value;
    OrderlyRun(released, steps) && Run(released, steps).Some? ==> Serial(file, Run(released, steps).value)
  }

  /**
   A process may give its lifetime lock up without harm to any continuation if,
   and only if, none of its threads is between entering an update and its commit.
   */
  lemma HarmlessExactly(file: seq<RecoveryRecord>, s: State, p: nat)
    requires Exclusive(s) && Serial(file, s) && p in s.lifetime
    ensures Harmless(s, p) <==> forall steps :: SerialAfter(file, s, p, steps)
  {
    var released := Next(s, ReleaseLifetime(p)).value;
    if Harmless(s, p) {
      NextKeepsExclusive(s, ReleaseLifetime(p));
      forall steps ensures SerialAfter(file, s, p, steps) {
        if OrderlyRun(released, steps) && Run(released, steps).Some? { StaysSerial(file, released, steps); }
      }
    } else {
      var t :| t in s.inside && t.process == p && s.inside[t] != Written;
      var r := NewRecord("", "", map[]);
      var steps := EarlyReleaseLosesAnUpdate(file, s, t, Create(r), Create(r));
      assert |Run(released, steps).value.file| == |s.file| + 1;
      assert !SerialAfter(file, s, p, steps);
    }
  }

  /**
   The race: whichever thread of the process is in mid-update, a thread of
   another process gets in, and its edit `b` is overwritten by the edit `a` of
   the first, which never saw it.
   */
  lemma EarlyReleaseLosesAnUpdate(file: seq<RecoveryRecord>, s: State, t: Thread, a: Edit, b: Edit)
    returns (steps: seq<Step>)
    requires Exclusive(s) && Serial(file, s) && t in s.inside && s.inside[t] != Written && t.process in s.lifetime
    ensures var released := Next(s, ReleaseLifetime(t.process)).value;
            && OrderlyRun(released, steps) && Run(released, steps).Some?
            && Run(released, steps).value.file == Effect(s.file, a)
            && Run(released, steps).value.committed == s.committed + [b] + [a]
            && Fold(file, s.committed + [b] + [a]) == Effect(Effect(s.file, b), a)
  {
    var released := Next(s, ReleaseLifetime(t.process)).value;
    var u := Thread(Unused(s.threadLock.Keys), 0);
    var start := ReadyToCommit(released, t);
    var end, tail := Overtake(released.(inside := s.inside[t := Loaded(s.file)]), t, u, a, b);
    steps := start + tail;
    RunInTwo(released, start, tail);
    NoReleaseIsOrderly(released, steps);
    FoldTwo(file, s.committed, b, a);
  }

  lemma FoldTwo(file: seq<RecoveryRecord>, edits: seq<Edit>, x: Edit, y: Edit)
    ensures Fold(file, edits + [x] + [y]) == Effect(Effect(Fold(file, edits), x), y)
  {
    LastOf(edits, x);
    LastOf(edits + [x], y);
  }

  /** After at most one step more the thread has loaded the file as it is. */
  lemma ReadyToCommit(s: State, t: Thread) returns (start: seq<Step>)
    requires t in s.inside && (s.inside[t] == Entered || s.inside[t] == Loaded(s.file))
    ensures Run(s, start) == Some(s.(inside := s.inside[t := Loaded(s.file)]))
    ensures start == [] || start == [Load(t)]
  {
    if s.inside[t] == Entered {
      start := [Load(t)];
      PlusNothing(start);
      Extend(s, [], Load(t));
    } else {
      start := [];
      SameEntry(s.inside, t);
    }
  }

  lemma SameEntry(inside: map<Thread, Stage>, t: Thread)
    requires t in inside
    ensures inside[t := inside[t]] == inside
  {
  }

  /** A thread of an idle process makes a whole update before `t` commits what it loaded earlier. */
  lemma Overtake(s: State, t: Thread, u: Thread, a: Edit, b: Edit) returns (end: State, steps: seq<Step>)
    requires t in s.inside && s.inside[t] == Loaded(s.file)
    requires s.fileLock.None? && u !in s.inside && u.process !in s.threadLock && u.process !in s.lifetime
    ensures Run(s, steps) == Some(end) && forall i :: 0 <= i < |steps| ==> !steps[i].ReleaseLifetime?
    ensures end.file == Effect(s.file, a) && end.committed == s.committed + [b] + [a]
  {
    steps := [Enter(u)];
    PlusNothing(steps);
    Extend(s, [], Enter(u));
    Extend(s, steps, Load(u));
    steps := steps + [Load(u)];
    Extend(s, steps, Commit(u, b));
    steps := steps + [Commit(u, b)];
    Extend(s, steps, Commit(t, a));
    steps := steps + [Commit(t, a)];
    end := Run(s, steps).value;
  }

  lemma {:induction false} RunInTwo(s: State, x: seq<Step>, y: seq<Step>)
    ensures Run(s, x + y) == match Run(s, x) case None => None case Some(mid) => Run(mid, y)
    decreases |y|
  {
    if y == [] {
      PlusNothing(x);
    } else {
      RunInTwo(s, x, y[..|y| - 1]);
      LastOfSum(x, y);
    }
  }

  lemma {:induction false} NoReleaseIsOrderly(s: State, steps: seq<Step>)
    requires forall i :: 0 <= i < |steps| ==> !steps[i].ReleaseLifetime?
    ensures OrderlyRun(s, steps)
  {
    if steps != [] { NoReleaseIsOrderly(s, steps[..|steps| - 1]); }
  }

  /** A number above all those in use. */
  ghost function Unused(used: set<nat>): (n: nat)
    ensures forall q :: q in used ==> q < n
  {
    if used == {} then 0
    else
      var p :| p in used;
      var n := Unused(used - {p});
      assert forall q :: q in used ==> q == p || q in used - {p};
      if p < n then n else p + 1
  }

  // ---- what the serial order means for one record ----

  /** The changes the committed edits make to the record with this id, in order. */
  function ChangesTo(edits: seq<Edit>, id: string): seq<Changes> {
    if edits == [] then []
    else
      var e := edits[|edits| - 1];
      ChangesTo(edits[..|edits| - 1], id) + (if e.Change? && e.id == id then [e.changes] else [])
  }

  predicate Keeps(edits: seq<Edit>, id: string) {
    forall i :: 0 <= i < |edits| ==> edits[i] != Drop(id)
  }

  /** No edit of another record, however interleaved, shows in this one. */
  lemma {:induction false} RecordSeesOnlyItsOwnChanges(file: seq<RecoveryRecord>, edits: seq<Edit>, id: string)
    requires HasId(file, id) && Keeps(edits, id)
    ensures HasId(Fold(file, edits), id)
    ensures Lookup(Fold(file, edits), id) == ApplyAll(Lookup(file, id), ChangesTo(edits, id))
  {
    if edits != [] {
      var most, last := edits[..|edits| - 1], edits[|edits| - 1];
      RecordSeesOnlyItsOwnChanges(file, most, id);
      assert ChangesTo(most, id) + [] == ChangesTo(most, id);
      var before := Fold(file, most);
      match last
      case Create(r) => AppendKeepsLookup(before, r, id);
      case Drop(other) => WithoutKeepsLookup(before, other, id);
      case Change(other, ch) =>
        if other == id {
          LookupOfUpdated(before, id, ch);
          var chs := ChangesTo(edits, id);
          assert chs[..|chs| - 1] == ChangesTo(most, id);
        } else {
          LookupOther(before, other, ch, id);
        }
    }
  }

  lemma AppendKeepsLookup(file: seq<RecoveryRecord>, r: RecoveryRecord, id: string)
    requires HasId(file, id)
    ensures HasId(file + [r], id) && Lookup(file + [r], id) == Lookup(file, id)
  {
    var i := IndexOf(file, id);
    assert (file + [r])[i].id == id;
    assert IndexOf(file + [r], id) == i;
  }

  ghost predicate AllMutations(chs: seq<Changes>) {
    forall i :: 0 <= i < |chs| ==> FromMutation(chs[i])
  }

  /**
   Whatever the renewal worker and other processes write in between, after any
   orderly run the record's transaction id is the last one an operation passed.
   */
  lemma TxidSurvivesInterleaving(file: seq<RecoveryRecord>, steps: seq<Step>, id: string)
    requires OrderlyRun(Initial(file), steps) && Run(Initial(file), steps).Some?
    requires HasId(file, id) && Keeps(Run(Initial(file), steps).value.committed, id)
    requires AllMutations(ChangesTo(Run(Initial(file), steps).value.committed, id))
    ensures var s := Run(Initial(file), steps).value;
            && HasId(s.file, id)
            && Lookup(s.file, id).txid == LastTxid(ChangesTo(s.committed, id), Lookup(file, id).txid)
            && Lookup(s.file, id).psbt == LastPsbt(ChangesTo(s.committed, id), Lookup(file, id).psbt)
            && (Lookup(file, id).txid.Some? ==> Lookup(s.file, id).txid.Some?)
  {
    var s := Run(Initial(file), steps).value;
    StaysSerial(file, Initial(file), steps);
    RecordSeesOnlyItsOwnChanges(file, s.committed, id);
    IdentityIsNeverCleared(Lookup(file, id), ChangesTo(s.committed, id));
  }
}
