/**
 Who makes the journal updates of an operation, and when it gives the lock up:
 the operation itself and its renewal worker write; closing the adapter joins the
 worker, and only then is the lifetime lock released, unless an interruption or a
 cancellation cuts the cleanup short, which no handler on the way catches.
 */
module OperationThreads {
  import opened Prelude
  import opened Sequences
  import opened Records
  import opened JournalLocking

  datatype Phase = Running | Joining | Joined | CutShort | Over

  /** One process: how far its operation is, and whether the renewal worker is alive. */
  datatype Process = Process(phase: Phase, worker: bool)

  datatype System = System(journal: State, processes: map<nat, Process>)

  datatype Event =
    | Begin(process: nat)
    | StartWorker(process: nat)
    | ByMain(process: nat, step: Step)
    | ByWorker(process: nat, step: Step)
    | WorkerEnds(process: nat)
    | StartJoin(process: nat)
    | Joins(process: nat)
    | Interrupted(process: nat)
    | Release(process: nat)

  function Main(p: nat): Thread { Thread(p, 0) }

  function Worker(p: nat): Thread { Thread(p, 1) }

  predicate IsUpdate(step: Step, t: Thread) {
    (step.Enter? || step.Load? || step.Commit? || step.Exit?) && step.thread == t
  }

  function Start(file: seq<RecoveryRecord>): System {
    System(Initial(file), map[])
  }

  /** The journal takes the step, the process becomes as given. */
  function Advance(y: System, p: nat, process: Process, step: Step): Option<System> {
    match Next(y.journal, step)
    case None => None
    case Some(j) => Some(System(j, y.processes[p := process]))
  }

  function Become(y: System, p: nat, process: Process): Option<System> {
    Some(y.(processes := y.processes[p := process]))
  }

  /** The operation is between two updates. */
  predicate MainIdle(y: System, p: nat) {
    Main(p) !in y.journal.inside
  }

  /** What can happen next; `None` if the event cannot. */
  function Take(y: System, e: Event): Option<System> {
    if e.Begin? then
      if e.process in y.processes then None
      else Advance(y, e.process, Process(Running, false), AcquireLifetime(e.process))
    else if e.process !in y.processes then None
    else
      var p, now := e.process, y.processes[e.process];
      match e
      case StartWorker(_) =>
        if now == Process(Running, false) && MainIdle(y, p) then Become(y, p, Process(Running, true)) else None
      case ByMain(_, step) =>
        if (now.phase == Running || now.phase == Joined) && IsUpdate(step, Main(p)) then Advance(y, p, now, step) else None
      case ByWorker(_, step) =>
        if now.worker && IsUpdate(step, Worker(p)) then Advance(y, p, now, step) else None
      case WorkerEnds(_) =>
        if now.worker && Worker(p) !in y.journal.inside then Become(y, p, now.(worker := false)) else None
      case StartJoin(_) =>
        if now.phase == Running && MainIdle(y, p) then Become(y, p, now.(phase := Joining)) else None
      case Joins(_) =>
        if now == Process(Joining, false) then Become(y, p, Process(Joined, false)) else None
      case Interrupted(_) =>
        if now.phase != Over && MainIdle(y, p) then Become(y, p, now.(phase := CutShort)) else None
      case Release(_) =>
        if (now.phase == Joined || now.phase == CutShort) && MainIdle(y, p)
        then Advance(y, p, now.(phase := Over), ReleaseLifetime(p)) else None
  }

  function TakeAll(y: System, events: seq<Event>): Option<System> {
    if events == [] then Some(y)
    else match TakeAll(y, events[..|events| - 1])
         case None => None
         case Some(mid) => Take(mid, events[|events| - 1])
  }

  /** Only the two threads of begun operations write, and a joined worker is dead. */
  ghost predicate Threads(y: System) {
    && (forall t :: t in y.journal.inside ==>
          t.process in y.processes && (t == Main(t.process) || t == Worker(t.process)))
    && (forall p :: p in y.processes && Worker(p) in y.journal.inside ==> y.processes[p].worker)
    && (forall p :: p in y.processes && y.processes[p].phase == Joined ==> !y.processes[p].worker)
  }

  lemma TakeKeepsThreads(y: System, e: Event)
    requires Threads(y) && Take(y, e).Some?
    ensures Threads(Take(y, e).value)
  {
    var z := Take(y, e).value;
    forall t | t in z.journal.inside
      ensures t.process in z.processes && (t == Main(t.process) || t == Worker(t.process))
    {
      assert t in y.journal.inside || t == Main(e.process) || t == Worker(e.process);
    }
    forall p | p in z.processes && Worker(p) in z.journal.inside ensures z.processes[p].worker {
      assert Worker(p) in y.journal.inside || (e.ByWorker? && e.process == p);
    }
  }

  predicate WorkerInMidUpdate(y: System, p: nat) {
    Worker(p) in y.journal.inside && y.journal.inside[Worker(p)] != Written
  }

  /** A cleanup that was cut short gives the lock up only while the worker is not in mid-update. */
  predicate Gentle(y: System, e: Event) {
    e.Release? && e.process in y.processes && y.processes[e.process].phase == CutShort ==>
      !WorkerInMidUpdate(y, e.process)
  }

  predicate GentleRun(y: System, events: seq<Event>) {
    events == []
    || (GentleRun(y, events[..|events| - 1])
        && (TakeAll(y, events[..|events| - 1]).Some? ==>
              Gentle(TakeAll(y, events[..|events| - 1]).value, events[|events| - 1])))
  }

  /** The guard of the journal, in terms of the operation: after a join it always holds. */
  lemma ReleaseIsHarmless(y: System, p: nat)
    requires Threads(y) && Take(y, Release(p)).Some?
    ensures Harmless(y.journal, p) <==> Gentle(y, Release(p))
    ensures y.processes[p].phase == Joined ==> Harmless(y.journal, p)
  {
    if !Harmless(y.journal, p) {
      var t :| t in y.journal.inside && t.process == p && y.journal.inside[t] != Written;
      assert t == Worker(p);
    }
  }

  lemma TakeKeepsSerial(file: seq<RecoveryRecord>, y: System, e: Event)
    requires Threads(y) && Exclusive(y.journal) && Serial(file, y.journal) && Gentle(y, e) && Take(y, e).Some?
    ensures Exclusive(Take(y, e).value.journal) && Serial(file, Take(y, e).value.journal)
  {
    match e
    case Begin(p) => StepKeepsSerial(file, y.journal, AcquireLifetime(p));
    case ByMain(_, step) => StepKeepsSerial(file, y.journal, step);
    case ByWorker(_, step) => StepKeepsSerial(file, y.journal, step);
    case Release(p) =>
      ReleaseIsHarmless(y, p);
      StepKeepsSerial(file, y.journal, ReleaseLifetime(p));
    case _ =>
  }

  lemma StepKeepsSerial(file: seq<RecoveryRecord>, s: State, step: Step)
    requires Exclusive(s) && Serial(file, s) && Orderly(s, step) && Next(s, step).Some?
    ensures Exclusive(Next(s, step).value) && Serial(file, Next(s, step).value)
  {
    NextKeepsExclusive(s, step);
    NextKeepsSerial(file, s, step);
  }

  /**
   Any number of operations and their renewal workers, in any interleaving: no
   update is lost or torn, unless one gives its lock up after a cleanup that was
   cut short while its worker is in mid-update.
   */
  lemma {:induction false} OperationsAreSerial(file: seq<RecoveryRecord>, events: seq<Event>)
    requires TakeAll(Start(file), events).Some? && GentleRun(Start(file), events)
    ensures var y := TakeAll(Start(file), events).value;
            Threads(y) && Exclusive(y.journal) && Serial(file, y.journal)
  {
    if events != [] {
      var most, last := events[..|events| - 1], events[|events| - 1];
      OperationsAreSerial(file, most);
      var mid := TakeAll(Start(file), most).value;
      TakeKeepsThreads(mid, last);
      TakeKeepsSerial(file, mid, last);
    }
  }

  ghost predicate NeverInterrupted(events: seq<Event>) {
    forall i :: 0 <= i < |events| ==> !events[i].Interrupted?
  }

  /** Without an interruption every run is such a run. */
  lemma {:induction false} UninterruptedIsGentle(file: seq<RecoveryRecord>, events: seq<Event>)
    requires NeverInterrupted(events)
    ensures GentleRun(Start(file), events)
    ensures TakeAll(Start(file), events).Some? ==> NoneCutShort(TakeAll(Start(file), events).value)
  {
    if events != [] { UninterruptedIsGentle(file, events[..|events| - 1]); }
  }

  ghost predicate NoneCutShort(y: System) {
    forall p :: p in y.processes ==> y.processes[p].phase != CutShort
  }

  lemma Then(start: System, events: seq<Event>, y: System, e: Event) returns (more: seq<Event>, z: System)
    requires TakeAll(start, events) == Some(y) && Take(y, e).Some?
    ensures more == events + [e] && Take(y, e) == Some(z) && TakeAll(start, more) == Some(z)
  {
    LastOf(events, e);
    more, z := events + [e], Take(y, e).value;
  }

  /** Nothing is committed; the first operation's worker has the file loaded. */
  ghost predicate OnlyWorkerInside(y: System, file: seq<RecoveryRecord>) {
    && y.journal.file == file && y.journal.committed == []
    && y.journal.threadLock.Keys == {0} && y.journal.inside.Keys == {Worker(0)}
    && y.journal.inside[Worker(0)] == Loaded(file)
  }

  lemma WorkerLoads(file: seq<RecoveryRecord>) returns (events: seq<Event>, y: System)
    ensures TakeAll(Start(file), events) == Some(y) && OnlyWorkerInside(y, file)
    ensures y.journal.lifetime == {0} && y.journal.fileLock == Some(ByLifetime(0))
    ensures y.processes.Keys == {0} && y.processes[0] == Process(Running, true)
  {
    events, y := Then(Start(file), [], Start(file), Begin(0));
    events, y := Then(Start(file), events, y, StartWorker(0));
    events, y := Then(Start(file), events, y, ByWorker(0, Enter(Worker(0))));
    events, y := Then(Start(file), events, y, ByWorker(0, Load(Worker(0))));
  }

  /** Its join is cancelled and the lock given up; the next operation takes it. */
  lemma NextBegins(file: seq<RecoveryRecord>) returns (events: seq<Event>, y: System)
    ensures TakeAll(Start(file), events) == Some(y) && OnlyWorkerInside(y, file)
    ensures y.journal.lifetime == {1}
    ensures y.processes.Keys == {0, 1} && y.processes[0].worker && y.processes[1] == Process(Running, false)
  {
    events, y := WorkerLoads(file);
    events, y := Then(Start(file), events, y, StartJoin(0));
    events, y := Then(Start(file), events, y, Interrupted(0));
    events, y := Then(Start(file), events, y, Release(0));
    events, y := Then(Start(file), events, y, Begin(1));
  }

  /**
   The exception happens: the join is cancelled while the worker has the file
   loaded, the lock is given up, the next operation begins and makes its update
   `b`, and the worker replaces the file by what its own `a` makes of the old one.
   */
  lemma CancelledJoinLosesAnUpdate(file: seq<RecoveryRecord>, a: Edit, b: Edit) returns (events: seq<Event>, y: System)
    ensures TakeAll(Start(file), events) == Some(y)
    ensures y.journal.committed == [b] + [a] && y.journal.file == Effect(file, a)
    ensures Fold(file, y.journal.committed) == Effect(Effect(file, b), a)
  {
    events, y := NextBegins(file);
    events, y := Then(Start(file), events, y, ByMain(1, Enter(Main(1))));
    events, y := Then(Start(file), events, y, ByMain(1, Load(Main(1))));
    events, y := Then(Start(file), events, y, ByMain(1, Commit(Main(1), b)));
    events, y := Then(Start(file), events, y, ByWorker(0, Commit(Worker(0), a)));
    PlusNothing([b]);
    FoldTwo(file, [], b, a);
  }
}
