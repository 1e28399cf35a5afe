/**
 Cancellation watchers. One registered while its request is assigned hears
 exactly one result: completed if JoinMarket's answer got through to PeerSwap,
 cancelled otherwise.
 */
module RendezvousWatchers {
  import opened Prelude
  import opened Sequences
  import opened RendezvousSpec
  import opened RendezvousQueues
  import opened RendezvousReplies
  import opened RendezvousAnswers

  // ---- where a watcher's result is ----

  function TellsTo(w: Call): Task -> bool {
    (t: Task) => (t.Tell? && t.watcher == w) || ((t.Reply? || t.MarkFailed?) && t.toTell == Some(w))
  }

  function ToldTo(w: Call): Event -> bool {
    (e: Event) => e.Told? && e.watcher == w
  }

  predicate Holds(requests: map<Id, Pending>, id: Id, w: Call) {
    id in requests && requests[id].watcher == Some(w)
  }

  /** The watcher is attached to its outstanding request. */
  function Place(s: State, w: Call): nat {
    if w in s.trace.watching && Holds(s.requests, s.trace.watching[w], w) then 1 else 0
  }

  /** Attached, on its way, or told. */
  function Total(s: State, w: Call): nat {
    Place(s, w) + Count(s.tasks, TellsTo(w)) + Count(s.trace.log, ToldTo(w))
  }

  // ---- the invariant ----

  ghost predicate Informed(s: State, w: Call, id: Id, phase: Phase) {
    && w in s.trace.watching && s.trace.watching[w] == id
    && id in s.trace.order && id !in s.requests && !Due(s, id)
    && (phase == Completed || phase == Cancelled)
    && (phase == Completed <==> Reached(s, id))
  }

  ghost predicate ProperNotice(s: State, t: Task) {
    && (t.Tell? ==> Informed(s, t.watcher, t.id, t.phase))
    && (t.Reply? && t.toTell.Some? ==>
          && t.kind == Answer && t.forId.Some? && t.toTell.value in s.trace.watching
          && s.trace.watching[t.toTell.value] == t.forId.value
          && t.forId.value in s.trace.order && t.forId.value !in s.requests)
    && (t.MarkFailed? && t.toTell.Some? ==>
          && t.toTell.value in s.trace.watching && s.trace.watching[t.toTell.value] == t.id
          && t.id in s.trace.order && t.id !in s.requests && !Due(s, t.id) && !Reached(s, t.id))
  }

  ghost predicate ProperResult(s: State, e: Event) {
    e.Told? ==> Informed(s, e.watcher, e.id, e.phase)
  }

  ghost predicate OneResultEach(s: State) {
    forall w: Call :: Total(s, w) == if w in s.trace.watching then 1 else 0
  }

  ghost predicate Attached(s: State) {
    forall id :: id in s.requests && s.requests[id].watcher.Some? ==>
      var w := s.requests[id].watcher.value;
      w in s.trace.watching && s.trace.watching[w] == id && s.requests[id].phase == Assigned
  }

  ghost predicate Truthful(s: State) {
    && (forall i :: 0 <= i < |s.tasks| ==> ProperNotice(s, s.tasks[i]))
    && (forall i :: 0 <= i < |s.trace.log| ==> ProperResult(s, s.trace.log[i]))
  }

  /** A remembered request is completed exactly if its answer is on its way, has arrived, or failed without record. */
  ghost predicate Remembered(s: State) {
    forall id :: id in s.terminal ==>
      && id in s.trace.order && id !in s.requests
      && (s.terminal[id].phase == Completed || s.terminal[id].phase == Cancelled)
      && (s.terminal[id].phase == Completed <==> Due(s, id) || Reached(s, id) || Unrecorded(s, id))
  }

  ghost predicate WatchInv(s: State) {
    OneResultEach(s) && Attached(s) && Truthful(s) && Remembered(s)
  }

  // ---- steps that concern no watcher ----

  predicate QuietTask(t: Task) {
    !t.Tell? && !t.MarkFailed? && (t.Reply? ==> t.kind != Answer && t.toTell == None)
  }

  ghost predicate Quiet(s: State, n: State, more: seq<Task>) {
    && n.tasks == s.tasks + more && (forall i :: 0 <= i < |more| ==> QuietTask(more[i]))
    && n.trace.log == s.trace.log && n.trace.watching == s.trace.watching
    && (forall id :: id in s.trace.order ==> id in n.trace.order)
    && (forall id :: id in n.requests ==>
          if id in s.requests
          then n.requests[id].watcher == s.requests[id].watcher
               && (s.requests[id].phase == Assigned ==> n.requests[id].phase == Assigned)
          else id !in s.trace.order && n.requests[id].watcher == None)
    && (forall id :: id in s.requests && id !in n.requests ==> s.requests[id].watcher == None)
  }

  /** Nothing new to remember. */
  ghost predicate Forgets(s: State, n: State) {
    forall id :: id in n.terminal ==> id in s.terminal && n.terminal[id].phase == s.terminal[id].phase
  }

  lemma QuietAnswers(s: State, n: State, more: seq<Task>, id: Id)
    requires Quiet(s, n, more)
    ensures Due(n, id) <==> Due(s, id)
    ensures Reached(n, id) <==> Reached(s, id)
    ensures Unrecorded(n, id) <==> Unrecorded(s, id)
  {
    HasAppend(s.tasks, more, AnswerTo(id));
    HasAppend(s.tasks, more, MarkOf(id));
    assert !Has(more, AnswerTo(id)) && !Has(more, MarkOf(id));
  }

  lemma QuietCounts(s: State, n: State, more: seq<Task>)
    requires Quiet(s, n, more) && OneResultEach(s)
    ensures OneResultEach(n)
  {
    forall w: Call ensures Total(n, w) == if w in n.trace.watching then 1 else 0 {
      CountAppend(s.tasks, more, TellsTo(w));
      forall i | 0 <= i < |more| ensures !TellsTo(w)(more[i]) {
        assert QuietTask(more[i]);
      }
      CountNone(more, TellsTo(w));
      assert Total(s, w) == if w in s.trace.watching then 1 else 0;
    }
  }

  lemma QuietTruths(s: State, n: State, more: seq<Task>)
    requires Quiet(s, n, more) && Truthful(s)
    ensures Truthful(n)
  {
    forall i | 0 <= i < |n.tasks| ensures ProperNotice(n, n.tasks[i]) {
      if i < |s.tasks| {
        assert ProperNotice(s, s.tasks[i]);
        if s.tasks[i].Tell? || s.tasks[i].MarkFailed? { QuietAnswers(s, n, more, s.tasks[i].id); }
      } else {
        assert QuietTask(more[i - |s.tasks|]);
      }
    }
    forall i | 0 <= i < |n.trace.log| ensures ProperResult(n, n.trace.log[i]) {
      assert ProperResult(s, s.trace.log[i]);
      if s.trace.log[i].Told? { QuietAnswers(s, n, more, s.trace.log[i].id); }
    }
  }

  lemma QuietKeeps(s: State, n: State, more: seq<Task>)
    requires Quiet(s, n, more) && Forgets(s, n) && WatchInv(s)
    ensures WatchInv(n)
  {
    QuietCounts(s, n, more);
    QuietTruths(s, n, more);
    forall id | id in n.terminal
      ensures n.terminal[id].phase == Completed <==> Due(n, id) || Reached(n, id) || Unrecorded(n, id)
    {
      QuietAnswers(s, n, more, id);
    }
  }

  // ---- steps that do ----

  /** Same answers on their way and arrived; a request that is gone stays gone. */
  ghost predicate SameAnswers(s: State, n: State) {
    && (forall id :: Due(n, id) ==> Due(s, id) || id in s.requests)
    && (forall id :: Due(s, id) ==> Due(n, id))
    && (forall id :: Unrecorded(s, id) <==> Unrecorded(n, id))
    && n.trace.log == s.trace.log
    && (forall w :: w in s.trace.watching ==> w in n.trace.watching && n.trace.watching[w] == s.trace.watching[w])
    && n.trace.order == s.trace.order
    && (forall id :: id in n.requests ==> id in s.requests)
  }

  lemma StillProper(s: State, n: State, t: Task)
    requires SameAnswers(s, n) && ProperNotice(s, t)
    ensures ProperNotice(n, t)
  {
  }

  lemma StillTruthful(s: State, n: State, more: seq<Task>)
    requires SameAnswers(s, n) && Truthful(s) && n.tasks == s.tasks + more
    requires forall i :: 0 <= i < |more| ==> ProperNotice(n, more[i])
    ensures Truthful(n)
  {
    forall i | 0 <= i < |n.tasks| ensures ProperNotice(n, n.tasks[i]) {
      if i < |s.tasks| { StillProper(s, n, s.tasks[i]); } else { assert ProperNotice(n, more[i - |s.tasks|]); }
    }
    forall i | 0 <= i < |n.trace.log| ensures ProperResult(n, n.trace.log[i]) {
      assert ProperResult(s, s.trace.log[i]);
    }
  }

  /** The tasks added answer nothing but the requests that leave. */
  lemma AppendedAnswers(s: State, n: State, more: seq<Task>)
    requires n.tasks == s.tasks + more && n.trace.log == s.trace.log && n.trace.order == s.trace.order
    requires forall i :: 0 <= i < |more| ==> !more[i].MarkFailed?
    requires forall i, id :: 0 <= i < |more| && IsAnswer(more[i], id) ==> id in s.requests
    requires forall id :: id in n.requests ==> id in s.requests
    requires forall w :: w in s.trace.watching ==> w in n.trace.watching && n.trace.watching[w] == s.trace.watching[w]
    ensures SameAnswers(s, n)
  {
    forall id: Id
      ensures (Due(s, id) ==> Due(n, id)) && (Due(n, id) ==> Due(s, id) || id in s.requests)
      ensures Unrecorded(s, id) <==> Unrecorded(n, id)
    {
      HasAppend(s.tasks, more, AnswerTo(id));
      HasAppend(s.tasks, more, MarkOf(id));
      assert !Has(more, MarkOf(id));
      if Has(more, AnswerTo(id)) {
        var i :| 0 <= i < |more| && AnswerTo(id)(more[i]);
        assert IsAnswer(more[i], id);
      }
    }
  }

  function Registered(s: State, w: Call, id: Id): State
    requires id in s.requests
  {
    s.(requests := s.requests[id := s.requests[id].(watcher := Some(w))],
       trace := s.trace.(watches := s.trace.watches + {w}, watching := s.trace.watching[w := id]))
  }

  lemma RegisterCounts(s: State, w: Call, id: Id)
    requires OneResultEach(s) && Attached(s) && w !in s.trace.watching
    requires id in s.requests && s.requests[id].watcher == None
    ensures OneResultEach(Registered(s, w, id))
  {
    var n := Registered(s, w, id);
    forall v: Call ensures Total(n, v) == if v in n.trace.watching then 1 else 0 {
      assert Total(s, v) == if v in s.trace.watching then 1 else 0;
      assert v != w && v in s.trace.watching ==>
             (Holds(n.requests, s.trace.watching[v], v) <==> Holds(s.requests, s.trace.watching[v], v));
    }
  }

  lemma RegisterTruths(s: State, w: Call, id: Id)
    requires Truthful(s) && w !in s.trace.watching && id in s.requests
    ensures SameAnswers(s, Registered(s, w, id)) && Truthful(Registered(s, w, id))
    ensures forall x :: Due(Registered(s, w, id), x) ==> Due(s, x)
  {
    var n := Registered(s, w, id);
    assert n.tasks == s.tasks + [];
    AppendedAnswers(s, n, []);
    NotDueAfter(s, n, []);
    StillTruthful(s, n, []);
  }

  /** Registering: attached from now on. */
  lemma RegisterKeeps(s: State, w: Call, id: Id)
    requires WatchInv(s) && w !in s.trace.watching
    requires id in s.requests && s.requests[id].phase == Assigned && s.requests[id].watcher == None
    ensures WatchInv(Registered(s, w, id))
  {
    RegisterCounts(s, w, id);
    RegisterTruths(s, w, id);
  }

  /** A request leaves, and its watcher's result becomes one task. */
  lemma HandOverCounts(s: State, n: State, id: Id, t: Task)
    requires OneResultEach(s) && Attached(s) && id in s.requests
    requires n.requests == s.requests - {id} && n.tasks == s.tasks + [t]
    requires n.trace.log == s.trace.log && n.trace.watching == s.trace.watching
    requires forall v: Call :: TellsTo(v)(t) <==> s.requests[id].watcher == Some(v)
    ensures OneResultEach(n)
  {
    forall v: Call ensures Total(n, v) == if v in n.trace.watching then 1 else 0 {
      CountAppend(s.tasks, [t], TellsTo(v));
      CountOne(t, TellsTo(v));
      assert Total(s, v) == if v in s.trace.watching then 1 else 0;
    }
  }

  ghost predicate HandsOver(s: State, n: State, id: Id, t: Task, phase: Phase) {
    && id in s.requests && id in s.trace.order
    && n.requests == s.requests - {id} && n.tasks == s.tasks + [t]
    && n.trace.log == s.trace.log && n.trace.order == s.trace.order && n.trace.watching == s.trace.watching
    && n.terminal.Keys == s.terminal.Keys + {id} && n.terminal[id].phase == phase
    && (forall x :: x in s.terminal && x != id ==> n.terminal[x] == s.terminal[x])
  }

  /** Answered: the watcher's result now rides on the answer. */
  lemma AnswerKeeps(s: State, n: State, id: Id, answer: Task)
    requires WatchInv(s) && AnswerInv(s) && HandsOver(s, n, id, answer, Completed)
    requires IsAnswer(answer, id) && answer.toTell == s.requests[id].watcher
    ensures WatchInv(n)
  {
    HandOverCounts(s, n, id, answer);
    AppendedAnswers(s, n, [answer]);
    StillTruthful(s, n, [answer]);
    AnswerRemembers(s, n, id, answer);
  }

  lemma AnswerRemembers(s: State, n: State, id: Id, answer: Task)
    requires Remembered(s) && HandsOver(s, n, id, answer, Completed) && IsAnswer(answer, id)
    ensures Remembered(n)
  {
    forall x: Id
      ensures Due(n, x) <==> Due(s, x) || x == id
      ensures Unrecorded(n, x) <==> Unrecorded(s, x)
    {
      HasAppend(s.tasks, [answer], AnswerTo(x));
      HasAppend(s.tasks, [answer], MarkOf(x));
      HasOne(answer, AnswerTo(x));
      HasOne(answer, MarkOf(x));
    }
  }

  lemma TellIsTrue(s: State, n: State, id: Id, w: Call)
    requires Truthful(s) && Attached(s) && AnswerInv(s)
    requires HandsOver(s, n, id, Tell(w, id, Cancelled, true), Cancelled) && s.requests[id].watcher == Some(w)
    ensures forall x :: Due(n, x) <==> Due(s, x)
    ensures forall x :: Unrecorded(n, x) <==> Unrecorded(s, x)
    ensures !Due(n, id) && !Reached(n, id) && !Unrecorded(n, id) && Truthful(n)
  {
    var tell := Tell(w, id, Cancelled, true);
    NothingDue(s, id);
    AppendedAnswers(s, n, [tell]);
    NotDueAfter(s, n, [tell]);
    StillTruthful(s, n, [tell]);
  }

  lemma CancelRemembers(s: State, n: State, id: Id, t: Task)
    requires Remembered(s) && HandsOver(s, n, id, t, Cancelled)
    requires forall x :: Due(n, x) <==> Due(s, x)
    requires forall x :: Unrecorded(n, x) <==> Unrecorded(s, x)
    requires !Due(n, id) && !Reached(n, id) && !Unrecorded(n, id)
    ensures Remembered(n)
  {
  }

  lemma AttachedStays(s: State, n: State, id: Id, t: Task, phase: Phase)
    requires Attached(s) && HandsOver(s, n, id, t, phase)
    ensures Attached(n)
  {
  }

  /** Cancelled while watched. */
  lemma CancelTells(s: State, n: State, id: Id, w: Call)
    requires WatchInv(s) && AnswerInv(s) && HandsOver(s, n, id, Tell(w, id, Cancelled, true), Cancelled)
    requires s.requests[id].watcher == Some(w)
    ensures WatchInv(n)
  {
    HandOverCounts(s, n, id, Tell(w, id, Cancelled, true));
    TellIsTrue(s, n, id, w);
    CancelRemembers(s, n, id, Tell(w, id, Cancelled, true));
    AttachedStays(s, n, id, Tell(w, id, Cancelled, true), Cancelled);
  }

  /** A request nobody watches is cancelled. */
  lemma UnwatchedLeaves(s: State, n: State, id: Id)
    requires WatchInv(s) && AnswerInv(s) && id in s.requests && id in s.trace.order
    requires Quiet(s, n, []) && id !in n.requests && n.terminal.Keys == s.terminal.Keys + {id}
    requires n.terminal[id].phase == Cancelled
    requires forall x :: x in s.terminal && x != id ==> n.terminal[x] == s.terminal[x]
    ensures WatchInv(n)
  {
    QuietCounts(s, n, []);
    QuietTruths(s, n, []);
    UnwatchedIsRemembered(s, n, id);
  }

  lemma UnwatchedIsRemembered(s: State, n: State, id: Id)
    requires Remembered(s) && AnswerInv(s) && id in s.requests && id in s.trace.order
    requires Quiet(s, n, []) && id !in n.requests && n.terminal.Keys == s.terminal.Keys + {id}
    requires n.terminal[id].phase == Cancelled
    requires forall x :: x in s.terminal && x != id ==> n.terminal[x] == s.terminal[x]
    ensures Remembered(n)
  {
    NothingDue(s, id);
    forall x | x in n.terminal
      ensures x in n.trace.order && x !in n.requests
      ensures n.terminal[x].phase == Completed || n.terminal[x].phase == Cancelled
      ensures n.terminal[x].phase == Completed <==> Due(n, x) || Reached(n, x) || Unrecorded(n, x)
    {
      QuietAnswers(s, n, [], x);
    }
  }

  lemma NotDueAfter(s: State, n: State, more: seq<Task>)
    requires n.tasks == s.tasks + more
    requires forall i, id :: 0 <= i < |more| ==> !IsAnswer(more[i], id)
    ensures forall id :: Due(n, id) ==> Due(s, id)
  {
    forall id | Due(n, id) ensures Due(s, id) {
      HasAppend(s.tasks, more, AnswerTo(id));
      assert !Has(more, AnswerTo(id));
    }
  }

  // ---- deliveries ----

  /** The answer is tried once: it has arrived, or it never will and that is yet to be recorded. */
  lemma AnswerIsTried(s: State, k: nat, ok: bool, id: Id)
    requires AnswerInv(s) && k < |s.tasks| && IsAnswer(s.tasks[k], id)
    ensures !Due(Deliver(s, k, ok), id)
    ensures Reached(Deliver(s, k, ok), id) <==> ok
    ensures Unrecorded(Deliver(s, k, ok), id) <==> !ok
  {
    var n := Deliver(s, k, ok);
    OnlyAnswer(s, k, id);
    DeliverLogs(s, k, ok, id);
    DeliverLeaves(s, k, ok, id);
    DeliverPlaces(s, k, ok, id);
    OnePlace(s, id);
    OnePlace(n, id);
  }

  lemma ResultMovesOn(t: Task, ok: bool, v: Call)
    requires t.Reply? && t.toTell.Some? ==> t.kind == Answer && t.forId.Some?
    ensures Count(FollowUps(t, ok), TellsTo(v)) + Count(EventsOf(t, ok), ToldTo(v)) == if TellsTo(v)(t) then 1 else 0
  {
    var more, events := FollowUps(t, ok), EventsOf(t, ok);
    if more != [] { CountOne(more[0], TellsTo(v)); }
    if events != [] { CountOne(events[0], ToldTo(v)); }
  }

  lemma DeliverCounts(s: State, k: nat, ok: bool)
    requires OneResultEach(s) && Truthful(s) && k < |s.tasks|
    ensures OneResultEach(Deliver(s, k, ok))
  {
    var n, t := Deliver(s, k, ok), s.tasks[k];
    assert ProperNotice(s, t);
    forall v: Call ensures Total(n, v) == if v in n.trace.watching then 1 else 0 {
      CountRemove(s.tasks, k, TellsTo(v));
      CountAppend(s.tasks[..k] + s.tasks[k + 1..], FollowUps(t, ok), TellsTo(v));
      CountAppend(s.trace.log, EventsOf(t, ok), ToldTo(v));
      ResultMovesOn(t, ok, v);
      assert Total(s, v) == if v in s.trace.watching then 1 else 0;
    }
  }

  lemma StillInformed(s: State, k: nat, ok: bool, w: Call, id: Id, phase: Phase)
    requires k < |s.tasks| && Informed(s, w, id, phase)
    ensures Informed(Deliver(s, k, ok), w, id, phase)
  {
    StillSettled(s, k, ok, id);
  }

  /** Without an answer due nothing is delivered to change where it is. */
  lemma StillSettled(s: State, k: nat, ok: bool, id: Id)
    requires k < |s.tasks| && !Due(s, id)
    ensures !Due(Deliver(s, k, ok), id)
    ensures Reached(Deliver(s, k, ok), id) <==> Reached(s, id)
  {
    DeliverLogs(s, k, ok, id);
    DeliverLeaves(s, k, ok, id);
  }

  lemma NoticeStaysProper(s: State, k: nat, ok: bool, t: Task)
    requires k < |s.tasks| && ProperNotice(s, t)
    ensures ProperNotice(Deliver(s, k, ok), t)
  {
    if t.Tell? { StillInformed(s, k, ok, t.watcher, t.id, t.phase); }
    if t.MarkFailed? && t.toTell.Some? { StillSettled(s, k, ok, t.id); }
  }

  lemma FollowUpIsProper(s: State, k: nat, ok: bool)
    requires AnswerInv(s) && k < |s.tasks| && ProperNotice(s, s.tasks[k])
    ensures forall i :: 0 <= i < |FollowUps(s.tasks[k], ok)| ==>
              ProperNotice(Deliver(s, k, ok), FollowUps(s.tasks[k], ok)[i])
  {
    var t := s.tasks[k];
    if t.Reply? && t.kind == Answer && t.toTell.Some? { AnswerIsTried(s, k, ok, t.forId.value); }
    if t.MarkFailed? && t.toTell.Some? { StillSettled(s, k, ok, t.id); }
  }

  lemma DeliverTruths(s: State, k: nat, ok: bool)
    requires Truthful(s) && AnswerInv(s) && k < |s.tasks|
    ensures Truthful(Deliver(s, k, ok))
  {
    var n, t := Deliver(s, k, ok), s.tasks[k];
    assert ProperNotice(s, t);
    FollowUpIsProper(s, k, ok);
    forall i | 0 <= i < |n.tasks| ensures ProperNotice(n, n.tasks[i]) {
      if i < k { NoticeStaysProper(s, k, ok, s.tasks[i]); }
      else if i < |s.tasks| - 1 { NoticeStaysProper(s, k, ok, s.tasks[i + 1]); }
      else { assert n.tasks[i] == FollowUps(t, ok)[i - (|s.tasks| - 1)]; }
    }
    forall i | 0 <= i < |n.trace.log| ensures ProperResult(n, n.trace.log[i]) {
      if i < |s.trace.log| {
        assert ProperResult(s, s.trace.log[i]);
        if s.trace.log[i].Told? {
          StillInformed(s, k, ok, s.trace.log[i].watcher, s.trace.log[i].id, s.trace.log[i].phase);
        }
      } else if t.Tell? {
        StillInformed(s, k, ok, t.watcher, t.id, t.phase);
      }
    }
  }

  lemma DeliverRemembers(s: State, k: nat, ok: bool)
    requires Remembered(s) && AnswerInv(s) && k < |s.tasks|
    ensures Remembered(Deliver(s, k, ok))
  {
    var n := Deliver(s, k, ok);
    forall id | id in n.terminal
      ensures (n.terminal[id].phase == Completed || n.terminal[id].phase == Cancelled)
           && (n.terminal[id].phase == Completed <==> Due(n, id) || Reached(n, id) || Unrecorded(n, id))
    {
      DeliverLogs(s, k, ok, id);
      DeliverLeaves(s, k, ok, id);
      if MarkOf(id)(s.tasks[k]) {
        DeliverPlaces(s, k, ok, id);
        assert Places(s, id) <= 1;
        OnePlace(n, id);
      }
    }
  }

  lemma DeliverKeepsWatchers(s: State, k: nat, ok: bool)
    requires WatchInv(s) && AnswerInv(s) && k < |s.tasks|
    ensures WatchInv(Deliver(s, k, ok))
  {
    DeliverCounts(s, k, ok);
    DeliverTruths(s, k, ok);
    DeliverRemembers(s, k, ok);
  }

  // ---- stop ----

  /** The watcher's request is among these. */
  ghost predicate WatchedAmong(s: State, ids: seq<Id>, w: Call) {
    w in s.trace.watching && s.trace.watching[w] in ids && Holds(s.requests, s.trace.watching[w], w)
  }

  lemma {:induction false} StopTellsEach(s: State, ids: seq<Id>, w: Call)
    requires Attached(s) && Distinct(ids) && forall id :: id in ids ==> id in s.requests
    ensures Count(TellAll(s.requests, ids), TellsTo(w)) == if WatchedAmong(s, ids, w) then 1 else 0
  {
    if ids != [] {
      var most, id := ids[..|ids| - 1], ids[|ids| - 1];
      DistinctLast(ids);
      StopTellsEach(s, most, w);
      CountAppend(TellAll(s.requests, most), TellOf(s.requests[id], id), TellsTo(w));
      TellsItsWatcher(s, id, w);
    }
  }

  lemma TellsItsWatcher(s: State, id: Id, w: Call)
    requires Attached(s) && id in s.requests
    ensures Count(TellOf(s.requests[id], id), TellsTo(w))
         == if w in s.trace.watching && s.trace.watching[w] == id && Holds(s.requests, id, w) then 1 else 0
  {
    var tell := TellOf(s.requests[id], id);
    if tell != [] { CountOne(tell[0], TellsTo(w)); }
  }

  lemma {:induction false} StopTellsTruly(s: State, ids: seq<Id>)
    ensures forall i :: 0 <= i < |TellAll(s.requests, ids)| ==>
              TellAll(s.requests, ids)[i].Tell? && TellAll(s.requests, ids)[i].phase == Cancelled
              && Holds(s.requests, TellAll(s.requests, ids)[i].id, TellAll(s.requests, ids)[i].watcher)
  {
    if ids != [] { StopTellsTruly(s, ids[..|ids| - 1]); }
  }

  lemma {:induction false} OthersAreQuiet(waiters: seq<Call>, requests: map<Id, Pending>, ids: seq<Id>)
    ensures forall i :: 0 <= i < |FailAll(waiters)| ==> QuietTask(FailAll(waiters)[i])
    ensures forall i :: 0 <= i < |HaltAll(requests, ids)| ==> QuietTask(HaltAll(requests, ids)[i])
    decreases |waiters| + |ids|
  {
    if waiters != [] { OthersAreQuiet(waiters[..|waiters| - 1], requests, ids); }
    if ids != [] { OthersAreQuiet(waiters, requests, ids[..|ids| - 1]); }
  }

  lemma QuietCountsNothing(more: seq<Task>, w: Call)
    requires forall i :: 0 <= i < |more| ==> QuietTask(more[i])
    ensures Count(more, TellsTo(w)) == 0
  {
    forall i | 0 <= i < |more| ensures !TellsTo(w)(more[i]) {
      assert QuietTask(more[i]);
    }
    CountNone(more, TellsTo(w));
  }

  lemma StopCounts(s: State, ids: seq<Id>)
    requires OneResultEach(s) && Attached(s) && Distinct(ids) && (set id | id in ids) == s.requests.Keys
    ensures OneResultEach(Stop(s, ids))
  {
    var n := Stop(s, ids);
    var fails, tells, halts := FailAll(s.waiters), TellAll(s.requests, ids), HaltAll(s.requests, ids);
    OthersAreQuiet(s.waiters, s.requests, ids);
    assert forall id :: id in ids <==> id in (set id | id in ids);
    forall w: Call ensures Total(n, w) == if w in n.trace.watching then 1 else 0 {
      CountAppend(s.tasks, fails + tells + halts, TellsTo(w));
      CountAppend(fails + tells, halts, TellsTo(w));
      CountAppend(fails, tells, TellsTo(w));
      QuietCountsNothing(fails, w);
      QuietCountsNothing(halts, w);
      StopTellsEach(s, ids, w);
      assert Total(s, w) == if w in s.trace.watching then 1 else 0;
    }
  }

  lemma StopAnswersNobody(s: State, ids: seq<Id>) returns (more: seq<Task>)
    ensures Stop(s, ids).tasks == s.tasks + more
    ensures forall i :: 0 <= i < |more| ==>
              QuietTask(more[i])
              || (more[i].Tell? && more[i].phase == Cancelled && Holds(s.requests, more[i].id, more[i].watcher))
  {
    var fails, tells, halts := FailAll(s.waiters), TellAll(s.requests, ids), HaltAll(s.requests, ids);
    more := fails + tells + halts;
    OthersAreQuiet(s.waiters, s.requests, ids);
    StopTellsTruly(s, ids);
    forall i | 0 <= i < |more|
      ensures QuietTask(more[i])
           || (more[i].Tell? && more[i].phase == Cancelled && Holds(s.requests, more[i].id, more[i].watcher))
    {
      if i < |fails| { assert more[i] == fails[i]; }
      else if i < |fails| + |tells| { assert more[i] == tells[i - |fails|]; }
      else { assert more[i] == halts[i - |fails| - |tells|]; }
    }
  }

  lemma StopKeepsWatchers(s: State, ids: seq<Id>)
    requires WatchInv(s) && AnswerInv(s) && Distinct(ids) && (set id | id in ids) == s.requests.Keys
    requires forall id :: id in s.requests ==> id in s.trace.order
    ensures WatchInv(Stop(s, ids))
  {
    var n := Stop(s, ids);
    StopCounts(s, ids);
    var more := StopAnswersNobody(s, ids);
    AppendedAnswers(s, n, more);
    NotDueAfter(s, n, more);
    forall i | 0 <= i < |more| ensures ProperNotice(n, more[i]) {
      if more[i].Tell? { NothingDue(s, more[i].id); }
    }
    StillTruthful(s, n, more);
  }

  // ---- every step, every run ----

  lemma PurgeKeepsWatchers(s: State)
    requires WatchInv(s)
    ensures WatchInv(Purge(s))
  {
    assert s.tasks == s.tasks + [];
    QuietKeeps(s, Purge(s), []);
  }

  lemma {:induction false} MatchKeepsWatchers(s: State)
    requires WatchInv(s)
    ensures WatchInv(MatchAll(s))
    decreases |s.waiters|
  {
    if s.waiters != [] && s.unassigned != [] {
      var w, id := s.waiters[0], s.unassigned[0];
      var rest := s.(waiters := s.waiters[1..], unassigned := s.unassigned[1..]);
      assert rest.tasks == s.tasks + [];
      QuietKeeps(s, rest, []);
      if id !in s.requests || s.requests[id].phase != Queued {
        MatchKeepsWatchers(rest);
      } else {
        QuietKeeps(rest, Assign(rest, w, id), [GiveWork(w, id)]);
        MatchKeepsWatchers(Assign(rest, w, id));
      }
    }
  }

  lemma WaitKeepsWatchers(s: State, w: Call)
    requires WatchInv(s)
    ensures WatchInv(Wait(s, w))
  {
    var p := Purge(s);
    PurgeKeepsWatchers(s);
    if p.stopped || |p.waiters| >= p.maxPending {
      QuietKeeps(p, Wait(s, w), [FailWaiter(w)]);
    } else {
      assert p.tasks == p.tasks + [];
      QuietKeeps(p, Arrive(p, w), []);
      MatchKeepsWatchers(Arrive(p, w));
    }
  }

  lemma SubmitKeepsWatchers(s: State, id: Id, sink: Sink, peerId: PeerId)
    requires WatchInv(s) && id !in s.trace.order && id !in s.requests
    ensures WatchInv(Submit(s, id, sink, peerId))
  {
    var p := Purge(s);
    PurgeKeepsWatchers(s);
    if p.stopped || |p.requests| >= p.maxPending {
      QuietKeeps(p, Submit(s, id, sink, peerId), [Reply(sink, peerId, Refused, None, None)]);
    } else {
      assert p.tasks == p.tasks + [];
      QuietKeeps(p, Enqueue(p, id, sink, peerId), []);
      MatchKeepsWatchers(Enqueue(p, id, sink, peerId));
    }
  }

  lemma WatchKeepsWatchers(s: State, w: Call, id: Id)
    requires WatchInv(s) && w !in s.trace.watching
    ensures WatchInv(WaitCancel(s, w, id))
  {
    var p := Purge(s);
    PurgeKeepsWatchers(s);
    if id in p.requests && p.requests[id].phase == Assigned && p.requests[id].watcher.None? {
      RegisterKeeps(p, w, id);
    } else {
      WatchedKeeps(p, w);
      if id !in p.requests && id in p.terminal {
        ToldAtOnce(Watched(p, w), p.terminal - {id}, TellLate(w, id, p.terminal[id].phase));
      } else {
        ToldAtOnce(Watched(p, w), p.terminal, FailWatcher(w));
      }
    }
  }

  lemma WatchedKeeps(p: State, w: Call)
    requires WatchInv(p)
    ensures WatchInv(Watched(p, w))
  {
    PlusNothing(p.tasks);
    QuietKeeps(p, Watched(p, w), []);
  }

  /** A watcher that is not registered: one task more, at most one request forgotten. */
  lemma ToldAtOnce(p: State, terminal: map<Id, Pending>, t: Task)
    requires WatchInv(p) && QuietTask(t)
    requires forall id :: id in terminal ==> id in p.terminal && terminal[id] == p.terminal[id]
    ensures WatchInv(Schedule(p.(terminal := terminal), [t]))
  {
    QuietKeeps(p, Schedule(p.(terminal := terminal), [t]), [t]);
  }

  lemma RespondKeepsWatchers(s: State, id: Id)
    requires WatchInv(s) && AnswerInv(s) && (id in s.requests ==> id in s.trace.order)
    ensures WatchInv(Respond(s, id))
  {
    var p := Purge(s);
    PurgeKeepsWatchers(s);
    PurgeKeepsAnswers(s);
    if id in p.requests && p.requests[id].phase == Assigned {
      var q := p.requests[id];
      AnswerKeeps(p, Respond(s, id), id, Reply(q.sink, q.peerId, Answer, Some(id), q.watcher));
    }
  }

  lemma CancelWatched(p: State, id: Id)
    requires WatchInv(p) && AnswerInv(p) && id in p.requests && id in p.trace.order && Purge(p) == p
    requires p.requests[id].phase == Assigned && p.requests[id].watcher.Some?
    ensures WatchInv(Cancel(p, id))
  {
    CancelTells(p, Cancel(p, id), id, p.requests[id].watcher.value);
  }

  lemma CancelQueued(p: State, id: Id)
    requires WatchInv(p) && id in p.requests && Purge(p) == p
    requires p.requests[id].phase == Queued
    ensures WatchInv(Cancel(p, id))
  {
    var n := Cancel(p, id);
    assert n.tasks == p.tasks + [];
    QuietKeeps(p, n, []);
  }

  lemma CancelUnwatched(p: State, id: Id)
    requires WatchInv(p) && AnswerInv(p) && id in p.requests && id in p.trace.order && Purge(p) == p
    requires p.requests[id].phase == Assigned && p.requests[id].watcher.None?
    ensures WatchInv(Cancel(p, id))
  {
    var n := Cancel(p, id);
    assert n.tasks == p.tasks + [];
    UnwatchedLeaves(p, n, id);
  }

  lemma PurgeTwice(s: State, id: Id)
    ensures Purge(Purge(s)) == Purge(s) && Cancel(s, id) == Cancel(Purge(s), id)
  {
    assert Purge(Purge(s)).terminal == Purge(s).terminal;
  }

  lemma CancelKeepsWatchers(s: State, id: Id)
    requires WatchInv(s) && AnswerInv(s) && (id in s.requests ==> id in s.trace.order)
    ensures WatchInv(Cancel(s, id))
  {
    var p := Purge(s);
    PurgeKeepsWatchers(s);
    PurgeKeepsAnswers(s);
    PurgeTwice(s, id);
    if id in p.requests && (p.requests[id].phase == Queued || p.requests[id].phase == Assigned) {
      if p.requests[id].phase == Queued { CancelQueued(p, id); }
      else if p.requests[id].watcher.Some? { CancelWatched(p, id); }
      else { CancelUnwatched(p, id); }
    }
  }

  lemma ExpireKeepsWatchers(s: State, id: Id)
    requires WatchInv(s)
    ensures WatchInv(Expire(s, id))
  {
    if id in s.requests && !s.stopped && s.requests[id].phase == Queued {
      var q := s.requests[id];
      QuietKeeps(s, Expire(s, id), [Reply(q.sink, q.peerId, Expired, Some(id), None)]);
    }
  }

  lemma PassKeepsWatchers(s: State, seconds: nat)
    requires WatchInv(s)
    ensures WatchInv(Next(s, DoPass(seconds)))
  {
    assert s.tasks == s.tasks + [];
    QuietKeeps(s, Next(s, DoPass(seconds)), []);
  }

  lemma NextKeepsWatchers(s: State, step: Step)
    requires Known(s) && AnswerInv(s) && WatchInv(s) && Legal(s, step)
    ensures WatchInv(Next(s, step))
  {
    match step
    case DoWait(w) => WaitKeepsWatchers(s, w);
    case DoSubmit(id, sink, peerId) => SubmitKeepsWatchers(s, id, sink, peerId);
    case DoWaitCancel(w, id) => WatchKeepsWatchers(s, w, id);
    case DoRespond(id) => RespondKeepsWatchers(s, id);
    case DoCancel(id) => CancelKeepsWatchers(s, id);
    case DoExpire(id) => ExpireKeepsWatchers(s, id);
    case DoStop(ids) => StopKeepsWatchers(s, ids);
    case DoDeliver(k, ok) => DeliverKeepsWatchers(s, k, ok);
    case DoPass(seconds) => PassKeepsWatchers(s, seconds);
  }

  lemma {:induction false} WatchersInEveryRun(maxPending: nat, timeout: int, steps: seq<Step>)
    requires Run(Initial(maxPending, timeout), steps).Some?
    ensures AnswerInv(Run(Initial(maxPending, timeout), steps).value)
    ensures WatchInv(Run(Initial(maxPending, timeout), steps).value)
  {
    AnswersInEveryRun(maxPending, timeout, steps);
    if steps != [] {
      var before := steps[..|steps| - 1];
      WatchersInEveryRun(maxPending, timeout, before);
      AnswersInEveryRun(maxPending, timeout, before);
      NextKeepsWatchers(Run(Initial(maxPending, timeout), before).value, steps[|steps| - 1]);
    }
  }

  /**
   A registered watcher is told once at most; it is told completed if and only if
   the answer reached PeerSwap, and cancelled otherwise; until it is told it is
   attached to its outstanding request or its result is on its way.
   */
  lemma WatcherHearsOnce(maxPending: nat, timeout: int, steps: seq<Step>, w: Call)
    requires Run(Initial(maxPending, timeout), steps).Some?
    requires w in Run(Initial(maxPending, timeout), steps).value.trace.watching
    ensures var s := Run(Initial(maxPending, timeout), steps).value;
            var id := s.trace.watching[w];
            && Total(s, w) == 1
            && (Holds(s.requests, id, w) ==> s.requests[id].phase == Assigned)
            && (forall i :: 0 <= i < |s.trace.log| && ToldTo(w)(s.trace.log[i]) ==>
                  && s.trace.log[i].id == id
                  && s.trace.log[i].phase == if Reached(s, id) then Completed else Cancelled)
  {
    WatchersInEveryRun(maxPending, timeout, steps);
    var s := Run(Initial(maxPending, timeout), steps).value;
    assert Total(s, w) == 1;
    forall i | 0 <= i < |s.trace.log| && ToldTo(w)(s.trace.log[i])
      ensures s.trace.log[i].id == s.trace.watching[w]
           && s.trace.log[i].phase == if Reached(s, s.trace.watching[w]) then Completed else Cancelled
    {
      assert ProperResult(s, s.trace.log[i]);
    }
  }

  /** A request once handed to a waiter is out of the queue timeout's reach for good. */
  lemma TimeoutSparesAssigned(maxPending: nat, timeout: int, steps: seq<Step>, id: Id)
    requires Run(Initial(maxPending, timeout), steps).Some?
    requires id in Seconds(Run(Initial(maxPending, timeout), steps).value.trace.matched)
    ensures var s := Run(Initial(maxPending, timeout), steps).value; Expire(s, id) == s
  {
    QueuesInEveryRun(maxPending, timeout, steps);
    UnassignedAreFresh(Run(Initial(maxPending, timeout), steps).value);
  }

  // ---- watchers that come late ----

  /** What a watcher that registers now is told, when the request is remembered. */
  function LateWord(s: State, id: Id): Phase
    requires id in s.terminal
  {
    s.terminal[id].phase
  }

  /**
   One that registers after the request was answered or cancelled is told at once
   what is remembered. Compared with how the answer ends up, the word is true
   exactly if the answer does not fail, or its failure was recorded by then.
   */
  lemma LateWatcherHearsTheTruth(maxPending: nat, timeout: int, before: seq<Step>, w: Call, id: Id, after: seq<Step>)
    requires Run(Initial(maxPending, timeout), before + [DoWaitCancel(w, id)] + after).Some?
    requires Run(Initial(maxPending, timeout), before).Some?
    requires id in Purge(Run(Initial(maxPending, timeout), before).value).terminal
    requires !Due(Run(Initial(maxPending, timeout), before + [DoWaitCancel(w, id)] + after).value, id)
    ensures var s := Run(Initial(maxPending, timeout), before).value;
            var end := Run(Initial(maxPending, timeout), before + [DoWaitCancel(w, id)] + after).value;
            && TellLate(w, id, LateWord(s, id)) in WaitCancel(s, w, id).tasks
            && (LateWord(s, id) == (if Reached(end, id) then Completed else Cancelled)
                <==> (Failed(end, id) ==> Recorded(s, id)))
  {
    var start := Initial(maxPending, timeout);
    var s := Run(start, before).value;
    WatchersInEveryRun(maxPending, timeout, before);
    AnswersInEveryRun(maxPending, timeout, before + [DoWaitCancel(w, id)] + after);
    RunSplits(start, before, [DoWaitCancel(w, id)] + after);
    assert before + ([DoWaitCancel(w, id)] + after) == before + [DoWaitCancel(w, id)] + after;
    var end := Run(s, [DoWaitCancel(w, id)] + after).value;
    RunGoesOn(s, [DoWaitCancel(w, id)] + after, id);
    LateWordsFate(s, end, id);
    LateIsTold(s, w, id);
  }

  lemma LateIsTold(s: State, w: Call, id: Id)
    requires Remembered(s) && id in Purge(s).terminal
    ensures TellLate(w, id, LateWord(s, id)) in WaitCancel(s, w, id).tasks
  {
    var n := WaitCancel(s, w, id);
    assert n.tasks[|s.tasks|] == TellLate(w, id, LateWord(s, id));
  }

  lemma LateWordsFate(s: State, end: State, id: Id)
    requires AnswerInv(s) && AnswerInv(end) && Remembered(s) && id in s.terminal
    requires GoesOn(s, end, id) && !Due(end, id)
    ensures LateWord(s, id) == (if Reached(end, id) then Completed else Cancelled)
       <==> (Failed(end, id) ==> Recorded(s, id))
  {
    assert Places(s, id) <= 1 && Places(end, id) <= 1;
    OnePlace(s, id);
    OnePlace(end, id);
    assert Failed(s, id) <==> Unrecorded(s, id) || Recorded(s, id);
    assert Failed(end, id) <==> Unrecorded(end, id) || Recorded(end, id);
  }

  lemma {:induction false} RunSplits(s: State, a: seq<Step>, b: seq<Step>)
    ensures Run(s, a + b) == match Run(s, a) case None => None case Some(mid) => Run(mid, b)
    decreases |b|
  {
    if b == [] {
      PlusNothing(a);
    } else {
      RunSplits(s, a, b[..|b| - 1]);
      LastOfSum(a, b);
    }
  }

  lemma OneMore(s: State, steps: seq<Step>, step: Step) returns (more: seq<Step>)
    requires Run(s, steps).Some? && Legal(Run(s, steps).value, step)
    ensures Run(s, more) == Some(Next(Run(s, steps).value, step))
  {
    more := steps + [step];
    assert more[..|more| - 1] == steps;
  }

  ghost predicate AnsweredNotTold(s: State) {
    && s.tasks == [GiveWork(0, 0), Reply(0, "peer", Answer, Some(0), None)]
    && s.requests == map[] && 0 in s.terminal && s.terminal[0].phase == Completed
    && s.terminal[0].forgetAt == Some(120) && s.now == 0
    && s.trace.watches == {} && s.trace.watching == map[] && s.trace.log == []
  }

  ghost predicate Handed(s: State) {
    && s.tasks == [GiveWork(0, 0)] && s.requests == map[0 := Pending(0, "peer", Assigned, None, None)]
    && s.terminal == map[] && s.timeout == 120 && s.now == 0
    && s.trace.watches == {} && s.trace.watching == map[] && s.trace.log == []
  }

  lemma MisledStart()
    ensures var s0 := Initial(32, 120);
            Legal(s0, DoSubmit(0, 0, "peer"))
            && Legal(Next(s0, DoSubmit(0, 0, "peer")), DoWait(0))
            && Handed(Next(Next(s0, DoSubmit(0, 0, "peer")), DoWait(0)))
  {
    var s1 := Next(Initial(32, 120), DoSubmit(0, 0, "peer"));
    assert s1.requests == map[0 := Pending(0, "peer", Queued, None, None)] && s1.unassigned == [0];
    assert s1.waiters == [] && s1.tasks == [] && s1.terminal == map[];
    var s2 := Next(s1, DoWait(0));
    assert s2.terminal == map[];
  }

  lemma MisledAnswer(s: State)
    requires Handed(s)
    ensures AnsweredNotTold(Next(s, DoRespond(0)))
  {
    assert Purge(s).terminal == map[];
  }

  lemma MisledEnd(s3: State)
    requires AnsweredNotTold(s3)
    ensures Legal(s3, DoWaitCancel(1, 0))
    ensures var s4 := Next(s3, DoWaitCancel(1, 0));
            Legal(s4, DoDeliver(2, true)) && Legal(Next(s4, DoDeliver(2, true)), DoDeliver(1, false))
            && Next(Next(s4, DoDeliver(2, true)), DoDeliver(1, false)).trace.log
               == [ToldLate(1, 0, Completed), Replied(0, "peer", Answer, Some(0), false)]
  {
    assert !Outdated(s3.terminal[0], s3.now);
    var s4 := Next(s3, DoWaitCancel(1, 0));
    assert s4.tasks == [GiveWork(0, 0), Reply(0, "peer", Answer, Some(0), None), TellLate(1, 0, Completed)];
  }

  /** The exception does occur: a run that tells a late watcher completed, after which the answer fails. */
  lemma LateWatcherMayBeMisled() returns (steps: seq<Step>)
    ensures Run(Initial(32, 120), steps).Some?
    ensures Run(Initial(32, 120), steps).value.trace.log
         == [ToldLate(1, 0, Completed), Replied(0, "peer", Answer, Some(0), false)]
  {
    var s0 := Initial(32, 120);
    MisledStart();
    steps := OneMore(s0, [], DoSubmit(0, 0, "peer"));
    steps := OneMore(s0, steps, DoWait(0));
    MisledAnswer(Run(s0, steps).value);
    steps := OneMore(s0, steps, DoRespond(0));
    MisledEnd(Run(s0, steps).value);
    steps := OneMore(s0, steps, DoWaitCancel(1, 0));
    steps := OneMore(s0, steps, DoDeliver(2, true));
    steps := OneMore(s0, steps, DoDeliver(1, false));
  }

  lemma BetweenEnd(s3: State)
    requires AnsweredNotTold(s3)
    ensures Legal(s3, DoDeliver(1, false))
    ensures var s4 := Next(s3, DoDeliver(1, false));
            Legal(s4, DoWaitCancel(1, 0))
            && var s5 := Next(s4, DoWaitCancel(1, 0));
            Legal(s5, DoDeliver(2, true)) && Legal(Next(s5, DoDeliver(2, true)), DoDeliver(1, true))
            && Next(Next(s5, DoDeliver(2, true)), DoDeliver(1, true)).trace.log
               == [Replied(0, "peer", Answer, Some(0), false), ToldLate(1, 0, Completed), Marked(0)]
  {
    var s4 := Next(s3, DoDeliver(1, false));
    assert s4.tasks == [GiveWork(0, 0), MarkFailed(0, None)];
    assert !Outdated(s4.terminal[0], s4.now);
    var s5 := Next(s4, DoWaitCancel(1, 0));
    assert s5.tasks == [GiveWork(0, 0), MarkFailed(0, None), TellLate(1, 0, Completed)];
  }

  /** So does the other one: the answer has failed already, but that is not recorded when the watcher comes. */
  lemma LateWatcherMayComeBetween() returns (steps: seq<Step>)
    ensures Run(Initial(32, 120), steps).Some?
    ensures Run(Initial(32, 120), steps).value.trace.log
         == [Replied(0, "peer", Answer, Some(0), false), ToldLate(1, 0, Completed), Marked(0)]
  {
    var s0 := Initial(32, 120);
    MisledStart();
    steps := OneMore(s0, [], DoSubmit(0, 0, "peer"));
    steps := OneMore(s0, steps, DoWait(0));
    MisledAnswer(Run(s0, steps).value);
    steps := OneMore(s0, steps, DoRespond(0));
    BetweenEnd(Run(s0, steps).value);
    steps := OneMore(s0, steps, DoDeliver(1, false));
    steps := OneMore(s0, steps, DoWaitCancel(1, 0));
    steps := OneMore(s0, steps, DoDeliver(2, true));
    steps := OneMore(s0, steps, DoDeliver(1, true));
  }
}
