/**
 What becomes of JoinMarket's answer to a request. Once given it is in exactly one
 place: on its way to PeerSwap, arrived, failed with the failure not yet recorded,
 or failed and recorded.
 */
module RendezvousAnswers {
  import opened Prelude
  import opened RendezvousSpec
  import opened RendezvousQueues
  import opened RendezvousReplies

  // ---- having an element of a kind ----

  ghost predicate Has<T(!new)>(xs: seq<T>, p: T -> bool) {
    exists i :: 0 <= i < |xs| && p(xs[i])
  }

  lemma HasCount<T(!new)>(xs: seq<T>, p: T -> bool)
    ensures Has(xs, p) <==> Count(xs, p) >= 1
  {
    if Has(xs, p) {
      var i :| 0 <= i < |xs| && p(xs[i]);
      CountPositive(xs, p, i);
    }
    if Count(xs, p) >= 1 { var i := CountWitness(xs, p); }
  }

  lemma HasAppend<T(!new)>(a: seq<T>, b: seq<T>, p: T -> bool)
    ensures Has(a + b, p) <==> Has(a, p) || Has(b, p)
  {
    HasCount(a + b, p);
    HasCount(a, p);
    HasCount(b, p);
    CountAppend(a, b, p);
  }

  lemma HasOne<T(!new)>(x: T, p: T -> bool)
    ensures Has([x], p) <==> p(x)
  {
    HasCount([x], p);
    CountOne(x, p);
  }

  lemma HasRemove<T(!new)>(xs: seq<T>, k: nat, p: T -> bool)
    requires k < |xs|
    ensures Has(xs, p) <==> Has(xs[..k] + xs[k + 1..], p) || p(xs[k])
  {
    HasCount(xs, p);
    HasCount(xs[..k] + xs[k + 1..], p);
    CountRemove(xs, k, p);
  }

  // ---- where an answer is ----

  predicate IsAnswer(t: Task, id: Id) {
    t.Reply? && t.kind == Answer && t.forId == Some(id)
  }

  function AnswerTo(id: Id): Task -> bool {
    (t: Task) => IsAnswer(t, id)
  }

  function MarkOf(id: Id): Task -> bool {
    (t: Task) => t.MarkFailed? && t.id == id
  }

  predicate AnswerTried(e: Event, id: Id, delivered: bool) {
    e.Replied? && e.kind == Answer && e.forId == Some(id) && e.delivered == delivered
  }

  function TriedFor(id: Id, delivered: bool): Event -> bool {
    (e: Event) => AnswerTried(e, id, delivered)
  }

  function MarkedFor(id: Id): Event -> bool {
    (e: Event) => e == Marked(id)
  }

  /** The answer is on its way to PeerSwap. */
  ghost predicate Due(s: State, id: Id) { Has(s.tasks, AnswerTo(id)) }

  /** The answer reached PeerSwap. */
  ghost predicate Reached(s: State, id: Id) { Has(s.trace.log, TriedFor(id, true)) }

  /** The answer did not get through. */
  ghost predicate Failed(s: State, id: Id) { Has(s.trace.log, TriedFor(id, false)) }

  /** The failure is still to be recorded. */
  ghost predicate Unrecorded(s: State, id: Id) { Has(s.tasks, MarkOf(id)) }

  /** The failure is recorded. */
  ghost predicate Recorded(s: State, id: Id) { Has(s.trace.log, MarkedFor(id)) }

  function Settles(id: Id): Task -> bool {
    (t: Task) => IsAnswer(t, id) || (t.MarkFailed? && t.id == id)
  }

  function Settled(id: Id): Event -> bool {
    (e: Event) => AnswerTried(e, id, true) || e == Marked(id)
  }

  /** In how many of these places the answer is. */
  function Places(s: State, id: Id): nat {
    Count(s.tasks, Settles(id)) + Count(s.trace.log, Settled(id))
  }

  ghost predicate AnswerInv(s: State) {
    && (forall id: Id :: Places(s, id) <= 1)
    && (forall id: Id :: id in s.requests || id !in s.trace.order ==> Places(s, id) == 0)
    && (forall id: Id :: Failed(s, id) <==> Unrecorded(s, id) || Recorded(s, id))
  }

  lemma {:induction false} CountSum<T>(xs: seq<T>, p: T -> bool, q: T -> bool, r: T -> bool)
    requires forall i :: 0 <= i < |xs| ==> (r(xs[i]) <==> p(xs[i]) || q(xs[i])) && !(p(xs[i]) && q(xs[i]))
    ensures Count(xs, r) == Count(xs, p) + Count(xs, q)
  {
    if xs != [] { CountSum(xs[..|xs| - 1], p, q, r); }
  }

  /** The four places exclude each other, and together are the count. */
  lemma OnePlace(s: State, id: Id)
    requires Places(s, id) <= 1
    ensures Places(s, id) == 1 <==> Due(s, id) || Unrecorded(s, id) || Reached(s, id) || Recorded(s, id)
    ensures Due(s, id) ==> !Unrecorded(s, id) && !Reached(s, id) && !Recorded(s, id)
    ensures Unrecorded(s, id) ==> !Reached(s, id) && !Recorded(s, id)
    ensures Reached(s, id) ==> !Recorded(s, id)
  {
    CountSum(s.tasks, AnswerTo(id), MarkOf(id), Settles(id));
    CountSum(s.trace.log, TriedFor(id, true), MarkedFor(id), Settled(id));
    HasCount(s.tasks, AnswerTo(id));
    HasCount(s.tasks, MarkOf(id));
    HasCount(s.trace.log, TriedFor(id, true));
    HasCount(s.trace.log, MarkedFor(id));
  }

  // ---- sections ----

  predicate Unanswering(t: Task) {
    !t.MarkFailed? && (t.Reply? ==> t.kind != Answer)
  }

  /** A section appends tasks and delivers nothing; requests that are new have new ids. */
  ghost predicate Appends(s: State, n: State, more: seq<Task>) {
    && n.tasks == s.tasks + more && n.trace.log == s.trace.log
    && (forall id :: id in s.trace.order ==> id in n.trace.order)
    && (forall id :: id in n.requests ==> id in s.requests || id !in s.trace.order)
  }

  lemma AppendPlaces(s: State, n: State, more: seq<Task>, id: Id)
    requires Appends(s, n, more)
    ensures Places(n, id) == Places(s, id) + Count(more, Settles(id))
    ensures Reached(n, id) <==> Reached(s, id)
    ensures Failed(n, id) <==> Failed(s, id)
    ensures Recorded(n, id) <==> Recorded(s, id)
    ensures Due(n, id) <==> Due(s, id) || Has(more, AnswerTo(id))
    ensures Unrecorded(n, id) <==> Unrecorded(s, id) || Has(more, MarkOf(id))
  {
    CountAppend(s.tasks, more, Settles(id));
    HasAppend(s.tasks, more, AnswerTo(id));
    HasAppend(s.tasks, more, MarkOf(id));
  }

  lemma UnansweringPlaces(s: State, n: State, more: seq<Task>, id: Id)
    requires Appends(s, n, more) && forall i :: 0 <= i < |more| ==> Unanswering(more[i])
    ensures Places(n, id) == Places(s, id)
    ensures Reached(n, id) <==> Reached(s, id)
    ensures Failed(n, id) <==> Failed(s, id)
    ensures Recorded(n, id) <==> Recorded(s, id)
    ensures Due(n, id) <==> Due(s, id)
    ensures Unrecorded(n, id) <==> Unrecorded(s, id)
  {
    AppendPlaces(s, n, more, id);
    forall i | 0 <= i < |more|
      ensures !Settles(id)(more[i]) && !AnswerTo(id)(more[i]) && !MarkOf(id)(more[i])
    {
      assert Unanswering(more[i]);
    }
    CountNone(more, Settles(id));
  }

  lemma UnansweringKeeps(s: State, n: State, more: seq<Task>)
    requires AnswerInv(s) && Appends(s, n, more) && forall i :: 0 <= i < |more| ==> Unanswering(more[i])
    ensures AnswerInv(n)
  {
    forall id: Id
      ensures Places(n, id) <= 1 && (id in n.requests || id !in n.trace.order ==> Places(n, id) == 0)
      ensures Failed(n, id) <==> Unrecorded(n, id) || Recorded(n, id)
    {
      UnansweringPlaces(s, n, more, id);
    }
  }

  /** What a section schedules besides an answer. */
  lemma SectionTasks(s: State, step: Step) returns (more: seq<Task>)
    requires Legal(s, step) && !step.DoDeliver? && !step.DoRespond?
    ensures Appends(s, Next(s, step), more) && forall i :: 0 <= i < |more| ==> Unanswering(more[i])
  {
    match step
    case DoWait(w) => more := WaitTasks(s, w);
    case DoSubmit(id, sink, peerId) => more := SubmitTasks(s, id, sink, peerId);
    case DoWaitCancel(w, id) => more := WaitCancelTasks(s, w, id);
    case DoCancel(id) => more := CancelTasks(s, id);
    case DoExpire(id) => more := ExpireTasks(s, id);
    case DoStop(ids) => more := StopTasks(s, ids);
    case DoPass(seconds) =>
      more := [];
      assert s.tasks == s.tasks + [];
  }

  lemma {:induction false} MatchTasks(s: State) returns (more: seq<Task>)
    ensures Appends(s, MatchAll(s), more) && forall i :: 0 <= i < |more| ==> more[i].GiveWork?
    ensures MatchAll(s).requests.Keys == s.requests.Keys && MatchAll(s).trace.order == s.trace.order
    decreases |s.waiters|
  {
    more := [];
    assert s.tasks == s.tasks + [];
    if s.waiters != [] && s.unassigned != [] {
      var w, id := s.waiters[0], s.unassigned[0];
      var rest := s.(waiters := s.waiters[1..], unassigned := s.unassigned[1..]);
      if id !in s.requests || s.requests[id].phase != Queued {
        more := MatchTasks(rest);
      } else {
        var later := MatchTasks(Assign(rest, w, id));
        more := [GiveWork(w, id)] + later;
        assert s.tasks + [GiveWork(w, id)] + later == s.tasks + more;
      }
    }
  }

  lemma WaitTasks(s: State, w: Call) returns (more: seq<Task>)
    ensures Appends(s, Wait(s, w), more) && forall i :: 0 <= i < |more| ==> Unanswering(more[i])
  {
    var p := Purge(s);
    if p.stopped || |p.waiters| >= p.maxPending { more := [FailWaiter(w)]; } else { more := MatchTasks(Arrive(p, w)); }
  }

  lemma SubmitTasks(s: State, id: Id, sink: Sink, peerId: PeerId) returns (more: seq<Task>)
    requires id !in s.trace.order
    ensures Appends(s, Submit(s, id, sink, peerId), more) && forall i :: 0 <= i < |more| ==> Unanswering(more[i])
  {
    var p := Purge(s);
    if p.stopped || |p.requests| >= p.maxPending {
      more := [Reply(sink, peerId, Refused, None, None)];
    } else {
      more := MatchTasks(Enqueue(p, id, sink, peerId));
    }
  }

  lemma WaitCancelTasks(s: State, w: Call, id: Id) returns (more: seq<Task>)
    ensures Appends(s, WaitCancel(s, w, id), more) && forall i :: 0 <= i < |more| ==> Unanswering(more[i])
  {
    var p := Purge(s);
    more := if id in p.requests && p.requests[id].phase == Assigned && p.requests[id].watcher.None? then []
            else if id !in p.requests && id in p.terminal then [TellLate(w, id, p.terminal[id].phase)]
            else [FailWatcher(w)];
    assert s.tasks == s.tasks + [];
  }

  lemma CancelTasks(s: State, id: Id) returns (more: seq<Task>)
    ensures Appends(s, Cancel(s, id), more) && forall i :: 0 <= i < |more| ==> Unanswering(more[i])
  {
    var p := Purge(s);
    more := if id in p.requests && (p.requests[id].phase == Queued || p.requests[id].phase == Assigned)
               && p.requests[id].watcher.Some?
            then [Tell(p.requests[id].watcher.value, id, Cancelled, true)] else [];
    assert s.tasks == s.tasks + [];
  }

  lemma ExpireTasks(s: State, id: Id) returns (more: seq<Task>)
    ensures Appends(s, Expire(s, id), more) && forall i :: 0 <= i < |more| ==> Unanswering(more[i])
  {
    more := if id !in s.requests || s.stopped || s.requests[id].phase != Queued then []
            else [Reply(s.requests[id].sink, s.requests[id].peerId, Expired, Some(id), None)];
    assert s.tasks == s.tasks + [];
  }

  lemma StopTasks(s: State, ids: seq<Id>) returns (more: seq<Task>)
    ensures Appends(s, Stop(s, ids), more) && forall i :: 0 <= i < |more| ==> Unanswering(more[i])
  {
    var fails, tells, halts := FailAll(s.waiters), TellAll(s.requests, ids), HaltAll(s.requests, ids);
    more := fails + tells + halts;
    StopKinds(s.waiters, s.requests, ids);
    forall i | 0 <= i < |more| ensures Unanswering(more[i]) {
      if i < |fails| { assert more[i] == fails[i]; }
      else if i < |fails| + |tells| { assert more[i] == tells[i - |fails|]; }
      else { assert more[i] == halts[i - |fails| - |tells|]; }
    }
  }

  lemma {:induction false} StopKinds(waiters: seq<Call>, requests: map<Id, Pending>, ids: seq<Id>)
    ensures forall i :: 0 <= i < |FailAll(waiters)| ==> FailAll(waiters)[i].FailWaiter?
    ensures forall i :: 0 <= i < |TellAll(requests, ids)| ==> TellAll(requests, ids)[i].Tell?
    ensures forall i :: 0 <= i < |HaltAll(requests, ids)| ==>
              HaltAll(requests, ids)[i].Reply? && HaltAll(requests, ids)[i].kind == Halted
    decreases |waiters| + |ids|
  {
    if waiters != [] { StopKinds(waiters[..|waiters| - 1], requests, ids); }
    if ids != [] { StopKinds(waiters, requests, ids[..|ids| - 1]); }
  }

  // ---- an answer is given ----

  /** Only the answer to an assigned request is scheduled, and the request leaves. */
  lemma RespondTasks(s: State, id: Id) returns (more: seq<Task>)
    ensures Appends(s, Respond(s, id), more) && Respond(s, id).trace.order == s.trace.order
    ensures more == [] || (|more| == 1 && IsAnswer(more[0], id) && id in s.requests && id !in Respond(s, id).requests)
  {
    var p := Purge(s);
    more := if id !in p.requests || p.requests[id].phase != Assigned then []
            else [Reply(p.requests[id].sink, p.requests[id].peerId, Answer, Some(id), p.requests[id].watcher)];
    assert s.tasks == s.tasks + [];
  }

  lemma RespondPlaces(s: State, id: Id, x: Id) returns (more: seq<Task>)
    ensures Appends(s, Respond(s, id), more)
    ensures Places(Respond(s, id), x) == Places(s, x) + if x == id && more != [] then 1 else 0
    ensures more != [] ==> id in s.requests && id !in Respond(s, id).requests && Due(Respond(s, id), id)
    ensures x != id || more == [] ==> (Due(Respond(s, id), x) <==> Due(s, x))
    ensures Unrecorded(Respond(s, id), x) <==> Unrecorded(s, x)
    ensures Reached(Respond(s, id), x) <==> Reached(s, x)
    ensures Failed(Respond(s, id), x) <==> Failed(s, x)
    ensures Recorded(Respond(s, id), x) <==> Recorded(s, x)
  {
    more := RespondTasks(s, id);
    AppendPlaces(s, Respond(s, id), more, x);
    AppendPlaces(s, Respond(s, id), more, id);
    if more != [] {
      CountOne(more[0], Settles(x));
      HasOne(more[0], AnswerTo(x));
      HasOne(more[0], AnswerTo(id));
      HasOne(more[0], MarkOf(x));
      assert more == [more[0]];
    }
  }

  lemma RespondKeepsAnswers(s: State, id: Id)
    requires AnswerInv(s) && Known(s)
    ensures AnswerInv(Respond(s, id))
  {
    var n := Respond(s, id);
    var seen := RespondTasks(s, id);
    forall x: Id
      ensures Places(n, x) <= 1 && (x in n.requests || x !in n.trace.order ==> Places(n, x) == 0)
      ensures Failed(n, x) <==> Unrecorded(n, x) || Recorded(n, x)
    {
      var more := RespondPlaces(s, id, x);
    }
  }

  // ---- a task is carried out ----

  /** An answer that got through, or a recording that is made, moves from the tasks to the log. */
  lemma DeliverPlaces(s: State, k: nat, ok: bool, id: Id)
    requires k < |s.tasks|
    ensures Places(Deliver(s, k, ok), id) == Places(s, id)
  {
    var n, t := Deliver(s, k, ok), s.tasks[k];
    CountRemove(s.tasks, k, Settles(id));
    CountAppend(s.tasks[..k] + s.tasks[k + 1..], FollowUps(t, ok), Settles(id));
    CountAppend(s.trace.log, EventsOf(t, ok), Settled(id));
    PlaceMovesOn(t, ok, id);
  }

  lemma PlaceMovesOn(t: Task, ok: bool, id: Id)
    ensures Count(FollowUps(t, ok), Settles(id)) + Count(EventsOf(t, ok), Settled(id)) == if Settles(id)(t) then 1 else 0
  {
    var more, events := FollowUps(t, ok), EventsOf(t, ok);
    if more != [] { CountOne(more[0], Settles(id)); }
    if events != [] { CountOne(events[0], Settled(id)); }
  }

  lemma DeliverLogs(s: State, k: nat, ok: bool, id: Id)
    requires k < |s.tasks|
    ensures var n, t := Deliver(s, k, ok), s.tasks[k];
            && (Reached(n, id) <==> Reached(s, id) || (IsAnswer(t, id) && ok))
            && (Failed(n, id) <==> Failed(s, id) || (IsAnswer(t, id) && !ok))
            && (Recorded(n, id) <==> Recorded(s, id) || MarkOf(id)(t))
  {
    var t := s.tasks[k];
    var events := EventsOf(t, ok);
    HasAppend(s.trace.log, events, TriedFor(id, true));
    HasAppend(s.trace.log, events, TriedFor(id, false));
    HasAppend(s.trace.log, events, MarkedFor(id));
    if events != [] {
      HasOne(events[0], TriedFor(id, true));
      HasOne(events[0], TriedFor(id, false));
      HasOne(events[0], MarkedFor(id));
    }
  }

  lemma DeliverLeaves(s: State, k: nat, ok: bool, id: Id)
    requires k < |s.tasks|
    ensures var n, t := Deliver(s, k, ok), s.tasks[k];
            && (Due(s, id) <==> Due(n, id) || IsAnswer(t, id))
            && (Unrecorded(s, id) || (IsAnswer(t, id) && !ok) <==> Unrecorded(n, id) || MarkOf(id)(t))
            && (IsAnswer(t, id) && !ok ==> Unrecorded(n, id))
  {
    var t := s.tasks[k];
    var rest, more := s.tasks[..k] + s.tasks[k + 1..], FollowUps(t, ok);
    HasRemove(s.tasks, k, AnswerTo(id));
    HasRemove(s.tasks, k, MarkOf(id));
    HasAppend(rest, more, AnswerTo(id));
    HasAppend(rest, more, MarkOf(id));
    if more != [] {
      HasOne(more[0], AnswerTo(id));
      HasOne(more[0], MarkOf(id));
    }
  }

  lemma DeliverKeepsAnswers(s: State, k: nat, ok: bool)
    requires AnswerInv(s) && k < |s.tasks|
    ensures AnswerInv(Deliver(s, k, ok))
  {
    var n := Deliver(s, k, ok);
    forall id: Id
      ensures Places(n, id) <= 1 && (id in n.requests || id !in n.trace.order ==> Places(n, id) == 0)
      ensures Failed(n, id) <==> Unrecorded(n, id) || Recorded(n, id)
    {
      DeliverPlaces(s, k, ok, id);
      DeliverLogs(s, k, ok, id);
      DeliverLeaves(s, k, ok, id);
      assert Failed(s, id) <==> Unrecorded(s, id) || Recorded(s, id);
    }
  }

  lemma PurgeKeepsAnswers(s: State)
    requires AnswerInv(s)
    ensures AnswerInv(Purge(s))
  {
    assert s.tasks == s.tasks + [];
    UnansweringKeeps(s, Purge(s), []);
  }

  /** While a request is outstanding, no answer to it exists. */
  lemma NothingDue(s: State, id: Id)
    requires AnswerInv(s) && id in s.requests
    ensures !Due(s, id) && !Unrecorded(s, id) && !Reached(s, id) && !Failed(s, id)
  {
    assert Places(s, id) == 0;
    OnePlace(s, id);
    assert Failed(s, id) <==> Unrecorded(s, id) || Recorded(s, id);
  }

  /** An answer on its way is the only trace of it there is. */
  lemma OnlyAnswer(s: State, k: nat, id: Id)
    requires AnswerInv(s) && k < |s.tasks| && Settles(id)(s.tasks[k])
    ensures forall i :: 0 <= i < |s.tasks| && i != k ==> !Settles(id)(s.tasks[i])
    ensures !Reached(s, id) && !Recorded(s, id)
  {
    var rest := s.tasks[..k] + s.tasks[k + 1..];
    CountRemove(s.tasks, k, Settles(id));
    assert Places(s, id) <= 1;
    OnePlace(s, id);
    HasCount(s.trace.log, TriedFor(id, true));
    forall i | 0 <= i < |s.tasks| && i != k ensures !Settles(id)(s.tasks[i]) {
      var j := if i < k then i else i - 1;
      assert rest[j] == s.tasks[i];
      if Settles(id)(rest[j]) { CountPositive(rest, Settles(id), j); }
    }
    CountSum(s.trace.log, TriedFor(id, true), MarkedFor(id), Settled(id));
    HasCount(s.trace.log, MarkedFor(id));
  }

  // ---- every run ----

  lemma NextKeepsAnswers(s: State, step: Step)
    requires AnswerInv(s) && Known(s) && Legal(s, step)
    ensures AnswerInv(Next(s, step))
  {
    if step.DoDeliver? { DeliverKeepsAnswers(s, step.k, step.ok); }
    else if step.DoRespond? { RespondKeepsAnswers(s, step.id); }
    else {
      var more := SectionTasks(s, step);
      UnansweringKeeps(s, Next(s, step), more);
    }
  }

  lemma {:induction false} AnswersInEveryRun(maxPending: nat, timeout: int, steps: seq<Step>)
    requires Run(Initial(maxPending, timeout), steps).Some?
    ensures AnswerInv(Run(Initial(maxPending, timeout), steps).value)
    ensures Known(Run(Initial(maxPending, timeout), steps).value)
  {
    QueuesInEveryRun(maxPending, timeout, steps);
    if steps != [] {
      AnswersInEveryRun(maxPending, timeout, steps[..|steps| - 1]);
      NextKeepsAnswers(Run(Initial(maxPending, timeout), steps[..|steps| - 1]).value, steps[|steps| - 1]);
    }
  }

  // ---- from some point of a run to a later one ----

  /** What a step makes of the answer to a request that has left. */
  ghost predicate GoesOn(s: State, n: State, id: Id) {
    && id in n.trace.order && id !in n.requests
    && Places(n, id) == Places(s, id)
    && (Reached(s, id) ==> Reached(n, id)) && (Failed(s, id) ==> Failed(n, id)) && (Recorded(s, id) ==> Recorded(n, id))
    && (Due(n, id) ==> Due(s, id))
  }

  lemma StepGoesOn(s: State, step: Step, id: Id)
    requires Legal(s, step) && id in s.trace.order && id !in s.requests
    ensures GoesOn(s, Next(s, step), id)
  {
    if step.DoDeliver? {
      DeliverPlaces(s, step.k, step.ok, id);
      DeliverLogs(s, step.k, step.ok, id);
      DeliverLeaves(s, step.k, step.ok, id);
    } else if step.DoRespond? {
      var more := RespondPlaces(s, step.id, id);
    } else {
      var more := SectionTasks(s, step);
      UnansweringPlaces(s, Next(s, step), more, id);
    }
  }

  lemma {:induction false} RunGoesOn(s: State, steps: seq<Step>, id: Id)
    requires Run(s, steps).Some? && id in s.trace.order && id !in s.requests
    ensures GoesOn(s, Run(s, steps).value, id)
  {
    if steps != [] {
      var mid := Run(s, steps[..|steps| - 1]).value;
      RunGoesOn(s, steps[..|steps| - 1], id);
      StepGoesOn(mid, steps[|steps| - 1], id);
    }
  }
}
