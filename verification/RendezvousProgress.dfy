/**
 What a call achieves in whatever state the rendezvous has come to: it is taken up
 exactly if there is room, and what its caller gets fits the reason.
 */
module RendezvousProgress {
  import opened Prelude
  import opened Sequences
  import opened RendezvousSpec
  import opened RendezvousQueues
  import opened RendezvousWaiters

  /** This run has come to `s`. */
  ghost predicate Reaches(maxPending: nat, timeout: int, steps: seq<Step>, s: State) {
    Run(Initial(maxPending, timeout), steps) == Some(s)
  }

  /** What a section has put on its way, in order. */
  ghost predicate Adds(s: State, n: State, more: seq<Task>) {
    n.tasks == s.tasks + more && n.trace.log == s.trace.log
  }

  /** The client gets the request, and both leave their queues. */
  ghost predicate Paired(s: State, n: State, w: Call, id: Id) {
    && Adds(s, n, [GiveWork(w, id)]) && id in n.requests && n.requests[id].phase == Assigned
    && w !in n.waiters && id !in n.unassigned
  }

  ghost predicate OthersKept(s: State, n: State, id: Id) {
    forall x :: x in s.requests && x != id ==> x in n.requests && n.requests[x] == s.requests[x]
  }

  /** The invariants of every run, and its constants. */
  ghost predicate Sound(s: State, maxPending: nat, timeout: int) {
    QueueInv(s) && CallInv(s) && Distinct(s.waiters) && s.maxPending == maxPending && s.timeout == timeout
  }

  lemma RunsAreSound(maxPending: nat, timeout: int, steps: seq<Step>, s: State)
    requires Reaches(maxPending, timeout, steps, s)
    ensures Sound(s, maxPending, timeout)
  {
    QueuesInEveryRun(maxPending, timeout, steps);
    CallsInEveryRun(maxPending, timeout, steps);
    WaitersAreDistinct(s);
    SameBounds(maxPending, timeout, steps);
  }

  /** What the invariants say about the queues, and about one request. */
  lemma InTheQueues(maxPending: nat, timeout: int, steps: seq<Step>, s: State)
    requires Reaches(maxPending, timeout, steps, s)
    ensures |s.waiters| <= maxPending == s.maxPending && (s.waiters == [] || s.unassigned == [])
    ensures s.stopped ==> s.requests == map[]
    ensures s.unassigned != [] ==>
              var id := s.unassigned[0];
              id !in s.unassigned[1..] && id in s.requests && s.requests[id].phase == Queued
  {
    QueuesInEveryRun(maxPending, timeout, steps);
    SameBounds(maxPending, timeout, steps);
    if s.unassigned != [] {
      FirstIsAlone(s);
      assert s.unassigned[0] in s.unassigned;
    }
  }

  lemma Leaving(maxPending: nat, timeout: int, steps: seq<Step>, s: State, id: Id)
    requires Reaches(maxPending, timeout, steps, s)
    ensures s.stopped ==> s.requests == map[]
    ensures id in s.requests ==> s.requests[id].phase == Queued || s.requests[id].phase == Assigned
    ensures id !in s.requests ==> id !in s.unassigned
    ensures forall x :: x in Remove(s.unassigned, id) <==> x in s.unassigned && x != id
  {
    QueuesInEveryRun(maxPending, timeout, steps);
    OutOfTheQueue(s, id);
  }

  // ---- coming ----

  /**
   A client that comes while the rendezvous runs and the line is not full gets the
   oldest queued request, or stands last in line if there is none. Any other client
   is failed, and nobody else notices.
   */
  lemma WaitIsTakenUp(maxPending: nat, timeout: int, steps: seq<Step>, s: State, w: Call)
    requires Reaches(maxPending, timeout, steps, s) && Legal(s, DoWait(w))
    ensures var n := Next(s, DoWait(w));
            if s.stopped || |s.waiters| == maxPending then
              Adds(s, n, [FailWaiter(w)]) && n.waiters == s.waiters && n.requests == s.requests
            else if s.unassigned != [] then
              Paired(s, n, w, s.unassigned[0]) && OthersKept(s, n, s.unassigned[0]) && n.waiters == []
            else
              Adds(s, n, []) && n.waiters == s.waiters + [w] && n.requests == s.requests
  {
    InTheQueues(maxPending, timeout, steps, s);
    PlusNothing(s.tasks);
    if !s.stopped && |s.waiters| < maxPending && s.unassigned != [] { GetsTheFirst(Purge(s), w); }
  }

  lemma GetsTheFirst(s: State, w: Call)
    requires s.waiters == [] && s.unassigned != [] && s.unassigned[0] !in s.unassigned[1..]
    requires s.unassigned[0] in s.requests && s.requests[s.unassigned[0]].phase == Queued
    ensures var n := MatchAll(Arrive(s, w));
            Paired(s, n, w, s.unassigned[0]) && OthersKept(s, n, s.unassigned[0]) && n.waiters == []
  {
    var a := Arrive(s, w);
    assert a.waiters == [w] && a.waiters[1..] == [];
    var rest := Assign(a.(waiters := [], unassigned := a.unassigned[1..]), w, a.unassigned[0]);
    assert MatchAll(rest) == rest;
  }

  /**
   A request that comes while the rendezvous runs and has room goes to the first
   client in line, or last into the queue if there is none. Any other is refused.
   */
  lemma SubmitIsTakenUp(maxPending: nat, timeout: int, steps: seq<Step>, s: State, id: Id, sink: Sink, peerId: PeerId)
    requires Reaches(maxPending, timeout, steps, s) && Legal(s, DoSubmit(id, sink, peerId))
    ensures var n := Next(s, DoSubmit(id, sink, peerId));
            if s.stopped || |s.requests| == maxPending then
              Adds(s, n, [Reply(sink, peerId, Refused, None, None)]) && n.requests == s.requests && n.waiters == s.waiters
            else
              && id in n.requests && n.requests[id].sink == sink && n.requests[id].peerId == peerId
              && OthersKept(s, n, id)
              && if s.waiters != [] then Paired(s, n, s.waiters[0], id) && n.waiters == s.waiters[1..]
                 else Adds(s, n, []) && n.unassigned == s.unassigned + [id] && n.requests[id].phase == Queued
  {
    RunsAreSound(maxPending, timeout, steps, s);
    if !s.stopped && |s.requests| < maxPending {
      if s.waiters != [] {
        GoesToTheFirst(Purge(s), id, sink, peerId);
      } else {
        PlusNothing(s.tasks);
      }
    }
  }

  lemma GoesToTheFirst(s: State, id: Id, sink: Sink, peerId: PeerId)
    requires QueuedExactly(s) && Bounded(s) && Distinct(s.waiters) && s.waiters != []
    ensures var n := MatchAll(Enqueue(s, id, sink, peerId));
            && Paired(s, n, s.waiters[0], id) && n.waiters == s.waiters[1..] && OthersKept(s, n, id)
            && n.requests[id].sink == sink && n.requests[id].peerId == peerId
  {
    assert s.unassigned == [] && [] + [id] == [id];
    var e := Enqueue(s, id, sink, peerId);
    assert e.unassigned == [id];
    OnlyMatch(e, id);
  }

  lemma OnlyMatch(e: State, id: Id)
    requires e.waiters != [] && e.unassigned == [id] && id in e.requests && e.requests[id].phase == Queued
    ensures MatchAll(e) == Assign(e.(waiters := e.waiters[1..], unassigned := []), e.waiters[0], id)
  {
    var rest := Assign(e.(waiters := e.waiters[1..], unassigned := []), e.waiters[0], id);
    assert MatchAll(rest) == rest;
    assert e.unassigned[1..] == [];
  }

  /** A watcher is registered exactly on an assigned request nobody watches; of a remembered one it hears at once. */
  lemma WatchIsTakenUp(s: State, w: Call, id: Id)
    requires Legal(s, DoWaitCancel(w, id))
    ensures var n := Next(s, DoWaitCancel(w, id));
            if id in s.requests && s.requests[id].phase == Assigned && s.requests[id].watcher.None? then
              Adds(s, n, []) && id in n.requests && n.requests[id].watcher == Some(w) && OthersKept(s, n, id)
            else
              && n.requests == s.requests
              && if id !in s.requests && id in s.terminal && !Outdated(s.terminal[id], s.now) then
                   Adds(s, n, [TellLate(w, id, s.terminal[id].phase)]) && id !in n.terminal
                 else Adds(s, n, [FailWatcher(w)])
  {
    PlusNothing(s.tasks);
  }

  // ---- leaving ----

  /** JoinMarket's answer is taken for an assigned request and no other; it goes to the sink the request came with. */
  lemma AnswerIsTakenUp(maxPending: nat, timeout: int, steps: seq<Step>, s: State, id: Id)
    requires Reaches(maxPending, timeout, steps, s)
    ensures var n := Next(s, DoRespond(id));
            if id in s.requests && s.requests[id].phase == Assigned then
              && Adds(s, n, [Reply(s.requests[id].sink, s.requests[id].peerId, Answer, Some(id), s.requests[id].watcher)])
              && n.requests.Keys == s.requests.Keys - {id} && OthersKept(s, n, id)
              && id in n.terminal && n.terminal[id].phase == Completed && n.terminal[id].forgetAt == Some(s.now + timeout)
            else Adds(s, n, []) && n.requests == s.requests
  {
    SameBounds(maxPending, timeout, steps);
    AnswerTaken(s, id);
  }

  lemma AnswerTaken(s: State, id: Id)
    ensures var n := Respond(s, id);
            if id in s.requests && s.requests[id].phase == Assigned then
              && Adds(s, n, [Reply(s.requests[id].sink, s.requests[id].peerId, Answer, Some(id), s.requests[id].watcher)])
              && n.requests.Keys == s.requests.Keys - {id} && OthersKept(s, n, id)
              && id in n.terminal && n.terminal[id].phase == Completed && n.terminal[id].forgetAt == Some(s.now + s.timeout)
            else Adds(s, n, []) && n.requests == s.requests
  {
    PlusNothing(s.tasks);
  }

  /** A closed connection takes its request out, whatever its phase; only a watcher hears of it. */
  lemma CancelIsTakenUp(maxPending: nat, timeout: int, steps: seq<Step>, s: State, id: Id)
    requires Reaches(maxPending, timeout, steps, s)
    ensures var n := Next(s, DoCancel(id));
            && n.requests.Keys == s.requests.Keys - {id} && OthersKept(s, n, id)
            && (forall x :: x in n.unassigned <==> x in s.unassigned && x != id)
            && Adds(s, n, if id in s.requests && s.requests[id].watcher.Some?
                          then [Tell(s.requests[id].watcher.value, id, Cancelled, true)] else [])
            && (id in s.requests && s.requests[id].phase == Assigned ==>
                  id in n.terminal && n.terminal[id].phase == Cancelled)
  {
    Leaving(maxPending, timeout, steps, s, id);
    CancelTaken(s, id);
  }

  lemma CancelTaken(s: State, id: Id)
    requires id in s.requests ==> s.requests[id].phase == Queued || s.requests[id].phase == Assigned
    ensures var n := Cancel(s, id);
            && n.requests.Keys == s.requests.Keys - {id} && OthersKept(s, n, id)
            && n.unassigned == (if id in s.requests then Remove(s.unassigned, id) else s.unassigned)
            && Adds(s, n, if id in s.requests && s.requests[id].watcher.Some?
                          then [Tell(s.requests[id].watcher.value, id, Cancelled, true)] else [])
            && (id in s.requests && s.requests[id].phase == Assigned ==>
                  id in n.terminal && n.terminal[id].phase == Cancelled)
  {
    PlusNothing(s.tasks);
  }

  /** Time runs out for a queued request and no other. */
  lemma ExpiryIsTakenUp(maxPending: nat, timeout: int, steps: seq<Step>, s: State, id: Id)
    requires Reaches(maxPending, timeout, steps, s)
    ensures var n := Next(s, DoExpire(id));
            if id in s.requests && s.requests[id].phase == Queued then
              && Adds(s, n, [Reply(s.requests[id].sink, s.requests[id].peerId, Expired, Some(id), None)])
              && n.requests.Keys == s.requests.Keys - {id} && OthersKept(s, n, id)
              && (forall x :: x in n.unassigned <==> x in s.unassigned && x != id)
            else n == s
  {
    Leaving(maxPending, timeout, steps, s, id);
    ExpiryTaken(s, id);
  }

  lemma ExpiryTaken(s: State, id: Id)
    requires s.stopped ==> s.requests == map[]
    ensures var n := Expire(s, id);
            if id in s.requests && s.requests[id].phase == Queued then
              && Adds(s, n, [Reply(s.requests[id].sink, s.requests[id].peerId, Expired, Some(id), None)])
              && n.requests.Keys == s.requests.Keys - {id} && OthersKept(s, n, id)
              && n.unassigned == Remove(s.unassigned, id)
            else n == s
  {
  }

  /** No id stands in the queue twice, so taking out the first occurrence takes it out. */
  lemma OutOfTheQueue(s: State, id: Id)
    requires QueueInv(s)
    ensures forall x :: x in Remove(s.unassigned, id) <==> x in s.unassigned && x != id
  {
    QueueIsDistinct(s);
    RemoveTakesOut(s.unassigned, id);
  }

  lemma {:induction false} RemoveTakesOut(q: seq<Id>, id: Id)
    requires Distinct(q)
    ensures forall x :: x in Remove(q, id) <==> x in q && x != id
  {
    if q != [] {
      assert q == [q[0]] + q[1..] && q[0] !in q[1..];
      RemoveTakesOut(q[1..], id);
    }
  }

  lemma QueueIsDistinct(s: State)
    requires QueueInv(s)
    ensures Distinct(s.unassigned)
  {
    UndroppedDistinct(s.trace.order, s.trace.dropped);
    SplitDistinct(Undropped(s.trace.order, s.trace.dropped), Seconds(s.trace.matched), s.unassigned);
  }

  lemma FirstIsAlone(s: State)
    requires QueueInv(s) && s.unassigned != []
    ensures s.unassigned[0] !in s.unassigned[1..]
  {
    QueueIsDistinct(s);
  }

  // ---- what no step changes ----

  lemma {:induction false} SameBounds(maxPending: nat, timeout: int, steps: seq<Step>)
    requires Run(Initial(maxPending, timeout), steps).Some?
    ensures Run(Initial(maxPending, timeout), steps).value.maxPending == maxPending
    ensures Run(Initial(maxPending, timeout), steps).value.timeout == timeout
  {
    if steps != [] {
      SameBounds(maxPending, timeout, steps[..|steps| - 1]);
      var s, step := Run(Initial(maxPending, timeout), steps[..|steps| - 1]).value, steps[|steps| - 1];
      if step.DoWait? { MatchKeepsBounds(Arrive(Purge(s), step.w)); }
      if step.DoSubmit? { MatchKeepsBounds(Enqueue(Purge(s), step.id, step.sink, step.peerId)); }
    }
  }

  lemma {:induction false} MatchKeepsBounds(s: State)
    ensures MatchAll(s).maxPending == s.maxPending && MatchAll(s).timeout == s.timeout
    decreases |s.waiters|
  {
    if s.waiters != [] && s.unassigned != [] {
      var w, id := s.waiters[0], s.unassigned[0];
      var rest := s.(waiters := s.waiters[1..], unassigned := s.unassigned[1..]);
      if id !in s.requests || s.requests[id].phase != Queued {
        MatchKeepsBounds(rest);
      } else {
        MatchKeepsBounds(Assign(rest, w, id));
      }
    }
  }
}
