/**
 Every submitted request's response sink is called at most once and with its own
 peer id; exactly once or on its way once the request has left, unless it was
 cancelled, and then never.
 */
module RendezvousReplies {
  import opened Prelude
  import opened Sequences
  import opened RendezvousSpec
  import opened RendezvousQueues

  // ---- counting ----

  function Count<T>(xs: seq<T>, p: T -> bool): nat {
    if xs == [] then 0 else Count(xs[..|xs| - 1], p) + (if p(xs[|xs| - 1]) then 1 else 0)
  }

  lemma {:induction false} CountAppend<T>(a: seq<T>, b: seq<T>, p: T -> bool)
    ensures Count(a + b, p) == Count(a, p) + Count(b, p)
  {
    if b == [] {
      PlusNothing(a);
    } else {
      LastOfSum(a, b);
      CountAppend(a, b[..|b| - 1], p);
    }
  }

  lemma CountOne<T>(x: T, p: T -> bool)
    ensures Count([x], p) == if p(x) then 1 else 0
  {
    assert [x][..0] == [];
  }

  lemma CountInsert<T>(a: seq<T>, x: T, b: seq<T>, p: T -> bool)
    ensures Count(a + [x] + b, p) == Count(a + b, p) + (if p(x) then 1 else 0)
  {
    CountAppend(a + [x], b, p);
    CountAppend(a, [x], p);
    CountAppend(a, b, p);
    CountOne(x, p);
  }

  lemma CountRemove<T>(xs: seq<T>, k: nat, p: T -> bool)
    requires k < |xs|
    ensures Count(xs, p) == Count(xs[..k] + xs[k + 1..], p) + (if p(xs[k]) then 1 else 0)
  {
    Cut(xs, k);
    CountInsert(xs[..k], xs[k], xs[k + 1..], p);
  }

  lemma {:induction false} CountNone<T>(xs: seq<T>, p: T -> bool)
    requires forall i :: 0 <= i < |xs| ==> !p(xs[i])
    ensures Count(xs, p) == 0
  {
    if xs != [] { CountNone(xs[..|xs| - 1], p); }
  }

  lemma {:induction false} CountPositive<T>(xs: seq<T>, p: T -> bool, i: nat)
    requires i < |xs| && p(xs[i])
    ensures Count(xs, p) >= 1
    decreases |xs|
  {
    if i < |xs| - 1 { CountPositive(xs[..|xs| - 1], p, i); }
  }

  lemma {:induction false} CountWitness<T>(xs: seq<T>, p: T -> bool) returns (i: nat)
    requires Count(xs, p) >= 1
    ensures i < |xs| && p(xs[i])
  {
    if p(xs[|xs| - 1]) { i := |xs| - 1; } else { i := CountWitness(xs[..|xs| - 1], p); }
  }

  // ---- who is owed what ----

  function ReplyTo(k: Sink): Task -> bool {
    (t: Task) => t.Reply? && t.sink == k
  }

  function RepliedTo(k: Sink): Event -> bool {
    (e: Event) => e.Replied? && e.sink == k
  }

  /** Responses made to a sink and responses on their way. */
  function Responses(s: State, k: Sink): nat {
    Count(s.tasks, ReplyTo(k)) + Count(s.trace.log, RepliedTo(k))
  }

  /** None while the request is outstanding or once it is cancelled, one otherwise; a refused submit has one. */
  function Expected(s: State, k: Sink): nat {
    if k !in s.trace.sinks then 0
    else if k !in s.trace.accepted then 1
    else if s.trace.accepted[k] in s.requests || s.trace.accepted[k] in s.trace.cancelled then 0
    else 1
  }

  ghost predicate Owed(s: State) {
    forall k: Sink :: Responses(s, k) == Expected(s, k)
  }

  /** Sinks and request ids belong together one to one. */
  ghost predicate Paired(s: State) {
    && (forall k :: k in s.trace.accepted ==> k in s.trace.sinks && s.trace.accepted[k] in s.trace.order)
    && (forall k, l ::
          k in s.trace.accepted && l in s.trace.accepted && s.trace.accepted[k] == s.trace.accepted[l] ==> k == l)
    && (forall id :: id in s.requests ==>
          var p := s.requests[id];
          p.sink in s.trace.accepted && s.trace.accepted[p.sink] == id && s.trace.sinks[p.sink] == p.peerId)
  }

  ghost predicate ProperTask(t: Task, s: State) {
    t.Reply? ==>
      && t.sink in s.trace.sinks && t.peerId == s.trace.sinks[t.sink]
      && (t.kind == Answer ==> t.forId.Some?)
      && (t.forId.Some? ==> t.sink in s.trace.accepted && s.trace.accepted[t.sink] == t.forId.value)
  }

  ghost predicate ProperEvent(e: Event, s: State) {
    e.Replied? ==>
      && e.sink in s.trace.sinks && e.peerId == s.trace.sinks[e.sink]
      && (e.forId.Some? ==> e.sink in s.trace.accepted && s.trace.accepted[e.sink] == e.forId.value)
  }

  /** Every call of a sink, made or to come, carries the peer id of its own submit. */
  ghost predicate Proper(s: State) {
    && (forall i :: 0 <= i < |s.tasks| ==> ProperTask(s.tasks[i], s))
    && (forall i :: 0 <= i < |s.trace.log| ==> ProperEvent(s.trace.log[i], s))
  }

  ghost predicate ReplyInv(s: State) {
    Paired(s) && Proper(s) && Owed(s)
  }

  // ---- the moves a step is made of ----

  /** Sinks, ids and who is outstanding stay as they are. */
  ghost predicate SameSinks(s: State, n: State) {
    && n.trace.sinks == s.trace.sinks && n.trace.accepted == s.trace.accepted
    && n.trace.order == s.trace.order && n.trace.cancelled == s.trace.cancelled
  }

  ghost predicate SamePending(s: State, n: State) {
    && n.requests.Keys == s.requests.Keys
    && (forall id :: id in s.requests ==>
          n.requests[id].sink == s.requests[id].sink && n.requests[id].peerId == s.requests[id].peerId)
  }

  ghost predicate NoReplies(tasks: seq<Task>) {
    forall i :: 0 <= i < |tasks| ==> !tasks[i].Reply?
  }

  /** More tasks, none of them a reply. */
  lemma OtherTasks(s: State, n: State, more: seq<Task>)
    requires ReplyInv(s) && SameSinks(s, n) && SamePending(s, n)
    requires n.tasks == s.tasks + more && NoReplies(more) && n.trace.log == s.trace.log
    ensures ReplyInv(n)
  {
    forall k: Sink ensures Responses(n, k) == Expected(n, k) {
      CountAppend(s.tasks, more, ReplyTo(k));
      CountNone(more, ReplyTo(k));
      assert Responses(s, k) == Expected(s, k);
    }
    TasksStayProper(s, n, more);
  }

  lemma TasksStayProper(s: State, n: State, more: seq<Task>)
    requires Proper(s) && n.trace.sinks == s.trace.sinks && n.trace.accepted == s.trace.accepted
    requires n.tasks == s.tasks + more && n.trace.log == s.trace.log
    requires forall i :: 0 <= i < |more| ==> ProperTask(more[i], s)
    ensures Proper(n)
  {
    forall i | 0 <= i < |n.tasks| ensures ProperTask(n.tasks[i], n) {
      if i < |s.tasks| { assert ProperTask(s.tasks[i], s); } else { assert ProperTask(more[i - |s.tasks|], s); }
    }
    forall i | 0 <= i < |n.trace.log| ensures ProperEvent(n.trace.log[i], n) {
      assert ProperEvent(s.trace.log[i], s);
    }
  }

  /** A request leaves with one reply scheduled for its sink. */
  lemma LeaveWithReply(s: State, n: State, id: Id, reply: Task)
    requires ReplyInv(s) && SameSinks(s, n) && id in s.requests && n.requests == s.requests - {id}
    requires id !in s.trace.cancelled
    requires reply.Reply? && reply.sink == s.requests[id].sink && ProperTask(reply, s)
    requires n.tasks == s.tasks + [reply] && n.trace.log == s.trace.log
    ensures ReplyInv(n)
  {
    forall k: Sink ensures Responses(n, k) == Expected(n, k) {
      CountAppend(s.tasks, [reply], ReplyTo(k));
      CountOne(reply, ReplyTo(k));
      assert Responses(s, k) == Expected(s, k);
    }
    TasksStayProper(s, n, [reply]);
  }

  /** A cancelled request leaves with none. */
  lemma LeaveSilently(s: State, n: State, id: Id, more: seq<Task>)
    requires ReplyInv(s) && id in s.requests && n.requests == s.requests - {id}
    requires n.trace.sinks == s.trace.sinks && n.trace.accepted == s.trace.accepted && n.trace.order == s.trace.order
    requires n.trace.cancelled == s.trace.cancelled + {id}
    requires n.tasks == s.tasks + more && NoReplies(more) && n.trace.log == s.trace.log
    ensures ReplyInv(n)
  {
    forall k: Sink ensures Responses(n, k) == Expected(n, k) {
      CountAppend(s.tasks, more, ReplyTo(k));
      CountNone(more, ReplyTo(k));
      assert Responses(s, k) == Expected(s, k);
    }
    TasksStayProper(s, n, more);
  }

  /** A refused submit: its sink gets one reply. */
  lemma RefuseSubmit(s: State, n: State, sink: Sink, peerId: PeerId)
    requires ReplyInv(s) && sink !in s.trace.sinks
    requires n.trace.sinks == s.trace.sinks[sink := peerId] && n.trace.accepted == s.trace.accepted
    requires n.trace.order == s.trace.order && n.trace.cancelled == s.trace.cancelled && n.requests == s.requests
    requires n.tasks == s.tasks + [Reply(sink, peerId, Refused, None, None)] && n.trace.log == s.trace.log
    ensures ReplyInv(n)
  {
    var reply := Reply(sink, peerId, Refused, None, None);
    NoneYet(s, sink);
    forall k: Sink ensures Responses(n, k) == Expected(n, k) {
      CountAppend(s.tasks, [reply], ReplyTo(k));
      CountOne(reply, ReplyTo(k));
      assert Responses(s, k) == Expected(s, k);
    }
    NewSinkStaysProper(s, n, sink, [reply]);
  }

  lemma NoneYet(s: State, sink: Sink)
    requires ReplyInv(s) && sink !in s.trace.sinks
    ensures sink !in s.trace.accepted && Responses(s, sink) == 0
  {
    assert Responses(s, sink) == Expected(s, sink);
  }

  lemma NewSinkStaysProper(s: State, n: State, sink: Sink, more: seq<Task>)
    requires Proper(s) && sink !in s.trace.sinks
    requires forall k :: k in s.trace.sinks ==> k in n.trace.sinks && n.trace.sinks[k] == s.trace.sinks[k]
    requires forall k :: k in s.trace.accepted ==> k in n.trace.accepted && n.trace.accepted[k] == s.trace.accepted[k]
    requires n.tasks == s.tasks + more && n.trace.log == s.trace.log
    requires forall i :: 0 <= i < |more| ==> ProperTask(more[i], n)
    ensures Proper(n)
  {
    forall i | 0 <= i < |n.tasks| ensures ProperTask(n.tasks[i], n) {
      if i < |s.tasks| { assert ProperTask(s.tasks[i], s); } else { assert ProperTask(more[i - |s.tasks|], n); }
    }
    forall i | 0 <= i < |n.trace.log| ensures ProperEvent(n.trace.log[i], n) {
      assert ProperEvent(s.trace.log[i], s);
    }
  }

  /** An accepted submit owes nothing yet. */
  lemma AcceptSubmit(s: State, id: Id, sink: Sink, peerId: PeerId)
    requires ReplyInv(s) && sink !in s.trace.sinks && id !in s.trace.order && id !in s.requests
    ensures ReplyInv(Enqueue(s, id, sink, peerId))
  {
    var n := Enqueue(s, id, sink, peerId);
    NoneYet(s, sink);
    forall k: Sink ensures Responses(n, k) == Expected(n, k) {
      assert Responses(s, k) == Expected(s, k);
      if k in s.trace.accepted { assert s.trace.accepted[k] in s.trace.order; }
    }
    assert n.tasks == s.tasks + [];
    NewSinkStaysProper(s, n, sink, []);
  }

  /** Matching changes phases and hands out work. */
  lemma {:induction false} MatchKeepsReplies(s: State)
    requires ReplyInv(s)
    ensures ReplyInv(MatchAll(s))
    decreases |s.waiters|
  {
    if s.waiters != [] && s.unassigned != [] {
      var w, id := s.waiters[0], s.unassigned[0];
      var rest := s.(waiters := s.waiters[1..], unassigned := s.unassigned[1..]);
      assert rest.tasks == s.tasks + [];
      OtherTasks(s, rest, []);
      if id !in s.requests || s.requests[id].phase != Queued {
        MatchKeepsReplies(rest);
      } else {
        OtherTasks(rest, Assign(rest, w, id), [GiveWork(w, id)]);
        MatchKeepsReplies(Assign(rest, w, id));
      }
    }
  }

  /** A reply made counts in the log what it counted among the tasks. */
  lemma DeliverKeepsReplies(s: State, k: nat, ok: bool)
    requires ReplyInv(s) && k < |s.tasks|
    ensures ReplyInv(Deliver(s, k, ok))
  {
    var n := Deliver(s, k, ok);
    var t := s.tasks[k];
    var rest, more, events := s.tasks[..k] + s.tasks[k + 1..], FollowUps(t, ok), EventsOf(t, ok);
    assert NoReplies(more);
    forall q: Sink ensures Responses(n, q) == Expected(n, q) {
      CountRemove(s.tasks, k, ReplyTo(q));
      CountAppend(rest, more, ReplyTo(q));
      CountNone(more, ReplyTo(q));
      CountAppend(s.trace.log, events, RepliedTo(q));
      CountEvents(t, ok, q);
      assert Responses(s, q) == Expected(s, q);
    }
    DeliverStaysProper(s, k, ok);
  }

  lemma CountEvents(t: Task, ok: bool, q: Sink)
    ensures Count(EventsOf(t, ok), RepliedTo(q)) == if ReplyTo(q)(t) then 1 else 0
  {
    var events := EventsOf(t, ok);
    if events != [] { CountOne(events[0], RepliedTo(q)); }
  }

  lemma DeliverStaysProper(s: State, k: nat, ok: bool)
    requires Proper(s) && k < |s.tasks|
    ensures Proper(Deliver(s, k, ok))
  {
    var n := Deliver(s, k, ok);
    var t := s.tasks[k];
    assert ProperTask(t, s);
    forall i | 0 <= i < |n.tasks| ensures ProperTask(n.tasks[i], n) {
      if i < k { assert ProperTask(s.tasks[i], s); }
      else if i < |s.tasks| - 1 { assert ProperTask(s.tasks[i + 1], s); }
    }
    forall i | 0 <= i < |n.trace.log| ensures ProperEvent(n.trace.log[i], n) {
      if i < |s.trace.log| { assert ProperEvent(s.trace.log[i], s); }
    }
  }

  // ---- stop ----

  /** Stopping schedules one reply for each outstanding request. */
  lemma {:induction false} CountHalts(s: State, ids: seq<Id>, k: Sink)
    requires Paired(s) && Distinct(ids) && forall id :: id in ids ==> id in s.requests
    ensures Count(HaltAll(s.requests, ids), ReplyTo(k))
         == if k in s.trace.accepted && s.trace.accepted[k] in ids then 1 else 0
  {
    if ids != [] {
      var most, id := ids[..|ids| - 1], ids[|ids| - 1];
      DistinctLast(ids);
      CountHalts(s, most, k);
      var halt := HaltOf(s.requests[id], id);
      CountAppend(HaltAll(s.requests, most), [halt], ReplyTo(k));
      CountOne(halt, ReplyTo(k));
    }
  }

  lemma {:induction false} HaltsAreProper(s: State, ids: seq<Id>)
    requires Paired(s) && forall id :: id in ids ==> id in s.requests
    ensures forall i :: 0 <= i < |HaltAll(s.requests, ids)| ==> ProperTask(HaltAll(s.requests, ids)[i], s)
  {
    if ids != [] {
      assert ids[|ids| - 1] in ids;
      HaltsAreProper(s, ids[..|ids| - 1]);
    }
  }

  lemma {:induction false} NoticesAreNoReplies(waiters: seq<Call>, requests: map<Id, Pending>, ids: seq<Id>)
    ensures NoReplies(FailAll(waiters)) && NoReplies(TellAll(requests, ids))
    decreases |waiters| + |ids|
  {
    if waiters != [] { NoticesAreNoReplies(waiters[..|waiters| - 1], requests, ids); }
    else if ids != [] { NoticesAreNoReplies(waiters, requests, ids[..|ids| - 1]); }
    if waiters != [] && ids != [] { NoticesAreNoReplies([], requests, ids); }
  }

  lemma StopKeepsReplies(s: State, ids: seq<Id>)
    requires ReplyInv(s) && Distinct(ids) && (set id | id in ids) == s.requests.Keys
    requires forall id :: id in s.trace.cancelled ==> id !in s.requests
    ensures ReplyInv(Stop(s, ids))
  {
    var n := Stop(s, ids);
    var notices, halts := FailAll(s.waiters) + TellAll(s.requests, ids), HaltAll(s.requests, ids);
    NoticesAreNoReplies(s.waiters, s.requests, ids);
    assert forall id :: id in ids <==> id in (set id | id in ids);
    forall k: Sink ensures Responses(n, k) == Expected(n, k) {
      CountAppend(s.tasks, notices + halts, ReplyTo(k));
      CountAppend(notices, halts, ReplyTo(k));
      CountNone(notices, ReplyTo(k));
      CountHalts(s, ids, k);
      assert Responses(s, k) == Expected(s, k);
    }
    HaltsAreProper(s, ids);
    TasksStayProper(s, n, notices + halts);
  }

  // ---- every step, every run ----

  lemma PurgeKeepsReplies(s: State)
    requires ReplyInv(s)
    ensures ReplyInv(Purge(s))
  {
    assert s.tasks == s.tasks + [];
    OtherTasks(s, Purge(s), []);
  }

  /** Sections that only add notices and match. */
  lemma WaitKeepsReplies(s: State, w: Call)
    requires ReplyInv(s)
    ensures ReplyInv(Wait(s, w))
  {
    var p := Purge(s);
    PurgeKeepsReplies(s);
    if p.stopped || |p.waiters| >= p.maxPending {
      OtherTasks(p, Wait(s, w), [FailWaiter(w)]);
    } else {
      assert p.tasks == p.tasks + [];
      OtherTasks(p, Arrive(p, w), []);
      MatchKeepsReplies(Arrive(p, w));
    }
  }

  lemma SubmitKeepsReplies(s: State, id: Id, sink: Sink, peerId: PeerId)
    requires ReplyInv(s) && sink !in s.trace.sinks && id !in s.trace.order && id !in s.requests
    ensures ReplyInv(Submit(s, id, sink, peerId))
  {
    var p := Purge(s);
    PurgeKeepsReplies(s);
    if p.stopped || |p.requests| >= p.maxPending {
      RefuseSubmit(p, Submit(s, id, sink, peerId), sink, peerId);
    } else {
      AcceptSubmit(p, id, sink, peerId);
      MatchKeepsReplies(Enqueue(p, id, sink, peerId));
    }
  }

  /** A watcher changes no sink and owes none. */
  lemma WatchIsOther(s: State, w: Call, id: Id) returns (more: seq<Task>)
    ensures SameSinks(s, WaitCancel(s, w, id)) && SamePending(s, WaitCancel(s, w, id))
    ensures WaitCancel(s, w, id).tasks == s.tasks + more && NoReplies(more)
    ensures WaitCancel(s, w, id).trace.log == s.trace.log
  {
    var p := Purge(s);
    assert s.tasks == s.tasks + [];
    more := if id in p.requests then
              (if p.requests[id].phase == Assigned && p.requests[id].watcher.None? then [] else [FailWatcher(w)])
            else if id in p.terminal then [TellLate(w, id, p.terminal[id].phase)]
            else [FailWatcher(w)];
    assert WaitCancel(s, w, id).requests.Keys == s.requests.Keys;
  }

  lemma WaitCancelKeepsReplies(s: State, w: Call, id: Id)
    requires ReplyInv(s)
    ensures ReplyInv(WaitCancel(s, w, id))
  {
    var more := WatchIsOther(s, w, id);
    OtherTasks(s, WaitCancel(s, w, id), more);
  }

  lemma RespondKeepsReplies(s: State, id: Id)
    requires ReplyInv(s) && (id in s.requests ==> id !in s.trace.cancelled)
    ensures ReplyInv(Respond(s, id))
  {
    var p := Purge(s);
    PurgeKeepsReplies(s);
    if id in p.requests && p.requests[id].phase == Assigned {
      var q := p.requests[id];
      LeaveWithReply(p, Respond(s, id), id, Reply(q.sink, q.peerId, Answer, Some(id), q.watcher));
    }
  }

  lemma CancelKeepsReplies(s: State, id: Id)
    requires ReplyInv(s)
    ensures ReplyInv(Cancel(s, id))
  {
    var p := Purge(s);
    PurgeKeepsReplies(s);
    if id in p.requests && (p.requests[id].phase == Queued || p.requests[id].phase == Assigned) {
      var q := p.requests[id];
      LeaveSilently(p, Cancel(s, id), id, if q.watcher.Some? then [Tell(q.watcher.value, id, Cancelled, true)] else []);
    }
  }

  lemma ExpireKeepsReplies(s: State, id: Id)
    requires ReplyInv(s) && (id in s.requests ==> id !in s.trace.cancelled)
    ensures ReplyInv(Expire(s, id))
  {
    if id in s.requests && !s.stopped && s.requests[id].phase == Queued {
      var q := s.requests[id];
      LeaveWithReply(s, Expire(s, id), id, Reply(q.sink, q.peerId, Expired, Some(id), None));
    }
  }

  lemma PassKeepsReplies(s: State, seconds: nat)
    requires ReplyInv(s)
    ensures ReplyInv(Next(s, DoPass(seconds)))
  {
    assert s.tasks == s.tasks + [];
    OtherTasks(s, Next(s, DoPass(seconds)), []);
  }

  lemma NextKeepsReplies(s: State, step: Step)
    requires Known(s) && ReplyInv(s) && Legal(s, step)
    ensures ReplyInv(Next(s, step))
  {
    match step
    case DoWait(w) => WaitKeepsReplies(s, w);
    case DoSubmit(id, sink, peerId) => SubmitKeepsReplies(s, id, sink, peerId);
    case DoWaitCancel(w, id) => WaitCancelKeepsReplies(s, w, id);
    case DoRespond(id) => RespondKeepsReplies(s, id);
    case DoCancel(id) => CancelKeepsReplies(s, id);
    case DoExpire(id) => ExpireKeepsReplies(s, id);
    case DoStop(ids) => StopKeepsReplies(s, ids);
    case DoDeliver(k, ok) => DeliverKeepsReplies(s, k, ok);
    case DoPass(seconds) => PassKeepsReplies(s, seconds);
  }

  lemma {:induction false} RepliesInEveryRun(maxPending: nat, timeout: int, steps: seq<Step>)
    requires Run(Initial(maxPending, timeout), steps).Some?
    ensures QueueInv(Run(Initial(maxPending, timeout), steps).value)
    ensures ReplyInv(Run(Initial(maxPending, timeout), steps).value)
  {
    QueuesInEveryRun(maxPending, timeout, steps);
    if steps != [] {
      RepliesInEveryRun(maxPending, timeout, steps[..|steps| - 1]);
      NextKeepsReplies(Run(Initial(maxPending, timeout), steps[..|steps| - 1]).value, steps[|steps| - 1]);
    }
  }

  /**
   Over all interleavings: a sink is called at most once and with its own peer
   id; a request that has left has exactly one reply made or scheduled, a
   cancelled one none, an outstanding one none yet.
   */
  lemma OneReplyPerRequest(maxPending: nat, timeout: int, steps: seq<Step>, k: Sink)
    requires Run(Initial(maxPending, timeout), steps).Some?
    requires k in Run(Initial(maxPending, timeout), steps).value.trace.sinks
    ensures var s := Run(Initial(maxPending, timeout), steps).value;
            && Count(s.trace.log, RepliedTo(k)) <= 1
            && (k in s.trace.accepted ==>
                  (Responses(s, k) == 1 <==>
                     s.trace.accepted[k] !in s.requests && s.trace.accepted[k] !in s.trace.cancelled)
                  && (Responses(s, k) == 0 <==>
                        s.trace.accepted[k] in s.requests || s.trace.accepted[k] in s.trace.cancelled))
            && (k !in s.trace.accepted ==> Responses(s, k) == 1)
            && (forall i :: 0 <= i < |s.trace.log| && RepliedTo(k)(s.trace.log[i]) ==>
                  s.trace.log[i].peerId == s.trace.sinks[k])
  {
    RepliesInEveryRun(maxPending, timeout, steps);
    var s := Run(Initial(maxPending, timeout), steps).value;
    assert Responses(s, k) == Expected(s, k);
    forall i | 0 <= i < |s.trace.log| && RepliedTo(k)(s.trace.log[i])
      ensures s.trace.log[i].peerId == s.trace.sinks[k]
    {
      assert ProperEvent(s.trace.log[i], s);
    }
  }
}
