/**
 The rendezvous as two queues: what is assigned, to whom and in which order, and
 what the pools may hold.
 */
module RendezvousQueues {
  import opened RendezvousSpec
  import opened Sequences

  function Firsts(pairs: seq<(Call, Id)>): seq<Call> {
    seq(|pairs|, i requires 0 <= i < |pairs| => pairs[i].0)
  }

  function Seconds(pairs: seq<(Call, Id)>): seq<Id> {
    seq(|pairs|, i requires 0 <= i < |pairs| => pairs[i].1)
  }

  /** The ids in order, without those in the set. */
  function Undropped(order: seq<Id>, dropped: set<Id>): (r: seq<Id>)
    ensures forall id :: id in r <==> id in order && id !in dropped
  {
    if order == [] then []
    else if order[0] in dropped then Undropped(order[1..], dropped)
    else [order[0]] + Undropped(order[1..], dropped)
  }

  ghost predicate Known(s: State) {
    && Distinct(s.trace.order)
    && (forall id :: id in s.requests ==> id in s.trace.order)
    && (forall id :: id in s.requests ==> s.requests[id].phase == Queued || s.requests[id].phase == Assigned)
    && (forall id :: id in s.trace.dropped ==> id in s.trace.order && id !in s.requests)
    && (forall id :: id in s.trace.cancelled ==> id in s.trace.order && id !in s.requests)
  }

  /** The unassigned queue holds exactly the queued requests. */
  ghost predicate QueuedExactly(s: State) {
    forall id :: id in s.unassigned <==> id in s.requests && s.requests[id].phase == Queued
  }

  ghost predicate Bounded(s: State) {
    && |s.waiters| <= s.maxPending && |s.requests| <= s.maxPending
    && (s.waiters == [] || s.unassigned == [])
    && (s.stopped ==> s.waiters == [] && s.unassigned == [] && s.requests == map[])
  }

  /**
   First come, first served on both sides: waiters leave only from the front, by
   assignment or all at once when the rendezvous stops; requests are assigned in
   the order they were submitted, skipping those that left while still queued.
   */
  ghost predicate Served(s: State) {
    && s.trace.arrived == Firsts(s.trace.matched) + s.waiters + s.trace.turnedAway
    && (s.trace.turnedAway != [] ==> s.stopped)
    && Undropped(s.trace.order, s.trace.dropped) == Seconds(s.trace.matched) + s.unassigned
  }

  ghost predicate QueueInv(s: State) {
    Known(s) && QueuedExactly(s) && Bounded(s) && Served(s)
  }

  lemma DistinctLast(ids: seq<Id>)
    requires Distinct(ids) && ids != []
    ensures var most, last := ids[..|ids| - 1], ids[|ids| - 1];
            && Distinct(most) && last !in most
            && forall id :: id in ids <==> id in most || id == last
  {
    var most, last := ids[..|ids| - 1], ids[|ids| - 1];
    PrefixGrows(ids, |ids| - 1);
    forall id ensures id in ids <==> id in most || id == last {
      assert ids == most + [last];
    }
  }

  // ---- matching ----

  /** Between two sections one queue is empty, so one arrival makes at most one match and never meets a stale id. */
  lemma MatchesAtMostOnce(s: State)
    requires QueuedExactly(s) && (|s.waiters| <= 1 || |s.unassigned| <= 1)
    ensures MatchAll(s)
         == if s.waiters == [] || s.unassigned == [] then s
            else Assign(s.(waiters := s.waiters[1..], unassigned := s.unassigned[1..]), s.waiters[0], s.unassigned[0])
  {
    if s.waiters != [] && s.unassigned != [] {
      assert s.unassigned[0] in s.unassigned;
      var rest := Assign(s.(waiters := s.waiters[1..], unassigned := s.unassigned[1..]), s.waiters[0], s.unassigned[0]);
      assert MatchAll(rest) == rest;
    }
  }

  lemma PairsAppend(pairs: seq<(Call, Id)>, w: Call, id: Id)
    ensures Firsts(pairs + [(w, id)]) == Firsts(pairs) + [w]
    ensures Seconds(pairs + [(w, id)]) == Seconds(pairs) + [id]
  {
  }

  lemma {:induction false} UndroppedAppend(order: seq<Id>, dropped: set<Id>, id: Id)
    requires id !in dropped
    ensures Undropped(order + [id], dropped) == Undropped(order, dropped) + [id]
  {
    if order != [] {
      assert (order + [id])[1..] == order[1..] + [id];
      UndroppedAppend(order[1..], dropped, id);
    }
  }

  lemma {:induction false} UndroppedDistinct(order: seq<Id>, dropped: set<Id>)
    requires Distinct(order)
    ensures Distinct(Undropped(order, dropped))
  {
    if order != [] {
      UndroppedDistinct(order[1..], dropped);
      var rest := Undropped(order[1..], dropped);
      forall j | 0 <= j < |rest| ensures rest[j] != order[0] {
        assert rest[j] in rest;
      }
    }
  }

  lemma {:induction false} DropOne(order: seq<Id>, dropped: set<Id>, id: Id)
    requires Distinct(order)
    ensures Undropped(order, dropped + {id}) == Remove(Undropped(order, dropped), id)
  {
    if order != [] {
      DropOne(order[1..], dropped, id);
      if order[0] == id && id !in dropped {
        assert id !in order[1..];
        SameUndropped(order[1..], dropped, id);
      }
    }
  }

  lemma {:induction false} SameUndropped(order: seq<Id>, dropped: set<Id>, id: Id)
    requires id !in order
    ensures Undropped(order, dropped + {id}) == Undropped(order, dropped)
  {
    if order != [] { SameUndropped(order[1..], dropped, id); }
  }

  lemma {:induction false} RemoveBehind(a: seq<Id>, b: seq<Id>, id: Id)
    requires id !in a
    ensures Remove(a + b, id) == a + Remove(b, id)
  {
    if a == [] {
      assert a + b == b;
    } else {
      assert (a + b)[1..] == a[1..] + b;
      RemoveBehind(a[1..], b, id);
    }
  }

  lemma {:induction false} RemoveFromDistinct(q: seq<Id>, id: Id)
    requires Distinct(q)
    ensures forall x :: x in Remove(q, id) <==> x in q && x != id
  {
    if q != [] {
      RemoveFromDistinct(q[1..], id);
      if q[0] == id { assert id !in q[1..]; }
    }
  }

  /** Dropping a whole tail of the undropped ids leaves the front. */
  lemma {:induction false} DropTail(order: seq<Id>, dropped: set<Id>, front: seq<Id>, tail: seq<Id>)
    requires Undropped(order, dropped) == front + tail
    requires forall id :: id in front ==> id !in tail
    ensures Undropped(order, dropped + (set id | id in tail)) == front
  {
    var gone := set id | id in tail;
    if order == [] {
      assert front == [];
    } else if order[0] in dropped {
      DropTail(order[1..], dropped, front, tail);
    } else if front == [] {
      PlusNothing(tail);
      assert tail[0] == order[0] && tail[0] in tail;
      assert ([order[0]] + Undropped(order[1..], dropped))[1..] == Undropped(order[1..], dropped);
      DropMore(order[1..], dropped, tail[1..], tail);
    } else {
      assert (front + tail)[1..] == front[1..] + tail;
      assert front[0] in front;
      DropTail(order[1..], dropped, front[1..], tail);
    }
  }

  lemma {:induction false} DropMore(order: seq<Id>, dropped: set<Id>, left: seq<Id>, tail: seq<Id>)
    requires Undropped(order, dropped) == left
    requires forall id :: id in left ==> id in tail
    ensures Undropped(order, dropped + (set id | id in tail)) == []
  {
    if order != [] {
      if order[0] in dropped {
        DropMore(order[1..], dropped, left, tail);
      } else {
        assert order[0] == left[0] && left[0] in left;
        assert ([order[0]] + Undropped(order[1..], dropped))[1..] == Undropped(order[1..], dropped);
        DropMore(order[1..], dropped, left[1..], tail);
      }
    }
  }

  // ---- the invariant, step by step ----

  /** What the order of service implies: no id waits twice, none waits that was assigned before. */
  lemma UnassignedAreFresh(s: State)
    requires Distinct(s.trace.order) && Served(s)
    ensures Distinct(s.unassigned)
    ensures forall id :: id in Seconds(s.trace.matched) ==> id !in s.unassigned
  {
    var u, k := Undropped(s.trace.order, s.trace.dropped), |s.trace.matched|;
    UndroppedDistinct(s.trace.order, s.trace.dropped);
    var front := Seconds(s.trace.matched);
    assert |front| == k;
    SplitDistinct(u, front, s.unassigned);
  }

  lemma SplitDistinct(u: seq<Id>, a: seq<Id>, b: seq<Id>)
    requires Distinct(u) && u == a + b
    ensures Distinct(b) && forall id :: id in a ==> id !in b
  {
    assert forall j :: 0 <= j < |b| ==> b[j] == u[|a| + j];
    assert forall i :: 0 <= i < |a| ==> a[i] == u[i];
  }

  function Popped(s: State): State
    requires s.waiters != [] && s.unassigned != []
  {
    s.(waiters := s.waiters[1..], unassigned := s.unassigned[1..])
  }

  ghost predicate BeforeMatch(s: State) {
    && Known(s) && QueuedExactly(s) && Served(s)
    && |s.waiters| <= s.maxPending && |s.requests| <= s.maxPending && !s.stopped
    && (|s.waiters| <= 1 || |s.unassigned| <= 1)
  }

  lemma AssignKeepsKnown(s: State)
    requires BeforeMatch(s) && s.waiters != [] && s.unassigned != []
    ensures s.unassigned[0] in s.requests
    ensures var n := Assign(Popped(s), s.waiters[0], s.unassigned[0]);
            Known(n) && n.requests.Keys == s.requests.Keys && |n.requests| <= s.maxPending
  {
    assert s.unassigned[0] in s.unassigned;
    var n := Assign(Popped(s), s.waiters[0], s.unassigned[0]);
    assert n.requests.Keys == s.requests.Keys;
    assert |n.requests| == |n.requests.Keys| && |s.requests| == |s.requests.Keys|;
  }

  lemma AssignKeepsQueued(s: State)
    requires BeforeMatch(s) && s.waiters != [] && s.unassigned != [] && s.unassigned[0] in s.requests
    ensures QueuedExactly(Assign(Popped(s), s.waiters[0], s.unassigned[0]))
  {
    UnassignedAreFresh(s);
    var q := s.unassigned;
    assert forall x :: x in q <==> x == q[0] || x in q[1..];
    assert q[0] !in q[1..];
  }

  lemma Shift<T>(a: seq<T>, b: seq<T>)
    requires b != []
    ensures a + b == (a + [b[0]]) + b[1..]
  {
  }

  lemma AssignKeepsServed(s: State)
    requires BeforeMatch(s) && s.waiters != [] && s.unassigned != [] && s.unassigned[0] in s.requests
    ensures Served(Assign(Popped(s), s.waiters[0], s.unassigned[0]))
  {
    PairsAppend(s.trace.matched, s.waiters[0], s.unassigned[0]);
    Shift(Firsts(s.trace.matched), s.waiters);
    Shift(Seconds(s.trace.matched), s.unassigned);
  }

  lemma MatchKeeps(s: State)
    requires BeforeMatch(s)
    ensures QueueInv(MatchAll(s))
  {
    MatchesAtMostOnce(s);
    if s.waiters != [] && s.unassigned != [] {
      AssignKeepsKnown(s);
      AssignKeepsQueued(s);
      AssignKeepsServed(s);
    }
  }

  lemma ArriveKeeps(s: State, w: Call)
    requires QueueInv(s) && !s.stopped && |s.waiters| < s.maxPending
    ensures QueueInv(MatchAll(Arrive(s, w)))
  {
    MatchKeeps(Arrive(s, w));
  }

  lemma EnqueueIsReady(s: State, id: Id, sink: Sink, peerId: PeerId)
    requires QueueInv(s) && !s.stopped && |s.requests| < s.maxPending && id !in s.trace.order
    ensures BeforeMatch(Enqueue(s, id, sink, peerId))
  {
    var e := Enqueue(s, id, sink, peerId);
    EnqueueKnown(s, id, sink, peerId);
    UndroppedAppend(s.trace.order, s.trace.dropped, id);
    assert Seconds(s.trace.matched) + s.unassigned + [id] == Seconds(s.trace.matched) + (s.unassigned + [id]);
    assert Served(e);
  }

  lemma EnqueueKnown(s: State, id: Id, sink: Sink, peerId: PeerId)
    requires Known(s) && QueuedExactly(s) && id !in s.trace.order && |s.requests| < s.maxPending
    ensures var e := Enqueue(s, id, sink, peerId);
            Known(e) && QueuedExactly(e) && |e.requests| <= s.maxPending
  {
    var e := Enqueue(s, id, sink, peerId);
    OneMore(s.requests, id, e.requests[id]);
    assert Known(e);
  }

  lemma OneMore(m: map<Id, Pending>, id: Id, p: Pending)
    requires id !in m
    ensures |m[id := p]| == |m| + 1
  {
    assert m[id := p].Keys == m.Keys + {id};
    assert |m[id := p]| == |m[id := p].Keys| && |m| == |m.Keys|;
  }

  lemma EnqueueKeeps(s: State, id: Id, sink: Sink, peerId: PeerId)
    requires QueueInv(s) && !s.stopped && |s.requests| < s.maxPending && id !in s.trace.order
    ensures QueueInv(MatchAll(Enqueue(s, id, sink, peerId)))
  {
    EnqueueIsReady(s, id, sink, peerId);
    MatchKeeps(Enqueue(s, id, sink, peerId));
  }

  /** Everything but the requests, the queue and what became of them is as before. */
  ghost predicate SameRest(s: State, n: State) {
    && n.waiters == s.waiters && n.stopped == s.stopped && n.maxPending == s.maxPending
    && n.trace.order == s.trace.order && n.trace.matched == s.trace.matched
    && n.trace.arrived == s.trace.arrived && n.trace.turnedAway == s.trace.turnedAway
  }

  /** A queued request leaves: the queue closes up behind it. */
  lemma LeaveQueueKeeps(s: State, n: State, id: Id)
    requires QueueInv(s) && id in s.requests && s.requests[id].phase == Queued && SameRest(s, n)
    requires n.requests == s.requests - {id} && n.unassigned == Remove(s.unassigned, id)
    requires n.trace.dropped == s.trace.dropped + {id}
    requires n.trace.cancelled == s.trace.cancelled || n.trace.cancelled == s.trace.cancelled + {id}
    ensures QueueInv(n)
  {
    UnassignedAreFresh(s);
    RemoveFromDistinct(s.unassigned, id);
    DropOne(s.trace.order, s.trace.dropped, id);
    RemoveBehind(Seconds(s.trace.matched), s.unassigned, id);
    SubsetSize(n.requests.Keys, s.requests.Keys);
    assert |n.requests| == |n.requests.Keys| && |s.requests| == |s.requests.Keys|;
  }

  lemma {:induction false} SubsetSize(a: set<Id>, b: set<Id>)
    requires a <= b
    ensures |a| <= |b|
  {
    if a != {} {
      var x :| x in a;
      SubsetSize(a - {x}, b - {x});
    }
  }

  /** An assigned request leaves: the queues do not notice. */
  lemma LeaveAssignedKeeps(s: State, n: State, id: Id)
    requires QueueInv(s) && id in s.requests && s.requests[id].phase == Assigned && SameRest(s, n)
    requires n.requests == s.requests - {id} && n.unassigned == s.unassigned
    requires n.trace.dropped == s.trace.dropped
    requires n.trace.cancelled == s.trace.cancelled || n.trace.cancelled == s.trace.cancelled + {id}
    ensures QueueInv(n)
  {
    SubsetSize(n.requests.Keys, s.requests.Keys);
    assert |n.requests| == |n.requests.Keys| && |s.requests| == |s.requests.Keys|;
  }

  /** Stopping drops what was still queued, so what is left of the order is what was served. */
  lemma StopDropsTheRest(s: State)
    requires Known(s) && Served(s)
    ensures Undropped(s.trace.order, s.trace.dropped + (set id | id in s.unassigned)) == Seconds(s.trace.matched)
  {
    UnassignedAreFresh(s);
    DropTail(s.trace.order, s.trace.dropped, Seconds(s.trace.matched), s.unassigned);
  }

  lemma StopServes(s: State, ids: seq<Id>)
    requires Known(s) && Served(s) && Bounded(s)
    ensures Served(Stop(s, ids))
  {
    StopDropsTheRest(s);
    PlusNothing(Seconds(s.trace.matched));
    PlusNothing(Firsts(s.trace.matched));
    if s.stopped {
      PlusNothing(s.trace.turnedAway);
    } else {
      PlusNothing(s.waiters);
      PlusNothing(Firsts(s.trace.matched) + s.waiters);
    }
  }

  lemma StopKeeps(s: State, ids: seq<Id>)
    requires QueueInv(s)
    ensures QueueInv(Stop(s, ids))
  {
    StopServes(s, ids);
    assert Stop(s, ids).requests.Keys == {};
  }

  /** Nothing the queues look at changed. */
  ghost predicate Alike(s: State, n: State) {
    && SameRest(s, n) && n.unassigned == s.unassigned
    && n.trace.dropped == s.trace.dropped && n.trace.cancelled == s.trace.cancelled
    && n.requests.Keys == s.requests.Keys
    && (forall id :: id in s.requests ==> n.requests[id].phase == s.requests[id].phase)
  }

  lemma SameQueues(s: State, n: State)
    requires QueueInv(s) && Alike(s, n)
    ensures QueueInv(n)
  {
    assert |n.requests| == |n.requests.Keys| && |s.requests| == |s.requests.Keys|;
  }

  lemma WaitKeeps(s: State, w: Call)
    requires QueueInv(s)
    ensures QueueInv(Wait(s, w))
  {
    var p := Purge(s);
    SameQueues(s, p);
    if p.stopped || |p.waiters| >= p.maxPending { SameQueues(p, Wait(s, w)); } else { ArriveKeeps(p, w); }
  }

  lemma SubmitKeeps(s: State, id: Id, sink: Sink, peerId: PeerId)
    requires QueueInv(s) && id !in s.trace.order
    ensures QueueInv(Submit(s, id, sink, peerId))
  {
    var p := Purge(s);
    SameQueues(s, p);
    if p.stopped || |p.requests| >= p.maxPending { SameQueues(p, Submit(s, id, sink, peerId)); }
    else { EnqueueKeeps(p, id, sink, peerId); }
  }

  lemma RespondKeeps(s: State, id: Id)
    requires QueueInv(s)
    ensures QueueInv(Respond(s, id))
  {
    var p := Purge(s);
    SameQueues(s, p);
    if id in p.requests && p.requests[id].phase == Assigned { LeaveAssignedKeeps(p, Respond(s, id), id); }
  }

  lemma CancelKeeps(s: State, id: Id)
    requires QueueInv(s)
    ensures QueueInv(Cancel(s, id))
  {
    var p := Purge(s);
    SameQueues(s, p);
    if id in p.requests {
      if p.requests[id].phase == Queued { LeaveQueueKeeps(p, Cancel(s, id), id); }
      else { assert id !in p.unassigned; LeaveAssignedKeeps(p, Cancel(s, id), id); }
    }
  }

  lemma ExpireKeeps(s: State, id: Id)
    requires QueueInv(s)
    ensures QueueInv(Expire(s, id))
  {
    if id in s.requests && !s.stopped && s.requests[id].phase == Queued { LeaveQueueKeeps(s, Expire(s, id), id); }
  }

  lemma WaitCancelIsAlike(s: State, w: Call, id: Id)
    ensures Alike(s, WaitCancel(s, w, id))
  {
    assert WaitCancel(s, w, id).requests.Keys == s.requests.Keys;
  }

  lemma DeliverIsAlike(s: State, k: nat, ok: bool)
    requires k < |s.tasks|
    ensures Alike(s, Deliver(s, k, ok))
  {
  }

  lemma NextKeepsQueues(s: State, step: Step)
    requires QueueInv(s) && Legal(s, step)
    ensures QueueInv(Next(s, step))
  {
    match step
    case DoWait(w) => WaitKeeps(s, w);
    case DoSubmit(id, sink, peerId) => SubmitKeeps(s, id, sink, peerId);
    case DoWaitCancel(w, id) => WaitCancelIsAlike(s, w, id); SameQueues(s, WaitCancel(s, w, id));
    case DoRespond(id) => RespondKeeps(s, id);
    case DoCancel(id) => CancelKeeps(s, id);
    case DoExpire(id) => ExpireKeeps(s, id);
    case DoStop(ids) => StopKeeps(s, ids);
    case DoDeliver(k, ok) => DeliverIsAlike(s, k, ok); SameQueues(s, Deliver(s, k, ok));
    case DoPass(seconds) => SameQueues(s, Next(s, step));
  }

  /** In every reachable state. */
  lemma {:induction false} QueuesInEveryRun(maxPending: nat, timeout: int, steps: seq<Step>)
    requires Run(Initial(maxPending, timeout), steps).Some?
    ensures QueueInv(Run(Initial(maxPending, timeout), steps).value)
  {
    if steps != [] {
      QueuesInEveryRun(maxPending, timeout, steps[..|steps| - 1]);
      NextKeepsQueues(Run(Initial(maxPending, timeout), steps[..|steps| - 1]).value, steps[|steps| - 1]);
    }
  }

  /** The k-th waiter to arrive gets the k-th request that was not dropped, and each waiter and request at most once. */
  lemma FirstComeFirstServed(maxPending: nat, timeout: int, steps: seq<Step>, k: nat)
    requires Run(Initial(maxPending, timeout), steps).Some?
    requires k < |Run(Initial(maxPending, timeout), steps).value.trace.matched|
    ensures var t := Run(Initial(maxPending, timeout), steps).value.trace;
            && k < |t.arrived| && k < |Undropped(t.order, t.dropped)|
            && t.matched[k] == (t.arrived[k], Undropped(t.order, t.dropped)[k])
            && Distinct(Undropped(t.order, t.dropped))
  {
    QueuesInEveryRun(maxPending, timeout, steps);
    var s := Run(Initial(maxPending, timeout), steps).value;
    UndroppedDistinct(s.trace.order, s.trace.dropped);
    assert Firsts(s.trace.matched)[k] == s.trace.matched[k].0;
    assert Seconds(s.trace.matched)[k] == s.trace.matched[k].1;
  }

  /** The k-th waiter to arrive has its work, or is in line behind those that have. */
  ghost predicate InLine(s: State, k: nat) {
    var m := |s.trace.matched|;
    && k < |s.trace.arrived|
    && if k < m then s.trace.matched[k].0 == s.trace.arrived[k]
       else k - m < |s.waiters| && s.waiters[k - m] == s.trace.arrived[k]
  }

  /** No waiter is lost: while the rendezvous runs, each that arrived has work or is still in line. */
  lemma NoWaiterIsLost(maxPending: nat, timeout: int, steps: seq<Step>, k: nat)
    requires Run(Initial(maxPending, timeout), steps).Some?
    requires !Run(Initial(maxPending, timeout), steps).value.stopped
    requires k < |Run(Initial(maxPending, timeout), steps).value.trace.arrived|
    ensures InLine(Run(Initial(maxPending, timeout), steps).value, k)
  {
    QueuesInEveryRun(maxPending, timeout, steps);
    WaitersInLine(Run(Initial(maxPending, timeout), steps).value, k);
  }

  lemma WaitersInLine(s: State, k: nat)
    requires Served(s) && !s.stopped && k < |s.trace.arrived|
    ensures InLine(s, k)
  {
    assert s.trace.arrived == Firsts(s.trace.matched) + s.waiters;
    if k < |s.trace.matched| { assert Firsts(s.trace.matched)[k] == s.trace.matched[k].0; }
  }
}
