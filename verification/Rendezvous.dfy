/**
 The rendezvous object itself. Every locked section is proved to take the state
 to what the transition system of RendezvousSpec says, so that the invariants
 proved there hold of the object between any two sections.
 */
module Rendezvous {
  import opened Prelude
  import S = RendezvousSpec
  import opened RendezvousQueues

  type Id = S.Id
  type Call = S.Call
  type Sink = S.Sink

  class PeerSwapRendezvous {
    const maxPending: nat
    const requestTimeout: int
    var now: int
    var waiters: seq<Call>
    var requests: map<Id, S.Pending>
    var terminal: map<Id, S.Pending>
    var unassigned: seq<Id>
    var stopped: bool
    var tasks: seq<S.Task>
    ghost var trace: S.Trace

    ghost function Abs(): S.State
      reads this
    {
      S.State(maxPending, requestTimeout, now, stopped, waiters, requests, terminal, unassigned, tasks, trace)
    }

    constructor (maxPending: nat, requestTimeout: int)
      requires maxPending > 0 && requestTimeout > 0
      ensures Abs() == S.Initial(maxPending, requestTimeout)
      ensures QueueInv(Abs())
    {
      this.maxPending, this.requestTimeout := maxPending, requestTimeout;
      now, waiters, requests, terminal, unassigned, stopped, tasks := 0, [], map[], map[], [], false, [];
      trace := S.NOTHING_YET;
    }

    method PurgeTerminal()
      modifies this`terminal
      ensures Abs() == S.Purge(old(Abs()))
    {
      var left := terminal.Keys;
      while left != {}
        invariant left <= old(terminal).Keys
        invariant forall id :: id in terminal <==>
                    id in old(terminal) && (id in left || !S.Outdated(old(terminal)[id], now))
        invariant forall id :: id in terminal ==> terminal[id] == old(terminal)[id]
      {
        var id :| id in left;
        if S.Outdated(terminal[id], now) { terminal := terminal - {id}; }
        left := left - {id};
      }
      assert terminal == S.Purge(old(Abs())).terminal;
    }

    method MatchLocked()
      modifies this`waiters, this`unassigned, this`requests, this`tasks, this`trace
      ensures Abs() == S.MatchAll(old(Abs()))
    {
      while waiters != [] && unassigned != []
        invariant S.MatchAll(Abs()) == S.MatchAll(old(Abs()))
        decreases |waiters|
      {
        var waiter, id := waiters[0], unassigned[0];
        waiters, unassigned := waiters[1..], unassigned[1..];
        if id in requests && requests[id].phase == S.Queued {
          requests := requests[id := requests[id].(phase := S.Assigned)];
          tasks := tasks + [S.GiveWork(waiter, id)];
          trace := trace.(matched := trace.matched + [(waiter, id)]);
        }
      }
    }

    method Wait(call: Call)
      modifies this
      ensures Abs() == S.Wait(old(Abs()), call)
    {
      PurgeTerminal();
      trace := trace.(waits := trace.waits + {call});
      if stopped || |waiters| >= maxPending {
        tasks := tasks + [S.FailWaiter(call)];
      } else {
        waiters := waiters + [call];
        trace := trace.(arrived := trace.arrived + [call]);
        MatchLocked();
      }
    }

    /** `newId` is the new random request id. */
    method Submit(newId: Id, sink: Sink, peerId: S.PeerId) returns (id: Option<Id>)
      modifies this
      ensures Abs() == S.Submit(old(Abs()), newId, sink, peerId)
      ensures id == if old(stopped) || |old(requests)| >= maxPending then None else Some(newId)
      ensures id.None? ==> requests == old(requests)
    {
      PurgeTerminal();
      trace := trace.(sinks := trace.sinks[sink := peerId]);
      if stopped || |requests| >= maxPending {
        tasks := tasks + [S.Reply(sink, peerId, S.Refused, None, None)];
        return None;
      }
      requests := requests[newId := S.Pending(sink, peerId, S.Queued, None, None)];
      unassigned := unassigned + [newId];
      trace := trace.(accepted := trace.accepted[sink := newId], order := trace.order + [newId]);
      MatchLocked();
      return Some(newId);
    }

    method WaitCancel(call: Call, id: Id)
      modifies this
      ensures Abs() == S.WaitCancel(old(Abs()), call, id)
    {
      PurgeTerminal();
      trace := trace.(watches := trace.watches + {call});
      if id in requests {
        var pending := requests[id];
        if pending.phase == S.Assigned && pending.watcher.None? {
          requests := requests[id := pending.(watcher := Some(call))];
          trace := trace.(watching := trace.watching[call := id]);
        } else {
          tasks := tasks + [S.FailWatcher(call)];
        }
      } else if id in terminal {
        var phase := terminal[id].phase;
        terminal := terminal - {id};
        tasks := tasks + [S.TellLate(call, id, phase)];
      } else {
        tasks := tasks + [S.FailWatcher(call)];
      }
    }

    /** Unknown and unassigned requests are refused; an answer is accepted once. */
    method Respond(id: Id) returns (accepted: bool)
      modifies this
      ensures Abs() == S.Respond(old(Abs()), id)
      ensures accepted == (id in old(requests) && old(requests)[id].phase == S.Assigned)
      ensures accepted ==> id !in requests
    {
      PurgeTerminal();
      if id !in requests || requests[id].phase != S.Assigned { return false; }
      var pending := requests[id];
      requests := requests - {id};
      terminal := terminal[id := pending.(phase := S.Completed, watcher := None,
                                          forgetAt := Some(now + requestTimeout))];
      tasks := tasks + [S.Reply(pending.sink, pending.peerId, S.Answer, Some(id), pending.watcher)];
      return true;
    }

    /** `deque.remove` on the queue; an absent id is ignored. */
    method RemoveUnassigned(id: Id)
      modifies this`unassigned
      ensures unassigned == S.Remove(old(unassigned), id)
    {
      var i := 0;
      while i < |unassigned| && unassigned[i] != id
        invariant i <= |unassigned| && unassigned == old(unassigned)
        invariant S.Remove(unassigned, id) == unassigned[..i] + S.Remove(unassigned[i..], id)
      {
        assert unassigned[i..][1..] == unassigned[i + 1..];
        i := i + 1;
      }
      if i < |unassigned| {
        assert unassigned[i..][1..] == unassigned[i + 1..];
        unassigned := unassigned[..i] + unassigned[i + 1..];
      }
    }

    /** Cancelling takes a request out of the queue, the table and, if it was assigned, into memory. */
    method Withdraw(id: Id, pending: S.Pending)
      requires id in requests && requests[id] == pending && (pending.phase == S.Queued || pending.phase == S.Assigned)
      modifies this`requests, this`unassigned, this`terminal, this`trace
      ensures requests == old(requests) - {id} && unassigned == S.Remove(old(unassigned), id)
      ensures terminal == if pending.phase == S.Assigned
                          then old(terminal)[id := pending.(phase := S.Cancelled, watcher := None,
                                                            forgetAt := Some(now + requestTimeout))]
                          else old(terminal)
      ensures trace == old(trace).(cancelled := old(trace).cancelled + {id},
                                   dropped := if pending.phase == S.Queued then old(trace).dropped + {id}
                                              else old(trace).dropped)
    {
      requests := requests - {id};
      RemoveUnassigned(id);
      if pending.phase == S.Assigned {
        terminal := terminal[id := pending.(phase := S.Cancelled, watcher := None,
                                            forgetAt := Some(now + requestTimeout))];
      } else {
        trace := trace.(dropped := trace.dropped + {id});
      }
      trace := trace.(cancelled := trace.cancelled + {id});
    }

    method Cancel(id: Id)
      modifies this
      ensures Abs() == S.Cancel(old(Abs()), id)
    {
      PurgeTerminal();
      if id !in requests { return; }
      var pending := requests[id];
      if pending.phase != S.Queued && pending.phase != S.Assigned { return; }
      Withdraw(id, pending);
      if pending.watcher.Some? { tasks := tasks + [S.Tell(pending.watcher.value, id, S.Cancelled, true)]; }
    }

    method ExpireRequest(id: Id)
      modifies this
      ensures Abs() == S.Expire(old(Abs()), id)
    {
      if id !in requests || stopped || requests[id].phase != S.Queued { return; }
      var pending := requests[id];
      requests := requests - {id};
      RemoveUnassigned(id);
      trace := trace.(dropped := trace.dropped + {id});
      tasks := tasks + [S.Reply(pending.sink, pending.peerId, S.Expired, Some(id), None)];
    }

    method Outstanding() returns (ids: seq<Id>)
      ensures S.Distinct(ids) && (set id | id in ids) == requests.Keys
    {
      ids := [];
      var left := requests.Keys;
      while left != {}
        invariant S.Distinct(ids) && left <= requests.Keys
        invariant forall id :: id in ids <==> id in requests && id !in left
      {
        var id :| id in left;
        ids, left := ids + [id], left - {id};
      }
    }

    /** Three loops over what was outstanding: waiters, their watchers, the requests. */
    method Stop() returns (ids: seq<Id>)
      modifies this
      ensures S.Distinct(ids) && (set id | id in ids) == old(requests).Keys
      ensures Abs() == S.Stop(old(Abs()), ids)
    {
      PurgeTerminal();
      ids := Outstanding();
      var failed, dropped := waiters, requests;
      trace := trace.(turnedAway := trace.turnedAway + waiters, dropped := trace.dropped + (set id | id in unassigned));
      stopped, waiters, requests, unassigned := true, [], map[], [];
      var fails := FailEach(failed);
      var tells := TellEach(dropped, ids);
      var halts := HaltEach(dropped, ids);
      tasks := tasks + (fails + tells + halts);
    }

    static method FailEach(waiters: seq<Call>) returns (fails: seq<S.Task>)
      ensures fails == S.FailAll(waiters)
    {
      fails := [];
      for i := 0 to |waiters|
        invariant fails == S.FailAll(waiters[..i])
      {
        assert waiters[..i + 1][..i] == waiters[..i];
        fails := fails + [S.FailWaiter(waiters[i])];
      }
      assert waiters[..|waiters|] == waiters;
    }

    static method TellEach(requests: map<Id, S.Pending>, ids: seq<Id>) returns (tells: seq<S.Task>)
      requires forall id :: id in ids ==> id in requests
      ensures tells == S.TellAll(requests, ids)
    {
      tells := [];
      for i := 0 to |ids|
        invariant tells == S.TellAll(requests, ids[..i])
      {
        assert ids[..i + 1][..i] == ids[..i];
        var pending := requests[ids[i]];
        if pending.watcher.Some? { tells := tells + [S.Tell(pending.watcher.value, ids[i], S.Cancelled, false)]; }
      }
      assert ids[..|ids|] == ids;
    }

    static method HaltEach(requests: map<Id, S.Pending>, ids: seq<Id>) returns (halts: seq<S.Task>)
      requires forall id :: id in ids ==> id in requests
      ensures halts == S.HaltAll(requests, ids)
    {
      halts := [];
      for i := 0 to |ids|
        invariant halts == S.HaltAll(requests, ids[..i])
      {
        assert ids[..i + 1][..i] == ids[..i];
        var pending := requests[ids[i]];
        halts := halts + [S.Reply(pending.sink, pending.peerId, S.Halted, Some(ids[i]), None)];
      }
      assert ids[..|ids|] == ids;
    }

    /** Some thread carries out the k-th task; `ok` is false if the other end is gone. */
    method Deliver(k: nat, ok: bool)
      requires k < |tasks|
      modifies this
      ensures Abs() == S.Deliver(old(Abs()), k, ok)
    {
      var task := tasks[k];
      tasks := tasks[..k] + tasks[k + 1..];
      trace := trace.(log := trace.log + S.EventsOf(task, ok));
      match task
      case Reply(_, _, Answer, Some(id), toTell) =>
        if !ok { tasks := tasks + [S.MarkFailed(id, toTell)]; }
        else if toTell.Some? { tasks := tasks + [S.Tell(toTell.value, id, S.Completed, true)]; }
      case MarkFailed(id, toTell) =>
        if id in terminal { terminal := terminal[id := terminal[id].(phase := S.Cancelled)]; }
        if toTell.Some? { tasks := tasks + [S.Tell(toTell.value, id, S.Cancelled, true)]; }
      case Reply(_, _, Expired, Some(id), _) => tasks := tasks + [S.Forget(id)];
      case Tell(_, id, _, true) => tasks := tasks + [S.Forget(id)];
      case Forget(id) => terminal := terminal - {id};
      case _ =>
    }
  }
}
