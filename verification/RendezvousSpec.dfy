/**
 The rendezvous between PeerSwap requests and waiting JoinMarket clients as a
 transition system. A locked section is one step; what it delivers after letting
 go of the lock becomes tasks, taken up later in any order and each able to fail.
 */
module RendezvousSpec {
  import opened Prelude

  type Id = nat
  type Sink = nat
  type Call = nat
  type PeerId = string

  datatype Phase = Queued | Assigned | Completed | Cancelled | TimedOut

  datatype Pending = Pending(sink: Sink, peerId: PeerId, phase: Phase, watcher: Option<Call>, forgetAt: Option<int>)

  /** Why a response sink is called: JoinMarket's answer, or one of the three errors. */
  datatype Kind = Answer | Refused | Expired | Halted

  datatype Task =
    | Reply(sink: Sink, peerId: PeerId, kind: Kind, forId: Option<Id>, toTell: Option<Call>)
    | GiveWork(waiter: Call, id: Id)
    | FailWaiter(waiter: Call)
    | Tell(watcher: Call, id: Id, phase: Phase, forget: bool)
    | TellLate(watcher: Call, id: Id, phase: Phase)
    | FailWatcher(watcher: Call)
    | MarkFailed(id: Id, toTell: Option<Call>)
    | Forget(id: Id)

  datatype Event =
    | Replied(sink: Sink, peerId: PeerId, kind: Kind, forId: Option<Id>, delivered: bool)
    | Gave(waiter: Call, id: Id)
    | WaiterFailed(waiter: Call)
    | Told(watcher: Call, id: Id, phase: Phase)
    | ToldLate(watcher: Call, id: Id, phase: Phase)
    | WatcherFailed(watcher: Call)
    | Marked(id: Id)

  /** What has happened so far; no decision reads it. */
  datatype Trace = Trace(
    sinks: map<Sink, PeerId>,       // every submit call
    accepted: map<Sink, Id>,        // those that got a request id
    order: seq<Id>,                 // accepted requests in submission order
    waits: set<Call>,               // every wait call
    watches: set<Call>,             // every wait-cancel call
    arrived: seq<Call>,             // accepted waiters in order of arrival
    matched: seq<(Call, Id)>,       // assignments in order
    dropped: set<Id>,               // left while still queued
    cancelled: set<Id>,             // left because the PeerSwap connection closed
    turnedAway: seq<Call>,          // waiters failed by stop
    watching: map<Call, Id>,        // watchers registered on an assigned request
    log: seq<Event>)

  datatype State = State(
    maxPending: nat,
    timeout: int,
    now: int,
    stopped: bool,
    waiters: seq<Call>,
    requests: map<Id, Pending>,
    terminal: map<Id, Pending>,
    unassigned: seq<Id>,
    tasks: seq<Task>,
    trace: Trace)

  const NOTHING_YET := Trace(map[], map[], [], {}, {}, [], [], {}, {}, [], map[], [])

  function Initial(maxPending: nat, timeout: int): State {
    State(maxPending, timeout, 0, false, [], map[], map[], [], [], NOTHING_YET)
  }

  // ---- locked sections ----

  predicate Outdated(p: Pending, now: int) {
    p.forgetAt.Some? && p.forgetAt.value <= now
  }

  function Purge(s: State): State {
    s.(terminal := map id | id in s.terminal && !Outdated(s.terminal[id], s.now) :: s.terminal[id])
  }

  /** Pair waiters with queued requests from the front; a stale id would cost its waiter. */
  function MatchAll(s: State): State
    decreases |s.waiters|
  {
    if s.waiters == [] || s.unassigned == [] then s
    else
      var w, id := s.waiters[0], s.unassigned[0];
      var rest := s.(waiters := s.waiters[1..], unassigned := s.unassigned[1..]);
      if id !in s.requests || s.requests[id].phase != Queued then MatchAll(rest)
      else MatchAll(Assign(rest, w, id))
  }

  function Assign(s: State, w: Call, id: Id): State
    requires id in s.requests
  {
    s.(requests := s.requests[id := s.requests[id].(phase := Assigned)],
       tasks := s.tasks + [GiveWork(w, id)],
       trace := s.trace.(matched := s.trace.matched + [(w, id)]))
  }

  function Schedule(s: State, tasks: seq<Task>): State {
    s.(tasks := s.tasks + tasks)
  }

  function Wait(s0: State, w: Call): State {
    var s := Purge(s0);
    if s.stopped || |s.waiters| >= s.maxPending then
      Schedule(s.(trace := s.trace.(waits := s.trace.waits + {w})), [FailWaiter(w)])
    else MatchAll(Arrive(s, w))
  }

  function Arrive(s: State, w: Call): State {
    s.(waiters := s.waiters + [w],
       trace := s.trace.(waits := s.trace.waits + {w}, arrived := s.trace.arrived + [w]))
  }

  function Submit(s0: State, id: Id, sink: Sink, peerId: PeerId): State {
    var s := Purge(s0);
    if s.stopped || |s.requests| >= s.maxPending then
      Schedule(s.(trace := s.trace.(sinks := s.trace.sinks[sink := peerId])),
               [Reply(sink, peerId, Refused, None, None)])
    else MatchAll(Enqueue(s, id, sink, peerId))
  }

  function Enqueue(s: State, id: Id, sink: Sink, peerId: PeerId): State {
    s.(requests := s.requests[id := Pending(sink, peerId, Queued, None, None)],
       unassigned := s.unassigned + [id],
       trace := s.trace.(sinks := s.trace.sinks[sink := peerId], accepted := s.trace.accepted[sink := id],
                         order := s.trace.order + [id]))
  }

  function WaitCancel(s0: State, w: Call, id: Id): State {
    var s := Purge(s0);
    if id in s.requests then
      if s.requests[id].phase == Assigned && s.requests[id].watcher.None? then
        s.(requests := s.requests[id := s.requests[id].(watcher := Some(w))],
           trace := s.trace.(watches := s.trace.watches + {w}, watching := s.trace.watching[w := id]))
      else Schedule(Watched(s, w), [FailWatcher(w)])
    else if id in s.terminal then
      Schedule(Watched(s, w).(terminal := s.terminal - {id}), [TellLate(w, id, s.terminal[id].phase)])
    else Schedule(Watched(s, w), [FailWatcher(w)])
  }

  function Watched(s: State, w: Call): State {
    s.(trace := s.trace.(watches := s.trace.watches + {w}))
  }

  function Respond(s0: State, id: Id): State {
    var s := Purge(s0);
    if id !in s.requests || s.requests[id].phase != Assigned then s
    else
      var p := s.requests[id];
      Schedule(s.(requests := s.requests - {id},
                  terminal := s.terminal[id := p.(phase := Completed, watcher := None,
                                                   forgetAt := Some(s.now + s.timeout))]),
               [Reply(p.sink, p.peerId, Answer, Some(id), p.watcher)])
  }

  /** `deque.remove`: the first occurrence. */
  function Remove(q: seq<Id>, id: Id): (r: seq<Id>)
    ensures id !in q ==> r == q
  {
    if q == [] then [] else if q[0] == id then q[1..] else [q[0]] + Remove(q[1..], id)
  }

  function Cancel(s0: State, id: Id): State {
    var s := Purge(s0);
    if id !in s.requests || (s.requests[id].phase != Queued && s.requests[id].phase != Assigned) then s
    else
      var p := s.requests[id];
      var gone := p.(phase := Cancelled, watcher := None, forgetAt := Some(s.now + s.timeout));
      Schedule(s.(requests := s.requests - {id},
                  unassigned := Remove(s.unassigned, id),
                  terminal := if p.phase == Assigned then s.terminal[id := gone] else s.terminal,
                  trace := s.trace.(cancelled := s.trace.cancelled + {id},
                                    dropped := if p.phase == Queued then s.trace.dropped + {id} else s.trace.dropped)),
               if p.watcher.Some? then [Tell(p.watcher.value, id, Cancelled, true)] else [])
  }

  function Expire(s: State, id: Id): State {
    if id !in s.requests || s.stopped || s.requests[id].phase != Queued then s
    else
      var p := s.requests[id];
      Schedule(s.(requests := s.requests - {id},
                  unassigned := Remove(s.unassigned, id),
                  trace := s.trace.(dropped := s.trace.dropped + {id})),
               [Reply(p.sink, p.peerId, Expired, Some(id), None)])
  }

  function FailAll(waiters: seq<Call>): seq<Task> {
    if waiters == [] then [] else FailAll(waiters[..|waiters| - 1]) + [FailWaiter(waiters[|waiters| - 1])]
  }

  function TellOf(p: Pending, id: Id): seq<Task> {
    if p.watcher.Some? then [Tell(p.watcher.value, id, Cancelled, false)] else []
  }

  function TellAll(requests: map<Id, Pending>, ids: seq<Id>): seq<Task> {
    if ids == [] then []
    else
      var id := ids[|ids| - 1];
      TellAll(requests, ids[..|ids| - 1]) + (if id in requests then TellOf(requests[id], id) else [])
  }

  function HaltOf(p: Pending, id: Id): Task {
    Reply(p.sink, p.peerId, Halted, Some(id), None)
  }

  function HaltAll(requests: map<Id, Pending>, ids: seq<Id>): seq<Task> {
    if ids == [] then []
    else
      var id := ids[|ids| - 1];
      HaltAll(requests, ids[..|ids| - 1]) + (if id in requests then [HaltOf(requests[id], id)] else [])
  }

  /** `ids` lists the outstanding requests in the order the dictionary gives them. */
  function Stop(s0: State, ids: seq<Id>): State {
    var s := Purge(s0);
    Schedule(s.(stopped := true, waiters := [], requests := map[], unassigned := [],
                trace := s.trace.(turnedAway := s.trace.turnedAway + s.waiters,
                                  dropped := s.trace.dropped + (set id | id in s.unassigned))),
             FailAll(s.waiters) + TellAll(s.requests, ids) + HaltAll(s.requests, ids))
  }

  // ---- deliveries ----

  /** What the outside sees when a task is carried out. */
  function EventsOf(t: Task, ok: bool): seq<Event> {
    match t
    case Reply(sink, peerId, kind, forId, _) => [Replied(sink, peerId, kind, forId, ok)]
    case GiveWork(w, id) => [Gave(w, id)]
    case FailWaiter(w) => [WaiterFailed(w)]
    case Tell(w, id, phase, _) => [Told(w, id, phase)]
    case TellLate(w, id, phase) => [ToldLate(w, id, phase)]
    case FailWatcher(w) => [WatcherFailed(w)]
    case MarkFailed(id, _) => [Marked(id)]
    case Forget(_) => []
  }

  /**
   What the same thread does next: a failed answer is recorded in a statement of
   its own, outside the lock, and a watcher hears of the answer only after that.
   */
  function FollowUps(t: Task, ok: bool): seq<Task> {
    match t
    case Reply(_, _, Answer, Some(id), toTell) =>
      if !ok then [MarkFailed(id, toTell)]
      else if toTell.Some? then [Tell(toTell.value, id, Completed, true)] else []
    case Reply(_, _, Expired, Some(id), _) => [Forget(id)]
    case MarkFailed(id, Some(w)) => [Tell(w, id, Cancelled, true)]
    case Tell(_, id, _, true) => [Forget(id)]
    case _ => []
  }

  /** Recording the failure turns the remembered request into a cancelled one. */
  function TerminalAfter(terminal: map<Id, Pending>, t: Task): map<Id, Pending> {
    match t
    case MarkFailed(id, _) =>
      if id in terminal then terminal[id := terminal[id].(phase := Cancelled)] else terminal
    case Forget(id) => terminal - {id}
    case _ => terminal
  }

  /** Task k is carried out; `ok` is false when the other end is gone. */
  function Deliver(s: State, k: nat, ok: bool): State
    requires k < |s.tasks|
  {
    var t := s.tasks[k];
    s.(tasks := s.tasks[..k] + s.tasks[k + 1..] + FollowUps(t, ok),
       terminal := TerminalAfter(s.terminal, t),
       trace := s.trace.(log := s.trace.log + EventsOf(t, ok)))
  }

  // ---- runs ----

  datatype Step =
    | DoWait(w: Call)
    | DoSubmit(id: Id, sink: Sink, peerId: PeerId)
    | DoWaitCancel(w: Call, id: Id)
    | DoRespond(id: Id)
    | DoCancel(id: Id)
    | DoExpire(id: Id)
    | DoStop(ids: seq<Id>)
    | DoDeliver(k: nat, ok: bool)
    | DoPass(seconds: nat)

  predicate Distinct<T(==)>(xs: seq<T>) {
    forall i, j :: 0 <= i < j < |xs| ==> xs[i] != xs[j]
  }

  /** New ids and calls are new; a stop sees the outstanding requests; a delivery takes an existing task. */
  predicate Legal(s: State, step: Step) {
    match step
    case DoWait(w) => w !in s.trace.arrived && w !in s.trace.waits
    case DoSubmit(id, sink, _) => id !in s.trace.order && sink !in s.trace.sinks
    case DoWaitCancel(w, _) => w !in s.trace.watching && w !in s.trace.watches
    case DoStop(ids) => Distinct(ids) && (set id | id in ids) == s.requests.Keys
    case DoDeliver(k, _) => k < |s.tasks|
    case _ => true
  }

  function Next(s: State, step: Step): State
    requires Legal(s, step)
  {
    match step
    case DoWait(w) => Wait(s, w)
    case DoSubmit(id, sink, peerId) => Submit(s, id, sink, peerId)
    case DoWaitCancel(w, id) => WaitCancel(s, w, id)
    case DoRespond(id) => Respond(s, id)
    case DoCancel(id) => Cancel(s, id)
    case DoExpire(id) => Expire(s, id)
    case DoStop(ids) => Stop(s, ids)
    case DoDeliver(k, ok) => Deliver(s, k, ok)
    case DoPass(seconds) => s.(now := s.now + seconds)
  }

  /** The state after a run, `None` if one of its steps could not be taken. */
  function Run(s: State, steps: seq<Step>): Option<State> {
    if steps == [] then Some(s)
    else match Run(s, steps[..|steps| - 1])
         case None => None
         case Some(mid) => if Legal(mid, steps[|steps| - 1]) then Some(Next(mid, steps[|steps| - 1])) else None
  }
}
