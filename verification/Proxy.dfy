/**
 A PeerSwap connection that closes. Between submitting a request, registering the
 disconnect handler, the disconnect itself and the handler's run, every other
 thread may act on the rendezvous.
 */
module Proxy {
  import opened Prelude
  import S = RendezvousSpec
  import opened RendezvousQueues

  type Id = S.Id

  /** A callback is the id of the request it would cancel. */
  datatype Link = Link(handler: Option<Id>, disconnected: bool)

  const OPEN := Link(None, false)

  /** The new link and what the caller must run after letting go of the lock. */
  function SetHandler(l: Link, callback: Id): (Link, Option<Id>) {
    if l.disconnected then (l, Some(callback)) else (l.(handler := Some(callback)), None)
  }

  function Drop(l: Link): (Link, Option<Id>) {
    if l.disconnected then (l, None) else (Link(None, true), l.handler)
  }

  class ProxyResponse {
    var disconnectHandler: Option<Id>
    var disconnected: bool

    ghost function Abs(): Link
      reads this
    {
      Link(disconnectHandler, disconnected)
    }

    constructor ()
      ensures Abs() == OPEN
    {
      disconnectHandler, disconnected := None, false;
    }

    method SetDisconnectHandler(callback: Id) returns (run: Option<Id>)
      modifies this
      ensures (Abs(), run) == SetHandler(old(Abs()), callback)
    {
      var callNow;
      if disconnected {
        callNow := true;
      } else {
        disconnectHandler := Some(callback);
        callNow := false;
      }
      run := if callNow then Some(callback) else None;
    }

    method Disconnect() returns (run: Option<Id>)
      modifies this
      ensures (Abs(), run) == Drop(old(Abs()))
    {
      if disconnected { return None; }
      disconnected := true;
      run := disconnectHandler;
      disconnectHandler := None;
    }
  }

  // ---- the request handler among other threads ----

  datatype Stage = Before | Accepted(id: Id) | Handled(id: Id) | Rejected

  /** `running` are callbacks taken up but not yet run, `ran` those that were run. */
  datatype World = World(rendezvous: S.State, link: Link, stage: Stage, running: seq<Id>, ran: seq<Id>)

  datatype Move =
    | Others(step: S.Step)
    | SubmitRequest(newId: Id, sink: S.Sink, peerId: S.PeerId)
    | RegisterHandler
    | CloseConnection
    | RunCallback(k: nat)

  function Opening(maxPending: nat, timeout: int): World {
    World(S.Initial(maxPending, timeout), OPEN, Before, [], [])
  }

  predicate Possible(w: World, m: Move) {
    match m
    case Others(step) => S.Legal(w.rendezvous, step)
    case SubmitRequest(newId, sink, peerId) => w.stage.Before? && S.Legal(w.rendezvous, S.DoSubmit(newId, sink, peerId))
    case RegisterHandler => w.stage.Accepted?
    case CloseConnection => true
    case RunCallback(k) => k < |w.running|
  }

  function ToRun(w: World, callback: Option<Id>): World {
    w.(running := if callback.Some? then w.running + [callback.value] else w.running)
  }

  function After(w: World, m: Move): World
    requires Possible(w, m)
  {
    match m
    case Others(step) => w.(rendezvous := S.Next(w.rendezvous, step))
    case SubmitRequest(newId, sink, peerId) =>
      var accepted := !w.rendezvous.stopped && |w.rendezvous.requests| < w.rendezvous.maxPending;
      w.(rendezvous := S.Submit(w.rendezvous, newId, sink, peerId),
         stage := if accepted then Accepted(newId) else Rejected)
    case RegisterHandler =>
      var (link, callback) := SetHandler(w.link, w.stage.id);
      ToRun(w.(link := link, stage := Handled(w.stage.id)), callback)
    case CloseConnection =>
      var (link, callback) := Drop(w.link);
      ToRun(w.(link := link), callback)
    case RunCallback(k) =>
      w.(rendezvous := S.Cancel(w.rendezvous, w.running[k]),
         running := w.running[..k] + w.running[k + 1..], ran := w.ran + [w.running[k]])
  }

  function Play(w: World, moves: seq<Move>): Option<World> {
    if moves == [] then Some(w)
    else match Play(w, moves[..|moves| - 1])
         case None => None
         case Some(mid) => if Possible(mid, moves[|moves| - 1]) then Some(After(mid, moves[|moves| - 1])) else None
  }

  // ---- a request that is gone stays gone ----

  ghost predicate Gone(s: S.State, id: Id) {
    id in s.trace.order && id !in s.requests
  }

  lemma {:induction false} MatchBringsNothing(s: S.State)
    ensures S.MatchAll(s).requests.Keys == s.requests.Keys && S.MatchAll(s).trace.order == s.trace.order
    decreases |s.waiters|
  {
    if s.waiters != [] && s.unassigned != [] {
      var w, id := s.waiters[0], s.unassigned[0];
      var rest := s.(waiters := s.waiters[1..], unassigned := s.unassigned[1..]);
      if id !in s.requests || s.requests[id].phase != S.Queued { MatchBringsNothing(rest); }
      else { MatchBringsNothing(S.Assign(rest, w, id)); }
    }
  }

  lemma SubmitRecords(s: S.State, newId: Id, sink: S.Sink, peerId: S.PeerId)
    ensures var n := S.Submit(s, newId, sink, peerId);
            && n.requests.Keys <= s.requests.Keys + {newId} && s.trace.order <= n.trace.order
            && (!s.stopped && |s.requests| < s.maxPending ==> newId in n.trace.order)
  {
    var p := S.Purge(s);
    MatchBringsNothing(S.Enqueue(p, newId, sink, peerId));
  }

  lemma GoneStaysGone(s: S.State, step: S.Step, id: Id)
    requires S.Legal(s, step)
    ensures id in s.trace.order ==> id in S.Next(s, step).trace.order
    ensures Gone(s, id) ==> Gone(S.Next(s, step), id)
  {
    match step
    case DoWait(w) => MatchBringsNothing(S.Arrive(S.Purge(s), w));
    case DoSubmit(newId, sink, peerId) => SubmitRecords(s, newId, sink, peerId);
    case _ =>
  }

  // ---- exactly once ----

  /** The callback is registered, taken up, or has run. */
  function Copies(w: World): seq<Id> {
    (if w.link.handler.Some? then [w.link.handler.value] else []) + w.running + w.ran
  }

  ghost predicate HandlerInv(w: World) {
    && Copies(w) == (if w.stage.Handled? then [w.stage.id] else [])
    && (w.link.disconnected ==> w.link.handler.None?)
    && (!w.link.disconnected ==> w.running == [] && w.ran == [])
    && (w.stage.Accepted? || w.stage.Handled? ==> w.stage.id in w.rendezvous.trace.order)
    && (forall id :: id in w.ran ==> Gone(w.rendezvous, id))
  }

  lemma OthersKeep(w: World, step: S.Step)
    requires HandlerInv(w) && S.Legal(w.rendezvous, step)
    ensures HandlerInv(w.(rendezvous := S.Next(w.rendezvous, step)))
  {
    forall id ensures id in w.rendezvous.trace.order ==> id in S.Next(w.rendezvous, step).trace.order
              ensures Gone(w.rendezvous, id) ==> Gone(S.Next(w.rendezvous, step), id)
    {
      GoneStaysGone(w.rendezvous, step, id);
    }
  }

  lemma RunKeeps(w: World, k: nat)
    requires HandlerInv(w) && Known(w.rendezvous) && k < |w.running|
    ensures HandlerInv(After(w, RunCallback(k)))
  {
    var id := w.running[k];
    assert w.stage.Handled? && Copies(w) == [w.stage.id];
    assert w.running == [id] && w.ran == [] && id == w.stage.id;
    assert Gone(S.Cancel(w.rendezvous, id), id);
  }

  lemma SubmitKeepsHandler(w: World, newId: Id, sink: S.Sink, peerId: S.PeerId)
    requires HandlerInv(w) && Possible(w, SubmitRequest(newId, sink, peerId))
    ensures HandlerInv(After(w, SubmitRequest(newId, sink, peerId)))
  {
    SubmitRecords(w.rendezvous, newId, sink, peerId);
    assert Copies(w) == [];
  }

  lemma AfterKeeps(w: World, m: Move)
    requires HandlerInv(w) && QueueInv(w.rendezvous) && Possible(w, m)
    ensures HandlerInv(After(w, m)) && QueueInv(After(w, m).rendezvous)
  {
    match m
    case Others(step) => OthersKeep(w, step); NextKeepsQueues(w.rendezvous, step);
    case SubmitRequest(newId, sink, peerId) =>
      SubmitKeepsHandler(w, newId, sink, peerId);
      NextKeepsQueues(w.rendezvous, S.DoSubmit(newId, sink, peerId));
    case RegisterHandler =>
    case CloseConnection =>
    case RunCallback(k) => RunKeeps(w, k); NextKeepsQueues(w.rendezvous, S.DoCancel(w.running[k]));
  }

  lemma {:induction false} HandlerInEveryPlay(maxPending: nat, timeout: int, moves: seq<Move>)
    requires Play(Opening(maxPending, timeout), moves).Some?
    ensures HandlerInv(Play(Opening(maxPending, timeout), moves).value)
    ensures QueueInv(Play(Opening(maxPending, timeout), moves).value.rendezvous)
  {
    if moves != [] {
      HandlerInEveryPlay(maxPending, timeout, moves[..|moves| - 1]);
      AfterKeeps(Play(Opening(maxPending, timeout), moves[..|moves| - 1]).value, moves[|moves| - 1]);
    }
  }

  /**
   The callback runs at most once, never before the connection closed; once the
   handler is in place it has run or is about to; after it ran the request is gone.
   */
  ghost predicate RunsOnce(w: World) {
    && |w.ran| + |w.running| <= 1
    && (w.ran != [] || w.running != [] <==> w.link.disconnected && w.stage.Handled?)
    && (w.ran != [] ==> w.stage.Handled? && w.ran == [w.stage.id] && w.stage.id !in w.rendezvous.requests)
  }

  lemma OneCopyRunsOnce(w: World)
    requires HandlerInv(w)
    ensures RunsOnce(w)
  {
    assert |Copies(w)| <= 1;
    if w.ran != [] {
      assert Copies(w)[0] == w.ran[0];
      assert w.ran[0] in w.ran;
    }
  }

  /** Whenever the connection closes, and whatever the other threads do. */
  lemma DisconnectRunsOnce(maxPending: nat, timeout: int, moves: seq<Move>)
    requires Play(Opening(maxPending, timeout), moves).Some?
    ensures RunsOnce(Play(Opening(maxPending, timeout), moves).value)
  {
    HandlerInEveryPlay(maxPending, timeout, moves);
    OneCopyRunsOnce(Play(Opening(maxPending, timeout), moves).value);
  }
}
