/**
 Every call that waits is answered once: a waiter gets the request it was matched
 with or is failed, a watcher that is not registered hears at once.
 */
module RendezvousWaiters {
  import opened Prelude
  import opened Sequences
  import opened RendezvousSpec
  import opened RendezvousQueues
  import opened RendezvousReplies

  // ---- outcomes, made and on their way ----

  function EndsWait(w: Call): Task -> bool {
    (t: Task) => (t.GiveWork? || t.FailWaiter?) && t.waiter == w
  }

  function EndedWait(w: Call): Event -> bool {
    (e: Event) => (e.Gave? || e.WaiterFailed?) && e.waiter == w
  }

  function Gift(w: Call, id: Id): Task -> bool {
    (t: Task) => t == GiveWork(w, id)
  }

  function Given(w: Call, id: Id): Event -> bool {
    (e: Event) => e == Gave(w, id)
  }

  function TurnsAway(w: Call): Task -> bool {
    (t: Task) => (t.FailWatcher? || t.TellLate?) && t.watcher == w
  }

  function TurnedAway(w: Call): Event -> bool {
    (e: Event) => (e.WatcherFailed? || e.ToldLate?) && e.watcher == w
  }

  function Made(s: State, due: Task -> bool, done: Event -> bool): nat {
    Count(s.tasks, due) + Count(s.trace.log, done)
  }

  function Matches(s: State, w: Call, id: Id): nat {
    Count(s.trace.matched, (m: (Call, Id)) => m == (w, id))
  }

  /** One outcome for each wait call that is not in line, none for one that is. */
  ghost predicate WaitsEnd(s: State) {
    forall w: Call :: Made(s, EndsWait(w), EndedWait(w)) == if w in s.trace.waits && w !in s.waiters then 1 else 0
  }

  /** What a waiter is given is what it was matched with. */
  ghost predicate GiftsMatch(s: State) {
    forall w: Call, id: Id :: Made(s, Gift(w, id), Given(w, id)) == Matches(s, w, id)
  }

  /** A watcher that is not registered is told, or failed, at once and once. */
  ghost predicate WatchesEnd(s: State) {
    forall w: Call ::
      Made(s, TurnsAway(w), TurnedAway(w)) == if w in s.trace.watches && w !in s.trace.watching then 1 else 0
  }

  ghost predicate Calls(s: State) {
    && Distinct(s.trace.arrived) && (forall w :: w in s.trace.arrived ==> w in s.trace.waits)
    && (forall w :: w in s.trace.watching ==> w in s.trace.watches)
  }

  ghost predicate CallInv(s: State) {
    Calls(s) && WaitsEnd(s) && GiftsMatch(s) && WatchesEnd(s)
  }

  // ---- counting ----

  lemma SectionMakes(s: State, n: State, more: seq<Task>, due: Task -> bool, done: Event -> bool)
    requires n.tasks == s.tasks + more && n.trace.log == s.trace.log
    ensures Made(n, due, done) == Made(s, due, done) + Count(more, due)
  {
    CountAppend(s.tasks, more, due);
  }

  /** None of these is an outcome of a call. */
  predicate Mute(t: Task) {
    !t.GiveWork? && !t.FailWaiter? && !t.FailWatcher? && !t.TellLate?
  }

  ghost predicate SameCalls(s: State, n: State) {
    && n.waiters == s.waiters && n.trace.waits == s.trace.waits && n.trace.watches == s.trace.watches
    && n.trace.arrived == s.trace.arrived && n.trace.matched == s.trace.matched
    && n.trace.watching == s.trace.watching
  }

  lemma MuteKeeps(s: State, n: State, more: seq<Task>)
    requires CallInv(s) && SameCalls(s, n)
    requires n.tasks == s.tasks + more && n.trace.log == s.trace.log && forall i :: 0 <= i < |more| ==> Mute(more[i])
    ensures CallInv(n)
  {
    forall w: Call
      ensures Made(n, EndsWait(w), EndedWait(w)) == Made(s, EndsWait(w), EndedWait(w))
      ensures Made(n, TurnsAway(w), TurnedAway(w)) == Made(s, TurnsAway(w), TurnedAway(w))
    {
      SectionMakes(s, n, more, EndsWait(w), EndedWait(w));
      SectionMakes(s, n, more, TurnsAway(w), TurnedAway(w));
      CountNone(more, EndsWait(w));
      CountNone(more, TurnsAway(w));
    }
    forall w: Call, id: Id ensures Made(n, Gift(w, id), Given(w, id)) == Matches(n, w, id) {
      SectionMakes(s, n, more, Gift(w, id), Given(w, id));
      CountNone(more, Gift(w, id));
    }
  }

  /** One outcome more. */
  lemma OneMakes(s: State, n: State, t: Task, due: Task -> bool, done: Event -> bool)
    requires n.tasks == s.tasks + [t] && n.trace.log == s.trace.log
    ensures Made(n, due, done) == Made(s, due, done) + if due(t) then 1 else 0
  {
    SectionMakes(s, n, [t], due, done);
    CountOne(t, due);
  }

  // ---- waiting ----

  lemma WaitersAreDistinct(s: State)
    requires Served(s) && Distinct(s.trace.arrived)
    ensures Distinct(s.waiters) && forall w :: w in s.waiters ==> w in s.trace.arrived
  {
    var before := Firsts(s.trace.matched) + s.waiters;
    assert s.trace.arrived == before + s.trace.turnedAway;
    forall i, j | 0 <= i < j < |before| ensures before[i] != before[j] {
      assert before[i] == s.trace.arrived[i] && before[j] == s.trace.arrived[j];
    }
    SplitDistinct(before, Firsts(s.trace.matched), s.waiters);
    forall w | w in s.waiters ensures w in s.trace.arrived {
      assert w in before;
    }
  }

  lemma RefuseWait(s: State, w: Call)
    requires CallInv(s) && w !in s.trace.waits && w !in s.waiters
    ensures CallInv(Schedule(s.(trace := s.trace.(waits := s.trace.waits + {w})), [FailWaiter(w)]))
  {
    var n := Schedule(s.(trace := s.trace.(waits := s.trace.waits + {w})), [FailWaiter(w)]);
    forall v: Call
      ensures Made(n, EndsWait(v), EndedWait(v)) == Made(s, EndsWait(v), EndedWait(v)) + if v == w then 1 else 0
      ensures Made(n, TurnsAway(v), TurnedAway(v)) == Made(s, TurnsAway(v), TurnedAway(v))
    {
      OneMakes(s, n, FailWaiter(w), EndsWait(v), EndedWait(v));
      OneMakes(s, n, FailWaiter(w), TurnsAway(v), TurnedAway(v));
    }
    forall v: Call, id: Id ensures Made(n, Gift(v, id), Given(v, id)) == Matches(n, v, id) {
      OneMakes(s, n, FailWaiter(w), Gift(v, id), Given(v, id));
    }
  }

  lemma ArriveKeepsCalls(s: State, w: Call)
    requires CallInv(s) && w !in s.trace.waits
    ensures CallInv(Arrive(s, w))
  {
    var n := Arrive(s, w);
    assert w !in s.trace.arrived;
    forall v: Call
      ensures Made(n, EndsWait(v), EndedWait(v)) == if v in n.trace.waits && v !in n.waiters then 1 else 0
    {
      assert Made(n, EndsWait(v), EndedWait(v)) == Made(s, EndsWait(v), EndedWait(v));
    }
    assert forall v: Call :: Made(n, TurnsAway(v), TurnedAway(v)) == Made(s, TurnsAway(v), TurnedAway(v));
    assert forall v: Call, id: Id :: Made(n, Gift(v, id), Given(v, id)) == Made(s, Gift(v, id), Given(v, id));
  }

  lemma MatchGrows(s: State, n: State, w: Call, id: Id, v: Call, x: Id)
    requires n.trace.matched == s.trace.matched + [(w, id)]
    ensures Matches(n, v, x) == Matches(s, v, x) + if (w, id) == (v, x) then 1 else 0
  {
    var p := (m: (Call, Id)) => m == (v, x);
    CountAppend(s.trace.matched, [(w, id)], p);
    CountOne((w, id), p);
  }

  /** The first waiter gets the first queued request, and nobody else anything. */
  lemma AssignKeepsCalls(s: State, id: Id)
    requires CallInv(s) && s.waiters != [] && id in s.requests && Distinct(s.waiters)
    requires forall w :: w in s.waiters ==> w in s.trace.arrived
    ensures CallInv(Assign(s.(waiters := s.waiters[1..], unassigned := s.unassigned), s.waiters[0], id))
  {
    var w := s.waiters[0];
    var n := Assign(s.(waiters := s.waiters[1..], unassigned := s.unassigned), w, id);
    assert w !in s.waiters[1..] && w in s.trace.waits;
    assert forall v :: v in s.waiters <==> v == w || v in s.waiters[1..];
    forall v: Call
      ensures Made(n, EndsWait(v), EndedWait(v)) == if v in n.trace.waits && v !in n.waiters then 1 else 0
      ensures Made(n, TurnsAway(v), TurnedAway(v)) == Made(s, TurnsAway(v), TurnedAway(v))
    {
      OneMakes(s, n, GiveWork(w, id), EndsWait(v), EndedWait(v));
      OneMakes(s, n, GiveWork(w, id), TurnsAway(v), TurnedAway(v));
      assert Made(s, EndsWait(v), EndedWait(v)) == if v in s.trace.waits && v !in s.waiters then 1 else 0;
    }
    forall v: Call, x: Id ensures Made(n, Gift(v, x), Given(v, x)) == Matches(n, v, x) {
      OneMakes(s, n, GiveWork(w, id), Gift(v, x), Given(v, x));
      MatchGrows(s, n, w, id, v, x);
    }
  }

  lemma MatchKeepsCalls(s: State)
    requires CallInv(s) && BeforeMatch(s)
    ensures CallInv(MatchAll(s))
  {
    MatchesAtMostOnce(s);
    if s.waiters != [] && s.unassigned != [] {
      AssignKeepsKnown(s);
      WaitersAreDistinct(s);
      var t := s.(unassigned := s.unassigned[1..]);
      PlusNothing(s.tasks);
      MuteKeeps(s, t, []);
      AssignKeepsCalls(t, s.unassigned[0]);
    }
  }

  lemma PurgeKeepsCalls(s: State)
    requires CallInv(s)
    ensures CallInv(Purge(s))
  {
    PlusNothing(s.tasks);
    MuteKeeps(s, Purge(s), []);
  }

  lemma AcceptWait(s: State, w: Call)
    requires BeforeMatch(Arrive(s, w)) && CallInv(s) && w !in s.trace.waits
    ensures CallInv(MatchAll(Arrive(s, w)))
  {
    ArriveKeepsCalls(s, w);
    MatchKeepsCalls(Arrive(s, w));
  }

  lemma ArriveIsReady(s: State, w: Call)
    requires QueueInv(s) && !s.stopped && |s.waiters| < s.maxPending
    ensures BeforeMatch(Arrive(s, w))
  {
  }

  lemma NotInLine(s: State, w: Call)
    requires Served(s) && Calls(s) && w !in s.trace.waits
    ensures w !in s.waiters
  {
    WaitersAreDistinct(s);
  }

  lemma WaitKeepsCalls(s: State, w: Call)
    requires QueueInv(s) && CallInv(s) && w !in s.trace.waits
    ensures CallInv(Wait(s, w))
  {
    var p := Purge(s);
    SameQueues(s, p);
    PurgeKeepsCalls(s);
    if p.stopped || |p.waiters| >= p.maxPending {
      NotInLine(p, w);
      RefuseWait(p, w);
    } else {
      ArriveIsReady(p, w);
      AcceptWait(p, w);
    }
  }

  lemma AcceptRequest(s: State, id: Id, sink: Sink, peerId: PeerId)
    requires BeforeMatch(Enqueue(s, id, sink, peerId)) && CallInv(s)
    ensures CallInv(MatchAll(Enqueue(s, id, sink, peerId)))
  {
    PlusNothing(s.tasks);
    MuteKeeps(s, Enqueue(s, id, sink, peerId), []);
    MatchKeepsCalls(Enqueue(s, id, sink, peerId));
  }

  lemma RefuseRequest(s: State, sink: Sink, peerId: PeerId)
    requires CallInv(s)
    ensures CallInv(Schedule(s.(trace := s.trace.(sinks := s.trace.sinks[sink := peerId])),
                             [Reply(sink, peerId, Refused, None, None)]))
  {
    var t := Reply(sink, peerId, Refused, None, None);
    MuteKeeps(s, Schedule(s.(trace := s.trace.(sinks := s.trace.sinks[sink := peerId])), [t]), [t]);
  }

  lemma SubmitKeepsCalls(s: State, id: Id, sink: Sink, peerId: PeerId)
    requires QueueInv(s) && CallInv(s) && id !in s.trace.order
    ensures CallInv(Submit(s, id, sink, peerId))
  {
    var p := Purge(s);
    SameQueues(s, p);
    PurgeKeepsCalls(s);
    if p.stopped || |p.requests| >= p.maxPending {
      RefuseRequest(p, sink, peerId);
    } else {
      EnqueueIsReady(p, id, sink, peerId);
      AcceptRequest(p, id, sink, peerId);
    }
  }

  // ---- watching ----

  lemma RefuseWatch(s: State, n: State, w: Call, t: Task)
    requires CallInv(s) && w !in s.trace.watches && TurnsAway(w)(t)
    requires SameCalls(s.(trace := s.trace.(watches := s.trace.watches + {w})), n)
    requires n.tasks == s.tasks + [t] && n.trace.log == s.trace.log
    ensures CallInv(n)
  {
    forall v: Call
      ensures Made(n, TurnsAway(v), TurnedAway(v)) == Made(s, TurnsAway(v), TurnedAway(v)) + if v == w then 1 else 0
      ensures Made(n, EndsWait(v), EndedWait(v)) == Made(s, EndsWait(v), EndedWait(v))
    {
      OneMakes(s, n, t, EndsWait(v), EndedWait(v));
      OneMakes(s, n, t, TurnsAway(v), TurnedAway(v));
    }
    forall v: Call, id: Id ensures Made(n, Gift(v, id), Given(v, id)) == Matches(n, v, id) {
      OneMakes(s, n, t, Gift(v, id), Given(v, id));
    }
  }

  lemma RegisterKeepsCalls(s: State, n: State, w: Call, id: Id)
    requires CallInv(s) && w !in s.trace.watches
    requires n.tasks == s.tasks && n.trace.log == s.trace.log && n.waiters == s.waiters
    requires n.trace.waits == s.trace.waits && n.trace.arrived == s.trace.arrived && n.trace.matched == s.trace.matched
    requires n.trace.watches == s.trace.watches + {w} && n.trace.watching == s.trace.watching[w := id]
    ensures CallInv(n)
  {
    forall v: Call
      ensures Made(n, TurnsAway(v), TurnedAway(v)) == if v in n.trace.watches && v !in n.trace.watching then 1 else 0
    {
      assert Made(n, TurnsAway(v), TurnedAway(v)) == Made(s, TurnsAway(v), TurnedAway(v));
    }
    assert forall v: Call :: Made(n, EndsWait(v), EndedWait(v)) == Made(s, EndsWait(v), EndedWait(v));
    assert forall v: Call, x: Id :: Made(n, Gift(v, x), Given(v, x)) == Made(s, Gift(v, x), Given(v, x));
  }

  lemma WatchKeepsCalls(s: State, w: Call, id: Id)
    requires CallInv(s) && w !in s.trace.watches
    ensures CallInv(WaitCancel(s, w, id))
  {
    var p, n := Purge(s), WaitCancel(s, w, id);
    PurgeKeepsCalls(s);
    if id in p.requests && p.requests[id].phase == Assigned && p.requests[id].watcher.None? {
      RegisterKeepsCalls(p, n, w, id);
    } else if id !in p.requests && id in p.terminal {
      RefuseWatch(p, n, w, TellLate(w, id, p.terminal[id].phase));
    } else {
      RefuseWatch(p, n, w, FailWatcher(w));
    }
  }

  // ---- stopping ----

  /** Stopping fails each waiter in line once. */
  lemma {:induction false} CountFails(waiters: seq<Call>, w: Call)
    requires Distinct(waiters)
    ensures Count(FailAll(waiters), EndsWait(w)) == if w in waiters then 1 else 0
  {
    if waiters != [] {
      var most, last := waiters[..|waiters| - 1], waiters[|waiters| - 1];
      DistinctLast(waiters);
      CountFails(most, w);
      CountAppend(FailAll(most), [FailWaiter(last)], EndsWait(w));
      CountOne(FailWaiter(last), EndsWait(w));
    }
  }

  lemma {:induction false} FailsGiveNothing(waiters: seq<Call>)
    ensures forall i :: 0 <= i < |FailAll(waiters)| ==> FailAll(waiters)[i].FailWaiter?
  {
    if waiters != [] { FailsGiveNothing(waiters[..|waiters| - 1]); }
  }

  lemma {:induction false} RestIsMute(requests: map<Id, Pending>, ids: seq<Id>)
    ensures forall i :: 0 <= i < |TellAll(requests, ids)| ==> Mute(TellAll(requests, ids)[i])
    ensures forall i :: 0 <= i < |HaltAll(requests, ids)| ==> Mute(HaltAll(requests, ids)[i])
  {
    if ids != [] { RestIsMute(requests, ids[..|ids| - 1]); }
  }

  /** The waiters first. */
  function Dismissed(s: State): State {
    s.(waiters := [], tasks := s.tasks + FailAll(s.waiters))
  }

  lemma DismissEndsWaits(s: State, w: Call)
    requires WaitsEnd(s) && Distinct(s.waiters) && forall v :: v in s.waiters ==> v in s.trace.waits
    ensures Made(Dismissed(s), EndsWait(w), EndedWait(w)) == if w in s.trace.waits then 1 else 0
  {
    SectionMakes(s, Dismissed(s), FailAll(s.waiters), EndsWait(w), EndedWait(w));
    CountFails(s.waiters, w);
    assert Made(s, EndsWait(w), EndedWait(w)) == if w in s.trace.waits && w !in s.waiters then 1 else 0;
  }

  lemma DismissMakesOnlyFailures(s: State, due: Task -> bool, done: Event -> bool)
    requires forall t :: due(t) ==> !t.FailWaiter?
    ensures Made(Dismissed(s), due, done) == Made(s, due, done)
  {
    FailsGiveNothing(s.waiters);
    SectionMakes(s, Dismissed(s), FailAll(s.waiters), due, done);
    CountNone(FailAll(s.waiters), due);
  }

  lemma DismissKeepsCalls(s: State)
    requires CallInv(s) && Distinct(s.waiters) && forall w :: w in s.waiters ==> w in s.trace.waits
    ensures CallInv(Dismissed(s))
  {
    var n := Dismissed(s);
    forall w: Call
      ensures Made(n, EndsWait(w), EndedWait(w)) == if w in n.trace.waits && w !in n.waiters then 1 else 0
      ensures Made(n, TurnsAway(w), TurnedAway(w)) == Made(s, TurnsAway(w), TurnedAway(w))
    {
      DismissEndsWaits(s, w);
      DismissMakesOnlyFailures(s, TurnsAway(w), TurnedAway(w));
    }
    forall w: Call, id: Id ensures Made(n, Gift(w, id), Given(w, id)) == Matches(n, w, id) {
      DismissMakesOnlyFailures(s, Gift(w, id), Given(w, id));
    }
  }

  lemma StopKeepsCalls(s: State, ids: seq<Id>)
    requires QueueInv(s) && CallInv(s)
    ensures CallInv(Stop(s, ids))
  {
    WaitersAreDistinct(s);
    DismissKeepsCalls(s);
    RestOfStop(s, ids);
  }

  lemma RestOfStop(s: State, ids: seq<Id>)
    requires CallInv(Dismissed(s))
    ensures CallInv(Stop(s, ids))
  {
    var tells, halts := TellAll(s.requests, ids), HaltAll(s.requests, ids);
    RestIsMute(s.requests, ids);
    forall i | 0 <= i < |tells + halts| ensures Mute((tells + halts)[i]) {
      assert (tells + halts)[i] == if i < |tells| then tells[i] else halts[i - |tells|];
    }
    Regroup(s.tasks, FailAll(s.waiters), tells, halts);
    MuteKeeps(Dismissed(s), Stop(s, ids), tells + halts);
  }

  lemma Regroup(a: seq<Task>, b: seq<Task>, c: seq<Task>, d: seq<Task>)
    ensures a + (b + c + d) == (a + b) + (c + d)
  {
  }

  // ---- deliveries ----

  lemma DeliverMakes(s: State, k: nat, ok: bool, due: Task -> bool, done: Event -> bool)
    requires k < |s.tasks|
    requires Count(EventsOf(s.tasks[k], ok), done) + Count(FollowUps(s.tasks[k], ok), due) == if due(s.tasks[k]) then 1 else 0
    ensures Made(Deliver(s, k, ok), due, done) == Made(s, due, done)
  {
    var t := s.tasks[k];
    CountRemove(s.tasks, k, due);
    CountAppend(s.tasks[..k] + s.tasks[k + 1..], FollowUps(t, ok), due);
    CountAppend(s.trace.log, EventsOf(t, ok), done);
  }

  /** Carrying out a task makes the outcome it was, and puts none on its way. */
  lemma FollowUpsAreMute(t: Task, ok: bool)
    ensures forall i :: 0 <= i < |FollowUps(t, ok)| ==> Mute(FollowUps(t, ok)[i])
    ensures |EventsOf(t, ok)| <= 1
  {
  }

  lemma EventCount(t: Task, ok: bool, due: Task -> bool, done: Event -> bool)
    requires forall u :: due(u) ==> !Mute(u)
    requires EventsOf(t, ok) == [] ==> !due(t)
    requires EventsOf(t, ok) != [] ==> done(EventsOf(t, ok)[0]) == due(t)
    ensures Count(EventsOf(t, ok), done) + Count(FollowUps(t, ok), due) == if due(t) then 1 else 0
  {
    FollowUpsAreMute(t, ok);
    CountNone(FollowUps(t, ok), due);
    if EventsOf(t, ok) != [] {
      assert EventsOf(t, ok) == [EventsOf(t, ok)[0]];
      CountOne(EventsOf(t, ok)[0], done);
    }
  }

  lemma DeliverKeepsCalls(s: State, k: nat, ok: bool)
    requires CallInv(s) && k < |s.tasks|
    ensures CallInv(Deliver(s, k, ok))
  {
    var n, t := Deliver(s, k, ok), s.tasks[k];
    forall w: Call
      ensures Made(n, EndsWait(w), EndedWait(w)) == Made(s, EndsWait(w), EndedWait(w))
      ensures Made(n, TurnsAway(w), TurnedAway(w)) == Made(s, TurnsAway(w), TurnedAway(w))
    {
      EventCount(t, ok, EndsWait(w), EndedWait(w));
      EventCount(t, ok, TurnsAway(w), TurnedAway(w));
      DeliverMakes(s, k, ok, EndsWait(w), EndedWait(w));
      DeliverMakes(s, k, ok, TurnsAway(w), TurnedAway(w));
    }
    forall w: Call, id: Id ensures Made(n, Gift(w, id), Given(w, id)) == Matches(n, w, id) {
      EventCount(t, ok, Gift(w, id), Given(w, id));
      DeliverMakes(s, k, ok, Gift(w, id), Given(w, id));
    }
  }

  // ---- every step, every run ----

  lemma RespondKeepsCalls(s: State, id: Id)
    requires CallInv(s)
    ensures CallInv(Respond(s, id))
  {
    var p, n := Purge(s), Respond(s, id);
    PurgeKeepsCalls(s);
    if id in p.requests && p.requests[id].phase == Assigned {
      MuteKeeps(p, n, [Reply(p.requests[id].sink, p.requests[id].peerId, Answer, Some(id), p.requests[id].watcher)]);
    }
  }

  lemma CancelKeepsCalls(s: State, id: Id)
    requires CallInv(s)
    ensures CallInv(Cancel(s, id))
  {
    var p, n := Purge(s), Cancel(s, id);
    PurgeKeepsCalls(s);
    if id in p.requests && (p.requests[id].phase == Queued || p.requests[id].phase == Assigned) {
      var watcher := p.requests[id].watcher;
      MuteKeeps(p, n, if watcher.Some? then [Tell(watcher.value, id, Cancelled, true)] else []);
    }
  }

  lemma ExpireKeepsCalls(s: State, id: Id)
    requires CallInv(s)
    ensures CallInv(Expire(s, id))
  {
    if id in s.requests && !s.stopped && s.requests[id].phase == Queued {
      MuteKeeps(s, Expire(s, id), [Reply(s.requests[id].sink, s.requests[id].peerId, Expired, Some(id), None)]);
    }
  }

  lemma PassKeepsCalls(s: State, seconds: nat)
    requires CallInv(s)
    ensures CallInv(Next(s, DoPass(seconds)))
  {
    PlusNothing(s.tasks);
    MuteKeeps(s, Next(s, DoPass(seconds)), []);
  }

  lemma NextKeepsCalls(s: State, step: Step)
    requires QueueInv(s) && CallInv(s) && Legal(s, step)
    ensures CallInv(Next(s, step))
  {
    match step
    case DoWait(w) => WaitKeepsCalls(s, w);
    case DoSubmit(id, sink, peerId) => SubmitKeepsCalls(s, id, sink, peerId);
    case DoWaitCancel(w, id) => WatchKeepsCalls(s, w, id);
    case DoStop(ids) => StopKeepsCalls(s, ids);
    case DoDeliver(k, ok) => DeliverKeepsCalls(s, k, ok);
    case DoRespond(id) => RespondKeepsCalls(s, id);
    case DoCancel(id) => CancelKeepsCalls(s, id);
    case DoExpire(id) => ExpireKeepsCalls(s, id);
    case DoPass(seconds) => PassKeepsCalls(s, seconds);
  }

  lemma {:induction false} CallsInEveryRun(maxPending: nat, timeout: int, steps: seq<Step>)
    requires Run(Initial(maxPending, timeout), steps).Some?
    ensures CallInv(Run(Initial(maxPending, timeout), steps).value)
  {
    if steps != [] {
      var s := Run(Initial(maxPending, timeout), steps[..|steps| - 1]).value;
      QueuesInEveryRun(maxPending, timeout, steps[..|steps| - 1]);
      CallsInEveryRun(maxPending, timeout, steps[..|steps| - 1]);
      NextKeepsCalls(s, steps[|steps| - 1]);
    }
  }

  /**
   Over all interleavings, for every wait call, refused ones included: while it is
   in line nothing is made or scheduled for it, afterwards exactly one outcome is.
   If it was matched that is the request it was matched with, otherwise it is failed.
   */
  lemma OneOutcomePerWaiter(maxPending: nat, timeout: int, steps: seq<Step>, w: Call)
    requires Run(Initial(maxPending, timeout), steps).Some?
    requires w in Run(Initial(maxPending, timeout), steps).value.trace.waits
    ensures var s := Run(Initial(maxPending, timeout), steps).value;
            && Made(s, EndsWait(w), EndedWait(w)) == (if w in s.waiters then 0 else 1)
            && (forall id: Id :: (w, id) in s.trace.matched ==> Made(s, Gift(w, id), Given(w, id)) == 1)
            && (forall id: Id :: Gave(w, id) in s.trace.log || GiveWork(w, id) in s.tasks ==> (w, id) in s.trace.matched)
  {
    CallsInEveryRun(maxPending, timeout, steps);
    var s := Run(Initial(maxPending, timeout), steps).value;
    assert Made(s, EndsWait(w), EndedWait(w)) == if w in s.trace.waits && w !in s.waiters then 1 else 0;
    forall id: Id
      ensures (w, id) in s.trace.matched ==> Made(s, Gift(w, id), Given(w, id)) == 1
      ensures Gave(w, id) in s.trace.log || GiveWork(w, id) in s.tasks ==> (w, id) in s.trace.matched
    {
      GiftsAreOutcomes(s, w, id);
      MatchedCount(s, w, id);
    }
  }

  lemma GiftsAreOutcomes(s: State, w: Call, id: Id)
    ensures Made(s, Gift(w, id), Given(w, id)) <= Made(s, EndsWait(w), EndedWait(w))
    ensures Gave(w, id) in s.trace.log || GiveWork(w, id) in s.tasks ==> Made(s, Gift(w, id), Given(w, id)) >= 1
  {
    CountFewer(s.tasks, Gift(w, id), EndsWait(w));
    CountFewer(s.trace.log, Given(w, id), EndedWait(w));
    if GiveWork(w, id) in s.tasks {
      var i :| 0 <= i < |s.tasks| && s.tasks[i] == GiveWork(w, id);
      CountPositive(s.tasks, Gift(w, id), i);
    }
    if Gave(w, id) in s.trace.log {
      var i :| 0 <= i < |s.trace.log| && s.trace.log[i] == Gave(w, id);
      CountPositive(s.trace.log, Given(w, id), i);
    }
  }

  lemma {:induction false} CountFewer<T>(xs: seq<T>, p: T -> bool, q: T -> bool)
    requires forall i :: 0 <= i < |xs| && p(xs[i]) ==> q(xs[i])
    ensures Count(xs, p) <= Count(xs, q)
  {
    if xs != [] { CountFewer(xs[..|xs| - 1], p, q); }
  }

  lemma MatchedCount(s: State, w: Call, id: Id)
    ensures (w, id) in s.trace.matched <==> Matches(s, w, id) >= 1
  {
    var p := (m: (Call, Id)) => m == (w, id);
    if (w, id) in s.trace.matched {
      var i :| 0 <= i < |s.trace.matched| && s.trace.matched[i] == (w, id);
      CountPositive(s.trace.matched, p, i);
    }
    if Matches(s, w, id) >= 1 {
      var i := CountWitness(s.trace.matched, p);
      assert s.trace.matched[i] == (w, id);
    }
  }

  /** The same for watchers: one that was not registered is turned away, or told what is remembered, exactly once. */
  lemma OneOutcomePerWatcher(maxPending: nat, timeout: int, steps: seq<Step>, w: Call)
    requires Run(Initial(maxPending, timeout), steps).Some?
    requires w in Run(Initial(maxPending, timeout), steps).value.trace.watches
    ensures var s := Run(Initial(maxPending, timeout), steps).value;
            Made(s, TurnsAway(w), TurnedAway(w)) == if w in s.trace.watching then 0 else 1
  {
    CallsInEveryRun(maxPending, timeout, steps);
    var s := Run(Initial(maxPending, timeout), steps).value;
    assert Made(s, TurnsAway(w), TurnedAway(w)) == if w in s.trace.watches && w !in s.trace.watching then 1 else 0;
  }
}
