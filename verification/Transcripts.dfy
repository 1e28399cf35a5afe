/**
 What a funding operation asked of CLN and was told, in order, and which orders
 are sound: nothing is handed over before every channel is ready, and nothing is
 given back while CLN may still hold a channel open.
 */
module Transcripts {
  import opened Prelude
  import opened Sequences

  datatype Outcome = Answered | Raised | Interrupted

  datatype Status = IsWithheld | IsBroadcast | IsAbsent | Unknown

  datatype Request =
    | FundStart(peer: string)
    | FundComplete(peer: string, psbt: string)
    | FundCancel(peer: string)
    | SendPsbt(psbt: string)
    | SpliceInit(channel: string)
    | SpliceUpdate(channel: string, psbt: string)
    | SpliceSigned(channel: string, psbt: string)

  /** The action under which the journal keeps it. */
  function Action(q: Request): string {
    match q
    case FundStart(_) => "fundchannel_start"
    case FundComplete(_, _) => "fundchannel_complete"
    case FundCancel(_) => "fundchannel_cancel"
    case SendPsbt(_) => "sendpsbt"
    case SpliceInit(_) => "splice_init"
    case SpliceUpdate(_, _) => "splice_update"
    case SpliceSigned(_, _) => "splice_signed"
  }

  function Carried(q: Request): Option<string> {
    match q
    case FundComplete(_, psbt) => Some(psbt)
    case SendPsbt(psbt) => Some(psbt)
    case SpliceUpdate(_, psbt) => Some(psbt)
    case SpliceSigned(_, psbt) => Some(psbt)
    case _ => None
  }

  /** The requests that give the signed transaction away. */
  predicate HandsOver(q: Request) {
    q.SendPsbt? || q.SpliceSigned?
  }

  /** Whether CLN was asked, and if so whether it answered. */
  datatype Reply = Unasked | Lost | Received

  /**
   A call with its reply and its outcome for the caller, a funding state told
   (`Unknown` if the query failed), the user's decision, the answer to a splice
   update, the wallet's signature; the worker that keeps the leases has started,
   all leases were renewed; any other failure.
   */
  datatype Event =
    | Called(request: Request, reply: Reply, outcome: Outcome)
    | Told(peer: string, status: Status)
    | Decided(yes: bool)
    | Secured(yes: bool, psbt: string)
    | WalletSigned(psbt: string, signed: string)
    | LeasesKept
    | LeasesRenewed
    | Setback

  /** The coins are locked, kept by the worker and just renewed; nothing has been asked of CLN. */
  const READY: seq<Event> := [LeasesKept, LeasesRenewed]

  /** The call went through: CLN answered and the record was settled. */
  function Through(q: Request): Event {
    Called(q, Received, Answered)
  }

  predicate Asks(e: Event) {
    e.Called? && e.reply != Unasked
  }

  predicate GivesAway(e: Event) {
    Asks(e) && HandsOver(e.request)
  }

  function Front(t: seq<Event>): seq<Event>
    requires t != []
  {
    t[..|t| - 1]
  }

  function Last(t: seq<Event>): Event
    requires t != []
  {
    t[|t| - 1]
  }

  predicate HandedOver(t: seq<Event>) {
    t != [] && (GivesAway(Last(t)) || HandedOver(Front(t)))
  }

  /** A hand-over was at least attempted. */
  predicate Tried(t: seq<Event>) {
    t != [] && ((Last(t).Called? && HandsOver(Last(t).request)) || Tried(Front(t)))
  }

  /** The user was asked and never said no; without a question the answer is yes. */
  predicate Approved(t: seq<Event>) {
    Decided(true) in t && Decided(false) !in t
  }

  /** If the transaction was handed over, CLN has since said that it still withholds it. */
  predicate WithheldSince(t: seq<Event>, p: string) {
    t != [] ==> !GivesAway(Last(t)) && (Last(t) == Told(p, IsWithheld) || WithheldSince(Front(t), p))
  }

  /** The PSBT of the latest answer to a splice update. */
  function LatestPsbt(t: seq<Event>): Option<string> {
    if t == [] then None else if Last(t).Secured? then Some(Last(t).psbt) else LatestPsbt(Front(t))
  }

  /** What an operation sets out to do: open channels with these peers, or grow this channel. */
  datatype Aim = Channels(peers: seq<string>) | Growth(channel: string)

  /** How the body of an operation ends; only the last two leave no recorded error. */
  datatype Ending = Failed | RecoveryRequired | Declined | Stopped | Completed

  // ---- nothing out of turn ----

  predicate InOrder(t: seq<Event>, aim: Aim) {
    t != [] ==> InOrder(Front(t), aim) && InPlace(Front(t), Last(t), aim)
  }

  /** What must have come before each request, and before each word of CLN or of the wallet about a splice. */
  predicate InPlace(before: seq<Event>, e: Event, aim: Aim) {
    match e
    case Called(q, reply, _) => reply != Unasked ==> Due(before, q, aim)
    case Secured(_, _) => before != [] && AnswersUpdate(Last(before), aim)
    case WalletSigned(u, _) =>
      && Secured(true, u) in before && LatestPsbt(before) == Some(u) && Approved(before)
      && Last(before) == LeasesRenewed
    case _ => true
  }

  predicate AnswersUpdate(e: Event, aim: Aim) {
    e.Called? && e.request.SpliceUpdate? && e == Through(e.request) && aim == Growth(e.request.channel)
  }

  /** All but a cancel are made only on leases just renewed. */
  predicate Due(before: seq<Event>, q: Request, aim: Aim) {
    Placed(before, q, aim) && (q.FundCancel? || Renewing(before, q))
  }

  /** The leases were renewed last, but for calls of the same loop. */
  predicate Renewing(t: seq<Event>, q: Request) {
    t != [] && (Last(t) == LeasesRenewed || (Last(t).Called? && OfOneLoop(Last(t).request, q) && Renewing(Front(t), q)))
  }

  /** Calls made peer by peer on one renewal. */
  predicate OfOneLoop(a: Request, b: Request) {
    (a.FundStart? && b.FundStart?) || (a.FundComplete? && b.FundComplete?)
  }

  predicate Placed(before: seq<Event>, q: Request, aim: Aim) {
    match q
    case FundStart(p) => aim.Channels? && p in aim.peers && LeasesKept in before
    case FundComplete(p, _) => Through(FundStart(p)) in before && Approved(before)
    case FundCancel(p) => Through(FundStart(p)) in before && WithheldSince(before, p)
    case SendPsbt(psbt) => aim.Channels? && forall p :: p in aim.peers ==> Through(FundComplete(p, psbt)) in before
    case SpliceInit(c) => aim == Growth(c) && LeasesKept in before
    case SpliceUpdate(c, u) =>
      Through(SpliceInit(c)) in before && (LatestPsbt(before) == None || LatestPsbt(before) == Some(u))
    case SpliceSigned(c, psbt) => Through(SpliceInit(c)) in before && SignedAs(before, psbt)
  }

  /** The wallet signed the PSBT that CLN reported as secured, and this is what it gave. */
  predicate SignedAs(t: seq<Event>, psbt: string) {
    t != [] && ((Last(t).WalletSigned? && Last(t).signed == psbt) || SignedAs(Front(t), psbt))
  }

  // ---- nothing left open ----

  /** After this call CLN may hold something for the peer, as far as the operation can tell. */
  predicate Opens(e: Event, p: string) {
    e.Called? && match e.request
                 case FundStart(q) => q == p
                 case FundComplete(q, _) => q == p
                 case FundCancel(q) => q == p && e.outcome != Answered
                 case _ => true
  }

  /** A cancel that went through closes; that CLN knows of nothing only counts before any hand-over. */
  predicate LeftOpen(t: seq<Event>, p: string) {
    t != [] && (Opens(Last(t), p) || (LeftOpen(Front(t), p) && !Closes(Front(t), Last(t), p)))
  }

  predicate Closes(before: seq<Event>, e: Event, p: string) {
    e == Through(FundCancel(p)) || (e == Told(p, IsAbsent) && !Tried(before))
  }

  predicate NoCalls(t: seq<Event>) {
    t != [] ==> !Last(t).Called? && NoCalls(Front(t))
  }

  /** CLN holds nothing of the operation: each channel was closed, a splice never begun. */
  predicate Closed(t: seq<Event>, aim: Aim) {
    match aim
    case Channels(peers) => forall p :: p in peers ==> !LeftOpen(t, p)
    case Growth(_) => NoCalls(t)
  }

  /** CLN may hold all of it: no channel was closed, or the splice was begun. */
  predicate StillOpen(t: seq<Event>, aim: Aim) {
    match aim
    case Channels(peers) => peers != [] && forall p :: p in peers ==> LeftOpen(t, p)
    case Growth(_) => !NoCalls(t)
  }

  /** CLN has acknowledged everything the operation opens. */
  predicate AllOpened(t: seq<Event>, aim: Aim) {
    match aim
    case Channels(peers) => forall p :: p in peers ==> Through(FundStart(p)) in t
    case Growth(c) => Through(SpliceInit(c)) in t
  }

  /** The last thing that happened is that a call was interrupted. */
  predicate Interruption(t: seq<Event>) {
    t != [] && Last(t).Called? && Last(t).outcome == Interrupted
  }

  /** Interrupted in a call made before everything was open. */
  predicate CutAtStart(t: seq<Event>, aim: Aim) {
    Interruption(t) && !AllOpened(t, aim)
  }

  // ---- the ending ----

  /** Something failed, was refused or was interrupted. */
  predicate Bad(e: Event) {
    e == Setback || e == Decided(false) || (e.Called? && e.outcome != Answered)
  }

  predicate Trouble(t: seq<Event>) {
    t != [] && (Bad(Last(t)) || Trouble(Front(t)))
  }

  /** The transaction was taken: the hand-over was answered, or tried and CLN said afterwards that it is out. */
  predicate Delivered(t: seq<Event>) {
    t != [] && (Takes(Front(t), Last(t)) || Delivered(Front(t)))
  }

  predicate Takes(before: seq<Event>, e: Event) {
    if e.Told? then e.status == IsBroadcast && Tried(before)
    else e.Called? && HandsOver(e.request) && e == Through(e.request)
  }

  predicate Explains(t: seq<Event>, e: Ending) {
    && (e == Completed ==> Delivered(t))
    && (e == Declined ==> Decided(false) in t)
    && (e != Completed ==> Trouble(t))
  }

  /** The books of a run: `sent` says whether the transaction is out, `free` whether cleanup gives the coins back. */
  predicate Account(t: seq<Event>, aim: Aim, e: Ending, sent: bool, free: bool) {
    && InOrder(t, aim) && Explains(t, e)
    && (sent ==> HandedOver(t))
    && (free <==> Closed(t, aim) || CutAtStart(t, aim))
  }

  /** Everything was opened at CLN and still is, and no hand-over was tried. */
  predicate Underway(t: seq<Event>, aim: Aim) {
    AllOpened(t, aim) && StillOpen(t, aim) && !Tried(t)
  }

  /** Neither a cancel that went through nor word that CLN knows of nothing. */
  predicate Neutral(e: Event) {
    match e
    case Called(q, _, outcome) => q.FundCancel? ==> outcome != Answered
    case Told(_, status) => status != IsAbsent
    case _ => true
  }

  // ---- one event more ----

  lemma More(t: seq<Event>, e: Event)
    ensures HandedOver(t + [e]) == (HandedOver(t) || GivesAway(e))
    ensures Trouble(t + [e]) == (Trouble(t) || Bad(e))
    ensures Delivered(t + [e]) == (Delivered(t) || Takes(t, e))
    ensures Tried(t + [e]) == (Tried(t) || (e.Called? && HandsOver(e.request)))
  {
    LastOf(t, e);
  }

  lemma StillInOrder(t: seq<Event>, e: Event, aim: Aim)
    requires InOrder(t, aim) && InPlace(t, e, aim)
    ensures InOrder(t + [e], aim)
  {
    LastOf(t, e);
  }

  lemma MoreOf(t: seq<Event>, e: Event, p: string)
    ensures LeftOpen(t + [e], p) == (Opens(e, p) || (LeftOpen(t, p) && !Closes(t, e, p)))
    ensures WithheldSince(t + [e], p) == (!GivesAway(e) && (e == Told(p, IsWithheld) || WithheldSince(t, p)))
  {
    LastOf(t, e);
  }

  lemma StaysOpen(t: seq<Event>, e: Event, aim: Aim)
    requires StillOpen(t, aim) && (Neutral(e) || (e.Told? && Tried(t)))
    ensures StillOpen(t + [e], aim)
  {
    LastOf(t, e);
    if aim.Channels? {
      forall p | p in aim.peers ensures LeftOpen(t + [e], p) { MoreOf(t, e, p); }
    }
  }

  lemma StillOpenIsNotClosed(t: seq<Event>, aim: Aim)
    requires StillOpen(t, aim)
    ensures !Closed(t, aim)
  {
    if aim.Channels? { assert aim.peers[0] in aim.peers; }
  }

  lemma {:induction false} TriedIfHandedOver(t: seq<Event>)
    requires HandedOver(t)
    ensures Tried(t)
  {
    if !GivesAway(Last(t)) { TriedIfHandedOver(Front(t)); }
  }

  lemma MoreOfSplice(t: seq<Event>, e: Event)
    ensures LatestPsbt(t + [e]) == if e.Secured? then Some(e.psbt) else LatestPsbt(t)
    ensures e.WalletSigned? ==> SignedAs(t + [e], e.signed)
    ensures forall psbt :: SignedAs(t, psbt) ==> SignedAs(t + [e], psbt)
  {
    LastOf(t, e);
  }

  lemma {:induction false} NothingWithheld(t: seq<Event>, p: string)
    requires !Tried(t)
    ensures WithheldSince(t, p)
  {
    if t != [] { NothingWithheld(Front(t), p); }
  }

  /** The one request that opens what the operation is about. */
  predicate IsOpening(q: Request, aim: Aim) {
    match aim
    case Channels(peers) => q.FundStart? && peers == [q.peer]
    case Growth(c) => q == SpliceInit(c)
  }

  /** Nothing was asked and nothing is open when the coins are ready. */
  lemma Ready(aim: Aim)
    ensures InOrder(READY, aim) && !Tried(READY) && !HandedOver(READY) && LeasesKept in READY
    ensures forall q: Request :: Renewing(READY, q)
    ensures forall p :: !LeftOpen(READY, p)
  {
    var t := READY;
    assert Front(t) == [LeasesKept] && Last(t) == LeasesRenewed && Front(Front(t)) == [];
    assert Last(Front(t)) == LeasesKept && InOrder(Front(Front(t)), aim) && InOrder(Front(t), aim);
    assert !Tried(Front(t)) && !HandedOver(Front(t));
    forall p ensures !LeftOpen(t, p) { assert !LeftOpen(Front(t), p); }
  }

  /** The opening request, with nothing asked before it. */
  lemma OpeningCall(e: Event, aim: Aim)
    requires e.Called? && IsOpening(e.request, aim)
    ensures Due(READY, e.request, aim) && InOrder(READY + [e], aim) && !Tried(READY + [e])
    ensures e == Through(e.request) ==> Underway(READY + [e], aim)
    ensures e.outcome == Interrupted ==> Account(READY + [e], aim, Stopped, false, true)
    ensures e.outcome == Raised ==> Account(READY + [e], aim, RecoveryRequired, false, false)
  {
    var t := READY + [e];
    Ready(aim);
    StillInOrder(READY, e, aim);
    More(READY, e);
    LastOf(READY, e);
    if e.outcome != Answered { assert forall x :: x in t && x.Called? ==> x == e; }
    if aim.Channels? { MoreOf(READY, e, e.request.peer); }
  }

  lemma NothingDecided(e: Event)
    requires !e.Decided?
    ensures forall yes :: Decided(yes) !in READY + [e]
  {
  }

  /** With the leases renewed, what is in its place is due. */
  lemma DueOnceRenewed(t: seq<Event>, q: Request, aim: Aim)
    requires Placed(t, q, aim) && !q.FundCancel?
    ensures Due(t + [LeasesRenewed], q, aim)
  {
    LastOf(t, LeasesRenewed);
    MoreOfSplice(t, LeasesRenewed);
  }

  lemma {:induction false} SameLoop(t: seq<Event>, a: Request, b: Request)
    requires Renewing(t, a) && OfOneLoop(a, b)
    ensures Renewing(t, b)
  {
    if Last(t) != LeasesRenewed { SameLoop(Front(t), a, b); }
  }

  /** The next call of the loop is made on the same renewal. */
  lemma StillRenewing(t: seq<Event>, e: Event, q: Request)
    requires Renewing(t, q) && e.Called? && OfOneLoop(e.request, q)
    ensures Renewing(t + [e], q)
  {
    LastOf(t, e);
  }

  /** Nothing was asked of CLN before the failure. */
  lemma OnlySetback(aim: Aim)
    ensures Account([Setback], aim, Failed, false, true)
  {
    var t := [Setback];
    assert Last(t) == Setback && Front(t) == [] && NoCalls(Front(t));
    if aim.Channels? {
      forall p | p in aim.peers ensures !LeftOpen(t, p) {
        assert !LeftOpen(Front(t), p);
      }
    }
  }

  /** Once everything is open, an ending in trouble keeps the coins and is accounted for. */
  lemma Halts(t: seq<Event>, aim: Aim, e: Ending, sent: bool)
    requires InOrder(t, aim) && AllOpened(t, aim) && StillOpen(t, aim) && Trouble(t) && (sent ==> HandedOver(t))
    requires e == Failed || e == Stopped || e == RecoveryRequired
    ensures Account(t, aim, e, sent, false)
  {
    StillOpenIsNotClosed(t, aim);
  }

  // ---- cancels and questions, many at a time ----

  predicate IsAside(e: Event) {
    e.Told? || (e.Called? && e.request.FundCancel?)
  }

  /** Since `a` there were only cancels and questions about funding states. */
  ghost predicate Asides(a: seq<Event>, b: seq<Event>) {
    && Tried(b) == Tried(a) && HandedOver(b) == HandedOver(a) && (Trouble(a) ==> Trouble(b))
    && (forall e :: e in a ==> e in b)
    && (forall e :: e in b ==> e in a || IsAside(e))
  }

  lemma OneAsideMore(a: seq<Event>, b: seq<Event>, e: Event)
    requires Asides(a, b) && IsAside(e)
    ensures Asides(a, b + [e])
  {
    More(b, e);
  }

  predicate Distinct(peers: seq<string>) {
    peers != [] ==> peers[0] !in peers[1..] && Distinct(peers[1..])
  }

  lemma {:induction false} DistinctMeans(peers: seq<string>)
    requires Distinct(peers)
    ensures forall i, j :: 0 <= i < j < |peers| ==> peers[i] != peers[j]
  {
    if peers != [] {
      var rest := peers[1..];
      DistinctMeans(rest);
      forall i, j | 0 <= i < j < |peers| ensures peers[i] != peers[j] {
        assert peers[j] == rest[j - 1] && (i > 0 ==> peers[i] == rest[i - 1]);
      }
    }
  }

  lemma {:induction false} DistinctPrefix(peers: seq<string>, i: nat)
    requires Distinct(peers) && i <= |peers|
    ensures Distinct(peers[..i])
  {
    if i > 0 {
      DistinctPrefix(peers[1..], i - 1);
      assert peers[..i][1..] == peers[1..][..i - 1];
    }
  }

  /** Of the first peers, exactly those are open whose flag says so. */
  ghost predicate OpenAs(t: seq<Event>, peers: seq<string>, flags: seq<bool>)
    requires |flags| <= |peers|
  {
    forall j :: 0 <= j < |flags| ==> LeftOpen(t, peers[j]) == flags[j]
  }

  lemma OneCancelMore(t: seq<Event>, e: Event, peers: seq<string>, flags: seq<bool>)
    requires |flags| < |peers| && Distinct(peers) && OpenAs(t, peers, flags)
    requires e.Called? && e.request == FundCancel(peers[|flags|]) && (e.outcome == Answered ==> e.reply == Received)
    ensures OpenAs(t + [e], peers, flags + [e != Through(e.request)])
    ensures forall p :: p != peers[|flags|] ==> LeftOpen(t + [e], p) == LeftOpen(t, p)
    ensures forall p :: WithheldSince(t, p) ==> WithheldSince(t + [e], p)
  {
    DistinctMeans(peers);
    forall p ensures WithheldSince(t, p) ==> WithheldSince(t + [e], p)
             ensures LeftOpen(t + [e], p) == (Opens(e, p) || (LeftOpen(t, p) && !Closes(t, e, p)))
    {
      MoreOf(t, e, p);
    }
    var u, more := t + [e], flags + [e != Through(e.request)];
    forall j | 0 <= j < |more| ensures LeftOpen(u, peers[j]) == more[j] {
      if j < |flags| {
        assert peers[j] != peers[|flags|] && LeftOpen(u, peers[j]) == LeftOpen(t, peers[j]);
      }
    }
  }

  /** What the first answers about the peers' funding leave known. */
  ghost predicate Learned(a: seq<Event>, b: seq<Event>, peers: seq<string>, answers: seq<Status>)
    requires |answers| <= |peers|
  {
    && Asides(a, b)
    && (forall p :: WithheldSince(a, p) ==> WithheldSince(b, p))
    && (forall j :: 0 <= j < |answers| && answers[j] == IsWithheld ==> WithheldSince(b, peers[j]))
    && (forall j :: 0 <= j < |peers| && LeftOpen(a, peers[j]) && (Tried(a) || |answers| <= j || answers[j] != IsAbsent) ==>
          LeftOpen(b, peers[j]))
  }

  lemma OneAnswerMore(a: seq<Event>, b: seq<Event>, peers: seq<string>, answers: seq<Status>, status: Status)
    requires |answers| < |peers| && Distinct(peers) && Learned(a, b, peers, answers)
    ensures Learned(a, b + [Told(peers[|answers|], status)], peers, answers + [status])
  {
    DistinctMeans(peers);
    var p, more := peers[|answers|], answers + [status];
    var e := Told(p, status);
    OneAsideMore(a, b, e);
    forall q ensures WithheldSince(b + [e], q) == (e == Told(q, IsWithheld) || WithheldSince(b, q))
             ensures LeftOpen(b + [e], q) == (LeftOpen(b, q) && !Closes(b, e, q))
    {
      MoreOf(b, e, q);
    }
    forall j | 0 <= j < |peers| && LeftOpen(a, peers[j]) && (Tried(a) || |more| <= j || more[j] != IsAbsent)
      ensures LeftOpen(b + [e], peers[j])
    {
      if j != |answers| { assert peers[j] != p; }
    }
  }

  /** With every cancel tried, everything is closed exactly if none failed. */
  lemma AllTried(t: seq<Event>, peers: seq<string>, failed: seq<bool>)
    requires |failed| == |peers| && OpenAs(t, peers, failed)
    ensures Closed(t, Channels(peers)) <==> multiset(failed)[true] == 0
  {
    if true in multiset(failed) {
      var j :| 0 <= j < |failed| && failed[j];
      assert LeftOpen(t, peers[j]) && peers[j] in peers;
    } else {
      forall p | p in peers ensures !LeftOpen(t, p) {
        var j :| 0 <= j < |peers| && peers[j] == p;
        assert failed[j] in multiset(failed);
      }
    }
  }

  /** The channel opens of the first `i` peers went through, and no other did. */
  ghost predicate OpenedUpTo(t: seq<Event>, peers: seq<string>, i: nat)
    requires i <= |peers|
  {
    && !Tried(t) && Renewing(t, FundStart("")) && LeasesKept in t
    && (forall j :: 0 <= j < i ==> Through(FundStart(peers[j])) in t && LeftOpen(t, peers[j]))
    && (forall p :: Through(FundStart(p)) in t ==> p in peers[..i])
  }

  lemma OneOpeningMore(t: seq<Event>, e: Event, peers: seq<string>, i: nat)
    requires i < |peers| && OpenedUpTo(t, peers, i) && e.Called? && e.request == FundStart(peers[i])
    requires e.outcome == Answered ==> e.reply == Received
    ensures e.outcome == Answered ==> OpenedUpTo(t + [e], peers, i + 1)
    ensures e.outcome != Answered ==> OpenedUpTo(t + [e], peers, i) && Trouble(t + [e])
    ensures LeftOpen(t + [e], peers[i])
    ensures !Interruption(t + [e]) == (e.outcome != Interrupted)
  {
    More(t, e);
    LastOf(t, e);
    StillRenewing(t, e, FundStart(""));
    PrefixGrows(peers, i);
    forall p ensures LeftOpen(t + [e], p) == (Opens(e, p) || LeftOpen(t, p)) {
      MoreOf(t, e, p);
    }
  }

  lemma AllOpenedNow(t: seq<Event>, peers: seq<string>)
    requires OpenedUpTo(t, peers, |peers|) && peers != []
    ensures Underway(t, Channels(peers))
  {
  }

  /** Interrupted, or in trouble, before all channels were open: only the first leaves the coins to be given back. */
  lemma NotAllStarted(t: seq<Event>, peers: seq<string>, i: nat)
    requires i < |peers| && Distinct(peers) && InOrder(t, Channels(peers)) && Trouble(t) && LeftOpen(t, peers[i])
    requires forall p :: Through(FundStart(p)) in t ==> p in peers[..i]
    ensures Interruption(t) ==> Account(t, Channels(peers), Stopped, false, true)
    ensures !Interruption(t) ==> Account(t, Channels(peers), RecoveryRequired, false, false)
  {
    NotAllOpened(t, peers, i);
    assert peers[i] in peers;
  }

  lemma NotAllOpened(t: seq<Event>, peers: seq<string>, i: nat)
    requires i < |peers| && Distinct(peers) && (forall p :: Through(FundStart(p)) in t ==> p in peers[..i])
    ensures !AllOpened(t, Channels(peers)) && peers[i] !in peers[..i]
  {
    DistinctMeans(peers);
    assert peers[i] in peers;
  }

  // ---- what the books say about every run ----

  lemma {:induction false} InOrderAt(t: seq<Event>, aim: Aim, k: nat)
    requires InOrder(t, aim) && k < |t|
    ensures InPlace(t[..k], t[k], aim) && InOrder(t[..k], aim)
  {
    if k + 1 < |t| {
      InOrderAt(Front(t), aim, k);
      assert Front(t)[..k] == t[..k];
    }
  }

  /**
   A transaction that opens channels is handed over only after each peer's
   channel was started and then completed with that very transaction, on the
   user's word.
   */
  lemma BeforeHandOver(t: seq<Event>, peers: seq<string>, k: nat, p: string)
    requires InOrder(t, Channels(peers)) && k < |t| && Asks(t[k]) && t[k].request.SendPsbt? && p in peers
    ensures exists i, j :: 0 <= i < j < k && t[i] == Through(FundStart(p))
                           && t[j] == Through(FundComplete(p, t[k].request.psbt)) && Approved(t[..j])
  {
    InOrderAt(t, Channels(peers), k);
    var j :| 0 <= j < k && t[..k][j] == Through(FundComplete(p, t[k].request.psbt));
    InOrderAt(t, Channels(peers), j);
    var i :| 0 <= i < j && t[..j][i] == Through(FundStart(p));
    assert t[i] == Through(FundStart(p)) && t[j] == Through(FundComplete(p, t[k].request.psbt));
  }

  /**
   Whatever but a cancel is asked of CLN comes right after all leases were renewed,
   or in a loop of starts or completions begun right after it.
   */
  lemma RenewedBefore(t: seq<Event>, aim: Aim, k: nat) returns (j: nat)
    requires InOrder(t, aim) && k < |t| && Asks(t[k]) && !t[k].request.FundCancel?
    ensures j < k && t[j] == LeasesRenewed
    ensures forall i :: j < i < k ==> t[i].Called? && OfOneLoop(t[i].request, t[k].request)
  {
    InOrderAt(t, aim, k);
    j := RenewalAt(t[..k], t[k].request);
  }

  lemma {:induction false} RenewalAt(t: seq<Event>, q: Request) returns (j: nat)
    requires Renewing(t, q)
    ensures j < |t| && t[j] == LeasesRenewed
    ensures forall i :: j < i < |t| ==> t[i].Called? && OfOneLoop(t[i].request, q)
  {
    j := |t| - 1;
    if Last(t) != LeasesRenewed { j := RenewalAt(Front(t), q); }
  }

  lemma {:induction false} SignedAt(t: seq<Event>, psbt: string) returns (l: nat)
    requires SignedAs(t, psbt)
    ensures l < |t| && t[l].WalletSigned? && t[l].signed == psbt
  {
    l := |t| - 1;
    if !(Last(t).WalletSigned? && Last(t).signed == psbt) { l := SignedAt(Front(t), psbt); }
  }

  /**
   A splice is handed over only as the wallet signed it, and the wallet signs only
   what CLN, asked for an update of this channel, reported as secured.
   */
  lemma BeforeSpliceSigned(t: seq<Event>, channel: string, k: nat) returns (j: nat, l: nat)
    requires InOrder(t, Growth(channel)) && k < |t| && Asks(t[k]) && t[k].request.SpliceSigned?
    ensures 0 < j < l < k && t[j].Secured? && t[j].yes && t[l] == WalletSigned(t[j].psbt, t[k].request.psbt)
    ensures AnswersUpdate(t[j - 1], Growth(channel)) && Approved(t[..l]) && LatestPsbt(t[..l]) == Some(t[j].psbt)
  {
    InOrderAt(t, Growth(channel), k);
    l := SignedAt(t[..k], t[k].request.psbt);
    InOrderAt(t, Growth(channel), l);
    j :| 0 <= j < l && t[..l][j] == Secured(true, t[l].psbt);
    InOrderAt(t, Growth(channel), j);
  }

  /** What is not left open was closed: by a cancel that went through, or found absent before any hand-over. */
  lemma {:induction false} ClosedMeans(t: seq<Event>, p: string, k: nat)
    requires !LeftOpen(t, p) && k < |t| && Opens(t[k], p)
    ensures exists j :: k < j < |t| && Closes(t[..j], t[j], p)
  {
    if Closes(Front(t), Last(t), p) {
      assert t[..|t| - 1] == Front(t) && k < |t| - 1;
    } else {
      ClosedMeans(Front(t), p, k);
      var j :| k < j < |t| - 1 && Closes(Front(t)[..j], Front(t)[j], p);
      assert Front(t)[..j] == t[..j];
    }
  }
}
