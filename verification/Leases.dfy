/** The lease store seen by any number of processes, each with its own owner tokens. */
module Leases {
  import opened Outpoints
  import opened Records
  import opened Worlds

  datatype Store = Store(leases: map<Outpoint, Lease>, now: int)

  datatype Action =
    | Reserve(o: Outpoint, t: Token)
    | Renew(o: Outpoint, t: Token)
    | Free(o: Outpoint, t: Token)
    | Pass(seconds: nat)

  predicate Live(st: Store, o: Outpoint, t: Token) {
    o in st.leases && st.leases[o].owner == t && st.now < st.leases[o].expiry
  }

  function Act(st: Store, a: Action): Store {
    match a
    case Reserve(o, t) =>
      if o in st.leases && st.now < st.leases[o].expiry then st
      else st.(leases := st.leases[o := Lease(t, st.now + LOCK_TTL_SECONDS)])
    case Renew(o, t) =>
      if Live(st, o, t) then st.(leases := st.leases[o := Lease(t, st.now + LOCK_TTL_SECONDS)]) else st
    case Free(o, t) =>
      if o in st.leases && st.leases[o].owner == t then st.(leases := st.leases - {o}) else st
    case Pass(seconds) => st.(now := st.now + seconds)
  }

  function Acts(st: Store, actions: seq<Action>): Store {
    if actions == [] then st else Act(Acts(st, actions[..|actions| - 1]), actions[|actions| - 1])
  }

  /** No lease runs longer than a full TTL from now. */
  ghost predicate Bounded(st: Store) {
    forall o :: o in st.leases ==> st.leases[o].expiry <= st.now + LOCK_TTL_SECONDS
  }

  /**
   Whatever the others do, reserve, renew or release with any token but this
   one, a lease stays its owner's until it runs out; it changes hands no earlier.
   */
  lemma {:induction false} OnlyTheOwnerEndsALease(st: Store, actions: seq<Action>, o: Outpoint, t: Token)
    requires Bounded(st) && o in st.leases && st.leases[o].owner == t
    requires Free(o, t) !in actions
    ensures var e := Acts(st, actions);
            && Bounded(e) && st.now <= e.now
            && (e.now < st.leases[o].expiry ==>
                  o in e.leases && e.leases[o].owner == t && st.leases[o].expiry <= e.leases[o].expiry)
  {
    if actions != [] {
      var most := actions[..|actions| - 1];
      OnlyTheOwnerEndsALease(st, most, o, t);
    }
  }

  /**
   A process whose lease ran out and was taken over by a newer token cannot hurt
   the new owner: releases and renewals with the old token change nothing,
   however many and whenever they come.
   */
  lemma {:induction false} StaleOwnerIsHarmless(st: Store, stale: seq<Action>, o: Outpoint, old_: Token, new_: Token)
    requires o in st.leases && st.leases[o].owner == new_ && new_ != old_
    requires forall i :: 0 <= i < |stale| ==> stale[i] == Free(o, old_) || stale[i] == Renew(o, old_)
    ensures Acts(st, stale) == st
  {
    if stale != [] {
      StaleOwnerIsHarmless(st, stale[..|stale| - 1], o, old_, new_);
    }
  }
}
