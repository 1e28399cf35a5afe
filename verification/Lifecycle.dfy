/** The phase graph shared by the funding operations, and the fields cleanup looks at. */
module Lifecycles {

  datatype Phase = Prestart | Locked | Started | Withheld | Updated | Signed | Prepared | Broadcast | Discarded

  function Name(p: Phase): string {
    match p
    case Prestart => "prestart" case Locked => "locked" case Started => "started"
    case Withheld => "withheld" case Updated => "updated" case Signed => "signed"
    case Prepared => "prepared" case Broadcast => "broadcast" case Discarded => "discarded"
  }

  function Allowed(p: Phase): set<Phase> {
    match p
    case Prestart => {Locked, Started}
    case Locked => {Locked, Started, Withheld, Broadcast}
    case Started => {Locked, Started, Withheld, Updated, Signed, Broadcast}
    case Withheld => {Locked, Broadcast}
    case Updated => {Started, Signed}
    case Signed => {Signed, Broadcast}
    case Prepared => {Prepared, Broadcast, Discarded}
    case Broadcast => {Broadcast}
    case Discarded => {Discarded}
  }

  /** Once broadcast or discarded, a lifecycle stays there. */
  lemma {:induction false} TerminalPhasesAreFinal(path: seq<Phase>, i: nat)
    requires i < |path|
    requires forall k :: 0 < k < |path| ==> path[k] in Allowed(path[k - 1])
    requires path[i] == Broadcast || path[i] == Discarded
    ensures forall k :: i <= k < |path| ==> path[k] == path[i]
    decreases |path| - i
  {
    if i + 1 < |path| {
      assert path[i + 1] in Allowed(path[i]);
      TerminalPhasesAreFinal(path, i + 1);
    }
  }

  class OperationLifecycle {
    var phase: Phase
    var releaseLocks: bool
    var cleanupErrors: nat

    constructor ()
      ensures phase == Prestart && releaseLocks && cleanupErrors == 0
    {
      phase, releaseLocks, cleanupErrors := Prestart, true, 0;
    }

    /** The condition of `resolve_if_clean`. */
    predicate Done(terminalPhase: Phase)
      reads this
    {
      cleanupErrors == 0 && (releaseLocks || phase == terminalPhase)
    }

    /** `false` is the ValueError of a transition outside the graph; the phase then stays. */
    method Transition(target: Phase) returns (ok: bool)
      modifies this`phase
      ensures ok <==> target in Allowed(old(phase))
      ensures phase == if ok then target else old(phase)
    {
      ok := target in Allowed(phase);
      if ok { phase := target; }
    }
  }
}
