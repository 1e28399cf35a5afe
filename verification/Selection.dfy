/**
 The four loops that select coins, plan, and select again with a higher target
 when the fee was not covered. Given a selector that keeps its contract each
 retry selects strictly more, so the loops end and their guard against being
 handed the same coins twice never fires.
 */
module Selection {
  import opened Prelude
  import opened Sequences
  import opened Outpoints
  import opened Planner

  datatype SelectError =
    | BadRequest   // no output, or one of nothing or less
    | BadRate      // CLN reported a rate of nothing or less
    | SelectorRefused
    | NotPermitted
    | NotOneCoin
    | Unplannable(error: PlanError)

  /** What the wallet selects on its k-th call for a target; `None` raises. */
  type Selector = (nat, int) -> Option<seq<Outpoint>>

  predicate InPool(o: Outpoint, pool: seq<Coin>) {
    exists i :: 0 <= i < |pool| && pool[i].outpoint == o
  }

  function CoinAt(o: Outpoint, pool: seq<Coin>): (c: Coin)
    requires InPool(o, pool)
    ensures c in pool && c.outpoint == o
  {
    if pool[|pool| - 1].outpoint == o then pool[|pool| - 1] else CoinAt(o, pool[..|pool| - 1])
  }

  function CoinsAt(raw: seq<Outpoint>, pool: seq<Coin>): (r: seq<Coin>)
    requires forall i :: 0 <= i < |raw| ==> InPool(raw[i], pool)
    ensures |r| == |raw|
    ensures forall i :: 0 <= i < |r| ==> r[i] in pool && r[i].outpoint == raw[i]
  {
    seq(|raw|, i requires 0 <= i < |raw| => CoinAt(raw[i], pool))
  }

  /** The wallet's promise: different coins out of the pool worth the target at least. */
  ghost predicate Answers(raw: seq<Outpoint>, pool: seq<Coin>, target: int) {
    && (forall i :: 0 <= i < |raw| ==> InPool(raw[i], pool))
    && (forall i, j :: 0 <= i < j < |raw| ==> raw[i] != raw[j])
    && SumValues(CoinsAt(raw, pool)) >= target
  }

  ghost predicate Honest(select: Selector, pool: seq<Coin>) {
    forall k, target :: select(k, target).Some? ==> Answers(select(k, target).value, pool, target)
  }

  function OutpointSet(coins: seq<Coin>): set<Outpoint> {
    set i | 0 <= i < |coins| :: coins[i].outpoint
  }

  // ---- a selection is worth no more than the pool ----

  lemma SumInsert(a: seq<Coin>, c: Coin, b: seq<Coin>)
    ensures SumValues(a + [c] + b) == SumValues(a + b) + c.value
  {
    SumValuesAppend(a + [c], b);
    SumValuesAppend(a, b);
    assert (a + [c])[..|a|] == a;
  }

  lemma SumWithout(coins: seq<Coin>, k: nat)
    requires k < |coins|
    ensures SumValues(coins) == SumValues(coins[..k] + coins[k + 1..]) + coins[k].value
  {
    Cut(coins, k);
    SumInsert(coins[..k], coins[k], coins[k + 1..]);
  }

  lemma {:induction false} PartIsWorthLess(some: seq<Coin>, pool: seq<Coin>)
    requires DistinctCoins(some)
    requires forall i :: 0 <= i < |some| ==> some[i] in pool
    ensures SumValues(some) <= SumValues(pool)
    decreases |some|
  {
    if some != [] {
      var last := some[|some| - 1];
      var most := some[..|some| - 1];
      var k :| 0 <= k < |pool| && pool[k] == last;
      SumWithout(pool, k);
      var others := pool[..k] + pool[k + 1..];
      forall i | 0 <= i < |most| ensures most[i] in others {
        var j :| 0 <= j < |pool| && pool[j] == most[i];
        assert others[if j < k then j else j - 1] == pool[j];
      }
      PartIsWorthLess(most, others);
    }
  }

  /** The same coins are worth the same. */
  lemma SameCoinsSameWorth(a: seq<Coin>, b: seq<Coin>, pool: seq<Coin>)
    requires DistinctCoins(a) && DistinctCoins(b) && DistinctCoins(pool)
    requires forall i :: 0 <= i < |a| ==> a[i] in pool
    requires forall i :: 0 <= i < |b| ==> b[i] in pool
    requires OutpointSet(a) == OutpointSet(b)
    ensures SumValues(a) == SumValues(b)
  {
    Within(a, b, pool);
    Within(b, a, pool);
    PartIsWorthLess(a, b);
    PartIsWorthLess(b, a);
  }

  lemma Within(a: seq<Coin>, b: seq<Coin>, pool: seq<Coin>)
    requires DistinctCoins(pool)
    requires forall i :: 0 <= i < |a| ==> a[i] in pool
    requires forall i :: 0 <= i < |b| ==> b[i] in pool
    requires OutpointSet(a) <= OutpointSet(b)
    ensures forall i :: 0 <= i < |a| ==> a[i] in b
  {
    forall i | 0 <= i < |a| ensures a[i] in b {
      assert a[i].outpoint in OutpointSet(a);
      var j :| 0 <= j < |b| && b[j].outpoint == a[i].outpoint;
      var k :| 0 <= k < |pool| && pool[k] == a[i];
      var l :| 0 <= l < |pool| && pool[l] == b[j];
      assert k == l;
    }
  }

  // ---- one selection ----

  /** Distinct coins of the pool, at least one, worth the target. */
  ghost predicate Chosen(coins: seq<Coin>, pool: seq<Coin>, target: int) {
    && coins != [] && DistinctCoins(coins) && (forall i :: 0 <= i < |coins| ==> coins[i] in pool)
    && target <= SumValues(coins) <= SumValues(pool)
  }

  /** The wallet's answer names these coins. */
  ghost predicate Picks(raw: Option<seq<Outpoint>>, pool: seq<Coin>, coins: seq<Coin>) {
    raw.Some? && (forall i :: 0 <= i < |raw.value| ==> InPool(raw.value[i], pool)) && coins == CoinsAt(raw.value, pool)
  }

  /** The promise leaves no room for a coin outside the pool or for an empty selection, both errors in the code. */
  method SelectOnce(select: Selector, pool: seq<Coin>, k: nat, target: int) returns (r: Result<seq<Coin>, SelectError>)
    requires Honest(select, pool) && target > 0
    ensures r.Ok? <==> select(k, target).Some?
    ensures r.Ok? ==> Chosen(r.value, pool, target) && Picks(select(k, target), pool, r.value)
    ensures r.Err? ==> r.error == SelectorRefused
  {
    var raw := select(k, target);
    if raw.None? { return Err(SelectorRefused); }
    var coins: seq<Coin> := [];
    for i := 0 to |raw.value|
      invariant coins == CoinsAt(raw.value[..i], pool)
    {
      coins := coins + [CoinAt(raw.value[i], pool)];
    }
    assert raw.value[..|raw.value|] == raw.value;
    PartIsWorthLess(coins, pool);
    return Ok(coins);
  }

  lemma SettledShort(coins: seq<Coin>, targets: seq<int>, types: seq<string>, vsize: nat, fee: int, dust: nat)
    requires |targets| == |types| && !IsSweep(targets)
    requires Settle(coins, targets, types, vsize, fee, dust) == Err(InsufficientFunds)
    ensures SumValues(coins) < Sum(targets) + fee
  {
  }

  /** A plan fails for want of funds only if the coins do not cover amounts and fee. */
  lemma Shortfall(coins: seq<Coin>, targets: seq<int>, feeRate: real, types: seq<string>, estimate: Estimator, dust: nat)
    requires BuildMultiPlan(coins, targets, feeRate, types, estimate, dust) == Err(InsufficientFunds)
    requires !IsSweep(targets)
    ensures feeRate > 0.0
    ensures SumValues(coins) < Sum(targets) + FeeFor(coins, feeRate, types, estimate)
  {
    var vsize := EstimatedSize(coins, targets, types, estimate);
    SettledShort(coins, targets, types, vsize, FeeOf(vsize, feeRate), dust);
  }

  /** The fee of a transaction over these coins with change. */
  function FeeFor(coins: seq<Coin>, feeRate: real, types: seq<string>, estimate: Estimator): int {
    FeeOf(estimate(InputTypes(coins), types + ["p2wpkh"]), feeRate)
  }

  predicate AllPositive(targets: seq<int>) {
    targets != [] && forall i :: 0 <= i < |targets| ==> targets[i] > 0
  }

  /** `previous` remembers the last selection, worth `worth`; the target is out of its reach. */
  ghost predicate Retrying(previous: Option<set<Outpoint>>, worth: int, last: seq<Coin>, pool: seq<Coin>, target: int) {
    && worth < target && target > 0
    && match previous
       case None => worth == -1
       case Some(outpoints) =>
         && outpoints == OutpointSet(last) && worth == SumValues(last) <= SumValues(pool)
         && DistinctCoins(last) && forall i :: 0 <= i < |last| ==> last[i] in pool
  }

  lemma NeverTheSame(previous: Option<set<Outpoint>>, worth: int, last: seq<Coin>, pool: seq<Coin>, target: int,
                     coins: seq<Coin>)
    requires Retrying(previous, worth, last, pool, target) && Chosen(coins, pool, target) && DistinctCoins(pool)
    ensures previous != Some(OutpointSet(coins))
  {
    if previous == Some(OutpointSet(coins)) { SameCoinsSameWorth(last, coins, pool); }
  }

  // ---- what each loop is to compute ----

  /** Who selects: `permitted` is the policy's check, PeerSwap has none here. */
  datatype Job =
    | ForOpen(permitted: seq<Coin> -> bool, amount: int, feeRate: real, outputType: string)
    | ForMultiOpen(permitted: seq<Coin> -> bool, targets: seq<int>, feeRate: real, types: seq<string>)
    | ForSplice(permitted: seq<Coin> -> bool, amount: int, perKw: int, outputType: string)
    | ForPeerSwap(targets: seq<int>, feeRate: real, types: seq<string>)

  datatype Verdict = Again(target: int) | Done(result: Result<ExecutionPlan, SelectError>)

  const SPLICE_EXTRA_VSIZE := 97

  function SpliceRate(perKw: int): real {
    perKw as real / 250.0
  }

  /** `int(vsize * fee_rate + 0.999999)`: at most one below the rounded-up fee. */
  function TruncatedFee(vsize: nat, feeRate: real): int {
    (vsize as real * feeRate + 0.999999).Floor
  }

  /** What is added to the reserve after each failure: at least one. */
  function ReserveStep(feeRate: real): nat {
    if Ceiling(feeRate) < 1 then 1 else Ceiling(feeRate)
  }

  function TruncatedTarget(targets: seq<int>, inputTypes: seq<string>, types: seq<string>, feeRate: real,
                           reserve: nat, estimate: Estimator): int
  {
    Sum(targets) + TruncatedFee(estimate(inputTypes, types + ["p2wpkh"]), feeRate) + reserve
  }

  function FirstTarget(job: Job, estimate: Estimator): int {
    match job
    case ForOpen(_, amount, _, _) => amount
    case ForMultiOpen(_, targets, feeRate, types) => TruncatedTarget(targets, ["p2wpkh"], types, feeRate, 0, estimate)
    case ForSplice(_, amount, _, _) => amount
    case ForPeerSwap(targets, feeRate, types) => Sum(targets) + FeeOf(estimate(["p2wpkh"], types + ["p2wpkh"]), feeRate)
  }

  /** A plan ends the loop, and so does any error but one; that one asks for more. */
  function JudgePlan(plan: Result<ExecutionPlan, PlanError>, more: int): Verdict {
    match plan
    case Ok(p) => Done(Ok(p))
    case Err(e) => if e == InsufficientFunds then Again(more) else Done(Err(Unplannable(e)))
  }

  function JudgeSplice(coins: seq<Coin>, amount: int, perKw: int, outputType: string, estimate: Estimator, dust: nat)
    : Verdict
    requires |coins| == 1
  {
    var plan := BuildMultiPlan(coins, [amount], SpliceRate(perKw), [outputType], estimate, dust);
    if plan.Ok? then
      var conservative := amount + FeeOf(plan.value.vsize + SPLICE_EXTRA_VSIZE, SpliceRate(perKw));
      if coins[0].value < conservative then Again(conservative) else Done(Ok(plan.value))
    else JudgePlan(plan, amount + FeeFor(coins, SpliceRate(perKw), [outputType], estimate))
  }

  /** What is made of the k-th selection. */
  function Judge(job: Job, k: nat, coins: seq<Coin>, estimate: Estimator, dust: nat): Verdict {
    match job
    case ForOpen(permitted, amount, feeRate, outputType) =>
      if !permitted(coins) then Done(Err(NotPermitted))
      else JudgePlan(BuildMultiPlan(coins, [amount], feeRate, [outputType], estimate, dust),
                     amount + FeeFor(coins, feeRate, [outputType], estimate))
    case ForMultiOpen(permitted, targets, feeRate, types) =>
      if !permitted(coins) then Done(Err(NotPermitted))
      else JudgePlan(BuildMultiPlan(coins, targets, feeRate, types, estimate, dust),
                     TruncatedTarget(targets, InputTypes(coins), types, feeRate, Reserve(k + 1, feeRate), estimate))
    case ForSplice(permitted, amount, perKw, outputType) =>
      if |coins| != 1 then Done(Err(NotOneCoin))
      else if !permitted(coins) then Done(Err(NotPermitted))
      else JudgeSplice(coins, amount, perKw, outputType, estimate, dust)
    case ForPeerSwap(targets, feeRate, types) =>
      JudgePlan(BuildMultiPlan(coins, targets, feeRate, types, estimate, dust),
                Sum(targets) + FeeFor(coins, feeRate, types, estimate))
  }

  /** The reserve after so many failures. */
  function Reserve(failures: nat, feeRate: real): nat {
    if failures == 0 then 0 else Reserve(failures - 1, feeRate) + ReserveStep(feeRate)
  }

  /** Everything a search depends on. */
  datatype Search = Search(job: Job, select: Selector, pool: seq<Coin>, estimate: Estimator, dust: nat)

  /** What the k-th call to the wallet returned, as coins. */
  ghost function Selected(s: Search, k: nat, target: int): seq<Coin>
    requires Honest(s.select, s.pool) && s.select(k, target).Some?
  {
    assert Answers(s.select(k, target).value, s.pool, target);
    CoinsAt(s.select(k, target).value, s.pool)
  }

  /** The target of the k-th call to the wallet, `None` if the search is over by then. */
  ghost function Asked(s: Search, k: nat): Option<int>
    requires Honest(s.select, s.pool)
  {
    if k == 0 then Some(FirstTarget(s.job, s.estimate))
    else match Asked(s, k - 1)
         case None => None
         case Some(target) =>
           if s.select(k - 1, target).None? then None
           else match Judge(s.job, k - 1, Selected(s, k - 1, target), s.estimate, s.dust)
                case Again(more) => Some(more)
                case Done(_) => None
  }

  /** The search ends with the k-th call: the wallet refuses what it is asked for, or the verdict is final. */
  ghost predicate EndsAt(s: Search, k: nat, r: Result<ExecutionPlan, SelectError>)
    requires Honest(s.select, s.pool)
  {
    match Asked(s, k)
    case None => false
    case Some(target) =>
      if s.select(k, target).None? then r == Err(SelectorRefused)
      else Judge(s.job, k, Selected(s, k, target), s.estimate, s.dust) == Done(r)
  }

  ghost predicate Outcome(s: Search, r: Result<ExecutionPlan, SelectError>)
    requires Honest(s.select, s.pool)
  {
    exists k: nat :: EndsAt(s, k, r)
  }

  lemma EndStops(s: Search, k: nat, r: Result<ExecutionPlan, SelectError>)
    requires Honest(s.select, s.pool) && EndsAt(s, k, r)
    ensures Asked(s, k).Some? && Asked(s, k + 1) == None
  {
  }

  lemma NothingNext(s: Search, k: nat)
    requires Honest(s.select, s.pool) && Asked(s, k) == None
    ensures Asked(s, k + 1) == None
  {
  }

  lemma {:induction false} NothingAskedAfter(s: Search, k: nat, j: nat)
    requires Honest(s.select, s.pool) && Asked(s, k) == None && k <= j
    ensures Asked(s, j) == None
    decreases j - k
  {
    if k < j {
      NothingNext(s, k);
      NothingAskedAfter(s, k + 1, j);
    }
  }

  lemma EndIsUnique(s: Search, k: nat, r1: Result<ExecutionPlan, SelectError>, r2: Result<ExecutionPlan, SelectError>)
    requires Honest(s.select, s.pool) && EndsAt(s, k, r1) && EndsAt(s, k, r2)
    ensures r1 == r2
  {
  }

  lemma NotLater(s: Search, k: nat, j: nat)
    requires Honest(s.select, s.pool) && Asked(s, k + 1) == None
    ensures j <= k || Asked(s, j) == None
  {
    if k < j { NothingAskedAfter(s, k + 1, j); }
  }

  /** A search comes to one result. */
  lemma OutcomeIsUnique(s: Search, r1: Result<ExecutionPlan, SelectError>, r2: Result<ExecutionPlan, SelectError>)
    requires Honest(s.select, s.pool) && Outcome(s, r1) && Outcome(s, r2)
    ensures r1 == r2
  {
    var k :| EndsAt(s, k, r1);
    var j :| EndsAt(s, j, r2);
    EndStops(s, k, r1);
    EndStops(s, j, r2);
    NotLater(s, k, j);
    NotLater(s, j, k);
    EndIsUnique(s, k, r1, r2);
  }

  // ---- what a result means ----

  function Targets(job: Job): seq<int> {
    match job
    case ForOpen(_, amount, _, _) => [amount]
    case ForMultiOpen(_, targets, _, _) => targets
    case ForSplice(_, amount, _, _) => [amount]
    case ForPeerSwap(targets, _, _) => targets
  }

  function RateOf(job: Job): real {
    match job
    case ForOpen(_, _, feeRate, _) => feeRate
    case ForMultiOpen(_, _, feeRate, _) => feeRate
    case ForSplice(_, _, perKw, _) => SpliceRate(perKw)
    case ForPeerSwap(_, feeRate, _) => feeRate
  }

  function Types(job: Job): seq<string> {
    match job
    case ForOpen(_, _, _, outputType) => [outputType]
    case ForMultiOpen(_, _, _, types) => types
    case ForSplice(_, _, _, outputType) => [outputType]
    case ForPeerSwap(_, _, types) => types
  }

  /** The policy's word on these coins; PeerSwap asks it elsewhere. */
  predicate Permits(job: Job, coins: seq<Coin>) {
    match job
    case ForOpen(permitted, _, _, _) => permitted(coins)
    case ForMultiOpen(permitted, _, _, _) => permitted(coins)
    case ForSplice(permitted, _, _, _) => permitted(coins)
    case ForPeerSwap(_, _, _) => true
  }

  /** One of the selections the wallet made in the course of this search. */
  ghost predicate WasSelected(s: Search, k: nat, coins: seq<Coin>)
    requires Honest(s.select, s.pool)
  {
    Asked(s, k).Some? && s.select(k, Asked(s, k).value).Some? && coins == Selected(s, k, Asked(s, k).value)
  }

  /** Permitted coins that the wallet selected, and a plan that pays just the outputs asked for. */
  ghost predicate Funds(s: Search, p: ExecutionPlan)
    requires Honest(s.select, s.pool)
  {
    && Permits(s.job, p.inputs) && SoundPlan(p, RateOf(s.job), s.dust)
    && SizedRight(p.vsize, p.inputs, Targets(s.job), Types(s.job), s.estimate)
    && |p.fundingOutputs| == |Targets(s.job)| == |Types(s.job)|
    && (forall i :: 0 <= i < |p.fundingOutputs| ==>
          p.fundingOutputs[i] == FundingOutput(Targets(s.job)[i], Types(s.job)[i]))
    && (s.job.ForSplice? ==> |p.inputs| == 1)
    && exists k: nat :: WasSelected(s, k, p.inputs)
  }

  ghost predicate Justified(s: Search, r: Result<ExecutionPlan, SelectError>)
    requires Honest(s.select, s.pool)
  {
    match r
    case Ok(p) => Funds(s, p)
    case Err(SelectorRefused) => exists k: nat :: Asked(s, k).Some? && s.select(k, Asked(s, k).value) == None
    case Err(NotPermitted) => exists k: nat, coins :: WasSelected(s, k, coins) && !Permits(s.job, coins)
    case Err(NotOneCoin) => s.job.ForSplice? && exists k: nat, coins :: WasSelected(s, k, coins) && |coins| != 1
    case Err(Unplannable(e)) =>
      e != InsufficientFunds
      && exists k: nat, coins :: WasSelected(s, k, coins) && Permits(s.job, coins)
           && BuildMultiPlan(coins, Targets(s.job), RateOf(s.job), Types(s.job), s.estimate, s.dust) == Err(e)
    case Err(_) => false
  }

  /** Whatever a search comes to, its result is what the wallet's selections, the policy and the planner say. */
  lemma OutcomeIsJustified(s: Search, r: Result<ExecutionPlan, SelectError>)
    requires Honest(s.select, s.pool) && DistinctCoins(s.pool) && Outcome(s, r) && AllPositive(Targets(s.job))
    ensures Justified(s, r)
  {
    var k: nat :| EndsAt(s, k, r);
    var target := Asked(s, k).value;
    if s.select(k, target).Some? {
      var coins := Selected(s, k, target);
      assert WasSelected(s, k, coins);
      var raw := s.select(k, target).value;
      assert Answers(raw, s.pool, target);
      assert DistinctCoins(coins);
      VerdictMeans(s, k, coins, r);
    }
  }

  /** A final verdict on one selection. */
  lemma VerdictMeans(s: Search, k: nat, coins: seq<Coin>, r: Result<ExecutionPlan, SelectError>)
    requires Honest(s.select, s.pool) && AllPositive(Targets(s.job)) && DistinctCoins(coins)
    requires WasSelected(s, k, coins) && Judge(s.job, k, coins, s.estimate, s.dust) == Done(r)
    ensures Justified(s, r)
  {
    var plan := BuildMultiPlan(coins, Targets(s.job), RateOf(s.job), Types(s.job), s.estimate, s.dust);
    if plan.Ok? {
      PlansAreSound(coins, Targets(s.job), RateOf(s.job), Types(s.job), s.estimate, s.dust);
      PlansAreSized(coins, Targets(s.job), RateOf(s.job), Types(s.job), s.estimate, s.dust);
      PlanPaysTargets(coins, Targets(s.job), RateOf(s.job), Types(s.job), s.estimate, s.dust);
      assert Targets(s.job)[0] > 0;
    }
  }

  lemma LargerSizeLargerFee(a: nat, b: nat, feeRate: real)
    requires a <= b && feeRate > 0.0
    ensures FeeOf(a, feeRate) <= FeeOf(b, feeRate)
  {
    assert a as real * feeRate <= b as real * feeRate;
  }

  /**
   What is asked for next is enough: coins of the same kinds worth it can be
   planned for. Opening one channel and PeerSwap ask for no more than that.
   */
  lemma NextTargetIsEnough(job: Job, k: nat, coins: seq<Coin>, other: seq<Coin>, more: int, estimate: Estimator, dust: nat)
    requires Judge(job, k, coins, estimate, dust) == Again(more) && AllPositive(Targets(job)) && RateOf(job) > 0.0
    requires InputTypes(other) == InputTypes(coins) && |Targets(job)| == |Types(job)|
    ensures var plan := BuildMultiPlan(other, Targets(job), RateOf(job), Types(job), estimate, dust);
            && (SumValues(other) >= more ==> plan != Err(InsufficientFunds))
            && (job.ForOpen? || job.ForPeerSwap? ==>
                  (plan == Err(InsufficientFunds) <==> SumValues(other) < more))
  {
    var vsize := EstimatedSize(other, Targets(job), Types(job), estimate);
    assert Targets(job)[0] > 0;
    SumOne(Targets(job)[0]);
    if |Targets(job)| == 1 { assert Targets(job) == [Targets(job)[0]]; }
    WhyNoPlan(other, Targets(job), RateOf(job), Types(job), estimate, dust, FeeOf(vsize, RateOf(job)));
    match job
    case ForMultiOpen(_, targets, feeRate, types) =>
      MultiTargetIsOutOfReach(coins, targets, feeRate, types, estimate, k + 1);
    case ForSplice(_, _, perKw, _) => LargerSizeLargerFee(vsize, vsize + SPLICE_EXTRA_VSIZE, SpliceRate(perKw));
    case _ =>
  }

  /** A verdict that asks for more does so out of reach of the coins judged; a plan is funded by them. */
  ghost predicate Progress(v: Verdict, coins: seq<Coin>) {
    match v
    case Again(more) => SumValues(coins) < more
    case Done(r) => if r.Ok? then r.value.inputs == coins else r.error != Unplannable(InsufficientFunds)
  }

  /** One round of a search: it is over, or the next target is asked for and out of reach of these coins. */
  ghost predicate Round(s: Search, k: nat, target: int, over: Option<Result<ExecutionPlan, SelectError>>,
                        coins: seq<Coin>, more: int)
    requires Honest(s.select, s.pool)
  {
    match over
    case Some(r) =>
      && Outcome(s, r) && Justified(s, r) && r != Err(Unplannable(InsufficientFunds))
      && (r.Ok? ==> Chosen(r.value.inputs, s.pool, 1))
    case None =>
      && Asked(s, k + 1) == Some(more) && SumValues(coins) < more && Chosen(coins, s.pool, target)
  }

  lemma JudgedRound(s: Search, k: nat, target: int, coins: seq<Coin>, v: Verdict)
    requires Honest(s.select, s.pool) && Asked(s, k) == Some(target) && target > 0
    requires Picks(s.select(k, target), s.pool, coins) && Chosen(coins, s.pool, target)
    requires v == Judge(s.job, k, coins, s.estimate, s.dust) && Progress(v, coins) && AllPositive(Targets(s.job))
    ensures v.Done? ==> Round(s, k, target, Some(v.result), coins, 0)
    ensures v.Again? ==> Round(s, k, target, None, coins, v.target)
  {
    assert coins == Selected(s, k, target);
    if v.Done? {
      assert EndsAt(s, k, v.result) && WasSelected(s, k, coins);
      VerdictMeans(s, k, coins, v.result);
    }
  }

  lemma RefusedRound(s: Search, k: nat, target: int)
    requires Honest(s.select, s.pool) && Asked(s, k) == Some(target) && s.select(k, target).None?
    ensures Round(s, k, target, Some(Err(SelectorRefused)), [], 0)
  {
    assert EndsAt(s, k, Err(SelectorRefused));
  }

  /** The loops' guard against the same coins does not fire, and the next target is out of reach again. */
  lemma Retry(previous: Option<set<Outpoint>>, worth: int, last: seq<Coin>, pool: seq<Coin>, target: int,
              coins: seq<Coin>, more: int)
    requires Retrying(previous, worth, last, pool, target) && Chosen(coins, pool, target) && DistinctCoins(pool)
    requires SumValues(coins) < more
    ensures previous != Some(OutpointSet(coins)) && worth < SumValues(coins) <= SumValues(pool)
    ensures Retrying(Some(OutpointSet(coins)), SumValues(coins), coins, pool, more)
  {
    NeverTheSame(previous, worth, last, pool, target, coins);
  }

  lemma TruncationLosesOne(vsize: nat, feeRate: real)
    requires feeRate > 0.0
    ensures 0 <= TruncatedFee(vsize, feeRate) && FeeOf(vsize, feeRate) - 1 <= TruncatedFee(vsize, feeRate)
  {
    SizeTimesRate(vsize, feeRate);
  }

  lemma {:induction false} ReserveGrows(failures: nat, feeRate: real)
    ensures Reserve(failures, feeRate) >= failures
  {
    if failures != 0 { ReserveGrows(failures - 1, feeRate); }
  }

  lemma PlansKeepInputs(coins: seq<Coin>, targets: seq<int>, feeRate: real, types: seq<string>,
                        estimate: Estimator, dust: nat)
    ensures var plan := BuildMultiPlan(coins, targets, feeRate, types, estimate, dust);
            plan.Ok? ==> plan.value.inputs == coins
  {
  }

  // ---- opening one channel ----

  method OpenVerdict(coins: seq<Coin>, permitted: seq<Coin> -> bool, amount: int, feeRate: real, outputType: string,
                 estimate: Estimator, dust: nat, ghost k: nat) returns (v: Verdict)
    requires amount > 0
    ensures v == Judge(ForOpen(permitted, amount, feeRate, outputType), k, coins, estimate, dust)
    ensures Progress(v, coins)
  {
    if !permitted(coins) { return Done(Err(NotPermitted)); }
    var plan := BuildMultiPlan(coins, [amount], feeRate, [outputType], estimate, dust);
    PlansKeepInputs(coins, [amount], feeRate, [outputType], estimate, dust);
    if plan.Ok? { return Done(Ok(plan.value)); }
    if plan.error != InsufficientFunds { return Done(Err(Unplannable(plan.error))); }
    SumOne(amount);
    Shortfall(coins, [amount], feeRate, [outputType], estimate, dust);
    return Again(amount + FeeFor(coins, feeRate, [outputType], estimate));
  }

  method TryOpen(select: Selector, pool: seq<Coin>, permitted: seq<Coin> -> bool, amount: int, feeRate: real,
                 outputType: string, estimate: Estimator, dust: nat, k: nat, target: int, ghost s: Search)
    returns (over: Option<Result<ExecutionPlan, SelectError>>, coins: seq<Coin>, more: int)
    requires s == Search(ForOpen(permitted, amount, feeRate, outputType), select, pool, estimate, dust) && amount > 0
    requires Honest(select, pool) && Asked(s, k) == Some(target) && target > 0
    ensures Round(s, k, target, over, coins, more)
  {
    var selected := SelectOnce(select, pool, k, target);
    if selected.Err? {
      RefusedRound(s, k, target);
      return Some(Err(selected.error)), [], 0;
    }
    coins := selected.value;
    var v := OpenVerdict(coins, permitted, amount, feeRate, outputType, estimate, dust, k);
    JudgedRound(s, k, target, coins, v);
    match v
    case Done(r) => over, more := Some(r), 0;
    case Again(target) => over, more := None, target;
  }

  /** Sweeping takes every permitted coin there is, without asking the wallet to select. */
  ghost predicate Swept(pool: seq<Coin>, permitted: seq<Coin> -> bool, feeRate: real, outputType: string,
                        estimate: Estimator, dust: nat, r: Result<ExecutionPlan, SelectError>)
  {
    match r
    case Ok(p) =>
      && p.inputs == pool && permitted(pool) && SoundPlan(p, feeRate, dust) && p.change == 0
      && SizedRight(p.vsize, pool, [0], [outputType], estimate)
      && p.amount == SumValues(pool) - p.fee && p.fundingOutputs == [FundingOutput(p.amount, outputType)]
    case Err(SelectorRefused) => pool == []
    case Err(NotPermitted) => pool != [] && !permitted(pool)
    case Err(Unplannable(e)) =>
      pool != [] && permitted(pool) && BuildMultiPlan(pool, [0], feeRate, [outputType], estimate, dust) == Err(e)
    case Err(_) => false
  }

  method SelectAll(pool: seq<Coin>, permitted: seq<Coin> -> bool, feeRate: real, outputType: string,
                   estimate: Estimator, dust: nat) returns (r: Result<ExecutionPlan, SelectError>)
    requires DistinctCoins(pool)
    ensures Swept(pool, permitted, feeRate, outputType, estimate, dust, r)
  {
    if pool == [] { return Err(SelectorRefused); }
    if !permitted(pool) { return Err(NotPermitted); }
    var plan := BuildMultiPlan(pool, [0], feeRate, [outputType], estimate, dust);
    if plan.Err? { return Err(Unplannable(plan.error)); }
    PlansAreSound(pool, [0], feeRate, [outputType], estimate, dust);
    PlansAreSized(pool, [0], feeRate, [outputType], estimate, dust);
    PlanPaysTargets(pool, [0], feeRate, [outputType], estimate, dust);
    assert plan.value.fundingOutputs == [plan.value.fundingOutputs[0]];
    return Ok(plan.value);
  }

  method SelectForAmount(select: Selector, pool: seq<Coin>, permitted: seq<Coin> -> bool, amount: int, feeRate: real,
                         outputType: string, estimate: Estimator, dust: nat)
    returns (r: Result<ExecutionPlan, SelectError>)
    requires Honest(select, pool) && DistinctCoins(pool) && amount > 0
    ensures Outcome(Search(ForOpen(permitted, amount, feeRate, outputType), select, pool, estimate, dust), r)
    ensures Justified(Search(ForOpen(permitted, amount, feeRate, outputType), select, pool, estimate, dust), r)
    ensures r.Ok? ==> Chosen(r.value.inputs, pool, 1)
    ensures r.Err? ==> r.error != Unplannable(InsufficientFunds)
  {
    ghost var s := Search(ForOpen(permitted, amount, feeRate, outputType), select, pool, estimate, dust);
    var target := amount;
    var previous: Option<set<Outpoint>> := None;
    var k := 0;
    ghost var worth: int, last: seq<Coin> := -1, [];
    while true
      invariant Retrying(previous, worth, last, pool, target) && Asked(s, k) == Some(target)
      decreases SumValues(pool) - worth
    {
      var over, coins, more := TryOpen(select, pool, permitted, amount, feeRate, outputType, estimate, dust, k, target, s);
      if over.Some? { return over.value; }
      Retry(previous, worth, last, pool, target, coins, more);
      // Being handed the same coins again would be an error; it does not happen.
      assert previous != Some(OutpointSet(coins));
      previous, target := Some(OutpointSet(coins)), more;
      worth, last, k := SumValues(coins), coins, k + 1;
    }
  }

  /** An amount of zero sweeps. */
  method SelectForOpen(select: Selector, pool: seq<Coin>, permitted: seq<Coin> -> bool, amount: int, feeRate: real,
                       outputType: string, estimate: Estimator, dust: nat)
    returns (r: Result<ExecutionPlan, SelectError>)
    requires Honest(select, pool) && DistinctCoins(pool) && amount >= 0
    ensures amount == 0 ==> Swept(pool, permitted, feeRate, outputType, estimate, dust, r)
    ensures amount > 0 ==>
              var s := Search(ForOpen(permitted, amount, feeRate, outputType), select, pool, estimate, dust);
              && Outcome(s, r) && Justified(s, r)
              && if r.Ok? then Chosen(r.value.inputs, pool, 1) else r.error != Unplannable(InsufficientFunds)
  {
    if amount == 0 {
      r := SelectAll(pool, permitted, feeRate, outputType, estimate, dust);
    } else {
      r := SelectForAmount(select, pool, permitted, amount, feeRate, outputType, estimate, dust);
    }
  }

  /** What stops an operation before it asks for any coin. */
  predicate Refuses(targets: seq<int>, feeRate: real, r: Result<ExecutionPlan, SelectError>) {
    r == if !AllPositive(targets) then Err(BadRequest) else Err(BadRate)
  }

  /** A request of positive outputs at a positive rate. */
  predicate Proper(targets: seq<int>, feeRate: real) {
    AllPositive(targets) && feeRate > 0.0
  }

  // ---- opening several channels ----

  /** The truncated fee alone could fall one short of the last one; the growing reserve makes up for it. */
  lemma MultiTargetIsOutOfReach(last: seq<Coin>, targets: seq<int>, feeRate: real, types: seq<string>,
                                estimate: Estimator, failures: nat)
    requires feeRate > 0.0 && failures > 0
    ensures TruncatedTarget(targets, InputTypes(last), types, feeRate, Reserve(failures, feeRate), estimate)
         >= Sum(targets) + FeeFor(last, feeRate, types, estimate)
  {
    TruncationLosesOne(estimate(InputTypes(last), types + ["p2wpkh"]), feeRate);
    ReserveGrows(failures, feeRate);
  }

  method MultiOpenVerdict(coins: seq<Coin>, permitted: seq<Coin> -> bool, targets: seq<int>, feeRate: real,
                          types: seq<string>, k: nat, reserve: nat, estimate: Estimator, dust: nat) returns (v: Verdict)
    requires AllPositive(targets) && feeRate > 0.0 && reserve == Reserve(k + 1, feeRate)
    ensures v == Judge(ForMultiOpen(permitted, targets, feeRate, types), k, coins, estimate, dust)
    ensures Progress(v, coins)
  {
    if !permitted(coins) { return Done(Err(NotPermitted)); }
    var plan := BuildMultiPlan(coins, targets, feeRate, types, estimate, dust);
    PlansKeepInputs(coins, targets, feeRate, types, estimate, dust);
    if plan.Ok? { return Done(Ok(plan.value)); }
    if plan.error != InsufficientFunds { return Done(Err(Unplannable(plan.error))); }
    Shortfall(coins, targets, feeRate, types, estimate, dust);
    MultiTargetIsOutOfReach(coins, targets, feeRate, types, estimate, k + 1);
    return Again(TruncatedTarget(targets, InputTypes(coins), types, feeRate, reserve, estimate));
  }

  method TryMultiOpen(select: Selector, pool: seq<Coin>, permitted: seq<Coin> -> bool, targets: seq<int>, feeRate: real,
                      types: seq<string>, k: nat, reserve: nat, estimate: Estimator, dust: nat, target: int, ghost s: Search)
    returns (over: Option<Result<ExecutionPlan, SelectError>>, coins: seq<Coin>, more: int, grown: nat)
    requires s == Search(ForMultiOpen(permitted, targets, feeRate, types), select, pool, estimate, dust)
    requires AllPositive(targets) && feeRate > 0.0 && reserve == Reserve(k, feeRate)
    requires Honest(select, pool) && Asked(s, k) == Some(target) && target > 0
    ensures Round(s, k, target, over, coins, more) && grown == Reserve(k + 1, feeRate)
  {
    grown := reserve + ReserveStep(feeRate);
    var selected := SelectOnce(select, pool, k, target);
    if selected.Err? {
      RefusedRound(s, k, target);
      return Some(Err(selected.error)), [], 0, grown;
    }
    coins := selected.value;
    var v := MultiOpenVerdict(coins, permitted, targets, feeRate, types, k, grown, estimate, dust);
    JudgedRound(s, k, target, coins, v);
    match v
    case Done(r) => over, more := Some(r), 0;
    case Again(target) => over, more := None, target;
  }

  method FirstMultiTarget(targets: seq<int>, feeRate: real, types: seq<string>, estimate: Estimator, ghost s: Search)
    returns (target: int)
    requires AllPositive(targets) && feeRate > 0.0 && s.job.ForMultiOpen? && Honest(s.select, s.pool)
    requires s.job.targets == targets && s.job.feeRate == feeRate && s.job.types == types && s.estimate == estimate
    ensures target > 0 && Asked(s, 0) == Some(target)
  {
    PositiveSum(targets);
    TruncationLosesOne(estimate(["p2wpkh"], types + ["p2wpkh"]), feeRate);
    return TruncatedTarget(targets, ["p2wpkh"], types, feeRate, 0, estimate);
  }

  method SelectForMultiOpen(select: Selector, pool: seq<Coin>, permitted: seq<Coin> -> bool, targets: seq<int>,
                            feeRate: real, types: seq<string>, estimate: Estimator, dust: nat)
    returns (r: Result<ExecutionPlan, SelectError>)
    requires Honest(select, pool) && DistinctCoins(pool)
    ensures if Proper(targets, feeRate)
            then Outcome(Search(ForMultiOpen(permitted, targets, feeRate, types), select, pool, estimate, dust), r)
                 && Justified(Search(ForMultiOpen(permitted, targets, feeRate, types), select, pool, estimate, dust), r)
            else Refuses(targets, feeRate, r)
    ensures r.Ok? ==> Chosen(r.value.inputs, pool, 1)
    ensures r.Err? ==> r.error != Unplannable(InsufficientFunds)
  {
    if !AllPositive(targets) { return Err(BadRequest); }
    if feeRate <= 0.0 { return Err(BadRate); }
    ghost var s := Search(ForMultiOpen(permitted, targets, feeRate, types), select, pool, estimate, dust);
    var reserve: nat := 0;
    var target := FirstMultiTarget(targets, feeRate, types, estimate, s);
    var previous: Option<set<Outpoint>> := None;
    var k := 0;
    ghost var worth: int, last: seq<Coin> := -1, [];
    while true
      invariant reserve == Reserve(k, feeRate)
      invariant Retrying(previous, worth, last, pool, target) && Asked(s, k) == Some(target)
      decreases SumValues(pool) - worth
    {
      var over, coins, more, grown :=
        TryMultiOpen(select, pool, permitted, targets, feeRate, types, k, reserve, estimate, dust, target, s);
      if over.Some? { return over.value; }
      Retry(previous, worth, last, pool, target, coins, more);
      // Being handed the same coins again would be an error; it does not happen.
      assert previous != Some(OutpointSet(coins));
      previous, target, reserve := Some(OutpointSet(coins)), more, grown;
      worth, last, k := SumValues(coins), coins, k + 1;
    }
  }

  // ---- splicing in ----

  /** One coin that pays for the amount and for a transaction larger than the planner's. */
  ghost predicate PaysForSplice(p: ExecutionPlan, amount: int, perKw: int) {
    && |p.inputs| == 1
    && p.inputs[0].value >= amount + FeeOf(p.vsize + SPLICE_EXTRA_VSIZE, SpliceRate(perKw))
  }

  /** Plan with the one coin; then hold it against the larger, conservative size. */
  method PlanSplice(coins: seq<Coin>, amount: int, perKw: int, outputType: string, estimate: Estimator, dust: nat)
    returns (v: Verdict)
    requires |coins| == 1 && amount > 0
    ensures v == JudgeSplice(coins, amount, perKw, outputType, estimate, dust)
    ensures Progress(v, coins)
    ensures v.Done? && v.result.Ok? ==> PaysForSplice(v.result.value, amount, perKw)
  {
    var plan := BuildMultiPlan(coins, [amount], SpliceRate(perKw), [outputType], estimate, dust);
    PlansKeepInputs(coins, [amount], SpliceRate(perKw), [outputType], estimate, dust);
    assert coins == [coins[0]] && coins[..0] == [];
    if plan.Err? {
      if plan.error != InsufficientFunds { return Done(Err(Unplannable(plan.error))); }
      SumOne(amount);
      Shortfall(coins, [amount], SpliceRate(perKw), [outputType], estimate, dust);
      return Again(amount + FeeFor(coins, SpliceRate(perKw), [outputType], estimate));
    }
    var conservative := FeeOf(plan.value.vsize + SPLICE_EXTRA_VSIZE, SpliceRate(perKw));
    if coins[0].value < amount + conservative { return Again(amount + conservative); }
    return Done(Ok(plan.value));
  }

  method SpliceVerdict(coins: seq<Coin>, permitted: seq<Coin> -> bool, amount: int, perKw: int, outputType: string,
                   estimate: Estimator, dust: nat, ghost k: nat) returns (v: Verdict)
    requires amount > 0
    ensures v == Judge(ForSplice(permitted, amount, perKw, outputType), k, coins, estimate, dust)
    ensures Progress(v, coins)
    ensures v.Done? && v.result.Ok? ==> PaysForSplice(v.result.value, amount, perKw)
  {
    if |coins| != 1 { return Done(Err(NotOneCoin)); }
    if !permitted(coins) { return Done(Err(NotPermitted)); }
    v := PlanSplice(coins, amount, perKw, outputType, estimate, dust);
  }

  method TrySplice(select: Selector, pool: seq<Coin>, permitted: seq<Coin> -> bool, amount: int, perKw: int,
                   outputType: string, estimate: Estimator, dust: nat, k: nat, target: int, ghost s: Search)
    returns (over: Option<Result<ExecutionPlan, SelectError>>, coins: seq<Coin>, more: int)
    requires s == Search(ForSplice(permitted, amount, perKw, outputType), select, pool, estimate, dust) && amount > 0
    requires Honest(select, pool) && Asked(s, k) == Some(target) && target > 0
    ensures Round(s, k, target, over, coins, more)
    ensures over.Some? && over.value.Ok? ==> PaysForSplice(over.value.value, amount, perKw)
  {
    var selected := SelectOnce(select, pool, k, target);
    if selected.Err? {
      RefusedRound(s, k, target);
      return Some(Err(selected.error)), [], 0;
    }
    coins := selected.value;
    var v := SpliceVerdict(coins, permitted, amount, perKw, outputType, estimate, dust, k);
    JudgedRound(s, k, target, coins, v);
    match v
    case Done(r) => over, more := Some(r), 0;
    case Again(target) => over, more := None, target;
  }

  method SelectForSplice(select: Selector, pool: seq<Coin>, permitted: seq<Coin> -> bool, amount: int, perKw: int,
                         outputType: string, estimate: Estimator, dust: nat)
    returns (r: Result<ExecutionPlan, SelectError>)
    requires Honest(select, pool) && DistinctCoins(pool) && amount > 0
    ensures Outcome(Search(ForSplice(permitted, amount, perKw, outputType), select, pool, estimate, dust), r)
    ensures Justified(Search(ForSplice(permitted, amount, perKw, outputType), select, pool, estimate, dust), r)
    ensures r.Ok? ==> Chosen(r.value.inputs, pool, 1) && PaysForSplice(r.value, amount, perKw)
    ensures r.Err? ==> r.error != Unplannable(InsufficientFunds)
  {
    ghost var s := Search(ForSplice(permitted, amount, perKw, outputType), select, pool, estimate, dust);
    var target := amount;
    var previous: Option<set<Outpoint>> := None;
    var k := 0;
    ghost var worth: int, last: seq<Coin> := -1, [];
    while true
      invariant Retrying(previous, worth, last, pool, target) && Asked(s, k) == Some(target)
      decreases SumValues(pool) - worth
    {
      var over, coins, more := TrySplice(select, pool, permitted, amount, perKw, outputType, estimate, dust, k, target, s);
      if over.Some? { return over.value; }
      Retry(previous, worth, last, pool, target, coins, more);
      // Being handed the same coin again would be an error; it does not happen.
      assert previous != Some(OutpointSet(coins));
      previous, target := Some(OutpointSet(coins)), more;
      worth, last, k := SumValues(coins), coins, k + 1;
    }
  }

  // ---- preparing a PeerSwap transaction ----

  method PeerSwapVerdict(coins: seq<Coin>, targets: seq<int>, feeRate: real, types: seq<string>, estimate: Estimator,
                     dust: nat, ghost k: nat) returns (v: Verdict)
    requires AllPositive(targets)
    ensures v == Judge(ForPeerSwap(targets, feeRate, types), k, coins, estimate, dust)
    ensures Progress(v, coins)
  {
    var plan := BuildMultiPlan(coins, targets, feeRate, types, estimate, dust);
    PlansKeepInputs(coins, targets, feeRate, types, estimate, dust);
    if plan.Ok? { return Done(Ok(plan.value)); }
    if plan.error != InsufficientFunds { return Done(Err(Unplannable(plan.error))); }
    Shortfall(coins, targets, feeRate, types, estimate, dust);
    return Again(Sum(targets) + FeeFor(coins, feeRate, types, estimate));
  }

  method TryPeerSwap(select: Selector, pool: seq<Coin>, targets: seq<int>, feeRate: real, types: seq<string>,
                     estimate: Estimator, dust: nat, k: nat, target: int, ghost s: Search)
    returns (over: Option<Result<ExecutionPlan, SelectError>>, coins: seq<Coin>, more: int)
    requires s == Search(ForPeerSwap(targets, feeRate, types), select, pool, estimate, dust) && AllPositive(targets)
    requires Honest(select, pool) && Asked(s, k) == Some(target) && target > 0
    ensures Round(s, k, target, over, coins, more)
  {
    var selected := SelectOnce(select, pool, k, target);
    if selected.Err? {
      RefusedRound(s, k, target);
      return Some(Err(selected.error)), [], 0;
    }
    coins := selected.value;
    var v := PeerSwapVerdict(coins, targets, feeRate, types, estimate, dust, k);
    JudgedRound(s, k, target, coins, v);
    match v
    case Done(r) => over, more := Some(r), 0;
    case Again(target) => over, more := None, target;
  }

  method FirstPeerSwapTarget(targets: seq<int>, feeRate: real, types: seq<string>, estimate: Estimator, ghost s: Search)
    returns (target: int)
    requires AllPositive(targets) && feeRate > 0.0 && Honest(s.select, s.pool)
    requires s.job == ForPeerSwap(targets, feeRate, types) && s.estimate == estimate
    ensures target > 0 && Asked(s, 0) == Some(target)
  {
    PositiveSum(targets);
    FeeCovers(estimate(["p2wpkh"], types + ["p2wpkh"]), feeRate);
    return Sum(targets) + FeeOf(estimate(["p2wpkh"], types + ["p2wpkh"]), feeRate);
  }

  method SelectForPeerSwap(select: Selector, pool: seq<Coin>, targets: seq<int>, feeRate: real, types: seq<string>,
                           estimate: Estimator, dust: nat)
    returns (r: Result<ExecutionPlan, SelectError>)
    requires Honest(select, pool) && DistinctCoins(pool)
    ensures if Proper(targets, feeRate)
            then Outcome(Search(ForPeerSwap(targets, feeRate, types), select, pool, estimate, dust), r)
                 && Justified(Search(ForPeerSwap(targets, feeRate, types), select, pool, estimate, dust), r)
            else Refuses(targets, feeRate, r)
    ensures r.Ok? ==> Chosen(r.value.inputs, pool, 1)
    ensures r.Err? ==> r.error != Unplannable(InsufficientFunds)
  {
    if !AllPositive(targets) { return Err(BadRequest); }
    if feeRate <= 0.0 { return Err(BadRate); }
    ghost var s := Search(ForPeerSwap(targets, feeRate, types), select, pool, estimate, dust);
    var target := FirstPeerSwapTarget(targets, feeRate, types, estimate, s);
    var previous: Option<set<Outpoint>> := None;
    var k := 0;
    ghost var worth: int, last: seq<Coin> := -1, [];
    while true
      invariant Retrying(previous, worth, last, pool, target) && Asked(s, k) == Some(target)
      decreases SumValues(pool) - worth
    {
      var over, coins, more := TryPeerSwap(select, pool, targets, feeRate, types, estimate, dust, k, target, s);
      if over.Some? { return over.value; }
      Retry(previous, worth, last, pool, target, coins, more);
      // Being handed the same coins again would be an error; it does not happen.
      assert previous != Some(OutpointSet(coins));
      previous, target := Some(OutpointSet(coins)), more;
      worth, last, k := SumValues(coins), coins, k + 1;
    }
  }
}
