/**
 Spreading the fee of a sweep over its coins, one after the other, leaving each
 at least one satoshi.
 */
module SweepFees {
  import opened Prelude
  import opened Sequences
  import opened Planner

  /** What one coin can give: all but its last satoshi. */
  function Spare(value: nat): nat {
    if value == 0 then 0 else value - 1
  }

  function TotalSpare(coins: seq<Coin>): nat {
    if coins == [] then 0 else TotalSpare(coins[..|coins| - 1]) + Spare(coins[|coins| - 1].value)
  }

  function Smaller(a: nat, b: nat): nat {
    if a < b then a else b
  }

  /** The plan under which one coin enters the PSBT. */
  function InputPlan(coin: Coin, share: nat): ExecutionPlan {
    ExecutionPlan([coin], coin.value - share, share, 0, 0, [])
  }

  function SumAmounts(plans: seq<ExecutionPlan>): int {
    if plans == [] then 0 else SumAmounts(plans[..|plans| - 1]) + plans[|plans| - 1].amount
  }

  function SumFees(plans: seq<ExecutionPlan>): int {
    if plans == [] then 0 else SumFees(plans[..|plans| - 1]) + plans[|plans| - 1].fee
  }

  lemma OneMorePlan(plans: seq<ExecutionPlan>, last: ExecutionPlan)
    ensures SumAmounts(plans + [last]) == SumAmounts(plans) + last.amount
    ensures SumFees(plans + [last]) == SumFees(plans) + last.fee
  {
    assert (plans + [last])[..|plans|] == plans;
  }

  lemma {:induction false} TotalSpareAppend(a: seq<Coin>, b: seq<Coin>)
    ensures TotalSpare(a + b) == TotalSpare(a) + TotalSpare(b)
  {
    if b == [] {
      assert a + b == a;
    } else {
      assert (a + b)[..|a + b| - 1] == a + b[..|b| - 1];
      TotalSpareAppend(a, b[..|b| - 1]);
    }
  }

  lemma OneSpare(c: Coin)
    ensures TotalSpare([c]) == Spare(c.value) && SumValues([c]) == c.value
  {
    assert [c][..0] == [];
  }

  lemma TakenOut(coins: seq<Coin>, k: nat)
    requires k < |coins|
    ensures TotalSpare(coins) == TotalSpare(coins[..k] + coins[k + 1..]) + Spare(coins[k].value)
    ensures SumValues(coins) == SumValues(coins[..k] + coins[k + 1..]) + coins[k].value
  {
    Cut(coins, k);
    TotalSpareAppend(coins[..k] + [coins[k]], coins[k + 1..]);
    TotalSpareAppend(coins[..k], [coins[k]]);
    TotalSpareAppend(coins[..k], coins[k + 1..]);
    SumValuesAppend(coins[..k] + [coins[k]], coins[k + 1..]);
    SumValuesAppend(coins[..k], [coins[k]]);
    SumValuesAppend(coins[..k], coins[k + 1..]);
    OneSpare(coins[k]);
  }

  /** However the coins are sorted, they are worth and can spare the same. */
  lemma {:induction false} OrderDoesNotMatter(a: seq<Coin>, b: seq<Coin>)
    requires multiset(a) == multiset(b)
    ensures TotalSpare(a) == TotalSpare(b) && SumValues(a) == SumValues(b)
    decreases |a|
  {
    if a == [] {
      assert |multiset(b)| == 0;
    } else {
      var last := |a| - 1;
      assert a[last] in multiset(b);
      var k :| 0 <= k < |b| && b[k] == a[last];
      TakenOut(a, last);
      TakenOut(b, k);
      MultisetWithout(a, last);
      MultisetWithout(b, k);
      OrderDoesNotMatter(a[..last] + a[last + 1..], b[..k] + b[k + 1..]);
    }
  }

  /** A coin's plan takes all it can spare of what earlier ones left of the fee, and contributes the rest. */
  ghost predicate TakesAll(coin: Coin, before: seq<ExecutionPlan>, plan: ExecutionPlan, fee: nat) {
    && plan.inputs == [coin] && plan.amount + plan.fee == coin.value && plan.change == 0
    && SumFees(before) <= fee && plan.fee == Smaller(fee - SumFees(before), Spare(coin.value))
    && (coin.value > 0 ==> ValidatePlan(plan).None?)
  }

  /** Earlier coins give all they can before later ones give anything. */
  ghost predicate Greedy(coins: seq<Coin>, plans: seq<ExecutionPlan>, fee: nat) {
    && |plans| == |coins|
    && (coins != [] ==>
          && Greedy(coins[..|coins| - 1], plans[..|plans| - 1], fee)
          && TakesAll(coins[|coins| - 1], plans[..|plans| - 1], plans[|plans| - 1], fee))
  }

  lemma {:induction false} GreedyAt(coins: seq<Coin>, plans: seq<ExecutionPlan>, fee: nat, i: nat)
    requires Greedy(coins, plans, fee) && i < |coins|
    ensures TakesAll(coins[i], plans[..i], plans[i], fee)
    decreases |coins|
  {
    if i < |coins| - 1 {
      GreedyAt(coins[..|coins| - 1], plans[..|plans| - 1], fee, i);
      assert plans[..|plans| - 1][..i] == plans[..i];
    }
  }

  /** The coins charged so far, under these plans. */
  ghost predicate Allocated(coins: seq<Coin>, plans: seq<ExecutionPlan>, fee: nat, remaining: nat) {
    && Greedy(coins, plans, fee)
    && SumFees(plans) + remaining == fee && SumAmounts(plans) == SumValues(coins) - SumFees(plans)
    && remaining == if fee <= TotalSpare(coins) then 0 else fee - TotalSpare(coins)
  }

  /** `coins` in the order in which they are charged, the most valuable first, each with the plan it enters under. */
  method AllocateFee(coins: seq<Coin>, fee: nat) returns (plans: seq<ExecutionPlan>, remaining: nat)
    ensures Greedy(coins, plans, fee)
    ensures SumFees(plans) + remaining == fee && SumAmounts(plans) == SumValues(coins) - SumFees(plans)
    ensures remaining == if fee <= TotalSpare(coins) then 0 else fee - TotalSpare(coins)
  {
    plans, remaining := [], fee;
    for i := 0 to |coins|
      invariant Allocated(coins[..i], plans, fee, remaining)
    {
      var share := Smaller(remaining, Spare(coins[i].value));
      AllocatedGrows(coins[..i], plans, fee, remaining, coins[i], share);
      assert coins[..i + 1] == coins[..i] + [coins[i]];
      plans, remaining := plans + [InputPlan(coins[i], share)], remaining - share;
    }
    assert coins[..|coins|] == coins;
  }

  lemma AllocatedGrows(coins: seq<Coin>, plans: seq<ExecutionPlan>, fee: nat, remaining: nat, c: Coin, share: nat)
    requires Allocated(coins, plans, fee, remaining) && share == Smaller(remaining, Spare(c.value))
    ensures Allocated(coins + [c], plans + [InputPlan(c, share)], fee, remaining - share)
  {
    OneSpare(c);
    OneMorePlan(plans, InputPlan(c, share));
    assert (coins + [c])[..|coins|] == coins && (plans + [InputPlan(c, share)])[..|plans|] == plans;
  }

  /**
   Each coin enters under a plan of its own, the plans' fees sum to the fee and their
   amounts to everything but the fee, and no coin worth anything enters with nothing.
   */
  ghost predicate SpreadsFee(coins: seq<Coin>, plans: seq<ExecutionPlan>, fee: nat) {
    && |plans| == |coins|
    && SumFees(plans) == fee && SumAmounts(plans) == SumValues(coins) - fee
    && forall i :: 0 <= i < |coins| ==>
         plans[i].inputs == [coins[i]] && (coins[i].value > 0 ==> ValidatePlan(plans[i]).None?)
  }

  /**
   The whole sweep: `sorted` is the selection in descending order. It goes through
   exactly if the fee does not exceed what the coins can spare together.
   */
  method SpreadSweepFee(selected: seq<Coin>, sorted: seq<Coin>, fee: nat) returns (r: Option<seq<ExecutionPlan>>)
    requires multiset(sorted) == multiset(selected)
    ensures r.Some? <==> selected != [] && fee <= TotalSpare(selected)
    ensures r.Some? ==> SpreadsFee(sorted, r.value, fee) && Greedy(sorted, r.value, fee)
    ensures r.Some? ==> SumAmounts(r.value) == SumValues(selected) - fee
  {
    var plans, remaining := AllocateFee(sorted, fee);
    OrderDoesNotMatter(selected, sorted);
    assert sorted == [] <==> |multiset(selected)| == 0;
    if remaining != 0 || sorted == [] { return None; }
    forall i | 0 <= i < |sorted|
      ensures plans[i].inputs == [sorted[i]] && (sorted[i].value > 0 ==> ValidatePlan(plans[i]).None?)
    {
      GreedyAt(sorted, plans, fee, i);
    }
    return Some(plans);
  }

  /** Coins of at least one satoshi each can spare all but one satoshi apiece; below that the sweep amount is no excuse. */
  lemma {:induction false} SpareOfPositiveCoins(coins: seq<Coin>)
    requires forall i :: 0 <= i < |coins| ==> coins[i].value > 0
    ensures TotalSpare(coins) == SumValues(coins) - |coins|
  {
    if coins != [] { SpareOfPositiveCoins(coins[..|coins| - 1]); }
  }
}
