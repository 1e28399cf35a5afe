/**
 The fee planner and the outputs built from its plans. Fee rates are exact reals
 and the size estimate is any function to the naturals.
 */
module Planner {
  import opened Prelude
  import opened Outpoints
  import opened Psbts

  datatype Coin = Coin(outpoint: Outpoint, value: nat, script: Bytes, p2wsh: bool, address: string)

  datatype FundingOutput = FundingOutput(amount: int, outputType: string)

  datatype ExecutionPlan =
    ExecutionPlan(inputs: seq<Coin>, amount: int, fee: int, vsize: nat, change: int, fundingOutputs: seq<FundingOutput>)

  datatype PlanError =
    | BadFeeRate | NoOutputs | LengthMismatch | NonPositiveOutput | InsufficientFunds | Dust
    | NoInputs | NonPositiveAmount | NegativeFee | NegativeChange | DuplicateInputs | Inconsistent
    | MissingChangeAddress | AddressMismatch

  /** `estimate_vsize` on input and output types. */
  type Estimator = (seq<string>, seq<string>) -> nat

  function SumValues(coins: seq<Coin>): nat {
    if coins == [] then 0 else SumValues(coins[..|coins| - 1]) + coins[|coins| - 1].value
  }

  lemma {:induction false} SumValuesAppend(a: seq<Coin>, b: seq<Coin>)
    ensures SumValues(a + b) == SumValues(a) + SumValues(b)
  {
    if b == [] {
      assert a + b == a;
    } else {
      assert (a + b)[..|a + b| - 1] == a + b[..|b| - 1];
      SumValuesAppend(a, b[..|b| - 1]);
    }
  }

  function Sum(amounts: seq<int>): int {
    if amounts == [] then 0 else Sum(amounts[..|amounts| - 1]) + amounts[|amounts| - 1]
  }

  lemma {:induction false} SumAppend(a: seq<int>, b: seq<int>)
    ensures Sum(a + b) == Sum(a) + Sum(b)
  {
    if b == [] {
      assert a + b == a;
    } else {
      assert (a + b)[..|a + b| - 1] == a + b[..|b| - 1];
      SumAppend(a, b[..|b| - 1]);
    }
  }

  lemma SumOne(amount: int)
    ensures Sum([amount]) == amount
  {
    assert [amount][..0] == [];
  }

  function SumFunding(outputs: seq<FundingOutput>): int {
    if outputs == [] then 0 else SumFunding(outputs[..|outputs| - 1]) + outputs[|outputs| - 1].amount
  }

  function SumOutputs(outputs: seq<TxOut>): nat {
    if outputs == [] then 0 else SumOutputs(outputs[..|outputs| - 1]) + outputs[|outputs| - 1].value
  }

  function Ceiling(x: real): int {
    if x.Floor as real == x then x.Floor else x.Floor + 1
  }

  /** `ceil(vsize * fee_rate)`. */
  function FeeOf(vsize: nat, feeRate: real): int {
    Ceiling(vsize as real * feeRate)
  }

  function InputTypes(coins: seq<Coin>): seq<string> {
    seq(|coins|, i requires 0 <= i < |coins| => if coins[i].p2wsh then "p2wsh" else "p2wpkh")
  }

  /** One target of zero asks for everything. */
  predicate IsSweep(targets: seq<int>) {
    |targets| == 1 && targets[0] == 0
  }

  function EstimatedSize(coins: seq<Coin>, targets: seq<int>, types: seq<string>, estimate: Estimator): nat {
    estimate(InputTypes(coins), if IsSweep(targets) then types else types + ["p2wpkh"])
  }

  function FundingOutputs(amounts: seq<int>, types: seq<string>): seq<FundingOutput>
    requires |amounts| == |types|
  {
    seq(|amounts|, i requires 0 <= i < |amounts| => FundingOutput(amounts[i], types[i]))
  }

  /** The plan for a known fee: what is left after amount and fee is change, unless everything is swept. */
  function Settle(coins: seq<Coin>, targets: seq<int>, types: seq<string>, vsize: nat, fee: int, dust: nat)
    : Result<ExecutionPlan, PlanError>
    requires |targets| == |types|
  {
    var accumulated := SumValues(coins);
    var amount := if IsSweep(targets) then accumulated - fee else Sum(targets);
    var change := if IsSweep(targets) then 0 else accumulated - amount - fee;
    if IsSweep(targets) && amount <= 0 then Err(InsufficientFunds)
    else if change < 0 then Err(InsufficientFunds)
    else if 0 < change < dust then Err(Dust)
    else Ok(ExecutionPlan(coins, amount, fee, vsize, change,
                          FundingOutputs(if IsSweep(targets) then [amount] else targets, types)))
  }

  function BuildMultiPlan(coins: seq<Coin>, targets: seq<int>, feeRate: real, types: seq<string>,
                          estimate: Estimator, dust: nat): Result<ExecutionPlan, PlanError>
  {
    if feeRate <= 0.0 then Err(BadFeeRate)
    else if targets == [] then Err(NoOutputs)
    else if |targets| != |types| then Err(LengthMismatch)
    else if (exists i :: 0 <= i < |targets| && targets[i] < 0)
            || ((exists i :: 0 <= i < |targets| && targets[i] == 0) && !IsSweep(targets)) then Err(NonPositiveOutput)
    else
      var vsize := EstimatedSize(coins, targets, types, estimate);
      Settle(coins, targets, types, vsize, FeeOf(vsize, feeRate), dust)
  }

  predicate DistinctCoins(coins: seq<Coin>) {
    forall i, j :: 0 <= i < j < |coins| ==> coins[i].outpoint != coins[j].outpoint
  }

  /** The builder's own check of a plan. */
  function ValidatePlan(p: ExecutionPlan): Option<PlanError> {
    if p.inputs == [] then Some(NoInputs)
    else if p.amount <= 0 then Some(NonPositiveAmount)
    else if p.fee < 0 then Some(NegativeFee)
    else if p.change < 0 then Some(NegativeChange)
    else if !DistinctCoins(p.inputs) then Some(DuplicateInputs)
    else if SumValues(p.inputs) != p.amount + p.fee + p.change then Some(Inconsistent)
    else None
  }

  // ---- the outputs a plan becomes ----

  /** Amounts a transaction can carry. */
  predicate PayablePlan(p: ExecutionPlan) {
    && 0 <= p.amount < 0x1_0000_0000_0000_0000 && 0 <= p.change < 0x1_0000_0000_0000_0000
    && (forall i :: 0 <= i < |p.fundingOutputs| ==> 0 <= p.fundingOutputs[i].amount < 0x1_0000_0000_0000_0000)
  }

  lemma {:induction false} SumOutputsAppend(outputs: seq<TxOut>, o: TxOut)
    ensures SumOutputs(outputs + [o]) == SumOutputs(outputs) + o.value
  {
    assert (outputs + [o])[..|outputs|] == outputs;
  }

  /** One channel: its funding output first, change behind it if there is any. */
  method FundingTxOutputs(p: ExecutionPlan, funding: Bytes, change: Option<Bytes>)
    returns (r: Result<seq<TxOut>, PlanError>)
    requires PayablePlan(p)
    ensures r.Ok? <==> ValidatePlan(p).None? && (p.change > 0 ==> change.Some?)
    ensures r.Ok? ==>
              && |r.value| == (if p.change > 0 then 2 else 1)
              && r.value[0] == TxOut(p.amount, funding)
              && (p.change > 0 ==> r.value[1] == TxOut(p.change, change.value))
              && SumValues(p.inputs) - SumOutputs(r.value) == p.fee
  {
    var invalid := ValidatePlan(p);
    if invalid.Some? { return Err(invalid.value); }
    var outputs := [TxOut(p.amount, funding)];
    SumOutputsAppend([], TxOut(p.amount, funding));
    assert outputs == [] + outputs;
    if p.change > 0 {
      if change.None? { return Err(MissingChangeAddress); }
      SumOutputsAppend(outputs, TxOut(p.change, change.value));
      outputs := outputs + [TxOut(p.change, change.value)];
    }
    return Ok(outputs);
  }

  method ChannelOutputs(p: ExecutionPlan, addresses: seq<Bytes>) returns (outputs: seq<TxOut>)
    requires PayablePlan(p) && |p.fundingOutputs| == |addresses|
    ensures |outputs| == |addresses| && SumOutputs(outputs) == SumFunding(p.fundingOutputs)
    ensures forall i :: 0 <= i < |addresses| ==> outputs[i] == TxOut(p.fundingOutputs[i].amount, addresses[i])
  {
    outputs := [];
    for k := 0 to |addresses|
      invariant |outputs| == k
      invariant forall i :: 0 <= i < k ==> outputs[i] == TxOut(p.fundingOutputs[i].amount, addresses[i])
      invariant SumOutputs(outputs) == SumFunding(p.fundingOutputs[..k])
    {
      var o := TxOut(p.fundingOutputs[k].amount, addresses[k]);
      SumOutputsAppend(outputs, o);
      assert p.fundingOutputs[..k + 1][..k] == p.fundingOutputs[..k];
      outputs := outputs + [o];
    }
    assert p.fundingOutputs[..|addresses|] == p.fundingOutputs;
  }

  /** Several channels: one output each in the plan's order, then the change. */
  method MultifundingTxOutputs(p: ExecutionPlan, addresses: seq<Bytes>, change: Bytes)
    returns (r: Result<seq<TxOut>, PlanError>)
    requires PayablePlan(p)
    ensures r.Ok? <==> ValidatePlan(p).None? && |p.fundingOutputs| == |addresses| && p.fundingOutputs != []
                       && SumFunding(p.fundingOutputs) == p.amount
    ensures r.Ok? ==>
              && |r.value| == |addresses| + (if p.change > 0 then 1 else 0)
              && (forall i :: 0 <= i < |addresses| ==> r.value[i] == TxOut(p.fundingOutputs[i].amount, addresses[i]))
              && (p.change > 0 ==> r.value[|addresses|] == TxOut(p.change, change))
              && SumValues(p.inputs) - SumOutputs(r.value) == p.fee
  {
    var invalid := ValidatePlan(p);
    if invalid.Some? { return Err(invalid.value); }
    if |p.fundingOutputs| != |addresses| { return Err(AddressMismatch); }
    if p.fundingOutputs == [] { return Err(NoOutputs); }
    if SumFunding(p.fundingOutputs) != p.amount { return Err(Inconsistent); }
    var outputs := ChannelOutputs(p, addresses);
    if p.change > 0 {
      SumOutputsAppend(outputs, TxOut(p.change, change));
      outputs := outputs + [TxOut(p.change, change)];
    }
    return Ok(outputs);
  }

  // ---- what a plan is worth ----

  lemma CeilingBounds(x: real)
    ensures x <= Ceiling(x) as real < x + 1.0
  {
  }

  lemma {:induction false} PositiveSum(amounts: seq<int>)
    requires forall i :: 0 <= i < |amounts| ==> amounts[i] > 0
    ensures Sum(amounts) >= |amounts|
  {
    if amounts != [] { PositiveSum(amounts[..|amounts| - 1]); }
  }

  lemma {:induction false} FundingSum(amounts: seq<int>, types: seq<string>)
    requires |amounts| == |types|
    ensures SumFunding(FundingOutputs(amounts, types)) == Sum(amounts)
  {
    if amounts != [] {
      var n := |amounts| - 1;
      FundingSum(amounts[..n], types[..n]);
      assert FundingOutputs(amounts, types)[..n] == FundingOutputs(amounts[..n], types[..n]);
    }
  }

  lemma SizeTimesRate(vsize: nat, feeRate: real)
    requires feeRate > 0.0
    ensures vsize as real * feeRate >= 0.0
    ensures Ceiling(vsize as real * feeRate) >= 0
  {
  }

  /** What every plan promises. */
  ghost predicate SoundPlan(p: ExecutionPlan, feeRate: real, dust: nat) {
    && p.inputs != [] && ValidatePlan(p).None?
    && (p.change == 0 || p.change >= dust)
    && SumFunding(p.fundingOutputs) == p.amount
    && p.vsize as real * feeRate <= p.fee as real < p.vsize as real * feeRate + 1.0
  }

  lemma FeeCovers(vsize: nat, feeRate: real)
    requires feeRate > 0.0
    ensures 0 <= FeeOf(vsize, feeRate)
    ensures vsize as real * feeRate <= FeeOf(vsize, feeRate) as real < vsize as real * feeRate + 1.0
  {
    SizeTimesRate(vsize, feeRate);
    CeilingBounds(vsize as real * feeRate);
  }

  lemma PlanAmounts(coins: seq<Coin>, targets: seq<int>, feeRate: real, types: seq<string>,
                    estimate: Estimator, dust: nat)
    requires BuildMultiPlan(coins, targets, feeRate, types, estimate, dust).Ok?
    ensures var p := BuildMultiPlan(coins, targets, feeRate, types, estimate, dust).value;
            p.amount > 0 && SumFunding(p.fundingOutputs) == p.amount
  {
    var p := BuildMultiPlan(coins, targets, feeRate, types, estimate, dust).value;
    if IsSweep(targets) {
      FundingSum([p.amount], types);
      assert [p.amount][..0] == [];
    } else {
      PositiveSum(targets);
      FundingSum(targets, types);
    }
  }

  lemma PlansAreSound(coins: seq<Coin>, targets: seq<int>, feeRate: real, types: seq<string>,
                      estimate: Estimator, dust: nat)
    requires DistinctCoins(coins)
    ensures var r := BuildMultiPlan(coins, targets, feeRate, types, estimate, dust);
            r.Ok? ==> SoundPlan(r.value, feeRate, dust) && r.value.inputs == coins
  {
    var r := BuildMultiPlan(coins, targets, feeRate, types, estimate, dust);
    if r.Ok? {
      PlanAmounts(coins, targets, feeRate, types, estimate, dust);
      FeeCovers(r.value.vsize, feeRate);
    }
  }

  /**
   When there is a plan: well-formed targets that the coins can pay together with
   the fee, leaving no change between nothing and the dust threshold.
   */
  lemma WhenAPlanExists(coins: seq<Coin>, targets: seq<int>, feeRate: real, types: seq<string>,
                        estimate: Estimator, dust: nat)
    ensures var total := SumValues(coins);
            var fee := FeeOf(EstimatedSize(coins, targets, types, estimate), feeRate);
            BuildMultiPlan(coins, targets, feeRate, types, estimate, dust).Ok? <==>
              && feeRate > 0.0 && targets != [] && |targets| == |types|
              && (IsSweep(targets) || forall i :: 0 <= i < |targets| ==> targets[i] > 0)
              && (if IsSweep(targets) then total > fee
                  else total == Sum(targets) + fee || (total > Sum(targets) + fee && total >= Sum(targets) + fee + dust))
  {
  }

  /** What a plan costs is what the transaction would weigh: its coins by kind, its outputs, its change. */
  ghost predicate SizedRight(vsize: nat, coins: seq<Coin>, targets: seq<int>, types: seq<string>, estimate: Estimator) {
    exists ins: seq<string>, outs: seq<string> ::
      && vsize == estimate(ins, outs)
      && |ins| == |coins| && (forall i :: 0 <= i < |coins| ==> ins[i] == if coins[i].p2wsh then "p2wsh" else "p2wpkh")
      && types <= outs && |outs| == |types| + (if targets == [0] then 0 else 1)
      && (targets != [0] ==> outs[|types|] == "p2wpkh")
  }

  lemma SizeMeans(coins: seq<Coin>, targets: seq<int>, types: seq<string>, estimate: Estimator)
    ensures SizedRight(EstimatedSize(coins, targets, types, estimate), coins, targets, types, estimate)
  {
    var ins, outs := InputTypes(coins), if IsSweep(targets) then types else types + ["p2wpkh"];
    assert IsSweep(targets) <==> targets == [0];
    assert EstimatedSize(coins, targets, types, estimate) == estimate(ins, outs);
  }

  lemma PlansAreSized(coins: seq<Coin>, targets: seq<int>, feeRate: real, types: seq<string>,
                      estimate: Estimator, dust: nat)
    ensures var r := BuildMultiPlan(coins, targets, feeRate, types, estimate, dust);
            r.Ok? ==> SizedRight(r.value.vsize, coins, targets, types, estimate)
  {
    SizeMeans(coins, targets, types, estimate);
  }

  /** Why there is none, for a well-formed request: too little for amounts and fee, or change that is dust. */
  lemma WhyNoPlan(coins: seq<Coin>, targets: seq<int>, feeRate: real, types: seq<string>,
                  estimate: Estimator, dust: nat, fee: int)
    requires feeRate > 0.0 && targets != [] && |targets| == |types|
    requires targets == [0] || forall i :: 0 <= i < |targets| ==> targets[i] > 0
    requires fee == FeeOf(EstimatedSize(coins, targets, types, estimate), feeRate)
    ensures var r, total := BuildMultiPlan(coins, targets, feeRate, types, estimate, dust), SumValues(coins);
            && (r == Err(InsufficientFunds) <==> if targets == [0] then total <= fee else total < Sum(targets) + fee)
            && (r == Err(Dust) <==> targets != [0] && 0 < total - Sum(targets) - fee < dust)
  {
  }

  lemma {:induction false} PartOfSum(amounts: seq<int>, k: nat)
    requires k < |amounts| && forall i :: 0 <= i < |amounts| ==> amounts[i] > 0
    ensures amounts[k] <= Sum(amounts)
    decreases |amounts|
  {
    var most := amounts[..|amounts| - 1];
    PositiveSum(most);
    if k < |amounts| - 1 { PartOfSum(most, k); }
  }

  lemma SettledIsPayable(coins: seq<Coin>, targets: seq<int>, types: seq<string>, vsize: nat, fee: nat, dust: nat)
    requires SumValues(coins) < 0x1_0000_0000_0000_0000 && |targets| == |types|
    requires IsSweep(targets) || forall i :: 0 <= i < |targets| ==> targets[i] > 0
    requires Settle(coins, targets, types, vsize, fee, dust).Ok?
    ensures PayablePlan(Settle(coins, targets, types, vsize, fee, dust).value)
  {
    var p := Settle(coins, targets, types, vsize, fee, dust).value;
    if !IsSweep(targets) {
      PositiveSum(targets);
      forall i | 0 <= i < |targets| ensures 0 <= p.fundingOutputs[i].amount < 0x1_0000_0000_0000_0000 {
        PartOfSum(targets, i);
      }
    }
  }

  lemma PlansArePayable(coins: seq<Coin>, targets: seq<int>, feeRate: real, types: seq<string>,
                        estimate: Estimator, dust: nat)
    requires SumValues(coins) < 0x1_0000_0000_0000_0000
    requires BuildMultiPlan(coins, targets, feeRate, types, estimate, dust).Ok?
    ensures PayablePlan(BuildMultiPlan(coins, targets, feeRate, types, estimate, dust).value)
  {
    var vsize := EstimatedSize(coins, targets, types, estimate);
    FeeCovers(vsize, feeRate);
    SettledIsPayable(coins, targets, types, vsize, FeeOf(vsize, feeRate), dust);
  }

  lemma PlanPaysTargets(coins: seq<Coin>, targets: seq<int>, feeRate: real, types: seq<string>,
                        estimate: Estimator, dust: nat)
    requires BuildMultiPlan(coins, targets, feeRate, types, estimate, dust).Ok?
    ensures var p := BuildMultiPlan(coins, targets, feeRate, types, estimate, dust).value;
            |p.fundingOutputs| == |targets| == |types| && p.fundingOutputs != []
            && forall i :: 0 <= i < |targets| ==>
                 p.fundingOutputs[i] == FundingOutput(if targets == [0] then p.amount else targets[i], types[i])
  {
  }

  /** The outputs of a transaction that carries out a plan: channels first, then the change, the fee left over. */
  ghost predicate CarriesOut(p: ExecutionPlan, outputs: seq<TxOut>, targets: seq<int>, addresses: seq<Bytes>,
                             change: Bytes) {
    && |addresses| == |targets| <= |outputs|
    && (forall i :: 0 <= i < |addresses| ==>
          outputs[i].script == addresses[i]
          && outputs[i].value == if targets == [0] then p.amount else targets[i])
    && |outputs| == |addresses| + (if p.change > 0 then 1 else 0)
    && (p.change > 0 ==> outputs[|addresses|].script == change && outputs[|addresses|].value == p.change)
    && SumValues(p.inputs) - SumOutputs(outputs) == p.fee
  }

  /** The transaction built from a plan pays every target, and at least the asked-for rate as its fee. */
  method PlanAndBuild(coins: seq<Coin>, targets: seq<int>, feeRate: real, types: seq<string>, estimate: Estimator,
                      dust: nat, addresses: seq<Bytes>, change: Bytes)
    returns (r: Result<(ExecutionPlan, seq<TxOut>), PlanError>)
    requires DistinctCoins(coins) && SumValues(coins) < 0x1_0000_0000_0000_0000
    ensures r.Ok? <==> BuildMultiPlan(coins, targets, feeRate, types, estimate, dust).Ok? && |targets| == |addresses|
    ensures r.Ok? ==> SoundPlan(r.value.0, feeRate, dust) && r.value.0.inputs == coins
    ensures r.Ok? ==> CarriesOut(r.value.0, r.value.1, targets, addresses, change)
  {
    var plan := BuildMultiPlan(coins, targets, feeRate, types, estimate, dust);
    if plan.Err? { return Err(plan.error); }
    PlansAreSound(coins, targets, feeRate, types, estimate, dust);
    PlansArePayable(coins, targets, feeRate, types, estimate, dust);
    PlanPaysTargets(coins, targets, feeRate, types, estimate, dust);
    var outputs := MultifundingTxOutputs(plan.value, addresses, change);
    if outputs.Err? { return Err(outputs.error); }
    return Ok((plan.value, outputs.value));
  }
}
