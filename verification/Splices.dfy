/**
 What a negotiated splice may pay to whom. The check counts outputs; the lemmas
 say which output multisets it lets through and who bears the fee.
 */
module Splices {
  import opened Prelude
  import opened Sequences
  import opened Outpoints
  import opened Encodings
  import opened Psbts
  import opened Planner

  /** Value and script of an output. */
  type Paid = (int, Bytes)

  datatype Contribution = Contribution(
    jmOutpoint: Outpoint, jmValue: nat, changeScript: Option<Bytes>, changeValue: int,
    channelOutput: Paid, channelContribution: int, baseline: seq<Paid>, maxFee: int)

  datatype Reason =
    | InputMapCount | OutputMapCount | NotExactlyOnce | ValueChanged | MissingRequired
    | BadUtxoRecord | NoUtxoRecord | OutputsChanged | FeeNegative | FeeTooHigh

  // ---- counters: a missing key counts zero ----

  type Counter = map<Paid, int>

  function At(c: Counter, o: Paid): int {
    if o in c then c[o] else 0
  }

  function Bump(c: Counter, o: Paid, step: int): Counter {
    c[o := At(c, o) + step]
  }

  function Tally(outputs: seq<Paid>): Counter {
    if outputs == [] then map[]
    else Bump(Tally(outputs[..|outputs| - 1]), outputs[|outputs| - 1], 1)
  }

  predicate SameCounts(a: Counter, b: Counter) {
    forall o | o in a.Keys + b.Keys :: At(a, o) == At(b, o)
  }

  function WithChange(c: Contribution, counts: Counter): Counter {
    if c.changeScript.Some? then Bump(counts, (c.changeValue, c.changeScript.value), 1) else counts
  }

  function ChannelAfter(c: Contribution): Paid {
    (c.channelOutput.0 + c.channelContribution, c.channelOutput.1)
  }

  function ExpectedPre(c: Contribution): Counter {
    WithChange(c, Tally(c.baseline))
  }

  function ExpectedFinal(c: Contribution): Counter {
    var less := Bump(Tally(c.baseline), c.channelOutput, -1);
    var without := if less[c.channelOutput] == 0 then less - {c.channelOutput} else less;
    WithChange(c, Bump(without, ChannelAfter(c), 1))
  }

  // ---- the check ----

  predicate Spends(p: Psbt, i: nat, o: Outpoint)
    requires i < |p.transaction.inputs|
  {
    p.transaction.inputs[i].txid == o.txid && p.transaction.inputs[i].vout == o.vout
  }

  /** The inputs before n that spend an outpoint. */
  function Matches(p: Psbt, n: nat, o: Outpoint): seq<nat>
    requires n <= |p.transaction.inputs|
  {
    if n == 0 then [] else Matches(p, n - 1, o) + (if Spends(p, n - 1, o) then [n - 1] else [])
  }

  /** The value an input's own records vouch for. */
  function InputValue(p: Psbt, i: nat, read: Reader): Result<nat, Reason>
    requires i < |p.inputMaps| && i < |p.transaction.inputs|
  {
    var witnessed := OfKind(p.inputMaps[i], IN_WITNESS_UTXO);
    if |witnessed| == 1 then
      if |witnessed[0].value| < 8 then Err(BadUtxoRecord) else Ok(FromLittle(witnessed[0].value[..8]))
    else
      var nonWitness := OfKind(p.inputMaps[i], IN_NON_WITNESS_UTXO);
      if |nonWitness| != 1 then Err(NoUtxoRecord)
      else match read(nonWitness[0].value)
           case None => Err(BadUtxoRecord)
           case Some(previous) =>
             if p.transaction.inputs[i].vout >= |previous.outputs| then Err(BadUtxoRecord)
             else Ok(previous.outputs[p.transaction.inputs[i].vout].value)
  }

  /** Sum over the inputs before n. */
  function InputTotal(p: Psbt, n: nat, read: Reader): Result<nat, Reason>
    requires n <= |p.inputMaps| && n <= |p.transaction.inputs|
  {
    if n == 0 then Ok(0)
    else match InputTotal(p, n - 1, read)
         case Err(e) => Err(e)
         case Ok(sum) => match InputValue(p, n - 1, read)
                         case Err(e) => Err(e)
                         case Ok(value) => Ok(sum + value)
  }

  function PaidOf(outputs: seq<TxOut>): seq<Paid> {
    seq(|outputs|, i requires 0 <= i < |outputs| => (outputs[i].value as int, outputs[i].script))
  }

  function SumPaid(outputs: seq<Paid>): int {
    if outputs == [] then 0 else SumPaid(outputs[..|outputs| - 1]) + outputs[|outputs| - 1].0
  }

  function CheckCoin(p: Psbt, o: Outpoint, value: nat, read: Reader, missing: Reason): Option<Reason>
    requires |p.inputMaps| == |p.transaction.inputs|
  {
    var matches := Matches(p, |p.transaction.inputs|, o);
    if |matches| != 1 then Some(missing)
    else if matches[0] >= |p.inputMaps| then Some(missing)
    else match InputValue(p, matches[0], read)
         case Err(e) => Some(e)
         case Ok(found) => if found != value then Some(ValueChanged) else None
  }

  function CheckRequired(p: Psbt, required: seq<Coin>, read: Reader): Option<Reason>
    requires |p.inputMaps| == |p.transaction.inputs|
  {
    if required == [] then None
    else match CheckCoin(p, required[0].outpoint, required[0].value, read, MissingRequired)
         case Some(reason) => Some(reason)
         case None => CheckRequired(p, required[1..], read)
  }

  function CheckFee(p: Psbt, c: Contribution, read: Reader): Option<Reason>
    requires |p.inputMaps| == |p.transaction.inputs|
  {
    match InputTotal(p, |p.transaction.inputs|, read)
    case Err(e) => Some(e)
    case Ok(total) =>
      var fee := total - SumPaid(PaidOf(p.transaction.outputs));
      if fee < 0 then Some(FeeNegative) else if fee > c.maxFee then Some(FeeTooHigh) else None
  }

  function CheckCoins(p: Psbt, c: Contribution, required: Option<seq<Coin>>, read: Reader): Option<Reason>
    requires |p.inputMaps| == |p.transaction.inputs|
  {
    match CheckCoin(p, c.jmOutpoint, c.jmValue, read, NotExactlyOnce)
    case Some(reason) => Some(reason)
    case None => if required.Some? then CheckRequired(p, required.value, read) else None
  }

  /** Before the channel has grown the fee means nothing yet and is not looked at. */
  function CheckOutputs(p: Psbt, c: Contribution, read: Reader): Option<Reason>
    requires |p.inputMaps| == |p.transaction.inputs|
  {
    var actual := Tally(PaidOf(p.transaction.outputs));
    var pre, final := SameCounts(actual, ExpectedPre(c)), SameCounts(actual, ExpectedFinal(c));
    if !(pre || final) then Some(OutputsChanged) else if final then CheckFee(p, c, read) else None
  }

  /** `None` accepts. */
  function ValidateSplice(p: Psbt, c: Contribution, required: Option<seq<Coin>>, read: Reader): Option<Reason> {
    if |p.inputMaps| != |p.transaction.inputs| then Some(InputMapCount)
    else if |p.outputMaps| != |p.transaction.outputs| then Some(OutputMapCount)
    else match CheckCoins(p, c, required, read)
         case Some(reason) => Some(reason)
         case None => CheckOutputs(p, c, read)
  }

  // ---- counters and multisets ----

  lemma {:induction false} TallyCounts(outputs: seq<Paid>, o: Paid)
    ensures At(Tally(outputs), o) == multiset(outputs)[o]
  {
    if outputs != [] {
      var most := outputs[..|outputs| - 1];
      assert outputs == most + [outputs[|outputs| - 1]];
      TallyCounts(most, o);
    }
  }

  function ChangeOf(c: Contribution): seq<Paid> {
    if c.changeScript.Some? then [(c.changeValue, c.changeScript.value)] else []
  }

  /** The channel has not grown yet. */
  ghost predicate PreShape(outputs: seq<Paid>, c: Contribution) {
    multiset(outputs) == multiset(c.baseline + ChangeOf(c))
  }

  /** The channel output is exchanged for one larger by the contribution. */
  ghost predicate FinalShape(outputs: seq<Paid>, c: Contribution) {
    multiset(outputs + [c.channelOutput]) == multiset(c.baseline + ChangeOf(c) + [ChannelAfter(c)])
  }

  lemma CountsPre(c: Contribution, o: Paid)
    ensures At(ExpectedPre(c), o) == multiset(c.baseline + ChangeOf(c))[o]
  {
    TallyCounts(c.baseline, o);
  }

  lemma WithChangeCounts(c: Contribution, counts: Counter, o: Paid)
    ensures At(WithChange(c, counts), o) == At(counts, o) + multiset(ChangeOf(c))[o]
  {
  }

  lemma CountsFinal(c: Contribution, o: Paid)
    ensures At(ExpectedFinal(c), o) + multiset([c.channelOutput])[o]
         == multiset(c.baseline + ChangeOf(c) + [ChannelAfter(c)])[o]
  {
    TallyCounts(c.baseline, o);
    var less := Bump(Tally(c.baseline), c.channelOutput, -1);
    var without := if less[c.channelOutput] == 0 then less - {c.channelOutput} else less;
    assert At(without, o) == At(less, o) == At(Tally(c.baseline), o) - multiset([c.channelOutput])[o];
    WithChangeCounts(c, Bump(without, ChannelAfter(c), 1), o);
  }

  lemma PreMeans(outputs: seq<Paid>, c: Contribution)
    ensures SameCounts(Tally(outputs), ExpectedPre(c)) <==> PreShape(outputs, c)
  {
    var a, e := Tally(outputs), ExpectedPre(c);
    forall o ensures At(a, o) == multiset(outputs)[o] && At(e, o) == multiset(c.baseline + ChangeOf(c))[o] {
      TallyCounts(outputs, o);
      CountsPre(c, o);
    }
    if SameCounts(a, e) {
      forall o ensures multiset(outputs)[o] == multiset(c.baseline + ChangeOf(c))[o] {
        assert At(a, o) == At(e, o);
      }
      assert PreShape(outputs, c);
    }
  }

  lemma FinalMeans(outputs: seq<Paid>, c: Contribution)
    ensures SameCounts(Tally(outputs), ExpectedFinal(c)) <==> FinalShape(outputs, c)
  {
    var a, e := Tally(outputs), ExpectedFinal(c);
    var left, right := multiset(outputs + [c.channelOutput]), multiset(c.baseline + ChangeOf(c) + [ChannelAfter(c)]);
    forall o ensures At(a, o) == At(e, o) <==> left[o] == right[o] {
      TallyCounts(outputs, o);
      CountsFinal(c, o);
    }
    if SameCounts(a, e) {
      forall o ensures left[o] == right[o] {
        assert At(a, o) == At(e, o);
      }
      assert left == right;
    }
  }

  /** The two shapes exclude each other unless nothing is contributed. */
  lemma ShapesExcludeEachOther(outputs: seq<Paid>, c: Contribution)
    requires PreShape(outputs, c)
    ensures FinalShape(outputs, c) <==> c.channelContribution == 0
  {
    var ch, after := c.channelOutput, ChannelAfter(c);
    assert multiset(outputs + [ch])[ch] == multiset(outputs)[ch] + 1;
    assert multiset(c.baseline + ChangeOf(c) + [after])[ch]
        == multiset(c.baseline + ChangeOf(c))[ch] + (if after == ch then 1 else 0);
  }

  // ---- sums depend on the multiset only ----

  lemma {:induction false} SumPaidAppend(a: seq<Paid>, b: seq<Paid>)
    ensures SumPaid(a + b) == SumPaid(a) + SumPaid(b)
  {
    if b == [] {
      assert a + b == a;
    } else {
      assert (a + b)[..|a + b| - 1] == a + b[..|b| - 1];
      SumPaidAppend(a, b[..|b| - 1]);
    }
  }

  lemma SumPaidOne(o: Paid)
    ensures SumPaid([o]) == o.0
  {
    assert [o][..0] == [];
  }

  lemma SumPaidInsert(a: seq<Paid>, o: Paid, b: seq<Paid>)
    ensures SumPaid(a + [o] + b) == SumPaid(a + b) + o.0
  {
    SumPaidAppend(a + [o], b);
    SumPaidAppend(a, [o]);
    SumPaidAppend(a, b);
    SumPaidOne(o);
  }

  lemma SumPaidWithout(a: seq<Paid>, k: nat)
    requires k < |a|
    ensures SumPaid(a) == SumPaid(a[..k] + a[k + 1..]) + a[k].0
  {
    Cut(a, k);
    SumPaidInsert(a[..k], a[k], a[k + 1..]);
  }

  lemma {:induction false} SameMultisetSameSum(a: seq<Paid>, b: seq<Paid>)
    requires multiset(a) == multiset(b)
    ensures SumPaid(a) == SumPaid(b)
    decreases |a|
  {
    if a == [] {
      assert |multiset(b)| == 0;
    } else {
      var last := |a| - 1;
      assert a[last] in multiset(b);
      var k :| 0 <= k < |b| && b[k] == a[last];
      var restA, restB := a[..last] + a[last + 1..], b[..k] + b[k + 1..];
      SumPaidWithout(a, last);
      SumPaidWithout(b, k);
      MultisetWithout(a, last);
      MultisetWithout(b, k);
      SameMultisetSameSum(restA, restB);
    }
  }

  // ---- what acceptance means ----

  /**
   What an input's records vouch for: the eight bytes the one witness UTXO record
   begins with, or else the output with the input's number in the previous
   transaction of the one non-witness record.
   */
  ghost predicate Vouches(p: Psbt, i: nat, read: Reader, value: nat)
    requires i < |p.inputMaps| && i < |p.transaction.inputs|
  {
    var witnessed, previous := OfKind(p.inputMaps[i], IN_WITNESS_UTXO), OfKind(p.inputMaps[i], IN_NON_WITNESS_UTXO);
    if |witnessed| == 1 then
      value < 0x1_0000_0000_0000_0000 && Little(value, 8) <= witnessed[0].value
    else
      && |previous| == 1 && read(previous[0].value).Some?
      && p.transaction.inputs[i].vout < |read(previous[0].value).value.outputs|
      && read(previous[0].value).value.outputs[p.transaction.inputs[i].vout].value == value
  }

  lemma InputValueMeans(p: Psbt, i: nat, read: Reader, value: nat)
    requires i < |p.inputMaps| && i < |p.transaction.inputs|
    ensures InputValue(p, i, read) == Ok(value) <==> Vouches(p, i, read, value)
  {
    Powers();
    var witnessed := OfKind(p.inputMaps[i], IN_WITNESS_UTXO);
    if |witnessed| == 1 {
      var b := witnessed[0].value;
      if |b| >= 8 { LittleInverse(b[..8]); }
      if value < 0x1_0000_0000_0000_0000 {
        LittleRoundTrip(value, 8);
        if Little(value, 8) <= b { assert b[..8] == Little(value, 8); }
      }
    }
  }

  /** The values of all inputs, each vouched for by its own records. */
  ghost predicate Values(p: Psbt, read: Reader, values: seq<nat>) {
    && |p.inputMaps| == |p.transaction.inputs| == |values|
    && forall i :: 0 <= i < |values| ==> Vouches(p, i, read, values[i])
  }

  ghost predicate HasValue(p: Psbt, i: nat, read: Reader)
    requires i < |p.inputMaps| && i < |p.transaction.inputs|
  {
    exists v: nat :: Vouches(p, i, read, v)
  }

  /** The total exists exactly if every input's value does, and is the sum of these values. */
  lemma {:induction false} InputTotalMeans(p: Psbt, n: nat, read: Reader) returns (values: seq<nat>)
    requires n <= |p.inputMaps| && n <= |p.transaction.inputs|
    ensures InputTotal(p, n, read).Ok? <==> forall i :: 0 <= i < n ==> HasValue(p, i, read)
    ensures InputTotal(p, n, read).Ok? ==>
              |values| == n && (forall i :: 0 <= i < n ==> Vouches(p, i, read, values[i]))
              && InputTotal(p, n, read).value == Sum(values)
  {
    values := [];
    if n != 0 {
      var k := n - 1;
      values := InputTotalMeans(p, k, read);
      var v := InputValue(p, k, read);
      if v.Ok? {
        InputValueMeans(p, k, read, v.value);
        SumAppend(values, [v.value]);
        SumOne(v.value);
        values := values + [v.value];
      } else {
        forall w: nat ensures !Vouches(p, k, read, w) { InputValueMeans(p, k, read, w); }
        assert !HasValue(p, k, read);
      }
    }
  }

  /** There is one such sequence at most. */
  lemma ValuesAreUnique(p: Psbt, read: Reader, a: seq<nat>, b: seq<nat>)
    requires Values(p, read, a) && Values(p, read, b)
    ensures a == b
  {
    forall i | 0 <= i < |a| ensures a[i] == b[i] {
      InputValueMeans(p, i, read, a[i]);
      InputValueMeans(p, i, read, b[i]);
    }
  }

  /** The total of a PSBT whose values are known. */
  lemma TotalOfValues(p: Psbt, read: Reader, values: seq<nat>)
    requires Values(p, read, values)
    ensures InputTotal(p, |values|, read) == Ok(Sum(values))
  {
    var found := InputTotalMeans(p, |values|, read);
    forall i | 0 <= i < |values| ensures HasValue(p, i, read) { assert Vouches(p, i, read, values[i]); }
    ValuesAreUnique(p, read, values, found);
  }

  /** One input spends the outpoint, and its records vouch for the value. */
  ghost predicate HasExactly(p: Psbt, o: Outpoint, value: nat, read: Reader) {
    && |p.inputMaps| == |p.transaction.inputs|
    && exists i :: 0 <= i < |p.transaction.inputs| && Spends(p, i, o) && Vouches(p, i, read, value)
                   && forall j :: 0 <= j < |p.transaction.inputs| && Spends(p, j, o) ==> j == i
  }

  lemma {:induction false} MatchesMean(p: Psbt, n: nat, o: Outpoint)
    requires n <= |p.transaction.inputs|
    ensures forall k :: 0 <= k < |Matches(p, n, o)| ==> Matches(p, n, o)[k] < n && Spends(p, Matches(p, n, o)[k], o)
    ensures forall i :: 0 <= i < n && Spends(p, i, o) ==> i in Matches(p, n, o)
    ensures forall k, l :: 0 <= k < l < |Matches(p, n, o)| ==> Matches(p, n, o)[k] != Matches(p, n, o)[l]
  {
    if n != 0 { MatchesMean(p, n - 1, o); }
  }

  lemma {:induction false} OneMatch(p: Psbt, n: nat, o: Outpoint, i: nat)
    requires n <= |p.transaction.inputs| && i < |p.transaction.inputs| && Spends(p, i, o)
    requires forall j :: 0 <= j < |p.transaction.inputs| && Spends(p, j, o) ==> j == i
    ensures Matches(p, n, o) == if i < n then [i] else []
  {
    if n != 0 { OneMatch(p, n - 1, o, i); }
  }

  lemma OnlyMatch(p: Psbt, o: Outpoint, i: nat)
    requires Matches(p, |p.transaction.inputs|, o) == [i]
    ensures i < |p.transaction.inputs| && Spends(p, i, o)
    ensures forall j :: 0 <= j < |p.transaction.inputs| && Spends(p, j, o) ==> j == i
  {
    MatchesMean(p, |p.transaction.inputs|, o);
    assert [i][0] == i;
    forall j | 0 <= j < |p.transaction.inputs| && Spends(p, j, o) ensures j == i {
      assert j in [i];
    }
  }

  lemma CoinMeans(p: Psbt, o: Outpoint, value: nat, read: Reader, missing: Reason)
    requires |p.inputMaps| == |p.transaction.inputs|
    ensures CheckCoin(p, o, value, read, missing).None? <==> HasExactly(p, o, value, read)
  {
    var n := |p.transaction.inputs|;
    if HasExactly(p, o, value, read) {
      var i :| 0 <= i < n && Spends(p, i, o) && Vouches(p, i, read, value)
               && forall j :: 0 <= j < n && Spends(p, j, o) ==> j == i;
      InputValueMeans(p, i, read, value);
      OneMatch(p, n, o, i);
    }
    var m := Matches(p, n, o);
    if |m| == 1 {
      assert m == [m[0]];
      OnlyMatch(p, o, m[0]);
      InputValueMeans(p, m[0], read, value);
    }
  }

  lemma {:induction false} RequiredMeans(p: Psbt, required: seq<Coin>, read: Reader)
    requires |p.inputMaps| == |p.transaction.inputs|
    ensures CheckRequired(p, required, read).None?
       <==> forall k :: 0 <= k < |required| ==> HasExactly(p, required[k].outpoint, required[k].value, read)
  {
    if required != [] {
      CoinMeans(p, required[0].outpoint, required[0].value, read, MissingRequired);
      RequiredMeans(p, required[1..], read);
      assert forall k :: 1 <= k < |required| ==> required[k] == required[1..][k - 1];
    }
  }

  /** The fee, from what the inputs' own records say they are worth. */
  function FeeFrom(p: Psbt, values: seq<nat>): int {
    Sum(values) - SumPaid(PaidOf(p.transaction.outputs))
  }

  ghost predicate FeeWithin(p: Psbt, c: Contribution, read: Reader) {
    exists values: seq<nat> :: Values(p, read, values) && 0 <= FeeFrom(p, values) <= c.maxFee
  }

  ghost predicate HasCoins(p: Psbt, c: Contribution, required: Option<seq<Coin>>, read: Reader) {
    && HasExactly(p, c.jmOutpoint, c.jmValue, read)
    && (required.Some? ==> forall k :: 0 <= k < |required.value| ==>
          HasExactly(p, required.value[k].outpoint, required.value[k].value, read))
  }

  ghost predicate PaysAsAgreed(p: Psbt, c: Contribution, read: Reader) {
    var outputs := PaidOf(p.transaction.outputs);
    && (PreShape(outputs, c) || FinalShape(outputs, c))
    && (FinalShape(outputs, c) ==> FeeWithin(p, c, read))
  }

  lemma CoinsMean(p: Psbt, c: Contribution, required: Option<seq<Coin>>, read: Reader)
    requires |p.inputMaps| == |p.transaction.inputs|
    ensures CheckCoins(p, c, required, read).None? <==> HasCoins(p, c, required, read)
  {
    CoinMeans(p, c.jmOutpoint, c.jmValue, read, NotExactlyOnce);
    if required.Some? { RequiredMeans(p, required.value, read); }
  }

  lemma OutputsMean(p: Psbt, c: Contribution, read: Reader)
    requires |p.inputMaps| == |p.transaction.inputs|
    ensures CheckOutputs(p, c, read).None? <==> PaysAsAgreed(p, c, read)
  {
    PreMeans(PaidOf(p.transaction.outputs), c);
    FinalMeans(PaidOf(p.transaction.outputs), c);
    FeeMeans(p, c, read);
  }

  lemma FeeMeans(p: Psbt, c: Contribution, read: Reader)
    requires |p.inputMaps| == |p.transaction.inputs|
    ensures CheckFee(p, c, read).None? <==> FeeWithin(p, c, read)
    ensures forall values: seq<nat> :: Values(p, read, values) ==>
              && (CheckFee(p, c, read) == Some(FeeNegative) <==> FeeFrom(p, values) < 0)
              && (CheckFee(p, c, read) == Some(FeeTooHigh) <==> FeeFrom(p, values) >= 0 && FeeFrom(p, values) > c.maxFee)
  {
    var n := |p.transaction.inputs|;
    var found := InputTotalMeans(p, n, read);
    if InputTotal(p, n, read).Ok? { assert Values(p, read, found); }
    forall values: seq<nat> | Values(p, read, values) ensures InputTotal(p, n, read) == Ok(Sum(values)) {
      TotalOfValues(p, read, values);
    }
  }

  /** A PSBT passes exactly if it spends the approved coins and pays in one of the two shapes. */
  lemma AcceptedMeans(p: Psbt, c: Contribution, required: Option<seq<Coin>>, read: Reader)
    ensures ValidateSplice(p, c, required, read).None? <==>
              |p.outputMaps| == |p.transaction.outputs| && HasCoins(p, c, required, read) && PaysAsAgreed(p, c, read)
  {
    if |p.inputMaps| == |p.transaction.inputs| {
      CoinsMean(p, c, required, read);
      OutputsMean(p, c, read);
    }
  }

  // ---- who pays ----

  /** The contribution comes from a plan: what the coin is worth beyond it and the fee is change, and none is lost. */
  predicate FromPlan(c: Contribution) {
    && c.jmValue == c.channelContribution + c.maxFee + c.changeValue
    && (c.changeScript.None? ==> c.changeValue == 0)
  }

  lemma FinalSum(outputs: seq<Paid>, c: Contribution)
    requires FinalShape(outputs, c)
    ensures SumPaid(outputs) == SumPaid(c.baseline) + SumPaid(ChangeOf(c)) + c.channelContribution
  {
    var left, right := outputs + [c.channelOutput], c.baseline + ChangeOf(c) + [ChannelAfter(c)];
    SameMultisetSameSum(left, right);
    SumPaidAppend(outputs, [c.channelOutput]);
    SumPaidAppend(c.baseline + ChangeOf(c), [ChannelAfter(c)]);
    SumPaidAppend(c.baseline, ChangeOf(c));
    SumPaidOne(c.channelOutput);
    SumPaidOne(ChannelAfter(c));
  }

  /**
   Which refusals mean what: outputs in neither shape; a final splice that spends
   less than it pays, or leaves more than the maximum fee.
   */
  lemma RefusedMeans(p: Psbt, c: Contribution, required: Option<seq<Coin>>, read: Reader, values: seq<nat>)
    requires |p.outputMaps| == |p.transaction.outputs| && HasCoins(p, c, required, read) && Values(p, read, values)
    ensures var outputs, verdict := PaidOf(p.transaction.outputs), ValidateSplice(p, c, required, read);
            && (verdict == Some(OutputsChanged) <==> !PreShape(outputs, c) && !FinalShape(outputs, c))
            && (verdict == Some(FeeNegative) <==> FinalShape(outputs, c) && FeeFrom(p, values) < 0)
            && (verdict == Some(FeeTooHigh) <==>
                  FinalShape(outputs, c) && FeeFrom(p, values) >= 0 && FeeFrom(p, values) > c.maxFee)
  {
    CoinsMean(p, c, required, read);
    PreMeans(PaidOf(p.transaction.outputs), c);
    FinalMeans(PaidOf(p.transaction.outputs), c);
    FeeMeans(p, c, read);
    TotalOfValues(p, read, values);
  }

  lemma SumSplit(values: seq<nat>, k: nat)
    requires k < |values|
    ensures Sum(values) == Sum(values[..k] + values[k + 1..]) + values[k]
  {
    Cut(values, k);
    SumAppend(values[..k] + [values[k]], values[k + 1..]);
    SumAppend(values[..k], [values[k]]);
    SumAppend(values[..k], values[k + 1..]);
    SumOne(values[k]);
  }

  /**
   In an accepted final splice the channel output grew by exactly the
   contribution; JoinMarket gives its coin, input `k`, gets back its change, and so
   pays contribution and maximum fee whatever else is spent; the other inputs pay
   for the baseline outputs and only the part of the fee above the maximum, which
   is never positive.
   */
  lemma FinalSpliceEconomics(p: Psbt, c: Contribution, required: Option<seq<Coin>>, read: Reader)
    returns (values: seq<nat>, k: nat)
    requires ValidateSplice(p, c, required, read).None? && c.channelContribution != 0 && FromPlan(c)
    requires !PreShape(PaidOf(p.transaction.outputs), c)
    ensures Values(p, read, values) && k < |values| && Spends(p, k, c.jmOutpoint) && values[k] == c.jmValue
    ensures var outputs, others, fee := PaidOf(p.transaction.outputs), values[..k] + values[k + 1..], FeeFrom(p, values);
            && FinalShape(outputs, c)
            && 0 <= fee <= c.maxFee
            && c.jmValue - SumPaid(ChangeOf(c)) == c.channelContribution + c.maxFee
            && Sum(others) - SumPaid(c.baseline) == fee - c.maxFee
  {
    AcceptedMeans(p, c, required, read);
    FinalSum(PaidOf(p.transaction.outputs), c);
    if c.changeScript.Some? { SumPaidOne((c.changeValue, c.changeScript.value)); }
    values :| Values(p, read, values) && 0 <= FeeFrom(p, values) <= c.maxFee;
    k :| 0 <= k < |p.transaction.inputs| && Spends(p, k, c.jmOutpoint) && Vouches(p, k, read, c.jmValue);
    InputValueMeans(p, k, read, c.jmValue);
    InputValueMeans(p, k, read, values[k]);
    SumSplit(values, k);
  }

  /** With the channel output among the baseline, the final outputs are the baseline with that one exchanged. */
  lemma ChannelGrowsInPlace(outputs: seq<Paid>, c: Contribution)
    requires FinalShape(outputs, c) && c.channelOutput in c.baseline
    ensures multiset(outputs)
         == multiset(c.baseline) - multiset{c.channelOutput} + multiset{ChannelAfter(c)} + multiset(ChangeOf(c))
  {
    assert multiset(outputs) == multiset(outputs + [c.channelOutput]) - multiset{c.channelOutput};
  }
}
