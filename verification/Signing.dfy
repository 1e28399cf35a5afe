/**
 Signing with a wallet that is not trusted: whatever PSBT it answers with, an
 accepted one differs from the reviewed one only in signatures on the inputs that
 were to be signed, and in the two modification flags a signer clears.
 */
module Signing {
  import opened Prelude
  import opened Sequences
  import opened Encodings
  import opened Psbts
  import opened Planner

  datatype SignError =
    | Unparsable | InputMapCount | OutputMapCount | OutsidePsbt | AlreadySigned | NotApproved
    | NotAllSignable | NotAllSigned | WrongInputs | OtherTransaction | GlobalsChanged | OutputsChanged
    | InputCountChanged | InputChanged | ForeignSignatureChanged | UnknownKey | NotOneSignature
    | EmptySignature | BadSighash | BadSignature

  /** What the wallet said: how many inputs it can sign, which it signed, and a PSBT if it parses. */
  datatype Answer = Answer(signable: nat, indices: seq<int>, psbt: Option<Psbt>)

  /** Keys by address, and the signature check: transaction, input, public key, value, signature. */
  datatype Wallet = Wallet(pubkey: string -> Option<Bytes>, verifies: (Transaction, nat, Bytes, nat, Bytes) -> bool)

  type Plan = map<nat, Coin>

  predicate InRange(plan: Plan, n: nat) {
    forall i | i in plan.Keys :: i < n
  }

  // ---- what an accepted answer looks like ----

  /** `value & ~(INPUTS | OUTPUTS)`: the two lowest flag bits cleared. */
  function Cleared(flags: Byte): Byte {
    flags - flags % 4
  }

  predicate SameGlobal(source: KeyValue, signed: KeyValue) {
    && source.key == signed.key
    && if source.key != [GLOBAL_TX_MODIFIABLE] then source.value == signed.value
       else |source.value| == 1 && |signed.value| == 1 && signed.value[0] == Cleared(source.value[0])
  }

  predicate SameGlobals(source: Psbt, signed: Psbt) {
    source.globals == signed.globals
    || (signed.version == 2 && |source.globals| == |signed.globals|
        && forall i | 0 <= i < |source.globals| :: SameGlobal(source.globals[i], signed.globals[i]))
  }

  /** One signature by the coin's own key, over everything, that verifies. */
  predicate GoodSignature(r: KeyValue, coin: Coin, i: nat, tx: Transaction, wallet: Wallet) {
    var pubkey := wallet.pubkey(coin.address);
    && pubkey.Some? && r.key == [IN_PARTIAL_SIG] + pubkey.value
    && r.value != [] && r.value[|r.value| - 1] == 1
    && wallet.verifies(tx, i, pubkey.value, coin.value, r.value)
  }

  predicate SameInput(source: Records, signed: Records, i: nat, plan: Plan, tx: Transaction, wallet: Wallet) {
    var signatures := OfKind(signed, IN_PARTIAL_SIG);
    && NotOfKind(signed, IN_PARTIAL_SIG) == NotOfKind(source, IN_PARTIAL_SIG)
    && if i in plan then |signatures| == 1 && GoodSignature(signatures[0], plan[i], i, tx, wallet)
       else signatures == OfKind(source, IN_PARTIAL_SIG)
  }

  ghost predicate Faithful(source: Psbt, signed: Psbt, tx: Transaction, plan: Plan, wallet: Wallet) {
    && signed.transaction == tx
    && SameGlobals(source, signed)
    && signed.outputMaps == source.outputMaps
    && |signed.inputMaps| == |source.inputMaps|
    && forall i :: 0 <= i < |source.inputMaps| ==>
         SameInput(source.inputMaps[i], signed.inputMaps[i], i, plan, tx, wallet)
  }

  ghost predicate Accepted(source: Psbt, answer: Answer, tx: Transaction, plan: Plan, wallet: Wallet) {
    && answer.signable == |plan|
    && (set i | i in answer.indices) == plan.Keys && |answer.indices| == |plan|
    && answer.psbt.Some? && Faithful(source, answer.psbt.value, tx, plan, wallet)
  }

  // ---- the checks ----

  method CheckGlobals(source: Psbt, signed: Psbt) returns (ok: bool)
    ensures ok == SameGlobals(source, signed)
  {
    if source.globals == signed.globals { return true; }
    if signed.version != 2 || |source.globals| != |signed.globals| { return false; }
    for i := 0 to |source.globals|
      invariant forall j :: 0 <= j < i ==> SameGlobal(source.globals[j], signed.globals[j])
    {
      var before, after := source.globals[i], signed.globals[i];
      if before.key != after.key { return false; }
      if before.key != [GLOBAL_TX_MODIFIABLE] {
        if before.value != after.value { return false; }
      } else if |before.value| != 1 || |after.value| != 1 || after.value[0] != Cleared(before.value[0]) {
        return false;
      }
    }
    return true;
  }

  method CheckSignature(r: KeyValue, coin: Coin, i: nat, tx: Transaction, wallet: Wallet)
    returns (refused: Option<SignError>)
    ensures refused.None? <==> GoodSignature(r, coin, i, tx, wallet)
  {
    var pubkey := wallet.pubkey(coin.address);
    if pubkey.None? { return Some(UnknownKey); }
    if r.key != [IN_PARTIAL_SIG] + pubkey.value { return Some(NotOneSignature); }
    if r.value == [] { return Some(EmptySignature); }
    if r.value[|r.value| - 1] != 1 { return Some(BadSighash); }
    if !wallet.verifies(tx, i, pubkey.value, coin.value, r.value) { return Some(BadSignature); }
    return None;
  }

  method CheckInput(source: Records, signed: Records, i: nat, plan: Plan, tx: Transaction, wallet: Wallet)
    returns (refused: Option<SignError>)
    ensures refused.None? <==> SameInput(source, signed, i, plan, tx, wallet)
  {
    if NotOfKind(signed, IN_PARTIAL_SIG) != NotOfKind(source, IN_PARTIAL_SIG) { return Some(InputChanged); }
    var signatures := OfKind(signed, IN_PARTIAL_SIG);
    if i !in plan {
      if signatures != OfKind(source, IN_PARTIAL_SIG) { return Some(ForeignSignatureChanged); }
      return None;
    }
    if |signatures| != 1 {
      return Some(if wallet.pubkey(plan[i].address).None? then UnknownKey else NotOneSignature);
    }
    refused := CheckSignature(signatures[0], plan[i], i, tx, wallet);
  }

  /** Pairs up the maps; a missing or extra one is an error after the common ones were checked. */
  method CheckInputs(source: Psbt, signed: Psbt, plan: Plan, tx: Transaction, wallet: Wallet)
    returns (refused: Option<SignError>)
    ensures refused.None? <==>
      && |signed.inputMaps| == |source.inputMaps|
      && forall i :: 0 <= i < |source.inputMaps| ==>
           SameInput(source.inputMaps[i], signed.inputMaps[i], i, plan, tx, wallet)
  {
    var i := 0;
    while i < |source.inputMaps| && i < |signed.inputMaps|
      invariant i <= |source.inputMaps| && i <= |signed.inputMaps|
      invariant forall j :: 0 <= j < i ==> SameInput(source.inputMaps[j], signed.inputMaps[j], j, plan, tx, wallet)
    {
      refused := CheckInput(source.inputMaps[i], signed.inputMaps[i], i, plan, tx, wallet);
      if refused.Some? { return; }
      i := i + 1;
    }
    if |signed.inputMaps| != |source.inputMaps| { return Some(InputCountChanged); }
    return None;
  }

  method CheckIndices(answer: Answer, plan: Plan) returns (refused: Option<SignError>)
    ensures refused.None? <==> (set i | i in answer.indices) == plan.Keys && |answer.indices| == |plan|
  {
    var indices := set i | i in answer.indices;
    assert |plan| == |plan.Keys|;
    if |answer.indices| != |plan.Keys| { return Some(NotAllSigned); }
    if |indices| != |answer.indices| { return Some(WrongInputs); }
    if indices != plan.Keys { return Some(WrongInputs); }
    return None;
  }

  /** Accepts exactly the faithful answers, and returns the wallet's PSBT, finalised if asked. */
  method SignPsbt(source: Psbt, tx: Transaction, plan: Plan, answer: Answer, wallet: Wallet, finalise: bool)
    returns (r: Result<Psbt, SignError>)
    requires InRange(plan, |source.inputMaps|)
    ensures r.Ok? <==> Accepted(source, answer, tx, plan, wallet)
    ensures r.Ok? && !finalise ==> r.value == answer.psbt.value
    ensures r.Ok? && finalise ==> Finalised(answer.psbt.value, r.value, plan)
  {
    if answer.signable != |plan| { return Err(NotAllSignable); }
    var refused := CheckIndices(answer, plan);
    if refused.Some? { return Err(refused.value); }
    if answer.psbt.None? { return Err(Unparsable); }
    var signed := answer.psbt.value;
    if signed.transaction != tx { return Err(OtherTransaction); }
    var same := CheckGlobals(source, signed);
    if !same { return Err(GlobalsChanged); }
    if signed.outputMaps != source.outputMaps { return Err(OutputsChanged); }
    refused := CheckInputs(source, signed, plan, tx, wallet);
    if refused.Some? { return Err(refused.value); }
    if finalise {
      assert forall i :: i in plan ==> SameInput(source.inputMaps[i], signed.inputMaps[i], i, plan, tx, wallet);
      var final := FinaliseInputs(signed, plan);
      return final;
    }
    return Ok(signed);
  }

  // ---- finalising ----

  function Witness(signature: Bytes, pubkey: Bytes): Bytes {
    Varint(2) + Varint(|signature|) + signature + Varint(|pubkey|) + pubkey
  }

  function FinalMap(records: Records): Records
    requires |OfKind(records, IN_PARTIAL_SIG)| == 1
  {
    var signature := OfKind(records, IN_PARTIAL_SIG)[0];
    NotOfKind(records, IN_PARTIAL_SIG)
    + [KeyValue([IN_FINAL_SCRIPTWITNESS], Witness(signature.value, signature.key[1..]))]
  }

  predicate OneSignature(p: Psbt, i: nat) {
    i < |p.inputMaps| && |OfKind(p.inputMaps[i], IN_PARTIAL_SIG)| == 1
  }

  /** Signatures become witnesses on the planned inputs; nothing else changes. */
  ghost predicate Finalised(p: Psbt, n: Psbt, plan: Plan) {
    && n == p.(inputMaps := n.inputMaps) && |n.inputMaps| == |p.inputMaps|
    && (forall i :: i in plan ==> OneSignature(p, i))
    && forall i :: 0 <= i < |p.inputMaps| ==>
         n.inputMaps[i] == if i in plan then FinalMap(p.inputMaps[i]) else p.inputMaps[i]
  }

  method FinaliseInputs(p: Psbt, plan: Plan) returns (r: Result<Psbt, SignError>)
    requires InRange(plan, |p.inputMaps|)
    ensures r.Ok? <==> forall i :: i in plan ==> OneSignature(p, i)
    ensures r.Ok? ==> Finalised(p, r.value, plan)
  {
    var maps, left := p.inputMaps, plan.Keys;
    while left != {}
      invariant left <= plan.Keys && |maps| == |p.inputMaps|
      invariant forall i :: i in plan && i !in left ==> OneSignature(p, i)
      invariant forall i :: 0 <= i < |maps| ==>
                  maps[i] == if i in plan && i !in left then FinalMap(p.inputMaps[i]) else p.inputMaps[i]
    {
      var i :| i in left;
      if |OfKind(maps[i], IN_PARTIAL_SIG)| != 1 { return Err(NotOneSignature); }
      maps, left := maps[i := FinalMap(maps[i])], left - {i};
    }
    return Ok(p.(inputMaps := maps));
  }

  // ---- signing a splice ----

  /** The input spends the approved coin, and both its UTXO records say so. */
  predicate Approved(p: Psbt, i: nat, coin: Coin, read: Reader)
    requires i < |p.inputMaps| == |p.transaction.inputs|
  {
    var input := p.transaction.inputs[i];
    var witnessUtxos, previous := OfKind(p.inputMaps[i], IN_WITNESS_UTXO), OfKind(p.inputMaps[i], IN_NON_WITNESS_UTXO);
    && input.txid == coin.outpoint.txid && input.vout == coin.outpoint.vout
    && |witnessUtxos| == 1 && witnessUtxos[0].value == WitnessUtxo(coin.value, coin.script)
    && |previous| == 1
    && var parent := read(previous[0].value);
    && parent.Some? && Txid(parent.value) == coin.outpoint.txid
    && coin.outpoint.vout < |parent.value.outputs|
    && parent.value.outputs[coin.outpoint.vout].value == coin.value
    && parent.value.outputs[coin.outpoint.vout].script == coin.script
  }

  ghost predicate Signable(p: Psbt, plan: Plan, read: Reader) {
    && |p.inputMaps| == |p.transaction.inputs| && |p.outputMaps| == |p.transaction.outputs|
    && forall i :: i in plan ==>
         i < |p.inputMaps| && OfKind(p.inputMaps[i], IN_PARTIAL_SIG) == [] && Approved(p, i, plan[i], read)
  }

  method CheckSignable(p: Psbt, plan: Plan, read: Reader) returns (refused: Option<SignError>)
    ensures refused.None? <==> Signable(p, plan, read)
  {
    if |p.inputMaps| != |p.transaction.inputs| { return Some(InputMapCount); }
    if |p.outputMaps| != |p.transaction.outputs| { return Some(OutputMapCount); }
    var left := plan.Keys;
    while left != {}
      invariant left <= plan.Keys
      invariant forall i :: i in plan && i !in left ==>
                  i < |p.inputMaps| && OfKind(p.inputMaps[i], IN_PARTIAL_SIG) == [] && Approved(p, i, plan[i], read)
    {
      var i :| i in left;
      if i >= |p.inputMaps| { return Some(OutsidePsbt); }
      if OfKind(p.inputMaps[i], IN_PARTIAL_SIG) != [] { return Some(AlreadySigned); }
      if !Approved(p, i, plan[i], read) { return Some(NotApproved); }
      left := left - {i};
    }
    return None;
  }

  /** One good signature behind the records of each planned input, and not a byte elsewhere. */
  ghost predicate OnlySigned(p: Psbt, n: Psbt, plan: Plan, wallet: Wallet) {
    && n == p.(inputMaps := n.inputMaps) && |n.inputMaps| == |p.inputMaps|
    && forall i :: 0 <= i < |p.inputMaps| ==>
         if i in plan then
           |n.inputMaps[i]| == |p.inputMaps[i]| + 1 && n.inputMaps[i][..|p.inputMaps[i]|] == p.inputMaps[i]
           && GoodSignature(n.inputMaps[i][|p.inputMaps[i]|], plan[i], i, p.transaction, wallet)
         else n.inputMaps[i] == p.inputMaps[i]
  }

  method SignSplicePsbt(psbt: Option<Psbt>, plan: Plan, answer: Answer, wallet: Wallet, read: Reader)
    returns (r: Result<Psbt, SignError>)
    ensures r.Ok? <==> psbt.Some? && Signable(psbt.value, plan, read)
                       && Accepted(psbt.value, answer, psbt.value.transaction, plan, wallet)
    ensures r.Ok? ==> OnlySigned(psbt.value, r.value, plan, wallet)
  {
    if psbt.None? { return Err(Unparsable); }
    var p := psbt.value;
    var refused := CheckSignable(p, plan, read);
    if refused.Some? { return Err(refused.value); }
    var signing := SignPsbt(p, p.transaction, plan, answer, wallet, false);
    if signing.Err? { return signing; }
    var signed := signing.value;
    var maps := CopySignatures(p, signed, plan, wallet);
    return Ok(p.(inputMaps := maps));
  }

  lemma PlannedSignature(p: Psbt, signed: Psbt, plan: Plan, wallet: Wallet, i: nat)
    requires Faithful(p, signed, p.transaction, plan, wallet) && i in plan && i < |p.inputMaps|
    ensures var signatures := OfKind(signed.inputMaps[i], IN_PARTIAL_SIG);
            |signatures| == 1 && signatures == [signatures[0]]
            && GoodSignature(signatures[0], plan[i], i, p.transaction, wallet)
  {
    assert SameInput(p.inputMaps[i], signed.inputMaps[i], i, plan, p.transaction, wallet);
  }

  ghost predicate Copied(p: Psbt, signed: Psbt, maps: seq<Records>, done: set<nat>) {
    && |maps| == |p.inputMaps| <= |signed.inputMaps|
    && forall i :: 0 <= i < |maps| ==>
         maps[i] == if i in done then p.inputMaps[i] + OfKind(signed.inputMaps[i], IN_PARTIAL_SIG) else p.inputMaps[i]
  }

  /** The wallet's PSBT was checked to hold exactly one signature for each of these. */
  method CopySignatures(p: Psbt, signed: Psbt, plan: Plan, wallet: Wallet) returns (maps: seq<Records>)
    requires InRange(plan, |p.inputMaps|) && Faithful(p, signed, p.transaction, plan, wallet)
    ensures OnlySigned(p, p.(inputMaps := maps), plan, wallet)
  {
    maps := p.inputMaps;
    var left := plan.Keys;
    while left != {}
      invariant left <= plan.Keys && Copied(p, signed, maps, plan.Keys - left)
    {
      var i :| i in left;
      PlannedSignature(p, signed, plan, wallet, i);
      var signatures := OfKind(signed.inputMaps[i], IN_PARTIAL_SIG);
      CopiedMore(p, signed, maps, plan.Keys, left, i);
      maps, left := maps[i := maps[i] + [signatures[0]]], left - {i};
    }
    CopiedIsOnlySigned(p, signed, maps, plan, wallet);
  }

  lemma CopiedMore(p: Psbt, signed: Psbt, maps: seq<Records>, all: set<nat>, left: set<nat>, i: nat)
    requires Copied(p, signed, maps, all - left) && left <= all && i in left && i < |maps|
    requires |OfKind(signed.inputMaps[i], IN_PARTIAL_SIG)| == 1
    ensures Copied(p, signed, maps[i := maps[i] + [OfKind(signed.inputMaps[i], IN_PARTIAL_SIG)[0]]], all - (left - {i}))
  {
    var signatures := OfKind(signed.inputMaps[i], IN_PARTIAL_SIG);
    assert signatures == [signatures[0]];
  }

  lemma CopiedIsOnlySigned(p: Psbt, signed: Psbt, maps: seq<Records>, plan: Plan, wallet: Wallet)
    requires Faithful(p, signed, p.transaction, plan, wallet) && Copied(p, signed, maps, plan.Keys)
    ensures OnlySigned(p, p.(inputMaps := maps), plan, wallet)
  {
    forall i | 0 <= i < |maps| && i in plan
      ensures |maps[i]| == |p.inputMaps[i]| + 1 && maps[i][..|p.inputMaps[i]|] == p.inputMaps[i]
           && GoodSignature(maps[i][|p.inputMaps[i]|], plan[i], i, p.transaction, wallet)
    {
      PlannedSignature(p, signed, plan, wallet, i);
    }
  }

  // ---- what is signed ----

  const SIGHASH_ALL: Byte := 1

  /** A signature over everything, under the coin's own public key, that the check of signatures confirms. */
  ghost predicate SignsAll(r: KeyValue, coin: Coin, i: nat, tx: Transaction, wallet: Wallet) {
    && r.key != [] && r.key[0] == IN_PARTIAL_SIG && wallet.pubkey(coin.address) == Some(r.key[1..])
    && r.value != [] && r.value[|r.value| - 1] == SIGHASH_ALL
    && wallet.verifies(tx, i, r.key[1..], coin.value, r.value)
  }

  lemma GoodSignatureMeans(r: KeyValue, coin: Coin, i: nat, tx: Transaction, wallet: Wallet)
    ensures GoodSignature(r, coin, i, tx, wallet) <==> SignsAll(r, coin, i, tx, wallet)
  {
    if r.key != [] {
      assert r.key == [r.key[0]] + r.key[1..];
    }
  }

  // ---- what faithful means ----

  lemma {:induction false} KindsArePartition(records: Records, kind: Byte)
    ensures multiset(records) == multiset(OfKind(records, kind)) + multiset(NotOfKind(records, kind))
  {
    if records != [] {
      var first, rest := records[0], records[1..];
      KindsArePartition(rest, kind);
      HeadAndTail(records);
      MultisetCons(first, rest);
      if IsKind(first, kind) {
        MultisetCons(first, OfKind(rest, kind));
      } else {
        MultisetCons(first, NotOfKind(rest, kind));
      }
    }
  }

  lemma MultisetCons(first: KeyValue, rest: Records)
    ensures multiset([first] + rest) == multiset{first} + multiset(rest)
  {
  }

  /** An input nobody was to sign holds the records it held. */
  lemma OtherInputsUntouched(source: Psbt, signed: Psbt, tx: Transaction, plan: Plan, wallet: Wallet, i: nat)
    requires Faithful(source, signed, tx, plan, wallet) && i < |source.inputMaps| && i !in plan
    ensures multiset(signed.inputMaps[i]) == multiset(source.inputMaps[i])
  {
    assert SameInput(source.inputMaps[i], signed.inputMaps[i], i, plan, tx, wallet);
    KindsArePartition(source.inputMaps[i], IN_PARTIAL_SIG);
    KindsArePartition(signed.inputMaps[i], IN_PARTIAL_SIG);
  }

  /** A signed input holds what it held apart from signatures, and one signature. */
  lemma SignedInputGainsOne(source: Psbt, signed: Psbt, tx: Transaction, plan: Plan, wallet: Wallet, i: nat)
    requires Faithful(source, signed, tx, plan, wallet) && i < |source.inputMaps| && i in plan
    ensures exists r: KeyValue :: SignsAll(r, plan[i], i, tx, wallet)
              && multiset(signed.inputMaps[i]) == multiset(NotOfKind(source.inputMaps[i], IN_PARTIAL_SIG)) + multiset{r}
  {
    assert SameInput(source.inputMaps[i], signed.inputMaps[i], i, plan, tx, wallet);
    KindsArePartition(signed.inputMaps[i], IN_PARTIAL_SIG);
    var r := OfKind(signed.inputMaps[i], IN_PARTIAL_SIG)[0];
    assert OfKind(signed.inputMaps[i], IN_PARTIAL_SIG) == [r];
    GoodSignatureMeans(r, plan[i], i, tx, wallet);
  }

  /** Globals keep every key and value, but for the two flag bits, and those only in version 2. */
  lemma GlobalsKept(source: Psbt, signed: Psbt, tx: Transaction, plan: Plan, wallet: Wallet, i: nat)
    requires Faithful(source, signed, tx, plan, wallet) && i < |source.globals|
    ensures |signed.globals| == |source.globals| && signed.globals[i].key == source.globals[i].key
    ensures signed.globals[i].value == source.globals[i].value
         || (signed.version == 2 && source.globals[i].key == [GLOBAL_TX_MODIFIABLE]
             && |source.globals[i].value| == 1 && signed.globals[i].value == [Cleared(source.globals[i].value[0])])
  {
    if source.globals != signed.globals {
      assert SameGlobal(source.globals[i], signed.globals[i]);
      if source.globals[i].key == [GLOBAL_TX_MODIFIABLE] {
        assert signed.globals[i].value == [signed.globals[i].value[0]];
      }
    }
  }

  lemma FlagBits(flags: Byte)
    ensures Cleared(flags) % 4 == 0 && Cleared(flags) / 4 == flags / 4
  {
  }

  // ---- a final witness reads back ----

  /** Number of items, then each behind its length. */
  function ReadWitness(b: Bytes): Option<(Bytes, Bytes)> {
    match ReadVarint(b, 0)
    case None => None
    case Some((count, o1)) =>
      if count != 2 then None
      else match ReadVarint(b, o1)
           case None => None
           case Some((n1, o2)) =>
             if o2 + n1 > |b| then None
             else match ReadVarint(b, o2 + n1)
                  case None => None
                  case Some((n2, o3)) =>
                    if o3 + n2 != |b| then None else Some((b[o2..o2 + n1], b[o3..]))
  }

  /** An item behind its length reads back, wherever it stands. */
  lemma ItemRoundTrip(before: Bytes, item: Bytes, after: Bytes)
    requires |item| < 0x1_0000_0000_0000_0000
    ensures var b, o := before + (Varint(|item|) + item + after), |before| + |Varint(|item|)|;
            ReadVarint(b, |before|) == Some((|item|, o)) && o + |item| <= |b|
            && b[o..o + |item|] == item && b[o + |item|..] == after
  {
    VarintRoundTrip(before, |item|, item + after);
    assert before + Varint(|item|) + (item + after) == before + (Varint(|item|) + item + after);
  }

  lemma Regroup(a: Bytes, b: Bytes, c: Bytes, d: Bytes, e: Bytes)
    ensures a + b + c + d + e == a + (b + c + (d + e))
    ensures a + b + c + d + e == (a + b + c) + (d + e + [])
  {
  }

  lemma FirstItem(signature: Bytes, pubkey: Bytes)
    requires |signature| < 0x1_0000_0000_0000_0000
    ensures var b, o := Witness(signature, pubkey), 1 + |Varint(|signature|)|;
            ReadVarint(b, 0) == Some((2, 1)) && ReadVarint(b, 1) == Some((|signature|, o))
            && o + |signature| <= |b| && b[o..o + |signature|] == signature
  {
    Regroup([2], Varint(|signature|), signature, Varint(|pubkey|), pubkey);
    ItemRoundTrip([2], signature, Varint(|pubkey|) + pubkey);
  }

  lemma SecondItem(signature: Bytes, pubkey: Bytes)
    requires |pubkey| < 0x1_0000_0000_0000_0000
    ensures var b, o := Witness(signature, pubkey), 1 + |Varint(|signature|)| + |signature|;
            ReadVarint(b, o) == Some((|pubkey|, o + |Varint(|pubkey|)|))
            && o + |Varint(|pubkey|)| + |pubkey| == |b| && b[o + |Varint(|pubkey|)|..] == pubkey
  {
    Regroup([2], Varint(|signature|), signature, Varint(|pubkey|), pubkey);
    ItemRoundTrip([2] + Varint(|signature|) + signature, pubkey, []);
  }

  lemma WitnessRoundTrip(signature: Bytes, pubkey: Bytes)
    requires |signature| < 0x1_0000_0000_0000_0000 && |pubkey| < 0x1_0000_0000_0000_0000
    ensures ReadWitness(Witness(signature, pubkey)) == Some((signature, pubkey))
  {
    FirstItem(signature, pubkey);
    SecondItem(signature, pubkey);
  }

  /** After finalising, a planned input carries no partial signature and one witness made of the verified signature. */
  lemma FinalisedCarriesWitness(source: Psbt, signed: Psbt, n: Psbt, tx: Transaction, plan: Plan, wallet: Wallet, i: nat)
    requires Faithful(source, signed, tx, plan, wallet) && Finalised(signed, n, plan)
    requires i < |source.inputMaps| && i in plan
    ensures OfKind(n.inputMaps[i], IN_PARTIAL_SIG) == []
    ensures n.inputMaps[i] != [] && wallet.pubkey(plan[i].address).Some?
    ensures var last := n.inputMaps[i][|n.inputMaps[i]| - 1];
            n.inputMaps[i][..|n.inputMaps[i]| - 1] == NotOfKind(source.inputMaps[i], IN_PARTIAL_SIG)
            && last.key == [IN_FINAL_SCRIPTWITNESS]
            && exists signature: Bytes :: signature != [] && signature[|signature| - 1] == SIGHASH_ALL
                 && wallet.verifies(tx, i, wallet.pubkey(plan[i].address).value, plan[i].value, signature)
                 && last.value == Witness(signature, wallet.pubkey(plan[i].address).value)
  {
    assert SameInput(source.inputMaps[i], signed.inputMaps[i], i, plan, tx, wallet);
    var r := OfKind(signed.inputMaps[i], IN_PARTIAL_SIG)[0];
    assert r.key[1..] == wallet.pubkey(plan[i].address).value;
    var rest := NotOfKind(signed.inputMaps[i], IN_PARTIAL_SIG);
    NoneLeft(rest, IN_PARTIAL_SIG);
    OfKindAppend(rest, [KeyValue([IN_FINAL_SCRIPTWITNESS], Witness(r.value, r.key[1..]))], IN_PARTIAL_SIG);
  }

  lemma {:induction false} NoneLeft(records: Records, kind: Byte)
    requires forall i :: 0 <= i < |records| ==> !IsKind(records[i], kind)
    ensures OfKind(records, kind) == []
  {
    if records != [] { NoneLeft(records[1..], kind); }
  }
}
