/**
 Adding the JoinMarket coin and its change to a splice PSBT, and why the result
 always passes the splice check in its pre-contribution shape.
 */
module SpliceInputs {
  import opened Prelude
  import opened Outpoints
  import opened Encodings
  import opened Psbts
  import opened Planner
  import opened Splices

  type KeyHash = b: Bytes | |b| == 20 witness seq(20, i => 0)

  /** A wallet key; `origin` is the fingerprint followed by the derivation path. */
  datatype WalletKey = WalletKey(pubkey: Bytes, hash: KeyHash, origin: Bytes)

  function P2wpkh(key: WalletKey): Bytes {
    [0x00, 0x14] + key.hash
  }

  datatype AddError =
    | BadPlan(error: PlanError) | NotOneInput | OtherCoin | Unparsable | OtherParent | NoSuchOutput | OtherOutput
    | AlreadySigned | AlreadyPresent | UnknownKey | OtherScript | NoChannelOutput | BadSerial | StillDrawing
    | MissingGlobal | Overflow

  // ---- serial ids ----

  function RecordSerials(records: Records): set<nat> {
    if records == [] then {}
    else
      var last := records[|records| - 1];
      RecordSerials(records[..|records| - 1]) + (if last.key == SERIAL_ID_KEY then {FromBig(last.value)} else {})
  }

  function MapSerials(maps: seq<Records>): set<nat> {
    if maps == [] then {} else MapSerials(maps[..|maps| - 1]) + RecordSerials(maps[|maps| - 1])
  }

  predicate GoodSerials(records: Records) {
    forall i :: 0 <= i < |records| && records[i].key == SERIAL_ID_KEY ==> |records[i].value| == 8
  }

  /** Every serial id in the PSBT, `None` if a record under the serial key is not eight bytes long. */
  method SerialIds(p: Psbt) returns (r: Option<set<nat>>)
    ensures r.Some? <==> forall k :: 0 <= k < |p.inputMaps + p.outputMaps| ==> GoodSerials((p.inputMaps + p.outputMaps)[k])
    ensures r.Some? ==> r.value == MapSerials(p.inputMaps + p.outputMaps)
  {
    var maps := p.inputMaps + p.outputMaps;
    var ids: set<nat> := {};
    for k := 0 to |maps|
      invariant ids == MapSerials(maps[..k])
      invariant forall j :: 0 <= j < k ==> GoodSerials(maps[j])
    {
      var found := SerialsOfMap(maps[k]);
      if found.None? { return None; }
      assert maps[..k + 1][..k] == maps[..k];
      ids := ids + found.value;
    }
    assert maps[..|maps|] == maps;
    return Some(ids);
  }

  method SerialsOfMap(records: Records) returns (r: Option<set<nat>>)
    ensures r.Some? <==> GoodSerials(records)
    ensures r.Some? ==> r.value == RecordSerials(records)
  {
    var ids: set<nat> := {};
    for i := 0 to |records|
      invariant ids == RecordSerials(records[..i])
      invariant forall j :: 0 <= j < i && records[j].key == SERIAL_ID_KEY ==> |records[j].value| == 8
    {
      assert records[..i + 1][..i] == records[..i];
      if records[i].key == SERIAL_ID_KEY {
        if |records[i].value| != 8 { return None; }
        ids := ids + {FromBig(records[i].value)};
      }
    }
    assert records[..|records|] == records;
    return Some(ids);
  }

  /** A serial id the initiator may use. */
  predicate IsFresh(id: nat, existing: set<nat>) {
    id % 2 == 0 && id != 0 && id < 0x1_0000_0000_0000_0000 && id !in existing
  }

  predicate Useless(draws: seq<nat>, existing: set<nat>) {
    forall i :: 0 <= i < |draws| ==> draws[i] == 0 || 2 * draws[i] in existing
  }

  /** The first acceptable of the random 63-bit draws, doubled; with every draw refused the code draws on. */
  method NewSerialId(existing: set<nat>, draws: seq<nat>) returns (id: Option<nat>, rest: seq<nat>)
    requires forall i :: 0 <= i < |draws| ==> draws[i] < 0x8000_0000_0000_0000
    ensures id.None? <==> Useless(draws, existing)
    ensures id.Some? ==> IsFresh(id.value, existing)
    ensures id.Some? ==> exists i :: 0 <= i < |draws| && Useless(draws[..i], existing)
                                     && id.value == 2 * draws[i] && rest == draws[i + 1..]
    ensures forall i :: 0 <= i < |rest| ==> rest[i] < 0x8000_0000_0000_0000
  {
    for i := 0 to |draws|
      invariant forall j :: 0 <= j < i ==> draws[j] == 0 || 2 * draws[j] in existing
    {
      var serial := 2 * draws[i];
      if serial != 0 && serial !in existing {
        assert Useless(draws[..i], existing);
        return Some(serial), draws[i + 1..];
      }
    }
    return None, [];
  }

  lemma {:induction false} RecordSerialsContain(records: Records, i: nat)
    requires i < |records| && records[i].key == SERIAL_ID_KEY
    ensures FromBig(records[i].value) in RecordSerials(records)
    decreases |records|
  {
    if i < |records| - 1 { RecordSerialsContain(records[..|records| - 1], i); }
  }

  lemma {:induction false} SerialsContain(maps: seq<Records>, k: nat, i: nat)
    requires k < |maps| && i < |maps[k]| && maps[k][i].key == SERIAL_ID_KEY
    ensures FromBig(maps[k][i].value) in MapSerials(maps)
    decreases |maps|
  {
    if k < |maps| - 1 { SerialsContain(maps[..|maps| - 1], k, i); } else { RecordSerialsContain(maps[k], i); }
  }

  // ---- the new maps ----

  function Origin(version: nat, hash: Bytes, vout: Index): Records {
    if version == 2 then
      [KeyValue([IN_PREVIOUS_TXID], hash), KeyValue([IN_OUTPUT_INDEX], Little(vout, 4)),
       KeyValue([IN_SEQUENCE], Little(0xffff_ffff, 4))]
    else []
  }

  function Evidence(prevTx: Bytes, value: Amount, key: WalletKey, serial: nat): Records {
    [KeyValue([IN_NON_WITNESS_UTXO], prevTx),
     KeyValue([IN_WITNESS_UTXO], WitnessUtxo(value, P2wpkh(key))),
     KeyValue([IN_SIGHASH_TYPE], Little(1, 4)),
     KeyValue([IN_BIP32_DERIVATION] + key.pubkey, key.origin),
     KeyValue(SERIAL_ID_KEY, Big(serial, 8))]
  }

  method InputMap(version: nat, hash: Bytes, vout: Index, prevTx: Bytes, value: Amount, key: WalletKey, serial: nat)
    returns (m: Records)
    ensures m == Origin(version, hash, vout) + Evidence(prevTx, value, key, serial)
  {
    m := [];
    if version == 2 {
      m := m + [KeyValue([IN_PREVIOUS_TXID], hash)];
      m := m + [KeyValue([IN_OUTPUT_INDEX], Little(vout, 4))];
      m := m + [KeyValue([IN_SEQUENCE], Little(0xffff_ffff, 4))];
    }
    assert m == Origin(version, hash, vout);
    ghost var origin := m;
    m := m + [KeyValue([IN_NON_WITNESS_UTXO], prevTx)];
    m := m + [KeyValue([IN_WITNESS_UTXO], WitnessUtxo(value, P2wpkh(key)))];
    m := m + [KeyValue([IN_SIGHASH_TYPE], Little(1, 4))];
    m := m + [KeyValue([IN_BIP32_DERIVATION] + key.pubkey, key.origin)];
    m := m + [KeyValue(SERIAL_ID_KEY, Big(serial, 8))];
    assert m == origin + Evidence(prevTx, value, key, serial);
  }

  function ChangeMap(version: nat, o: TxOut, serial: nat): Records {
    (if version == 2 then [KeyValue([OUT_AMOUNT], Little(o.value, 8)), KeyValue([OUT_SCRIPT], o.script)] else [])
    + [KeyValue(SERIAL_ID_KEY, Big(serial, 8))]
  }

  lemma {:induction false} FindBehind(records: Records, key: Bytes, i: nat)
    requires i <= |records| && forall j :: 0 <= j < i ==> records[j].key != key
    ensures Find(records, key) == Find(records[i..], key)
  {
    if i != 0 {
      FindBehind(records[1..], key, i - 1);
      assert records[1..][i - 1..] == records[i..];
    }
  }

  lemma Front(first: KeyValue, a: Records, b: Records)
    ensures [first] + (a + b) == [first] + a + b
  {
  }

  lemma {:induction false} PutBehind(records: Records, key: Bytes, value: Bytes, i: nat)
    requires i <= |records| && forall j :: 0 <= j < i ==> records[j].key != key
    ensures Put(records, key, value) == records[..i] + Put(records[i..], key, value)
  {
    if i != 0 {
      var rest := records[1..];
      PutBehind(rest, key, value, i - 1);
      assert rest[i - 1..] == records[i..] && [records[0]] + rest[..i - 1] == records[..i];
      Front(records[0], rest[..i - 1], Put(records[i..], key, value));
    }
  }

  /** The first matching key is at this index. */
  lemma PutThere(records: Records, key: Bytes, value: Bytes, i: nat)
    requires i < |records| && records[i].key == key && forall j :: 0 <= j < i ==> records[j].key != key
    ensures Find(records, key).Some?
    ensures Put(records, key, value) == records[..i] + [KeyValue(key, value)] + records[i + 1..]
  {
    FindBehind(records, key, i);
    PutBehind(records, key, value, i);
    PutFirst(records[i..], key, value);
    Rest(records, i);
    Regroup(records[..i], [KeyValue(key, value)], records[i + 1..]);
  }

  lemma PutFirst(records: Records, key: Bytes, value: Bytes)
    requires records != [] && records[0].key == key
    ensures Find(records, key).Some? && Put(records, key, value) == [KeyValue(key, value)] + records[1..]
  {
  }

  lemma Rest(records: Records, i: nat)
    requires i < |records|
    ensures records[i..][0] == records[i] && records[i..][1..] == records[i + 1..]
  {
  }

  lemma Regroup(a: Records, b: Records, c: Records)
    ensures a + (b + c) == a + b + c
  {
  }

  /** Another value under the first matching key; a missing key is an error. */
  method ReplaceGlobal(records: Records, key: Bytes, value: Bytes) returns (r: Option<Records>)
    ensures r.Some? <==> Find(records, key).Some?
    ensures r.Some? ==> r.value == Put(records, key, value)
  {
    for i := 0 to |records|
      invariant forall j :: 0 <= j < i ==> records[j].key != key
    {
      if records[i].key == key {
        PutThere(records, key, value, i);
        return Some(records[..i] + [KeyValue(key, value)] + records[i + 1..]);
      }
    }
    FindBehind(records, key, |records|);
    return None;
  }

  // ---- adding the coin ----

  predicate IsP2wsh(o: TxOut) {
    |o.script| >= 2 && o.script[0] == 0x00 && o.script[1] == 0x20
  }

  function P2wshOutputs(outputs: seq<TxOut>): (r: seq<TxOut>)
    ensures forall i :: 0 <= i < |r| ==> r[i] in outputs && IsP2wsh(r[i])
  {
    if outputs == [] then []
    else (if IsP2wsh(outputs[0]) then [outputs[0]] else []) + P2wshOutputs(outputs[1..])
  }

  /** The one P2WSH output, or else the only output there is. */
  function ChannelOutput(outputs: seq<TxOut>): (r: Option<TxOut>)
    ensures r.Some? ==> r.value in outputs
  {
    var candidates := P2wshOutputs(outputs);
    if |candidates| == 1 then Some(candidates[0]) else if |outputs| == 1 then Some(outputs[0]) else None
  }

  /** This output is the only one whose script starts as a P2WSH one does. */
  ghost predicate OnlyP2wsh(outputs: seq<TxOut>, i: nat) {
    && i < |outputs| && [0x00, 0x20] <= outputs[i].script
    && forall j :: 0 <= j < |outputs| && [0x00, 0x20] <= outputs[j].script ==> j == i
  }

  lemma {:induction false} NoP2wsh(outputs: seq<TxOut>)
    ensures P2wshOutputs(outputs) == [] <==> forall j :: 0 <= j < |outputs| ==> !([0x00, 0x20] <= outputs[j].script)
  {
    if outputs != [] {
      NoP2wsh(outputs[1..]);
      assert forall j :: 0 < j < |outputs| ==> outputs[j] == outputs[1..][j - 1];
      assert IsP2wsh(outputs[0]) <==> [0x00, 0x20] <= outputs[0].script;
    }
  }

  lemma {:induction false} OneP2wsh(outputs: seq<TxOut>) returns (i: nat)
    requires |P2wshOutputs(outputs)| == 1
    ensures OnlyP2wsh(outputs, i) && P2wshOutputs(outputs) == [outputs[i]]
  {
    var rest := outputs[1..];
    assert forall j :: 0 < j < |outputs| ==> outputs[j] == rest[j - 1];
    assert IsP2wsh(outputs[0]) <==> [0x00, 0x20] <= outputs[0].script;
    if IsP2wsh(outputs[0]) {
      i := 0;
      NoP2wsh(rest);
    } else {
      var k := OneP2wsh(rest);
      i := k + 1;
      forall j | 0 <= j < |outputs| && [0x00, 0x20] <= outputs[j].script ensures j == i {
        if j > 0 { assert outputs[j] == rest[j - 1]; }
      }
    }
  }

  lemma {:induction false} P2wshIsFound(outputs: seq<TxOut>, i: nat)
    requires OnlyP2wsh(outputs, i)
    ensures P2wshOutputs(outputs) == [outputs[i]]
  {
    var rest := outputs[1..];
    assert forall j :: 0 < j < |outputs| ==> outputs[j] == rest[j - 1];
    assert IsP2wsh(outputs[0]) <==> [0x00, 0x20] <= outputs[0].script;
    if i == 0 {
      NoP2wsh(rest);
    } else {
      assert OnlyP2wsh(rest, i - 1);
      P2wshIsFound(rest, i - 1);
    }
  }

  /** The channel output is the one P2WSH output if there is just one, or else the one output if there is just one. */
  lemma ChannelOutputMeans(outputs: seq<TxOut>, o: TxOut)
    ensures ChannelOutput(outputs) == Some(o) <==>
              || (exists i: nat :: OnlyP2wsh(outputs, i) && outputs[i] == o)
              || ((forall i: nat :: !OnlyP2wsh(outputs, i)) && outputs == [o])
  {
    if |P2wshOutputs(outputs)| == 1 {
      var k := OneP2wsh(outputs);
      forall i: nat | OnlyP2wsh(outputs, i) ensures outputs[i] == outputs[k] { P2wshIsFound(outputs, i); }
    } else {
      forall i: nat ensures !OnlyP2wsh(outputs, i) {
        if OnlyP2wsh(outputs, i) { P2wshIsFound(outputs, i); }
      }
    }
  }

  predicate Signed(records: Records) {
    exists i :: 0 <= i < |records|
      && (IsKind(records[i], IN_PARTIAL_SIG) || IsKind(records[i], IN_FINAL_SCRIPTSIG)
          || IsKind(records[i], IN_FINAL_SCRIPTWITNESS))
  }

  /** The coin is what the previous transaction says it is. */
  predicate Authentic(coin: Coin, prevTx: Bytes, read: Reader) {
    var previous := read(prevTx);
    && previous.Some? && Txid(previous.value) == coin.outpoint.txid
    && coin.outpoint.vout < |previous.value.outputs|
    && previous.value.outputs[coin.outpoint.vout].value == coin.value
    && previous.value.outputs[coin.outpoint.vout].script == coin.script
  }

  method CheckParent(coin: Coin, prevTx: Bytes, read: Reader) returns (r: Result<Parent, AddError>)
    ensures r.Ok? <==> Authentic(coin, prevTx, read)
    ensures r.Ok? ==> read(prevTx) == Some(r.value)
    ensures r != Err(StillDrawing)
  {
    var previous := read(prevTx);
    if previous.None? { return Err(Unparsable); }
    if Txid(previous.value) != coin.outpoint.txid { return Err(OtherParent); }
    if coin.outpoint.vout >= |previous.value.outputs| { return Err(NoSuchOutput); }
    var o := previous.value.outputs[coin.outpoint.vout];
    if o.value != coin.value || o.script != coin.script { return Err(OtherOutput); }
    return Ok(previous.value);
  }

  /** Unsigned, and not spending the coin already. */
  method CheckUnsigned(p: Psbt, o: Outpoint) returns (r: Option<AddError>)
    ensures r.None? <==>
      && (forall k :: 0 <= k < |p.inputMaps| ==> !Signed(p.inputMaps[k]))
      && (forall i :: 0 <= i < |p.transaction.inputs| ==> !Spends(p, i, o))
    ensures r != Some(StillDrawing)
  {
    for k := 0 to |p.inputMaps|
      invariant forall j :: 0 <= j < k ==> !Signed(p.inputMaps[j])
    {
      if Signed(p.inputMaps[k]) { return Some(AlreadySigned); }
    }
    for i := 0 to |p.transaction.inputs|
      invariant forall j :: 0 <= j < i ==> !Spends(p, j, o)
    {
      if Spends(p, i, o) { return Some(AlreadyPresent); }
    }
    return None;
  }

  function NewInput(coin: Coin): TxIn
    requires coin.outpoint.vout < 0x1_0000_0000
  {
    TxIn(coin.outpoint.txid, coin.outpoint.vout, 0xffff_ffff)
  }

  function NewOutputs(plan: ExecutionPlan, change: Option<Bytes>): seq<TxOut>
    requires 0 <= plan.change < 0x1_0000_0000_0000_0000
  {
    if plan.change > 0 && change.Some? then [TxOut(plan.change, change.value)] else []
  }

  function Grown(t: Transaction, coin: Coin, plan: ExecutionPlan, change: Option<Bytes>): Transaction
    requires coin.outpoint.vout < 0x1_0000_0000 && 0 <= plan.change < 0x1_0000_0000_0000_0000
  {
    t.(inputs := t.inputs + [NewInput(coin)], outputs := t.outputs + NewOutputs(plan, change))
  }

  function Recounted(p: Psbt, n: Psbt): Records {
    if p.version == 2 then
      Put(Put(p.globals, [GLOBAL_INPUT_COUNT], Varint(|n.inputMaps|)), [GLOBAL_OUTPUT_COUNT], Varint(|n.outputMaps|))
    else
      Put(p.globals, [GLOBAL_UNSIGNED_TX], Serialize(n.transaction))
  }

  /** The records from which the transaction is rebuilt, brought up to date. */
  method UpdateGlobals(p: Psbt, n: Psbt) returns (r: Option<Records>)
    ensures r.Some? ==> r.value == Recounted(p, n)
    ensures Consistent(p) ==> r.Some?
  {
    if p.version == 2 {
      FindPut(p.globals, [GLOBAL_INPUT_COUNT], Varint(|n.inputMaps|), [GLOBAL_OUTPUT_COUNT]);
      var first := ReplaceGlobal(p.globals, [GLOBAL_INPUT_COUNT], Varint(|n.inputMaps|));
      if first.None? { return None; }
      r := ReplaceGlobal(first.value, [GLOBAL_OUTPUT_COUNT], Varint(|n.outputMaps|));
    } else {
      r := ReplaceGlobal(p.globals, [GLOBAL_UNSIGNED_TX], Serialize(n.transaction));
    }
  }

  /** What was added: the coin with its evidence, the change if any, two serial ids, and the terms agreed. */
  ghost predicate Added(p: Psbt, n: Psbt, c: Contribution, coin: Coin, plan: ExecutionPlan, change: Option<Bytes>,
                        key: WalletKey, prevTx: Bytes, read: Reader, own: nat, second: nat)
  {
    && ValidatePlan(plan).None? && plan.inputs == [coin] && Authentic(coin, prevTx, read)
    && coin.outpoint.vout < 0x1_0000_0000 && coin.value < 0x1_0000_0000_0000_0000
    && plan.change < 0x1_0000_0000_0000_0000
    && coin.script == P2wpkh(key)
    && (forall i :: 0 <= i < |p.transaction.inputs| ==> !Spends(p, i, coin.outpoint))
    && n.version == p.version && n.transaction == Grown(p.transaction, coin, plan, change)
    && n.inputMaps == p.inputMaps + [Origin(p.version, read(prevTx).value.hash, coin.outpoint.vout)
                                     + Evidence(prevTx, coin.value, key, own)]
    && n.outputMaps == p.outputMaps + (if NewOutputs(plan, change) == [] then []
                                       else [ChangeMap(p.version, NewOutputs(plan, change)[0], second)])
    && n.globals == Recounted(p, n)
    && IsFresh(own, MapSerials(p.inputMaps + p.outputMaps))
    && (NewOutputs(plan, change) != [] ==> IsFresh(second, MapSerials(p.inputMaps + p.outputMaps) + {own}))
    && Agreed(p, c, coin, plan, change)
  }

  ghost predicate Agreed(p: Psbt, c: Contribution, coin: Coin, plan: ExecutionPlan, change: Option<Bytes>) {
    && c.jmOutpoint == coin.outpoint && c.jmValue == coin.value
    && c.changeScript == (if plan.change > 0 then change else None) && c.changeValue == plan.change
    && ChannelOutput(p.transaction.outputs).Some?
    && var channel := ChannelOutput(p.transaction.outputs).value;
    && c.channelOutput == (channel.value, channel.script)
    && c.channelContribution == plan.amount && c.maxFee == plan.fee
    && c.baseline == PaidOf(p.transaction.outputs)
  }

  /** What the code asks for before it looks at the serial ids. */
  ghost predicate Requested(p: Psbt, coin: Coin, plan: ExecutionPlan, key: WalletKey, prevTx: Bytes, read: Reader) {
    && ValidatePlan(plan).None? && plan.inputs == [coin] && Authentic(coin, prevTx, read)
    && (forall k :: 0 <= k < |p.inputMaps| ==> !Signed(p.inputMaps[k]))
    && (forall i :: 0 <= i < |p.transaction.inputs| ==> !Spends(p, i, coin.outpoint))
    && coin.script == P2wpkh(key) && ChannelOutput(p.transaction.outputs).Some?
    && coin.outpoint.vout < 0x1_0000_0000
  }

  /** What the code asks for before it touches the PSBT. */
  ghost predicate Addable(p: Psbt, coin: Coin, plan: ExecutionPlan, key: WalletKey, prevTx: Bytes, read: Reader) {
    && Requested(p, coin, plan, key, prevTx, read)
    && (forall k :: 0 <= k < |p.inputMaps + p.outputMaps| ==> GoodSerials((p.inputMaps + p.outputMaps)[k]))
  }

  /** The checks of a request, in the order in which they are made. */
  method CheckRequest(psbt: Option<Psbt>, coin: Coin, plan: ExecutionPlan, key: Option<WalletKey>, prevTx: Bytes,
                      read: Reader) returns (r: Result<(Parent, TxOut), AddError>)
    ensures r.Ok? <==> psbt.Some? && key.Some? && Requested(psbt.value, coin, plan, key.value, prevTx, read)
    ensures r.Ok? ==> read(prevTx) == Some(r.value.0) && ChannelOutput(psbt.value.transaction.outputs) == Some(r.value.1)
    ensures r != Err(StillDrawing)
  {
    var invalid := ValidatePlan(plan);
    if invalid.Some? { return Err(BadPlan(invalid.value)); }
    if |plan.inputs| != 1 { return Err(NotOneInput); }
    if plan.inputs[0] != coin { return Err(OtherCoin); }
    if psbt.None? { return Err(Unparsable); }
    var p := psbt.value;
    var parent := CheckParent(coin, prevTx, read);
    if parent.Err? { return Err(parent.error); }
    var refused := CheckUnsigned(p, coin.outpoint);
    if refused.Some? { return Err(refused.value); }
    assert plan.inputs == [coin];
    OneCoin(coin);
    // The code checks these two again; a valid plan over this one coin cannot fail them.
    assert coin.value >= plan.amount + plan.fee && coin.value - plan.amount - plan.fee == plan.change;
    if key.None? { return Err(UnknownKey); }
    if coin.script != P2wpkh(key.value) { return Err(OtherScript); }
    var channel := ChannelOutput(p.transaction.outputs);
    if channel.None? { return Err(NoChannelOutput); }
    if coin.outpoint.vout >= 0x1_0000_0000 { return Err(Overflow); }
    return Ok((parent.value, channel.value));
  }

  /** Refuses nothing else: a readable PSBT to which the coin can be added gets it, once the draws suffice. */
  method AddSpliceInInput(psbt: Option<Psbt>, coin: Coin, plan: ExecutionPlan, change: Option<Bytes>,
                          key: Option<WalletKey>, prevTx: Bytes, read: Reader, draws: seq<nat>)
    returns (r: Result<(Psbt, Contribution), AddError>, ghost own: nat, ghost second: nat)
    requires forall i :: 0 <= i < |draws| ==> draws[i] < 0x8000_0000_0000_0000
    ensures r.Ok? ==> psbt.Some? && key.Some? && Addable(psbt.value, coin, plan, key.value, prevTx, read)
    ensures psbt.Some? && key.Some? && Addable(psbt.value, coin, plan, key.value, prevTx, read) && Consistent(psbt.value) ==>
              r.Ok? || r == Err(StillDrawing)
    ensures r == Err(StillDrawing) ==>
              psbt.Some? && exists id: nat :: Useless(draws, MapSerials(psbt.value.inputMaps + psbt.value.outputMaps) + {id})
    ensures r.Ok? ==> Added(psbt.value, r.value.0, r.value.1, coin, plan, change, key.value, prevTx, read, own, second)
  {
    own, second := 0, 0;
    var checked := CheckRequest(psbt, coin, plan, key, prevTx, read);
    if checked.Err? { r := Err(checked.error); return; }
    var p, parent, channel := psbt.value, checked.value.0, checked.value.1;
    OneCoin(coin);

    var n := p.(transaction := Grown(p.transaction, coin, plan, change));
    var changes := NewOutputs(plan, change);
    var serials := SerialIds(p);
    if serials.None? { r := Err(BadSerial); return; }
    var first, rest := NewSerialId(serials.value, draws);
    if first.None? {
      assert Useless(draws, serials.value + {0});
      r := Err(StillDrawing);
      return;
    }
    own := first.value;
    var m := InputMap(p.version, parent.hash, coin.outpoint.vout, prevTx, coin.value, key.value, first.value);
    n := n.(inputMaps := n.inputMaps + [m]);
    if changes != [] {
      var other, unused := NewSerialId(serials.value + {first.value}, rest);
      if other.None? {
        AllUseless(draws, serials.value, first.value, rest);
        r := Err(StillDrawing);
        return;
      }
      second := other.value;
      n := n.(outputMaps := n.outputMaps + [ChangeMap(p.version, changes[0], other.value)]);
    }
    var globals := UpdateGlobals(p, n);
    if globals.None? { r := Err(MissingGlobal); return; }
    n := n.(globals := globals.value);
    var c := Contribution(coin.outpoint, coin.value, if plan.change > 0 then change else None, plan.change,
                          (channel.value, channel.script), plan.amount,
                          PaidOf(p.transaction.outputs), plan.fee);
    r := Ok((n, c));
  }

  lemma AllUseless(draws: seq<nat>, existing: set<nat>, id: nat, rest: seq<nat>)
    requires exists i :: 0 <= i < |draws| && Useless(draws[..i], existing) && id == 2 * draws[i] && rest == draws[i + 1..]
    requires Useless(rest, existing + {id})
    ensures Useless(draws, existing + {id})
  {
    var i :| 0 <= i < |draws| && Useless(draws[..i], existing) && id == 2 * draws[i] && rest == draws[i + 1..];
    forall j | 0 <= j < |draws| ensures draws[j] == 0 || 2 * draws[j] in existing + {id} {
      if j < i { assert draws[..i][j] == draws[j]; } else if j > i { assert rest[j - i - 1] == draws[j]; }
    }
  }

  lemma OneCoin(coin: Coin)
    ensures SumValues([coin]) == coin.value
  {
    assert [coin][..0] == [];
  }

  // ---- what was added passes the check ----

  /** The records of the new input by kind: both UTXO records, the sighash, the derivation, and no signature of any kind. */
  ghost predicate Evidenced(m: Records, prevTx: Bytes, value: Amount, key: WalletKey) {
    && OfKind(m, IN_NON_WITNESS_UTXO) == [KeyValue([IN_NON_WITNESS_UTXO], prevTx)]
    && OfKind(m, IN_WITNESS_UTXO) == [KeyValue([IN_WITNESS_UTXO], WitnessUtxo(value, P2wpkh(key)))]
    && OfKind(m, IN_SIGHASH_TYPE) == [KeyValue([IN_SIGHASH_TYPE], Little(1, 4))]
    && OfKind(m, IN_BIP32_DERIVATION) == [KeyValue([IN_BIP32_DERIVATION] + key.pubkey, key.origin)]
    && OfKind(m, IN_PARTIAL_SIG) == OfKind(m, IN_FINAL_SCRIPTSIG) == OfKind(m, IN_FINAL_SCRIPTWITNESS) == []
  }

  lemma EvidenceKinds(version: nat, hash: Bytes, vout: Index, prevTx: Bytes, value: Amount, key: WalletKey, serial: nat)
    ensures Evidenced(Origin(version, hash, vout) + Evidence(prevTx, value, key, serial), prevTx, value, key)
  {
    UtxoKinds(prevTx, value, key, serial);
    OtherKinds(prevTx, value, key, serial);
    EvidenceKind(version, hash, vout, prevTx, value, key, serial, IN_NON_WITNESS_UTXO);
    EvidenceKind(version, hash, vout, prevTx, value, key, serial, IN_WITNESS_UTXO);
    EvidenceKind(version, hash, vout, prevTx, value, key, serial, IN_SIGHASH_TYPE);
    EvidenceKind(version, hash, vout, prevTx, value, key, serial, IN_BIP32_DERIVATION);
    EvidenceKind(version, hash, vout, prevTx, value, key, serial, IN_PARTIAL_SIG);
    EvidenceKind(version, hash, vout, prevTx, value, key, serial, IN_FINAL_SCRIPTSIG);
    EvidenceKind(version, hash, vout, prevTx, value, key, serial, IN_FINAL_SCRIPTWITNESS);
  }

  lemma UtxoKinds(prevTx: Bytes, value: Amount, key: WalletKey, serial: nat)
    ensures EvidenceOfKind(prevTx, value, key, serial, IN_NON_WITNESS_UTXO) == [KeyValue([IN_NON_WITNESS_UTXO], prevTx)]
    ensures EvidenceOfKind(prevTx, value, key, serial, IN_WITNESS_UTXO)
         == [KeyValue([IN_WITNESS_UTXO], WitnessUtxo(value, P2wpkh(key)))]
    ensures EvidenceOfKind(prevTx, value, key, serial, IN_SIGHASH_TYPE) == [KeyValue([IN_SIGHASH_TYPE], Little(1, 4))]
  {
  }

  lemma OtherKinds(prevTx: Bytes, value: Amount, key: WalletKey, serial: nat)
    ensures EvidenceOfKind(prevTx, value, key, serial, IN_BIP32_DERIVATION)
         == [KeyValue([IN_BIP32_DERIVATION] + key.pubkey, key.origin)]
    ensures EvidenceOfKind(prevTx, value, key, serial, IN_PARTIAL_SIG) == []
    ensures EvidenceOfKind(prevTx, value, key, serial, IN_FINAL_SCRIPTSIG) == []
    ensures EvidenceOfKind(prevTx, value, key, serial, IN_FINAL_SCRIPTWITNESS) == []
  {
  }

  function EvidenceOfKind(prevTx: Bytes, value: Amount, key: WalletKey, serial: nat, kind: Byte): Records {
    var e := Evidence(prevTx, value, key, serial);
    OfKindInFive(e[0], e[1], e[2], e[3], e[4], kind)
  }

  lemma EvidenceKind(version: nat, hash: Bytes, vout: Index, prevTx: Bytes, value: Amount, key: WalletKey, serial: nat,
                     kind: Byte)
    requires kind < IN_PREVIOUS_TXID
    ensures OfKind(Origin(version, hash, vout) + Evidence(prevTx, value, key, serial), kind)
         == EvidenceOfKind(prevTx, value, key, serial, kind)
  {
    var origin, e := Origin(version, hash, vout), Evidence(prevTx, value, key, serial);
    OriginKinds(version, hash, vout, kind);
    OfKindAppend(origin, e, kind);
    FiveInARow(e[0], e[1], e[2], e[3], e[4], kind);
    assert e == [e[0], e[1], e[2], e[3], e[4]];
  }

  lemma OriginKinds(version: nat, hash: Bytes, vout: Index, kind: Byte)
    requires kind < IN_PREVIOUS_TXID
    ensures OfKind(Origin(version, hash, vout), kind) == []
  {
    var origin := Origin(version, hash, vout);
    if version == 2 {
      OfKindCons(origin[2], [], kind);
      OfKindCons(origin[1], [origin[2]] + [], kind);
      OfKindCons(origin[0], [origin[1]] + ([origin[2]] + []), kind);
      assert origin == [origin[0]] + ([origin[1]] + ([origin[2]] + []));
    }
  }

  function IfKind(r: KeyValue, kind: Byte, rest: Records): Records {
    if IsKind(r, kind) then [r] + rest else rest
  }

  function OfKindInFive(a: KeyValue, b: KeyValue, c: KeyValue, d: KeyValue, e: KeyValue, kind: Byte): Records {
    IfKind(a, kind, IfKind(b, kind, IfKind(c, kind, IfKind(d, kind, IfKind(e, kind, [])))))
  }

  lemma FiveInARow(a: KeyValue, b: KeyValue, c: KeyValue, d: KeyValue, e: KeyValue, kind: Byte)
    ensures OfKind([a, b, c, d, e], kind) == OfKindInFive(a, b, c, d, e, kind)
  {
    OfKindCons(a, [b] + ([c] + ([d] + ([e] + []))), kind);
    OfKindCons(b, [c] + ([d] + ([e] + [])), kind);
    OfKindCons(c, [d] + ([e] + []), kind);
    OfKindCons(d, [e] + [], kind);
    OfKindCons(e, [], kind);
    assert [a] + ([b] + ([c] + ([d] + ([e] + [])))) == [a, b, c, d, e];
  }

  lemma OwnValue(p: Psbt, n: Psbt, c: Contribution, coin: Coin, plan: ExecutionPlan, change: Option<Bytes>,
                 key: WalletKey, prevTx: Bytes, read: Reader, own: nat, second: nat)
    requires Added(p, n, c, coin, plan, change, key, prevTx, read, own, second)
    requires |p.inputMaps| == |p.transaction.inputs|
    ensures |n.inputMaps| == |n.transaction.inputs| == |p.inputMaps| + 1
    ensures Spends(n, |p.inputMaps|, coin.outpoint)
    ensures Vouches(n, |p.inputMaps|, read, coin.value)
    ensures var records := OfKind(n.inputMaps[|p.inputMaps|], IN_WITNESS_UTXO);
            |records| == 1 && ReadWitnessUtxo(records[0].value) == Some((coin.value, coin.script))
  {
    EvidenceKinds(p.version, read(prevTx).value.hash, coin.outpoint.vout, prevTx, coin.value, key, own);
    WitnessUtxoRoundTrip(coin.value, coin.script);
    InputValueMeans(n, |p.inputMaps|, read, coin.value);
  }

  lemma OwnCoin(p: Psbt, n: Psbt, c: Contribution, coin: Coin, plan: ExecutionPlan, change: Option<Bytes>,
                key: WalletKey, prevTx: Bytes, read: Reader, own: nat, second: nat)
    requires Added(p, n, c, coin, plan, change, key, prevTx, read, own, second)
    requires |p.inputMaps| == |p.transaction.inputs|
    ensures HasExactly(n, coin.outpoint, coin.value, read)
  {
    OwnValue(p, n, c, coin, plan, change, key, prevTx, read, own, second);
    forall j | 0 <= j < |p.inputMaps| ensures !Spends(n, j, coin.outpoint) {
      assert !Spends(p, j, coin.outpoint);
    }
  }

  lemma PaidOfAppend(a: seq<TxOut>, b: seq<TxOut>)
    ensures PaidOf(a + b) == PaidOf(a) + PaidOf(b)
  {
  }

  lemma OutputsAfterAdding(p: Psbt, n: Psbt, c: Contribution, coin: Coin, plan: ExecutionPlan, change: Option<Bytes>)
    requires ValidatePlan(plan).None? && coin.outpoint.vout < 0x1_0000_0000 && plan.change < 0x1_0000_0000_0000_0000
    requires n.transaction == Grown(p.transaction, coin, plan, change) && Agreed(p, c, coin, plan, change)
    ensures PreShape(PaidOf(n.transaction.outputs), c) && !FinalShape(PaidOf(n.transaction.outputs), c)
  {
    PaidOfAppend(p.transaction.outputs, NewOutputs(plan, change));
    assert PaidOf(n.transaction.outputs) == c.baseline + ChangeOf(c);
    ShapesExcludeEachOther(PaidOf(n.transaction.outputs), c);
  }

  lemma ShapeIsEnough(n: Psbt, c: Contribution, required: Option<seq<Coin>>, read: Reader)
    requires |n.outputMaps| == |n.transaction.outputs| && HasCoins(n, c, required, read)
    requires PreShape(PaidOf(n.transaction.outputs), c) && !FinalShape(PaidOf(n.transaction.outputs), c)
    ensures ValidateSplice(n, c, required, read).None?
  {
    AcceptedMeans(n, c, required, read);
  }

  lemma CoinsAfterAdding(p: Psbt, n: Psbt, c: Contribution, coin: Coin, plan: ExecutionPlan, change: Option<Bytes>,
                         key: WalletKey, prevTx: Bytes, read: Reader, own: nat, second: nat)
    requires Added(p, n, c, coin, plan, change, key, prevTx, read, own, second) && Consistent(p)
    ensures |n.outputMaps| == |n.transaction.outputs|
    ensures HasCoins(n, c, None, read) && HasCoins(n, c, Some([coin]), read)
  {
    OwnCoin(p, n, c, coin, plan, change, key, prevTx, read, own, second);
  }

  /** Whatever version, whatever else the PSBT holds: the splice check accepts what was just built. */
  lemma AcceptedAfterAdding(p: Psbt, n: Psbt, c: Contribution, coin: Coin, plan: ExecutionPlan, change: Option<Bytes>,
                            key: WalletKey, prevTx: Bytes, read: Reader, own: nat, second: nat)
    requires Added(p, n, c, coin, plan, change, key, prevTx, read, own, second) && Consistent(p)
    ensures ValidateSplice(n, c, None, read).None? && ValidateSplice(n, c, Some([coin]), read).None?
  {
    CoinsAfterAdding(p, n, c, coin, plan, change, key, prevTx, read, own, second);
    OutputsAfterAdding(p, n, c, coin, plan, change);
    ShapeIsEnough(n, c, None, read);
    ShapeIsEnough(n, c, Some([coin]), read);
  }

  /** The terms agreed are those of the plan, unless change was due and nobody said where to. */
  lemma AgreedIsFromPlan(p: Psbt, c: Contribution, coin: Coin, plan: ExecutionPlan, change: Option<Bytes>)
    requires Agreed(p, c, coin, plan, change) && ValidatePlan(plan).None? && plan.inputs == [coin]
    ensures FromPlan(c) <==> plan.change == 0 || change.Some?
    ensures c.channelContribution > 0
    ensures c.channelOutput in c.baseline
  {
    OneCoin(coin);
    var channel := ChannelOutput(p.transaction.outputs).value;
    var i :| 0 <= i < |p.transaction.outputs| && p.transaction.outputs[i] == channel;
    assert c.baseline[i] == c.channelOutput;
  }

  /** A sweep asks for all its coins in every round, so with a second coin the first round is refused. */
  lemma SweepOfTwoIsRefused(p: Psbt, n: Psbt, c: Contribution, coin: Coin, plan: ExecutionPlan, change: Option<Bytes>,
                            key: WalletKey, prevTx: Bytes, read: Reader, own: nat, second: nat,
                            selected: seq<Coin>, k: nat)
    requires Added(p, n, c, coin, plan, change, key, prevTx, read, own, second)
    requires k < |selected| && selected[k].outpoint != coin.outpoint
    requires forall i :: 0 <= i < |p.transaction.inputs| ==> !Spends(p, i, selected[k].outpoint)
    ensures ValidateSplice(n, c, Some(selected), read).Some?
  {
    AcceptedMeans(n, c, Some(selected), read);
    var o := selected[k].outpoint;
    forall i | 0 <= i < |n.transaction.inputs| ensures !Spends(n, i, o) {
      if i < |p.transaction.inputs| { assert !Spends(p, i, o); }
    }
    assert !HasExactly(n, o, selected[k].value, read);
  }

  // ---- the PSBT stays readable ----

  lemma InputIsSpelled(hash: Bytes, coin: Coin, prevTx: Bytes, value: Amount, key: WalletKey, serial: nat)
    requires coin.outpoint.vout < 0x1_0000_0000 && coin.outpoint.txid == ToHex(Reverse(hash))
    ensures Spells(Origin(2, hash, coin.outpoint.vout) + Evidence(prevTx, value, key, serial), NewInput(coin))
  {
    var m := Origin(2, hash, coin.outpoint.vout) + Evidence(prevTx, value, key, serial);
    Powers();
    LittleRoundTrip(coin.outpoint.vout, 4);
    LittleRoundTrip(0xffff_ffff, 4);
    var rest := m[1..];
    assert rest[0] == m[1] && rest[1..][0] == m[2];
    assert Find(m, [IN_OUTPUT_INDEX]) == Find(rest, [IN_OUTPUT_INDEX]);
    assert Find(m, [IN_SEQUENCE]) == Find(rest, [IN_SEQUENCE]) == Find(rest[1..], [IN_SEQUENCE]);
  }

  lemma OutputIsSpelled(o: TxOut, serial: nat)
    ensures SpellsOutput(ChangeMap(2, o, serial), o)
  {
    Powers();
    LittleRoundTrip(o.value, 8);
    var m := ChangeMap(2, o, serial);
    assert m[1..][0] == m[1];
  }

  lemma GlobalsRecounted(p: Psbt, n: Psbt)
    requires Consistent(p) && n.globals == Recounted(p, n) && n.version == p.version
    ensures if n.version == 2 then
              Find(n.globals, [GLOBAL_INPUT_COUNT]) == Some(Varint(|n.inputMaps|))
              && Find(n.globals, [GLOBAL_OUTPUT_COUNT]) == Some(Varint(|n.outputMaps|))
            else Find(n.globals, [GLOBAL_UNSIGNED_TX]) == Some(Serialize(n.transaction))
  {
    if p.version == 2 {
      var ins, outs := [GLOBAL_INPUT_COUNT], [GLOBAL_OUTPUT_COUNT];
      var once := Put(p.globals, ins, Varint(|n.inputMaps|));
      FindPut(p.globals, ins, Varint(|n.inputMaps|), ins);
      FindPut(p.globals, ins, Varint(|n.inputMaps|), outs);
      FindPut(once, outs, Varint(|n.outputMaps|), ins);
      FindPut(once, outs, Varint(|n.outputMaps|), outs);
    } else {
      FindPut(p.globals, [GLOBAL_UNSIGNED_TX], Serialize(n.transaction), [GLOBAL_UNSIGNED_TX]);
    }
  }

  /** Counts, maps and the unsigned transaction still agree: a reader finds the grown transaction. */
  lemma StillConsistent(p: Psbt, n: Psbt, c: Contribution, coin: Coin, plan: ExecutionPlan, change: Option<Bytes>,
                        key: WalletKey, prevTx: Bytes, read: Reader, own: nat, second: nat)
    requires Added(p, n, c, coin, plan, change, key, prevTx, read, own, second) && Consistent(p)
    ensures Consistent(n)
  {
    GlobalsRecounted(p, n);
    if p.version == 2 {
      InputIsSpelled(read(prevTx).value.hash, coin, prevTx, coin.value, key, own);
      if NewOutputs(plan, change) != [] { OutputIsSpelled(NewOutputs(plan, change)[0], second); }
    }
  }

  // ---- the serial ids ----

  /** An output or input map carries the serial id. */
  predicate Carries(records: Records, serial: nat) {
    exists i :: 0 <= i < |records| && records[i].key == SERIAL_ID_KEY && FromBig(records[i].value) == serial
  }

  /** The new ids are even, not zero, different from each other and from every id there was. */
  lemma SerialsAreFresh(p: Psbt, n: Psbt, c: Contribution, coin: Coin, plan: ExecutionPlan, change: Option<Bytes>,
                        key: WalletKey, prevTx: Bytes, read: Reader, own: nat, second: nat)
    requires Added(p, n, c, coin, plan, change, key, prevTx, read, own, second)
    ensures Carries(n.inputMaps[|p.inputMaps|], own) && own % 2 == 0 && own != 0
    ensures NewOutputs(plan, change) != [] ==>
              |n.outputMaps| == |p.outputMaps| + 1 && Carries(n.outputMaps[|p.outputMaps|], second)
              && second % 2 == 0 && second != 0 && second != own
    ensures forall k :: 0 <= k < |p.inputMaps| ==> !Carries(p.inputMaps[k], own)
    ensures forall k :: 0 <= k < |p.outputMaps| ==> !Carries(p.outputMaps[k], own)
    ensures NewOutputs(plan, change) != [] ==>
              (forall k :: 0 <= k < |p.inputMaps| ==> !Carries(p.inputMaps[k], second))
              && (forall k :: 0 <= k < |p.outputMaps| ==> !Carries(p.outputMaps[k], second))
  {
    Powers();
    BigRoundTrip(own, 8);
    CarriesOwn(n.inputMaps[|p.inputMaps|], own);
    NotCarried(p, own);
    if NewOutputs(plan, change) != [] {
      BigRoundTrip(second, 8);
      CarriesOwn(n.outputMaps[|p.outputMaps|], second);
      NotCarried(p, second);
    }
  }

  lemma CarriesOwn(records: Records, serial: nat)
    requires records != [] && records[|records| - 1] == KeyValue(SERIAL_ID_KEY, Big(serial, 8))
    requires FromBig(Big(serial, 8)) == serial
    ensures Carries(records, serial)
  {
  }

  lemma NotCarried(p: Psbt, serial: nat)
    requires serial !in MapSerials(p.inputMaps + p.outputMaps)
    ensures forall k :: 0 <= k < |p.inputMaps| ==> !Carries(p.inputMaps[k], serial)
    ensures forall k :: 0 <= k < |p.outputMaps| ==> !Carries(p.outputMaps[k], serial)
  {
    var maps := p.inputMaps + p.outputMaps;
    forall k | 0 <= k < |maps| ensures !Carries(maps[k], serial) {
      if Carries(maps[k], serial) {
        var i :| 0 <= i < |maps[k]| && maps[k][i].key == SERIAL_ID_KEY && FromBig(maps[k][i].value) == serial;
        SerialsContain(maps, k, i);
      }
    }
    forall k | 0 <= k < |p.inputMaps| ensures !Carries(p.inputMaps[k], serial) {
      assert p.inputMaps[k] == maps[k];
    }
    forall k | 0 <= k < |p.outputMaps| ensures !Carries(p.outputMaps[k], serial) {
      assert p.outputMaps[k] == maps[|p.inputMaps| + k];
    }
  }
}
