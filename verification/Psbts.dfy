/**
 Partially signed transactions as structured records (BIP 174 and BIP 370): a
 transaction, global records, and one map of records for each input and output.
 */
module Psbts {
  import opened Prelude
  import opened Encodings

  type Amount = n: nat | n < 0x1_0000_0000_0000_0000
  type Index = n: nat | n < 0x1_0000_0000

  datatype TxIn = TxIn(txid: string, vout: Index, sequence: Index)

  datatype TxOut = TxOut(value: Amount, script: Bytes)

  datatype Transaction = Transaction(version: Index, inputs: seq<TxIn>, outputs: seq<TxOut>, locktime: Index)

  datatype KeyValue = KeyValue(key: Bytes, value: Bytes)

  type Records = seq<KeyValue>

  datatype Psbt = Psbt(version: nat, transaction: Transaction, globals: Records,
                       inputMaps: seq<Records>, outputMaps: seq<Records>)

  const GLOBAL_UNSIGNED_TX: Byte := 0x00
  const GLOBAL_INPUT_COUNT: Byte := 0x04
  const GLOBAL_OUTPUT_COUNT: Byte := 0x05
  const GLOBAL_TX_MODIFIABLE: Byte := 0x06
  const IN_NON_WITNESS_UTXO: Byte := 0x00
  const IN_WITNESS_UTXO: Byte := 0x01
  const IN_PARTIAL_SIG: Byte := 0x02
  const IN_SIGHASH_TYPE: Byte := 0x03
  const IN_BIP32_DERIVATION: Byte := 0x06
  const IN_FINAL_SCRIPTSIG: Byte := 0x07
  const IN_FINAL_SCRIPTWITNESS: Byte := 0x08
  const IN_PREVIOUS_TXID: Byte := 0x0e
  const IN_OUTPUT_INDEX: Byte := 0x0f
  const IN_SEQUENCE: Byte := 0x10
  const IN_PROPRIETARY: Byte := 0xfc
  const OUT_AMOUNT: Byte := 0x03
  const OUT_SCRIPT: Byte := 0x04

  /** 0xfc, then the length-prefixed identifier "lightning", then subtype 1. */
  const SERIAL_ID_KEY: Bytes := [IN_PROPRIETARY, 9, 108, 105, 103, 104, 116, 110, 105, 110, 103, 1]

  /** `record.key[:1] == bytes([kind])`. */
  predicate IsKind(r: KeyValue, kind: Byte) {
    r.key != [] && r.key[0] == kind
  }

  /** The records of one kind, in order. */
  function OfKind(records: Records, kind: Byte): (r: Records)
    ensures forall i :: 0 <= i < |r| ==> IsKind(r[i], kind) && r[i] in records
    ensures |r| <= |records|
  {
    if records == [] then []
    else if IsKind(records[0], kind) then [records[0]] + OfKind(records[1..], kind)
    else OfKind(records[1..], kind)
  }

  /** The others, in order. */
  function NotOfKind(records: Records, kind: Byte): (r: Records)
    ensures forall i :: 0 <= i < |r| ==> !IsKind(r[i], kind)
  {
    if records == [] then []
    else if IsKind(records[0], kind) then NotOfKind(records[1..], kind)
    else [records[0]] + NotOfKind(records[1..], kind)
  }

  lemma {:induction false} OfKindAppend(a: Records, b: Records, kind: Byte)
    ensures OfKind(a + b, kind) == OfKind(a, kind) + OfKind(b, kind)
    ensures NotOfKind(a + b, kind) == NotOfKind(a, kind) + NotOfKind(b, kind)
  {
    if a == [] {
      assert a + b == b;
    } else {
      assert (a + b)[1..] == a[1..] + b;
      OfKindAppend(a[1..], b, kind);
    }
  }

  lemma OfKindCons(r: KeyValue, rest: Records, kind: Byte)
    ensures OfKind([r] + rest, kind) == if IsKind(r, kind) then [r] + OfKind(rest, kind) else OfKind(rest, kind)
  {
    assert ([r] + rest)[1..] == rest;
  }

  /** The value under a whole key; a PSBT map holds a key once, and the code takes the first. */
  function Find(records: Records, key: Bytes): Option<Bytes> {
    if records == [] then None
    else if records[0].key == key then Some(records[0].value)
    else Find(records[1..], key)
  }

  /** The first record under the key with another value. */
  function Put(records: Records, key: Bytes, value: Bytes): (r: Records)
    ensures |r| == |records|
    ensures forall i :: 0 <= i < |r| ==> r[i].key == records[i].key
  {
    if records == [] then []
    else if records[0].key == key then [KeyValue(key, value)] + records[1..]
    else [records[0]] + Put(records[1..], key, value)
  }

  lemma {:induction false} FindPut(records: Records, key: Bytes, value: Bytes, other: Bytes)
    ensures Find(Put(records, key, value), other)
         == if other == key && Find(records, key).Some? then Some(value) else Find(records, other)
  {
    if records != [] && records[0].key != key { FindPut(records[1..], key, value, other); }
  }

  // ---- what the maps say about the transaction ----

  function SerializeInput(i: TxIn): Bytes {
    var txid := FromHex(i.txid);
    Reverse(if txid.Some? then txid.value else []) + Little(i.vout, 4) + Varint(0) + Little(i.sequence, 4)
  }

  function SerializeInputs(inputs: seq<TxIn>): Bytes {
    if inputs == [] then [] else SerializeInput(inputs[0]) + SerializeInputs(inputs[1..])
  }

  function SerializeOutputs(outputs: seq<TxOut>): Bytes {
    if outputs == [] then []
    else Little(outputs[0].value, 8) + Varint(|outputs[0].script|) + outputs[0].script + SerializeOutputs(outputs[1..])
  }

  function Serialize(t: Transaction): Bytes {
    Little(t.version, 4) + Varint(|t.inputs|) + SerializeInputs(t.inputs)
    + Varint(|t.outputs|) + SerializeOutputs(t.outputs) + Little(t.locktime, 4)
  }

  /** A version 2 input map spells out the input it belongs to. */
  predicate Spells(records: Records, i: TxIn) {
    var txid, vout, sequence :=
      Find(records, [IN_PREVIOUS_TXID]), Find(records, [IN_OUTPUT_INDEX]), Find(records, [IN_SEQUENCE]);
    && txid.Some? && ToHex(Reverse(txid.value)) == i.txid
    && vout.Some? && |vout.value| == 4 && FromLittle(vout.value) == i.vout
    && (if sequence.None? then i.sequence == 0xffff_ffff
        else |sequence.value| == 4 && FromLittle(sequence.value) == i.sequence)
  }

  /** A version 2 output map spells out its output. */
  predicate SpellsOutput(records: Records, o: TxOut) {
    var value, script := Find(records, [OUT_AMOUNT]), Find(records, [OUT_SCRIPT]);
    && value.Some? && |value.value| == 8 && FromLittle(value.value) == o.value
    && script == Some(o.script)
  }

  /**
   What parsing establishes and a change to the transaction must keep up: one map
   for each input and output, and the records from which a reader rebuilds the
   transaction (the unsigned transaction in version 0; counts and maps in version 2).
   */
  ghost predicate Consistent(p: Psbt) {
    && |p.inputMaps| == |p.transaction.inputs| && |p.outputMaps| == |p.transaction.outputs|
    && if p.version == 2 then
         && Find(p.globals, [GLOBAL_INPUT_COUNT]) == Some(Varint(|p.inputMaps|))
         && Find(p.globals, [GLOBAL_OUTPUT_COUNT]) == Some(Varint(|p.outputMaps|))
         && (forall i :: 0 <= i < |p.inputMaps| ==> Spells(p.inputMaps[i], p.transaction.inputs[i]))
         && (forall i :: 0 <= i < |p.outputMaps| ==> SpellsOutput(p.outputMaps[i], p.transaction.outputs[i]))
       else
         Find(p.globals, [GLOBAL_UNSIGNED_TX]) == Some(Serialize(p.transaction))
  }

  // ---- previous transactions ----

  /** A previous transaction as its reader sees it; `hash` is in wire order. */
  datatype Parent = Parent(hash: Bytes, outputs: seq<TxOut>)

  /** What `parse_transaction_bytes` makes of raw bytes. */
  type Reader = Bytes -> Option<Parent>

  function Txid(p: Parent): string {
    ToHex(Reverse(p.hash))
  }
}
