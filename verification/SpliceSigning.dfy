/**
 A coin from the splice PSBT to its signature: what is added for it is fit for
 signing, and what comes back signed spends it.
 */
module SpliceSigning {
  import opened Prelude
  import opened Encodings
  import opened Psbts
  import opened Planner
  import opened Splices
  import opened SpliceInputs
  import opened Signing

  /** A record of this kind holds this value. */
  ghost predicate Holds(records: Records, kind: Byte, value: Bytes) {
    exists r: KeyValue :: r in records && IsKind(r, kind) && r.value == value
  }

  /**
   Whatever the wallet answers, a planned input of the returned PSBT spends its
   coin, its records give the coin's value and script and a previous transaction
   that pays just that in the output spent, and it carries one signature, over
   everything.
   */
  lemma SignedForTheCoin(p: Psbt, n: Psbt, plan: Plan, wallet: Wallet, read: Reader, i: nat)
    returns (prevOut: Bytes, previous: Bytes)
    requires Signable(p, plan, read) && OnlySigned(p, n, plan, wallet) && i in plan
    ensures i < |n.transaction.inputs| && i < |n.inputMaps| && n.transaction == p.transaction
    ensures var signatures := OfKind(n.inputMaps[i], IN_PARTIAL_SIG);
            |signatures| == 1 && SignsAll(signatures[0], plan[i], i, n.transaction, wallet)
    ensures n.transaction.inputs[i].txid == plan[i].outpoint.txid && n.transaction.inputs[i].vout == plan[i].outpoint.vout
    ensures Holds(n.inputMaps[i], IN_WITNESS_UTXO, prevOut) && Holds(n.inputMaps[i], IN_NON_WITNESS_UTXO, previous)
    ensures plan[i].value < 0x1_0000_0000_0000_0000 && |plan[i].script| < 0x1_0000_0000_0000_0000 ==>
              ReadWitnessUtxo(prevOut) == Some((plan[i].value, plan[i].script))
    ensures Authentic(plan[i], previous, read)
  {
    assert Approved(p, i, plan[i], read);
    KeptAndSigned(p.inputMaps[i], n.inputMaps[i]);
    GoodSignatureMeans(n.inputMaps[i][|p.inputMaps[i]|], plan[i], i, p.transaction, wallet);
    prevOut := OfKind(p.inputMaps[i], IN_WITNESS_UTXO)[0].value;
    previous := OfKind(p.inputMaps[i], IN_NON_WITNESS_UTXO)[0].value;
    if plan[i].value < 0x1_0000_0000_0000_0000 && |plan[i].script| < 0x1_0000_0000_0000_0000 {
      WitnessUtxoRoundTrip(plan[i].value, plan[i].script);
    }
  }

  lemma KeptAndSigned(before: Records, after: Records)
    requires |after| == |before| + 1 && after[..|before|] == before && IsKind(after[|before|], IN_PARTIAL_SIG)
    requires OfKind(before, IN_PARTIAL_SIG) == []
    ensures OfKind(after, IN_PARTIAL_SIG) == [after[|before|]]
    ensures forall kind :: kind in [IN_WITNESS_UTXO, IN_NON_WITNESS_UTXO] && OfKind(before, kind) != [] ==>
              Holds(after, kind, OfKind(before, kind)[0].value)
  {
    var last := after[|before|];
    assert after == before + [last];
    OfKindAppend(before, [last], IN_PARTIAL_SIG);
    forall kind | kind in [IN_WITNESS_UTXO, IN_NON_WITNESS_UTXO] && OfKind(before, kind) != []
      ensures Holds(after, kind, OfKind(before, kind)[0].value)
    {
      var r := OfKind(before, kind)[0];
      assert r in after && IsKind(r, kind);
    }
  }

  /**
   An input that was added for the coin is fit for signing: both its UTXO records
   vouch for the coin, it asks for a signature over everything, names the key and
   where the wallet derives it, and is not signed yet.
   */
  lemma NewInputIsSignable(p: Psbt, n: Psbt, c: Contribution, coin: Coin, plan: ExecutionPlan, change: Option<Bytes>,
                           key: WalletKey, prevTx: Bytes, read: Reader, own: nat, second: nat)
    requires Added(p, n, c, coin, plan, change, key, prevTx, read, own, second)
    requires |p.inputMaps| == |p.transaction.inputs| && |p.outputMaps| == |p.transaction.outputs|
    ensures Signable(n, map[|p.inputMaps| := coin], read)
    ensures var m := n.inputMaps[|p.inputMaps|];
            var sighash, derivation := OfKind(m, IN_SIGHASH_TYPE), OfKind(m, IN_BIP32_DERIVATION);
            && OfKind(m, IN_NON_WITNESS_UTXO) == [KeyValue([IN_NON_WITNESS_UTXO], prevTx)]
            && |sighash| == 1 && |sighash[0].value| == 4 && FromLittle(sighash[0].value) == SIGHASH_ALL
            && |derivation| == 1 && derivation[0].key[1..] == key.pubkey && derivation[0].value == key.origin
  {
    OwnValue(p, n, c, coin, plan, change, key, prevTx, read, own, second);
    EvidenceKinds(p.version, read(prevTx).value.hash, coin.outpoint.vout, prevTx, coin.value, key, own);
    Powers();
    LittleRoundTrip(SIGHASH_ALL, 4);
    var m := n.inputMaps[|p.inputMaps|];
    assert OfKind(m, IN_BIP32_DERIVATION)[0].key[1..] == key.pubkey;
    assert Approved(n, |p.inputMaps|, coin, read);
  }
}
