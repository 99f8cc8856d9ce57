/**
 How the write paths and the derived views fit together: what an accepted or
 refused transfer or receipt does to a batch's status and journey, and the
 custody lifecycle of one batch worked through on concrete inputs.
 */
module Lifecycle {
  import opened Wrappers
  import opened Oracle
  import opened Verifier
  import opened Ledger
  import opened Orchestrator
  import opened Provenance

  /** A delivered batch stays delivered whatever is appended after. */
  lemma DeliveredIsFinal(b: Batch, ledger: seq<Tx>, t: Tx)
    requires StatusOf(b, ledger) == Delivered
    ensures StatusOf(b, ledger + [t]) == Delivered
  {
    KindsOfAppend(ledger, t, b.key);
  }

  /** An accepted transfer of a minted, not yet received batch puts it in transit. */
  lemma AcceptedTransferMovesBatch(s: Store, req: TransferRequest, ix: Indexer, now: nat, i: nat)
    requires |ix.primary| == MaxAttempts
    requires FindByCode(s.batches, req.batchCode) == Some(i)
    requires s.batches[i].minted && Received !in KindsOf(s.ledger, s.batches[i].key)
    requires TransferBatch(s, req, ix, now).reply.Created?
    ensures var r := TransferBatch(s, req, ix, now);
      StatusOf(r.store.batches[i], r.store.ledger) == InTransit
  {
    var b := Backfill(s.batches[i], req.policyId, req.assetName);
    KindsOfAppend(s.ledger, TransferEntry(b.key, req, now), b.key);
  }

  /** A refused transfer changes no batch's status. */
  lemma RefusedTransferKeepsStatuses(s: Store, req: TransferRequest, ix: Indexer, now: nat, j: nat)
    requires |ix.primary| == MaxAttempts
    requires j < |s.batches|
    requires !TransferBatch(s, req, ix, now).reply.Created?
    ensures var r := TransferBatch(s, req, ix, now);
      j < |r.store.batches| && StatusOf(r.store.batches[j], r.store.ledger) == StatusOf(s.batches[j], s.ledger)
  {
  }

  /** An accepted transfer adds exactly one step, the transfer itself, to the
      batch's journey. */
  lemma AcceptedTransferExtendsJourney(s: Store, req: TransferRequest, ix: Indexer, now: nat, i: nat)
    requires |ix.primary| == MaxAttempts
    requires FindByCode(s.batches, req.batchCode) == Some(i)
    requires TransferBatch(s, req, ix, now).reply.Created?
    ensures var r := TransferBatch(s, req, ix, now);
      var key := s.batches[i].key;
      && |Journey(r.store.ledger, key)| == |Journey(s.ledger, key)| + 1
      && multiset(Journey(r.store.ledger, key))
         == multiset(Journey(s.ledger, key)) + multiset{Step(Transfer, Some(req.fromWallet), Some(req.toWallet), now, req.txHash)}
  {
    var r := TransferBatch(s, req, ix, now);
    var key := s.batches[i].key;
    var t := TransferEntry(key, req, now);
    assert r.store.ledger == s.ledger + [t];
    EntryIndicesAppend(s.ledger, t, key);
    assert |EntryIndices(r.store.ledger, key)| == |EntryIndices(s.ledger, key)| + 1;
    EntriesAppend(s.ledger, t, key);
  }

  /** After an accepted receipt the batch, if minted, is delivered. */
  lemma AcceptedReceiptDelivers(s: Store, req: ReceiveRequest, answers: seq<Answer<Response>>, now: nat, i: nat)
    requires |answers| == MaxAttempts
    requires FindByKey(s.batches, req.batchKey) == Some(i) && s.batches[i].minted
    requires ReceiveBatch(s, req, answers, now).reply.Created?
    ensures StatusOf(s.batches[i], ReceiveBatch(s, req, answers, now).store.ledger) == Delivered
  {
    var r := ReceiveBatch(s, req, answers, now);
    ReceiveKeepsAtMostOneReceipt(s, req, answers, now, req.batchKey);
    var n :| 0 <= n < |r.store.ledger| && r.store.ledger[n].batch == req.batchKey && r.store.ledger[n].kind == Received;
    assert Received in KindsOf(r.store.ledger, s.batches[i].key);
  }

  // ---------------------------------------------------------------------------
  // One batch's lifecycle on concrete inputs

  /** Batch BATCH-001, minted with policy "p1" and asset "a1". */
  function Batch001(): Batch {
    Batch("1", "BATCH-001", "Paracetamol", "500mg", "2027-01-01", "M1", Some("p1"), Some("a1"), true)
  }

  /** The store right after minting BATCH-001: the batch and its MINT entry. */
  function Minted001(): Store {
    Store([Batch001()], [Tx("1", Mint, None, Some("W1"), "mint-hash", 1)])
  }

  /** A transfer of BATCH-001 from W1 to W2 that leaves the identifiers alone. */
  function ToW2(): TransferRequest {
    TransferRequest("BATCH-001", "W1", "W2", "tx-hash", None, None)
  }

  /** Freshly minted: one MINT step, status "Minted". */
  lemma MintedBatchJourney()
    ensures |Journey(Minted001().ledger, "1")| == 1
    ensures KindsOf(Minted001().ledger, "1") == {Mint}
    ensures TrackJourney(Minted001(), "BATCH-001").Success?
    ensures |TrackJourney(Minted001(), "BATCH-001").value.journey| == 1
    ensures Label(StatusOf(Batch001(), Minted001().ledger)) == "Minted"
  {
    var s := Minted001();
    assert EntryIndices(s.ledger, "1") == {0};
    assert KindsOf(s.ledger, "1") == {Mint};
  }

  /** An indexer listing W2 on the first attempt lets the transfer to W2 through
      after one query. */
  lemma ListedRecipientAccepted(ix: Indexer)
    requires |ix.primary| == MaxAttempts && Lists(ix.primary[0], "W2")
    ensures var r := TransferBatch(Minted001(), ToW2(), ix, 2);
      r.reply == Created(TransferRecordedMessage) && r.queries == 1 && r.sleeps == 0
  {
    var s := Minted001();
    assert FindByCode(s.batches, "BATCH-001") == Some(0);
    assert Backfill(s.batches[0], None, None) == Batch001();
    FirstAttemptMatch("W2", "p1", "a1", ix.primary);
  }

  /** The indexer lists W2 as holding five on the first attempt: the transfer is
      recorded after one query, the journey gains the TRANSFER step and the
      batch is in transit. */
  lemma DirectHolderTransfer(later: seq<Answer<Response>>, refetch: Answer<Response>, stakes: map<string, string>)
    requires |later| == 2
    ensures var ix := Indexer([Ok(HolderList([Holder("W2", Some("5"))]))] + later, refetch, stakes);
      var r := TransferBatch(Minted001(), ToW2(), ix, 2);
      && r.reply == Created(TransferRecordedMessage)
      && r.queries == 1 && r.sleeps == 0
      && |Journey(r.store.ledger, "1")| == 2
      && Label(StatusOf(r.store.batches[0], r.store.ledger)) == "In Transit"
  {
    var ix := Indexer([Ok(HolderList([Holder("W2", Some("5"))]))] + later, refetch, stakes);
    assert Lists(ix.primary[0], "W2") by {
      assert Normalise(ix.primary[0].value)[0].address == "W2";
    }
    ListedRecipientAccepted(ix);
    MintedBatchJourney();
    assert FindByCode(Minted001().batches, "BATCH-001") == Some(0);
    AcceptedTransferMovesBatch(Minted001(), ToW2(), ix, 2, 0);
    AcceptedTransferExtendsJourney(Minted001(), ToW2(), ix, 2, 0);
  }

  /** The indexer only ever lists W3, but W2 and W3 share stake address
      "stake1xyz": the fallback matches and the transfer is recorded. */
  lemma SharedStakeTransfer()
    ensures var w3 := Ok(HolderList([Holder("W3", Some("5"))]));
      var ix := Indexer([w3, w3, w3], w3, map["W2" := "stake1xyz", "W3" := "stake1xyz"]);
      var r := TransferBatch(Minted001(), ToW2(), ix, 2);
      && r.reply == Created(TransferRecordedMessage)
      && r.queries == 4 && r.sleeps == 2
  {
    var w3: Answer<Response> := Ok(HolderList([Holder("W3", Some("5"))]));
    var stakes := map["W2" := "stake1xyz", "W3" := "stake1xyz"];
    var s := Minted001();
    assert FindByCode(s.batches, "BATCH-001") == Some(0);
    assert !ListsAt(Normalise(w3.value), "W2");
    assert SharesStake(stakes, StakeOf(stakes, "W2"), Normalise(w3.value)[0]);
  }

  /** The same, but the shared-stake holder record carries no quantity: the
      fallback faults on the missing attribute and nothing is recorded. */
  lemma SharedStakeWithoutQuantity()
    ensures var w3 := Ok(HolderList([Holder("W3", None)]));
      var ix := Indexer([w3, w3, w3], w3, map["W2" := "stake1xyz", "W3" := "stake1xyz"]);
      var r := TransferBatch(Minted001(), ToW2(), ix, 2);
      && r.reply == BadRequest(MissingQuantityError)
      && r.store == Minted001()
  {
    var w3: Answer<Response> := Ok(HolderList([Holder("W3", None)]));
    var stakes := map["W2" := "stake1xyz", "W3" := "stake1xyz"];
    var s := Minted001();
    assert FindByCode(s.batches, "BATCH-001") == Some(0);
    assert !ListsAt(Normalise(w3.value), "W2");
    assert SharesStake(stakes, StakeOf(stakes, "W2"), Normalise(w3.value)[0]);
    assert s.batches[0 := Backfill(s.batches[0], None, None)] == s.batches;
  }

  /** A RECEIVED entry after the transfer: the status is "Delivered" although a
      TRANSFER entry exists. */
  lemma ReceiptAfterTransferDelivers(r: Store)
    requires r.batches == [Batch001()]
    requires Transfer in KindsOf(r.ledger, "1")
    ensures Label(StatusOf(Batch001(), r.ledger + [Tx("1", Received, Some(UnknownSender), Some("W2"), "REC-1", 3)])) == "Delivered"
  {
    KindsOfAppend(r.ledger, Tx("1", Received, Some(UnknownSender), Some("W2"), "REC-1", 3), "1");
  }
}
