/**
 The transfer orchestrator and its sibling, the receipt recorder: look up the
 batch, back-fill its token identifiers, gate the ledger append on the custody
 verifier (with the stake-address fallback for transfers), and append.
 */
module Orchestrator {
  import opened Wrappers
  import opened Oracle
  import opened Verifier
  import opened Ledger

  const TransferRecordedMessage: string := "Transfer recorded successfully"
  const BatchNotFoundMessage: string := "Batch not found"
  const AssetNotFoundMessage: string := "Asset not found in receiving wallet"
  const ReceiveFieldsMessage: string := "batch_id, wallet_address, and price_per_unit are required"
  const NotVerifiedMessage: string := "Asset not verified in your wallet on-chain"
  const ReceivedMessage: string := "Batch received and added to inventory"
  /** The sender recorded on a receipt. */
  const UnknownSender: string := "Unknown"
  /** The prefix of a receipt's generated hash. */
  const ReceiptPrefix: string := "REC-"
  /** Stands for the attribute error raised when a stake-matched holder has no quantity. */
  const MissingQuantityError: string := "holder record has no attribute 'quantity'"
  /** Stands for the error raised when a batch already has several receipts. */
  const MultipleReceiptsError: string := "get() returned more than one Transaction"

  /** The reply of a request: created, not found, or a bad request with its error. */
  datatype Reply = Created(message: string) | NotFound(error: string) | BadRequest(error: string)

  /** A transfer request; an omitted or empty policy id or asset name is `None` or "". */
  datatype TransferRequest = TransferRequest(
    batchCode: string,
    fromWallet: string,
    toWallet: string,
    txHash: string,
    policyId: Option<string>,
    assetName: Option<string>)

  /** The indexer as one transfer sees it: the answers to the verifier's attempts,
      the answer to the fallback's holder re-fetch, and the stake address lookups. */
  datatype Indexer = Indexer(primary: seq<Answer<Response>>, refetch: Answer<Response>, stakes: map<string, string>)

  /** A request's effect on the store, its reply, and how many holder queries and
      backoff sleeps it cost. */
  datatype Outcome = Outcome(store: Store, reply: Reply, queries: nat, sleeps: nat)

  /** What the stake-address fallback concludes. */
  datatype Fallback = StakeMatch(quantity: string) | NoStakeMatch | FallbackFault(error: string)

  /** `h` resolves to the same stake address as the target, which resolved to a
      non-empty one. */
  predicate SharesStake(stakes: map<string, string>, target: Option<string>, h: Holder) {
    Truthy(target) && StakeOf(stakes, h.address) == target
  }

  /** Some holder shares the stake address `wallet` resolves to. */
  predicate Reconciles(stakes: map<string, string>, wallet: string, hs: seq<Holder>) {
    exists i :: 0 <= i < |hs| && SharesStake(stakes, StakeOf(stakes, wallet), hs[i])
  }

  /** The position of the first holder sharing the stake address `target`. */
  function FirstSharingStake(stakes: map<string, string>, target: Option<string>, hs: seq<Holder>): (m: Option<nat>)
    ensures m.Some? ==> m.value < |hs| && SharesStake(stakes, target, hs[m.value])
    ensures m.Some? ==> forall j :: 0 <= j < m.value ==> !SharesStake(stakes, target, hs[j])
    ensures m.None? <==> forall j :: 0 <= j < |hs| ==> !SharesStake(stakes, target, hs[j])
  {
    FirstIndex(hs, (h: Holder) => SharesStake(stakes, target, h))
  }

  /** Stake-address reconciliation: re-fetch the holders and accept the first one
      whose stake address equals the wallet's. A failed re-fetch, or a matched
      holder without a quantity, is a fault. */
  function StakeFallback(wallet: string, refetch: Answer<Response>, stakes: map<string, string>): (f: Fallback)
    ensures refetch.ApiError? ==> f == FallbackFault(refetch.message)
    ensures refetch.Ok? ==>
      var hs := Normalise(refetch.value);
      && (f.NoStakeMatch? <==> !Reconciles(stakes, wallet, hs))
      && (f.StakeMatch? ==>
            exists i :: (0 <= i < |hs| && SharesStake(stakes, StakeOf(stakes, wallet), hs[i])
              && (forall j :: 0 <= j < i ==> !SharesStake(stakes, StakeOf(stakes, wallet), hs[j]))
              && hs[i].quantity == Some(f.quantity)))
      && (f.FallbackFault? ==> f.error == MissingQuantityError)
      && (f.StakeMatch? <==>
            Reconciles(stakes, wallet, hs)
            && hs[FirstSharingStake(stakes, StakeOf(stakes, wallet), hs).value].quantity.Some?)
    ensures !Truthy(StakeOf(stakes, wallet)) ==> !f.StakeMatch?
  {
    match refetch
    case ApiError(e) => FallbackFault(e)
    case Ok(resp) =>
      var hs := Normalise(resp);
      match FirstSharingStake(stakes, StakeOf(stakes, wallet), hs)
      case None => NoStakeMatch
      case Some(i) =>
        if hs[i].quantity.Some? then StakeMatch(hs[i].quantity.value)
        else FallbackFault(MissingQuantityError)
  }

  /** The batch with each supplied (truthy) identifier written over its own. */
  function Backfill(b: Batch, policy: Option<string>, asset: Option<string>): (r: Batch)
    ensures Truthy(policy) ==> r.policyId == policy
    ensures !Truthy(policy) ==> r.policyId == b.policyId
    ensures Truthy(asset) ==> r.assetName == asset
    ensures !Truthy(asset) ==> r.assetName == b.assetName
    ensures r.(policyId := b.policyId, assetName := b.assetName) == b
  {
    b.(policyId := if Truthy(policy) then policy else b.policyId,
       assetName := if Truthy(asset) then asset else b.assetName)
  }

  /** Back-filling again with the same request changes nothing more. */
  lemma BackfillIdempotent(b: Batch, policy: Option<string>, asset: Option<string>)
    ensures Backfill(Backfill(b, policy, asset), policy, asset) == Backfill(b, policy, asset)
  {
  }

  /** The TRANSFER entry a transfer request appends. */
  function TransferEntry(key: BatchKey, req: TransferRequest, now: nat): Tx {
    Tx(key, Transfer, Some(req.fromWallet), Some(req.toWallet), req.txHash, now)
  }

  /** A batch whose policy id and asset name are both set gets verified. */
  predicate OnChain(b: Batch) {
    Truthy(b.policyId) && Truthy(b.assetName)
  }

  /** Record a custody transfer of the batch with code `req.batchCode`. */
  function TransferBatch(s: Store, req: TransferRequest, ix: Indexer, now: nat): (r: Outcome)
    requires |ix.primary| == MaxAttempts
    ensures FindByCode(s.batches, req.batchCode).None? ==> r == Outcome(s, NotFound(BatchNotFoundMessage), 0, 0)
    ensures FindByCode(s.batches, req.batchCode).Some? ==>
      var i := FindByCode(s.batches, req.batchCode).value;
      var b := Backfill(s.batches[i], req.policyId, req.assetName);
      && r.store.batches == s.batches[i := b]
      && (r.reply.Created? ==>
            r.reply.message == TransferRecordedMessage && r.store.ledger == s.ledger + [TransferEntry(b.key, req, now)])
      && (!r.reply.Created? ==> r.reply.BadRequest? && r.store.ledger == s.ledger)
      && (!OnChain(b) ==> r.reply.Created? && r.queries == 0 && r.sleeps == 0)
      && (OnChain(b) ==>
            var run := Verify(req.toWallet, b.policyId.value, b.assetName.value, ix.primary);
            var fb := StakeFallback(req.toWallet, ix.refetch, ix.stakes);
            && (r.reply.Created? <==> run.outcome.HasAsset() || fb.StakeMatch?)
            && (!run.outcome.HasAsset() && fb.NoStakeMatch? ==> r.reply == BadRequest(AssetNotFoundMessage))
            && (!run.outcome.HasAsset() && fb.FallbackFault? ==> r.reply == BadRequest(fb.error))
            && r.queries == |run.asked| + (if run.outcome.HasAsset() then 0 else 1)
            && r.sleeps == run.sleeps)
  {
    match FindByCode(s.batches, req.batchCode)
    case None => Outcome(s, NotFound(BatchNotFoundMessage), 0, 0)
    case Some(i) =>
      var b := Backfill(s.batches[i], req.policyId, req.assetName);
      var synced := WithBatch(s, i, b);
      var recorded := Append(synced, TransferEntry(b.key, req, now));
      if !OnChain(b) then Outcome(recorded, Created(TransferRecordedMessage), 0, 0)
      else
        var run := Verify(req.toWallet, b.policyId.value, b.assetName.value, ix.primary);
        if run.outcome.HasAsset() then
          Outcome(recorded, Created(TransferRecordedMessage), |run.asked|, run.sleeps)
        else
          match StakeFallback(req.toWallet, ix.refetch, ix.stakes)
          case StakeMatch(_) => Outcome(recorded, Created(TransferRecordedMessage), |run.asked| + 1, run.sleeps)
          case NoStakeMatch => Outcome(synced, BadRequest(AssetNotFoundMessage), |run.asked| + 1, run.sleeps)
          case FallbackFault(e) => Outcome(synced, BadRequest(e), |run.asked| + 1, run.sleeps)
  }

  /** A receipt request; a missing field is "". `nonce` stands for the random
      part of the generated receipt hash. */
  datatype ReceiveRequest = ReceiveRequest(batchKey: BatchKey, wallet: string, price: string, nonce: string)

  /** The RECEIVED entry a receipt request appends. */
  function ReceiptEntry(key: BatchKey, req: ReceiveRequest, now: nat): Tx {
    Tx(key, Received, Some(UnknownSender), Some(req.wallet), ReceiptPrefix + req.nonce, now)
  }

  /** Record that `req.wallet` received the batch with key `req.batchKey`: verify
      custody (no stake fallback), then get-or-create the batch's RECEIVED entry. */
  function ReceiveBatch(s: Store, req: ReceiveRequest, answers: seq<Answer<Response>>, now: nat): (r: Outcome)
    requires |answers| == MaxAttempts
    ensures r.store.batches == s.batches
    ensures req.batchKey == "" || req.wallet == "" || req.price == "" ==> r == Outcome(s, BadRequest(ReceiveFieldsMessage), 0, 0)
    ensures req.batchKey != "" && req.wallet != "" && req.price != "" && FindByKey(s.batches, req.batchKey).None? ==>
      r == Outcome(s, NotFound(BatchNotFoundMessage), 0, 0)
    ensures req.batchKey != "" && req.wallet != "" && req.price != "" && FindByKey(s.batches, req.batchKey).Some? ==>
      var b := s.batches[FindByKey(s.batches, req.batchKey).value];
      var run := Verify(req.wallet, IdText(b.policyId), IdText(b.assetName), answers);
      && r.queries == |run.asked| && r.sleeps == run.sleeps
      && (!run.outcome.HasAsset() ==> r.store == s && r.reply == BadRequest(NotVerifiedMessage))
      && (run.outcome.HasAsset() && CountKind(s.ledger, req.batchKey, Received) > 1 ==>
            r.store == s && r.reply == BadRequest(MultipleReceiptsError))
    ensures r.store == s || (r.store.ledger == s.ledger + [ReceiptEntry(req.batchKey, req, now)]
                               && CountKind(s.ledger, req.batchKey, Received) == 0)
    ensures r.reply.Created? <==>
      && req.batchKey != "" && req.wallet != "" && req.price != ""
      && FindByKey(s.batches, req.batchKey).Some?
      && (var b := s.batches[FindByKey(s.batches, req.batchKey).value];
          Verify(req.wallet, IdText(b.policyId), IdText(b.assetName), answers).outcome.HasAsset())
      && CountKind(s.ledger, req.batchKey, Received) <= 1
    ensures r.reply.Created? ==> r.reply.message == ReceivedMessage
  {
    if req.batchKey == "" || req.wallet == "" || req.price == "" then
      Outcome(s, BadRequest(ReceiveFieldsMessage), 0, 0)
    else match FindByKey(s.batches, req.batchKey)
      case None => Outcome(s, NotFound(BatchNotFoundMessage), 0, 0)
      case Some(i) =>
        var b := s.batches[i];
        var run := Verify(req.wallet, IdText(b.policyId), IdText(b.assetName), answers);
        if !run.outcome.HasAsset() then
          Outcome(s, BadRequest(NotVerifiedMessage), |run.asked|, run.sleeps)
        else
          var receipts := CountKind(s.ledger, b.key, Received);
          if receipts == 0 then
            Outcome(Append(s, ReceiptEntry(b.key, req, now)), Created(ReceivedMessage), |run.asked|, run.sleeps)
          else if receipts == 1 then
            Outcome(s, Created(ReceivedMessage), |run.asked|, run.sleeps)
          else
            Outcome(s, BadRequest(MultipleReceiptsError), |run.asked|, run.sleeps)
  }

  /** Verification is skipped for an off-chain batch: the indexer's answers
      make no difference to the transfer. */
  lemma SkipPathIgnoresIndexer(s: Store, req: TransferRequest, ix1: Indexer, ix2: Indexer, now: nat)
    requires |ix1.primary| == MaxAttempts && |ix2.primary| == MaxAttempts
    requires FindByCode(s.batches, req.batchCode).Some?
    requires !OnChain(Backfill(s.batches[FindByCode(s.batches, req.batchCode).value], req.policyId, req.assetName))
    ensures TransferBatch(s, req, ix1, now) == TransferBatch(s, req, ix2, now)
    ensures TransferBatch(s, req, ix1, now).reply.Created?
  {
  }

  /** The same off-chain transfer submitted twice is recorded twice: hashes are
      not deduplicated. */
  lemma RepeatedTransferNotDeduplicated(s: Store, req: TransferRequest, ix: Indexer, now1: nat, now2: nat)
    requires |ix.primary| == MaxAttempts
    requires FindByCode(s.batches, req.batchCode).Some?
    requires !OnChain(Backfill(s.batches[FindByCode(s.batches, req.batchCode).value], req.policyId, req.assetName))
    ensures var key := s.batches[FindByCode(s.batches, req.batchCode).value].key;
      var twice := TransferBatch(TransferBatch(s, req, ix, now1).store, req, ix, now2);
      && twice.reply.Created?
      && twice.store.ledger == s.ledger + [TransferEntry(key, req, now1), TransferEntry(key, req, now2)]
      && CountKind(twice.store.ledger, key, Transfer) == CountKind(s.ledger, key, Transfer) + 2
  {
    var i := FindByCode(s.batches, req.batchCode).value;
    var b := Backfill(s.batches[i], req.policyId, req.assetName);
    var once := TransferBatch(s, req, ix, now1);
    assert once.store.batches == s.batches[i := b];
    FindByCodeAfterUpdate(s.batches, i, b);
    BackfillIdempotent(s.batches[i], req.policyId, req.assetName);
    var l1 := s.ledger + [TransferEntry(b.key, req, now1)];
    CountKindAppend(s.ledger, TransferEntry(b.key, req, now1), b.key, Transfer);
    CountKindAppend(l1, TransferEntry(b.key, req, now2), b.key, Transfer);
  }

  /** A transfer keeps the store well formed. */
  lemma TransferPreservesWellFormed(s: Store, req: TransferRequest, ix: Indexer, now: nat)
    requires |ix.primary| == MaxAttempts && WellFormed(s)
    ensures WellFormed(TransferBatch(s, req, ix, now).store)
  {
    if FindByCode(s.batches, req.batchCode).Some? {
      var i := FindByCode(s.batches, req.batchCode).value;
      var b := Backfill(s.batches[i], req.policyId, req.assetName);
      UpdateAppendWellFormed(s, i, b, TransferEntry(b.key, req, now));
    }
  }

  /** A receipt keeps the store well formed. */
  lemma ReceivePreservesWellFormed(s: Store, req: ReceiveRequest, answers: seq<Answer<Response>>, now: nat)
    requires |answers| == MaxAttempts && WellFormed(s)
    ensures WellFormed(ReceiveBatch(s, req, answers, now).store)
  {
    var r := ReceiveBatch(s, req, answers, now);
    if r.store != s {
      var i := FindByKey(s.batches, req.batchKey).value;
      assert r.store == Append(s, ReceiptEntry(req.batchKey, req, now));
      AppendWellFormed(s, ReceiptEntry(req.batchKey, req, now), i);
    }
  }

  /** Receipts are get-or-create: a batch with at most one RECEIVED entry keeps
      at most one, whatever is received, and has exactly one after an accepted
      receipt. No other batch's receipts change. */
  lemma ReceiveKeepsAtMostOneReceipt(s: Store, req: ReceiveRequest, answers: seq<Answer<Response>>, now: nat, key: BatchKey)
    requires |answers| == MaxAttempts
    requires CountKind(s.ledger, key, Received) <= 1
    ensures var r := ReceiveBatch(s, req, answers, now);
      && CountKind(r.store.ledger, key, Received) <= 1
      && (r.reply.Created? && key == req.batchKey ==> CountKind(r.store.ledger, key, Received) == 1)
      && (key != req.batchKey ==> CountKind(r.store.ledger, key, Received) == CountKind(s.ledger, key, Received))
  {
    var r := ReceiveBatch(s, req, answers, now);
    if r.store != s {
      CountKindAppend(s.ledger, ReceiptEntry(req.batchKey, req, now), key, Received);
    }
  }

  /** Receiving again after an accepted receipt writes nothing more. */
  lemma ReceiveTwiceWritesOnce(s: Store, req1: ReceiveRequest, req2: ReceiveRequest,
                               a1: seq<Answer<Response>>, a2: seq<Answer<Response>>, now1: nat, now2: nat)
    requires |a1| == MaxAttempts && |a2| == MaxAttempts
    requires req1.batchKey == req2.batchKey
    requires ReceiveBatch(s, req1, a1, now1).reply.Created?
    ensures var first := ReceiveBatch(s, req1, a1, now1);
      ReceiveBatch(first.store, req2, a2, now2).store == first.store
  {
    var first := ReceiveBatch(s, req1, a1, now1);
    ReceiveKeepsAtMostOneReceipt(s, req1, a1, now1, req1.batchKey);
  }
}
