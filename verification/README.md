# Custody verification and provenance, modelled in Dafny

This project models the custody core of the medisure backend, a pharmaceutical
supply-chain tracker. A manufactured lot (a *batch*) is minted as a token on a
chain. Custody moves between wallets, and every move is recorded in an
append-only ledger of transactions (MINT, TRANSFER, RECEIVED, SOLD). The model
covers three pieces:

- **The custody verifier** (`Verifier`, over the abstract indexer in `Oracle`).
  It asks the chain indexer up to three times whether a wallet holds an asset.
  The indexer's answer is normalised into a holder list and the wallet is
  matched by exact address. The verifier backs off between attempts and ends
  in one of three replies: held with a quantity, checked and absent, or could
  not check.
- **The transfer orchestrator and receipt recorder** (`Orchestrator`, over the
  store in `Ledger`). A transfer looks up the batch by code and back-fills its
  policy id and asset name. When both identifiers are set, it gates the
  TRANSFER append on the verifier, with a fallback that matches stake
  addresses. A receipt verifies custody and then get-or-creates the batch's
  single RECEIVED entry.
- **The provenance reconstructor** (`Provenance`, `Pharmacy`). Everything here
  is derived from the ledger on read:
  - each batch's status (Pending, Minted, In Transit, Delivered);
  - the manufacturer dashboard counts;
  - a batch's journey, ordered by timestamp;
  - a pharmacy's deduplicated list of incoming transfers.

`Lifecycle` relates the write paths to the derived views. It also works the
custody lifecycle of one batch through on concrete inputs.

The indexer is an input, not a service. A request is given:

- the answers the indexer would give to each of the verifier's three attempts,
  each either a response or an API error;
- the answer to the fallback's re-fetch of the holders;
- a map from address to stake address, where a missing key means the lookup
  failed or the address has no stake key.

Backoff sleeps are counted, not slept. Timestamps are given naturals. The
ledger's sequence order is insertion order.

Three behaviours of the code are worth stating, because they are easy to
assume otherwise:

- The transfer path creates a new ledger entry on every call, so a repeated
  transaction hash is recorded again
  (`Orchestrator.RepeatedTransferNotDeduplicated`).
- A stake-matched holder record without `quantity` makes the fallback raise,
  because the code reads that attribute with no default
  (tracker/views.py:214). The transfer is then refused and nothing is
  recorded (`Lifecycle.SharedStakeWithoutQuantity`). With a quantity present,
  the fallback matches (`Lifecycle.SharedStakeTransfer`).
- In the pharmacy incoming list, a comment says the latest transfer is taken.
  The code keeps the first transfer met in iteration order, and so does the
  model (`Pharmacy.CollectTakesFirst`).

## Model

| member | source | states |
|---|---|---|
| Oracle.AssetId | tracker/blockfrost_utils.py:77 | the asset id queried is the plain concatenation of policy id and asset name: it splits back into the two |
| Oracle.Normalise | tracker/blockfrost_utils.py:81-85 | a holder list is used as is, a lone record with an address becomes a one-element list of it, and anything else becomes no holders |
| Verifier.FirstHolderAt | tracker/blockfrost_utils.py:87-94 | the match is the first holder whose address equals the wallet exactly; there is none iff no holder has that address |
| Verifier.Attempts | tracker/blockfrost_utils.py:74-112 | from attempt k on: at most 3-k queries, one sleep between consecutive queries, held iff some remaining answer lists the wallet, and when held it stops at the first listing attempt with that holder's quantity, defaulting to "1" |
| Verifier.Verify | tracker/blockfrost_utils.py:71-112 | 1 to 3 queries, each for policy+asset; sleeps = queries - 1; has_asset iff some answer lists the wallet exactly; quantity from the first match or "1"; not held means 3 queries and 2 sleeps; success is false iff the third answer is an API error and nothing matched, and then the error is that answer's message |
| Verifier.FirstAttemptMatch | tracker/blockfrost_utils.py:87-94 | a wallet listed in the first answer gives success and has_asset after one query and no sleep |
| Verifier.NeverListedIsAbsent | tracker/blockfrost_utils.py:96-112 | an indexer that never errs and never lists the wallet gives checked-and-absent after exactly 3 queries and 2 sleeps |
| Verifier.SingleRecordIsOneElementList | tracker/blockfrost_utils.py:81-83 | a lone holder record gives the same run as a one-element list holding it |
| Verifier.UnrecognizedIsEmptyList | tracker/blockfrost_utils.py:84-85 | a response that is neither a list nor a record gives the same run as an empty list |
| Verifier.SameHoldersSameRun | tracker/blockfrost_utils.py:78-94 | the run depends on the answers only through their normalised holder lists and error messages |
| Verifier.ErrorLikeMissFrom | tracker/blockfrost_utils.py:100-103 | from any attempt up to i, an API error on a non-final attempt i behaves like an empty holder list there |
| Verifier.ErrorBeforeLastAttemptAbsorbed | tracker/blockfrost_utils.py:100-103 | an API error on attempt 1 or 2 is absorbed: outcome, queries and sleeps equal those of an empty holder list there |
| Ledger.FindByCode | tracker/views.py:185 | the batch found by code has that code and no earlier batch has it; not found iff no batch has it |
| Ledger.FindByKey | tracker/views.py:310 | the batch found by primary key has that key and no earlier batch has it; not found iff no batch has it |
| Ledger.CountKind | tracker/views.py:382 | the number of entries of one kind for one batch is positive iff such an entry exists, and at most the ledger length |
| Orchestrator.FirstSharingStake | tracker/views.py:209-215 | the chosen holder is the first whose resolved stake address equals the target's truthy stake address; none iff no holder's does |
| Orchestrator.Backfill | tracker/views.py:188-192 | a truthy supplied policy id or asset name overwrites the batch's field, a falsy or omitted one keeps it, and no other column changes |
| Orchestrator.BackfillIdempotent | tracker/views.py:188-192 | back-filling twice with the same request gives the same batch as once |
| Orchestrator.StakeFallback | tracker/views.py:201-215 | a failed re-fetch is a fault carrying its message; otherwise there is no match iff no holder shares the wallet's stake address; it matches iff some holder shares it and the first such holder has a quantity, which is the one reported; that first holder without a quantity is a fault; a falsy or failed target lookup never matches |
| Orchestrator.TransferBatch | tracker/views.py:178-243 | unknown code: nothing written, not found; the back-fill always persists; accepted means exactly one TRANSFER entry (from, to, hash) appended, refused means the ledger is unchanged; without both identifiers it is accepted with no query; with both it is accepted iff the verifier finds the asset or the stake fallback matches, and it is refused with "Asset not found in receiving wallet" or the fallback's fault |
| Orchestrator.SkipPathIgnoresIndexer | tracker/views.py:197-226 | when either identifier is empty after back-fill, the indexer's answers make no difference and the transfer is accepted |
| Orchestrator.RepeatedTransferNotDeduplicated | tracker/views.py:220-226 | the same skip-path transfer sent twice appends two TRANSFER entries with the same hash |
| Orchestrator.TransferPreservesWellFormed | tracker/views.py:185-226 | a transfer keeps keys and codes unique and every entry pointing at a stored batch |
| Orchestrator.ReceiveBatch | tracker/views.py:297-354 | a missing field is refused before anything is read; an unknown batch is "Batch not found"; batches are never changed; the asset id checked is the f-string rendering of the batch's identifiers; it is accepted iff the batch exists, the wallet holds its asset and the batch has at most one receipt; a failed check is refused with "Asset not verified in your wallet on-chain" and writes nothing; several existing receipts refuse it; a write appends exactly one RECEIVED entry, and only to a batch with none |
| Orchestrator.ReceivePreservesWellFormed | tracker/views.py:334-343 | a receipt keeps the store well formed |
| Orchestrator.ReceiveKeepsAtMostOneReceipt | tracker/views.py:335-343 | get-or-create keeps at most one RECEIVED entry per batch, exactly one after an accepted receipt, and other batches' receipts unchanged |
| Orchestrator.ReceiveTwiceWritesOnce | tracker/views.py:335-343 | after an accepted receipt, receiving the same batch again writes nothing |
| Provenance.StatusOf | tracker/views.py:375-385 | Pending iff not minted; Delivered iff minted with a receipt, whatever transfers exist; In Transit iff minted with a transfer and no receipt; Minted iff minted with neither |
| Provenance.StatusIgnoresSoldAndMint | tracker/views.py:376-385 | appending a SOLD or MINT entry never changes a status |
| Provenance.MadeBy | tracker/views.py:364 | the manufacturer's batches are exactly the stored batches with that manufacturer, each as often as it is stored, so their number is the number of table rows with that manufacturer |
| Provenance.CountMinted | tracker/views.py:365 | the minted count is the number of rows whose minted flag is set: at most the row count, and zero iff none is minted |
| Provenance.TransferredKeys | tracker/views.py:368-371 | the distinct transferred batches are among the manufacturer's batches |
| Provenance.TransferredKeysAreTransferredBatches | tracker/views.py:367-371 | the distinct batches counted from the ledger side are the manufacturer's batches having a TRANSFER entry |
| Provenance.DashboardStats | tracker/views.py:356-406 | an empty manufacturer id is refused; total_batches is the number of the manufacturer's rows; minted is the number of those that are minted; in_transit is the number of distinct batches of the manufacturer with a TRANSFER entry; minted and in_transit are at most total; one row per batch carrying its code and status label |
| Provenance.RepeatTransferCountsOnce | tracker/views.py:368-371 | a further TRANSFER of a batch already transferred leaves in_transit unchanged |
| Provenance.FirstTransferCountsOne | tracker/views.py:368-371 | the first TRANSFER of one of the manufacturer's batches raises in_transit by exactly one |
| Provenance.Entries | tracker/views.py:148-158 | one step per ledger entry of the batch, and a step is present iff some entry of the batch projects to it |
| Provenance.EntriesCount | tracker/views.py:148-158 | each step occurs exactly as often as the batch's ledger entries project to it |
| Provenance.EntriesAppend | tracker/views.py:148-158 | appending a ledger entry appends its step to its own batch's entries and leaves every other batch's unchanged, so the entries are in insertion order |
| Provenance.SortByTime | tracker/views.py:148 | the result is a permutation of the input, ordered by ascending timestamp |
| Provenance.SortByTimeStableAll | tracker/views.py:148 | steps with equal timestamps keep their ledger order |
| Provenance.Journey | tracker/views.py:148-158 | exactly one step per ledger entry of the batch, each step as often as the entries projecting to it, ascending by timestamp, each keeping the entry's type, from, to and hash, and ties in insertion order |
| Provenance.TrackJourney | tracker/views.py:144-176 | "Batch not found" iff no batch has the code; otherwise the reply carries the code, the medicine name and a journey with one step per entry of the batch, a permutation of its entries sorted by timestamp with ties in ledger order |
| Pharmacy.LineAt | tracker/views.py:276-284 | an incoming line carries the key of the entry's batch |
| Pharmacy.Collect | tracker/views.py:272-284 | collected lines have pairwise distinct batches, none already seen |
| Pharmacy.CollectTakesFirst | tracker/views.py:272-284 | every collected line comes from the first inbound TRANSFER for its batch |
| Pharmacy.CollectCovers | tracker/views.py:264-284 | every inbound TRANSFER of an unseen batch that is not in inventory gets a line |
| Pharmacy.IncomingTransfers | tracker/views.py:245-295 | an empty wallet is refused; pending_transfers equals the number of lines; one line per distinct batch transferred to the wallet and not in inventory, taken from its first such transfer |
| Lifecycle.DeliveredIsFinal | tracker/views.py:376-381 | a delivered batch stays delivered whatever is appended |
| Lifecycle.AcceptedTransferMovesBatch | tracker/views.py:220-226 | an accepted transfer of a minted, unreceived batch makes its status In Transit |
| Lifecycle.RefusedTransferKeepsStatuses | tracker/views.py:216-218 | a refused transfer changes no batch's status |
| Lifecycle.AcceptedTransferExtendsJourney | tracker/views.py:220-226 | an accepted transfer grows the batch's journey by exactly one step: the old steps are all kept and the only new one is the transfer itself |
| Lifecycle.AcceptedReceiptDelivers | tracker/views.py:335-343 | after an accepted receipt a minted batch is Delivered |
| Lifecycle.MintedBatchJourney | tracker/views.py:144-176 | a freshly minted batch has a one-step journey and status "Minted" |
| Lifecycle.ListedRecipientAccepted | tracker/views.py:197-226 | whatever the later answers, a recipient listed on the first attempt gets the transfer of BATCH-001 recorded after one query and no sleep |
| Lifecycle.DirectHolderTransfer | tracker/views.py:197-226 | with the recipient listed on the first attempt, the transfer is recorded after one query, the journey has two steps and the status is "In Transit" |
| Lifecycle.SharedStakeTransfer | tracker/views.py:200-215 | a recipient never listed, but sharing a stake address with the listed holder, is accepted after three queries, two sleeps and the re-fetch |
| Lifecycle.SharedStakeWithoutQuantity | tracker/views.py:209-215 | a shared-stake holder record without a quantity faults and leaves the store untouched |
| Lifecycle.ReceiptAfterTransferDelivers | tracker/views.py:376-381 | a RECEIVED entry makes the status "Delivered" although a TRANSFER entry exists |

## Left out

- Network access: the indexer client and its construction are replaced by scripted answers. Exceptions other than API errors inside the verifier are not modelled, and neither are holder records without an address.
- Sleeping: backoff is a counter. The debug output is dropped.
- HTTP status codes and response bodies: replies are `Created`, `NotFound` or `BadRequest` with the message text.
- The ORM: the store is a batch sequence and a ledger sequence, and the query order of entries is ledger order.
- A transfer request missing `batch_id`, `from_wallet` or `tx_hash`: request fields are always present strings. A malformed receipt batch id (a validation error, not "not found") is not modelled either.
- Receipts: pharmacy creation, the inventory upsert and the integer conversion of the quantity are left out. None of them touches the ledger or the batch.
- Orchestrator.ReceiveBatch: a failure inside the inventory upsert would refuse a receipt the model accepts.
- Receipt hashes: the random suffix of the hash is a parameter.
- Ledger timestamps are given, not read from a clock.
- Exception text: a stake-matched holder without a quantity, and several RECEIVED entries for one batch, refuse the request with a fixed message standing for the exception text.
- Orchestrator.TransferBatch: `queries` counts holder-list queries only; the address-info lookups of the fallback are not counted.
- Orchestrator.TransferBatch: missing TRANSFER fields and other unexpected exceptions are not modelled.
- Concurrency: the back-fill race and the gap between verification and write are not modelled; the model is sequential.
- Minting, medicine verification, pharmacy inventory listing, the cart and orders, authentication and seed data are not part of this model.
