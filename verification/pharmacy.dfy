/**
 The pharmacy dashboard's incoming list: batches transferred to the pharmacy's
 wallet that are not yet in its inventory, one line per batch, taken from the
 first such transfer in ledger order.
 */
module Pharmacy {
  import opened Wrappers
  import opened Ledger

  const WalletRequiredMessage: string := "wallet_address required"

  /** One incoming line: the batch's key, code and descriptive columns, and the
      sender and time of the transfer it was taken from. */
  datatype IncomingBatch = IncomingBatch(
    key: BatchKey,
    code: string,
    medicineName: string,
    composition: string,
    expiry: string,
    fromWallet: Option<string>,
    timestamp: nat)

  /** The incoming part of the pharmacy dashboard. */
  datatype IncomingView = IncomingView(pendingTransfers: nat, incoming: seq<IncomingBatch>)

  /** `t` is a TRANSFER to `wallet` of a batch not in `inventory`. */
  predicate Inbound(t: Tx, wallet: string, inventory: set<BatchKey>) {
    t.kind == Transfer && t.to == Some(wallet) && t.batch !in inventory
  }

  /** The incoming line for ledger entry `n`: the entry's batch columns, sender
      and time. (In a well-formed store the batch is always found; otherwise the
      descriptive columns are left blank.) */
  function LineAt(s: Store, n: nat): (line: IncomingBatch)
    requires n < |s.ledger|
    ensures line.key == s.ledger[n].batch
  {
    var t := s.ledger[n];
    match FindByKey(s.batches, t.batch)
    case Some(j) =>
      var b := s.batches[j];
      IncomingBatch(t.batch, b.code, b.medicineName, b.composition, b.expiry, t.from, t.timestamp)
    case None => IncomingBatch(t.batch, "", "", "", "", t.from, t.timestamp)
  }

  /** Entry `n` is the first inbound entry, from position `k` on, for its batch. */
  predicate FirstInboundFrom(ledger: seq<Tx>, wallet: string, inventory: set<BatchKey>, k: nat, n: nat)
    requires k <= n < |ledger|
  {
    && Inbound(ledger[n], wallet, inventory)
    && forall p :: k <= p < n ==> !(Inbound(ledger[p], wallet, inventory) && ledger[p].batch == ledger[n].batch)
  }

  /** `line` was taken from the first inbound entry for its batch at or after `k`. */
  predicate TakenFromFirst(s: Store, wallet: string, inventory: set<BatchKey>, k: nat, line: IncomingBatch) {
    exists n :: k <= n < |s.ledger| && FirstInboundFrom(s.ledger, wallet, inventory, k, n) && line == LineAt(s, n)
  }

  /** The lines from ledger position `k` on, skipping batches in `seen`. */
  function Collect(s: Store, wallet: string, inventory: set<BatchKey>, k: nat, seen: set<BatchKey>): (r: seq<IncomingBatch>)
    requires k <= |s.ledger|
    decreases |s.ledger| - k
    ensures forall i :: 0 <= i < |r| ==> r[i].key !in seen
    ensures forall i, j :: 0 <= i < j < |r| ==> r[i].key != r[j].key
  {
    if k == |s.ledger| then []
    else
      var t := s.ledger[k];
      if Inbound(t, wallet, inventory) && t.batch !in seen then
        [LineAt(s, k)] + Collect(s, wallet, inventory, k + 1, seen + {t.batch})
      else
        Collect(s, wallet, inventory, k + 1, seen)
  }

  /** A line taken from the first inbound entry from `k + 1` on is taken from the
      first one from `k` on, unless entry `k` is an inbound entry for the same batch. */
  lemma TakenFromFirstStep(s: Store, wallet: string, inventory: set<BatchKey>, k: nat, line: IncomingBatch)
    requires k < |s.ledger| && TakenFromFirst(s, wallet, inventory, k + 1, line)
    requires !(Inbound(s.ledger[k], wallet, inventory) && s.ledger[k].batch == line.key)
    ensures TakenFromFirst(s, wallet, inventory, k, line)
  {
    var n :| k + 1 <= n < |s.ledger| && FirstInboundFrom(s.ledger, wallet, inventory, k + 1, n) && line == LineAt(s, n);
    assert FirstInboundFrom(s.ledger, wallet, inventory, k, n);
  }

  /** Every collected line comes from the first inbound entry for its batch. */
  lemma {:induction false} CollectTakesFirst(s: Store, wallet: string, inventory: set<BatchKey>, k: nat, seen: set<BatchKey>)
    requires k <= |s.ledger|
    decreases |s.ledger| - k
    ensures forall i :: 0 <= i < |Collect(s, wallet, inventory, k, seen)| ==>
      TakenFromFirst(s, wallet, inventory, k, Collect(s, wallet, inventory, k, seen)[i])
  {
    if k < |s.ledger| {
      var t := s.ledger[k];
      var r := Collect(s, wallet, inventory, k, seen);
      if Inbound(t, wallet, inventory) && t.batch !in seen {
        var rest := Collect(s, wallet, inventory, k + 1, seen + {t.batch});
        CollectTakesFirst(s, wallet, inventory, k + 1, seen + {t.batch});
        assert r == [LineAt(s, k)] + rest;
        assert FirstInboundFrom(s.ledger, wallet, inventory, k, k);
        assert TakenFromFirst(s, wallet, inventory, k, r[0]);
        forall i | 1 <= i < |r| ensures TakenFromFirst(s, wallet, inventory, k, r[i]) {
          assert r[i] == rest[i - 1];
          TakenFromFirstStep(s, wallet, inventory, k, rest[i - 1]);
        }
      } else {
        CollectTakesFirst(s, wallet, inventory, k + 1, seen);
        forall i | 0 <= i < |r| ensures TakenFromFirst(s, wallet, inventory, k, r[i]) {
          TakenFromFirstStep(s, wallet, inventory, k, r[i]);
        }
      }
    }
  }

  /** Some line of `lines` is for batch `key`. */
  predicate HasLine(lines: seq<IncomingBatch>, key: BatchKey) {
    exists i :: 0 <= i < |lines| && lines[i].key == key
  }

  /** Every inbound entry's batch, unless already seen, gets a line. */
  lemma {:induction false} CollectCovers(s: Store, wallet: string, inventory: set<BatchKey>, k: nat, seen: set<BatchKey>)
    requires k <= |s.ledger|
    decreases |s.ledger| - k
    ensures forall n :: k <= n < |s.ledger| && Inbound(s.ledger[n], wallet, inventory) && s.ledger[n].batch !in seen ==>
      HasLine(Collect(s, wallet, inventory, k, seen), s.ledger[n].batch)
  {
    if k < |s.ledger| {
      var t := s.ledger[k];
      var r := Collect(s, wallet, inventory, k, seen);
      if Inbound(t, wallet, inventory) && t.batch !in seen {
        var rest := Collect(s, wallet, inventory, k + 1, seen + {t.batch});
        CollectCovers(s, wallet, inventory, k + 1, seen + {t.batch});
        assert r == [LineAt(s, k)] + rest;
        forall n | k <= n < |s.ledger| && Inbound(s.ledger[n], wallet, inventory) && s.ledger[n].batch !in seen
          ensures HasLine(r, s.ledger[n].batch)
        {
          if s.ledger[n].batch == t.batch {
            assert r[0].key == t.batch;
          } else {
            assert HasLine(rest, s.ledger[n].batch);
            var i :| 0 <= i < |rest| && rest[i].key == s.ledger[n].batch;
            assert r[i + 1] == rest[i];
          }
        }
      } else {
        CollectCovers(s, wallet, inventory, k + 1, seen);
        assert r == Collect(s, wallet, inventory, k + 1, seen);
      }
    }
  }

  /** The incoming list of the pharmacy at `wallet` whose inventory holds the
      batches `inventory` (empty when no pharmacy has that wallet). */
  function IncomingTransfers(s: Store, wallet: string, inventory: set<BatchKey>): (r: Result<IncomingView>)
    ensures r.Failure? <==> wallet == ""
    ensures r.Failure? ==> r.error == WalletRequiredMessage
    ensures r.Success? ==>
      var v := r.value;
      && v.pendingTransfers == |v.incoming|
      && (forall i, j :: 0 <= i < j < |v.incoming| ==> v.incoming[i].key != v.incoming[j].key)
      && (forall i :: 0 <= i < |v.incoming| ==> TakenFromFirst(s, wallet, inventory, 0, v.incoming[i]))
      && (forall n :: 0 <= n < |s.ledger| && Inbound(s.ledger[n], wallet, inventory) ==>
            HasLine(v.incoming, s.ledger[n].batch))
  {
    if wallet == "" then Failure(WalletRequiredMessage)
    else
      var lines := Collect(s, wallet, inventory, 0, {});
      CollectTakesFirst(s, wallet, inventory, 0, {});
      CollectCovers(s, wallet, inventory, 0, {});
      Success(IncomingView(|lines|, lines))
  }
}
