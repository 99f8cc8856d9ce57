/**
 The batch table and the append-only transaction ledger. A ledger entry
 refers to its batch by the batch's primary key; the ledger's sequence order
 is insertion order.
 */
module Ledger {
  import opened Wrappers

  /** A batch's primary key (the database id, distinct from its human-readable code). */
  type BatchKey = string

  /** The four custody events a ledger entry can record. */
  datatype TxKind = Mint | Transfer | Received | Sold

  /** One immutable ledger entry. */
  datatype Tx = Tx(
    batch: BatchKey,
    kind: TxKind,
    from: Option<string>,
    to: Option<string>,
    hash: string,
    timestamp: nat)

  /** One manufactured lot: its key, its human-readable code, the descriptive
      columns the dashboards show, the on-chain token identifiers (back-fillable)
      and the minted flag. */
  datatype Batch = Batch(
    key: BatchKey,
    code: string,
    medicineName: string,
    composition: string,
    expiry: string,
    manufacturer: string,
    policyId: Option<string>,
    assetName: Option<string>,
    minted: bool)

  /** The persistent state the core reads and writes. */
  datatype Store = Store(batches: seq<Batch>, ledger: seq<Tx>)

  /** Keys and codes are unique, and every ledger entry refers to a stored batch. */
  predicate WellFormed(s: Store) {
    && (forall i, j :: 0 <= i < j < |s.batches| ==> s.batches[i].key != s.batches[j].key)
    && (forall i, j :: 0 <= i < j < |s.batches| ==> s.batches[i].code != s.batches[j].code)
    && (forall t :: t in s.ledger ==> exists i :: 0 <= i < |s.batches| && s.batches[i].key == t.batch)
  }

  /** The position of the batch whose code is `code`. */
  function FindByCode(batches: seq<Batch>, code: string): (m: Option<nat>)
    ensures m.Some? ==> m.value < |batches| && batches[m.value].code == code
    ensures m.Some? ==> forall j :: 0 <= j < m.value ==> batches[j].code != code
    ensures m.None? <==> forall j :: 0 <= j < |batches| ==> batches[j].code != code
  {
    FirstIndex(batches, (b: Batch) => b.code == code)
  }

  /** The position of the batch whose primary key is `key`. */
  function FindByKey(batches: seq<Batch>, key: BatchKey): (m: Option<nat>)
    ensures m.Some? ==> m.value < |batches| && batches[m.value].key == key
    ensures m.Some? ==> forall j :: 0 <= j < m.value ==> batches[j].key != key
    ensures m.None? <==> forall j :: 0 <= j < |batches| ==> batches[j].key != key
  {
    FirstIndex(batches, (b: Batch) => b.key == key)
  }

  /** The number of `kind` entries recorded against batch `key`. */
  function CountKind(ledger: seq<Tx>, key: BatchKey, kind: TxKind): (n: nat)
    ensures n <= |ledger|
    ensures n > 0 <==> exists i :: 0 <= i < |ledger| && ledger[i].batch == key && ledger[i].kind == kind
  {
    if |ledger| == 0 then 0
    else
      var init := ledger[..|ledger| - 1];
      var last := ledger[|ledger| - 1];
      assert forall i :: 0 <= i < |init| ==> init[i] == ledger[i];
      CountKind(init, key, kind) + (if last.batch == key && last.kind == kind then 1 else 0)
  }

  /** The set of event kinds recorded against batch `key`. */
  function KindsOf(ledger: seq<Tx>, key: BatchKey): set<TxKind> {
    set i | 0 <= i < |ledger| && ledger[i].batch == key :: ledger[i].kind
  }

  /** Appending one entry bumps exactly the count it belongs to. */
  lemma CountKindAppend(ledger: seq<Tx>, t: Tx, key: BatchKey, kind: TxKind)
    ensures CountKind(ledger + [t], key, kind)
         == CountKind(ledger, key, kind) + (if t.batch == key && t.kind == kind then 1 else 0)
  {
    assert (ledger + [t])[..|ledger|] == ledger;
  }

  /** Appending one entry adds its kind to its own batch's kinds and to no other. */
  lemma {:induction false} KindsOfAppend(ledger: seq<Tx>, t: Tx, key: BatchKey)
    ensures KindsOf(ledger + [t], key) == KindsOf(ledger, key) + (if t.batch == key then {t.kind} else {})
  {
    var l := ledger + [t];
    forall k | k in KindsOf(l, key)
      ensures k in KindsOf(ledger, key) + (if t.batch == key then {t.kind} else {})
    {
      var i :| 0 <= i < |l| && l[i].batch == key && l[i].kind == k;
      if i < |ledger| {
        assert ledger[i] == l[i];
      }
    }
    forall k | k in KindsOf(ledger, key)
      ensures k in KindsOf(l, key)
    {
      var i :| 0 <= i < |ledger| && ledger[i].batch == key && ledger[i].kind == k;
      assert l[i] == ledger[i];
    }
    if t.batch == key {
      assert l[|ledger|] == t;
    }
  }

  /** The store with batch row `i` replaced by `b`. */
  function WithBatch(s: Store, i: nat, b: Batch): Store
    requires i < |s.batches|
  {
    s.(batches := s.batches[i := b])
  }

  /** The store with `t` appended to the ledger. */
  function Append(s: Store, t: Tx): Store {
    s.(ledger := s.ledger + [t])
  }

  /** Replacing a batch by one with the same key and code, and appending an
      entry that refers to a stored batch, keep the store well formed. */
  lemma UpdateAppendWellFormed(s: Store, i: nat, b: Batch, t: Tx)
    requires WellFormed(s) && i < |s.batches|
    requires b.key == s.batches[i].key && b.code == s.batches[i].code
    requires t.batch == b.key
    ensures WellFormed(WithBatch(s, i, b))
    ensures WellFormed(Append(WithBatch(s, i, b), t))
  {
    var s' := WithBatch(s, i, b);
    forall u | u in s'.ledger
      ensures exists j :: 0 <= j < |s'.batches| && s'.batches[j].key == u.batch
    {
      var j :| 0 <= j < |s.batches| && s.batches[j].key == u.batch;
      assert s'.batches[j].key == u.batch;
    }
    assert s'.batches[i].key == t.batch;
  }

  /** Appending an entry that refers to a stored batch keeps the store well formed. */
  lemma AppendWellFormed(s: Store, t: Tx, i: nat)
    requires WellFormed(s) && i < |s.batches| && s.batches[i].key == t.batch
    ensures WellFormed(Append(s, t))
  {
  }

  /** Replacing the batch found by code with one of the same code leaves it found there. */
  lemma FindByCodeAfterUpdate(batches: seq<Batch>, i: nat, b: Batch)
    requires i < |batches| && FindByCode(batches, b.code) == Some(i)
    ensures FindByCode(batches[i := b], b.code) == Some(i)
  {
    assert batches[i := b][i].code == b.code;
  }
}
