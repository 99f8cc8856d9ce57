/**
 The provenance reconstructor: everything here is derived from the batch table
 and the ledger on read, never stored. Batch status, the manufacturer
 dashboard, a batch's journey, and a pharmacy's incoming transfers.
 */
module Provenance {
  import opened Wrappers
  import opened Ledger

  /** A batch's lifecycle stage. */
  datatype Status = Pending | Minted | InTransit | Delivered

  /** The dashboard's text for a status. */
  function Label(s: Status): string {
    match s
    case Pending => "Pending"
    case Minted => "Minted"
    case InTransit => "In Transit"
    case Delivered => "Delivered"
  }

  /** The status of `b`: unminted is pending; otherwise a receipt means delivered,
      checked before transfers; otherwise a transfer means in transit. */
  function StatusOf(b: Batch, ledger: seq<Tx>): (s: Status)
    ensures s == Pending <==> !b.minted
    ensures s == Delivered <==> b.minted && Received in KindsOf(ledger, b.key)
    ensures s == InTransit <==> b.minted && Received !in KindsOf(ledger, b.key) && Transfer in KindsOf(ledger, b.key)
    ensures s == Minted <==> b.minted && Received !in KindsOf(ledger, b.key) && Transfer !in KindsOf(ledger, b.key)
  {
    if !b.minted then Pending
    else if exists i :: 0 <= i < |ledger| && ledger[i].batch == b.key && ledger[i].kind == Received then Delivered
    else if CountKind(ledger, b.key, Transfer) > 0 then InTransit
    else Minted
  }

  /** SOLD and MINT entries, for any batch, never change a status. */
  lemma StatusIgnoresSoldAndMint(b: Batch, ledger: seq<Tx>, t: Tx)
    requires t.kind == Sold || t.kind == Mint
    ensures StatusOf(b, ledger + [t]) == StatusOf(b, ledger)
  {
    KindsOfAppend(ledger, t, b.key);
  }

  // ---------------------------------------------------------------------------
  // Manufacturer dashboard

  /** One batch line of the manufacturer dashboard. */
  datatype BatchRow = BatchRow(
    code: string,
    medicineName: string,
    composition: string,
    expiry: string,
    status: string,
    policyId: Option<string>,
    assetName: Option<string>)

  /** The manufacturer dashboard: counts and one line per batch. */
  datatype Dashboard = Dashboard(totalBatches: nat, minted: nat, inTransit: nat, rows: seq<BatchRow>)

  const ManufacturerRequiredMessage: string := "manufacturer_id required"

  /** The batches of manufacturer `m`, in table order. */
  function MadeBy(batches: seq<Batch>, m: string): (mine: seq<Batch>)
    ensures |mine| <= |batches|
    ensures forall b :: b in mine <==> b in batches && b.manufacturer == m
    ensures forall b :: multiset(mine)[b] == if b.manufacturer == m then multiset(batches)[b] else 0
    ensures |mine| == |set i | 0 <= i < |batches| && batches[i].manufacturer == m|
  {
    if |batches| == 0 then []
    else
      var init := batches[..|batches| - 1];
      var last := batches[|batches| - 1];
      assert batches == init + [last];
      assert (set i | 0 <= i < |batches| && batches[i].manufacturer == m)
          == (set i | 0 <= i < |init| && init[i].manufacturer == m)
             + (if last.manufacturer == m then {|init|} else {});
      MadeBy(init, m) + (if last.manufacturer == m then [last] else [])
  }

  /** How many of `bs` are minted. */
  function CountMinted(bs: seq<Batch>): (n: nat)
    ensures n <= |bs|
    ensures n == 0 <==> forall i :: 0 <= i < |bs| ==> !bs[i].minted
    ensures n == |set i | 0 <= i < |bs| && bs[i].minted|
  {
    if |bs| == 0 then 0
    else
      var init := bs[..|bs| - 1];
      var last := bs[|bs| - 1];
      assert forall i :: 0 <= i < |init| ==> init[i] == bs[i];
      assert (set i | 0 <= i < |bs| && bs[i].minted)
          == (set i | 0 <= i < |init| && init[i].minted) + (if last.minted then {|init|} else {});
      CountMinted(init) + (if last.minted then 1 else 0)
  }

  /** The keys of `bs`. */
  function KeysOf(bs: seq<Batch>): set<BatchKey> {
    set i | 0 <= i < |bs| :: bs[i].key
  }

  /** A sequence of batches has no more distinct keys than rows. */
  lemma {:induction false} KeysOfSize(bs: seq<Batch>)
    ensures |KeysOf(bs)| <= |bs|
  {
    if |bs| > 0 {
      var init := bs[..|bs| - 1];
      KeysOfSize(init);
      assert KeysOf(bs) == KeysOf(init) + {bs[|bs| - 1].key} by {
        forall k | k in KeysOf(bs) ensures k in KeysOf(init) + {bs[|bs| - 1].key} {
          var i :| 0 <= i < |bs| && bs[i].key == k;
          if i < |init| { assert init[i] == bs[i]; }
        }
        forall k | k in KeysOf(init) ensures k in KeysOf(bs) {
          var i :| 0 <= i < |init| && init[i].key == k;
          assert bs[i] == init[i];
        }
      }
    }
  }

  /** The distinct batches, among `keys`, with at least one TRANSFER entry. */
  function TransferredKeys(ledger: seq<Tx>, keys: set<BatchKey>): (r: set<BatchKey>)
    ensures r <= keys
  {
    set i | 0 <= i < |ledger| && ledger[i].kind == Transfer && ledger[i].batch in keys :: ledger[i].batch
  }

  /** Appending an entry adds its batch to the transferred set exactly when it is
      a TRANSFER of one of `keys`. */
  lemma {:induction false} TransferredKeysAppend(ledger: seq<Tx>, t: Tx, keys: set<BatchKey>)
    ensures TransferredKeys(ledger + [t], keys)
         == TransferredKeys(ledger, keys) + (if t.kind == Transfer && t.batch in keys then {t.batch} else {})
  {
    var l := ledger + [t];
    forall k | k in TransferredKeys(l, keys)
      ensures k in TransferredKeys(ledger, keys) + (if t.kind == Transfer && t.batch in keys then {t.batch} else {})
    {
      var i :| 0 <= i < |l| && l[i].kind == Transfer && l[i].batch in keys && l[i].batch == k;
      if i < |ledger| { assert ledger[i] == l[i]; }
    }
    forall k | k in TransferredKeys(ledger, keys) ensures k in TransferredKeys(l, keys) {
      var i :| 0 <= i < |ledger| && ledger[i].kind == Transfer && ledger[i].batch in keys && ledger[i].batch == k;
      assert l[i] == ledger[i];
    }
    if t.kind == Transfer && t.batch in keys {
      assert l[|ledger|] == t;
    }
  }

  /** The ledger-side distinct count equals the batch-side one: the keys of the
      batches in `bs` that have a TRANSFER entry. */
  lemma TransferredKeysAreTransferredBatches(ledger: seq<Tx>, bs: seq<Batch>)
    ensures TransferredKeys(ledger, KeysOf(bs))
         == set i | 0 <= i < |bs| && Transfer in KindsOf(ledger, bs[i].key) :: bs[i].key
  {
    var right := set i | 0 <= i < |bs| && Transfer in KindsOf(ledger, bs[i].key) :: bs[i].key;
    forall k | k in TransferredKeys(ledger, KeysOf(bs)) ensures k in right {
      var n :| 0 <= n < |ledger| && ledger[n].kind == Transfer && ledger[n].batch in KeysOf(bs) && ledger[n].batch == k;
      var i :| 0 <= i < |bs| && bs[i].key == k;
      assert Transfer in KindsOf(ledger, bs[i].key);
    }
    forall k | k in right ensures k in TransferredKeys(ledger, KeysOf(bs)) {
      var i :| 0 <= i < |bs| && Transfer in KindsOf(ledger, bs[i].key) && bs[i].key == k;
      var n :| 0 <= n < |ledger| && ledger[n].batch == k && ledger[n].kind == Transfer;
      assert k in KeysOf(bs);
    }
  }

  /** The dashboard line of `b`. */
  function RowOf(b: Batch, ledger: seq<Tx>): BatchRow {
    BatchRow(b.code, b.medicineName, b.composition, b.expiry, Label(StatusOf(b, ledger)), b.policyId, b.assetName)
  }

  /** The dashboard of manufacturer `m`; an empty id is a client error. */
  function DashboardStats(s: Store, m: string): (r: Result<Dashboard>)
    ensures r.Failure? <==> m == ""
    ensures r.Failure? ==> r.error == ManufacturerRequiredMessage
    ensures r.Success? ==>
      var mine := MadeBy(s.batches, m);
      var d := r.value;
      && d.totalBatches == |mine|
      && d.minted <= d.totalBatches
      && d.minted == |set i | 0 <= i < |mine| && mine[i].minted|
      && d.totalBatches == |set i | 0 <= i < |s.batches| && s.batches[i].manufacturer == m|
      && d.inTransit <= d.totalBatches
      && d.inTransit == |set i | 0 <= i < |mine| && Transfer in KindsOf(s.ledger, mine[i].key) :: mine[i].key|
      && |d.rows| == d.totalBatches
      && (forall i :: 0 <= i < |d.rows| ==>
            d.rows[i].code == mine[i].code && d.rows[i].status == Label(StatusOf(mine[i], s.ledger)))
  {
    if m == "" then Failure(ManufacturerRequiredMessage)
    else
      var mine := MadeBy(s.batches, m);
      var moving := TransferredKeys(s.ledger, KeysOf(mine));
      KeysOfSize(mine);
      assert |moving| <= |KeysOf(mine)| by { SubsetSize(moving, KeysOf(mine)); }
      TransferredKeysAreTransferredBatches(s.ledger, mine);
      Success(Dashboard(|mine|, CountMinted(mine), |moving|,
                        seq(|mine|, i requires 0 <= i < |mine| => RowOf(mine[i], s.ledger))))
  }

  /** A subset is no larger. */
  lemma SubsetSize<T>(a: set<T>, b: set<T>)
    requires a <= b
    ensures |a| <= |b|
  {
    assert b == a + (b - a);
  }

  /** A batch already in transit that is transferred again still counts once. */
  lemma RepeatTransferCountsOnce(s: Store, m: string, t: Tx)
    requires m != "" && t.kind == Transfer
    requires Transfer in KindsOf(s.ledger, t.batch)
    ensures DashboardStats(Append(s, t), m).value.inTransit == DashboardStats(s, m).value.inTransit
  {
    var keys := KeysOf(MadeBy(s.batches, m));
    TransferredKeysAppend(s.ledger, t, keys);
    var n :| 0 <= n < |s.ledger| && s.ledger[n].batch == t.batch && s.ledger[n].kind == Transfer;
    if t.batch in keys {
      assert t.batch in TransferredKeys(s.ledger, keys);
    }
    assert TransferredKeys(s.ledger + [t], keys) == TransferredKeys(s.ledger, keys);
  }

  /** The first transfer of one of `m`'s batches raises the count by exactly one. */
  lemma FirstTransferCountsOne(s: Store, m: string, t: Tx)
    requires m != "" && t.kind == Transfer
    requires exists i :: 0 <= i < |s.batches| && s.batches[i].key == t.batch && s.batches[i].manufacturer == m
    requires Transfer !in KindsOf(s.ledger, t.batch)
    ensures DashboardStats(Append(s, t), m).value.inTransit == DashboardStats(s, m).value.inTransit + 1
  {
    var mine := MadeBy(s.batches, m);
    var keys := KeysOf(mine);
    var i :| 0 <= i < |s.batches| && s.batches[i].key == t.batch && s.batches[i].manufacturer == m;
    assert s.batches[i] in mine;
    var j :| 0 <= j < |mine| && mine[j] == s.batches[i];
    assert t.batch in keys;
    TransferredKeysAppend(s.ledger, t, keys);
    assert t.batch !in TransferredKeys(s.ledger, keys);
    assert TransferredKeys(s.ledger + [t], keys) == TransferredKeys(s.ledger, keys) + {t.batch};
  }

  // ---------------------------------------------------------------------------
  // Journey

  /** One journey step: a ledger entry without its batch reference. */
  datatype Step = Step(kind: TxKind, from: Option<string>, to: Option<string>, timestamp: nat, hash: string)

  function StepOf(t: Tx): Step {
    Step(t.kind, t.from, t.to, t.timestamp, t.hash)
  }

  /** The positions of batch `key`'s entries in the ledger. */
  function EntryIndices(ledger: seq<Tx>, key: BatchKey): set<nat> {
    set i: nat | i < |ledger| && ledger[i].batch == key
  }

  /** The positions after one append: the old ones, plus the new one if it is the batch's. */
  lemma EntryIndicesAppend(ledger: seq<Tx>, t: Tx, key: BatchKey)
    ensures EntryIndices(ledger + [t], key)
         == EntryIndices(ledger, key) + (if t.batch == key then {|ledger|} else {})
    ensures |ledger| !in EntryIndices(ledger, key)
  {
    var l := ledger + [t];
    forall i: nat | i < |ledger| ensures l[i] == ledger[i] { }
  }

  /** The positions of batch `key`'s entries that project to step `st`. */
  function StepIndices(ledger: seq<Tx>, key: BatchKey, st: Step): set<nat> {
    set i: nat | i < |ledger| && ledger[i].batch == key && StepOf(ledger[i]) == st
  }

  /** The positions projecting to each step after one append: the old ones, plus
      the new one if it is the batch's and projects to that step. */
  lemma StepIndicesAppend(ledger: seq<Tx>, t: Tx, key: BatchKey)
    ensures forall st ::
      StepIndices(ledger + [t], key, st)
      == StepIndices(ledger, key, st) + (if t.batch == key && StepOf(t) == st then {|ledger|} else {})
    ensures forall st :: |ledger| !in StepIndices(ledger, key, st)
  {
    var l := ledger + [t];
    forall i: nat | i < |ledger| ensures l[i] == ledger[i] { }
  }

  /** Batch `key`'s entries as steps, in ledger (insertion) order. */
  function Entries(ledger: seq<Tx>, key: BatchKey): (e: seq<Step>)
    ensures |e| == |EntryIndices(ledger, key)|
    ensures forall st :: st in e <==> exists i :: 0 <= i < |ledger| && ledger[i].batch == key && StepOf(ledger[i]) == st
  {
    if |ledger| == 0 then
      assert EntryIndices(ledger, key) == {};
      []
    else
      var init := ledger[..|ledger| - 1];
      var last := ledger[|ledger| - 1];
      assert ledger == init + [last];
      EntryIndicesAppend(init, last, key);
      Entries(init, key) + (if last.batch == key then [StepOf(last)] else [])
  }

  /** Each step occurs in the entries as often as the batch's ledger entries project to it. */
  lemma {:induction false} EntriesCount(ledger: seq<Tx>, key: BatchKey)
    ensures forall st :: multiset(Entries(ledger, key))[st] == |StepIndices(ledger, key, st)|
  {
    if |ledger| > 0 {
      var init := ledger[..|ledger| - 1];
      var last := ledger[|ledger| - 1];
      assert ledger == init + [last];
      EntriesCount(init, key);
      StepIndicesAppend(init, last, key);
      assert Entries(ledger, key) == Entries(init, key) + (if last.batch == key then [StepOf(last)] else []);
    } else {
      forall st ensures StepIndices(ledger, key, st) == {} { }
    }
  }

  /** Appending an entry appends its step to its own batch's entries and to no
      other batch's: the entries keep ledger order. */
  lemma EntriesAppend(ledger: seq<Tx>, t: Tx, key: BatchKey)
    ensures Entries(ledger + [t], key) == Entries(ledger, key) + (if t.batch == key then [StepOf(t)] else [])
  {
    assert (ledger + [t])[..|ledger|] == ledger;
  }

  /** Timestamps never decrease along `s`. */
  predicate Sorted(s: seq<Step>) {
    forall i, j :: 0 <= i < j < |s| ==> s[i].timestamp <= s[j].timestamp
  }

  /** The steps of `s` stamped `t`, in order. */
  function AtTime(s: seq<Step>, t: nat): seq<Step> {
    if |s| == 0 then []
    else (if s[0].timestamp == t then [s[0]] else []) + AtTime(s[1..], t)
  }

  /** `x` placed into `s` before the first step not earlier than it. */
  function Insert(x: Step, s: seq<Step>): (r: seq<Step>)
    ensures |r| == |s| + 1
    ensures multiset(r) == multiset(s) + multiset{x}
  {
    if |s| == 0 || x.timestamp <= s[0].timestamp then
      [x] + s
    else
      assert s == [s[0]] + s[1..];
      [s[0]] + Insert(x, s[1..])
  }

  /** Insertion into a sorted sequence keeps it sorted. */
  lemma {:induction false} InsertSorted(x: Step, s: seq<Step>)
    requires Sorted(s)
    ensures Sorted(Insert(x, s))
  {
    if |s| > 0 && x.timestamp > s[0].timestamp {
      var tail := s[1..];
      var rest := Insert(x, tail);
      InsertSorted(x, tail);
      forall j | 0 <= j < |rest| ensures s[0].timestamp <= rest[j].timestamp {
        assert rest[j] in multiset(rest);
        if rest[j] != x {
          assert rest[j] in multiset(tail);
          var k :| 0 <= k < |tail| && tail[k] == rest[j];
          assert s[k + 1] == tail[k];
        }
      }
      assert Insert(x, s) == [s[0]] + rest;
    }
  }

  /** Insertion is stable: `x` goes before every step stamped like it. */
  lemma {:induction false} InsertAtTime(x: Step, s: seq<Step>, t: nat)
    ensures AtTime(Insert(x, s), t) == if x.timestamp == t then [x] + AtTime(s, t) else AtTime(s, t)
  {
    if |s| == 0 || x.timestamp <= s[0].timestamp {
      assert ([x] + s)[1..] == s;
    } else {
      var rest := Insert(x, s[1..]);
      InsertAtTime(x, s[1..], t);
      assert ([s[0]] + rest)[1..] == rest;
    }
  }

  /** A sort by timestamp, by insertion from the back. */
  function SortByTime(s: seq<Step>): (r: seq<Step>)
    ensures |r| == |s|
    ensures multiset(r) == multiset(s)
    ensures Sorted(r)
  {
    if |s| == 0 then []
    else
      assert s == [s[0]] + s[1..];
      InsertSorted(s[0], SortByTime(s[1..]));
      Insert(s[0], SortByTime(s[1..]))
  }

  /** The sort is stable: entries stamped alike keep their order. */
  lemma {:induction false} SortByTimeStable(s: seq<Step>, t: nat)
    ensures AtTime(SortByTime(s), t) == AtTime(s, t)
  {
    if |s| > 0 {
      SortByTimeStable(s[1..], t);
      InsertAtTime(s[0], SortByTime(s[1..]), t);
    }
  }

  /** Stability at every timestamp. */
  lemma SortByTimeStableAll(s: seq<Step>)
    ensures forall t :: AtTime(SortByTime(s), t) == AtTime(s, t)
  {
    forall t { SortByTimeStable(s, t); }
  }

  /** Batch `key`'s journey: one step per ledger entry of the batch, ordered by
      timestamp, entries stamped alike in insertion order. */
  function Journey(ledger: seq<Tx>, key: BatchKey): (j: seq<Step>)
    ensures |j| == |EntryIndices(ledger, key)|
    ensures Sorted(j)
    ensures multiset(j) == multiset(Entries(ledger, key))
    ensures forall st :: multiset(j)[st] == |StepIndices(ledger, key, st)|
    ensures forall st :: st in j <==> exists i :: 0 <= i < |ledger| && ledger[i].batch == key && StepOf(ledger[i]) == st
    ensures forall t :: AtTime(j, t) == AtTime(Entries(ledger, key), t)
  {
    var e := Entries(ledger, key);
    var j := SortByTime(e);
    SortByTimeStableAll(e);
    EntriesCount(ledger, key);
    assert forall st :: st in j <==> st in multiset(j);
    assert forall st :: st in e <==> st in multiset(e);
    j
  }

  /** The journey reply: the batch's code, medicine name and journey. */
  datatype JourneyView = JourneyView(batchCode: string, medicineName: string, journey: seq<Step>)

  /** The journey of the batch with code `code`, or "Batch not found". */
  function TrackJourney(s: Store, code: string): (r: Result<JourneyView>)
    ensures r.Failure? <==> FindByCode(s.batches, code).None?
    ensures r.Failure? ==> r.error == "Batch not found"
    ensures r.Success? ==>
      var b := s.batches[FindByCode(s.batches, code).value];
      && r.value.batchCode == code
      && r.value.medicineName == b.medicineName
      && |r.value.journey| == |EntryIndices(s.ledger, b.key)|
      && Sorted(r.value.journey)
      && multiset(r.value.journey) == multiset(Entries(s.ledger, b.key))
      && (forall t :: AtTime(r.value.journey, t) == AtTime(Entries(s.ledger, b.key), t))
  {
    match FindByCode(s.batches, code)
    case None => Failure("Batch not found")
    case Some(i) => Success(JourneyView(code, s.batches[i].medicineName, Journey(s.ledger, s.batches[i].key)))
  }
}
