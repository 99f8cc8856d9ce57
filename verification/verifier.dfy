/**
 The custody verifier: does a wallet currently hold the asset? A bounded retry
 loop over the indexer's holder list, matching the wallet address exactly, with
 a backoff between attempts. The backoff is counted, not slept.
 */
module Verifier {
  import opened Wrappers
  import opened Oracle

  /** The attempt budget of one verification. */
  const MaxAttempts: nat := 3

  /** The quantity reported when the matching holder record carries none. */
  const DefaultQuantity: string := "1"

  /** The three replies of a verification: held with a quantity, checked and
      absent, or could not check. */
  datatype Verification =
    | Held(quantity: string)
    | Absent
    | Unchecked(error: string)
  {
    /** The reply's success flag. */
    predicate Success() { !Unchecked? }

    /** The reply's has-asset flag; missing counts as false. */
    predicate HasAsset() { Held? }
  }

  /** A verification together with the asset ids it asked the indexer for, in
      order, and the number of backoff sleeps it took. */
  datatype Run = Run(outcome: Verification, asked: seq<string>, sleeps: nat)

  /** Some holder in `hs` sits at exactly `wallet`. */
  predicate ListsAt(hs: seq<Holder>, wallet: string) {
    exists i :: 0 <= i < |hs| && hs[i].address == wallet
  }

  /** The answer is a response whose normalised holders include `wallet`. */
  predicate Lists(a: Answer<Response>, wallet: string) {
    a.Ok? && ListsAt(Normalise(a.value), wallet)
  }

  /** The first holder in `hs` at exactly `wallet` reports quantity `q`
      (or has none and `q` is the default). */
  predicate FirstQuantity(hs: seq<Holder>, wallet: string, q: string) {
    exists i :: 0 <= i < |hs| && hs[i].address == wallet
      && (forall j :: 0 <= j < i ==> hs[j].address != wallet)
      && q == hs[i].quantity.GetOr(DefaultQuantity)
  }

  /** The position of the first holder at exactly `wallet` (case-sensitive). */
  function FirstHolderAt(hs: seq<Holder>, wallet: string): (m: Option<nat>)
    ensures m.Some? ==> m.value < |hs| && hs[m.value].address == wallet
    ensures m.Some? ==> forall j :: 0 <= j < m.value ==> hs[j].address != wallet
    ensures m.None? <==> !ListsAt(hs, wallet)
  {
    if |hs| == 0 then None
    else if hs[0].address == wallet then Some(0)
    else match FirstHolderAt(hs[1..], wallet)
      case None =>
        assert forall j :: 1 <= j < |hs| ==> hs[j] == hs[1..][j - 1];
        None
      case Some(k) => Some(k + 1)
  }

  /** Attempt `k` was not the last: it was asked, then a backoff sleep, then the rest. */
  function Retry(id: string, rest: Run): Run {
    Run(rest.outcome, [id] + rest.asked, rest.sleeps + 1)
  }

  /** Attempts `k` onwards of the loop, attempt `k` answered by `answers[k]`. An
      API error or a miss on a non-final attempt backs off and retries; a match
      returns at once; on the final attempt an API error is surfaced and a miss
      reports the asset absent. */
  function Attempts(wallet: string, id: string, answers: seq<Answer<Response>>, k: nat): (r: Run)
    requires |answers| == MaxAttempts && k < MaxAttempts
    decreases MaxAttempts - k
    ensures 1 <= |r.asked| <= MaxAttempts - k
    ensures r.sleeps == |r.asked| - 1
    ensures forall i :: 0 <= i < |r.asked| ==> r.asked[i] == id
    ensures r.outcome.Held? <==> exists j :: k <= j < MaxAttempts && Lists(answers[j], wallet)
    ensures r.outcome.Held? ==>
      && Lists(answers[k + |r.asked| - 1], wallet)
      && (forall j :: k <= j < k + |r.asked| - 1 ==> !Lists(answers[j], wallet))
      && FirstQuantity(Normalise(answers[k + |r.asked| - 1].value), wallet, r.outcome.quantity)
    ensures !r.outcome.Held? ==> |r.asked| == MaxAttempts - k
    ensures r.outcome.Unchecked? <==> answers[MaxAttempts - 1].ApiError? && !r.outcome.Held?
    ensures r.outcome.Unchecked? ==> r.outcome.error == answers[MaxAttempts - 1].message
  {
    var last := k == MaxAttempts - 1;
    match Normalised(answers[k])
    case ApiError(e) =>
      if last then Run(Unchecked(e), [id], 0)
      else Retry(id, Attempts(wallet, id, answers, k + 1))
    case Ok(hs) =>
      match FirstHolderAt(hs, wallet)
      case Some(i) =>
        assert FirstQuantity(hs, wallet, hs[i].quantity.GetOr(DefaultQuantity));
        Run(Held(hs[i].quantity.GetOr(DefaultQuantity)), [id], 0)
      case None =>
        if last then Run(Absent, [id], 0)
        else Retry(id, Attempts(wallet, id, answers, k + 1))
  }

  /** Does `wallet` hold the asset `policy`+`asset`? `answers[k]` is what the
      indexer answers to attempt `k + 1`. */
  function Verify(wallet: string, policy: string, asset: string, answers: seq<Answer<Response>>): (r: Run)
    requires |answers| == MaxAttempts
    ensures 1 <= |r.asked| <= MaxAttempts
    ensures r.sleeps == |r.asked| - 1
    ensures forall i :: 0 <= i < |r.asked| ==> r.asked[i] == policy + asset
    ensures r.outcome.HasAsset() <==> exists j :: 0 <= j < MaxAttempts && Lists(answers[j], wallet)
    ensures r.outcome.HasAsset() ==>
      && Lists(answers[|r.asked| - 1], wallet)
      && (forall j :: 0 <= j < |r.asked| - 1 ==> !Lists(answers[j], wallet))
      && FirstQuantity(Normalise(answers[|r.asked| - 1].value), wallet, r.outcome.quantity)
    ensures !r.outcome.HasAsset() ==> |r.asked| == MaxAttempts && r.sleeps == MaxAttempts - 1
    ensures !r.outcome.Success() <==> answers[MaxAttempts - 1].ApiError? && !r.outcome.HasAsset()
    ensures !r.outcome.Success() ==> r.outcome == Unchecked(answers[MaxAttempts - 1].message)
  {
    Attempts(wallet, AssetId(policy, asset), answers, 0)
  }

  /** Two scripts whose answers normalise alike from attempt `k` on give the same run. */
  lemma {:induction false} SameHoldersSameRun(wallet: string, id: string, a1: seq<Answer<Response>>, a2: seq<Answer<Response>>, k: nat)
    requires |a1| == MaxAttempts && |a2| == MaxAttempts && k < MaxAttempts
    requires forall j :: k <= j < MaxAttempts ==> Normalised(a1[j]) == Normalised(a2[j])
    ensures Attempts(wallet, id, a1, k) == Attempts(wallet, id, a2, k)
    decreases MaxAttempts - k
  {
    assert Normalised(a1[k]) == Normalised(a2[k]);
    if k < MaxAttempts - 1 {
      SameHoldersSameRun(wallet, id, a1, a2, k + 1);
      assert Attempts(wallet, id, a1, k + 1) == Attempts(wallet, id, a2, k + 1);
    }
  }

  /** A lone holder record is treated exactly like a one-element holder list. */
  lemma SingleRecordIsOneElementList(wallet: string, policy: string, asset: string, answers: seq<Answer<Response>>, i: nat, h: Holder)
    requires |answers| == MaxAttempts && i < MaxAttempts
    ensures Verify(wallet, policy, asset, answers[i := Ok(SingleRecord(h))])
         == Verify(wallet, policy, asset, answers[i := Ok(HolderList([h]))])
  {
    SameHoldersSameRun(wallet, AssetId(policy, asset),
      answers[i := Ok(SingleRecord(h))], answers[i := Ok(HolderList([h]))], 0);
  }

  /** An unrecognised response is treated exactly like an empty holder list. */
  lemma UnrecognizedIsEmptyList(wallet: string, policy: string, asset: string, answers: seq<Answer<Response>>, i: nat)
    requires |answers| == MaxAttempts && i < MaxAttempts
    ensures Verify(wallet, policy, asset, answers[i := Ok(Unrecognized)])
         == Verify(wallet, policy, asset, answers[i := Ok(HolderList([]))])
  {
    SameHoldersSameRun(wallet, AssetId(policy, asset),
      answers[i := Ok(Unrecognized)], answers[i := Ok(HolderList([]))], 0);
  }

  /** From attempt `k` on, an API error on non-final attempt `i` behaves like an
      empty holder list there. */
  lemma {:induction false} ErrorLikeMissFrom(wallet: string, id: string, answers: seq<Answer<Response>>, i: nat, k: nat)
    requires |answers| == MaxAttempts && k <= i < MaxAttempts - 1 && answers[i].ApiError?
    ensures Attempts(wallet, id, answers, k) == Attempts(wallet, id, answers[i := Ok(HolderList([]))], k)
    decreases i - k
  {
    var b := answers[i := Ok(HolderList([]))];
    SameHoldersSameRun(wallet, id, answers, b, i + 1);
    if k < i {
      ErrorLikeMissFrom(wallet, id, answers, i, k + 1);
    }
  }

  /** An API error on attempt 1 or 2 is absorbed: the run (outcome, queries and
      sleeps) is the one an empty holder list there would have given. */
  lemma ErrorBeforeLastAttemptAbsorbed(wallet: string, policy: string, asset: string, answers: seq<Answer<Response>>, i: nat)
    requires |answers| == MaxAttempts && i < MaxAttempts - 1 && answers[i].ApiError?
    ensures Verify(wallet, policy, asset, answers) == Verify(wallet, policy, asset, answers[i := Ok(HolderList([]))])
  {
    ErrorLikeMissFrom(wallet, AssetId(policy, asset), answers, i, 0);
  }

  /** A wallet listed in the first answer is confirmed after one query and no sleep. */
  lemma FirstAttemptMatch(wallet: string, policy: string, asset: string, answers: seq<Answer<Response>>)
    requires |answers| == MaxAttempts && Lists(answers[0], wallet)
    ensures var r := Verify(wallet, policy, asset, answers);
      r.outcome.Success() && r.outcome.HasAsset() && |r.asked| == 1 && r.sleeps == 0
  {
  }

  /** An indexer that always answers and never lists the wallet is asked three
      times, with two sleeps, and the asset is reported checked and absent. */
  lemma NeverListedIsAbsent(wallet: string, policy: string, asset: string, answers: seq<Answer<Response>>)
    requires |answers| == MaxAttempts
    requires forall j :: 0 <= j < MaxAttempts ==> answers[j].Ok? && !Lists(answers[j], wallet)
    ensures var r := Verify(wallet, policy, asset, answers);
      r.outcome == Absent && |r.asked| == 3 && r.sleeps == 2
  {
  }
}
