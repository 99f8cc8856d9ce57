/**
 The asset-custody oracle (the chain indexer) as the core sees it. Nothing
 here talks to a network: every answer the indexer could give is an input.
 */
module Oracle {
  import opened Wrappers

  /** One holder record: the address holding the asset and, usually, the quantity held. */
  datatype Holder = Holder(address: string, quantity: Option<string>)

  /** The raw shape of a holder query answer: ordinarily a list, sometimes a lone
      record that has an address, or anything else. */
  datatype Response =
    | HolderList(holders: seq<Holder>)
    | SingleRecord(record: Holder)
    | Unrecognized

  /** What one call to the indexer yields: a value or an API error with its message. */
  datatype Answer<+T> = Ok(value: T) | ApiError(message: string)

  /** The asset identifier sent to the indexer: policy id and asset name glued together. */
  function AssetId(policy: string, asset: string): (id: string)
    ensures |id| == |policy| + |asset|
    ensures id[..|policy|] == policy && id[|policy|..] == asset
  {
    policy + asset
  }

  /** How a Python f-string renders an optional column: its text, or "None". */
  function IdText(field: Option<string>): string {
    if field.Some? then field.value else "None"
  }

  /** The holder sequence a response stands for: a list as is, a lone record as a
      one-element list, anything else as no holders. */
  function Normalise(r: Response): (hs: seq<Holder>)
    ensures r.HolderList? ==> hs == r.holders
    ensures r.SingleRecord? ==> |hs| == 1 && hs[0] == r.record
    ensures r.Unrecognized? ==> |hs| == 0
  {
    match r
    case HolderList(hs) => hs
    case SingleRecord(h) => [h]
    case Unrecognized => []
  }

  /** An answer with its response normalised into a holder sequence. */
  function Normalised(a: Answer<Response>): Answer<seq<Holder>> {
    match a
    case Ok(r) => Ok(Normalise(r))
    case ApiError(e) => ApiError(e)
  }

  /** The stake address an address-info lookup resolves for `address`; `None` when
      the lookup fails or the address has no stake key. */
  function StakeOf(stakes: map<string, string>, address: string): Option<string> {
    if address in stakes then Some(stakes[address]) else None
  }
}
