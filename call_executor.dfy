/** The Call Executor: one call through the provider with off-chain reads
    disabled, and the classification of its result (`_call`). */
module CallExecutor {
  import opened Signals

  /** What the ABI error decoder makes of a revert's data: no known selector
      (the decoder returns null), a known selector whose arguments fail to
      decode (the decoder throws), or one of the two known errors. */
  datatype Decoded =
    | Unrecognized
    | Malformed
    | LookupError(lookup: Lookup)
    | TryNextError(sender: Address)

  /** An error thrown by the provider. `data` is the revert data when the
      error carries any; `decoded` is the decoder's reading of that data. */
  datatype CallError = CallError(isCallException: bool, data: Option<Hex>, decoded: Decoded)

  /** The raw result of one provider call: returned bytes, or a thrown error. */
  datatype RawResult = Returned(data: Hex) | Reverted(error: CallError)

  /** Why a resolution fails: a provider error passed on unchanged, the error
      the decoder threw on a malformed revert, or the "origin != sender" check. */
  datatype Failure =
    | Rethrown(error: CallError)
    | DecodeFailed(error: CallError)
    | OriginMismatch

  /** The four outcomes of a classified call. */
  datatype CallOutcome =
    | Bytes(data: Hex)
    | NewLookup(lookup: Lookup)
    | TryNext(sender: Address)
    | Throw(failure: Failure)

  /** The error is a call exception whose data is long enough ("0x" plus 8 hex
      digits) to hold a 4-byte error selector. */
  predicate CarriesSelector(e: CallError) {
    e.isCallException && Truthy(e.data) && |e.data.value| >= 10
  }

  /** Classifies the result of a call. `canNext` is false for the initial call
      and true for a resubmission; only the latter may yield `TryNext`. */
  function Classify(raw: RawResult, canNext: bool): (r: CallOutcome)
    ensures r.Bytes? <==> raw.Returned?
    ensures raw.Returned? ==> r == Bytes(raw.data)
    ensures r.TryNext? ==> canNext
    ensures r.NewLookup? <==>
      raw.Reverted? && CarriesSelector(raw.error) && raw.error.decoded.LookupError?
    ensures r.NewLookup? ==> r.lookup == raw.error.decoded.lookup
    ensures r.TryNext? <==>
      canNext && raw.Reverted? && CarriesSelector(raw.error) && raw.error.decoded.TryNextError?
    ensures r.TryNext? ==> r.sender == raw.error.decoded.sender
    ensures r.Throw? ==> raw.Reverted? && r.failure != OriginMismatch && r.failure.error == raw.error
    ensures r.Throw? && r.failure.DecodeFailed? <==>
      raw.Reverted? && CarriesSelector(raw.error) && raw.error.decoded.Malformed?
  {
    match raw
    case Returned(data) => Bytes(data)
    case Reverted(e) =>
      if !CarriesSelector(e) then Throw(Rethrown(e))
      else match e.decoded
        case Malformed => Throw(DecodeFailed(e))
        case LookupError(l) => NewLookup(l)
        case TryNextError(s) => if canNext then TryNext(s) else Throw(Rethrown(e))
        case Unrecognized => Throw(Rethrown(e))
  }

  /** The mode flag only gates `TryNext`: on every other result the initial
      and the resubmission classification agree, and a `TryNext` revert seen
      by the initial call is rethrown unchanged. */
  lemma ModeOnlyGatesTryNext(raw: RawResult)
    ensures Classify(raw, true).TryNext? ==> Classify(raw, false) == Throw(Rethrown(raw.error))
    ensures !Classify(raw, true).TryNext? ==> Classify(raw, false) == Classify(raw, true)
  {
  }

  /** An error that cannot carry a selector is rethrown unchanged in both modes. */
  lemma ShortRevertRethrown(e: CallError, canNext: bool)
    requires !CarriesSelector(e)
    ensures Classify(Reverted(e), canNext) == Throw(Rethrown(e))
  {
  }
}
