/** Values shared by every part of the CCIP-Read v2 client: addresses and byte
    strings in the hex-string form the client passes around, the decoded
    `OffchainLookup` signal, and the exhaustion sentinel. */
module Signals {

  datatype Option<+T> = None | Some(value: T)

  /** JavaScript truthiness of an optional string: absent and "" are falsy. */
  predicate Truthy(s: Option<string>) {
    s.Some? && s.value != ""
  }

  /** A byte string as the client handles it: a "0x"-prefixed hex string. */
  type Hex = string

  /** A checksummed address string, compared by string equality. */
  type Address = string

  /** The decoded fields of `error OffchainLookup(address sender, string[] urls,
      bytes request, bytes4 callback, bytes carry)`. */
  datatype Lookup = Lookup(
    sender: Address,
    urls: seq<string>,
    request: Hex,
    callback: Hex,
    carry: Hex)

  /** The payload resubmitted when every gateway URL of the active lookup has
      been tried: the selector of `OffchainLookupUnanswered()`, i.e. the first
      4 bytes of its keccak256 hash, written as "0x" and 8 hex digits. */
  const UNANSWERED: Hex := "0xc584553e"
}
