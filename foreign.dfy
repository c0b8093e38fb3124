/**
 * The two crate functions the core calls but whose internals are not modelled:
 * NEAR `AccountId` parsing (near_sdk) and standard base64 decoding with padding
 * (section 4 of RFC 4648, the base64 crate's `general_purpose::STANDARD`).
 * They are parameters: every property proved holds for any such pair of functions.
 */
module Foreign {
  import opened Wrappers
  import opened Casts

  type Bytes = seq<U8>

  datatype Crates = Crates(
    isAccountId: string -> bool,
    decodeBase64: string -> Option<Bytes>)
}
