/** The record broadcast to live subscribers and returned by the listing. */
module Models {
  import opened Wrappers
  import opened Casts
  import opened Foreign
  import Json

  /**
   * `TokenDTO`. `ownerId` holds the text of a parsed `AccountId`; `referenceHash` holds the
   * bytes of a `Base64VecU8`.
   */
  datatype TokenDto = TokenDto(
    ownerId: string,
    totalSupply: string,
    spec: string,
    name: string,
    symbol: string,
    icon: Option<string>,
    reference: Option<string>,
    referenceHash: Option<Bytes>,
    decimals: U8,
    image: string)

  /** An `unwrap()` that failed, named by the field being built when it did. */
  datatype Panic = Panic(field: string)

  /** An event as the listener library delivers it, reduced to the two members the core reads. */
  datatype EventLog = EventLog(event: string, data: Json.Value)
}
