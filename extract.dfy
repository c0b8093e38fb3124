/**
 * The payload mapper of `insert_token`: from the JSON `data` of an event to the row that is
 * inserted, and from the same payload to the record that is then broadcast.
 */
module Extract {
  import opened Wrappers
  import opened Casts
  import opened Json
  import opened Foreign
  import opened Models

  /**
   * One row of the `tokens` table, as the INSERT writes it. The serial `id` and the
   * server-assigned `created_at` are not part of the model.
   */
  datatype Row = Row(
    ownerId: string,
    totalSupply: string,
    spec: string,
    name: string,
    symbol: string,
    icon: Option<string>,
    reference: Option<string>,
    referenceHash: Option<string>,
    decimals: I16,
    image: string,
    description: string,
    auctionDuration: string,
    minBuyAmount: string)

  const NotAnArray: string := "Event data is not an array"
  const EmptyArray: string := "Event data array is empty"

  /** `data.as_array().ok_or(..)?.first().ok_or(..)?`. */
  function FirstElement(data: Value): Result<Value, string> {
    match AsArray(data)
    case None => Failure(NotAnArray)
    case Some(items) => if |items| == 0 then Failure(EmptyArray) else Success(items[0])
  }

  /** `t[field].as_str().ok_or("<field> not found")?`. */
  function RequireStr(t: Value, field: string): Result<string, string> {
    match AsStr(Index(t, field))
    case None => Failure(field + " not found")
    case Some(s) => Success(s)
  }

  /** `t[field].as_i64().ok_or("<field> not found")?`. */
  function RequireI64(t: Value, field: string): Result<I64, string> {
    match AsI64(Index(t, field))
    case None => Failure(field + " not found")
    case Some(n) => Success(n)
  }

  /** The INSERT's parameter list, evaluated left to right; the first `?` that fails wins. */
  function MapFields(t: Value): Result<Row, string> {
    var ownerId :- RequireStr(t, "owner_id");
    var totalSupply :- RequireStr(t, "total_supply");
    var spec :- RequireStr(t, "spec");
    var name :- RequireStr(t, "name");
    var symbol :- RequireStr(t, "symbol");
    var icon :- RequireStr(t, "icon");
    var reference := AsStr(Index(t, "reference"));
    var referenceHash := AsStr(Index(t, "reference_hash"));
    var decimals :- RequireI64(t, "decimals");
    var image :- RequireStr(t, "image");
    var description :- RequireStr(t, "description");
    var auctionDuration :- RequireStr(t, "auction_duration");
    var minBuyAmount :- RequireStr(t, "min_buy_amount");
    Success(Row(ownerId, totalSupply, spec, name, symbol, Some(icon), reference, referenceHash,
                AsI16(decimals), image, description, auctionDuration, minBuyAmount))
  }

  /** The whole extraction: first element, then its fields. */
  function MapPayload(data: Value): Result<Row, string> {
    var t :- FirstElement(data);
    MapFields(t)
  }

  // ---------------------------------------------------------------------------------------
  // An independent description of which payloads are accepted, and of the error reported.

  datatype Kind = Text | Integer
  datatype Field = Field(name: string, kind: Kind)

  /** The required members, in the order the INSERT's parameters are evaluated. */
  const RequiredFields: seq<Field> := [
    Field("owner_id", Text), Field("total_supply", Text), Field("spec", Text),
    Field("name", Text), Field("symbol", Text), Field("icon", Text),
    Field("decimals", Integer), Field("image", Text), Field("description", Text),
    Field("auction_duration", Text), Field("min_buy_amount", Text)]

  /** `t` has member `f` with the right type: a string, or an integer that fits in an i64. */
  predicate Has(t: Value, f: Field) {
    match f.kind
    case Text => Index(t, f.name).Str?
    case Integer => AsI64(Index(t, f.name)).Some?
  }

  predicate HasAll(t: Value) {
    forall i :: 0 <= i < |RequiredFields| ==> Has(t, RequiredFields[i])
  }

  /** `RequiredFields[i]` is the first required member that is absent or has the wrong type. */
  predicate FirstMissingAt(t: Value, i: int) {
    && 0 <= i < |RequiredFields|
    && !Has(t, RequiredFields[i])
    && forall j :: 0 <= j < i ==> Has(t, RequiredFields[j])
  }

  /** Extraction succeeds exactly when every required member is present with its type. */
  lemma MapFieldsSucceedsIff(t: Value)
    ensures MapFields(t).Success? <==> HasAll(t)
  {
    if HasAll(t) {
      assert forall i :: 0 <= i < |RequiredFields| ==> Has(t, RequiredFields[i]);
      assert Has(t, RequiredFields[0]) && Has(t, RequiredFields[1]) && Has(t, RequiredFields[2]);
      assert Has(t, RequiredFields[3]) && Has(t, RequiredFields[4]) && Has(t, RequiredFields[5]);
      assert Has(t, RequiredFields[6]) && Has(t, RequiredFields[7]) && Has(t, RequiredFields[8]);
      assert Has(t, RequiredFields[9]) && Has(t, RequiredFields[10]);
    } else {
      var i :| 0 <= i < |RequiredFields| && !Has(t, RequiredFields[i]);
      assert MapFields(t).Failure?;
    }
  }

  /** A failing extraction names the first member in the fixed order that is absent or mistyped. */
  lemma MapFieldsNamesFirstMissing(t: Value, i: int)
    requires FirstMissingAt(t, i)
    ensures MapFields(t) == Failure(RequiredFields[i].name + " not found")
  {
    if i > 0 { assert Has(t, RequiredFields[0]); }
    if i > 1 { assert Has(t, RequiredFields[1]); }
    if i > 2 { assert Has(t, RequiredFields[2]); }
    if i > 3 { assert Has(t, RequiredFields[3]); }
    if i > 4 { assert Has(t, RequiredFields[4]); }
    if i > 5 { assert Has(t, RequiredFields[5]); }
    if i > 6 { assert Has(t, RequiredFields[6]); }
    if i > 7 { assert Has(t, RequiredFields[7]); }
    if i > 8 { assert Has(t, RequiredFields[8]); }
    if i > 9 { assert Has(t, RequiredFields[9]); }
  }

  /** A first element that is not an object fails on the first member, `owner_id`. */
  lemma NonObjectFails(t: Value)
    requires !t.Obj?
    ensures MapFields(t) == Failure("owner_id not found")
  {
    assert RequiredFields[0].name + " not found" == "owner_id not found";
  }

  /** A non-array payload and an empty array fail before any member is read. */
  lemma PayloadShape(data: Value)
    ensures !data.Arr? ==> MapPayload(data) == Failure(NotAnArray)
    ensures data == Arr([]) ==> MapPayload(data) == Failure(EmptyArray)
  {
  }

  /** Only the first element of the array is read. */
  lemma OnlyFirstElementRead(first: Value, rest: seq<Value>)
    ensures MapPayload(Arr([first] + rest)) == MapFields(first)
  {
  }

  /**
   * On success the row carries the payload's strings unchanged, `icon` always present,
   * `reference` and `reference_hash` present exactly when they are strings, and
   * `decimals` as the i64 cut to 16 bits.
   */
  lemma MapFieldsContent(t: Value)
    requires MapFields(t).Success?
    ensures var row := MapFields(t).value;
      && Index(t, "owner_id") == Str(row.ownerId)
      && Index(t, "total_supply") == Str(row.totalSupply)
      && Index(t, "spec") == Str(row.spec)
      && Index(t, "name") == Str(row.name)
      && Index(t, "symbol") == Str(row.symbol)
      && row.icon.Some? && Index(t, "icon") == Str(row.icon.value)
      && (row.reference.Some? <==> Index(t, "reference").Str?)
      && (row.reference.Some? ==> Index(t, "reference") == Str(row.reference.value))
      && (row.referenceHash.Some? <==> Index(t, "reference_hash").Str?)
      && (row.referenceHash.Some? ==> Index(t, "reference_hash") == Str(row.referenceHash.value))
      && Index(t, "decimals").Int? && row.decimals == AsI16(Index(t, "decimals").n)
      && Index(t, "image") == Str(row.image)
      && Index(t, "description") == Str(row.description)
      && Index(t, "auction_duration") == Str(row.auctionDuration)
      && Index(t, "min_buy_amount") == Str(row.minBuyAmount)
  {
  }

  /**
   * `reference` and `reference_hash` never decide success or the error: replacing either
   * member by any value leaves the outcome of every required member as it was.
   */
  lemma OptionalMembersNeverFail(m: map<string, Value>, k: string, v: Value)
    requires k == "reference" || k == "reference_hash"
    ensures MapFields(Obj(m[k := v])).Success? <==> MapFields(Obj(m)).Success?
    ensures MapFields(Obj(m)).Failure? ==> MapFields(Obj(m[k := v])) == MapFields(Obj(m))
  {
    var t, u := Obj(m), Obj(m[k := v]);
    forall i | 0 <= i < |RequiredFields|
      ensures Has(u, RequiredFields[i]) <==> Has(t, RequiredFields[i])
    {
      assert RequiredFields[i].name != k;
    }
    MapFieldsSucceedsIff(t);
    MapFieldsSucceedsIff(u);
    if MapFields(t).Failure? {
      var i := FirstMissingIndex(t);
      MapFieldsNamesFirstMissing(t, i);
      MapFieldsNamesFirstMissing(u, i);
    }
  }

  /** A payload that lacks some required member has a first such member. */
  lemma FirstMissingIndex(t: Value) returns (i: int)
    requires !HasAll(t)
    ensures FirstMissingAt(t, i)
  {
    i := 0;
    while Has(t, RequiredFields[i])
      invariant 0 <= i < |RequiredFields|
      invariant forall j :: 0 <= j < i ==> Has(t, RequiredFields[j])
      decreases |RequiredFields| - i
    {
      i := i + 1;
    }
  }

  // ---------------------------------------------------------------------------------------
  // The record `insert_token` builds after the INSERT has executed.

  /**
   * Lines 116-129: the `TokenDTO` re-read from the payload. Its callers have already
   * extracted every required member. `parse().unwrap()` on the owner and `decode(..).unwrap()`
   * on the reference hash panic, in that order of the struct's fields.
   */
  function BroadcastDto(t: Value, crates: Crates): Result<TokenDto, Panic>
    requires MapFields(t).Success?
  {
    MapFieldsContent(t);
    var ownerId := Index(t, "owner_id").s;
    var hash := Index(t, "reference_hash");
    if !crates.isAccountId(ownerId) then Failure(Panic("owner_id"))
    else if hash.Str? && crates.decodeBase64(hash.s).None? then Failure(Panic("reference_hash"))
    else Success(TokenDto(
      ownerId,
      Index(t, "total_supply").s,
      Index(t, "spec").s,
      Index(t, "name").s,
      Index(t, "symbol").s,
      AsStr(Index(t, "icon")),
      AsStr(Index(t, "reference")),
      if hash.Str? then crates.decodeBase64(hash.s) else None,
      AsU8(Index(t, "decimals").n),
      Index(t, "image").s))
  }

  /**
   * Building the record panics exactly when the owner is not an account ID or the reference
   * hash is a string that is not base64; the owner is checked first.
   */
  lemma BroadcastDtoPanics(t: Value, crates: Crates)
    requires MapFields(t).Success?
    ensures var row := MapFields(t).value;
      && (BroadcastDto(t, crates).Failure? <==>
          !crates.isAccountId(row.ownerId)
          || (row.referenceHash.Some? && crates.decodeBase64(row.referenceHash.value).None?))
      && (BroadcastDto(t, crates) == Failure(Panic("owner_id")) <==> !crates.isAccountId(row.ownerId))
  {
    MapFieldsContent(t);
  }

  /**
   * The broadcast record agrees with the inserted row: the same strings, the same optional
   * members, the decoded reference hash, and as `decimals` the low byte of the stored i16.
   */
  lemma BroadcastAgreesWithRow(t: Value, crates: Crates)
    requires MapFields(t).Success? && BroadcastDto(t, crates).Success?
    ensures var row, dto := MapFields(t).value, BroadcastDto(t, crates).value;
      && dto.ownerId == row.ownerId && crates.isAccountId(dto.ownerId)
      && dto.totalSupply == row.totalSupply
      && dto.spec == row.spec && dto.name == row.name && dto.symbol == row.symbol
      && dto.icon == row.icon && dto.reference == row.reference
      && (row.referenceHash.None? ==> dto.referenceHash.None?)
      && (row.referenceHash.Some? ==>
            dto.referenceHash.Some? && crates.decodeBase64(row.referenceHash.value) == dto.referenceHash)
      && dto.decimals == AsU8(row.decimals)
      && dto.image == row.image
  {
    MapFieldsContent(t);
    NarrowingKeepsLowByte(Index(t, "decimals").n);
  }
}
