/** What the mapper returns for a concrete payload. */
module Scenarios {
  import opened Wrappers
  import opened Json
  import opened Extract

  /** A registration with every member except `icon`. */
  const WithoutIcon: map<string, Value> := map[
    "owner_id" := Str("alice.token"), "total_supply" := Str("1000000"), "spec" := Str("ft-1.0.0"),
    "name" := Str("Demo"), "symbol" := Str("DEMO"), "decimals" := Int(18),
    "image" := Str("https://x/i.png"), "description" := Str("d"),
    "auction_duration" := Str("86400"), "min_buy_amount" := Str("1")]

  /** `icon` is required by the mapper even though the record's `icon` is optional. */
  lemma MissingIconRejected()
    ensures MapPayload(Arr([Obj(WithoutIcon)])) == Failure("icon not found")
  {
    var t := Obj(WithoutIcon);
    assert "icon" !in WithoutIcon;
    assert Index(t, "owner_id").Str? && Index(t, "total_supply").Str? && Index(t, "spec").Str?;
    assert Index(t, "name").Str? && Index(t, "symbol").Str?;
    assert FirstMissingAt(t, 5);
    MapFieldsNamesFirstMissing(t, 5);
    assert RequiredFields[5].name + " not found" == "icon not found";
    OnlyFirstElementRead(t, []);
    assert [t] + [] == [t];
  }
}
