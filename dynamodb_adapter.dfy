/** MerchantLoadServiceDynamoDB.java: reads a merchant from DynamoDB and
    normalises the string attributes into a Merchant. */
module DynamoDbAdapter {
  import opened Wrappers
  import opened JavaLang
  import opened Entity
  import opened DynamoDbService
  import opened LoadService

  /** The attributes `toMerchant` reads. */
  const ATTRIBUTES: set<string> := {"id", "name", "email", "businessType", "phonetics"}

  /** An item `toMerchant` turns into a merchant without throwing: all five
      attributes are present, "id" holds a decimal long and "businessType"
      names a constant once upper-cased. */
  predicate Normalisable(item: Item)
  {
    && ATTRIBUTES <= item.Keys
    && item["id"].s.Some? && ParseLong(item["id"].s.value).Some?
    && item["businessType"].s.Some?
    && ValueOf(ToUpperAscii(item["businessType"].s.value)).Ok?
  }

  /** `toMerchant(item)`: the builder chain with its exceptions, in the order
      the chain evaluates them. `map.get(a).s()` on a missing attribute is a
      NullPointerException; `Long.parseLong(null)` is a
      NumberFormatException. */
  function ToMerchant(item: Item): (r: Result<MerchantData>)
    ensures r.Ok? <==> Normalisable(item)
    ensures r.Ok? ==> && r.value.id == ParseLong(item["id"].s.value)
                      && r.value.name == item["name"].s
                      && r.value.email == item["email"].s
                      && r.value.phonetics == item["phonetics"].s
                      && r.value.businessType.Some?
                      && ValueOf(ToUpperAscii(item["businessType"].s.value)) == Ok(r.value.businessType.value)
                      && r.value.createdAt.None? && r.value.updatedAt.None?
    ensures "id" !in item ==> r == Err(NullPointer)
    ensures "id" in item && (item["id"].s.None? || ParseLong(item["id"].s.value).None?) ==> r == Err(NumberFormat)
    ensures "id" in item && item["id"].s.Some? && ParseLong(item["id"].s.value).Some? ==>
      if "name" !in item || "email" !in item then r == Err(NullPointer)
      else if "businessType" !in item || item["businessType"].s.None? then r == Err(NullPointer)
      else if ValueOf(ToUpperAscii(item["businessType"].s.value)).Err? then
        r == Err(ValueOf(ToUpperAscii(item["businessType"].s.value)).error)
      else if "phonetics" !in item then r == Err(NullPointer)
      else r.Ok?
  {
    if "id" !in item then Err(NullPointer)
    else if item["id"].s.None? then Err(NumberFormat)
    else
      var id := ParseLong(item["id"].s.value);
      if id.None? then Err(NumberFormat)
      else if "name" !in item || "email" !in item then Err(NullPointer)
      else if "businessType" !in item || item["businessType"].s.None? then Err(NullPointer)
      else
        var businessType := ValueOf(ToUpperAscii(item["businessType"].s.value));
        if businessType.Err? then Err(businessType.error)
        else if "phonetics" !in item then Err(NullPointer)
        else
          Ok(MerchantData(Some(id.value), item["name"].s, item["email"].s, Some(businessType.value),
                          item["phonetics"].s, None, None))
  }

  /** `loadMerchant(merchantId)`: a null item is an empty result; any other
      item is normalised, and a normalisation failure is thrown, not treated
      as absence. */
  function LoadMerchant(client: GetItemClient, merchantId: string): (r: Outcome)
    ensures r.Miss? <==> client(GetItemKey(merchantId)) == Ok(None)
    ensures client(GetItemKey(merchantId)).Err? ==> r == Error(client(GetItemKey(merchantId)).error)
    ensures r.Hit? ==> && client(GetItemKey(merchantId)).Ok?
                       && client(GetItemKey(merchantId)).value.Some?
                       && ToMerchant(client(GetItemKey(merchantId)).value.value) == Ok(r.merchant)
    ensures r.Hit? ==> r.merchant.id.Some? && r.merchant.createdAt.None? && r.merchant.updatedAt.None?
    ensures client(GetItemKey(merchantId)).Ok? && client(GetItemKey(merchantId)).value.Some? ==>
      var converted := ToMerchant(client(GetItemKey(merchantId)).value.value);
      r == (if converted.Ok? then Hit(converted.value) else Error(converted.error))
  {
    match GetItem(client, merchantId)
    case Err(e) => Error(e)
    case Ok(None) => Miss
    case Ok(Some(item)) =>
      match ToMerchant(item)
      case Ok(m) => Hit(m)
      case Err(e) => Error(e)
  }

  /** `loadMerchantByEmail(email)`: the item comes from `queryItem`, which is
      never null and holds only "email"; normalisation then fails at "id". */
  function LoadMerchantByEmail(email: string): (r: Outcome)
    ensures r == Error(NullPointer)
  {
    var item := StringItem(map["email" := email]);
    assert "id" !in item;
    match ToMerchant(item)
    case Ok(m) => Hit(m)
    case Err(e) => Error(e)
  }

  /** The business type is matched case-insensitively: two items that differ
      only in the case of "businessType" normalise alike. */
  lemma BusinessTypeCaseInsensitive(item: Item, spelling: string, other: string)
    requires ToUpperAscii(spelling) == ToUpperAscii(other)
    ensures ToMerchant(item["businessType" := S(spelling)]) == ToMerchant(item["businessType" := S(other)])
  {
  }

  /** "medium" and "MEDIUM" both denote MEDIUM. */
  lemma MediumInAnyCase()
    ensures ValueOf(ToUpperAscii("medium")) == Ok(MEDIUM)
    ensures ValueOf(ToUpperAscii("MEDIUM")) == Ok(MEDIUM)
  {
    assert ToUpperAscii("medium") == "MEDIUM";
    assert ToUpperAscii("MEDIUM") == "MEDIUM";
  }

  /** The item of the service test loads as merchant 123 with its fields. */
  lemma TestItemLoads(client: GetItemClient)
    requires client(GetItemKey("123")) == Ok(Some(map[
      "id" := S("123"), "name" := S("John Doe"), "email" := S("john@example.com"),
      "businessType" := S("MEDIUM"), "phonetics" := S("")]))
    ensures LoadMerchant(client, "123") ==
      Hit(MerchantData(Some(123), Some("John Doe"), Some("john@example.com"), Some(MEDIUM), Some(""), None, None))
  {
    assert DigitsValue("123") == 123 by {
      assert "123"[..2] == "12";
      assert "12"[..1] == "1";
      assert "1"[..0] == "";
    }
    assert ParseLong("123") == Some(123);
    assert ToUpperAscii("MEDIUM") == "MEDIUM";
  }

  /** An item written by `putItem` can never be read back: it has no "name"
      attribute, so normalisation throws. */
  lemma PutItemNotLoadable(id: string, merchantName: string)
    ensures ToMerchant(PutItemRequest(id, merchantName)) ==
      Err(if ParseLong(id).None? then NumberFormat else NullPointer)
  {
  }
}
