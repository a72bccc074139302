/** DynamoDbService.java: the request maps it builds around the DynamoDB
    client. The client itself is a parameter. */
module DynamoDbService {
  import opened Wrappers

  /** An `AttributeValue`; `s` is what `.s()` returns, null when the
      attribute is not a string. */
  datatype AttributeValue = AttributeValue(s: Option<string>)

  /** `AttributeValue.builder().s(v).build()`. */
  function S(v: string): AttributeValue
  {
    AttributeValue(Some(v))
  }

  /** A DynamoDB item or key: attribute name to value. */
  type Item = map<string, AttributeValue>

  /** `dynamoDbClient.getItem(...).item()` for a key map: an item, null
      (`None`, as the service test's mock returns), or a client failure. */
  type GetItemClient = Item -> Result<Option<Item>>

  /** The SDK's client over a table keyed by the "id" string: the stored
      item, and an empty map (never null) when the table has no item for
      the key. */
  function TableGetItem(table: map<string, Item>): (client: GetItemClient)
    ensures forall id :: id in table ==> client(GetItemKey(id)) == Ok(Some(table[id]))
    ensures forall id :: id !in table ==> client(GetItemKey(id)) == Ok(Some(map[]))
  {
    (key: Item) => if "id" in key && key["id"].s.Some? && key["id"].s.value in table
                   then Ok(Some(table[key["id"].s.value])) else Ok(Some(map[]))
  }

  /** `dynamoDbClient.putItem(...)` for an item: done, or a client failure. */
  type PutItemClient = Item -> Result<()>

  /** The item `queryItem` returns for a filter: each filter entry as a
      string attribute. */
  function StringItem(filter: map<string, string>): Item
  {
    map k | k in filter :: S(filter[k])
  }

  /** `queryItem(filter)`: fills a fresh map entry by entry. It never
      contacts the client and never returns null; the result only echoes the
      filter. */
  method QueryItem(filter: map<string, string>) returns (item: Item)
    ensures item.Keys == filter.Keys
    ensures forall k :: k in filter ==> item[k] == S(filter[k])
    ensures item == StringItem(filter)
  {
    item := map[];
    var pending := filter.Keys;
    while pending != {}
      invariant pending <= filter.Keys
      invariant item.Keys == filter.Keys - pending
      invariant forall k :: k in item ==> item[k] == S(filter[k])
      decreases pending
    {
      var k :| k in pending;
      item := item[k := S(filter[k])];
      pending := pending - {k};
    }
  }

  /** The key map of `getItem(id)`: one entry, "id". */
  function GetItemKey(id: string): (key: Item)
    ensures key.Keys == {"id"} && key["id"] == S(id)
  {
    map["id" := S(id)]
  }

  /** Distinct ids give distinct key maps. */
  lemma GetItemKeyInjective(a: string, b: string)
    requires GetItemKey(a) == GetItemKey(b)
    ensures a == b
  {
    assert GetItemKey(a)["id"] == S(a);
  }

  /** `getItem(id)`: the response's item, returned as the client gives it
      (possibly null). */
  function GetItem(client: GetItemClient, id: string): (r: Result<Option<Item>>)
    ensures r == client(map["id" := S(id)])
  {
    client(GetItemKey(id))
  }

  /** The item `putItem(id, merchantName)` writes: exactly "id" and
      "merchantName". */
  function PutItemRequest(id: string, merchantName: string): (item: Item)
    ensures item.Keys == {"id", "merchantName"}
    ensures item["id"] == S(id) && item["merchantName"] == S(merchantName)
    ensures "name" !in item && "email" !in item
  {
    map["id" := S(id), "merchantName" := S(merchantName)]
  }

  /** `putItem(id, merchantName)`: hands that item to the client. */
  function PutItem(client: PutItemClient, id: string, merchantName: string): (r: Result<()>)
    ensures r == client(map["id" := S(id), "merchantName" := S(merchantName)])
  {
    client(PutItemRequest(id, merchantName))
  }
}
