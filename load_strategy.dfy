/** MerchantLoadServiceStrategy.java: asks DynamoDB, then Postgres, then S3,
    and stops at the first answer that is not empty. */
module LoadStrategy {
  import opened Wrappers
  import opened JavaLang
  import opened Entity
  import opened LoadService
  import DynamoDbService
  import DynamoDbAdapter
  import PostgresAdapter
  import S3Adapter

  datatype Store = DynamoDB | Postgres | S3

  /** The argument of a lookup; both lookups pass it to every adapter. */
  datatype Query = ById(merchantId: string) | ByEmail(email: string)

  /** One invocation of an adapter. */
  datatype Call = Call(store: Store, query: Query)

  /** An adapter: the store it reads and its answer to each query. */
  datatype Adapter = Adapter(store: Store, load: Query -> Outcome)

  /** The answer of a lookup and the adapters it invoked, in order. */
  datatype Lookup = Lookup(outcome: Outcome, calls: seq<Call>)

  /** A chain of `Optional.or` with lazy suppliers: each adapter is asked in
      turn with the same query; a hit or an exception ends the chain, and
      only an empty result moves on. Nothing is ever merged: the answer is
      the first non-empty adapter answer, or empty when every adapter
      missed. */
  function Fallback(adapters: seq<Adapter>, q: Query): (r: Lookup)
    ensures |r.calls| <= |adapters|
    ensures forall i :: 0 <= i < |r.calls| ==> r.calls[i] == Call(adapters[i].store, q)
    ensures forall i :: 0 <= i < |r.calls| - 1 ==> adapters[i].load(q) == Miss
    ensures r.outcome == Miss ==>
      |r.calls| == |adapters| && forall i :: 0 <= i < |adapters| ==> adapters[i].load(q) == Miss
    ensures r.outcome != Miss ==> |r.calls| > 0 && r.outcome == adapters[|r.calls| - 1].load(q)
    decreases |adapters|
  {
    if |adapters| == 0 then Lookup(Miss, [])
    else
      var first := adapters[0].load(q);
      if first.Miss? then
        var rest := Fallback(adapters[1..], q);
        Lookup(rest.outcome, [Call(adapters[0].store, q)] + rest.calls)
      else Lookup(first, [Call(adapters[0].store, q)])
  }

  /** The collaborators of the three adapters. */
  datatype Backends = Backends(
    dynamo: DynamoDbService.GetItemClient,
    postgres: PostgresAdapter.RepositoryView,
    s3: S3Adapter.Download,
    parse: S3Adapter.Parser)

  function DynamoDbLoad(b: Backends, q: Query): Outcome
  {
    match q
    case ById(id) => DynamoDbAdapter.LoadMerchant(b.dynamo, id)
    case ByEmail(email) => DynamoDbAdapter.LoadMerchantByEmail(email)
  }

  function PostgresLoad(b: Backends, q: Query): Outcome
  {
    match q
    case ById(id) => PostgresAdapter.LoadMerchant(b.postgres, id)
    case ByEmail(email) => PostgresAdapter.LoadMerchantByEmail(b.postgres, email)
  }

  function S3Load(b: Backends, q: Query): Outcome
  {
    match q
    case ById(id) => S3Adapter.LoadMerchant(b.s3, b.parse, id)
    case ByEmail(email) => S3Adapter.LoadMerchantByEmail(b.s3, b.parse, email)
  }

  /** The fixed priority order: DynamoDB, Postgres, S3, each adapter
      answering with its own store's lookup. */
  function Adapters(b: Backends): (r: seq<Adapter>)
    ensures |r| == 3 && r[0].store == DynamoDB && r[1].store == Postgres && r[2].store == S3
    ensures forall q :: r[0].load(q) == DynamoDbLoad(b, q)
    ensures forall q :: r[1].load(q) == PostgresLoad(b, q)
    ensures forall q :: r[2].load(q) == S3Load(b, q)
  {
    [Adapter(DynamoDB, q => DynamoDbLoad(b, q)),
     Adapter(Postgres, q => PostgresLoad(b, q)),
     Adapter(S3, q => S3Load(b, q))]
  }

  /** `loadMerchant(merchantId)`: the answer of the `or` chain over the
      three adapters, which are invoked in priority order with the caller's
      id. */
  function LoadMerchant(b: Backends, merchantId: string): (r: Lookup)
    ensures r.outcome == Or(Or(DynamoDbLoad(b, ById(merchantId)), PostgresLoad(b, ById(merchantId))),
                            S3Load(b, ById(merchantId)))
    ensures 1 <= |r.calls| <= 3
    ensures r.calls == [Call(DynamoDB, ById(merchantId)), Call(Postgres, ById(merchantId)),
                        Call(S3, ById(merchantId))][..|r.calls|]
  {
    AgreesWithOrChain(b, ById(merchantId));
    CallsArePrefixOfOrder(b, ById(merchantId));
    Fallback(Adapters(b), ById(merchantId))
  }

  /** `loadMerchantByEmail(email)`: the same chain with the caller's email. */
  function LoadMerchantByEmail(b: Backends, email: string): (r: Lookup)
    ensures r.outcome == Or(Or(DynamoDbLoad(b, ByEmail(email)), PostgresLoad(b, ByEmail(email))),
                            S3Load(b, ByEmail(email)))
    ensures 1 <= |r.calls| <= 3
    ensures r.calls == [Call(DynamoDB, ByEmail(email)), Call(Postgres, ByEmail(email)),
                        Call(S3, ByEmail(email))][..|r.calls|]
  {
    AgreesWithOrChain(b, ByEmail(email));
    CallsArePrefixOfOrder(b, ByEmail(email));
    Fallback(Adapters(b), ByEmail(email))
  }

  /** `Optional.or`: the alternative only counts when the first is empty. */
  function Or(first: Outcome, alternative: Outcome): (r: Outcome)
    ensures first.Miss? ==> r == alternative
    ensures !first.Miss? ==> r == first
    ensures r.Miss? <==> first.Miss? && alternative.Miss?
  {
    if first.Miss? then alternative else first
  }

  /** Both lookups answer exactly what the source's `or` chain answers. */
  lemma {:induction false} AgreesWithOrChain(b: Backends, q: Query)
    ensures Fallback(Adapters(b), q).outcome == Or(Or(DynamoDbLoad(b, q), PostgresLoad(b, q)), S3Load(b, q))
  {
    var a := Adapters(b);
    assert a[0].load(q) == DynamoDbLoad(b, q);
    assert a[1].load(q) == PostgresLoad(b, q);
    assert a[2].load(q) == S3Load(b, q);
  }

  /** The adapters invoked are a prefix of DynamoDB, Postgres, S3, each with
      the caller's argument: order is fixed and no adapter is asked twice. */
  lemma {:induction false} CallsArePrefixOfOrder(b: Backends, q: Query)
    ensures var calls := Fallback(Adapters(b), q).calls;
      1 <= |calls| <= 3 && calls == [Call(DynamoDB, q), Call(Postgres, q), Call(S3, q)][..|calls|]
  {
    var a := Adapters(b);
    var r := Fallback(a, q);
    if r.outcome == Miss {
      assert |r.calls| == 3;
    }
    assert |r.calls| > 0;
    assert r.calls == [Call(DynamoDB, q), Call(Postgres, q), Call(S3, q)][..|r.calls|];
  }

  /** A DynamoDB hit is returned; Postgres and S3 are not invoked. */
  lemma {:induction false} DynamoDbHitWins(b: Backends, q: Query)
    requires DynamoDbLoad(b, q).Hit?
    ensures Fallback(Adapters(b), q) == Lookup(DynamoDbLoad(b, q), [Call(DynamoDB, q)])
  {
    var a := Adapters(b);
    assert a[0].load(q) == DynamoDbLoad(b, q);
  }

  /** After a DynamoDB miss Postgres is asked with the same argument; its hit
      is returned and S3 is not invoked. */
  lemma {:induction false} PostgresHitAfterDynamoDbMiss(b: Backends, q: Query)
    requires DynamoDbLoad(b, q) == Miss && PostgresLoad(b, q).Hit?
    ensures Fallback(Adapters(b), q) ==
      Lookup(PostgresLoad(b, q), [Call(DynamoDB, q), Call(Postgres, q)])
  {
    var a := Adapters(b);
    assert a[0].load(q) == DynamoDbLoad(b, q);
    assert a[1].load(q) == PostgresLoad(b, q);
  }

  /** After two misses the answer is exactly S3's, whatever it is. */
  lemma {:induction false} S3DecidesAfterTwoMisses(b: Backends, q: Query)
    requires DynamoDbLoad(b, q) == Miss && PostgresLoad(b, q) == Miss
    ensures Fallback(Adapters(b), q) ==
      Lookup(S3Load(b, q), [Call(DynamoDB, q), Call(Postgres, q), Call(S3, q)])
  {
    var a := Adapters(b);
    assert a[0].load(q) == DynamoDbLoad(b, q);
    assert a[1].load(q) == PostgresLoad(b, q);
    assert a[2].load(q) == S3Load(b, q);
  }

  /** An exception from any adapter is the answer, unchanged, and no later
      adapter is invoked. */
  lemma {:induction false} ErrorStopsTheChain(b: Backends, q: Query, failure: Failure)
    ensures DynamoDbLoad(b, q) == Error(failure) ==>
      Fallback(Adapters(b), q) == Lookup(Error(failure), [Call(DynamoDB, q)])
    ensures DynamoDbLoad(b, q) == Miss && PostgresLoad(b, q) == Error(failure) ==>
      Fallback(Adapters(b), q) == Lookup(Error(failure), [Call(DynamoDB, q), Call(Postgres, q)])
  {
    var a := Adapters(b);
    assert a[0].load(q) == DynamoDbLoad(b, q);
    assert a[1].load(q) == PostgresLoad(b, q);
  }

  /** A merchant that is only in Postgres is found there, after one DynamoDB
      miss, without touching S3. The miss is a null item, as the service
      test's mock returns. */
  lemma OnlyInPostgres(b: Backends, id: Long, m: MerchantData)
    requires b.dynamo(DynamoDbService.GetItemKey(LongToString(id))) == Ok(None)
    requires b.postgres.findById(id) == Ok(Some(m))
    ensures LoadMerchant(b, LongToString(id)) ==
      Lookup(Hit(m), [Call(DynamoDB, ById(LongToString(id))), Call(Postgres, ById(LongToString(id)))])
  {
    PostgresHitAfterDynamoDbMiss(b, ById(LongToString(id)));
  }

  /** The AWS SDK's `GetItemResponse.item()` is an empty map, not null, when
      the table has no item for the key. The adapter then normalises that
      empty map, `toMerchant` throws at the missing "id" attribute, and the
      lookup by id stops at DynamoDB: Postgres and S3 are not asked. */
  lemma EmptyItemStopsAtDynamoDb(b: Backends, merchantId: string)
    requires b.dynamo(DynamoDbService.GetItemKey(merchantId)) == Ok(Some(map[]))
    ensures LoadMerchant(b, merchantId) == Lookup(Error(NullPointer), [Call(DynamoDB, ById(merchantId))])
  {
    assert DynamoDbLoad(b, ById(merchantId)) == Error(NullPointer);
    ErrorStopsTheChain(b, ById(merchantId), NullPointer);
  }

  /** Against a table read through the SDK's client, a merchant id that is
      not in DynamoDB ends the lookup with a NullPointerException; only the
      test's null-returning mock lets the lookup fall back to Postgres. */
  lemma AbsentFromTableStopsAtDynamoDb(b: Backends, table: map<string, DynamoDbService.Item>, id: Long)
    requires b.dynamo == DynamoDbService.TableGetItem(table) && LongToString(id) !in table
    ensures LoadMerchant(b, LongToString(id)) == Lookup(Error(NullPointer), [Call(DynamoDB, ById(LongToString(id)))])
  {
    EmptyItemStopsAtDynamoDb(b, LongToString(id));
  }

  /** With DynamoDB's client returning a null item (as the service test's
      mock does), Postgres empty, and a storage service that throws
      NoSuchKeyException for the missing object, the lookup fails with that
      exception after all three adapters were invoked once. The test's S3
      mock throws SdkClientException instead; `S3DecidesAfterTwoMisses`
      covers any such failure. */
  lemma NotFoundAnywhereSurfacesS3Error(b: Backends, id: Long, bucket: map<string, string>)
    requires b.dynamo(DynamoDbService.GetItemKey(LongToString(id))) == Ok(None)
    requires b.postgres.findById(id) == Ok(None)
    requires b.s3 == S3Adapter.StorageDownload(bucket) && S3Adapter.IdKey(LongToString(id)) !in bucket
    ensures LoadMerchant(b, LongToString(id)) ==
      Lookup(Error(NoSuchKey), [Call(DynamoDB, ById(LongToString(id))), Call(Postgres, ById(LongToString(id))),
                                Call(S3, ById(LongToString(id)))])
  {
    S3DecidesAfterTwoMisses(b, ById(LongToString(id)));
  }

  /** Because the DynamoDB email path always throws, a lookup by email never
      reaches Postgres or S3. */
  lemma ByEmailStopsAtDynamoDb(b: Backends, email: string)
    ensures LoadMerchantByEmail(b, email) == Lookup(Error(NullPointer), [Call(DynamoDB, ByEmail(email))])
  {
    ErrorStopsTheChain(b, ByEmail(email), NullPointer);
  }
}
