# Merchant store read path, modelled in Dafny

This project models the core of a Spring Boot merchant service. Merchants
live in three stores: a DynamoDB table of cached string items, a relational
(Postgres) table that JPA manages, and an S3 bucket of JSON documents.

Reads go through a tiered strategy. DynamoDB is asked first. The relational
table is asked only when DynamoDB has nothing. S3 is asked only when both
have nothing. An adapter that throws stops the chain, and the exception
reaches the caller. Writes (create, update, delete) go to the relational
table only.

The model is split into one module per source file:

- `Wrappers`: `Option` (Java's `null` and `Optional`) and `Result` (a
  value or the exception thrown).
- `JavaLang`: `Long.parseLong`, `Long.toString` and ASCII `toUpperCase`, as
  the adapters use them.
- `Entity`: the `Merchant` JPA entity, its lifecycle hooks, its setters
  and `BusinessTypeEnum.valueOf`.
- `Builder`: the fluent `MerchantBuilder`.
- `DynamoDbService`: the request maps sent to the DynamoDB client.
- `LoadService`: the three outcomes of a store lookup.
- `DynamoDbAdapter`, `PostgresAdapter`, `S3Adapter`: the three store
  adapters and how each one turns its store's data into a merchant.
- `LoadStrategy`: the fallback chain, with the list of adapters it called.
- `Repository`: the JPA repository as a table of rows, with its
  constraints.
- `PhoneticService`: the phonetic enrichment taken from a dictionary
  response.
- `Service`: `MerchantService`'s create, read, update and delete.
- `ResponseBean`: `MerchantResponseBean.from`.

The strategy is modelled as a short-circuit fold over a sequence of
adapters, `LoadStrategy.Fallback`. It is proved equal to the source's chain
of `Optional.or` calls (`LoadStrategy.Or`). The proofs also show which
adapters each lookup calls, in which order, and which answer decides it.

The SDK clients, the dictionary HTTP call and the Jackson parser are
passed in as functions. So every result holds for every behaviour of
those services.

### Behaviour worth knowing

The model follows the code in each of these cases:

- Enrichment failure: an exception from the dictionary lookup propagates
  out of `createMerchant`, so no merchant is created. A first dictionary
  entry with no `phonetic` field ends in a `NullPointerException`
  (`PhoneticService.MissingPhoneticThrows`).
- Business type on create: `createMerchant` does not copy the business
  type from the create bean, so a created merchant has none
  (`Service.MerchantService.CreateMerchant`).
- Lookup by email: the DynamoDB adapter's by-email lookup passes the
  filter `{email: ...}` to `queryItem`. That call only turns the filter
  back into an item and never reads the table. The item has no `id`
  attribute, so converting it always throws `NullPointerException`. As a
  result, a by-email lookup never reaches Postgres or S3
  (`LoadStrategy.ByEmailStopsAtDynamoDb`).
- Absent DynamoDB item: the service tests mock `GetItemResponse.item()` to
  return null for an absent item, and only then does a lookup by id fall
  back to Postgres (`LoadStrategy.OnlyInPostgres`). The AWS SDK for Java
  2.x documents that `item()` returns an empty map when the key is absent,
  not null. With that client, `toMerchant` throws at the missing `id`
  attribute, and a lookup by id of a merchant absent from DynamoDB never
  reaches Postgres or S3 (`LoadStrategy.AbsentFromTableStopsAtDynamoDb`).
  This rests on the SDK's documented behaviour; the SDK is not part of this
  model.
- Missing S3 object: `downloadFile` does not handle a missing object, so
  when a lookup reaches S3 and the object is missing, the result is the
  storage exception, not an empty result. The test's own comment
  (MerchantServiceTest.java:185-187) says so. A lookup reaches S3 only
  when DynamoDB's client returns a null item (as the test's mock does)
  and Postgres has no row; with the SDK's empty-map answer it stops at
  DynamoDB, as the previous point says. Under a storage service that
  throws `NoSuchKeyException`, that exception is the result after three
  calls (`LoadStrategy.NotFoundAnywhereSurfacesS3Error`). The test's S3
  mock throws `SdkClientException` instead, and then that failure is the
  result (`LoadStrategy.S3DecidesAfterTwoMisses`).
- The JSON literal `null`: an S3 document that is exactly `null` parses to
  `null`, and the adapter reports it as a miss.

## Model

Paths are relative to the repository root.

| member | source | states |
|---|---|---|
| `JavaLang.ParseLong` | src/main/java/com/merchant/testing/service/merchant/MerchantLoadServicePostgres.java:19 | A string is accepted exactly when, after an optional `+` or `-`, it is a non-empty run of decimal digits whose signed value lies in the 64-bit range, and the result is that value. So `+007` gives 7, while the empty string, a lone sign, any other character and an out-of-range value throw `NumberFormatException` |
| `JavaLang.ParseLongRange` | src/main/java/com/merchant/testing/service/merchant/MerchantLoadServicePostgres.java:19 | The decimal form of a natural number, with or without a minus sign, is accepted exactly when its value fits in a `long` |
| `JavaLang.NatToDecimal` | src/main/java/com/merchant/testing/service/merchant/MerchantService.java:47 | The decimal form of a natural number is non-empty, all digits, has no leading zero, and denotes exactly that number |
| `JavaLang.LongToString` | src/main/java/com/merchant/testing/service/merchant/MerchantService.java:47 | `id.toString()` is in canonical form: a minus sign exactly for negative values, then digits with no leading zero. `Long.parseLong` of it gives back exactly `id`, for every 64-bit value including the minimum |
| `JavaLang.LongToStringInjective` | src/main/java/com/merchant/testing/service/merchant/MerchantService.java:47 | Distinct ids have distinct strings, so a lookup by id's string never answers for another id |
| `JavaLang.CanonicalIsLongToString` | src/main/java/com/merchant/testing/controller/bean/MerchantResponseBean.java:19 | `Long.toString(x)` is the only canonical string that parses to `x`; the other strings accepted for `x` carry a `+` or leading zeros |
| `JavaLang.ToUpperAscii` | src/main/java/com/merchant/testing/service/merchant/MerchantLoadServiceDynamoDB.java:35 | Upper-casing keeps the length and upper-cases each character on its own |
| `JavaLang.ToUpperAsciiIdempotent` | src/main/java/com/merchant/testing/service/merchant/MerchantLoadServiceDynamoDB.java:35 | Upper-casing an already upper-cased string changes nothing |
| `Entity.ValueOf` | src/main/java/com/merchant/testing/service/merchant/MerchantLoadServiceDynamoDB.java:35 | `valueOf` returns constant `t` exactly when the name is `t`'s name; any other name throws `IllegalArgumentException` |
| `Entity.Merchant.constructor` | src/main/java/com/merchant/testing/entity/Merchant.java:45-46 | The no-argument constructor leaves every column null |
| `Entity.Merchant.Of` | src/main/java/com/merchant/testing/entity/Merchant.java:48-52 | The three-argument constructor sets name, email and business type, and leaves id, phonetics and timestamps null |
| `Entity.Merchant.OnCreate` | src/main/java/com/merchant/testing/entity/Merchant.java:33-37 | `@PrePersist` sets createdAt and updatedAt to the current instant, and no other column |
| `Entity.Merchant.OnUpdate` | src/main/java/com/merchant/testing/entity/Merchant.java:39-42 | `@PreUpdate` sets updatedAt only |
| `Entity.Merchant.SetId` | src/main/java/com/merchant/testing/entity/Merchant.java:59-61 | Only the id changes |
| `Entity.Merchant.SetName` | src/main/java/com/merchant/testing/entity/Merchant.java:67-69 | Only the name changes |
| `Entity.Merchant.SetEmail` | src/main/java/com/merchant/testing/entity/Merchant.java:75-77 | Only the email changes |
| `Entity.Merchant.SetPhonetics` | src/main/java/com/merchant/testing/entity/Merchant.java:79-81 | Only the phonetics change |
| `Entity.Merchant.SetBusinessType` | src/main/java/com/merchant/testing/entity/Merchant.java:87-89 | Only the business type changes |
| `Entity.Merchant.SetCreatedAt` | src/main/java/com/merchant/testing/entity/Merchant.java:95-97 | Only createdAt changes |
| `Entity.Merchant.SetUpdatedAt` | src/main/java/com/merchant/testing/entity/Merchant.java:103-105 | Only updatedAt changes |
| `Builder.MerchantBuilder.constructor` | src/main/java/com/merchant/testing/entity/MerchantBuilder.java:16-17 | A new builder holds no values |
| `Builder.MerchantBuilder.AMerchant` | src/main/java/com/merchant/testing/entity/MerchantBuilder.java:19-21 | `aMerchant()` returns a fresh, empty builder |
| `Builder.MerchantBuilder.WithId` | src/main/java/com/merchant/testing/entity/MerchantBuilder.java:23-26 | Returns the same builder (fluent chaining), with only the id replaced |
| `Builder.MerchantBuilder.WithName` | src/main/java/com/merchant/testing/entity/MerchantBuilder.java:28-31 | Returns the same builder, with only the name replaced |
| `Builder.MerchantBuilder.WithEmail` | src/main/java/com/merchant/testing/entity/MerchantBuilder.java:33-36 | Returns the same builder, with only the email replaced |
| `Builder.MerchantBuilder.WithBusinessType` | src/main/java/com/merchant/testing/entity/MerchantBuilder.java:38-41 | Returns the same builder, with only the business type replaced |
| `Builder.MerchantBuilder.WithPhonetics` | src/main/java/com/merchant/testing/entity/MerchantBuilder.java:43-46 | Returns the same builder, with only the phonetics replaced |
| `Builder.MerchantBuilder.WithCreatedAt` | src/main/java/com/merchant/testing/entity/MerchantBuilder.java:48-51 | Returns the same builder, with only createdAt replaced |
| `Builder.MerchantBuilder.WithUpdatedAt` | src/main/java/com/merchant/testing/entity/MerchantBuilder.java:53-56 | Returns the same builder, with only updatedAt replaced |
| `Builder.MerchantBuilder.Build` | src/main/java/com/merchant/testing/entity/MerchantBuilder.java:58-68 | `build()` returns a new entity whose seven columns are exactly the builder's values, and leaves the builder as it was |
| `Builder.BuildTwice` | src/main/java/com/merchant/testing/entity/MerchantBuilder.java:58-68 | Two `build()` calls give two distinct entities with equal columns |
| `Builder.NameTwice` | src/main/java/com/merchant/testing/entity/MerchantBuilder.java:28-31 | After two `withName` calls the later value wins |
| `DynamoDbService.QueryItem` | src/main/java/com/merchant/testing/service/aws/DynamoDbService.java:35-41 | The item built from a filter map has the filter's keys, each holding the filter's string as an `S` attribute |
| `DynamoDbService.GetItemKey` | src/main/java/com/merchant/testing/service/aws/DynamoDbService.java:43-44 | The get-item key holds only the `id` attribute, set to the id string |
| `DynamoDbService.GetItemKeyInjective` | src/main/java/com/merchant/testing/service/aws/DynamoDbService.java:43-44 | Distinct ids give distinct keys |
| `DynamoDbService.GetItem` | src/main/java/com/merchant/testing/service/aws/DynamoDbService.java:42-53 | The client is called once, with that key, and `response.item()` is returned as it is: an error propagates, and a null item (as the test's mock gives) stays null |
| `DynamoDbService.PutItemRequest` | src/main/java/com/merchant/testing/service/aws/DynamoDbService.java:24-26 | The stored item has exactly the attributes `id` and `merchantName`, and no `name` or `email` |
| `DynamoDbService.PutItem` | src/main/java/com/merchant/testing/service/aws/DynamoDbService.java:23-34 | The put client is called once, with that item, and its outcome is returned |
| `DynamoDbService.TableGetItem` | src/main/java/com/merchant/testing/service/aws/DynamoDbService.java:51-52 | With the SDK's client over a table, `getItem` returns the stored item for a present id and an empty map, never null, for an absent one |
| `LoadService.OfResult` | src/main/java/com/merchant/testing/service/merchant/MerchantLoadService.java:7-10 | A store answer maps to a hit when it holds a merchant, a miss when it is empty, and an error when it threw |
| `DynamoDbAdapter.ToMerchant` | src/main/java/com/merchant/testing/service/merchant/MerchantLoadServiceDynamoDB.java:30-38 | An item converts exactly when it is normalisable. The id is the parsed `id` string; name, email and phonetics are copied; the business type is `valueOf` of the upper-cased string; timestamps stay null. A missing `id` throws NPE, and a null or unparsable id throws `NumberFormatException`. After a valid id: a missing `name`, `email`, `businessType` or `phonetics`, or a non-string `businessType`, throws NPE, and an unknown business-type name throws `valueOf`'s `IllegalArgumentException`, in the chain's order |
| `DynamoDbAdapter.LoadMerchant` | src/main/java/com/merchant/testing/service/merchant/MerchantLoadServiceDynamoDB.java:24-27 | A miss exactly when the client returns a null item (as the test's mock does). A client error propagates. A non-null item gives the hit `toMerchant` builds from it, or the exception `toMerchant` throws; a hit always has an id and no timestamps |
| `DynamoDbAdapter.LoadMerchantByEmail` | src/main/java/com/merchant/testing/service/merchant/MerchantLoadServiceDynamoDB.java:41-44 | For every email, the lookup throws `NullPointerException` |
| `DynamoDbAdapter.BusinessTypeCaseInsensitive` | src/main/java/com/merchant/testing/service/merchant/MerchantLoadServiceDynamoDB.java:35 | Two spellings of the business type that upper-case the same convert the same |
| `DynamoDbAdapter.MediumInAnyCase` | src/main/java/com/merchant/testing/service/merchant/MerchantLoadServiceDynamoDB.java:35 | `medium` and `MEDIUM` both read as `MEDIUM` |
| `DynamoDbAdapter.TestItemLoads` | src/test/java/com/merchant/testing/service/merchant/MerchantServiceTest.java:250-264 | The test item `123` / `John Doe` loads as merchant 123 with that name, email, phonetics and business type |
| `DynamoDbAdapter.PutItemNotLoadable` | src/main/java/com/merchant/testing/service/aws/DynamoDbService.java:23-34 | An item written by `putItem` can never be read back by the adapter: it lacks `name` and `email` |
| `PostgresAdapter.LoadMerchant` | src/main/java/com/merchant/testing/service/merchant/MerchantLoadServicePostgres.java:18-20 | An unparsable id throws `NumberFormatException` before the repository is asked; otherwise the result is `findById` of the parsed id |
| `PostgresAdapter.LoadMerchantByEmail` | src/main/java/com/merchant/testing/service/merchant/MerchantLoadServicePostgres.java:23-25 | A miss exactly when `findByEmail` is empty; when it holds a row, a hit with exactly that row; its error propagates |
| `PostgresAdapter.IdRoundTrip` | src/main/java/com/merchant/testing/service/merchant/MerchantLoadServicePostgres.java:19 | Looking up `id.toString()` asks the repository for exactly `id` |
| `S3Adapter.IdKey` | src/main/java/com/merchant/testing/service/merchant/MerchantLoadServiceS3.java:23 | The object key is `merchants/` followed by the id, unaltered |
| `S3Adapter.EmailKey` | src/main/java/com/merchant/testing/service/merchant/MerchantLoadServiceS3.java:29 | The object key is `merchants-email/` followed by the email, unaltered |
| `S3Adapter.KeysInjective` | src/main/java/com/merchant/testing/service/merchant/MerchantLoadServiceS3.java:22-31 | Distinct ids give distinct keys, and so do distinct emails |
| `S3Adapter.KeyNamespacesDisjoint` | src/main/java/com/merchant/testing/service/merchant/MerchantLoadServiceS3.java:22-31 | No id key equals any email key |
| `S3Adapter.ParseMerchant` | src/main/java/com/merchant/testing/service/merchant/MerchantLoadServiceS3.java:33-39 | A document gives its merchant. The literal `null` gives null. Malformed JSON is rethrown as a `JsonProcessingException` wrapper |
| `S3Adapter.LoadKey` | src/main/java/com/merchant/testing/service/merchant/MerchantLoadServiceS3.java:22-25 | A miss exactly when the download is null or parses to null. A download error propagates, and malformed content is an error. A present object that parses to a merchant gives a hit with exactly that merchant, and every hit comes from such an object |
| `S3Adapter.LoadMerchant` | src/main/java/com/merchant/testing/service/merchant/MerchantLoadServiceS3.java:22-25 | Reads the key `merchants/` + id |
| `S3Adapter.LoadMerchantByEmail` | src/main/java/com/merchant/testing/service/merchant/MerchantLoadServiceS3.java:28-31 | Reads the key `merchants-email/` + email |
| `S3Adapter.ReadsOnlyItsKey` | src/main/java/com/merchant/testing/service/merchant/MerchantLoadServiceS3.java:22-31 | Two buckets that agree on the one key give the same answer |
| `S3Adapter.MissingObjectThrows` | src/main/java/com/merchant/testing/service/aws/S3StorageService.java:31-38 | With the real storage service, a missing object throws `NoSuchKeyException`, and the S3 adapter never reports a miss for an absent key |
| `S3Adapter.StorageDownload` | src/main/java/com/merchant/testing/service/aws/S3StorageService.java:31-38 | `downloadFile` over a bucket gives a stored object's content, and throws `NoSuchKeyException` (never null) for a missing object |
| `LoadStrategy.Fallback` | src/main/java/com/merchant/testing/service/merchant/MerchantLoadServiceStrategy.java:21-25 | Adapters are called in order, each with the same query. Every adapter before the last one called missed. A miss means all of them missed. Otherwise the outcome is the answer of the last adapter called |
| `LoadStrategy.LoadMerchant` | src/main/java/com/merchant/testing/service/merchant/MerchantLoadServiceStrategy.java:21-25 | The outcome equals the `Optional.or` chain DynamoDB, then Postgres, then S3. Between one and three calls are made, as a prefix of that order |
| `LoadStrategy.LoadMerchantByEmail` | src/main/java/com/merchant/testing/service/merchant/MerchantLoadServiceStrategy.java:28-32 | The same, for a lookup by email |
| `LoadStrategy.Or` | src/main/java/com/merchant/testing/service/merchant/MerchantLoadServiceStrategy.java:23-24 | `Optional.or`: the alternative is used exactly when the first is empty, and the result is empty exactly when both are |
| `LoadStrategy.Adapters` | src/main/java/com/merchant/testing/service/merchant/MerchantLoadServiceStrategy.java:22-24 | Three adapters in the fixed order DynamoDB, Postgres, S3, each answering with its own store's lookup |
| `LoadStrategy.AgreesWithOrChain` | src/main/java/com/merchant/testing/service/merchant/MerchantLoadServiceStrategy.java:21-32 | The fold over the adapter list equals the nested `or` chain, for every query |
| `LoadStrategy.CallsArePrefixOfOrder` | src/main/java/com/merchant/testing/service/merchant/MerchantLoadServiceStrategy.java:21-32 | The stores called are a non-empty prefix of DynamoDB, Postgres, S3 |
| `LoadStrategy.DynamoDbHitWins` | src/main/java/com/merchant/testing/service/merchant/MerchantLoadServiceStrategy.java:22 | A DynamoDB hit is returned, and neither Postgres nor S3 is queried |
| `LoadStrategy.PostgresHitAfterDynamoDbMiss` | src/main/java/com/merchant/testing/service/merchant/MerchantLoadServiceStrategy.java:23 | After a DynamoDB miss, a Postgres hit is returned and S3 is not queried |
| `LoadStrategy.S3DecidesAfterTwoMisses` | src/main/java/com/merchant/testing/service/merchant/MerchantLoadServiceStrategy.java:24 | After two misses, S3's answer is the answer, and all three stores were called |
| `LoadStrategy.ErrorStopsTheChain` | src/main/java/com/merchant/testing/service/merchant/MerchantLoadServiceStrategy.java:21-25 | An exception from DynamoDB, or from Postgres after a DynamoDB miss, is the result, and no later store is called |
| `LoadStrategy.OnlyInPostgres` | src/test/java/com/merchant/testing/service/merchant/MerchantServiceTest.java:142-167 | With DynamoDB's client returning a null item (the test's mock), a merchant present in Postgres is returned from Postgres after exactly two calls |
| `LoadStrategy.EmptyItemStopsAtDynamoDb` | src/main/java/com/merchant/testing/service/merchant/MerchantLoadServiceDynamoDB.java:24-32 | An empty item from DynamoDB's client makes `toMerchant` throw `NullPointerException`, so the lookup by id ends at DynamoDB after one call |
| `LoadStrategy.AbsentFromTableStopsAtDynamoDb` | src/main/java/com/merchant/testing/service/aws/DynamoDbService.java:42-53 | With the SDK's client, an id absent from the DynamoDB table ends the lookup with `NullPointerException` after one call; Postgres and S3 are never asked |
| `LoadStrategy.NotFoundAnywhereSurfacesS3Error` | src/test/java/com/merchant/testing/service/merchant/MerchantServiceTest.java:169-195 | With DynamoDB's client returning a null item (as the test's mock does), Postgres empty, and a storage service that throws `NoSuchKeyException` for the missing object, the lookup fails with that exception after three calls. The test's S3 mock throws `SdkClientException` instead; `S3DecidesAfterTwoMisses` covers that case |
| `LoadStrategy.ByEmailStopsAtDynamoDb` | src/main/java/com/merchant/testing/service/merchant/MerchantLoadServiceStrategy.java:28-32 | Every by-email lookup fails at DynamoDB with `NullPointerException`, after one call |
| `PhoneticService.GetPhonetics` | src/main/java/com/merchant/testing/service/merchant/MerchantPhoneticService.java:18-25 | A dictionary error propagates. The result is empty exactly when the dictionary returns no entries. A first entry with a non-null `phonetic` gives exactly that value, and every value comes from there |
| `PhoneticService.MissingPhoneticThrows` | src/main/java/com/merchant/testing/service/merchant/MerchantPhoneticService.java:23 | A first entry with no `phonetic` field, or a null one, throws `NullPointerException` |
| `PhoneticService.OnlyFirstEntryMatters` | src/main/java/com/merchant/testing/service/merchant/MerchantPhoneticService.java:23 | Two responses with the same first entry give the same phonetics |
| `Repository.MerchantRepository.constructor` | src/main/java/com/merchant/testing/repository/MerchantRepository.java:9-15 | An empty table satisfies the invariant: ids match keys and are below the sequence, required columns are non-null, emails are unique |
| `Repository.MerchantRepository.Lookup` | src/main/java/com/merchant/testing/repository/MerchantRepository.java:10 | `findById` finds a row exactly when the id is a key, and returns that row |
| `Repository.MerchantRepository.FindByEmail` | src/main/java/com/merchant/testing/repository/MerchantRepository.java:12 | Returns a row exactly when some row holds the email, and the row it returns holds it |
| `Repository.MerchantRepository.ExistsByEmail` | src/main/java/com/merchant/testing/repository/MerchantRepository.java:14 | True exactly when the email is non-null and some row holds it |
| `Repository.MerchantRepository.FindAll` | src/main/java/com/merchant/testing/repository/MerchantRepository.java:10 | Returns every row and nothing else |
| `Repository.MerchantRepository.View` | src/main/java/com/merchant/testing/service/merchant/MerchantLoadServicePostgres.java:18-25 | The finders the Postgres adapter calls answer exactly as `Lookup` and `FindByEmail` do |
| `Repository.MerchantRepository.FindById` | src/main/java/com/merchant/testing/service/merchant/MerchantService.java:56-57 | Empty exactly when the id has no row; otherwise a fresh entity holding that row |
| `Repository.MerchantRepository.Save` | src/main/java/com/merchant/testing/entity/Merchant.java:11-42 | An insert runs `onCreate` and takes the next sequence id. An update runs `onUpdate` only when a column changed, keeps the stored createdAt, and rewrites that row only. Null name or email, or another row's email, is a constraint violation; an unknown id is stale; an exhausted sequence fails. A rejected save changes nothing. The invariant is kept |
| `Repository.MerchantRepository.DeleteById` | src/main/java/com/merchant/testing/service/merchant/MerchantService.java:67 | Removes exactly that row (no-op when absent) and keeps the invariant |
| `Service.PhoneticsOrEmpty` | src/main/java/com/merchant/testing/service/merchant/MerchantService.java:33 | An empty lookup becomes `""`; a found value is kept |
| `Service.MerchantService.constructor` | src/main/java/com/merchant/testing/service/merchant/MerchantService.java:20-26 | The service keeps the repository and backends it was given |
| `Service.MerchantService.CreateMerchant` | src/main/java/com/merchant/testing/service/merchant/MerchantService.java:29-40 | A taken email is rejected with "Merchant with email already exists" before the dictionary is asked. A dictionary error propagates. Otherwise the stored row has the next id, the bean's name and email, no business type, the phonetics or `""`, and both timestamps. Nothing changes on failure |
| `Service.MerchantService.GetAllMerchants` | src/main/java/com/merchant/testing/service/merchant/MerchantService.java:42-44 | Exactly the rows of the table |
| `Service.MerchantService.GetMerchantById` | src/main/java/com/merchant/testing/service/merchant/MerchantService.java:46-48 | The strategy is asked with the id's decimal string, starting at DynamoDB, and that string parses back to the id |
| `Service.MerchantService.GetMerchantByEmail` | src/main/java/com/merchant/testing/service/merchant/MerchantService.java:50-52 | The strategy is asked with the email unchanged, starting at DynamoDB |
| `Service.MerchantService.UpdateMerchant` | src/main/java/com/merchant/testing/service/merchant/MerchantService.java:55-63 | An unknown id is rejected with "Merchant not found" and nothing is saved. Otherwise name and business type come from the details and every other column is kept; updatedAt advances only when one of them changed; a null name violates the constraint |
| `Service.MerchantService.DeleteMerchant` | src/main/java/com/merchant/testing/service/merchant/MerchantService.java:66-68 | Exactly that row is removed and the invariant holds |
| `Service.StoredMerchantFoundById` | src/main/java/com/merchant/testing/service/merchant/MerchantService.java:46-48 | A stored merchant for which DynamoDB's client returns a null item (as the test's mock does) is found by id through Postgres, and S3 is not consulted |
| `Service.CreateTwiceWithOneEmail` | src/main/java/com/merchant/testing/service/merchant/MerchantService.java:30-32 | After one successful create, a second create with the same email is rejected, and only the first row was added |
| `Service.DeleteOnlyMerchant` | src/main/java/com/merchant/testing/service/merchant/MerchantService.java:66-68 | Deleting the only merchant empties `getAllMerchants()`, and deleting it again is harmless |
| `ResponseBean.From` | src/main/java/com/merchant/testing/controller/bean/MerchantResponseBean.java:11-24 | A null merchant, or one with a null id, is rejected with its message. Otherwise the bean's id is `Long.toString` of the merchant's id, in canonical form, and parses back to it; business type, email and name are copied |
| `ResponseBean.IgnoresPhoneticsAndTimestamps` | src/main/java/com/merchant/testing/controller/bean/MerchantResponseBean.java:6-9 | Merchants that differ only in phonetics or timestamps give the same bean |

## Left out

- The AWS SDK clients, the dictionary HTTP call and Jackson's
  `readValue`: they are parameters of the model (functions from request to
  result), so every property holds for any behaviour of those services.
- `MerchantController`, `DictionaryApiService` and the configuration classes: they are not part
  of this model. Only the missing-key behaviour of `S3StorageService` is
  modelled; bucket and table names are not.
- `JavaLang.ParseLong`: does not accept the non-ASCII Unicode digits that
  `Long.parseLong` accepts, because the store ids are ASCII.
- `JavaLang.ToUpperAscii`: upper-cases ASCII letters only. Non-ASCII input
  and the default locale are out of scope. Java's `toUpperCase` maps `ı`
  to `I` and `ſ` to `S`, and under a Turkish locale maps `i` to `İ`, so
  for such spellings of a stored business type Java and the model differ.
- `Entity.Merchant.OnCreate`: the two `LocalDateTime.now()` reads are taken
  to give the same instant, and the clock is a parameter.
- Getters of `Merchant`: they are modelled as reads of the fields.
- `Repository.MerchantRepository.Save`: checks the column constraints
  before the lifecycle hook runs, so a rejected insert leaves the entity
  untouched. In Hibernate, `@PrePersist` would already have set the
  timestamps. Save also does not model the persistence context (managed
  instances, merge copies, flush timing): an update of an unknown id is
  reported as a stale entity rather than merged as a new row.
- `@Transactional` rollback: every operation makes its change in one step
  and changes nothing when it fails, so there is nothing to roll back.
- `Repository.MerchantRepository.FindAll` and
  `Service.MerchantService.GetAllMerchants`: return a set, so the list order
  of `findAll` is not modelled.
- The read path returns merchant values, not managed entity objects, so
  the identity of entities returned by the adapters is not modelled.
- Null arguments: a null `Long` id, a null email or null update details
  passed to the service or the adapters are not modelled. `Long.toString`
  on a null id would throw.
- Concurrency: simultaneous requests and cross-store consistency are not
  modelled.
