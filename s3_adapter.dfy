/** MerchantLoadServiceS3.java: reads a merchant document from S3 and
    deserialises it. */
module S3Adapter {
  import opened Wrappers
  import opened Entity
  import opened LoadService

  const ID_PREFIX: string := "merchants/"
  const EMAIL_PREFIX: string := "merchants-email/"

  /** `s3StorageService.downloadFile(key)`: the object's content, null, or a
      failure. The real service throws for a missing object; see
      `StorageDownload`. */
  type Download = string -> Result<Option<string>>

  /** What Jackson's `readValue(s, Merchant.class)` produces: a merchant,
      null (the document `null`), or a JsonProcessingException. */
  datatype Parsed = Document(merchant: MerchantData) | JsonNull | Malformed

  type Parser = string -> Parsed

  /** The object key of a lookup by id. */
  function IdKey(merchantId: string): (key: string)
    ensures |key| == |ID_PREFIX| + |merchantId|
    ensures key[..|ID_PREFIX|] == ID_PREFIX && key[|ID_PREFIX|..] == merchantId
  {
    ID_PREFIX + merchantId
  }

  /** The object key of a lookup by email. */
  function EmailKey(email: string): (key: string)
    ensures |key| == |EMAIL_PREFIX| + |email|
    ensures key[..|EMAIL_PREFIX|] == EMAIL_PREFIX && key[|EMAIL_PREFIX|..] == email
  {
    EMAIL_PREFIX + email
  }

  /** Within each namespace distinct arguments give distinct keys. */
  lemma {:induction false} KeysInjective(a: string, b: string)
    ensures IdKey(a) == IdKey(b) ==> a == b
    ensures EmailKey(a) == EmailKey(b) ==> a == b
  {
    if IdKey(a) == IdKey(b) {
      assert a == IdKey(a)[|ID_PREFIX|..] == IdKey(b)[|ID_PREFIX|..] == b;
    }
    if EmailKey(a) == EmailKey(b) {
      assert a == EmailKey(a)[|EMAIL_PREFIX|..] == EmailKey(b)[|EMAIL_PREFIX|..] == b;
    }
  }

  /** An id key is never an email key: the tenth characters differ. */
  lemma KeyNamespacesDisjoint(merchantId: string, email: string)
    ensures IdKey(merchantId) != EmailKey(email)
  {
    assert IdKey(merchantId)[9] == '/';
    assert EmailKey(email)[9] == '-';
  }

  /** `parseMerchant(s)`: a JsonProcessingException is rethrown as a
      RuntimeException; a null document stays null. */
  function ParseMerchant(parse: Parser, s: string): (r: Result<Option<MerchantData>>)
    ensures parse(s) == Malformed ==> r == Err(JsonProcessing)
    ensures parse(s) == JsonNull ==> r == Ok(None)
    ensures parse(s).Document? ==> r == Ok(Some(parse(s).merchant))
  {
    match parse(s)
    case Document(m) => Ok(Some(m))
    case JsonNull => Ok(None)
    case Malformed => Err(JsonProcessing)
  }

  /** `Optional.ofNullable(downloadFile(key)).map(this::parseMerchant)`:
      `map` turns a null from the parser into an empty result too. */
  function LoadKey(download: Download, parse: Parser, key: string): (r: Outcome)
    ensures r.Miss? <==> download(key) == Ok(None) || (download(key).Ok? && download(key).value.Some? && parse(download(key).value.value) == JsonNull)
    ensures download(key).Err? ==> r == Error(download(key).error)
    ensures download(key).Ok? && download(key).value.Some? && parse(download(key).value.value) == Malformed ==> r == Error(JsonProcessing)
    ensures r.Hit? ==> && download(key).Ok? && download(key).value.Some?
                       && parse(download(key).value.value) == Document(r.merchant)
    ensures download(key).Ok? && download(key).value.Some? && parse(download(key).value.value).Document? ==>
      r == Hit(parse(download(key).value.value).merchant)
  {
    match download(key)
    case Err(e) => Error(e)
    case Ok(None) => Miss
    case Ok(Some(s)) => OfResult(ParseMerchant(parse, s))
  }

  /** `loadMerchant(merchantId)`: reads exactly `"merchants/" + merchantId`. */
  function LoadMerchant(download: Download, parse: Parser, merchantId: string): (r: Outcome)
    ensures r == LoadKey(download, parse, "merchants/" + merchantId)
  {
    LoadKey(download, parse, IdKey(merchantId))
  }

  /** `loadMerchantByEmail(email)`: reads exactly `"merchants-email/" + email`. */
  function LoadMerchantByEmail(download: Download, parse: Parser, email: string): (r: Outcome)
    ensures r == LoadKey(download, parse, "merchants-email/" + email)
  {
    LoadKey(download, parse, EmailKey(email))
  }

  /** The adapter's answer depends on the store only through the one key it
      reads. */
  lemma ReadsOnlyItsKey(d1: Download, d2: Download, parse: Parser, merchantId: string, email: string)
    ensures d1(ID_PREFIX + merchantId) == d2(ID_PREFIX + merchantId) ==>
      LoadMerchant(d1, parse, merchantId) == LoadMerchant(d2, parse, merchantId)
    ensures d1(EMAIL_PREFIX + email) == d2(EMAIL_PREFIX + email) ==>
      LoadMerchantByEmail(d1, parse, email) == LoadMerchantByEmail(d2, parse, email)
  {
  }

  /** S3StorageService.downloadFile over a bucket: the object's content, and
      a NoSuchKey failure (not null) for a missing object. */
  function StorageDownload(bucket: map<string, string>): (d: Download)
    ensures forall key :: key in bucket ==> d(key) == Ok(Some(bucket[key]))
    ensures forall key :: key !in bucket ==> d(key) == Err(NoSuchKey)
  {
    key => if key in bucket then Ok(Some(bucket[key])) else Err(NoSuchKey)
  }

  /** Against the real storage service a merchant that is not in the bucket
      is an error, never an empty result; the adapter can only miss on a
      stored `null` document. */
  lemma MissingObjectThrows(bucket: map<string, string>, parse: Parser, merchantId: string)
    ensures IdKey(merchantId) !in bucket ==> LoadMerchant(StorageDownload(bucket), parse, merchantId) == Error(NoSuchKey)
    ensures LoadMerchant(StorageDownload(bucket), parse, merchantId).Miss? ==>
      IdKey(merchantId) in bucket && parse(bucket[IdKey(merchantId)]) == JsonNull
  {
  }
}
