/** MerchantService.java: create, read, update and delete of merchants.
    Reads go through the load strategy; writes go to the repository only. */
module Service {
  import opened Wrappers
  import opened JavaLang
  import opened Entity
  import opened Builder
  import opened Repository
  import opened PhoneticService
  import LoadService
  import LoadStrategy
  import DynamoDbService
  import S3Adapter

  /** MerchantCreateBean: the request to create a merchant. */
  datatype CreateBean = CreateBean(name: Option<string>, email: Option<string>, businessType: Option<BusinessType>)

  const DUPLICATE_EMAIL: string := "Merchant with email already exists"
  const NOT_FOUND: string := "Merchant not found"

  /** The phonetics `createMerchant` stores for a successful lookup:
      `orElse("")`. */
  function PhoneticsOrEmpty(found: Option<string>): (p: string)
    ensures found.Some? ==> p == found.value
    ensures found.None? ==> p == ""
  {
    if found.Some? then found.value else ""
  }

  class MerchantService {
    const repository: MerchantRepository
    const dynamo: DynamoDbService.GetItemClient
    const s3: S3Adapter.Download
    const parse: S3Adapter.Parser
    const dictionary: Dictionary

    ghost predicate Valid()
      reads this, repository
    {
      repository.Valid()
    }

    constructor (repository: MerchantRepository, dynamo: DynamoDbService.GetItemClient,
                 s3: S3Adapter.Download, parse: S3Adapter.Parser, dictionary: Dictionary)
      requires repository.Valid()
      ensures Valid()
      ensures this.repository == repository && this.dynamo == dynamo && this.s3 == s3
      ensures this.parse == parse && this.dictionary == dictionary
    {
      this.repository := repository;
      this.dynamo := dynamo;
      this.s3 := s3;
      this.parse := parse;
      this.dictionary := dictionary;
    }

    /** The collaborators of the load strategy; Postgres is this repository. */
    function Backends(): LoadStrategy.Backends
      reads this, repository
      requires Valid()
    {
      LoadStrategy.Backends(dynamo, repository.View(), s3, parse)
    }

    /** `createMerchant(bean)`. An email already in the repository is
        rejected before the phonetic lookup; a failing lookup propagates;
        otherwise a merchant with the bean's name and email, the phonetics or
        "" and no business type is built and saved, and the saved entity is
        returned. Nothing changes unless the save succeeds. */
    method CreateMerchant(bean: CreateBean, now: Timestamp) returns (r: Result<Merchant>)
      requires Valid()
      modifies repository
      ensures Valid()
      ensures r.Err? ==> repository.rows == old(repository.rows) && repository.nextId == old(repository.nextId)
      ensures old(repository.ExistsByEmail(bean.email)) ==> r == Err(IllegalArgument(DUPLICATE_EMAIL))
      ensures !old(repository.ExistsByEmail(bean.email)) && GetPhonetics(dictionary, bean.name).Err? ==>
        r == Err(GetPhonetics(dictionary, bean.name).error)
      ensures (&& !old(repository.ExistsByEmail(bean.email)) && GetPhonetics(dictionary, bean.name).Ok?
               && (bean.name.None? || bean.email.None?)) ==> r == Err(ConstraintViolation)
      ensures (&& !old(repository.ExistsByEmail(bean.email)) && GetPhonetics(dictionary, bean.name).Ok?
               && bean.name.Some? && bean.email.Some?) ==>
        if old(repository.nextId) > LONG_MAX then r == Err(SequenceExhausted)
        else
          var saved := MerchantData(Some(old(repository.nextId)), bean.name, bean.email, None,
                                    Some(PhoneticsOrEmpty(GetPhonetics(dictionary, bean.name).value)),
                                    Some(now), Some(now));
          && r.Ok? && fresh(r.value) && r.value.Snapshot() == saved
          && repository.rows == old(repository.rows)[old(repository.nextId) := saved]
    {
      if repository.ExistsByEmail(bean.email) {
        return Err(IllegalArgument(DUPLICATE_EMAIL));
      }
      var looked := GetPhonetics(dictionary, bean.name);
      if looked.Err? {
        return Err(looked.error);
      }
      var phonetics := PhoneticsOrEmpty(looked.value);
      var builder := MerchantBuilder.AMerchant();
      builder := builder.WithEmail(bean.email);
      builder := builder.WithName(bean.name);
      builder := builder.WithPhonetics(Some(phonetics));
      var merchant := builder.Build();
      r := repository.Save(merchant, now);
    }

    /** `getAllMerchants()`: `findAll` unchanged. */
    function GetAllMerchants(): (all: set<MerchantData>)
      reads this, repository
      ensures all == repository.FindAll()
    {
      repository.FindAll()
    }

    /** `getMerchantById(id)`: the strategy's lookup of the id's decimal
        string. */
    function GetMerchantById(id: Long): (r: LoadStrategy.Lookup)
      reads this, repository
      requires Valid()
      ensures r == LoadStrategy.LoadMerchant(Backends(), LongToString(id))
      ensures r.calls[0] == LoadStrategy.Call(LoadStrategy.DynamoDB, LoadStrategy.ById(LongToString(id)))
      ensures ParseLong(r.calls[0].query.merchantId) == Some(id)
    {
      LoadStrategy.LoadMerchant(Backends(), LongToString(id))
    }

    /** `getMerchantByEmail(email)`: the strategy's lookup of the email,
        unchanged. */
    function GetMerchantByEmail(email: string): (r: LoadStrategy.Lookup)
      reads this, repository
      requires Valid()
      ensures r == LoadStrategy.LoadMerchantByEmail(Backends(), email)
      ensures r.calls[0] == LoadStrategy.Call(LoadStrategy.DynamoDB, LoadStrategy.ByEmail(email))
    {
      LoadStrategy.LoadMerchantByEmail(Backends(), email)
    }

    /** `updateMerchant(id, details)`: an id with no row is rejected without
        a save; otherwise the loaded entity gets the details' name and
        business type, everything else kept, and is saved. */
    method UpdateMerchant(id: Long, details: Merchant, now: Timestamp) returns (r: Result<Merchant>)
      requires Valid()
      modifies repository
      ensures Valid()
      ensures repository.nextId == old(repository.nextId)
      ensures r.Err? ==> repository.rows == old(repository.rows)
      ensures id !in old(repository.rows) ==> r == Err(IllegalArgument(NOT_FOUND))
      ensures id in old(repository.rows) && details.name.None? ==> r == Err(ConstraintViolation)
      ensures id in old(repository.rows) && details.name.Some? ==>
        var before := old(repository.rows)[id];
        var edited := before.(name := details.name, businessType := details.businessType);
        var after := if edited == before then before else edited.(updatedAt := Some(now));
        && r.Ok? && fresh(r.value) && r.value.Snapshot() == after
        && repository.rows == old(repository.rows)[id := after]
    {
      var found := repository.FindById(id);
      if found.None? {
        return Err(IllegalArgument(NOT_FOUND));
      }
      var merchant := found.value;
      merchant.SetName(details.name);
      merchant.SetBusinessType(details.businessType);
      r := repository.Save(merchant, now);
    }

    /** `deleteMerchant(id)`: `deleteById` with the same id. */
    method DeleteMerchant(id: Long)
      requires Valid()
      modifies repository
      ensures Valid()
      ensures repository.rows == old(repository.rows) - {id}
      ensures repository.nextId == old(repository.nextId)
    {
      repository.DeleteById(id);
    }
  }

  /** A merchant stored in the relational database, for which DynamoDB's
      client returns a null item (as the service test's mock does), is read
      from Postgres under its own id; S3 is not consulted. */
  lemma StoredMerchantFoundById(service: MerchantService, id: Long)
    requires service.Valid()
    requires service.dynamo(DynamoDbService.GetItemKey(LongToString(id))) == Ok(None)
    requires id in service.repository.rows
    ensures service.GetMerchantById(id) ==
      LoadStrategy.Lookup(LoadService.Hit(service.repository.rows[id]),
        [LoadStrategy.Call(LoadStrategy.DynamoDB, LoadStrategy.ById(LongToString(id))),
         LoadStrategy.Call(LoadStrategy.Postgres, LoadStrategy.ById(LongToString(id)))])
  {
    var b := service.Backends();
    assert b.postgres.findById(id) == Ok(Some(service.repository.rows[id]));
    LoadStrategy.OnlyInPostgres(b, id, service.repository.rows[id]);
  }

  /** Creating two merchants with one email: the second is rejected and the
      table keeps a single row for that email. */
  method CreateTwiceWithOneEmail(service: MerchantService, email: string, now: Timestamp)
    returns (first: Result<Merchant>, second: Result<Merchant>)
    requires service.Valid()
    modifies service.repository
    ensures service.Valid()
    ensures first.Ok? ==> second == Err(IllegalArgument(DUPLICATE_EMAIL))
    ensures first.Ok? ==> first.value.id.Some? && service.repository.rows == old(service.repository.rows)[first.value.id.value := first.value.Snapshot()]
  {
    first := service.CreateMerchant(CreateBean(Some("Ann"), Some(email), Some(MEDIUM)), now);
    if first.Ok? {
      assert service.repository.rows[first.value.id.value].email == Some(email);
    }
    second := service.CreateMerchant(CreateBean(Some("Bob"), Some(email), Some(SMALL)), now);
  }

  /** Deleting the only merchant leaves `getAllMerchants()` empty; deleting
      it again is a no-op. */
  method DeleteOnlyMerchant(service: MerchantService, id: Long)
    requires service.Valid() && service.repository.rows.Keys == {id}
    modifies service.repository
    ensures service.Valid()
    ensures service.GetAllMerchants() == {}
  {
    service.DeleteMerchant(id);
    service.DeleteMerchant(id);
  }
}
