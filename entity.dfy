/** The merchant entity (Merchant.java) and its business-type enumeration. */
module Entity {
  import opened Wrappers
  import opened JavaLang

  /** BusinessTypeEnum: the constants the code base uses. */
  datatype BusinessType = SMALL | MEDIUM | LARGE

  function Name(t: BusinessType): string
  {
    match t
    case SMALL => "SMALL"
    case MEDIUM => "MEDIUM"
    case LARGE => "LARGE"
  }

  /** `BusinessTypeEnum.valueOf(name)`: the constant whose name is exactly
      `name`, otherwise an IllegalArgumentException. */
  function ValueOf(name: string): (r: Result<BusinessType>)
    ensures forall t: BusinessType :: r == Ok(t) <==> Name(t) == name
    ensures r.Err? ==> r.error.IllegalArgument?
  {
    if name == "SMALL" then Ok(SMALL)
    else if name == "MEDIUM" then Ok(MEDIUM)
    else if name == "LARGE" then Ok(LARGE)
    else
      assert forall t: BusinessType :: Name(t) != name;
      Err(IllegalArgument("No enum constant com.merchant.testing.domain.enums.BusinessTypeEnum." + name))
  }

  /** `LocalDateTime`, kept opaque: only equality of instants matters. */
  datatype Timestamp = Timestamp(instant: int)

  /** The seven persistent fields of a Merchant; `None` is Java's null. */
  datatype MerchantData = MerchantData(
    id: Option<Long>,
    name: Option<string>,
    email: Option<string>,
    businessType: Option<BusinessType>,
    phonetics: Option<string>,
    createdAt: Option<Timestamp>,
    updatedAt: Option<Timestamp>)

  /** Every field null. */
  const Blank: MerchantData := MerchantData(None, None, None, None, None, None, None)

  /** Merchant.java: a mutable JPA entity. */
  class Merchant {
    var id: Option<Long>
    var name: Option<string>
    var email: Option<string>
    var businessType: Option<BusinessType>
    var phonetics: Option<string>
    var createdAt: Option<Timestamp>
    var updatedAt: Option<Timestamp>

    /** The current values of the fields. */
    function Snapshot(): MerchantData
      reads this
    {
      MerchantData(id, name, email, businessType, phonetics, createdAt, updatedAt)
    }

    /** `new Merchant()`: every field null. */
    constructor ()
      ensures Snapshot() == Blank
    {
      id, name, email, businessType := None, None, None, None;
      phonetics, createdAt, updatedAt := None, None, None;
    }

    /** `new Merchant(name, email, businessType)`: the id, the phonetics and
        the timestamps stay null. */
    constructor Of(name: Option<string>, email: Option<string>, businessType: Option<BusinessType>)
      ensures Snapshot() == Blank.(name := name, email := email, businessType := businessType)
    {
      this.name := name;
      this.email := email;
      this.businessType := businessType;
      id, phonetics, createdAt, updatedAt := None, None, None, None;
    }

    /** `@PrePersist onCreate()`: both timestamps are set to the current
        instant. */
    method OnCreate(now: Timestamp)
      modifies this
      ensures Snapshot() == old(Snapshot()).(createdAt := Some(now), updatedAt := Some(now))
    {
      createdAt := Some(now);
      updatedAt := Some(now);
    }

    /** `@PreUpdate onUpdate()`: only `updatedAt` moves. */
    method OnUpdate(now: Timestamp)
      modifies this
      ensures Snapshot() == old(Snapshot()).(updatedAt := Some(now))
    {
      updatedAt := Some(now);
    }

    method SetId(id: Option<Long>)
      modifies this
      ensures Snapshot() == old(Snapshot()).(id := id)
    {
      this.id := id;
    }

    method SetName(name: Option<string>)
      modifies this
      ensures Snapshot() == old(Snapshot()).(name := name)
    {
      this.name := name;
    }

    method SetEmail(email: Option<string>)
      modifies this
      ensures Snapshot() == old(Snapshot()).(email := email)
    {
      this.email := email;
    }

    method SetPhonetics(phonetics: Option<string>)
      modifies this
      ensures Snapshot() == old(Snapshot()).(phonetics := phonetics)
    {
      this.phonetics := phonetics;
    }

    method SetBusinessType(businessType: Option<BusinessType>)
      modifies this
      ensures Snapshot() == old(Snapshot()).(businessType := businessType)
    {
      this.businessType := businessType;
    }

    method SetCreatedAt(createdAt: Option<Timestamp>)
      modifies this
      ensures Snapshot() == old(Snapshot()).(createdAt := createdAt)
    {
      this.createdAt := createdAt;
    }

    method SetUpdatedAt(updatedAt: Option<Timestamp>)
      modifies this
      ensures Snapshot() == old(Snapshot()).(updatedAt := updatedAt)
    {
      this.updatedAt := updatedAt;
    }
  }
}
