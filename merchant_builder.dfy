/** MerchantBuilder.java: a fluent builder whose `with*` calls assign one
    field each and whose `build()` copies all seven into a new Merchant. */
module Builder {
  import opened Wrappers
  import opened JavaLang
  import opened Entity

  class MerchantBuilder {
    var id: Option<Long>
    var name: Option<string>
    var email: Option<string>
    var businessType: Option<BusinessType>
    var phonetics: Option<string>
    var createdAt: Option<Timestamp>
    var updatedAt: Option<Timestamp>

    /** The values `build()` would copy. */
    function Fields(): MerchantData
      reads this
    {
      MerchantData(id, name, email, businessType, phonetics, createdAt, updatedAt)
    }

    /** The private constructor: every field null. */
    constructor ()
      ensures Fields() == Blank
    {
      id, name, email, businessType := None, None, None, None;
      phonetics, createdAt, updatedAt := None, None, None;
    }

    /** `MerchantBuilder.aMerchant()`. */
    static method AMerchant() returns (b: MerchantBuilder)
      ensures fresh(b) && b.Fields() == Blank
    {
      b := new MerchantBuilder();
    }

    method WithId(id: Option<Long>) returns (self: MerchantBuilder)
      modifies this
      ensures self == this && Fields() == old(Fields()).(id := id)
    {
      this.id := id;
      self := this;
    }

    method WithName(name: Option<string>) returns (self: MerchantBuilder)
      modifies this
      ensures self == this && Fields() == old(Fields()).(name := name)
    {
      this.name := name;
      self := this;
    }

    method WithEmail(email: Option<string>) returns (self: MerchantBuilder)
      modifies this
      ensures self == this && Fields() == old(Fields()).(email := email)
    {
      this.email := email;
      self := this;
    }

    method WithBusinessType(businessType: Option<BusinessType>) returns (self: MerchantBuilder)
      modifies this
      ensures self == this && Fields() == old(Fields()).(businessType := businessType)
    {
      this.businessType := businessType;
      self := this;
    }

    method WithPhonetics(phonetics: Option<string>) returns (self: MerchantBuilder)
      modifies this
      ensures self == this && Fields() == old(Fields()).(phonetics := phonetics)
    {
      this.phonetics := phonetics;
      self := this;
    }

    method WithCreatedAt(createdAt: Option<Timestamp>) returns (self: MerchantBuilder)
      modifies this
      ensures self == this && Fields() == old(Fields()).(createdAt := createdAt)
    {
      this.createdAt := createdAt;
      self := this;
    }

    method WithUpdatedAt(updatedAt: Option<Timestamp>) returns (self: MerchantBuilder)
      modifies this
      ensures self == this && Fields() == old(Fields()).(updatedAt := updatedAt)
    {
      this.updatedAt := updatedAt;
      self := this;
    }

    /** `build()`: a new Merchant carrying the builder's seven fields; the
        builder itself is left as it was. */
    method Build() returns (m: Merchant)
      ensures fresh(m) && m.Snapshot() == Fields()
      ensures Fields() == old(Fields())
    {
      m := new Merchant();
      m.SetId(id);
      m.SetName(name);
      m.SetEmail(email);
      m.SetBusinessType(businessType);
      m.SetPhonetics(phonetics);
      m.SetCreatedAt(createdAt);
      m.SetUpdatedAt(updatedAt);
    }
  }

  /** Two builds from one builder give two distinct merchants with equal
      fields. */
  method BuildTwice(b: MerchantBuilder) returns (first: Merchant, second: Merchant)
    ensures fresh(first) && fresh(second) && first != second
    ensures first.Snapshot() == second.Snapshot() == b.Fields()
  {
    first := b.Build();
    second := b.Build();
  }

  /** Calling the same `with*` twice: the last value wins. */
  method NameTwice(b: MerchantBuilder, earlier: Option<string>, later: Option<string>)
    modifies b
    ensures b.Fields() == old(b.Fields()).(name := later)
  {
    var self := b.WithName(earlier);
    self := self.WithName(later);
  }
}
