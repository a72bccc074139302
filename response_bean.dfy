/** MerchantResponseBean.java: the merchant as the HTTP layer returns it. */
module ResponseBean {
  import opened Wrappers
  import opened JavaLang
  import opened Entity

  /** The record: the id as a string, the business type, email and name. The
      phonetics and the timestamps are not part of it. */
  datatype MerchantResponseBean = MerchantResponseBean(
    id: string,
    businessType: Option<BusinessType>,
    email: Option<string>,
    name: Option<string>)

  /** `MerchantResponseBean.from(merchant)`: a null merchant or a merchant
      without id is an IllegalArgumentException; otherwise the id's decimal
      string and the other three fields as they are (a null business type
      included). */
  function From(merchant: Option<MerchantData>): (r: Result<MerchantResponseBean>)
    ensures merchant.None? ==> r == Err(IllegalArgument("merchant must not be null"))
    ensures merchant.Some? && merchant.value.id.None? ==> r == Err(IllegalArgument("merchant id must not be null"))
    ensures r.Ok? <==> merchant.Some? && merchant.value.id.Some?
    ensures r.Ok? ==> && r.value.id == LongToString(merchant.value.id.value)
                      && Canonical(r.value.id)
                      && ParseLong(r.value.id) == merchant.value.id
                      && r.value.businessType == merchant.value.businessType
                      && r.value.email == merchant.value.email
                      && r.value.name == merchant.value.name
  {
    if merchant.None? then Err(IllegalArgument("merchant must not be null"))
    else if merchant.value.id.None? then Err(IllegalArgument("merchant id must not be null"))
    else
      var m := merchant.value;
      Ok(MerchantResponseBean(LongToString(m.id.value), m.businessType, m.email, m.name))
  }

  /** Merchants that differ only in phonetics or timestamps give the same
      response. */
  lemma IgnoresPhoneticsAndTimestamps(m: MerchantData, phonetics: Option<string>,
                                      createdAt: Option<Timestamp>, updatedAt: Option<Timestamp>)
    ensures From(Some(m)) == From(Some(m.(phonetics := phonetics, createdAt := createdAt, updatedAt := updatedAt)))
  {
  }
}
