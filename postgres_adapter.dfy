/** MerchantLoadServicePostgres.java: reads a merchant through the relational
    repository. */
module PostgresAdapter {
  import opened Wrappers
  import opened JavaLang
  import opened Entity
  import opened LoadService

  /** The finder methods of MerchantRepository the adapter calls. */
  datatype RepositoryView = RepositoryView(
    findById: Long -> Result<Option<MerchantData>>,
    findByEmail: string -> Result<Option<MerchantData>>)

  /** `loadMerchant(merchantId)`: parses the id as a decimal long and returns
      `findById`'s answer unchanged; a string that is not a long throws
      before the repository is asked. */
  function LoadMerchant(repository: RepositoryView, merchantId: string): (r: Outcome)
    ensures ParseLong(merchantId).None? ==> r == Error(NumberFormat)
    ensures ParseLong(merchantId).Some? ==> r == OfResult(repository.findById(ParseLong(merchantId).value))
  {
    match ParseLong(merchantId)
    case None => Error(NumberFormat)
    case Some(id) => OfResult(repository.findById(id))
  }

  /** `loadMerchantByEmail(email)`: `findByEmail`'s answer unchanged. */
  function LoadMerchantByEmail(repository: RepositoryView, email: string): (r: Outcome)
    ensures r.Miss? <==> repository.findByEmail(email) == Ok(None)
    ensures r.Hit? ==> repository.findByEmail(email) == Ok(Some(r.merchant))
    ensures forall m :: repository.findByEmail(email) == Ok(Some(m)) ==> r == Hit(m)
    ensures repository.findByEmail(email).Err? ==> r == Error(repository.findByEmail(email).error)
  {
    OfResult(repository.findByEmail(email))
  }

  /** The service passes `id.toString()`; parsing it gives back exactly the
      requested id, so the repository is asked for that id. */
  lemma IdRoundTrip(repository: RepositoryView, id: Long)
    ensures LoadMerchant(repository, LongToString(id)) == OfResult(repository.findById(id))
  {
  }
}
