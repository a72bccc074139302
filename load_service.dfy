/** MerchantLoadService.java: what one merchant lookup can come back with. */
module LoadService {
  import opened Wrappers
  import opened Entity

  /** A lookup either finds a merchant, finds nothing (an empty Optional), or
      throws. */
  datatype Outcome = Hit(merchant: MerchantData) | Miss | Error(failure: Failure)

  /** A call returning `Optional<Merchant>` seen as an outcome. */
  function OfResult(r: Result<Option<MerchantData>>): (o: Outcome)
    ensures o.Miss? <==> r == Ok(None)
    ensures o.Hit? <==> r.Ok? && r.value.Some?
    ensures o.Hit? ==> o.merchant == r.value.value
    ensures o.Error? ==> r == Err(o.failure)
  {
    match r
    case Ok(None) => Miss
    case Ok(Some(m)) => Hit(m)
    case Err(e) => Error(e)
  }
}
