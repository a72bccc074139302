/** MerchantPhoneticService.java: the phonetic spelling of a name, taken
    from the dictionary API. */
module PhoneticService {
  import opened Wrappers

  /** One dictionary entry as Jackson reads it: a JSON object of strings. */
  type Entry = map<string, Option<string>>

  /** `dictionaryApiService.getDictionary(word)`: the entries, or a failure
      (network or parsing). */
  type Dictionary = Option<string> -> Result<seq<Entry>>

  /** `getPhonetics(name)`: empty when the dictionary has no entry, otherwise
      the "phonetic" value of the first entry; `Optional.of` throws when that
      value is missing or null. A failure of the dictionary propagates. */
  function GetPhonetics(dictionary: Dictionary, name: Option<string>): (r: Result<Option<string>>)
    ensures dictionary(name).Err? ==> r == Err(dictionary(name).error)
    ensures dictionary(name) == Ok([]) ==> r == Ok(None)
    ensures r.Ok? && r.value.Some? ==> && dictionary(name).Ok? && |dictionary(name).value| > 0
                                       && "phonetic" in dictionary(name).value[0]
                                       && dictionary(name).value[0]["phonetic"] == r.value
    ensures r.Ok? ==> (r.value.None? <==> dictionary(name) == Ok([]))
    ensures (&& dictionary(name).Ok? && |dictionary(name).value| > 0
             && "phonetic" in dictionary(name).value[0] && dictionary(name).value[0]["phonetic"].Some?) ==>
      r == Ok(dictionary(name).value[0]["phonetic"])
  {
    match dictionary(name)
    case Err(e) => Err(e)
    case Ok(entries) =>
      if |entries| == 0 then Ok(None)
      else if "phonetic" !in entries[0] || entries[0]["phonetic"].None? then Err(NullPointer)
      else Ok(entries[0]["phonetic"])
  }

  /** A first entry with no usable "phonetic" value throws. */
  lemma MissingPhoneticThrows(dictionary: Dictionary, name: Option<string>)
    requires dictionary(name).Ok? && |dictionary(name).value| > 0
    requires "phonetic" !in dictionary(name).value[0] || dictionary(name).value[0]["phonetic"].None?
    ensures GetPhonetics(dictionary, name) == Err(NullPointer)
  {
  }

  /** Only the dictionary's answer for this name, and in it only the first
      entry, matter. */
  lemma OnlyFirstEntryMatters(d1: Dictionary, d2: Dictionary, name: Option<string>, first: Entry, rest1: seq<Entry>, rest2: seq<Entry>)
    requires d1(name) == Ok([first] + rest1) && d2(name) == Ok([first] + rest2)
    ensures GetPhonetics(d1, name) == GetPhonetics(d2, name)
  {
  }
}
