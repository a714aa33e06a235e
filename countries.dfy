/** The country (original-language) categories: a fixed key/label table, the
    label map built beside it, and the key test used to validate routes. */
module Countries {

  datatype Country = Country(key: string, caption: string)

  const CountryCategories: seq<Country> := [
    Country("bn", "Bangla"),
    Country("hi", "Hindi"),
    Country("en", "English"),
    Country("ja", "Japanese"),
    Country("zh", "Chinese"),
    Country("fr", "French"),
    Country("es", "Spanish"),
    Country("ms", "Malay"),
    Country("ko", "Korean"),
    Country("tr", "Turkish"),
    Country("ur", "Pakistani")
  ]

  const CountryLabelMap: map<string, string> := map[
    "bn" := "Bangla",
    "hi" := "Hindi",
    "en" := "English",
    "ja" := "Japanese",
    "zh" := "Chinese",
    "fr" := "French",
    "es" := "Spanish",
    "ms" := "Malay",
    "ko" := "Korean",
    "tr" := "Turkish",
    "ur" := "Pakistani"
  ]

  /** `countries.some((country) => country.key === value)`. */
  function SomeKey(countries: seq<Country>, value: string): (b: bool)
    ensures b <==> exists i :: 0 <= i < |countries| && countries[i].key == value
  {
    if countries == [] then false
    else countries[0].key == value || SomeKey(countries[1..], value)
  }

  /** `isCountryKey`: an exact, case-sensitive match against a table key. */
  function IsCountryKey(value: string): (b: bool)
    ensures b <==> exists i :: 0 <= i < |CountryCategories| && CountryCategories[i].key == value
  {
    SomeKey(CountryCategories, value)
  }

  /** The table has eleven entries with pairwise distinct keys. */
  lemma KeysDistinct()
    ensures |CountryCategories| == 11
    ensures forall i, j :: 0 <= i < j < |CountryCategories| ==>
      CountryCategories[i].key != CountryCategories[j].key
  {
  }

  /** The label map agrees with the table entry by entry. */
  lemma LabelMapMatchesTable()
    ensures forall i :: 0 <= i < |CountryCategories| ==>
      CountryCategories[i].key in CountryLabelMap
      && CountryLabelMap[CountryCategories[i].key] == CountryCategories[i].caption
  {
  }

  /** The table position of a key of the label map. */
  lemma IndexOfMapKey(k: string) returns (i: nat)
    requires k in CountryLabelMap
    ensures i < |CountryCategories| && CountryCategories[i].key == k
  {
    i := if k == "bn" then 0 else if k == "hi" then 1 else if k == "en" then 2
      else if k == "ja" then 3 else if k == "zh" then 4 else if k == "fr" then 5
      else if k == "es" then 6 else if k == "ms" then 7 else if k == "ko" then 8
      else if k == "tr" then 9 else 10;
  }

  /** The label map's keys are exactly the table's keys. */
  lemma LabelMapDomain(k: string)
    ensures k in CountryLabelMap <==> IsCountryKey(k)
  {
    LabelMapMatchesTable();
    if k in CountryLabelMap {
      var i := IndexOfMapKey(k);
    }
  }

  /** Every key is two lower-case letters. */
  lemma KeysAreLowerCasePairs()
    ensures forall i :: 0 <= i < |CountryCategories| ==>
      |CountryCategories[i].key| == 2 && 'a' <= CountryCategories[i].key[0] <= 'z'
      && 'a' <= CountryCategories[i].key[1] <= 'z'
  {
  }

  /** Upper case or surrounding white space is not accepted. */
  lemma ExactMatchOnly()
    ensures !IsCountryKey("BN") && !IsCountryKey(" bn")
  {
    KeysAreLowerCasePairs();
    assert "BN"[0] == 'B';
  }
}
