/** The country-name lookup of the v2 API: a fixed table from the country
    names the calendar uses to ISO 3166-1 alpha-2 codes. */
module CountryUtils {
  import opened PyValue

  /** The lookup table. */
  const CountryCodeMapping: map<string, string> := map[
    "Australia" := "AU",
    "Austria" := "AT",
    "Azerbaijan" := "AZ",
    "Bahrain" := "BH",
    "Belgium" := "BE",
    "Brazil" := "BR",
    "Canada" := "CA",
    "China" := "CN",
    "France" := "FR",
    "Germany" := "DE",
    "Hungary" := "HU",
    "Italy" := "IT",
    "Japan" := "JP",
    "Mexico" := "MX",
    "Monaco" := "MC",
    "Netherlands" := "NL",
    "Qatar" := "QA",
    "Saudi Arabia" := "SA",
    "Singapore" := "SG",
    "Spain" := "ES",
    "United Arab Emirates" := "AE",
    "United Kingdom" := "GB",
    "United States" := "US",
    "Portugal" := "PT",
    "Russia" := "RU",
    "Turkey" := "TR",
    "Vietnam" := "VN"]

  /** `country_code_mapping.get(country_name, None)`: exact, case-sensitive
      matching, and `None` for every name outside the table. */
  function GetCountryCode(countryName: string): (code: Option<string>)
    ensures code.Some? <==> countryName in CountryCodeMapping
    ensures code.Some? ==> code.value == CountryCodeMapping[countryName]
  {
    if countryName in CountryCodeMapping then Some(CountryCodeMapping[countryName]) else None
  }

  predicate IsUpper(c: char)
  {
    'A' <= c <= 'Z'
  }

  /** Every code is two capital letters. */
  lemma CodesAreAlpha2(name: string)
    requires name in CountryCodeMapping
    ensures |CountryCodeMapping[name]| == 2
    ensures IsUpper(CountryCodeMapping[name][0]) && IsUpper(CountryCodeMapping[name][1])
  {
  }

  /** The table read backwards, from code to name. */
  ghost const NameOfCode: map<string, string> := map[
    "AU" := "Australia",
    "AT" := "Austria",
    "AZ" := "Azerbaijan",
    "BH" := "Bahrain",
    "BE" := "Belgium",
    "BR" := "Brazil",
    "CA" := "Canada",
    "CN" := "China",
    "FR" := "France",
    "DE" := "Germany",
    "HU" := "Hungary",
    "IT" := "Italy",
    "JP" := "Japan",
    "MX" := "Mexico",
    "MC" := "Monaco",
    "NL" := "Netherlands",
    "QA" := "Qatar",
    "SA" := "Saudi Arabia",
    "SG" := "Singapore",
    "ES" := "Spain",
    "AE" := "United Arab Emirates",
    "GB" := "United Kingdom",
    "US" := "United States",
    "PT" := "Portugal",
    "RU" := "Russia",
    "TR" := "Turkey",
    "VN" := "Vietnam"]

  /** Reading a name's code backwards gives the name again. */
  lemma CodeNamesItsCountry(name: string)
    requires name in CountryCodeMapping
    ensures CountryCodeMapping[name] in NameOfCode && NameOfCode[CountryCodeMapping[name]] == name
  {
  }

  /** No two names share a code, so a code names one country. */
  lemma CodesAreDistinct(a: string, b: string)
    requires a in CountryCodeMapping && b in CountryCodeMapping
    requires CountryCodeMapping[a] == CountryCodeMapping[b]
    ensures a == b
  {
    CodeNamesItsCountry(a);
    CodeNamesItsCountry(b);
  }

  /** The lookup is exact and case-sensitive. */
  lemma LookupExamples()
    ensures GetCountryCode("Australia") == Some("AU")
    ensures GetCountryCode("United Kingdom") == Some("GB")
    ensures GetCountryCode("australia").None?
    ensures GetCountryCode("").None?
  {
  }
}
