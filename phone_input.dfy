/**
 * The phone number input of src/components/PhoneInput.tsx: the digit filter,
 * the searchable country list and the dial-code label.
 */
module PhoneInput {
  import opened Wrappers
  import opened CatalogTypes
  import Seqs
  import Text

  /** Line 35: the typed text with every non-digit removed. */
  lemma PhoneDigits(input: string, c: char) returns (idx: seq<nat>)
    ensures forall i :: 0 <= i < |Text.DigitsOnly(input)| ==> Text.IsDigit(Text.DigitsOnly(input)[i])
    ensures c in Text.DigitsOnly(input) <==> c in input && Text.IsDigit(c)
    ensures Seqs.Embeds(Text.DigitsOnly(input), input, idx)
  {
    Seqs.FilterMember(input, Text.IsDigit, c);
    idx := Seqs.FilterIsSubsequence(input, Text.IsDigit);
  }

  /** A number typed with digits only is kept as typed. */
  lemma DigitsKept(input: string)
    requires forall i :: 0 <= i < |input| ==> Text.IsDigit(input[i])
    ensures Text.DigitsOnly(input) == input
  {
    Seqs.FilterKeepsAll(input, Text.IsDigit);
  }

  /** Lines 61-63, for a term that is already lower-cased. */
  predicate MatchesTerm(country: CountryCode, lowerTerm: string) {
    Text.StartsWith(Text.Lower(country.code), lowerTerm) || Text.StartsWith(Text.Lower(country.name), lowerTerm)
  }

  function MatchesTermFn(lowerTerm: string): CountryCode -> bool {
    (country: CountryCode) => MatchesTerm(country, lowerTerm)
  }

  /** Lines 58-66. */
  function FilteredCountries(countries: seq<CountryCode>, searchTerm: string): seq<CountryCode> {
    Seqs.Filter(countries, MatchesTermFn(Text.Lower(searchTerm)))
  }

  /** A country is listed iff its code or name, lower-cased, starts with the lower-cased term; the order is kept. */
  lemma FilteredCountriesMember(countries: seq<CountryCode>, searchTerm: string, country: CountryCode) returns (idx: seq<nat>)
    ensures country in FilteredCountries(countries, searchTerm) <==>
      && country in countries
      && (|| Text.StartsWith(Text.Lower(country.code), Text.Lower(searchTerm))
          || Text.StartsWith(Text.Lower(country.name), Text.Lower(searchTerm)))
    ensures Seqs.Embeds(FilteredCountries(countries, searchTerm), countries, idx)
  {
    Seqs.FilterMember(countries, MatchesTermFn(Text.Lower(searchTerm)), country);
    idx := Seqs.FilterIsSubsequence(countries, MatchesTermFn(Text.Lower(searchTerm)));
  }

  /** An empty search lists every country. */
  lemma EmptyTermListsAll(countries: seq<CountryCode>)
    ensures FilteredCountries(countries, "") == countries
  {
    assert Text.Lower("") == "";
    Seqs.FilterKeepsAll(countries, MatchesTermFn(""));
  }

  /** Lines 68-71: `"<code> <dial_code>"` of the first entry with the code, or `""`. */
  function DialCodeLabel(countries: seq<CountryCode>, countryCode: string): (r: string)
    ensures (forall i :: 0 <= i < |countries| ==> countries[i].code != countryCode) ==> r == ""
    ensures (exists i :: 0 <= i < |countries| && countries[i].code == countryCode) ==>
      exists i ::
        && 0 <= i < |countries| && countries[i].code == countryCode
        && (forall j :: 0 <= j < i ==> countries[j].code != countryCode)
        && r == countryCode + " " + countries[i].dialCode
  {
    match Seqs.FirstIndex(countries, (c: CountryCode) => c.code == countryCode)
    case Some(i) => countries[i].code + " " + countries[i].dialCode
    case None => ""
  }

  /** The component's state (lines 18-21); `countries` is the bundled country list. */
  class PhoneInputState {
    const countries: seq<CountryCode>
    var countryCode: string
    var phoneNumber: string
    var searchTerm: string
    var filteredCountries: seq<CountryCode>

    constructor (countries: seq<CountryCode>)
      ensures this.countries == countries
      ensures countryCode == "US" && phoneNumber == "" && searchTerm == "" && filteredCountries == countries
    {
      this.countries := countries;
      countryCode := "US";
      phoneNumber := "";
      searchTerm := "";
      filteredCountries := countries;
    }

    /**
     * Lines 24-31. The returned pair is what goes to `updatePhoneNumber`, whose
     * validation and formatting are not part of this model.
     */
    method HandleCountryChange(newCountryCode: string) returns (request: (string, string))
      modifies this
      ensures countryCode == newCountryCode && searchTerm == ""
      ensures phoneNumber == old(phoneNumber) && filteredCountries == old(filteredCountries)
      ensures request == (old(phoneNumber), newCountryCode)
    {
      countryCode := newCountryCode;
      request := (phoneNumber, newCountryCode);
      searchTerm := "";
    }

    /** Lines 33-40. */
    method HandlePhoneChange(input: string) returns (request: (string, string))
      modifies this
      ensures phoneNumber == Text.DigitsOnly(input)
      ensures countryCode == old(countryCode) && searchTerm == old(searchTerm) && filteredCountries == old(filteredCountries)
      ensures request == (phoneNumber, countryCode)
    {
      phoneNumber := Text.DigitsOnly(input);
      request := (phoneNumber, countryCode);
    }

    /** Lines 54-56. */
    method HandleSearchChange(value: string)
      modifies this
      ensures searchTerm == value
      ensures countryCode == old(countryCode) && phoneNumber == old(phoneNumber) && filteredCountries == old(filteredCountries)
    {
      searchTerm := value;
    }

    /** Lines 58-66: the effect that runs after `searchTerm` changes. */
    method SearchEffect()
      modifies this
      ensures filteredCountries == FilteredCountries(countries, searchTerm)
      ensures countryCode == old(countryCode) && phoneNumber == old(phoneNumber) && searchTerm == old(searchTerm)
    {
      filteredCountries := FilteredCountries(countries, searchTerm);
    }

    /** Lines 68-71 for the current country. */
    function SelectedDialCode(): string
      reads this
    {
      DialCodeLabel(countries, countryCode)
    }
  }

  /** Picking a country clears the search, so the list shows every country again once the effect has run. */
  method CountryChangeShowsAll(input: PhoneInputState, newCountryCode: string)
    modifies input
    ensures input.countryCode == newCountryCode
    ensures input.filteredCountries == input.countries
  {
    var _ := input.HandleCountryChange(newCountryCode);
    input.SearchEffect();
    EmptyTermListsAll(input.countries);
  }
}
