/** The search box of the map dialog (`location-input.tsx`): the text is
    classified as a parcel identifier or an address, exactly one of the two
    lookups runs, and its result goes to the dialog's matching handler, or
    its error to the dialog's alert. */
module LocationInput {
  import opened Common
  import opened Models
  import opened DzialkaParser
  import opened AddressSearch
  import opened MapModal

  /** The two kinds of search. */
  datatype SearchType = Address | Dzialka

  /** `determineSearchType`: a parcel identifier when the trimmed text
      starts with a digit, an address otherwise (also when the trimmed text
      is empty, as its missing first character is no digit). */
  function DetermineSearchType(value: string): SearchType
  {
    var trimmed := Trim(value);
    if trimmed != [] && IsDigit(trimmed[0]) then Dzialka else Address
  }

  /** Whitespace around the text never changes the classification. */
  lemma SurroundingWhitespaceIgnored(pre: string, value: string, post: string)
    requires AllWhitespace(pre) && AllWhitespace(post)
    ensures DetermineSearchType(pre + value + post) == DetermineSearchType(value)
  {
    TrimSurrounded(pre, value, post);
  }

  /** A text whose first non-blank character is a digit is a parcel
      identifier, and it is not blank, so the parcel lookup sends it. */
  lemma DigitLedIsParcel(pre: string, d: char, rest: string)
    requires AllWhitespace(pre) && IsDigit(d)
    ensures DetermineSearchType(pre + [d] + rest) == Dzialka
    ensures !IsBlank(pre + [d] + rest)
  {
    var t := [d] + rest;
    assert pre + [d] + rest == pre + t;
    TrimStartPrefix(pre, t);
    var r := TrimEnd(t);
    assert r[0] == d;
  }

  /** A text whose first non-blank character is not a digit is an address. */
  lemma OtherTextIsAddress(pre: string, c: char, rest: string)
    requires AllWhitespace(pre) && !IsWhitespace(c) && !IsDigit(c)
    ensures DetermineSearchType(pre + [c] + rest) == Address
  {
    var t := [c] + rest;
    assert pre + [c] + rest == pre + t;
    TrimStartPrefix(pre, t);
    var r := TrimEnd(t);
    assert r[0] == c;
  }

  /** A blank text is searched as an address, and the address lookup
      refuses it before any request. */
  lemma BlankSearchedAsAddressAndRefused(value: string, geocode: string -> Result<string>,
                                         decode: string -> Option<AddressApiResponse>,
                                         toWgs84: Pair -> Option<Pair>)
    requires AllWhitespace(value)
    ensures DetermineSearchType(value) == Address
    ensures FetchAddressCoordinates(value, geocode, decode, toWgs84) == Thrown(Error(MsgEmptyAddress))
  {
    BlankIffAllWhitespace(value);
  }

  /** The services both lookups use. */
  datatype LookupServices = LookupServices(
    parcel: ParcelServices,
    geocode: string -> Result<string>,
    decode: string -> Option<AddressApiResponse>,
    addressToWgs84: Pair -> Option<Pair>)

  /** The text the catch block shows: an `Error`'s message, or
      `Unknown error` for anything else thrown. */
  function ErrorMessage(f: Fault): (m: string)
    ensures f.Error? ==> m == f.message
    ensures f.NonError? ==> m == "Unknown error"
  {
    match f
    case Error(message) => message
    case NonError => "Unknown error"
  }

  /** A failed address search always shows the lookup's own message: the
      address lookup throws only `Error`s. */
  lemma AddressErrorShownVerbatim(address: string, geocode: string -> Result<string>,
                                  decode: string -> Option<AddressApiResponse>, toWgs84: Pair -> Option<Pair>)
    requires FetchAddressCoordinates(address, geocode, decode, toWgs84).Thrown?
    ensures ErrorMessage(FetchAddressCoordinates(address, geocode, decode, toWgs84).fault) ==
              FetchAddressCoordinates(address, geocode, decode, toWgs84).fault.message
  {
  }

  /** A parcel request that throws something other than an `Error` shows
      `Unknown error`: the parcel lookup passes it on unchanged. */
  lemma ParcelRequestFaultUnknown(identyfikator: string, services: ParcelServices)
    requires !IsBlank(identyfikator) && services.uldkById(identyfikator) == Thrown(NonError)
    ensures ErrorMessage(DzialkaById(identyfikator, services.uldkById, services.centroid, services.toWgs84).fault) ==
              "Unknown error"
  {
  }

  /** The search box's own state. */
  class LocationInput {
    var isLoading: bool
    var inputValue: string

    /** The box starts empty and idle. */
    constructor ()
      ensures !isLoading && inputValue == ""
    {
      isLoading := false;
      inputValue := "";
    }

    /** Typing replaces the text. */
    method SetInputValue(value: string)
      modifies this
      ensures inputValue == value && isLoading == old(isLoading)
    {
      inputValue := value;
    }

    /** `clickHandler`: loading is switched on; the text is classified and
        the one matching lookup runs. Its result goes to the dialog's
        matching handler and the error is cleared; a failure leaves parcel
        and address as they were and shows its message. Loading ends off
        either way. */
    method ClickHandler(modal: MapModal, services: LookupServices)
      modifies this, modal
      ensures !isLoading && inputValue == old(inputValue)
      ensures DetermineSearchType(inputValue) == Address ==>
                var r := FetchAddressCoordinates(inputValue, services.geocode, services.decode, services.addressToWgs84);
                if r.Ok?
                then modal.daneDzialki.None? && modal.daneAdresu == Some(r.value) && modal.error.None?
                else && modal.error == Some(ErrorMessage(r.fault))
                     && modal.daneDzialki == old(modal.daneDzialki) && modal.daneAdresu == old(modal.daneAdresu)
      ensures DetermineSearchType(inputValue) == Dzialka ==>
                var r := DzialkaById(inputValue, services.parcel.uldkById, services.parcel.centroid, services.parcel.toWgs84);
                if r.Ok?
                then modal.daneDzialki == Some(r.value) && modal.daneAdresu.None? && modal.error.None?
                else && modal.error == Some(ErrorMessage(r.fault))
                     && modal.daneDzialki == old(modal.daneDzialki) && modal.daneAdresu == old(modal.daneAdresu)
      ensures old(modal.Exclusive()) ==> modal.Exclusive()
    {
      isLoading := true;
      var searchType := DetermineSearchType(inputValue);
      if searchType == Address {
        var addressResult := FetchAddressCoordinates(inputValue, services.geocode, services.decode, services.addressToWgs84);
        if addressResult.Thrown? {
          modal.SetError(Some(ErrorMessage(addressResult.fault)));
          isLoading := false;
          return;
        }
        modal.HandleAddressFound(addressResult.value);
      } else {
        var dzialkaResult := FetchDzialkaData(inputValue, services.parcel.uldkById, services.parcel.centroid,
                                              services.parcel.toWgs84);
        if dzialkaResult.Thrown? {
          modal.SetError(Some(ErrorMessage(dzialkaResult.fault)));
          isLoading := false;
          return;
        }
        modal.HandleDzialkaSet(Some(dzialkaResult.value));
      }
      isLoading := false;
      modal.SetError(None);
    }
  }
}
