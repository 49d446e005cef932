/** The address lookup (`address-search.ts`): an address is sent to the
    national geocoder (GUGiK UUG), its JSON answer is read, the first
    candidate's grid coordinates (EPSG:2180) are read as numbers and
    transformed to WGS84.

    The request, the JSON decoding and the proj4 transformation are
    parameters: `geocode` gives the body of the answer for an address (or
    what the request threw), `decode` gives the decoded answer or `None` when
    the text is not JSON, and `toWgs84` gives `[lng, lat]` or `None` when
    either number comes out NaN. */
module AddressSearch {
  import opened Common
  import opened JsNumber
  import opened Models

  /** One candidate of the answer. A field the answer leaves out is `None`;
      JavaScript writes it as `undefined` and reads it as NaN. */
  datatype Candidate = Candidate(
    city: Option<string>,
    street: Option<string>,
    number: Option<string>,
    x: Option<string>,
    y: Option<string>)

  /** The decoded answer: `results` as its keys and values in key order, or
      `None` when the answer has no `results` (or a falsy one). */
  datatype AddressApiResponse = AddressApiResponse(results: Option<seq<(string, Candidate)>>)

  const MsgEmptyAddress: string := "Adres nie może być pusty"

  function MsgAddressNotFound(address: string): string
  {
    "Nie znaleziono adresu: " + address
  }

  function MsgInvalidJson(address: string): string
  {
    "Nieprawidłowa odpowiedź JSON API dla adresu: " + address
  }

  function MsgInvalidCoordinates(address: string, c: Candidate): string
  {
    "Nieprawidłowe współrzędne dla adresu: " + address + ". X: " + Shown(c.x) + ", Y: " + Shown(c.y)
  }

  function MsgConversionFailed(address: string): string
  {
    "Błąd konwersji współrzędnych dla adresu: " + address
  }

  function MsgSearchFailed(address: string): string
  {
    "Błąd podczas wyszukiwania adresu: " + address
  }

  /** A field as a template literal writes it. */
  function Shown(v: Option<string>): string
  {
    match v
    case Some(s) => s
    case None => "undefined"
  }

  /** `parseFloat` of a field; a missing field reads as NaN. */
  function ReadCoordinate(v: Option<string>): Option<real>
  {
    match v
    case Some(s) => ParseFloat(s)
    case None => None
  }

  /** The label shown for a candidate: `street number, city`. */
  function AddressLabel(c: Candidate): string
  {
    Shown(c.street) + " " + Shown(c.number) + ", " + Shown(c.city)
  }

  /** What is made of the chosen candidate: its coordinates read and
      transformed, and its label. */
  function FromCandidate(address: string, c: Candidate, toWgs84: Pair -> Option<Pair>): (r: Result<AddressSearchResult>)
    ensures r.Ok? <==> ReadCoordinate(c.x).Some? && ReadCoordinate(c.y).Some? &&
                       toWgs84((ReadCoordinate(c.x).value, ReadCoordinate(c.y).value)).Some?
    ensures r.Ok? ==> var lngLat := toWgs84((ReadCoordinate(c.x).value, ReadCoordinate(c.y).value)).value;
                      r.value == AddressSearchResult(lngLat.1, lngLat.0, AddressLabel(c))
    ensures ReadCoordinate(c.x).None? || ReadCoordinate(c.y).None? ==>
              r == Thrown(Error(MsgInvalidCoordinates(address, c)))
    ensures ReadCoordinate(c.x).Some? && ReadCoordinate(c.y).Some? &&
            toWgs84((ReadCoordinate(c.x).value, ReadCoordinate(c.y).value)).None? ==>
              r == Thrown(Error(MsgConversionFailed(address)))
  {
    match (ReadCoordinate(c.x), ReadCoordinate(c.y))
    case (Some(x), Some(y)) =>
      (match toWgs84((x, y))
       case None => Thrown(Error(MsgConversionFailed(address)))
       case Some(lngLat) => Ok(AddressSearchResult(lngLat.1, lngLat.0, AddressLabel(c))))
    case _ => Thrown(Error(MsgInvalidCoordinates(address, c)))
  }

  /** The part of the lookup inside its `try`, once the answer's text is in
      hand: the text must not be blank, must be JSON, must have at least one
      result; the first result is used. */
  function ReadAnswer(address: string, text: string, decode: string -> Option<AddressApiResponse>,
                      toWgs84: Pair -> Option<Pair>): (r: Result<AddressSearchResult>)
    ensures r.Thrown? ==> r.fault.Error?
  {
    if IsBlank(text) then Thrown(Error(MsgAddressNotFound(address)))
    else match decode(text)
      case None => Thrown(Error(MsgInvalidJson(address)))
      case Some(apiResponse) =>
        match apiResponse.results
        case None => Thrown(Error(MsgAddressNotFound(address)))
        case Some(results) =>
          if |results| == 0 then Thrown(Error(MsgAddressNotFound(address)))
          else FromCandidate(address, results[0].1, toWgs84)
  }

  /** `fetchAddressCoordinates`. A blank address is refused before any
      request. Every failure inside the `try` is an `Error` and is rethrown
      as it is; anything else that is thrown becomes the generic search
      failure. */
  function FetchAddressCoordinates(address: string, geocode: string -> Result<string>,
                                   decode: string -> Option<AddressApiResponse>,
                                   toWgs84: Pair -> Option<Pair>): (r: Result<AddressSearchResult>)
    ensures r.Thrown? ==> r.fault.Error?
    ensures IsBlank(address) ==> r == Thrown(Error(MsgEmptyAddress))
    ensures !IsBlank(address) && geocode(address).Ok? ==> r == ReadAnswer(address, geocode(address).value, decode, toWgs84)
  {
    if IsBlank(address) then Thrown(Error(MsgEmptyAddress))
    else
      var attempt := match geocode(address)
        case Thrown(f) => Thrown(f)
        case Ok(text) => ReadAnswer(address, text, decode, toWgs84);
      match attempt
      case Thrown(NonError) => Thrown(Error(MsgSearchFailed(address)))
      case _ => attempt
  }

  /** A request that fails with an `Error` fails the lookup with that same
      error; one that throws anything else fails it with the generic
      message. */
  lemma RequestFailurePassedOn(address: string, geocode: string -> Result<string>,
                               decode: string -> Option<AddressApiResponse>, toWgs84: Pair -> Option<Pair>)
    requires !IsBlank(address) && geocode(address).Thrown?
    ensures geocode(address).fault.Error? ==>
              FetchAddressCoordinates(address, geocode, decode, toWgs84) == Thrown(geocode(address).fault)
    ensures geocode(address).fault.NonError? ==>
              FetchAddressCoordinates(address, geocode, decode, toWgs84) == Thrown(Error(MsgSearchFailed(address)))
  {
  }

  /** Only the first result matters: two answers whose first results agree
      give the same outcome, whatever follows. */
  lemma OnlyFirstResultUsed(address: string, text: string, first: (string, Candidate),
                            rest1: seq<(string, Candidate)>, rest2: seq<(string, Candidate)>,
                            toWgs84: Pair -> Option<Pair>)
    requires !IsBlank(text)
    ensures var decode1 := (t: string) => Some(AddressApiResponse(Some([first] + rest1)));
            var decode2 := (t: string) => Some(AddressApiResponse(Some([first] + rest2)));
            ReadAnswer(address, text, decode1, toWgs84) == ReadAnswer(address, text, decode2, toWgs84) ==
              FromCandidate(address, first.1, toWgs84)
  {
  }

  /** A blank answer means "not found" even before the JSON is looked at. */
  lemma BlankAnswerNotFound(address: string, text: string, decode: string -> Option<AddressApiResponse>,
                            toWgs84: Pair -> Option<Pair>)
    requires AllWhitespace(text)
    ensures ReadAnswer(address, text, decode, toWgs84) == Thrown(Error(MsgAddressNotFound(address)))
  {
    BlankIffAllWhitespace(text);
  }

  /** An answer with no results, or with an empty `results`, is "not
      found"; so is one that is not JSON, with its own message. */
  lemma EmptyResultsNotFound(address: string, text: string, decode: string -> Option<AddressApiResponse>,
                             toWgs84: Pair -> Option<Pair>)
    requires !IsBlank(text)
    ensures decode(text).None? ==> ReadAnswer(address, text, decode, toWgs84) == Thrown(Error(MsgInvalidJson(address)))
    ensures decode(text).Some? && (decode(text).value.results.None? || decode(text).value.results == Some([])) ==>
              ReadAnswer(address, text, decode, toWgs84) == Thrown(Error(MsgAddressNotFound(address)))
  {
  }

  /** A candidate whose coordinates are written as plain decimals `a.b` and
      `c.d` is placed where the transformation puts those two numbers, and
      is labelled `street number, city`. */
  lemma DecimalCandidateLocated(address: string, a: string, b: string, c: string, d: string,
                                street: string, number: string, city: string,
                                toWgs84: Pair -> Option<Pair>)
    requires AllDigits(a) && AllDigits(b) && a != []
    requires AllDigits(c) && AllDigits(d) && c != []
    requires toWgs84((Mantissa(a, b), Mantissa(c, d))).Some?
    ensures var cand := Candidate(Some(city), Some(street), Some(number), Some(a + "." + b), Some(c + "." + d));
            var lngLat := toWgs84((Mantissa(a, b), Mantissa(c, d))).value;
            FromCandidate(address, cand, toWgs84) ==
              Ok(AddressSearchResult(lngLat.1, lngLat.0, street + " " + number + ", " + city))
  {
    ParseFloatPointed(a, b);
    ParseFloatPointed(c, d);
  }

  /** A candidate without an `x` is refused, and the message shows the
      missing value as `undefined`. */
  lemma MissingCoordinateRefused(address: string, cand: Candidate, toWgs84: Pair -> Option<Pair>)
    requires cand.x.None?
    ensures FromCandidate(address, cand, toWgs84) ==
              Thrown(Error("Nieprawidłowe współrzędne dla adresu: " + address + ". X: undefined, Y: " + Shown(cand.y)))
  {
    var head := "Nieprawidłowe współrzędne dla adresu: " + address;
    assert ". X: " + Shown(cand.x) + ", Y: " == ". X: undefined, Y: ";
    assert MsgInvalidCoordinates(address, cand) == head + (". X: " + Shown(cand.x) + ", Y: ") + Shown(cand.y);
  }
}
