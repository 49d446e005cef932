/** The records the application passes between its parts: the parcel the
    cadastral lookup produces, the address the geocoder produces, the two form
    models and the report assembled from them. */
module Models {
  import opened Common

  /** A WGS84 point. */
  datatype Coordinates = Coordinates(lat: real, lng: real)

  /** A cadastral parcel: six administrative texts, its centre and its outline
      as `[lat, lng]` pairs. */
  datatype DzialkaModel = DzialkaModel(
    id: string,
    voivodeship: string,
    county: string,
    commune: string,
    region: string,
    parcel: string,
    centerCoordinates: Coordinates,
    polygonCoordinates: seq<Pair>)

  /** An address found by the geocoder. */
  datatype AddressSearchResult = AddressSearchResult(lat: real, lng: real, address: string)

  /** The investment form: its name, the parcel identifier, the building type
      (`'jednorodzinna'` or `'wielorodzinna'`) and the two yes/no answers
      (`'tak'` or `'nie'`) about the stormwater connection. */
  datatype InwestycjaModel = InwestycjaModel(
    nazwaInwestycji: string,
    identyfikatorInwestycji: string,
    typZabudowy: string,
    isPodlaczony: string,
    isIstniejacePolaczenie: string)

  /** The calculator form: six surface areas in square metres. */
  datatype KalkulatorModel = KalkulatorModel(
    powDzialki: real,
    powDachow: real,
    powDachowPozaObrysem: real,
    powUszczelnione: real,
    powPrzepuszczalne: real,
    powTerenyInne: real)

  /** Everything the report is computed from. The parcel may be missing even
      though its type says otherwise, so it is optional here. */
  datatype RaportModel = RaportModel(
    inwestycja: InwestycjaModel,
    daneDzialki: Option<DzialkaModel>,
    mapScreenshot: Option<string>,
    daneKalkulator: KalkulatorModel)
}
