# cap-retencja-v1 — a Dafny model of the retention calculator's core

The application helps an investor in Poznań size the stormwater retention
a building plot needs. The investor gives an investment (its name, the
building type and whether it is connected to the storm sewer) and a cadastral
parcel. The parcel is found by its identifier or by an address on a map. The
investor then enters six surface areas, and the report computes the required
retention volume (BZI) and the detention volume. For a connected
multi-family building, the rate depends on whether the parcel's stormwater
catchment is overloaded.

This project models the deterministic logic around the application's
services and states what it guarantees. It has one module per source file:

- `DzialkaParser`: the cadastral lookup. It reads the register's `|`-separated
  row and the `SRID=n;POLYGON((…))` outline, closes the ring for the centroid,
  and looks a parcel up by identifier or by point.
- `AddressSearch`: the geocoder lookup. It runs a fixed chain of guards over
  the answer, takes the first candidate and builds its label.
- `ZlewniaFinder`: the first-match search of the catchment features.
- `RaportCalculations`: the BZI rule, the detention doubling and the hook
  state updated by the catchment lookup.
- `KalkulatorInput`: the calculator's decimal-comma input field. It covers
  the accepted-text filter, parsing, the blur formatting and the render sync.
- `KalkulatorSum`: the displayed sum of the four counted surfaces.
- `LocationInput`: the search box. It classifies the text and dispatches the
  search.
- `MapModal`: the map dialog's parcel/address/error state, and its alert text.
- `InwestycjaStore`, `KalkulatorStore`, `AppStore`: the two stores, their
  reset, and the report assembled from them.

Shared modules:

- `Common` holds `Option`, a `Result` for code that may `throw`, and the
  JavaScript string operations the code uses (`trim`, `split`, `split(/\s+/)`,
  `replace` of the first match, `includes`).
- `JsNumber` holds `Number()`, `parseFloat`, `String(n)` and `toFixed(2)` over
  decimal literals.
- `Models` holds the records passed between the parts.

Everything outside the code's own logic is a parameter of the operation that
uses it:

- the HTTP answers of the parcel register (ULDK), the geocoder (UUG) and the
  catchment GeoJSON file;
- the proj4 transformations between WGS84, EPSG:2180 and EPSG:2177;
- turf's centroid and point-in-polygon test;
- `JSON.parse` of the geocoder's answer;
- `Number.prototype.toString`.

A JavaScript `throw` is a `Result.Thrown` carrying either an `Error` with its
message or some other value.

Where the code and its tests disagree, the model follows the code:

- the catchment name is copied verbatim, and its `[n]` suffix is not removed;
- the "no connection" name is `Nie wybrano podłączenia do kanalizacji deszczowej`,
  not `-`;
- the WKT error messages are the English texts the code throws;
- the catchment file is fetched on every lookup, with no cache.

The mount-time parcel load of the map dialog sets the parcel without
clearing the address. Only the two handlers keep "parcel or address, not
both". `MapModal.LateLoadKeepsAddress` shows that a load finishing after an
address was found leaves both set.

## Model

| member | source | states |
|---|---|---|
| `DzialkaParser.WktError` | src/features/inwestycja/services/dzialka-parser.ts:49-53 | every failure inside the WKT parser is rethrown as an `Error` whose message starts with `Failed to parse WKT polygon: ` |
| `DzialkaParser.StripSridPrefix` | src/features/inwestycja/services/dzialka-parser.ts:18 | the text is either unchanged or loses a prefix, and only when it starts with `SRID=` |
| `DzialkaParser.StripClosing` | src/features/inwestycja/services/dzialka-parser.ts:19 | the result is a prefix of the text, and only `)` and whitespace are removed |
| `DzialkaParser.ParsePair` | src/features/inwestycja/services/dzialka-parser.ts:24-41 | definition of the per-pair step: trim, split on whitespace, exactly two parts, `Number` on both, NaN refused; its contract is stated by `FirstTokenRejected`, `MapParsedSpec` and `WktRoundTrip` |
| `DzialkaParser.MapParsed` | src/features/inwestycja/services/dzialka-parser.ts:24-42 | definition of the `map` that throws at the first bad pair; on success one value per token; its contract is stated by `MapParsedSpec` |
| `DzialkaParser.MapParsedSpec` | src/features/inwestycja/services/dzialka-parser.ts:24-42 | the pairs are read exactly when every token is; each value comes from its own token, in order; otherwise the failure is that of the first bad token |
| `DzialkaParser.ParseWktPolygon` | src/features/inwestycja/services/dzialka-parser.ts:13-54 | a failure is an `Error` with the WKT prefix; a success has at least three pairs |
| `DzialkaParser.ParseCoordinates` | src/features/inwestycja/services/dzialka-parser.ts:22-46 | after stripping, a failure is an `Error` with the WKT prefix; a success has at least three pairs |
| `DzialkaParser.WktRoundTrip` | src/features/inwestycja/services/dzialka-parser.ts:13-54 | a polygon written `SRID=n;POLYGON((x y,…` followed by two or more `)` reads back as one pair per written pair, in order, with the values `Number` gives; fewer than three pairs give the "at least 3 coordinates" error; the ring is never closed |
| `DzialkaParser.TrailingWhitespaceIgnored` | src/features/inwestycja/services/dzialka-parser.ts:16-19 | a trailing newline or other whitespace does not change the outcome |
| `DzialkaParser.MissingSridRejected` | src/features/inwestycja/services/dzialka-parser.ts:18-39 | a polygon without the `SRID=n;` prefix is rejected, because its first token starts with `POLYGON((` |
| `DzialkaParser.LeadingLetterRejected` | src/features/inwestycja/services/dzialka-parser.ts:16-39 | text starting with a character no decimal literal can start with, other than the `S` of `SRID=`, `)` or `,`, is rejected |
| `DzialkaParser.SecondRingRejected` | src/features/inwestycja/services/dzialka-parser.ts:18-39 | a polygon with a second ring `),(` is rejected, because a token then begins with `(` |
| `DzialkaParser.FirstTokenRejected` | src/features/inwestycja/services/dzialka-parser.ts:25-39 | a token starting with a character no decimal literal can start with never gives a pair |
| `DzialkaParser.NotANumberStart` | src/features/inwestycja/services/dzialka-parser.ts:34-39 | `Number` gives NaN for text whose first character cannot start a decimal literal (a letter, a parenthesis); the `I` of `Infinity` is read as such a letter here |
| `DzialkaParser.ParseDzialkaResponse` | src/features/inwestycja/services/dzialka-parser.ts:57-73 | definition: drop a leading `0\n`, split on `|`, fewer than seven fields give nothing; its contract is stated by `ResponseRoundTrip` and `ShortResponseRefused` |
| `DzialkaParser.ResponseRoundTrip` | src/features/inwestycja/services/dzialka-parser.ts:57-73 | a register row after `0\n` reads back as its first seven fields, id to geometry; extra fields are ignored |
| `DzialkaParser.ShortResponseRefused` | src/features/inwestycja/services/dzialka-parser.ts:57-62 | a row of fewer than seven fields gives no parcel, with or without the `0\n` line |
| `DzialkaParser.ClosedRing` | src/features/inwestycja/services/dzialka-parser.ts:81-90 | the closed ring's first point equals its last; it grew by at most one point; the original points are kept in place; it grew exactly when the ring was nonempty and not closed |
| `DzialkaParser.CloseRing` | src/features/inwestycja/services/dzialka-parser.ts:81-90 | the push of a copy of the first point gives the closed ring |
| `DzialkaParser.LngLatToCoordinates` | src/features/inwestycja/services/dzialka-parser.ts:98-101 | proj4's `[lng, lat]` becomes `{lat, lng}` with the two numbers swapped back |
| `DzialkaParser.DzialkaCenter` | src/features/inwestycja/services/dzialka-parser.ts:76-102 | a centre exists only for a polygon that parses |
| `DzialkaParser.GetDzialkaCenterCoordinates` | src/features/inwestycja/services/dzialka-parser.ts:76-102 | a parse failure or a centroid failure propagates; otherwise the centre is the centroid of the closed ring, transformed |
| `DzialkaParser.GetDzialkaPolygonCoordinates` | src/features/inwestycja/services/dzialka-parser.ts:106-117 | definition: parse the WKT, then transform each vertex and write it `[lat, lng]`; its contract is stated by `PolygonCoordinatesFollowVertices` |
| `DzialkaParser.PolygonCoordinatesFollowVertices` | src/features/inwestycja/services/dzialka-parser.ts:105-117 | the outline exists exactly when the polygon parses; it has one entry per vertex, in order, each the transformed vertex as `[lat, lng]`; it is not closed |
| `DzialkaParser.DzialkaFromResponse` | src/features/inwestycja/services/dzialka-parser.ts:132-148 | a `0` body gives the "no parcel" error; a short row gives the "does not exist / not found" error; WKT and centroid failures propagate; otherwise the six texts of the row with the centre and the outline; a parcel's id is the row's id |
| `DzialkaParser.DzialkaById` | src/features/inwestycja/services/dzialka-parser.ts:120-149 | definition of the lookup by identifier; its contract is stated by the `FetchDzialkaData` method, whose result equals it |
| `DzialkaParser.DzialkaAtPoint` | src/features/inwestycja/services/dzialka-parser.ts:152-179 | definition of the lookup by map point; its contract is stated by the `FetchDzialkaDataByCoordinates` method, whose result equals it |
| `DzialkaParser.FetchDzialkaData` | src/features/inwestycja/services/dzialka-parser.ts:120-149 | a blank identifier is refused before any request; a request failure propagates; a `0` body gives `Brak działki dla identyfikatora <id>`; a short row gives the "does not exist" error |
| `DzialkaParser.FetchDzialkaDataByCoordinates` | src/features/inwestycja/services/dzialka-parser.ts:152-179 | the point is transformed as `[lng, lat]`; a `0` body gives `Brak działki w tym miejscu na mapie`; a short row gives `Nie znaleziono działki w tym miejscu na mapie` |
| `AddressSearch.FromCandidate` | src/features/inwestycja/services/address-search.ts:52-74 | a result exactly when both coordinates read as numbers and the transformation gives numbers; a missing or unreadable coordinate gives the coordinate error; readable coordinates that the transformation turns into NaN give `Błąd konwersji współrzędnych dla adresu: <address>`; the result is placed at the transformed point and labelled from the candidate |
| `AddressSearch.ReadAnswer` | src/features/inwestycja/services/address-search.ts:25-74 | every failure after the request is an `Error` |
| `AddressSearch.FetchAddressCoordinates` | src/features/inwestycja/services/address-search.ts:14-81 | a blank address is refused with `Adres nie może być pusty` before any request; the lookup throws only `Error`s; with an answer, the outcome is that of the guard chain over it |
| `AddressSearch.RequestFailurePassedOn` | src/features/inwestycja/services/address-search.ts:75-80 | an `Error` from the request is rethrown unchanged; anything else thrown becomes `Błąd podczas wyszukiwania adresu: <address>` |
| `AddressSearch.OnlyFirstResultUsed` | src/features/inwestycja/services/address-search.ts:48-50 | two answers that agree on their first result give the same outcome, that of the first candidate |
| `AddressSearch.BlankAnswerNotFound` | src/features/inwestycja/services/address-search.ts:29-31 | an empty or whitespace answer is "not found" |
| `AddressSearch.EmptyResultsNotFound` | src/features/inwestycja/services/address-search.ts:33-46 | text that is not JSON gives the invalid-JSON error; missing or empty `results` give "not found" |
| `AddressSearch.DecimalCandidateLocated` | src/features/inwestycja/services/address-search.ts:52-74 | a candidate with decimal coordinates `a.b` and `c.d` is placed where the transformation puts those values, labelled `street number, city` |
| `AddressSearch.MissingCoordinateRefused` | src/features/inwestycja/services/address-search.ts:52-60 | a candidate without `x` is refused, and the message shows `X: undefined` |
| `JsNumber.ParseFloat` | src/features/inwestycja/services/address-search.ts:53-54 | definition of `parseFloat` over decimal literals (leading whitespace skipped, longest decimal prefix read); its contract is stated by `ParseFloatPointed`, `ParseAcceptedText` and `FormatThenParse` |
| `JsNumber.Number` | src/features/inwestycja/services/dzialka-parser.ts:34 | definition of `Number()` over decimal literals (blank text is 0, the whole trimmed text must be a literal); its contract is stated by `NotANumberStart` and `WktRoundTrip` |
| `JsNumber.ParseFloatPointed` | src/features/inwestycja/services/address-search.ts:53-54 | `parseFloat` reads `a.b` as the decimal value of its digits |
| `JsNumber.ToFixed2` | src/features/kalkulator/components/KalkulatorSumDisplay.tsx:19 | definition of `toFixed(2)` below 1e21: round half up to hundredths of the magnitude, sign, integer part, point, two digits; its contract is stated by `ToFixed2Shape` and `ExampleSum` |
| `JsNumber.ToFixed2Shape` | src/features/kalkulator/components/KalkulatorSumDisplay.tsx:19 | `toFixed(2)` writes a sign, integer digits, a point and two digits, within half a hundredth of the magnitude |
| `ZlewniaFinder.ZlewniaOf` | src/features/raport/services/zlewnia-finder.ts:26-30 | the name is copied verbatim; overloaded exactly when `przeciazona` is `TAK` |
| `ZlewniaFinder.Search` | src/features/raport/services/zlewnia-finder.ts:23-34 | definition of the first-match search; its contract is stated by `SearchCharacterised`, `LaterFeaturesIgnored`, `MissesSkipped` and the `FindZlewnia` loop |
| `ZlewniaFinder.SearchCharacterised` | src/features/raport/services/zlewnia-finder.ts:23-34 | nothing is found exactly when every feature is tested and none contains the point; otherwise the first feature not rejected alone decides the outcome |
| `ZlewniaFinder.LaterFeaturesIgnored` | src/features/raport/services/zlewnia-finder.ts:23-32 | once the search has ended, features after it are never looked at |
| `ZlewniaFinder.MissesSkipped` | src/features/raport/services/zlewnia-finder.ts:23-32 | features that do not contain the point are passed over |
| `ZlewniaFinder.SecondOfTwoFound` | src/features/raport/services/zlewnia-finder.ts:23-32 | with a miss and then a hit, the hit is reported with its own name and flag |
| `ZlewniaFinder.FindZlewnia` | src/features/raport/services/zlewnia-finder.ts:8-39 | the loop returns the catchment the first-match search finds; any failure (dataset, transformation, test, missing properties) and finding nothing give `null`; the point is transformed as `[lng, lat]` |
| `RaportCalculations.SumaPowierzchni` | src/features/raport/hooks/useRaportCalculations.ts:19-23 | definition of the counted surface sum; its contract is stated by `UncountedAreasIrrelevant` and `VolumesFollowRule` |
| `RaportCalculations.CalculateObjBZI` | src/features/raport/hooks/useRaportCalculations.ts:27-38 | definition in the hook's branch form; its contract is stated by `VolumesFollowRule` (BZI is the sum times `BziRate`) and `SingleFamilyIgnoresOverload` |
| `RaportCalculations.ObjDetencyjnych` | src/features/raport/hooks/useRaportCalculations.ts:43 | definition of the detention volume; its contract is stated by `VolumesFollowRule` (twice BZI) |
| `RaportCalculations.BziRate` | src/features/raport/hooks/useRaportCalculations.ts:27-38 | 6 % for a single-family building or no connection; otherwise 4 % when overloaded and 3 % when not |
| `RaportCalculations.VolumesFollowRule` | src/features/raport/hooks/useRaportCalculations.ts:19-44 | in each branch BZI is the surface sum times its rate, and detention is twice BZI |
| `RaportCalculations.UncountedAreasIrrelevant` | src/features/raport/hooks/useRaportCalculations.ts:19-23 | the parcel area and the "other" areas never change the result |
| `RaportCalculations.NoSurfaceNoVolume` | src/features/raport/hooks/useRaportCalculations.ts:19-44 | with no counted surface both volumes are 0 |
| `RaportCalculations.SingleFamilyIgnoresOverload` | src/features/raport/hooks/useRaportCalculations.ts:28-30 | for a single-family building the overload flag never matters |
| `RaportCalculations.OverloadedExample` | src/features/raport/hooks/useRaportCalculations.ts:36-44 | 800 m² for a connected multi-family building in an overloaded catchment gives 32 m³ and 64 m³ |
| `RaportCalculations.RaportState.constructor` | src/features/raport/hooks/useRaportCalculations.ts:14-17 | the state starts not overloaded, under the "no connection" name |
| `RaportCalculations.RaportState.Calculate` | src/features/raport/hooks/useRaportCalculations.ts:26-50 | detention is twice BZI; BZI follows the rate for the current overload flag; the name is the state's |
| `RaportCalculations.RaportState.FindDaneZlewni` | src/features/raport/hooks/useRaportCalculations.ts:52-83 | without a lookup the state is reset to its start; with one, a found catchment sets the name and flag, and none found (or no parcel) leaves both |
| `RaportCalculations.NoLookupReport` | src/features/raport/hooks/useRaportCalculations.ts:52-61 | after the effect, a report needing no lookup shows 6 % and 12 % of the sum and the "no connection" name, whatever the earlier state |
| `KalkulatorInput.AcceptedInput` | src/features/kalkulator/components/kalkulator-form-input.tsx:48-51 | definition of the input filter `^[0-9]*,?[0-9]*$`; its contract is stated by `ParseAcceptedText` and `KalkulatorField.HandleInputChange` |
| `KalkulatorInput.FormatNumber` | src/features/kalkulator/components/kalkulator-form-input.tsx:31-34 | definition of the display format; its contract is stated by `FormatThenParse` and `ZeroDisplayReadsZero` |
| `KalkulatorInput.ChangedValue` | src/features/kalkulator/components/kalkulator-form-input.tsx:54-59 | definition of the value an accepted edit stores; its contract is stated by `ZeroTextsParseToZero` and `KalkulatorField.HandleInputChange` |
| `KalkulatorInput.ParseNumber` | src/features/kalkulator/components/kalkulator-form-input.tsx:36-40 | the number is never negative |
| `KalkulatorInput.ParseAcceptedText` | src/features/kalkulator/components/kalkulator-form-input.tsx:36-40 | on a text the filter accepts, the number is the decimal its digits denote (0 without digits): never NaN, never clamped |
| `KalkulatorInput.ZeroTextsParseToZero` | src/features/kalkulator/components/kalkulator-form-input.tsx:54-59 | the special-cased `''`, `'0'`, `'0,'` store what parsing gives anyway |
| `KalkulatorInput.FormatThenParse` | src/features/kalkulator/components/kalkulator-form-input.tsx:31-40 | a displayed number reads back as itself, given a `toString` that `parseFloat` reads back |
| `KalkulatorInput.ZeroDisplayReadsZero` | src/features/kalkulator/components/kalkulator-form-input.tsx:29-40 | `0,00` reads as 0 |
| `KalkulatorInput.KalkulatorField.constructor` | src/features/kalkulator/components/kalkulator-form-input.tsx:29 | the display starts as `0,00` |
| `KalkulatorInput.KalkulatorField.HandleInputChange` | src/features/kalkulator/components/kalkulator-form-input.tsx:42-61 | an accepted text is shown and its number stored; a rejected edit changes neither |
| `KalkulatorInput.KalkulatorField.HandleBlur` | src/features/kalkulator/components/kalkulator-form-input.tsx:63-76 | a zero text becomes `0,00` and 0; anything else is parsed, stored and shown formatted |
| `KalkulatorInput.KalkulatorField.RenderSync` | src/features/kalkulator/components/kalkulator-form-input.tsx:83-88 | afterwards the display is `0,00` exactly when the value is 0 |
| `KalkulatorInput.TypeThenBlur` | src/features/kalkulator/components/kalkulator-form-input.tsx:42-76 | typing an accepted text and leaving the field stores its decimal value |
| `KalkulatorSum.Suma` | src/features/kalkulator/components/KalkulatorSumDisplay.tsx:16 | definition of the displayed sum of the four counted surfaces; its contract is stated by `FormatSumShape` and `ExampleSum` |
| `KalkulatorSum.FormatSum` | src/features/kalkulator/components/KalkulatorSumDisplay.tsx:17-20 | definition of the sum's format; its contract is stated by `FormatSumShape`, `ZeroSumShown` and `ExampleSum` |
| `KalkulatorSum.FormatSumShape` | src/features/kalkulator/components/KalkulatorSumDisplay.tsx:17-20 | the shown sum is a sign, digits, one comma and two digits, with no point, within half a hundredth of the sum |
| `KalkulatorSum.ZeroSumShown` | src/features/kalkulator/components/KalkulatorSumDisplay.tsx:16-18 | a zero sum shows `0,00` |
| `KalkulatorSum.ExampleSum` | src/features/kalkulator/components/KalkulatorSumDisplay.tsx:16-20 | 1002.372 shows as `1002,37` |
| `LocationInput.DetermineSearchType` | src/features/inwestycja/components/location-input.tsx:27-30 | definition of the classification; its contract is stated by `SurroundingWhitespaceIgnored`, `DigitLedIsParcel`, `OtherTextIsAddress` and `BlankSearchedAsAddressAndRefused` |
| `LocationInput.SurroundingWhitespaceIgnored` | src/features/inwestycja/components/location-input.tsx:27-30 | whitespace around the text never changes the classification |
| `LocationInput.DigitLedIsParcel` | src/features/inwestycja/components/location-input.tsx:27-30 | a text whose first non-blank character is a digit is a parcel identifier, and it is not blank |
| `LocationInput.OtherTextIsAddress` | src/features/inwestycja/components/location-input.tsx:27-30 | a text whose first non-blank character is not a digit is an address |
| `LocationInput.BlankSearchedAsAddressAndRefused` | src/features/inwestycja/components/location-input.tsx:27-30 | a blank text is an address, and the address lookup refuses it with `Adres nie może być pusty` |
| `LocationInput.ErrorMessage` | src/features/inwestycja/components/location-input.tsx:46-48 | an `Error` shows its message; anything else thrown shows `Unknown error` |
| `LocationInput.AddressErrorShownVerbatim` | src/features/inwestycja/components/location-input.tsx:36-48 | a failed address search shows the lookup's own message |
| `LocationInput.ParcelRequestFaultUnknown` | src/features/inwestycja/components/location-input.tsx:39-48 | a parcel request throwing a non-`Error` shows `Unknown error` |
| `LocationInput.LocationInput.constructor` | src/features/inwestycja/components/location-input.tsx:23-24 | the box starts empty and idle |
| `LocationInput.LocationInput.SetInputValue` | src/features/inwestycja/components/location-input.tsx:59 | typing replaces the text |
| `LocationInput.LocationInput.ClickHandler` | src/features/inwestycja/components/location-input.tsx:32-50 | exactly the lookup matching the classification runs; its result goes to the matching dialog handler and the error is cleared; a failure shows its message and leaves parcel and address; loading ends off; "parcel or address, not both" is kept |
| `MapModal.AlertText` | src/features/inwestycja/components/map-modal.tsx:99-101 | no alert for no error or an empty one; otherwise the bare "does not exist" sentence or the whole error |
| `MapModal.UnknownParcelAlertShortened` | src/features/inwestycja/components/map-modal.tsx:99-101 | the identifier lookup's long "does not exist" message shows as its first sentence |
| `MapModal.OtherErrorsShownInFull` | src/features/inwestycja/components/map-modal.tsx:99-101 | an error without that sentence shows in full |
| `MapModal.MapModal.constructor` | src/features/inwestycja/components/map-modal.tsx:21-27 | the dialog opens with no parcel, no address and no error |
| `MapModal.ShouldLoad` | src/features/inwestycja/components/map-modal.tsx:31 | definition of the mount-time condition (an identifier that is not blank); its contract is stated by `MapModal.LoadPreviousDzialka` |
| `MapModal.MapModal.LoadPreviousDzialka` | src/features/inwestycja/components/map-modal.tsx:29-40 | only a non-blank identifier is looked up; a parcel found is set without touching the address; a failure clears the parcel; the error is untouched |
| `MapModal.MapModal.HandleAddressFound` | src/features/inwestycja/components/map-modal.tsx:42-47 | the address replaces any parcel and the error is cleared |
| `MapModal.MapModal.HandleDzialkaSet` | src/features/inwestycja/components/map-modal.tsx:49-55 | the parcel given is stored; a parcel clears the address, none leaves it; "parcel or address, not both" is kept |
| `MapModal.MapModal.SetError` | src/features/inwestycja/components/map-modal.tsx:105 | only the error changes |
| `MapModal.LateLoadKeepsAddress` | src/features/inwestycja/components/map-modal.tsx:29-47 | a mount load finishing after an address was found leaves both set |
| `InwestycjaStore.InwestycjaStore.constructor` | src/features/inwestycja/stores/inwestycja-store.ts:16-34 | the store starts empty, `jednorodzinna`, `nie`, `nie`, with no parcel, no screenshot, not submitted |
| `InwestycjaStore.InwestycjaStore.SetForm` | src/features/inwestycja/stores/inwestycja-store.ts:35 | the five form fields are overwritten and nothing else changes |
| `InwestycjaStore.InwestycjaStore.SetDaneDzialki` | src/features/inwestycja/stores/inwestycja-store.ts:36 | only the parcel changes |
| `InwestycjaStore.InwestycjaStore.SetMapScreenshot` | src/features/inwestycja/stores/inwestycja-store.ts:37 | only the screenshot changes |
| `InwestycjaStore.InwestycjaStore.SubmitInwestycja` | src/features/inwestycja/stores/inwestycja-store.ts:38 | only the flag changes, to true, so repeating it changes nothing |
| `InwestycjaStore.InwestycjaStore.Reset` | src/features/inwestycja/stores/inwestycja-store.ts:39 | every field returns to the initial state from any state, so repeating it changes nothing |
| `KalkulatorStore.KalkulatorStore.constructor` | src/features/kalkulator/stores/kalkulator-store.ts:12-27 | six zero surfaces, not submitted |
| `KalkulatorStore.KalkulatorStore.SetForm` | src/features/kalkulator/stores/kalkulator-store.ts:28 | the six surfaces are stored exactly as given and the flag is kept |
| `KalkulatorStore.KalkulatorStore.SubmitKalkulator` | src/features/kalkulator/stores/kalkulator-store.ts:29 | only the flag changes, to true |
| `KalkulatorStore.KalkulatorStore.Reset` | src/features/kalkulator/stores/kalkulator-store.ts:30 | all seven fields return to the initial state |
| `KalkulatorStore.SnapshotThenSetForm` | src/features/kalkulator/stores/kalkulator-store.ts:28 | a snapshot read before `setForm` keeps its values; the new state holds the data given |
| `AppStore.ResetAllStores` | src/app/app-store.ts:5-8 | both stores end in their initial states, whatever they held, so repeating it changes nothing |
| `AppStore.UseDaneRaport` | src/app/app-store.ts:10-49 | the report takes the five investment fields, the parcel, the screenshot and the six surfaces from the stores' current values |
| `AppStore.ReportKeepsStores` | src/app/app-store.ts:10-49 | with the two submitted flags, both store states are rebuilt from the report: nothing else is lost or changed |
| `AppStore.ReportDeterminedByData` | src/app/app-store.ts:10-49 | two pairs of store states give the same report exactly when they agree on everything but the submitted flags |
| `AppStore.InitialReportNeedsNoLookup` | src/app/app-store.ts:5-8 | the report of reset stores is single-family, with no parcel and no screenshot, so it needs no catchment lookup |
| `AppStore.InitialVolumesZero` | src/features/raport/hooks/useRaportCalculations.ts:19-44 | with the calculator reset, both volumes are 0 |
| `AppStore.ResetThenReport` | src/app/app-store.ts:5-49 | after `resetAllStores` the report is that of the initial states |

## Left out

- The HTTP requests, URL building and `encodeURIComponent` are not modelled. Each answer is a parameter of the lookup that reads it.
- Asynchrony is not modelled: every lookup completes at once. Stale or out-of-order answers are left out. So is the race between the map dialog's mount load and its handlers, except that the load can be called in any state.
- proj4 and turf are parameters. No claim is made about their geometry, their precision or whether the centroid is area-weighted.
- The parcel's centre and outline treat proj4's results as numbers. A NaN from those transformations is not represented. The address lookup's NaN check after the transformation is modelled, and there the transformation may return nothing. In the catchment search the transformation may also return nothing, standing for a proj4 or turf `point` throw, which ends the search with `null`.
- `JSON.parse` is a parameter. A `null` decoded answer or a `null` candidate would throw a `TypeError`; the model does not represent either.
- A catchment feature whose `nazwa_zlewni` is missing is not represented. The name is always a string.
- The catchment dataset's own failures are one `None`: the fetch, the JSON read and a missing `features` list.
- `Number()` and `parseFloat` read decimal literals with sign, fraction and exponent. `Infinity`, the hexadecimal, octal and binary forms, and rounding to binary floating point are not part of this model.
- `toFixed(2)` is exact rounding to hundredths with ties away from zero. Its exponent form at or above 1e21 and binary rounding effects such as `1.005` are left out.
- `Number.prototype.toString` is a parameter of the input field. `KalkulatorInput.FormatThenParse` and `KalkulatorInput.KalkulatorField.RenderSync` assume only what they need of it.
- `DzialkaParser.Describe`: the `(x=…, y=…)` tail of the WKT "Invalid coordinates" message is left out, because it needs number-to-text conversion. The message keeps its prefix and the token.
- All arithmetic in `RaportCalculations` is exact over reals. Floating-point rounding of the products is left out.
- Persistence of the stores to `localStorage` is left out, as are the legacy store copies, the zod schemas, the PDF report and the React, Leaflet and dialog rendering.
- The `isLoading` spinner of the search box is set and cleared within one call. Its value during the request is not observable in the model.
