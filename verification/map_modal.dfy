/** The map dialog's selection state (`map-modal.tsx`): the parcel shown,
    the address found and the error alerted. The search box and the map set
    them through the two handlers; when the dialog opens, a parcel chosen
    earlier is loaded again.

    The mount effect's lookup is asynchronous; here it is a method that can
    be called in any state, so that a load finishing after a handler is
    covered too. */
module MapModal {
  import opened Common
  import opened Models
  import opened DzialkaParser

  /** The services behind the parcel lookup: the register's answer for an
      identifier, turf's centroid and proj4 from EPSG:2180 to WGS84. */
  datatype ParcelServices = ParcelServices(
    uldkById: string -> Result<string>,
    centroid: seq<Pair> -> Result<Pair>,
    toWgs84: Pair -> Pair)

  /** `watchedIdentyfikator && watchedIdentyfikator.trim() !== ''`: the
      form holds an identifier that is not blank. */
  predicate ShouldLoad(watchedIdentyfikator: Option<string>)
  {
    watchedIdentyfikator.Some? && !IsBlank(watchedIdentyfikator.value)
  }

  /** The alert's text for an error: the bare "does not exist" sentence
      when the error contains it, the whole error otherwise. The empty
      error, like no error, shows no alert. */
  function AlertText(error: Option<string>): (shown: Option<string>)
    ensures shown.None? <==> error.None? || error == Some("")
    ensures shown.Some? ==> shown.value == ParcelDoesNotExist || shown == error
  {
    match error
    case None => None
    case Some(e) =>
      if e == "" then None
      else if Contains(e, ParcelDoesNotExist) then Some(ParcelDoesNotExist)
      else Some(e)
  }

  /** The long "does not exist" message of the identifier lookup is shown
      as its first sentence only. */
  lemma UnknownParcelAlertShortened()
    ensures AlertText(Some(MsgParcelDoesNotExist)) == Some(ParcelDoesNotExist)
  {
    var tail := " Sprawdź poprawność numeru identyfikacyjnego działki lub wybierz działkę na mapie!";
    assert MsgParcelDoesNotExist == ParcelDoesNotExist + tail;
    assert OccursAt(MsgParcelDoesNotExist, ParcelDoesNotExist, 0);
  }

  /** An error that does not contain the sentence is shown in full. */
  lemma OtherErrorsShownInFull(e: string)
    requires e != "" && !Contains(e, ParcelDoesNotExist)
    ensures AlertText(Some(e)) == Some(e)
  {
  }

  /** The dialog's three state variables. */
  class MapModal {
    var daneDzialki: Option<DzialkaModel>
    var daneAdresu: Option<AddressSearchResult>
    var error: Option<string>

    /** At most one of a parcel and an address is shown. */
    predicate Exclusive()
      reads this
    {
      daneDzialki.None? || daneAdresu.None?
    }

    /** The dialog opens with nothing selected and no error. */
    constructor ()
      ensures daneDzialki.None? && daneAdresu.None? && error.None?
      ensures Exclusive()
    {
      daneDzialki := None;
      daneAdresu := None;
      error := None;
    }

    /** The mount effect: only a non-blank identifier is looked up; a parcel
        found is set without touching the address, and a failed lookup
        clears the parcel. The error is never set. */
    method LoadPreviousDzialka(watchedIdentyfikator: Option<string>, services: ParcelServices)
      modifies this
      ensures !ShouldLoad(watchedIdentyfikator) ==>
                daneDzialki == old(daneDzialki) && daneAdresu == old(daneAdresu) && error == old(error)
      ensures ShouldLoad(watchedIdentyfikator) ==>
                var r := DzialkaById(watchedIdentyfikator.value, services.uldkById, services.centroid, services.toWgs84);
                && daneDzialki == (if r.Ok? then Some(r.value) else None)
                && daneAdresu == old(daneAdresu) && error == old(error)
    {
      if watchedIdentyfikator.Some? && !IsBlank(watchedIdentyfikator.value) {
        var data := FetchDzialkaData(watchedIdentyfikator.value, services.uldkById, services.centroid, services.toWgs84);
        if data.Ok? {
          daneDzialki := Some(data.value);
        } else {
          daneDzialki := None;
        }
      }
    }

    /** `handleAddressFound`: the address replaces any parcel, and the
        error is cleared. */
    method HandleAddressFound(result: AddressSearchResult)
      modifies this
      ensures daneDzialki.None? && daneAdresu == Some(result) && error.None?
      ensures Exclusive()
    {
      daneDzialki := None;
      daneAdresu := Some(result);
      error := None;
    }

    /** `handleDzialkaSet`: the parcel given (or none) is stored; a parcel
        clears the address, no parcel leaves it. The error is untouched. */
    method HandleDzialkaSet(dzialka: Option<DzialkaModel>)
      modifies this
      ensures daneDzialki == dzialka
      ensures daneAdresu == if dzialka.Some? then None else old(daneAdresu)
      ensures error == old(error)
      ensures old(Exclusive()) ==> Exclusive()
    {
      daneDzialki := dzialka;
      if dzialka.Some? {
        daneAdresu := None;
      }
    }

    /** `setError`, passed to the search box and the map, and the alert's
        close button (`setError(null)`). */
    method SetError(e: Option<string>)
      modifies this
      ensures error == e && daneDzialki == old(daneDzialki) && daneAdresu == old(daneAdresu)
    {
      error := e;
    }
  }

  /** A mount load that finishes after an address was found sets the parcel
      beside it: only the handlers keep the two exclusive. */
  method LateLoadKeepsAddress(services: ParcelServices, identyfikator: string, address: AddressSearchResult)
    returns (modal: MapModal)
    requires !IsBlank(identyfikator)
    requires DzialkaById(identyfikator, services.uldkById, services.centroid, services.toWgs84).Ok?
    ensures modal.daneAdresu == Some(address)
    ensures modal.daneDzialki == Some(DzialkaById(identyfikator, services.uldkById, services.centroid, services.toWgs84).value)
    ensures !modal.Exclusive()
  {
    modal := new MapModal();
    modal.HandleAddressFound(address);
    modal.LoadPreviousDzialka(Some(identyfikator), services);
  }
}
