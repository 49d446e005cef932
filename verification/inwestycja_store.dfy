/** The investment store (`inwestycja-store.ts`): the investment form's five
    fields, the chosen parcel, the map screenshot and whether the form was
    submitted. Every action replaces some fields and keeps the others. */
module InwestycjaStore {
  import opened Common
  import opened Models

  /** A snapshot of the store's data. */
  datatype InwestycjaState = InwestycjaState(
    form: InwestycjaModel,
    daneDzialki: Option<DzialkaModel>,
    mapScreenshot: Option<string>,
    isInwestycjaSubmitted: bool)

  /** `initialInwestycjaState`. */
  const InitialInwestycjaState: InwestycjaState :=
    InwestycjaState(InwestycjaModel("", "", "jednorodzinna", "nie", "nie"), None, None, false)

  /** The store. */
  class InwestycjaStore {
    var nazwaInwestycji: string
    var identyfikatorInwestycji: string
    var typZabudowy: string
    var isPodlaczony: string
    var isIstniejacePolaczenie: string
    var daneDzialki: Option<DzialkaModel>
    var mapScreenshot: Option<string>
    var isInwestycjaSubmitted: bool

    /** The form part of the store. */
    function Form(): (form: InwestycjaModel)
      reads this
    {
      InwestycjaModel(nazwaInwestycji, identyfikatorInwestycji, typZabudowy, isPodlaczony, isIstniejacePolaczenie)
    }

    /** The whole store as a value. */
    function State(): (s: InwestycjaState)
      reads this
    {
      InwestycjaState(Form(), daneDzialki, mapScreenshot, isInwestycjaSubmitted)
    }

    /** The store is created in its initial state. */
    constructor ()
      ensures State() == InitialInwestycjaState
    {
      nazwaInwestycji := "";
      identyfikatorInwestycji := "";
      typZabudowy := "jednorodzinna";
      isPodlaczony := "nie";
      isIstniejacePolaczenie := "nie";
      daneDzialki := None;
      mapScreenshot := None;
      isInwestycjaSubmitted := false;
    }

    /** `setForm`: the five form fields are overwritten; parcel, screenshot
        and flag are kept. */
    method SetForm(data: InwestycjaModel)
      modifies this
      ensures State() == old(State()).(form := data)
    {
      nazwaInwestycji := data.nazwaInwestycji;
      identyfikatorInwestycji := data.identyfikatorInwestycji;
      typZabudowy := data.typZabudowy;
      isPodlaczony := data.isPodlaczony;
      isIstniejacePolaczenie := data.isIstniejacePolaczenie;
    }

    /** `setDaneDzialki`: sets or clears the parcel only. */
    method SetDaneDzialki(data: Option<DzialkaModel>)
      modifies this
      ensures State() == old(State()).(daneDzialki := data)
    {
      daneDzialki := data;
    }

    /** `setMapScreenshot`: sets or clears the screenshot only. */
    method SetMapScreenshot(screenshot: Option<string>)
      modifies this
      ensures State() == old(State()).(mapScreenshot := screenshot)
    {
      mapScreenshot := screenshot;
    }

    /** `submitInwestycja`: the flag becomes true, whatever it was, so a
        second call changes nothing. */
    method SubmitInwestycja()
      modifies this
      ensures State() == old(State()).(isInwestycjaSubmitted := true)
    {
      isInwestycjaSubmitted := true;
    }

    /** `reset`: every field returns to the initial state, from any state,
        so a second call changes nothing. */
    method Reset()
      modifies this
      ensures State() == InitialInwestycjaState
    {
      nazwaInwestycji := "";
      identyfikatorInwestycji := "";
      typZabudowy := "jednorodzinna";
      isPodlaczony := "nie";
      isIstniejacePolaczenie := "nie";
      daneDzialki := None;
      mapScreenshot := None;
      isInwestycjaSubmitted := false;
    }
  }
}
