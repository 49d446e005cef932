/** The calculator store (`kalkulator-store.ts`): the six surfaces and
    whether the calculator was submitted. */
module KalkulatorStore {
  import opened Models

  /** A snapshot of the store's data. */
  datatype KalkulatorState = KalkulatorState(form: KalkulatorModel, isKalkulatorSubmitted: bool)

  /** `initialKalkulatorState`: six zero surfaces, not submitted. */
  const InitialKalkulatorState: KalkulatorState :=
    KalkulatorState(KalkulatorModel(0.0, 0.0, 0.0, 0.0, 0.0, 0.0), false)

  /** The store. */
  class KalkulatorStore {
    var powDzialki: real
    var powDachow: real
    var powDachowPozaObrysem: real
    var powUszczelnione: real
    var powPrzepuszczalne: real
    var powTerenyInne: real
    var isKalkulatorSubmitted: bool

    /** The form part of the store. */
    function Form(): (form: KalkulatorModel)
      reads this
    {
      KalkulatorModel(powDzialki, powDachow, powDachowPozaObrysem, powUszczelnione, powPrzepuszczalne, powTerenyInne)
    }

    /** The whole store as a value. */
    function State(): (s: KalkulatorState)
      reads this
    {
      KalkulatorState(Form(), isKalkulatorSubmitted)
    }

    /** The store is created in its initial state. */
    constructor ()
      ensures State() == InitialKalkulatorState
    {
      powDzialki, powDachow, powDachowPozaObrysem := 0.0, 0.0, 0.0;
      powUszczelnione, powPrzepuszczalne, powTerenyInne := 0.0, 0.0, 0.0;
      isKalkulatorSubmitted := false;
    }

    /** `setForm`: the six surfaces are stored exactly as given; the flag is
        kept. */
    method SetForm(data: KalkulatorModel)
      modifies this
      ensures State() == old(State()).(form := data)
    {
      powDzialki := data.powDzialki;
      powDachow := data.powDachow;
      powDachowPozaObrysem := data.powDachowPozaObrysem;
      powUszczelnione := data.powUszczelnione;
      powPrzepuszczalne := data.powPrzepuszczalne;
      powTerenyInne := data.powTerenyInne;
    }

    /** `submitKalkulator`: the flag becomes true and stays true. */
    method SubmitKalkulator()
      modifies this
      ensures State() == old(State()).(isKalkulatorSubmitted := true)
    {
      isKalkulatorSubmitted := true;
    }

    /** `reset`: all seven fields return to the initial state. */
    method Reset()
      modifies this
      ensures State() == InitialKalkulatorState
    {
      powDzialki, powDachow, powDachowPozaObrysem := 0.0, 0.0, 0.0;
      powUszczelnione, powPrzepuszczalne, powTerenyInne := 0.0, 0.0, 0.0;
      isKalkulatorSubmitted := false;
    }
  }

  /** A snapshot read before a later `setForm` keeps the values it was read
      with: the store replaces its state, it does not change the snapshot. */
  method SnapshotThenSetForm(store: KalkulatorStore, data: KalkulatorModel)
    returns (before: KalkulatorState, after: KalkulatorState)
    modifies store
    ensures before == old(store.State()) && after == store.State()
    ensures after.form == data && after.isKalkulatorSubmitted == before.isKalkulatorSubmitted
  {
    before := store.State();
    store.SetForm(data);
    after := store.State();
  }
}
