/** The application-wide helpers over the two stores (`app-store.ts`):
    resetting both, and assembling the report's input from their current
    values. */
module AppStore {
  import opened Common
  import opened Models
  import opened InwestycjaStore
  import opened KalkulatorStore
  import opened RaportCalculations

  /** `resetAllStores`: the calculator, then the investment store, back to
      their initial states. */
  method ResetAllStores(kalkulator: KalkulatorStore, inwestycja: InwestycjaStore)
    modifies kalkulator, inwestycja
    ensures kalkulator.State() == InitialKalkulatorState
    ensures inwestycja.State() == InitialInwestycjaState
  {
    kalkulator.Reset();
    inwestycja.Reset();
  }

  /** The report's input made from two store snapshots. */
  function DaneRaport(i: InwestycjaState, k: KalkulatorState): RaportModel
  {
    RaportModel(i.form, i.daneDzialki, i.mapScreenshot, k.form)
  }

  /** `useDaneRaport`: the report's input from the stores' current values. */
  function UseDaneRaport(inwestycja: InwestycjaStore, kalkulator: KalkulatorStore): (r: RaportModel)
    reads inwestycja, kalkulator
    ensures r.inwestycja == inwestycja.Form() && r.daneKalkulator == kalkulator.Form()
    ensures r.daneDzialki == inwestycja.daneDzialki && r.mapScreenshot == inwestycja.mapScreenshot
  {
    DaneRaport(inwestycja.State(), kalkulator.State())
  }

  /** The report keeps everything the stores hold except the two submitted
      flags: with those, both snapshots are rebuilt from it. */
  lemma ReportKeepsStores(i: InwestycjaState, k: KalkulatorState)
    ensures var r := DaneRaport(i, k);
            && InwestycjaState(r.inwestycja, r.daneDzialki, r.mapScreenshot, i.isInwestycjaSubmitted) == i
            && KalkulatorState(r.daneKalkulator, k.isKalkulatorSubmitted) == k
  {
  }

  /** Two store snapshots give the same report exactly when they agree on
      everything but the submitted flags. */
  lemma ReportDeterminedByData(i1: InwestycjaState, k1: KalkulatorState, i2: InwestycjaState, k2: KalkulatorState)
    ensures DaneRaport(i1, k1) == DaneRaport(i2, k2) <==>
              i1.(isInwestycjaSubmitted := false) == i2.(isInwestycjaSubmitted := false) &&
              k1.form == k2.form
  {
    if DaneRaport(i1, k1) == DaneRaport(i2, k2) {
      ReportKeepsStores(i1, k1);
      ReportKeepsStores(i2, k2);
    }
  }

  /** The report of two stores in their initial states is that of a
      single-family investment with no parcel and no screenshot, which
      needs no catchment lookup. */
  lemma InitialReportNeedsNoLookup(i: InwestycjaState, k: KalkulatorState)
    requires i == InitialInwestycjaState && k == InitialKalkulatorState
    ensures DaneRaport(i, k).inwestycja.typZabudowy == "jednorodzinna"
    ensures !LookupNeeded(DaneRaport(i, k).inwestycja)
    ensures DaneRaport(i, k).daneDzialki.None? && DaneRaport(i, k).mapScreenshot.None?
  {
  }

  /** With the calculator in its initial state every surface is zero, so
      both volumes are 0, whatever the investment and the catchment. */
  lemma InitialVolumesZero(i: InwestycjaState, k: KalkulatorState, isPrzeciazona: bool)
    requires k == InitialKalkulatorState
    ensures CalculateObjBZI(DaneRaport(i, k), isPrzeciazona) == 0.0
    ensures ObjDetencyjnych(CalculateObjBZI(DaneRaport(i, k), isPrzeciazona)) == 0.0
  {
    var r := DaneRaport(i, k);
    assert SumaPowierzchni(r.daneKalkulator) == 0.0;
    NoSurfaceNoVolume(r, isPrzeciazona);
  }

  /** After `resetAllStores` the report is the initial one. */
  method ResetThenReport(kalkulator: KalkulatorStore, inwestycja: InwestycjaStore)
    returns (r: RaportModel)
    modifies kalkulator, inwestycja
    ensures r == UseDaneRaport(inwestycja, kalkulator)
    ensures r == DaneRaport(InitialInwestycjaState, InitialKalkulatorState)
  {
    ResetAllStores(kalkulator, inwestycja);
    r := UseDaneRaport(inwestycja, kalkulator);
  }
}
