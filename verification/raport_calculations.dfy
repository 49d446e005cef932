/** The report's retention figures (`useRaportCalculations.ts`): the
    required retention volume (BZI) is a share of the sealed surfaces that
    depends on the building type, the connection to the storm sewer and
    whether its catchment is overloaded; the detention volume is twice that.
    The catchment's name and overload flag are hook state, updated by an
    effect that looks the catchment up.

    Arithmetic is exact over `real`; the floating-point rounding of the
    products is not part of this model. */
module RaportCalculations {
  import opened Common
  import opened Models
  import opened ZlewniaFinder

  const DefaultNazwaZlewni: string := "Nie wybrano podłączenia do kanalizacji deszczowej"

  /** The surfaces that count: roofs, roofs outside the outline, sealed and
      permeable surfaces. The parcel area and "other" areas do not. */
  function SumaPowierzchni(k: KalkulatorModel): real
  {
    k.powDachow + k.powDachowPozaObrysem + k.powUszczelnione + k.powPrzepuszczalne
  }

  /** The share of the surface sum to retain. */
  function BziRate(typZabudowy: string, isPodlaczony: string, isPrzeciazona: bool): (rate: real)
    ensures typZabudowy == "jednorodzinna" ==> rate == 0.06
    ensures isPodlaczony == "nie" ==> rate == 0.06
    ensures typZabudowy != "jednorodzinna" && isPodlaczony != "nie" ==>
              rate == if isPrzeciazona then 0.04 else 0.03
  {
    if typZabudowy == "jednorodzinna" then 0.06
    else if isPodlaczony == "nie" then 0.06
    else if isPrzeciazona then 0.04 else 0.03
  }

  /** `calculateObjBZI`: the surface sum times 6 %, 4 % or 3 %. */
  function CalculateObjBZI(daneRaport: RaportModel, isPrzeciazona: bool): real
  {
    var sumaPowierzchni := SumaPowierzchni(daneRaport.daneKalkulator);
    if daneRaport.inwestycja.typZabudowy == "jednorodzinna" then sumaPowierzchni * 0.06
    else if daneRaport.inwestycja.isPodlaczony == "nie" then sumaPowierzchni * 0.06
    else if isPrzeciazona then sumaPowierzchni * 0.04 else sumaPowierzchni * 0.03
  }

  /** The detention volume, twice the retention volume. */
  function ObjDetencyjnych(objBZI: real): real
  {
    objBZI * 2.0
  }

  /** The three figures the hook returns. */
  datatype Calculations = Calculations(objBZI: real, objDetencyjnych: real, nazwaZlewni: string)

  /** Whether the catchment has to be looked up: only for a multi-family
      building that is connected to the storm sewer. */
  predicate LookupNeeded(inwestycja: InwestycjaModel)
  {
    inwestycja.typZabudowy != "jednorodzinna" && inwestycja.isPodlaczony != "nie"
  }

  /** The volumes follow the rule in every branch, and the detention volume
      is always twice the retention volume. */
  lemma VolumesFollowRule(daneRaport: RaportModel, isPrzeciazona: bool)
    ensures var s := SumaPowierzchni(daneRaport.daneKalkulator);
            var bzi := CalculateObjBZI(daneRaport, isPrzeciazona);
            && (!LookupNeeded(daneRaport.inwestycja) ==> bzi == s * 0.06)
            && (LookupNeeded(daneRaport.inwestycja) && isPrzeciazona ==> bzi == s * 0.04)
            && (LookupNeeded(daneRaport.inwestycja) && !isPrzeciazona ==> bzi == s * 0.03)
            && ObjDetencyjnych(bzi) == 2.0 * bzi
  {
  }

  /** The parcel area and the "other" areas never change the figures. */
  lemma UncountedAreasIrrelevant(daneRaport: RaportModel, isPrzeciazona: bool, powDzialki: real, powTerenyInne: real)
    ensures var k := daneRaport.daneKalkulator.(powDzialki := powDzialki, powTerenyInne := powTerenyInne);
            CalculateObjBZI(daneRaport.(daneKalkulator := k), isPrzeciazona) == CalculateObjBZI(daneRaport, isPrzeciazona)
  {
  }

  /** With no counted surface nothing has to be retained or detained. */
  lemma NoSurfaceNoVolume(daneRaport: RaportModel, isPrzeciazona: bool)
    requires SumaPowierzchni(daneRaport.daneKalkulator) == 0.0
    ensures CalculateObjBZI(daneRaport, isPrzeciazona) == 0.0
    ensures ObjDetencyjnych(CalculateObjBZI(daneRaport, isPrzeciazona)) == 0.0
  {
  }

  /** For a single-family building the overload flag never matters. */
  lemma SingleFamilyIgnoresOverload(daneRaport: RaportModel)
    requires daneRaport.inwestycja.typZabudowy == "jednorodzinna"
    ensures CalculateObjBZI(daneRaport, true) == CalculateObjBZI(daneRaport, false)
  {
  }

  /** A connected multi-family building on 800 m² of counted surface in an
      overloaded catchment needs 32 m³ of retention and 64 m³ of detention. */
  lemma OverloadedExample(daneRaport: RaportModel)
    requires daneRaport.inwestycja.typZabudowy == "wielorodzinna" && daneRaport.inwestycja.isPodlaczony == "tak"
    requires SumaPowierzchni(daneRaport.daneKalkulator) == 800.0
    ensures CalculateObjBZI(daneRaport, true) == 32.0
    ensures ObjDetencyjnych(CalculateObjBZI(daneRaport, true)) == 64.0
  {
  }

  /** The hook's state: the catchment's overload flag and its name. */
  class RaportState {
    var isPrzeciazona: bool
    var nazwaZlewni: string

    /** The state starts not overloaded, under the "no connection" name. */
    constructor ()
      ensures !isPrzeciazona && nazwaZlewni == DefaultNazwaZlewni
    {
      isPrzeciazona := false;
      nazwaZlewni := DefaultNazwaZlewni;
    }

    /** What the hook returns for the current state. */
    function Calculate(daneRaport: RaportModel): (c: Calculations)
      reads this
      ensures c.objDetencyjnych == 2.0 * c.objBZI
      ensures c.objBZI == SumaPowierzchni(daneRaport.daneKalkulator) *
                BziRate(daneRaport.inwestycja.typZabudowy, daneRaport.inwestycja.isPodlaczony, isPrzeciazona)
      ensures c.nazwaZlewni == nazwaZlewni
    {
      var bzi := CalculateObjBZI(daneRaport, isPrzeciazona);
      Calculations(bzi, ObjDetencyjnych(bzi), nazwaZlewni)
    }

    /** The effect `findDaneZlewni`. Without a lookup the state returns to
        its start; with one, the parcel's centre is searched for and a
        catchment found sets name and flag, while finding none leaves both
        as they were. A report with no parcel makes the effect throw before
        it changes anything. */
    method FindDaneZlewni(daneRaport: RaportModel, dataset: Option<seq<Feature>>,
                          toGrid: Pair -> Option<Pair>, contains: (Pair, Feature) -> Option<bool>)
      modifies this
      ensures !LookupNeeded(daneRaport.inwestycja) ==>
                !isPrzeciazona && nazwaZlewni == DefaultNazwaZlewni
      ensures LookupNeeded(daneRaport.inwestycja) && daneRaport.daneDzialki.None? ==>
                isPrzeciazona == old(isPrzeciazona) && nazwaZlewni == old(nazwaZlewni)
      ensures LookupNeeded(daneRaport.inwestycja) && daneRaport.daneDzialki.Some? ==>
                var center := daneRaport.daneDzialki.value.centerCoordinates;
                var outcome := if dataset.None? || toGrid((center.lng, center.lat)).None? then NotFound
                               else Search(dataset.value, toGrid((center.lng, center.lat)).value, contains);
                if outcome.Found?
                then isPrzeciazona == outcome.zlewnia.isPrzeciazona && nazwaZlewni == outcome.zlewnia.nazwaZlewni
                else isPrzeciazona == old(isPrzeciazona) && nazwaZlewni == old(nazwaZlewni)
    {
      if daneRaport.inwestycja.typZabudowy == "jednorodzinna" || daneRaport.inwestycja.isPodlaczony == "nie" {
        isPrzeciazona := false;
        nazwaZlewni := DefaultNazwaZlewni;
        return;
      }
      if daneRaport.daneDzialki.None? {
        return;
      }
      var center := daneRaport.daneDzialki.value.centerCoordinates;
      var zlewnia := FindZlewnia(center.lat, center.lng, dataset, toGrid, contains);
      if zlewnia.Some? {
        nazwaZlewni := zlewnia.value.nazwaZlewni;
        if zlewnia.value.isPrzeciazona {
          isPrzeciazona := true;
        } else {
          isPrzeciazona := false;
        }
      }
    }
  }

  /** After the effect has run, a report that needs no lookup shows the
      6 % rule and the "no connection" name, whatever the state was. */
  method NoLookupReport(state: RaportState, daneRaport: RaportModel, dataset: Option<seq<Feature>>,
                        toGrid: Pair -> Option<Pair>, contains: (Pair, Feature) -> Option<bool>)
    returns (c: Calculations)
    requires !LookupNeeded(daneRaport.inwestycja)
    modifies state
    ensures c.objBZI == SumaPowierzchni(daneRaport.daneKalkulator) * 0.06
    ensures c.objDetencyjnych == SumaPowierzchni(daneRaport.daneKalkulator) * 0.12
    ensures c.nazwaZlewni == DefaultNazwaZlewni
  {
    state.FindDaneZlewni(daneRaport, dataset, toGrid, contains);
    c := state.Calculate(daneRaport);
  }
}
