/**
 * The search bar of the screen revision of the candidate home: two inputs
 * with fixed suggestion lists; choosing or clearing reports the new value to
 * the parent.
 */
module JobOffersSection {
  import opened Js
  import opened Filters
  import opened Suggestions
  import opened HomeCandidatoScreen

  const AREA_SUGGESTIONS: seq<string> := [
    "Industria y producción", "Comercial y ventas", "Tecnología", "Salud",
    "Educación", "Finanzas", "Marketing", "Recursos Humanos"
  ]

  const LOCATION_SUGGESTIONS: seq<string> := [
    "La Matanza, Prov. de Buenos Aires", "Lanús, Prov. de Buenos Aires",
    "Palermo, CABA", "Buenos Aires - GBA", "Ciudad autónoma de Buenos Aires",
    "Córdoba", "Rosario, Santa Fe", "Mendoza", "Remoto"
  ]

  /** A call of `onSearchChange(field, value)`. */
  datatype SearchChange = SearchChange(field: SearchField, value: string)

  /** With nothing typed every suggestion is offered. */
  lemma EmptyInputOffersAll()
    ensures Matching(AREA_SUGGESTIONS, "") == AREA_SUGGESTIONS
    ensures Matching(LOCATION_SUGGESTIONS, "") == LOCATION_SUGGESTIONS
  {
    MatchingEmptyInput(AREA_SUGGESTIONS);
    MatchingEmptyInput(LOCATION_SUGGESTIONS);
  }

  /** The section's own state. */
  class JobOffers {
    var areaInput: string
    var locationInput: string
    var showAreaSuggestions: bool
    var showLocationSuggestions: bool

    constructor ()
      ensures areaInput == "" && locationInput == ""
      ensures !showAreaSuggestions && !showLocationSuggestions
    {
      areaInput := "";
      locationInput := "";
      showAreaSuggestions := false;
      showLocationSuggestions := false;
    }

    /** `filteredAreaSuggestions`. */
    function FilteredAreaSuggestions(): (r: seq<string>)
      reads this
      ensures Subsequence(r, AREA_SUGGESTIONS)
      ensures forall x :: x in r <==> x in AREA_SUGGESTIONS && IncludesIgnoringCase(x, areaInput)
    {
      Matching(AREA_SUGGESTIONS, areaInput)
    }

    /** `filteredLocationSuggestions`. */
    function FilteredLocationSuggestions(): (r: seq<string>)
      reads this
      ensures Subsequence(r, LOCATION_SUGGESTIONS)
      ensures forall x :: x in r <==> x in LOCATION_SUGGESTIONS && IncludesIgnoringCase(x, locationInput)
    {
      Matching(LOCATION_SUGGESTIONS, locationInput)
    }

    /** `handleAreaSelect(value)`: the chosen value is both shown and reported. */
    method HandleAreaSelect(value: string) returns (report: SearchChange)
      modifies this
      ensures areaInput == value && !showAreaSuggestions && report == SearchChange(Area, areaInput)
      ensures locationInput == old(locationInput) && showLocationSuggestions == old(showLocationSuggestions)
    {
      areaInput := value;
      report := SearchChange(Area, value);
      showAreaSuggestions := false;
    }

    /** `handleLocationSelect(value)`. */
    method HandleLocationSelect(value: string) returns (report: SearchChange)
      modifies this
      ensures locationInput == value && !showLocationSuggestions && report == SearchChange(Location, locationInput)
      ensures areaInput == old(areaInput) && showAreaSuggestions == old(showAreaSuggestions)
    {
      locationInput := value;
      report := SearchChange(Location, value);
      showLocationSuggestions := false;
    }

    /** `handleAreaClear()`. */
    method HandleAreaClear() returns (report: SearchChange)
      modifies this
      ensures areaInput == "" && report == SearchChange(Area, "")
      ensures showAreaSuggestions == old(showAreaSuggestions)
      ensures locationInput == old(locationInput) && showLocationSuggestions == old(showLocationSuggestions)
    {
      areaInput := "";
      report := SearchChange(Area, "");
    }

    /** `handleLocationClear()`. */
    method HandleLocationClear() returns (report: SearchChange)
      modifies this
      ensures locationInput == "" && report == SearchChange(Location, "")
      ensures showLocationSuggestions == old(showLocationSuggestions)
      ensures areaInput == old(areaInput) && showAreaSuggestions == old(showAreaSuggestions)
    {
      locationInput := "";
      report := SearchChange(Location, "");
    }

    /** Typing in the area input: shown, not reported. */
    method TypeArea(value: string)
      modifies this
      ensures areaInput == value && showAreaSuggestions
      ensures locationInput == old(locationInput) && showLocationSuggestions == old(showLocationSuggestions)
    {
      areaInput := value;
      showAreaSuggestions := true;
    }

    /** Typing in the location input: shown, not reported. */
    method TypeLocation(value: string)
      modifies this
      ensures locationInput == value && showLocationSuggestions
      ensures areaInput == old(areaInput) && showAreaSuggestions == old(showAreaSuggestions)
    {
      locationInput := value;
      showLocationSuggestions := true;
    }
  }
}
