/**
 * The screen revision of the candidate home: the parent component holds the
 * four filter lists and the two search fields that its two sections read
 * and change.
 */
module HomeCandidatoScreen {
  import opened Js
  import opened Filters

  /** The four filter sections, in display order. */
  datatype Category = Sector | Provincia | Localidad | Modalidad

  /** The section title the filter buttons report. */
  function Title(c: Category): string {
    match c
    case Sector => "Sector"
    case Provincia => "Provincia"
    case Localidad => "Localidad"
    case Modalidad => "Modalidad"
  }

  /** The key of `selectedFilters` for a category. */
  function Key(c: Category): string {
    match c
    case Sector => "sector"
    case Provincia => "provincia"
    case Localidad => "localidad"
    case Modalidad => "modalidad"
  }

  /** `category.toLowerCase()` turns each title into its key. */
  lemma KeyIsLoweredTitle(c: Category)
    ensures ToLower(Title(c)) == Key(c)
  {
    match c
    case Sector => ToLowerIs("Sector", "sector");
    case Provincia => ToLowerIs("Provincia", "provincia");
    case Localidad => ToLowerIs("Localidad", "localidad");
    case Modalidad => ToLowerIs("Modalidad", "modalidad");
  }

  /** `selectedFilters`. */
  datatype SelectedFilters = SelectedFilters(sector: seq<string>, provincia: seq<string>, localidad: seq<string>, modalidad: seq<string>)

  /** `searchFilters`. */
  datatype SearchFilters = SearchFilters(area: string, location: string)

  /** The two search fields, `"area" | "location"`. */
  datatype SearchField = Area | Location

  function Selected(f: SelectedFilters, c: Category): seq<string> {
    match c
    case Sector => f.sector
    case Provincia => f.provincia
    case Localidad => f.localidad
    case Modalidad => f.modalidad
  }

  function SearchValue(s: SearchFilters, field: SearchField): string {
    match field
    case Area => s.area
    case Location => s.location
  }

  /** The new `selectedFilters` after `handleFilterChange(title, value)`. */
  function ChangeFilter(f: SelectedFilters, c: Category, value: string): (r: SelectedFilters)
    ensures value in Selected(f, c) ==> value !in Selected(r, c) && Subsequence(Selected(r, c), Selected(f, c))
    ensures value !in Selected(f, c) ==> Selected(r, c) == Selected(f, c) + [value]
    ensures forall x :: x != value ==> (x in Selected(r, c) <==> x in Selected(f, c))
    ensures forall d :: d != c ==> Selected(r, d) == Selected(f, d)
  {
    var values := Toggle(Selected(f, c), value);
    match c
    case Sector => f.(sector := values)
    case Provincia => f.(provincia := values)
    case Localidad => f.(localidad := values)
    case Modalidad => f.(modalidad := values)
  }

  /** The new `searchFilters` after `handleSearchFilterChange(field, value)`. */
  function ChangeSearch(s: SearchFilters, field: SearchField, value: string): (r: SearchFilters)
    ensures SearchValue(r, field) == value
    ensures forall g :: g != field ==> SearchValue(r, g) == SearchValue(s, g)
  {
    match field
    case Area => s.(area := value)
    case Location => s.(location := value)
  }

  /** Every filter list is duplicate-free. */
  predicate NoDuplicates(f: SelectedFilters) {
    NoDup(f.sector) && NoDup(f.provincia) && NoDup(f.localidad) && NoDup(f.modalidad)
  }

  /** A filter change keeps every list duplicate-free. */
  lemma ChangeFilterKeepsNoDuplicates(f: SelectedFilters, c: Category, value: string)
    requires NoDuplicates(f)
    ensures NoDuplicates(ChangeFilter(f, c, value))
  {
    ToggleKeepsNoDup(Selected(f, c), value);
    var r := ChangeFilter(f, c, value);
    assert forall d :: NoDup(Selected(r, d));
  }

  /** The parent component's state. */
  class HomeCandidato {
    var selectedFilters: SelectedFilters
    var searchFilters: SearchFilters

    ghost predicate Valid()
      reads this
    {
      NoDuplicates(selectedFilters)
    }

    /** All four filter lists and both search fields start empty. */
    constructor ()
      ensures Valid()
      ensures selectedFilters == SelectedFilters([], [], [], [])
      ensures searchFilters == SearchFilters("", "")
    {
      selectedFilters := SelectedFilters([], [], [], []);
      searchFilters := SearchFilters("", "");
    }

    /** `handleFilterChange(title, value)`. */
    method HandleFilterChange(c: Category, value: string)
      requires Valid()
      modifies this
      ensures Valid()
      ensures selectedFilters == ChangeFilter(old(selectedFilters), c, value)
      ensures searchFilters == old(searchFilters)
    {
      ChangeFilterKeepsNoDuplicates(selectedFilters, c, value);
      selectedFilters := ChangeFilter(selectedFilters, c, value);
    }

    /** `handleSearchFilterChange(field, value)`. */
    method HandleSearchFilterChange(field: SearchField, value: string)
      requires Valid()
      modifies this
      ensures Valid()
      ensures searchFilters == ChangeSearch(old(searchFilters), field, value)
      ensures selectedFilters == old(selectedFilters)
    {
      searchFilters := ChangeSearch(searchFilters, field, value);
    }
  }
}
