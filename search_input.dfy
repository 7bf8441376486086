/**
 * The recruiter's search box: a fixed list of areas, narrowed by what was
 * typed, navigated with the arrow keys.
 */
module SearchInput {
  import opened Js
  import opened Filters
  import opened Suggestions
  import opened Wrappers

  const AREAS: seq<string> := ["Historial de publicaciones", "Crear oferta", "Candidatos", "Mi perfil", "Estadísticas"]

  /** The keys `handleKeyDown` distinguishes; any other key is `Other`. */
  datatype Key = ArrowDown | ArrowUp | Enter | Escape | Other

  /** `filteredAreas`: nothing for an empty search term, otherwise the areas containing it, ignoring case. */
  function FilteredAreas(areas: seq<string>, searchTerm: string): (r: seq<string>)
    ensures searchTerm == "" ==> r == []
    ensures searchTerm != "" ==> Subsequence(r, areas)
    ensures forall x :: x in r <==> searchTerm != "" && x in areas && IncludesIgnoringCase(x, searchTerm)
  {
    if searchTerm == "" then [] else Matching(areas, searchTerm)
  }

  /** The index after ArrowDown: one further, but not past the last area. */
  function Down(index: int, count: nat): (r: int)
    ensures index < count - 1 ==> r == index + 1
    ensures index >= count - 1 ==> r == index
  {
    if index < count - 1 then index + 1 else index
  }

  /** The index after ArrowUp: one back, or -1 from the first area (and from -1). */
  function Up(index: int): (r: int)
    ensures index > 0 ==> r == index - 1
    ensures index <= 0 ==> r == -1
  {
    if index > 0 then index - 1 else -1
  }

  /** From any index in range, both arrows stay in range. */
  lemma ArrowsStayInRange(index: int, count: nat)
    requires -1 <= index < count
    ensures -1 <= Down(index, count) < count
    ensures -1 <= Up(index) < count
  {
  }

  /** The index after `n` presses of ArrowDown. */
  function DownTimes(index: int, count: nat, n: nat): int {
    if n == 0 then index else Down(DownTimes(index, count, n - 1), count)
  }

  /** Pressing ArrowDown `n` times from -1 highlights entry `min(n, count) - 1`: it stops at the last area. */
  lemma {:induction false} DownTimesStopsAtLast(count: nat, n: nat)
    ensures DownTimes(-1, count, n) == (if n <= count then n else count) - 1
  {
    if n > 0 {
      DownTimesStopsAtLast(count, n - 1);
    }
  }

  /** The component's state. */
  class SearchBox {
    /** The areas offered, `AREAS` in the component. */
    const areas: seq<string>
    var searchTerm: string
    var showSuggestions: bool
    var selectedIndex: int

    /** The highlighted entry, if any, is one of the listed areas. */
    ghost predicate Valid()
      reads this
    {
      -1 <= selectedIndex < |FilteredAreas(areas, searchTerm)|
    }

    constructor ()
      ensures Valid() && areas == AREAS
      ensures searchTerm == "" && !showSuggestions && selectedIndex == -1
    {
      areas := AREAS;
      searchTerm := "";
      showSuggestions := false;
      selectedIndex := -1;
    }

    /** `handleSelectArea(area)`. */
    method SelectArea(area: string)
      modifies this
      ensures Valid()
      ensures searchTerm == area && !showSuggestions && selectedIndex == -1
    {
      searchTerm := area;
      showSuggestions := false;
      selectedIndex := -1;
    }

    /** `handleKeyDown(key)`; `selected` is the area Enter chose, if any. */
    method HandleKeyDown(key: Key) returns (selected: Option<string>)
      requires Valid()
      modifies this
      ensures Valid()
      ensures !old(showSuggestions) || |FilteredAreas(areas, old(searchTerm))| == 0 ==>
                searchTerm == old(searchTerm) && showSuggestions == old(showSuggestions)
                && selectedIndex == old(selectedIndex) && selected.None?
      ensures old(showSuggestions) && |FilteredAreas(areas, old(searchTerm))| > 0 ==>
                match key
                case ArrowDown =>
                  searchTerm == old(searchTerm) && showSuggestions && selected.None?
                  && selectedIndex == Down(old(selectedIndex), |FilteredAreas(areas, old(searchTerm))|)
                case ArrowUp =>
                  searchTerm == old(searchTerm) && showSuggestions && selected.None?
                  && selectedIndex == Up(old(selectedIndex))
                case Enter =>
                  if old(selectedIndex) >= 0 then
                    selected == Some(FilteredAreas(areas, old(searchTerm))[old(selectedIndex)])
                    && searchTerm == selected.value && !showSuggestions && selectedIndex == -1
                  else
                    searchTerm == old(searchTerm) && showSuggestions && selectedIndex == -1 && selected.None?
                case Escape =>
                  searchTerm == old(searchTerm) && !showSuggestions && selectedIndex == -1 && selected.None?
                case Other =>
                  searchTerm == old(searchTerm) && showSuggestions && selectedIndex == old(selectedIndex) && selected.None?
    {
      selected := None;
      var areas := FilteredAreas(areas, searchTerm);
      if !showSuggestions || |areas| == 0 {
        return;
      }
      match key {
      case ArrowDown =>
        selectedIndex := Down(selectedIndex, |areas|);
      case ArrowUp =>
        selectedIndex := Up(selectedIndex);
      case Enter =>
        if selectedIndex >= 0 {
          selected := Some(areas[selectedIndex]);
          SelectArea(areas[selectedIndex]);
        }
      case Escape =>
        showSuggestions := false;
        selectedIndex := -1;
      case Other =>
      }
    }

    /** `handleInputChange`: typing shows the list afresh, nothing highlighted. */
    method HandleInputChange(value: string)
      modifies this
      ensures Valid()
      ensures searchTerm == value && showSuggestions && selectedIndex == -1
    {
      searchTerm := value;
      showSuggestions := true;
      selectedIndex := -1;
    }

    /** Focusing the input shows the list. */
    method Focus()
      requires Valid()
      modifies this
      ensures Valid()
      ensures showSuggestions && searchTerm == old(searchTerm) && selectedIndex == old(selectedIndex)
    {
      showSuggestions := true;
    }

    /** A click outside both the input and the list hides the list. */
    method ClickOutside()
      requires Valid()
      modifies this
      ensures Valid()
      ensures !showSuggestions && searchTerm == old(searchTerm) && selectedIndex == old(selectedIndex)
    {
      showSuggestions := false;
    }
  }
}
