/**
 * The candidate home page: job list loaded once, three filter sections with
 * toggled selections, two free-text searches with suggestions, and
 * pagination in pages of eight.
 */
module HomeCandidatoPage {
  import opened Wrappers
  import opened Js
  import opened Filters
  import opened Suggestions
  import opened ApiTypes

  const ITEMS_PER_PAGE: nat := 8
  /** A collapsed filter section shows this many options. */
  const COLLAPSED_OPTIONS: nat := 3
  const LOAD_ERROR: string := "Error al cargar los empleos"

  /** The three filter sections, in display order. */
  datatype Section = Empresa | Puesto | Ubicacion

  /** The section's title, as shown and as kept in `expandedSections`. */
  function Title(s: Section): string {
    match s
    case Empresa => "Empresa"
    case Puesto => "Puesto"
    case Ubicacion => "Ubicación"
  }

  /** The key of `selectedFilters` for a section. */
  function Key(s: Section): string {
    match s
    case Empresa => "empresa"
    case Puesto => "puesto"
    case Ubicacion => "ubicación"
  }

  /** `category.toLowerCase()` turns each title into its key. */
  lemma KeyIsLoweredTitle(s: Section)
    ensures ToLower(Title(s)) == Key(s)
  {
    match s
    case Empresa => ToLowerIs("Empresa", "empresa");
    case Puesto => ToLowerIs("Puesto", "puesto");
    case Ubicacion => ToLowerIs("Ubicación", "ubicación");
  }

  /** `selectedFilters`. */
  datatype SelectedFilters = SelectedFilters(empresa: seq<string>, puesto: seq<string>, ubicacion: seq<string>)

  const NO_FILTERS: SelectedFilters := SelectedFilters([], [], [])

  function Selected(f: SelectedFilters, s: Section): seq<string> {
    match s
    case Empresa => f.empresa
    case Puesto => f.puesto
    case Ubicacion => f.ubicacion
  }

  /** The new `selectedFilters` after `handleFilterChange(title, value)`. */
  function ChangeFilter(f: SelectedFilters, s: Section, value: string): (r: SelectedFilters)
    ensures Selected(r, s) == Toggle(Selected(f, s), value)
    ensures forall t :: t != s ==> Selected(r, t) == Selected(f, t)
  {
    var values := Toggle(Selected(f, s), value);
    match s
    case Empresa => f.(empresa := values)
    case Puesto => f.(puesto := values)
    case Ubicacion => f.(ubicacion := values)
  }

  /** Choosing the same value twice in a section restores that section when the value was not selected. */
  lemma ChangeFilterTwice(f: SelectedFilters, s: Section, value: string)
    requires value !in Selected(f, s)
    ensures ChangeFilter(ChangeFilter(f, s, value), s, value) == f
  {
    ToggleTwiceAbsent(Selected(f, s), value);
    var g := ChangeFilter(ChangeFilter(f, s, value), s, value);
    assert forall t :: Selected(g, t) == Selected(f, t);
  }

  /** `isFilterActive(title, option)`. */
  predicate IsFilterActive(f: SelectedFilters, s: Section, option: string) {
    option in Selected(f, s)
  }

  /** `hasActiveFilters`: some section has a selection. */
  predicate HasActiveFilters(f: SelectedFilters) {
    |f.empresa| > 0 || |f.puesto| > 0 || |f.ubicacion| > 0
  }

  /** The predicate of `filteredJobs`. */
  predicate JobMatches(job: Job, f: SelectedFilters, areaInput: string, locationInput: string) {
    && Admits(f.empresa, job.company_name)
    && Admits(f.puesto, job.job_title)
    && Admits(f.ubicacion, job.location)
    && (areaInput == "" || IncludesIgnoringCase(job.job_title, areaInput)
        || IncludesIgnoringCase(job.job_description, areaInput))
    && (locationInput == "" || IncludesIgnoringCase(job.location, locationInput))
  }

  /** `filteredJobs`: the matching jobs, in their order. */
  function FilteredJobs(jobs: seq<Job>, f: SelectedFilters, areaInput: string, locationInput: string): (r: seq<Job>)
    ensures Subsequence(r, jobs)
    ensures forall j :: j in r <==> j in jobs && JobMatches(j, f, areaInput, locationInput)
    ensures forall j :: multiset(r)[j] == if JobMatches(j, f, areaInput, locationInput) then multiset(jobs)[j] else 0
  {
    FilterMultiset(jobs, (j: Job) => JobMatches(j, f, areaInput, locationInput));
    Filter(jobs, (j: Job) => JobMatches(j, f, areaInput, locationInput))
  }

  /** With nothing selected and nothing typed every job is shown. */
  lemma NothingSelectedShowsAll(jobs: seq<Job>)
    ensures FilteredJobs(jobs, NO_FILTERS, "", "") == jobs
  {
  }

  /** Lower-casing the typed text does not change whether a job matches. */
  lemma MatchIgnoresCase(job: Job, f: SelectedFilters, areaInput: string, locationInput: string)
    ensures JobMatches(job, f, ToLower(areaInput), ToLower(locationInput)) == JobMatches(job, f, areaInput, locationInput)
  {
    ToLowerIdempotent(areaInput);
    ToLowerIdempotent(locationInput);
  }

  /** The search ignores case: typing the lower-cased text finds the same jobs. */
  lemma SearchIgnoresCase(jobs: seq<Job>, f: SelectedFilters, areaInput: string, locationInput: string)
    ensures FilteredJobs(jobs, f, ToLower(areaInput), ToLower(locationInput)) == FilteredJobs(jobs, f, areaInput, locationInput)
  {
    var p := (j: Job) => JobMatches(j, f, ToLower(areaInput), ToLower(locationInput));
    var q := (j: Job) => JobMatches(j, f, areaInput, locationInput);
    forall j | j in jobs
      ensures p(j) == q(j)
    {
      MatchIgnoresCase(j, f, areaInput, locationInput);
    }
    FilterCongruent(jobs, p, q);
  }

  /** `jobs.map(f)`. */
  function Column(jobs: seq<Job>, f: Job -> string): (r: seq<string>)
    ensures |r| == |jobs| && forall i :: 0 <= i < |jobs| ==> r[i] == f(jobs[i])
  {
    seq(|jobs|, i requires 0 <= i < |jobs| => f(jobs[i]))
  }

  /** The values of a column are exactly the values some job has. */
  lemma ColumnMembers(jobs: seq<Job>, f: Job -> string)
    ensures forall x :: x in Column(jobs, f) <==> exists j :: j in jobs && f(j) == x
  {
    var c := Column(jobs, f);
    forall x | exists j :: j in jobs && f(j) == x
      ensures x in c
    {
      var j :| j in jobs && f(j) == x;
      var i :| 0 <= i < |jobs| && jobs[i] == j;
      assert c[i] == x;
    }
  }

  /** `areaSuggestions` and `jobTitleSuggestions`, which are the same expression. */
  function TitleSuggestions(jobs: seq<Job>): (r: seq<string>)
    ensures Sorted(r) && NoDup(r)
    ensures forall x :: x in r <==> exists j :: j in jobs && j.job_title == x
  {
    ColumnMembers(jobs, (j: Job) => j.job_title);
    UniqueSorted(Column(jobs, (j: Job) => j.job_title))
  }

  /** `locationSuggestions`. */
  function LocationSuggestions(jobs: seq<Job>): (r: seq<string>)
    ensures Sorted(r) && NoDup(r)
    ensures forall x :: x in r <==> exists j :: j in jobs && j.location == x
  {
    ColumnMembers(jobs, (j: Job) => j.location);
    UniqueSorted(Column(jobs, (j: Job) => j.location))
  }

  /** `companySuggestions`. */
  function CompanySuggestions(jobs: seq<Job>): (r: seq<string>)
    ensures Sorted(r) && NoDup(r)
    ensures forall x :: x in r <==> exists j :: j in jobs && j.company_name == x
  {
    ColumnMembers(jobs, (j: Job) => j.company_name);
    UniqueSorted(Column(jobs, (j: Job) => j.company_name))
  }

  /** The options of a section. */
  function Options(jobs: seq<Job>, s: Section): seq<string> {
    match s
    case Empresa => CompanySuggestions(jobs)
    case Puesto => TitleSuggestions(jobs)
    case Ubicacion => LocationSuggestions(jobs)
  }

  /** `Math.ceil(n / ITEMS_PER_PAGE)`. */
  function TotalPages(n: nat): (r: nat)
    ensures r * ITEMS_PER_PAGE >= n
    ensures r > 0 ==> (r - 1) * ITEMS_PER_PAGE < n
  {
    (n + ITEMS_PER_PAGE - 1) / ITEMS_PER_PAGE
  }

  /** `filteredJobs.slice(startIndex, endIndex)` for `currentPage == page`. */
  function PageOf(jobs: seq<Job>, page: int): (r: seq<Job>)
    ensures |r| <= ITEMS_PER_PAGE
    ensures page >= 1 && (page - 1) * ITEMS_PER_PAGE < |jobs| ==>
              r == jobs[(page - 1) * ITEMS_PER_PAGE..if page * ITEMS_PER_PAGE <= |jobs| then page * ITEMS_PER_PAGE else |jobs|]
    ensures page >= 1 && (page - 1) * ITEMS_PER_PAGE >= |jobs| ==> r == []
  {
    var startIndex := (page - 1) * ITEMS_PER_PAGE;
    Slice(jobs, startIndex, startIndex + ITEMS_PER_PAGE)
  }

  /** Pages `1..k` one after the other. */
  function PagesUpTo(jobs: seq<Job>, k: nat): seq<Job> {
    if k == 0 then [] else PagesUpTo(jobs, k - 1) + PageOf(jobs, k)
  }

  /** The first `k` pages are the first `8k` jobs. */
  lemma {:induction false} PagesUpToPrefix(jobs: seq<Job>, k: nat)
    ensures PagesUpTo(jobs, k) == jobs[..if k * ITEMS_PER_PAGE <= |jobs| then k * ITEMS_PER_PAGE else |jobs|]
  {
    if k > 0 {
      PagesUpToPrefix(jobs, k - 1);
    }
  }

  /** The pages, concatenated, are exactly the filtered jobs. */
  lemma PagesConcatenate(jobs: seq<Job>)
    ensures PagesUpTo(jobs, TotalPages(|jobs|)) == jobs
  {
    PagesUpToPrefix(jobs, TotalPages(|jobs|));
  }

  /** Every page from 1 to the last one shows at least one job. */
  lemma PagesInRangeNonEmpty(jobs: seq<Job>, page: int)
    requires 1 <= page <= TotalPages(|jobs|)
    ensures |PageOf(jobs, page)| > 0
  {
  }

  /** The pagination bar: its page buttons and whether the arrows are disabled. */
  datatype Pagination = Pagination(pages: seq<int>, previousDisabled: bool, nextDisabled: bool)

  /** `renderPagination()`: nothing for at most one page, otherwise buttons 1..totalPages. */
  method RenderPagination(totalPages: nat, currentPage: int) returns (r: Option<Pagination>)
    ensures r.None? <==> totalPages <= 1
    ensures r.Some? ==> |r.value.pages| == totalPages
    ensures r.Some? ==> forall i :: 0 <= i < totalPages ==> r.value.pages[i] == i + 1
    ensures r.Some? ==> (r.value.previousDisabled <==> currentPage == 1)
    ensures r.Some? ==> (r.value.nextDisabled <==> currentPage == totalPages)
  {
    if totalPages <= 1 {
      return None;
    }
    var pages: seq<int> := [];
    var i := 1;
    while i <= totalPages
      invariant 1 <= i <= totalPages + 1
      invariant |pages| == i - 1
      invariant forall k :: 0 <= k < |pages| ==> pages[k] == k + 1
    {
      pages := pages + [i];
      i := i + 1;
    }
    r := Some(Pagination(pages, currentPage == 1, currentPage == totalPages));
  }

  /** The page shown is the first one, or one that exists. */
  predicate PageInRange(page: int, totalPages: nat) {
    page == 1 || 1 <= page <= totalPages
  }

  /** A page one of the enabled pagination buttons leads to. */
  predicate Clickable(page: int, currentPage: int, totalPages: nat) {
    totalPages > 1
    && ((1 <= page <= totalPages)
        || (page == currentPage - 1 && currentPage != 1)
        || (page == currentPage + 1 && currentPage != totalPages))
  }

  /** From a page in range, every enabled button leads to a page in range. */
  lemma ClickKeepsPageInRange(page: int, currentPage: int, totalPages: nat)
    requires PageInRange(currentPage, totalPages) && Clickable(page, currentPage, totalPages)
    ensures PageInRange(page, totalPages)
  {
  }

  /** A page in range shows some job whenever some job matches. */
  lemma PageInRangeShowsJobs(jobs: seq<Job>, page: int)
    requires PageInRange(page, TotalPages(|jobs|)) && |jobs| > 0
    ensures |PageOf(jobs, page)| > 0
  {
  }

  /** Eight jobs titled "a" and a ninth titled "b": two pages. */
  function StaleExampleJobs(): seq<Job> {
    seq(8, _ => Job(1, "c", "a", "a", "x", "", "")) + [Job(1, "c", "b", "b", "x", "", "")]
  }

  /**
   * Typing "b" while the second page is shown, with the page kept as the
   * typing handler keeps it: one job matches, but page 2 shows nothing and
   * the pagination bar (one page) is hidden, so no job and no "no jobs"
   * message are on screen.
   */
  lemma TypingKeepsStalePage()
    ensures PageInRange(2, TotalPages(|FilteredJobs(StaleExampleJobs(), NO_FILTERS, "", "")|))
    ensures FilteredJobs(StaleExampleJobs(), NO_FILTERS, "b", "") == [Job(1, "c", "b", "b", "x", "", "")]
    ensures TotalPages(1) == 1 && !PageInRange(2, TotalPages(1))
    ensures PageOf(FilteredJobs(StaleExampleJobs(), NO_FILTERS, "b", ""), 2) == []
  {
    NothingSelectedShowsAll(StaleExampleJobs());
    StaleExampleFilter();
  }

  lemma StaleExampleFilter()
    ensures FilteredJobs(StaleExampleJobs(), NO_FILTERS, "b", "") == [Job(1, "c", "b", "b", "x", "", "")]
  {
    var a := Job(1, "c", "a", "a", "x", "", "");
    var b := Job(1, "c", "b", "b", "x", "", "");
    var eight := seq(8, _ => a);
    var p := (j: Job) => JobMatches(j, NO_FILTERS, "b", "");
    StaleExampleMatches();
    FilterAppend(eight, [b], p);
    assert forall k :: 0 <= k < |eight| ==> !p(eight[k]);
    FilterNone(eight, p);
    assert Filter([b], p) == [b];
  }

  lemma StaleExampleMatches()
    ensures !JobMatches(Job(1, "c", "a", "a", "x", "", ""), NO_FILTERS, "b", "")
    ensures JobMatches(Job(1, "c", "b", "b", "x", "", ""), NO_FILTERS, "b", "")
  {
    assert ToLower("a") == "a" && ToLower("b") == "b";
    assert !Includes("a"[1..], "b");
    assert Includes("b", "b");
  }

  /** The page component's state. */
  class HomeCandidato {
    var jobs: seq<Job>
    var loading: bool
    var error: Option<string>
    var areaInput: string
    var locationInput: string
    var showAreaSuggestions: bool
    var showLocationSuggestions: bool
    var expandedSections: map<string, bool>
    var selectedFilters: SelectedFilters
    var currentPage: int

    /** `filteredJobs` for the current state. */
    function Filtered(): seq<Job>
      reads this
    {
      FilteredJobs(jobs, selectedFilters, areaInput, locationInput)
    }

    /** Jobs arrive only through the one load; the page shown is in range. */
    ghost predicate Valid()
      reads this
    {
      (loading ==> jobs == []) && PageInRange(currentPage, TotalPages(|Filtered()|))
    }

    /** The initial state, before the jobs have been loaded. */
    constructor ()
      ensures Valid()
      ensures jobs == [] && loading && error.None? && areaInput == "" && locationInput == ""
      ensures !showAreaSuggestions && !showLocationSuggestions
      ensures expandedSections == map[Title(Empresa) := false, Title(Puesto) := false, Title(Ubicacion) := false]
      ensures selectedFilters == NO_FILTERS && currentPage == 1
    {
      jobs := [];
      loading := true;
      error := None;
      areaInput := "";
      locationInput := "";
      showAreaSuggestions := false;
      showLocationSuggestions := false;
      expandedSections := map[Title(Empresa) := false, Title(Puesto) := false, Title(Ubicacion) := false];
      selectedFilters := NO_FILTERS;
      currentPage := 1;
    }

    /** The mount-time load; `outcome` is how `getAvailableJobs()` settled. */
    method LoadJobs(outcome: Result<seq<Job>, Thrown>)
      requires Valid() && loading
      modifies this
      ensures Valid() && !loading
      ensures outcome.Ok? ==> jobs == outcome.value && error.None?
      ensures outcome.Err? ==> jobs == old(jobs) && error == Some(LOAD_ERROR)
      ensures currentPage == old(currentPage) && selectedFilters == old(selectedFilters)
      ensures areaInput == old(areaInput) && locationInput == old(locationInput)
    {
      if outcome.Ok? {
        jobs := outcome.value;
        error := None;
      } else {
        error := Some(LOAD_ERROR);
      }
      loading := false;
    }

    /** `toggleSection(title)`. */
    method ToggleSection(title: string)
      requires Valid()
      modifies this
      ensures Valid()
      ensures expandedSections == Filters.ToggleSection(old(expandedSections), title)
      ensures Filtered() == old(Filtered()) && currentPage == old(currentPage)
    {
      expandedSections := Filters.ToggleSection(expandedSections, title);
    }

    /** `handleFilterChange(title, value)`: toggles the value and goes back to the first page. */
    method HandleFilterChange(s: Section, value: string)
      requires Valid()
      modifies this
      ensures Valid()
      ensures selectedFilters == ChangeFilter(old(selectedFilters), s, value)
      ensures currentPage == 1
      ensures jobs == old(jobs) && areaInput == old(areaInput) && locationInput == old(locationInput)
    {
      selectedFilters := ChangeFilter(selectedFilters, s, value);
      currentPage := 1;
    }

    /** `handleAreaSelect(value)`. */
    method HandleAreaSelect(value: string)
      requires Valid()
      modifies this
      ensures Valid()
      ensures areaInput == value && !showAreaSuggestions && currentPage == 1
      ensures jobs == old(jobs) && selectedFilters == old(selectedFilters) && locationInput == old(locationInput)
    {
      areaInput := value;
      showAreaSuggestions := false;
      currentPage := 1;
    }

    /** `handleLocationSelect(value)`. */
    method HandleLocationSelect(value: string)
      requires Valid()
      modifies this
      ensures Valid()
      ensures locationInput == value && !showLocationSuggestions && currentPage == 1
      ensures jobs == old(jobs) && selectedFilters == old(selectedFilters) && areaInput == old(areaInput)
    {
      locationInput := value;
      showLocationSuggestions := false;
      currentPage := 1;
    }

    /** `handleAreaClear()`. */
    method HandleAreaClear()
      requires Valid()
      modifies this
      ensures Valid()
      ensures areaInput == "" && currentPage == 1
      ensures jobs == old(jobs) && selectedFilters == old(selectedFilters) && locationInput == old(locationInput)
    {
      areaInput := "";
      currentPage := 1;
    }

    /** `handleLocationClear()`. */
    method HandleLocationClear()
      requires Valid()
      modifies this
      ensures Valid()
      ensures locationInput == "" && currentPage == 1
      ensures jobs == old(jobs) && selectedFilters == old(selectedFilters) && areaInput == old(areaInput)
    {
      locationInput := "";
      currentPage := 1;
    }

    /** Typing in the area field, as written: the page is left as it was. */
    method TypeAreaAsWritten(value: string)
      modifies this
      ensures areaInput == value && showAreaSuggestions
      ensures currentPage == old(currentPage)
      ensures jobs == old(jobs) && selectedFilters == old(selectedFilters) && locationInput == old(locationInput)
    {
      areaInput := value;
      showAreaSuggestions := true;
    }

    /** `onChange` of the location field as written: the text and the list change, the page does not. */
    method TypeLocationAsWritten(value: string)
      modifies this
      ensures locationInput == value && showLocationSuggestions
      ensures currentPage == old(currentPage)
      ensures jobs == old(jobs) && selectedFilters == old(selectedFilters) && areaInput == old(areaInput)
    {
      locationInput := value;
      showLocationSuggestions := true;
    }

    /** Typing in the area field, going back to the first page as every other search change does. */
    method TypeArea(value: string)
      requires Valid()
      modifies this
      ensures Valid()
      ensures areaInput == value && showAreaSuggestions && currentPage == 1
      ensures jobs == old(jobs) && selectedFilters == old(selectedFilters) && locationInput == old(locationInput)
    {
      areaInput := value;
      showAreaSuggestions := true;
      currentPage := 1;
    }

    /** Typing in the location field, going back to the first page. */
    method TypeLocation(value: string)
      requires Valid()
      modifies this
      ensures Valid()
      ensures locationInput == value && showLocationSuggestions && currentPage == 1
      ensures jobs == old(jobs) && selectedFilters == old(selectedFilters) && areaInput == old(areaInput)
    {
      locationInput := value;
      showLocationSuggestions := true;
      currentPage := 1;
    }

    /** `handlePageChange(page)` from one of the enabled pagination buttons. */
    method HandlePageChange(page: int)
      requires Valid() && Clickable(page, currentPage, TotalPages(|Filtered()|))
      modifies this
      ensures Valid()
      ensures currentPage == page && Filtered() == old(Filtered())
    {
      ClickKeepsPageInRange(page, currentPage, TotalPages(|Filtered()|));
      currentPage := page;
    }

    /** `getVisibleOptions(section)`. */
    function VisibleOptions(s: Section): (r: seq<string>)
      reads this
      ensures r <= Options(jobs, s)
      ensures Expanded(expandedSections, Title(s)) ==> r == Options(jobs, s)
      ensures !Expanded(expandedSections, Title(s)) ==> |r| == if |Options(jobs, s)| <= COLLAPSED_OPTIONS then |Options(jobs, s)| else COLLAPSED_OPTIONS
    {
      Filters.VisibleOptions(Options(jobs, s), Expanded(expandedSections, Title(s)), COLLAPSED_OPTIONS)
    }

    /** `filteredAreaSuggestions`. */
    function FilteredAreaSuggestions(): (r: seq<string>)
      reads this
      ensures forall x :: x in r <==> x in TitleSuggestions(jobs) && IncludesIgnoringCase(x, areaInput)
    {
      Matching(TitleSuggestions(jobs), areaInput)
    }

    /** `filteredLocationSuggestions`. */
    function FilteredLocationSuggestions(): (r: seq<string>)
      reads this
      ensures forall x :: x in r <==> x in LocationSuggestions(jobs) && IncludesIgnoringCase(x, locationInput)
    {
      Matching(LocationSuggestions(jobs), locationInput)
    }

    /** `paginatedJobs`. */
    function PaginatedJobs(): (r: seq<Job>)
      reads this
      ensures r == PageOf(Filtered(), currentPage)
      ensures |r| <= ITEMS_PER_PAGE
      ensures Valid() && |Filtered()| > 0 ==> |r| > 0
    {
      PageInRangeLemma(Filtered(), currentPage);
      PageOf(Filtered(), currentPage)
    }
  }

  /** Helper form of `PageInRangeShowsJobs` with the condition in the conclusion. */
  lemma PageInRangeLemma(jobs: seq<Job>, page: int)
    ensures PageInRange(page, TotalPages(|jobs|)) && |jobs| > 0 ==> |PageOf(jobs, page)| > 0
  {
  }
}
