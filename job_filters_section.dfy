/**
 * The filter panel of the screen revision of the candidate home: fixed
 * sections of options, a fixed list of sample listings, and the filter over
 * them that the selections and the two search fields drive.
 */
module JobFiltersSection {
  import opened Js
  import opened Filters
  import opened HomeCandidatoScreen

  /** A collapsed section shows this many options. */
  const COLLAPSED_OPTIONS: nat := 2

  /** `JobListing`. */
  datatype JobListing = JobListing(
    position: string, modality: string, description: string, isNew: bool,
    publicationTime: string, sector: string, provincia: string, localidad: string)

  /** The options of each section of `filterSections`. */
  function Options(c: Category): seq<string> {
    match c
    case Sector => ["Industria y producción", "Comercial y ventas", "Tecnología", "Salud"]
    case Provincia => ["Buenos Aires - GBA", "Ciudad autónoma de Buenos Aires", "Córdoba"]
    case Localidad => ["La Matanza, Prov. de Buenos Aires", "Lanús, Prov. de Buenos Aires", "Palermo, CABA"]
    case Modalidad => ["Presencial", "Híbrido", "Remoto"]
  }

  /** `jobListings`. */
  const JOB_LISTINGS: seq<JobListing> := [
    JobListing(
      "Técnico de Producción", "Presencial / Tiempo completo",
      "Buscamos técnico con experiencia en producción industrial para unirse a nuestro equipo. Ofrecemos excelente ambiente laboral y oportunidades de crecimiento profesional.",
      true, "Hace 2 horas", "Industria y producción", "Buenos Aires - GBA", "La Matanza, Prov. de Buenos Aires"),
    JobListing(
      "Vendedor Senior", "Híbrido / Tiempo completo",
      "Empresa líder en el sector comercial busca vendedor con experiencia comprobable. Se ofrece salario competitivo más comisiones atractivas.",
      true, "Hace 5 horas", "Comercial y ventas", "Ciudad autónoma de Buenos Aires", "Palermo, CABA"),
    JobListing(
      "Operario de Línea", "Presencial / Tiempo completo",
      "Se requiere operario para línea de producción. No es necesaria experiencia previa, se ofrece capacitación. Excelente oportunidad para comenzar carrera en industria.",
      false, "Hace 1 día", "Industria y producción", "Buenos Aires - GBA", "Lanús, Prov. de Buenos Aires")
  ]

  /** `selectedFilters.modalidad.some((m) => job.modality.includes(m))`, case-sensitive, with an empty list admitting all. */
  predicate ModalityMatches(selected: seq<string>, modality: string) {
    |selected| == 0 || exists m :: m in selected && Includes(modality, m)
  }

  /** The area search: nothing typed, or the sector or the position contains it, ignoring case. */
  predicate AreaSearchMatches(job: JobListing, area: string) {
    area == "" || IncludesIgnoringCase(job.sector, area) || IncludesIgnoringCase(job.position, area)
  }

  /**
   * The location search: nothing typed, or the locality or the province
   * contains it ignoring case, or the query is "remoto" in any case and the
   * modality contains "remoto" ignoring case.
   */
  predicate LocationSearchMatches(job: JobListing, location: string) {
    || location == ""
    || IncludesIgnoringCase(job.localidad, location)
    || IncludesIgnoringCase(job.provincia, location)
    || (ToLower(location) == "remoto" && Includes(ToLower(job.modality), "remoto"))
  }

  /** The predicate of `filteredJobs`. */
  predicate ListingMatches(job: JobListing, f: SelectedFilters, s: SearchFilters) {
    && Admits(f.sector, job.sector)
    && Admits(f.provincia, job.provincia)
    && Admits(f.localidad, job.localidad)
    && ModalityMatches(f.modalidad, job.modality)
    && AreaSearchMatches(job, s.area)
    && LocationSearchMatches(job, s.location)
  }

  /** `filteredJobs`: the matching listings, in their order. */
  function FilteredJobs(listings: seq<JobListing>, f: SelectedFilters, s: SearchFilters): (r: seq<JobListing>)
    ensures Subsequence(r, listings)
    ensures forall j :: j in r <==> j in listings && ListingMatches(j, f, s)
    ensures forall j :: multiset(r)[j] == if ListingMatches(j, f, s) then multiset(listings)[j] else 0
  {
    FilterMultiset(listings, (j: JobListing) => ListingMatches(j, f, s));
    Filter(listings, (j: JobListing) => ListingMatches(j, f, s))
  }

  /** With nothing selected and nothing typed every listing is shown. */
  lemma NothingSelectedShowsAll(listings: seq<JobListing>)
    ensures FilteredJobs(listings, SelectedFilters([], [], [], []), SearchFilters("", "")) == listings
  {
  }

  /** The modality filter is case-sensitive: "remoto" does not select a "Remoto" modality. */
  lemma ModalityIsCaseSensitive()
    ensures !ModalityMatches(["remoto"], "Remoto")
    ensures ModalityMatches(["Remoto"], "Remoto / Tiempo completo")
  {
    IncludesAt("Remoto"[1..], "remoto");
    assert !Includes("Remoto"[1..], "remoto") by {
      assert |"Remoto"[1..]| < |"remoto"|;
    }
    assert !("remoto" <= "Remoto") by {
      assert "remoto"[0] != "Remoto"[0];
    }
    assert forall m :: m in ["remoto"] ==> m == "remoto";
    assert "Remoto" <= "Remoto / Tiempo completo";
    assert "Remoto" in ["Remoto"] && Includes("Remoto / Tiempo completo", "Remoto");
  }

  /** A remote job whose places do not match is found by "REMOTO" but not by a part of the word. */
  lemma RemotoIsAWholeQuery()
    ensures LocationSearchMatches(JobListing("p", "Remoto", "d", false, "t", "s", "y", "x"), "REMOTO")
    ensures !LocationSearchMatches(JobListing("p", "Remoto", "d", false, "t", "s", "y", "x"), "remot")
  {
    assert ToLower("REMOTO") == "remoto";
    assert ToLower("Remoto") == "remoto";
    assert ToLower("x") == "x" && ToLower("y") == "y";
    assert |ToLower("remot")| == 5;
    assert !Includes("x"[1..], ToLower("remot"));
    assert !Includes("y"[1..], ToLower("remot"));
  }

  /** `hasActiveFilters`: some of the four lists is non-empty. */
  predicate HasActiveFilters(f: SelectedFilters) {
    exists c :: |Selected(f, c)| > 0
  }

  /** `hasActiveFilters` holds exactly when one of the four lists has a value. */
  lemma HasActiveFiltersIff(f: SelectedFilters)
    ensures HasActiveFilters(f) <==> |f.sector| > 0 || |f.provincia| > 0 || |f.localidad| > 0 || |f.modalidad| > 0
  {
    if |f.sector| > 0 {
      assert |Selected(f, Sector)| > 0;
    } else if |f.provincia| > 0 {
      assert |Selected(f, Provincia)| > 0;
    } else if |f.localidad| > 0 {
      assert |Selected(f, Localidad)| > 0;
    } else if |f.modalidad| > 0 {
      assert |Selected(f, Modalidad)| > 0;
    }
  }

  /** `isFilterActive(title, option)`. */
  predicate IsFilterActive(f: SelectedFilters, c: Category, option: string) {
    option in Selected(f, c)
  }

  /** The expand toggle of a section is shown when it has more than two options. */
  predicate ShowsToggle(c: Category) {
    |Options(c)| > COLLAPSED_OPTIONS
  }

  /** A section hides options when collapsed exactly when it shows the toggle. */
  lemma ToggleShownIffOptionsHidden(c: Category)
    ensures ShowsToggle(c) <==> Filters.VisibleOptions(Options(c), false, COLLAPSED_OPTIONS) != Options(c)
  {
    HiddenIffMoreThanLimit(Options(c), COLLAPSED_OPTIONS);
  }

  /** Every section of the panel has more than two options, so every one shows its toggle. */
  lemma EverySectionShowsToggle(c: Category)
    ensures ShowsToggle(c)
  {
  }

  /** The panel's own state: which sections are expanded. */
  class JobFilters {
    var expandedSections: map<string, bool>

    constructor ()
      ensures expandedSections == map[Title(Sector) := false, Title(Provincia) := false, Title(Localidad) := false, Title(Modalidad) := false]
    {
      expandedSections := map[Title(Sector) := false, Title(Provincia) := false, Title(Localidad) := false, Title(Modalidad) := false];
    }

    /** `toggleSection(title)`: only that title flips. */
    method ToggleSection(title: string)
      modifies this
      ensures expandedSections == Filters.ToggleSection(old(expandedSections), title)
    {
      expandedSections := Filters.ToggleSection(expandedSections, title);
    }

    /** `getVisibleOptions(section)`. */
    function VisibleOptions(c: Category): (r: seq<string>)
      reads this
      ensures r <= Options(c)
      ensures Expanded(expandedSections, Title(c)) ==> r == Options(c)
      ensures !Expanded(expandedSections, Title(c)) ==> r == Options(c)[..COLLAPSED_OPTIONS]
    {
      Filters.VisibleOptions(Options(c), Expanded(expandedSections, Title(c)), COLLAPSED_OPTIONS)
    }
  }
}
