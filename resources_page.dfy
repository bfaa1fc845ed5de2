/**
 * The resources page: three filters (skill level, resource type, search
 * text) read from the query part of the page's location and written back to
 * it whenever they change, and a page counter for the "Load More" button.
 */
module ResourcesPage {
  import opened Wrappers
  import opened Strings
  import opened UrlParams

  const SkillLevels: seq<string> := ["All Levels", "Beginner", "Intermediate", "Advanced"]
  const ResourceTypes: seq<string> := ["All Types", "Guides", "Templates", "Webinars", "Case Studies"]

  const AllLevels := SkillLevels[0]
  const AllTypes := ResourceTypes[0]
  const ResourcesPerPage := 9
  const BasePath := "/resources"

  datatype Filters = Filters(skill: string, resourceType: string, search: string)

  const DefaultFilters := Filters(AllLevels, AllTypes, "")

  // ---------- reading the filters from the location ----------

  /** `location.split("?")[1] || ""`: the text between the first and second `?`. */
  function QueryPart(location: string): (q: string)
    ensures '?' !in q
  {
    var parts := Split(location, '?');
    if |parts| > 1 then parts[1] else ""
  }

  /** A path and a query string, neither holding `?`, give the query back. */
  lemma QueryPartOf(path: string, query: string)
    requires '?' !in path && '?' !in query
    ensures QueryPart(path + "?" + query) == query
    ensures QueryPart(path) == ""
  {
    SplitAtFirst(path, '?', query);
    SplitWithoutSeparator(query, '?');
    SplitWithoutSeparator(path, '?');
  }

  /** `value || fallback` for a `get` result that may be `null`. */
  function OrDefault(value: Option<string>, fallback: string): (r: string)
    ensures value.Some? && value.value != "" ==> r == value.value
    ensures value.None? || value.value == "" ==> r == fallback
  {
    if value.Some? && value.value != "" then value.value else fallback
  }

  /** The filters the page starts with. */
  function InitialFilters(location: string): (f: Filters)
    ensures f.skill != "" && f.resourceType != ""
  {
    var params := Parse(QueryPart(location));
    Filters(OrDefault(Get(params, "level"), AllLevels), OrDefault(Get(params, "type"), AllTypes),
      OrDefault(Get(params, "search"), ""))
  }

  /** A location without a query starts the page with the default filters. */
  lemma NoQueryDefaults(path: string)
    requires '?' !in path
    ensures InitialFilters(path) == DefaultFilters
  {
    QueryPartOf(path, "");
    assert Split("", '&') == [""];
    assert ParseParts([""]) == [];
  }

  // ---------- writing the filters to the location ----------

  /** The parameters the URL sync sets: each filter that differs from its default, in this order. */
  function SyncParams(f: Filters): (ps: Params)
    ensures ps == [] <==> f == DefaultFilters
  {
    (if f.skill != AllLevels then [("level", f.skill)] else [])
    + (if f.resourceType != AllTypes then [("type", f.resourceType)] else [])
    + (if f.search != "" then [("search", f.search)] else [])
  }

  /** The location the URL sync sets. */
  function SyncUrl(f: Filters): string {
    var query := Serialize(SyncParams(f));
    if query != "" then BasePath + "?" + query else BasePath
  }

  /** The URL is plain "/resources" exactly when every filter has its default. */
  lemma SyncUrlDefault(f: Filters)
    ensures SyncUrl(f) == BasePath <==> f == DefaultFilters
  {
    SerializeEmpty(SyncParams(f));
  }

  /** `get` on the sync's parameters finds each filter that was written, and nothing for the others. */
  lemma SyncParamsGet(f: Filters)
    ensures Get(SyncParams(f), "level") == if f.skill != AllLevels then Some(f.skill) else None
    ensures Get(SyncParams(f), "type") == if f.resourceType != AllTypes then Some(f.resourceType) else None
    ensures Get(SyncParams(f), "search") == if f.search != "" then Some(f.search) else None
  {
    var a: Params := if f.skill != AllLevels then [("level", f.skill)] else [];
    var b: Params := if f.resourceType != AllTypes then [("type", f.resourceType)] else [];
    var c: Params := if f.search != "" then [("search", f.search)] else [];
    assert SyncParams(f) == a + b + c;
    GetAppend(a + b, c, "level");
    GetAppend(a, b, "level");
    GetAppend(a + b, c, "type");
    GetAppend(a, b, "type");
    GetAppend(a + b, c, "search");
    GetAppend(a, b, "search");
  }

  /** `get` looks in the second list only when the first has no entry of that name. */
  lemma {:induction false} GetAppend(a: Params, b: Params, name: string)
    ensures Get(a + b, name) == if Get(a, name).Some? then Get(a, name) else Get(b, name)
  {
    if a != [] {
      assert (a + b)[1..] == a[1..] + b;
      GetAppend(a[1..], b, name);
    } else {
      assert a + b == b;
    }
  }

  /**
   * Reading back the location the sync wrote gives the same filters, provided
   * the skill and type are not empty (an empty one reads back as its default).
   */
  lemma SyncRoundTrip(f: Filters)
    requires f.skill != "" && f.resourceType != ""
    ensures InitialFilters(SyncUrl(f)) == f
  {
    var ps := SyncParams(f);
    var query := Serialize(ps);
    SerializeHasNoQuestionMark(ps);
    if query != "" {
      QueryPartOf(BasePath, query);
      assert QueryPart(SyncUrl(f)) == query;
    } else {
      SerializeEmpty(ps);
      NoQueryDefaults(BasePath);
    }
    ParseSerialize(ps);
    SyncParamsGet(f);
  }

  /** So loading the page at a location the sync wrote leaves that location as it is. */
  lemma SyncStable(f: Filters)
    requires f.skill != "" && f.resourceType != ""
    ensures SyncUrl(InitialFilters(SyncUrl(f))) == SyncUrl(f)
  {
    SyncRoundTrip(f);
  }

  // ---------- pagination ----------

  /** `Math.ceil(total / 9)` for a non-negative total: the fewest pages of nine that hold it. */
  function TotalPages(total: nat): (n: nat)
    ensures ResourcesPerPage * n >= total
    ensures n == 0 || ResourcesPerPage * (n - 1) < total
  {
    (total + ResourcesPerPage - 1) / ResourcesPerPage
  }

  /** "Load More" is shown while the current page is before the last. */
  predicate ShowLoadMore(currentPage: int, total: nat) {
    currentPage < TotalPages(total)
  }

  /** ... that is, exactly while the pages up to the current one hold fewer than all the matches. */
  lemma ShowLoadMoreIffMoreMatches(currentPage: nat, total: nat)
    ensures ShowLoadMore(currentPage, total) <==> ResourcesPerPage * currentPage < total
  {
    var n := TotalPages(total);
    if currentPage < n {
      assert ResourcesPerPage * currentPage <= ResourcesPerPage * (n - 1);
    } else {
      assert ResourcesPerPage * currentPage >= ResourcesPerPage * n;
    }
  }

  // ---------- the page's state ----------

  /**
   * The page's state. The URL sync is an effect that runs whenever a filter
   * changes; each handler here performs it at once, so the location always
   * reflects the filters.
   */
  class ResourceBrowser {
    var selectedSkill: string
    var selectedType: string
    var searchQuery: string
    var currentPage: int
    var location: string

    function Current(): Filters
      reads this
    {
      Filters(selectedSkill, selectedType, searchQuery)
    }

    predicate Valid()
      reads this
    {
      currentPage >= 1 && location == SyncUrl(Current())
    }

    /** Mounting at `start`: the filters come from its query, page 1, then the first sync. */
    constructor(start: string)
      ensures Current() == InitialFilters(start) && currentPage == 1
      ensures Valid()
    {
      var f := InitialFilters(start);
      selectedSkill := f.skill;
      selectedType := f.resourceType;
      searchQuery := f.search;
      currentPage := 1;
      location := SyncUrl(f);
    }

    /** `handleSkillClick`: a new skill sends the list back to page 1. */
    method SkillClick(skill: string)
      requires Valid()
      modifies this
      ensures Current() == old(Current()).(skill := skill) && currentPage == 1
      ensures Valid()
    {
      var f := Current().(skill := skill);
      selectedSkill, currentPage, location := skill, 1, SyncUrl(f);
    }

    /** `handleResourceTypeChange`: a new type sends the list back to page 1. */
    method ResourceTypeChange(value: string)
      requires Valid()
      modifies this
      ensures Current() == old(Current()).(resourceType := value) && currentPage == 1
      ensures Valid()
    {
      var f := Current().(resourceType := value);
      selectedType, currentPage, location := value, 1, SyncUrl(f);
    }

    /** `handleSearchChange`: typing changes the search text but keeps the page. */
    method SearchChange(value: string)
      requires Valid()
      modifies this
      ensures Current() == old(Current()).(search := value) && currentPage == old(currentPage)
      ensures Valid()
    {
      var f := Current().(search := value);
      searchQuery, location := value, SyncUrl(f);
    }

    /** `handleSearchSubmit`: submitting the search form goes back to page 1 and changes nothing else. */
    method SearchSubmit()
      requires Valid()
      modifies this
      ensures Current() == old(Current()) && location == old(location) && currentPage == 1
      ensures Valid()
    {
      currentPage := 1;
    }

    /** `handleLoadMore`: exactly one page further. */
    method LoadMore()
      requires Valid()
      modifies this
      ensures Current() == old(Current()) && location == old(location) && currentPage == old(currentPage) + 1
      ensures Valid()
    {
      currentPage := currentPage + 1;
    }

    /** "Clear Filters": every filter back to its default, the page kept, the location plain "/resources". */
    method ClearFilters()
      requires Valid()
      modifies this
      ensures Current() == DefaultFilters && currentPage == old(currentPage)
      ensures location == BasePath
      ensures Valid()
    {
      SyncUrlDefault(DefaultFilters);
      selectedSkill, selectedType, searchQuery := AllLevels, AllTypes, "";
      location := SyncUrl(DefaultFilters);
    }
  }
}
