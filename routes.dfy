/**
 * The HTTP API over the store: each route reads its query or path text or its
 * JSON body, calls the store, and answers with a status code and a body.
 * Query values arrive as strings; an absent or empty one takes the route's
 * default, exactly as `value || default` does in JavaScript.
 */
module Routes {
  import opened Wrappers
  import opened Strings
  import opened Schema
  import opened Storage
  import opened Strategy

  /** The query string of a request, one string per parameter name. */
  type Query = map<string, string>

  /** The response bodies the routes send. */
  datatype Body =
    | ResourcePage(resources: seq<Resource>, total: int, page: int, perPage: int)
    | OneResource(resource: Resource)
    | StrategyList(strategies: seq<StrategyComparison>)
    | DownloadableList(downloadables: seq<DownloadableResource>)
    | DownloadStarted(message: string, name: string, resourceType: string)
    | TestimonialList(testimonials: seq<Testimonial>)
    | OneTestimonial(testimonial: Testimonial)
    | OneContact(contact: Contact)
    | Plan(strategy: StrategyResponse)
    | Message(message: string)
    | Invalid(message: string, errors: seq<Issue>)

  datatype Response = Response(status: int, body: Body)

  const AllLevels := "All Levels"
  const AllTypes := "All Types"
  const NotFound := "Resource not found"
  const DownloadMessage := "Download started"
  const InvalidTestimonial := "Invalid testimonial data"
  const InvalidContact := "Invalid contact data"
  const InvalidStrategy := "Invalid strategy request"

  // ---------- query defaulting for GET /api/resources ----------

  /** `req.query[name] as string || fallback`. */
  function QueryOr(query: Query, name: string, fallback: string): (v: string)
    ensures name in query && query[name] != "" ==> v == query[name]
    ensures name !in query || query[name] == "" ==> v == fallback
  {
    if name in query && query[name] != "" then query[name] else fallback
  }

  /** The skill filter handed to the store: none for an absent value or "All Levels". */
  function SkillFilter(query: Query): (f: Option<string>)
    ensures f.None? <==> "skillLevel" !in query || query["skillLevel"] == "" || query["skillLevel"] == AllLevels
    ensures f.Some? ==> f.value == query["skillLevel"]
  {
    var v := QueryOr(query, "skillLevel", AllLevels);
    if v != AllLevels then Some(v) else None
  }

  /** The type filter handed to the store: none for an absent value or "All Types". */
  function TypeFilter(query: Query): (f: Option<string>)
    ensures f.None? <==> "type" !in query || query["type"] == "" || query["type"] == AllTypes
    ensures f.Some? ==> f.value == query["type"]
  {
    var v := QueryOr(query, "type", AllTypes);
    if v != AllTypes then Some(v) else None
  }

  function SearchText(query: Query): string {
    QueryOr(query, "search", "")
  }

  function PageNumber(query: Query): Option<int> {
    ParseInt(QueryOr(query, "page", "1"))
  }

  function PerPageNumber(query: Query): Option<int> {
    ParseInt(QueryOr(query, "perPage", "6"))
  }

  /** Without page parameters the route asks for page 1 of 6. */
  lemma DefaultPaging(query: Query)
    requires "page" !in query || query["page"] == ""
    requires "perPage" !in query || query["perPage"] == ""
    ensures PageNumber(query) == Some(1) && PerPageNumber(query) == Some(6)
  {
    ParseIntDecimal(1, "");
    ParseIntDecimal(6, "");
    assert Decimal(1) + "" == "1" && Decimal(6) + "" == "6";
  }

  /** A page parameter written as a decimal number is read as that number. */
  lemma PageParameterRead(query: Query, n: nat)
    requires "page" in query && query["page"] == Decimal(n)
    ensures PageNumber(query) == Some(n)
  {
    ParseIntDecimal(n, "");
    assert Decimal(n) + "" == Decimal(n);
  }

  /** With an empty query the route lists every resource, unfiltered. */
  lemma EmptyQueryListsAll(rs: seq<Resource>)
    ensures Matching(rs, SkillFilter(map[]), TypeFilter(map[]), Some(SearchText(map[]))) == rs
  {
    EmptySearchIsNoFilter(rs, None, None);
    UnfilteredQuery(rs, None, None, None);
  }

  /**
   * GET /api/resources. The page and perPage texts must read as positive
   * numbers (JavaScript's slice semantics for others are not modelled).
   */
  method ListResources(store: MemStorage, query: Query) returns (resp: Response)
    requires store.Valid()
    requires PageNumber(query).Some? && PageNumber(query).value >= 1
    requires PerPageNumber(query).Some? && PerPageNumber(query).value >= 1
    ensures resp.status == 200
    ensures var matching := Matching(store.AllResources(), SkillFilter(query), TypeFilter(query), Some(SearchText(query)));
      var page, perPage := PageNumber(query).value, PerPageNumber(query).value;
      resp.body == ResourcePage(Page(matching, page, perPage), |matching|, page, perPage)
  {
    var skillLevel := QueryOr(query, "skillLevel", AllLevels);
    var resourceType := QueryOr(query, "type", AllTypes);
    var search := QueryOr(query, "search", "");
    var page := ParseInt(QueryOr(query, "page", "1")).value;
    var perPage := ParseInt(QueryOr(query, "perPage", "6")).value;
    var resources, total := store.GetResources(
      if skillLevel != AllLevels then Some(skillLevel) else None,
      if resourceType != AllTypes then Some(resourceType) else None,
      Some(search), page, perPage);
    resp := Response(200, ResourcePage(resources, total, page, perPage));
  }

  // ---------- lookups by id ----------

  /** An id text names a stored record when it reads as a number in `1 .. next-1`. */
  predicate NamesId(idText: string, next: int) {
    ParseInt(idText).Some? && 1 <= ParseInt(idText).value < next
  }

  /** GET /api/resources/:id: the record, or 404 with "Resource not found". */
  method GetResource(store: MemStorage, idText: string) returns (resp: Response)
    requires store.Valid()
    ensures NamesId(idText, store.resourceId) ==>
      resp == Response(200, OneResource(store.resources[ParseInt(idText).value]))
    ensures !NamesId(idText, store.resourceId) ==> resp == Response(404, Message(NotFound))
  {
    var id := ParseInt(idText);
    if id.None? {
      // `parseInt` gave NaN, which is no key of the map.
      return Response(404, Message(NotFound));
    }
    var resource := store.GetResourceById(id.value);
    if resource.None? {
      return Response(404, Message(NotFound));
    }
    resp := Response(200, OneResource(resource.value));
  }

  /** GET /api/strategy-comparison. */
  method ListStrategies(store: MemStorage) returns (resp: Response)
    requires store.Valid()
    ensures resp.status == 200 && resp.body.StrategyList?
    ensures |resp.body.strategies| == StrategyCount
    ensures forall i :: 0 <= i < |resp.body.strategies| ==> resp.body.strategies[i] == store.strategyComparisons[i + 1]
  {
    var strategies := store.GetStrategyComparisons();
    resp := Response(200, StrategyList(strategies));
  }

  /** GET /api/downloadable-resources. */
  method ListDownloadables(store: MemStorage) returns (resp: Response)
    requires store.Valid()
    ensures resp.status == 200 && resp.body.DownloadableList?
    ensures |resp.body.downloadables| == DownloadableCount
    ensures forall i :: 0 <= i < |resp.body.downloadables| ==> resp.body.downloadables[i] == store.downloadableResources[i + 1]
  {
    var downloadables := store.GetDownloadableResources();
    resp := Response(200, DownloadableList(downloadables));
  }

  /** GET /api/download-resource/:id: only the name and type, with "Download started"; or 404. */
  method Download(store: MemStorage, idText: string) returns (resp: Response)
    requires store.Valid()
    ensures NamesId(idText, DownloadableCount + 1) ==>
      var d := store.downloadableResources[ParseInt(idText).value];
      resp == Response(200, DownloadStarted(DownloadMessage, d.name, d.resourceType))
    ensures !NamesId(idText, DownloadableCount + 1) ==> resp == Response(404, Message(NotFound))
  {
    var id := ParseInt(idText);
    if id.None? {
      return Response(404, Message(NotFound));
    }
    var resource := store.GetDownloadableResourceById(id.value);
    if resource.None? {
      return Response(404, Message(NotFound));
    }
    resp := Response(200, DownloadStarted(DownloadMessage, resource.value.name, resource.value.resourceType));
  }

  /** GET /api/testimonials. */
  method ListTestimonials(store: MemStorage) returns (resp: Response)
    requires store.Valid()
    ensures resp == Response(200, TestimonialList(store.AllTestimonials()))
  {
    var testimonials := store.GetTestimonials();
    resp := Response(200, TestimonialList(testimonials));
  }

  // ---------- submissions ----------

  /**
   * POST /api/testimonials: 201 with the stored record when the body passes the
   * schema, 400 with the issues (and nothing stored) when it does not.
   */
  method PostTestimonial(store: MemStorage, body: Json, now: string) returns (resp: Response)
    requires store.Valid()
    modifies store
    ensures store.Valid()
    ensures Conforms(body, TestimonialShape) ==>
      var t := ParseTestimonial(body).value;
      var created := Testimonial(old(store.testimonialId), t.name, t.company, t.rating, t.comment, now);
      && resp == Response(201, OneTestimonial(created))
      && store.AllTestimonials() == old(store.AllTestimonials()) + [created]
      && store.testimonialId == old(store.testimonialId) + 1
      && store.resources == old(store.resources) && store.strategyComparisons == old(store.strategyComparisons)
      && store.downloadableResources == old(store.downloadableResources) && store.contacts == old(store.contacts)
      && store.resourceId == old(store.resourceId) && store.contactId == old(store.contactId)
    ensures !Conforms(body, TestimonialShape) ==>
      resp == Response(400, Invalid(InvalidTestimonial, ParseTestimonial(body).error)) && unchanged(store)
  {
    var parsed := ParseTestimonial(body);
    if parsed.Err? {
      return Response(400, Invalid(InvalidTestimonial, parsed.error));
    }
    var testimonial := store.CreateTestimonial(parsed.value, now);
    resp := Response(201, OneTestimonial(testimonial));
  }

  /** POST /api/contact: 201 with the stored record, or 400 with the issues. */
  method PostContact(store: MemStorage, body: Json, now: string) returns (resp: Response)
    requires store.Valid()
    modifies store
    ensures store.Valid()
    ensures Conforms(body, ContactShape) ==>
      var c := ParseContact(body).value;
      var created := Contact(old(store.contactId), c.fullName, c.email, c.organization, c.areaOfInterest,
        c.message, c.agreeToReceiveInfo, now);
      && resp == Response(201, OneContact(created))
      && store.AllContacts() == old(store.AllContacts()) + [created]
      && store.contactId == old(store.contactId) + 1
      && store.resources == old(store.resources) && store.strategyComparisons == old(store.strategyComparisons)
      && store.downloadableResources == old(store.downloadableResources) && store.testimonials == old(store.testimonials)
      && store.resourceId == old(store.resourceId) && store.testimonialId == old(store.testimonialId)
    ensures !Conforms(body, ContactShape) ==>
      resp == Response(400, Invalid(InvalidContact, ParseContact(body).error)) && unchanged(store)
  {
    var parsed := ParseContact(body);
    if parsed.Err? {
      return Response(400, Invalid(InvalidContact, parsed.error));
    }
    var contact := store.CreateContact(parsed.value, now);
    resp := Response(201, OneContact(contact));
  }

  /** POST /api/planning-tool/generate: the generated plan with the default status, or 400. */
  function GeneratePlan(body: Json): (resp: Response)
    ensures resp.status == 200 <==> Conforms(body, StrategyRequestShape)
    ensures resp.status == 200 ==> resp.body.Plan? && 1 <= resp.body.strategy.id <= 6
    ensures resp.status != 200 ==> resp.status == 400 && resp.body.Invalid? && resp.body.message == InvalidStrategy
  {
    match ParseStrategyRequest(body)
    case Ok(request) => Response(200, Plan(GenerateStrategy(request)))
    case Err(issues) => Response(400, Invalid(InvalidStrategy, issues))
  }

  /** Posting any request record as JSON, with any extra keys, yields the plan generated for it. */
  lemma GeneratePlanFromRecord(request: StrategyRequest, extra: map<string, Json>)
    ensures GeneratePlan(JObj(extra + StrategyRequestToJson(request).fields)) == Response(200, Plan(GenerateStrategy(request)))
  {
    StrategyRequestExtraKeys(request, extra);
  }
}
