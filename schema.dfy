/**
 * The shared record shapes (one table each, every one keyed by a serial
 * integer `id`), the request and response records of the strategy
 * generator, and the object schemas the server validates request bodies
 * with. A body arrives as a JSON value; a schema either yields the typed
 * record or the list of fields that are missing or of the wrong type.
 */
module Schema {
  import opened Wrappers

  datatype DownloadableFile = DownloadableFile(id: int, name: string, size: string)

  datatype Resource = Resource(
    id: int,
    title: string,
    description: string,
    content: string,
    skillLevel: string,
    resourceType: string,
    averageRating: real,
    reviewCount: int,
    lastUpdated: string,
    readingTime: int,
    implementationTime: string,
    prerequisites: seq<string>,
    downloadableFiles: seq<DownloadableFile>)

  datatype StrategyComparison = StrategyComparison(
    id: int, name: string, rto: string, rpo: string, cost: int, complexity: int)

  datatype DownloadableResource = DownloadableResource(
    id: int, name: string, description: string, resourceType: string, downloadUrl: string)

  datatype Testimonial = Testimonial(
    id: int, name: string, company: string, rating: int, comment: string, date: string)

  /** The fields a testimonial submission supplies; `id` and `date` are set by the store. */
  datatype InsertTestimonial = InsertTestimonial(
    name: string, company: string, rating: int, comment: string)

  datatype Contact = Contact(
    id: int, fullName: string, email: string, organization: string, areaOfInterest: string,
    message: string, agreeToReceiveInfo: bool, createdAt: string)

  /** The fields a contact submission supplies; `id` and `createdAt` are set by the store. */
  datatype InsertContact = InsertContact(
    fullName: string, email: string, organization: string, areaOfInterest: string,
    message: string, agreeToReceiveInfo: bool)

  datatype StrategyRequest = StrategyRequest(
    organizationSize: string, dataVolume: real, recoveryTimeObjective: string, budget: string)

  datatype StrategyResponse = StrategyResponse(
    id: int, name: string, description: string, estimatedCost: string,
    implementationTime: string, complexity: string, recommendations: seq<string>)

  /** `averageRating` is `decimal(3, 1)`: at most three digits, one of them after the point. */
  predicate IsDecimal3Scale1(r: real) {
    -100.0 < r < 100.0 && (r * 10.0).Floor as real == r * 10.0
  }

  // ---------- JSON bodies and object schemas ----------

  datatype Json = JNull | JBool(b: bool) | JNum(n: real) | JStr(s: string) | JArr(items: seq<Json>) | JObj(fields: map<string, Json>)

  /** The value types a field of an object schema may demand. */
  datatype FieldType = TString | TNumber | TInteger | TBoolean | TStringArray

  predicate IsInteger(n: real) {
    n.Floor as real == n
  }

  predicate HasType(v: Json, t: FieldType) {
    match t
    case TString => v.JStr?
    case TNumber => v.JNum?
    case TInteger => v.JNum? && IsInteger(v.n)
    case TBoolean => v.JBool?
    case TStringArray => v.JArr? && forall i :: 0 <= i < |v.items| ==> v.items[i].JStr?
  }

  /** An object schema: the required fields and their types, in declaration order. */
  type Shape = seq<(string, FieldType)>

  predicate FieldOk(fields: map<string, Json>, key: string, t: FieldType) {
    key in fields && HasType(fields[key], t)
  }

  /** A body passes an object schema when it is an object and every declared field has its type. */
  predicate Conforms(body: Json, shape: Shape) {
    body.JObj? && forall i :: 0 <= i < |shape| ==> FieldOk(body.fields, shape[i].0, shape[i].1)
  }

  /** The declared fields a body object gets wrong, in declaration order. */
  function FailingFields(fields: map<string, Json>, shape: Shape): (bad: seq<string>)
    ensures bad == [] <==> forall i :: 0 <= i < |shape| ==> FieldOk(fields, shape[i].0, shape[i].1)
  {
    if shape == [] then []
    else (if FieldOk(fields, shape[0].0, shape[0].1) then [] else [shape[0].0]) + FailingFields(fields, shape[1..])
  }

  /** A schema issue: the path of the offending value and the type it should have had. */
  datatype Issue = Issue(path: string, expected: string)

  function TypeName(t: FieldType): string {
    match t
    case TString => "string"
    case TNumber => "number"
    case TInteger => "integer"
    case TBoolean => "boolean"
    case TStringArray => "array"
  }

  function Paths(issues: seq<Issue>): (ps: seq<string>)
    ensures |ps| == |issues|
  {
    if issues == [] then [] else [issues[0].path] + Paths(issues[1..])
  }

  /** The issues an object schema reports for a body object: one per failing field, in declaration order. */
  function ShapeIssues(fields: map<string, Json>, shape: Shape): (issues: seq<Issue>)
    ensures Paths(issues) == FailingFields(fields, shape)
    ensures issues == [] <==> forall i :: 0 <= i < |shape| ==> FieldOk(fields, shape[i].0, shape[i].1)
  {
    if shape == [] then []
    else
      var head := if FieldOk(fields, shape[0].0, shape[0].1) then [] else [Issue(shape[0].0, TypeName(shape[0].1))];
      var rest := ShapeIssues(fields, shape[1..]);
      assert Paths(head + rest) == Paths(head) + Paths(rest) by { PathsAppend(head, rest); }
      head + rest
  }

  lemma {:induction false} PathsAppend(a: seq<Issue>, b: seq<Issue>)
    ensures Paths(a + b) == Paths(a) + Paths(b)
  {
    if a != [] {
      assert (a + b)[1..] == a[1..] + b;
      PathsAppend(a[1..], b);
      calc {
        Paths(a + b);
        [a[0].path] + Paths(a[1..] + b);
        [a[0].path] + (Paths(a[1..]) + Paths(b));
        ([a[0].path] + Paths(a[1..])) + Paths(b);
      }
    } else {
      assert a + b == b;
    }
  }

  function StringAt(fields: map<string, Json>, key: string): string {
    if key in fields && fields[key].JStr? then fields[key].s else ""
  }

  function NumberAt(fields: map<string, Json>, key: string): real {
    if key in fields && fields[key].JNum? then fields[key].n else 0.0
  }

  function BoolAt(fields: map<string, Json>, key: string): bool {
    key in fields && fields[key].JBool? && fields[key].b
  }

  // ---------- strategyRequestSchema ----------

  const StrategyRequestShape: Shape := [
    ("organizationSize", TString), ("dataVolume", TNumber),
    ("recoveryTimeObjective", TString), ("budget", TString)]

  /** `strategyRequestSchema.parse(body)`: unknown keys are dropped, no range or enum checks. */
  function ParseStrategyRequest(body: Json): (r: Result<StrategyRequest, seq<Issue>>)
    ensures r.Ok? <==> Conforms(body, StrategyRequestShape)
    ensures r.Err? && body.JObj? ==> Paths(r.error) == FailingFields(body.fields, StrategyRequestShape)
    ensures r.Err? && !body.JObj? ==> r.error == [Issue("", "object")]
  {
    if !body.JObj? then Err([Issue("", "object")])
    else
      var f := body.fields;
      var issues := ShapeIssues(f, StrategyRequestShape);
      if issues == [] then
        Ok(StrategyRequest(StringAt(f, "organizationSize"), NumberAt(f, "dataVolume"),
          StringAt(f, "recoveryTimeObjective"), StringAt(f, "budget")))
      else
        Err(issues)
  }

  /** The record as a JSON body; the schema accepts it and reads the record back. */
  function StrategyRequestToJson(req: StrategyRequest): (j: Json)
    ensures ParseStrategyRequest(j) == Ok(req)
  {
    JObj(map["organizationSize" := JStr(req.organizationSize), "dataVolume" := JNum(req.dataVolume),
      "recoveryTimeObjective" := JStr(req.recoveryTimeObjective), "budget" := JStr(req.budget)])
  }

  /** Unknown keys are stripped: a request body with any extra keys reads back the same record. */
  lemma StrategyRequestExtraKeys(req: StrategyRequest, extra: map<string, Json>)
    ensures ParseStrategyRequest(JObj(extra + StrategyRequestToJson(req).fields)) == Ok(req)
  {
  }

  // ---------- strategyResponseSchema ----------

  const StrategyResponseShape: Shape := [
    ("id", TNumber), ("name", TString), ("description", TString), ("estimatedCost", TString),
    ("implementationTime", TString), ("complexity", TString), ("recommendations", TStringArray)]

  function StringsToJson(ss: seq<string>): (items: seq<Json>)
    ensures |items| == |ss|
    ensures forall i :: 0 <= i < |ss| ==> items[i] == JStr(ss[i])
  {
    if ss == [] then [] else [JStr(ss[0])] + StringsToJson(ss[1..])
  }

  function StrategyResponseToJson(s: StrategyResponse): Json {
    JObj(map["id" := JNum(s.id as real), "name" := JStr(s.name), "description" := JStr(s.description),
      "estimatedCost" := JStr(s.estimatedCost), "implementationTime" := JStr(s.implementationTime),
      "complexity" := JStr(s.complexity), "recommendations" := JArr(StringsToJson(s.recommendations))])
  }

  /** Every strategy record, as JSON, passes the response schema. */
  lemma StrategyResponseConforms(s: StrategyResponse)
    ensures Conforms(StrategyResponseToJson(s), StrategyResponseShape)
  {
    var f := StrategyResponseToJson(s).fields;
    forall i | 0 <= i < |StrategyResponseShape|
      ensures FieldOk(f, StrategyResponseShape[i].0, StrategyResponseShape[i].1)
    {
      if i == 6 {
        var items := StringsToJson(s.recommendations);
        assert f["recommendations"] == JArr(items);
        assert forall k :: 0 <= k < |items| ==> items[k].JStr?;
      }
    }
  }

  /** ... and carries exactly the seven declared fields, no more. */
  lemma StrategyResponseKeys(s: StrategyResponse)
    ensures StrategyResponseToJson(s).fields.Keys
      == {"id", "name", "description", "estimatedCost", "implementationTime", "complexity", "recommendations"}
  {
  }

  // ---------- testimonialSchema (insert schema of the testimonials table) ----------

  const TestimonialShape: Shape := [
    ("name", TString), ("company", TString), ("rating", TInteger), ("comment", TString)]

  /** `testimonialSchema.parse(body)`: `rating` need only be an integer; there is no 1..5 bound. */
  function ParseTestimonial(body: Json): (r: Result<InsertTestimonial, seq<Issue>>)
    ensures r.Ok? <==> Conforms(body, TestimonialShape)
    ensures r.Err? && body.JObj? ==> Paths(r.error) == FailingFields(body.fields, TestimonialShape)
    ensures r.Err? && !body.JObj? ==> r.error == [Issue("", "object")]
  {
    if !body.JObj? then Err([Issue("", "object")])
    else
      var f := body.fields;
      var issues := ShapeIssues(f, TestimonialShape);
      if issues == [] then
        Ok(InsertTestimonial(StringAt(f, "name"), StringAt(f, "company"), NumberAt(f, "rating").Floor, StringAt(f, "comment")))
      else
        Err(issues)
  }

  /** The record as a JSON body; the schema accepts it and reads the record back. */
  function TestimonialToJson(t: InsertTestimonial): (j: Json)
    ensures ParseTestimonial(j) == Ok(t)
  {
    JObj(map["name" := JStr(t.name), "company" := JStr(t.company), "rating" := JNum(t.rating as real),
      "comment" := JStr(t.comment)])
  }

  /** The columns of the testimonials table. */
  const TestimonialColumns: set<string> := {"id", "name", "company", "rating", "comment", "date"}

  /** Keys that are not columns of the table are stripped. */
  lemma TestimonialExtraKeys(t: InsertTestimonial, extra: map<string, Json>)
    requires forall k :: k in extra ==> k !in TestimonialColumns
    ensures ParseTestimonial(JObj(extra + TestimonialToJson(t).fields)) == Ok(t)
  {
  }

  // ---------- contactFormSchema (insert schema of the contact_forms table) ----------

  const ContactShape: Shape := [
    ("fullName", TString), ("email", TString), ("organization", TString),
    ("areaOfInterest", TString), ("message", TString), ("agreeToReceiveInfo", TBoolean)]

  /** The server's `contactFormSchema.parse(body)`: types only, no length or e-mail checks. */
  function ParseContact(body: Json): (r: Result<InsertContact, seq<Issue>>)
    ensures r.Ok? <==> Conforms(body, ContactShape)
    ensures r.Err? && body.JObj? ==> Paths(r.error) == FailingFields(body.fields, ContactShape)
    ensures r.Err? && !body.JObj? ==> r.error == [Issue("", "object")]
  {
    if !body.JObj? then Err([Issue("", "object")])
    else
      var f := body.fields;
      var issues := ShapeIssues(f, ContactShape);
      if issues == [] then
        Ok(InsertContact(StringAt(f, "fullName"), StringAt(f, "email"), StringAt(f, "organization"),
          StringAt(f, "areaOfInterest"), StringAt(f, "message"), BoolAt(f, "agreeToReceiveInfo")))
      else
        Err(issues)
  }

  /** The record as a JSON body; the schema accepts it and reads the record back. */
  function ContactToJson(c: InsertContact): (j: Json)
    ensures ParseContact(j) == Ok(c)
  {
    JObj(map["fullName" := JStr(c.fullName), "email" := JStr(c.email), "organization" := JStr(c.organization),
      "areaOfInterest" := JStr(c.areaOfInterest), "message" := JStr(c.message),
      "agreeToReceiveInfo" := JBool(c.agreeToReceiveInfo)])
  }

  /** The columns of the contact_forms table. */
  const ContactColumns: set<string> := {"id", "fullName", "email", "organization", "areaOfInterest", "message",
    "agreeToReceiveInfo", "createdAt"}

  /** Keys that are not columns of the table are stripped. */
  lemma ContactExtraKeys(c: InsertContact, extra: map<string, Json>)
    requires forall k :: k in extra ==> k !in ContactColumns
    ensures ParseContact(JObj(extra + ContactToJson(c).fields)) == Ok(c)
  {
  }
}
