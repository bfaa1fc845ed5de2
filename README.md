# Disaster-recovery planning site: a Dafny model of its logic

The site is an educational catalogue for disaster-recovery planning. It runs on a small Express server with an in-memory store. Its client has interactive planners, and this model covers the parts of the site that compute something:

- **The catalogue store** (`MemStorage`): five keyed tables and three id counters filled by seeding. It answers a filtered, paged article query and id lookups, and it creates testimonials and contact requests append-only. Beside it sits the six-template strategy engine (`generateStrategy`).
- **The REST routes:**
  - query parameters and their defaults ("All Levels" and "All Types" mean no filter; page 1 of 6);
  - the 200/201/400/404 outcomes;
  - the download projection.
- **The record schemas:**
  - JSON bodies as a datatype;
  - the object schemas as type checks per field, with the issues they report;
  - the records read back from a body.
- **The risk assessment tool:**
  - the 5×5 matrix and its colours;
  - the composite score, a rounded mean of impact × likelihood, and its four bands;
  - the recommendation list;
  - the checklist handlers and Reset.
- **The discrete part of the cost calculator:**
  - the volume-discount tiers;
  - the storage-tier shares in tenths of the data;
  - the backup-frequency table;
  - the include switches and the key each switch derives from its item's name;
  - the per-item gating of the monthly sum.
- **The planning tool:** the data-volume label ladder, the request it posts, and how its option lists meet the strategy engine's branches.
- **The resources page:** filters read from the location's query and written back to it, the page counter and "Load More", and Clear Filters.
- **The review form, the contact form, the navigation bar and the planning-tools page:**
  - the form validators and star rows;
  - the forms' open and submitted flags;
  - the active-link predicate and the mobile menu toggle;
  - tab selection from the location's fragment.

The model represents:

- each entity as a datatype;
- each stateful component as a class whose methods update its fields;
- the loops of the source (seeding, the query's successive filters, the score and storage-cost totals, the recommendation pushes, the share computation) as methods with loop invariants, each proved against a specification function;
- the JavaScript string and `URLSearchParams` operations the code relies on as functions over `seq<char>`:
  - `toLowerCase` on ASCII;
  - `startsWith` and `includes`;
  - `split` and `join` on one character (the scan `split` uses is `Strings.IndexOf`, a helper, not a call of the source);
  - `parseInt` on decimal text;
  - percent-encoding, proved inverse to its decoding.

The modules are `Wrappers`, `Strings`, `UrlParams`, `Schema`, `Storage`, `Strategy`, `Routes`, `RiskAssessment`, `CostCalculator`, `PlanningTool`, `ResourcesPage`, `TestimonialsSection`, `ContactForm`, `Navbar` and `PlanningToolsPage`. There is one file per module.

Two places where the client and the server disagree:

- The client review form bounds a testimonial's star rating to 1..5 (`client/src/components/ui/testimonials.tsx:21`). The server's insert schema only asks for an integer (`shared/schema.ts:57`, `62`), so a rating of 7 sent past the form is stored (`TestimonialsSection.RatingBoundOnlyInClient`).
- The server's article query has a default page size of 6 (`server/routes.ts:14`). The resources page shows nine per page (`client/src/pages/resources.tsx:29`).

## Model

| member | source | states |
|---|---|---|
| Strings.ToLower | server/storage.ts:300-306 | lowering keeps the length and lowers every character independently, changing only A–Z |
| Strings.ToLowerIdempotent | server/storage.ts:300-306 | a lowered string contains no upper-case letter, so lowering again changes nothing |
| Strings.IncludesIffOccurs | server/storage.ts:303-305 | the left-to-right `includes` scan succeeds exactly when the text occurs at some position |
| Strings.IndexOf | client/src/components/ui/cost-calculator.tsx:670 | the index of the first occurrence of the character: every earlier position differs from it, and the length is returned when it is absent |
| Strings.Split | client/src/pages/resources.tsx:20 | `split` on one character gives at least one part, and no part contains the separator |
| Strings.SplitAtFirst | client/src/pages/planning-tools.tsx:16 | splitting stops at the first separator: the text before it is the first part, and the rest is split again |
| Strings.SplitJoin | client/src/pages/resources.tsx:41-46 | joining separator-free parts and splitting the result on that separator gives the parts back |
| Strings.ParseIntDecimal | server/routes.ts:13-14 | `parseInt` reads a decimal number back, whatever non-digit text follows it |
| Strings.ParseIntNaN | server/routes.ts:31 | text that does not start with a digit or a sign reads as NaN (`None`) |
| UrlParams.DecodeEncode | client/src/pages/resources.tsx:41-46 | percent-decoding undoes the serialiser's encoding for every string |
| UrlParams.EncodeHasNoSeparators | client/src/pages/resources.tsx:46 | an encoded value contains no `&`, `=`, `?` or `#` |
| UrlParams.Get | client/src/pages/resources.tsx:21-23 | `get` finds a value exactly when some entry has that name |
| UrlParams.ParseSerialize | client/src/pages/resources.tsx:41-46 | parsing what `toString` wrote gives the same parameters in the same order |
| UrlParams.SerializeEmpty | client/src/pages/resources.tsx:46 | the serialised text is empty exactly when there are no parameters |
| UrlParams.SerializeHasNoQuestionMark | client/src/pages/resources.tsx:46 | a serialised query contains no `?`, so it cannot end a path early |
| Schema.ShapeIssues | server/routes.ts:103-104 | an object schema reports one issue per declared field whose value has the wrong type, in declaration order, and none exactly when every field conforms |
| Schema.ParseStrategyRequest | shared/schema.ts:83-88 | the request schema accepts a body exactly when it is an object whose four fields have their types; otherwise it reports the failing fields, or one "object" issue for a non-object |
| Schema.StrategyRequestToJson | shared/schema.ts:83-88 | every request record, sent as JSON, is accepted and read back as the same record |
| Schema.StrategyRequestExtraKeys | shared/schema.ts:83-88 | unknown keys are stripped, and there are no range or enum checks: any extra keys give the same record |
| Schema.StrategyResponseConforms | shared/schema.ts:93-101 | every strategy record as JSON passes the response schema |
| Schema.StrategyResponseKeys | shared/schema.ts:93-101 | the JSON of a strategy has exactly the seven declared fields |
| Schema.ParseTestimonial | shared/schema.ts:53-62 | the testimonial insert schema accepts exactly objects whose name, company and comment are strings and whose rating is an integer; failures are reported per field |
| Schema.TestimonialToJson | shared/schema.ts:62 | every testimonial submission round-trips through its JSON body |
| Schema.TestimonialExtraKeys | shared/schema.ts:53-62 | keys that are not columns of the testimonials table are stripped: such extra keys give the same record |
| Schema.ParseContact | shared/schema.ts:67-78 | the contact insert schema checks types only: strings, plus a boolean agreement flag; failures are reported per field |
| Schema.ContactToJson | shared/schema.ts:78 | every contact submission round-trips through its JSON body |
| Schema.ContactExtraKeys | shared/schema.ts:67-78 | keys that are not columns of the contact_forms table are stripped: such extra keys give the same record |
| Storage.Values | server/storage.ts:290 | `Array.from(map.values())` over ids lo..hi-1 lists the stored values in id order |
| Storage.ValuesAppend | server/storage.ts:339-350 | storing under the next id appends that record to the listing and keeps the earlier ones |
| Storage.SeedRatingsFitColumn | shared/schema.ts:13 | every seeded average rating fits `decimal(3, 1)` |
| Storage.MatchingMembers | server/storage.ts:290-306 | the query keeps a resource exactly when it passes every supplied filter |
| Storage.MatchingAppend | server/storage.ts:290-306 | the query keeps listing order: it distributes over concatenation |
| Storage.UnfilteredQuery | server/storage.ts:292-306 | with no filter supplied (absent or empty), every resource is returned in order |
| Storage.EmptySearchIsNoFilter | server/storage.ts:300 | an empty search text is the same query as no search text |
| Storage.FilterChain | server/storage.ts:290-306 | filtering by level, then type, then search gives exactly the specification's matching list |
| Storage.FilterResources | server/storage.ts:290-306 | the successive reassignments of `filteredResources` compute that matching list |
| Storage.Slice | server/storage.ts:308-311 | JavaScript `slice` with non-negative bounds: the end is cut to the length, and the items come from the start onward |
| Storage.Page | server/storage.ts:308-311 | page p holds at most perPage items, namely the matches from (p-1)·perPage onward; a page past the end is empty, and a full page is full |
| Storage.PageIsContiguous | server/storage.ts:308-311 | a page is one contiguous run of the matches, from (page-1)·perPage for perPage items, both ends cut to the number of matches |
| Storage.PagesConcatenate | server/storage.ts:308-311 | pages 1..n, one after another, are exactly the first n·perPage matches |
| Storage.SearchIgnoresCase | server/storage.ts:300-306 | the search ignores the case of its text |
| Storage.SearchIsSubstring | server/storage.ts:300-306 | a non-empty search matches exactly when its lowered text occurs in the lowered title or the lowered description |
| Storage.Numbered | server/storage.ts:174-177 | seeding numbers the articles 1, 2, 3, … in array order and keeps their other fields |
| Storage.SeedSpellings | server/storage.ts:72-172 | every seeded level is "Beginner", "Intermediate" or "Advanced", and every seeded type is "Guide" or "Case Study" |
| Storage.SeededLevelSpelling | server/storage.ts:292-294 | exact, case-sensitive matching: the level "beginner" that the footer sends matches no seeded article |
| Storage.SeededTypeSpelling | server/storage.ts:296-298 | the plural type "Guides" that the resources page sends matches no seeded article |
| Storage.SeededFilterExact | server/storage.ts:72-172 | the exact spellings match: "Beginner" gives articles 1 and 4, and "Guide" gives five articles |
| Storage.MemStorage.constructor | server/storage.ts:55-67 | a fresh store holds six articles with ids 1–6 (next id 7), three testimonials with ids 1–3 (next id 4), four comparisons, four downloads and no contacts |
| Storage.MemStorage.SeedData | server/storage.ts:70-280 | seeding an empty store numbers every table from 1 in array order and sets each counter one past the last id |
| Storage.MemStorage.StoreResources | server/storage.ts:174-177 | the resources loop stores record k under id k and leaves the counter at |seed|+1 |
| Storage.MemStorage.StoreStrategies | server/storage.ts:211-215 | the comparisons loop keys record k by id k |
| Storage.MemStorage.StoreDownloadables | server/storage.ts:245-249 | the downloads loop keys record k by id k |
| Storage.MemStorage.StoreTestimonials | server/storage.ts:276-279 | the testimonials loop stores record k under id k and leaves the counter at |seed|+1 |
| Storage.MemStorage.GetResources | server/storage.ts:283-314 | total is the number of matches before paging, and the result is the requested page of the matches in insertion order |
| Storage.MemStorage.GetResourceById | server/storage.ts:316-318 | the stored record, carrying that id, exactly for ids 1..next-1; otherwise nothing; no state changes |
| Storage.MemStorage.GetStrategyComparisons | server/storage.ts:321-323 | the four comparisons, in id order |
| Storage.MemStorage.GetDownloadableResources | server/storage.ts:326-328 | the four downloads, in id order |
| Storage.MemStorage.GetDownloadableResourceById | server/storage.ts:330-332 | the stored download exactly for ids 1..4; otherwise nothing |
| Storage.MemStorage.GetTestimonials | server/storage.ts:335-337 | every testimonial, oldest first, with ids 1, 2, 3, … |
| Storage.MemStorage.CreateTestimonial | server/storage.ts:339-350 | the record takes the current counter as its id, under a key not yet used; the counter grows by one; the record is last in the listing; every other table and counter is unchanged |
| Storage.MemStorage.CreateContact | server/storage.ts:353-364 | the same for contacts, on their own table and counter |
| Storage.TestimonialIdsIncrease | server/storage.ts:339-350 | ids handed out by the counter strictly increase along the listing, so they are unique |
| Storage.ContactIdsIncrease | server/storage.ts:353-364 | the same for contacts |
| Strategy.GenerateStrategy | server/storage.ts:367-470 | every result is one of the six templates (id 1–6) with exactly four recommendations |
| Strategy.StrategyChoice | server/storage.ts:367-470 | both directions, rule by rule: Immediate/Quick gives 1 (Extensive), 2 (Moderate), otherwise 3; Same day gives 4 above 60, otherwise 5; anything else gives 6 |
| Strategy.StrategyIgnoresSize | server/storage.ts:367-470 | the organisation size never changes the result |
| Strategy.StrategyDeterminedById | server/storage.ts:374-466 | the id determines the whole template, and every template conforms to the response schema |
| Routes.QueryOr | server/routes.ts:10-14 | a present, non-empty query value is used, and otherwise the fallback |
| Routes.SkillFilter | server/routes.ts:10-19 | no skill filter exactly when the value is absent, empty or "All Levels"; otherwise the value verbatim |
| Routes.TypeFilter | server/routes.ts:11-19 | no type filter exactly when the value is absent, empty or "All Types"; otherwise the value verbatim |
| Routes.DefaultPaging | server/routes.ts:13-14 | without page parameters, page 1 of 6 |
| Routes.PageParameterRead | server/routes.ts:13-14 | a decimal page parameter is read as its number |
| Routes.EmptyQueryListsAll | server/routes.ts:9-28 | an empty query lists every resource, unfiltered (search "" is no filter) |
| Routes.ListResources | server/routes.ts:9-28 | status 200 with the requested page of the matches, the match total, the page and perPage |
| Routes.GetResource | server/routes.ts:30-42 | 200 with the stored record when the id text names one, else 404 "Resource not found" |
| Routes.ListStrategies | server/routes.ts:45-52 | 200 with the four stored comparisons in id order |
| Routes.ListDownloadables | server/routes.ts:55-62 | 200 with the four stored downloads in id order |
| Routes.Download | server/routes.ts:64-85 | 200 with "Download started" and only the name and type, else 404 "Resource not found" |
| Routes.ListTestimonials | server/routes.ts:88-95 | 200 with every testimonial in insertion order |
| Routes.PostTestimonial | server/routes.ts:97-108 | a conforming body gives 201, the record appended with the next id and the counter advanced; every other table and counter is unchanged; any other body gives 400 with the schema's issues and leaves the store unchanged |
| Routes.PostContact | server/routes.ts:111-122 | the same for contacts: 201 with the record appended under the next id, the counter advanced and every other table and counter unchanged, or 400 with the issues and the store unchanged |
| Routes.GeneratePlan | server/routes.ts:125-136 | the default status 200 with a template exactly when the body conforms, else 400 "Invalid strategy request" |
| Routes.GeneratePlanFromRecord | server/routes.ts:125-136 | any request record posted as JSON, with any extra keys, gets the template the engine generates for it |
| RiskAssessment.MatrixTotal | client/src/components/ui/risk-assessment-tool.tsx:125-161 | every cell for 1..5 × 1..5 holds one of the five levels; (1,1) is Very Low and (5,5) is Very High |
| RiskAssessment.MatrixSymmetric | client/src/components/ui/risk-assessment-tool.tsx:125-161 | impact and likelihood can be swapped |
| RiskAssessment.MatrixMonotone | client/src/components/ui/risk-assessment-tool.tsx:125-161 | raising either argument never lowers the level |
| RiskAssessment.RiskLevelClass | client/src/components/ui/risk-assessment-tool.tsx:218-233 | grey exactly for text that is not one of the five levels |
| RiskAssessment.CellColorsAgree | client/src/components/ui/risk-assessment-tool.tsx:125-161 | each cell's colour is `getRiskLevelClass` of its level |
| RiskAssessment.Selected | client/src/components/ui/risk-assessment-tool.tsx:188 | the result holds the checked risks and nothing else |
| RiskAssessment.SelectedSingle | client/src/components/ui/risk-assessment-tool.tsx:188 | one risk is kept exactly when it is checked |
| RiskAssessment.SelectedAppend | client/src/components/ui/risk-assessment-tool.tsx:188 | the filter distributes over concatenation, so with SelectedSingle it keeps exactly the checked risks, in checklist order, each once |
| RiskAssessment.TotalScoreBounds | client/src/components/ui/risk-assessment-tool.tsx:196-199 | n in-scale risks total between n and 25n |
| RiskAssessment.RoundedMean | client/src/components/ui/risk-assessment-tool.tsx:201 | `Math.round(total / n)`, rounding half up: the result r satisfies r − ½ ≤ total/n < r + ½ |
| RiskAssessment.RoundedMeanBounds | client/src/components/ui/risk-assessment-tool.tsx:196-202 | the score of a non-empty selection lies in 1..25 |
| RiskAssessment.ScoreBand | client/src/components/ui/risk-assessment-tool.tsx:205-213 | both directions: below 6 Low, below 12 Medium, below 20 High, otherwise Very High |
| RiskAssessment.ScalesDisagree | client/src/components/ui/risk-assessment-tool.tsx:205-206 | one risk at (5,1) is "Medium" in the matrix (line 155) but gets a score of 5, which is "Low" |
| RiskAssessment.BusinessAdvice | client/src/components/ui/risk-assessment-tool.tsx:239-254 | two recommendations for each of the five business types, none otherwise |
| RiskAssessment.RiskAdvice | client/src/components/ui/risk-assessment-tool.tsx:261-275 | one recommendation for each of the six listed ids, none for the other three |
| RiskAssessment.HighRiskIds | client/src/components/ui/risk-assessment-tool.tsx:257-259 | at most one id per risk |
| RiskAssessment.HighRiskIdsSingle | client/src/components/ui/risk-assessment-tool.tsx:257-259 | one risk gives its id exactly when it is checked and its impact × likelihood exceeds 15 |
| RiskAssessment.HighRiskIdsAppend | client/src/components/ui/risk-assessment-tool.tsx:257-259 | the high-risk filter distributes over concatenation, so with HighRiskIdsSingle it keeps exactly those ids, in checklist order |
| RiskAssessment.HighRiskAdviceAtMost | client/src/components/ui/risk-assessment-tool.tsx:257-275 | keeping only the high risks never adds recommendations |
| RiskAssessment.ChecklistAdvice | client/src/components/ui/risk-assessment-tool.tsx:261-275 | the nine scenarios yield at most six recommendations |
| RiskAssessment.EnabledHasSelection | client/src/components/ui/risk-assessment-tool.tsx:406 | an enabled Calculate button always leads to a completed assessment |
| RiskAssessment.InitialWellFormed | client/src/components/ui/risk-assessment-tool.tsx:49-122 | the initial checklist holds the nine scenarios with in-scale sliders |
| RiskAssessment.Updated | client/src/components/ui/risk-assessment-tool.tsx:163-185 | the mapped copy changes only the risk with the given id |
| RiskAssessment.UpdatedWellFormed | client/src/components/ui/risk-assessment-tool.tsx:163-185 | an in-scale edit keeps the checklist well formed |
| RiskAssessment.Unchecked | client/src/components/ui/risk-assessment-tool.tsx:400-403 | Reset unchecks every risk and changes nothing else |
| RiskAssessment.UncheckedWellFormed | client/src/components/ui/risk-assessment-tool.tsx:400-403 | after Reset the checklist is well formed and nothing is selected |
| RiskAssessment.RiskAssessmentTool.constructor | client/src/components/ui/risk-assessment-tool.tsx:42-122 | no business type, no result, and the initial checklist |
| RiskAssessment.RiskAssessmentTool.SetBusinessType | client/src/components/ui/risk-assessment-tool.tsx:305-309 | the select box sets the business type |
| RiskAssessment.RiskAssessmentTool.HandleRiskToggle | client/src/components/ui/risk-assessment-tool.tsx:163-169 | only the `checked` field of that risk changes |
| RiskAssessment.RiskAssessmentTool.HandleImpactChange | client/src/components/ui/risk-assessment-tool.tsx:171-177 | only the impact of that risk changes |
| RiskAssessment.RiskAssessmentTool.HandleLikelihoodChange | client/src/components/ui/risk-assessment-tool.tsx:179-185 | only the likelihood of that risk changes |
| RiskAssessment.RiskAssessmentTool.CalculateRisk | client/src/components/ui/risk-assessment-tool.tsx:187-216 | with nothing checked, the assessment is incomplete and the old score and level are kept; otherwise the score is the rounded mean of the products, the level is its band, and the assessment is complete |
| RiskAssessment.RiskAssessmentTool.GetRecommendations | client/src/components/ui/risk-assessment-tool.tsx:235-278 | the business advice, then the advice for each high risk in checklist order; at most eight items |
| RiskAssessment.RiskAssessmentTool.Reset | client/src/components/ui/risk-assessment-tool.tsx:400-403 | every risk is unchecked, impacts and likelihoods are kept, and the result is hidden |
| RiskAssessment.SumOfProducts | client/src/components/ui/risk-assessment-tool.tsx:196-199 | the `forEach` total equals the sum of impact × likelihood |
| RiskAssessment.AppendAdvice | client/src/components/ui/risk-assessment-tool.tsx:257-275 | the pushes append each high risk's advice, in order |
| RiskAssessment.RecommendationsAtMostEight | client/src/components/ui/risk-assessment-tool.tsx:235-278 | two for the business, and at most six for the nine risks |
| CostCalculator.FindTier | client/src/components/ui/cost-calculator.tsx:151-153 | `find` returns the first tier containing the volume, and nothing exactly when no tier contains it |
| CostCalculator.TiersPartition | client/src/components/ui/cost-calculator.tsx:142-147 | every volume ≥ 0 lies in exactly one tier, and a negative volume lies in none |
| CostCalculator.DiscountByVolume | client/src/components/ui/cost-calculator.tsx:142-155 | 0, 10, 15 or 20 percent by tier, and 0 for a negative volume |
| CostCalculator.DiscountMonotone | client/src/components/ui/cost-calculator.tsx:142-155 | a larger volume never gets a smaller discount |
| CostCalculator.RetentionShares | client/src/components/ui/cost-calculator.tsx:168-192 | each retention band's shares sum to 10 tenths |
| CostCalculator.RetentionShiftsToArchive | client/src/components/ui/cost-calculator.tsx:168-192 | longer retention moves data from hot storage towards the archive |
| CostCalculator.RtoAdjustment | client/src/components/ui/cost-calculator.tsx:195-205 | an RTO adjustment sums to zero and moves data only towards the hot and warm tiers |
| CostCalculator.RtoAdjustmentCases | client/src/components/ui/cost-calculator.tsx:195-205 | "0h" and "1h" add (+2, +1, −1, −2), "4h" adds (+1, +1, −1, −1), and every other RTO adds nothing |
| CostCalculator.DistributionBounds | client/src/components/ui/cost-calculator.tsx:162-216 | after clamping, hot and warm are at least 1, cold and archive are at least 0, and the total is 10..12, so the normalising divisor is positive |
| CostCalculator.ClampedTotal | client/src/components/ui/cost-calculator.tsx:208-209 | the clamped total exceeds 10 by exactly the archive deficit |
| CostCalculator.ColdNeverClamped | client/src/components/ui/cost-calculator.tsx:208-209 | the cold clamp never takes effect |
| CostCalculator.ArchiveClampCases | client/src/components/ui/cost-calculator.tsx:208-209 | the archive clamp takes effect exactly for retention ≤ 7 with 0h/1h/4h and for retention in 8..30 with 0h/1h |
| CostCalculator.StorageShares | client/src/components/ui/cost-calculator.tsx:158-209 | the step-by-step assignments compute the specified shares, within the bounds above |
| CostCalculator.BackupFrequencies | client/src/components/ui/cost-calculator.tsx:88-96 | each of the seven RPOs has a frequency (1, 2, 4, 24, 96, 288, 8640 per day); the frequencies strictly increase as the RPO shortens, and each is one backup per interval |
| CostCalculator.KeyFromName | client/src/components/ui/cost-calculator.tsx:670 | a name whose first word lowers to `key` gets the switch key `key` |
| CostCalculator.SwitchKeyMatches | client/src/components/ui/cost-calculator.tsx:670 | each item's switch key equals the include key it reads: storage, backup, recovery, network, support |
| CostCalculator.Item | client/src/components/ui/cost-calculator.tsx:259-300 | an item's value is its base cost when its flag is set and 0 otherwise; yearly is 12 × monthly |
| CostCalculator.CostItems | client/src/components/ui/cost-calculator.tsx:259-300 | the five items, in order |
| CostCalculator.MonthlyTotalOfIncluded | client/src/components/ui/cost-calculator.tsx:305 | the monthly sum counts exactly the included components |
| CostCalculator.SwitchOffRemovesContribution | client/src/components/ui/cost-calculator.tsx:259-305 | switching a component off lowers the sum by exactly its contribution |
| CostCalculator.NothingIncludedCostsNothing | client/src/components/ui/cost-calculator.tsx:259-305 | with every switch off the sum is 0 |
| CostCalculator.TotalStorageCost | client/src/components/ui/cost-calculator.tsx:238-241 | the `forEach` total equals the sum of amount × price |
| CostCalculator.StorageCostNonNegative | client/src/components/ui/cost-calculator.tsx:238-241 | non-negative amounts at non-negative prices total a non-negative sum |
| CostCalculator.Calculator.constructor | client/src/components/ui/cost-calculator.tsx:56-70 | the default inputs, with all five components included |
| CostCalculator.Calculator.HandleIncludeCostChange | client/src/components/ui/cost-calculator.tsx:332-337 | only the given key changes |
| CostCalculator.Calculator.ToggleItemSwitch | client/src/components/ui/cost-calculator.tsx:665-672 | an item's switch sets that item's own include flag and keeps the record to the five keys |
| PlanningTool.DataVolumeLabelByMarks | client/src/components/ui/planning-tool.tsx:62-68 | the label is the tick label of the band the value falls in: below 20 "<1TB", below 40 "5TB", below 60 "10TB", below 80 "50TB", otherwise "100TB+" |
| PlanningTool.DataVolumeLabelMonotone | client/src/components/ui/planning-tool.tsx:62-68 | moving the slider up never moves the label down the list |
| PlanningTool.RequestBodyKeys | client/src/components/ui/planning-tool.tsx:53-60 | the request has exactly the four request-schema fields |
| PlanningTool.RequestBodyParses | client/src/components/ui/planning-tool.tsx:53-60 | the server reads the request back as the tool's inputs, the first slider value as dataVolume |
| PlanningTool.RequestBodyWithoutVolume | client/src/components/ui/planning-tool.tsx:53-60 | with an empty slider list, only dataVolume is reported |
| PlanningTool.PlannerResponse | client/src/components/ui/planning-tool.tsx:53-60 | the server answers with the template for the inputs, or 400 without a slider value |
| PlanningTool.RtoOptionsRoute | client/src/components/ui/planning-tool.tsx:11-17 | the first two RTO options take the Immediate/Quick branch, the third the Same day branch, and the last two the basic branch |
| PlanningTool.PlanForOptions | client/src/components/ui/planning-tool.tsx:11-18 | the template id for every offered RTO × budget combination, whatever the size and volume |
| PlanningTool.DefaultsGiveHybridCloud | client/src/components/ui/planning-tool.tsx:21-24 | the defaults get template 2, "Hybrid Cloud Recovery" |
| PlanningTool.LimitedFastGivesPrioritized | client/src/components/ui/planning-tool.tsx:11-18 | "Limited" with a fast RTO gets template 3, "Prioritized Local Recovery" |
| ResourcesPage.QueryPart | client/src/pages/resources.tsx:20 | the query part never contains `?` |
| ResourcesPage.QueryPartOf | client/src/pages/resources.tsx:20 | the query part of path?query is the query, and a path without `?` has an empty one |
| ResourcesPage.OrDefault | client/src/pages/resources.tsx:21-23 | a present non-empty value, otherwise the fallback |
| ResourcesPage.InitialFilters | client/src/pages/resources.tsx:20-23 | the initial level and type are never empty |
| ResourcesPage.NoQueryDefaults | client/src/pages/resources.tsx:20-23 | a location without a query gives "All Levels", "All Types" and "" |
| ResourcesPage.SyncParams | client/src/pages/resources.tsx:41-44 | the sync writes no parameter exactly when every filter has its default |
| ResourcesPage.SyncParamsGet | client/src/pages/resources.tsx:41-44 | level, type and search are each written exactly when they differ from their defaults |
| ResourcesPage.SyncUrlDefault | client/src/pages/resources.tsx:46 | the URL is plain "/resources" exactly when every filter has its default |
| ResourcesPage.SyncRoundTrip | client/src/pages/resources.tsx:20-46 | reading back the location the sync wrote gives the same filters |
| ResourcesPage.SyncStable | client/src/pages/resources.tsx:40-48 | loading the page at a synced location leaves the location unchanged |
| ResourcesPage.TotalPages | client/src/pages/resources.tsx:37 | `ceil(total/9)`: the fewest pages of nine that hold every match |
| ResourcesPage.ShowLoadMoreIffMoreMatches | client/src/pages/resources.tsx:188 | "Load More" shows exactly while the pages so far hold fewer than all the matches |
| ResourcesPage.ResourceBrowser.constructor | client/src/pages/resources.tsx:17-28 | the filters come from the location, the page is 1, and the location is synced |
| ResourcesPage.ResourceBrowser.SkillClick | client/src/pages/resources.tsx:50-53 | a new skill keeps the other filters and resets the page to 1 |
| ResourcesPage.ResourceBrowser.ResourceTypeChange | client/src/pages/resources.tsx:55-58 | a new type keeps the other filters and resets the page to 1 |
| ResourcesPage.ResourceBrowser.SearchChange | client/src/pages/resources.tsx:60-62 | typing changes the search text and keeps the page |
| ResourcesPage.ResourceBrowser.SearchSubmit | client/src/pages/resources.tsx:64-67 | submitting resets the page to 1 and changes nothing else |
| ResourcesPage.ResourceBrowser.LoadMore | client/src/pages/resources.tsx:69-71 | the page grows by exactly 1 |
| ResourcesPage.ResourceBrowser.ClearFilters | client/src/pages/resources.tsx:163-169 | all three filters return to their defaults, the page is kept, and the location is "/resources" |
| TestimonialsSection.ReviewIssuesIffInvalid | client/src/components/ui/testimonials.tsx:18-23 | no issue exactly when name and company have at least 2 characters, the rating is in 1..5 and the comment has at least 10; each failing field is named |
| TestimonialsSection.DefaultReviewInvalid | client/src/components/ui/testimonials.tsx:35-43 | the empty form is refused for its name, company and comment, not its rating |
| TestimonialsSection.Submission | client/src/components/ui/testimonials.tsx:67-69 | a body is posted exactly when the form is valid |
| TestimonialsSection.ValidReviewAccepted | client/src/components/ui/testimonials.tsx:45-48 | a valid review with a whole rating is accepted by the server as the same record |
| TestimonialsSection.RatingBoundOnlyInClient | client/src/components/ui/testimonials.tsx:18-23 | the server accepts a rating of 7 that the form refuses (server schema: shared/schema.ts line 57) |
| TestimonialsSection.RenderStars | client/src/components/ui/testimonials.tsx:71-82 | five stars are always drawn |
| TestimonialsSection.RenderStarsFilled | client/src/components/ui/testimonials.tsx:71-82 | exactly min(max(rating, 0), 5) stars are filled, with no gaps |
| TestimonialsSection.PickerStars | client/src/components/ui/testimonials.tsx:181-196 | the picker draws five stars |
| TestimonialsSection.PickStar | client/src/components/ui/testimonials.tsx:181-196 | clicking star r sets a rating the schema accepts, and the picker then shows r stars |
| TestimonialsSection.PickerMatchesRow | client/src/components/ui/testimonials.tsx:181-196 | for a whole rating, the picker and a testimonial's row fill the same stars |
| TestimonialsSection.ReviewDialog.constructor | client/src/components/ui/testimonials.tsx:28-43 | the dialog starts closed with the default form |
| TestimonialsSection.ReviewDialog.SetOpen | client/src/components/ui/testimonials.tsx:132 | opening or closing the dialog keeps the form |
| TestimonialsSection.ReviewDialog.Edit | client/src/components/ui/testimonials.tsx:188 | an edit changes the form, not the open flag |
| TestimonialsSection.ReviewDialog.SubmitSucceeded | client/src/components/ui/testimonials.tsx:49-52 | success closes the dialog and resets the form |
| ContactForm.AreasOfInterestDistinct | client/src/components/ui/contact-form.tsx:28-34 | five areas, all different |
| ContactForm.ContactIssuesIffInvalid | client/src/components/ui/contact-form.tsx:15-24 | no issue exactly when the form is valid; each of the name, e-mail, organisation and message is reported exactly when it fails; the area and the agreement flag are never reported |
| ContactForm.AreaAndAgreementFree | client/src/components/ui/contact-form.tsx:19-23 | the area, including the empty default, and the flag never decide validity |
| ContactForm.DefaultContactInvalid | client/src/components/ui/contact-form.tsx:40-50 | the empty form is refused, because the name is too short |
| ContactForm.Submission | client/src/components/ui/contact-form.tsx:73-75 | a body is posted exactly when the form is valid |
| ContactForm.BodyAcceptedByServer | client/src/components/ui/contact-form.tsx:52-55 | the server reads back any posted body as the same record, because its schema checks types only |
| ContactForm.ContactFormState.constructor | client/src/components/ui/contact-form.tsx:37-50 | not submitted, with the default values |
| ContactForm.ContactFormState.Edit | client/src/components/ui/contact-form.tsx:40-50 | an edit changes the values, not the flag |
| ContactForm.ContactFormState.SubmitSucceeded | client/src/components/ui/contact-form.tsx:56-58 | success sets the flag and resets the form |
| ContactForm.ContactFormState.SendAnother | client/src/components/ui/contact-form.tsx:106 | "Send Another Request" clears the flag and keeps the values |
| Navbar.RootOnlyExact | client/src/components/ui/navbar.tsx:8 | "/" is active only on "/" |
| Navbar.ActiveIffPrefix | client/src/components/ui/navbar.tsx:8 | every other link is active exactly where the location starts with it, and every link is active on itself |
| Navbar.NoSeparatorCheck | client/src/components/ui/navbar.tsx:8 | "/resources" is active on "/resources/3" and also on "/resourcesX" |
| Navbar.AtMostOneLinkActive | client/src/components/ui/navbar.tsx:51-54 | no two of the bar's links are active together |
| Navbar.Toggle | client/src/components/ui/navbar.tsx:24-28 | the toggle negates the flag |
| Navbar.ToggleTwice | client/src/components/ui/navbar.tsx:24-28 | two toggles restore the flag |
| PlanningToolsPage.HashOf | client/src/pages/planning-tools.tsx:16 | the fragment never contains `#` |
| PlanningToolsPage.HashAfter | client/src/pages/planning-tools.tsx:16 | the fragment is the text after the first `#`; without `#` there is none |
| PlanningToolsPage.HashBetween | client/src/pages/planning-tools.tsx:16 | a second `#` ends the fragment |
| PlanningToolsPage.SelectTab | client/src/pages/planning-tools.tsx:15-23 | a fragment naming a tab selects it; an absent, empty or unknown one keeps the tab |
| PlanningToolsPage.TriggerTab | client/src/pages/planning-tools.tsx:37-50 | a trigger always supplies a valid tab |
| PlanningToolsPage.TabAlwaysValid | client/src/pages/planning-tools.tsx:12-50 | the shown tab is always one of the four, starting from "strategy-builder" |
| PlanningToolsPage.TabHasNoHash | client/src/pages/planning-tools.tsx:18-19 | no tab name contains `#` |
| PlanningToolsPage.DirectLink | client/src/pages/planning-tools.tsx:15-23 | a location whose fragment is a tab name shows that tab |

## Left out

- Floating-point cost formulas:
  - the regional multipliers, `Math.log10`, and the infrastructure, network and support costs (`client/src/components/ui/cost-calculator.tsx:227-256`);
  - the normalising division of the shares and the rounding of GB amounts (212-223);
  - the discounted totals and the number formatting.
  
  The component base costs are a `ComponentCosts` parameter. Prices and amounts are `real`.
- CostCalculator.VolumeDiscount: returns the whole percentage (0, 10, 15, 20) rather than the source's fraction `percentage / 100`.
- CostCalculator.Calculator.constructor: `growthRate` exists in the source but is not modelled. `region` and `backupType` are stored but feed only the cost formulas, which are left out.
- Rendering and framework plumbing are left out: JSX, React hooks and effects, react-query fetching and caching, toasts, dialogs, `window.print`, and the Express server set-up. Asynchronous handlers are plain calls. The client's `apiRequest` transport and query-key URL building (`lib/queryClient`) are not part of this model.
- The 500 responses of the routes are left out. They follow exceptions that the in-memory store never throws.
- Timestamps (`new Date().toISOString()`) are passed in as opaque strings (`now`).
- Schema.ParseTestimonial and Schema.ParseContact: both model the insert schemas as requiring only the submitted fields. The other declared columns (`id`, and `date` or `createdAt`) are not checked: whether the drizzle-derived schemas demand them or check their types is not modelled, so a body carrying such a key is outside TestimonialExtraKeys and ContactExtraKeys. Issue message texts are not modelled; an issue is the field's path and its expected type.
- Schema.ParseContact: the client's e-mail rule is a parameter (`isEmail`) of the contact form model, because it belongs to the validator library.
- Storage.MemStorage.GetResources and Routes.ListResources: these require a page and a perPage of at least 1. JavaScript `slice` with negative or NaN bounds, which `parseInt` can produce for page 0 or non-numeric text, is not modelled.
- Routes.QueryOr: Express query values are modelled as strings only (`Routes.Query`). `?type=a&type=b` gives an array, and `?a[b]=c` an object, which the `as string` casts of `server/routes.ts:10-14` do not convert. Such a `skillLevel` or `type` becomes a filter that matches no article (`===` against a string, `server/storage.ts:293-298`); such a `search` has no `toLowerCase` and the route answers 500; such a `page` or `perPage` is read by `parseInt` through its string form.
- TestimonialsSection.ReviewIssuesIffInvalid and ContactForm.ContactIssuesIffInvalid: `|s|` counts characters (code points), while zod's `.min(n)` counts UTF-16 code units (`client/src/components/ui/testimonials.tsx:19-22`, `client/src/components/ui/contact-form.tsx:16-22`). A name of one character outside the Basic Multilingual Plane, such as one emoji, passes `min(2)` in the client but fails in the model.
- Routes.Download: the body models `{message, resource: {name, type}}` as one flat datatype value.
- Strings.ToLower: lowers ASCII letters only; Unicode case mapping is not modelled. UrlParams percent-encodes only characters below 128 and leaves every character at or above 128 unencoded, where `URLSearchParams` would write its UTF-8 bytes. Decoding reads `%HH` with HH at or above 80 as the code point U+00HH, not as one byte of a UTF-8 sequence.
- Strings.ParseInt: handles a leading sign and decimal digits only. Leading whitespace, hexadecimal prefixes and values beyond 2^53 are not modelled.
- The location handling of the client router (`useLocation`, `setLocation`) is taken as a plain string field, updated at once by each resources-page handler. Effect timing is not modelled. ResourcesPage.InitialFilters and PlanningToolsPage.HashOf assume that the location string includes the query and the fragment; the router library is not part of this model.
- The planning tool's setters are plain record updates. The slider's value list is kept as a sequence, so an empty list is a possible input.
- JSON numbers are `real`, and an integer is a real with no fractional part.
- The seed records, the six templates and the recommendation texts are reproduced verbatim. Of the seeded articles only the title, description, level and type take part in any stated property; the article bodies are treated as opaque text.
- Presentation-only files are not part of this model: the footer, hero, home page, app shell, resource card, resource details, resource library, comparison matrix, resource filters, and the shared client types.
