/**
 * The in-memory catalogue store: five keyed tables, three id counters,
 * seeded on construction; a filter-then-page query over the resources,
 * id lookups, and append-only creation of testimonials and contacts.
 *
 * A JavaScript `Map` lists its values in insertion order. Every insertion
 * here uses a key one above all keys present (a counter), so insertion
 * order is ascending key order; `Values(m, 1, next)` lists them so.
 */
module Storage {
  import opened Wrappers
  import opened Strings
  import opened Schema

  // ---------- maps keyed 1 .. next-1 ----------

  /** The keys of `m` are exactly the ids a counter starting at 1 has issued before reaching `next`. */
  ghost predicate KeysUpTo<T>(m: map<int, T>, next: int) {
    forall k :: k in m <==> 1 <= k < next
  }

  /** The values stored under keys lo .. hi-1, in key order. */
  function Values<T>(m: map<int, T>, lo: int, hi: int): (vs: seq<T>)
    requires forall k :: lo <= k < hi ==> k in m
    ensures |vs| == if lo <= hi then hi - lo else 0
    ensures forall i :: 0 <= i < |vs| ==> vs[i] == m[lo + i]
    decreases hi - lo
  {
    if hi <= lo then [] else Values(m, lo, hi - 1) + [m[hi - 1]]
  }

  /** Storing at the next key appends to the listing and leaves the earlier values in place. */
  lemma ValuesAppend<T>(m: map<int, T>, next: int, v: T)
    requires 1 <= next
    requires forall k :: 1 <= k < next ==> k in m
    ensures Values(m[next := v], 1, next + 1) == Values(m, 1, next) + [v]
  {
    var after, before := Values(m[next := v], 1, next + 1), Values(m, 1, next) + [v];
    assert |after| == |before|;
    forall i | 0 <= i < |after| ensures after[i] == before[i] {
      if i < next - 1 {
        assert after[i] == m[next := v][1 + i] == m[1 + i];
      }
    }
  }

  // ---------- seed data ----------

  /** The seeded articles; each `id` here is a placeholder that seeding overwrites with the counter. */
  const SeedResources: seq<Resource> := [
    ResourceFundamentals, ResourceBackupOptimization, ResourceZeroDowntime,
    ResourceTerminology, ResourceCloudRecovery, ResourceMultiSite
  ]

  const ResourceFundamentals: Resource :=
    Resource(0, "Disaster Recovery Fundamentals",
      "Learn the basics of disaster recovery planning and implementation for enterprise environments.",
      "<p>This comprehensive guide covers the fundamental principles of disaster recovery planning...</p>",
      "Beginner", "Guide", 4.2, 42, "2023-06-12", 25, "1-2 weeks",
      ["Basic IT knowledge", "Familiarity with business operations"],
      [DownloadableFile(1, "DR_Fundamentals_Checklist.pdf", "2.4 MB"), DownloadableFile(2, "Implementation_Timeline.xlsx", "1.1 MB")])

  const ResourceBackupOptimization: Resource :=
    Resource(0, "Backup Strategy Optimization",
      "Techniques for optimizing backup strategies for various enterprise scenarios.",
      "<p>Learn advanced techniques for optimizing your backup strategies...</p>",
      "Intermediate", "Guide", 4.8, 28, "2023-07-03", 35, "2-4 weeks",
      ["Basic backup knowledge", "Some IT infrastructure experience"],
      [DownloadableFile(3, "Backup_Optimization_Template.docx", "3.2 MB")])

  const ResourceZeroDowntime: Resource :=
    Resource(0, "Zero-Downtime Recovery Planning",
      "Advanced techniques for implementing zero-downtime recovery systems in enterprise environments.",
      "<p>Explore cutting-edge techniques for ensuring zero-downtime in your recovery operations...</p>",
      "Advanced", "Guide", 4.9, 16, "2023-08-17", 45, "1-3 months",
      ["Advanced IT knowledge", "Experience with high-availability systems", "Previous DR implementation"],
      [DownloadableFile(4, "Zero_Downtime_Architecture.pdf", "5.7 MB"), DownloadableFile(5, "Implementation_Guide.pdf", "8.2 MB")])

  const ResourceTerminology: Resource :=
    Resource(0, "Backup Terminology Guide",
      "A comprehensive guide to understanding backup and recovery terminology.",
      "<p>Master the language of backup and recovery with this comprehensive terminology guide...</p>",
      "Beginner", "Guide", 3.8, 31, "2023-05-22", 15, "N/A",
      ["None"],
      [DownloadableFile(6, "Backup_Glossary.pdf", "1.3 MB")])

  const ResourceCloudRecovery: Resource :=
    Resource(0, "Cloud-Based Recovery Solutions",
      "Implementation guide for cloud-based disaster recovery solutions.",
      "<p>Discover how to leverage cloud platforms for reliable disaster recovery...</p>",
      "Intermediate", "Guide", 4.5, 19, "2023-07-19", 30, "3-5 weeks",
      ["Cloud platform familiarity", "Basic networking knowledge"],
      [DownloadableFile(7, "Cloud_DR_Checklist.pdf", "2.8 MB")])

  const ResourceMultiSite: Resource :=
    Resource(0, "Multi-Site Recovery Architecture",
      "Advanced architectural patterns for multi-site disaster recovery implementations.",
      "<p>Learn how to design and implement sophisticated multi-site recovery solutions...</p>",
      "Advanced", "Case Study", 5.0, 24, "2023-08-05", 50, "2-4 months",
      ["Enterprise architecture experience", "Advanced networking", "Multiple DC management"],
      [DownloadableFile(8, "Architecture_Diagrams.pdf", "7.4 MB"), DownloadableFile(9, "Implementation_Roadmap.xlsx", "2.1 MB")])

  /** The number of seeded comparisons and downloads; those two tables never grow. */
  const StrategyCount := 4
  const DownloadableCount := 4

  const SeedStrategies: seq<StrategyComparison> := [
    StrategyComparison(0, "Local Backup", "1-4 hours", "24 hours", 1, 1),
    StrategyComparison(0, "Cloud Backup", "2-8 hours", "12 hours", 2, 2),
    StrategyComparison(0, "Hybrid Solution", "1-4 hours", "6 hours", 3, 3),
    StrategyComparison(0, "Continuous Replication", "Minutes", "Near zero", 3, 3)
  ]

  const SeedDownloadables: seq<DownloadableResource> := [
    DownloadableResource(0, "Backup Strategy Template",
      "Editable template for creating a comprehensive backup strategy document.",
      "Template", "/downloads/backup-strategy-template.docx"),
    DownloadableResource(0, "TCO Calculator",
      "Excel-based calculator for estimating total cost of ownership for backup solutions.",
      "Calculator", "/downloads/tco-calculator.xlsx"),
    DownloadableResource(0, "Risk Assessment Form",
      "Form template for conducting disaster recovery risk assessments.",
      "Form", "/downloads/risk-assessment-form.pdf"),
    DownloadableResource(0, "Testing Schedule Guide",
      "Guide for creating and maintaining a backup testing schedule.",
      "Guide", "/downloads/testing-schedule-guide.pdf")
  ]

  /** The seeded reviews, all dated with the construction time `now`. */
  function SeedTestimonials(now: string): seq<Testimonial> {
    [Testimonial(0, "Michael Chen", "TechSolutions Inc.", 5, ChenComment, now),
     Testimonial(0, "Sarah Johnson", "Healthcare Partners", 4, JohnsonComment, now),
     Testimonial(0, "David Rodriguez", "Global Finance", 5, RodriguezComment, now)]
  }

  const ChenComment: string :=
    "The disaster recovery resources provided by DisasterReady helped us implement a robust backup strategy that saved our data during a recent outage. The step-by-step guides were invaluable."
  const JohnsonComment: string :=
    "The comparison matrix helped us make an informed decision about which backup strategy would work best for our organization. We were able to clearly see the trade-offs between different approaches."
  const RodriguezComment: string :=
    "As someone new to disaster recovery planning, the beginner resources were exactly what I needed. The interactive planning tool generated a strategy that our management team approved immediately."

  /** Every seeded rating fits the `decimal(3, 1)` column. */
  lemma SeedRatingsFitColumn()
    ensures forall i :: 0 <= i < |SeedResources| ==> IsDecimal3Scale1(SeedResources[i].averageRating)
  {
    forall i | 0 <= i < |SeedResources| ensures IsDecimal3Scale1(SeedResources[i].averageRating) {
      var r := SeedResources[i].averageRating;
      assert r == [4.2, 4.8, 4.9, 3.8, 4.5, 5.0][i];
      assert (r * 10.0).Floor as real == r * 10.0 by {
        assert r * 10.0 == [42.0, 48.0, 49.0, 38.0, 45.0, 50.0][i];
      }
    }
  }

  // ---------- the resource query ----------

  /** A filter argument takes part only when it is present and non-empty (JavaScript truthiness). */
  predicate Supplied(filter: Option<string>) {
    filter.Some? && filter.value != ""
  }

  predicate SkillMatches(r: Resource, skillLevel: Option<string>) {
    Supplied(skillLevel) ==> r.skillLevel == skillLevel.value
  }

  predicate TypeMatches(r: Resource, resourceType: Option<string>) {
    Supplied(resourceType) ==> r.resourceType == resourceType.value
  }

  /** The lowered title or the lowered description contains the lowered search text. */
  predicate Mentions(r: Resource, searchLower: string) {
    Includes(ToLower(r.title), searchLower) || Includes(ToLower(r.description), searchLower)
  }

  predicate SearchMatches(r: Resource, search: Option<string>) {
    Supplied(search) ==> Mentions(r, ToLower(search.value))
  }

  /** A resource matches a query when it passes every supplied filter. */
  predicate Matches(r: Resource, skillLevel: Option<string>, resourceType: Option<string>, search: Option<string>) {
    SkillMatches(r, skillLevel) && TypeMatches(r, resourceType) && SearchMatches(r, search)
  }

  /** The resources a query matches, in listing order: the reference the filter chain is proved against. */
  function Matching(rs: seq<Resource>, skillLevel: Option<string>, resourceType: Option<string>, search: Option<string>): (ms: seq<Resource>)
    ensures |ms| <= |rs|
  {
    if rs == [] then []
    else (if Matches(rs[0], skillLevel, resourceType, search) then [rs[0]] else []) + Matching(rs[1..], skillLevel, resourceType, search)
  }

  /** A query keeps exactly the resources that pass every supplied filter. */
  lemma {:induction false} MatchingMembers(rs: seq<Resource>, skillLevel: Option<string>, resourceType: Option<string>, search: Option<string>)
    ensures forall x :: x in Matching(rs, skillLevel, resourceType, search) <==> x in rs && Matches(x, skillLevel, resourceType, search)
  {
    if rs != [] {
      MatchingMembers(rs[1..], skillLevel, resourceType, search);
      assert rs == [rs[0]] + rs[1..];
    }
  }

  /** One step of the query: the first resource is kept or dropped, then the rest is queried. */
  lemma MatchingCons(r: Resource, t: seq<Resource>, skillLevel: Option<string>, resourceType: Option<string>, search: Option<string>)
    ensures Matching([r] + t, skillLevel, resourceType, search)
      == (if Matches(r, skillLevel, resourceType, search) then [r] else []) + Matching(t, skillLevel, resourceType, search)
  {
    assert ([r] + t)[0] == r && ([r] + t)[1..] == t;
  }

  /** A query keeps the listing order: it distributes over concatenation. */
  lemma {:induction false} MatchingAppend(a: seq<Resource>, b: seq<Resource>, skillLevel: Option<string>, resourceType: Option<string>, search: Option<string>)
    ensures Matching(a + b, skillLevel, resourceType, search) == Matching(a, skillLevel, resourceType, search) + Matching(b, skillLevel, resourceType, search)
  {
    if a == [] {
      assert a + b == b;
    } else {
      var r, t := a[0], a[1..];
      var head := if Matches(r, skillLevel, resourceType, search) then [r] else [];
      assert a == [r] + t;
      assert a + b == [r] + (t + b);
      MatchingCons(r, t + b, skillLevel, resourceType, search);
      MatchingCons(r, t, skillLevel, resourceType, search);
      MatchingAppend(t, b, skillLevel, resourceType, search);
      AppendAssociative(head, Matching(t, skillLevel, resourceType, search), Matching(b, skillLevel, resourceType, search));
    }
  }

  lemma AppendAssociative(x: seq<Resource>, y: seq<Resource>, z: seq<Resource>)
    ensures x + (y + z) == (x + y) + z
  {
  }

  /** A query no resource passes yields nothing. */
  lemma {:induction false} MatchingNone(rs: seq<Resource>, skillLevel: Option<string>, resourceType: Option<string>, search: Option<string>)
    requires forall i :: 0 <= i < |rs| ==> !Matches(rs[i], skillLevel, resourceType, search)
    ensures Matching(rs, skillLevel, resourceType, search) == []
  {
    if rs != [] {
      MatchingNone(rs[1..], skillLevel, resourceType, search);
    }
  }

  /** A query in which no filter is supplied keeps every resource, in order. */
  lemma {:induction false} UnfilteredQuery(rs: seq<Resource>, skillLevel: Option<string>, resourceType: Option<string>, search: Option<string>)
    requires !Supplied(skillLevel) && !Supplied(resourceType) && !Supplied(search)
    ensures Matching(rs, skillLevel, resourceType, search) == rs
  {
    if rs != [] {
      UnfilteredQuery(rs[1..], skillLevel, resourceType, search);
      assert [rs[0]] + rs[1..] == rs;
    }
  }

  /** An empty search text is the same query as no search text. */
  lemma {:induction false} EmptySearchIsNoFilter(rs: seq<Resource>, skillLevel: Option<string>, resourceType: Option<string>)
    ensures Matching(rs, skillLevel, resourceType, Some("")) == Matching(rs, skillLevel, resourceType, None)
  {
    if rs != [] {
      EmptySearchIsNoFilter(rs[1..], skillLevel, resourceType);
    }
  }

  /** `rs.filter(r => r.skillLevel === level)`. */
  function SameLevel(rs: seq<Resource>, level: string): (kept: seq<Resource>)
    ensures |kept| <= |rs|
  {
    if rs == [] then [] else (if rs[0].skillLevel == level then [rs[0]] else []) + SameLevel(rs[1..], level)
  }

  /** `rs.filter(r => r.type === kind)`. */
  function SameType(rs: seq<Resource>, kind: string): (kept: seq<Resource>)
    ensures |kept| <= |rs|
  {
    if rs == [] then [] else (if rs[0].resourceType == kind then [rs[0]] else []) + SameType(rs[1..], kind)
  }

  /** `rs.filter(r => r.title.toLowerCase().includes(searchLower) || r.description.toLowerCase().includes(searchLower))`. */
  function Mentioning(rs: seq<Resource>, searchLower: string): (kept: seq<Resource>)
    ensures |kept| <= |rs|
  {
    if rs == [] then []
    else
      (if Mentions(rs[0], searchLower) then [rs[0]] else []) + Mentioning(rs[1..], searchLower)
  }

  /** The three steps of the query, each applied only when its argument is supplied. */
  function LevelStep(rs: seq<Resource>, skillLevel: Option<string>): seq<Resource> {
    if Supplied(skillLevel) then SameLevel(rs, skillLevel.value) else rs
  }

  function TypeStep(rs: seq<Resource>, resourceType: Option<string>): seq<Resource> {
    if Supplied(resourceType) then SameType(rs, resourceType.value) else rs
  }

  function SearchStep(rs: seq<Resource>, search: Option<string>): seq<Resource> {
    if Supplied(search) then Mentioning(rs, ToLower(search.value)) else rs
  }

  lemma LevelStepCons(r: Resource, t: seq<Resource>, skillLevel: Option<string>)
    ensures LevelStep([r] + t, skillLevel) == (if SkillMatches(r, skillLevel) then [r] else []) + LevelStep(t, skillLevel)
  {
    assert ([r] + t)[0] == r && ([r] + t)[1..] == t;
  }

  lemma TypeStepCons(r: Resource, t: seq<Resource>, resourceType: Option<string>)
    ensures TypeStep([r] + t, resourceType) == (if TypeMatches(r, resourceType) then [r] else []) + TypeStep(t, resourceType)
  {
    assert ([r] + t)[0] == r && ([r] + t)[1..] == t;
  }

  lemma SearchStepCons(r: Resource, t: seq<Resource>, search: Option<string>)
    ensures SearchStep([r] + t, search) == (if SearchMatches(r, search) then [r] else []) + SearchStep(t, search)
  {
    assert ([r] + t)[0] == r && ([r] + t)[1..] == t;
  }

  /** Filtering by level, then type, then search text yields exactly the matching resources, in order. */
  lemma {:induction false} FilterChain(rs: seq<Resource>, skillLevel: Option<string>, resourceType: Option<string>, search: Option<string>)
    ensures SearchStep(TypeStep(LevelStep(rs, skillLevel), resourceType), search) == Matching(rs, skillLevel, resourceType, search)
  {
    if rs != [] {
      var r, t := rs[0], rs[1..];
      FilterChain(t, skillLevel, resourceType, search);
      assert rs == [r] + t;
      var afterLevel := LevelStep(t, skillLevel);
      var afterType := TypeStep(afterLevel, resourceType);
      var head := if Matches(r, skillLevel, resourceType, search) then [r] else [];
      assert Matching(rs, skillLevel, resourceType, search) == head + Matching(t, skillLevel, resourceType, search);
      LevelStepCons(r, t, skillLevel);
      if SkillMatches(r, skillLevel) {
        assert LevelStep(rs, skillLevel) == [r] + afterLevel;
        TypeStepCons(r, afterLevel, resourceType);
        if TypeMatches(r, resourceType) {
          assert TypeStep(LevelStep(rs, skillLevel), resourceType) == [r] + afterType;
          SearchStepCons(r, afterType, search);
          assert Matches(r, skillLevel, resourceType, search) == SearchMatches(r, search);
        } else {
          assert TypeStep(LevelStep(rs, skillLevel), resourceType) == afterType;
          assert head == [];
        }
      } else {
        assert LevelStep(rs, skillLevel) == afterLevel;
        assert head == [];
      }
    }
  }

  /**
   * The filter steps of `getResources`, in the source's order: skill level,
   * then type, then the lowered search text, each only when supplied.
   */
  method FilterResources(all: seq<Resource>, skillLevel: Option<string>, resourceType: Option<string>, search: Option<string>)
    returns (filtered: seq<Resource>)
    ensures filtered == Matching(all, skillLevel, resourceType, search)
  {
    filtered := all;
    if Supplied(skillLevel) {
      filtered := SameLevel(filtered, skillLevel.value);
    }
    assert filtered == LevelStep(all, skillLevel);
    if Supplied(resourceType) {
      filtered := SameType(filtered, resourceType.value);
    }
    assert filtered == TypeStep(LevelStep(all, skillLevel), resourceType);
    if Supplied(search) {
      var searchLower := ToLower(search.value);
      filtered := Mentioning(filtered, searchLower);
    }
    FilterChain(all, skillLevel, resourceType, search);
  }

  /** JavaScript's `s.slice(start, end)` for a non-negative start: indices past the end are cut to the length. */
  function Slice(s: seq<Resource>, start: nat, end: nat): (r: seq<Resource>)
    ensures |r| == if start < end && start < |s| then (if end < |s| then end else |s|) - start else 0
    ensures forall i :: 0 <= i < |r| ==> r[i] == s[start + i]
  {
    var b := if end < |s| then end else |s|;
    if start < b then s[start..b] else []
  }

  /** Page `page` (from 1) of `perPage` items. */
  function Page(rs: seq<Resource>, page: int, perPage: int): (r: seq<Resource>)
    requires page >= 1 && perPage >= 1
    ensures |r| <= perPage
    ensures (page - 1) * perPage >= |rs| ==> r == []
    ensures (page - 1) * perPage + perPage <= |rs| ==> |r| == perPage
    ensures forall i :: 0 <= i < |r| ==> (page - 1) * perPage + i < |rs| && r[i] == rs[(page - 1) * perPage + i]
  {
    var start := (page - 1) * perPage;
    Slice(rs, start, start + perPage)
  }

  lemma PageStartNonNegative(page: int, perPage: int)
    requires page >= 1 && perPage >= 1
    ensures (page - 1) * perPage >= 0
  {
  }

  /** A page is one contiguous run of the input, both ends cut to its length. */
  lemma PageIsContiguous(rs: seq<Resource>, page: int, perPage: int)
    requires page >= 1 && perPage >= 1
    ensures var start := (page - 1) * perPage;
      start >= 0 &&
      Page(rs, page, perPage) == rs[(if start < |rs| then start else |rs|)..(if start + perPage < |rs| then start + perPage else |rs|)]
  {
    PageStartNonNegative(page, perPage);
  }

  /** Consecutive pages follow each other: pages 1..n together are the first n*perPage items. */
  lemma {:induction false} PagesConcatenate(rs: seq<Resource>, n: nat, perPage: int)
    requires perPage >= 1
    ensures Pages(rs, n, perPage) == rs[..if n * perPage < |rs| then n * perPage else |rs|]
  {
    if n > 0 {
      PagesConcatenate(rs, n - 1, perPage);
      var before := (n - 1) * perPage;
      var upto := if n * perPage < |rs| then n * perPage else |rs|;
      var p := Page(rs, n, perPage);
      if before < |rs| {
        assert p == rs[before..upto];
        assert rs[..before] + rs[before..upto] == rs[..upto];
      } else {
        assert p == [];
        assert upto == |rs|;
      }
    }
  }

  function Pages(rs: seq<Resource>, n: nat, perPage: int): seq<Resource>
    requires perPage >= 1
  {
    if n == 0 then [] else Pages(rs, n - 1, perPage) + Page(rs, n, perPage)
  }

  /** Search ignores the case of the search text. */
  lemma SearchIgnoresCase(r: Resource, search: string)
    ensures SearchMatches(r, Some(search)) == SearchMatches(r, Some(ToLower(search)))
  {
    ToLowerIdempotent(search);
    if search == [] {
      assert ToLower(search) == [];
    } else {
      assert |ToLower(search)| > 0;
    }
  }

  /** `Mentions` is substring occurrence in the lowered title or description. */
  lemma MentionsIffOccurs(r: Resource, searchLower: string)
    ensures Mentions(r, searchLower) <==>
      (exists i :: OccursAt(ToLower(r.title), searchLower, i)) || (exists j :: OccursAt(ToLower(r.description), searchLower, j))
  {
    LoweredIncludesIffOccurs(r.title, searchLower);
    LoweredIncludesIffOccurs(r.description, searchLower);
  }

  lemma LoweredIncludesIffOccurs(text: string, searchLower: string)
    ensures Includes(ToLower(text), searchLower) <==> exists i :: OccursAt(ToLower(text), searchLower, i)
  {
    IncludesIffOccurs(ToLower(text), searchLower);
  }

  /** The search matches exactly when the lowered text occurs in the lowered title or description. */
  lemma SearchIsSubstring(r: Resource, search: string)
    requires search != ""
    ensures SearchMatches(r, Some(search)) <==>
      (exists i :: OccursAt(ToLower(r.title), ToLower(search), i)) || (exists j :: OccursAt(ToLower(r.description), ToLower(search), j))
  {
    var sm := Some(search);
    assert sm.value == search;
    assert SearchMatches(r, sm) == Mentions(r, ToLower(search));
    MentionsIffOccurs(r, ToLower(search));
  }

  /** Articles numbered 1, 2, 3, ... in order, as seeding stores them. */
  function Numbered(seed: seq<Resource>): (rs: seq<Resource>)
    ensures |rs| == |seed|
    ensures forall i :: 0 <= i < |rs| ==> rs[i] == seed[i].(id := i + 1)
  {
    seq(|seed|, i requires 0 <= i < |seed| => seed[i].(id := i + 1))
  }

  /** The seeded articles with the ids seeding gives them. */
  function SeededResources(): seq<Resource> {
    Numbered(SeedResources)
  }

  /** Every seeded level is one of the three capitalised levels, and every seeded type is "Guide" or "Case Study". */
  lemma SeedSpellings()
    ensures forall i :: 0 <= i < |SeedResources| ==>
      SeedResources[i].skillLevel in {"Beginner", "Intermediate", "Advanced"} && SeedResources[i].resourceType in {"Guide", "Case Study"}
  {
  }

  /** Matching is exact and case-sensitive: the lower-case level "beginner" matches no seeded article. */
  lemma SeededLevelSpelling()
    ensures Matching(SeededResources(), Some("beginner"), None, None) == []
  {
    SeedSpellings();
    MatchingNone(SeededResources(), Some("beginner"), None, None);
  }

  /** ... and the plural type "Guides" matches none either. */
  lemma SeededTypeSpelling()
    ensures Matching(SeededResources(), None, Some("Guides"), None) == []
  {
    SeedSpellings();
    MatchingNone(SeededResources(), None, Some("Guides"), None);
  }

  /** The exact spellings do match: "Beginner" finds articles 1 and 4, "Guide" the first five. */
  lemma SeededFilterExact()
    ensures Matching(SeededResources(), Some("Beginner"), None, None) == [SeededResources()[0], SeededResources()[3]]
    ensures |Matching(SeededResources(), None, Some("Guide"), None)| == 5
  {
    var rs := SeededResources();
    assert rs == [rs[0], rs[1], rs[2], rs[3], rs[4], rs[5]];
    assert rs[1..] == [rs[1], rs[2], rs[3], rs[4], rs[5]];
    assert rs[2..] == [rs[2], rs[3], rs[4], rs[5]];
    assert rs[3..] == [rs[3], rs[4], rs[5]];
    assert rs[4..] == [rs[4], rs[5]];
    assert rs[5..] == [rs[5]];
    assert rs[6..] == [];
  }

  // ---------- the store ----------

  /** A table keyed by the ids 1 .. next-1 in which every record carries its own key. */
  ghost predicate ResourceTable(m: map<int, Resource>, next: int) {
    1 <= next && KeysUpTo(m, next) && forall k :: k in m ==> m[k].id == k
  }

  ghost predicate StrategyTable(m: map<int, StrategyComparison>, next: int) {
    1 <= next && KeysUpTo(m, next) && forall k :: k in m ==> m[k].id == k
  }

  ghost predicate DownloadableTable(m: map<int, DownloadableResource>, next: int) {
    1 <= next && KeysUpTo(m, next) && forall k :: k in m ==> m[k].id == k
  }

  ghost predicate TestimonialTable(m: map<int, Testimonial>, next: int) {
    1 <= next && KeysUpTo(m, next) && forall k :: k in m ==> m[k].id == k
  }

  ghost predicate ContactTable(m: map<int, Contact>, next: int) {
    1 <= next && KeysUpTo(m, next) && forall k :: k in m ==> m[k].id == k
  }

  class MemStorage {
    var resources: map<int, Resource>
    var strategyComparisons: map<int, StrategyComparison>
    var downloadableResources: map<int, DownloadableResource>
    var testimonials: map<int, Testimonial>
    var contacts: map<int, Contact>

    var resourceId: int
    var testimonialId: int
    var contactId: int

    /**
     * Each table holds exactly the ids its counter has issued (the two fixed
     * tables, the ids of their seeds), and every record carries its own key.
     */
    ghost predicate Valid()
      reads this
    {
      && ResourceTable(resources, resourceId)
      && StrategyTable(strategyComparisons, StrategyCount + 1)
      && DownloadableTable(downloadableResources, DownloadableCount + 1)
      && TestimonialTable(testimonials, testimonialId)
      && ContactTable(contacts, contactId)
    }

    /** The resources in insertion order (`Array.from(this.resources.values())`). */
    function AllResources(): seq<Resource>
      reads this
      requires ResourceTable(resources, resourceId)
    {
      Values(resources, 1, resourceId)
    }

    function AllTestimonials(): seq<Testimonial>
      reads this
      requires TestimonialTable(testimonials, testimonialId)
    {
      Values(testimonials, 1, testimonialId)
    }

    function AllContacts(): seq<Contact>
      reads this
      requires ContactTable(contacts, contactId)
    {
      Values(contacts, 1, contactId)
    }

    /** A fresh store holding the seed data, the testimonials dated `now`. */
    constructor (now: string)
      ensures Valid()
      ensures resourceId == |SeedResources| + 1 == 7
      ensures AllResources() == SeededResources()
      ensures testimonialId == |SeedTestimonials(now)| + 1 == 4
      ensures forall k :: 1 <= k < testimonialId ==> testimonials[k] == SeedTestimonials(now)[k - 1].(id := k)
      ensures forall k :: 1 <= k <= StrategyCount ==> strategyComparisons[k] == SeedStrategies[k - 1].(id := k)
      ensures forall k :: 1 <= k <= DownloadableCount ==> downloadableResources[k] == SeedDownloadables[k - 1].(id := k)
      ensures contactId == 1 && contacts == map[]
    {
      resources, strategyComparisons, downloadableResources := map[], map[], map[];
      testimonials, contacts := map[], map[];
      resourceId, testimonialId, contactId := 1, 1, 1;
      new;
      SeedData(SeedResources, SeedStrategies, SeedDownloadables, SeedTestimonials(now));
    }

    /**
     * Loads the seed tables (the constants above, passed in) one after the
     * other; every seed record takes the next id of its table.
     */
    method SeedData(resourceSeed: seq<Resource>, strategySeed: seq<StrategyComparison>,
                    downloadableSeed: seq<DownloadableResource>, testimonialSeed: seq<Testimonial>)
      requires |strategySeed| == StrategyCount && |downloadableSeed| == DownloadableCount
      requires resources == map[] && strategyComparisons == map[] && downloadableResources == map[]
      requires testimonials == map[] && contacts == map[]
      requires resourceId == testimonialId == contactId == 1
      modifies this
      ensures Valid()
      ensures resourceId == |resourceSeed| + 1
      ensures AllResources() == Numbered(resourceSeed)
      ensures testimonialId == |testimonialSeed| + 1
      ensures forall k :: 1 <= k < testimonialId ==> testimonials[k] == testimonialSeed[k - 1].(id := k)
      ensures forall k :: 1 <= k <= StrategyCount ==> strategyComparisons[k] == strategySeed[k - 1].(id := k)
      ensures forall k :: 1 <= k <= DownloadableCount ==> downloadableResources[k] == downloadableSeed[k - 1].(id := k)
      ensures contactId == 1 && contacts == map[]
    {
      StoreResources(resourceSeed);
      StoreStrategies(strategySeed);
      StoreDownloadables(downloadableSeed);
      StoreTestimonials(testimonialSeed);
    }

    /** The resources loop of the seeding: each record takes the next resource id. */
    method StoreResources(seed: seq<Resource>)
      requires resources == map[] && resourceId == 1
      modifies this`resources, this`resourceId
      ensures resourceId == |seed| + 1
      ensures ResourceTable(resources, resourceId)
      ensures forall k :: 1 <= k < resourceId ==> resources[k] == seed[k - 1].(id := k)
      ensures Values(resources, 1, resourceId) == Numbered(seed)
    {
      var i := 0;
      while i < |seed|
        invariant 0 <= i <= |seed|
        invariant resourceId == i + 1
        invariant KeysUpTo(resources, resourceId)
        invariant forall k :: 1 <= k < resourceId ==> resources[k] == seed[k - 1].(id := k)
      {
        resources := resources[resourceId := seed[i].(id := resourceId)];
        resourceId := resourceId + 1;
        i := i + 1;
      }
      assert Values(resources, 1, resourceId) == Numbered(seed);
    }

    /** The comparisons loop of the seeding, numbered by a local counter. */
    method StoreStrategies(seed: seq<StrategyComparison>)
      requires strategyComparisons == map[]
      modifies this`strategyComparisons
      ensures StrategyTable(strategyComparisons, |seed| + 1)
      ensures forall k :: 1 <= k <= |seed| ==> strategyComparisons[k] == seed[k - 1].(id := k)
    {
      var strategyId := 1;
      var i := 0;
      while i < |seed|
        invariant 0 <= i <= |seed|
        invariant strategyId == i + 1
        invariant KeysUpTo(strategyComparisons, strategyId)
        invariant forall k :: 1 <= k < strategyId ==> strategyComparisons[k] == seed[k - 1].(id := k)
      {
        strategyComparisons := strategyComparisons[strategyId := seed[i].(id := strategyId)];
        strategyId := strategyId + 1;
        i := i + 1;
      }
    }

    /** The downloads loop of the seeding, numbered by a local counter. */
    method StoreDownloadables(seed: seq<DownloadableResource>)
      requires downloadableResources == map[]
      modifies this`downloadableResources
      ensures DownloadableTable(downloadableResources, |seed| + 1)
      ensures forall k :: 1 <= k <= |seed| ==> downloadableResources[k] == seed[k - 1].(id := k)
    {
      var downloadableId := 1;
      var i := 0;
      while i < |seed|
        invariant 0 <= i <= |seed|
        invariant downloadableId == i + 1
        invariant KeysUpTo(downloadableResources, downloadableId)
        invariant forall k :: 1 <= k < downloadableId ==> downloadableResources[k] == seed[k - 1].(id := k)
      {
        downloadableResources := downloadableResources[downloadableId := seed[i].(id := downloadableId)];
        downloadableId := downloadableId + 1;
        i := i + 1;
      }
    }

    /** The testimonials loop of the seeding: each record takes the next testimonial id. */
    method StoreTestimonials(seed: seq<Testimonial>)
      requires testimonials == map[] && testimonialId == 1
      modifies this`testimonials, this`testimonialId
      ensures testimonialId == |seed| + 1
      ensures TestimonialTable(testimonials, testimonialId)
      ensures forall k :: 1 <= k < testimonialId ==> testimonials[k] == seed[k - 1].(id := k)
    {
      var i := 0;
      while i < |seed|
        invariant 0 <= i <= |seed|
        invariant testimonialId == i + 1
        invariant KeysUpTo(testimonials, testimonialId)
        invariant forall k :: 1 <= k < testimonialId ==> testimonials[k] == seed[k - 1].(id := k)
      {
        testimonials := testimonials[testimonialId := seed[i].(id := testimonialId)];
        testimonialId := testimonialId + 1;
        i := i + 1;
      }
    }

    /**
     * `getResources`: the resources matching every supplied filter, in insertion
     * order, cut to one page; `total` counts all matches, before paging.
     */
    method GetResources(skillLevel: Option<string>, resourceType: Option<string>, search: Option<string>, page: int, perPage: int)
      returns (paged: seq<Resource>, total: int)
      requires Valid()
      requires page >= 1 && perPage >= 1
      ensures total == |Matching(AllResources(), skillLevel, resourceType, search)|
      ensures paged == Page(Matching(AllResources(), skillLevel, resourceType, search), page, perPage)
    {
      var all := Values(resources, 1, resourceId);
      assert all == AllResources();
      var filtered := FilterResources(all, skillLevel, resourceType, search);
      total := |filtered|;
      PageStartNonNegative(page, perPage);
      var start := (page - 1) * perPage;
      var end := start + perPage;
      paged := Slice(filtered, start, end);
    }

    /** `getResourceById`: the record stored under `id`, or nothing; the store is unchanged. */
    method GetResourceById(id: int) returns (r: Option<Resource>)
      requires Valid()
      ensures r.Some? <==> 1 <= id < resourceId
      ensures r.Some? ==> r.value == resources[id] && r.value.id == id
    {
      r := if id in resources then Some(resources[id]) else None;
    }

    /** `getStrategyComparisons`: the four seeded comparisons, in id order. */
    method GetStrategyComparisons() returns (cs: seq<StrategyComparison>)
      requires Valid()
      ensures |cs| == StrategyCount
      ensures forall i :: 0 <= i < |cs| ==> cs[i] == strategyComparisons[i + 1] && cs[i].id == i + 1
    {
      cs := Values(strategyComparisons, 1, StrategyCount + 1);
    }

    /** `getDownloadableResources`: the four seeded downloads, in id order. */
    method GetDownloadableResources() returns (ds: seq<DownloadableResource>)
      requires Valid()
      ensures |ds| == DownloadableCount
      ensures forall i :: 0 <= i < |ds| ==> ds[i] == downloadableResources[i + 1] && ds[i].id == i + 1
    {
      ds := Values(downloadableResources, 1, DownloadableCount + 1);
    }

    /** `getDownloadableResourceById`: the record stored under `id`, or nothing. */
    method GetDownloadableResourceById(id: int) returns (d: Option<DownloadableResource>)
      requires Valid()
      ensures d.Some? <==> 1 <= id <= DownloadableCount
      ensures d.Some? ==> d.value == downloadableResources[id] && d.value.id == id
    {
      d := if id in downloadableResources then Some(downloadableResources[id]) else None;
    }

    /** `getTestimonials`: every testimonial, oldest first, with ids 1, 2, 3, ... */
    method GetTestimonials() returns (ts: seq<Testimonial>)
      requires Valid()
      ensures ts == AllTestimonials()
      ensures |ts| == testimonialId - 1
      ensures forall i :: 0 <= i < |ts| ==> ts[i].id == i + 1
    {
      ts := Values(testimonials, 1, testimonialId);
    }

    /**
     * `createTestimonial`: stores the submitted fields under the next id, dated
     * `now`; the counter goes up by one and nothing else changes.
     */
    method CreateTestimonial(t: InsertTestimonial, now: string) returns (created: Testimonial)
      requires Valid()
      modifies this
      ensures Valid()
      ensures created == Testimonial(old(testimonialId), t.name, t.company, t.rating, t.comment, now)
      ensures old(testimonialId) !in old(testimonials)
      ensures testimonials == old(testimonials)[old(testimonialId) := created]
      ensures testimonialId == old(testimonialId) + 1
      ensures AllTestimonials() == old(AllTestimonials()) + [created]
      ensures resources == old(resources) && strategyComparisons == old(strategyComparisons)
      ensures downloadableResources == old(downloadableResources) && contacts == old(contacts)
      ensures resourceId == old(resourceId) && contactId == old(contactId)
    {
      created := Testimonial(testimonialId, t.name, t.company, t.rating, t.comment, now);
      ValuesAppend(testimonials, testimonialId, created);
      testimonials := testimonials[testimonialId := created];
      testimonialId := testimonialId + 1;
    }

    /**
     * `createContact`: stores the submitted fields under the next id, stamped
     * `now`; the counter goes up by one and nothing else changes.
     */
    method CreateContact(c: InsertContact, now: string) returns (created: Contact)
      requires Valid()
      modifies this
      ensures Valid()
      ensures created == Contact(old(contactId), c.fullName, c.email, c.organization, c.areaOfInterest,
        c.message, c.agreeToReceiveInfo, now)
      ensures old(contactId) !in old(contacts)
      ensures contacts == old(contacts)[old(contactId) := created]
      ensures contactId == old(contactId) + 1
      ensures AllContacts() == old(AllContacts()) + [created]
      ensures resources == old(resources) && strategyComparisons == old(strategyComparisons)
      ensures downloadableResources == old(downloadableResources) && testimonials == old(testimonials)
      ensures resourceId == old(resourceId) && testimonialId == old(testimonialId)
    {
      created := Contact(contactId, c.fullName, c.email, c.organization, c.areaOfInterest,
        c.message, c.agreeToReceiveInfo, now);
      ValuesAppend(contacts, contactId, created);
      contacts := contacts[contactId := created];
      contactId := contactId + 1;
    }
  }

  /** Ids handed out by a counter are unique and strictly increase along the listing. */
  lemma TestimonialIdsIncrease(m: map<int, Testimonial>, next: int)
    requires TestimonialTable(m, next)
    ensures forall i, j :: 0 <= i < j < |Values(m, 1, next)| ==> Values(m, 1, next)[i].id < Values(m, 1, next)[j].id
  {
  }

  lemma ContactIdsIncrease(m: map<int, Contact>, next: int)
    requires ContactTable(m, next)
    ensures forall i, j :: 0 <= i < j < |Values(m, 1, next)| ==> Values(m, 1, next)[i].id < Values(m, 1, next)[j].id
  {
  }
}
