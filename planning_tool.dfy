/**
 * The interactive backup planning tool: four inputs (organisation size, a
 * data-volume slider, a recovery time objective and a budget), a label for
 * the slider position, and the request body posted to the plan generator.
 */
module PlanningTool {
  import opened Wrappers
  import opened Strings
  import opened Schema
  import opened Strategy
  import opened Routes

  const OrganizationSizes: seq<string> := ["Small (1-50)", "Medium (51-200)", "Large (201+)"]

  const RtoOptions: seq<string> := [
    "Immediate (0-15 minutes)",
    "Quick (15 minutes - 1 hour)",
    "Same day (1-8 hours)",
    "Next day (8-24 hours)",
    "Extended (24+ hours)"]

  const BudgetOptions: seq<string> := ["Limited", "Moderate", "Extensive"]

  /** The tool's inputs; the slider reports its value as a list, of which the first entry is used. */
  datatype Planner = Planner(orgSize: string, dataVolume: seq<real>, rto: string, budget: string)

  const Defaults := Planner(OrganizationSizes[0], [30.0], RtoOptions[1], BudgetOptions[1])

  // ---------- the data-volume label ----------

  /** The slider positions at which the label moves on, and the labels (also the slider's tick labels). */
  const VolumeMarks: seq<real> := [20.0, 40.0, 60.0, 80.0]
  const VolumeLabels: seq<string> := ["<1TB", "5TB", "10TB", "50TB", "100TB+"]

  /** How many of the marks lie at or below `value`. */
  function MarksReached(marks: seq<real>, value: real): (n: nat)
    ensures n <= |marks|
  {
    if marks == [] then 0 else (if marks[0] <= value then 1 else 0) + MarksReached(marks[1..], value)
  }

  /** A larger value reaches at least as many marks. */
  lemma {:induction false} MarksReachedMonotone(marks: seq<real>, v: real, w: real)
    requires v <= w
    ensures MarksReached(marks, v) <= MarksReached(marks, w)
  {
    if marks != [] {
      MarksReachedMonotone(marks[1..], v, w);
    }
  }

  /** `getDataVolumeLabel`: a ladder of early returns. */
  function DataVolumeLabel(value: real): string {
    if value < 20.0 then "<1TB"
    else if value < 40.0 then "5TB"
    else if value < 60.0 then "10TB"
    else if value < 80.0 then "50TB"
    else "100TB+"
  }

  /** The label is the tick label of the band the value falls in: one band per mark passed. */
  lemma DataVolumeLabelByMarks(value: real)
    ensures DataVolumeLabel(value) == VolumeLabels[MarksReached(VolumeMarks, value)]
  {
    var m := VolumeMarks;
    assert m[1..][1..][1..][1..] == [];
    var n3 := MarksReached(m[1..][1..][1..], value);
    assert n3 == if 80.0 <= value then 1 else 0;
    var n2 := MarksReached(m[1..][1..], value);
    assert n2 == (if 60.0 <= value then 1 else 0) + n3;
    var n1 := MarksReached(m[1..], value);
    assert n1 == (if 40.0 <= value then 1 else 0) + n2;
    assert MarksReached(m, value) == (if 20.0 <= value then 1 else 0) + n1;
  }

  /** Moving the slider up never moves the label down the list. */
  lemma DataVolumeLabelMonotone(v: real, w: real)
    requires v <= w
    ensures MarksReached(VolumeMarks, v) <= MarksReached(VolumeMarks, w)
    ensures DataVolumeLabel(v) == VolumeLabels[MarksReached(VolumeMarks, v)]
    ensures DataVolumeLabel(w) == VolumeLabels[MarksReached(VolumeMarks, w)]
  {
    MarksReachedMonotone(VolumeMarks, v, w);
    DataVolumeLabelByMarks(v);
    DataVolumeLabelByMarks(w);
  }

  // ---------- the request ----------

  /**
   * The body `handleGenerateStrategy` posts. An empty slider list has no first
   * entry, and a JSON body leaves out a field whose value is undefined.
   */
  function RequestBody(p: Planner): Json {
    var fields := map["organizationSize" := JStr(p.orgSize), "recoveryTimeObjective" := JStr(p.rto),
      "budget" := JStr(p.budget)];
    JObj(if |p.dataVolume| >= 1 then fields["dataVolume" := JNum(p.dataVolume[0])] else fields)
  }

  /** With a slider value, the body has exactly the four fields of the request schema. */
  lemma RequestBodyKeys(p: Planner)
    requires |p.dataVolume| >= 1
    ensures RequestBody(p).fields.Keys == {"organizationSize", "dataVolume", "recoveryTimeObjective", "budget"}
  {
  }

  /** With a slider value, the body reads back as the tool's inputs. */
  lemma RequestBodyParses(p: Planner)
    requires |p.dataVolume| >= 1
    ensures ParseStrategyRequest(RequestBody(p)) == Ok(StrategyRequest(p.orgSize, p.dataVolume[0], p.rto, p.budget))
  {
    var req := StrategyRequest(p.orgSize, p.dataVolume[0], p.rto, p.budget);
    assert RequestBody(p) == StrategyRequestToJson(req);
  }

  /** Without a slider value, only `dataVolume` is reported missing. */
  lemma RequestBodyWithoutVolume(p: Planner)
    requires |p.dataVolume| == 0
    ensures ParseStrategyRequest(RequestBody(p)) == Err([Issue("dataVolume", "number")])
  {
    var f := RequestBody(p).fields;
    assert StrategyRequestShape[1..] == [("dataVolume", TNumber), ("recoveryTimeObjective", TString), ("budget", TString)];
    assert StrategyRequestShape[1..][1..] == [("recoveryTimeObjective", TString), ("budget", TString)];
    assert StrategyRequestShape[1..][1..][1..] == [("budget", TString)];
    assert ShapeIssues(f, StrategyRequestShape[1..][1..]) == [];
    assert ShapeIssues(f, StrategyRequestShape) == [Issue("dataVolume", "number")];
  }

  /** What the server answers to the tool's request: the plan for its inputs, or 400 without a slider value. */
  lemma PlannerResponse(p: Planner)
    ensures |p.dataVolume| >= 1 ==>
      GeneratePlan(RequestBody(p)) == Response(200, Plan(GenerateStrategy(StrategyRequest(p.orgSize, p.dataVolume[0], p.rto, p.budget))))
    ensures |p.dataVolume| == 0 ==> GeneratePlan(RequestBody(p)).status == 400
  {
    if |p.dataVolume| >= 1 {
      RequestBodyParses(p);
    } else {
      RequestBodyWithoutVolume(p);
    }
  }

  // ---------- how the options meet the generator's rules ----------

  /** The first two RTO options take the within-the-hour rules, the third the same-day rules, the last two the basic plan. */
  lemma RtoOptionsRoute()
    ensures IsFastRto(RtoOptions[0]) && IsFastRto(RtoOptions[1])
    ensures !IsFastRto(RtoOptions[2]) && IsSameDayRto(RtoOptions[2])
    ensures !IsFastRto(RtoOptions[3]) && !IsSameDayRto(RtoOptions[3])
    ensures !IsFastRto(RtoOptions[4]) && !IsSameDayRto(RtoOptions[4])
  {
    assert RtoOptions[0][..9] == "Immediate";
    assert RtoOptions[1][..5] == "Quick";
    assert RtoOptions[2][..8] == "Same day";
    assert RtoOptions[2][0] != "Immediate"[0] && RtoOptions[2][0] != "Quick"[0];
    assert RtoOptions[3][0] != "Immediate"[0] && RtoOptions[3][0] != "Quick"[0] && RtoOptions[3][1] != "Same day"[1];
    assert RtoOptions[4][0] != "Immediate"[0] && RtoOptions[4][0] != "Quick"[0] && RtoOptions[4][0] != "Same day"[0];
  }

  /** The plan id for every combination of the offered RTO and budget options, whatever the size and volume. */
  lemma PlanForOptions(p: Planner, i: nat, j: nat)
    requires i < |RtoOptions| && j < |BudgetOptions|
    requires p.rto == RtoOptions[i] && p.budget == BudgetOptions[j] && |p.dataVolume| >= 1
    ensures GeneratePlan(RequestBody(p)).status == 200 && GeneratePlan(RequestBody(p)).body.Plan?
    ensures var id := GeneratePlan(RequestBody(p)).body.strategy.id;
      && (i < 2 ==> id == 3 - j)
      && (i == 2 ==> id == (if p.dataVolume[0] > 60.0 then 4 else 5))
      && (i > 2 ==> id == 6)
  {
    PlannerResponse(p);
    RtoOptionsRoute();
  }

  /** With the defaults (Small, 30, Quick, Moderate) the server answers with "Hybrid Cloud Recovery". */
  lemma DefaultsGiveHybridCloud()
    ensures GeneratePlan(RequestBody(Defaults)) == Response(200, Plan(Plan2))
    ensures Plan2.name == "Hybrid Cloud Recovery"
  {
    PlannerResponse(Defaults);
    RtoOptionsRoute();
  }

  /** A limited budget with either fast RTO option gets "Prioritized Local Recovery". */
  lemma LimitedFastGivesPrioritized(p: Planner)
    requires p.rto == RtoOptions[0] || p.rto == RtoOptions[1]
    requires p.budget == BudgetOptions[0] && |p.dataVolume| >= 1
    ensures GeneratePlan(RequestBody(p)) == Response(200, Plan(Plan3))
    ensures Plan3.name == "Prioritized Local Recovery"
  {
    PlannerResponse(p);
    RtoOptionsRoute();
  }
}
