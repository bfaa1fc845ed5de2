/**
 * The risk assessment tool: a 5x5 impact-by-likelihood matrix of risk levels,
 * a checklist of nine risk scenarios whose impact and likelihood sliders run
 * over 1..5, a composite score (the rounded mean of impact times likelihood
 * over the checked scenarios) banded into four levels, and a list of
 * recommendations built from the business type and the high risks.
 */
module RiskAssessment {

  /** The ids of the nine scenarios of the checklist ("data-loss" .. "ci-cd-pipeline"). */
  datatype RiskId =
    DataLoss | SystemOutage | NetworkFailure | Ransomware | NaturalDisaster
    | CloudProvider | ContainerFailure | ConfigDrift | CiCdPipeline

  datatype RiskCategory = RiskCategory(
    id: RiskId, name: string, description: string, checked: bool, impact: int, likelihood: int)

  /** One matrix cell: its level and the colour classes it is shown with. */
  datatype Cell = Cell(level: string, color: string)

  const Green := "bg-green-100 text-green-800"
  const Yellow := "bg-yellow-100 text-yellow-800"
  const Orange := "bg-orange-100 text-orange-800"
  const Red := "bg-red-100 text-red-800"
  const Gray := "bg-gray-100 text-gray-800"

  const VeryLowCell := Cell("Very Low", Green)
  const LowCell := Cell("Low", Green)
  const MediumCell := Cell("Medium", Yellow)
  const HighCell := Cell("High", Orange)
  const VeryHighCell := Cell("Very High", Red)

  /** The slider range of impact and likelihood. */
  predicate InScale(n: int) {
    1 <= n <= 5
  }

  /** `riskMatrix`, row by impact, column by likelihood. */
  const Matrix: seq<seq<Cell>> := [
    [VeryLowCell, LowCell, LowCell, MediumCell, MediumCell],
    [LowCell, LowCell, MediumCell, MediumCell, HighCell],
    [LowCell, MediumCell, MediumCell, HighCell, HighCell],
    [MediumCell, MediumCell, HighCell, HighCell, VeryHighCell],
    [MediumCell, HighCell, HighCell, VeryHighCell, VeryHighCell]]

  /** `riskMatrix[impact][likelihood]`. */
  function MatrixCell(impact: int, likelihood: int): Cell
    requires InScale(impact) && InScale(likelihood)
  {
    Matrix[impact - 1][likelihood - 1]
  }

  /** The order Very Low < Low < Medium < High < Very High; -1 for any other text. */
  function LevelRank(level: string): int {
    if level == "Very Low" then 0
    else if level == "Low" then 1
    else if level == "Medium" then 2
    else if level == "High" then 3
    else if level == "Very High" then 4
    else -1
  }

  /** Every cell holds one of the five levels; the corners are Very Low and Very High. */
  lemma MatrixTotal(impact: int, likelihood: int)
    requires InScale(impact) && InScale(likelihood)
    ensures 0 <= LevelRank(MatrixCell(impact, likelihood).level) <= 4
    ensures MatrixCell(1, 1).level == "Very Low" && MatrixCell(5, 5).level == "Very High"
  {
  }

  /** Impact and likelihood play the same part. */
  lemma MatrixSymmetric(impact: int, likelihood: int)
    requires InScale(impact) && InScale(likelihood)
    ensures MatrixCell(impact, likelihood) == MatrixCell(likelihood, impact)
  {
  }

  /** Raising impact or likelihood never lowers the level. */
  lemma MatrixMonotone(impact: int, likelihood: int)
    requires InScale(impact) && InScale(likelihood)
    ensures impact < 5 ==> LevelRank(MatrixCell(impact, likelihood).level) <= LevelRank(MatrixCell(impact + 1, likelihood).level)
    ensures likelihood < 5 ==> LevelRank(MatrixCell(impact, likelihood).level) <= LevelRank(MatrixCell(impact, likelihood + 1).level)
  {
  }

  /** `getRiskLevelClass`: the colour classes of a level; grey for any other text. */
  function RiskLevelClass(level: string): (c: string)
    ensures c == Gray <==> LevelRank(level) == -1
  {
    if level == "Very Low" then Green
    else if level == "Low" then Green
    else if level == "Medium" then Yellow
    else if level == "High" then Orange
    else if level == "Very High" then Red
    else Gray
  }

  /** Each matrix cell is coloured as `getRiskLevelClass` colours its level. */
  lemma CellColorsAgree(impact: int, likelihood: int)
    requires InScale(impact) && InScale(likelihood)
    ensures MatrixCell(impact, likelihood).color == RiskLevelClass(MatrixCell(impact, likelihood).level)
  {
  }

  // ---------- the composite score ----------

  /** `riskCategories.filter(risk => risk.checked)`. */
  function Selected(rs: seq<RiskCategory>): (sel: seq<RiskCategory>)
    ensures |sel| <= |rs|
    ensures forall r :: r in sel <==> r in rs && r.checked
  {
    if rs == [] then [] else (if rs[0].checked then [rs[0]] else []) + Selected(rs[1..])
  }

  /** One risk is kept exactly when it is checked. */
  lemma SelectedSingle(r: RiskCategory)
    ensures Selected([r]) == (if r.checked then [r] else [])
  {
    assert [r][1..] == [];
  }

  /** The filter distributes over concatenation, so it keeps the checklist's order and each risk once. */
  lemma {:induction false} SelectedAppend(a: seq<RiskCategory>, b: seq<RiskCategory>)
    ensures Selected(a + b) == Selected(a) + Selected(b)
  {
    if a == [] {
      assert a + b == b;
    } else {
      var head := (if a[0].checked then [a[0]] else []);
      assert (a + b)[0] == a[0] && (a + b)[1..] == a[1..] + b;
      assert Selected(a + b) == head + Selected(a[1..] + b);
      SelectedAppend(a[1..], b);
      assert Selected(a) == head + Selected(a[1..]);
      assert head + (Selected(a[1..]) + Selected(b)) == (head + Selected(a[1..])) + Selected(b);
    }
  }

  /** The sum of impact times likelihood, accumulated front to back. */
  function TotalScore(rs: seq<RiskCategory>): int {
    if rs == [] then 0 else TotalScore(rs[..|rs| - 1]) + rs[|rs| - 1].impact * rs[|rs| - 1].likelihood
  }

  predicate AllInScale(rs: seq<RiskCategory>) {
    forall i :: 0 <= i < |rs| ==> InScale(rs[i].impact) && InScale(rs[i].likelihood)
  }

  lemma ProductInRange(a: int, b: int)
    requires InScale(a) && InScale(b)
    ensures 1 <= a * b <= 25
  {
  }

  /** Each product lies in 1..25, so the total of n risks lies in n..25n. */
  lemma {:induction false} TotalScoreBounds(rs: seq<RiskCategory>)
    requires AllInScale(rs)
    ensures |rs| <= TotalScore(rs) <= 25 * |rs|
  {
    if rs != [] {
      var last := rs[|rs| - 1];
      var init := rs[..|rs| - 1];
      assert forall i :: 0 <= i < |init| ==> init[i] == rs[i];
      TotalScoreBounds(init);
      ProductInRange(last.impact, last.likelihood);
    }
  }

  /**
   * `Math.round(total / n)`: the nearest integer, halves rounded up,
   * computed exactly in integers.
   */
  function RoundedMean(total: int, n: int): (r: int)
    requires n > 0
    ensures n * (2 * r - 1) <= 2 * total < n * (2 * r + 1)
  {
    var q := (2 * total + n) / (2 * n);
    assert 2 * n * q <= 2 * total + n < 2 * n * q + 2 * n;
    q
  }

  /** The mean of values in 1..25 rounds to a value in 1..25. */
  lemma RoundedMeanBounds(total: int, n: int)
    requires n > 0 && n <= total <= 25 * n
    ensures 1 <= RoundedMean(total, n) <= 25
  {
  }

  /** The overall level of a score: below 6 Low, below 12 Medium, below 20 High, else Very High. */
  function ScoreBand(score: int): (level: string)
    ensures LevelRank(level) >= 1
    ensures score < 6 <==> level == "Low"
    ensures 6 <= score < 12 <==> level == "Medium"
    ensures 12 <= score < 20 <==> level == "High"
    ensures 20 <= score <==> level == "Very High"
  {
    if score < 6 then "Low" else if score < 12 then "Medium" else if score < 20 then "High" else "Very High"
  }

  /**
   * The matrix and the score use different scales: a lone (5, 1) risk is
   * "Medium" in the matrix, yet its score of 5 is "Low".
   */
  lemma ScalesDisagree(r: RiskCategory)
    requires r.checked && r.impact == 5 && r.likelihood == 1
    ensures MatrixCell(5, 1).level == "Medium"
    ensures TotalScore(Selected([r])) == 5 && RoundedMean(5, 1) == 5 && ScoreBand(5) == "Low"
  {
    assert Selected([r]) == [r];
    assert [r][..0] == [];
  }

  // ---------- recommendations ----------

  const ECommerceAdvice := ["Implement regular database backups with point-in-time recovery",
    "Establish redundant payment processing systems"]
  const HealthcareAdvice := ["Ensure HIPAA-compliant backup and disaster recovery processes",
    "Implement encrypted backup storage for patient data"]
  const FinanceAdvice := ["Setup real-time replication for transaction data",
    "Implement multi-region failover capabilities"]
  const ManufacturingAdvice := ["Create backup systems for production control systems",
    "Implement offline backups of critical production data"]
  const SaasAdvice := ["Implement multi-region container deployment strategies",
    "Design for graceful service degradation during partial outages"]

  /** The business types of the select box. */
  const BusinessTypes: set<string> := {"e-commerce", "healthcare", "finance", "manufacturing", "saas"}

  /** The two recommendations for each known business type, none for any other. */
  function BusinessAdvice(businessType: string): (advice: seq<string>)
    ensures |advice| == if businessType in BusinessTypes then 2 else 0
  {
    if businessType == "e-commerce" then ECommerceAdvice
    else if businessType == "healthcare" then HealthcareAdvice
    else if businessType == "finance" then FinanceAdvice
    else if businessType == "manufacturing" then ManufacturingAdvice
    else if businessType == "saas" then SaasAdvice
    else []
  }

  const DataLossAdvice := "Implement 3-2-1 backup strategy (3 copies, 2 media types, 1 offsite)"
  const SystemOutageAdvice := "Establish redundant systems with automated failover"
  const RansomwareAdvice := "Create immutable backups that cannot be modified once created"
  const ContainerFailureAdvice := "Implement multi-cluster container orchestration with automated failover"
  const CloudProviderAdvice := "Consider multi-cloud strategy for critical applications"
  const NaturalDisasterAdvice := "Create geographically-distributed backup sites"

  /** The risks that have a recommendation of their own. */
  const AdvisedRisks: set<RiskId> :=
    {DataLoss, SystemOutage, Ransomware, ContainerFailure, CloudProvider, NaturalDisaster}

  /** The recommendation for one high risk, by id; none for the other ids. */
  function RiskAdvice(id: RiskId): (advice: seq<string>)
    ensures |advice| == if id in AdvisedRisks then 1 else 0
  {
    match id
    case DataLoss => [DataLossAdvice]
    case SystemOutage => [SystemOutageAdvice]
    case Ransomware => [RansomwareAdvice]
    case ContainerFailure => [ContainerFailureAdvice]
    case CloudProvider => [CloudProviderAdvice]
    case NaturalDisaster => [NaturalDisasterAdvice]
    case _ => []
  }

  predicate IsHighRisk(r: RiskCategory) {
    r.checked && r.impact * r.likelihood > 15
  }

  /** The ids of the checked risks whose product exceeds 15, in checklist order. */
  function HighRiskIds(rs: seq<RiskCategory>): (ids: seq<RiskId>)
    ensures |ids| <= |rs|
  {
    if rs == [] then [] else (if IsHighRisk(rs[0]) then [rs[0].id] else []) + HighRiskIds(rs[1..])
  }

  /** One risk gives its id exactly when it is checked with a product above 15. */
  lemma HighRiskIdsSingle(r: RiskCategory)
    ensures HighRiskIds([r]) == (if r.checked && r.impact * r.likelihood > 15 then [r.id] else [])
  {
    assert [r][1..] == [];
  }

  /** The high-risk filter distributes over concatenation: checklist order, each risk at most once. */
  lemma {:induction false} HighRiskIdsAppend(a: seq<RiskCategory>, b: seq<RiskCategory>)
    ensures HighRiskIds(a + b) == HighRiskIds(a) + HighRiskIds(b)
  {
    if a == [] {
      assert a + b == b;
    } else {
      var head := (if IsHighRisk(a[0]) then [a[0].id] else []);
      assert (a + b)[0] == a[0] && (a + b)[1..] == a[1..] + b;
      assert HighRiskIds(a + b) == head + HighRiskIds(a[1..] + b);
      HighRiskIdsAppend(a[1..], b);
      assert HighRiskIds(a) == head + HighRiskIds(a[1..]);
      assert head + (HighRiskIds(a[1..]) + HighRiskIds(b)) == (head + HighRiskIds(a[1..])) + HighRiskIds(b);
    }
  }

  /** The recommendations for a list of risk ids, one list after another. */
  function AdviceFor(ids: seq<RiskId>): seq<string> {
    if ids == [] then [] else RiskAdvice(ids[0]) + AdviceFor(ids[1..])
  }

  /** The number of recommendations for a list of risk ids. */
  function AdviceCount(ids: seq<RiskId>): (n: nat)
    ensures n == |AdviceFor(ids)|
  {
    if ids == [] then 0 else |RiskAdvice(ids[0])| + AdviceCount(ids[1..])
  }

  function Ids(rs: seq<RiskCategory>): (ids: seq<RiskId>)
    ensures |ids| == |rs| && forall i :: 0 <= i < |rs| ==> ids[i] == rs[i].id
  {
    if rs == [] then [] else [rs[0].id] + Ids(rs[1..])
  }

  /** Keeping only the high risks never adds recommendations. */
  lemma {:induction false} HighRiskAdviceAtMost(rs: seq<RiskCategory>)
    ensures AdviceCount(HighRiskIds(rs)) <= AdviceCount(Ids(rs))
  {
    if rs != [] {
      HighRiskAdviceAtMost(rs[1..]);
      var tail := HighRiskIds(rs[1..]);
      if IsHighRisk(rs[0]) {
        assert HighRiskIds(rs) == [rs[0].id] + tail;
        assert ([rs[0].id] + tail)[1..] == tail;
      } else {
        assert HighRiskIds(rs) == tail;
      }
      assert Ids(rs) == [rs[0].id] + Ids(rs[1..]);
      assert ([rs[0].id] + Ids(rs[1..]))[1..] == Ids(rs[1..]);
    }
  }

  /** The checklist's ids, in order. */
  const RiskIds: seq<RiskId> := [DataLoss, SystemOutage, NetworkFailure, Ransomware,
    NaturalDisaster, CloudProvider, ContainerFailure, ConfigDrift, CiCdPipeline]

  /** Six of the nine scenarios have a recommendation of their own. */
  lemma ChecklistAdvice()
    ensures AdviceCount(RiskIds) == 6
  {
    var ids := RiskIds;
    assert ids[1..][1..][1..][1..][1..][1..][1..][1..][1..] == [];
  }

  /** The nine scenarios as the tool starts: none checked. */
  const DataLossRisk := RiskCategory(DataLoss, "Data Loss",
    "Loss of critical business data due to hardware failure, human error, or cyber attacks.", false, 3, 3)
  const SystemOutageRisk := RiskCategory(SystemOutage, "System Outage",
    "Unplanned downtime of critical systems affecting business operations.", false, 3, 2)
  const NetworkFailureRisk := RiskCategory(NetworkFailure, "Network Failure",
    "Loss of connectivity between systems or to external services.", false, 2, 2)
  const RansomwareRisk := RiskCategory(Ransomware, "Ransomware Attack",
    "Malicious encryption of data with demands for payment to restore access.", false, 5, 3)
  const NaturalDisasterRisk := RiskCategory(NaturalDisaster, "Natural Disaster",
    "Physical damage to infrastructure due to fire, flood, earthquake, etc.", false, 5, 1)
  const CloudProviderRisk := RiskCategory(CloudProvider, "Cloud Provider Outage",
    "Service disruption from your cloud infrastructure provider.", false, 4, 2)
  const ContainerFailureRisk := RiskCategory(ContainerFailure, "Container Orchestration Failure",
    "Failures in container management systems like Kubernetes or Docker Swarm.", false, 3, 2)
  const ConfigDriftRisk := RiskCategory(ConfigDrift, "Configuration Drift",
    "Inconsistencies between environments causing application failures.", false, 2, 3)
  const CiCdPipelineRisk := RiskCategory(CiCdPipeline, "CI/CD Pipeline Failure",
    "Failures in automated deployment processes affecting application updates.", false, 2, 2)
  const InitialRisks: seq<RiskCategory> := [
    DataLossRisk, SystemOutageRisk, NetworkFailureRisk, RansomwareRisk, NaturalDisasterRisk,
    CloudProviderRisk, ContainerFailureRisk, ConfigDriftRisk, CiCdPipelineRisk]

  /** The Calculate button is enabled once a business type is chosen and some risk is checked. */
  predicate CalculateEnabled(businessType: string, rs: seq<RiskCategory>) {
    businessType != "" && exists i :: 0 <= i < |rs| && rs[i].checked
  }

  /** So an enabled button always leads to a completed assessment. */
  lemma EnabledHasSelection(businessType: string, rs: seq<RiskCategory>)
    requires CalculateEnabled(businessType, rs)
    ensures Selected(rs) != []
  {
    var i :| 0 <= i < |rs| && rs[i].checked;
    assert rs[i] in Selected(rs);
  }

  // ---------- the checklist handlers ----------

  /** The nine scenarios, in order, with every slider in 1..5. */
  predicate WellFormedChecklist(rs: seq<RiskCategory>) {
    Ids(rs) == RiskIds && AllInScale(rs)
  }

  lemma InitialWellFormed()
    ensures WellFormedChecklist(InitialRisks)
  {
    assert forall i :: 0 <= i < |InitialRisks| ==> InitialRisks[i].id == RiskIds[i];
  }

  /** The change one handler makes to one risk. */
  datatype Edit = Check(checked: bool) | SetImpact(impact: int) | SetLikelihood(likelihood: int)

  function Apply(r: RiskCategory, e: Edit): RiskCategory {
    match e
    case Check(c) => r.(checked := c)
    case SetImpact(v) => r.(impact := v)
    case SetLikelihood(v) => r.(likelihood := v)
  }

  /** `riskCategories.map(risk => risk.id === id ? { ...risk, ... } : risk)`. */
  function Updated(rs: seq<RiskCategory>, id: RiskId, e: Edit): (out: seq<RiskCategory>)
    ensures |out| == |rs|
    ensures forall i :: 0 <= i < |rs| ==> out[i] == if rs[i].id == id then Apply(rs[i], e) else rs[i]
  {
    seq(|rs|, i requires 0 <= i < |rs| => if rs[i].id == id then Apply(rs[i], e) else rs[i])
  }

  /** An edit whose slider value is in 1..5 keeps the checklist well formed. */
  lemma UpdatedWellFormed(rs: seq<RiskCategory>, id: RiskId, e: Edit)
    requires WellFormedChecklist(rs)
    requires e.SetImpact? ==> InScale(e.impact)
    requires e.SetLikelihood? ==> InScale(e.likelihood)
    ensures WellFormedChecklist(Updated(rs, id, e))
  {
    var out := Updated(rs, id, e);
    assert Ids(out) == Ids(rs);
  }

  /** The checklist after Reset: every risk unchecked, nothing else changed. */
  function Unchecked(rs: seq<RiskCategory>): (out: seq<RiskCategory>)
    ensures |out| == |rs|
    ensures forall i :: 0 <= i < |rs| ==> out[i] == rs[i].(checked := false)
  {
    seq(|rs|, i requires 0 <= i < |rs| => rs[i].(checked := false))
  }

  lemma UncheckedWellFormed(rs: seq<RiskCategory>)
    requires WellFormedChecklist(rs)
    ensures WellFormedChecklist(Unchecked(rs)) && Selected(Unchecked(rs)) == []
  {
    var out := Unchecked(rs);
    assert Ids(out) == Ids(rs);
    NothingChecked(out);
  }

  lemma {:induction false} NothingChecked(rs: seq<RiskCategory>)
    requires forall i :: 0 <= i < |rs| ==> !rs[i].checked
    ensures Selected(rs) == []
  {
    if rs != [] {
      NothingChecked(rs[1..]);
    }
  }

  /** Either no result yet, or a score in 1..25 shown with its band. */
  predicate ConsistentResult(score: int, level: string) {
    (level == "" && score == 0) || (1 <= score <= 25 && level == ScoreBand(score))
  }

  /** The tool's state. */
  class RiskAssessmentTool {
    var businessType: string
    var assessmentComplete: bool
    var overallRiskScore: int
    var riskLevel: string
    var riskCategories: seq<RiskCategory>

    /**
     * The nine scenarios keep their ids and order, the sliders stay in 1..5,
     * and the level shown is the band of the score once a score exists.
     */
    ghost predicate Valid()
      reads this
    {
      && WellFormedChecklist(riskCategories)
      && ConsistentResult(overallRiskScore, riskLevel)
      && (assessmentComplete ==> riskLevel != "")
    }

    constructor ()
      ensures Valid()
      ensures businessType == "" && !assessmentComplete && overallRiskScore == 0 && riskLevel == ""
      ensures riskCategories == InitialRisks
    {
      businessType, assessmentComplete, overallRiskScore, riskLevel := "", false, 0, "";
      riskCategories := InitialRisks;
      InitialWellFormed();
    }

    method SetBusinessType(t: string)
      modifies this`businessType
      ensures businessType == t
    {
      businessType := t;
    }

    /** `handleRiskToggle`: only the `checked` field of the risk with this id changes. */
    method HandleRiskToggle(id: RiskId, checked: bool)
      requires Valid()
      modifies this`riskCategories
      ensures Valid()
      ensures riskCategories == Updated(old(riskCategories), id, Check(checked))
    {
      UpdatedWellFormed(riskCategories, id, Check(checked));
      riskCategories := Updated(riskCategories, id, Check(checked));
    }

    /** `handleImpactChange`: only the impact of the risk with this id changes; the slider gives 1..5. */
    method HandleImpactChange(id: RiskId, value: int)
      requires Valid() && InScale(value)
      modifies this`riskCategories
      ensures Valid()
      ensures riskCategories == Updated(old(riskCategories), id, SetImpact(value))
    {
      UpdatedWellFormed(riskCategories, id, SetImpact(value));
      riskCategories := Updated(riskCategories, id, SetImpact(value));
    }

    /** `handleLikelihoodChange`: only the likelihood of the risk with this id changes. */
    method HandleLikelihoodChange(id: RiskId, value: int)
      requires Valid() && InScale(value)
      modifies this`riskCategories
      ensures Valid()
      ensures riskCategories == Updated(old(riskCategories), id, SetLikelihood(value))
    {
      UpdatedWellFormed(riskCategories, id, SetLikelihood(value));
      riskCategories := Updated(riskCategories, id, SetLikelihood(value));
    }

    /**
     * `calculateRisk`: with nothing checked only `assessmentComplete` is
     * cleared; otherwise the score is the rounded mean of the products over
     * the checked risks and the level its band.
     */
    method CalculateRisk()
      requires Valid()
      modifies this`assessmentComplete, this`overallRiskScore, this`riskLevel
      ensures Valid()
      ensures Selected(riskCategories) == [] ==>
        !assessmentComplete && overallRiskScore == old(overallRiskScore) && riskLevel == old(riskLevel)
      ensures Selected(riskCategories) != [] ==>
        && assessmentComplete
        && overallRiskScore == RoundedMean(TotalScore(Selected(riskCategories)), |Selected(riskCategories)|)
        && riskLevel == ScoreBand(overallRiskScore)
    {
      var selected := Selected(riskCategories);
      if |selected| == 0 {
        assessmentComplete := false;
        return;
      }
      var total := SumOfProducts(selected);
      SelectedInScale(riskCategories);
      TotalScoreBounds(selected);
      var avg := RoundedMean(total, |selected|);
      RoundedMeanBounds(total, |selected|);
      overallRiskScore := avg;
      if avg < 6 {
        riskLevel := "Low";
      } else if avg < 12 {
        riskLevel := "Medium";
      } else if avg < 20 {
        riskLevel := "High";
      } else {
        riskLevel := "Very High";
      }
      assessmentComplete := true;
    }

    /**
     * `getRecommendations`: the business type's two recommendations, then one
     * for each high risk that has one, in checklist order; at most eight.
     */
    method GetRecommendations() returns (recommendations: seq<string>)
      requires Valid()
      ensures recommendations == BusinessAdvice(businessType) + AdviceFor(HighRiskIds(riskCategories))
      ensures |recommendations| <= 8
    {
      var highRisks := HighRiskIds(riskCategories);
      recommendations := AppendAdvice(BusinessAdvice(businessType), highRisks);
      RecommendationsAtMostEight(businessType, riskCategories);
    }

    /** Reset: every risk is unchecked, impacts and likelihoods are kept, the results are hidden. */
    method Reset()
      requires Valid()
      modifies this`riskCategories, this`assessmentComplete
      ensures Valid()
      ensures !assessmentComplete && riskCategories == Unchecked(old(riskCategories))
    {
      UncheckedWellFormed(riskCategories);
      riskCategories := Unchecked(riskCategories);
      assessmentComplete := false;
    }
  }

  /** The `forEach` that totals impact times likelihood over the checked risks. */
  method SumOfProducts(selected: seq<RiskCategory>) returns (total: int)
    ensures total == TotalScore(selected)
  {
    total := 0;
    var i := 0;
    while i < |selected|
      invariant 0 <= i <= |selected|
      invariant total == TotalScore(selected[..i])
    {
      assert selected[..i + 1][..i] == selected[..i];
      total := total + selected[i].impact * selected[i].likelihood;
      i := i + 1;
    }
    assert selected[..|selected|] == selected;
  }

  /** The `forEach` that pushes each high risk's recommendation. */
  method AppendAdvice(start: seq<string>, highRisks: seq<RiskId>) returns (recommendations: seq<string>)
    ensures recommendations == start + AdviceFor(highRisks)
  {
    recommendations := start;
    var i := 0;
    while i < |highRisks|
      invariant 0 <= i <= |highRisks|
      invariant recommendations == start + AdviceFor(highRisks[..i])
    {
      AdviceForSnoc(highRisks[..i], highRisks[i]);
      assert highRisks[..i + 1] == highRisks[..i] + [highRisks[i]];
      recommendations := recommendations + RiskAdvice(highRisks[i]);
      i := i + 1;
    }
    assert highRisks[..|highRisks|] == highRisks;
  }

  /** Two recommendations for the business and at most six for the nine risks. */
  lemma RecommendationsAtMostEight(businessType: string, rs: seq<RiskCategory>)
    requires WellFormedChecklist(rs)
    ensures |BusinessAdvice(businessType) + AdviceFor(HighRiskIds(rs))| <= 8
  {
    HighRiskAdviceAtMost(rs);
    ChecklistAdvice();
  }

  lemma {:induction false} AdviceForSnoc(ids: seq<RiskId>, id: RiskId)
    ensures AdviceFor(ids + [id]) == AdviceFor(ids) + RiskAdvice(id)
  {
    if ids == [] {
      assert [] + [id] == [id];
      assert [id][1..] == [];
    } else {
      assert (ids + [id])[1..] == ids[1..] + [id];
      AdviceForSnoc(ids[1..], id);
    }
  }

  /** The checked risks of an in-scale checklist are in scale. */
  lemma SelectedInScale(rs: seq<RiskCategory>)
    requires AllInScale(rs)
    ensures AllInScale(Selected(rs))
  {
    var sel := Selected(rs);
    forall i | 0 <= i < |sel| ensures InScale(sel[i].impact) && InScale(sel[i].likelihood) {
      assert sel[i] in rs;
    }
  }
}
