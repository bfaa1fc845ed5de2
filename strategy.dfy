/**
 * The rule-based strategy generator of the in-memory store: the recovery time
 * objective, the budget and the data volume of a request select one of six
 * fixed plans; the organisation size is not consulted.
 */
module Strategy {
  import opened Strings
  import opened Schema

  /** Whether a recovery time objective asks for a recovery within the hour. */
  predicate IsFastRto(rto: string) {
    StartsWith(rto, "Immediate") || StartsWith(rto, "Quick")
  }

  predicate IsSameDayRto(rto: string) {
    StartsWith(rto, "Same day")
  }

  /** The six fixed plans, by id. */
  const Plan1: StrategyResponse :=
    StrategyResponse(1, "Continuous Data Protection with Hot Standby",
      "A premium solution with real-time data replication and instantly available standby systems for near-zero downtime recovery.",
      "$$$$$", "4-8 weeks", "High",
      ["Implement continuous data replication", "Maintain hot standby systems",
       "Automate failover processes", "Conduct monthly recovery tests"])

  const Plan2: StrategyResponse :=
    StrategyResponse(2, "Hybrid Cloud Recovery",
      "Combines on-premises backup with cloud-based recovery to provide quick restoration times with moderate costs.",
      "$$$", "3-6 weeks", "Medium",
      ["Implement local backups for critical data", "Replicate to cloud for disaster recovery",
       "Set up automated recovery procedures", "Test recovery quarterly"])

  const Plan3: StrategyResponse :=
    StrategyResponse(3, "Prioritized Local Recovery",
      "Focuses resources on the most critical systems with local backup and optimized recovery procedures.",
      "$$", "2-4 weeks", "Medium-Low",
      ["Identify and prioritize critical systems", "Implement frequent local backups for critical data",
       "Create detailed manual recovery procedures", "Test recovery quarterly"])

  const Plan4: StrategyResponse :=
    StrategyResponse(4, "Tiered Cloud Backup Solution",
      "A scalable cloud-based backup solution with tiered recovery priorities for large data volumes.",
      "$$$", "4-6 weeks", "Medium",
      ["Implement tiered data classification", "Use cloud storage with varying retrieval times",
       "Create automation scripts for restore operations", "Conduct quarterly recovery tests"])

  const Plan5: StrategyResponse :=
    StrategyResponse(5, "Standard Cloud Backup",
      "A reliable cloud-based backup solution suitable for most business needs with same-day recovery capabilities.",
      "$$", "2-4 weeks", "Low",
      ["Configure daily cloud backups", "Implement retention policies",
       "Document recovery procedures", "Test recovery quarterly"])

  const Plan6: StrategyResponse :=
    StrategyResponse(6, "Basic Backup Solution",
    "A cost-effective backup solution focused on essential data protection with acceptable recovery times.",
    "$", "1-2 weeks", "Low",
    ["Implement weekly full backups", "Configure daily incremental backups",
     "Document basic recovery procedures", "Test recovery semi-annually"])

  /** `generateStrategy`: the first matching rule picks one of six fixed plans. */
  function GenerateStrategy(request: StrategyRequest): (s: StrategyResponse)
    ensures |s.recommendations| == 4
    ensures 1 <= s.id <= 6
  {
    if IsFastRto(request.recoveryTimeObjective) then
      if request.budget == "Extensive" then
        Plan1
      else if request.budget == "Moderate" then
        Plan2
      else
        Plan3
    else if IsSameDayRto(request.recoveryTimeObjective) then
      if request.dataVolume > 60.0 then
        Plan4
      else
        Plan5
    else
      Plan6
  }

  /** Which plan is chosen, stated rule by rule in both directions. */
  lemma StrategyChoice(request: StrategyRequest)
    ensures GenerateStrategy(request).id in {1, 2, 3} <==> IsFastRto(request.recoveryTimeObjective)
    ensures GenerateStrategy(request).id == 1 <==> IsFastRto(request.recoveryTimeObjective) && request.budget == "Extensive"
    ensures GenerateStrategy(request).id == 2 <==> IsFastRto(request.recoveryTimeObjective) && request.budget == "Moderate"
    ensures GenerateStrategy(request).id in {4, 5} <==>
      !IsFastRto(request.recoveryTimeObjective) && IsSameDayRto(request.recoveryTimeObjective)
    ensures GenerateStrategy(request).id == 4 <==>
      !IsFastRto(request.recoveryTimeObjective) && IsSameDayRto(request.recoveryTimeObjective) && request.dataVolume > 60.0
    ensures GenerateStrategy(request).id == 6 <==>
      !IsFastRto(request.recoveryTimeObjective) && !IsSameDayRto(request.recoveryTimeObjective)
  {
  }

  /** The organisation size never changes the plan. */
  lemma StrategyIgnoresSize(request: StrategyRequest, size: string)
    ensures GenerateStrategy(request.(organizationSize := size)) == GenerateStrategy(request)
  {
  }

  /** The plan's id determines the whole plan, and every plan passes the response schema. */
  lemma StrategyDeterminedById(a: StrategyRequest, b: StrategyRequest)
    ensures GenerateStrategy(a).id == GenerateStrategy(b).id ==> GenerateStrategy(a) == GenerateStrategy(b)
    ensures Conforms(StrategyResponseToJson(GenerateStrategy(a)), StrategyResponseShape)
  {
    StrategyResponseConforms(GenerateStrategy(a));
  }
}
