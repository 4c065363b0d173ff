/**
 * The system-resources card: the server-reported risk level with its "LOW"
 * fallback, the badge colour, and the four problem counts.
 */
module SystemStats {
  import opened Wrappers
  import Dashboard

  /**
   * The `/resource-analysis` payload as the card reads it. The lists hold one
   * entry per flagged process; only their lengths are shown.
   */
  datatype ResourceAnalysis = ResourceAnalysis(
    riskLevel: Option<string>,
    highCpu: Option<seq<int>>,
    highMemory: Option<seq<int>>,
    zombies: Option<seq<int>>,
    stuck: Option<seq<int>>)

  /** `resourceAnalysis?.risk_level || "LOW"`: absent and empty both fall back. */
  function RiskLevel(analysis: Option<ResourceAnalysis>): (level: string)
    ensures level != ""
    ensures (analysis.Some? && analysis.value.riskLevel.Some? && analysis.value.riskLevel.value != "")
      ==> level == analysis.value.riskLevel.value
    ensures (analysis.None? || analysis.value.riskLevel.None? || analysis.value.riskLevel.value == "")
      ==> level == "LOW"
  {
    if analysis.Some? && analysis.value.riskLevel.Some? && analysis.value.riskLevel.value != ""
    then analysis.value.riskLevel.value
    else "LOW"
  }

  /** HIGH and MEDIUM have their own colours; every other level, LOW included, is green. */
  function RiskColor(level: string): (c: string)
    ensures level == "HIGH" <==> c == "#ff4444"
    ensures level == "MEDIUM" <==> c == "#ffaa00"
    ensures level != "HIGH" && level != "MEDIUM" <==> c == "#00ff88"
  {
    if level == "HIGH" then "#ff4444"
    else if level == "MEDIUM" then "#ffaa00"
    else "#00ff88"
  }

  /** On the three levels the card and the dashboard page use the same colours. */
  lemma AgreesWithDashboard(r: Dashboard.Risk)
    ensures RiskColor(Dashboard.RiskName(r)) == Dashboard.RiskColor(r)
  {
  }

  /** The badge colour: a function of the risk level alone. */
  function BadgeColor(analysis: Option<ResourceAnalysis>): (c: string)
    ensures analysis.None? ==> c == "#00ff88"
    ensures c == "#ff4444" <==> RiskLevel(analysis) == "HIGH"
    ensures c == "#ffaa00" <==> RiskLevel(analysis) == "MEDIUM"
  {
    RiskColor(RiskLevel(analysis))
  }

  /** Payloads that agree on the level get the same badge, whatever their lists. */
  lemma BadgeIgnoresCounts(a: ResourceAnalysis, b: ResourceAnalysis)
    requires a.riskLevel == b.riskLevel
    ensures BadgeColor(Some(a)) == BadgeColor(Some(b))
  {
  }

  /** Before the first payload the badge is the LOW colour. */
  lemma NotLoadedIsLow()
    ensures RiskLevel(None) == "LOW" && BadgeColor(None) == "#00ff88"
  {
  }

  /** `list?.length || 0`. */
  function CountOf(list: Option<seq<int>>): (n: nat)
    ensures list.None? ==> n == 0
    ensures list.Some? ==> n == |list.value|
  {
    if list.Some? then |list.value| else 0
  }

  /** The four counts, in the order the card lists them. */
  datatype Counts = Counts(highCpu: nat, highMemory: nat, zombies: nat, stuck: nat)

  function CountsOf(analysis: Option<ResourceAnalysis>): (c: Counts)
    ensures analysis.None? ==> c == Counts(0, 0, 0, 0)
    ensures analysis.Some? && analysis.value.highCpu.Some? ==> c.highCpu == |analysis.value.highCpu.value|
    ensures analysis.Some? && analysis.value.highMemory.Some? ==> c.highMemory == |analysis.value.highMemory.value|
    ensures analysis.Some? && analysis.value.zombies.Some? ==> c.zombies == |analysis.value.zombies.value|
    ensures analysis.Some? && analysis.value.stuck.Some? ==> c.stuck == |analysis.value.stuck.value|
    ensures analysis.Some? && analysis.value.highCpu.None? ==> c.highCpu == 0
    ensures analysis.Some? && analysis.value.highMemory.None? ==> c.highMemory == 0
    ensures analysis.Some? && analysis.value.zombies.None? ==> c.zombies == 0
    ensures analysis.Some? && analysis.value.stuck.None? ==> c.stuck == 0
  {
    match analysis
    case None => Counts(0, 0, 0, 0)
    case Some(a) => Counts(CountOf(a.highCpu), CountOf(a.highMemory), CountOf(a.zombies), CountOf(a.stuck))
  }
}
