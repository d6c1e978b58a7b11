/**
 * The risk scoring tool of the airline and ethernet-adapter chatbots (two
 * identical copies): the banding of a score into a risk category, the report
 * that states it, and the tool list the classifiers search by name.
 *
 * The score is a `real`; drawing it and the profile at random, rounding it
 * to three places and reading the clock are left to the caller.
 */
module RiskTools {
  import opened Outcomes

  const VeryHigh := "Very High Risk"
  const High := "High Risk"
  const Moderate := "Moderate Risk"
  const Low := "Low Risk"
  const VeryLow := "Very Low Risk"

  /** The categories from lowest to highest. */
  const Categories: seq<string> := [VeryLow, Low, Moderate, High, VeryHigh]

  /** `_get_risk_category(score)` */
  function RiskCategory(score: real): (c: string)
    ensures c == VeryHigh <==> score >= 0.8
    ensures c == High <==> 0.6 <= score < 0.8
    ensures c == Moderate <==> 0.4 <= score < 0.6
    ensures c == Low <==> 0.2 <= score < 0.4
    ensures c == VeryLow <==> score < 0.2
  {
    if score >= 0.8 then VeryHigh
    else if score >= 0.6 then High
    else if score >= 0.4 then Moderate
    else if score >= 0.2 then Low
    else VeryLow
  }

  /** How many of the four thresholds the score reaches. */
  function Band(score: real): (b: nat)
    ensures b < |Categories|
  {
    (if score >= 0.2 then 1 else 0) + (if score >= 0.4 then 1 else 0) + (if score >= 0.6 then 1 else 0) + (if score >= 0.8 then 1 else 0)
  }

  /** The category is the band's entry in the ordered list, so every score gets exactly one of the five. */
  lemma CategoryIsBand(score: real)
    ensures RiskCategory(score) == Categories[Band(score)]
  {
  }

  /** The position of a category in the ordered list; 0 for any other string. */
  function Rank(c: string): nat {
    if c == Low then 1 else if c == Moderate then 2 else if c == High then 3 else if c == VeryHigh then 4 else 0
  }

  /** A higher score never gets a lower category. */
  lemma CategoryMonotone(s1: real, s2: real)
    requires s1 <= s2
    ensures Rank(RiskCategory(s1)) <= Rank(RiskCategory(s2))
  {
  }

  datatype Profile = Profile(businessId: string, industry: string, yearsInOperation: nat, annualRevenue: nat, location: string)

  /** `MOCK_PROFILES` */
  const MockProfiles: seq<Profile> := [
    Profile("TECH001", "Technology", 5, 2500000, "San Francisco"),
    Profile("FOOD002", "Restaurant", 12, 800000, "Chicago"),
    Profile("MANU003", "Manufacturing", 25, 15000000, "Detroit")
  ]

  const RiskFactors: seq<string> := ["Industry volatility", "Years in operation", "Revenue stability", "Geographic location", "Market conditions"]

  /** Decimal digits of a natural number, as an f-string prints it. */
  function NatText(n: nat): (s: string)
    ensures |s| > 0 && forall i :: 0 <= i < |s| ==> '0' <= s[i] <= '9'
  {
    var d := [('0' as int + n % 10) as char];
    if n < 10 then d else NatText(n / 10) + d
  }

  /** `"\n".join(f"- {factor}" for factor in factors)` */
  function FactorLines(factors: seq<string>): string {
    if |factors| == 0 then ""
    else if |factors| == 1 then "- " + factors[0]
    else "- " + factors[0] + "\n" + FactorLines(factors[1..])
  }

  function CategoryLine(score: real): string {
    "Risk Category: " + RiskCategory(score) + "\n\n"
  }

  /**
   * The report of `calculate_risk_score` for a profile and a score; the
   * printed score and the timestamp are given as text.
   */
  function Report(p: Profile, score: real, scoreText: string, generated: string): string {
    "Risk Assessment Report for " + p.industry + " Business\n"
    + "Business ID: " + p.businessId + "\n"
    + "Location: " + p.location + "\n"
    + "Years Operating: " + NatText(p.yearsInOperation) + "\n"
    + "Generated: " + generated + "\n\n"
    + "Risk Score: " + scoreText + "\n"
    + CategoryLine(score)
    + "Key Risk Factors Analyzed:\n"
    + FactorLines(RiskFactors)
  }

  /** The report's category line is the band of the score it was computed from, right after the score line. */
  lemma ReportStatesCategory(p: Profile, score: real, scoreText: string, generated: string)
    ensures var r := Report(p, score, scoreText, generated);
      var head := "Risk Assessment Report for " + p.industry + " Business\n"
        + "Business ID: " + p.businessId + "\n"
        + "Location: " + p.location + "\n"
        + "Years Operating: " + NatText(p.yearsInOperation) + "\n"
        + "Generated: " + generated + "\n\n"
        + "Risk Score: " + scoreText + "\n";
      r[|head|..|head| + |CategoryLine(score)|] == "Risk Category: " + RiskCategory(score) + "\n\n"
  {
  }

  // ---------------------------------------------------------------------------
  // The tool list
  // ---------------------------------------------------------------------------

  /** A function tool's metadata. */
  datatype Tool = Tool(name: string, description: string)

  const CalculateRiskScore := "calculate_risk_score"

  /** `get_all_tools()` */
  function GetAllTools(): (tools: seq<Tool>)
    ensures |tools| == 1 && tools[0].name == CalculateRiskScore
  {
    [Tool(CalculateRiskScore, "Calculate risk score for a random business profile")]
  }

  /** `next(t for t in tools if t.metadata.name == name)`, `None` for `StopIteration`. */
  function FindTool(tools: seq<Tool>, name: string): (r: Option<Tool>)
    ensures r.None? <==> forall i :: 0 <= i < |tools| ==> tools[i].name != name
    ensures r.Some? ==> exists i :: 0 <= i < |tools| && tools[i] == r.value && r.value.name == name &&
                          forall j :: 0 <= j < i ==> tools[j].name != name
  {
    if |tools| == 0 then None
    else if tools[0].name == name then Some(tools[0])
    else
      var rest := FindTool(tools[1..], name);
      assert forall i :: 1 <= i < |tools| ==> tools[i] == tools[1..][i - 1];
      rest
  }

  /** The classifiers' lookup of "calculate_risk_score" always finds the one tool. */
  lemma RiskToolFound()
    ensures FindTool(GetAllTools(), CalculateRiskScore) == Some(GetAllTools()[0])
  {
  }
}
