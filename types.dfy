/** The application's data types: three enumerations with their exact wire
    strings, the trend literal union, the route submitted by the form, the
    analysis returned by the remote model and the page's form state.

    The fields the source types as an enumeration (`transportMode`,
    `userRole`, `riskLevel`, `riskTrend`) hold their wire strings in the
    records, because nothing checks them at run time: the form writes the raw
    value of a `<select>` and the analysis comes out of an unchecked
    `JSON.parse`. The enumeration datatypes name the legal values, and each
    `...FromWire` function recognises them. */
module Types {
  import opened Wrappers

  // ---- UserRole ----

  datatype UserRole = ImporterExporter | LogisticsManager

  const AllUserRoles: seq<UserRole> := [ImporterExporter, LogisticsManager]

  function UserRoleWire(u: UserRole): string {
    match u
    case ImporterExporter => "Importer/Exporter"
    case LogisticsManager => "Logistics Manager"
  }

  /** Recognises a role's wire string; any other string is not a role. */
  function UserRoleFromWire(s: string): (r: Option<UserRole>)
    ensures r.Some? ==> UserRoleWire(r.value) == s
    ensures r.None? ==> forall u :: UserRoleWire(u) != s
  {
    if s == "Importer/Exporter" then Some(ImporterExporter)
    else if s == "Logistics Manager" then Some(LogisticsManager)
    else None
  }

  /** There are exactly two roles, and their wire strings are distinct, so a
      wire string names at most one role. */
  lemma UserRoleCases(u: UserRole, s: string)
    ensures u in AllUserRoles && |AllUserRoles| == 2
    ensures AllUserRoles[0] != AllUserRoles[1]
    ensures UserRoleFromWire(s) == Some(u) <==> UserRoleWire(u) == s
  {
  }

  // ---- TransportMode ----

  datatype TransportMode = Sea | Air | Land

  const AllTransportModes: seq<TransportMode> := [Sea, Air, Land]

  function TransportModeWire(m: TransportMode): string {
    match m
    case Sea => "Sea Freight"
    case Air => "Air Freight"
    case Land => "Land/Rail"
  }

  /** Recognises a transport mode's wire string; any other string is not one. */
  function TransportModeFromWire(s: string): (r: Option<TransportMode>)
    ensures r.Some? ==> TransportModeWire(r.value) == s
    ensures r.None? ==> forall m :: TransportModeWire(m) != s
  {
    if s == "Sea Freight" then Some(Sea)
    else if s == "Air Freight" then Some(Air)
    else if s == "Land/Rail" then Some(Land)
    else None
  }

  /** There are exactly three transport modes, pairwise distinct, and their
      wire strings are pairwise distinct. */
  lemma TransportModeCases(m: TransportMode, s: string)
    ensures m in AllTransportModes && |AllTransportModes| == 3
    ensures forall i, j :: 0 <= i < j < 3 ==> AllTransportModes[i] != AllTransportModes[j]
    ensures TransportModeFromWire(s) == Some(m) <==> TransportModeWire(m) == s
  {
  }

  // ---- RiskLevel ----

  datatype RiskLevel = Low | Medium | High

  const AllRiskLevels: seq<RiskLevel> := [Low, Medium, High]

  function RiskLevelWire(l: RiskLevel): string {
    match l
    case Low => "Low"
    case Medium => "Medium"
    case High => "High"
  }

  /** Recognises a risk level's wire string; any other string is not one. */
  function RiskLevelFromWire(s: string): (r: Option<RiskLevel>)
    ensures r.Some? ==> RiskLevelWire(r.value) == s
    ensures r.None? ==> forall l :: RiskLevelWire(l) != s
  {
    if s == "Low" then Some(Low)
    else if s == "Medium" then Some(Medium)
    else if s == "High" then Some(High)
    else None
  }

  /** There are exactly three risk levels, and their wire strings are pairwise
      distinct. */
  lemma RiskLevelCases(l: RiskLevel, s: string)
    ensures l in AllRiskLevels && |AllRiskLevels| == 3
    ensures forall i, j :: 0 <= i < j < 3 ==> AllRiskLevels[i] != AllRiskLevels[j]
    ensures RiskLevelFromWire(s) == Some(l) <==> RiskLevelWire(l) == s
  {
  }

  // ---- riskTrend: "Increasing" | "Stable" | "Decreasing" ----

  datatype RiskTrend = Increasing | Stable | Decreasing

  const AllRiskTrends: seq<RiskTrend> := [Increasing, Stable, Decreasing]

  function RiskTrendWire(t: RiskTrend): string {
    match t
    case Increasing => "Increasing"
    case Stable => "Stable"
    case Decreasing => "Decreasing"
  }

  /** Recognises one of the three trend strings; any other string is not one. */
  function RiskTrendFromWire(s: string): (r: Option<RiskTrend>)
    ensures r.Some? ==> RiskTrendWire(r.value) == s
    ensures r.None? ==> forall t :: RiskTrendWire(t) != s
  {
    if s == "Increasing" then Some(Increasing)
    else if s == "Stable" then Some(Stable)
    else if s == "Decreasing" then Some(Decreasing)
    else None
  }

  /** The trend admits exactly three values with distinct strings. */
  lemma RiskTrendCases(t: RiskTrend, s: string)
    ensures t in AllRiskTrends && |AllRiskTrends| == 3
    ensures forall i, j :: 0 <= i < j < 3 ==> AllRiskTrends[i] != AllRiskTrends[j]
    ensures RiskTrendFromWire(s) == Some(t) <==> RiskTrendWire(t) == s
  {
  }

  // ---- Records ----

  /** The eight route fields the form submits. */
  datatype RouteData = RouteData(
    originCountry: string,
    originPort: string,
    destCountry: string,
    destPort: string,
    transportMode: string,
    cargoType: string,
    shipmentDate: string,
    userRole: string)

  /** The two enumeration-typed route fields hold legal wire strings. */
  predicate RouteEnumsValid(d: RouteData) {
    TransportModeFromWire(d.transportMode).Some? && UserRoleFromWire(d.userRole).Some?
  }

  datatype AlternativeRoute = AlternativeRoute(
    name: string,
    costImpact: string,
    timeImpact: string,
    riskLevel: string,
    description: string)

  datatype RecommendedOption = RecommendedOption(name: string, reason: string)

  datatype AnalysisResult = AnalysisResult(
    riskScore: int,
    riskLevel: string,
    riskFactors: seq<string>,
    delayProbability: int,
    riskTrend: string,
    alternatives: seq<AlternativeRoute>,
    recommendedOption: RecommendedOption,
    actionableInsights: seq<string>,
    plainLanguageExplanation: string,
    executiveSummary: string)

  /** The enumeration-typed fields of an analysis hold legal wire strings.
      Nothing in the application checks this. */
  predicate ResultEnumsValid(r: AnalysisResult) {
    && RiskLevelFromWire(r.riskLevel).Some?
    && RiskTrendFromWire(r.riskTrend).Some?
    && forall a :: a in r.alternatives ==> RiskLevelFromWire(a.riskLevel).Some?
  }

  /** The ranges the declarations state only in comments: a risk score from 1
      to 10 and a delay probability from 0 to 100. Nothing enforces them. */
  predicate InDocumentedRanges(r: AnalysisResult) {
    1 <= r.riskScore <= 10 && 0 <= r.delayProbability <= 100
  }

  /** The page state: the submitted route (`None` for the placeholder `{}` the
      page starts with), the loading flag, and the optional result and error. */
  datatype FormState = FormState(
    data: Option<RouteData>,
    isLoading: bool,
    result: Option<AnalysisResult>,
    error: Option<string>)
}
