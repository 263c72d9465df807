/** The dashboard's display logic: the colour and badge classes for a risk
    level, the two-slice gauge, the highlight of faster alternatives, the
    trend icon and the order in which lists are rendered. The risk levels it
    receives are the unchecked strings of the analysis, so every mapping has
    a default for strings that are not a risk level. */
module RiskDashboard {
  import opened Wrappers
  import opened JsString
  import opened Types

  const UnknownRiskColor := "#64748b"
  const UnknownRiskBg := "bg-slate-700"

  /** `getRiskColor`: the chart and score colour of a risk level. */
  function RiskColor(level: string): (c: string)
    ensures c == UnknownRiskColor <==> RiskLevelFromWire(level).None?
    ensures RiskLevelFromWire(level) == Some(Low) ==> c == "#10b981"
    ensures RiskLevelFromWire(level) == Some(Medium) ==> c == "#f59e0b"
    ensures RiskLevelFromWire(level) == Some(High) ==> c == "#ef4444"
  {
    if level == "Low" then "#10b981"
    else if level == "Medium" then "#f59e0b"
    else if level == "High" then "#ef4444"
    else UnknownRiskColor
  }

  /** `getRiskBg`: the badge classes of a risk level. */
  function RiskBg(level: string): (c: string)
    ensures c == UnknownRiskBg <==> RiskLevelFromWire(level).None?
    ensures RiskLevelFromWire(level) == Some(Low) ==> c == "bg-emerald-500/10 text-emerald-400 border-emerald-500/20"
    ensures RiskLevelFromWire(level) == Some(Medium) ==> c == "bg-amber-500/10 text-amber-400 border-amber-500/20"
    ensures RiskLevelFromWire(level) == Some(High) ==> c == "bg-red-500/10 text-red-400 border-red-500/20"
  {
    if level == "Low" then "bg-emerald-500/10 text-emerald-400 border-emerald-500/20"
    else if level == "Medium" then "bg-amber-500/10 text-amber-400 border-amber-500/20"
    else if level == "High" then "bg-red-500/10 text-red-400 border-red-500/20"
    else UnknownRiskBg
  }

  /** The three levels get three different colours and three different badge
      classes, so colour and badge each identify the level. */
  lemma RiskStylesDistinct(a: string, b: string)
    requires RiskLevelFromWire(a).Some? && RiskLevelFromWire(b).Some?
    ensures RiskColor(a) == RiskColor(b) <==> a == b
    ensures RiskBg(a) == RiskBg(b) <==> a == b
  {
  }

  /** An analysis whose enumeration fields hold legal levels is drawn with no
      fallback style: its gauge, score and badge get a level's colour and
      classes, and so does the badge of every alternative. An analysis whose
      level is not a legal wire string gets the fallback colour and badge. */
  lemma ValidResultIsStyled(r: AnalysisResult)
    ensures ResultEnumsValid(r) ==>
              && RiskColor(r.riskLevel) != UnknownRiskColor
              && RiskBg(r.riskLevel) != UnknownRiskBg
              && forall a :: a in r.alternatives ==> RiskBg(a.riskLevel) != UnknownRiskBg
    ensures RiskLevelFromWire(r.riskLevel).None? ==>
              RiskColor(r.riskLevel) == UnknownRiskColor && RiskBg(r.riskLevel) == UnknownRiskBg
  {
  }

  /** One slice of the score gauge and its fill colour. */
  datatype Slice = Slice(name: string, value: int, fill: string)

  const SafetyFill := "#334155"

  /** `riskData` with the two cells that colour it: the score, then what is
      left of 10. */
  function GaugeSlices(r: AnalysisResult): (slices: seq<Slice>)
    ensures |slices| == 2
    ensures slices[0].name == "Risk" && slices[1].name == "Safety"
    ensures slices[0].value == r.riskScore
    ensures slices[0].value + slices[1].value == 10
    ensures slices[0].fill == RiskColor(r.riskLevel) && slices[1].fill == SafetyFill
  {
    [Slice("Risk", r.riskScore, RiskColor(r.riskLevel)),
     Slice("Safety", 10 - r.riskScore, SafetyFill)]
  }

  /** Nothing guards the gauge: its slices are both non-negative exactly when
      the score lies in 0..10, so a score above 10 gives a negative slice. A
      score in the documented range always gives a proper gauge. */
  lemma GaugeUnguarded(r: AnalysisResult)
    ensures (GaugeSlices(r)[0].value >= 0 && GaugeSlices(r)[1].value >= 0) <==> 0 <= r.riskScore <= 10
    ensures InDocumentedRanges(r) ==> GaugeSlices(r)[1].value >= 0
  {
  }

  /** `timeImpact.toLowerCase().includes('faster')`. */
  function IsFaster(timeImpact: string): (b: bool)
    ensures b <==> exists i :: OccursAt(Lower(timeImpact), "faster", i)
  {
    Includes(Lower(timeImpact), "faster")
  }

  /** The highlight ignores case: two time impacts that differ only in the
      ASCII case of their letters are highlighted alike. */
  lemma IsFasterIgnoresCase(timeImpact: string, other: string)
    requires |timeImpact| == |other|
    requires forall i :: 0 <= i < |timeImpact| ==> SameUpToCase(timeImpact[i], other[i])
    ensures IsFaster(timeImpact) == IsFaster(other)
  {
    LowerIgnoresCase(timeImpact, other);
  }

  /** The examples of the schema: "Faster" is highlighted, "+2 days" is not. */
  lemma IsFasterExamples()
    ensures IsFaster("Faster")
    ensures !IsFaster("+2 days")
  {
    assert Lower("Faster") == "faster";
    assert OccursAt(Lower("Faster"), "faster", 0);
    var slow := Lower("+2 days");
    assert slow == "+2 days";
    forall i ensures !OccursAt(slow, "faster", i) {
      if 0 <= i <= |slow| - 6 {
        assert slow[i..i + 6][0] == slow[i] != 'f';
      }
    }
  }

  datatype TrendIcon = TrendingUp | TrendingDown | Minus

  /** The icon that belongs to each trend value. */
  function IconOf(t: RiskTrend): TrendIcon {
    match t
    case Increasing => TrendingUp
    case Decreasing => TrendingDown
    case Stable => Minus
  }

  /** The icons the three independent conditionals render for a trend
      string: exactly one for each of the three trend values, the right
      one, and none for any other string. */
  function TrendIcons(trend: string): (icons: seq<TrendIcon>)
    ensures |icons| <= 1
    ensures |icons| == 1 <==> RiskTrendFromWire(trend).Some?
    ensures |icons| == 1 ==> icons[0] == IconOf(RiskTrendFromWire(trend).value)
  {
    (if trend == "Increasing" then [TrendingUp] else [])
    + (if trend == "Decreasing" then [TrendingDown] else [])
    + (if trend == "Stable" then [Minus] else [])
  }

  /** An element of a rendered list, keyed by its index. */
  datatype Item<T> = Item(key: nat, content: T)

  /** `.map((x, idx) => ...)` over `xs[start..]`, the keys counting from
      `start`. */
  function RenderFrom<T>(xs: seq<T>, start: nat): (items: seq<Item<T>>)
    requires start <= |xs|
    ensures |items| == |xs| - start
    ensures forall i :: 0 <= i < |items| ==> items[i] == Item(start + i, xs[start + i])
    decreases |xs| - start
  {
    if start == |xs| then [] else [Item(start, xs[start])] + RenderFrom(xs, start + 1)
  }

  /** One item per element, in input order, keyed by position: nothing is
      filtered, reordered or truncated. */
  function RenderList<T>(xs: seq<T>): (items: seq<Item<T>>)
    ensures |items| == |xs|
    ensures forall i :: 0 <= i < |xs| ==> items[i].key == i && items[i].content == xs[i]
  {
    RenderFrom(xs, 0)
  }

  /** A row of the alternatives table. */
  datatype AlternativeRow = AlternativeRow(
    key: nat,
    name: string,
    description: string,
    timeImpact: string,
    timeHighlighted: bool,
    costImpact: string,
    riskBadge: string,
    riskLevel: string)

  /** The alternatives table: one row per alternative, in order, showing its
      fields, with the time highlighted when it reads "faster" and the badge
      of its risk level. */
  function AlternativeRows(alts: seq<AlternativeRoute>): (rows: seq<AlternativeRow>)
    ensures |rows| == |alts|
    ensures forall i :: 0 <= i < |alts| ==>
      && rows[i].key == i
      && rows[i].name == alts[i].name && rows[i].description == alts[i].description
      && rows[i].timeImpact == alts[i].timeImpact && rows[i].costImpact == alts[i].costImpact
      && rows[i].riskLevel == alts[i].riskLevel
      && rows[i].timeHighlighted == IsFaster(alts[i].timeImpact)
      && rows[i].riskBadge == RiskBg(alts[i].riskLevel)
  {
    var items := RenderList(alts);
    seq(|items|, i requires 0 <= i < |items| =>
      var a := items[i].content;
      AlternativeRow(items[i].key, a.name, a.description, a.timeImpact, IsFaster(a.timeImpact),
                     a.costImpact, RiskBg(a.riskLevel), a.riskLevel))
  }

  /** The recommended actions and the risk factors, rendered in order. */
  function InsightItems(r: AnalysisResult): (items: seq<Item<string>>)
    ensures |items| == |r.actionableInsights|
    ensures forall i :: 0 <= i < |items| ==> items[i].content == r.actionableInsights[i]
  {
    RenderList(r.actionableInsights)
  }

  function RiskFactorItems(r: AnalysisResult): (items: seq<Item<string>>)
    ensures |items| == |r.riskFactors|
    ensures forall i :: 0 <= i < |items| ==> items[i].content == r.riskFactors[i]
  {
    RenderList(r.riskFactors)
  }
}
