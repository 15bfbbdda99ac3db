/** The recruiter-training section of the report: an overall rating badge,
    the strengths, the performance gaps with a severity badge, and the
    recommendations with a priority badge and a priority accent. Every list
    prop may be missing and then counts as empty. */
module TrainingRecommendations {
  import opened Common

  datatype Recommendation = Recommendation(
    area: string,
    priority: string,
    issue: string,
    recommendation: string,
    resources: seq<string>,
    expectedImprovement: string)

  datatype PerformanceGap = PerformanceGap(
    metric: string,
    currentScore: real,
    targetScore: real,
    gap: real,
    severity: string)

  /** A missing list prop defaults to the empty list. */
  function OrEmpty<T>(xs: Option<seq<T>>): (r: seq<T>)
    ensures xs.None? ==> r == []
    ensures xs.Some? ==> r == xs.value
  {
    match xs
    case None => []
    case Some(v) => v
  }

  // ---------------------------------------------------------------------------
  // Lookup tables
  // ---------------------------------------------------------------------------

  /** The props spread onto a priority badge. */
  datatype BadgeStyle = BadgeStyle(variant: Variant, className: string)

  const HighlightOrange: string := "bg-orange-500 hover:bg-orange-600"

  const PriorityStyles: map<string, BadgeStyle> := map[
    "critical" := BadgeStyle(Destructive, ""),
    "high" := BadgeStyle(Default, HighlightOrange),
    "medium" := BadgeStyle(Secondary, ""),
    "low" := BadgeStyle(Outline, "")]

  /** `getPriorityBadge`: the table's entry, and the medium badge for a
      priority the table does not know. */
  function PriorityBadge(priority: string): (b: BadgeStyle)
    ensures b.variant == Destructive <==> priority == "critical"
    ensures b.variant == Default <==> priority == "high"
    ensures b.variant == Outline <==> priority == "low"
    ensures b.variant == Secondary <==> priority !in {"critical", "high", "low"}
    ensures b.className == HighlightOrange <==> priority == "high"
    ensures b.className != HighlightOrange ==> b.className == ""
  {
    if priority in PriorityStyles then PriorityStyles[priority] else PriorityStyles["medium"]
  }

  /** The overall rating badge. */
  datatype RatingBadge = RatingBadge(variant: Variant, text: string)

  const RatingBadges: map<string, RatingBadge> := map[
    "excellent" := RatingBadge(Default, "Excellent Performance"),
    "good" := RatingBadge(Secondary, "Good Performance"),
    "needs_improvement" := RatingBadge(Outline, "Needs Improvement"),
    "poor" := RatingBadge(Destructive, "Requires Attention")]

  /** `getRatingBadge(overallRating)`: the table's entry for a known rating;
      no badge for a missing or unknown one. */
  function RatingBadgeFor(rating: Option<string>): (b: Option<RatingBadge>)
    ensures b.Some? <==> rating.Some? && rating.value in {"excellent", "good", "needs_improvement", "poor"}
    ensures b.Some? ==> b.value == RatingBadges[rating.value]
  {
    var key := if rating.Some? then rating.value else "";
    if key in RatingBadges then Some(RatingBadges[key]) else None
  }

  /** Different known ratings get different badges, each its own variant. */
  lemma RatingBadgesDistinct(a: string, b: string)
    requires a in RatingBadges && b in RatingBadges && a != b
    ensures RatingBadges[a].variant != RatingBadges[b].variant
    ensures RatingBadges[a].text != RatingBadges[b].text
  {
  }

  /** The severity badge of a performance gap. */
  function SeverityVariant(severity: string): (v: Variant)
    ensures v == Destructive <==> severity == "critical"
    ensures v == Default <==> severity == "moderate"
    ensures v == Secondary <==> severity != "critical" && severity != "moderate"
  {
    if severity == "critical" then Destructive
    else if severity == "moderate" then Default
    else Secondary
  }

  /** The colour family of a recommendation's border and icon. */
  datatype Accent = RedAccent | OrangeAccent | BlueAccent

  function AccentOf(priority: string): (a: Accent)
    ensures a == RedAccent <==> priority == "critical"
    ensures a == OrangeAccent <==> priority == "high"
  {
    if priority == "critical" then RedAccent
    else if priority == "high" then OrangeAccent
    else BlueAccent
  }

  /** The accent and the badge agree: red exactly with the destructive
      badge, orange exactly with the orange badge. */
  lemma AccentAgreesWithBadge(priority: string)
    ensures AccentOf(priority) == RedAccent <==> PriorityBadge(priority).variant == Destructive
    ensures AccentOf(priority) == OrangeAccent <==> PriorityBadge(priority).className == HighlightOrange
    ensures AccentOf(priority) == BlueAccent <==>
              PriorityBadge(priority).variant == Secondary || PriorityBadge(priority).variant == Outline
  {
  }

  function UpperString(s: string): (r: string)
    ensures |r| == |s|
    ensures forall i :: 0 <= i < |s| ==> r[i] == UpperChar(s[i])
  {
    seq(|s|, i requires 0 <= i < |s| => UpperChar(s[i]))
  }

  // ---------------------------------------------------------------------------
  // The section
  // ---------------------------------------------------------------------------

  datatype GapRow = GapRow(gap: PerformanceGap, severityVariant: Variant)

  datatype RecommendationRow = RecommendationRow(
    recommendation: Recommendation,
    accent: Accent,
    badge: BadgeStyle,
    badgeText: string,
    resources: Option<seq<string>>)

  function RenderRecommendation(rec: Recommendation): (row: RecommendationRow)
    ensures row.badge == PriorityBadge(rec.priority) && row.accent == AccentOf(rec.priority)
    ensures row.badgeText == UpperString(rec.priority)
    ensures row.recommendation == rec
    ensures row.resources.None? <==> rec.resources == []
    ensures row.resources.Some? ==> row.resources.value == rec.resources
  {
    RecommendationRow(
      rec, AccentOf(rec.priority), PriorityBadge(rec.priority), UpperString(rec.priority),
      if rec.resources == [] then None else Some(rec.resources))
  }

  /** What the section shows: each list only when it is not empty. */
  datatype Section = Section(
    rating: Option<RatingBadge>,
    strengths: Option<seq<string>>,
    gaps: Option<seq<GapRow>>,
    recommendations: Option<seq<RecommendationRow>>)

  /** The component. Nothing at all when there are neither recommendations
      nor strengths, performance gaps or not. */
  function Render(
    recommendations: Option<seq<Recommendation>>,
    performanceGaps: Option<seq<PerformanceGap>>,
    strengthAreas: Option<seq<string>>,
    overallRating: Option<string>): (s: Option<Section>)
    ensures s.None? <==> OrEmpty(recommendations) == [] && OrEmpty(strengthAreas) == []
    ensures s.Some? ==> s.value.rating == RatingBadgeFor(overallRating)
    ensures s.Some? ==> (s.value.strengths.Some? <==> OrEmpty(strengthAreas) != [])
    ensures s.Some? ==> (s.value.gaps.Some? <==> OrEmpty(performanceGaps) != [])
    ensures s.Some? ==> (s.value.recommendations.Some? <==> OrEmpty(recommendations) != [])
    ensures s.Some? && s.value.strengths.Some? ==> s.value.strengths.value == OrEmpty(strengthAreas)
    ensures s.Some? && s.value.gaps.Some? ==>
              |s.value.gaps.value| == |OrEmpty(performanceGaps)| &&
              forall i :: 0 <= i < |s.value.gaps.value| ==>
                s.value.gaps.value[i].gap == OrEmpty(performanceGaps)[i] &&
                s.value.gaps.value[i].severityVariant == SeverityVariant(OrEmpty(performanceGaps)[i].severity)
    ensures s.Some? && s.value.recommendations.Some? ==>
              |s.value.recommendations.value| == |OrEmpty(recommendations)| &&
              forall i :: 0 <= i < |s.value.recommendations.value| ==>
                s.value.recommendations.value[i] == RenderRecommendation(OrEmpty(recommendations)[i])
  {
    var recs := OrEmpty(recommendations);
    var gaps := OrEmpty(performanceGaps);
    var strengths := OrEmpty(strengthAreas);
    if |recs| == 0 && |strengths| == 0 then None
    else
      Some(Section(
        RatingBadgeFor(overallRating),
        if strengths == [] then None else Some(strengths),
        if gaps == [] then None
        else Some(seq(|gaps|, i requires 0 <= i < |gaps| => GapRow(gaps[i], SeverityVariant(gaps[i].severity)))),
        if recs == [] then None
        else Some(seq(|recs|, i requires 0 <= i < |recs| => RenderRecommendation(recs[i])))))
  }

  /** Performance gaps alone never make the section appear. */
  lemma GapsDoNotDecideVisibility(
    recommendations: Option<seq<Recommendation>>,
    gaps1: Option<seq<PerformanceGap>>,
    gaps2: Option<seq<PerformanceGap>>,
    strengthAreas: Option<seq<string>>,
    overallRating: Option<string>)
    ensures Render(recommendations, gaps1, strengthAreas, overallRating).None? ==
            Render(recommendations, gaps2, strengthAreas, overallRating).None?
  {
  }
}
