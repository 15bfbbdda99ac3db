/** The four metric cards above the charts: each shows a score, the card's
    fixed explanation, and a description picked by a threshold ladder
    (`if (score >= t) return ...` chains, best band first). */
module MetricsCards {

  /** The band an `if (score >= t0) ...; if (score >= t1) ...` chain picks:
      the first threshold the score reaches, or one past the last. */
  function BandIndex(score: real, thresholds: seq<real>): (b: nat)
    ensures b <= |thresholds|
    ensures b < |thresholds| ==> score >= thresholds[b]
    ensures forall j :: 0 <= j < b ==> score < thresholds[j]
  {
    if thresholds == [] then 0
    else if score >= thresholds[0] then 0
    else 1 + BandIndex(score, thresholds[1..])
  }

  /** A higher score never lands in a worse band (a smaller index is a
      better band), whatever the thresholds. */
  lemma {:induction false} BandIndexMonotone(a: real, b: real, thresholds: seq<real>)
    requires a <= b
    ensures BandIndex(b, thresholds) <= BandIndex(a, thresholds)
    decreases |thresholds|
  {
    if thresholds != [] && b < thresholds[0] {
      BandIndexMonotone(a, b, thresholds[1..]);
    }
  }

  /** The band is the only index whose threshold is reached while no
      earlier one is. */
  lemma {:induction false} BandIndexIs(score: real, thresholds: seq<real>, k: nat)
    requires k <= |thresholds|
    requires k < |thresholds| ==> score >= thresholds[k]
    requires forall j :: 0 <= j < k ==> score < thresholds[j]
    ensures BandIndex(score, thresholds) == k
    decreases k
  {
    if k > 0 {
      assert score < thresholds[0];
      assert forall j :: 0 <= j < k - 1 ==> thresholds[1..][j] == thresholds[j + 1];
      BandIndexIs(score, thresholds[1..], k - 1);
    }
  }

  const SentimentThresholds: seq<real> := [8.0, 7.0, 6.0, 5.0, 3.0]
  const SentimentLabels: seq<string> :=
    ["Excellent sentiment", "Positive sentiment", "Good sentiment", "Neutral sentiment",
     "Below average", "Negative sentiment"]

  const EngagementThresholds: seq<real> := [85.0, 70.0, 55.0, 30.0]
  const EngagementLabels: seq<string> :=
    ["High engagement", "Good engagement", "Moderate engagement", "Low engagement",
     "Very low engagement"]

  /** The match and the flow ladders share these thresholds. */
  const AlignmentThresholds: seq<real> := [85.0, 75.0, 60.0, 40.0]
  const MatchLabels: seq<string> :=
    ["Excellent alignment", "Good alignment", "Fair alignment", "Poor alignment", "No alignment"]
  const FlowLabels: seq<string> :=
    ["Excellent flow", "Logical flow", "Acceptable flow", "Choppy flow", "Poor flow"]

  /** `getSentimentDescription`: the label of the first threshold of
      8/7/6/5/3 the score reaches, "Negative sentiment" below 3. */
  function SentimentDescription(score: real): (d: string)
    ensures d in SentimentLabels
    ensures d == "Excellent sentiment" <==> score >= 8.0
  {
    if score >= 8.0 then "Excellent sentiment"
    else if score >= 7.0 then "Positive sentiment"
    else if score >= 6.0 then "Good sentiment"
    else if score >= 5.0 then "Neutral sentiment"
    else if score >= 3.0 then "Below average"
    else "Negative sentiment"
  }

  /** `getEngagementDescription`: thresholds 85/70/55/30, "Very low
      engagement" below 30. */
  function EngagementDescription(score: real): (d: string)
    ensures d in EngagementLabels
    ensures d == "High engagement" <==> score >= 85.0
  {
    if score >= 85.0 then "High engagement"
    else if score >= 70.0 then "Good engagement"
    else if score >= 55.0 then "Moderate engagement"
    else if score >= 30.0 then "Low engagement"
    else "Very low engagement"
  }

  /** `getMatchDescription`: thresholds 85/75/60/40, "No alignment" below
      40. */
  function MatchDescription(score: real): (d: string)
    ensures d in MatchLabels
    ensures d == "Excellent alignment" <==> score >= 85.0
  {
    if score >= 85.0 then "Excellent alignment"
    else if score >= 75.0 then "Good alignment"
    else if score >= 60.0 then "Fair alignment"
    else if score >= 40.0 then "Poor alignment"
    else "No alignment"
  }

  /** `getFlowDescription`: the match thresholds with the flow labels. */
  function FlowDescription(score: real): (d: string)
    ensures d in FlowLabels
    ensures d == "Excellent flow" <==> score >= 85.0
  {
    if score >= 85.0 then "Excellent flow"
    else if score >= 75.0 then "Logical flow"
    else if score >= 60.0 then "Acceptable flow"
    else if score >= 40.0 then "Choppy flow"
    else "Poor flow"
  }

  /** Each description is the label, in its table, of the band the score
      falls in. */
  lemma SentimentLadder(score: real)
    ensures SentimentDescription(score) == SentimentLabels[BandIndex(score, SentimentThresholds)]
  {
    var k :=
      if score >= 8.0 then 0 else if score >= 7.0 then 1 else if score >= 6.0 then 2
      else if score >= 5.0 then 3 else if score >= 3.0 then 4 else 5;
    BandIndexIs(score, SentimentThresholds, k);
  }

  lemma EngagementLadder(score: real)
    ensures EngagementDescription(score) == EngagementLabels[BandIndex(score, EngagementThresholds)]
  {
    var k :=
      if score >= 85.0 then 0 else if score >= 70.0 then 1 else if score >= 55.0 then 2
      else if score >= 30.0 then 3 else 4;
    BandIndexIs(score, EngagementThresholds, k);
  }

  lemma AlignmentLadders(score: real)
    ensures MatchDescription(score) == MatchLabels[BandIndex(score, AlignmentThresholds)]
    ensures FlowDescription(score) == FlowLabels[BandIndex(score, AlignmentThresholds)]
  {
    var k :=
      if score >= 85.0 then 0 else if score >= 75.0 then 1 else if score >= 60.0 then 2
      else if score >= 40.0 then 3 else 4;
    BandIndexIs(score, AlignmentThresholds, k);
  }

  /** Where a label sits in its table, best first. */
  function Rank(labels: seq<string>, d: string): (i: nat)
    requires d in labels
    ensures i < |labels| && labels[i] == d
    ensures forall j :: 0 <= j < i ==> labels[j] != d
  {
    if labels[0] == d then 0 else 1 + Rank(labels[1..], d)
  }

  predicate Distinct(labels: seq<string>) {
    forall i, j :: 0 <= i < j < |labels| ==> labels[i] != labels[j]
  }

  /** No table repeats a label. */
  lemma TablesDistinct()
    ensures Distinct(SentimentLabels) && Distinct(EngagementLabels)
    ensures Distinct(MatchLabels) && Distinct(FlowLabels)
  {
  }

  /** In a table without repeats a label's rank is its band. */
  lemma RankOfBand(labels: seq<string>, b: nat)
    requires b < |labels| && Distinct(labels)
    ensures Rank(labels, labels[b]) == b
  {
  }

  /** No ladder ever describes a higher score worse than a lower one. */
  lemma SentimentMonotone(a: real, b: real)
    requires a <= b
    ensures Rank(SentimentLabels, SentimentDescription(b)) <= Rank(SentimentLabels, SentimentDescription(a))
  {
    TablesDistinct();
    SentimentLadder(a);
    SentimentLadder(b);
    BandIndexMonotone(a, b, SentimentThresholds);
    RankOfBand(SentimentLabels, BandIndex(a, SentimentThresholds));
    RankOfBand(SentimentLabels, BandIndex(b, SentimentThresholds));
  }

  lemma EngagementMonotone(a: real, b: real)
    requires a <= b
    ensures Rank(EngagementLabels, EngagementDescription(b)) <= Rank(EngagementLabels, EngagementDescription(a))
  {
    TablesDistinct();
    EngagementLadder(a);
    EngagementLadder(b);
    BandIndexMonotone(a, b, EngagementThresholds);
    RankOfBand(EngagementLabels, BandIndex(a, EngagementThresholds));
    RankOfBand(EngagementLabels, BandIndex(b, EngagementThresholds));
  }

  lemma MatchMonotone(a: real, b: real)
    requires a <= b
    ensures Rank(MatchLabels, MatchDescription(b)) <= Rank(MatchLabels, MatchDescription(a))
  {
    TablesDistinct();
    AlignmentLadders(a);
    AlignmentLadders(b);
    BandIndexMonotone(a, b, AlignmentThresholds);
    RankOfBand(MatchLabels, BandIndex(a, AlignmentThresholds));
    RankOfBand(MatchLabels, BandIndex(b, AlignmentThresholds));
  }

  lemma FlowMonotone(a: real, b: real)
    requires a <= b
    ensures Rank(FlowLabels, FlowDescription(b)) <= Rank(FlowLabels, FlowDescription(a))
  {
    TablesDistinct();
    AlignmentLadders(a);
    AlignmentLadders(b);
    BandIndexMonotone(a, b, AlignmentThresholds);
    RankOfBand(FlowLabels, BandIndex(a, AlignmentThresholds));
    RankOfBand(FlowLabels, BandIndex(b, AlignmentThresholds));
  }

  /** The match and flow cards always describe the same score in the same
      band. */
  lemma MatchAndFlowAgree(score: real)
    ensures Rank(MatchLabels, MatchDescription(score)) == Rank(FlowLabels, FlowDescription(score))
  {
    TablesDistinct();
    AlignmentLadders(score);
    RankOfBand(MatchLabels, BandIndex(score, AlignmentThresholds));
    RankOfBand(FlowLabels, BandIndex(score, AlignmentThresholds));
  }

  /** The four scores the cards show. */
  datatype Scores = Scores(
    recruiterSentiment: real,
    candidateEngagement: real,
    jdMatchScore: real,
    flowContinuityScore: real)

  /** A card: its title, the score it shows, the ladder's description, and
      the fixed "good score" line of its explanation. */
  datatype Card = Card(title: string, score: real, description: string, goodScore: string)

  const SentimentGoodScore: string := "A score of 7+ indicates a positive, welcoming interview atmosphere."
  const EngagementGoodScore: string := "Above 70% indicates strong engagement with detailed, thoughtful responses."
  const MatchGoodScore: string := "75%+ indicates excellent alignment with required skills and experience."
  const FlowGoodScore: string := "Above 75% indicates smooth transitions and well-connected dialogue."

  const CardTitles: seq<string> :=
    ["Recruiter Sentiment", "Candidate Engagement", "JD Match Score", "Flow Continuity"]

  /** The fixed card list: exactly four cards, in the order sentiment,
      engagement, match, flow, each described by its own ladder. */
  function Cards(m: Scores): (cards: seq<Card>)
    ensures |cards| == 4
    ensures forall i :: 0 <= i < 4 ==> cards[i].title == CardTitles[i]
    ensures cards[0].score == m.recruiterSentiment &&
            cards[0].description == SentimentDescription(m.recruiterSentiment)
    ensures cards[1].score == m.candidateEngagement &&
            cards[1].description == EngagementDescription(m.candidateEngagement)
    ensures cards[2].score == m.jdMatchScore &&
            cards[2].description == MatchDescription(m.jdMatchScore)
    ensures cards[3].score == m.flowContinuityScore &&
            cards[3].description == FlowDescription(m.flowContinuityScore)
  {
    [ Card(CardTitles[0], m.recruiterSentiment, SentimentDescription(m.recruiterSentiment), SentimentGoodScore),
      Card(CardTitles[1], m.candidateEngagement, EngagementDescription(m.candidateEngagement), EngagementGoodScore),
      Card(CardTitles[2], m.jdMatchScore, MatchDescription(m.jdMatchScore), MatchGoodScore),
      Card(CardTitles[3], m.flowContinuityScore, FlowDescription(m.flowContinuityScore), FlowGoodScore) ]
  }

  /** Titles are distinct, so the card list (keyed by title) has no
      duplicates. */
  lemma CardTitlesDistinct(m: Scores)
    ensures forall i, j :: 0 <= i < j < |Cards(m)| ==> Cards(m)[i].title != Cards(m)[j].title
  {
  }
}
