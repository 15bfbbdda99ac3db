/** The analysis dashboard's derivations from an interview and its report:
    the four headline metrics (each with its fallback chain), the points of
    the sentiment chart, and the data of the two relevance charts, taken
    from the category breakdown, else from the per-question relevance
    grouped by category, else from the overall score. */
module AnalysisDashboard {
  import opened Common
  import opened ReportTypes
  import MetricsCards
  import ConversationAnalysis

  // ---------------------------------------------------------------------------
  // Metrics
  // ---------------------------------------------------------------------------

  /** A number is truthy when present and not zero. */
  predicate Truthy(x: Option<real>) {
    x.Some? && x.value != 0.0
  }

  /** `x || fallback` on numbers. */
  function OrElse(x: Option<real>, fallback: real): (r: real)
    ensures Truthy(x) ==> r == x.value
    ensures !Truthy(x) ==> r == fallback
  {
    if x.Some? && x.value != 0.0 then x.value else fallback
  }

  /** The `metrics` object passed to the cards. */
  datatype Metrics = Metrics(
    recruiterSentiment: real,
    candidateEngagement: real,
    jdMatchScore: real,
    embeddingMatchScore: Option<real>,
    flowContinuityScore: real,
    voiceToneScore: Option<real>)

  /** The metrics: the match score prefers the report's, then the embedding
      similarity; the flow score prefers the enhanced graph score, then the
      report's; anything else missing or zero shows as 0. */
  function DeriveMetrics(report: Report, interview: Interview): (m: Metrics)
    ensures m.recruiterSentiment == OrElse(report.recruiterSentiment, 0.0)
    ensures m.candidateEngagement == OrElse(report.candidateEngagement, 0.0)
    ensures Truthy(report.jdMatchScore) ==> m.jdMatchScore == report.jdMatchScore.value
    ensures !Truthy(report.jdMatchScore) && Truthy(interview.embeddingSimilarity) ==>
              m.jdMatchScore == interview.embeddingSimilarity.value
    ensures m.jdMatchScore == 0.0 <==>
              !Truthy(report.jdMatchScore) && !Truthy(interview.embeddingSimilarity)
    ensures Truthy(interview.graphFlowEnhancedScore) ==>
              m.flowContinuityScore == interview.graphFlowEnhancedScore.value
    ensures !Truthy(interview.graphFlowEnhancedScore) && Truthy(report.flowContinuityScore) ==>
              m.flowContinuityScore == report.flowContinuityScore.value
    ensures m.flowContinuityScore == 0.0 <==>
              !Truthy(interview.graphFlowEnhancedScore) && !Truthy(report.flowContinuityScore)
    ensures m.embeddingMatchScore == interview.embeddingSimilarity
    ensures m.voiceToneScore == interview.voiceToneScore
  {
    Metrics(
      OrElse(report.recruiterSentiment, 0.0),
      OrElse(report.candidateEngagement, 0.0),
      OrElse(report.jdMatchScore, OrElse(interview.embeddingSimilarity, 0.0)),
      interview.embeddingSimilarity,
      OrElse(interview.graphFlowEnhancedScore, OrElse(report.flowContinuityScore, 0.0)),
      interview.voiceToneScore)
  }

  /** The part of the metrics the cards read. */
  function CardScores(m: Metrics): MetricsCards.Scores {
    MetricsCards.Scores(m.recruiterSentiment, m.candidateEngagement, m.jdMatchScore, m.flowContinuityScore)
  }

  /** A report without a match score is described from the embedding
      similarity; with neither, the match card shows "No alignment". */
  lemma MatchCardFallback(report: Report, interview: Interview)
    requires !Truthy(report.jdMatchScore)
    ensures var card := MetricsCards.Cards(CardScores(DeriveMetrics(report, interview)))[2];
            card.score == OrElse(interview.embeddingSimilarity, 0.0) &&
            (!Truthy(interview.embeddingSimilarity) ==> card.description == "No alignment")
  {
  }

  // ---------------------------------------------------------------------------
  // Sentiment chart
  // ---------------------------------------------------------------------------

  const MaxPoints: nat := 10

  /** `qa.answers && qa.answers[0]?.sentiment || 'Neutral'`. */
  function AnswerSentiment(qa: QA): (s: string)
    ensures s != ""
    ensures qa.answers == [] ==> s == "Neutral"
    ensures qa.answers != [] && qa.answers[0].sentiment != "" ==> s == qa.answers[0].sentiment
  {
    if qa.answers != [] && qa.answers[0].sentiment != "" then qa.answers[0].sentiment else "Neutral"
  }

  /** The candidate's score for a sentiment text: 7 for positive, then 3
      for negative, then 5 for neutral (case-insensitive), else the
      overall engagement (50 when missing or zero) over 10. */
  function CandidateScore(sentiment: string, candidateEngagement: Option<real>): (score: real)
    ensures ConversationAnalysis.Mentions(sentiment, "positive") ==> score == 7.0
    ensures (!ConversationAnalysis.Mentions(sentiment, "positive") &&
             ConversationAnalysis.Mentions(sentiment, "negative")) ==> score == 3.0
    ensures (!ConversationAnalysis.Mentions(sentiment, "positive") &&
             !ConversationAnalysis.Mentions(sentiment, "negative") &&
             ConversationAnalysis.Mentions(sentiment, "neutral")) ==> score == 5.0
    ensures (!ConversationAnalysis.Mentions(sentiment, "positive") &&
             !ConversationAnalysis.Mentions(sentiment, "negative") &&
             !ConversationAnalysis.Mentions(sentiment, "neutral")) ==>
              score == OrElse(candidateEngagement, 50.0) / 10.0
  {
    var lower := Lower(sentiment);
    if Contains(lower, "positive") then 7.0
    else if Contains(lower, "negative") then 3.0
    else if Contains(lower, "neutral") then 5.0
    else OrElse(candidateEngagement, 50.0) / 10.0
  }

  /** The chart and the conversation panel read a sentiment alike: a green
      badge charts as 7, a red one as 3, a blue one as 5, and only a grey
      one falls back to the engagement. */
  lemma CandidateScoreFollowsTone(sentiment: string, candidateEngagement: Option<real>)
    ensures var t := ConversationAnalysis.SentimentTone(sentiment);
            var score := CandidateScore(sentiment, candidateEngagement);
            (t == ConversationAnalysis.Green ==> score == 7.0) &&
            (t == ConversationAnalysis.Red ==> score == 3.0) &&
            (t == ConversationAnalysis.Blue ==> score == 5.0) &&
            (t == ConversationAnalysis.Gray ==> score == OrElse(candidateEngagement, 50.0) / 10.0)
  {
  }

  /** A question with no answer charts as neutral. */
  lemma UnansweredQuestionIsNeutral(qa: QA, candidateEngagement: Option<real>)
    requires qa.answers == []
    ensures CandidateScore(AnswerSentiment(qa), candidateEngagement) == 5.0
  {
    assert Lower("Neutral") == "neutral";
    assert "neutral" <= Lower("Neutral")[0..];
    assert !Contains("neutral", "positive") by {
      forall i | 0 <= i <= |"neutral"| ensures !("positive" <= "neutral"[i..]) {
        if i == 0 { assert "neutral"[0] != "positive"[0]; }
      }
    }
    assert !Contains("neutral", "negative") by {
      forall i | 0 <= i <= |"neutral"| ensures !("negative" <= "neutral"[i..]) {
        if i == 0 { assert "neutral"[2] != "negative"[2]; }
      }
    }
  }

  datatype SentimentPoint = SentimentPoint(time: string, recruiter: real, candidate: real, segmentIndex: nat)

  /** The label of point `index`: the question's timestamp, else `Q1`, `Q2`,
      ... */
  function PointTime(qa: QA, index: nat): (t: string)
    ensures qa.timestamp != "" ==> t == qa.timestamp
    ensures qa.timestamp == "" ==> t == "Q" + NatToString(index + 1)
  {
    if qa.timestamp != "" then qa.timestamp else "Q" + NatToString(index + 1)
  }

  /** `sentimentData`: one point per question, at most ten, none when the
      report has no questions; point `i` is drawn from question `i`. */
  function SentimentData(report: Report): (points: seq<SentimentPoint>)
    ensures report.qaAnalysis.None? ==> points == []
    ensures report.qaAnalysis.Some? ==>
              |points| == (if |report.qaAnalysis.value| < MaxPoints then |report.qaAnalysis.value| else MaxPoints)
    ensures forall i :: 0 <= i < |points| ==>
              points[i].segmentIndex == i &&
              points[i].time == PointTime(report.qaAnalysis.value[i], i) &&
              points[i].recruiter == OrElse(report.recruiterSentiment, 5.0) &&
              points[i].candidate ==
                CandidateScore(AnswerSentiment(report.qaAnalysis.value[i]), report.candidateEngagement)
  {
    if report.qaAnalysis.None? || |report.qaAnalysis.value| == 0 then []
    else
      var qas := report.qaAnalysis.value;
      var n := if |qas| < MaxPoints then |qas| else MaxPoints;
      seq(n, i requires 0 <= i < n =>
        SentimentPoint(
          PointTime(qas[i], i),
          OrElse(report.recruiterSentiment, 5.0),
          CandidateScore(AnswerSentiment(qas[i]), report.candidateEngagement),
          i))
  }

  /** A recruiter sentiment of zero is charted as 5, like a missing one. */
  lemma ZeroRecruiterSentimentChartsAsFive(report: Report)
    requires report.recruiterSentiment == Some(0.0)
    ensures forall p :: p in SentimentData(report) ==> p.recruiter == 5.0
  {
  }

  /** Every point leads to its own question: the element id built from its
      `segmentIndex` is the id of the conversation row of the question the
      point was drawn from, and of no other row. */
  lemma PointFindsItsQuestion(report: Report, insights: seq<ConversationAnalysis.Insight>, i: nat)
    requires i < |SentimentData(report)|
    ensures report.qaAnalysis.Some?
    ensures var rows := ConversationAnalysis.RenderPanel(report.qaAnalysis.value, insights).rows;
            var id := ConversationAnalysis.SegmentId(SentimentData(report)[i].segmentIndex);
            i < |rows| && rows[i].elementId == id &&
            rows[i].question == report.qaAnalysis.value[i].question &&
            forall j :: 0 <= j < |rows| && rows[j].elementId == id ==> j == i
  {
    var rows := ConversationAnalysis.RenderPanel(report.qaAnalysis.value, insights).rows;
    forall j | 0 <= j < |rows| && rows[j].elementId == ConversationAnalysis.SegmentId(i)
      ensures j == i
    {
      ConversationAnalysis.SegmentIdInjective(j, i);
    }
  }

  // ---------------------------------------------------------------------------
  // Relevance charts
  // ---------------------------------------------------------------------------

  /** A bar of a relevance chart; `details` only for the category breakdown. */
  datatype Entry = Entry(name: string, value: real, color: string, details: Option<string>)

  datatype RelevanceData = RelevanceData(coreData: seq<Entry>, otherData: seq<Entry>)

  /** A fixed category of the breakdown: its key, display name and colour. */
  datatype Category = Category(key: string, name: string, color: string)

  const CoreCategories: seq<Category> := [
    Category("technicalSkills", "Technical Skills", "#3b82f6"),
    Category("culturalFit", "Cultural Fit", "#f59e0b"),
    Category("experienceLevel", "Experience Level", "#10b981")]

  const OtherCategories: seq<Category> := [
    Category("communication", "Communication", "#ef4444"),
    Category("problemSolving", "Problem Solving", "#8b5cf6"),
    Category("leadership", "Leadership", "#06b6d4"),
    Category("industryKnowledge", "Industry Knowledge", "#f97316"),
    Category("educationQualifications", "Education", "#84cc16"),
    Category("softSkills", "Soft Skills", "#ec4899"),
    Category("motivationFit", "Motivation Fit", "#14b8a6")]

  const NoDetails: string := "No details available"

  /** `mapCategoryData`: one bar per fixed category, in order, whether the
      breakdown has the key or not; a missing or zero score is a bar of 0. */
  function MapCategories(categories: seq<Category>, breakdown: map<string, CategoryScore>): (entries: seq<Entry>)
    ensures |entries| == |categories|
    ensures forall i :: 0 <= i < |categories| ==>
              entries[i].name == categories[i].name && entries[i].color == categories[i].color &&
              entries[i].value ==
                (if categories[i].key in breakdown then Round(breakdown[categories[i].key].score) else 0) as real
    ensures forall i :: 0 <= i < |categories| ==> entries[i].details.Some? && entries[i].details.value != ""
    ensures forall i :: 0 <= i < |categories| ==>
              entries[i].details ==
                Some(if categories[i].key in breakdown && breakdown[categories[i].key].details != ""
                     then breakdown[categories[i].key].details else NoDetails)
  {
    seq(|categories|, i requires 0 <= i < |categories| =>
      var c := categories[i];
      var data := if c.key in breakdown then breakdown[c.key] else CategoryScore(0.0, "");
      Entry(c.name, Round(data.score) as real, c.color, Some(if data.details != "" then data.details else NoDetails)))
  }

  /** What the `questionRelevance` fallback groups by: a missing category is
      `Other`. */
  function CategoryOf(q: QuestionRelevance): (c: string)
    ensures c != ""
  {
    if q.category != "" then q.category else "Other"
  }

  /** A group of the reduce: the sum of its scores and its size. */
  datatype Tally = Tally(score: real, count: nat)

  /** The reduce's accumulator after the first `n` questions. */
  function Tallies(qs: seq<QuestionRelevance>, n: nat): (t: map<string, Tally>)
    requires n <= |qs|
    ensures forall c :: c in t ==> t[c].count <= n
  {
    if n == 0 then map[]
    else
      var acc := Tallies(qs, n - 1);
      var c := CategoryOf(qs[n - 1]);
      var prior := if c in acc then acc[c] else Tally(0.0, 0);
      acc[c := Tally(prior.score + qs[n - 1].relevanceScore, prior.count + 1)]
  }

  /** The order in which the groups of the first `n` questions first
      appear. */
  function Order(qs: seq<QuestionRelevance>, n: nat): (o: seq<string>)
    requires n <= |qs|
    ensures |o| <= n
  {
    if n == 0 then []
    else
      var order := Order(qs, n - 1);
      var c := CategoryOf(qs[n - 1]);
      if c in order then order else order + [c]
  }

  /** The reduce of the `questionRelevance` fallback, which adds each
      question into its category's group in place; it also records the order
      in which groups first appear. */
  method GroupByCategory(qs: seq<QuestionRelevance>) returns (order: seq<string>, acc: map<string, Tally>)
    ensures order == Order(qs, |qs|) && acc == Tallies(qs, |qs|)
  {
    order, acc := [], map[];
    var i := 0;
    while i < |qs|
      invariant 0 <= i <= |qs|
      invariant order == Order(qs, i) && acc == Tallies(qs, i)
      invariant forall c :: c in order <==> c in acc
    {
      var category := CategoryOf(qs[i]);
      if category !in acc {
        acc := acc[category := Tally(0.0, 0)];
        order := order + [category];
      }
      acc := acc[category := Tally(acc[category].score + qs[i].relevanceScore, acc[category].count + 1)];
      i := i + 1;
    }
  }

  /** How many of the first `n` questions fall in category `c`, and the sum
      of their scores: the reference the groups are checked against. */
  function CountIn(qs: seq<QuestionRelevance>, c: string, n: nat): nat
    requires n <= |qs|
  {
    if n == 0 then 0
    else CountIn(qs, c, n - 1) + (if CategoryOf(qs[n - 1]) == c then 1 else 0)
  }

  function SumIn(qs: seq<QuestionRelevance>, c: string, n: nat): real
    requires n <= |qs|
  {
    if n == 0 then 0.0
    else SumIn(qs, c, n - 1) + (if CategoryOf(qs[n - 1]) == c then qs[n - 1].relevanceScore else 0.0)
  }

  /** The groups are exactly the categories that occur, each holding the sum
      and the number of its questions. */
  lemma {:induction false} GroupsAreCategories(qs: seq<QuestionRelevance>, n: nat)
    requires n <= |qs|
    ensures forall c :: c in Tallies(qs, n) <==> CountIn(qs, c, n) > 0
    ensures forall c :: c in Tallies(qs, n) ==> Tallies(qs, n)[c] == Tally(SumIn(qs, c, n), CountIn(qs, c, n))
    ensures forall c :: CountIn(qs, c, n) == 0 ==> SumIn(qs, c, n) == 0.0
  {
    if n > 0 {
      GroupsAreCategories(qs, n - 1);
    }
  }

  /** The order lists every group exactly once. */
  lemma {:induction false} OrderListsGroups(qs: seq<QuestionRelevance>, n: nat)
    requires n <= |qs|
    ensures forall c :: c in Order(qs, n) <==> c in Tallies(qs, n)
    ensures forall i, j :: 0 <= i < j < |Order(qs, n)| ==> Order(qs, n)[i] != Order(qs, n)[j]
  {
    if n > 0 {
      OrderListsGroups(qs, n - 1);
    }
  }

  /** Some question before position `k` falls in category `c`. */
  predicate AppearsBefore(qs: seq<QuestionRelevance>, c: string, k: nat)
    requires k <= |qs|
  {
    exists j :: 0 <= j < k && CategoryOf(qs[j]) == c
  }

  /** A category is listed exactly when one of the first `n` questions
      falls in it. */
  lemma {:induction false} OrderListsCategoriesSeen(qs: seq<QuestionRelevance>, n: nat)
    requires n <= |qs|
    ensures forall c :: c in Order(qs, n) <==> AppearsBefore(qs, c, n)
  {
    if n > 0 {
      OrderListsCategoriesSeen(qs, n - 1);
      forall c | AppearsBefore(qs, c, n)
        ensures c in Order(qs, n)
      {
        var j :| 0 <= j < n && CategoryOf(qs[j]) == c;
        if j < n - 1 {
          assert AppearsBefore(qs, c, n - 1);
        }
      }
      forall c | c in Order(qs, n)
        ensures AppearsBefore(qs, c, n)
      {
        if c in Order(qs, n - 1) {
          var j :| 0 <= j < n - 1 && CategoryOf(qs[j]) == c;
          assert 0 <= j < n;
        } else {
          assert CategoryOf(qs[n - 1]) == c;
        }
      }
    }
  }

  /** Groups are listed in order of first appearance: wherever a later
      group's category occurs, an earlier group's category has already
      occurred. */
  lemma {:induction false} OrderIsFirstAppearance(qs: seq<QuestionRelevance>, n: nat, a: nat, b: nat, k: nat)
    requires n <= |qs| && a < b < |Order(qs, n)|
    requires k < n && CategoryOf(qs[k]) == Order(qs, n)[b]
    ensures AppearsBefore(qs, Order(qs, n)[a], k)
  {
    var prev := Order(qs, n - 1);
    OrderListsCategoriesSeen(qs, n - 1);
    assert Order(qs, n)[a] == prev[a];
    if b < |prev| {
      assert Order(qs, n)[b] == prev[b];
      if k < n - 1 {
        OrderIsFirstAppearance(qs, n - 1, a, b, k);
      } else {
        assert prev[a] in prev;
      }
    } else {
      assert CategoryOf(qs[n - 1]) !in prev;
      if k < n - 1 {
        assert false;
      }
      assert prev[a] in prev;
    }
  }

  /** Every group has at least one question. */
  lemma GroupsAreNonEmpty(qs: seq<QuestionRelevance>, n: nat)
    requires n <= |qs|
    ensures forall c :: c in Tallies(qs, n) ==> Tallies(qs, n)[c].count >= 1
  {
    GroupsAreCategories(qs, n);
  }

  /** Every relevance score is a percentage. */
  predicate Percentages(qs: seq<QuestionRelevance>) {
    forall k :: 0 <= k < |qs| ==> 0.0 <= qs[k].relevanceScore <= 100.0
  }

  /** With percentage scores, a group's sum lies between 0 and 100 times its
      size. */
  lemma {:induction false} SumInBounds(qs: seq<QuestionRelevance>, c: string, n: nat)
    requires n <= |qs| && Percentages(qs)
    ensures 0.0 <= SumIn(qs, c, n) <= CountIn(qs, c, n) as real * 100.0
  {
    if n > 0 {
      SumInBounds(qs, c, n - 1);
    }
  }

  const Palette: seq<string> := ["#3b82f6", "#10b981", "#f59e0b", "#ef4444", "#8b5cf6", "#06b6d4"]

  /** The bars of the grouped data, one per group in `order`: the capitalised
      category, its rounded average, and the palette colour of its position. */
  function GroupEntries(order: seq<string>, acc: map<string, Tally>): (entries: seq<Entry>)
    requires forall c :: c in order ==> c in acc && acc[c].count > 0
    ensures |entries| == |order|
    ensures forall i :: 0 <= i < |order| ==>
              entries[i].name == Capitalize(order[i]) &&
              entries[i].value == Round(acc[order[i]].score / acc[order[i]].count as real) as real &&
              entries[i].color == Palette[i % |Palette|] && entries[i].details.None?
  {
    seq(|order|, i requires 0 <= i < |order| =>
      var t := acc[order[i]];
      Entry(Capitalize(order[i]), Round(t.score / t.count as real) as real, Palette[i % |Palette|], None))
  }

  /** The bars of the grouped fallback for the questions `qs`: one per
      category in order of first appearance, valued at the rounded average of
      that category's scores. */
  function Bars(qs: seq<QuestionRelevance>): (entries: seq<Entry>)
    ensures var order := Order(qs, |qs|);
            |entries| == |order| &&
            forall i :: 0 <= i < |entries| ==>
              entries[i].name == Capitalize(order[i]) &&
              CountIn(qs, order[i], |qs|) > 0 &&
              entries[i].value == Round(SumIn(qs, order[i], |qs|) / CountIn(qs, order[i], |qs|) as real) as real
  {
    GroupsAreCategories(qs, |qs|);
    OrderListsGroups(qs, |qs|);
    GroupsAreNonEmpty(qs, |qs|);
    GroupEntries(Order(qs, |qs|), Tallies(qs, |qs|))
  }

  /** The first three bars are the core chart, the rest the other chart. */
  function Split(entries: seq<Entry>): (r: RelevanceData)
    ensures r.coreData + r.otherData == entries
    ensures |r.coreData| == (if |entries| < 3 then |entries| else 3)
  {
    if |entries| < 3 then RelevanceData(entries, [])
    else RelevanceData(entries[..3], entries[3..])
  }

  /** The whole of `getRelevanceData`, stated on values. */
  function RelevanceSpec(jd: Option<JdAnalysis>): (r: RelevanceData)
    ensures jd.Some? && jd.value.categoryBreakdown.Some? ==>
              r == RelevanceData(MapCategories(CoreCategories, jd.value.categoryBreakdown.value),
                                 MapCategories(OtherCategories, jd.value.categoryBreakdown.value))
    ensures jd.Some? && jd.value.categoryBreakdown.None? && jd.value.questionRelevance != [] ==>
              r.coreData + r.otherData == Bars(jd.value.questionRelevance) &&
              |r.coreData| == (if |Bars(jd.value.questionRelevance)| < 3 then |Bars(jd.value.questionRelevance)| else 3)
    ensures jd.Some? && jd.value.categoryBreakdown.None? && jd.value.questionRelevance == [] &&
            Truthy(jd.value.overallScore) ==>
              r == RelevanceData([Entry("Overall Match", jd.value.overallScore.value, "#3b82f6", None)], [])
    ensures jd.None? || (jd.value.categoryBreakdown.None? && jd.value.questionRelevance == [] &&
                         !Truthy(jd.value.overallScore)) ==>
              r == RelevanceData([], [])
  {
    if jd.Some? && jd.value.categoryBreakdown.Some? then
      var breakdown := jd.value.categoryBreakdown.value;
      RelevanceData(MapCategories(CoreCategories, breakdown), MapCategories(OtherCategories, breakdown))
    else if jd.Some? && jd.value.questionRelevance != [] then
      Split(Bars(jd.value.questionRelevance))
    else if jd.Some? && Truthy(jd.value.overallScore) then
      RelevanceData([Entry("Overall Match", jd.value.overallScore.value, "#3b82f6", None)], [])
    else
      RelevanceData([], [])
  }

  /** `getRelevanceData`, running the reduce. */
  method GetRelevanceData(jd: Option<JdAnalysis>) returns (r: RelevanceData)
    ensures r == RelevanceSpec(jd)
  {
    if jd.Some? && jd.value.categoryBreakdown.Some? {
      var breakdown := jd.value.categoryBreakdown.value;
      r := RelevanceData(MapCategories(CoreCategories, breakdown), MapCategories(OtherCategories, breakdown));
    } else if jd.Some? && jd.value.questionRelevance != [] {
      var order, acc := GroupByCategory(jd.value.questionRelevance);
      OrderListsGroups(jd.value.questionRelevance, |jd.value.questionRelevance|);
      GroupsAreNonEmpty(jd.value.questionRelevance, |jd.value.questionRelevance|);
      r := Split(GroupEntries(order, acc));
    } else if jd.Some? && Truthy(jd.value.overallScore) {
      r := RelevanceData([Entry("Overall Match", jd.value.overallScore.value, "#3b82f6", None)], []);
    } else {
      r := RelevanceData([], []);
    }
  }

  /** With a category breakdown the core chart has the three core categories
      and the other chart the seven others, always, in their fixed order. */
  lemma BreakdownShape(jd: JdAnalysis)
    requires jd.categoryBreakdown.Some?
    ensures |RelevanceSpec(Some(jd)).coreData| == 3 && |RelevanceSpec(Some(jd)).otherData| == 7
    ensures RelevanceSpec(Some(jd)).coreData[0].name == "Technical Skills"
    ensures RelevanceSpec(Some(jd)).otherData[6].name == "Motivation Fit"
  {
  }

  /** The average of percentages is a percentage. */
  lemma AverageBounds(sum: real, n: real)
    requires n > 0.0 && 0.0 <= sum <= n * 100.0
    ensures 0.0 <= sum / n <= 100.0
  {
    var avg := sum / n;
    assert (100.0 - avg) * n == n * 100.0 - sum;
  }

  /** Rounding keeps a percentage a percentage. */
  lemma RoundedBounds(x: real)
    requires 0.0 <= x <= 100.0
    ensures 0 <= Round(x) <= 100
  {
  }

  /** The rounded average of percentages is a percentage. */
  lemma RoundedAverageBounds(sum: real, n: nat)
    requires n > 0 && 0.0 <= sum <= n as real * 100.0
    ensures 0.0 <= Round(sum / n as real) as real <= 100.0
  {
    AverageBounds(sum, n as real);
    RoundedBounds(sum / n as real);
  }

  /** With percentage scores the bar at `i` is a percentage. */
  lemma BarBounded(qs: seq<QuestionRelevance>, i: nat)
    requires Percentages(qs) && i < |Bars(qs)|
    ensures 0.0 <= Bars(qs)[i].value <= 100.0
  {
    var c := Order(qs, |qs|)[i];
    SumInBounds(qs, c, |qs|);
    RoundedAverageBounds(SumIn(qs, c, |qs|), CountIn(qs, c, |qs|));
  }

  /** In the grouped fallback there is one bar per category that occurs, in
      order of first appearance, and with every score between 0 and 100 each
      bar is between 0 and 100. */
  lemma GroupedBars(jd: JdAnalysis)
    requires jd.categoryBreakdown.None? && jd.questionRelevance != []
    requires Percentages(jd.questionRelevance)
    ensures var qs := jd.questionRelevance;
            var r := RelevanceSpec(Some(jd));
            var bars := r.coreData + r.otherData;
            |bars| == |Order(qs, |qs|)| &&
            (forall c :: c in Order(qs, |qs|) <==> CountIn(qs, c, |qs|) > 0) &&
            (forall i :: 0 <= i < |bars| ==> 0.0 <= bars[i].value <= 100.0)
  {
    var qs := jd.questionRelevance;
    GroupsAreCategories(qs, |qs|);
    OrderListsGroups(qs, |qs|);
    forall i | 0 <= i < |Bars(qs)| ensures 0.0 <= Bars(qs)[i].value <= 100.0 {
      BarBounded(qs, i);
    }
  }
}
