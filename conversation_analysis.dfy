/** The question-and-answer panel: every question and answer carries a match
    badge (variant and text from one threshold ladder) with an explanation
    tooltip; every answer carries a sentiment badge coloured from its text;
    answers are truncated for display; insights are shown as text whatever
    shape they arrive in; each question row gets an element id the
    dashboard's chart can scroll to. */
module ConversationAnalysis {
  import opened Common
  import opened ReportTypes

  // ---------------------------------------------------------------------------
  // Match badges
  // ---------------------------------------------------------------------------

  /** `getBadgeVariant`: green for a strong match (75 and up), blue for a
      partial one (25 and up), grey for a weak one (5 and up), red below. */
  function BadgeVariant(score: int): (v: Variant)
    ensures v == Default <==> score >= 75
    ensures v == Secondary <==> 25 <= score < 75
    ensures v == Outline <==> 5 <= score < 25
    ensures v == Destructive <==> score < 5
  {
    if score >= 75 then Default
    else if score >= 25 then Secondary
    else if score >= 5 then Outline
    else Destructive
  }

  /** Bands ranked best first. */
  function VariantRank(v: Variant): nat {
    match v
    case Default => 0
    case Secondary => 1
    case Outline => 2
    case Destructive => 3
  }

  /** A higher score never gets a worse badge. */
  lemma BadgeVariantMonotone(a: int, b: int)
    requires a <= b
    ensures VariantRank(BadgeVariant(b)) <= VariantRank(BadgeVariant(a))
  {
  }

  /** The band name the badge text gives each variant's band. */
  function MatchLabel(v: Variant): string {
    match v
    case Default => "Strong Match"
    case Secondary => "Partial Match"
    case Outline => "Weak Match"
    case Destructive => "No Match"
  }

  /** `" (" + score + "%)"`, the score as the badge text shows it. */
  function Percent(score: int): string {
    " (" + IntToString(score) + "%)"
  }

  /** `getBadgeText`: its own ladder, on the same thresholds. The text names
      the band of the badge's variant, so text and colour always agree, and
      ends with the score. */
  function BadgeText(score: int): (t: string)
    ensures t == MatchLabel(BadgeVariant(score)) + Percent(score)
  {
    if score >= 75 then MatchLabel(Default) + Percent(score)
    else if score >= 25 then MatchLabel(Secondary) + Percent(score)
    else if score >= 5 then MatchLabel(Outline) + Percent(score)
    else MatchLabel(Destructive) + Percent(score)
  }

  // ---------------------------------------------------------------------------
  // Explanations
  // ---------------------------------------------------------------------------

  /** The advice the question tooltip gives for each band. */
  function QuestionAdvice(v: Variant): string {
    match v
    case Default =>
      "This question directly targets critical job requirements and effectively evaluates candidate competencies aligned with the role's core responsibilities."
    case Secondary =>
      "This question addresses some job requirements but could be more specific. Consider focusing more directly on key technical skills or role-specific competencies mentioned in the JD."
    case Outline =>
      "This question has minimal connection to the job description. To improve interview effectiveness, align questions more closely with the required skills and responsibilities."
    case Destructive =>
      "This question does not align with the job description requirements. Focus on questions that directly assess the candidate's ability to perform the role's key functions and required technical/soft skills."
  }

  /** The advice the answer tooltip gives for each band. */
  function AnswerAdvice(v: Variant): string {
    match v
    case Default =>
      "The candidate's answer demonstrates comprehensive understanding and directly addresses the question with relevant examples, technical depth, and job-aligned competencies."
    case Secondary =>
      "The answer touches on relevant points but lacks specific examples or technical depth. The candidate shows some understanding but may benefit from more detailed follow-up questions."
    case Outline =>
      "The answer provides limited relevant information. The candidate may be evading the question, lacking knowledge, or misunderstanding what was asked. Consider rephrasing or probing deeper."
    case Destructive =>
      "The answer does not address the question or job requirements. This could indicate lack of relevant experience, poor listening skills, or communication barriers. Follow up to clarify or assess if the candidate meets minimum qualifications."
  }

  /** `Score: N% (Band) - advice`. */
  function ScoreLine(score: int, band: string, advice: string): string {
    "Score: " + IntToString(score) + "% (" + band + ") - " + advice
  }

  /** `getRelevanceExplanation`: a non-empty `reasoning` verbatim, otherwise
      the text of the score's band, which is the band its badge shows. */
  function RelevanceExplanation(score: int, reasoning: string): (r: string)
    ensures reasoning != "" ==> r == reasoning
    ensures reasoning == "" ==>
              r == ScoreLine(score, MatchLabel(BadgeVariant(score)), QuestionAdvice(BadgeVariant(score)))
  {
    if reasoning != "" then reasoning
    else if score >= 75 then ScoreLine(score, MatchLabel(Default), QuestionAdvice(Default))
    else if score >= 25 then ScoreLine(score, MatchLabel(Secondary), QuestionAdvice(Secondary))
    else if score >= 5 then ScoreLine(score, MatchLabel(Outline), QuestionAdvice(Outline))
    else ScoreLine(score, MatchLabel(Destructive), QuestionAdvice(Destructive))
  }

  /** `getAnswerMatchExplanation`: as for questions, with the answer texts. */
  function AnswerMatchExplanation(score: int, reasoning: string): (r: string)
    ensures reasoning != "" ==> r == reasoning
    ensures reasoning == "" ==>
              r == ScoreLine(score, MatchLabel(BadgeVariant(score)), AnswerAdvice(BadgeVariant(score)))
  {
    if reasoning != "" then reasoning
    else if score >= 75 then ScoreLine(score, MatchLabel(Default), AnswerAdvice(Default))
    else if score >= 25 then ScoreLine(score, MatchLabel(Secondary), AnswerAdvice(Secondary))
    else if score >= 5 then ScoreLine(score, MatchLabel(Outline), AnswerAdvice(Outline))
    else ScoreLine(score, MatchLabel(Destructive), AnswerAdvice(Destructive))
  }

  // ---------------------------------------------------------------------------
  // Sentiment badges
  // ---------------------------------------------------------------------------

  /** The colour families of `getSentimentColor`. */
  datatype Tone = Green | Red | Blue | Gray

  predicate Mentions(sentiment: string, word: string) {
    Contains(Lower(sentiment), word)
  }

  /** `getSentimentColor`: "positive" is checked before "negative" before
      "neutral"; anything else is grey. */
  function SentimentTone(sentiment: string): (t: Tone)
    ensures t == Green <==> Mentions(sentiment, "positive")
    ensures t == Red <==> !Mentions(sentiment, "positive") && Mentions(sentiment, "negative")
    ensures t == Blue <==>
              !Mentions(sentiment, "positive") && !Mentions(sentiment, "negative") &&
              Mentions(sentiment, "neutral")
    ensures t == Gray <==>
              !Mentions(sentiment, "positive") && !Mentions(sentiment, "negative") &&
              !Mentions(sentiment, "neutral")
  {
    var lower := Lower(sentiment);
    if Contains(lower, "positive") then Green
    else if Contains(lower, "negative") then Red
    else if Contains(lower, "neutral") then Blue
    else Gray
  }

  /** The three texts of `getSentimentExplanation`. */
  datatype Mood = PositiveMood | NegativeMood | NeutralMood

  function MoodHeading(m: Mood): string {
    match m
    case PositiveMood => "Positive Sentiment"
    case NegativeMood => "Negative Sentiment"
    case NeutralMood => "Neutral Sentiment"
  }

  function MoodAdvice(m: Mood): string {
    match m
    case PositiveMood => PositiveAdvice
    case NegativeMood => NegativeAdvice
    case NeutralMood => NeutralAdvice
  }

  const PositiveAdvice: string :=
    " - The candidate demonstrates confidence, enthusiasm, and clear engagement. Their tone suggests genuine interest, competence, and strong communication skills. This indicates good cultural fit and motivation for the role."
  const NegativeAdvice: string :=
    " - The response shows hesitation, uncertainty, or defensiveness. This may indicate discomfort with the question, lack of relevant experience, or communication challenges. Consider probing deeper or rephrasing to help the candidate express themselves better."
  const NeutralAdvice: string :=
    " - The response is factual and straightforward without strong emotional indicators. This is typical for technical or informational answers. While professional, consider engaging the candidate more to assess their passion and cultural alignment."

  function Explanation(m: Mood, score: Option<int>): string {
    MoodHeading(m) + ConfidenceText(score) + MoodAdvice(m)
  }

  /** `" (Confidence: N%)"` when a score is given, nothing otherwise. */
  function ConfidenceText(score: Option<int>): (r: string)
    ensures score.None? <==> r == ""
    ensures score.Some? ==> r == " (Confidence: " + IntToString(score.value) + "%)"
  {
    match score
    case None => ""
    case Some(n) => " (Confidence: " + IntToString(n) + "%)"
  }

  /** `getSentimentExplanation`: positive, then negative; every other
      sentiment, "neutral" or not, gets the neutral text. */
  function SentimentExplanation(sentiment: string, score: Option<int>): (r: string)
    ensures Mentions(sentiment, "positive") ==> r == Explanation(PositiveMood, score)
    ensures !Mentions(sentiment, "positive") && Mentions(sentiment, "negative") ==>
              r == Explanation(NegativeMood, score)
    ensures !Mentions(sentiment, "positive") && !Mentions(sentiment, "negative") ==>
              r == Explanation(NeutralMood, score)
  {
    var lower := Lower(sentiment);
    var mood :=
      if Contains(lower, "positive") then PositiveMood
      else if Contains(lower, "negative") then NegativeMood
      else NeutralMood;
    Explanation(mood, score)
  }

  /** The mood whose text accompanies a badge of each colour. */
  function ToneMood(t: Tone): Mood {
    match t
    case Green => PositiveMood
    case Red => NegativeMood
    case Blue => NeutralMood
    case Gray => NeutralMood
  }

  /** The tooltip and the badge colour agree: the positive text comes with a
      green badge, the negative text with a red one, and the neutral text
      with a blue or a grey one. */
  lemma ExplanationAgreesWithTone(sentiment: string, score: Option<int>)
    ensures SentimentExplanation(sentiment, score) == Explanation(ToneMood(SentimentTone(sentiment)), score)
  {
  }

  // ---------------------------------------------------------------------------
  // Answer text and insights
  // ---------------------------------------------------------------------------

  const PreviewLength: nat := 200

  /** The answer as displayed: longer than 200 characters, its first 200
      followed by "..."; otherwise unchanged. */
  function AnswerPreview(text: string): (r: string)
    ensures |text| <= PreviewLength ==> r == text
    ensures |text| > PreviewLength ==> |r| == PreviewLength + 3 && r[PreviewLength..] == "..."
    ensures |text| > PreviewLength ==> r[..PreviewLength] == text[..PreviewLength]
  {
    if |text| > PreviewLength then text[..PreviewLength] + "..." else text
  }

  /** What an insight turns out to be at run time: a string, an object (its
      four text fields, missing ones empty, and its JSON text), or anything
      else (`null`, a number). */
  datatype Insight =
    | TextInsight(s: string)
    | ObjectInsight(description: string, insight: string, text: string, content: string, json: string)
    | OtherInsight

  const UnreadableInsight: string := "Unable to display insight"

  /** The line an insight shows. */
  function InsightText(i: Insight): (r: string)
    ensures i.TextInsight? ==> r == i.s
    ensures i.OtherInsight? ==> r == UnreadableInsight
    ensures i.ObjectInsight? ==>
              r in {i.description, i.insight, i.text, i.content, i.json}
    ensures i.ObjectInsight? && i.description != "" ==> r == i.description
    ensures i.ObjectInsight? && i.description == "" && i.insight != "" ==> r == i.insight
    ensures i.ObjectInsight? && i.description == "" && i.insight == "" && i.text != "" ==> r == i.text
    ensures i.ObjectInsight? && i.description == "" && i.insight == "" && i.text == "" ==>
              r == (if i.content != "" then i.content else i.json)
  {
    match i
    case TextInsight(s) => s
    case ObjectInsight(d, ins, t, c, json) =>
      if d != "" then d else if ins != "" then ins else if t != "" then t else if c != "" then c else json
    case OtherInsight => UnreadableInsight
  }

  // ---------------------------------------------------------------------------
  // The panel
  // ---------------------------------------------------------------------------

  const SegmentPrefix: string := "transcript-segment-"

  /** The element id of question row `index`. */
  function SegmentId(index: nat): (id: string)
    ensures SegmentPrefix <= id
  {
    SegmentPrefix + NatToString(index)
  }

  /** Different rows have different element ids, so the dashboard's lookup by
      id finds exactly the row it asks for. */
  lemma SegmentIdInjective(i: nat, j: nat)
    requires SegmentId(i) == SegmentId(j)
    ensures i == j
  {
    var n := |SegmentPrefix|;
    assert SegmentId(i)[n..] == NatToString(i);
    assert SegmentId(j)[n..] == NatToString(j);
    NatToStringInjective(i, j);
  }

  datatype AnswerRow = AnswerRow(
    preview: string,
    timestamp: string,
    sentiment: string,
    tone: Tone,
    sentimentExplanation: string,
    matchVariant: Variant,
    matchText: string,
    matchExplanation: string)

  datatype QuestionRow = QuestionRow(
    elementId: string,
    question: string,
    timestamp: string,
    relevanceVariant: Variant,
    relevanceText: string,
    relevanceExplanation: string,
    answers: seq<AnswerRow>)

  /** An answer's row; its sentiment tooltip is rendered without a
      confidence. */
  function RenderAnswer(a: Answer): (row: AnswerRow)
    ensures row.tone == SentimentTone(a.sentiment)
    ensures row.sentimentExplanation == Explanation(ToneMood(row.tone), None)
    ensures row.matchVariant == BadgeVariant(a.jdMatch)
    ensures row.matchText == MatchLabel(row.matchVariant) + Percent(a.jdMatch)
    ensures |a.text| <= PreviewLength ==> row.preview == a.text
    ensures |a.text| > PreviewLength ==> row.preview == a.text[..PreviewLength] + "..."
  {
    ExplanationAgreesWithTone(a.sentiment, None);
    AnswerRow(
      AnswerPreview(a.text), a.timestamp, a.sentiment,
      SentimentTone(a.sentiment), SentimentExplanation(a.sentiment, None),
      BadgeVariant(a.jdMatch), BadgeText(a.jdMatch),
      AnswerMatchExplanation(a.jdMatch, a.reasoning))
  }

  /** Question `index`'s row, its answers in order below it. */
  function RenderQuestion(index: nat, qa: QA): (row: QuestionRow)
    ensures row.elementId == SegmentId(index)
    ensures row.question == qa.question && row.timestamp == qa.timestamp
    ensures row.relevanceExplanation == RelevanceExplanation(qa.relevance, qa.reasoning)
    ensures row.relevanceVariant == BadgeVariant(qa.relevance)
    ensures row.relevanceText == MatchLabel(row.relevanceVariant) + Percent(qa.relevance)
    ensures |row.answers| == |qa.answers|
    ensures forall k :: 0 <= k < |qa.answers| ==> row.answers[k] == RenderAnswer(qa.answers[k])
  {
    QuestionRow(
      SegmentId(index), qa.question, qa.timestamp,
      BadgeVariant(qa.relevance), BadgeText(qa.relevance),
      RelevanceExplanation(qa.relevance, qa.reasoning),
      seq(|qa.answers|, k requires 0 <= k < |qa.answers| => RenderAnswer(qa.answers[k])))
  }

  /** The panel: one row per question, in order; the "no analysis yet" notice
      exactly when there are none; the insight list only when there are
      insights. */
  datatype Panel = Panel(rows: seq<QuestionRow>, showsEmptyNotice: bool, insightLines: Option<seq<string>>)

  function RenderPanel(qaAnalysis: seq<QA>, insights: seq<Insight>): (p: Panel)
    ensures |p.rows| == |qaAnalysis|
    ensures forall i :: 0 <= i < |qaAnalysis| ==>
              p.rows[i].elementId == SegmentId(i) && p.rows[i].question == qaAnalysis[i].question &&
              |p.rows[i].answers| == |qaAnalysis[i].answers|
    ensures forall i :: 0 <= i < |qaAnalysis| ==>
              p.rows[i].relevanceVariant == BadgeVariant(qaAnalysis[i].relevance)
    ensures forall i :: 0 <= i < |qaAnalysis| ==> p.rows[i] == RenderQuestion(i, qaAnalysis[i])
    ensures p.showsEmptyNotice <==> qaAnalysis == []
    ensures p.insightLines.None? <==> insights == []
    ensures p.insightLines.Some? ==>
              |p.insightLines.value| == |insights| &&
              forall i :: 0 <= i < |insights| ==> p.insightLines.value[i] == InsightText(insights[i])
  {
    Panel(
      seq(|qaAnalysis|, i requires 0 <= i < |qaAnalysis| => RenderQuestion(i, qaAnalysis[i])),
      qaAnalysis == [],
      if insights == [] then None
      else Some(seq(|insights|, i requires 0 <= i < |insights| => InsightText(insights[i]))))
  }

  /** The row with element id `SegmentId(k)` is row `k`, the `k`-th question. */
  lemma RowOfSegmentId(qaAnalysis: seq<QA>, insights: seq<Insight>, k: nat, i: nat)
    requires i < |qaAnalysis|
    requires RenderPanel(qaAnalysis, insights).rows[i].elementId == SegmentId(k)
    ensures i == k
  {
    SegmentIdInjective(i, k);
  }

  /** The colour test ignores case. */
  lemma UpperCasePositiveIsGreen()
    ensures SentimentTone("POSITIVE") == Green
  {
    assert Lower("POSITIVE") == "positive";
    assert "positive" <= "positive"[0..];
  }

  /** An empty sentiment mentions nothing and is grey. */
  lemma EmptySentimentIsGray()
    ensures SentimentTone("") == Gray
  {
  }
}
