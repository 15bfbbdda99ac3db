/** The shapes of the analysis report and interview records the dashboard
    components read (declared in `client/src/lib/types.ts`, which is not part
    of this model: only the fields the components use appear here).

    An optional text field is modelled as a string that is empty when the
    field is missing: every use of such a field goes through `||` or an
    `if (x)` test, which treat a missing field and `""` alike. A missing list
    of answers is the empty list for the same reason. Optional numbers stay
    `Option<real>` where the missing value and zero are passed on
    differently. */
module ReportTypes {
  import opened Common

  datatype Answer = Answer(
    text: string,
    timestamp: string,
    sentiment: string,
    jdMatch: int,
    reasoning: string)

  datatype QA = QA(
    question: string,
    timestamp: string,
    answers: seq<Answer>,
    relevance: int,
    reasoning: string)

  datatype Report = Report(
    recruiterSentiment: Option<real>,
    candidateEngagement: Option<real>,
    jdMatchScore: Option<real>,
    flowContinuityScore: Option<real>,
    qaAnalysis: Option<seq<QA>>)

  /** One entry of `jdAnalysis.questionRelevance`; a missing score counts
      as 0 (`q.relevanceScore || 0`). */
  datatype QuestionRelevance = QuestionRelevance(category: string, relevanceScore: real)

  /** One entry of `jdAnalysis.categoryBreakdown`; a missing score counts as
      0 and missing details as empty, as their only uses are `|| 0` and
      `|| 'No details available'`. */
  datatype CategoryScore = CategoryScore(score: real, details: string)

  /** `jdAnalysis`: `categoryBreakdown` maps a category key to its entry,
      `overallScore` may be missing. */
  datatype JdAnalysis = JdAnalysis(
    categoryBreakdown: Option<map<string, CategoryScore>>,
    questionRelevance: seq<QuestionRelevance>,
    overallScore: Option<real>)

  datatype Interview = Interview(
    jdAnalysis: Option<JdAnalysis>,
    embeddingSimilarity: Option<real>,
    graphFlowEnhancedScore: Option<real>,
    voiceToneScore: Option<real>)
}
