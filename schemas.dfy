/**
 * The request and response records of the HTTP surface, with the field
 * constraints their declarations put on them, and the feedback record that
 * the feedback log stores. Each record is a datatype; each declared bound is
 * a predicate. The query path is proved to meet the `Source` bound exactly
 * when its web scores do (`Rag.SourcesValid`), and a validated feedback
 * request stores in-range values (`Feedback.ValidRequestEntry`). The other
 * predicates state the request and response declarations, which the HTTP
 * routes enforce; the routes are not part of this model.
 */
module Schemas {
  import opened Wrappers

  /** `Literal["internal", "web"]`. */
  datatype SourceType = Internal | Web

  /** `Literal["positive", "negative"]`. */
  datatype FeedbackType = Positive | Negative

  /** The text the literal is stored as. */
  function Label(t: FeedbackType): string
  {
    match t
    case Positive => "positive"
    case Negative => "negative"
  }

  datatype Source = Source(
    kind: SourceType,
    title: string,
    author: Option<string>,
    url: Option<string>,
    relevanceScore: real,
    sentiment: Option<string>)

  /** `relevance_score: float = Field(ge=0.0, le=1.0)`. */
  predicate ValidSource(s: Source)
  {
    0.0 <= s.relevanceScore <= 1.0
  }

  datatype JudgeScores = JudgeScores(relevance: int, factuality: int, completeness: int)

  /** Each dimension is `int = Field(ge=0, le=10)`. */
  predicate ValidJudgeScores(j: JudgeScores)
  {
    0 <= j.relevance <= 10 && 0 <= j.factuality <= 10 && 0 <= j.completeness <= 10
  }

  datatype ChatRequest = ChatRequest(query: string, enableWebSearch: bool)

  /** `query: str = Field(..., min_length=1)`. */
  predicate ValidChatRequest(r: ChatRequest)
  {
    |r.query| >= 1
  }

  datatype ChatResponse = ChatResponse(
    responseId: string,
    answer: string,
    sources: seq<Source>,
    confidence: real,
    judgeScores: JudgeScores,
    retrievalMethod: string,
    webSearchTriggered: bool,
    timestamp: string)

  predicate ValidChatResponse(r: ChatResponse)
  {
    (forall s :: s in r.sources ==> ValidSource(s)) &&
    0.0 <= r.confidence <= 1.0 &&
    ValidJudgeScores(r.judgeScores)
  }

  datatype AnalyticsRequest = AnalyticsRequest(query: string)

  predicate ValidAnalyticsRequest(r: AnalyticsRequest)
  {
    |r.query| >= 1
  }

  datatype FeedbackRequest = FeedbackRequest(
    responseId: string,
    query: string,
    answer: string,
    sources: seq<Source>,
    feedbackType: FeedbackType,
    confidence: real,
    judgeScores: JudgeScores,
    retrievalMethod: string,
    webSearchTriggered: bool,
    comment: Option<string>)

  predicate ValidFeedbackRequest(r: FeedbackRequest)
  {
    (forall s :: s in r.sources ==> ValidSource(s)) &&
    0.0 <= r.confidence <= 1.0 &&
    ValidJudgeScores(r.judgeScores)
  }

  /** `judge_scores.model_dump()`: the three dimensions under their field names. */
  function JudgeScoresDict(j: JudgeScores): map<string, int>
  {
    map["relevance" := j.relevance, "factuality" := j.factuality, "completeness" := j.completeness]
  }

  /**
   * One stored feedback record, as `submit_feedback` writes it. Keys that a
   * log written by other means could lack are optional here (`confidence`),
   * or read with Python's defaults (an absent `web_search_triggered` reads as
   * false, absent `judge_scores` as an empty dict). Timestamps are instants.
   */
  datatype FeedbackEntry = FeedbackEntry(
    feedbackId: string,
    responseId: string,
    timestamp: nat,
    query: string,
    answer: string,
    sources: seq<Source>,
    feedbackType: string,
    confidence: Option<real>,
    judgeScores: map<string, int>,
    retrievalMethod: string,
    webSearchTriggered: bool,
    comment: Option<string>)

  predicate IsPositive(f: FeedbackEntry) { f.feedbackType == "positive" }

  predicate IsNegative(f: FeedbackEntry) { f.feedbackType == "negative" }

  predicate UsedWebSearch(f: FeedbackEntry) { f.webSearchTriggered }

  predicate UsedInternalOnly(f: FeedbackEntry) { !f.webSearchTriggered }
}
