/** What a message card derives from its message: the shortened question and two colours. */
module MessageCard {
  import opened MessageTypes

  /** How many characters of a question a card shows before cutting it off. */
  const QuestionLimit: nat := 100

  /** A long question is cut to its first 100 characters followed by "..."; a short one is shown whole. */
  function TruncatedQuestion(question: string): (r: string)
    ensures |question| <= QuestionLimit ==> r == question
    ensures |question| > QuestionLimit ==> r == question[..QuestionLimit] + "..."
    ensures |r| <= QuestionLimit + 3
    ensures |r| <= QuestionLimit ==> r == question
  {
    if |question| > QuestionLimit then question[..QuestionLimit] + "..." else question
  }

  /** The shown text always starts with the question's first characters, up to the limit. */
  lemma TruncatedQuestionPrefix(question: string)
    ensures var n := if |question| < QuestionLimit then |question| else QuestionLimit;
      |TruncatedQuestion(question)| >= n && TruncatedQuestion(question)[..n] == question[..n]
  {
  }

  /** The colour used when a status string has no entry in the colour table. */
  const FallbackColor := "grey.500"

  /** `statusColors`: the border and chip colour of each status name. */
  const StatusColors: map<string, string> := map[
    "PENDING" := "warning.main",
    "APPROVED" := "success.main",
    "REJECTED" := "error.main",
    "LATER" := "info.main"]

  /**
   * `statusColors[status] || 'grey.500'`, for a status name. The prop is typed as a status,
   * so the fallback covers names outside the table; JavaScript's inherited object keys (such
   * as "constructor") never reach this lookup and are not modelled.
   */
  function StatusColor(status: string): (r: string)
    ensures status in StatusColors ==> r == StatusColors[status]
    ensures status !in StatusColors ==> r == FallbackColor
  {
    if status in StatusColors && StatusColors[status] != "" then StatusColors[status] else FallbackColor
  }

  /** Each of the four statuses has its own colour, and none of them falls back to grey. */
  lemma StatusColorsDistinct(a: Status, b: Status)
    ensures StatusColor(StatusName(a)) != FallbackColor
    ensures a != b ==> StatusColor(StatusName(a)) != StatusColor(StatusName(b))
  {
  }

  /** The colour of a confidence chip. */
  datatype ChipColor = Success | Info | Warning

  /** `confidence >= 0.9 ? 'success' : confidence >= 0.7 ? 'info' : 'warning'`. */
  function ConfidenceColor(confidence: real): (r: ChipColor)
    ensures r == Success <==> 0.9 <= confidence
    ensures r == Info <==> 0.7 <= confidence < 0.9
    ensures r == Warning <==> confidence < 0.7
  {
    if confidence >= 0.9 then Success else if confidence >= 0.7 then Info else Warning
  }

  /** Warning below Info below Success. */
  function ChipRank(c: ChipColor): (r: nat)
    ensures r <= 2
    ensures c == Warning <==> r == 0
    ensures c == Success <==> r == 2
  {
    match c
    case Warning => 0
    case Info => 1
    case Success => 2
  }

  /** A higher confidence never gets a lower-ranked colour. */
  lemma ConfidenceColorMonotone(c1: real, c2: real)
    requires c1 <= c2
    ensures ChipRank(ConfidenceColor(c1)) <= ChipRank(ConfidenceColor(c2))
  {
  }
}
