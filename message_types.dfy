/** The records of the message review workflow. Timestamps are opaque ISO-8601 strings. */
module MessageTypes {

  /** The disposition of a message. */
  datatype Status = Pending | Approved | Rejected | Later

  /** The status as the TypeScript string literal spells it. */
  function StatusName(s: Status): (r: string)
    ensures forall i :: 0 <= i < |r| ==> 'A' <= r[i] <= 'Z'
    ensures |r| >= 5
  {
    match s
    case Pending => "PENDING"
    case Approved => "APPROVED"
    case Rejected => "REJECTED"
    case Later => "LATER"
  }

  /** The four spellings are distinct, so a status is recovered from its name. */
  lemma StatusNameInjective(a: Status, b: Status)
    requires StatusName(a) == StatusName(b)
    ensures a == b
  {
  }

  /** A snapshot of an earlier response, taken when the message was regenerated. */
  datatype HistoryItem = HistoryItem(
    id: string,
    messageId: string,
    response: string,
    confidence: real,
    createdAt: string)

  /** A customer question with its AI-generated response awaiting review. */
  datatype Message = Message(
    id: string,
    customerId: string,
    auditorId: string,
    question: string,
    response: string,
    confidence: real,
    status: Status,
    createdAt: string,
    updatedAt: string,
    history: seq<HistoryItem>)

  /** The argument of a regeneration request. */
  datatype Refinement = Refinement(messageId: string, guidance: string)
}
