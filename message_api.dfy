/**
 * The in-memory message store behind the API facade: a module-level array of messages
 * that the operations read, overwrite at an index, or replace wholesale. Latency, uuid
 * generation and the clock are left to the caller: fresh ids and the current time are
 * parameters.
 */
module MessageApi {
  import opened Wrappers
  import opened MessageTypes
  import Seqs
  import Strings

  /** The cap `regenerateResponse` puts on confidence. */
  const MaxConfidence: real := 0.99

  /** The confidence one regeneration adds before capping. */
  const ConfidenceStep: real := 0.05

  /** `findIndex(message => message.id === id)`: the first position holding that id. */
  function IndexOf(ms: seq<Message>, id: string): (r: Option<nat>)
    ensures r.None? <==> forall i :: 0 <= i < |ms| ==> ms[i].id != id
    ensures r.Some? ==> r.value < |ms| && ms[r.value].id == id
    ensures r.Some? ==> forall j :: 0 <= j < r.value ==> ms[j].id != id
  {
    Seqs.FindIndex(ms, (m: Message) => m.id == id)
  }

  /**
   * What `getMessages(auditorId, status)` returns: the auditor's messages in store order,
   * narrowed to one status only when a status is supplied.
   */
  function MessagesFor(ms: seq<Message>, auditorId: string, status: Option<Status>): (r: seq<Message>)
    ensures Seqs.SubsequenceOf(r, ms)
    ensures forall i :: 0 <= i < |r| ==> r[i].auditorId == auditorId
    ensures forall i :: 0 <= i < |r| ==> status.None? || r[i].status == status.value
    ensures forall i :: 0 <= i < |r| ==> r[i] in ms
    ensures forall i :: 0 <= i < |ms| && ms[i].auditorId == auditorId && (status.None? || ms[i].status == status.value)
              ==> ms[i] in r
    ensures forall x :: multiset(r)[x] ==
              if x.auditorId == auditorId && (status.None? || x.status == status.value) then multiset(ms)[x] else 0
  {
    var mine := Seqs.Filter(ms, (m: Message) => m.auditorId == auditorId);
    Seqs.FilterMultiset(ms, (m: Message) => m.auditorId == auditorId);
    if status.Some? then
      var r := Seqs.Filter(mine, (m: Message) => m.status == status.value);
      Seqs.FilterMultiset(mine, (m: Message) => m.status == status.value);
      Seqs.SubsequenceTrans(r, mine, ms);
      r
    else
      mine
  }

  /** No two stored messages share an id. */
  predicate UniqueIds(ms: seq<Message>) {
    forall i, j :: 0 <= i < j < |ms| ==> ms[i].id != ms[j].id
  }

  /** The seed data's ids are "1" to "5", so they are unique. */
  lemma InitialIdsUnique()
    ensures UniqueIds(InitialMessages)
  {
  }

  /** Message "1" of the seed data is the first one, pending, for auditor-1. */
  lemma InitialMessagesFirstPending()
    ensures |InitialMessages| > 0 && IndexOf(InitialMessages, "1") == Some(0)
    ensures InitialMessages[0].auditorId == "auditor-1" && InitialMessages[0].status == Pending
  {
  }

  /**
   * In a store whose ids are unique, giving the message at index k a new status moves it:
   * the auditor's list for the new status holds it, and the list for any other status
   * holds no message with its id.
   */
  lemma StatusUpdateMovesMessage(ms: seq<Message>, k: nat, status: Status, now: string, other: Status)
    requires UniqueIds(ms) && k < |ms| && other != status
    ensures var updated := ms[k].(status := status, updatedAt := now);
      var after := ms[k := updated];
      updated in MessagesFor(after, ms[k].auditorId, Some(status)) &&
      forall i :: 0 <= i < |MessagesFor(after, ms[k].auditorId, Some(other))| ==>
        MessagesFor(after, ms[k].auditorId, Some(other))[i].id != ms[k].id
  {
    var updated := ms[k].(status := status, updatedAt := now);
    var after := ms[k := updated];
    assert after[k] == updated;
    var others := MessagesFor(after, ms[k].auditorId, Some(other));
    forall i | 0 <= i < |others|
      ensures others[i].id != ms[k].id
    {
      var j :| 0 <= j < |after| && after[j] == others[i];
      assert j != k;
    }
  }

  /** `Math.min(0.99, confidence + 0.05)`: the smaller of the cap and the bumped value. */
  function BumpedConfidence(confidence: real): (r: real)
    ensures r <= MaxConfidence && r <= confidence + ConfidenceStep
    ensures confidence <= MaxConfidence ==> confidence <= r
    ensures r == confidence + ConfidenceStep || r == MaxConfidence
  {
    if confidence + ConfidenceStep < MaxConfidence then confidence + ConfidenceStep else MaxConfidence
  }

  /** The fixed text that opens and closes the note a regeneration appends. */
  const RefinedLead := " [Refined based on: "
  const RefinedTail := "]"

  /**
   * The templated "new" response: the old one, then the guidance in a bracketed note.
   * The four pieces cover the result, so each can be read back from it.
   */
  function RefinedResponse(response: string, guidance: string): (r: string)
    ensures |r| == |response| + |RefinedLead| + |guidance| + |RefinedTail|
    ensures r[..|response|] == response
    ensures r[|response|..|response| + |RefinedLead|] == RefinedLead
    ensures r[|response| + |RefinedLead|..|r| - |RefinedTail|] == guidance
    ensures r[|r| - |RefinedTail|..] == RefinedTail
    ensures Strings.EndsWith(r, guidance + RefinedTail)
  {
    var r := response + RefinedLead + guidance + RefinedTail;
    assert r[|r| - |guidance + RefinedTail|..] == guidance + RefinedTail;
    r
  }

  /**
   * One regeneration of m: the current response, confidence and last update time are
   * snapshotted at the end of the history, the response is refined, the confidence bumped
   * and updatedAt set to now. Nothing else about the message changes.
   */
  function Regenerated(m: Message, guidance: string, historyId: string, now: string): (r: Message)
    ensures r.history == m.history + [HistoryItem(historyId, m.id, m.response, m.confidence, m.updatedAt)]
    ensures r.response == RefinedResponse(m.response, guidance)
    ensures |m.response| < |r.response| && r.response[..|m.response|] == m.response
    ensures r.confidence == BumpedConfidence(m.confidence)
    ensures r.confidence <= MaxConfidence
    ensures m.confidence <= MaxConfidence ==> m.confidence <= r.confidence
    ensures r.updatedAt == now
    ensures r.(response := m.response, confidence := m.confidence, updatedAt := m.updatedAt, history := m.history) == m
  {
    var item := HistoryItem(historyId, m.id, m.response, m.confidence, m.updatedAt);
    m.(response := RefinedResponse(m.response, guidance),
       confidence := BumpedConfidence(m.confidence),
       updatedAt := now,
       history := m.history + [item])
  }

  /** One regeneration request as the store sees it: guidance, the history entry's id and the time. */
  datatype RegenerationStep = RegenerationStep(guidance: string, historyId: string, now: string)

  /** The message after a series of regenerations, applied in order. */
  function RegeneratedAll(m: Message, steps: seq<RegenerationStep>): Message
    decreases |steps|
  {
    if steps == [] then m
    else
      var last := steps[|steps| - 1];
      Regenerated(RegeneratedAll(m, steps[..|steps| - 1]), last.guidance, last.historyId, last.now)
  }

  /**
   * After N regenerations the history has grown by exactly N entries, the old history is
   * kept as a prefix, and entry k records the response and confidence the message had just
   * before the k-th regeneration: history is oldest first.
   */
  lemma {:induction false} RegeneratedAllHistory(m: Message, steps: seq<RegenerationStep>)
    ensures var r := RegeneratedAll(m, steps);
      |r.history| == |m.history| + |steps| && r.history[..|m.history|] == m.history
    ensures forall k :: 0 <= k < |steps| ==>
      RegeneratedAll(m, steps).history[|m.history| + k].response == RegeneratedAll(m, steps[..k]).response &&
      RegeneratedAll(m, steps).history[|m.history| + k].confidence == RegeneratedAll(m, steps[..k]).confidence
    decreases |steps|
  {
    if steps != [] {
      var n := |steps| - 1;
      var init := steps[..n];
      RegeneratedAllHistory(m, init);
      var before := RegeneratedAll(m, init);
      var r := RegeneratedAll(m, steps);
      assert r.history == before.history + [HistoryItem(steps[n].historyId, before.id, before.response, before.confidence, before.updatedAt)];
      forall k | 0 <= k < |steps|
        ensures r.history[|m.history| + k].response == RegeneratedAll(m, steps[..k]).response
        ensures r.history[|m.history| + k].confidence == RegeneratedAll(m, steps[..k]).confidence
      {
        if k < n {
          assert steps[..k] == init[..k];
        } else {
          assert steps[..k] == init;
        }
      }
    }
  }

  /**
   * Across any number of regenerations of a message whose confidence starts at most 0.99,
   * confidence never decreases and never exceeds 0.99, and the original response stays a prefix.
   */
  lemma {:induction false} RegeneratedAllMonotone(m: Message, steps: seq<RegenerationStep>)
    requires m.confidence <= MaxConfidence
    ensures var r := RegeneratedAll(m, steps);
      m.confidence <= r.confidence <= MaxConfidence &&
      |m.response| <= |r.response| && r.response[..|m.response|] == m.response
    decreases |steps|
  {
    if steps != [] {
      RegeneratedAllMonotone(m, steps[..|steps| - 1]);
    }
  }

  /** The fixture questions and responses. */
  const Question1 := "What are the tax implications of selling my rental property?"
  const Response1 := "When selling a rental property, you'll need to consider capital gains tax, depreciation recapture, and potential 1031 exchange options. The specific tax implications depend on how long you've owned the property and your overall tax situation."
  const Question2 := "Should I convert my traditional IRA to a Roth IRA this year?"
  const Response2 := "Converting to a Roth IRA means paying taxes now for tax-free withdrawals later. This could be beneficial if you expect to be in a higher tax bracket during retirement or if tax rates increase. Consider your current income, expected retirement income, and available funds to pay the conversion tax."
  const Question3 := "How should I allocate my 401(k) investments?"
  const Response3 := "Your 401(k) allocation should be based on your age, risk tolerance, and retirement timeline. A common guideline is to subtract your age from 110 to determine your stock percentage, with the remainder in bonds. Consider diversifying across different asset classes and regularly rebalancing your portfolio."
  const Question4 := "What tax deductions can I claim for my home office?"
  const Response4 := "For a home office, you can claim deductions using either the simplified method ($5 per square foot, up to 300 sq ft) or the regular method (based on actual expenses). The space must be used regularly and exclusively for business. You can deduct a portion of rent/mortgage, utilities, insurance, and repairs proportional to your office space."
  const Question5 := "How do I report cryptocurrency gains on my taxes?"
  const Response5 := "Cryptocurrency is treated as property by the IRS. You must report capital gains or losses when you sell, trade, or use crypto to purchase goods/services. Use Form 8949 and Schedule D. Keep detailed records of acquisition dates, cost basis, and sale proceeds. Mining and staking rewards are typically reported as ordinary income."
  const EarlierResponse2 := "Converting from a traditional IRA to a Roth IRA could be beneficial depending on your tax situation."

  /** The five messages the store starts with, and returns to on reset. */
  const InitialMessages: seq<Message> :=
    [
      Message("1", "customer-1", "auditor-1", Question1, Response1,
        0.92, Pending, "2025-04-24T09:30:00Z", "2025-04-24T09:30:00Z",
        []),
      Message("2", "customer-2", "auditor-1", Question2, Response2,
        0.78, Approved, "2025-04-23T14:15:00Z", "2025-04-24T10:45:00Z",
        [HistoryItem("101", "2", EarlierResponse2, 0.65, "2025-04-23T14:15:00Z")]),
      Message("3", "customer-3", "auditor-1", Question3, Response3,
        0.88, Later, "2025-04-22T11:20:00Z", "2025-04-22T16:30:00Z",
        []),
      Message("4", "customer-1", "auditor-1", Question4, Response4,
        0.95, Rejected, "2025-04-21T08:45:00Z", "2025-04-21T13:10:00Z",
        []),
      Message("5", "customer-4", "auditor-1", Question5, Response5,
        0.82, Pending, "2025-04-20T15:30:00Z", "2025-04-20T15:30:00Z",
        [])
    ]

  /** The store. */
  class MessageStore {
    var messages: seq<Message>

    /** The store as the module loads it. */
    constructor ()
      ensures messages == InitialMessages
    {
      messages := InitialMessages;
    }

    /** `getMessages(auditorId, status?)`. */
    method GetMessages(auditorId: string, status: Option<Status>) returns (r: seq<Message>)
      ensures r == MessagesFor(messages, auditorId, status)
    {
      r := Seqs.Filter(messages, (m: Message) => m.auditorId == auditorId);
      if status.Some? {
        r := Seqs.Filter(r, (m: Message) => m.status == status.value);
      }
    }

    /** `getMessage(id)`: the first stored message with that id, or a not-found rejection. */
    method GetMessage(id: string) returns (r: Result<Message>)
      ensures r.Err? <==> forall i :: 0 <= i < |messages| ==> messages[i].id != id
      ensures r.Err? ==> r.error == NotFound(id)
      ensures r.Ok? ==> r.value in messages && r.value.id == id
      ensures r.Ok? ==> exists i :: 0 <= i < |messages| && messages[i] == r.value &&
                          forall j :: 0 <= j < i ==> messages[j].id != id
    {
      match IndexOf(messages, id)
      case None =>
        r := Err(NotFound(id));
      case Some(i) =>
        r := Ok(messages[i]);
    }

    /**
     * `updateMessageStatus(id, status)`: the first message with that id gets the new status
     * and updatedAt = now; nothing else in the store changes. An unknown id is rejected and
     * the store is left as it was.
     */
    method UpdateMessageStatus(id: string, status: Status, now: string) returns (r: Result<Message>)
      modifies this
      ensures IndexOf(old(messages), id).None? ==> r == Err(NotFound(id)) && messages == old(messages)
      ensures IndexOf(old(messages), id).Some? ==>
        var i := IndexOf(old(messages), id).value;
        r == Ok(old(messages)[i].(status := status, updatedAt := now)) &&
        messages == old(messages)[i := r.value]
    {
      var index := IndexOf(messages, id);
      if index.None? {
        return Err(NotFound(id));
      }
      var i := index.value;
      var updated := messages[i].(status := status, updatedAt := now);
      messages := messages[i := updated];
      r := Ok(updated);
    }

    /**
     * `regenerateResponse({messageId, guidance})`: the first message with that id is
     * replaced by its regeneration; an unknown id is rejected and the store is unchanged.
     */
    method RegenerateResponse(refinement: Refinement, historyId: string, now: string) returns (r: Result<Message>)
      modifies this
      ensures IndexOf(old(messages), refinement.messageId).None? ==>
        r == Err(NotFound(refinement.messageId)) && messages == old(messages)
      ensures IndexOf(old(messages), refinement.messageId).Some? ==>
        var i := IndexOf(old(messages), refinement.messageId).value;
        r == Ok(Regenerated(old(messages)[i], refinement.guidance, historyId, now)) &&
        messages == old(messages)[i := r.value]
    {
      var index := IndexOf(messages, refinement.messageId);
      if index.None? {
        return Err(NotFound(refinement.messageId));
      }
      var i := index.value;
      var updated := Regenerated(messages[i], refinement.guidance, historyId, now);
      messages := messages[i := updated];
      r := Ok(updated);
    }

    /** `resetMockData()`. */
    method ResetMockData()
      modifies this
      ensures messages == InitialMessages
    {
      messages := InitialMessages;
    }
  }
}
