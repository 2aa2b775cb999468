/**
 * The message queue page: four status tabs over the auditor's messages, a detail pane for
 * the selected message, and the list rewrites that follow a status change or a
 * regeneration. Each asynchronous handler is split where the source has state that is
 * visible while the call is in flight; the API's answer is a parameter of the method
 * that consumes it.
 */
module MessageQueue {
  import opened Wrappers
  import opened MessageTypes
  import Seqs

  /** The text shown when the list fetch fails. */
  const LoadMessagesError := "Failed to load messages. Please try again."

  /** The text shown when the detail fetch fails. */
  const LoadDetailError := "Failed to load message details. Please try again."

  /** `tabStatusMap[tab]`: Pending, Later, Approved, Rejected; undefined past the fourth tab. */
  function TabStatus(tab: nat): (r: Option<Status>)
    ensures r.Some? <==> tab < 4
  {
    if tab == 0 then Some(Pending)
    else if tab == 1 then Some(Later)
    else if tab == 2 then Some(Approved)
    else if tab == 3 then Some(Rejected)
    else None
  }

  /** The tab that lists a status: the inverse of TabStatus. */
  function TabOf(s: Status): (tab: nat)
    ensures tab < 4 && TabStatus(tab) == Some(s)
  {
    match s
    case Pending => 0
    case Later => 1
    case Approved => 2
    case Rejected => 3
  }

  /** Every tab lists a different status, so each status has exactly one tab. */
  lemma TabStatusInjective(a: nat, b: nat)
    requires a < 4 && b < 4 && TabStatus(a) == TabStatus(b)
    ensures a == b
  {
  }

  /** `messages.filter(msg => msg.id !== id)`: every entry with that id goes, the rest keep their order. */
  function RemoveById(ms: seq<Message>, id: string): (r: seq<Message>)
    ensures Seqs.SubsequenceOf(r, ms)
    ensures forall i :: 0 <= i < |r| ==> r[i].id != id
    ensures forall i :: 0 <= i < |ms| && ms[i].id != id ==> ms[i] in r
    ensures forall x :: multiset(r)[x] == if x.id == id then 0 else multiset(ms)[x]
  {
    Seqs.FilterMultiset(ms, (m: Message) => m.id != id);
    Seqs.Filter(ms, (m: Message) => m.id != id)
  }

  /** `messages.map(msg => msg.id === id ? updated : msg)`: same length and order, only entries with that id replaced. */
  function ReplaceById(ms: seq<Message>, id: string, updated: Message): (r: seq<Message>)
    ensures |r| == |ms|
    ensures forall i :: 0 <= i < |ms| && ms[i].id == id ==> r[i] == updated
    ensures forall i :: 0 <= i < |ms| && ms[i].id != id ==> r[i] == ms[i]
  {
    Seqs.Map(ms, (m: Message) => if m.id == id then updated else m)
  }

  /** Removing an id that is not in the list leaves the list as it was. */
  lemma RemoveAbsent(ms: seq<Message>, id: string)
    requires forall i :: 0 <= i < |ms| ==> ms[i].id != id
    ensures RemoveById(ms, id) == ms
  {
    Seqs.FilterKeepsAll(ms, (m: Message) => m.id != id);
  }

  /** Removing an id twice is removing it once. */
  lemma RemoveIdempotent(ms: seq<Message>, id: string)
    ensures RemoveById(RemoveById(ms, id), id) == RemoveById(ms, id)
  {
    RemoveAbsent(RemoveById(ms, id), id);
  }

  /** The state of the page. */
  class QueueState {
    const auditorId: string
    var tabIndex: nat
    var messages: seq<Message>
    var selectedMessage: Option<Message>
    var loading: bool
    var error: Option<string>
    var detailLoading: bool
    var detailError: Option<string>

    /** The page as first rendered: first tab, empty list, list loading, nothing selected. */
    constructor (auditorId: string)
      ensures this.auditorId == auditorId && tabIndex == 0 && messages == [] && selectedMessage == None
      ensures loading && error == None && !detailLoading && detailError == None
    {
      this.auditorId := auditorId;
      tabIndex := 0;
      messages := [];
      selectedMessage := None;
      loading := true;
      error := None;
      detailLoading := false;
      detailError := None;
    }

    /**
     * The list fetch the effect starts whenever the tab changes: loading on, error cleared,
     * and the call made is `getMessages(auditorId, tabStatusMap[tabIndex])`.
     */
    method BeginFetch() returns (auditor: string, status: Option<Status>)
      modifies this`loading, this`error
      ensures loading && error == None
      ensures auditor == auditorId && status == TabStatus(tabIndex)
    {
      loading := true;
      error := None;
      auditor, status := auditorId, TabStatus(tabIndex);
    }

    /** The list fetch settles: its messages are shown, or only the error is set; loading ends either way. */
    method EndFetch(result: Result<seq<Message>>)
      modifies this`messages, this`error, this`loading
      ensures !loading
      ensures result.Ok? ==> messages == result.value && error == old(error)
      ensures result.Err? ==> messages == old(messages) && error == Some(LoadMessagesError)
    {
      if result.Ok? {
        messages := result.value;
      } else {
        error := Some(LoadMessagesError);
      }
      loading := false;
    }

    /** `handleTabChange`: the new tab is current and the selection is cleared. */
    method HandleTabChange(newValue: nat)
      modifies this`tabIndex, this`selectedMessage
      ensures tabIndex == newValue && selectedMessage == None
    {
      tabIndex := newValue;
      selectedMessage := None;
    }

    /** `handleSelectMessage(id)`, first half: detail loading on, detail error cleared, `getMessage(id)` called. */
    method BeginSelectMessage(id: string) returns (requested: string)
      modifies this`detailLoading, this`detailError
      ensures detailLoading && detailError == None && requested == id
    {
      detailLoading := true;
      detailError := None;
      requested := id;
    }

    /** `handleSelectMessage(id)`, second half: the fetched message is selected, or only the detail error is set. */
    method EndSelectMessage(result: Result<Message>)
      modifies this`selectedMessage, this`detailError, this`detailLoading
      ensures !detailLoading
      ensures result.Ok? ==> selectedMessage == Some(result.value) && detailError == old(detailError)
      ensures result.Err? ==> selectedMessage == old(selectedMessage) && detailError == Some(LoadDetailError)
    {
      if result.Ok? {
        selectedMessage := Some(result.value);
      } else {
        detailError := Some(LoadDetailError);
      }
      detailLoading := false;
    }

    /**
     * `handleUpdateStatus(id, status)` once `updateMessageStatus` has settled. On success the
     * returned message is selected, and the entries with that id leave the list when the new
     * status is not the current tab's, or are replaced in place when it is. On failure the
     * error is rethrown and neither the list nor the selection changes.
     */
    method HandleUpdateStatus(id: string, status: Status, result: Result<Message>) returns (rethrown: Option<ApiError>)
      modifies this`selectedMessage, this`messages
      ensures result.Err? ==> rethrown == Some(result.error)
      ensures result.Err? ==> selectedMessage == old(selectedMessage) && messages == old(messages)
      ensures result.Ok? ==> rethrown == None && selectedMessage == Some(result.value)
      ensures result.Ok? && Some(status) != TabStatus(tabIndex) ==> messages == RemoveById(old(messages), id)
      ensures result.Ok? && Some(status) == TabStatus(tabIndex) ==> messages == ReplaceById(old(messages), id, result.value)
    {
      if result.Err? {
        return Some(result.error);
      }
      var updated := result.value;
      selectedMessage := Some(updated);
      if Some(status) != TabStatus(tabIndex) {
        messages := RemoveById(messages, id);
      } else {
        messages := ReplaceById(messages, id, updated);
      }
      rethrown := None;
    }

    /**
     * `handleRegenerateResponse(messageId, guidance)` once `regenerateResponse` has settled:
     * on success the entry is replaced in place and selected; on failure the error is
     * rethrown and nothing changes.
     */
    method HandleRegenerateResponse(messageId: string, result: Result<Message>) returns (rethrown: Option<ApiError>)
      modifies this`selectedMessage, this`messages
      ensures result.Err? ==> rethrown == Some(result.error)
      ensures result.Err? ==> selectedMessage == old(selectedMessage) && messages == old(messages)
      ensures result.Ok? ==> rethrown == None && selectedMessage == Some(result.value)
      ensures result.Ok? ==> messages == ReplaceById(old(messages), messageId, result.value)
    {
      if result.Err? {
        return Some(result.error);
      }
      selectedMessage := Some(result.value);
      messages := ReplaceById(messages, messageId, result.value);
      rethrown := None;
    }
  }
}
