/**
 * The detail pane of the selected message: which screen it renders, the status buttons
 * and their in-flight flag and error, the toggle of the refinement form, and the history
 * listing.
 */
module MessageDetail {
  import opened Wrappers
  import opened MessageTypes

  /** What the pane renders. */
  datatype DetailScreen = Spinner | ErrorAlert(text: string) | NoSelection | Detail(message: Message)

  /** Loading wins over an error, an error over the empty "no message" state; a present message is shown last. */
  function DetailView(loading: bool, error: Option<string>, message: Option<Message>): (r: DetailScreen)
    ensures loading ==> r == Spinner
    ensures !loading && Truthy(error) ==> r == ErrorAlert(error.value)
    ensures !loading && !Truthy(error) && message.None? ==> r == NoSelection
    ensures !loading && !Truthy(error) && message.Some? ==> r == Detail(message.value)
  {
    if loading then Spinner
    else if Truthy(error) then ErrorAlert(error.value)
    else if message.None? then NoSelection
    else Detail(message.value)
  }

  /** The message's own controls appear only when nothing is loading, no error is set and a message is present. */
  lemma DetailShownOnlyWhenClear(loading: bool, error: Option<string>, message: Option<Message>)
    ensures DetailView(loading, error, message).Detail? <==> !loading && !Truthy(error) && message.Some?
  {
  }

  /**
   * A status button is disabled while an update is in flight or when the message already has
   * that status. The page renders buttons for Later, Reject and Approve only; the predicate is
   * also defined for Pending, which no button targets.
   */
  function StatusButtonDisabled(isUpdating: bool, message: Message, target: Status): (r: bool)
    ensures isUpdating ==> r
    ensures message.status == target ==> r
    ensures !isUpdating && message.status != target ==> !r
  {
    isUpdating || message.status == target
  }

  /**
   * The button of the message's current status can never be clicked; any other status
   * button can be clicked exactly when no update is in flight.
   */
  lemma OwnStatusButtonDisabled(isUpdating: bool, message: Message, target: Status)
    ensures StatusButtonDisabled(isUpdating, message, message.status)
    ensures target != message.status ==> (StatusButtonDisabled(isUpdating, message, target) <==> isUpdating)
  {
  }

  /** The Regenerate button is disabled exactly while a status update is in flight, and then every status button is too. */
  function RegenerateButtonDisabled(isUpdating: bool): (r: bool)
    ensures r <==> isUpdating
    ensures forall m: Message, t: Status :: r ==> StatusButtonDisabled(isUpdating, m, t)
  {
    isUpdating
  }

  /** One row of the history listing. */
  datatype VersionRow = VersionRow(version: nat, item: HistoryItem)

  /** History entries listed as Version first..first+n-1, in stored order. */
  function VersionsFrom(history: seq<HistoryItem>, first: nat): (r: seq<VersionRow>)
    ensures |r| == |history|
    ensures forall i :: 0 <= i < |history| ==> r[i] == VersionRow(first + i, history[i])
  {
    if history == [] then [] else [VersionRow(first, history[0])] + VersionsFrom(history[1..], first + 1)
  }

  /** The history listing: Version 1..n, oldest first. */
  function HistoryRows(history: seq<HistoryItem>): (r: seq<VersionRow>)
    ensures |r| == |history|
    ensures forall i :: 0 <= i < |history| ==> r[i].version == i + 1 && r[i].item == history[i]
  {
    VersionsFrom(history, 1)
  }

  /** The status call a click on a status button makes. */
  datatype StatusCall = StatusCall(id: string, status: Status)

  /** The pane's own state. */
  class DetailState {
    var showRefinementInput: bool
    var isUpdating: bool
    var updateError: Option<string>

    /** Mounted with the form hidden, nothing in flight and no error. */
    constructor ()
      ensures !showRefinementInput && !isUpdating && updateError == None
    {
      showRefinementInput := false;
      isUpdating := false;
      updateError := None;
    }

    /**
     * `handleStatusUpdate(status)`, first half. Without a message nothing happens and no call
     * is made; otherwise the update is marked in flight, the error cleared, and
     * `onUpdateStatus(message.id, status)` called. The buttons only ever pass Later, Rejected
     * or Approved; the method also accepts Pending, for which the page has no button.
     */
    method BeginStatusUpdate(message: Option<Message>, status: Status) returns (call: Option<StatusCall>)
      modifies this`isUpdating, this`updateError
      ensures message.None? ==> call == None && isUpdating == old(isUpdating) && updateError == old(updateError)
      ensures message.Some? ==> call == Some(StatusCall(message.value.id, status))
      ensures message.Some? ==> isUpdating && updateError == None
    {
      if message.None? {
        return None;
      }
      isUpdating := true;
      updateError := None;
      call := Some(StatusCall(message.value.id, status));
    }

    /** `handleStatusUpdate(status)`, second half: a failure sets the error; the update is no longer in flight either way. */
    method EndStatusUpdate(status: Status, succeeded: bool)
      modifies this`isUpdating, this`updateError
      ensures !isUpdating
      ensures succeeded ==> updateError == old(updateError)
      ensures !succeeded ==> updateError == Some("Failed to update status to " + StatusName(status))
    {
      if !succeeded {
        updateError := Some("Failed to update status to " + StatusName(status));
      }
      isUpdating := false;
    }

    /** The Regenerate button: shows the refinement form, or hides it again. */
    method ToggleRefinementInput()
      modifies this`showRefinementInput
      ensures showRefinementInput == !old(showRefinementInput)
    {
      showRefinementInput := !showRefinementInput;
    }

    /** The form's Cancel button. */
    method CancelRefinement()
      modifies this`showRefinementInput
      ensures !showRefinementInput
    {
      showRefinementInput := false;
    }

    /**
     * `handleRegenerateSubmit` as written: a successful regeneration closes the form; a
     * failed one is logged and swallowed, so the promise handed back to the form always
     * resolves and the form stays open.
     */
    method HandleRegenerateSubmitAsWritten(succeeded: bool) returns (rejected: bool)
      modifies this`showRefinementInput
      ensures !rejected
      ensures succeeded ==> !showRefinementInput
      ensures !succeeded ==> showRefinementInput == old(showRefinementInput)
    {
      if succeeded {
        showRefinementInput := false;
      }
      rejected := false;
    }

    /**
     * `handleRegenerateSubmit` as evidently intended: as above, but a failure is passed on
     * to the refinement form so that it can show its error and keep the guidance.
     */
    method HandleRegenerateSubmit(succeeded: bool) returns (rejected: bool)
      modifies this`showRefinementInput
      ensures rejected == !succeeded
      ensures succeeded ==> !showRefinementInput
      ensures !succeeded ==> showRefinementInput == old(showRefinementInput)
    {
      if succeeded {
        showRefinementInput := false;
      }
      rejected := !succeeded;
    }
  }
}
