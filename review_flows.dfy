/**
 * End-to-end runs that wire the pieces together the way the pages do: a store behind the
 * message queue, and the refinement form behind the detail pane's Regenerate button.
 */
module ReviewFlows {
  import opened Wrappers
  import opened MessageTypes
  import MessageApi
  import MessageDetail
  import RefinementInput
  import Strings

  /** The fixed time the runs below stamp their changes with. */
  const Now := "2025-05-01T12:00:00Z"

  /** Approving message "1" of the fresh store moves it from auditor-1's pending list to the approved list. */
  method ApproveFirstMessage() returns (approved: seq<Message>, pending: seq<Message>)
    ensures exists i :: 0 <= i < |approved| && approved[i].id == "1" && approved[i].updatedAt == Now
    ensures forall i :: 0 <= i < |pending| ==> pending[i].id != "1"
  {
    var store := new MessageApi.MessageStore();
    var before := store.messages;
    MessageApi.InitialIdsUnique();
    MessageApi.InitialMessagesFirstPending();
    var r := store.UpdateMessageStatus("1", Approved, Now);
    MessageApi.StatusUpdateMovesMessage(before, 0, Approved, Now, Pending);
    approved := store.GetMessages("auditor-1", Some(Approved));
    pending := store.GetMessages("auditor-1", Some(Pending));
  }

  /**
   * What the refinement form and the detail pane hold after the auditor submits guidance
   * for a regeneration that the API rejects, with the pane's submit handler as written:
   * the form clears the guidance as if it had succeeded, shows no error, and stays open.
   */
  method FailedRegenerationAsWritten(guidance: string) returns (kept: string, error: Option<string>, open: bool)
    requires !Strings.AllSpace(guidance)
    ensures kept == "" && error == None && open
  {
    var pane := new MessageDetail.DetailState();
    pane.ToggleRefinementInput();
    var form := new RefinementInput.FormState("1");
    form.HandleInputChange(guidance);
    var call := form.BeginSubmit();
    var rejected := pane.HandleRegenerateSubmitAsWritten(false);
    form.EndSubmit(!rejected);
    kept, error, open := form.guidance, form.error, pane.showRefinementInput;
  }

  /**
   * The same run with the corrected submit handler: the failure reaches the form, which
   * keeps the guidance and shows its error, and the form stays open for another try.
   */
  method FailedRegeneration(guidance: string) returns (kept: string, error: Option<string>, open: bool)
    requires !Strings.AllSpace(guidance)
    ensures kept == guidance && error == Some(RefinementInput.SubmitFailed) && open
  {
    var pane := new MessageDetail.DetailState();
    pane.ToggleRefinementInput();
    var form := new RefinementInput.FormState("1");
    form.HandleInputChange(guidance);
    var call := form.BeginSubmit();
    var rejected := pane.HandleRegenerateSubmit(false);
    form.EndSubmit(!rejected);
    kept, error, open := form.guidance, form.error, pane.showRefinementInput;
  }

  /**
   * A regeneration the store accepts: the message keeps its old response as a prefix and
   * gains one history entry; the form is cleared and closed.
   */
  method SuccessfulRegeneration(guidance: string) returns (regenerated: Result<Message>, kept: string, open: bool)
    requires !Strings.AllSpace(guidance)
    ensures regenerated.Ok?
    ensures var m := MessageApi.InitialMessages[0];
      regenerated.value.history == m.history + [HistoryItem("h-1", "1", m.response, m.confidence, m.updatedAt)]
    ensures var before := MessageApi.InitialMessages[0].response;
      |before| < |regenerated.value.response| && regenerated.value.response[..|before|] == before
    ensures kept == "" && !open
  {
    var store := new MessageApi.MessageStore();
    var pane := new MessageDetail.DetailState();
    pane.ToggleRefinementInput();
    var form := new RefinementInput.FormState("1");
    form.HandleInputChange(guidance);
    var call := form.BeginSubmit();
    regenerated := store.RegenerateResponse(call.value, "h-1", Now);
    var rejected := pane.HandleRegenerateSubmit(regenerated.Ok?);
    form.EndSubmit(!rejected);
    kept, open := form.guidance, pane.showRefinementInput;
  }
}
