/**
 * The guidance form of a regeneration: validation of the guidance, the in-flight flag,
 * and what a successful or failed submission does to the text and the error.
 */
module RefinementInput {
  import opened Wrappers
  import opened MessageTypes
  import Strings

  /** The error set when the guidance is blank. */
  const GuidanceRequired := "Please provide guidance for regeneration"

  /** The error set when the submission is rejected. */
  const SubmitFailed := "Failed to submit refinement. Please try again."

  /** Submit is disabled while submitting or while the guidance is blank after trimming. */
  function SubmitDisabled(isSubmitting: bool, guidance: string): (r: bool)
    ensures isSubmitting ==> r
    ensures !isSubmitting ==> (r <==> Strings.AllSpace(guidance))
  {
    isSubmitting || Strings.Trim(guidance) == ""
  }

  /** Cancel is disabled exactly while submitting, and then Submit is disabled too. */
  function CancelDisabled(isSubmitting: bool): (r: bool)
    ensures r <==> isSubmitting
    ensures forall guidance :: r ==> SubmitDisabled(isSubmitting, guidance)
  {
    isSubmitting
  }

  /** When nothing is in flight, Submit is enabled exactly when the guidance has a non-space character. */
  lemma SubmitEnabledIffGuidance(guidance: string)
    ensures !SubmitDisabled(false, guidance) <==> !Strings.AllSpace(guidance)
  {
  }

  /** The form's state. */
  class FormState {
    const messageId: string
    var guidance: string
    var isSubmitting: bool
    var error: Option<string>

    /** Mounted empty, for one message. */
    constructor (messageId: string)
      ensures this.messageId == messageId && guidance == "" && !isSubmitting && error == None
    {
      this.messageId := messageId;
      guidance := "";
      isSubmitting := false;
      error := None;
    }

    /** `handleInputChange`: the text is replaced and any shown error cleared. */
    method HandleInputChange(value: string)
      modifies this`guidance, this`error
      ensures guidance == value
      ensures !Truthy(error)
      ensures !Truthy(old(error)) ==> error == old(error)
    {
      guidance := value;
      if Truthy(error) {
        error := None;
      }
    }

    /**
     * `handleSubmit`, first half. Blank guidance only sets the validation error and calls
     * nothing. Otherwise the form is marked submitting and `onSubmit` is called once with
     * the message id and the trimmed guidance.
     */
    method BeginSubmit() returns (call: Option<Refinement>)
      modifies this`isSubmitting, this`error
      ensures Strings.AllSpace(guidance) ==> call == None && error == Some(GuidanceRequired)
      ensures Strings.AllSpace(guidance) ==> isSubmitting == old(isSubmitting)
      ensures !Strings.AllSpace(guidance) ==> call == Some(Refinement(messageId, Strings.Trim(guidance)))
      ensures !Strings.AllSpace(guidance) ==> isSubmitting && error == old(error)
      ensures call.Some? ==> call.value.guidance != "" && !Strings.IsSpace(call.value.guidance[0])
    {
      var trimmed := Strings.Trim(guidance);
      if trimmed == "" {
        assert Strings.AllSpace(guidance);
        error := Some(GuidanceRequired);
        return None;
      }
      assert !Strings.AllSpace(guidance) && !Strings.IsSpace(trimmed[0]);
      isSubmitting := true;
      call := Some(Refinement(messageId, trimmed));
    }

    /**
     * `handleSubmit`, second half: success clears the guidance, failure keeps it and sets
     * the error; the form is no longer submitting either way.
     */
    method EndSubmit(succeeded: bool)
      modifies this`guidance, this`isSubmitting, this`error
      ensures !isSubmitting
      ensures succeeded ==> guidance == "" && error == old(error)
      ensures !succeeded ==> guidance == old(guidance) && error == Some(SubmitFailed)
    {
      if succeeded {
        guidance := "";
      } else {
        error := Some(SubmitFailed);
      }
      isSubmitting := false;
    }
  }
}
