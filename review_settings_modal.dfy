/** The review-settings modal: tone, focus, detail level and custom instructions, loaded
    when opened and saved on request. */
module ReviewSettingsModal {
  import opened Nullable
  import opened JsStrings
  import opened ErrorMessages
  import opened Api
  import opened ReviewSettingsForm

  const SavedMessage: string := "리뷰 설정이 저장되었습니다."

  class ReviewSettingsModal {
    var tone: ReviewTone
    var focus: ReviewFocus
    var detailLevel: DetailLevel
    var customInstructions: string
    var isLoading: bool
    var isSaving: bool
    var log: seq<UiEffect>

    /** The state the modal is in while closed: the defaults and no work in progress. */
    ghost predicate Cleared()
      reads this
    {
      && tone == DefaultTone && focus == DefaultFocus && detailLevel == DefaultDetailLevel
      && customInstructions == "" && !isLoading && !isSaving
    }

    /** First render. */
    constructor ()
      ensures Cleared() && log == []
    {
      tone, focus, detailLevel, customInstructions := DefaultTone, DefaultFocus, DefaultDetailLevel, "";
      isLoading, isSaving, log := false, false, [];
    }

    /** The `[isOpen]` effect when `isOpen` turns false: back to the defaults. */
    method OnClosed()
      modifies this`tone, this`focus, this`detailLevel, this`customInstructions, this`isLoading, this`isSaving
      ensures Cleared()
    {
      tone := DefaultTone;
      focus := DefaultFocus;
      detailLevel := DefaultDetailLevel;
      customInstructions := "";
      isLoading := false;
      isSaving := false;
    }

    /** `loadSettings` (run when `isOpen` turns true): the stored choices and instructions
        (absent instructions read `''`); on failure the form stays and an error toast says
        why. Loading is over either way. */
    method LoadSettings(reply: Reply<ReviewSettings>)
      modifies this`tone, this`focus, this`detailLevel, this`customInstructions, this`isLoading, this`log
      ensures reply.Ok? ==>
        && tone == reply.value.tone && focus == reply.value.focus && detailLevel == reply.value.detailLevel
        && customInstructions == (if reply.value.customInstructions.Some? then reply.value.customInstructions.value else "")
      ensures reply.Err? ==>
        tone == old(tone) && focus == old(focus) && detailLevel == old(detailLevel) && customInstructions == old(customInstructions)
      ensures !isLoading
      ensures log == old(log) + [Call(GetReviewSettings)] + if reply.Err? then [Toast(Error, GetErrorMessage(reply.error))] else []
    {
      isLoading := true;
      log := log + [Call(GetReviewSettings)];
      match reply {
        case Ok(data) =>
          tone := data.tone;
          focus := data.focus;
          detailLevel := data.detailLevel;
          customInstructions := LoadedInstructions(data.customInstructions);
        case Err(e) =>
          log := log + [Toast(Error, GetErrorMessage(e))];
      }
      isLoading := false;
    }

    /** The instructions textarea's `onChange`: an edit longer than 1000 characters is
        dropped, so editing never takes the text past the cap. */
    method EditCustomInstructions(text: string)
      modifies this`customInstructions
      ensures |text| <= InstructionsCap ==> customInstructions == text
      ensures |text| > InstructionsCap ==> customInstructions == old(customInstructions)
      ensures |old(customInstructions)| <= InstructionsCap ==> |customInstructions| <= InstructionsCap
    {
      customInstructions := CappedEdit(customInstructions, text, InstructionsCap);
    }

    /** `handleSave`: the three choices and the trimmed instructions (null when blank) go
        out; on success a toast and `onClose`, on failure an error toast and the modal stays.
        Saving is over either way. */
    method HandleSave(reply: Outcome)
      modifies this`isSaving, this`log
      ensures !isSaving
      ensures log == old(log) + [Call(UpdateReviewSettings(ModalPayload(tone, focus, detailLevel, customInstructions)))]
                              + match reply
                                case Done => [Toast(Success, SavedMessage), CloseRequested]
                                case Threw(e) => [Toast(Error, GetErrorMessage(e))]
    {
      isSaving := true;
      var settings := ModalPayload(tone, focus, detailLevel, customInstructions);
      log := log + [Call(UpdateReviewSettings(settings))];
      match reply {
        case Done =>
          log := log + [Toast(Success, SavedMessage), CloseRequested];
        case Threw(e) =>
          log := log + [Toast(Error, GetErrorMessage(e))];
      }
      isSaving := false;
    }
  }
}
