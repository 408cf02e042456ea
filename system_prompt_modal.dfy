/** The system-prompt modal: the user's review prompt, loaded when opened, edited up to
    2000 characters and saved on request. */
module SystemPromptModal {
  import opened JsStrings
  import opened Api

  const PromptCap: nat := 2000
  const LoadFailedMessage: string := "프롬프트를 불러오는데 실패했습니다."
  const SavedMessage: string := "시스템 프롬프트가 성공적으로 저장되었습니다."
  const SaveFailedMessage: string := "프롬프트 저장에 실패했습니다."

  class SystemPromptModal {
    var prompt: string
    var isLoading: bool
    var isSaving: bool
    var log: seq<UiEffect>

    /** First render. */
    constructor ()
      ensures prompt == "" && !isLoading && !isSaving && log == []
    {
      prompt, isLoading, isSaving, log := "", false, false, [];
    }

    /** The `[isOpen]` effect when `isOpen` turns false: the prompt is cleared and both
        flags reset. */
    method OnClosed()
      modifies this`prompt, this`isLoading, this`isSaving
      ensures prompt == "" && !isLoading && !isSaving
    {
      prompt := "";
      isLoading := false;
      isSaving := false;
    }

    /** `loadPrompt` (run when `isOpen` turns true): the stored prompt; on failure the
        prompt stays and an error toast says so. Loading is over either way. */
    method LoadPrompt(reply: Reply<string>)
      modifies this`prompt, this`isLoading, this`log
      ensures prompt == if reply.Ok? then reply.value else old(prompt)
      ensures !isLoading
      ensures log == old(log) + [Call(GetSystemPrompt)] + if reply.Err? then [Toast(Error, LoadFailedMessage)] else []
    {
      isLoading := true;
      log := log + [Call(GetSystemPrompt)];
      match reply {
        case Ok(data) =>
          prompt := data;
        case Err(_) =>
          log := log + [Toast(Error, LoadFailedMessage)];
      }
      isLoading := false;
    }

    /** The textarea's `onChange`: an edit longer than 2000 characters is dropped, so
        editing never takes the prompt past the cap. */
    method EditPrompt(text: string)
      modifies this`prompt
      ensures |text| <= PromptCap ==> prompt == text
      ensures |text| > PromptCap ==> prompt == old(prompt)
      ensures |old(prompt)| <= PromptCap ==> |prompt| <= PromptCap
    {
      prompt := CappedEdit(prompt, text, PromptCap);
    }

    /** `handleSave`: the prompt goes out as it stands; on success a toast and `onClose`,
        on failure an error toast and the modal stays. Saving is over either way. */
    method HandleSave(reply: Outcome)
      modifies this`isSaving, this`log
      ensures !isSaving
      ensures log == old(log) + [Call(UpdateSystemPrompt(prompt))]
                              + match reply
                                case Done => [Toast(Success, SavedMessage), CloseRequested]
                                case Threw(_) => [Toast(Error, SaveFailedMessage)]
    {
      isSaving := true;
      log := log + [Call(UpdateSystemPrompt(prompt))];
      match reply {
        case Done =>
          log := log + [Toast(Success, SavedMessage), CloseRequested];
        case Threw(_) =>
          log := log + [Toast(Error, SaveFailedMessage)];
      }
      isSaving := false;
    }
  }
}
