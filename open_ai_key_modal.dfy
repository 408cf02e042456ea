/** The OpenAI API key modal: shows the stored key when opened, takes a new key and the
    consent to the terms, and saves the key. */
module OpenAiKeyModal {
  import opened Nullable
  import opened JsStrings
  import opened ErrorMessages
  import opened Api

  const KeyMissingWarning: string := "OpenAI API 키를 입력해주세요."
  const ConsentWarning: string := "약관에 동의해주세요."
  const SavedMessage: string := "OpenAI API 키가 성공적으로 저장되었습니다."

  class OpenAiKeyModal {
    var apiKey: string
    var isLoading: bool
    var isSaving: bool
    var showKey: bool
    var agreed: bool
    var log: seq<UiEffect>

    /** The state the modal is in while closed. */
    ghost predicate Cleared()
      reads this
    {
      apiKey == "" && !isLoading && !isSaving && !showKey && !agreed
    }

    /** First render. */
    constructor ()
      ensures Cleared() && log == []
    {
      apiKey, isLoading, isSaving, showKey, agreed, log := "", false, false, false, false, [];
    }

    /** The `[isOpen]` effect when `isOpen` turns false: the key, the consent and every
        flag are reset. */
    method OnClosed()
      modifies this`apiKey, this`isLoading, this`isSaving, this`showKey, this`agreed
      ensures Cleared()
    {
      apiKey := "";
      isLoading := false;
      isSaving := false;
      showKey := false;
      agreed := false;
    }

    /** `loadApiKey` (run when `isOpen` turns true): the stored key, or `''` when there is
        none; on failure the key stays and an error toast says why. Loading is over either
        way. */
    method LoadApiKey(reply: Reply<Option<string>>)
      modifies this`apiKey, this`isLoading, this`log
      ensures reply.Ok? ==> apiKey == if reply.value.Some? then reply.value.value else ""
      ensures reply.Err? ==> apiKey == old(apiKey)
      ensures !isLoading
      ensures log == old(log) + [Call(GetOpenAiKey)] + if reply.Err? then [Toast(Error, GetErrorMessage(reply.error))] else []
    {
      isLoading := true;
      log := log + [Call(GetOpenAiKey)];
      match reply {
        case Ok(data) =>
          apiKey := TextOr(data, "");
        case Err(e) =>
          log := log + [Toast(Error, GetErrorMessage(e))];
      }
      isLoading := false;
    }

    /** The key field's `onChange`. */
    method EditApiKey(text: string)
      modifies this`apiKey
      ensures apiKey == text
    {
      apiKey := text;
    }

    /** The consent checkbox's `onChange`. */
    method SetAgreed(checked: bool)
      modifies this`agreed
      ensures agreed == checked
    {
      agreed := checked;
    }

    /** The eye button: shows or hides the key. */
    method ToggleShowKey()
      modifies this`showKey
      ensures showKey == !old(showKey)
    {
      showKey := !showKey;
    }

    /** `handleSave`: a blank key only warns, whatever the consent; a key without consent
        only warns; otherwise the key is sent as typed, and on success a toast and
        `onClose`, on failure an error toast. Saving is over either way. */
    method HandleSave(reply: Outcome)
      modifies this`isSaving, this`log
      ensures IsBlank(apiKey) ==> log == old(log) + [Toast(Warning, KeyMissingWarning)] && isSaving == old(isSaving)
      ensures !IsBlank(apiKey) && !agreed ==> log == old(log) + [Toast(Warning, ConsentWarning)] && isSaving == old(isSaving)
      ensures !IsBlank(apiKey) && agreed ==>
        && !isSaving
        && log == old(log) + [Call(UpdateOpenAiKey(apiKey))]
                           + match reply
                             case Done => [Toast(Success, SavedMessage), CloseRequested]
                             case Threw(e) => [Toast(Error, GetErrorMessage(e))]
    {
      TrimEmptyIffBlank(apiKey);
      if Trim(apiKey) == "" {
        log := log + [Toast(Warning, KeyMissingWarning)];
        return;
      }
      if !agreed {
        log := log + [Toast(Warning, ConsentWarning)];
        return;
      }
      isSaving := true;
      log := log + [Call(UpdateOpenAiKey(apiKey))];
      match reply {
        case Done =>
          log := log + [Toast(Success, SavedMessage), CloseRequested];
        case Threw(e) =>
          log := log + [Toast(Error, GetErrorMessage(e))];
      }
      isSaving := false;
    }
  }
}
