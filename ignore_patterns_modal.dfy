/** The ignore-patterns modal: loads the user's ignore patterns when opened, edits them in
    memory, saves them on request, and forgets everything when closed. */
module IgnorePatternsModal {
  import opened Nullable
  import opened JsStrings
  import opened ErrorMessages
  import opened Api
  import opened PatternEditing

  const SavedMessage: string := "Ignore 패턴이 성공적으로 저장되었습니다."

  class IgnorePatternsModal {
    var patterns: seq<string>
    var newPattern: string
    var isLoading: bool
    var isSaving: bool
    var log: seq<UiEffect>

    /** First render: nothing loaded, nothing typed. */
    constructor ()
      ensures patterns == [] && newPattern == "" && !isLoading && !isSaving && log == []
    {
      patterns, newPattern, isLoading, isSaving, log := [], "", false, false, [];
    }

    /** The `[isOpen]` effect when `isOpen` turns false: everything is reset. */
    method OnClosed()
      modifies this
      ensures patterns == [] && newPattern == "" && !isLoading && !isSaving && log == old(log)
    {
      patterns, newPattern, isLoading, isSaving := [], "", false, false;
    }

    /** `loadPatterns` (run by the `[isOpen]` effect when `isOpen` turns true): the
        server's list, or the empty list when it sends none; a failure keeps the list and
        shows an error toast. Loading is over either way. */
    method LoadPatterns(reply: Reply<Option<seq<string>>>)
      modifies this
      ensures reply.Ok? && reply.value.Some? ==> patterns == reply.value.value
      ensures reply.Ok? && reply.value.None? ==> patterns == []
      ensures reply.Err? ==> patterns == old(patterns)
      ensures !isLoading && isSaving == old(isSaving) && newPattern == old(newPattern)
      ensures log == old(log) + [Call(GetIgnorePatterns)]
                    + if reply.Err? then [Toast(Error, GetErrorMessage(reply.error))] else []
    {
      isLoading := true;
      log := log + [Call(GetIgnorePatterns)];
      match reply {
        case Ok(data) =>
          patterns := if data.Some? then data.value else [];
        case Err(e) =>
          log := log + [Toast(Error, GetErrorMessage(e))];
      }
      isLoading := false;
    }

    /** The input field's `onChange`. */
    method EditNewPattern(text: string)
      modifies this`newPattern
      ensures newPattern == text
    {
      newPattern := text;
    }

    /** `handleAddPattern`: blank input changes nothing; a duplicate warns and changes
        nothing; otherwise the trimmed input is appended and the input cleared. A
        duplicate-free list stays duplicate-free. */
    method HandleAddPattern()
      modifies this
      ensures var r := AddPattern(old(patterns), old(newPattern));
        && (r.BlankInput? ==> patterns == old(patterns) && newPattern == old(newPattern) && log == old(log))
        && (r.AlreadyPresent? ==>
              patterns == old(patterns) && newPattern == old(newPattern) && log == old(log) + [Toast(Warning, DuplicateWarning)])
        && (r.Appended? ==> patterns == old(patterns) + [Trim(old(newPattern))] && newPattern == "" && log == old(log))
      ensures NoDuplicates(old(patterns)) ==> NoDuplicates(patterns)
      ensures isLoading == old(isLoading) && isSaving == old(isSaving)
    {
      var r := AddPattern(patterns, newPattern);
      match r {
        case BlankInput =>
        case AlreadyPresent =>
          log := log + [Toast(Warning, DuplicateWarning)];
        case Appended(next) =>
          if NoDuplicates(patterns) {
            AddKeepsNoDuplicates(patterns, newPattern);
          }
          patterns, newPattern := next, "";
      }
    }

    /** `handleKeyDown`: Enter adds the typed pattern; any other key does nothing here. */
    method HandleKeyDown(key: string)
      modifies this
      ensures key != "Enter" ==> patterns == old(patterns) && newPattern == old(newPattern) && log == old(log)
      ensures key == "Enter" ==> var r := AddPattern(old(patterns), old(newPattern));
        && (r.BlankInput? ==> patterns == old(patterns) && newPattern == old(newPattern) && log == old(log))
        && (r.AlreadyPresent? ==>
              patterns == old(patterns) && newPattern == old(newPattern) && log == old(log) + [Toast(Warning, DuplicateWarning)])
        && (r.Appended? ==> patterns == old(patterns) + [Trim(old(newPattern))] && newPattern == "" && log == old(log))
      ensures NoDuplicates(old(patterns)) ==> NoDuplicates(patterns)
      ensures isLoading == old(isLoading) && isSaving == old(isSaving)
    {
      if key == "Enter" {
        HandleAddPattern();
      }
    }

    /** `handleRemovePattern`: drops the pattern at `index`; an index outside the list
        changes nothing. */
    method HandleRemovePattern(index: int)
      modifies this`patterns
      ensures patterns == RemoveAt(old(patterns), index)
      ensures 0 <= index < |old(patterns)| ==> patterns == old(patterns)[..index] + old(patterns)[index + 1..]
      ensures !(0 <= index < |old(patterns)|) ==> patterns == old(patterns)
    {
      RemoveAtSlices(patterns, index);
      patterns := RemoveAt(patterns, index);
    }

    /** `handleSave`: sends the list; on success a success toast and `onClose`, on failure
        an error toast and the modal stays open. Saving is over either way. */
    method HandleSave(reply: Outcome)
      modifies this
      ensures !isSaving && patterns == old(patterns) && newPattern == old(newPattern) && isLoading == old(isLoading)
      ensures log == old(log) + [Call(UpdateIgnorePatterns(old(patterns)))]
                    + match reply
                      case Done => [Toast(Success, SavedMessage), CloseRequested]
                      case Threw(e) => [Toast(Error, GetErrorMessage(e))]
    {
      isSaving := true;
      log := log + [Call(UpdateIgnorePatterns(patterns))];
      match reply {
        case Done =>
          log := log + [Toast(Success, SavedMessage), CloseRequested];
        case Threw(e) =>
          log := log + [Toast(Error, GetErrorMessage(e))];
      }
      isSaving := false;
    }
  }
}
