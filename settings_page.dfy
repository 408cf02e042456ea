/** The settings page: review style, automation switches, model, OpenAI API key and ignore
    patterns, loaded together on mount and saved together by one button. */
module SettingsPage {
  import opened Nullable
  import opened JsStrings
  import opened ErrorMessages
  import opened Api
  import opened PatternEditing
  import opened ReviewSettingsForm

  const ConsentWarning: string := "OpenAI API 키 사용 약관에 동의해주세요."
  const InvalidKeyMessage: string := "유효하지 않은 OpenAI API 키입니다."
  const SavedMessage: string := "설정이 저장되었습니다."

  /** The marker of a key the server sends back masked. */
  const MaskMarker: string := "****"

  /** What the three reads of `loadAllSettings` deliver together. */
  datatype LoadedSettings = LoadedSettings(review: ReviewSettings, ignorePatterns: Option<seq<string>>, openAiKey: Option<string>)

  /** How `handleSaveAll` sees the key field: blank (`apiKey.trim()` is falsy), the
      masked key the server sent back (it contains `****`), or a key typed by the user. */
  datatype KeyInput = NoKey | MaskedKey | NewKey

  /** Blank text cannot contain the mask, whose characters are not whitespace. */
  lemma MaskedIsNotBlank(apiKey: string)
    ensures Includes(apiKey, MaskMarker) ==> !IsBlank(apiKey)
  {
    if Includes(apiKey, MaskMarker) {
      var i :| OccursAt(apiKey, MaskMarker, i);
      assert apiKey[i] == apiKey[i..i + 4][0] == '*';
    }
  }

  /** The key field's classification, read off `apiKey.trim()` and `apiKey.includes('****')`
      as `handleSaveAll` reads them. */
  function ClassifyKey(apiKey: string): (r: KeyInput)
    ensures r.NoKey? <==> Trim(apiKey) == ""
    ensures r.MaskedKey? <==> Includes(apiKey, MaskMarker)
  {
    TrimEmptyIffBlank(apiKey);
    MaskedIsNotBlank(apiKey);
    if Trim(apiKey) == "" then NoKey
    else if Includes(apiKey, MaskMarker) then MaskedKey
    else NewKey
  }

  /** The three kinds in terms of the text alone: no key is blank text, a masked key is
      any text holding the mask, and a new key is the rest. */
  lemma ClassifyKeyByText(apiKey: string)
    ensures ClassifyKey(apiKey).NoKey? <==> IsBlank(apiKey)
    ensures ClassifyKey(apiKey).MaskedKey? <==> Includes(apiKey, MaskMarker)
    ensures ClassifyKey(apiKey).NewKey? <==> !IsBlank(apiKey) && !Includes(apiKey, MaskMarker)
  {
    TrimEmptyIffBlank(apiKey);
    MaskedIsNotBlank(apiKey);
  }

  /** What `handleSaveAll` does outside the page's state, in order, for a key of the given
      kind: the consent warning; or the validation call and its error; or the validation
      call for a new key, the three updates (the key's unless it is masked) and the success
      toast with the navigation home, or the error toast. */
  function SaveAllEffects(kind: KeyInput, apiKey: string, agreed: bool, payload: ReviewSettings, patterns: seq<string>,
                          validation: Reply<bool>, saved: Outcome): seq<UiEffect>
  {
    if !kind.NoKey? && !agreed then [Toast(Warning, ConsentWarning)]
    else if kind.NewKey? && validation.Err? then
      [Call(ValidateOpenAiKey(apiKey)), Toast(Error, GetErrorMessage(validation.error))]
    else if kind.NewKey? && !validation.value then
      [Call(ValidateOpenAiKey(apiKey)), Toast(Error, InvalidKeyMessage)]
    else
      (if kind.NewKey? then [Call(ValidateOpenAiKey(apiKey))] else [])
      + [Call(UpdateReviewSettings(payload)), Call(UpdateIgnorePatterns(patterns))]
      + (if kind.MaskedKey? then [] else [Call(UpdateOpenAiKey(apiKey))])
      + SavedEffects(saved)
  }

  /** `isSaving` after `handleSaveAll`: false, unless the consent guard returned before the
      flag was raised. */
  function SavingAfterSave(kind: KeyInput, agreed: bool, wasSaving: bool): bool {
    if !kind.NoKey? && !agreed then wasSaving else false
  }

  /** The end of a save whose updates were sent: success toast and home, or error toast. */
  function SavedEffects(saved: Outcome): seq<UiEffect> {
    match saved
    case Done => [Toast(Success, SavedMessage), Navigate("/")]
    case Threw(e) => [Toast(Error, GetErrorMessage(e))]
  }

  /** A key that is not blank, without consent, stops the save at a warning: no call of
      any kind is made. */
  lemma ConsentGuardBlocksCalls(kind: KeyInput, apiKey: string, payload: ReviewSettings, patterns: seq<string>,
                                validation: Reply<bool>, saved: Outcome)
    requires !kind.NoKey?
    ensures SaveAllEffects(kind, apiKey, false, payload, patterns, validation, saved) == [Toast(Warning, ConsentWarning)]
  {
  }

  /** A masked key is neither validated nor sent to `updateOpenAiKey`; the other two
      updates still go out. */
  lemma MaskedKeyNeverValidatedOrSent(apiKey: string, payload: ReviewSettings, patterns: seq<string>,
                                      validation: Reply<bool>, saved: Outcome)
    ensures SaveAllEffects(MaskedKey, apiKey, true, payload, patterns, validation, saved)
         == [Call(UpdateReviewSettings(payload)), Call(UpdateIgnorePatterns(patterns))] + SavedEffects(saved)
  {
  }

  /** A new key is validated first; if the validation says no, nothing is updated, an
      error toast says so, and the page stays. */
  lemma InvalidKeyBlocksUpdates(apiKey: string, payload: ReviewSettings, patterns: seq<string>, saved: Outcome)
    ensures SaveAllEffects(NewKey, apiKey, true, payload, patterns, Ok(false), saved)
         == [Call(ValidateOpenAiKey(apiKey)), Toast(Error, InvalidKeyMessage)]
  {
  }

  /** A blank key needs no consent and no validation, and is still sent to
      `updateOpenAiKey` as typed. */
  lemma BlankKeyIsSentUnvalidated(apiKey: string, agreed: bool, payload: ReviewSettings, patterns: seq<string>,
                                  validation: Reply<bool>, saved: Outcome)
    ensures SaveAllEffects(NoKey, apiKey, agreed, payload, patterns, validation, saved)
         == [Call(UpdateReviewSettings(payload)), Call(UpdateIgnorePatterns(patterns)), Call(UpdateOpenAiKey(apiKey))]
            + SavedEffects(saved)
  {
  }

  /** The page navigates home exactly when every guard passes and the updates succeed. */
  lemma NavigatesOnlyAfterSuccess(kind: KeyInput, apiKey: string, agreed: bool, payload: ReviewSettings,
                                  patterns: seq<string>, validation: Reply<bool>, saved: Outcome)
    ensures var effects := SaveAllEffects(kind, apiKey, agreed, payload, patterns, validation, saved);
      (|effects| > 0 && effects[|effects| - 1] == Navigate("/")) <==>
      (kind.NoKey? || agreed) && (kind.NewKey? ==> validation == Ok(true)) && saved.Done?
  {
  }

  class SettingsPage {
    var tone: ReviewTone
    var focus: ReviewFocus
    var detailLevel: DetailLevel
    var customInstructions: string
    var autoReviewEnabled: bool
    var autoPostToGithub: bool
    var openaiModel: string
    var patterns: seq<string>
    var newPattern: string
    var apiKey: string
    var showKey: bool
    var agreed: bool
    var isLoading: bool
    var isSaving: bool
    var log: seq<UiEffect>

    /** First render: the defaults, no patterns, no key, loading. */
    constructor ()
      ensures tone == DefaultTone && focus == DefaultFocus && detailLevel == DefaultDetailLevel
      ensures customInstructions == "" && !autoReviewEnabled && !autoPostToGithub && openaiModel == DefaultModel
      ensures patterns == [] && newPattern == "" && apiKey == "" && !showKey && !agreed
      ensures isLoading && !isSaving && log == []
    {
      tone, focus, detailLevel := DefaultTone, DefaultFocus, DefaultDetailLevel;
      customInstructions, autoReviewEnabled, autoPostToGithub, openaiModel := "", false, false, DefaultModel;
      patterns, newPattern, apiKey, showKey, agreed := [], "", "", false, false;
      isLoading, isSaving, log := true, false, [];
    }

    /** `loadAllSettings`: on success every field takes the loaded value (see `Apply`); on
        failure nothing changes but an error toast. Loading is over either way. */
    method LoadAllSettings(reply: Reply<LoadedSettings>)
      modifies this
      ensures reply.Ok? ==> Applied(reply.value, old(agreed))
      ensures reply.Err? ==>
        && tone == old(tone) && focus == old(focus) && detailLevel == old(detailLevel)
        && customInstructions == old(customInstructions) && autoReviewEnabled == old(autoReviewEnabled)
        && autoPostToGithub == old(autoPostToGithub) && openaiModel == old(openaiModel)
        && patterns == old(patterns) && apiKey == old(apiKey) && agreed == old(agreed)
      ensures !isLoading && isSaving == old(isSaving) && newPattern == old(newPattern) && showKey == old(showKey)
      ensures log == old(log) + [Call(GetReviewSettings), Call(GetIgnorePatterns), Call(GetOpenAiKey)]
                    + if reply.Err? then [Toast(Error, GetErrorMessage(reply.error))] else []
    {
      isLoading := true;
      log := log + [Call(GetReviewSettings), Call(GetIgnorePatterns), Call(GetOpenAiKey)];
      match reply {
        case Ok(loaded) =>
          Apply(loaded);
        case Err(e) =>
          log := log + [Toast(Error, GetErrorMessage(e))];
      }
      isLoading := false;
    }

    /** The page's fields hold `d` as `loadAllSettings` stores it: absent values fall back
        to `''`, `false`, `false`, `gpt-4o-mini`, `[]` and `''`, and a returned key also sets
        the consent, which otherwise stays `wasAgreed`. */
    ghost predicate Applied(d: LoadedSettings, wasAgreed: bool)
      reads this
    {
      var s := d.review;
      && tone == s.tone && focus == s.focus && detailLevel == s.detailLevel
      && customInstructions == LoadedInstructions(s.customInstructions)
      && autoReviewEnabled == (s.autoReviewEnabled == Some(true))
      && autoPostToGithub == (s.autoPostToGithub == Some(true))
      && openaiModel == (if TruthyText(s.openaiModel) then s.openaiModel.value else DefaultModel)
      && patterns == (if d.ignorePatterns.Some? then d.ignorePatterns.value else [])
      && apiKey == (if d.openAiKey.Some? then d.openAiKey.value else "")
      && agreed == (wasAgreed || TruthyText(d.openAiKey))
    }

    /** The successful branch of `loadAllSettings`: the setters run on the loaded record. */
    method Apply(d: LoadedSettings)
      modifies this`tone, this`focus, this`detailLevel, this`customInstructions, this`autoReviewEnabled,
               this`autoPostToGithub, this`openaiModel, this`patterns, this`apiKey, this`agreed
      ensures Applied(d, old(agreed))
    {
      var s := d.review;
      tone, focus, detailLevel := s.tone, s.focus, s.detailLevel;
      customInstructions := LoadedInstructions(s.customInstructions);
      autoReviewEnabled, autoPostToGithub := FlagOrFalse(s.autoReviewEnabled), FlagOrFalse(s.autoPostToGithub);
      openaiModel := TextOr(s.openaiModel, DefaultModel);
      patterns := if d.ignorePatterns.Some? then d.ignorePatterns.value else [];
      apiKey := TextOr(d.openAiKey, "");
      if TruthyText(d.openAiKey) {
        agreed := true;
      }
    }

    /** The instructions textarea's `onChange`: an edit longer than 1000 characters is
        dropped, so editing never takes the text past the cap. */
    method EditCustomInstructions(text: string)
      modifies this`customInstructions
      ensures |text| <= InstructionsCap ==> customInstructions == text
      ensures |text| > InstructionsCap ==> customInstructions == old(customInstructions)
      ensures |old(customInstructions)| <= InstructionsCap ==> |customInstructions| <= InstructionsCap
    {
      customInstructions := CappedEdit(customInstructions, text, InstructionsCap);
    }

    /** The key field's `onChange`. */
    method EditApiKey(text: string)
      modifies this`apiKey
      ensures apiKey == text
    {
      apiKey := text;
    }

    /** The eye button beside the key field: shows or hides the key. */
    method ToggleShowKey()
      modifies this`showKey
      ensures showKey == !old(showKey)
    {
      showKey := !showKey;
    }

    /** The pattern field's `onChange`. */
    method EditNewPattern(text: string)
      modifies this`newPattern
      ensures newPattern == text
    {
      newPattern := text;
    }

    /** `handleAddPattern`, as in the ignore-patterns modal. */
    method HandleAddPattern()
      modifies this`patterns, this`newPattern, this`log
      ensures var r := AddPattern(old(patterns), old(newPattern));
        && (r.BlankInput? ==> patterns == old(patterns) && newPattern == old(newPattern) && log == old(log))
        && (r.AlreadyPresent? ==>
              patterns == old(patterns) && newPattern == old(newPattern) && log == old(log) + [Toast(Warning, DuplicateWarning)])
        && (r.Appended? ==> patterns == old(patterns) + [Trim(old(newPattern))] && newPattern == "" && log == old(log))
      ensures NoDuplicates(old(patterns)) ==> NoDuplicates(patterns)
    {
      var r := AddPattern(patterns, newPattern);
      match r {
        case BlankInput =>
        case AlreadyPresent =>
          log := log + [Toast(Warning, DuplicateWarning)];
        case Appended(next) =>
          if NoDuplicates(patterns) {
            AddKeepsNoDuplicates(patterns, newPattern);
          }
          patterns, newPattern := next, "";
      }
    }

    /** The pattern field's `onKeyDown`: Enter adds the typed pattern; any other key does
        nothing here. */
    method HandlePatternKeyDown(key: string)
      modifies this`patterns, this`newPattern, this`log
      ensures key != "Enter" ==> patterns == old(patterns) && newPattern == old(newPattern) && log == old(log)
      ensures key == "Enter" ==> var r := AddPattern(old(patterns), old(newPattern));
        && (r.BlankInput? ==> patterns == old(patterns) && newPattern == old(newPattern) && log == old(log))
        && (r.AlreadyPresent? ==>
              patterns == old(patterns) && newPattern == old(newPattern) && log == old(log) + [Toast(Warning, DuplicateWarning)])
        && (r.Appended? ==> patterns == old(patterns) + [Trim(old(newPattern))] && newPattern == "" && log == old(log))
      ensures NoDuplicates(old(patterns)) ==> NoDuplicates(patterns)
    {
      if key == "Enter" {
        HandleAddPattern();
      }
    }

    /** `handleRemovePattern`, as in the ignore-patterns modal. */
    method HandleRemovePattern(index: int)
      modifies this`patterns
      ensures patterns == RemoveAt(old(patterns), index)
      ensures 0 <= index < |old(patterns)| ==> patterns == old(patterns)[..index] + old(patterns)[index + 1..]
      ensures !(0 <= index < |old(patterns)|) ==> patterns == old(patterns)
    {
      RemoveAtSlices(patterns, index);
      patterns := RemoveAt(patterns, index);
    }

    /** `handleSaveAll`: consent guard, validation of a new key, then the three updates;
        its outside effects are `SaveAllEffects`, and saving is over unless the consent
        guard stopped it before it began. */
    method HandleSaveAll(validation: Reply<bool>, saved: Outcome)
      modifies this`isSaving, this`log
      ensures log == old(log) + SaveAllEffects(ClassifyKey(apiKey), apiKey, agreed,
                      PagePayload(tone, focus, detailLevel, customInstructions, autoReviewEnabled, autoPostToGithub, openaiModel),
                      patterns, validation, saved)
      ensures isSaving == SavingAfterSave(ClassifyKey(apiKey), agreed, old(isSaving))
    {
      var kind := ClassifyKey(apiKey);
      if !kind.NoKey? && !agreed {
        log := log + [Toast(Warning, ConsentWarning)];
        return;
      }
      isSaving := true;
      // what the save does, in order, appended to the log once it is over
      var effects: seq<UiEffect> := [];
      if kind.NewKey? {
        effects := [Call(ValidateOpenAiKey(apiKey))];
        match validation {
          case Err(e) =>
            log := log + (effects + [Toast(Error, GetErrorMessage(e))]);
            isSaving := false;
            return;
          case Ok(isValid) =>
            if !isValid {
              log := log + (effects + [Toast(Error, InvalidKeyMessage)]);
              isSaving := false;
              return;
            }
        }
      }
      var payload := PagePayload(tone, focus, detailLevel, customInstructions, autoReviewEnabled, autoPostToGithub, openaiModel);
      effects := effects + [Call(UpdateReviewSettings(payload)), Call(UpdateIgnorePatterns(patterns))];
      effects := effects + if kind.MaskedKey? then [] else [Call(UpdateOpenAiKey(apiKey))];
      effects := effects + SavedEffects(saved);
      log := log + effects;
      isSaving := false;
    }
  }
}
