/** The review-settings form logic shared by the settings page and the review-settings
    modal: the defaults, the 1000-character cap on custom instructions, how a loaded record
    fills the form, and how the form becomes the payload that is sent back. */
module ReviewSettingsForm {
  import opened Nullable
  import opened JsStrings
  import opened Api

  const DefaultTone: ReviewTone := Neutral
  const DefaultFocus: ReviewFocus := Both
  const DefaultDetailLevel: DetailLevel := Standard
  const DefaultModel: string := "gpt-4o-mini"
  const InstructionsCap: nat := 1000

  /** `text.trim() || null`: the trimmed text, or nothing when it is blank. */
  function TrimOrNull(text: string): (r: Option<string>)
    ensures r.None? <==> IsBlank(text)
    ensures r.Some? ==> r.value == Trim(text) && !IsBlank(r.value) && Trim(r.value) == r.value
  {
    TrimEmptyIffBlank(text);
    TrimIdempotent(text);
    TrimEmptyIffBlank(Trim(text));
    if Trim(text) == "" then None else Some(Trim(text))
  }

  /** `customInstructions || ''` when a record is loaded. */
  function LoadedInstructions(stored: Option<string>): string {
    TextOr(stored, "")
  }

  /** Instructions the server holds in the form the page sends (absent, or trimmed and not
      blank) survive a load followed by a save unchanged; and whatever is loaded, a second
      load-and-save round changes nothing more. */
  lemma InstructionsRoundTrip(stored: Option<string>)
    ensures (stored.None? || (Trim(stored.value) == stored.value && !IsBlank(stored.value))) ==>
      TrimOrNull(LoadedInstructions(stored)) == stored
    ensures TrimOrNull(LoadedInstructions(TrimOrNull(LoadedInstructions(stored)))) == TrimOrNull(LoadedInstructions(stored))
  {
    if stored.Some? && stored.value == "" {
      assert IsBlank(stored.value);
    }
    var once := TrimOrNull(LoadedInstructions(stored));
    if once.Some? {
      TrimEmptyIffBlank(once.value);
    }
  }

  /** The payload the review-settings modal sends: the three choices, the instructions
      trimmed or null, and none of the page-only fields. */
  function ModalPayload(tone: ReviewTone, focus: ReviewFocus, detailLevel: DetailLevel, instructions: string): ReviewSettings {
    ReviewSettings(tone, focus, detailLevel, TrimOrNull(instructions), None, None, None)
  }

  /** The payload the settings page sends: every field of the form, with the instructions
      trimmed or null. */
  function PagePayload(tone: ReviewTone, focus: ReviewFocus, detailLevel: DetailLevel, instructions: string,
                       autoReviewEnabled: bool, autoPostToGithub: bool, openaiModel: string): ReviewSettings
  {
    ReviewSettings(tone, focus, detailLevel, TrimOrNull(instructions),
                   Some(autoReviewEnabled), Some(autoPostToGithub), Some(openaiModel))
  }

  /** What either form sends and then loads back: the same three choices, and the typed
      instructions trimmed (blank instructions are sent as null and load back as `''`).
      The modal leaves the page-only fields out; the page sends all of them. */
  lemma SaveThenLoad(tone: ReviewTone, focus: ReviewFocus, detailLevel: DetailLevel, instructions: string,
                     autoReviewEnabled: bool, autoPostToGithub: bool, openaiModel: string)
    ensures var m := ModalPayload(tone, focus, detailLevel, instructions);
      && m.tone == tone && m.focus == focus && m.detailLevel == detailLevel
      && LoadedInstructions(m.customInstructions) == Trim(instructions)
      && m.autoReviewEnabled.None? && m.autoPostToGithub.None? && m.openaiModel.None?
    ensures var p := PagePayload(tone, focus, detailLevel, instructions, autoReviewEnabled, autoPostToGithub, openaiModel);
      && p.tone == tone && p.focus == focus && p.detailLevel == detailLevel
      && LoadedInstructions(p.customInstructions) == Trim(instructions)
      && p.autoReviewEnabled == Some(autoReviewEnabled) && p.autoPostToGithub == Some(autoPostToGithub)
      && p.openaiModel == Some(openaiModel)
  {
    TrimEmptyIffBlank(instructions);
  }
}
