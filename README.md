# Code-review platform front end: verified model of its component logic

This project models the logic inside the React front end of an AI code-review service: the
small state machines and list editors of its components and the pure helpers they use.
Rendering is not part of the model. Each component whose `useState` hooks the handlers update
becomes a Dafny class, with one field per hook. A handler becomes a method, and its contract
states the new value of every field it touches. Each class also keeps a `log` of the effects a
handler has on the world outside its own state, in order:

- the backend calls it issues, with their arguments;
- the toasts it shows;
- the routes it navigates to;
- the `onClose` calls it makes.

A handler awaits at most a few backend calls. The reply of each call is a parameter of the
method: `Reply<T>` (a value, or a thrown error) or `Outcome` (done, or thrown). The handler is
modelled as one atomic step over those replies.

Modules, one per source file, plus shared ones:

- `Nullable`: optional values and the JavaScript truthiness tests the components apply to them.
- `JsStrings`: `String.prototype.trim` over the ECMAScript whitespace set, `includes`,
  `startsWith`, `split` with its inverse `join`, decimal rendering of numbers, and the
  length-capped edit used by the text areas.
- `ErrorMessages`: the error-code table and `getErrorMessage`.
- `Api`: the record shapes exchanged with the backend, replies, calls and UI effects.
- `NotificationCenter`: the notification dropdown.
- `PatternEditing` and `IgnorePatternsModal`: the ignore-pattern list editor and its modal.
- `ReviewSettingsForm`, `ReviewSettingsModal` and `SettingsPage`: the review-settings form,
  its modal, and the settings page (review settings, automation switches, model, API key,
  ignore patterns).
- `RuleManagement`: the custom-rule list and its form.
- `ChangedFilesView` and `PullRequestList`: the pull-request pages.
- `OpenAiKeyModal` and `SystemPromptModal`: the API-key and system-prompt modals.
- `AuthContext`: the login-status provider.

Where the design description and the code disagree, the model follows the code:

- The notification dropdown changes read state only after the mark-read call succeeds. It does
  not update optimistically.
- The outside-click listener is attached for the component's whole life, not only while the
  panel is open.
- Overlapping notification fetches are not ordered or tagged. `ReceiveNotifications` lets them
  land in any order, and a `pendingFetches` counter records that:
  - mount issues two fetches;
  - every change of `isOpen` issues one more.
- A failed mark-all changes nothing but one error toast.

Behaviour of the code that the model keeps as written:

- The settings page shows no control that sets `agreed`. Only a loaded key sets it. A user with
  no stored key therefore can never save a new one. The lemma `ConsentGuardBlocksCalls` states
  what happens then.
- A blank key field on the settings page is sent to `updateOpenAiKey` without validation
  (`BlankKeyIsSentUnvalidated`).
- The changed-files view stays in its loading state when a route parameter is missing.
- Its back path prints an absent owner as `undefined` (`TemplateText`).
- Its review button checks only the repository and the number, not the owner.
- Rule delete and toggle filter and map the `rules` value their closure captured. Each handler
  is one atomic step here, so that value is the current list.

## Model

| member | source | states |
|---|---|---|
| ErrorMessages.GetErrorMessage | src/utils/errorMessages.ts:16-24 | The corrected lookup, which reads only the table's own keys. An axios error whose code the table names yields that code's message. An unknown, absent or empty code, or a non-axios error, yields the `RUNTIME_EX` message. The result is always one of the table's messages and never empty. |
| ErrorMessages.GetErrorMessageAsWritten | src/utils/errorMessages.ts:16-24 | The lookup as written is never `undefined`. It yields an inherited `Object.prototype` member exactly when an axios error's code is one of the inherited property names. Otherwise it yields a message of the table. |
| ErrorMessages.UnknownCodesShareFallback | src/utils/errorMessages.ts:19-23 | Any two codes outside the table, and a non-axios error, all read the same fallback message. |
| ErrorMessages.InheritedCodeEscapesTable | src/utils/errorMessages.ts:23 | As written, an axios error with code `toString` makes the lookup return the inherited `Object.prototype` member, not a message string. |
| ErrorMessages.AsWrittenAgreesOffPrototype | src/utils/errorMessages.ts:23 | Away from the inherited property names, the lookup as written and the corrected own-property lookup give the same message. |
| JsStrings.TrimEmptyIffBlank | src/components/IgnorePatternsModal.tsx:41 | `s.trim()` is empty exactly when every character of `s` is JavaScript whitespace. |
| JsStrings.TrimIsCoreSlice | src/components/IgnorePatternsModal.tsx:46 | `trim` returns a contiguous slice of the input. Only whitespace lies outside it, and its first and last characters are not whitespace. |
| JsStrings.TrimIdempotent | src/components/SettingsPage.tsx:115 | Trimming twice gives the same text as trimming once. |
| JsStrings.Includes | src/components/SettingsPage.tsx:102 | `s.includes(sub)` holds exactly when `sub` occurs at some position of `s`. |
| JsStrings.JoinSplit | src/components/ChangedFilesView.tsx:140 | Joining the pieces of `split(sep)` with `sep` gives the input back. |
| JsStrings.SplitCount | src/components/ChangedFilesView.tsx:140 | `split(sep)` yields one more piece than the input holds separators. |
| JsStrings.SplitJoin | src/components/NotificationDropdown.tsx:78 | Splitting a join of separator-free pieces gives the pieces back. |
| JsStrings.DecimalRoundTrip | src/components/NotificationDropdown.tsx:78 | A natural number rendered as plain decimal digits parses back to the same number. |
| JsStrings.CappedEdit | src/components/SystemPromptModal.tsx:91-95 | An edit within the cap is taken and a longer one is dropped. A value within the cap stays within it. |
| NotificationCenter.AnyUnread | src/components/NotificationDropdown.tsx:19 | `some(n => !n.isRead)` holds exactly when some record is unread. |
| NotificationCenter.AnyOtherUnread | src/components/NotificationDropdown.tsx:70 | Holds exactly when some record with a different id is unread. |
| NotificationCenter.MarkAllRead | src/components/NotificationDropdown.tsx:55 | Same length. Each record becomes its original with `isRead` true. |
| NotificationCenter.MarkReadWhere | src/components/NotificationDropdown.tsx:67-69 | Same length. Only the records with the id become read, and every other record is unchanged. |
| NotificationCenter.MarkAllReadClearsUnread | src/components/NotificationDropdown.tsx:53-55 | After mark-all no record is unread, and every other field and the order are kept. Marking all read again changes nothing. |
| NotificationCenter.MarkOneReadSyncsFlag | src/components/NotificationDropdown.tsx:67-71 | The updated list has an unread record exactly when the pre-click list had an unread record with another id. The flag the handler computes therefore matches the list it writes. |
| NotificationCenter.RouteSegments | src/components/NotificationDropdown.tsx:77-79 | A route exists exactly when the login, the repository name and a non-zero PR number are all present. Its path splits into `repos`, login, repository, `pulls` and the number, and the number parses back. |
| NotificationCenter.SettleMarkRead | src/components/NotificationDropdown.tsx:66-71 | The corrected completion of mark-read: the list marks the id read, and the flag is the updated list's unread test. |
| NotificationCenter.SettleAgreesWhenFresh | src/components/NotificationDropdown.tsx:66-71 | With no intervening update, the completion as written equals the corrected one. |
| NotificationCenter.StaleClickSnapshotLosesUnread | src/components/NotificationDropdown.tsx:62-71 | A fetch that lands between the click and the mark-read reply makes the handler as written clear the indicator while an unread record remains. |
| NotificationCenter.NotificationDropdown.constructor | src/components/NotificationDropdown.tsx:8-11 | Empty, closed, indicator off, two fetches pending (mount and the `[isOpen]` effect). |
| NotificationCenter.NotificationDropdown.FetchNotifications | src/components/NotificationDropdown.tsx:15-22 | Success replaces the list with the server's list and keeps the indicator equal to "some record unread". Failure changes neither. |
| NotificationCenter.NotificationDropdown.ReceiveNotifications | src/components/NotificationDropdown.tsx:25-36 | A pending effect fetch completes: one fewer pending, and the list and indicator are as for a fetch. Nothing else changes. |
| NotificationCenter.NotificationDropdown.SetIsOpen | src/components/NotificationDropdown.tsx:25-31 | `isOpen` takes the value. A change issues one fetch. |
| NotificationCenter.NotificationDropdown.ToggleDropdown | src/components/NotificationDropdown.tsx:47-49 | Flips `isOpen` and issues one fetch. The list, the indicator and the log are unchanged. |
| NotificationCenter.NotificationDropdown.HandleClickOutside | src/components/NotificationDropdown.tsx:82-90 | A mousedown outside closes the panel. One inside changes nothing. |
| NotificationCenter.NotificationDropdown.HandleRefresh | src/components/NotificationDropdown.tsx:38-44 | Ignored while a refresh shows. Otherwise it raises the flag and fetches. The indicator invariant is kept. |
| NotificationCenter.NotificationDropdown.RefreshSpinnerElapsed | src/components/NotificationDropdown.tsx:43 | The delayed reset lowers the refresh flag. |
| NotificationCenter.NotificationDropdown.HandleMarkAllAsRead | src/components/NotificationDropdown.tsx:51-59 | Success marks every record read and turns the indicator off. Failure changes nothing and logs exactly one error toast. |
| NotificationCenter.NotificationDropdown.HandleNotificationClick | src/components/NotificationDropdown.tsx:61-80 | Always closes. A read record issues no call and changes nothing. For an unread record, success marks that id read and sets the flag from the other records. Navigation goes to the record's route when it has one, whatever mark-read did. |
| PatternEditing.AddPattern | src/components/IgnorePatternsModal.tsx:40-48 | Blank input is ignored. Input whose trimmed form is listed is refused. Otherwise the list grows by one and keeps its old entries as a prefix. |
| PatternEditing.AppendedIsTrimmedAndNew | src/components/IgnorePatternsModal.tsx:41-46 | An appended pattern is the trimmed input. It is non-empty, has no whitespace at either end, and was not listed before. |
| PatternEditing.AddKeepsNoDuplicates | src/components/IgnorePatternsModal.tsx:42-46 | Adding keeps a duplicate-free list duplicate-free. |
| PatternEditing.AddAgainIsRefused | src/components/IgnorePatternsModal.tsx:42-45 | After an add, any input with the same trimmed form is refused as a duplicate. |
| PatternEditing.RemoveAtSlices | src/components/IgnorePatternsModal.tsx:50-53 | Removing a valid index drops exactly that entry and keeps the rest in order. Any other index changes nothing. |
| PatternEditing.RemoveKeepsNoDuplicates | src/components/IgnorePatternsModal.tsx:50-53 | Removing keeps a list duplicate-free and shortens it by one for a valid index. |
| IgnorePatternsModal.IgnorePatternsModal.constructor | src/components/IgnorePatternsModal.tsx:12-15 | Empty list, empty input, both flags off. |
| IgnorePatternsModal.IgnorePatternsModal.OnClosed | src/components/IgnorePatternsModal.tsx:17-26 | Closing empties the list and the input and clears both flags. |
| IgnorePatternsModal.IgnorePatternsModal.LoadPatterns | src/components/IgnorePatternsModal.tsx:28-38 | The server's list, or `[]` when it sends none. Failure keeps the list and shows an error toast. Loading ends either way. |
| IgnorePatternsModal.IgnorePatternsModal.EditNewPattern | src/components/IgnorePatternsModal.tsx:116 | The input takes the typed text. |
| IgnorePatternsModal.IgnorePatternsModal.HandleAddPattern | src/components/IgnorePatternsModal.tsx:40-48 | The three outcomes of `AddPattern` on the fields and the log. The trimmed input is appended and the input cleared only when new. Duplicate-freedom is kept. |
| IgnorePatternsModal.IgnorePatternsModal.HandleKeyDown | src/components/IgnorePatternsModal.tsx:68-73 | Enter has the three outcomes of `handleAddPattern` on the list, the input and the log: blank input is ignored, a duplicate is warned about, and a new pattern is appended with the input cleared. Any other key changes nothing. Duplicate-freedom is kept. |
| IgnorePatternsModal.IgnorePatternsModal.HandleRemovePattern | src/components/IgnorePatternsModal.tsx:50-53 | Drops the entry at a valid index. Any other index leaves the list. |
| IgnorePatternsModal.IgnorePatternsModal.HandleSave | src/components/IgnorePatternsModal.tsx:55-66 | Sends the list. `onClose` is called only on success, failure shows an error toast, and saving ends either way. |
| ReviewSettingsForm.TrimOrNull | src/components/SettingsPage.tsx:115 | `text.trim() \|\| null` is null exactly for blank text. Otherwise it is the trimmed text, which is non-blank and trim-stable. |
| ReviewSettingsForm.InstructionsRoundTrip | src/components/SettingsPage.tsx:76-115 | Stored instructions in the form the page sends survive a load and a save unchanged. A second load-and-save round changes nothing. |
| ReviewSettingsForm.SaveThenLoad | src/components/ReviewSettingsModal.tsx:73-78 | Both payloads carry the three choices and load back the trimmed instructions. The modal leaves the page-only fields out, and the page sends them all. |
| SettingsPage.MaskedIsNotBlank | src/components/SettingsPage.tsx:102 | A key containing `****` is never blank. |
| SettingsPage.ClassifyKey | src/components/SettingsPage.tsx:94-102 | No key exactly when `apiKey.trim()` is empty. Masked exactly when the key contains `****`. |
| SettingsPage.ClassifyKeyByText | src/components/SettingsPage.tsx:94-102 | The three key kinds in terms of the text: blank, holding the mask, and the rest. |
| SettingsPage.ConsentGuardBlocksCalls | src/components/SettingsPage.tsx:94-97 | A non-blank key without consent gives only the consent warning: no validation, no update. |
| SettingsPage.MaskedKeyNeverValidatedOrSent | src/components/SettingsPage.tsx:102-124 | A masked key with consent is neither validated nor sent. Only the settings and patterns updates go out. |
| SettingsPage.InvalidKeyBlocksUpdates | src/components/SettingsPage.tsx:102-108 | A new key that validation rejects gives the validation call and the invalid-key toast, and no update. |
| SettingsPage.BlankKeyIsSentUnvalidated | src/components/SettingsPage.tsx:119-125 | A blank key skips the consent check and validation, and is sent with the two other updates. |
| SettingsPage.NavigatesOnlyAfterSuccess | src/components/SettingsPage.tsx:93-134 | The save ends by navigating to `/` exactly when the guards pass, a new key validates, and the updates succeed. |
| SettingsPage.SettingsPage.constructor | src/components/SettingsPage.tsx:39-59 | The defaults `NEUTRAL`, `BOTH`, `STANDARD`, `''`, off, off and `gpt-4o-mini`. No patterns and no key. Loading. |
| SettingsPage.SettingsPage.LoadAllSettings | src/components/SettingsPage.tsx:65-91 | The three reads are issued. Success applies the loaded values with their defaults. Failure changes no field and shows an error toast. Loading ends either way. |
| SettingsPage.SettingsPage.Apply | src/components/SettingsPage.tsx:73-85 | Every field holds the loaded value or its default (`''`, false, false, `gpt-4o-mini`, `[]`, `''`). A returned key sets the consent. |
| SettingsPage.SettingsPage.EditCustomInstructions | src/components/SettingsPage.tsx:229 | An edit over 1000 characters is dropped, so editing never exceeds the cap. |
| SettingsPage.SettingsPage.EditApiKey | src/components/SettingsPage.tsx:314 | The key field takes the typed text. |
| SettingsPage.SettingsPage.ToggleShowKey | src/components/SettingsPage.tsx:322 | Flips the visibility of the key. |
| SettingsPage.SettingsPage.EditNewPattern | src/components/SettingsPage.tsx:352 | The pattern field takes the typed text. |
| SettingsPage.SettingsPage.HandleAddPattern | src/components/SettingsPage.tsx:136-144 | As in the modal: blank ignored, duplicate refused with a warning, new trimmed pattern appended, and duplicate-freedom kept. |
| SettingsPage.SettingsPage.HandlePatternKeyDown | src/components/SettingsPage.tsx:353 | Enter has the three outcomes of `handleAddPattern` on the list, the input and the log: blank input is ignored, a duplicate is warned about, and a new pattern is appended with the input cleared. Any other key changes nothing. Duplicate-freedom is kept. |
| SettingsPage.SettingsPage.HandleRemovePattern | src/components/SettingsPage.tsx:146-148 | Drops the entry at a valid index. Any other index leaves the list. |
| SettingsPage.SettingsPage.HandleSaveAll | src/components/SettingsPage.tsx:93-134 | The log grows by the save's effects for the key's kind: guard, validation, the trimmed-or-null payload, and the updates. Saving ends unless the consent guard stopped the save before it began. |
| RuleManagement.RemoveById | src/components/RuleManagement.tsx:87 | A rule survives exactly when it was listed and its id differs. |
| RuleManagement.ReplaceById | src/components/RuleManagement.tsx:96 | Same length. Each position holds the server's rule when its id matches, and the old rule otherwise. |
| RuleManagement.RemoveByIdDistributes | src/components/RuleManagement.tsx:87 | Filtering a concatenation filters each part, so the survivors keep their order. |
| RuleManagement.RemoveByIdCount | src/components/RuleManagement.tsx:87 | The list shrinks by the number of rules with the id. Without the id it is unchanged. |
| RuleManagement.DeleteDropsOne | src/components/RuleManagement.tsx:82-91 | With distinct ids, deleting a listed rule drops exactly that rule. |
| RuleManagement.RemoveByIdKeepsUnique | src/components/RuleManagement.tsx:87 | Deleting keeps the ids distinct. |
| RuleManagement.ReplaceByIdKeepsIds | src/components/RuleManagement.tsx:93-100 | Toggling with the server's copy keeps every position's id, so ids stay distinct. An absent id changes nothing. |
| RuleManagement.RuleManagement.constructor | src/components/RuleManagement.tsx:17-24 | No rules, loading, modal closed, form empty. |
| RuleManagement.RuleManagement.LoadRules | src/components/RuleManagement.tsx:30-39 | The server's list, or the old list with the load-failure toast. Loading ends either way. |
| RuleManagement.RuleManagement.HandleOpenModal | src/components/RuleManagement.tsx:41-52 | With a rule, the form holds its content and pattern (absent reads `''`). Without one, the form is empty. The modal is open. |
| RuleManagement.RuleManagement.HandleCloseModal | src/components/RuleManagement.tsx:54-59 | Modal closed, no rule being edited, content and pattern empty. |
| RuleManagement.RuleManagement.EditContent | src/components/RuleManagement.tsx:181 | The content field takes the typed text. |
| RuleManagement.RuleManagement.EditTargetPattern | src/components/RuleManagement.tsx:193 | The pattern field takes the typed text. |
| RuleManagement.RuleManagement.ChoosePreset | src/components/RuleManagement.tsx:199-202 | A preset chip fills the pattern field with its non-empty glob. |
| RuleManagement.RuleManagement.HandleSaveRule | src/components/RuleManagement.tsx:61-80 | Blank content only warns. Otherwise the update (when editing, with its id) or the create goes out. Success shows its toast, closes and resets the form, and reloads. Failure shows an error toast and changes nothing else. |
| RuleManagement.RuleManagement.HandleDeleteRule | src/components/RuleManagement.tsx:82-91 | A declined confirm does nothing. On success, exactly the rules with the id leave the list. On failure, the list stays and an error toast shows. |
| RuleManagement.RuleManagement.HandleToggleRule | src/components/RuleManagement.tsx:93-100 | Success replaces the rule with the id by the server's rule, in place. Failure keeps the list and shows an error toast. |
| ChangedFilesView.FileStatusBadge | src/components/ChangedFilesView.tsx:33-61 | A status is relabelled exactly when it is one of the four known ones, and is gray exactly when it is not. Known statuses get distinct labels and colours. |
| ChangedFilesView.ClassifyLine | src/components/ChangedFilesView.tsx:141-165 | Added exactly for a `+` prefix, deleted for `-`, header for `@@`, context for a space. The first match wins. |
| ChangedFilesView.Rows | src/components/ChangedFilesView.tsx:140 | One row per line, in order, each carrying the line and its kind. |
| ChangedFilesView.PatchRowsCoverPatch | src/components/ChangedFilesView.tsx:135-140 | A non-empty patch renders one more row than it has line breaks, and the rows' texts joined by line breaks give the patch back. |
| ChangedFilesView.DiffHeadersClassified | src/components/ChangedFilesView.tsx:141-165 | Every line starting with `+++` is added and every line starting with `---` is deleted. A line starting with `@@` is a header, and one starting with a space is context. A line with none of the four prefix characters is plain. |
| ChangedFilesView.BackPathSegments | src/components/ChangedFilesView.tsx:63-65 | The back path splits into `repos`, owner and repository. |
| ChangedFilesView.ChangedFilesView.constructor | src/components/ChangedFilesView.tsx:10-13 | The route parameters, no files, loading. |
| ChangedFilesView.ChangedFilesView.FetchChangedFiles | src/components/ChangedFilesView.tsx:15-31 | With a parameter missing or empty, nothing happens and the view stays loading. Otherwise the server's files, or the old list on failure, and loading ends. |
| ChangedFilesView.ChangedFilesView.HandleBackToPRList | src/components/ChangedFilesView.tsx:63-65 | Navigates to the repository's pull-request list. |
| ChangedFilesView.ChangedFilesView.HandleRequestReview | src/components/ChangedFilesView.tsx:88-97 | Without a repository and a number, nothing happens. Success shows a toast and navigates to the back path. Failure shows an error toast and does not navigate. |
| PullRequestList.StatusBadge | src/components/PullRequestList.tsx:47-67 | A status is relabelled exactly when it is `COMPLETED` or `PENDING`, and is gray exactly when it is not. Distinct known statuses get distinct labels and colours. |
| PullRequestList.PullRequestList.constructor | src/components/PullRequestList.tsx:18-20 | No pull requests, loading. |
| PullRequestList.PullRequestList.FetchPullRequests | src/components/PullRequestList.tsx:22-35 | Success replaces the list. Failure keeps it. Loading ends either way. |
| OpenAiKeyModal.OpenAiKeyModal.constructor | src/components/OpenAiKeyModal.tsx:11-16 | Empty key, every flag off. |
| OpenAiKeyModal.OpenAiKeyModal.OnClosed | src/components/OpenAiKeyModal.tsx:18-28 | Closing clears the key, the consent and every flag. |
| OpenAiKeyModal.OpenAiKeyModal.LoadApiKey | src/components/OpenAiKeyModal.tsx:30-40 | The stored key, or `''` when absent. Failure keeps the key and shows an error toast. Loading ends either way. |
| OpenAiKeyModal.OpenAiKeyModal.EditApiKey | src/components/OpenAiKeyModal.tsx:117 | The key field takes the typed text. |
| OpenAiKeyModal.OpenAiKeyModal.SetAgreed | src/components/OpenAiKeyModal.tsx:102 | The consent takes the checkbox value. |
| OpenAiKeyModal.OpenAiKeyModal.ToggleShowKey | src/components/OpenAiKeyModal.tsx:123 | Flips the visibility of the key. |
| OpenAiKeyModal.OpenAiKeyModal.HandleSave | src/components/OpenAiKeyModal.tsx:42-63 | A blank key warns whatever the consent. Without consent it warns. Otherwise the key goes out as typed. `onClose` is called only on success, and saving ends. |
| ReviewSettingsModal.ReviewSettingsModal.constructor | src/components/ReviewSettingsModal.tsx:35-40 | The defaults and no work in progress. |
| ReviewSettingsModal.ReviewSettingsModal.OnClosed | src/components/ReviewSettingsModal.tsx:42-53 | Closing resets to `NEUTRAL`, `BOTH`, `STANDARD`, `''` and clears both flags. |
| ReviewSettingsModal.ReviewSettingsModal.LoadSettings | src/components/ReviewSettingsModal.tsx:55-68 | The three stored choices and the instructions (absent reads `''`). Failure keeps the form and shows an error toast. Loading ends either way. |
| ReviewSettingsModal.ReviewSettingsModal.EditCustomInstructions | src/components/ReviewSettingsModal.tsx:183-187 | An edit over 1000 characters is dropped, so editing never exceeds the cap. |
| ReviewSettingsModal.ReviewSettingsModal.HandleSave | src/components/ReviewSettingsModal.tsx:70-87 | Sends the choices with the trimmed-or-null instructions. `onClose` is called only on success, failure shows an error toast, and saving ends. |
| SystemPromptModal.SystemPromptModal.constructor | src/components/SystemPromptModal.tsx:11-13 | Empty prompt, both flags off. |
| SystemPromptModal.SystemPromptModal.OnClosed | src/components/SystemPromptModal.tsx:15-23 | Closing clears the prompt and both flags. |
| SystemPromptModal.SystemPromptModal.LoadPrompt | src/components/SystemPromptModal.tsx:25-36 | The stored prompt. Failure keeps it and shows the load-failure toast. Loading ends either way. |
| SystemPromptModal.SystemPromptModal.EditPrompt | src/components/SystemPromptModal.tsx:91-95 | An edit over 2000 characters is dropped, so editing never takes the prompt past 2000. |
| SystemPromptModal.SystemPromptModal.HandleSave | src/components/SystemPromptModal.tsx:38-50 | Sends the prompt. `onClose` is called only on success, failure shows the save-failure toast, and saving ends. |
| AuthContext.UseAuth | src/contexts/AuthContext.tsx:49-55 | Throws the no-provider error exactly when the context is absent, and otherwise returns the provider's value. |
| AuthContext.AuthProvider.constructor | src/contexts/AuthContext.tsx:14-16 | Logged out, no name, loading. Logged in exactly when a name is known. |
| AuthContext.AuthProvider.RefreshLoginStatus | src/contexts/AuthContext.tsx:18-36 | Logged in exactly when `checkLogin` says so and the name arrives. The name is known exactly then. Any thrown error means logged out with no name. Loading ends in every case. |

## Left out

- JSX rendering, styling classes, the line styles of patch rows, and the character-counter colours. They are presentation only.
- The option-button setters (tone, focus, detail level), the automation switches and the model field on the settings page. The settings page's key-visibility toggle is modelled as `ToggleShowKey`. They are plain `useState` setters with nothing to state beyond the assignment.
- The HTTP wrappers and the axios 401/403 redirect interceptor are not part of this model. Each backend call is a reply parameter.
- AuthContext.AuthProvider.RefreshLoginStatus: the shipped `checkLogin` and `getUsername` wrappers catch their own errors and return `false`. With them the thrown path never happens, and a `false` name would be stored as the user name. The model takes the replies as the component's types declare them (a boolean, a string, or a thrown error).
- Asynchrony: each handler is one atomic step over its replies. Interleavings inside one handler are not modelled, except the notification fetch completions and the one interleaving shown under Findings.
- Timers: the 500 ms refresh delay is a separate step, `RefreshSpinnerElapsed`. Clipboard, `window.location`, analytics and `console.error` are not modelled.
- NotificationCenter.NotificationDropdown.HandleRefresh: the refresh awaits its own fetch inside the handler, so that fetch's reply is applied in the same atomic step. It is not issued through `pendingFetches` and `ReceiveNotifications`, and another fetch landing while the refresh awaits is not modelled.
- Handler error toasts: every handler's error toast uses the corrected lookup `GetErrorMessage`. For an axios error whose code is an inherited property name, such as `toString`, the source hands the inherited member to the toast instead (see Findings). The model does not capture that toast content.
- `confirm()` is a boolean parameter of `HandleDeleteRule`.
- Date and locale formatting, and `parseInt` on route parameters. The pull-request number is kept as the route's text in the calls.
- The call-site argument counts at `ChangedFilesView.tsx:21` and `PullRequestList.tsx:25`: the calls are logged with the arguments the component passes.
- Lengths are counted in characters, whereas JavaScript's `length` counts UTF-16 code units.
- ErrorMessages.GetErrorMessage: an error code that is not a string (a number, say) is not modelled. The code is an optional string.
- NotificationCenter.NotificationRoute: a `prNumber` of `NaN` is not modelled, and numbers are exact integers printed as plain decimal digits. A template literal prints a magnitude of 10^21 or more in exponent form (`1e+21`), and numbers past 2^53 have already lost precision. The route for such numbers is not modelled.

## Findings

| source | as written | input that shows it | evidently intended | confidence | as-written member | corrected member |
|---|---|---|---|---|---|---|
| src/utils/errorMessages.ts:23 | `ERROR_MESSAGES[errorCode]` is a plain property read, which also finds members inherited from `Object.prototype` | an axios error whose response code is `"toString"` (or `"constructor"`, `"valueOf"`, …): the toast receives a function instead of a message | only the table's own keys map to messages; everything else reads the `RUNTIME_EX` message | not executed | ErrorMessages.InheritedCodeEscapesTable | ErrorMessages.GetErrorMessage |
| src/components/NotificationDropdown.tsx:67-71 | the list is updated from the latest state, but `hasUnread` is computed from the `notifications` the click handler captured | clicking unread notification 1 closes the panel, which starts a fetch; the fetch returns notifications 1 and 2, both unread, before mark-read resolves; the indicator goes off while notification 2 is unread | the indicator is computed from the same list that is written | not executed | NotificationCenter.StaleClickSnapshotLosesUnread | NotificationCenter.SettleMarkRead |
