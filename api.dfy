/** The boundary to the backend. The HTTP wrappers themselves are not modelled: each call is
    an oracle whose reply (a value, or a thrown error) is a parameter of the handler that
    awaits it. This module holds the record shapes those calls exchange, the replies, and
    the log of externally visible effects (calls issued, toasts, navigations, `onClose`). */
module Api {
  import opened Nullable
  import opened ErrorMessages

  /** What an awaited call resolves to. */
  datatype Reply<+T> = Ok(value: T) | Err(error: Thrown)

  /** What an awaited call without a result resolves to. */
  datatype Outcome = Done | Threw(error: Thrown)

  /** `Notification['type']`. */
  datatype NotificationType = NewPr | ReviewComplete | ReviewFailed

  /** `Notification`: one event delivered to the user. */
  datatype Notification = Notification(
    id: int,
    loginId: string,
    kind: NotificationType,
    isRead: bool,
    createdAt: string,
    prTitle: Option<string>,
    prNumber: Option<int>,
    repositoryName: Option<string>)

  /** `Rule`: a custom review rule. */
  datatype Rule = Rule(id: int, content: string, isEnabled: bool, targetFilePattern: Option<string>)

  /** `ReviewTone`, `ReviewFocus` and `DetailLevel`. */
  datatype ReviewTone = Friendly | Neutral | Strict
  datatype ReviewFocus = PraiseOnly | Both | ImprovementOnly
  datatype DetailLevel = Concise | Standard | Detailed

  /** `ReviewSettings`, as read from and sent to the backend. The last three fields are
      absent from what the review-settings modal sends. */
  datatype ReviewSettings = ReviewSettings(
    tone: ReviewTone,
    focus: ReviewFocus,
    detailLevel: DetailLevel,
    customInstructions: Option<string>,
    autoReviewEnabled: Option<bool>,
    autoPostToGithub: Option<bool>,
    openaiModel: Option<string>)

  /** `PullRequest`, as listed for a repository. */
  datatype PullRequest = PullRequest(
    prNumber: int, title: string, action: string, status: string, createdAt: string, updatedAt: string)

  /** `ChangedFile`, one file of a pull request's diff. */
  datatype ChangedFile = ChangedFile(
    filename: string, status: string, additions: int, deletions: int, changes: int, lines: int,
    sha: string, blobUrl: string, rawUrl: string, contentsUrl: string, patch: string)

  /** The gateway calls the components issue, with their arguments. */
  datatype ApiCall =
    | GetNotifications | MarkAsRead(id: int) | MarkAllAsRead
    | GetIgnorePatterns | UpdateIgnorePatterns(patterns: seq<string>)
    | GetRules | CreateRule(content: string, targetFilePattern: string)
    | UpdateRule(ruleId: int, content: string, targetFilePattern: string)
    | DeleteRule(ruleId: int) | ToggleRule(ruleId: int)
    | GetReviewSettings | UpdateReviewSettings(settings: ReviewSettings)
    | GetOpenAiKey | ValidateOpenAiKey(key: string) | UpdateOpenAiKey(key: string)
    | GetSystemPrompt | UpdateSystemPrompt(prompt: string)
    | GetPullRequests(repositoryName: string)
    | GetPullRequestWithChanges(repo: string, prNumber: string)
    | RequestReview(repo: string, prNumber: string)
    | CheckLogin | GetUsername

  datatype ToastLevel = Success | Warning | Error

  /** An effect a handler has on the world outside its own state, in the order it happens. */
  datatype UiEffect =
    | Call(call: ApiCall)
    | Toast(level: ToastLevel, message: string)
    | Navigate(path: string)
    | CloseRequested
}
