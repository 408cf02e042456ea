/** A repository's pull requests with a review-status badge each, fetched whenever the
    repository changes. */
module PullRequestList {
  import opened Api

  const GrayStatusColor: string := "bg-gray-100 text-gray-800 border-gray-200"

  /** The review statuses the badge knows. */
  const KnownReviewStatuses: set<string> := {"COMPLETED", "PENDING"}

  /** `getStatusColor`: green for a completed review, yellow for a pending one, gray for
      anything else. */
  function StatusColor(status: string): string {
    match status
    case "COMPLETED" => "bg-green-100 text-green-800 border-green-200"
    case "PENDING" => "bg-yellow-100 text-yellow-800 border-yellow-200"
    case _ => GrayStatusColor
  }

  /** `getStatusText`: a Korean label for the two known statuses, the status itself
      otherwise. */
  function StatusText(status: string): string {
    match status
    case "COMPLETED" => "리뷰 완료"
    case "PENDING" => "리뷰 대기 중"
    case _ => status
  }

  /** A status is relabelled exactly when it is a known one, and then it gets its own
      colour; any other status is shown as it is, in gray. Distinct known statuses read
      and look different. */
  lemma StatusBadge(status: string, other: string)
    ensures StatusText(status) != status <==> status in KnownReviewStatuses
    ensures StatusColor(status) == GrayStatusColor <==> status !in KnownReviewStatuses
    ensures status in KnownReviewStatuses && other in KnownReviewStatuses && status != other ==>
      StatusText(status) != StatusText(other) && StatusColor(status) != StatusColor(other)
  {
  }

  class PullRequestList {
    const repositoryName: string
    var pullRequests: seq<PullRequest>
    var isLoading: bool
    var log: seq<UiEffect>

    /** First render for a repository: no pull requests yet, loading. */
    constructor (repositoryName: string)
      ensures this.repositoryName == repositoryName && pullRequests == [] && isLoading && log == []
    {
      this.repositoryName := repositoryName;
      pullRequests, isLoading, log := [], true, [];
    }

    /** `fetchPullRequests`: the server's list replaces the old one; on failure the old
        list stays. Loading is over either way. */
    method FetchPullRequests(reply: Reply<seq<PullRequest>>)
      modifies this`pullRequests, this`isLoading, this`log
      ensures pullRequests == if reply.Ok? then reply.value else old(pullRequests)
      ensures !isLoading
      ensures log == old(log) + [Call(GetPullRequests(repositoryName))]
    {
      log := log + [Call(GetPullRequests(repositoryName))];
      if reply.Ok? {
        pullRequests := reply.value;
      }
      isLoading := false;
    }
  }
}
