/** The changed-files page of a pull request: the file list with a status badge per file,
    each file's patch rendered line by line with a colour per kind of diff line, a back
    button and a review-request button. */
module ChangedFilesView {
  import opened Nullable
  import opened JsStrings
  import opened Api

  const GrayStatusColor: string := "bg-gray-500/20 text-gray-400 border-gray-500/30"
  const ReviewRequestedMessage: string := "리뷰 요청이 완료되었습니다. 잠시 후 리뷰를 확인해주세요."
  const ReviewFailedMessage: string := "리뷰 요청에 실패했습니다. 다시 시도해주세요."

  /** The file statuses the badge knows. */
  const KnownFileStatuses: set<string> := {"added", "modified", "removed", "renamed"}

  /** `getFileStatusColor`: a colour class per known status, gray for anything else. */
  function FileStatusColor(status: string): string {
    match status
    case "added" => "bg-green-500/20 text-green-400 border-green-500/30"
    case "modified" => "bg-yellow-500/20 text-yellow-400 border-yellow-500/30"
    case "removed" => "bg-red-500/20 text-red-400 border-red-500/30"
    case "renamed" => "bg-blue-500/20 text-blue-400 border-blue-500/30"
    case _ => GrayStatusColor
  }

  /** `getFileStatusText`: a Korean label per known status, the status itself otherwise. */
  function FileStatusText(status: string): string {
    match status
    case "added" => "추가됨"
    case "modified" => "수정됨"
    case "removed" => "삭제됨"
    case "renamed" => "이름변경"
    case _ => status
  }

  /** A status is relabelled exactly when it is a known one, and then it gets its own
      colour; any other status is shown as it is, in gray. Distinct known statuses get
      distinct labels and distinct colours. */
  lemma FileStatusBadge(status: string, other: string)
    ensures FileStatusText(status) != status <==> status in KnownFileStatuses
    ensures FileStatusColor(status) == GrayStatusColor <==> status !in KnownFileStatuses
    ensures status in KnownFileStatuses && other in KnownFileStatuses && status != other ==>
      FileStatusText(status) != FileStatusText(other) && FileStatusColor(status) != FileStatusColor(other)
  {
  }

  // ---------------------------------------------------------------------------------
  // Patch lines
  // ---------------------------------------------------------------------------------

  /** How a patch line is drawn. */
  datatype LineKind = Added | Deleted | Header | Context | Plain

  /** The per-line `if` chain: the first of `+`, `-`, `@@`, space that the line starts
      with decides; a line starting with none of them is plain. */
  function ClassifyLine(line: string): (k: LineKind)
    ensures k == Added <==> StartsWith(line, "+")
    ensures k == Deleted <==> StartsWith(line, "-")
    ensures k == Header <==> StartsWith(line, "@@")
    ensures k == Context <==> StartsWith(line, " ")
  {
    var isAdded := StartsWith(line, "+");
    var isDeleted := StartsWith(line, "-");
    var isContext := StartsWith(line, " ");
    var isHeader := StartsWith(line, "@@");
    assert isHeader ==> line[0] == "@@"[0];
    if isAdded then Added
    else if isDeleted then Deleted
    else if isHeader then Header
    else if isContext then Context
    else Plain
  }

  /** The background, text and border classes of a line. */
  datatype LineStyle = LineStyle(background: string, text: string, border: string)

  /** The classes each kind of line is drawn with. */
  function StyleOf(kind: LineKind): LineStyle {
    match kind
    case Added => LineStyle("bg-green-50", "text-green-800", "border-l-4 border-green-400")
    case Deleted => LineStyle("bg-red-50", "text-red-800", "border-l-4 border-red-400")
    case Header => LineStyle("bg-blue-50", "text-blue-800", "border-l-4 border-blue-400")
    case Context => LineStyle("bg-gray-50", "text-gray-600", "")
    case Plain => LineStyle("bg-white", "text-gray-800", "")
  }

  /** One rendered row of a patch: the line's text and how it is drawn. */
  datatype PatchRow = PatchRow(text: string, kind: LineKind)

  /** `lines.map(...)`: a row per line, in order. */
  function Rows(lines: seq<string>): (r: seq<PatchRow>)
    ensures |r| == |lines|
    ensures forall i :: 0 <= i < |r| ==> r[i] == PatchRow(lines[i], ClassifyLine(lines[i]))
  {
    if lines == [] then [] else [PatchRow(lines[0], ClassifyLine(lines[0]))] + Rows(lines[1..])
  }

  /** The text of each row, in order. */
  function RowTexts(rows: seq<PatchRow>): (r: seq<string>)
    ensures |r| == |rows|
    ensures forall i :: 0 <= i < |r| ==> r[i] == rows[i].text
  {
    if rows == [] then [] else [rows[0].text] + RowTexts(rows[1..])
  }

  /** `file.patch && file.patch.split('\n').map(...)`: nothing for an empty patch,
      otherwise a row per line of the patch. */
  function PatchRows(patch: string): seq<PatchRow> {
    if patch == "" then [] else Rows(Split(patch, '\n'))
  }

  /** A patch is rendered as exactly one row per line, in order: one more row than it has
      line breaks, and the rows' texts joined by line breaks give the patch back. */
  lemma PatchRowsCoverPatch(patch: string)
    requires patch != ""
    ensures |PatchRows(patch)| == Occurrences(patch, '\n') + 1
    ensures Join(RowTexts(PatchRows(patch)), '\n') == patch
  {
    var lines := Split(patch, '\n');
    SplitCount(patch, '\n');
    JoinSplit(patch, '\n');
    assert RowTexts(Rows(lines)) == lines;
  }

  /** Every line of a unified diff is drawn by its prefix: file headers (`+++`, `---`)
      are drawn as added and deleted lines, hunk headers (`@@`) as headers, context lines
      (a leading space) as context, and a line with none of these prefixes (such as
      `\ No newline at end of file`, or an empty line) as plain. */
  lemma DiffHeadersClassified(line: string)
    ensures StartsWith(line, "+++") ==> ClassifyLine(line) == Added
    ensures StartsWith(line, "---") ==> ClassifyLine(line) == Deleted
    ensures StartsWith(line, "@@") ==> ClassifyLine(line) == Header
    ensures StartsWith(line, " ") ==> ClassifyLine(line) == Context
    ensures line == [] || line[0] !in {'+', '-', '@', ' '} ==> ClassifyLine(line) == Plain
  {
    if StartsWith(line, "+++") {
      assert line[..1] == line[..3][..1] == "+";
    }
    if StartsWith(line, "---") {
      assert line[..1] == line[..3][..1] == "-";
    }
    if line != [] && line[0] !in {'+', '-', '@', ' '} {
      assert line[..1][0] == line[0];
      if |line| >= 2 {
        assert line[..2][0] == line[0];
      }
    }
  }

  // ---------------------------------------------------------------------------------
  // The component
  // ---------------------------------------------------------------------------------

  /** A route parameter as a template literal prints it: absent reads `undefined`. */
  function TemplateText(param: Option<string>): string {
    if param.Some? then param.value else "undefined"
  }

  /** `/repos/${owner}/${repo}`: the pull-request list of the repository. */
  function BackPath(owner: Option<string>, repo: Option<string>): string {
    "/repos/" + TemplateText(owner) + "/" + TemplateText(repo)
  }

  /** The back path names the owner and the repository as its third and fourth segments
      when both are present and free of `/`. */
  lemma BackPathSegments(owner: string, repo: string)
    requires '/' !in owner && '/' !in repo
    ensures Split(BackPath(Some(owner), Some(repo)), '/') == ["", "repos", owner, repo]
  {
    var segments := ["", "repos", owner, repo];
    assert Join(segments, '/') == "" + "/" + Join(segments[1..], '/');
    assert Join(segments[1..], '/') == "repos" + "/" + Join(segments[2..], '/');
    assert Join(segments[2..], '/') == owner + "/" + Join(segments[3..], '/');
    assert Join(segments[3..], '/') == repo;
    assert BackPath(Some(owner), Some(repo)) == Join(segments, '/');
    assert forall k :: 0 <= k < |segments| ==> '/' !in segments[k];
    SplitJoin(segments, '/');
  }

  class ChangedFilesView {
    const owner: Option<string>
    const repo: Option<string>
    const prNumber: Option<string>
    var changedFiles: seq<ChangedFile>
    var isLoading: bool
    var log: seq<UiEffect>

    /** The view for the route parameters; nothing loaded, loading. */
    constructor (owner: Option<string>, repo: Option<string>, prNumber: Option<string>)
      ensures this.owner == owner && this.repo == repo && this.prNumber == prNumber
      ensures changedFiles == [] && isLoading && log == []
    {
      this.owner, this.repo, this.prNumber := owner, repo, prNumber;
      changedFiles, isLoading, log := [], true, [];
    }

    /** The fetch effect: skipped when a route parameter is missing or empty (the view then
        stays loading); otherwise the server's files, or the old list on failure, and
        loading is over either way. */
    method FetchChangedFiles(reply: Reply<seq<ChangedFile>>)
      modifies this`changedFiles, this`isLoading, this`log
      ensures !(TruthyText(owner) && TruthyText(repo) && TruthyText(prNumber)) ==>
        changedFiles == old(changedFiles) && isLoading == old(isLoading) && log == old(log)
      ensures TruthyText(owner) && TruthyText(repo) && TruthyText(prNumber) ==>
        && changedFiles == (if reply.Ok? then reply.value else old(changedFiles))
        && !isLoading
        && log == old(log) + [Call(GetPullRequestWithChanges(repo.value, prNumber.value))]
    {
      if !TruthyText(owner) || !TruthyText(repo) || !TruthyText(prNumber) {
        return;
      }
      isLoading := true;
      log := log + [Call(GetPullRequestWithChanges(repo.value, prNumber.value))];
      if reply.Ok? {
        changedFiles := reply.value;
      }
      isLoading := false;
    }

    /** `handleBackToPRList`. */
    method HandleBackToPRList()
      modifies this`log
      ensures log == old(log) + [Navigate(BackPath(owner, repo))]
    {
      log := log + [Navigate(BackPath(owner, repo))];
    }

    /** The review button: nothing without a repository and a number; otherwise the review
        is requested, and on success a toast and the way back to the repository's list (the
        back button's path), on failure an error toast and no navigation. */
    method HandleRequestReview(reply: Outcome)
      modifies this`log
      ensures !(TruthyText(repo) && TruthyText(prNumber)) ==> log == old(log)
      ensures TruthyText(repo) && TruthyText(prNumber) ==>
        log == old(log) + [Call(RequestReview(repo.value, prNumber.value))]
                        + match reply
                          case Done => [Toast(Success, ReviewRequestedMessage), Navigate(BackPath(owner, repo))]
                          case Threw(_) => [Toast(Error, ReviewFailedMessage)]
    {
      if !TruthyText(repo) || !TruthyText(prNumber) {
        return;
      }
      log := log + [Call(RequestReview(repo.value, prNumber.value))];
      match reply {
        case Done =>
          log := log + [Toast(Success, ReviewRequestedMessage), Navigate(BackPath(owner, repo))];
        case Threw(_) =>
          log := log + [Toast(Error, ReviewFailedMessage)];
      }
    }
  }
}
