/** The notification centre: the bell's dropdown that lists the user's notifications, keeps
    an unread indicator, opens and closes, refreshes on demand, marks one or all
    notifications read, and routes a click to the pull request it is about.

    Each gateway call is awaited inside one handler; the handler's effect is modelled as one
    atomic step that takes the call's reply as a parameter. A fetch issued by an effect (on
    mount, and whenever `isOpen` changes) completes in a step of its own,
    `ReceiveNotifications`, in whatever order the replies arrive. */
module NotificationCenter {
  import opened Nullable
  import opened JsStrings
  import opened ErrorMessages
  import opened Api

  /** `data.some(n => !n.isRead)`. */
  function AnyUnread(ns: seq<Notification>): (r: bool)
    ensures r <==> exists k :: 0 <= k < |ns| && !ns[k].isRead
  {
    if ns == [] then false else !ns[0].isRead || AnyUnread(ns[1..])
  }

  /** `notifications.some(n => n.id !== id && !n.isRead)`. */
  function AnyOtherUnread(ns: seq<Notification>, id: int): (r: bool)
    ensures r <==> exists k :: 0 <= k < |ns| && ns[k].id != id && !ns[k].isRead
  {
    if ns == [] then false else (ns[0].id != id && !ns[0].isRead) || AnyOtherUnread(ns[1..], id)
  }

  /** `prev.map(n => ({ ...n, isRead: true }))`. */
  function MarkAllRead(ns: seq<Notification>): (r: seq<Notification>)
    ensures |r| == |ns|
    ensures forall k :: 0 <= k < |ns| ==> r[k] == ns[k].(isRead := true)
  {
    if ns == [] then [] else [ns[0].(isRead := true)] + MarkAllRead(ns[1..])
  }

  /** `prev.map(n => n.id === id ? { ...n, isRead: true } : n)`. */
  function MarkReadWhere(ns: seq<Notification>, id: int): (r: seq<Notification>)
    ensures |r| == |ns|
    ensures forall k :: 0 <= k < |ns| ==> r[k] == if ns[k].id == id then ns[k].(isRead := true) else ns[k]
  {
    if ns == [] then []
    else [if ns[0].id == id then ns[0].(isRead := true) else ns[0]] + MarkReadWhere(ns[1..], id)
  }

  /** After mark-all, no record is unread, and every record keeps its id, position and every
      other field; marking all read a second time changes nothing. */
  lemma MarkAllReadClearsUnread(ns: seq<Notification>)
    ensures !AnyUnread(MarkAllRead(ns))
    ensures forall k :: 0 <= k < |ns| ==> MarkAllRead(ns)[k].isRead && MarkAllRead(ns)[k].(isRead := ns[k].isRead) == ns[k]
    ensures MarkAllRead(MarkAllRead(ns)) == MarkAllRead(ns)
  {
  }

  /** Marking one id read leaves a record unread exactly when some record with another id
      was unread before: the flag the click handler computes from the pre-click list is the
      flag of the updated list. */
  lemma {:induction false} MarkOneReadSyncsFlag(ns: seq<Notification>, id: int)
    ensures AnyUnread(MarkReadWhere(ns, id)) == AnyOtherUnread(ns, id)
  {
    if ns != [] {
      MarkOneReadSyncsFlag(ns[1..], id);
      assert MarkReadWhere(ns, id)[1..] == MarkReadWhere(ns[1..], id);
    }
  }

  /** A route exists exactly when `loginId`, `repositoryName` and `prNumber` are all truthy;
      it is `/repos/{loginId}/{repositoryName}/pulls/{prNumber}`. */
  function NotificationRoute(n: Notification): Option<string> {
    if n.loginId != "" && TruthyText(n.repositoryName) && TruthyNumber(n.prNumber)
    then Some("/repos/" + n.loginId + "/" + n.repositoryName.value + "/pulls/" + IntToDecimal(n.prNumber.value))
    else None
  }

  /** When the record carries all three identifiers (and the two names hold no `/`), its
      route is there and reads back, segment by segment, as `repos`, the login, the
      repository, `pulls` and the pull request number, the last segment parsing back to a
      positive number; without any one of them there is no route. */
  lemma RouteSegments(n: Notification)
    ensures NotificationRoute(n).Some? <==>
      n.loginId != "" && n.repositoryName.Some? && n.repositoryName.value != "" && n.prNumber.Some? && n.prNumber.value != 0
    ensures NotificationRoute(n).Some? && '/' !in n.loginId && '/' !in n.repositoryName.value ==>
      var segments := Split(NotificationRoute(n).value, '/');
      && segments == ["", "repos", n.loginId, n.repositoryName.value, "pulls", IntToDecimal(n.prNumber.value)]
      && (n.prNumber.value > 0 ==> ParseDecimal(segments[5]) == n.prNumber.value)
  {
    if NotificationRoute(n).Some? && '/' !in n.loginId && '/' !in n.repositoryName.value {
      var login, repo, num := n.loginId, n.repositoryName.value, IntToDecimal(n.prNumber.value);
      var segments := ["", "repos", login, repo, "pulls", num];
      DecimalHasNoSlash(n.prNumber.value);
      assert Join(segments[5..], '/') == num;
      assert Join(segments[4..], '/') == "pulls/" + num;
      assert Join(segments[3..], '/') == repo + "/pulls/" + num;
      assert Join(segments[2..], '/') == login + "/" + repo + "/pulls/" + num;
      assert Join(segments[1..], '/') == "repos/" + login + "/" + repo + "/pulls/" + num;
      assert Join(segments, '/') == NotificationRoute(n).value;
      SplitJoin(segments, '/');
      if n.prNumber.value > 0 {
        DecimalRoundTrip(n.prNumber.value);
      }
    }
  }

  /** What a successful mark-read writes back, as `handleNotificationClick` is written: the
      list is updated from the latest list `current`, but the indicator is computed from
      `clicked`, the list the handler's closure saw when the click happened. */
  function SettleMarkReadAsWritten(current: seq<Notification>, clicked: seq<Notification>, id: int): (seq<Notification>, bool) {
    (MarkReadWhere(current, id), AnyOtherUnread(clicked, id))
  }

  /** What a successful mark-read should write back: both the list and the indicator from
      the latest list. */
  function SettleMarkRead(current: seq<Notification>, id: int): (r: (seq<Notification>, bool))
    ensures r.0 == MarkReadWhere(current, id)
    ensures r.1 == AnyUnread(r.0)
  {
    MarkOneReadSyncsFlag(current, id);
    (MarkReadWhere(current, id), AnyOtherUnread(current, id))
  }

  /** When no other update lands between the click and the reply, the handler as written
      and the corrected settle step agree. */
  lemma SettleAgreesWhenFresh(ns: seq<Notification>, id: int)
    ensures SettleMarkReadAsWritten(ns, ns, id) == SettleMarkRead(ns, id)
  {
  }

  /** Clicking closes the panel, which re-runs the `[isOpen]` effect and issues a fetch
      while mark-read is in flight. If that fetch delivers a new unread notification
      (id 2) before mark-read resolves, the handler as written clears the indicator
      although the list it leaves behind still holds an unread record. */
  lemma StaleClickSnapshotLosesUnread()
    ensures
      var seen := Notification(1, "octocat", NewPr, false, "", None, None, None);
      var arrived := Notification(2, "octocat", ReviewComplete, false, "", None, None, None);
      var r := SettleMarkReadAsWritten([seen, arrived], [seen], 1);
      !r.1 && AnyUnread(r.0)
  {
    var seen := Notification(1, "octocat", NewPr, false, "", None, None, None);
    var arrived := Notification(2, "octocat", ReviewComplete, false, "", None, None, None);
    assert MarkReadWhere([seen, arrived], 1)[1] == arrived;
  }

  /** The dropdown's state: the `useState` hooks of the component, the number of fetches
      its effects have issued and not yet settled, and the log of its outside effects. */
  class NotificationDropdown {
    var notifications: seq<Notification>
    var isOpen: bool
    var hasUnread: bool
    var isRefreshing: bool
    var pendingFetches: nat
    var log: seq<UiEffect>

    /** The unread indicator agrees with the list. */
    ghost predicate Valid()
      reads this
    {
      hasUnread == AnyUnread(notifications)
    }

    /** Mount: empty and closed; the `[isOpen]` effect and the initial-fetch effect each
        issue one fetch. */
    constructor ()
      ensures Valid()
      ensures notifications == [] && !isOpen && !hasUnread && !isRefreshing
      ensures pendingFetches == 2 && log == []
    {
      notifications, isOpen, hasUnread, isRefreshing := [], false, false, false;
      pendingFetches, log := 2, [];
    }

    /** `fetchNotifications` once its call has resolved: a successful reply replaces the
        list wholesale and recomputes the indicator; a failure is swallowed. */
    method FetchNotifications(reply: Reply<seq<Notification>>)
      requires Valid()
      modifies this`notifications, this`hasUnread
      ensures Valid()
      ensures reply.Ok? ==> notifications == reply.value
      ensures reply.Err? ==> notifications == old(notifications) && hasUnread == old(hasUnread)
    {
      if reply.Ok? {
        notifications := reply.value;
        hasUnread := AnyUnread(reply.value);
      }
    }

    /** A fetch issued by an effect resolves. Fetches are neither ordered nor tagged, so
        the last one to resolve decides the list. */
    method ReceiveNotifications(reply: Reply<seq<Notification>>)
      requires Valid() && pendingFetches > 0
      modifies this
      ensures Valid()
      ensures pendingFetches == old(pendingFetches) - 1
      ensures reply.Ok? ==> notifications == reply.value
      ensures reply.Err? ==> notifications == old(notifications) && hasUnread == old(hasUnread)
      ensures isOpen == old(isOpen) && isRefreshing == old(isRefreshing) && log == old(log)
    {
      pendingFetches := pendingFetches - 1;
      FetchNotifications(reply);
    }

    /** `setIsOpen(value)`; when the value changes, the `[isOpen]` effect issues a fetch. */
    method SetIsOpen(value: bool)
      modifies this`isOpen, this`pendingFetches
      ensures isOpen == value
      ensures pendingFetches == old(pendingFetches) + if value != old(isOpen) then 1 else 0
    {
      if value != isOpen {
        isOpen := value;
        pendingFetches := pendingFetches + 1;
      }
    }

    /** `toggleDropdown`: flips `isOpen`. */
    method ToggleDropdown()
      requires Valid()
      modifies this
      ensures Valid()
      ensures isOpen == !old(isOpen) && pendingFetches == old(pendingFetches) + 1
      ensures notifications == old(notifications) && hasUnread == old(hasUnread)
      ensures isRefreshing == old(isRefreshing) && log == old(log)
    {
      SetIsOpen(!isOpen);
    }

    /** `handleClickOutside`: a mousedown outside the dropdown closes it; one inside does
        nothing. */
    method HandleClickOutside(insideDropdown: bool)
      requires Valid()
      modifies this
      ensures Valid()
      ensures isOpen == (old(isOpen) && insideDropdown)
      ensures pendingFetches == old(pendingFetches) + if old(isOpen) && !insideDropdown then 1 else 0
      ensures notifications == old(notifications) && hasUnread == old(hasUnread)
      ensures isRefreshing == old(isRefreshing) && log == old(log)
    {
      if !insideDropdown {
        SetIsOpen(false);
      }
    }

    /** `handleRefresh`: ignored while a refresh is showing; otherwise raises the flag and
        fetches. The flag stays raised until `RefreshSpinnerElapsed`. */
    method HandleRefresh(reply: Reply<seq<Notification>>) returns (ignored: bool)
      requires Valid()
      modifies this
      ensures Valid()
      ensures ignored == old(isRefreshing)
      ensures ignored ==> notifications == old(notifications) && hasUnread == old(hasUnread)
      ensures !ignored && reply.Ok? ==> notifications == reply.value
      ensures !ignored && reply.Err? ==> notifications == old(notifications) && hasUnread == old(hasUnread)
      ensures isRefreshing
      ensures isOpen == old(isOpen) && pendingFetches == old(pendingFetches) && log == old(log)
    {
      if isRefreshing {
        return true;
      }
      ignored := false;
      isRefreshing := true;
      FetchNotifications(reply);
    }

    /** The 500 ms timer set after a refresh fires and lowers the flag. */
    method RefreshSpinnerElapsed()
      requires Valid()
      modifies this`isRefreshing
      ensures Valid() && !isRefreshing
    {
      isRefreshing := false;
    }

    /** `handleMarkAllAsRead`: on success every record becomes read and the indicator goes
        off; on failure nothing changes and one error toast reports it. */
    method HandleMarkAllAsRead(reply: Outcome)
      requires Valid()
      modifies this
      ensures Valid()
      ensures reply.Done? ==> notifications == MarkAllRead(old(notifications)) && !hasUnread
      ensures reply.Threw? ==> notifications == old(notifications) && hasUnread == old(hasUnread)
      ensures log == old(log) + [Call(MarkAllAsRead)]
                    + if reply.Threw? then [Toast(Error, GetErrorMessage(reply.error))] else []
      ensures isOpen == old(isOpen) && isRefreshing == old(isRefreshing) && pendingFetches == old(pendingFetches)
    {
      log := log + [Call(MarkAllAsRead)];
      if reply.Done? {
        MarkAllReadClearsUnread(notifications);
        hasUnread := false;
        notifications := MarkAllRead(notifications);
      } else {
        log := log + [Toast(Error, GetErrorMessage(reply.error))];
      }
    }

    /** `handleNotificationClick`: closes the panel; for an unread record issues mark-read
        and, if it succeeds, marks that id read and recomputes the indicator; then navigates
        to the record's pull request when it names one, whatever mark-read did. */
    method HandleNotificationClick(n: Notification, reply: Outcome)
      requires Valid()
      modifies this
      ensures Valid()
      ensures !isOpen && pendingFetches == old(pendingFetches) + if old(isOpen) then 1 else 0
      ensures n.isRead || reply.Threw? ==> notifications == old(notifications) && hasUnread == old(hasUnread)
      ensures !n.isRead && reply.Done? ==>
        notifications == MarkReadWhere(old(notifications), n.id) && hasUnread == AnyOtherUnread(old(notifications), n.id)
      ensures log == old(log)
                    + (if n.isRead then [] else [Call(MarkAsRead(n.id))])
                    + (if NotificationRoute(n).Some? then [Navigate(NotificationRoute(n).value)] else [])
      ensures isRefreshing == old(isRefreshing)
    {
      SetIsOpen(false);
      if !n.isRead {
        log := log + [Call(MarkAsRead(n.id))];
        if reply.Done? {
          var settled := SettleMarkRead(notifications, n.id);
          notifications, hasUnread := settled.0, settled.1;
        }
      }
      var route := NotificationRoute(n);
      if route.Some? {
        log := log + [Navigate(route.value)];
      }
    }
  }
}
