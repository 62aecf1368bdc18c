/**
 * The app shell (`AppContent`): which page is selected, the login redirect
 * that picks a page from the session, the render gate in front of every
 * page, and the handlers the header, footer and menus call.
 *
 * Pages are their string keys, exactly as the menus pass them.
 */
module App {
  import opened JsValues
  import opened Json
  import opened Session

  const DASHBOARD := "dashboard"
  const APPROVAL_PENDING := "approval-pending"
  const APPROVAL_CANCELLED := "approval-cancelled"
  const LOGOUT := "logout"

  /**
   * The login redirect, run whenever the session changes: no session keeps
   * the current page; a `Status` or `status` that is the number 1 opens the
   * dashboard; otherwise a `SubmissionStatus` of exactly `"Rejected"` opens
   * the cancelled screen, and anything else the pending screen.
   */
  function Redirect(session: JsVal, current: string): (page: string)
    ensures !Truthy(session) ==> page == current
  {
    if !Truthy(session) then current
    else if Get(session, "Status") == Num(1) || Get(session, "status") == Num(1) then DASHBOARD
    else if Get(session, "SubmissionStatus") == Str("Rejected") then APPROVAL_CANCELLED
    else APPROVAL_PENDING
  }

  /** The header and footer are hidden exactly on these two screens. */
  predicate IsApprovalScreen(page: string) {
    page == APPROVAL_PENDING || page == APPROVAL_CANCELLED
  }

  /**
   * `notifications.filter((n) => n.unread).length`.  A nullish entry counts
   * as read here, where `n.unread` would throw; the shell's notification
   * list is always empty, so no such entry reaches it.
   */
  function UnreadCount(notifications: seq<JsVal>): (n: nat)
    ensures n <= |notifications|
  {
    if notifications == [] then 0
    else
      (if Truthy(Get(notifications[0], "unread")) then 1 else 0) + UnreadCount(notifications[1..])
  }

  /** What `AppContent` renders. */
  datatype Screen =
    | Nothing
    | AuthScreen
    | CloudError(unreadCount: nat)
    | Main(showHeader: bool, page: string, showFooter: bool, unreadCount: nat)

  class AppContent {
    /** The session controller this shell reads and logs out through. */
    const store: SessionStore
    var selectedPage: string
    var notifOpen: bool
    var isCloudDown: bool
    /** The one-second placeholder flag; its timer is not modelled. */
    var loading: bool
    /** Never updated by the shell: it starts empty and stays so. */
    const notifications: seq<JsVal>

    constructor(store: SessionStore)
      ensures this.store == store
      ensures selectedPage == DASHBOARD && !notifOpen && !isCloudDown && loading
      ensures notifications == []
    {
      this.store := store;
      selectedPage := DASHBOARD;
      notifOpen := false;
      isCloudDown := false;
      loading := true;
      notifications := [];
    }

    /**
     * The render gate: nothing until the session controller is ready, the
     * auth screen while there is no session, the cloud-error screen while the
     * cloud is down, and otherwise the selected page with header and footer
     * unless it is an approval screen.
     */
    function Render(): (s: Screen)
      reads this, store
      ensures !store.isReady <==> s == Nothing
      ensures s == AuthScreen <==> store.isReady && !Truthy(store.session)
      ensures s.Main? <==> store.isReady && Truthy(store.session) && !isCloudDown
      ensures s.CloudError? <==> store.isReady && Truthy(store.session) && isCloudDown
      ensures s.Main? ==> s.page == selectedPage && s.showHeader == s.showFooter == !IsApprovalScreen(selectedPage)
      ensures (s.Main? || s.CloudError?) ==> s.unreadCount == UnreadCount(notifications)
    {
      if !store.isReady then Nothing
      else if !Truthy(store.session) then AuthScreen
      else if isCloudDown then CloudError(UnreadCount(notifications))
      else
        var chrome := !IsApprovalScreen(selectedPage);
        Main(chrome, selectedPage, chrome, UnreadCount(notifications))
    }

    /** The redirect effect, run after the session has changed. */
    method OnSessionChanged()
      modifies this
      ensures selectedPage == Redirect(store.session, old(selectedPage))
      ensures notifOpen == old(notifOpen) && isCloudDown == old(isCloudDown) && loading == old(loading)
    {
      if !Truthy(store.session) {
        return;
      }
      if Get(store.session, "Status") == Num(1) || Get(store.session, "status") == Num(1) {
        selectedPage := DASHBOARD;
      } else if Get(store.session, "SubmissionStatus") == Str("Rejected") {
        selectedPage := APPROVAL_CANCELLED;
      } else {
        selectedPage := APPROVAL_PENDING;
      }
    }

    /**
     * `handleMenuSelect(key)`: `"logout"` clears the session and leaves the
     * page alone (so a ready app then shows the auth screen); any other key
     * becomes the selected page and the session is untouched.
     */
    method HandleMenuSelect(key: string, storageOk: bool)
      modifies this, store
      ensures key == LOGOUT ==>
        selectedPage == old(selectedPage) && store.session == Null &&
        store.storage == StorageAfterClear(old(store.storage), storageOk)
      ensures key == LOGOUT && store.isReady ==> Render() == AuthScreen
      ensures key != LOGOUT ==>
        selectedPage == key && store.session == old(store.session) && store.storage == old(store.storage)
      ensures store.isReady == old(store.isReady)
      ensures notifOpen == old(notifOpen) && isCloudDown == old(isCloudDown) && loading == old(loading)
    {
      if key == LOGOUT {
        store.SaveSession(Null, storageOk);
        return;
      }
      selectedPage := key;
    }

    /** `handleHeaderLogout`: the same clear as the menu's logout. */
    method HandleHeaderLogout(storageOk: bool)
      modifies store
      ensures store.session == Null
      ensures store.storage == StorageAfterClear(old(store.storage), storageOk)
      ensures store.isReady == old(store.isReady)
      ensures store.isReady ==> Render() == AuthScreen
    {
      store.SaveSession(Null, storageOk);
    }

    /** `handleNotificationNavigation(screen)`: close the dropdown and open `screen`. */
    method HandleNotificationNavigation(screen: string)
      modifies this
      ensures !notifOpen && selectedPage == screen
      ensures isCloudDown == old(isCloudDown) && loading == old(loading)
    {
      notifOpen := false;
      selectedPage := screen;
    }

    /** `handleRetry`: leave the cloud-error screen. */
    method HandleRetry()
      modifies this
      ensures !isCloudDown
      ensures selectedPage == old(selectedPage) && notifOpen == old(notifOpen) && loading == old(loading)
    {
      isCloudDown := false;
    }

    /** The header's bell: `setNotifOpen((v) => !v)`. */
    method ToggleNotifications()
      modifies this
      ensures notifOpen == !old(notifOpen)
      ensures selectedPage == old(selectedPage) && isCloudDown == old(isCloudDown) && loading == old(loading)
    {
      notifOpen := !notifOpen;
    }
  }

  // ---------------------------------------------------------------------
  // Properties
  // ---------------------------------------------------------------------

  /** The redirect's three outcomes for a present session, each in both directions. */
  lemma RedirectOutcomes(session: JsVal, current: string)
    requires Truthy(session)
    ensures Redirect(session, current) == DASHBOARD <==>
      Get(session, "Status") == Num(1) || Get(session, "status") == Num(1)
    ensures Redirect(session, current) == APPROVAL_CANCELLED <==>
      Get(session, "Status") != Num(1) && Get(session, "status") != Num(1) &&
      Get(session, "SubmissionStatus") == Str("Rejected")
    ensures Redirect(session, current) == APPROVAL_PENDING <==>
      Get(session, "Status") != Num(1) && Get(session, "status") != Num(1) &&
      Get(session, "SubmissionStatus") != Str("Rejected")
  {
  }

  /** The comparisons are strict and case-sensitive: a status of `"1"` or a `"rejected"` submission leads to the pending screen. */
  lemma RedirectIsStrict(current: string)
    ensures Redirect(Obj([Prop("status", Str("1"))]), current) == APPROVAL_PENDING
    ensures Redirect(Obj([Prop("SubmissionStatus", Str("rejected"))]), current) == APPROVAL_PENDING
    ensures Redirect(Obj([Prop("SubmissionStatus", Str("Rejected"))]), current) == APPROVAL_CANCELLED
  {
    assert Str("rejected") != Str("Rejected") by {
      assert "rejected"[0] != "Rejected"[0];
    }
    var one := Obj([Prop("status", Str("1"))]);
    assert Get(one, "Status") == Undefined && Get(one, "status") == Str("1");
    assert Get(one, "SubmissionStatus") == Undefined;
    var lower := Obj([Prop("SubmissionStatus", Str("rejected"))]);
    assert Get(lower, "Status") == Undefined && Get(lower, "status") == Undefined;
    assert Get(lower, "SubmissionStatus") == Str("rejected");
    var upper := Obj([Prop("SubmissionStatus", Str("Rejected"))]);
    assert Get(upper, "Status") == Undefined && Get(upper, "status") == Undefined;
    assert Get(upper, "SubmissionStatus") == Str("Rejected");
  }

  /** The redirect never looks at `clientTypeId`: changing it changes no page. */
  lemma RedirectIgnoresClientType(props: seq<Prop>, v: JsVal, current: string)
    ensures Redirect(Obj(SetProp(props, "clientTypeId", v)), current) == Redirect(Obj(props), current)
  {
    var changed := SetProp(props, "clientTypeId", v);
    assert |"clientTypeId"| == 12 && |"Status"| == 6 && |"SubmissionStatus"| == 16;
    LookupSetProp(props, "clientTypeId", v, "Status");
    LookupSetProp(props, "clientTypeId", v, "status");
    LookupSetProp(props, "clientTypeId", v, "SubmissionStatus");
    RedirectReadsThreeKeys(Obj(changed), Obj(props), current);
  }

  /** Two objects that agree on `Status`, `status` and `SubmissionStatus` route the same way. */
  lemma RedirectReadsThreeKeys(a: JsVal, b: JsVal, current: string)
    requires a.Obj? && b.Obj?
    requires Get(a, "Status") == Get(b, "Status") && Get(a, "status") == Get(b, "status")
    requires Get(a, "SubmissionStatus") == Get(b, "SubmissionStatus")
    ensures Redirect(a, current) == Redirect(b, current)
  {
    assert Truthy(a) && Truthy(b);
    var x, y, z := Get(a, "Status"), Get(a, "status"), Get(a, "SubmissionStatus");
    assert Redirect(a, current) ==
      if x == Num(1) || y == Num(1) then DASHBOARD
      else if z == Str("Rejected") then APPROVAL_CANCELLED
      else APPROVAL_PENDING;
  }

  /**
   * A session made by `saveSession` never holds `SubmissionStatus` (nor
   * `Status`), so it routes to the dashboard when its `status` is the number 1
   * and to the pending screen otherwise, never to the cancelled screen.
   */
  lemma SavedSessionRoutes(data: JsVal, current: string)
    requires Truthy(data)
    ensures Redirect(FormatSession(data), current) ==
      if Get(data, "status") == Num(1) then DASHBOARD else APPROVAL_PENDING
  {
    var r := FormatSession(data);
    RecordOmitsBackendStatus(data);
    StatusKept(data);
    assert Truthy(r);
  }

  /** `Reloaded(v)` is the number 1 exactly when `v` was. */
  lemma ReloadedIsOne(v: JsVal)
    ensures Reloaded(v) == Num(1) <==> v == Num(1)
  {
  }

  /** After a save and a fresh start of the app, the stored session routes to the same page the saved one did. */
  lemma ReloadKeepsRoute(data: JsVal, storage: map<string, string>, prior: JsVal, current: string)
    requires Truthy(data)
    ensures var loaded := LoadedSession(prior, Stored(StorageAfterSave(storage, data, true)), true);
      Redirect(loaded, current) == Redirect(FormatSession(data), current)
  {
    var loaded := LoadedSession(prior, Stored(StorageAfterSave(storage, data, true)), true);
    var r := FormatSession(data);
    SaveThenLoad(data, storage, prior, "Status");
    SaveThenLoad(data, storage, prior, "status");
    SaveThenLoad(data, storage, prior, "SubmissionStatus");
    RecordOmitsBackendStatus(data);
    ReloadedIsOne(Get(r, "status"));
    assert Truthy(loaded);
  }

  /** The unread count adds up over a split list and equals the length exactly when every item is unread. */
  lemma {:induction false} UnreadCountSplit(a: seq<JsVal>, b: seq<JsVal>)
    ensures UnreadCount(a + b) == UnreadCount(a) + UnreadCount(b)
  {
    if a != [] {
      assert (a + b)[1..] == a[1..] + b;
      UnreadCountSplit(a[1..], b);
    } else {
      assert a + b == b;
    }
  }

  lemma {:induction false} UnreadCountAll(ns: seq<JsVal>)
    ensures UnreadCount(ns) == |ns| <==> forall i :: 0 <= i < |ns| ==> Truthy(Get(ns[i], "unread"))
  {
    if ns != [] {
      UnreadCountAll(ns[1..]);
      if forall i :: 0 <= i < |ns[1..]| ==> Truthy(Get(ns[1..][i], "unread")) {
        assert forall i :: 1 <= i < |ns| ==> Truthy(Get(ns[i], "unread")) by {
          forall i | 1 <= i < |ns| ensures Truthy(Get(ns[i], "unread")) {
            assert ns[i] == ns[1..][i - 1];
          }
        }
      }
      if forall i :: 0 <= i < |ns| ==> Truthy(Get(ns[i], "unread")) {
        assert forall i :: 0 <= i < |ns[1..]| ==> Truthy(Get(ns[1..][i], "unread")) by {
          forall i | 0 <= i < |ns[1..]| ensures Truthy(Get(ns[1..][i], "unread")) {
            assert ns[1..][i] == ns[i + 1];
          }
        }
      }
    }
  }
}
