/** The frontend application store: theme, locale, loading and error state,
    the notification list, the sidebar flag and the current page. */
module App {
  import opened Outcomes
  import opened Seqs

  datatype Theme = Light | Dark

  datatype Locale = ZhCN | EnUS

  datatype NotificationType = Success | Error | Warning | Info

  datatype Notification = Notification(
    id: string,
    ntype: NotificationType,
    title: string,
    message: string,
    timestamp: string,
    duration: int)

  /** The duration `showNotification` uses when none is given. */
  const DefaultDuration: int := 4500

  /** The duration `showError` asks for. */
  const ErrorDuration: int := 6000

  /** How many notifications the recent window shows. */
  const RecentWindow: nat := 5

  /** The theme `toggleTheme` switches to. */
  function Toggled(t: Theme): (r: Theme)
    ensures r != t
  {
    if t == Light then Dark else Light
  }

  /** Toggling twice restores the theme. */
  lemma ToggleTwice(t: Theme)
    ensures Toggled(Toggled(t)) == t
  {
  }

  function IdIsNot(id: string): Notification -> bool
  {
    (n: Notification) => n.id != id
  }

  /** The list `removeNotification` leaves: every notification without the id,
      in order. */
  function WithoutNotification(ns: seq<Notification>, id: string): (r: seq<Notification>)
    ensures forall n :: n in r <==> n in ns && n.id != id
    ensures |r| <= |ns|
  {
    Filter(ns, IdIsNot(id))
  }

  /** Removing a notification just shown under a fresh id restores the list
      from before it was shown. */
  lemma {:induction false} RemoveUndoesShow(ns: seq<Notification>, n: Notification)
    requires forall m :: m in ns ==> m.id != n.id
    ensures WithoutNotification(ns + [n], n.id) == ns
  {
    FilterAppend(ns, [n], IdIsNot(n.id));
    FilterAll(ns, IdIsNot(n.id));
    assert Filter([n], IdIsNot(n.id)) == [];
  }

  /** `slice(-5)`: the last five notifications, or all of them when fewer. */
  function Recent(ns: seq<Notification>): (r: seq<Notification>)
    ensures |r| == if |ns| < RecentWindow then |ns| else RecentWindow
    ensures forall i :: 0 <= i < |r| ==> r[i] == ns[|ns| - |r| + i]
  {
    if |ns| < RecentWindow then ns else ns[|ns| - RecentWindow..]
  }

  /** The newest notification is always the last one in the recent window. */
  lemma RecentEndsWithNewest(ns: seq<Notification>, n: Notification)
    ensures Recent(ns + [n]) != [] && Recent(ns + [n])[|Recent(ns + [n])| - 1] == n
  {
  }

  /** The error message `setError` notifies about: a non-empty message only
      (an empty string is falsy). */
  predicate Notifies(error: Option<string>)
  {
    error.Some? && error.value != ""
  }

  class AppStore {
    var theme: Theme
    var locale: Locale
    var isLoading: bool
    var error: Option<string>
    var notifications: seq<Notification>
    var sidebarCollapsed: bool
    var currentPage: string

    /** The defaults, before any saved setting is applied. */
    constructor()
      ensures theme == Light && locale == ZhCN && !isLoading && error.None?
      ensures notifications == [] && !sidebarCollapsed && currentPage == "/"
    {
      theme := Light;
      locale := ZhCN;
      isLoading := false;
      error := None;
      notifications := [];
      sidebarCollapsed := false;
      currentPage := "/";
    }

    method SetTheme(t: Theme)
      modifies this`theme
      ensures theme == t
    {
      theme := t;
    }

    /** Switches between light and dark. */
    method ToggleTheme()
      modifies this`theme
      ensures theme == Toggled(old(theme))
      ensures theme != old(theme)
    {
      SetTheme(Toggled(theme));
    }

    method SetLocale(l: Locale)
      modifies this`locale
      ensures locale == l
    {
      locale := l;
    }

    method SetLoading(loading: bool)
      modifies this`isLoading
      ensures isLoading == loading
    {
      isLoading := loading;
    }

    /** Records the error and, for a non-empty message, appends one error
        notification titled "错误" carrying it. */
    method SetError(e: Option<string>, id: string, now: string)
      modifies this`error, this`notifications
      ensures error == e
      ensures Notifies(e) ==> notifications == old(notifications) + [Notification(id, Error, "错误", e.value, now, DefaultDuration)]
      ensures !Notifies(e) ==> notifications == old(notifications)
    {
      error := e;
      if e.Some? && e.value != "" {
        var _ := ShowNotification(Error, "错误", e.value, DefaultDuration, id, now);
      }
    }

    method ClearError()
      modifies this`error
      ensures error.None?
    {
      error := None;
    }

    /** Appends one notification with the given content and returns its id. */
    method ShowNotification(ntype: NotificationType, title: string, message: string, duration: int, id: string, now: string)
      returns (r: string)
      modifies this`notifications
      ensures r == id
      ensures notifications == old(notifications) + [Notification(id, ntype, title, message, now, duration)]
    {
      var notification := Notification(id, ntype, title, message, now, duration);
      notifications := notifications + [notification];
      r := id;
    }

    /** An error notification with the longer display time. */
    method ShowError(title: string, message: string, id: string, now: string) returns (r: string)
      modifies this`notifications
      ensures r == id
      ensures notifications == old(notifications) + [Notification(id, Error, title, message, now, ErrorDuration)]
    {
      r := ShowNotification(Error, title, message, ErrorDuration, id, now);
    }

    /** Drops every notification with the id, keeping the others in order. */
    method RemoveNotification(id: string)
      modifies this`notifications
      ensures notifications == WithoutNotification(old(notifications), id)
    {
      notifications := WithoutNotification(notifications, id);
    }

    method ClearAllNotifications()
      modifies this`notifications
      ensures notifications == [] && !HasNotifications()
    {
      notifications := [];
    }

    method SetSidebarCollapsed(collapsed: bool)
      modifies this`sidebarCollapsed
      ensures sidebarCollapsed == collapsed
    {
      sidebarCollapsed := collapsed;
    }

    method ToggleSidebar()
      modifies this`sidebarCollapsed
      ensures sidebarCollapsed == !old(sidebarCollapsed)
    {
      SetSidebarCollapsed(!sidebarCollapsed);
    }

    method SetCurrentPage(page: string)
      modifies this`currentPage
      ensures currentPage == page
    {
      currentPage := page;
    }

    function IsDarkTheme(): (r: bool)
      reads this
      ensures r <==> theme == Dark
    {
      theme == Dark
    }

    function HasNotifications(): (r: bool)
      reads this
      ensures r <==> notifications != []
    {
      |notifications| > 0
    }

    function UnreadNotifications(): (n: nat)
      reads this
      ensures n == |notifications|
    {
      |notifications|
    }

    /** The last five notifications, oldest first. */
    function RecentNotifications(): (r: seq<Notification>)
      reads this
      ensures |r| <= RecentWindow && |r| <= |notifications|
      ensures notifications != [] ==> r != [] && r[|r| - 1] == notifications[|notifications| - 1]
      ensures r == Recent(notifications)
    {
      Recent(notifications)
    }
  }
}
