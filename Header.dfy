/**
 * The top bar: the mode switch, the notification bell with its unread badge,
 * and the three-dots menu. The two dropdowns are mutually exclusive.
 */
module Header {
  import opened Sequences

  datatype Mode = Professional | Social

  datatype Notification = Notification(id: int, kind: string, message: string, time: string, read: bool)

  const ProfessionalNotifications: seq<Notification> := [
    Notification(1, "project", "New project posted: AI Study Assistant", "5m ago", false),
    Notification(2, "join", "Sarah joined your project 'Web Dev Course'", "1h ago", false),
    Notification(3, "wish", "Alex sent best wishes to your project", "2h ago", true),
    Notification(4, "answer", "Your question received a new answer", "3h ago", true)
  ]

  const SocialNotifications: seq<Notification> := [
    Notification(1, "match", "You matched with Emma Wilson!", "10m ago", false),
    Notification(2, "message", "New message from Alex Park", "30m ago", false),
    Notification(3, "schedule", "Mike posted a new study schedule", "1h ago", true)
  ]

  /** The list the bell shows in a mode. */
  function NotificationsFor(mode: Mode): (r: seq<Notification>)
    ensures r == ProfessionalNotifications <==> mode == Professional
    ensures r == SocialNotifications <==> mode == Social
  {
    assert |ProfessionalNotifications| != |SocialNotifications|;
    match mode
    case Professional => ProfessionalNotifications
    case Social => SocialNotifications
  }

  /** How many entries of the list are unread, counted one entry at a time. */
  function CountUnread(notifications: seq<Notification>): (r: nat)
    ensures r <= |notifications|
  {
    if notifications == [] then 0
    else (if notifications[0].read then 0 else 1) + CountUnread(notifications[1..])
  }

  /**
   * `notifications.filter(n => !n.read)`: every unread entry, in list order,
   * each as often as it occurs.
   */
  function Unread(notifications: seq<Notification>): (r: seq<Notification>)
    ensures forall n :: n in r <==> n in notifications && !n.read
    ensures IsSubsequence(r, notifications)
    ensures |r| == CountUnread(notifications)
  {
    if notifications == [] then []
    else if !notifications[0].read then [notifications[0]] + Unread(notifications[1..])
    else Unread(notifications[1..])
  }

  /** The number on the badge: `unreadCount`. */
  function UnreadCount(notifications: seq<Notification>): (r: nat)
    ensures r == CountUnread(notifications)
    ensures r <= |notifications|
    ensures r > 0 <==> exists i :: 0 <= i < |notifications| && !notifications[i].read
  {
    var u := Unread(notifications);
    if u != [] then
      assert u[0] in notifications;
      |u|
    else
      assert forall i :: 0 <= i < |notifications| ==> notifications[i] in notifications;
      0
  }

  /** `{unreadCount > 0 && <badge/>}`. */
  predicate BadgeShown(mode: Mode)
  {
    UnreadCount(NotificationsFor(mode)) > 0
  }

  /** Each fixture list has two unread notifications, so the badge always shows. */
  lemma FixtureUnreadCounts()
    ensures UnreadCount(ProfessionalNotifications) == 2
    ensures UnreadCount(SocialNotifications) == 2
    ensures BadgeShown(Professional) && BadgeShown(Social)
  {
  }

  /** The two dropdowns' open flags. */
  class Dropdowns {
    var showNotifications: bool
    var showMenu: bool

    /** Never both open. */
    predicate Valid()
      reads this
    {
      !(showNotifications && showMenu)
    }

    constructor ()
      ensures Valid() && !showNotifications && !showMenu
    {
      showNotifications := false;
      showMenu := false;
    }

    /** The bell: toggles the notification list and closes the menu. */
    method BellClick()
      modifies this
      ensures Valid()
      ensures showNotifications == !old(showNotifications) && !showMenu
    {
      showNotifications := !showNotifications;
      showMenu := false;
    }

    /** The three dots: toggles the menu and closes the notification list. */
    method MenuClick()
      modifies this
      ensures Valid()
      ensures showMenu == !old(showMenu) && !showNotifications
    {
      showMenu := !showMenu;
      showNotifications := false;
    }
  }
}
