/**
 * The application shell (src/App.tsx): which tab is shown, whether the profile and
 * the quick-sale dialog are open, and the notification store with its updaters.
 */
module App {
  import opened Lists
  import opened NotificationsPanel

  /** `prev.map(n => n.id === id ? { ...n, read: true } : n)`. */
  function MarkRead(ns: seq<Notification>, id: string): (r: seq<Notification>)
    ensures |r| == |ns|
    ensures forall i :: 0 <= i < |ns| ==> r[i].read == (ns[i].read || ns[i].id == id)
    ensures forall i :: 0 <= i < |ns| ==> r[i].(read := ns[i].read) == ns[i]
  {
    seq(|ns|, i requires 0 <= i < |ns| => if ns[i].id == id then ns[i].(read := true) else ns[i])
  }

  /** `prev.map(n => ({ ...n, read: true }))`. */
  function MarkAllRead(ns: seq<Notification>): (r: seq<Notification>)
    ensures |r| == |ns|
    ensures forall i :: 0 <= i < |ns| ==> r[i].read && r[i].(read := ns[i].read) == ns[i]
  {
    seq(|ns|, i requires 0 <= i < |ns| => ns[i].(read := true))
  }

  function NotId(id: string): Notification -> bool
  {
    (n: Notification) => n.id != id
  }

  /** `prev.filter(n => n.id !== id)`. */
  function DeleteById(ns: seq<Notification>, id: string): (r: seq<Notification>)
    ensures Sublist(r, ns)
    ensures forall n :: n in r <==> n in ns && n.id != id
    ensures forall n :: multiset(r)[n] == if n.id != id then multiset(ns)[n] else 0
  {
    FilterSublist(ns, NotId(id));
    Filter(ns, NotId(id))
  }

  predicate IsUnread(n: Notification) { !n.read }

  predicate IsRead(n: Notification) { n.read }

  /** `notifications.filter(n => !n.read).length`. */
  function UnreadCount(ns: seq<Notification>): (c: nat)
    ensures c <= |ns|
  {
    Count(ns, IsUnread)
  }

  /** Unread and read notifications together account for the whole list. */
  lemma UnreadPlusRead(ns: seq<Notification>)
    ensures UnreadCount(ns) + Count(ns, IsRead) == |ns|
  {
    CountComplement(ns, IsUnread, IsRead);
  }

  /** After marking everything read nothing is unread. */
  lemma MarkAllReadClearsUnread(ns: seq<Notification>)
    ensures UnreadCount(MarkAllRead(ns)) == 0
  {
    FilterNone(MarkAllRead(ns), IsUnread);
  }

  /** Marking everything read twice is marking it once. */
  lemma MarkAllReadIdempotent(ns: seq<Notification>)
    ensures MarkAllRead(MarkAllRead(ns)) == MarkAllRead(ns)
  {
  }

  predicate UnreadOther(id: string, n: Notification) { !n.read && n.id != id }

  /** Marking `id` read leaves unread exactly the unread notifications with other ids. */
  lemma {:induction false} MarkReadUnread(ns: seq<Notification>, id: string)
    ensures UnreadCount(MarkRead(ns, id)) == Count(ns, n => UnreadOther(id, n))
    decreases |ns|
  {
    if ns != [] {
      MarkReadUnread(ns[1..], id);
      assert MarkRead(ns, id)[1..] == MarkRead(ns[1..], id);
    }
  }

  /** Marking an id that is already read, or absent, changes nothing. */
  lemma MarkReadNoUnread(ns: seq<Notification>, id: string)
    requires forall i :: 0 <= i < |ns| && ns[i].id == id ==> ns[i].read
    ensures MarkRead(ns, id) == ns
  {
  }

  /** Deleting an id that is not present is a no-op. */
  lemma DeleteAbsent(ns: seq<Notification>, id: string)
    requires forall i :: 0 <= i < |ns| ==> ns[i].id != id
    ensures DeleteById(ns, id) == ns
  {
    FilterAll(ns, NotId(id));
  }

  /** Deleting twice is deleting once. */
  lemma DeleteIdempotent(ns: seq<Notification>, id: string)
    ensures DeleteById(DeleteById(ns, id), id) == DeleteById(ns, id)
  {
    DeleteAbsent(DeleteById(ns, id), id);
  }

  /** The panel's 'unread' view lists exactly as many notifications as the badge counts. */
  lemma UnreadViewMatchesCount(ns: seq<Notification>)
    ensures |FilteredNotifications(ns, Unread, "all")| == UnreadCount(ns)
  {
    FilterExtensional(ns, n => Passes(n, Unread, "all"), IsUnread);
  }

  /** The shell's component state (the simulated login is not part of it). */
  class Shell {
    var currentTab: string
    var showProfile: bool
    var showQuickSale: bool
    var notifications: seq<Notification>

    constructor (initial: seq<Notification>)
      ensures currentTab == "dashboard" && !showProfile && !showQuickSale && notifications == initial
    {
      currentTab := "dashboard";
      showProfile := false;
      showQuickSale := false;
      notifications := initial;
    }

    function UnreadNotifications(): nat
      reads this
    {
      UnreadCount(notifications)
    }

    /** `handleTabChange(value)`: shows that tab and always closes the profile. */
    method HandleTabChange(value: string)
      modifies this
      ensures currentTab == value && !showProfile
      ensures showQuickSale == old(showQuickSale) && notifications == old(notifications)
    {
      currentTab := value;
      showProfile := false;
    }

    /** The avatar menu's Profile entry: opens the profile on the 'profile' tab. */
    method OpenProfile()
      modifies this
      ensures showProfile && currentTab == "profile"
      ensures showQuickSale == old(showQuickSale) && notifications == old(notifications)
    {
      showProfile := true;
      currentTab := "profile";
    }

    /** The profile's `onClose`. */
    method CloseProfile()
      modifies this
      ensures !showProfile && currentTab == old(currentTab)
      ensures showQuickSale == old(showQuickSale) && notifications == old(notifications)
    {
      showProfile := false;
    }

    method SetShowQuickSale(open: bool)
      modifies this
      ensures showQuickSale == open
      ensures currentTab == old(currentTab) && showProfile == old(showProfile)
      ensures notifications == old(notifications)
    {
      showQuickSale := open;
    }

    method HandleMarkAsRead(id: string)
      modifies this
      ensures notifications == MarkRead(old(notifications), id)
      ensures currentTab == old(currentTab) && showProfile == old(showProfile)
      ensures showQuickSale == old(showQuickSale)
    {
      notifications := MarkRead(notifications, id);
    }

    method HandleMarkAllAsRead()
      modifies this
      ensures notifications == MarkAllRead(old(notifications)) && UnreadNotifications() == 0
      ensures currentTab == old(currentTab) && showProfile == old(showProfile)
      ensures showQuickSale == old(showQuickSale)
    {
      MarkAllReadClearsUnread(notifications);
      notifications := MarkAllRead(notifications);
    }

    method HandleDeleteNotification(id: string)
      modifies this
      ensures notifications == DeleteById(old(notifications), id)
      ensures currentTab == old(currentTab) && showProfile == old(showProfile)
      ensures showQuickSale == old(showQuickSale)
    {
      notifications := DeleteById(notifications, id);
    }
  }
}
