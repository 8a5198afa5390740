/** The site header (src/components/Header.jsx): the mobile menu, the navigation links and the
    items only a signed-in user sees, and its own copy of the notification panel. */
module Header {

  import opened Common
  import Notifications

  const HomePath: string := "/"
  const ListingsPath: string := "/listings"
  const WatchlistPath: string := "/watchlist"
  const CreateListingPath: string := "/create-listing"

  /** One `NavLink` as rendered for the current location: highlighted when the pathname is its
      target, with a badge when `badgeCount > 0` (an absent count shows none). */
  datatype LinkView = LinkView(active: bool, badge: Option<int>)

  function NavLink(to: string, pathname: string, badgeCount: Option<int>): (v: LinkView)
    ensures v.active <==> pathname == to
    ensures v.badge.Some? <==> badgeCount.Some? && badgeCount.value > 0
    ensures v.badge.Some? ==> v.badge == badgeCount
  {
    LinkView(pathname == to, if badgeCount.Some? && badgeCount.value > 0 then badgeCount else None)
  }

  /** The link targets in order, with their badge counts: home and listings for everyone, the
      watchlist (badge 1) and create-listing links only when `user?.access` is set. */
  function NavItems(access: Option<string>): (items: seq<(string, Option<int>)>)
    ensures |items| == (if Truthy(access) then 4 else 2)
    ensures items[0] == (HomePath, None) && items[1] == (ListingsPath, None)
    ensures (exists i :: 0 <= i < |items| && items[i].0 == WatchlistPath) <==> Truthy(access)
    ensures (exists i :: 0 <= i < |items| && items[i].0 == CreateListingPath) <==> Truthy(access)
  {
    var everyone := [(HomePath, None), (ListingsPath, None)];
    if Truthy(access) then
      var items := everyone + [(WatchlistPath, Some(1)), (CreateListingPath, None)];
      assert items[2].0 == WatchlistPath && items[3].0 == CreateListingPath;
      items
    else everyone
  }

  /** At most one link is highlighted, since the targets are all different. */
  lemma {:induction false} AtMostOneActive(access: Option<string>, pathname: string, i: int, j: int)
    requires 0 <= i < |NavItems(access)| && 0 <= j < |NavItems(access)|
    requires NavLink(NavItems(access)[i].0, pathname, NavItems(access)[i].1).active
    requires NavLink(NavItems(access)[j].0, pathname, NavItems(access)[j].1).active
    ensures i == j
  {
    var items := NavItems(access);
    assert items[i].0 == pathname && items[j].0 == pathname;
    if Truthy(access) {
      assert items == [(HomePath, None), (ListingsPath, None), (WatchlistPath, Some(1)), (CreateListingPath, None)];
    }
  }

  /** The `isMenuOpen` state. */
  class Menu {
    var isMenuOpen: bool

    constructor ()
      ensures !isMenuOpen
    {
      isMenuOpen := false;
    }

    method ToggleMenu()
      modifies this
      ensures isMenuOpen == !old(isMenuOpen)
    {
      isMenuOpen := !isMenuOpen;
    }

    /** `closeMenu`, also run by every link's click. */
    method CloseMenu()
      modifies this
      ensures !isMenuOpen
    {
      isMenuOpen := false;
    }

    /** The effect on a location change: an open menu is closed. The result reports whether
        `closeMenu` ran. */
    method OnLocationChange() returns (closed: bool)
      modifies this
      ensures closed == old(isMenuOpen)
      ensures !isMenuOpen
    {
      closed := isMenuOpen;
      if isMenuOpen {
        CloseMenu();
      }
    }
  }

  /** The header's `WebsiteNotifications`, which keeps a list of its own. */
  class WebsiteNotifications {
    var notifications: seq<Notifications.Notification>

    constructor (initial: seq<Notifications.Notification>)
      ensures notifications == initial
    {
      notifications := initial;
    }

    method DismissNotification(id: int)
      modifies this
      ensures notifications == Notifications.Dismiss(old(notifications), id)
    {
      notifications := Notifications.Dismiss(notifications, id);
    }

    method ClearAll()
      modifies this
      ensures notifications == [] && ShowsEmptyText()
    {
      notifications := [];
    }

    /** The red count badge and the empty-state text exclude each other. */
    function Badge(): (b: Option<int>)
      reads this
      ensures b.Some? <==> |notifications| > 0
      ensures b.Some? ==> b.value == |notifications|
    {
      if |notifications| > 0 then Some(|notifications|) else None
    }

    /** `No new notifications` is shown exactly when there is no badge. */
    predicate ShowsEmptyText()
      reads this
      ensures ShowsEmptyText() <==> Badge().None?
    {
      notifications == []
    }
  }
}
