/** The notification panel (src/components/notifications.jsx, repeated as
    `WebsiteNotifications` in src/components/Header.jsx): a list of notifications that can be
    dismissed one id at a time or cleared at once. */
module Notifications {

  import opened Common

  datatype Notification = Notification(id: int, message: string, timestamp: string, kind: string)

  predicate Keeps(id: int, n: Notification)
  {
    n.id != id
  }

  /** `notifications.filter((notification) => notification.id !== id)`. */
  function Dismiss(ns: seq<Notification>, id: int): (r: seq<Notification>)
    ensures IsSubsequence(r, ns)
    ensures forall n :: n in r <==> n in ns && n.id != id
  {
    FilterIsSubsequence(ns, n => Keeps(id, n));
    Filter(ns, n => Keeps(id, n))
  }

  /** Dismissing an id that is not listed changes nothing. */
  lemma {:induction false} DismissAbsent(ns: seq<Notification>, id: int)
    requires forall n :: n in ns ==> n.id != id
    ensures Dismiss(ns, id) == ns
  {
    FilterAll(ns, n => Keeps(id, n));
  }

  /** Dismissing the same id again changes nothing, and dismissals commute. */
  lemma {:induction false} DismissTwice(ns: seq<Notification>, x: int, y: int)
    ensures Dismiss(Dismiss(ns, x), x) == Dismiss(ns, x)
    ensures Dismiss(Dismiss(ns, x), y) == Dismiss(Dismiss(ns, y), x)
  {
    DismissAbsent(Dismiss(ns, x), x);
    var both := (n: Notification) => n.id != x && n.id != y;
    FilterTwice(ns, n => Keeps(x, n), n => Keeps(y, n), both);
    FilterTwice(ns, n => Keeps(y, n), n => Keeps(x, n), both);
  }

  datatype Tone = Green | Yellow | Blue

  /** The card colour: green for `success`, yellow for `warning`, blue otherwise. */
  function ToneOf(kind: string): (t: Tone)
    ensures t == Green <==> kind == "success"
    ensures t == Yellow <==> kind == "warning"
  {
    if kind == "success" then Green else if kind == "warning" then Yellow else Blue
  }

  /** The component's `notifications` state. */
  class Panel {
    var notifications: seq<Notification>

    constructor (initial: seq<Notification>)
      ensures notifications == initial
    {
      notifications := initial;
    }

    /** The count badge: shown with the list's length when the list is not empty. */
    function Badge(): (b: Option<int>)
      reads this
      ensures b.Some? <==> |notifications| > 0
      ensures b.Some? ==> b.value == |notifications|
    {
      if |notifications| > 0 then Some(|notifications|) else None
    }

    /** `No new notifications` is shown exactly when there is no badge. */
    predicate ShowsEmptyText()
      reads this
      ensures ShowsEmptyText() <==> Badge().None?
    {
      |notifications| == 0
    }

    method DismissNotification(id: int)
      modifies this
      ensures notifications == Dismiss(old(notifications), id)
    {
      notifications := Dismiss(notifications, id);
    }

    /** `setNotifications([])`, offered while the list is not empty. */
    method ClearAll()
      modifies this
      ensures notifications == [] && ShowsEmptyText()
    {
      notifications := [];
    }
  }
}
