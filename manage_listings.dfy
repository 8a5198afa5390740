/** The listings table of the admin dashboard (src/pages/AdminDashboard/ManageListings.jsx):
    the status and title filter over `recentAuctions`, and the per-row badge and action label. */
module ManageListings {

  import opened Common
  import AdminDashboard

  const AllStatus: string := "all"

  /** `(statusFilter === 'all' || auction.status === statusFilter) &&
      auction.title.toLowerCase().includes(searchTerm.toLowerCase())`. */
  predicate Shown(statusFilter: string, searchTerm: string, a: AdminDashboard.Auction)
  {
    (statusFilter == AllStatus || a.status == statusFilter) && Contains(Lower(a.title), Lower(searchTerm))
  }

  /** The rows of the table, in the order of `recentAuctions`. */
  function ShownAuctions(auctions: seq<AdminDashboard.Auction>, statusFilter: string, searchTerm: string)
    : (r: seq<AdminDashboard.Auction>)
    ensures IsSubsequence(r, auctions)
    ensures forall a :: a in r <==> a in auctions && Shown(statusFilter, searchTerm, a)
  {
    FilterIsSubsequence(auctions, a => Shown(statusFilter, searchTerm, a));
    Filter(auctions, a => Shown(statusFilter, searchTerm, a))
  }

  /** With `all` and an empty search every auction is listed. */
  lemma {:induction false} DefaultShowsAll(auctions: seq<AdminDashboard.Auction>)
    ensures ShownAuctions(auctions, AllStatus, "") == auctions
  {
    forall a | a in auctions
      ensures Shown(AllStatus, "", a)
    {
      ContainsEmpty(Lower(a.title));
    }
    FilterAll(auctions, a => Shown(AllStatus, "", a));
  }

  /** A status filter no auction has empties the table. */
  lemma {:induction false} UnknownStatusShowsNone(auctions: seq<AdminDashboard.Auction>, statusFilter: string,
                                                  searchTerm: string)
    requires statusFilter != AllStatus
    requires forall a :: a in auctions ==> a.status != statusFilter
    ensures ShownAuctions(auctions, statusFilter, searchTerm) == []
  {
    FilterNone(auctions, a => Shown(statusFilter, searchTerm, a));
  }

  datatype Badge = Green | Gray | Yellow

  /** `active` is green, `ended` gray, anything else yellow. */
  function StatusBadge(status: string): (b: Badge)
    ensures b == Green <==> status == AdminDashboard.ActiveStatus
    ensures b == Gray <==> status == "ended"
  {
    if status == AdminDashboard.ActiveStatus then Green else if status == "ended" then Gray else Yellow
  }

  /** The menu entry that ends an active auction or activates any other. */
  function ActionLabel(status: string): (text: string)
    ensures text == "End Auction" <==> status == AdminDashboard.ActiveStatus
    ensures text == "Activate Auction" <==> status != AdminDashboard.ActiveStatus
  {
    if status == AdminDashboard.ActiveStatus then "End Auction" else "Activate Auction"
  }
}
