/** The admin dashboard (src/pages/AdminDashboard/AdminDashboard.jsx): the dashboard data with
    its counters and lists, the selected row, and deleting the selected auction or user. */
module AdminDashboard {

  import opened Common

  const ActiveStatus: string := "active"
  const AuctionType: string := "auction"
  const UserType: string := "user"

  /** A row of `recentAuctions`. */
  datatype Auction = Auction(id: int, title: string, currentBid: int, bids: int, endTime: string, status: string)

  /** A row of `users`. */
  datatype DashUser = DashUser(id: int, name: string, email: string, joined: string, status: string)

  /** The row handed to `handleEditItem`/`handleDeleteConfirm`. */
  datatype Item = AuctionRow(auction: Auction) | UserRow(user: DashUser)

  function ItemId(item: Item): int
  {
    match item
    case AuctionRow(a) => a.id
    case UserRow(u) => u.id
  }

  function ItemStatus(item: Item): string
  {
    match item
    case AuctionRow(a) => a.status
    case UserRow(u) => u.status
  }

  /** `{ ...item, type }`. */
  datatype Selection = Selection(item: Item, kind: string)

  predicate KeepsAuction(id: int, a: Auction)
  {
    a.id != id
  }

  predicate KeepsUser(id: int, u: DashUser)
  {
    u.id != id
  }

  /** The auctions other than those with the given id, in order. */
  function WithoutAuction(auctions: seq<Auction>, id: int): (r: seq<Auction>)
    ensures IsSubsequence(r, auctions)
    ensures forall a :: a in r <==> a in auctions && a.id != id
  {
    FilterIsSubsequence(auctions, a => KeepsAuction(id, a));
    Filter(auctions, a => KeepsAuction(id, a))
  }

  function WithoutUser(users: seq<DashUser>, id: int): (r: seq<DashUser>)
    ensures IsSubsequence(r, users)
    ensures forall u :: u in r <==> u in users && u.id != id
  {
    FilterIsSubsequence(users, u => KeepsUser(id, u));
    Filter(users, u => KeepsUser(id, u))
  }

  /** How many auctions carry the id. */
  function AuctionCount(auctions: seq<Auction>, id: int): nat
  {
    if auctions == [] then 0
    else (if auctions[0].id == id then 1 else 0) + AuctionCount(auctions[1..], id)
  }

  /** The list loses exactly as many rows as carry the deleted id, so the counter decrement
      of one matches the list exactly when that id is unique. */
  lemma {:induction false} WithoutAuctionLength(auctions: seq<Auction>, id: int)
    ensures |WithoutAuction(auctions, id)| == |auctions| - AuctionCount(auctions, id)
  {
    if auctions != [] {
      WithoutAuctionLength(auctions[1..], id);
      assert auctions == [auctions[0]] + auctions[1..];
      assert WithoutAuction(auctions, id) ==
             (if auctions[0].id != id then [auctions[0]] else []) + WithoutAuction(auctions[1..], id);
    }
  }

  /** The dashboard's state: `dashboardData` (the revenue figure and the transactions table are
      never updated and are not modelled) and `selectedItem`. */
  class Dashboard {
    var totalAuctions: int
    var activeAuctions: int
    var totalUsers: int
    var recentAuctions: seq<Auction>
    var users: seq<DashUser>
    var selected: Option<Selection>

    /** The initial counters, with the rows the page starts from. */
    constructor (auctions: seq<Auction>, people: seq<DashUser>)
      ensures totalAuctions == 124 && activeAuctions == 42 && totalUsers == 567
      ensures recentAuctions == auctions && users == people && selected.None?
    {
      totalAuctions, activeAuctions, totalUsers := 124, 42, 567;
      recentAuctions := auctions;
      users := people;
      selected := None;
    }

    /** `handleEditItem` and `handleDeleteConfirm` do the same thing: select the row with its
        type. */
    method SelectItem(item: Item, kind: string)
      modifies this`selected
      ensures selected == Some(Selection(item, kind))
    {
      selected := Some(Selection(item, kind));
    }

    /** `deleteItem`. */
    method DeleteItem()
      modifies this
      ensures old(selected).None? ==>
                selected.None? && totalAuctions == old(totalAuctions) && activeAuctions == old(activeAuctions) &&
                totalUsers == old(totalUsers) && recentAuctions == old(recentAuctions) && users == old(users)
      ensures old(selected).Some? ==> selected.None?
      ensures old(selected).Some? && old(selected).value.kind == AuctionType ==>
                var s := old(selected).value;
                recentAuctions == WithoutAuction(old(recentAuctions), ItemId(s.item)) &&
                totalAuctions == old(totalAuctions) - 1 &&
                activeAuctions == old(activeAuctions) - (if ItemStatus(s.item) == ActiveStatus then 1 else 0) &&
                users == old(users) && totalUsers == old(totalUsers)
      ensures old(selected).Some? && old(selected).value.kind == UserType ==>
                users == WithoutUser(old(users), ItemId(old(selected).value.item)) &&
                totalUsers == old(totalUsers) - 1 &&
                recentAuctions == old(recentAuctions) && totalAuctions == old(totalAuctions) &&
                activeAuctions == old(activeAuctions)
      ensures old(selected).Some? && old(selected).value.kind != AuctionType && old(selected).value.kind != UserType ==>
                totalAuctions == old(totalAuctions) && activeAuctions == old(activeAuctions) &&
                totalUsers == old(totalUsers) && recentAuctions == old(recentAuctions) && users == old(users)
    {
      if selected.None? {
        return;
      }
      var s := selected.value;
      var id := ItemId(s.item);
      if s.kind == AuctionType {
        recentAuctions := WithoutAuction(recentAuctions, id);
        totalAuctions := totalAuctions - 1;
        if ItemStatus(s.item) == ActiveStatus {
          activeAuctions := activeAuctions - 1;
        }
      } else if s.kind == UserType {
        users := WithoutUser(users, id);
        totalUsers := totalUsers - 1;
      }
      selected := None;
    }
  }

  /** Deleting an auction whose id is unique in the list removes exactly one row. */
  lemma UniqueAuctionRemovesOne(auctions: seq<Auction>, id: int)
    requires AuctionCount(auctions, id) == 1
    ensures |WithoutAuction(auctions, id)| == |auctions| - 1
  {
    WithoutAuctionLength(auctions, id);
  }
}
