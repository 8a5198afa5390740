/** The users table of the admin dashboard (src/pages/AdminDashboard/ManageUsers.jsx): the
    status and name filter over `users`, and the per-row badge colour and action label. */
module ManageUsers {

  import opened Common
  import AdminDashboard

  const AllStatus: string := "all"

  /** `(statusFilter === 'all' || user.status === statusFilter) &&
      user.name.toLowerCase().includes(searchTerm.toLowerCase())`. */
  predicate Shown(statusFilter: string, searchTerm: string, u: AdminDashboard.DashUser)
  {
    (statusFilter == AllStatus || u.status == statusFilter) && Contains(Lower(u.name), Lower(searchTerm))
  }

  function ShownUsers(users: seq<AdminDashboard.DashUser>, statusFilter: string, searchTerm: string)
    : (r: seq<AdminDashboard.DashUser>)
    ensures IsSubsequence(r, users)
    ensures forall u :: u in r <==> u in users && Shown(statusFilter, searchTerm, u)
  {
    FilterIsSubsequence(users, u => Shown(statusFilter, searchTerm, u));
    Filter(users, u => Shown(statusFilter, searchTerm, u))
  }

  /** With `all` and an empty search every user is listed. */
  lemma {:induction false} DefaultShowsAll(users: seq<AdminDashboard.DashUser>)
    ensures ShownUsers(users, AllStatus, "") == users
  {
    forall u | u in users
      ensures Shown(AllStatus, "", u)
    {
      ContainsEmpty(Lower(u.name));
    }
    FilterAll(users, u => Shown(AllStatus, "", u));
  }

  /** A search differing only in letter case selects the same users. */
  lemma {:induction false} SearchIgnoresCase(users: seq<AdminDashboard.DashUser>, statusFilter: string,
                                             s: string, t: string)
    requires Lower(s) == Lower(t)
    ensures ShownUsers(users, statusFilter, s) == ShownUsers(users, statusFilter, t)
  {
    FilterSamePredicate(users, u => Shown(statusFilter, s, u), u => Shown(statusFilter, t, u));
  }

  datatype BadgeColour = Green | Yellow | Red

  function StatusBadge(status: string): (c: BadgeColour)
    ensures c == Green <==> status == AdminDashboard.ActiveStatus
    ensures c == Yellow <==> status == "pending"
    ensures c == Red <==> status != AdminDashboard.ActiveStatus && status != "pending"
  {
    if status == AdminDashboard.ActiveStatus then Green else if status == "pending" then Yellow else Red
  }

  function ActionLabel(status: string): (text: string)
    ensures text == "Suspend User" <==> status == AdminDashboard.ActiveStatus
    ensures text == "Activate User" <==> status != AdminDashboard.ActiveStatus
  {
    if status == AdminDashboard.ActiveStatus then "Suspend User" else "Activate User"
  }
}
