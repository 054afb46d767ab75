/** The dashboard of the TypeScript client (frontend/src/components/Dashboard.tsx): the tab bar and
    the content pane shown for the active tab. */
module Dashboard {
  import opened Wrappers
  import opened ApiClient

  datatype TabId = BuildingsTab | BookingsTab | AdminTab

  const InitialTab: TabId := BuildingsTab

  /** The tab bar: buildings, bookings, and for an admin the administration tab. */
  function Tabs(user: Option<User>): seq<TabId>
  {
    [BuildingsTab, BookingsTab] + (if IsAdmin(user) then [AdminTab] else [])
  }

  /** The content panes shown for the active tab; the admin pane needs the admin role as well. */
  function Panes(active: TabId, user: Option<User>): set<TabId>
  {
    (if active == BuildingsTab then {BuildingsTab} else {}) +
    (if active == BookingsTab then {BookingsTab} else {}) +
    (if active == AdminTab && IsAdmin(user) then {AdminTab} else {})
  }

  /** The tab bar always begins with buildings then bookings, offers the administration tab exactly
      to admins, and the initial tab is offered to everyone. */
  lemma TabsSpec(user: Option<User>)
    ensures Tabs(user)[..2] == [BuildingsTab, BookingsTab]
    ensures AdminTab in Tabs(user) <==> IsAdmin(user)
    ensures |Tabs(user)| == (if IsAdmin(user) then 3 else 2)
    ensures InitialTab in Tabs(user)
  {
  }

  /** At most one pane is shown; the admin pane exactly when its tab is active and the user is an
      admin; and a shown pane is always one whose tab the bar offers. */
  lemma PanesSpec(active: TabId, user: Option<User>)
    ensures |Panes(active, user)| <= 1
    ensures AdminTab in Panes(active, user) <==> active == AdminTab && IsAdmin(user)
    ensures active != AdminTab ==> Panes(active, user) == {active}
    ensures forall t :: t in Panes(active, user) ==> t in Tabs(user)
  {
  }
}
