/** The admin page of the JavaScript client (frontend/src/pages/AdminPage.js): which list each tab
    fetches, and the pending list after an approve or a reject. */
module AdminPage {
  import opened Wrappers
  import opened Seqs
  import opened Accounts
  import opened Models
  import opened Serializers
  import opened ApiClient
  import opened LegacySessionContext
  import Views

  /** The route each tab fetches; other tab values fetch nothing. */
  function TabRoute(tab: int): Option<string>
  {
    if tab == 0 then Some("bookings/?status=pending")
    else if tab == 1 then Some("users/")
    else if tab == 2 then Some("rooms/")
    else None
  }

  /** The query parameters of the first tab's route. The list view reads no query parameter, so
      any query, this one included, gives the same list. */
  const PendingTabQuery: map<string, string> := map["status" := "pending"]

  /** The server reads no status parameter: for an admin the first tab's request returns the whole
      unfiltered booking list, so every booking appears in it, pending or not. */
  lemma PendingTabListsEveryStatus(rows: map<nat, Booking>, nextId: nat, admin: Views.Requester, id: nat)
    requires Views.IdsBelow(rows, nextId) && admin.authenticated && admin.role == Admin && id in rows
    ensures Views.ListBookings(rows, nextId, admin, PendingTabQuery) == Views.ListBookings(rows, nextId, admin, map[])
    ensures forall q :: Views.ListBookings(rows, nextId, admin, q) == Views.ListBookings(rows, nextId, admin, PendingTabQuery)
    ensures Views.ListBookings(rows, nextId, admin, PendingTabQuery).Ok?
    ensures rows[id] in Views.ListBookings(rows, nextId, admin, PendingTabQuery).value
    ensures rows[id].status != Pending ==>
      exists b :: b in Views.ListBookings(rows, nextId, admin, PendingTabQuery).value && b.status != Pending
  {
    assert rows[id].id == id;
  }

  /** The list without the booking of that id, the others kept in order. */
  function WithoutBooking(bookings: seq<Representation>, id: nat): seq<Representation>
  {
    Filter(bookings, (b: Representation) => b.id != id)
  }

  /** After removal no booking of that id is left, every other booking is kept in order, an id not
      in the list changes nothing, and removing twice is removing once. */
  lemma WithoutBookingSpec(bookings: seq<Representation>, id: nat)
    ensures forall b :: b in WithoutBooking(bookings, id) <==> b in bookings && b.id != id
    ensures IsSubsequence(WithoutBooking(bookings, id), bookings)
    ensures (forall b :: b in bookings ==> b.id != id) ==> WithoutBooking(bookings, id) == bookings
    ensures WithoutBooking(WithoutBooking(bookings, id), id) == WithoutBooking(bookings, id)
    ensures forall b :: multiset(WithoutBooking(bookings, id))[b] == if b.id != id then multiset(bookings)[b] else 0
  {
    forall b {
      FilterCount(bookings, (b: Representation) => b.id != id, b);
    }
    FilterIsSubsequence(bookings, (b: Representation) => b.id != id);
    if forall b :: b in bookings ==> b.id != id {
      FilterAll(bookings, (b: Representation) => b.id != id);
    }
    FilterIdempotent(bookings, (b: Representation) => b.id != id);
  }

  /** The page's state: the selected tab and the three lists it shows. */
  class AdminPageState {
    var tab: int
    var pendingBookings: seq<Representation>
    var users: seq<User>
    var rooms: seq<Room>

    /** The first render: the bookings tab, nothing fetched yet. */
    constructor ()
      ensures tab == 0 && pendingBookings == [] && users == [] && rooms == []
    {
      tab := 0;
      pendingBookings := [];
      users := [];
      rooms := [];
    }

    /** The tab effect, run after mount and again whenever the tab changes. Each result argument is
        what that tab's request would produce; only the current tab's request is made, and a
        failure leaves the lists alone. */
    method FetchTab(bookingsRes: Result<seq<Representation>, AxiosError>,
                    usersRes: Result<seq<User>, AxiosError>, roomsRes: Result<seq<Room>, AxiosError>)
      returns (requested: Option<string>)
      modifies this`pendingBookings, this`users, this`rooms
      ensures requested == TabRoute(tab)
      ensures pendingBookings == if tab == 0 && bookingsRes.Ok? then bookingsRes.value else old(pendingBookings)
      ensures users == if tab == 1 && usersRes.Ok? then usersRes.value else old(users)
      ensures rooms == if tab == 2 && roomsRes.Ok? then roomsRes.value else old(rooms)
    {
      requested := TabRoute(tab);
      if tab == 0 {
        if bookingsRes.Ok? {
          pendingBookings := bookingsRes.value;
        }
      } else if tab == 1 {
        if usersRes.Ok? {
          users := usersRes.value;
        }
      } else if tab == 2 {
        if roomsRes.Ok? {
          rooms := roomsRes.value;
        }
      }
    }

    /** Choosing a tab: the effect depends on the tab alone, so choosing the tab already shown
        requests nothing and changes nothing; choosing another one runs the effect for it. */
    method SelectTab(newTab: int, bookingsRes: Result<seq<Representation>, AxiosError>,
                     usersRes: Result<seq<User>, AxiosError>, roomsRes: Result<seq<Room>, AxiosError>)
      returns (requested: Option<string>)
      modifies this
      ensures tab == newTab
      ensures newTab == old(tab) ==>
        requested.None? && pendingBookings == old(pendingBookings) && users == old(users) && rooms == old(rooms)
      ensures newTab != old(tab) ==>
        && requested == TabRoute(newTab)
        && pendingBookings == (if newTab == 0 && bookingsRes.Ok? then bookingsRes.value else old(pendingBookings))
        && users == (if newTab == 1 && usersRes.Ok? then usersRes.value else old(users))
        && rooms == (if newTab == 2 && roomsRes.Ok? then roomsRes.value else old(rooms))
    {
      if newTab == tab {
        return None;
      }
      tab := newTab;
      requested := FetchTab(bookingsRes, usersRes, roomsRes);
    }

    /** handleApprove: outcome is what POST bookings/<id>/approve/ produced; on success the booking
        leaves the pending list, on failure the list stays. */
    method HandleApprove(id: nat, outcome: Result<(), AxiosError>) returns (sent: AxiosCall, r: Result<(), AxiosError>)
      modifies this`pendingBookings
      ensures sent == AxiosCall("POST", BookingActionRoute(id, ApproveAction), None) && r == outcome
      ensures outcome.Err? ==> pendingBookings == old(pendingBookings)
      ensures outcome.Ok? ==> pendingBookings == WithoutBooking(old(pendingBookings), id)
    {
      sent := AxiosCall("POST", BookingActionRoute(id, ApproveAction), None);
      r := outcome;
      if outcome.Ok? {
        pendingBookings := WithoutBooking(pendingBookings, id);
      }
    }

    /** handleReject: as handleApprove, with the reject route. */
    method HandleReject(id: nat, outcome: Result<(), AxiosError>) returns (sent: AxiosCall, r: Result<(), AxiosError>)
      modifies this`pendingBookings
      ensures sent == AxiosCall("POST", BookingActionRoute(id, RejectAction), None) && r == outcome
      ensures outcome.Err? ==> pendingBookings == old(pendingBookings)
      ensures outcome.Ok? ==> pendingBookings == WithoutBooking(old(pendingBookings), id)
    {
      sent := AxiosCall("POST", BookingActionRoute(id, RejectAction), None);
      r := outcome;
      if outcome.Ok? {
        pendingBookings := WithoutBooking(pendingBookings, id);
      }
    }
  }
}
