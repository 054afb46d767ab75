/** The booking API's views (backend/booking/views.py): permissions, querysets, and the booking
    table with its create, update, approve, reject and cancel actions. */
module Views {
  import opened Wrappers
  import opened Seqs
  import opened Accounts
  import opened Models
  import opened Serializers

  datatype HttpMethod = Get | Head | Options | Post | Put | Patch | Delete

  /** The user behind a request. An anonymous request has authenticated == false; is_staff and
      is_superuser are the account's flags, independent of its role. */
  datatype Requester = Requester(authenticated: bool, id: nat, role: Role, isStaff: bool, isSuperuser: bool)

  predicate IsSafeMethod(m: HttpMethod)
  {
    m == Get || m == Head || m == Options
  }

  /** IsAdminUserOrReadOnly, the permission of the building and room views. */
  predicate HasPermission(m: HttpMethod, user: Requester)
  {
    if IsSafeMethod(m) then true else user.authenticated && user.isSuperuser
  }

  /** Reads are open to everyone; every other method needs an authenticated superuser, and the
      admin role alone does not grant it. */
  lemma PermissionRule(m: HttpMethod, user: Requester)
    ensures IsSafeMethod(m) ==> HasPermission(m, user)
    ensures !IsSafeMethod(m) ==> (HasPermission(m, user) <==> user.authenticated && user.isSuperuser)
    ensures !IsSafeMethod(m) && !user.isSuperuser && user.role == Admin ==> !HasPermission(m, user)
  {
  }

  /** The room list, narrowed to one building when a building_id parameter is given (None stands for
      an absent or empty parameter). */
  function RoomQueryset(rooms: seq<Room>, buildingId: Option<nat>): seq<Room>
  {
    match buildingId
    case None => rooms
    case Some(b) => Filter(rooms, (r: Room) => r.building == b)
  }

  /** Without the parameter every room is listed; with it, exactly the rooms of that building, in
      table order. */
  lemma RoomQuerysetSpec(rooms: seq<Room>, buildingId: Option<nat>)
    ensures buildingId.None? ==> RoomQueryset(rooms, buildingId) == rooms
    ensures buildingId.Some? ==>
      (forall r :: r in RoomQueryset(rooms, buildingId) <==> r in rooms && r.building == buildingId.value)
    ensures IsSubsequence(RoomQueryset(rooms, buildingId), rooms)
  {
    match buildingId
    case None =>
      FilterAll(rooms, (r: Room) => true);
      FilterIsSubsequence(rooms, (r: Room) => true);
    case Some(b) =>
      FilterIsSubsequence(rooms, (r: Room) => r.building == b);
  }

  /** The bookings a user may see: all of them for the admin role, otherwise the user's own. */
  function VisibleBookings(rows: map<nat, Booking>, user: Requester): map<nat, Booking>
  {
    if user.role == Admin then rows
    else map id | id in rows && rows[id].user == user.id :: rows[id]
  }

  /** An admin sees every row; anybody else sees exactly the rows whose owner they are, unchanged. */
  lemma VisibleBookingsSpec(rows: map<nat, Booking>, user: Requester)
    ensures user.role == Admin ==> VisibleBookings(rows, user) == rows
    ensures user.role != Admin ==>
      forall id :: id in VisibleBookings(rows, user) <==> id in rows && rows[id].user == user.id
    ensures forall id :: id in VisibleBookings(rows, user) ==> VisibleBookings(rows, user)[id] == rows[id]
  {
  }

  /** get_object: a booking is found only inside the requester's queryset. */
  function Lookup(rows: map<nat, Booking>, user: Requester, id: nat): (r: Option<Booking>)
    ensures r.Some? <==> id in rows && (user.role == Admin || rows[id].user == user.id)
    ensures r.Some? ==> r.value == rows[id]
  {
    var visible := VisibleBookings(rows, user);
    if id in visible then Some(visible[id]) else None
  }

  /** Whatever get_object finds belongs to the requester or the requester is an admin, so the
      cancel action's owner-or-admin refusal never fires: a stranger's cancel ends in 404, not 403. */
  lemma CancelRefusalUnreachable(rows: map<nat, Booking>, user: Requester, id: nat)
    requires Lookup(rows, user, id).Some?
    ensures Lookup(rows, user, id).value.user == user.id || user.role == Admin
  {
  }

  /** The refusals a booking action can end in: 401, 403, 404 and 400 respectively. */
  datatype ApiError = NotAuthenticated | Forbidden | NotFound | Invalid(reason: ValidationError)

  /** Every row is stored under its own id, and every id lies below the next id to hand out. */
  predicate IdsBelow(rows: map<nat, Booking>, nextId: nat)
  {
    forall id :: id in rows ==> rows[id].id == id && id < nextId
  }

  /** The rows whose ids lie below n, in ascending id order. */
  function RowsBelow(rows: map<nat, Booking>, n: nat): seq<Booking>
  {
    if n == 0 then [] else RowsBelow(rows, n - 1) + (if n - 1 in rows then [rows[n - 1]] else [])
  }

  /** RowsBelow holds exactly the rows with ids below n, each once, in ascending id order. */
  lemma {:induction false} RowsBelowSpec(rows: map<nat, Booking>, n: nat)
    requires forall id :: id in rows ==> rows[id].id == id
    ensures forall b :: b in RowsBelow(rows, n) <==> b.id < n && b.id in rows && rows[b.id] == b
    ensures forall i, j :: 0 <= i < j < |RowsBelow(rows, n)| ==> RowsBelow(rows, n)[i].id < RowsBelow(rows, n)[j].id
  {
    if n > 0 {
      RowsBelowSpec(rows, n - 1);
      var prefix := RowsBelow(rows, n - 1);
      assert forall i :: 0 <= i < |prefix| ==> prefix[i] in prefix;
    }
  }

  /** The requester's queryset in the default start-time ordering: each visible row exactly once. */
  function OrderedVisible(rows: map<nat, Booking>, nextId: nat, user: Requester): (r: seq<Booking>)
    requires IdsBelow(rows, nextId)
    ensures SortedByStart(r) && DistinctIds(r)
    ensures forall b :: b in r <==> b.id in rows && rows[b.id] == b && (user.role == Admin || b.user == user.id)
  {
    var visible := VisibleBookings(rows, user);
    var unordered := RowsBelow(visible, nextId);
    RowsBelowSpec(visible, nextId);
    assert DistinctIds(unordered);
    OrderByStartSorted(unordered);
    OrderByStartDistinct(unordered);
    assert forall b :: b in OrderByStart(unordered) <==> b in multiset(unordered);
    OrderByStart(unordered)
  }

  /** The list action: 401 for an anonymous requester, otherwise the requester's queryset in the
      default start-time ordering. Query parameters are accepted and ignored, since the view filters
      on nothing but the requester. */
  function ListBookings(rows: map<nat, Booking>, nextId: nat, user: Requester, query: map<string, string>): (r: Result<seq<Booking>, ApiError>)
    requires IdsBelow(rows, nextId)
    ensures !user.authenticated <==> r == Err(NotAuthenticated)
    ensures r.Ok? <==> user.authenticated
    ensures r.Ok? ==> SortedByStart(r.value) && DistinctIds(r.value)
    ensures r.Ok? ==>
      forall b :: b in r.value <==> b.id in rows && rows[b.id] == b && (user.role == Admin || b.user == user.id)
  {
    if !user.authenticated then Err(NotAuthenticated) else Ok(OrderedVisible(rows, nextId, user))
  }

  /** No two bookings of one room overlap, whatever their statuses. */
  ghost predicate NoDoubleBooking(rows: map<nat, Booking>)
  {
    forall i, j :: i in rows && j in rows && i != j && rows[i].room == rows[j].room ==>
      rows[i].endTime <= rows[j].startTime || rows[j].endTime <= rows[i].startTime
  }

  /** The table's invariant: rows are keyed by their own id, ids lie below the next id to hand out,
      every interval is non-empty, and no two bookings of one room overlap. */
  ghost predicate WellFormed(rows: map<nat, Booking>, nextId: nat)
  {
    && IdsBelow(rows, nextId)
    && (forall id :: id in rows ==> rows[id].startTime < rows[id].endTime)
    && NoDoubleBooking(rows)
  }

  /** Storing a row that the serializer admitted, under a fresh id, keeps the table well formed. */
  lemma {:induction false} AdmittedInsertKeepsWellFormed(rows: map<nat, Booking>, nextId: nat, d: BookingInput, b: Booking)
    requires WellFormed(rows, nextId)
    requires Validate(d, rows, None) == Ok(d)
    requires b.id == nextId && b.room == d.room && b.startTime == d.startTime && b.endTime == d.endTime
    ensures WellFormed(rows[nextId := b], nextId + 1)
  {
    var rows' := rows[nextId := b];
    forall i, j | i in rows' && j in rows' && i != j && rows'[i].room == rows'[j].room
      ensures rows'[i].endTime <= rows'[j].startTime || rows'[j].endTime <= rows'[i].startTime
    {
      if i == nextId {
        assert !Blocks(rows, d, None, j);
      } else if j == nextId {
        assert !Blocks(rows, d, None, i);
      }
    }
  }

  /** Replacing a row's writable fields with data the serializer admitted for that row keeps the
      table well formed. */
  lemma {:induction false} AdmittedUpdateKeepsWellFormed(rows: map<nat, Booking>, nextId: nat, id: nat, d: BookingInput, b: Booking)
    requires WellFormed(rows, nextId) && id in rows
    requires Validate(d, rows, Some(id)) == Ok(d)
    requires b.id == id && b.room == d.room && b.startTime == d.startTime && b.endTime == d.endTime
    ensures WellFormed(rows[id := b], nextId)
  {
    var rows' := rows[id := b];
    forall i, j | i in rows' && j in rows' && i != j && rows'[i].room == rows'[j].room
      ensures rows'[i].endTime <= rows'[j].startTime || rows'[j].endTime <= rows'[i].startTime
    {
      if i == id {
        assert !Blocks(rows, d, Some(id), j);
      } else if j == id {
        assert !Blocks(rows, d, Some(id), i);
      }
    }
  }

  /** Changing the status of a row (and saving it) keeps the table well formed. */
  lemma {:induction false} StatusChangeKeepsWellFormed(rows: map<nat, Booking>, nextId: nat, id: nat, st: Status, now: int)
    requires WellFormed(rows, nextId) && id in rows
    ensures WellFormed(rows[id := Saved(rows[id].(status := st), now)], nextId)
  {
    var rows' := rows[id := Saved(rows[id].(status := st), now)];
    forall i, j | i in rows' && j in rows' && i != j && rows'[i].room == rows'[j].room
      ensures rows'[i].endTime <= rows'[j].startTime || rows'[j].endTime <= rows'[i].startTime
    {
      assert rows[i].room == rows[j].room;
    }
  }

  /** The booking table behind BookingViewSet: rows by id and the next id the database hands out. */
  class BookingTable {
    var rows: map<nat, Booking>
    var nextId: nat

    ghost predicate Valid()
      reads this
    {
      WellFormed(rows, nextId)
    }

    constructor ()
      ensures Valid() && rows == map[] && nextId == 1
    {
      rows := map[];
      nextId := 1;
    }

    /** GET /bookings/ with the given query parameters. */
    function List(user: Requester, query: map<string, string>): (r: Result<seq<Booking>, ApiError>)
      reads this
      requires Valid()
      ensures !user.authenticated ==> r == Err(NotAuthenticated)
      ensures r.Ok? <==> user.authenticated
      ensures r.Ok? ==> SortedByStart(r.value) && DistinctIds(r.value)
      ensures r.Ok? ==> forall b :: b in r.value <==> b in rows.Values && (user.role == Admin || b.user == user.id)
    {
      ListBookings(rows, nextId, user, query)
    }

    /** POST /bookings/: validate, then perform_create, which sets the owner to the requester; the
        status takes its default. Read-only fields of the payload are ignored. */
    method Create(user: Requester, payload: ClientPayload, now: int) returns (r: Result<Booking, ApiError>)
      requires Valid()
      modifies this
      ensures Valid()
      ensures !user.authenticated ==> r == Err(NotAuthenticated)
      ensures user.authenticated ==>
        match Validate(WritableFields(payload), old(rows), None)
        case Err(e) => r == Err(Invalid(e))
        case Ok(_) => r.Ok?
      ensures r.Ok? ==>
        && r.value.id !in old(rows)
        && r.value.user == user.id
        && r.value.status == Pending
        && r.value.room == payload.room && r.value.startTime == payload.startTime
        && r.value.endTime == payload.endTime && r.value.purpose == payload.purpose
        && r.value.createdAt == now && r.value.updatedAt == now
        && rows == old(rows)[r.value.id := r.value]
      ensures r.Err? ==> rows == old(rows)
    {
      if !user.authenticated {
        return Err(NotAuthenticated);
      }
      var data := WritableFields(payload);
      var verdict := Validate(data, rows, None);
      if verdict.Err? {
        return Err(Invalid(verdict.error));
      }
      var b := NewBooking(nextId, data.room, user.id, data.startTime, data.endTime, data.purpose, now);
      AdmittedInsertKeepsWellFormed(rows, nextId, data, b);
      rows := rows[nextId := b];
      nextId := nextId + 1;
      r := Ok(b);
    }

    /** PUT /bookings/<id>/: the row must be in the requester's queryset; the new data is validated
        with the row itself left out of the overlap check; owner, status and created_at are kept. */
    method Update(user: Requester, id: nat, payload: ClientPayload, now: int) returns (r: Result<Booking, ApiError>)
      requires Valid()
      modifies this
      ensures Valid() && nextId == old(nextId)
      ensures !user.authenticated ==> r == Err(NotAuthenticated)
      ensures user.authenticated && Lookup(old(rows), user, id).None? ==> r == Err(NotFound)
      ensures user.authenticated && Lookup(old(rows), user, id).Some? ==>
        match Validate(WritableFields(payload), old(rows), Some(id))
        case Err(e) => r == Err(Invalid(e))
        case Ok(d) =>
          r == Ok(old(rows)[id].(room := d.room, startTime := d.startTime, endTime := d.endTime,
                                 purpose := d.purpose, updatedAt := now))
      ensures r.Ok? ==> rows == old(rows)[id := r.value]
      ensures r.Err? ==> rows == old(rows)
    {
      if !user.authenticated {
        return Err(NotAuthenticated);
      }
      var found := Lookup(rows, user, id);
      if found.None? {
        return Err(NotFound);
      }
      var data := WritableFields(payload);
      var verdict := Validate(data, rows, Some(id));
      if verdict.Err? {
        return Err(Invalid(verdict.error));
      }
      var b := Saved(found.value.(room := data.room, startTime := data.startTime,
                                  endTime := data.endTime, purpose := data.purpose), now);
      AdmittedUpdateKeepsWellFormed(rows, nextId, id, data, b);
      rows := rows[id := b];
      r := Ok(b);
    }

    /** Sets the found row's status to st and saves it. */
    method SetStatus(id: nat, st: Status, now: int)
      requires Valid() && id in rows
      modifies this
      ensures Valid() && nextId == old(nextId)
      ensures rows == old(rows)[id := Saved(old(rows)[id].(status := st), now)]
    {
      StatusChangeKeepsWellFormed(rows, nextId, id, st, now);
      var b := rows[id];
      b := b.(status := st);
      rows := rows[id := Saved(b, now)];
    }

    /** POST /bookings/<id>/approve/: staff only (is_staff, not the role); the row must be in the
        requester's queryset; its status becomes approved whatever it was. */
    method Approve(user: Requester, id: nat, now: int) returns (r: Result<Status, ApiError>)
      requires Valid()
      modifies this
      ensures Valid() && nextId == old(nextId)
      ensures !user.authenticated ==> r == Err(NotAuthenticated)
      ensures user.authenticated && !user.isStaff ==> r == Err(Forbidden)
      ensures user.authenticated && user.isStaff && Lookup(old(rows), user, id).None? ==> r == Err(NotFound)
      ensures user.authenticated && user.isStaff && Lookup(old(rows), user, id).Some? ==> r == Ok(Approved)
      ensures r.Ok? ==> rows == old(rows)[id := Saved(old(rows)[id].(status := Approved), now)]
      ensures r.Err? ==> rows == old(rows)
    {
      if !user.authenticated {
        return Err(NotAuthenticated);
      }
      if !user.isStaff {
        return Err(Forbidden);
      }
      if Lookup(rows, user, id).None? {
        return Err(NotFound);
      }
      SetStatus(id, Approved, now);
      r := Ok(Approved);
    }

    /** POST /bookings/<id>/reject/: as approve, with status rejected. */
    method Reject(user: Requester, id: nat, now: int) returns (r: Result<Status, ApiError>)
      requires Valid()
      modifies this
      ensures Valid() && nextId == old(nextId)
      ensures !user.authenticated ==> r == Err(NotAuthenticated)
      ensures user.authenticated && !user.isStaff ==> r == Err(Forbidden)
      ensures user.authenticated && user.isStaff && Lookup(old(rows), user, id).None? ==> r == Err(NotFound)
      ensures user.authenticated && user.isStaff && Lookup(old(rows), user, id).Some? ==> r == Ok(Rejected)
      ensures r.Ok? ==> rows == old(rows)[id := Saved(old(rows)[id].(status := Rejected), now)]
      ensures r.Err? ==> rows == old(rows)
    {
      if !user.authenticated {
        return Err(NotAuthenticated);
      }
      if !user.isStaff {
        return Err(Forbidden);
      }
      if Lookup(rows, user, id).None? {
        return Err(NotFound);
      }
      SetStatus(id, Rejected, now);
      r := Ok(Rejected);
    }

    /** POST /bookings/<id>/cancel/: any authenticated user; the row must be in the requester's
        queryset; refused with 403 unless the requester owns it or has the admin role; otherwise its
        status becomes canceled whatever it was. */
    method Cancel(user: Requester, id: nat, now: int) returns (r: Result<Status, ApiError>)
      requires Valid()
      modifies this
      ensures Valid() && nextId == old(nextId)
      ensures !user.authenticated ==> r == Err(NotAuthenticated)
      ensures user.authenticated && Lookup(old(rows), user, id).None? ==> r == Err(NotFound)
      ensures user.authenticated && Lookup(old(rows), user, id).Some? ==> r == Ok(Canceled)
      ensures r.Ok? ==> rows == old(rows)[id := Saved(old(rows)[id].(status := Canceled), now)]
      ensures r.Err? ==> rows == old(rows)
    {
      if !user.authenticated {
        return Err(NotAuthenticated);
      }
      var found := Lookup(rows, user, id);
      if found.None? {
        return Err(NotFound);
      }
      if found.value.user != user.id && user.role != Admin {
        return Err(Forbidden);
      }
      SetStatus(id, Canceled, now);
      r := Ok(Canceled);
    }
  }
}
