/** Admission of a booking request (backend/booking/serializers.py, BookingSerializer). */
module Serializers {
  import opened Wrappers
  import opened Models

  /** What a client may send for a booking, read-only fields included. */
  datatype ClientPayload = ClientPayload(
    room: nat,
    startTime: int,
    endTime: int,
    purpose: string,
    user: Option<nat>,
    status: Option<Status>,
    createdAt: Option<int>,
    updatedAt: Option<int>)

  /** The validated data: only the writable fields of a booking. */
  datatype BookingInput = BookingInput(room: nat, startTime: int, endTime: int, purpose: string)

  /** Deserialisation keeps the writable fields; user, status, created_at and updated_at are read-only
      and whatever the client sends for them is dropped. */
  function WritableFields(p: ClientPayload): BookingInput
  {
    BookingInput(p.room, p.startTime, p.endTime, p.purpose)
  }

  /** Two payloads that differ only in read-only fields deserialise to the same data. */
  lemma ReadOnlyFieldsIgnored(p: ClientPayload, q: ClientPayload)
    requires p.room == q.room && p.startTime == q.startTime && p.endTime == q.endTime && p.purpose == q.purpose
    ensures WritableFields(p) == WritableFields(q)
  {
  }

  /** A booking as the serializer sends it out: the room is the nested room object, not its id. The
      nested user object is not part of this model. */
  datatype Representation = Representation(
    id: nat,
    room: Room,
    startTime: int,
    endTime: int,
    purpose: string,
    status: Status,
    createdAt: int,
    updatedAt: int)

  datatype ValidationError = EndNotAfterStart | RoomAlreadyBooked

  /** The stored booking and the requested interval intersect: both comparisons are strict. */
  predicate Overlaps(b: Booking, d: BookingInput)
  {
    b.startTime < d.endTime && b.endTime > d.startTime
  }

  /** Row id blocks the request: a row of the same room, other than the one being edited, whose
      interval overlaps the request's. The row's status plays no part. */
  predicate Blocks(rows: map<nat, Booking>, d: BookingInput, instance: Option<nat>, id: nat)
  {
    id in rows && Some(id) != instance && rows[id].room == d.room && Overlaps(rows[id], d)
  }

  predicate HasConflict(rows: map<nat, Booking>, d: BookingInput, instance: Option<nat>)
  {
    exists id | id in rows :: Blocks(rows, d, instance, id)
  }

  /** The serializer's validate: the time order is checked first, then overlaps; valid data is
      returned unchanged. instance is the id of the booking being edited, if any. */
  function Validate(d: BookingInput, rows: map<nat, Booking>, instance: Option<nat>): (r: Result<BookingInput, ValidationError>)
    ensures r.Ok? ==> r.value == d
    ensures r.Ok? <==> d.startTime < d.endTime && forall id :: id in rows ==> !Blocks(rows, d, instance, id)
  {
    if d.startTime >= d.endTime then Err(EndNotAfterStart)
    else if HasConflict(rows, d, instance) then Err(RoomAlreadyBooked)
    else Ok(d)
  }

  /** An empty or inverted interval is refused, whatever is already booked: the time-order check
      comes first. In particular a booking that starts when it ends is refused. */
  lemma EmptyIntervalRejected(d: BookingInput, rows: map<nat, Booking>, instance: Option<nat>)
    requires d.startTime >= d.endTime
    ensures Validate(d, rows, instance) == Err(EndNotAfterStart)
  {
  }

  /** A non-empty interval is refused exactly when some other row of the same room overlaps it. */
  lemma ConflictRejected(d: BookingInput, rows: map<nat, Booking>, instance: Option<nat>)
    requires d.startTime < d.endTime
    ensures Validate(d, rows, instance) == Err(RoomAlreadyBooked) <==>
      exists id :: id in rows && Some(id) != instance && rows[id].room == d.room &&
        rows[id].startTime < d.endTime && rows[id].endTime > d.startTime
  {
    if Validate(d, rows, instance) == Err(RoomAlreadyBooked) {
      var id :| id in rows && Blocks(rows, d, instance, id);
    }
  }

  /** Intervals that only touch do not conflict: a row that ends when the request starts, or starts
      when the request ends, never blocks it. */
  lemma TouchingIntervalsAdmitted(d: BookingInput, rows: map<nat, Booking>, instance: Option<nat>)
    requires d.startTime < d.endTime
    requires forall id :: id in rows && rows[id].room == d.room ==>
      rows[id].endTime <= d.startTime || rows[id].startTime >= d.endTime
    ensures Validate(d, rows, instance) == Ok(d)
  {
  }

  /** Rows of other rooms never matter: adding one leaves the verdict as it was. */
  lemma {:induction false} OtherRoomsIgnored(d: BookingInput, rows: map<nat, Booking>, instance: Option<nat>, k: nat, b: Booking)
    requires b.room != d.room
    requires k !in rows
    ensures Validate(d, rows[k := b], instance) == Validate(d, rows, instance)
  {
    if HasConflict(rows[k := b], d, instance) {
      var id :| id in rows[k := b] && Blocks(rows[k := b], d, instance, id);
      assert id != k && Blocks(rows, d, instance, id);
    }
    if HasConflict(rows, d, instance) {
      var id :| id in rows && Blocks(rows, d, instance, id);
      assert Blocks(rows[k := b], d, instance, id);
    }
  }

  /** Two tables that agree on everything but statuses give the same verdict: rejected and canceled
      bookings block their slot as much as pending and approved ones. */
  lemma {:induction false} StatusIgnored(d: BookingInput, rows: map<nat, Booking>, others: map<nat, Booking>, instance: Option<nat>)
    requires rows.Keys == others.Keys
    requires forall id :: id in rows ==> rows[id].(status := Pending) == others[id].(status := Pending)
    ensures Validate(d, rows, instance) == Validate(d, others, instance)
  {
    if HasConflict(rows, d, instance) {
      var id :| id in rows && Blocks(rows, d, instance, id);
      assert rows[id].(status := Pending).room == others[id].(status := Pending).room;
      assert Blocks(others, d, instance, id);
    }
    if HasConflict(others, d, instance) {
      var id :| id in others && Blocks(others, d, instance, id);
      assert rows[id].(status := Pending).room == others[id].(status := Pending).room;
      assert Blocks(rows, d, instance, id);
    }
  }

  /** On update the edited row is left out of its own check: validating with the instance set is
      validating against the table without that row. */
  lemma {:induction false} InstanceExcluded(d: BookingInput, rows: map<nat, Booking>, id: nat)
    ensures Validate(d, rows, Some(id)) == Validate(d, rows - {id}, None)
  {
    if HasConflict(rows, d, Some(id)) {
      var j :| j in rows && Blocks(rows, d, Some(id), j);
      assert Blocks(rows - {id}, d, None, j);
    }
    if HasConflict(rows - {id}, d, None) {
      var j :| j in rows - {id} && Blocks(rows - {id}, d, None, j);
      assert Blocks(rows, d, Some(id), j);
    }
  }
}
