/** The booking app's records (backend/booking/models.py): buildings, rooms and bookings. */
module Models {
  import opened Wrappers

  /** The four booking statuses; no other status can be stored. */
  datatype Status = Pending | Approved | Rejected | Canceled

  /** A booking nobody has acted on yet is pending. */
  const DefaultStatus: Status := Pending

  function StatusName(s: Status): string
  {
    match s
    case Pending => "pending"
    case Approved => "approved"
    case Rejected => "rejected"
    case Canceled => "canceled"
  }

  function ParseStatus(s: string): Option<Status>
  {
    if s == "pending" then Some(Pending)
    else if s == "approved" then Some(Approved)
    else if s == "rejected" then Some(Rejected)
    else if s == "canceled" then Some(Canceled)
    else None
  }

  /** Every status survives the trip to its wire name and back, and only the four names parse. */
  lemma StatusNameRoundTrip(st: Status, s: string)
    ensures ParseStatus(StatusName(st)) == Some(st)
    ensures ParseStatus(s) == Some(st) <==> s == StatusName(st)
  {
  }

  datatype RoomType = Lecture | Lab | Conference | Other

  datatype Building = Building(id: nat, name: string, address: string)

  /** A room belongs to one building (by id); its capacity is a non-negative count. */
  datatype Room = Room(
    id: nat,
    building: nat,
    number: string,
    roomType: RoomType,
    capacity: nat,
    floor: int,
    description: Option<string>,
    hasProjector: bool,
    hasWhiteboard: bool,
    hasComputers: bool)

  /** No two rooms of the table share a (building, number) pair. */
  predicate UniqueNumbers(rooms: seq<Room>)
  {
    forall i, j :: 0 <= i < j < |rooms| ==>
      rooms[i].building != rooms[j].building || rooms[i].number != rooms[j].number
  }

  /** The database's refusal to store a row that breaks a uniqueness constraint. */
  datatype IntegrityError = DuplicateRoomNumber

  /** Storing a room: refused when its building already has a room with that number. */
  function InsertRoom(rooms: seq<Room>, room: Room): (r: Result<seq<Room>, IntegrityError>)
    requires UniqueNumbers(rooms)
    ensures r.Ok? ==> UniqueNumbers(r.value) && r.value == rooms + [room]
    ensures r.Err? <==> exists i :: 0 <= i < |rooms| && rooms[i].building == room.building && rooms[i].number == room.number
  {
    if exists i :: 0 <= i < |rooms| && rooms[i].building == room.building && rooms[i].number == room.number
    then Err(DuplicateRoomNumber)
    else Ok(rooms + [room])
  }

  /** A booking row. Timestamps are integers; room and user are ids. */
  datatype Booking = Booking(
    id: nat,
    room: nat,
    user: nat,
    startTime: int,
    endTime: int,
    purpose: string,
    status: Status,
    createdAt: int,
    updatedAt: int)

  /** A row as first saved at time now: the default status, and both timestamps equal to now. */
  function NewBooking(id: nat, room: nat, user: nat, startTime: int, endTime: int, purpose: string, now: int): (b: Booking)
    ensures b.status == DefaultStatus
    ensures b.createdAt == now && b.updatedAt == now
  {
    Booking(id, room, user, startTime, endTime, purpose, DefaultStatus, now, now)
  }

  /** Saving a row at time now refreshes updated_at and nothing else; created_at never moves. */
  function Saved(b: Booking, now: int): (r: Booking)
    ensures r.createdAt == b.createdAt && r.updatedAt == now
    ensures r.(updatedAt := b.updatedAt) == b
  {
    b.(updatedAt := now)
  }

  /** Rows in ascending start_time order, the default ordering of every booking query. */
  predicate SortedByStart(s: seq<Booking>)
  {
    forall i, j :: 0 <= i < j < |s| ==> s[i].startTime <= s[j].startTime
  }

  /** Inserts b before the first row that starts later than it. */
  function InsertByStart(b: Booking, s: seq<Booking>): seq<Booking>
  {
    if s == [] || b.startTime <= s[0].startTime then [b] + s
    else [s[0]] + InsertByStart(b, s[1..])
  }

  lemma {:induction false} InsertByStartSorted(b: Booking, s: seq<Booking>)
    requires SortedByStart(s)
    ensures SortedByStart(InsertByStart(b, s))
    ensures multiset(InsertByStart(b, s)) == multiset(s) + multiset{b}
  {
    if s != [] && b.startTime > s[0].startTime {
      var rest := InsertByStart(b, s[1..]);
      InsertByStartSorted(b, s[1..]);
      assert s == [s[0]] + s[1..];
      forall k | 0 <= k < |rest|
        ensures s[0].startTime <= rest[k].startTime
      {
        assert rest[k] in multiset(rest);
        if rest[k] != b {
          assert rest[k] in multiset(s[1..]);
          var j :| 0 <= j < |s[1..]| && s[1..][j] == rest[k];
          assert s[j + 1] == rest[k];
        }
      }
    }
  }

  /** The rows of a query, ordered by start_time. */
  function OrderByStart(s: seq<Booking>): seq<Booking>
  {
    if s == [] then [] else InsertByStart(s[0], OrderByStart(s[1..]))
  }

  /** Ordering a query sorts it by start_time and loses or adds no row. */
  lemma {:induction false} OrderByStartSorted(s: seq<Booking>)
    ensures SortedByStart(OrderByStart(s))
    ensures multiset(OrderByStart(s)) == multiset(s)
  {
    if s != [] {
      OrderByStartSorted(s[1..]);
      InsertByStartSorted(s[0], OrderByStart(s[1..]));
      assert s == [s[0]] + s[1..];
    }
  }

  /** No two rows of the sequence carry the same id. */
  predicate DistinctIds(s: seq<Booking>)
  {
    forall i, j :: 0 <= i < j < |s| ==> s[i].id != s[j].id
  }

  lemma {:induction false} InsertByStartDistinct(b: Booking, s: seq<Booking>)
    requires SortedByStart(s) && DistinctIds(s)
    requires forall k :: 0 <= k < |s| ==> s[k].id != b.id
    ensures DistinctIds(InsertByStart(b, s))
  {
    if s != [] && b.startTime > s[0].startTime {
      var rest := InsertByStart(b, s[1..]);
      InsertByStartSorted(b, s[1..]);
      InsertByStartDistinct(b, s[1..]);
      forall k | 0 <= k < |rest|
        ensures s[0].id != rest[k].id
      {
        assert rest[k] in multiset(rest);
        if rest[k] != b {
          assert rest[k] in multiset(s[1..]);
          var j :| 0 <= j < |s[1..]| && s[1..][j] == rest[k];
          assert s[j + 1] == rest[k];
        }
      }
      assert InsertByStart(b, s) == [s[0]] + rest;
    }
  }

  /** Ordering a query never makes two rows share an id: a query without repeated ids gives an
      ordered list without repeated ids. */
  lemma {:induction false} OrderByStartDistinct(s: seq<Booking>)
    requires DistinctIds(s)
    ensures DistinctIds(OrderByStart(s))
  {
    if s != [] {
      var rest := OrderByStart(s[1..]);
      OrderByStartDistinct(s[1..]);
      OrderByStartSorted(s[1..]);
      forall k | 0 <= k < |rest|
        ensures rest[k].id != s[0].id
      {
        assert rest[k] in multiset(s[1..]);
        var j :| 0 <= j < |s[1..]| && s[1..][j] == rest[k];
        assert s[j + 1] == rest[k];
      }
      InsertByStartDistinct(s[0], rest);
    }
  }
}
