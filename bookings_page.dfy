/** The "my bookings" page of the JavaScript client (frontend/src/pages/BookingsPage.js): status
    tables, the cancel button, the room column, and the local update after a cancel. */
module BookingsPage {
  import opened Wrappers
  import opened Text
  import opened Models
  import opened Serializers
  import opened ApiClient
  import opened LegacySessionContext

  const StatusColors: map<Status, string> :=
    map[Pending := "default", Approved := "success", Rejected := "error", Canceled := "warning"]

  const StatusLabels: map<Status, string> :=
    map[Pending := "Ожидает", Approved := "Подтверждено", Rejected := "Отклонено", Canceled := "Отменено"]

  /** Both tables give every status an entry, and distinct statuses distinct entries. */
  lemma StatusTablesComplete(st1: Status, st2: Status)
    ensures st1 in StatusColors && st1 in StatusLabels
    ensures st1 != st2 ==> StatusColors[st1] != StatusColors[st2] && StatusLabels[st1] != StatusLabels[st2]
  {
  }

  /** The cancel button: only on a pending booking. */
  predicate OffersCancel(st: Status)
  {
    st == Pending
  }

  /** The two values booking.room can hold in JavaScript: a number (a room id) or an object. */
  datatype RoomField = RoomId(id: nat) | RoomObject(room: Room)

  /** r.id === v: strict equality never holds between a number and an object. */
  predicate StrictlyEqual(n: nat, v: RoomField)
  {
    v.RoomId? && v.id == n
  }

  /** rooms.find(r => r.id === v): the first room whose id is strictly equal to v. */
  function FindRoom(rooms: seq<Room>, v: RoomField): (r: Option<Room>)
  {
    if rooms == [] then None
    else if StrictlyEqual(rooms[0].id, v) then Some(rooms[0])
    else FindRoom(rooms[1..], v)
  }

  lemma {:induction false} FindRoomSpec(rooms: seq<Room>, v: RoomField)
    ensures FindRoom(rooms, v).None? <==> forall k :: 0 <= k < |rooms| ==> !StrictlyEqual(rooms[k].id, v)
    ensures FindRoom(rooms, v).Some? ==>
      exists k :: 0 <= k < |rooms| && rooms[k] == FindRoom(rooms, v).value && StrictlyEqual(rooms[k].id, v) &&
        forall j :: 0 <= j < k ==> !StrictlyEqual(rooms[j].id, v)
  {
    if rooms != [] && !StrictlyEqual(rooms[0].id, v) {
      FindRoomSpec(rooms[1..], v);
      if FindRoom(rooms, v).Some? {
        var k :| 0 <= k < |rooms[1..]| && rooms[1..][k] == FindRoom(rooms, v).value && StrictlyEqual(rooms[1..][k].id, v) &&
          forall j :: 0 <= j < k ==> !StrictlyEqual(rooms[1..][j].id, v);
        assert rooms[k + 1] == rooms[1..][k];
        assert forall j :: 1 <= j < k + 1 ==> rooms[j] == rooms[1..][j - 1];
      }
    } else if rooms != [] {
      assert rooms[0] == FindRoom(rooms, v).value;
    }
  }

  /** What a table cell is handed to render: text, or a JavaScript object. */
  datatype CellChild = TextChild(text: string) | ObjectChild(room: Room)

  /** The room column as written: the found room's number when it is non-empty, otherwise the value
      of booking.room itself. */
  function RoomCellAsWritten(rooms: seq<Room>, v: RoomField): CellChild
  {
    var found := FindRoom(rooms, v);
    if found.Some? && found.value.number != "" then TextChild(found.value.number)
    else match v
      case RoomId(n) => TextChild(DecimalString(n))
      case RoomObject(r) => ObjectChild(r)
  }

  /** The serializer sends booking.room as a nested object, so the lookup never matches and the cell
      is handed the room object itself, whatever rooms were fetched. */
  lemma {:induction false} RoomCellAsWrittenFallsBack(rooms: seq<Room>, booking: Representation)
    ensures FindRoom(rooms, RoomObject(booking.room)).None?
    ensures RoomCellAsWritten(rooms, RoomObject(booking.room)) == ObjectChild(booking.room)
  {
    FindRoomSpec(rooms, RoomObject(booking.room));
  }

  /** The room column as intended: the number of the booking's room, read from the nested object. */
  function RoomCell(booking: Representation): string
  {
    booking.room.number
  }

  /** The intended column always shows text, and it is what the page's lookup was meant to show: when
      the fetched rooms carry the booking's room under its id, with a non-empty number, looking it
      up by that id shows exactly this number. */
  lemma RoomCellSpec(rooms: seq<Room>, booking: Representation)
    requires booking.room in rooms && booking.room.number != ""
    requires forall k :: 0 <= k < |rooms| && rooms[k].id == booking.room.id ==> rooms[k] == booking.room
    ensures RoomCellAsWritten(rooms, RoomId(booking.room.id)) == TextChild(RoomCell(booking))
  {
    FindRoomSpec(rooms, RoomId(booking.room.id));
    var k :| 0 <= k < |rooms| && rooms[k] == booking.room;
    assert StrictlyEqual(rooms[k].id, RoomId(booking.room.id));
  }

  /** The list after a cancel: the booking with that id is marked canceled, every other entry is
      kept as it was, in place. */
  function MarkCanceled(bookings: seq<Representation>, id: nat): seq<Representation>
  {
    seq(|bookings|, i requires 0 <= i < |bookings| =>
      if bookings[i].id == id then bookings[i].(status := Canceled) else bookings[i])
  }

  /** The list keeps its length and order; only entries with that id change, and only in status;
      an id not in the list changes nothing; marking twice is marking once. */
  lemma MarkCanceledSpec(bookings: seq<Representation>, id: nat)
    ensures |MarkCanceled(bookings, id)| == |bookings|
    ensures forall i :: 0 <= i < |bookings| && bookings[i].id == id ==>
      MarkCanceled(bookings, id)[i].status == Canceled && MarkCanceled(bookings, id)[i].(status := bookings[i].status) == bookings[i]
    ensures forall i :: 0 <= i < |bookings| && bookings[i].id != id ==> MarkCanceled(bookings, id)[i] == bookings[i]
    ensures (forall i :: 0 <= i < |bookings| ==> bookings[i].id != id) ==> MarkCanceled(bookings, id) == bookings
    ensures MarkCanceled(MarkCanceled(bookings, id), id) == MarkCanceled(bookings, id)
  {
  }

  /** The cancel button shows on pending bookings only (an approved booking cannot be canceled from
      this page), and after a successful cancel the canceled booking offers it no longer. */
  lemma CancelButtonGating(bookings: seq<Representation>, id: nat, st: Status)
    ensures OffersCancel(st) <==> st != Approved && st != Rejected && st != Canceled
    ensures forall i :: 0 <= i < |bookings| && bookings[i].id == id ==> !OffersCancel(MarkCanceled(bookings, id)[i].status)
    ensures forall i :: 0 <= i < |bookings| && bookings[i].id != id ==>
      (OffersCancel(MarkCanceled(bookings, id)[i].status) <==> OffersCancel(bookings[i].status))
  {
  }

  /** The page's state: the bookings and rooms it fetched. */
  class MyBookingsPage {
    var bookings: seq<Representation>
    var rooms: seq<Room>

    /** The first render: both lists empty. */
    constructor ()
      ensures bookings == [] && rooms == []
    {
      bookings := [];
      rooms := [];
    }

    /** The mount effect: GET bookings/ and GET rooms/ together. fetched is what Promise.all
        produced; the lists are set only when both requests succeed, and a failure (an unhandled
        rejection) leaves both alone. */
    method FetchData(fetched: Result<(seq<Representation>, seq<Room>), AxiosError>) returns (sent: seq<AxiosCall>)
      modifies this
      ensures sent == [AxiosCall("GET", "bookings/", None), AxiosCall("GET", "rooms/", None)]
      ensures fetched.Ok? ==> bookings == fetched.value.0 && rooms == fetched.value.1
      ensures fetched.Err? ==> bookings == old(bookings) && rooms == old(rooms)
    {
      sent := [AxiosCall("GET", "bookings/", None), AxiosCall("GET", "rooms/", None)];
      if fetched.Ok? {
        bookings := fetched.value.0;
        rooms := fetched.value.1;
      }
    }

    /** handleCancel: outcome is what POST bookings/<id>/cancel/ produced; a failure propagates and
        leaves the list alone. */
    method HandleCancel(id: nat, outcome: Result<(), AxiosError>) returns (sent: AxiosCall, r: Result<(), AxiosError>)
      modifies this`bookings
      ensures sent == AxiosCall("POST", BookingActionRoute(id, CancelAction), None)
      ensures r == outcome
      ensures outcome.Err? ==> bookings == old(bookings)
      ensures outcome.Ok? ==> bookings == MarkCanceled(old(bookings), id)
    {
      sent := AxiosCall("POST", BookingActionRoute(id, CancelAction), None);
      r := outcome;
      if outcome.Ok? {
        bookings := MarkCanceled(bookings, id);
      }
    }
  }
}
