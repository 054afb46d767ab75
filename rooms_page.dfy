/** The room filter of the rooms page (frontend/src/pages/RoomsPage.js). */
module RoomsPage {
  import opened Wrappers
  import opened Seqs
  import opened Models

  /** The three filter fields; None stands for a field left empty. */
  datatype Filters = Filters(building: Option<nat>, capacity: Option<int>, roomType: Option<RoomType>)

  const NoFilters: Filters := Filters(None, None, None)

  /** A room passes when it meets every filled-in field: its building, at least the capacity, its type. */
  predicate Passes(f: Filters, room: Room)
  {
    && (f.building.None? || room.building == f.building.value)
    && (f.capacity.None? || room.capacity >= f.capacity.value)
    && (f.roomType.None? || room.roomType == f.roomType.value)
  }

  function FilteredRooms(rooms: seq<Room>, f: Filters): seq<Room>
  {
    Filter(rooms, (r: Room) => Passes(f, r))
  }

  /** The shown rooms are, in their original order, exactly the rooms that meet every filled-in
      field; the building and type fields match exactly and the capacity bound is inclusive; with
      no field filled in, every room is shown. */
  lemma FilteredRoomsSpec(rooms: seq<Room>, f: Filters)
    ensures IsSubsequence(FilteredRooms(rooms, f), rooms)
    ensures forall r :: r in FilteredRooms(rooms, f) <==>
      && r in rooms
      && (f.building.Some? ==> r.building == f.building.value)
      && (f.capacity.Some? ==> r.capacity >= f.capacity.value)
      && (f.roomType.Some? ==> r.roomType == f.roomType.value)
    ensures FilteredRooms(rooms, NoFilters) == rooms
    ensures forall r :: multiset(FilteredRooms(rooms, f))[r] == if Passes(f, r) then multiset(rooms)[r] else 0
  {
    forall r {
      FilterCount(rooms, (r: Room) => Passes(f, r), r);
    }
    FilterIsSubsequence(rooms, (r: Room) => Passes(f, r));
    FilterAll(rooms, (r: Room) => Passes(NoFilters, r));
  }

  /** g keeps every field f fills in, with the same value, and may fill in more. */
  predicate Narrows(g: Filters, f: Filters)
  {
    && (f.building.Some? ==> g.building == f.building)
    && (f.capacity.Some? ==> g.capacity == f.capacity)
    && (f.roomType.Some? ==> g.roomType == f.roomType)
  }

  /** Filling in one more field never shows a room that was hidden: the fields combine with "and". */
  lemma NarrowingNeverEnlarges(rooms: seq<Room>, f: Filters, g: Filters)
    requires Narrows(g, f)
    ensures IsSubsequence(FilteredRooms(rooms, g), FilteredRooms(rooms, f))
  {
    FilterStricter(rooms, (r: Room) => Passes(g, r), (r: Room) => Passes(f, r));
  }
}
