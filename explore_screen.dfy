/** The mobile app's explore screen: the fetched rooms narrowed by room type and availability. */
module ExploreScreen {
  import opened Js
  import opened Seqs
  import opened Records

  /** The room-type chips the screen renders. */
  const RoomTypes := ["All", "room", "flat"]

  function RoomTypeIs(t: string): Room -> bool {
    (item: Room) => item.room_type == t
  }

  /** `item.is_available === (selection === 'Available')`. */
  function AvailabilityIs(selection: string): Room -> bool {
    (item: Room) => item.is_available == FromBool(selection == "Available")
  }

  /** Both tests at once. */
  function BothHold(t: string, selection: string): Room -> bool {
    (item: Room) => RoomTypeIs(t)(item) && AvailabilityIs(selection)(item)
  }

  /** The filter effect: a room-type filter unless 'All', then an availability filter unless
      'All', over a copy of the data. */
  function ApplyFilters(data: seq<Room>, roomType: string, availability: string): seq<Room> {
    var byType := if roomType != "All" then Filter(RoomTypeIs(roomType), data) else data;
    if availability != "All" then Filter(AvailabilityIs(availability), byType) else byType
  }

  /** With both selections 'All' every room is shown. */
  lemma AllAllIsIdentity(data: seq<Room>)
    ensures ApplyFilters(data, "All", "All") == data
  {
  }

  /** A room is shown exactly when it passes each selection that is not 'All'. A room the
      server sent without `is_available` passes no availability selection. */
  lemma ShownExactly(data: seq<Room>, roomType: string, availability: string, item: Room)
    ensures item in ApplyFilters(data, roomType, availability) <==>
              && item in data
              && (roomType == "All" || item.room_type == roomType)
              && (availability == "All" || item.is_available == FromBool(availability == "Available"))
    ensures availability != "All" && item.is_available == Missing ==> item !in ApplyFilters(data, roomType, availability)
  {
    FilterMembers(RoomTypeIs(roomType), data);
    var byType := if roomType != "All" then Filter(RoomTypeIs(roomType), data) else data;
    FilterMembers(AvailabilityIs(availability), byType);
  }

  /** Two active selections filter once by their conjunction. */
  lemma FiltersCompose(data: seq<Room>, roomType: string, availability: string)
    requires roomType != "All" && availability != "All"
    ensures ApplyFilters(data, roomType, availability) == Filter(BothHold(roomType, availability), data)
  {
    FilterThenFilter(RoomTypeIs(roomType), AvailabilityIs(availability), BothHold(roomType, availability), data);
  }

  /** The shown rooms keep the fetched order. */
  lemma ShownInOrder(data: seq<Room>, roomType: string, availability: string)
    ensures IsSubsequence(ApplyFilters(data, roomType, availability), data)
  {
    if roomType != "All" && availability != "All" {
      FiltersCompose(data, roomType, availability);
      FilterIsSubsequence(BothHold(roomType, availability), data);
    } else if roomType != "All" {
      FilterIsSubsequence(RoomTypeIs(roomType), data);
    } else if availability != "All" {
      FilterIsSubsequence(AvailabilityIs(availability), data);
    } else {
      SubsequenceOfItself(data);
    }
  }

  lemma {:induction false} SubsequenceOfItself(s: seq<Room>)
    ensures IsSubsequence(s, s)
  {
    if s != [] {
      SubsequenceOfItself(s[1..]);
    }
  }

  /** The screen's state. `data` is only read: the filters run over a copy. */
  datatype State = State(data: seq<Room>, filteredData: seq<Room>, selectedRoomType: string, selectedAvailability: string)

  const Initial := State([], [], "All", "All")

  /** What the screen reacts to: rooms arriving from the server, or a tap on a room-type chip
      (by its position among the chips). */
  datatype Event = Fetched(rooms: seq<Room>) | TypeTapped(chip: nat)

  /** One event followed by the filter effect, which re-runs on every change of its inputs.
      No control sets the availability selection. */
  function Step(st: State, e: Event): (r: State)
    ensures r.selectedAvailability == st.selectedAvailability
  {
    match e
    case Fetched(rooms) =>
      State(rooms, ApplyFilters(rooms, st.selectedRoomType, st.selectedAvailability), st.selectedRoomType, st.selectedAvailability)
    case TypeTapped(chip) =>
      var t := if chip < |RoomTypes| then RoomTypes[chip] else st.selectedRoomType;
      State(st.data, ApplyFilters(st.data, t, st.selectedAvailability), t, st.selectedAvailability)
  }

  function Run(events: seq<Event>): State
    decreases |events|
  {
    if events == [] then Initial else Step(Run(events[..|events| - 1]), events[|events| - 1])
  }

  /** What holds on every reachable screen. */
  predicate Settled(st: State) {
    && st.selectedRoomType in RoomTypes
    && st.selectedAvailability == "All"
    && st.filteredData == ApplyFilters(st.data, st.selectedRoomType, st.selectedAvailability)
  }

  /** The room type is always one of the chips, the availability stays 'All', and the list
      shown is the rooms of the selected type, in order. */
  lemma {:induction false} RunSettles(events: seq<Event>)
    ensures Settled(Run(events))
    ensures Run(events).filteredData ==
              if Run(events).selectedRoomType == "All" then Run(events).data
              else Filter(RoomTypeIs(Run(events).selectedRoomType), Run(events).data)
    decreases |events|
  {
    if events != [] {
      RunSettles(events[..|events| - 1]);
    }
  }
}
