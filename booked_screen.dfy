/** The owner's list of occupied rooms. */
module BookedScreen {
  import opened Js
  import opened Seqs
  import opened Records
  import OwnerScreen

  function BookedOf(rooms: seq<Room>): seq<Room> {
    Filter((room: Room) => room.room_status == "occupied", rooms)
  }

  /** The list once the effects have run: nothing is fetched without a user, and a request
      whose body has no room list leaves the initial empty list. */
  function Shown(user: Option<Session>, fetched: Option<seq<Room>>): (shown: seq<Room>)
    ensures user.None? ==> shown == []
  {
    if user.None? || fetched.None? then [] else BookedOf(fetched.value)
  }

  /** Exactly the occupied rooms, in the fetched order. */
  lemma BookedExactly(rooms: seq<Room>)
    ensures forall room :: room in BookedOf(rooms) <==> room in rooms && room.room_status == "occupied"
    ensures IsSubsequence(BookedOf(rooms), rooms)
  {
    FilterMembers((room: Room) => room.room_status == "occupied", rooms);
    FilterIsSubsequence((room: Room) => room.room_status == "occupied", rooms);
  }

  /** On the same fetched list this screen shows as many rooms as the dashboard counts as booked. */
  lemma SameAsDashboard(rooms: seq<Room>)
    ensures BookedOf(rooms) == OwnerScreen.BookedRooms(Some(rooms))
  {
    FilterAgrees((room: Room) => room.room_status == "occupied", OwnerScreen.Occupied(), rooms);
  }
}
