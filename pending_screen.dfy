/** The owner's list of rooms not yet approved by the admin. */
module PendingScreen {
  import opened Js
  import opened Seqs
  import opened Records
  import OwnerScreen

  /** `!room.admin_approval`: a missing approval counts as not approved. */
  function NotApproved(): Room -> bool {
    (room: Room) => !Truthy(room.admin_approval)
  }

  function PendingOf(rooms: seq<Room>): seq<Room> {
    Filter(NotApproved(), rooms)
  }

  /** The list once the effects have run: nothing is fetched without a user, and a request
      whose body has no room list leaves the initial empty list. */
  function Shown(user: Option<Session>, fetched: Option<seq<Room>>): (shown: seq<Room>)
    ensures user.None? ==> shown == []
  {
    if user.None? || fetched.None? then [] else PendingOf(fetched.value)
  }

  /** Exactly the fetched rooms whose approval is not true, in the fetched order. */
  lemma PendingExactly(rooms: seq<Room>)
    ensures forall room :: room in PendingOf(rooms) <==> room in rooms && room.admin_approval != True
    ensures IsSubsequence(PendingOf(rooms), rooms)
  {
    FilterMembers(NotApproved(), rooms);
    FilterIsSubsequence(NotApproved(), rooms);
  }

  /** When every approval is given as true or false, this list is the dashboard's pending list. */
  lemma AgreesWithDashboard(rooms: seq<Room>)
    requires forall i :: 0 <= i < |rooms| ==> rooms[i].admin_approval != Missing
    ensures PendingOf(rooms) == OwnerScreen.PendingRooms(Some(rooms))
  {
    FilterAgrees(NotApproved(), OwnerScreen.AwaitsApproval(), rooms);
  }

  /** A room without the field is listed here but not counted on the dashboard. */
  lemma DiffersOnMissingApproval(room: Room)
    requires room.admin_approval == Missing
    ensures PendingOf([room]) == [room]
    ensures OwnerScreen.PendingRooms(Some([room])) == []
  {
    assert [room][1..] == [];
  }
}
