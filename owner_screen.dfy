/** The owner's dashboard: the counts of listed, booked and pending rooms, and the status
    badge on each listing card. */
module OwnerScreen {
  import opened Js
  import opened Seqs
  import opened Records

  predicate IsOccupied(room: Room) {
    room.room_status == "occupied"
  }

  function Occupied(): Room -> bool {
    (room: Room) => IsOccupied(room)
  }

  /** `room.admin_approval === false`: only an explicit false, not a missing field. */
  function AwaitsApproval(): Room -> bool {
    (room: Room) => room.admin_approval == False
  }

  /** `rooms?.filter(occupied) || []`. */
  function BookedRooms(rooms: Option<seq<Room>>): seq<Room> {
    if rooms.None? then [] else Filter(Occupied(), rooms.value)
  }

  /** `rooms?.filter(awaiting approval) || []`. */
  function PendingRooms(rooms: Option<seq<Room>>): seq<Room> {
    if rooms.None? then [] else Filter(AwaitsApproval(), rooms.value)
  }

  /** `rooms?.length || 0`. */
  function TotalListings(rooms: Option<seq<Room>>): nat {
    if rooms.None? then 0 else |rooms.value|
  }

  /** The booked list is exactly the occupied rooms, in the fetched order. */
  lemma BookedExactly(rooms: seq<Room>)
    ensures forall room :: room in BookedRooms(Some(rooms)) <==> room in rooms && IsOccupied(room)
    ensures IsSubsequence(BookedRooms(Some(rooms)), rooms)
  {
    FilterMembers(Occupied(), rooms);
    FilterIsSubsequence(Occupied(), rooms);
  }

  /** The pending list is exactly the rooms whose approval is an explicit false, in order. */
  lemma PendingExactly(rooms: seq<Room>)
    ensures forall room :: room in PendingRooms(Some(rooms)) <==> room in rooms && room.admin_approval == False
    ensures IsSubsequence(PendingRooms(Some(rooms)), rooms)
  {
    FilterMembers(AwaitsApproval(), rooms);
    FilterIsSubsequence(AwaitsApproval(), rooms);
  }

  /** Before the rooms arrive both lists are empty and the total reads 0. */
  lemma NothingFetchedShowsZero()
    ensures BookedRooms(None) == [] && PendingRooms(None) == [] && TotalListings(None) == 0
  {
  }

  /** Neither count exceeds the total. */
  lemma CountsBounded(rooms: Option<seq<Room>>)
    ensures |BookedRooms(rooms)| <= TotalListings(rooms)
    ensures |PendingRooms(rooms)| <= TotalListings(rooms)
  {
  }

  /** The booked and the not-booked rooms together are all the listings. */
  lemma BookedAndRestAreAll(rooms: seq<Room>)
    ensures |BookedRooms(Some(rooms))| + |Filter((room: Room) => !IsOccupied(room), rooms)| == TotalListings(Some(rooms))
  {
    FilterSplits(Occupied(), (room: Room) => !IsOccupied(room), rooms);
  }

  /** `rooms?.length === 0`: "No listings added yet." instead of the list. */
  predicate ShowsEmptyText(rooms: Option<seq<Room>>) {
    rooms.Some? && |rooms.value| == 0
  }

  /** The empty text appears exactly for a fetched list with no rooms, and then every count
      reads 0. Before the rooms arrive the counts read 0 as well, but the text is not shown. */
  lemma EmptyTextOnlyWhenFetchedEmpty(rooms: Option<seq<Room>>)
    ensures ShowsEmptyText(rooms) <==> rooms.Some? && TotalListings(rooms) == 0
    ensures ShowsEmptyText(rooms) ==> BookedRooms(rooms) == [] && PendingRooms(rooms) == []
    ensures !ShowsEmptyText(None) && TotalListings(None) == 0
  {
  }

  datatype Label = Booked | Available | Pending

  /** The badge text: occupied first, then approval. */
  function LabelOf(room: Room): (l: Label)
    ensures l == Booked <==> IsOccupied(room)
    ensures !IsOccupied(room) ==> (l == Available <==> Truthy(room.admin_approval))
  {
    if IsOccupied(room) then Booked
    else if Truthy(room.admin_approval) then Available
    else Pending
  }

  function LabelText(l: Label): string {
    match l
    case Booked => "Booked"
    case Available => "Available"
    case Pending => "Pending"
  }

  const BookedColour := "rgba(225, 53, 69, 0.8)"
  const AvailableColour := "rgba(40, 167, 69, 0.8)"
  const PendingColour := "rgba(255, 193, 7, 0.8)"

  /** The badge background, a ternary of its own over the same conditions. */
  function BadgeColour(room: Room): string {
    if IsOccupied(room) then BookedColour
    else if Truthy(room.admin_approval) then AvailableColour
    else PendingColour
  }

  function ColourOf(l: Label): string {
    match l
    case Booked => BookedColour
    case Available => AvailableColour
    case Pending => PendingColour
  }

  /** Each label has its own colour, and the badge's colour is the one of its label. */
  lemma ColourFollowsLabel(room: Room, other: Room)
    ensures BadgeColour(room) == ColourOf(LabelOf(room))
    ensures BadgeColour(room) == BadgeColour(other) <==> LabelOf(room) == LabelOf(other)
  {
    assert BookedColour[5] != AvailableColour[5] && BookedColour[6] != PendingColour[6];
    assert AvailableColour[5] != PendingColour[5];
  }

  /** An occupied room still awaiting approval counts as booked and as pending, but its badge
      says 'Booked'. */
  lemma OccupiedUnapprovedCountedTwice(rooms: seq<Room>, room: Room)
    requires room in rooms && IsOccupied(room) && room.admin_approval == False
    ensures room in BookedRooms(Some(rooms)) && room in PendingRooms(Some(rooms))
    ensures LabelOf(room) == Booked
  {
    BookedExactly(rooms);
    PendingExactly(rooms);
  }

  /** A free room sent without `admin_approval` is labelled 'Pending' but is not counted as pending. */
  lemma MissingApprovalLabelledButNotCounted(rooms: seq<Room>, room: Room)
    requires room in rooms && !IsOccupied(room) && room.admin_approval == Missing
    ensures LabelOf(room) == Pending && room !in PendingRooms(Some(rooms))
  {
    PendingExactly(rooms);
  }
}
