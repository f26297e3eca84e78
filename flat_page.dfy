/** The admin dashboard's flat list: an Approved and a Pending tab over the fetched flats,
    with approve and decline actions on the pending ones. */
module FlatPage {
  import opened Js
  import opened Seqs
  import opened Records

  datatype Tab = Approved | Pending

  function TabName(t: Tab): string {
    match t
    case Approved => "Approved"
    case Pending => "Pending"
  }

  /** The page state: the selected tab, the flats from the server and the spinner flag. */
  datatype State = State(activeTab: Tab, flats: seq<Room>, loading: bool)

  const Initial := State(Approved, [], true)

  function ApprovalIs(b: bool): Room -> bool {
    (flat: Room) => flat.admin_approval == FromBool(b)
  }

  /** The tab's list: `admin_approval === true` on Approved, `=== false` on Pending. */
  function FilteredHouses(st: State): seq<Room> {
    if st.activeTab == Approved then Filter(ApprovalIs(true), st.flats)
    else Filter(ApprovalIs(false), st.flats)
  }

  /** Each tab shows exactly its flats, and no flat is on both. A flat sent without the field
      is on neither tab. */
  lemma TabsPartition(flats: seq<Room>, flat: Room)
    ensures flat in FilteredHouses(State(Approved, flats, false)) <==> flat in flats && flat.admin_approval == True
    ensures flat in FilteredHouses(State(Pending, flats, false)) <==> flat in flats && flat.admin_approval == False
    ensures !(flat in FilteredHouses(State(Approved, flats, false)) && flat in FilteredHouses(State(Pending, flats, false)))
    ensures flat.admin_approval == Missing ==>
              flat !in FilteredHouses(State(Approved, flats, false)) && flat !in FilteredHouses(State(Pending, flats, false))
  {
    FilterMembers(ApprovalIs(true), flats);
    FilterMembers(ApprovalIs(false), flats);
  }

  /** Neither the spinner nor anything but the tab decides the list. */
  lemma ListIgnoresLoading(st: State)
    ensures FilteredHouses(st.(loading := !st.loading)) == FilteredHouses(st)
    ensures IsSubsequence(FilteredHouses(st), st.flats)
  {
    FilterIsSubsequence(ApprovalIs(st.activeTab == Approved), st.flats);
  }

  /** The Approve and Decline buttons on a flat's card: the cards are rendered once the
      spinner stops, one per listed flat, and carry the buttons on the Pending tab only. */
  predicate ShowsModeration(st: State, flat: Room) {
    !st.loading && flat in FilteredHouses(st) && st.activeTab == Pending
  }

  /** A flat offers Approve and Decline exactly when it was fetched with approval `=== false`,
      the Pending tab is open and nothing is loading; so no approved flat, and none sent
      without the field, can be moderated from this page. */
  lemma ModerationOnlyForPendingFlats(st: State, flat: Room)
    ensures ShowsModeration(st, flat) <==>
              !st.loading && st.activeTab == Pending && flat in st.flats && flat.admin_approval == False
  {
    FilterMembers(ApprovalIs(false), st.flats);
  }

  /** A tab button. */
  function SelectTab(st: State, t: Tab): (r: State)
    ensures r.activeTab == t && r.flats == st.flats && r.loading == st.loading
  {
    st.(activeTab := t)
  }

  /** The fetch effect once it has settled: the list the body held, or the old list when the
      request threw; the spinner stops either way. */
  function FlatsFetched(st: State, fetched: Option<seq<Room>>): (r: State)
    ensures !r.loading && r.activeTab == st.activeTab
    ensures r.flats == if fetched.Some? then fetched.value else st.flats
  {
    State(st.activeTab, if fetched.Some? then fetched.value else st.flats, false)
  }

  /** The requests the moderation buttons send. */
  datatype Request = ApproveRoom(id: string) | RejectRoom(id: string)

  /** `handleApprove(id)`: a PATCH request; the page state is left as it was. */
  function HandleApprove(st: State, id: string): (r: (State, Request))
    ensures r.0 == st && r.1.ApproveRoom? && r.1.id == id
  {
    (st, ApproveRoom(id))
  }

  /** `handleDecline(id)`: a PATCH request; the page state is left as it was. */
  function HandleDecline(st: State, id: string): (r: (State, Request))
    ensures r.0 == st && r.1.RejectRoom? && r.1.id == id
  {
    (st, RejectRoom(id))
  }

  /** A moderated flat stays where it was, buttons included, until the page is loaded again. */
  lemma ModerationKeepsList(st: State, id: string, flat: Room)
    ensures FilteredHouses(HandleApprove(st, id).0) == FilteredHouses(st)
    ensures FilteredHouses(HandleDecline(st, id).0) == FilteredHouses(st)
    ensures ShowsModeration(HandleApprove(st, id).0, flat) == ShowsModeration(st, flat)
    ensures ShowsModeration(HandleDecline(st, id).0, flat) == ShowsModeration(st, flat)
  {
  }
}
