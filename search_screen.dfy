/** The mobile app's search screen: a case-insensitive text match over the fetched rooms. */
module SearchScreen {
  import opened Js
  import opened Seqs
  import opened Records

  /** The lower-cased query occurs in the lower-cased title, address or description. */
  predicate Matches(item: Room, query: string) {
    || Includes(Lower(item.title), Lower(query))
    || Includes(Lower(item.address), Lower(query))
    || Includes(Lower(item.description), Lower(query))
  }

  /** The callback `handleSearch` hands to `filter`. */
  function QueryMatches(query: string): Room -> bool {
    (item: Room) => Matches(item, query)
  }

  /** The screen's list state: the query, the results (`undefined` while no data has arrived
      and a search ran) and the rooms fetched from the server. */
  datatype State = State(searchQuery: string, filteredData: Option<seq<Room>>, data: Option<seq<Room>>)

  const Initial := State("", Some([]), None)

  /** `data?.filter(...)` for a query. */
  function Results(data: Option<seq<Room>>, query: string): (r: Option<seq<Room>>)
    ensures r.Some? <==> data.Some?
  {
    if data.None? then None else Some(Filter(QueryMatches(query), data.value))
  }

  /** `handleSearch(query)` once its timer has fired: the results for a non-empty query,
      otherwise an empty result list. The fetched rooms are untouched. */
  function HandleSearch(st: State, query: string): (r: State)
    ensures r.searchQuery == query && r.data == st.data
    ensures |query| > 0 ==> r.filteredData == Results(st.data, query)
    ensures |query| == 0 ==> r.filteredData == Some([])
  {
    if |query| > 0 then State(query, Results(st.data, query), st.data)
    else State(query, Some([]), st.data)
  }

  /** The clear button: `setSearchQuery('')`, leaving the last results in place. */
  function ClearQuery(st: State): (r: State)
    ensures r.searchQuery == "" && r.filteredData == st.filteredData && r.data == st.data
  {
    st.(searchQuery := "")
  }

  /** The list the FlatList shows. */
  function Displayed(st: State): Option<seq<Room>> {
    if |st.searchQuery| > 0 then st.filteredData else st.data
  }

  /** Soundness: each result has the lower-cased query starting at some position of one of
      its three lower-cased texts. */
  lemma ResultsSound(rooms: seq<Room>, query: string, item: Room)
    requires item in Filter(QueryMatches(query), rooms)
    ensures item in rooms
    ensures || Occurs(Lower(query), Lower(item.title))
            || Occurs(Lower(query), Lower(item.address))
            || Occurs(Lower(query), Lower(item.description))
  {
    FilterMembers(QueryMatches(query), rooms);
    assert QueryMatches(query)(item);
    if Includes(Lower(item.title), Lower(query)) {
      IncludesIffOccurs(Lower(item.title), Lower(query));
    } else if Includes(Lower(item.address), Lower(query)) {
      IncludesIffOccurs(Lower(item.address), Lower(query));
    } else {
      IncludesIffOccurs(Lower(item.description), Lower(query));
    }
  }

  /** Completeness: every fetched room that matches is among the results. */
  lemma ResultsComplete(rooms: seq<Room>, query: string, item: Room)
    requires item in rooms && Matches(item, query)
    ensures item in Filter(QueryMatches(query), rooms)
  {
    FilterMembers(QueryMatches(query), rooms);
  }

  /** The results keep the fetched order. */
  lemma ResultsInOrder(rooms: seq<Room>, query: string)
    ensures IsSubsequence(Filter(QueryMatches(query), rooms), rooms)
  {
    FilterIsSubsequence(QueryMatches(query), rooms);
  }

  /** Queries that differ only in letter case give the same results. */
  lemma SearchIgnoresCase(st: State, q1: string, q2: string)
    requires SameIgnoringCase(q1, q2)
    ensures HandleSearch(st, q1) == HandleSearch(st, q2).(searchQuery := q1)
  {
    SameIgnoringCaseLowersEqual(q1, q2);
    if st.data.Some? {
      FilterAgrees(QueryMatches(q1), QueryMatches(q2), st.data.value);
    }
  }

  /** For a non-empty query the screen shows exactly the matching rooms. */
  lemma SearchShowsMatches(st: State, query: string, item: Room)
    requires |query| > 0 && st.data.Some?
    ensures Displayed(HandleSearch(st, query)).Some?
    ensures item in Displayed(HandleSearch(st, query)).value <==> item in st.data.value && Matches(item, query)
  {
    FilterMembers(QueryMatches(query), st.data.value);
  }

  /** An empty query empties the results, and the full room list is shown. */
  lemma EmptyQueryShowsAll(st: State)
    ensures HandleSearch(st, "").filteredData == Some([])
    ensures Displayed(HandleSearch(st, "")) == st.data
  {
  }

  /** After the clear button the full room list is shown, whatever was searched before. */
  lemma ClearShowsAll(st: State)
    ensures Displayed(ClearQuery(st)) == st.data
  {
  }
}
