/** The owner's list of booking requests, with a confirmed delete. */
module BookingRequestScreen {
  import opened Js
  import opened Seqs
  import opened Records

  datatype BookingRequest = BookingRequest(id: string, user: string, room: string, date: string)

  /** The two buttons of the confirmation dialog. */
  datatype Choice = Cancel | Delete

  /** How the list request ended: it threw (also when the header could not be built), or the
      server replied with a status and a body. */
  datatype FetchReply = FetchThrew | Fetched(ok: bool, body: seq<BookingRequest>)

  function IdIsNot(id: string): BookingRequest -> bool {
    (r: BookingRequest) => r.id != id
  }

  /** `requests.filter(request => request.id !== id)`. */
  function WithoutId(requests: seq<BookingRequest>, id: string): seq<BookingRequest> {
    Filter(IdIsNot(id), requests)
  }

  /** How many requests carry the id. */
  function CountId(requests: seq<BookingRequest>, id: string): (n: nat)
    ensures n <= |requests|
    ensures n == 0 <==> forall i :: 0 <= i < |requests| ==> requests[i].id != id
  {
    if requests == [] then 0 else (if requests[0].id == id then 1 else 0) + CountId(requests[1..], id)
  }

  /** After the delete no request has the id, and every other request is still there, in order. */
  lemma DeleteRemovesExactly(requests: seq<BookingRequest>, id: string, r: BookingRequest)
    ensures r in WithoutId(requests, id) <==> r in requests && r.id != id
    ensures IsSubsequence(WithoutId(requests, id), requests)
  {
    FilterMembers(IdIsNot(id), requests);
    FilterIsSubsequence(IdIsNot(id), requests);
  }

  /** Deleting an id nobody has changes nothing. */
  lemma DeleteAbsentIsNoOp(requests: seq<BookingRequest>, id: string)
    requires forall i :: 0 <= i < |requests| ==> requests[i].id != id
    ensures WithoutId(requests, id) == requests
  {
    FilterKeepsAll(IdIsNot(id), requests);
  }

  /** Deleting the same id twice is deleting it once. */
  lemma DeleteIdempotent(requests: seq<BookingRequest>, id: string)
    ensures WithoutId(WithoutId(requests, id), id) == WithoutId(requests, id)
  {
    var once := WithoutId(requests, id);
    FilterMembers(IdIsNot(id), requests);
    forall i | 0 <= i < |once| ensures once[i].id != id {
      assert once[i] in once;
    }
    DeleteAbsentIsNoOp(once, id);
  }

  /** The list shrinks by exactly the number of requests with the id. */
  lemma {:induction false} DeleteShrinksByCount(requests: seq<BookingRequest>, id: string)
    ensures |WithoutId(requests, id)| == |requests| - CountId(requests, id)
  {
    if requests != [] {
      DeleteShrinksByCount(requests[1..], id);
    }
  }

  class Screen {
    var user: Option<Session>
    var requests: seq<BookingRequest>

    constructor ()
      ensures user.None? && requests == []
    {
      user, requests := None, [];
    }

    /** The storage read of the first effect has landed. */
    method UserLoaded(stored: Option<Session>)
      modifies this`user
      ensures user == stored
    {
      user := stored;
    }

    /** `fetchBookingRequests` with the user its closure sees. Reading the token of an absent
        user throws, and the catch swallows it; an OK reply replaces the list; a failed one
        throws into the same catch. */
    method FetchRequests(seen: Option<Session>, reply: FetchReply)
      modifies this`requests
      ensures seen.Some? && reply.Fetched? && reply.ok ==> requests == reply.body
      ensures !(seen.Some? && reply.Fetched? && reply.ok) ==> requests == old(requests)
    {
      if seen.None? {
        return;
      }
      match reply {
        case FetchThrew =>
        case Fetched(ok, body) =>
          if ok {
            requests := body;
          }
      }
    }

    /** `deleteRequest(id)` and the answer to its confirmation dialog. */
    method DeleteRequest(id: string, choice: Choice)
      modifies this`requests
      ensures requests == if choice == Delete then WithoutId(old(requests), id) else old(requests)
    {
      if choice == Delete {
        requests := WithoutId(requests, id);
      }
    }
  }

  /** The mount as written: the list effect has no dependencies, so it runs once, right after
      the first render, while the storage read is still pending and `user` is undefined. The
      list stays empty whatever is stored and whatever the server would answer. */
  method MountAsWritten(stored: Option<Session>, reply: FetchReply) returns (shown: seq<BookingRequest>)
    ensures shown == []
  {
    var screen := new Screen();
    screen.FetchRequests(screen.user, reply);
    screen.UserLoaded(stored);
    shown := screen.requests;
  }

  /** The mount with the list effect run once the user has loaded, as the other screens do:
      a signed-in owner sees the requests the server returns. */
  method MountAfterUserLoads(stored: Option<Session>, reply: FetchReply) returns (shown: seq<BookingRequest>)
    ensures stored.Some? && reply.Fetched? && reply.ok ==> shown == reply.body
    ensures !(stored.Some? && reply.Fetched? && reply.ok) ==> shown == []
  {
    var screen := new Screen();
    screen.UserLoaded(stored);
    screen.FetchRequests(screen.user, reply);
    shown := screen.requests;
  }
}
