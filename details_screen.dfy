/** The room details screen: its status tag, its Book button and the booking request. */
module DetailsScreen {
  import opened Js
  import opened Records

  /** The booking request's JSON body. `JSON.stringify` leaves out the fields that are undefined. */
  datatype BookingPayload = BookingPayload(room_id: Option<string>, user_id: Option<string>, owner_id: Option<string>, price: Option<string>)

  /** The body `handleBook` builds: the room's id, owner and price through `room?.`, and the
      signed-in user's id through `user?.user?.id`. */
  function PayloadOf(room: Option<Room>, user: Session): (p: BookingPayload)
    ensures room.Some? ==> p.room_id == Some(room.value.r_id) && p.owner_id == Some(room.value.u_id)
                           && p.price == Some(room.value.price)
    ensures room.None? ==> p.room_id.None? && p.owner_id.None? && p.price.None?
    ensures p.user_id == user.userId
  {
    if room.None? then BookingPayload(None, user.userId, None, None)
    else BookingPayload(Some(room.value.r_id), user.userId, Some(room.value.u_id), Some(room.value.price))
  }

  /** The booking request: the bearer header and the body. */
  datatype BookRequest = BookRequest(authorization: string, body: BookingPayload)

  const SignInRequired := Alert("Sign In Required", "Please sign in to book this room.")
  const BookingSent := Alert("Booking Successful", "Your booking request has been sent! We will notify you when the owner responds.")
  const BookingError := Alert("Error", "Something went wrong. Please try again later.")
  const LoadFailed := Alert("Error", "Failed to load room details. Please try again.")

  /** The alert once the booking request has ended. */
  function BookingAlert(reply: Reply): (a: Alert)
    ensures reply.Threw? ==> a == BookingError
    ensures reply.Replied? && reply.ok ==> a == BookingSent
    ensures reply.Replied? && !reply.ok ==>
              a.title == "Booking Failed" && a.message == OrElse(reply.message, "Failed to book the room.")
  {
    match reply
    case Threw => BookingError
    case Replied(ok, message) =>
      if ok then BookingSent else Alert("Booking Failed", OrElse(message, "Failed to book the room."))
  }

  /** A failed booking shows the server's message when it sent a non-empty one, and the
      fixed text otherwise. */
  lemma FailureMessageChoice(message: Option<string>)
    ensures message.Some? && message.value != "" ==> BookingAlert(Replied(false, message)).message == message.value
    ensures message.None? ==> BookingAlert(Replied(false, message)).message == "Failed to book the room."
  {
  }

  /** How the details request ended: it threw (also on a non-OK status), or the body arrived
      with its room, which may be absent. */
  datatype DetailsReply = DetailsThrew | DetailsFetched(data: Option<Room>)

  /** The status tag: 'Available' exactly for an available room. */
  function StatusTag(room: Option<Room>): string {
    if room.Some? && room.value.room_status == "available" then "Available" else "Booked"
  }

  /** The Book button is rendered for an available room only. */
  predicate ShowsBookButton(room: Option<Room>) {
    room.Some? && room.value.room_status == "available"
  }

  /** The button is there exactly when the tag says 'Available'. */
  lemma ButtonFollowsTag(room: Option<Room>)
    ensures ShowsBookButton(room) <==> StatusTag(room) == "Available"
    ensures !ShowsBookButton(room) ==> StatusTag(room) == "Booked"
  {
  }

  class Screen {
    var user: Option<Session>
    var room: Option<Room>
    var loading: bool
    var bookingLoading: bool

    constructor ()
      ensures user.None? && room.None? && !loading && !bookingLoading
    {
      user, room, loading, bookingLoading := None, None, false, false;
    }

    /** The button is pressable: rendered and not disabled by a booking in progress. */
    predicate BookButtonEnabled()
      reads this
    {
      ShowsBookButton(room) && !bookingLoading
    }

    /** `fetchUserAndRoom` once it has settled: the stored user is kept, and the room is asked
        for only with a non-empty token. */
    method DetailsLoaded(stored: Option<Session>, reply: DetailsReply) returns (alert: Option<Alert>)
      modifies this`user, this`room, this`loading
      ensures user == stored && !loading
      ensures stored.Some? && stored.value.accessToken != "" && reply.DetailsFetched? ==> room == reply.data
      ensures !(stored.Some? && stored.value.accessToken != "" && reply.DetailsFetched?) ==> room == old(room)
      ensures alert.Some? <==> stored.Some? && stored.value.accessToken != "" && reply.DetailsThrew?
      ensures alert.Some? ==> alert.value == LoadFailed
    {
      loading := true;
      user := stored;
      alert := None;
      if stored.Some? && stored.value.accessToken != "" {
        match reply {
          case DetailsThrew =>
            alert := Some(LoadFailed);
          case DetailsFetched(data) =>
            room := data;
        }
      }
      loading := false;
    }

    /** `handleBook` up to its `await`: with no user only the sign-in alert is shown and
        nothing is sent; otherwise the body is built and `bookingLoading` is raised. */
    method BeginBooking() returns (request: Option<BookRequest>, alert: Option<Alert>)
      modifies this`bookingLoading
      ensures request.Some? <==> user.Some?
      ensures user.None? ==> alert == Some(SignInRequired) && bookingLoading == old(bookingLoading)
      ensures user.Some? ==> alert.None? && bookingLoading
      ensures user.Some? ==> request.value == BookRequest("Bearer " + user.value.accessToken, PayloadOf(room, user.value))
      ensures user.Some? ==> !BookButtonEnabled()
    {
      if user.None? {
        return None, Some(SignInRequired);
      }
      var body := PayloadOf(room, user.value);
      bookingLoading := true;
      request, alert := Some(BookRequest("Bearer " + user.value.accessToken, body)), None;
    }

    /** The rest of `handleBook`: the reply's alert, and `bookingLoading` lowered on every path. */
    method BookingSettled(reply: Reply) returns (alert: Alert)
      modifies this`bookingLoading
      ensures alert == BookingAlert(reply) && !bookingLoading
      ensures BookButtonEnabled() <==> ShowsBookButton(room)
    {
      alert := BookingAlert(reply);
      bookingLoading := false;
    }
  }
}
