/** The records the screens receive from the server and from client storage. */
module Records {
  import opened Js

  /** A room or flat listing as the server returns it: the fields the screens read. */
  datatype Room = Room(
    r_id: string,
    u_id: string,
    title: string,
    description: string,
    address: string,
    price: string,
    room_type: string,
    room_status: string,
    admin_approval: JsBool,
    is_available: JsBool)

  /** The signed-in user kept in client storage: the bearer token and the user's id. */
  datatype Session = Session(accessToken: string, userId: Option<string>)

  /** A point given as `[latitude, longitude]`; the values are only carried, never computed with. */
  datatype GeoPoint = GeoPoint(latitude: real, longitude: real)

  /** The map position every form starts from. */
  const DefaultLocation := GeoPoint(27.716842, 85.321386)

  /** A native alert dialog: its title and its message. */
  datatype Alert = Alert(title: string, message: string)

  /** How a request ended: it threw (network failure or an unreadable body), or the server
      replied with a status that is OK or not and a body whose `message` may be absent. */
  datatype Reply = Threw | Replied(ok: bool, message: Option<string>)
}
