/** The records the client receives from the server, reduced to the fields the core reads. */
module Entities {
  import opened Js

  /** A user object (`_id`, `email`, `firstName`, `lastName`, `avatar`); absent fields are `Undef`. */
  datatype User = User(id: JsStr, email: JsStr, firstName: JsStr, lastName: JsStr, avatar: JsStr)

  /** A conversation: `_id`, optional `name`, the optional `participants` array and the
      optional `otherUser` summary. */
  datatype Chat = Chat(id: string, name: JsStr, participants: Option<seq<User>>, otherUser: Option<User>)

  /** A group (group screens are stubs; only its identity is carried around). */
  datatype Group = Group(id: string, name: JsStr)

  /** A persisted chat message as the server sends it: `_id`, the sender's `user._id`, text, time. */
  datatype Message = Message(id: string, senderId: JsStr, text: string, createdAt: JsStr)

  /** An opaque handle on a File or Blob chosen by the user. */
  datatype FileRef = FileRef(handle: nat)

  /** The body of a login or registration reply: `{token, refresh, user, msg}`. */
  datatype LoginData = LoginData(token: JsStr, refresh: JsStr, user: Option<User>, msg: JsStr)

  /** The reply to a login or registration POST: the fetch rejected with a message, or a response
      with its `ok` flag and the outcome of `res.json()`. */
  datatype AuthReply = NoReply(message: string) | Reply(ok: bool, body: Result<LoginData>)

  /** A list response read as `data.<field> || data`: either the bare array or an object whose
      field holds the array. */
  datatype Listing<T> = Bare(items: seq<T>) | Enveloped(items: seq<T>)

  /** A list response read through `Array.isArray(data) ? data : []`. */
  datatype Json<T> = JsonArray(items: seq<T>) | JsonNonArray

  /** The list that `data.<field> || data` yields (an array is truthy even when empty). */
  function FieldOrSelf<T>(data: Listing<T>): seq<T> {
    match data
    case Bare(xs) => xs
    case Enveloped(xs) => xs
  }

  /** `Array.isArray(data) ? data : []` */
  function ArrayOrEmpty<T>(data: Json<T>): seq<T> {
    if data.JsonArray? then data.items else []
  }
}
