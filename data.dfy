/** The records the chat client stores and shows. Every field that is nullable in
    the Kotlin data classes is an `Option` here. */
module Data {

  datatype Option<+T> = None | Some(value: T)

  /** A profile document of the users collection. */
  datatype UserData = UserData(
    userId: Option<string>,
    name: Option<string>,
    number: Option<string>,
    imageUrl: Option<string>)

  /** A participant snapshot, embedded in a chat and in a status. */
  datatype ChatUser = ChatUser(
    userId: Option<string>,
    name: Option<string>,
    imageUrl: Option<string>,
    number: Option<string>)

  datatype ChatData = ChatData(chatId: string, user1: ChatUser, user2: ChatUser)

  datatype Message = Message(sentBy: Option<string>, message: string, timestamp: string)

  /** A status post; `timestamp` is epoch milliseconds. */
  datatype Status = Status(user: ChatUser, imageUrl: Option<string>, timestamp: int)

  /** A Java exception, of which only the localized message is ever read. */
  datatype Exc = Exc(localizedMessage: Option<string>)

  /** How an asynchronous backend task completed. */
  datatype Outcome = Success | Failure(exc: Exc)

  /** `userData?.userId`: null when no profile is loaded. */
  function OwnId(u: Option<UserData>): Option<string> {
    if u.Some? then u.value.userId else None
  }

  /** `userData?.number`. */
  function OwnNumber(u: Option<UserData>): Option<string> {
    if u.Some? then u.value.number else None
  }

  /** `ChatUser(u?.userId, u?.name, u?.imageUrl, u?.number)`: a snapshot of a
      possibly absent profile. */
  function Snapshot(u: Option<UserData>): (c: ChatUser)
    ensures c.userId == OwnId(u) && c.number == OwnNumber(u)
    ensures u.None? ==> c == ChatUser(None, None, None, None)
    ensures u.Some? ==> c.name == u.value.name && c.imageUrl == u.value.imageUrl
  {
    match u
    case None => ChatUser(None, None, None, None)
    case Some(p) => ChatUser(p.userId, p.name, p.imageUrl, p.number)
  }
}
