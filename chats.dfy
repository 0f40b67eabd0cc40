/** Chat records: the chat-list query and the decision chain of `onAddChat`. */
module Chats {
  import opened Data
  import opened Seqs
  import opened Profiles

  /** The chat list query of `populateChats`: only chats whose first participant
      is the user. */
  function ChatsWithUser1(chats: seq<ChatData>, uid: Option<string>): (r: seq<ChatData>)
    ensures forall c :: c in r <==> c in chats && c.user1.userId == uid
  {
    Filter(chats, (c: ChatData) => c.user1.userId == uid)
  }

  /** A chat in which the user is only the second participant never appears in
      that user's chat list. */
  lemma SecondParticipantNotListed(chats: seq<ChatData>, c: ChatData, uid: Option<string>)
    requires c in chats && c.user2.userId == uid && c.user1.userId != uid
    ensures c !in ChatsWithUser1(chats, uid)
  {
  }

  /** The chat query of `populateStatutes`: chats in which the user is either
      participant. */
  function ChatsInvolving(chats: seq<ChatData>, uid: Option<string>): (r: seq<ChatData>)
    ensures forall c :: c in r <==> c in chats && (c.user1.userId == uid || c.user2.userId == uid)
  {
    Filter(chats, (c: ChatData) => c.user1.userId == uid || c.user2.userId == uid)
  }

  /** ASCII decimal digits. */
  predicate IsDigit(ch: char) {
    '0' <= ch <= '9'
  }

  /** The input guard of `onAddChat`: non-empty and digits only. */
  predicate ValidNumber(number: string) {
    number != [] && forall i :: 0 <= i < |number| ==> IsDigit(number[i])
  }

  /** The chat pairs {own number, target} in either participant order. */
  predicate SamePair(c: ChatData, number: string, own: Option<string>) {
    (c.user1.number == Some(number) && c.user2.number == own) ||
    (c.user1.number == own && c.user2.number == Some(number))
  }

  /** The result of the duplicate-pair query. */
  function ExistingChats(chats: seq<ChatData>, number: string, own: Option<string>): (r: seq<ChatData>)
    ensures r == [] <==> forall i :: 0 <= i < |chats| ==> !SamePair(chats[i], number, own)
  {
    var r := Filter(chats, (c: ChatData) => SamePair(c, number, own));
    assert r != [] ==> r[0] in chats;
    assert r == [] ==> forall i :: 0 <= i < |chats| ==> !SamePair(chats[i], number, own) by {
      if r == [] {
        forall i | 0 <= i < |chats| ensures !SamePair(chats[i], number, own) {
          assert chats[i] in chats;
        }
      }
    }
    r
  }

  datatype AddChatDecision = NotDigits | AlreadyExists | NotFound | Create

  /** The checks of `onAddChat`, in the order the code makes them. */
  function DecideAddChat(number: string, own: Option<string>, chats: seq<ChatData>, users: Users): (d: AddChatDecision)
    ensures d == NotDigits <==> !ValidNumber(number)
    ensures d == AlreadyExists <==>
      ValidNumber(number) && exists i :: 0 <= i < |chats| && SamePair(chats[i], number, own)
    ensures d == NotFound <==>
      ValidNumber(number) && (forall i :: 0 <= i < |chats| ==> !SamePair(chats[i], number, own)) &&
      WithNumber(users, number) == {}
    ensures d == Create <==>
      ValidNumber(number) && (forall i :: 0 <= i < |chats| ==> !SamePair(chats[i], number, own)) &&
      WithNumber(users, number) != {}
  {
    if !ValidNumber(number) then NotDigits
    else if ExistingChats(chats, number, own) != [] then AlreadyExists
    else if WithNumber(users, number) == {} then NotFound
    else Create
  }

  const DigitsOnly := "Number must contains digits only"
  const ChatAlreadyExist := "Chat Already Exist"
  const NumberNotFound := "Number Not Found"

  /** The message each rejection posts. */
  function RejectionMessage(d: AddChatDecision): (msg: string)
    requires d != Create
  {
    match d
    case NotDigits => DigitsOnly
    case AlreadyExists => ChatAlreadyExist
    case NotFound => NumberNotFound
  }

  /** The chat record added: snapshots of the current profile and of the partner. */
  function NewChat(chatId: string, own: Option<UserData>, partner: UserData): (c: ChatData)
    ensures c.chatId == chatId && c.user1 == Snapshot(own) && c.user2 == Snapshot(Some(partner))
  {
    ChatData(chatId, Snapshot(own), Snapshot(Some(partner)))
  }

  /** Once a chat between numbers `a` and `b` exists, adding either number from
      the other side is rejected as a duplicate, whichever user created it. */
  lemma AddedPairIsDuplicateBothWays(chats: seq<ChatData>, users: Users, chatId: string,
                                     me: UserData, partner: UserData, a: string, b: string)
    requires me.number == Some(a) && partner.number == Some(b)
    requires ValidNumber(a) && ValidNumber(b)
    ensures var after := chats + [NewChat(chatId, Some(me), partner)];
            DecideAddChat(b, Some(a), after, users) == AlreadyExists &&
            DecideAddChat(a, Some(b), after, users) == AlreadyExists
  {
    var after := chats + [NewChat(chatId, Some(me), partner)];
    assert SamePair(after[|chats|], b, Some(a)) && SamePair(after[|chats|], a, Some(b));
  }
}
