/** Status visibility (`populateStatutes`): the connection list built from the
    user's chats, and the recency and membership filter on status posts. */
module Statuses {
  import opened Data
  import opened Seqs
  import opened Chats

  /** 24 hours in milliseconds. */
  const DayMillis: int := 24 * 60 * 60 * 1000

  /** The oldest timestamp that is already too old to show. */
  function CutOff(now: int): (c: int)
    ensures c == now - 86_400_000
  {
    now - DayMillis
  }

  /** The id one chat adds to the connections: the second participant's id when
      that is the user's own, else the first participant's id. */
  function ConnectionFrom(own: Option<string>, chat: ChatData): Option<string> {
    if chat.user2.userId == own then chat.user2.userId else chat.user1.userId
  }

  /** `currentConnections`: the own id, then one entry per chat in order. */
  function ConnectionsOf(own: Option<string>, chats: seq<ChatData>): seq<Option<string>>
    decreases |chats|
  {
    if chats == [] then [own]
    else ConnectionsOf(own, chats[..|chats| - 1]) + [ConnectionFrom(own, chats[|chats| - 1])]
  }

  /** The list starts with the own id and gains one entry per chat, the one
      `ConnectionFrom` gives for that chat; an entry that is not the own id is
      the first participant of a chat whose second participant is someone
      else. */
  lemma {:induction false} ConnectionsShape(own: Option<string>, chats: seq<ChatData>)
    ensures |ConnectionsOf(own, chats)| == |chats| + 1
    ensures ConnectionsOf(own, chats)[0] == own
    ensures forall i :: 0 <= i < |chats| ==> ConnectionsOf(own, chats)[i + 1] == ConnectionFrom(own, chats[i])
    ensures forall i :: 0 <= i < |chats| ==>
      ConnectionsOf(own, chats)[i + 1] == own ||
      (chats[i].user2.userId != own && ConnectionsOf(own, chats)[i + 1] == chats[i].user1.userId)
    decreases |chats|
  {
    if chats != [] {
      var init := chats[..|chats| - 1];
      ConnectionsShape(own, init);
      assert forall i :: 0 <= i < |init| ==> init[i] == chats[i];
    }
  }

  /** When every chat involves the user, every connection is the user's own id:
      the other participant is never added. */
  lemma {:induction false} ConnectionsAreAllOwn(own: Option<string>, chats: seq<ChatData>)
    requires forall i :: 0 <= i < |chats| ==> chats[i].user1.userId == own || chats[i].user2.userId == own
    ensures forall x :: x in ConnectionsOf(own, chats) ==> x == own
    decreases |chats|
  {
    if chats != [] {
      var init := chats[..|chats| - 1];
      assert forall i :: 0 <= i < |init| ==> init[i] == chats[i];
      ConnectionsAreAllOwn(own, init);
    }
  }

  /** The `forEach` loop that fills `currentConnections`. */
  method CollectConnections(own: Option<string>, chats: seq<ChatData>) returns (connections: seq<Option<string>>)
    ensures connections == ConnectionsOf(own, chats)
  {
    connections := [own];
    var i := 0;
    while i < |chats|
      invariant 0 <= i <= |chats|
      invariant connections == ConnectionsOf(own, chats[..i])
    {
      assert chats[..i + 1][..i] == chats[..i];
      if chats[i].user2.userId == own {
        connections := connections + [chats[i].user2.userId];
      } else {
        connections := connections + [chats[i].user1.userId];
      }
      i := i + 1;
    }
    assert chats[..|chats|] == chats;
  }

  /** The status query: posts newer than the cut-off whose author is among the
      connections, in collection order. */
  function VisibleStatuses(statuses: seq<Status>, cutOff: int, connections: seq<Option<string>>): (r: seq<Status>)
    ensures forall s :: s in r <==> s in statuses && s.timestamp > cutOff && s.user.userId in connections
  {
    Filter(statuses, (s: Status) => s.timestamp > cutOff && s.user.userId in connections)
  }

  /** With the connections built from the user's own chats, exactly the user's own
      recent posts are visible: the same list as with the own id alone. */
  lemma OnlyOwnStatusesVisible(statuses: seq<Status>, cutOff: int, own: Option<string>, chats: seq<ChatData>)
    ensures VisibleStatuses(statuses, cutOff, ConnectionsOf(own, ChatsInvolving(chats, own))) ==
            VisibleStatuses(statuses, cutOff, [own])
  {
    var involved := ChatsInvolving(chats, own);
    var conns := ConnectionsOf(own, involved);
    assert forall i :: 0 <= i < |involved| ==> involved[i] in involved;
    ConnectionsAreAllOwn(own, involved);
    ConnectionsShape(own, involved);
    assert forall x :: x in conns <==> x == own;
    FilterSame(statuses,
      (s: Status) => s.timestamp > cutOff && s.user.userId in conns,
      (s: Status) => s.timestamp > cutOff && s.user.userId in [own]);
  }

  /** So a contact's post is never visible, however recent and whatever chats
      exist. */
  lemma ContactStatusNeverVisible(statuses: seq<Status>, now: int, own: Option<string>,
                                  chats: seq<ChatData>, s: Status)
    requires s.user.userId != own
    ensures s !in VisibleStatuses(statuses, CutOff(now), ConnectionsOf(own, ChatsInvolving(chats, own)))
  {
    OnlyOwnStatusesVisible(statuses, CutOff(now), own, chats);
  }

  /** A chat listener registered for `uid` stays live after the current user
      changes to `own` (a log-out, or a sign-in as someone else). Its deliveries
      build the connections from `own` over `uid`'s chats, so the first
      participant of each chat whose second participant is `uid` becomes a
      connection, and that participant's recent posts are visible. */
  lemma StaleListenerShowsContacts(statuses: seq<Status>, cutOff: int, own: Option<string>, uid: Option<string>,
                                   chats: seq<ChatData>, c: ChatData, s: Status)
    requires uid != own && c in chats && c.user2.userId == uid
    requires s in statuses && s.timestamp > cutOff && s.user.userId == c.user1.userId
    ensures c.user1.userId in ConnectionsOf(own, ChatsInvolving(chats, uid))
    ensures s in VisibleStatuses(statuses, cutOff, ConnectionsOf(own, ChatsInvolving(chats, uid)))
  {
    var involved := ChatsInvolving(chats, uid);
    assert c in involved;
    var i :| 0 <= i < |involved| && involved[i] == c;
    ConnectionsShape(own, involved);
    assert ConnectionsOf(own, involved)[i + 1] == c.user1.userId;
  }
}
