/** The view-model of the chat client over an in-memory stand-in for its
    backend. One-shot queries and writes complete inside the call that makes
    them, with their outcomes passed in as parameters; each live listener is
    recorded when it is registered, and each snapshot it delivers is a call of
    its own (`On...Snapshot`). Every method's `modifies` clause names the
    fields it may change; all other fields keep their values. */
module LiveChat {
  import opened Data
  import opened Profiles
  import opened Messages
  import opened Chats
  import opened Statuses
  import opened Events

  /** Authentication state and the document store. */
  class Backend {
    /** `auth.currentUser?.uid` */
    var currentUid: Option<string>
    /** the users collection, keyed by uid */
    var users: Users
    /** the chats collection, in insertion order */
    var chats: seq<ChatData>
    /** each chat's message sub-collection */
    var messages: map<string, seq<Message>>
    /** the status collection, in insertion order */
    var statuses: seq<Status>

    constructor (currentUid: Option<string>, users: Users, chats: seq<ChatData>,
                 messages: map<string, seq<Message>>, statuses: seq<Status>)
      ensures this.currentUid == currentUid && this.users == users && this.chats == chats
      ensures this.messages == messages && this.statuses == statuses
    {
      this.currentUid, this.users, this.chats := currentUid, users, chats;
      this.messages, this.statuses := messages, statuses;
    }
  }

  /** The chat query a `populateStatutes` call registers, with its cut-off. */
  datatype StatusChatsQuery = StatusChatsQuery(uid: Option<string>, cutOff: int)

  /** The status query registered when that chat query delivers. */
  datatype StatusQuery = StatusQuery(cutOff: int, connections: seq<Option<string>>)

  /** `exception?.localizedMessage ?: ""` */
  function ExceptionMessage(exception: Option<Exc>): string {
    if exception.Some? && exception.value.localizedMessage.Some? then exception.value.localizedMessage.value else ""
  }

  /** The text `handleException` posts: the custom message unless it is empty,
      else the exception's message, else the empty string. */
  function ErrorText(exception: Option<Exc>, customMessage: string): (msg: string)
    ensures customMessage != "" ==> msg == customMessage
    ensures customMessage == "" && exception.Some? && exception.value.localizedMessage.Some? ==>
      msg == exception.value.localizedMessage.value
    ensures customMessage == "" && (exception.None? || exception.value.localizedMessage.None?) ==> msg == ""
  {
    if customMessage == "" then ExceptionMessage(exception) else customMessage
  }

  predicate SignUpFilled(name: string, number: string, email: string, password: string) {
    name != "" && number != "" && email != "" && password != ""
  }

  predicate SignInFilled(email: string, password: string) {
    email != "" && password != ""
  }

  /** The messages the view-model posts. */
  const FillAllFields := "Please Fill All fields"
  const NumberAlreadyExists := "Number Already Exists"
  const SignUpFailed := "Sign Up Failed"
  const SignInFailed := "Sign In Failed"
  const RetrieveFailed := "Failed to retrieve user data"
  const UpdateFailed := "Failed to update profile"
  const CannotRetrieveUser := "Cannot Retrieve User"
  const LoggedOut := "Logged Out"

  class LCViewModel {
    const store: Backend

    var inProgress: bool
    var inProgressChats: bool
    var eventMutableState: Event?<string>
    var signIn: bool
    var userData: Option<UserData>
    var chats: seq<ChatData>
    var chatMessages: seq<Message>
    var inProgressChatMessage: bool
    /** the handle of the message listener: an index into `messageListeners` */
    var currentChatMessageListener: Option<nat>
    var status: seq<Status>
    var inProgressStatus: bool

    /** The live listeners registered so far, in order; none is ever removed. */
    var userListeners: seq<string>
    var chatListeners: seq<Option<string>>
    var statusChatListeners: seq<StatusChatsQuery>
    var statusListeners: seq<StatusQuery>
    var messageListeners: seq<string>

    /** An unhandled event carrying `msg` is the current one. */
    predicate Posted(msg: string)
      reads this, eventMutableState
    {
      eventMutableState != null && eventMutableState.content == msg && !eventMutableState.hasBeenHandled
    }

    /** The notification state after posting `msg`, given the event `e0` that was
        current before. The state holder compares by value, and two events are
        equal when their contents are: an event already carrying `msg` stays in
        place, handled or not, and otherwise a new unhandled one carries `msg`. */
    predicate Notified(msg: string, e0: Event?<string>)
      reads this, eventMutableState
    {
      if e0 != null && e0.content == msg then eventMutableState == e0 else Posted(msg)
    }

    /** The part of the session that sign-up, sign-in and profile writes change
        equals the given values. */
    predicate SessionIs(signIn0: bool, uid0: Option<string>, users0: Users, userListeners0: seq<string>)
      reads this, store
    {
      signIn == signIn0 && store.currentUid == uid0 && store.users == users0 && userListeners == userListeners0
    }

    /** The outcome of the profile write of `createOrUpdateProfile` for `uid`,
        from the given earlier users collection, profile listeners and event. */
    predicate AfterProfileWrite(uid: string, name: Option<string>, number: Option<string>, imageUrl: Option<string>,
                                read: Outcome, write: Outcome,
                                users0: Users, userListeners0: seq<string>, event0: Event?<string>)
      reads this, store, eventMutableState
    {
      if read.Failure? then
        Notified(RetrieveFailed, event0) && !inProgress && store.users == users0 && userListeners == userListeners0
      else if write.Failure? then
        Notified(UpdateFailed, event0) && !inProgress && store.users == users0 && userListeners == userListeners0
      else
        store.users == UpdateProfile(users0, uid, name, number, imageUrl) &&
        inProgress && userListeners == userListeners0 + [uid] && eventMutableState == event0
    }

    /** `init`: signed in when the backend has a current account, whose profile
        listener is then registered. */
    constructor (store: Backend)
      ensures this.store == store
      ensures signIn == inProgress == store.currentUid.Some?
      ensures userListeners == if store.currentUid.Some? then [store.currentUid.value] else []
      ensures !inProgressChats && !inProgressChatMessage && !inProgressStatus && eventMutableState == null
      ensures userData == None && chats == [] && chatMessages == [] && status == []
      ensures currentChatMessageListener == None
      ensures chatListeners == [] && statusChatListeners == [] && statusListeners == [] && messageListeners == []
    {
      this.store := store;
      inProgress, inProgressChats, eventMutableState := false, false, null;
      signIn, userData, chats, chatMessages := store.currentUid.Some?, None, [], [];
      inProgressChatMessage, currentChatMessageListener := false, None;
      status, inProgressStatus := [], false;
      userListeners, chatListeners, statusChatListeners, statusListeners, messageListeners := [], [], [], [], [];
      new;
      if store.currentUid.Some? {
        GetUserData(store.currentUid.value);
      }
    }

    /** `eventMutableState.value = Event(msg)`: the write is skipped when the
        current event equals the new one, that is, carries the same content. */
    method Notify(msg: string)
      modifies this`eventMutableState
      ensures eventMutableState == old(eventMutableState) || fresh(eventMutableState)
      ensures Notified(msg, old(eventMutableState))
    {
      if eventMutableState == null || eventMutableState.content != msg {
        eventMutableState := new Event(msg);
      }
    }

    method HandleException(exception: Option<Exc>, customMessage: string)
      modifies this`eventMutableState, this`inProgress
      ensures eventMutableState == old(eventMutableState) || fresh(eventMutableState)
      ensures Notified(ErrorText(exception, customMessage), old(eventMutableState)) && !inProgress
    {
      var message := ErrorText(exception, customMessage);
      Notify(message);
      inProgress := false;
    }

    /** The same error twice, with the notification read in between: the second
        write is skipped because the read event still carries the message, so
        the second read returns null and the user sees the message once. */
    method RepeatedNoticeAfterReadIsDropped(msg: string) returns (first: Option<string>, second: Option<string>)
      requires msg != "" && (eventMutableState == null || eventMutableState.content != msg)
      modifies this`eventMutableState, this`inProgress
      ensures first == Some(msg) && second == None
    {
      HandleException(None, msg);
      first := eventMutableState.GetContentOrNull();
      HandleException(None, msg);
      second := eventMutableState.GetContentOrNull();
    }

    /** Registers the listener on uid's profile document. */
    method GetUserData(uid: string)
      modifies this`inProgress, this`userListeners
      ensures inProgress && userListeners == old(userListeners) + [uid]
    {
      inProgress := true;
      userListeners := userListeners + [uid];
    }

    /** Writes the signed-in user's record, merging the supplied fields over the
        stored ones; nothing happens when no user is signed in. */
    method CreateOrUpdateProfile(name: Option<string>, number: Option<string>, imageUrl: Option<string>,
                                 read: Outcome, write: Outcome)
      modifies this`eventMutableState, this`inProgress, this`userListeners, store`users
      ensures eventMutableState == old(eventMutableState) || fresh(eventMutableState)
      ensures old(store.currentUid).None? ==>
        inProgress == old(inProgress) && userListeners == old(userListeners) &&
        store.users == old(store.users) && eventMutableState == old(eventMutableState)
      ensures old(store.currentUid).Some? ==>
        AfterProfileWrite(old(store.currentUid).value, name, number, imageUrl, read, write,
          old(store.users), old(userListeners), old(eventMutableState))
    {
      if store.currentUid.Some? {
        var uid := store.currentUid.value;
        if read.Failure? {
          HandleException(Some(read.exc), RetrieveFailed);
        } else {
          var updatedUserData := Merge(uid, FindUser(store.users, uid), name, number, imageUrl);
          if write.Success? {
            store.users := store.users[uid := updatedUserData];
            inProgress := false;
            GetUserData(uid);
          } else {
            HandleException(Some(write.exc), UpdateFailed);
          }
        }
      }
    }

    /** The completion of account creation in `signUp`: on success the new
        account is signed in and its profile is written with the given name and
        number. */
    method CreateAccount(name: string, number: string, create: Outcome, newUid: string, read: Outcome, write: Outcome)
      modifies this`eventMutableState, this`inProgress, this`signIn, this`userListeners, store`currentUid, store`users
      ensures eventMutableState == old(eventMutableState) || fresh(eventMutableState)
      ensures create.Failure? ==>
        Notified(SignUpFailed, old(eventMutableState)) && !inProgress &&
        SessionIs(old(signIn), old(store.currentUid), old(store.users), old(userListeners))
      ensures create.Success? ==>
        signIn && store.currentUid == Some(newUid) &&
        AfterProfileWrite(newUid, Some(name), Some(number), None, read, write,
          old(store.users), old(userListeners), old(eventMutableState))
    {
      if create.Success? {
        store.currentUid := Some(newUid);
        signIn := true;
        CreateOrUpdateProfile(Some(name), Some(number), None, read, write);
      } else {
        HandleException(Some(create.exc), SignUpFailed);
      }
    }

    /** Sign-up: the input check, the duplicate-number query and then account
        creation. The number query has no failure branch: when it fails,
        `inProgress` stays true. */
    method SignUp(name: string, number: string, email: string, password: string,
                  numberQueryOk: bool, create: Outcome, newUid: string, read: Outcome, write: Outcome)
      modifies this`eventMutableState, this`inProgress, this`signIn, this`userListeners, store`currentUid, store`users
      ensures eventMutableState == old(eventMutableState) || fresh(eventMutableState)
      ensures !SignUpFilled(name, number, email, password) ==>
        Notified(FillAllFields, old(eventMutableState)) && !inProgress &&
        SessionIs(old(signIn), old(store.currentUid), old(store.users), old(userListeners))
      ensures SignUpFilled(name, number, email, password) && !numberQueryOk ==>
        inProgress && eventMutableState == old(eventMutableState) &&
        SessionIs(old(signIn), old(store.currentUid), old(store.users), old(userListeners))
      ensures SignUpFilled(name, number, email, password) && numberQueryOk && WithNumber(old(store.users), number) != {} ==>
        Notified(NumberAlreadyExists, old(eventMutableState)) && !inProgress &&
        SessionIs(old(signIn), old(store.currentUid), old(store.users), old(userListeners))
      ensures SignUpFilled(name, number, email, password) && numberQueryOk && WithNumber(old(store.users), number) == {} ==>
        (create.Failure? ==>
          Notified(SignUpFailed, old(eventMutableState)) && !inProgress &&
          SessionIs(old(signIn), old(store.currentUid), old(store.users), old(userListeners))) &&
        (create.Success? ==>
          signIn && store.currentUid == Some(newUid) &&
          AfterProfileWrite(newUid, Some(name), Some(number), None, read, write,
            old(store.users), old(userListeners), old(eventMutableState)))
    {
      inProgress := true;
      if name == "" || number == "" || email == "" || password == "" {
        HandleException(None, FillAllFields);
        return;
      }
      inProgress := true;
      if !numberQueryOk {
        return;
      }
      if WithNumber(store.users, number) == {} {
        CreateAccount(name, number, create, newUid, read, write);
      } else {
        HandleException(None, NumberAlreadyExists);
        inProgress := false;
      }
    }

    method SignIn(email: string, password: string, auth: Outcome, uid: string)
      modifies this`eventMutableState, this`inProgress, this`signIn, this`userListeners, store`currentUid
      ensures eventMutableState == old(eventMutableState) || fresh(eventMutableState)
      ensures !SignInFilled(email, password) ==>
        Notified(FillAllFields, old(eventMutableState)) && !inProgress &&
        SessionIs(old(signIn), old(store.currentUid), store.users, old(userListeners))
      ensures SignInFilled(email, password) && auth.Failure? ==>
        Notified(SignInFailed, old(eventMutableState)) && !inProgress &&
        SessionIs(old(signIn), old(store.currentUid), store.users, old(userListeners))
      ensures SignInFilled(email, password) && auth.Success? ==>
        signIn && inProgress && store.currentUid == Some(uid) &&
        userListeners == old(userListeners) + [uid] && eventMutableState == old(eventMutableState)
    {
      inProgress := true;
      if email == "" || password == "" {
        HandleException(None, FillAllFields);
        return;
      } else {
        inProgress := true;
        if auth.Success? {
          store.currentUid := Some(uid);
          signIn := true;
          inProgress := false;
          GetUserData(uid);
        } else {
          HandleException(Some(auth.exc), SignInFailed);
        }
      }
    }

    /** A snapshot delivered by the `k`-th profile listener: the loaded profile
        becomes `userData` and the chat and status listeners are registered for it. */
    method OnUserSnapshot(k: nat, failure: Option<Exc>, now: int)
      requires k < |userListeners|
      modifies this`eventMutableState, this`inProgress, this`userData, this`inProgressChats, this`inProgressStatus,
               this`chatListeners, this`statusChatListeners
      ensures eventMutableState == old(eventMutableState) || fresh(eventMutableState)
      ensures failure.Some? ==>
        Notified(CannotRetrieveUser, old(eventMutableState)) && !inProgress && userData == old(userData) &&
        inProgressChats == old(inProgressChats) && inProgressStatus == old(inProgressStatus) &&
        chatListeners == old(chatListeners) && statusChatListeners == old(statusChatListeners)
      ensures failure.None? ==>
        userData == FindUser(store.users, userListeners[k]) && !inProgress &&
        inProgressChats && inProgressStatus && eventMutableState == old(eventMutableState) &&
        chatListeners == old(chatListeners) + [OwnId(userData)] &&
        statusChatListeners == old(statusChatListeners) + [StatusChatsQuery(OwnId(userData), CutOff(now))]
    {
      if failure.None? {
        userData := FindUser(store.users, userListeners[k]);
        inProgress := false;
        PopulateChats();
        PopulateStatutes(now);
      }
      if failure.Some? {
        HandleException(failure, CannotRetrieveUser);
      }
    }

    /** Registers the chat-list listener for the current user id. */
    method PopulateChats()
      modifies this`inProgressChats, this`chatListeners
      ensures inProgressChats && chatListeners == old(chatListeners) + [OwnId(userData)]
    {
      inProgressChats := true;
      chatListeners := chatListeners + [OwnId(userData)];
    }

    /** A snapshot delivered by the `k`-th chat-list listener: the chats whose
        first participant is the listener's user id replace the list. */
    method OnChatsSnapshot(k: nat, failure: Option<Exc>)
      requires k < |chatListeners|
      modifies this`eventMutableState, this`inProgress, this`chats, this`inProgressChats
      ensures eventMutableState == old(eventMutableState) || fresh(eventMutableState)
      ensures failure.Some? ==>
        Notified(ErrorText(failure, ""), old(eventMutableState)) && !inProgress && chats == old(chats) && inProgressChats == old(inProgressChats)
      ensures failure.None? ==>
        chats == ChatsWithUser1(store.chats, chatListeners[k]) && !inProgressChats &&
        inProgress == old(inProgress) && eventMutableState == old(eventMutableState)
    {
      if failure.Some? {
        HandleException(failure, "");
      }
      if failure.None? {
        chats := ChatsWithUser1(store.chats, chatListeners[k]);
        inProgressChats := false;
      }
    }

    /** Registers the first stage of the status pipeline: the listener on the
        chats of the current user, with the cut-off 24 hours before `now`. */
    method PopulateStatutes(now: int)
      modifies this`inProgressStatus, this`statusChatListeners
      ensures inProgressStatus
      ensures statusChatListeners == old(statusChatListeners) + [StatusChatsQuery(OwnId(userData), CutOff(now))]
    {
      var cutOff := now - DayMillis;
      inProgressStatus := true;
      statusChatListeners := statusChatListeners + [StatusChatsQuery(OwnId(userData), cutOff)];
    }

    /** A snapshot delivered by the `k`-th status chat listener: builds the
        connections from the chats involving the listener's user id and registers
        the status listener over them. */
    method OnStatusChatsSnapshot(k: nat, failure: Option<Exc>)
      requires k < |statusChatListeners|
      modifies this`eventMutableState, this`inProgress, this`statusListeners
      ensures eventMutableState == old(eventMutableState) || fresh(eventMutableState)
      ensures failure.Some? ==>
        Notified(ErrorText(failure, ""), old(eventMutableState)) && !inProgress && statusListeners == old(statusListeners)
      ensures failure.None? ==>
        var q := statusChatListeners[k];
        statusListeners == old(statusListeners) +
          [StatusQuery(q.cutOff, ConnectionsOf(OwnId(userData), ChatsInvolving(store.chats, q.uid)))] &&
        inProgress == old(inProgress) && eventMutableState == old(eventMutableState)
    {
      if failure.Some? {
        HandleException(failure, "");
      }
      if failure.None? {
        var q := statusChatListeners[k];
        var returned := ChatsInvolving(store.chats, q.uid);
        var currentConnections := CollectConnections(OwnId(userData), returned);
        statusListeners := statusListeners + [StatusQuery(q.cutOff, currentConnections)];
      }
    }

    /** A snapshot delivered by the `k`-th status listener: the recent posts of
        its connections replace the status list. */
    method OnStatusSnapshot(k: nat, failure: Option<Exc>)
      requires k < |statusListeners|
      modifies this`eventMutableState, this`inProgress, this`status, this`inProgressStatus
      ensures eventMutableState == old(eventMutableState) || fresh(eventMutableState)
      ensures failure.Some? ==>
        Notified(ErrorText(failure, ""), old(eventMutableState)) && !inProgress && status == old(status) && inProgressStatus == old(inProgressStatus)
      ensures failure.None? ==>
        status == VisibleStatuses(store.statuses, statusListeners[k].cutOff, statusListeners[k].connections) &&
        !inProgressStatus && inProgress == old(inProgress) && eventMutableState == old(eventMutableState)
    {
      if failure.Some? {
        HandleException(failure, "");
      }
      if failure.None? {
        var q := statusListeners[k];
        status := VisibleStatuses(store.statuses, q.cutOff, q.connections);
        inProgressStatus := false;
      }
    }

    /** Registers a listener on the messages of `chatId` and keeps its handle;
        an earlier listener stays registered. */
    method PopulateMessages(chatId: string)
      modifies this`inProgressChatMessage, this`currentChatMessageListener, this`messageListeners
      ensures inProgressChatMessage && messageListeners == old(messageListeners) + [chatId]
      ensures currentChatMessageListener == Some(|old(messageListeners)|)
    {
      inProgressChatMessage := true;
      currentChatMessageListener := Some(|messageListeners|);
      messageListeners := messageListeners + [chatId];
    }

    /** A snapshot delivered by the `k`-th message listener: the chat's messages,
        sorted by timestamp, replace the list. */
    method OnMessagesSnapshot(k: nat, failure: Option<Exc>)
      requires k < |messageListeners|
      modifies this`eventMutableState, this`inProgress, this`chatMessages, this`inProgressChatMessage
      ensures eventMutableState == old(eventMutableState) || fresh(eventMutableState)
      ensures failure.Some? ==>
        Notified(ErrorText(failure, ""), old(eventMutableState)) && !inProgress &&
        chatMessages == old(chatMessages) && inProgressChatMessage == old(inProgressChatMessage)
      ensures failure.None? ==>
        chatMessages == SortByTimestamp(MessagesOf(store.messages, messageListeners[k])) &&
        !inProgressChatMessage && inProgress == old(inProgress) && eventMutableState == old(eventMutableState)
      ensures failure.None? ==>
        Sorted(chatMessages) && multiset(chatMessages) == multiset(MessagesOf(store.messages, messageListeners[k]))
    {
      if failure.Some? {
        HandleException(failure, "");
      }
      if failure.None? {
        chatMessages := SortByTimestamp(MessagesOf(store.messages, messageListeners[k]));
        inProgressChatMessage := false;
      }
    }

    /** Clears the message list and drops the handle; the listener itself stays
        registered. */
    method DePopulateMessages()
      modifies this`chatMessages, this`currentChatMessageListener
      ensures chatMessages == [] && currentChatMessageListener == None
    {
      chatMessages := [];
      currentChatMessageListener := None;
    }

    /** Adds one message from the current user, stamped with `time`, to the
        chat's messages. */
    method OnSendReply(chatId: string, message: string, time: string)
      modifies store`messages
      ensures store.messages == old(store.messages)[chatId :=
        MessagesOf(old(store.messages), chatId) + [Message(OwnId(userData), message, time)]]
    {
      var msg := Message(OwnId(userData), message, time);
      store.messages := store.messages[chatId := MessagesOf(store.messages, chatId) + [msg]];
    }

    method LogOut()
      modifies store`currentUid, this`signIn, this`userData, this`chatMessages, this`currentChatMessageListener,
               this`eventMutableState
      ensures store.currentUid == None && !signIn && userData == None
      ensures chatMessages == [] && currentChatMessageListener == None
      ensures eventMutableState == old(eventMutableState) || fresh(eventMutableState)
      ensures Notified(LoggedOut, old(eventMutableState))
    {
      store.currentUid := None;
      signIn := false;
      userData := None;
      DePopulateMessages();
      currentChatMessageListener := None;
      Notify(LoggedOut);
    }

    /** Adds a chat with the user registered under `number`, after the
        digits-only, duplicate-pair and registration checks. The pair query has
        no failure branch. */
    method OnAddChat(number: string, pairQueryOk: bool, userQuery: Outcome, freshId: string)
      modifies this`eventMutableState, this`inProgress, store`chats
      ensures eventMutableState == old(eventMutableState) || fresh(eventMutableState)
      ensures var d := DecideAddChat(number, OwnNumber(userData), old(store.chats), store.users);
        (d == NotDigits ==> Notified(RejectionMessage(d), old(eventMutableState)) && !inProgress && store.chats == old(store.chats)) &&
        (d != NotDigits && !pairQueryOk ==>
          store.chats == old(store.chats) && inProgress == old(inProgress) && eventMutableState == old(eventMutableState)) &&
        (d == AlreadyExists && pairQueryOk ==> Notified(RejectionMessage(d), old(eventMutableState)) && !inProgress && store.chats == old(store.chats)) &&
        ((d == NotFound || d == Create) && pairQueryOk && userQuery.Failure? ==>
          Notified(ErrorText(Some(userQuery.exc), ""), old(eventMutableState)) && !inProgress && store.chats == old(store.chats)) &&
        (d == NotFound && pairQueryOk && userQuery.Success? ==>
          Notified(RejectionMessage(d), old(eventMutableState)) && !inProgress && store.chats == old(store.chats)) &&
        (d == Create && pairQueryOk && userQuery.Success? ==>
          (exists k :: IsFirstWithNumber(store.users, number, k) &&
            store.chats == old(store.chats) + [NewChat(freshId, userData, store.users[k])]) &&
          inProgress == old(inProgress) && eventMutableState == old(eventMutableState))
    {
      if number == "" || !(forall i :: 0 <= i < |number| ==> IsDigit(number[i])) {
        HandleException(None, DigitsOnly);
      } else if pairQueryOk {
        if ExistingChats(store.chats, number, OwnNumber(userData)) == [] {
          if userQuery.Success? {
            if WithNumber(store.users, number) == {} {
              HandleException(None, NumberNotFound);
            } else {
              FirstWithNumberExists(store.users, number);
              var k :| IsFirstWithNumber(store.users, number, k);
              var chatPartner := store.users[k];
              var chat := NewChat(freshId, userData, chatPartner);
              store.chats := store.chats + [chat];
            }
          } else {
            HandleException(Some(userQuery.exc), "");
          }
        } else {
          HandleException(None, ChatAlreadyExist);
        }
      }
    }

    /** Adds a status post by the current user, stamped with `now`. */
    method CreateStatus(imageUrl: Option<string>, now: int)
      modifies store`statuses
      ensures store.statuses == old(store.statuses) + [Status(Snapshot(userData), imageUrl, now)]
    {
      var newStatus := Status(Snapshot(userData), imageUrl, now);
      store.statuses := store.statuses + [newStatus];
    }

    /** The image upload and, once its URL is known, the profile update with it. */
    method UploadProfileImage(upload: Outcome, url: Option<string>, read: Outcome, write: Outcome)
      modifies this`eventMutableState, this`inProgress, this`userListeners, store`users
      ensures eventMutableState == old(eventMutableState) || fresh(eventMutableState)
      ensures upload.Failure? ==>
        Notified(ErrorText(Some(upload.exc), ""), old(eventMutableState)) && !inProgress &&
        store.users == old(store.users) && userListeners == old(userListeners)
      ensures upload.Success? && (url.None? || store.currentUid.None?) ==>
        !inProgress && eventMutableState == old(eventMutableState) &&
        store.users == old(store.users) && userListeners == old(userListeners)
      ensures upload.Success? && url.Some? && store.currentUid.Some? ==>
        AfterProfileWrite(store.currentUid.value, None, None, url, read, write,
          old(store.users), old(userListeners), old(eventMutableState))
    {
      inProgress := true;
      if upload.Failure? {
        HandleException(Some(upload.exc), "");
      } else {
        inProgress := false;
        if url.Some? {
          CreateOrUpdateProfile(None, None, url, read, write);
        }
      }
    }

    /** The image upload and, once its URL is known, the status post with it. */
    method UploadStatus(upload: Outcome, url: Option<string>, now: int)
      modifies this`eventMutableState, this`inProgress, store`statuses
      ensures eventMutableState == old(eventMutableState) || fresh(eventMutableState)
      ensures upload.Failure? ==>
        Notified(ErrorText(Some(upload.exc), ""), old(eventMutableState)) && !inProgress && store.statuses == old(store.statuses)
      ensures upload.Success? ==>
        !inProgress && eventMutableState == old(eventMutableState) &&
        store.statuses == old(store.statuses) + (if url.Some? then [Status(Snapshot(userData), url, now)] else [])
    {
      inProgress := true;
      if upload.Failure? {
        HandleException(Some(upload.exc), "");
      } else {
        inProgress := false;
        if url.Some? {
          CreateStatus(url, now);
        }
      }
    }
  }
}
