# LiveChat view-model in Dafny

This is a model of the core of the LiveChat Android client, a one-to-one chat
app on a Firebase backend. It covers:

- the view-model `LCViewModel`: sessions, profiles, adding chats, chat
  messages and 24-hour status posts;
- the one-shot notification wrapper `Event`;
- the status list derivation of the status screen.

`LCViewModel` is the Dafny class `LiveChat.LCViewModel`. Its fields are the
view-model's observable state. It works over a `LiveChat.Backend` object that
holds the backend in memory:

- the signed-in uid;
- the users collection, a map from uid to profile;
- the chats and status collections, each a sequence in insertion order;
- each chat's message list.

How the asynchronous parts are modelled:

- **One-shot calls.** A one-shot backend call (a `get`, a `set`, account
  creation, sign-in, an image upload) completes inside the method that makes
  it. Whether it succeeds is an `Outcome` parameter. For account creation, the
  new uid is a parameter too.
- **Live listeners.** Registering a snapshot listener adds the query to a
  registration list; nothing ever removes one, and neither does the app. Each
  delivery of a snapshot is a separate method taking the registration's index
  (`OnUserSnapshot`, `OnChatsSnapshot`, `OnStatusChatsSnapshot`,
  `OnStatusSnapshot`, `OnMessagesSnapshot`).
- **Frames.** Every method names exactly the fields it may change in its
  `modifies` clause, so "nothing else changes" follows from the frame.
- **Clock and ids.** The clock (`now`, `time`) and fresh document ids are
  parameters.

The pure parts are functions with lemmas about them. The modules are:

- `Data`: the records.
- `Strings`: the order Firestore and Kotlin use on strings.
- `Seqs`: `filter` and `toSet().toList()`.
- `Events`.
- `Profiles`: the partial-update merge and the lookup by number.
- `Messages`: the timestamp sort.
- `Chats`: the chat queries and the decision chain of `onAddChat`.
- `Statuses`: connections and status visibility.
- `StatusListScreen`.

Notifications: setting `eventMutableState` to `Event(message)` is skipped when
the current event already carries `message`. The state holder compares values
by equality, and `Event` is a data class whose equality looks only at
`content`, not at `hasBeenHandled`. So a message repeated after it was read is
not shown again. Every method that posts states its notification relative to
the event that was current before, through `Notified`.

Behaviour of the code that is kept deliberately. The model follows the code in
each case, even where the app's intended design differs:

- The chat list query of `populateChats` (LCViewModel.kt:82-85) matches on the
  first participant, `user1.userId`, alone. A chat in which the user is only the
  second participant is not listed.
- The loop that builds the status connections (LCViewModel.kt:330-338) never
  adds the other participant of a chat. When the chat listener's uid is the
  current user's id, every entry is that own id, so only the user's own posts
  are visible.
- Snapshot listeners are never removed (`remove()` is never called). A
  `dePopulateMessages` or `logOut` only sets the message listener handle to
  null. Every profile snapshot registers another chat listener and another
  status chat listener, and every status chat snapshot registers another
  status listener.
- A stale status chat listener can show a contact's posts. Such a listener was
  registered for an earlier user X and survives a `logOut` or a sign-in as
  someone else. It queries X's chats (LCViewModel.kt:322-323), but builds the
  connections from the id current at delivery (LCViewModel.kt:330, 333). So the
  first participant of each of X's chats whose second participant is X becomes a
  connection, and that participant's recent posts become visible.
- When the chat already exists, `onAddChat` posts "Chat Already Exist"
  (LCViewModel.kt:290), with no final "s".
- The duplicate-number query of `signUp` has no failure listener. When it
  fails, nothing is posted and `inProgress` stays true.

## Model

| member | source | states |
|---|---|---|
| Data.OwnId | app/src/main/java/com/example/livechatt/LCViewModel.kt:84 | `userData.value?.userId`: the loaded profile's id, null without a profile |
| Data.OwnNumber | app/src/main/java/com/example/livechatt/LCViewModel.kt:253 | `userData.value?.number`: the loaded profile's number, null without a profile |
| Data.Snapshot | app/src/main/java/com/example/livechatt/LCViewModel.kt:271-276 | the participant snapshot carries the profile's id, name, image URL and number; a missing profile gives all-null fields |
| Events.Consume | app/src/main/java/com/example/livechatt/data/Event.kt:5-11 | one read returns the content exactly when the event was unhandled, and leaves it handled |
| Events.HandledReadsAreNull | app/src/main/java/com/example/livechatt/data/Event.kt:6 | every read of a handled event returns null and none delivers |
| Events.DeliveredExactlyOnce | app/src/main/java/com/example/livechatt/data/Event.kt:3-11 | of any number n >= 1 of reads of a new event, the first returns the content, the later ones null, so exactly one delivers |
| Events.Event.constructor | app/src/main/java/com/example/livechatt/data/Event.kt:3-4 | a new event holds its content and is unhandled |
| Events.Event.GetContentOrNull | app/src/main/java/com/example/livechatt/data/Event.kt:5-11 | the result and the new handled flag are one `Consume` step; so the flag is true afterwards and the content is unchanged |
| Strings.StrLe | app/src/main/java/com/example/livechatt/LCViewModel.kt:68 | `String.compareTo`: lexicographic by character, a proper prefix first |
| Strings.StrLeTotal | app/src/main/java/com/example/livechatt/LCViewModel.kt:68 | any two timestamp strings are comparable |
| Strings.StrLeTrans | app/src/main/java/com/example/livechatt/LCViewModel.kt:68 | the string order is transitive |
| Strings.StrLeAntisym | app/src/main/java/com/example/livechatt/LCViewModel.kt:68 | the string order is antisymmetric |
| Strings.HasLeast | app/src/main/java/com/example/livechatt/LCViewModel.kt:267 | every non-empty set of document ids has a least one, the first document of a query |
| Seqs.Filter | app/src/main/java/com/example/livechatt/screens/StatusListScreen.kt:45-50 | `filter` keeps exactly the elements passing the test, and is no longer than its input |
| Seqs.FilterAppend | app/src/main/java/com/example/livechatt/screens/StatusListScreen.kt:45-50 | filtering a concatenation concatenates the filtered parts, so order is kept |
| Seqs.FilterPartition | app/src/main/java/com/example/livechatt/screens/StatusListScreen.kt:45-50 | a test and its negation split the input's multiset between them |
| Seqs.Distinct | app/src/main/java/com/example/livechatt/screens/StatusListScreen.kt:93 | `toSet().toList()` has the same elements as its input and no repetition |
| Seqs.DistinctFirstOccurrenceOrder | app/src/main/java/com/example/livechatt/screens/StatusListScreen.kt:93 | the distinct elements come in the order of their first occurrences |
| Profiles.FindUser | app/src/main/java/com/example/livechatt/LCViewModel.kt:170-172 | reading uid's document yields its record, or null when there is none |
| Profiles.WithNumber | app/src/main/java/com/example/livechatt/LCViewModel.kt:113-114 | the number query matches exactly the stored users whose number equals the argument |
| Profiles.IsFirstWithNumber | app/src/main/java/com/example/livechatt/LCViewModel.kt:267 | `toObjects()[0]`: the matching document with the least id, the backend's query order |
| Profiles.FirstWithNumberExists | app/src/main/java/com/example/livechatt/LCViewModel.kt:262-267 | a non-empty number query has a first document |
| Profiles.FirstWithNumberUnique | app/src/main/java/com/example/livechatt/LCViewModel.kt:267 | that first document is unique |
| Profiles.Merge | app/src/main/java/com/example/livechatt/LCViewModel.kt:172-182 | the written record has the signed-in uid, and each of name, number and image URL is the argument when non-null, else the stored value |
| Profiles.UpdateProfile | app/src/main/java/com/example/livechatt/LCViewModel.kt:170-184 | the profile write sets uid's record to the merge and leaves every other user's record as it was |
| Profiles.NumberOnlyKeepsNameAndImage | app/src/main/java/com/example/livechatt/LCViewModel.kt:173-175 | an update supplying only the number keeps the stored name and image URL |
| Profiles.UpdateProfileIdempotent | app/src/main/java/com/example/livechatt/LCViewModel.kt:168-184 | applying the same partial update twice gives what applying it once gives |
| Messages.Insert | app/src/main/java/com/example/livechatt/LCViewModel.kt:68 | inserting into a sorted list keeps it sorted and adds exactly that message |
| Messages.SortByTimestamp | app/src/main/java/com/example/livechatt/LCViewModel.kt:66-68 | the stored message list is sorted non-decreasing by timestamp string and is a permutation of the delivered messages |
| Messages.SortedPairwise | app/src/main/java/com/example/livechatt/LCViewModel.kt:68 | in a sorted list every earlier timestamp is at most every later one |
| Messages.SortKeepsSorted | app/src/main/java/com/example/livechatt/LCViewModel.kt:68 | a delivery already in timestamp order is stored unchanged |
| Messages.MessagesOf | app/src/main/java/com/example/livechatt/LCViewModel.kt:60 | a chat without a message collection has no messages |
| Chats.ChatsWithUser1 | app/src/main/java/com/example/livechatt/LCViewModel.kt:82-93 | the chat list holds exactly the stored chats whose first participant is the user |
| Chats.SecondParticipantNotListed | app/src/main/java/com/example/livechatt/LCViewModel.kt:82-85 | a chat in which the user is only the second participant is never in the user's chat list |
| Chats.ChatsInvolving | app/src/main/java/com/example/livechatt/LCViewModel.kt:320-324 | the status chat query holds exactly the chats in which the user is either participant |
| Chats.IsDigit | app/src/main/java/com/example/livechatt/LCViewModel.kt:246 | a decimal digit character, ASCII only |
| Chats.ValidNumber | app/src/main/java/com/example/livechatt/LCViewModel.kt:246 | the input guard of `onAddChat`: non-empty and digits only |
| Chats.SamePair | app/src/main/java/com/example/livechatt/LCViewModel.kt:250-259 | a chat joins the target number and the own number, in either participant order |
| Chats.ExistingChats | app/src/main/java/com/example/livechatt/LCViewModel.kt:249-261 | the duplicate-pair query is empty exactly when no chat joins the two numbers in either order |
| Chats.DecideAddChat | app/src/main/java/com/example/livechatt/LCViewModel.kt:245-294 | the digits check, then the duplicate-pair check, then the number lookup, each outcome stated as an if-and-only-if over the inputs |
| Chats.RejectionMessage | app/src/main/java/com/example/livechatt/LCViewModel.kt:246-290 | the message each rejection posts: "Number must contains digits only", "Chat Already Exist" or "Number Not Found" |
| Chats.NewChat | app/src/main/java/com/example/livechatt/LCViewModel.kt:268-283 | the new chat has the fresh id, a snapshot of the current profile and a snapshot of the partner |
| Chats.AddedPairIsDuplicateBothWays | app/src/main/java/com/example/livechatt/LCViewModel.kt:249-290 | once a chat is added, adding it again from either side is rejected as a duplicate |
| Statuses.CutOff | app/src/main/java/com/example/livechatt/LCViewModel.kt:317-318 | the cut-off is 86 400 000 ms (24 hours) before now |
| Statuses.ConnectionFrom | app/src/main/java/com/example/livechatt/LCViewModel.kt:333-337 | the id one chat adds: its second participant's id when that is the own id, else its first participant's id |
| Statuses.ConnectionsOf | app/src/main/java/com/example/livechatt/LCViewModel.kt:330-338 | `currentConnections`: the own id, then one `ConnectionFrom` entry per chat, in order |
| Statuses.ConnectionsShape | app/src/main/java/com/example/livechatt/LCViewModel.kt:330-338 | the connections start with the own id and gain one entry per chat; entry i+1 is what chat i adds, which is the own id or the first participant of a chat whose second participant is someone else |
| Statuses.ConnectionsAreAllOwn | app/src/main/java/com/example/livechatt/LCViewModel.kt:320-338 | for chats that each involve the user, every connection is the own id |
| Statuses.CollectConnections | app/src/main/java/com/example/livechatt/LCViewModel.kt:330-338 | the `forEach` loop builds exactly the connection list described above |
| Statuses.VisibleStatuses | app/src/main/java/com/example/livechatt/LCViewModel.kt:339-346 | the status query holds exactly the posts newer than the cut-off whose author id is a connection |
| Statuses.OnlyOwnStatusesVisible | app/src/main/java/com/example/livechatt/LCViewModel.kt:316-346 | when the chat query and the connections are built for the same id, the pipeline shows the same posts as a query for that id alone |
| Statuses.ContactStatusNeverVisible | app/src/main/java/com/example/livechatt/LCViewModel.kt:316-346 | when the chat query and the connections are built for the same id, no other author's post is shown, however recent |
| Statuses.StaleListenerShowsContacts | app/src/main/java/com/example/livechatt/LCViewModel.kt:320-346 | when the current id differs from the listener's uid, the first participant of each of that uid's chats where the uid is the second participant becomes a connection, and their recent posts are visible |
| StatusListScreen.MyStatutes | app/src/main/java/com/example/livechatt/screens/StatusListScreen.kt:45-47 | the own list holds exactly the posts whose author id is the own id |
| StatusListScreen.OtherStatutes | app/src/main/java/com/example/livechatt/screens/StatusListScreen.kt:48-50 | the other list holds exactly the remaining posts |
| StatusListScreen.PartitionKeepsOrder | app/src/main/java/com/example/livechatt/screens/StatusListScreen.kt:45-50 | both lists keep the original order |
| StatusListScreen.PartitionIsExact | app/src/main/java/com/example/livechatt/screens/StatusListScreen.kt:45-50 | every post lands in exactly one of the two lists, as many times as it occurs |
| StatusListScreen.Authors | app/src/main/java/com/example/livechatt/screens/StatusListScreen.kt:93 | `map { it.user }` gives each post's author in place |
| StatusListScreen.UniqueUsers | app/src/main/java/com/example/livechatt/screens/StatusListScreen.kt:93 | the unique users have no repetition and are exactly the authors of the other posts |
| StatusListScreen.UniqueUsersInFirstPostOrder | app/src/main/java/com/example/livechatt/screens/StatusListScreen.kt:93 | the unique users come in the order of their first posts |
| StatusListScreen.DifferingSnapshotsListedTwice | app/src/main/java/com/example/livechatt/screens/StatusListScreen.kt:93 | one user id under two differing snapshots gives two entries |
| StatusListScreen.StatusList | app/src/main/java/com/example/livechatt/screens/StatusListScreen.kt:39-104 | progress bar exactly while loading; "No Statutes Available" exactly for an empty list; otherwise the own row from the first own post then the unique others, and neither without an own post |
| LiveChat.ExceptionMessage | app/src/main/java/com/example/livechatt/LCViewModel.kt:157 | `exception?.localizedMessage ?: ""` |
| LiveChat.ErrorText | app/src/main/java/com/example/livechatt/LCViewModel.kt:157-158 | the posted text is the custom message when non-empty, else the exception's message, else the empty string |
| LiveChat.SignUpFilled | app/src/main/java/com/example/livechatt/LCViewModel.kt:108 | all four sign-up fields are non-empty |
| LiveChat.SignInFilled | app/src/main/java/com/example/livechatt/LCViewModel.kt:133 | both sign-in fields are non-empty |
| LiveChat.Backend.constructor | app/src/main/java/com/example/livechatt/LCViewModel.kt:33-35 | the in-memory stand-in for Firebase Auth and Firestore (current uid, users, chats, messages, statuses) holds the given contents |
| LiveChat.LCViewModel.constructor | app/src/main/java/com/example/livechatt/LCViewModel.kt:38-56 | signed in and loading exactly when the backend has a current user, whose profile listener is then registered |
| LiveChat.LCViewModel.Notified | app/src/main/java/com/example/livechatt/LCViewModel.kt:40 | after posting a message: the earlier event stays when it carries the same content, handled or not; otherwise a new unhandled event carries the message |
| LiveChat.LCViewModel.Notify | app/src/main/java/com/example/livechatt/LCViewModel.kt:159 | the value-compared write of a new `Event`: it keeps the current event when the contents are equal, else installs a fresh one |
| LiveChat.LCViewModel.RepeatedNoticeAfterReadIsDropped | app/src/main/java/com/example/livechatt/LCViewModel.kt:155-161 | the same error posted twice with a read in between is delivered once: the first read returns it, the second returns null |
| LiveChat.LCViewModel.HandleException | app/src/main/java/com/example/livechatt/LCViewModel.kt:155-161 | notifies the error text (keeping the current event when it carries the same text) and clears `inProgress` |
| LiveChat.LCViewModel.GetUserData | app/src/main/java/com/example/livechatt/LCViewModel.kt:199-201 | sets `inProgress` and registers the listener on uid's profile |
| LiveChat.LCViewModel.OnUserSnapshot | app/src/main/java/com/example/livechatt/LCViewModel.kt:201-212 | a delivery loads the profile, clears `inProgress` and registers the chat and status listeners; an error notifies "Cannot Retrieve User" and loads nothing (each notification as `Notified` states) |
| LiveChat.LCViewModel.CreateOrUpdateProfile | app/src/main/java/com/example/livechatt/LCViewModel.kt:163-196 | nothing without a signed-in user; a read or write failure notifies its message and writes nothing; else the users collection becomes the merged update and the profile listener is registered (each notification as `Notified` states) |
| LiveChat.LCViewModel.CreateAccount | app/src/main/java/com/example/livechatt/LCViewModel.kt:115-122 | a failed creation notifies "Sign Up Failed" and changes no session state; a success signs the new uid in and writes its profile with the given name and number (each notification as `Notified` states) |
| LiveChat.LCViewModel.SignUp | app/src/main/java/com/example/livechatt/LCViewModel.kt:106-129 | an empty field notifies "Please Fill All fields"; a taken number notifies "Number Already Exists"; neither touches the session or users; a failed number query leaves `inProgress` true and notifies nothing; else account creation as above (each notification as `Notified` states) |
| LiveChat.LCViewModel.SignIn | app/src/main/java/com/example/livechatt/LCViewModel.kt:131-153 | an empty field notifies "Please Fill All fields"; a rejection notifies "Sign In Failed"; neither signs in; a success signs in and registers the profile listener (each notification as `Notified` states) |
| LiveChat.LCViewModel.PopulateChats | app/src/main/java/com/example/livechatt/LCViewModel.kt:80-86 | sets the chat loading flag and registers the chat listener for the own id |
| LiveChat.LCViewModel.OnChatsSnapshot | app/src/main/java/com/example/livechatt/LCViewModel.kt:86-96 | a delivery replaces the chat list with the chats whose first participant is the listener's id; an error notifies its message and keeps the list (each notification as `Notified` states) |
| LiveChat.LCViewModel.PopulateStatutes | app/src/main/java/com/example/livechatt/LCViewModel.kt:316-325 | sets the status loading flag and registers the chat query for the own id with the 24-hour cut-off |
| LiveChat.LCViewModel.OnStatusChatsSnapshot | app/src/main/java/com/example/livechatt/LCViewModel.kt:325-341 | a delivery registers the status query over the connections built from its chats; an error notifies its message and registers nothing (each notification as `Notified` states) |
| LiveChat.LCViewModel.OnStatusSnapshot | app/src/main/java/com/example/livechatt/LCViewModel.kt:341-349 | a delivery replaces the status list with the visible posts and clears the loading flag; an error notifies its message and keeps the list (each notification as `Notified` states) |
| LiveChat.LCViewModel.PopulateMessages | app/src/main/java/com/example/livechatt/LCViewModel.kt:58-61 | sets the message loading flag and registers a message listener for the chat, keeping its handle; earlier listeners stay |
| LiveChat.LCViewModel.OnMessagesSnapshot | app/src/main/java/com/example/livechatt/LCViewModel.kt:61-71 | a delivery replaces the message list with a timestamp-sorted permutation of the chat's messages; an error notifies its message and keeps the list (each notification as `Notified` states) |
| LiveChat.LCViewModel.DePopulateMessages | app/src/main/java/com/example/livechatt/LCViewModel.kt:74-77 | the message list is empty and the handle null |
| LiveChat.LCViewModel.OnSendReply | app/src/main/java/com/example/livechatt/LCViewModel.kt:100-104 | adds exactly one message, from the own id with the given text and time, to that chat and no other |
| LiveChat.LCViewModel.LogOut | app/src/main/java/com/example/livechatt/LCViewModel.kt:236-243 | signed out, no profile, empty message list, null handle, and "Logged Out" notified, keeping the current event when it already says so |
| LiveChat.LCViewModel.OnAddChat | app/src/main/java/com/example/livechatt/LCViewModel.kt:245-294 | each rejection notifies its message and adds no chat; a failed pair query does nothing; a success appends exactly one chat, of the current user and the first user with that number (each notification as `Notified` states) |
| LiveChat.LCViewModel.CreateStatus | app/src/main/java/com/example/livechatt/LCViewModel.kt:302-314 | appends exactly one post, with a snapshot of the current profile, the image URL and now |
| LiveChat.LCViewModel.UploadProfileImage | app/src/main/java/com/example/livechatt/LCViewModel.kt:215-233 | a failed upload notifies its error; with a download URL the profile's image URL is updated as by `createOrUpdateProfile` (each notification as `Notified` states) |
| LiveChat.LCViewModel.UploadStatus | app/src/main/java/com/example/livechatt/LCViewModel.kt:296-300 | a failed upload notifies its error; with a download URL exactly one status post is added (each notification as `Notified` states) |

## Left out

- Firebase itself is not modelled: Auth, Firestore queries and listeners, and Storage. The users collection is a map, the other collections are sequences, and each task's outcome is a parameter.
- Listener lifetimes and callback interleaving are not modelled. Each snapshot delivery is one sequential call, chosen by the caller. A listener re-registered on every profile snapshot simply adds another registration.
- Writes the source fires without failure listeners always succeed in the model: the chat `set`, the message `set` and the status `set`. A failed write in the source drops the record silently.
- The image upload itself is not modelled (`putFile`, `UUID.randomUUID`, `downloadUrl`). Its outcome and resulting URL are parameters.
- The clock is a parameter: `System.currentTimeMillis` is `now`, and `Calendar.getInstance().time.toString()` is `time`.
- Fresh document ids are parameters: `freshId` in `OnAddChat`, and the new uid in `SignUp`. Status and message documents get document ids the model does not track. New records are appended in call order, not inserted in document-id order.
- `printStackTrace` in `handleException` is not modelled; it is logging.
- Compose UI, navigation and dependency injection are not modelled. The status screen is modelled only for the derivation of its rows.
- Cross-client races are not modelled: two clients could pass the duplicate checks of `signUp` and `onAddChat` at the same time.
- Chats.IsDigit: accepts ASCII '0'..'9' only, whereas Android's `isDigitsOnly` accepts every Unicode decimal digit.
- Strings.StrLe: compares by code point. That is Firestore's order on document ids, since UTF-8 byte order is code-point order. Kotlin's `compareTo` on timestamps compares UTF-16 units, which differs only when a supplementary character is compared with one in U+E000..U+FFFF.
- Messages.SortByTimestamp: does not state that `sortedBy` is stable. Messages with equal timestamps may come out in any order the contract allows.
- Statuses.VisibleStatuses: the result keeps collection order. The source's query (LCViewModel.kt:339-340) has a range filter on `timestamp`, so the backend returns posts ordered by `timestamp`, then by document id. The order matters because `StatusList` takes the own row from the first own post, so the source may show a different post there than the model. The backend's limit of 30 values in a `whereIn` list is not modelled either.
- LiveChat.LCViewModel.OnMessagesSnapshot: `mapNotNull` drops documents that fail to deserialize; every stored message deserializes in the model.
