# Chat service core in Dafny

A model of the message routing and room bookkeeping of a Django Channels chat
service. The service has these parts:

- Public rooms, named by users and addressed by slug.
- Private rooms between two users, addressed by a slug made of both usernames.
- Two websocket consumers:
  - `ChatConsumer` for public rooms;
  - `PrivateChatConsumer` for private rooms.
- A handful of views:
  - signup, login and logout;
  - room creation over AJAX;
  - opening a private chat;
  - presence lookup;
  - user search;
  - the choice of conversation on the home page.

The async channel layer is modelled sequentially:

- A group is a set of channel names.
- Every channel has an outbox, the sequence of JSON frames written to its socket.
- `group_send` appends the rendered event to the outbox of every member.

The database is one `Store` object with one field per table. Presence is a map
from user primary key to `is_online`.

Modules, one per file:

- `Options` (`options.dfy`): the `Option` type.
- `Text` (`text.dfy`): ASCII models of the Python and Django string helpers the
  code relies on. These are `str.strip`, `str.lower`, `str.isalnum`, the
  `icontains` lookup, `django.utils.text.slugify`, and string ordering as used
  by `sorted`.
- `Models` (`models.dfy`): rows and tables, `Room.save`, `PrivateRoom.save`,
  `generate_room_slug`, and the `__str__` forms of `UserProfile` and `ChatMessage`.
- `Frames` (`frames.dfy`): events, outbound encoders, and the inbound dispatch
  on `type`.
- `Channels` (`channels.dfy`): group membership and fan-out.
- `Consumers` (`consumers.dfy`): the two consumers. `PublicReaction` and
  `PrivateReaction` are pure statements of what one inbound frame causes. The
  `Receive` methods are proved to do exactly that.
- `Views` (`views.dfy`): the views.

Three quirks of the code are modelled as written:

- The public consumer saves a message by looking the room up with the raw room
  name from the URL used as a slug (core/consumers.py:87, 134). A connection
  whose URL room name is not a stored slug therefore stores no message, and its
  chat messages are not broadcast (`UnknownRoomStoresNothing`). What is stored
  depends on what the client puts in the URL; the home page selects rooms by
  slug (core/views.py:91) and room creation answers with the slug
  (core/views.py:192).
- A public chat frame without `name` is saved and then raises on `data['name']`,
  despite the default read just before (core/consumers.py:82, 95).
- An anonymous connection has no `first_name`. The join and leave notices of
  public rooms, and the broadcast of private chat messages, therefore raise for
  it.

## Model

| member | source | states |
|---|---|---|
| Text.TrimStartFacts | core/views.py:137 | the left strip returns a suffix that does not start with a stripped character, and everything it removed is stripped |
| Text.TrimEndFacts | core/views.py:137 | the right strip returns a prefix that does not end with a stripped character, and everything it removed is stripped |
| Text.TrimBothFacts | core/views.py:185 | stripping both ends returns a slice of the input that is empty exactly when every character is stripped, and otherwise neither starts nor ends with a stripped character |
| Text.Strip | core/views.py:137 | the result is empty exactly when the input is all whitespace; otherwise neither end is whitespace |
| Text.IsAlnum | core/views.py:144 | `str.isalnum()`: non-empty and made of ASCII letters and digits only |
| Text.IContains | core/views.py:206 | the `icontains` lookup: the lower-cased query occurs in the lower-cased username |
| Text.IContainsEmpty | core/views.py:205-206 | the empty query is contained in every username |
| Text.KeepSlugCharsFacts | core/models.py:12 | slugify's filtering step keeps only word characters, whitespace and hyphens, all taken from the input |
| Text.ConsNoDoubleHyphen | core/models.py:12 | a character put in front of a string with no doubled hyphen creates none unless both are hyphens |
| Text.CollapseFacts | core/models.py:12 | slugify's collapsing step starts with a hyphen exactly when the input starts with a separator, never leaves two hyphens in a row, and keeps only hyphens and non-separator input characters |
| Text.TrimBothKeepsSlugChars | core/models.py:12 | stripping '-' and '_' from the ends keeps slug characters and keeps hyphens single |
| Text.CollapsedIsSlugText | core/models.py:12 | after lower-casing, filtering and collapsing, only slug characters remain, with no doubled hyphen |
| Text.Slugify | core/models.py:12 | `slugify`: lower-case, keep word characters, spaces and hyphens, collapse runs of spaces and hyphens to one hyphen, strip "-" and "_" from the ends |
| Text.SlugifyIsSlug | core/models.py:12 | every slug is lower-case letters, digits, '_' and '-', with no leading or trailing '-' or '_' and no doubled '-' |
| Text.KeepSlugCharsKeepsSlugChars | core/models.py:12 | filtering keeps a string of slug characters unchanged |
| Text.CollapseKeepsSlugs | core/models.py:12 | collapsing keeps a string of slug characters with no doubled hyphen unchanged |
| Text.SlugifyKeepsSlugs | core/models.py:12 | slugify leaves a string that is already a slug unchanged |
| Text.SlugifyIdempotent | core/models.py:12 | slugifying a slug gives the same slug |
| Text.LexLeReflexive | core/models.py:33 | string ordering as used by sorted is reflexive |
| Text.LexLeTotal | core/models.py:33 | string ordering is total |
| Text.LexLeAntisymmetric | core/models.py:33 | string ordering is antisymmetric |
| Models.FindUser | core/consumers.py:133 | User.objects.get(username=...): a found user is in the table under that name; None means no user has it |
| Models.UsersWellFormed | core/views.py:146 | user keys are 1, 2, 3, ... in order of creation, and no username occurs twice |
| Models.FindUserFindsTheOne | core/views.py:146 | with usernames unique, looking up a stored user's username finds that very user |
| Models.NameTakenMeansSlugTaken | core/models.py:6-7 | with slugs derived from names, a taken room name means its slug is taken too |
| Models.RoomsWellFormed | core/models.py:6-7 | rooms are keyed by their unique slug, and every slug is the slug of its room's unique name |
| Models.InsertKeepsRoomsWellFormed | core/models.py:6-7 | inserting a room whose slug and name are both free keeps names and slugs unique |
| Models.RoomNamesUnique | core/models.py:6-7 | two different rooms of a well-formed table never share a name |
| Models.SortedPair | core/models.py:33 | the two strings in non-decreasing order, as the same pair |
| Models.PrivateRoomsWellFormed | core/models.py:27-30 | private rooms are keyed by their two users' keys, and no two hold the same slug |
| Models.GenerateRoomSlug | core/models.py:32-34 | the smaller username, '_', the larger username |
| Models.GenerateRoomSlugSymmetric | core/models.py:32-34 | swapping the two users gives the same slug |
| Models.FirstUnderscoreIsSeparator | core/models.py:34 | in x + "_" + y, when x holds no '_', the first '_' is the separator |
| Models.SplitAtUnderscore | core/models.py:34 | when neither left part holds '_', x + "_" + y determines x and y |
| Models.GenerateRoomSlugInjective | core/models.py:32-34 | for usernames without '_', equal slugs mean the same unordered pair of usernames |
| Models.SlugOnSave | core/models.py:36-39 | PrivateRoom.save keeps a non-empty slug and generates one only when it is empty; never empty afterwards |
| Models.SlugOnSaveIdempotent | core/models.py:36-39 | a second save leaves the slug of the first |
| Models.IsOnline | core/models.py:56 | presence defaults to offline when the user has no profile |
| Models.ProfileLabel | core/models.py:61-62 | the username, then " - ", then "Online" exactly when online and "Offline" exactly when offline |
| Models.MessagePreview | core/models.py:73-74 | the username and ": ", then the first 20 characters of the message, or the whole message when it is at most 20 long |
| Models.Store.constructor | core/models.py:5-74 | an empty database is well formed |
| Models.Store.CreateUser | core/views.py:149 | a taken username creates nothing; otherwise one user is appended with the next primary key |
| Models.Store.GetOrCreateProfile | core/consumers.py:121 | a missing profile is created offline; an existing one is unchanged |
| Models.Store.SetPresence | core/consumers.py:119-129 | exactly this user's presence becomes the given value |
| Models.Store.InsertRoom | core/models.py:6-7 | the insert succeeds exactly when both slug and name are free; it keeps the tables well formed |
| Models.Store.InsertPrivateRoom | core/models.py:30 | the insert succeeds exactly when the slug is free; it keeps slugs unique |
| Models.Store.AddMessage | core/consumers.py:135 | appends exactly one message row |
| Models.Store.AddPrivateMessage | core/consumers.py:236 | appends exactly one private message row |
| Models.Room.constructor | core/models.py:5-8 | a room instance with the given name, slug and creator |
| Models.Room.Save | core/models.py:11-13 | the slug is recomputed from the name, overwriting any previous one; the row is stored exactly when slug and name are free |
| Models.PrivateRoom.constructor | core/models.py:27-30 | a new private room instance starts with an empty slug |
| Models.PrivateRoom.Save | core/models.py:36-39 | fills in the generated slug only when empty; the row is stored under the pair's key exactly when the slug is free |
| Frames.Get | core/consumers.py:80-82 | dict.get: present exactly when the key is in the frame, with its value |
| Frames.TypeTag | core/consumers.py:56 | `data.get('type', 'chat')`: the frame's type, or "chat" when it has none |
| Frames.SystemNotice | core/consumers.py:27-32 | a chat event from "System" named "System" |
| Frames.Render | core/consumers.py:99-117 | the three outbound shapes: chat frames carry message, username and name but no type; typing frames carry type "typing", username and name; stop frames carry type "stop_typing" and username only |
| Frames.Classify | core/consumers.py:56-82 | a frame without type is chat; "typing" and "stop_typing" need their keys, else a KeyError that names "username" when it is missing and "name" otherwise; any other tag is chat |
| Frames.ClassifyRender | core/consumers.py:56-117 | every outbound frame, read back by the inbound dispatch, is the same kind of event with the same fields |
| Frames.IsDroppedIffBlank | core/consumers.py:84-85 | chat text is dropped exactly when it is missing or whitespace only |
| Frames.IsDropped | core/consumers.py:84-85 | `not message or not message.strip()` on the optional chat text |
| Channels.Joined | core/consumers.py:18-21 | exactly this channel joins exactly this group; other groups are unchanged |
| Channels.Left | core/consumers.py:39-42 | exactly this channel leaves exactly this group; other groups are unchanged |
| Channels.LeftUndoesJoined | core/consumers.py:18-42 | joining then leaving restores the group when the channel was not in it before |
| Channels.Delivered | core/consumers.py:25-33 | every member's outbox gains the frame at its end; every other outbox is unchanged |
| Channels.DeliveredStep | core/consumers.py:25-33 | delivering to one more member is one more append |
| Channels.DeliveredToNobody | core/consumers.py:25-33 | delivery to an empty group changes nothing |
| Channels.FanOut | core/consumers.py:25-33 | the fan-out loop's result is the delivery to every member |
| Channels.DeliveredInOrder | core/consumers.py:89-97 | two broadcasts reach each member in the order they were sent |
| Channels.ChannelLayer.constructor | core/consumers.py:18-21 | no groups, no frames |
| Channels.ChannelLayer.GroupAdd | core/consumers.py:18-21 | group membership becomes Joined |
| Channels.ChannelLayer.GroupDiscard | core/consumers.py:39-42 | group membership becomes Left |
| Channels.ChannelLayer.GroupSend | core/consumers.py:25-33 | the rendered event is delivered to the group's current members |
| Channels.ChannelLayer.Send | core/consumers.py:220-225 | one frame is appended to one channel's outbox |
| Consumers.PublicGroupKey | core/consumers.py:14-16 | "chat_" followed by the slug of the URL room name, which is a well-formed slug |
| Consumers.PublicGroupKeyOfSlug | core/consumers.py:14-16 | a room's name and its slug give the same group |
| Consumers.PublicGroupKeyInjective | core/consumers.py:14-16 | room names with different slugs join different public groups |
| Consumers.PrivateGroupKey | core/consumers.py:139-140 | "private_chat_" followed by the URL slug, which is not slugified again |
| Consumers.PrivateGroupKeyInjective | core/consumers.py:139-140 | different private slugs give different groups |
| Consumers.GroupKindsDisjoint | core/consumers.py:139-140 | a public group never coincides with a private group |
| Consumers.JoinedText | core/consumers.py:29 | the join notice: the first name, then " joined the chat." |
| Consumers.LeftText | core/consumers.py:48 | the leave notice: the first name, then " left the chat." |
| Consumers.NoticesNameTheUser | core/consumers.py:29-48 | each notice determines the first name it carries, and a join notice never reads as a leave notice |
| Consumers.PublicReaction | core/consumers.py:54-97 | typing frames are relayed and store nothing; blank chat is dropped; a missing or unknown sender raises UserDoesNotExist; a URL name that is not a stored slug raises RoomDoesNotExist; otherwise the message is stored for that user and room and then broadcast with the frame's own fields, or, without "name", stored and then KeyError |
| Consumers.MissingNameStoredNotSent | core/consumers.py:82-95 | a chat frame without "name" is stored, then raises KeyError, and is never broadcast |
| Consumers.UnknownRoomStoresNothing | core/consumers.py:131-135 | when the URL room name is not a stored slug, no chat message is stored or broadcast |
| Consumers.DisplayName | core/consumers.py:196 | the first name, or the username when the first name is empty |
| Consumers.PrivateReaction | core/consumers.py:155-198 | same dispatch and drop rule; a row is stored exactly when the connection's user exists and the room slug is stored, and it names that user; the broadcast carries the connection's username and display name, never the frame's; a failed save does not stop the broadcast |
| Consumers.PrivateIgnoresClaimedIdentity | core/consumers.py:157-197 | two frames dispatched as chat with the same text get the same reaction, whatever type tag, username and name they carry |
| Consumers.ChatConsumer.constructor | core/consumers.py:9 | a connection with its channel, user, layer and database |
| Consumers.ChatConsumer.Connect | core/consumers.py:10-33 | online only if authenticated; this channel joins this group; every member, the newcomer included, gets the "joined" notice |
| Consumers.ChatConsumer.Disconnect | core/consumers.py:35-52 | offline only if authenticated; the channel leaves before the "left" notice, so the leaver's outbox is unchanged |
| Consumers.ChatConsumer.SaveMessage | core/consumers.py:131-135 | an unknown user or room raises and stores nothing; otherwise exactly one row is appended |
| Consumers.ChatConsumer.Receive | core/consumers.py:54-97 | the store and the outboxes change exactly as PublicReaction says |
| Consumers.PrivateChatConsumer.constructor | core/consumers.py:137 | a connection with its channel, user, layer and database |
| Consumers.PrivateChatConsumer.Connect | core/consumers.py:138-147 | joins "private_chat_" plus the URL slug; no presence change and no notice |
| Consumers.PrivateChatConsumer.Disconnect | core/consumers.py:149-153 | leaves the group and nothing else |
| Consumers.PrivateChatConsumer.SaveMessage | core/consumers.py:227-238 | stores a row when the sender and the room exist; otherwise the error is swallowed and nothing is stored |
| Consumers.PrivateChatConsumer.Receive | core/consumers.py:155-198 | the store and the outboxes change exactly as PrivateReaction says |
| Consumers.PrivateChatConsumer.SendSystemMessage | core/consumers.py:220-225 | one "System" frame to this connection only |
| Views.CheckSignup | core/views.py:136-151 | the stripped username is checked in order (empty username or password, space, not alphanumeric, taken); each error is reported exactly when its check is the first to fail, and acceptance happens exactly when none fails |
| Views.AcceptedUsernameIsPlain | core/views.py:140-149 | an accepted username has no '_' and no whitespace, and no user holds it yet |
| Views.SignupUsersGetDistinctPrivateSlugs | core/views.py:144 | for alphanumeric usernames, different pairs of users get different private slugs |
| Views.SignupView | core/views.py:134-152 | only a POST runs the checks; a user is created, with the next key and the form's first name, exactly when they pass |
| Views.RequestedRoomName | core/views.py:185 | `data.get("name", "").strip()`: empty exactly when the name is absent or blank, and otherwise it neither starts nor ends with whitespace |
| Views.RoomDecision | core/views.py:181-193 | non-POST gives "Invalid request"; an empty trimmed name gives "Room name is required"; a taken slug gives "Room already exists"; otherwise the slug of the name for an authenticated requester, and the server error of `create` for an anonymous one |
| Views.SecondRequestRefused | core/views.py:188-190 | once a room is created, any name with the same slug gets "Room already exists" |
| Views.CreateRoomAjax | core/views.py:181-193 | answers as RoomDecision; one room is stored exactly when a room is created, and otherwise nothing changes |
| Views.OrderById | core/views.py:117 | the pair with the smaller primary key first, as the same two users |
| Views.OrderByIdSymmetric | core/views.py:117 | both argument orders of two distinct users give the same ordered pair |
| Views.PairKey | core/views.py:117-118 | the key is the two primary keys in non-decreasing order |
| Views.PairRoom | core/views.py:116-119 | the stored room of the pair, else a new row of the ordered pair with its generated slug, else an IntegrityError when another pair holds that slug |
| Views.AfterOpening | core/views.py:118 | only the pair's key can be added, and it holds exactly the room PairRoom returns; existing rooms are unchanged |
| Views.OpenedRoomIsShared | core/views.py:116-119 | after one user opens the chat, the other gets the same room and nothing more is created |
| Views.AfterOpeningKeepsWellFormed | core/models.py:30 | opening a chat keeps private slugs unique and rooms under their pair's key |
| Views.GetOrCreatePrivateChat | core/views.py:116-119 | returns PairRoom and leaves the private rooms as AfterOpening says |
| Views.UserStatus | core/views.py:196-201 | online exactly when the named user exists and its profile says online; False otherwise |
| Views.StatusReadsBackPresence | core/views.py:196-201 | after a presence write for a stored user, reading by username returns the written value; other usernames read as before |
| Views.LoginView | core/views.py:160-166 | a successful login marks the user online, creating the profile if needed; a failed one writes nothing |
| Views.LogoutView | core/views.py:172-178 | an authenticated user is marked offline; an anonymous request writes nothing |
| Views.SearchResults | core/views.py:204-218 | every entry is a user whose username contains the query, ignoring case, with that user's presence; there are no more entries than users |
| Views.SearchListsEachUserOnce | core/views.py:204-218 | with usernames unique, no two entries name the same user |
| Views.SearchFindsEveryMatch | core/views.py:206-217 | every user whose username contains the query is listed, with its presence defaulting to offline |
| Views.EmptyQueryListsEveryone | core/views.py:205-206 | the default empty query lists every user |
| Views.SearchUsers | core/views.py:204-218 | the loop's result equals SearchResults for the query, defaulting to "" |
| Views.SelectConversation | core/views.py:85-96 | a non-empty room parameter wins; the chat parameter is used only when there is no room parameter; with neither, no conversation is opened |
| Views.RowsOf | core/views.py:92 | exactly the rows of the given room: every returned row is from the table and of the room, and every row of the room is returned |
| Views.RowsOfAppend | core/views.py:92 | a row added to the table comes last among its room's rows, so the rows keep their stored order |
| Views.HistoryShown | core/views.py:89-100 | the first rows of the room in stored order, exactly 50 when it has more, all of them otherwise |
| Views.OtherUsers | core/views.py:78 | exactly the users other than the requester |
| Views.OtherUsersAppend | core/views.py:78 | a user added to the table comes last among the others unless it is the requester, so the list keeps the table's order |
| Views.Home | core/views.py:72-114 | room selection shows the room by slug and its capped history with no user status, or "Selected room does not exist"; chat selection opens the shared private room and shows its capped history and the user's presence, or "Selected user does not exist" |

## Left out

- Async execution, concurrency and the channel layer's real delivery. Handlers run one at a time, and `group_send` delivers at once.
- Atomicity of `get_or_create` under concurrent first contacts.
- A connection torn down after a handler raises is not modelled. `Raised` only reports the exception.
- JSON encoding and decoding. Frames are maps from keys to strings. A malformed body, and values that are not strings, are not modelled.
- Unicode. `strip`, `lower`, `isalnum` and `slugify` are modelled on ASCII, and slugify's NFKD normalisation is not modelled.
- Authentication, sessions, password hashing and CSRF. `authenticate` becomes an `Option<User>` parameter of `LoginView`, and the scope's user an `Option<User>`.
- Templates, redirects and the messages framework. Errors become values, and the success message of signup is not modelled.
- A missing `name`, `username` or `password` field in the signup and login forms (a KeyError) is not modelled. The form fields are parameters.
- The first `create_room_ajax` (core/views.py:31-39) is not modelled, because the later definition of the same name replaces it.
- `admin_dashboard`, `delete_room`, `profile`, `update_profile_pic`, `delete_account` and `about` are not modelled. They only query and render.
- The `__str__` methods of `Room`, `Message` and `PrivateRoom` are not modelled. They are display strings with no rule beyond string formatting.
- Timestamps are not modelled. Row order stands for timestamp order, and the user table's order stands for the database's order of search results.
- Consumers.ChatConsumer.Connect, Consumers.PrivateChatConsumer.Connect: group names are assumed shorter than 100 characters and made of `[A-Za-z0-9._-]`; the TypeError the channel layer raises for other names (a room slug of 95 or more characters, a private slug of 87 or more) is not modelled, so the model joins where the code would raise. Channels.ChannelLayer.GroupAdd and GroupSend do not check names for the same reason.
- Models.Room.Save: only the insert of a new instance is modelled. Django turns a save of a stored room into an UPDATE, which the model would refuse as a taken slug.
- The `print` of the exception in the private consumer's `save_message` (core/consumers.py:238) is not modelled: it only writes to the server log, and the error is otherwise swallowed.
- Models.PrivateRoom.Save: only the insert of a new instance is modelled (the key must be absent). An update of a stored private room is not.
- Models.Store.Valid does not state that profile keys belong to stored users. Presence writes need no such link.
- Views.Home: `ChatMessage` rows are only read here. No code in these files writes them, so the history shown is whatever the table holds.
