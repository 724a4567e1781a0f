/** The two websocket consumers of core/consumers.py. `PublicReaction` and
    `PrivateReaction` state, as pure functions, what one inbound frame causes
    (what is stored, what is broadcast, how the handler ends); the consumer
    classes carry the per-connection state, change the channel layer and the
    store step by step as the handlers do, and are proved to match them. */
module Consumers {
  import opened Options
  import opened Text
  import opened Models
  import opened Frames
  import opened Channels

  // ---------------------------------------------------------------------
  // group names

  /** The group of a public-room connection: "chat_" and the slug of the room
      name taken from the URL. */
  function PublicGroupKey(roomName: string): (key: string)
    ensures |key| >= 5 && key[..5] == "chat_" && IsSlug(key[5..])
    ensures key[5..] == Slugify(roomName)
  {
    SlugifyIsSlug(roomName);
    var key := "chat_" + Slugify(roomName);
    assert key[5..] == Slugify(roomName);
    key
  }

  /** The group of a private-room connection: the room slug from the URL, not
      slugified again. */
  function PrivateGroupKey(roomSlug: string): (key: string)
    ensures |key| == 13 + |roomSlug| && key[..13] == "private_chat_" && key[13..] == roomSlug
  {
    "private_chat_" + roomSlug
  }

  /** Connecting with a room's name or with its slug joins the same group. */
  lemma PublicGroupKeyOfSlug(roomName: string)
    ensures PublicGroupKey(Slugify(roomName)) == PublicGroupKey(roomName)
  {
    SlugifyIdempotent(roomName);
  }

  /** Room names with different slugs give different public groups. */
  lemma PublicGroupKeyInjective(a: string, b: string)
    requires Slugify(a) != Slugify(b)
    ensures PublicGroupKey(a) != PublicGroupKey(b)
  {
    assert PublicGroupKey(a)[5..] == Slugify(a);
    assert PublicGroupKey(b)[5..] == Slugify(b);
  }

  /** Different private slugs give different groups. */
  lemma PrivateGroupKeyInjective(a: string, b: string)
    requires PrivateGroupKey(a) == PrivateGroupKey(b)
    ensures a == b
  {
    assert a == PrivateGroupKey(a)[13..];
  }

  /** A public group and a private group never coincide. */
  lemma GroupKindsDisjoint(roomName: string, roomSlug: string)
    ensures PublicGroupKey(roomName) != PrivateGroupKey(roomSlug)
  {
    assert PublicGroupKey(roomName)[0] == 'c';
    assert PrivateGroupKey(roomSlug)[0] == 'p';
  }

  // ---------------------------------------------------------------------
  // what one handler call causes

  function JoinedText(firstName: string): string {
    firstName + " joined the chat."
  }

  function LeftText(firstName: string): string {
    firstName + " left the chat."
  }

  /** A join notice and a leave notice name their user and never read alike. */
  lemma NoticesNameTheUser(a: string, b: string)
    ensures JoinedText(a) == JoinedText(b) ==> a == b
    ensures LeftText(a) == LeftText(b) ==> a == b
    ensures JoinedText(a) != LeftText(b)
  {
    assert JoinedText(a)[..|a|] == a && LeftText(a)[..|a|] == a;
    assert JoinedText(b)[..|b|] == b && LeftText(b)[..|b|] == b;
    var joined, left := JoinedText(a), LeftText(b);
    assert joined[|joined| - 11] == 'd' && left[|left| - 11] == 't';
  }

  /** Why a handler raised: a missing key, a lookup that found no user or no
      room, or an anonymous connection (which has no first_name). */
  datatype Failure = KeyError(key: string) | UserDoesNotExist | RoomDoesNotExist | NoFirstName

  /** How a handler ends: it broadcast something, it returned early, or it raised. */
  datatype Outcome = Sent | Ignored | Raised(failure: Failure)

  /** The effect of one inbound frame: the row stored, the event broadcast to the
      group, and how the handler ended. */
  datatype Reaction<R> = Reaction(stored: Option<R>, sent: Option<Event>, outcome: Outcome)

  /** ChatConsumer.receive on one frame, for a connection to `roomName`. The
      chat path saves first (looking the sender up by the frame's username and
      the room up by the URL's room name used as a slug), and only then reads
      data['name'] and broadcasts. */
  function PublicReaction(data: Frame, roomName: string, users: seq<User>, rooms: map<string, RoomRow>): (r: Reaction<MessageRow>)
    ensures var c := Classify(data);
      && (c.MissingKey? ==> r == Reaction(None, None, Raised(KeyError(c.key))))
      && (c.Typing? ==> r == Reaction(None, Some(ShowTyping(c.username, c.name)), Sent))
      && (c.StopTyping? ==> r == Reaction(None, Some(HideTyping(c.username)), Sent))
      && (c.Chat? && IsDropped(c.text) ==> r == Reaction(None, None, Ignored))
      && (c.Chat? && !IsDropped(c.text) && (c.sender.None? || FindUser(users, c.sender.value).None?) ==>
            r == Reaction(None, None, Raised(UserDoesNotExist)))
      && (c.Chat? && !IsDropped(c.text) && c.sender.Some? && FindUser(users, c.sender.value).Some? ==>
            && (roomName !in rooms ==> r == Reaction(None, None, Raised(RoomDoesNotExist)))
            && (roomName in rooms ==>
                  && r.stored == Some(MessageRow(FindUser(users, c.sender.value).value, roomName, c.text.value))
                  && (c.displayName.Some? ==>
                        r.sent == Some(ChatMessage(c.text.value, c.sender.value, c.displayName.value)) && r.outcome == Sent)
                  && (c.displayName.None? ==> r.sent.None? && r.outcome == Raised(KeyError("name")))))
      && (r.stored.Some? ==>
            && c.Chat? && !IsDropped(c.text) && c.sender.Some? && roomName in rooms
            && FindUser(users, c.sender.value) == Some(r.stored.value.user)
            && r.stored.value.roomSlug == roomName && r.stored.value.content == c.text.value)
      && (r.sent.Some? && r.sent.value.ChatMessage? ==>
            && r.stored.Some? && c.Chat? && c.displayName.Some?
            && r.sent.value == ChatMessage(c.text.value, c.sender.value, c.displayName.value))
    ensures r.outcome == Sent <==> r.sent.Some?
  {
    match Classify(data)
    case MissingKey(key) => Reaction(None, None, Raised(KeyError(key)))
    case Typing(username, name) => Reaction(None, Some(ShowTyping(username, name)), Sent)
    case StopTyping(username) => Reaction(None, Some(HideTyping(username)), Sent)
    case Chat(text, sender, displayName) =>
      if IsDropped(text) then Reaction(None, None, Ignored)
      else
        var user := if sender.Some? then FindUser(users, sender.value) else None;
        if user.None? then Reaction(None, None, Raised(UserDoesNotExist))
        else if roomName !in rooms then Reaction(None, None, Raised(RoomDoesNotExist))
        else
          var row := MessageRow(user.value, roomName, text.value);
          if displayName.None? then Reaction(Some(row), None, Raised(KeyError("name")))
          else Reaction(Some(row), Some(ChatMessage(text.value, sender.value, displayName.value)), Sent)
  }

  /** A chat frame without "name" is stored but, since data['name'] raises after
      the save, never broadcast. */
  lemma MissingNameStoredNotSent(data: Frame, roomName: string, users: seq<User>, rooms: map<string, RoomRow>)
    requires TypeTag(data) != "typing" && TypeTag(data) != "stop_typing"
    requires !IsDropped(Get(data, "message")) && "name" !in data
    requires "username" in data && FindUser(users, data["username"]).Some? && roomName in rooms
    ensures var r := PublicReaction(data, roomName, users, rooms);
      r.stored.Some? && r.sent.None? && r.outcome == Raised(KeyError("name"))
  {
  }

  /** A room name from the URL that is not itself a stored slug makes every chat
      message fail its save, so nothing is stored or broadcast. */
  lemma UnknownRoomStoresNothing(data: Frame, roomName: string, users: seq<User>, rooms: map<string, RoomRow>)
    requires roomName !in rooms
    ensures var r := PublicReaction(data, roomName, users, rooms);
      r.stored.None? && (r.sent.Some? ==> !r.sent.value.ChatMessage?)
  {
  }

  /** The name shown for a private message: the first name, or the username
      when the first name is empty. */
  function DisplayName(user: User): (name: string)
    ensures user.firstName != "" ==> name == user.firstName
    ensures user.firstName == "" ==> name == user.username
  {
    if user.firstName != "" then user.firstName else user.username
  }

  /** PrivateChatConsumer.receive on one frame, for a connection to
      `roomSlug` by `sender` (None for an anonymous connection, whose username
      is empty). Save errors are swallowed; the broadcast identity comes from
      the connection, never from the frame. */
  function PrivateReaction(data: Frame, roomSlug: string, sender: Option<User>, users: seq<User>,
                           privateRooms: map<(nat, nat), PrivateRoomRow>): (r: Reaction<PrivateMessageRow>)
    ensures var c := Classify(data);
      && (c.MissingKey? ==> r == Reaction(None, None, Raised(KeyError(c.key))))
      && (c.Typing? ==> r == Reaction(None, Some(ShowTyping(c.username, c.name)), Sent))
      && (c.StopTyping? ==> r == Reaction(None, Some(HideTyping(c.username)), Sent))
      && (c.Chat? && IsDropped(c.text) ==> r == Reaction(None, None, Ignored))
      && (c.Chat? && !IsDropped(c.text) && sender.Some? ==>
            r.sent == Some(ChatMessage(c.text.value, sender.value.username, DisplayName(sender.value))))
      && (c.Chat? && !IsDropped(c.text) && sender.None? ==> r.sent.None? && r.outcome == Raised(NoFirstName))
      && (c.Chat? && !IsDropped(c.text) ==>
            var user := FindUser(users, if sender.Some? then sender.value.username else "");
            && (r.stored.Some? <==> user.Some? && PrivateSlugTaken(privateRooms, roomSlug))
            && (r.stored.Some? ==> r.stored.value.sender == user.value))
      && (r.stored.Some? ==>
            && c.Chat? && !IsDropped(c.text) && PrivateSlugTaken(privateRooms, roomSlug)
            && r.stored.value.roomSlug == roomSlug && r.stored.value.content == c.text.value)
    ensures r.outcome == Sent <==> r.sent.Some?
  {
    match Classify(data)
    case MissingKey(key) => Reaction(None, None, Raised(KeyError(key)))
    case Typing(username, name) => Reaction(None, Some(ShowTyping(username, name)), Sent)
    case StopTyping(username) => Reaction(None, Some(HideTyping(username)), Sent)
    case Chat(text, _, _) =>
      if IsDropped(text) then Reaction(None, None, Ignored)
      else
        var senderName := if sender.Some? then sender.value.username else "";
        var user := FindUser(users, senderName);
        var stored :=
          if user.Some? && PrivateSlugTaken(privateRooms, roomSlug)
          then Some(PrivateMessageRow(user.value, roomSlug, text.value))
          else None;
        if sender.None? then Reaction(stored, None, Raised(NoFirstName))
        else Reaction(stored, Some(ChatMessage(text.value, sender.value.username, DisplayName(sender.value))), Sent)
  }

  /** Whatever username and name a private chat frame claims, the reaction is the
      same: for any frame dispatched as chat, only the message text matters. */
  lemma PrivateIgnoresClaimedIdentity(data: Frame, data': Frame, roomSlug: string, sender: Option<User>,
                                      users: seq<User>, privateRooms: map<(nat, nat), PrivateRoomRow>)
    requires Classify(data).Chat? && Classify(data').Chat?
    requires Get(data, "message") == Get(data', "message")
    ensures PrivateReaction(data, roomSlug, sender, users, privateRooms)
         == PrivateReaction(data', roomSlug, sender, users, privateRooms)
  {
  }

  // ---------------------------------------------------------------------
  // the consumers

  /** A connection to a public room (ChatConsumer). `user` is the scope's user:
      Some for an authenticated one, None for an anonymous one. */
  class ChatConsumer {
    const channelName: ChannelName
    const user: Option<User>
    const layer: ChannelLayer
    const db: Store
    var roomName: string
    var roomGroupName: string

    constructor (channelName: ChannelName, user: Option<User>, layer: ChannelLayer, db: Store)
      ensures this.channelName == channelName && this.user == user
      ensures this.layer == layer && this.db == db
      ensures roomName == "" && roomGroupName == ""
    {
      this.channelName := channelName;
      this.user := user;
      this.layer := layer;
      this.db := db;
      roomName, roomGroupName := "", "";
    }

    /** connect: presence goes online for an authenticated user, the channel
        joins the room's group, and every member, the newcomer included, gets
        the "joined" notice. An anonymous user has no first name, so the
        notice raises after the join. */
    method Connect(urlRoomName: string) returns (outcome: Outcome)
      modifies this`roomName, this`roomGroupName, layer, db`profiles
      ensures roomName == urlRoomName && roomGroupName == PublicGroupKey(urlRoomName)
      ensures db.profiles == if user.Some? then old(db.profiles)[user.value.id := true] else old(db.profiles)
      ensures layer.groups == Joined(old(layer.groups), roomGroupName, channelName)
      ensures outcome == if user.Some? then Sent else Raised(NoFirstName)
      ensures layer.outboxes ==
        if user.Some?
        then Delivered(old(layer.outboxes), Members(layer.groups, roomGroupName), Render(SystemNotice(JoinedText(user.value.firstName))))
        else old(layer.outboxes)
      ensures user.Some? ==>
        Outbox(layer.outboxes, channelName) == Outbox(old(layer.outboxes), channelName) + [Render(SystemNotice(JoinedText(user.value.firstName)))]
    {
      if user.Some? {
        db.SetPresence(user.value, true);
      }
      roomName := urlRoomName;
      roomGroupName := PublicGroupKey(roomName);
      layer.GroupAdd(roomGroupName, channelName);
      if user.None? {
        return Raised(NoFirstName);
      }
      assert channelName in Members(layer.groups, roomGroupName);
      layer.GroupSend(roomGroupName, SystemNotice(JoinedText(user.value.firstName)));
      outcome := Sent;
    }

    /** disconnect: presence goes offline for an authenticated user, the channel
        leaves the group, and only then the "left" notice goes to the members
        that remain, so the leaver never receives it. */
    method Disconnect() returns (outcome: Outcome)
      modifies layer, db`profiles
      ensures db.profiles == if user.Some? then old(db.profiles)[user.value.id := false] else old(db.profiles)
      ensures layer.groups == Left(old(layer.groups), roomGroupName, channelName)
      ensures outcome == if user.Some? then Sent else Raised(NoFirstName)
      ensures layer.outboxes ==
        if user.Some?
        then Delivered(old(layer.outboxes), Members(layer.groups, roomGroupName), Render(SystemNotice(LeftText(user.value.firstName))))
        else old(layer.outboxes)
      ensures Outbox(layer.outboxes, channelName) == Outbox(old(layer.outboxes), channelName)
    {
      if user.Some? {
        db.SetPresence(user.value, false);
      }
      layer.GroupDiscard(roomGroupName, channelName);
      if user.None? {
        return Raised(NoFirstName);
      }
      layer.GroupSend(roomGroupName, SystemNotice(LeftText(user.value.firstName)));
      outcome := Sent;
    }

    /** save_message: User.objects.get(username=...), Room.objects.get(slug=...),
        then Message.objects.create; a failed lookup raises and stores nothing. */
    method SaveMessage(username: Option<string>, message: string) returns (outcome: Outcome)
      modifies db`messages
      ensures var user := if username.Some? then FindUser(db.users, username.value) else None;
        && (user.None? ==> outcome == Raised(UserDoesNotExist) && db.messages == old(db.messages))
        && (user.Some? && roomName !in db.rooms ==> outcome == Raised(RoomDoesNotExist) && db.messages == old(db.messages))
        && (user.Some? && roomName in db.rooms ==>
              outcome == Sent && db.messages == old(db.messages) + [MessageRow(user.value, roomName, message)])
    {
      var user := if username.Some? then FindUser(db.users, username.value) else None;
      if user.None? {
        return Raised(UserDoesNotExist);
      }
      if roomName !in db.rooms {
        return Raised(RoomDoesNotExist);
      }
      db.AddMessage(MessageRow(user.value, roomName, message));
      outcome := Sent;
    }

    /** receive: dispatch on the frame's type, relay typing events, drop blank
        chat text, otherwise save and then broadcast. */
    method Receive(data: Frame) returns (outcome: Outcome)
      modifies layer`outboxes, db`messages
      ensures var r := PublicReaction(data, roomName, db.users, db.rooms);
        && outcome == r.outcome
        && db.messages == old(db.messages) + (if r.stored.Some? then [r.stored.value] else [])
        && layer.outboxes ==
             if r.sent.Some?
             then Delivered(old(layer.outboxes), Members(layer.groups, roomGroupName), Render(r.sent.value))
             else old(layer.outboxes)
    {
      match Classify(data) {
        case MissingKey(key) =>
          return Raised(KeyError(key));
        case Typing(username, name) =>
          layer.GroupSend(roomGroupName, ShowTyping(username, name));
          return Sent;
        case StopTyping(username) =>
          layer.GroupSend(roomGroupName, HideTyping(username));
          return Sent;
        case Chat(text, username, name) =>
          if IsDropped(text) {
            return Ignored;
          }
          var saved := SaveMessage(username, text.value);
          if saved.Raised? {
            return saved;
          }
          if name.None? {
            return Raised(KeyError("name"));
          }
          layer.GroupSend(roomGroupName, ChatMessage(text.value, username.value, name.value));
          return Sent;
      }
    }
  }

  /** A connection to a private room (PrivateChatConsumer): no presence writes
      and no notices. */
  class PrivateChatConsumer {
    const channelName: ChannelName
    const user: Option<User>
    const layer: ChannelLayer
    const db: Store
    var roomSlug: string
    var roomGroupName: string

    constructor (channelName: ChannelName, user: Option<User>, layer: ChannelLayer, db: Store)
      ensures this.channelName == channelName && this.user == user
      ensures this.layer == layer && this.db == db
      ensures roomSlug == "" && roomGroupName == ""
    {
      this.channelName := channelName;
      this.user := user;
      this.layer := layer;
      this.db := db;
      roomSlug, roomGroupName := "", "";
    }

    /** connect: join the private group; nothing is sent and presence is untouched. */
    method Connect(urlRoomSlug: string)
      modifies this`roomSlug, this`roomGroupName, layer`groups
      ensures roomSlug == urlRoomSlug && roomGroupName == PrivateGroupKey(urlRoomSlug)
      ensures layer.groups == Joined(old(layer.groups), roomGroupName, channelName)
    {
      roomSlug := urlRoomSlug;
      roomGroupName := PrivateGroupKey(roomSlug);
      layer.GroupAdd(roomGroupName, channelName);
    }

    /** disconnect: leave the private group, nothing else. */
    method Disconnect()
      modifies layer`groups
      ensures layer.groups == Left(old(layer.groups), roomGroupName, channelName)
    {
      layer.GroupDiscard(roomGroupName, channelName);
    }

    /** save_message: the lookups and the insert inside try/except, so a failed
        lookup only means that nothing is stored. */
    method SaveMessage(senderUsername: string, message: string)
      modifies db`privateMessages
      ensures var user := FindUser(db.users, senderUsername);
        db.privateMessages ==
          if user.Some? && PrivateSlugTaken(db.privateRooms, roomSlug)
          then old(db.privateMessages) + [PrivateMessageRow(user.value, roomSlug, message)]
          else old(db.privateMessages)
    {
      var user := FindUser(db.users, senderUsername);
      if user.Some? && PrivateSlugTaken(db.privateRooms, roomSlug) {
        db.AddPrivateMessage(PrivateMessageRow(user.value, roomSlug, message));
      }
    }

    /** receive: as in a public room, except that the stored and broadcast
        identity is the connection's user and a failed save still broadcasts. */
    method Receive(data: Frame) returns (outcome: Outcome)
      modifies layer`outboxes, db`privateMessages
      ensures var r := PrivateReaction(data, roomSlug, user, db.users, db.privateRooms);
        && outcome == r.outcome
        && db.privateMessages == old(db.privateMessages) + (if r.stored.Some? then [r.stored.value] else [])
        && layer.outboxes ==
             if r.sent.Some?
             then Delivered(old(layer.outboxes), Members(layer.groups, roomGroupName), Render(r.sent.value))
             else old(layer.outboxes)
    {
      match Classify(data) {
        case MissingKey(key) =>
          return Raised(KeyError(key));
        case Typing(username, name) =>
          layer.GroupSend(roomGroupName, ShowTyping(username, name));
          return Sent;
        case StopTyping(username) =>
          layer.GroupSend(roomGroupName, HideTyping(username));
          return Sent;
        case Chat(text, _, _) =>
          if IsDropped(text) {
            return Ignored;
          }
          var senderName := if user.Some? then user.value.username else "";
          SaveMessage(senderName, text.value);
          if user.None? {
            return Raised(NoFirstName);
          }
          layer.GroupSend(roomGroupName, ChatMessage(text.value, user.value.username, DisplayName(user.value)));
          return Sent;
      }
    }

    /** send_system_message: a "System" chat frame to this connection only. */
    method SendSystemMessage(message: string)
      modifies layer`outboxes
      ensures layer.outboxes == old(layer.outboxes)[channelName := Outbox(old(layer.outboxes), channelName) + [Render(SystemNotice(message))]]
    {
      layer.Send(channelName, Render(SystemNotice(message)));
    }
  }
}
