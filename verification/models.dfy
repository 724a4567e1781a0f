/** The persistent data of the chat service (core/models.py): the rows of its
    tables, the tables themselves as one mutable `Store`, the two model classes
    whose `save` derives a slug in place, and the pure rules behind those slugs
    and behind the models' string forms. */
module Models {
  import opened Options
  import opened Text

  /** A row of the user table: primary key, username and first name. */
  datatype User = User(id: nat, username: string, firstName: string)

  /** A public room: unique name, unique slug, creator. */
  datatype RoomRow = RoomRow(name: string, slug: string, createdBy: User)

  /** A public-room message (model Message); the room is referred to by its slug. */
  datatype MessageRow = MessageRow(user: User, roomSlug: string, content: string)

  /** A private room between two users, with its unique slug. */
  datatype PrivateRoomRow = PrivateRoomRow(user1: User, user2: User, roomSlug: string)

  /** A private-room message (model PrivateChatMessage). */
  datatype PrivateMessageRow = PrivateMessageRow(sender: User, roomSlug: string, content: string)

  /** A row of the ChatMessage table, keyed by a room name of either kind. */
  datatype ChatMessageRow = ChatMessageRow(sender: User, roomName: string, message: string)

  /** What an INSERT does: the row is written, or a unique constraint refuses it. */
  datatype WriteResult = Written | IntegrityError

  // ---------------------------------------------------------------------
  // users

  /** The user table holds primary keys 1, 2, 3, ... in order of creation and
      no username twice. */
  ghost predicate UsersWellFormed(users: seq<User>) {
    && (forall i :: 0 <= i < |users| ==> users[i].id == i + 1)
    && (forall i, j :: 0 <= i < j < |users| ==> users[i].username != users[j].username)
  }

  /** User.objects.get(username=...): the user with that name, or None for DoesNotExist. */
  function FindUser(users: seq<User>, username: string): (r: Option<User>)
    ensures r.Some? ==> r.value in users && r.value.username == username
    ensures r.None? ==> forall u :: u in users ==> u.username != username
  {
    if users == [] then None
    else if users[0].username == username then Some(users[0])
    else FindUser(users[1..], username)
  }

  /** With usernames unique, looking a user up by name finds exactly that user. */
  lemma FindUserFindsTheOne(users: seq<User>, u: User)
    requires UsersWellFormed(users) && u in users
    ensures FindUser(users, u.username) == Some(u)
  {
    var v := FindUser(users, u.username).value;
    var i :| 0 <= i < |users| && users[i] == u;
    var j :| 0 <= j < |users| && users[j] == v;
    assert users[i].username == users[j].username;
  }

  // ---------------------------------------------------------------------
  // public rooms

  /** Some room already carries this name. */
  predicate NameTaken(rooms: map<string, RoomRow>, name: string) {
    exists s :: s in rooms && rooms[s].name == name
  }

  /** The room table is keyed by slug, and every slug was derived from its
      room's name by Room.save. */
  ghost predicate RoomsWellFormed(rooms: map<string, RoomRow>) {
    forall s {:trigger Slugify(rooms[s].name)} :: s in rooms ==> rooms[s].slug == s && s == Slugify(rooms[s].name)
  }

  /** Because Room.save derives the slug from the name, a taken name always
      comes with a taken slug: the unique slug check subsumes the unique name
      check. */
  lemma NameTakenMeansSlugTaken(rooms: map<string, RoomRow>, name: string)
    requires RoomsWellFormed(rooms) && NameTaken(rooms, name)
    ensures Slugify(name) in rooms
  {
    var s :| s in rooms && rooms[s].name == name;
    assert s == Slugify(name);
  }

  /** Inserting a row whose slug is derived from its name keeps the table well formed. */
  lemma InsertKeepsRoomsWellFormed(rooms: map<string, RoomRow>, row: RoomRow)
    requires RoomsWellFormed(rooms) && row.slug == Slugify(row.name)
    ensures RoomsWellFormed(rooms[row.slug := row])
  {
    var after := rooms[row.slug := row];
    forall s | s in after
      ensures after[s].slug == s && s == Slugify(after[s].name)
    {
      if s == row.slug {
        assert after[s] == row;
      } else {
        assert after[s] == rooms[s] && s == Slugify(rooms[s].name);
      }
    }
  }

  /** Two different rooms of a well-formed table never share a name. */
  lemma RoomNamesUnique(rooms: map<string, RoomRow>, s: string, t: string)
    requires RoomsWellFormed(rooms) && s in rooms && t in rooms && s != t
    ensures rooms[s].name != rooms[t].name
  {
    assert s == Slugify(rooms[s].name) && t == Slugify(rooms[t].name);
  }

  // ---------------------------------------------------------------------
  // private rooms

  /** sorted([a, b]) on two strings: the smaller first; ties keep the order. */
  function SortedPair(a: string, b: string): (p: (string, string))
    ensures LexLe(p.0, p.1)
    ensures (p.0 == a && p.1 == b) || (p.0 == b && p.1 == a)
  {
    LexLeTotal(a, b);
    LexLeReflexive(a);
    if LexLess(b, a) then (b, a) else (a, b)
  }

  /** PrivateRoom.generate_room_slug: the two usernames in sorted order joined
      by '_'. */
  function GenerateRoomSlug(user1: User, user2: User): (slug: string)
    ensures |slug| == |user1.username| + 1 + |user2.username|
    ensures || (slug == user1.username + "_" + user2.username && LexLe(user1.username, user2.username))
            || (slug == user2.username + "_" + user1.username && LexLe(user2.username, user1.username))
  {
    var p := SortedPair(user1.username, user2.username);
    p.0 + "_" + p.1
  }

  /** Swapping the two users of a private room does not change its slug. */
  lemma GenerateRoomSlugSymmetric(user1: User, user2: User)
    ensures GenerateRoomSlug(user1, user2) == GenerateRoomSlug(user2, user1)
  {
    var a, b := user1.username, user2.username;
    if LexLess(b, a) {
      if LexLess(a, b) {
        LexLeAntisymmetric(a, b);
      }
    } else if a != b {
      LexLeTotal(a, b);
      assert LexLess(a, b);
    }
  }

  /** Position of the first `c` in `s`, or |s| when there is none. */
  function FirstIndexOf(s: string, c: char): (i: nat)
    ensures i <= |s|
  {
    if s == [] || s[0] == c then 0 else 1 + FirstIndexOf(s[1..], c)
  }

  /** In x + "_" + y the first '_' is the separator when x holds none. */
  lemma {:induction false} FirstUnderscoreIsSeparator(x: string, y: string)
    requires '_' !in x
    ensures FirstIndexOf(x + "_" + y, '_') == |x|
  {
    if x != [] {
      assert (x + "_" + y)[1..] == x[1..] + "_" + y;
      FirstUnderscoreIsSeparator(x[1..], y);
    }
  }

  /** Splitting at the first '_' recovers both parts when the left one holds none. */
  lemma SplitAtUnderscore(x: string, y: string, x': string, y': string)
    requires '_' !in x && '_' !in x'
    requires x + "_" + y == x' + "_" + y'
    ensures x == x' && y == y'
  {
    var s := x + "_" + y;
    FirstUnderscoreIsSeparator(x, y);
    FirstUnderscoreIsSeparator(x', y');
    assert x == s[..|x|] == x';
    assert y == s[|x| + 1..] == y';
  }

  /** For usernames without '_' (all that signup accepts) the slug identifies
      the unordered pair of usernames. */
  lemma GenerateRoomSlugInjective(a: User, b: User, c: User, d: User)
    requires '_' !in a.username && '_' !in b.username && '_' !in c.username && '_' !in d.username
    requires GenerateRoomSlug(a, b) == GenerateRoomSlug(c, d)
    ensures multiset{a.username, b.username} == multiset{c.username, d.username}
  {
    var p := SortedPair(a.username, b.username);
    var q := SortedPair(c.username, d.username);
    SplitAtUnderscore(p.0, p.1, q.0, q.1);
  }

  /** The slug PrivateRoom.save leaves on the instance: the current one unless it
      is empty, otherwise the generated one. */
  function SlugOnSave(current: string, user1: User, user2: User): (slug: string)
    ensures current != "" ==> slug == current
    ensures current == "" ==> slug == GenerateRoomSlug(user1, user2)
    ensures slug != ""
  {
    if current == "" then GenerateRoomSlug(user1, user2) else current
  }

  /** Saving a private room a second time keeps the slug of the first save. */
  lemma SlugOnSaveIdempotent(current: string, user1: User, user2: User)
    ensures SlugOnSave(SlugOnSave(current, user1, user2), user1, user2) == SlugOnSave(current, user1, user2)
  {
  }

  /** Some private room already carries this slug. */
  predicate PrivateSlugTaken(rooms: map<(nat, nat), PrivateRoomRow>, slug: string) {
    exists k :: k in rooms && rooms[k].roomSlug == slug
  }

  /** Private rooms are keyed by the primary keys of their two users, and no
      slug is used twice. */
  ghost predicate PrivateRoomsWellFormed(rooms: map<(nat, nat), PrivateRoomRow>) {
    && (forall k :: k in rooms ==> k == (rooms[k].user1.id, rooms[k].user2.id))
    && (forall k, k' :: k in rooms && k' in rooms && k != k' ==> rooms[k].roomSlug != rooms[k'].roomSlug)
  }

  // ---------------------------------------------------------------------
  // presence and string forms

  /** The is_online flag of a user's profile; a user without a profile reads as
      offline, the field's default. */
  function IsOnline(profiles: map<nat, bool>, user: User): (online: bool)
    ensures online ==> user.id in profiles
    ensures user.id in profiles ==> online == profiles[user.id]
  {
    user.id in profiles && profiles[user.id]
  }

  predicate EndsWith(s: string, suffix: string) {
    |suffix| <= |s| && s[|s| - |suffix|..] == suffix
  }

  /** UserProfile.__str__: the username, then "Online" or "Offline". */
  function ProfileLabel(username: string, isOnline: bool): (text: string)
    ensures |username| < |text| && text[..|username|] == username
    ensures |text| == |username| + 3 + (if isOnline then 6 else 7) && text[|username|..|username| + 3] == " - "
    ensures isOnline <==> EndsWith(text, "Online")
    ensures !isOnline <==> EndsWith(text, "Offline")
  {
    var text := username + " - " + (if isOnline then "Online" else "Offline");
    assert !isOnline ==> text[|text| - 6] == 'f';
    assert isOnline ==> text[|text| - 7] == ' ';
    text
  }

  /** ChatMessage.__str__: the sender's username, then at most the first 20
      characters of the message. */
  function MessagePreview(username: string, message: string): (preview: string)
    ensures |username| + 2 <= |preview| <= |username| + 22
    ensures preview[..|username| + 2] == username + ": "
    ensures preview[|username| + 2..] <= message
    ensures |preview| == |username| + 2 + (if |message| <= 20 then |message| else 20)
    ensures |message| <= 20 ==> preview[|username| + 2..] == message
  {
    var shown := if |message| <= 20 then message else message[..20];
    var preview := username + ": " + shown;
    assert preview[|username| + 2..] == shown;
    preview
  }

  // ---------------------------------------------------------------------
  // the tables

  /** The database the views and consumers share: one field per table. */
  class Store {
    var users: seq<User>
    var profiles: map<nat, bool>
    var rooms: map<string, RoomRow>
    var messages: seq<MessageRow>
    var privateRooms: map<(nat, nat), PrivateRoomRow>
    var privateMessages: seq<PrivateMessageRow>
    var chatMessages: seq<ChatMessageRow>

    ghost predicate Valid()
      reads this`users, this`rooms, this`privateRooms
    {
      UsersWellFormed(users) && RoomsWellFormed(rooms) && PrivateRoomsWellFormed(privateRooms)
    }

    constructor ()
      ensures Valid()
      ensures users == [] && profiles == map[] && rooms == map[] && messages == []
      ensures privateRooms == map[] && privateMessages == [] && chatMessages == []
    {
      users, profiles, rooms, messages := [], map[], map[], [];
      privateRooms, privateMessages, chatMessages := map[], [], [];
    }

    /** User.objects.create_user: a new user with the next primary key, refused
        when the username is taken. */
    method CreateUser(username: string, firstName: string) returns (created: Option<User>)
      requires Valid()
      modifies this`users
      ensures Valid()
      ensures created.Some? <==> FindUser(old(users), username).None?
      ensures created.Some? ==> created.value == User(|old(users)| + 1, username, firstName)
      ensures users == if created.Some? then old(users) + [created.value] else old(users)
    {
      if FindUser(users, username).Some? {
        return None;
      }
      var user := User(|users| + 1, username, firstName);
      users := users + [user];
      created := Some(user);
    }

    /** UserProfile.objects.get_or_create(user=...): a missing profile is
        created offline. */
    method GetOrCreateProfile(user: User)
      modifies this`profiles
      ensures profiles == if user.id in old(profiles) then old(profiles) else old(profiles)[user.id := false]
    {
      if user.id !in profiles {
        profiles := profiles[user.id := false];
      }
    }

    /** get_or_create the profile, set is_online, save: the presence write used by
        the consumers and by login and logout. */
    method SetPresence(user: User, online: bool)
      modifies this`profiles
      ensures profiles == old(profiles)[user.id := online]
    {
      GetOrCreateProfile(user);
      profiles := profiles[user.id := online];
    }

    /** INSERT into the room table, refused when the slug or the name is taken. */
    method InsertRoom(row: RoomRow) returns (result: WriteResult)
      requires Valid() && row.slug == Slugify(row.name)
      modifies this`rooms
      ensures Valid()
      ensures result == Written <==> row.slug !in old(rooms) && !NameTaken(old(rooms), row.name)
      ensures rooms == if result == Written then old(rooms)[row.slug := row] else old(rooms)
    {
      if row.slug in rooms || NameTaken(rooms, row.name) {
        return IntegrityError;
      }
      InsertKeepsRoomsWellFormed(rooms, row);
      rooms := rooms[row.slug := row];
      result := Written;
    }

    /** INSERT of a new private room, refused when its slug is taken. */
    method InsertPrivateRoom(row: PrivateRoomRow) returns (result: WriteResult)
      requires Valid() && (row.user1.id, row.user2.id) !in privateRooms
      modifies this`privateRooms
      ensures Valid()
      ensures result == Written <==> !PrivateSlugTaken(old(privateRooms), row.roomSlug)
      ensures privateRooms == if result == Written then old(privateRooms)[(row.user1.id, row.user2.id) := row] else old(privateRooms)
    {
      if PrivateSlugTaken(privateRooms, row.roomSlug) {
        return IntegrityError;
      }
      privateRooms := privateRooms[(row.user1.id, row.user2.id) := row];
      result := Written;
    }

    /** Message.objects.create */
    method AddMessage(row: MessageRow)
      modifies this`messages
      ensures messages == old(messages) + [row]
    {
      messages := messages + [row];
    }

    /** PrivateChatMessage.objects.create */
    method AddPrivateMessage(row: PrivateMessageRow)
      modifies this`privateMessages
      ensures privateMessages == old(privateMessages) + [row]
    {
      privateMessages := privateMessages + [row];
    }
  }

  // ---------------------------------------------------------------------
  // the model classes whose save derives a slug

  /** A public room instance before it is persisted. */
  class Room {
    var name: string
    var slug: string
    const createdBy: User

    constructor (name: string, slug: string, createdBy: User)
      ensures this.name == name && this.slug == slug && this.createdBy == createdBy
    {
      this.name := name;
      this.slug := slug;
      this.createdBy := createdBy;
    }

    /** Room.save: recomputes the slug from the name, overwriting whatever slug
        the instance held, then inserts the row. */
    method Save(db: Store) returns (result: WriteResult)
      requires db.Valid()
      modifies this`slug, db`rooms
      ensures db.Valid()
      ensures slug == Slugify(name)
      ensures result == Written <==> slug !in old(db.rooms) && !NameTaken(old(db.rooms), name)
      ensures db.rooms == if result == Written then old(db.rooms)[slug := RoomRow(name, slug, createdBy)] else old(db.rooms)
    {
      slug := Slugify(name);
      result := db.InsertRoom(RoomRow(name, slug, createdBy));
    }
  }

  /** A private room instance before it is persisted; its slug starts empty,
      the default of the field. */
  class PrivateRoom {
    const user1: User
    const user2: User
    var roomSlug: string

    constructor (user1: User, user2: User)
      ensures this.user1 == user1 && this.user2 == user2 && roomSlug == ""
    {
      this.user1 := user1;
      this.user2 := user2;
      roomSlug := "";
    }

    /** PrivateRoom.save: fills in the slug only when it is empty, then inserts
        the row. */
    method Save(db: Store) returns (result: WriteResult)
      requires db.Valid() && (user1.id, user2.id) !in db.privateRooms
      modifies this`roomSlug, db`privateRooms
      ensures db.Valid()
      ensures roomSlug == SlugOnSave(old(roomSlug), user1, user2)
      ensures result == Written <==> !PrivateSlugTaken(old(db.privateRooms), roomSlug)
      ensures db.privateRooms ==
        if result == Written then old(db.privateRooms)[(user1.id, user2.id) := PrivateRoomRow(user1, user2, roomSlug)]
        else old(db.privateRooms)
    {
      if roomSlug == "" {
        roomSlug := GenerateRoomSlug(user1, user2);
      }
      result := db.InsertPrivateRoom(PrivateRoomRow(user1, user2, roomSlug));
    }
  }
}
