/** The request handlers of core/views.py that carry rules of the chat service:
    the signup check chain, room creation over AJAX, the shared private room of
    two users, presence reads and writes, user search and the choice of the
    conversation on the home page. */
module Views {
  import opened Options
  import opened Text
  import opened Models
  import opened Frames

  // ---------------------------------------------------------------------
  // signup

  const REQUIRED := "Username and password are required."
  const HAS_SPACE := "Username cannot contain spaces."
  const NOT_ALNUM := "Username can only contain letters and numbers."
  const TAKEN := "Username already exists."

  /** The outcome of the signup checks: the stripped username is accepted, or
      the message of the first check that failed. */
  datatype SignupCheck = Accepted(username: string) | Rejected(error: string)

  /** The if/elif chain of signup_view on a POST: the username is stripped, then
      checked for emptiness (with the password), spaces, letters and digits only,
      and existence, in that order; the first failing check names the error. */
  function CheckSignup(rawUsername: string, password: string, users: seq<User>): (r: SignupCheck)
    ensures var u := Strip(rawUsername);
      && (r.Accepted? <==> u != "" && password != "" && ' ' !in u && IsAlnum(u) && FindUser(users, u).None?)
      && (r.Accepted? ==> r.username == u)
      && (r == Rejected(REQUIRED) <==> u == "" || password == "")
      && (r == Rejected(HAS_SPACE) <==> u != "" && password != "" && ' ' in u)
      && (r == Rejected(NOT_ALNUM) <==> u != "" && password != "" && ' ' !in u && !IsAlnum(u))
      && (r == Rejected(TAKEN) <==> u != "" && password != "" && ' ' !in u && IsAlnum(u) && FindUser(users, u).Some?)
  {
    var username := Strip(rawUsername);
    if username == "" || password == "" then Rejected(REQUIRED)
    else if ' ' in username then Rejected(HAS_SPACE)
    else if !IsAlnum(username) then Rejected(NOT_ALNUM)
    else if FindUser(users, username).Some? then Rejected(TAKEN)
    else Accepted(username)
  }

  /** Accepted usernames hold neither '_' nor whitespace and are new. */
  lemma AcceptedUsernameIsPlain(rawUsername: string, password: string, users: seq<User>)
    requires CheckSignup(rawUsername, password, users).Accepted?
    ensures var u := CheckSignup(rawUsername, password, users).username;
      '_' !in u && !(exists i :: 0 <= i < |u| && IsSpace(u[i])) && forall v :: v in users ==> v.username != u
  {
    var u := CheckSignup(rawUsername, password, users).username;
    assert IsAlnum(u);
    forall i | 0 <= i < |u|
      ensures u[i] != '_' && !IsSpace(u[i])
    {
      assert IsAlnumChar(u[i]);
    }
  }

  /** Two private rooms of users created through signup share a slug only when
      they are rooms of the same pair of usernames. */
  lemma SignupUsersGetDistinctPrivateSlugs(a: User, b: User, c: User, d: User)
    requires forall u :: u in [a, b, c, d] ==> IsAlnum(u.username)
    requires multiset{a.username, b.username} != multiset{c.username, d.username}
    ensures GenerateRoomSlug(a, b) != GenerateRoomSlug(c, d)
  {
    forall u | u in [a, b, c, d]
      ensures '_' !in u.username
    {
      assert IsAlnum(u.username);
      forall i | 0 <= i < |u.username|
        ensures u.username[i] != '_'
      {
        assert IsAlnumChar(u.username[i]);
      }
    }
    if GenerateRoomSlug(a, b) == GenerateRoomSlug(c, d) {
      GenerateRoomSlugInjective(a, b, c, d);
    }
  }

  /** signup_view: on a POST, run the checks and create the user (first name
      from the form) when they all pass; any other request changes nothing. */
  method SignupView(db: Store, isPost: bool, name: string, rawUsername: string, password: string)
    returns (result: Option<SignupCheck>)
    requires db.Valid()
    modifies db`users
    ensures db.Valid()
    ensures result == if isPost then Some(CheckSignup(rawUsername, password, old(db.users))) else None
    ensures db.users ==
      if result.Some? && result.value.Accepted?
      then old(db.users) + [User(|old(db.users)| + 1, result.value.username, name)]
      else old(db.users)
  {
    if !isPost {
      return None;
    }
    var check := CheckSignup(rawUsername, password, db.users);
    if check.Accepted? {
      var created := db.CreateUser(check.username, name);
      assert created.Some?;
    }
    result := Some(check);
  }

  // ---------------------------------------------------------------------
  // room creation

  const NAME_REQUIRED := "Room name is required"
  const ALREADY_EXISTS := "Room already exists"
  const INVALID_REQUEST := "Invalid request"

  /** The JSON answers of create_room_ajax, and the server error of a POST by an
      anonymous user (created_by refuses a user that is not a User row). */
  datatype AjaxResponse = RoomCreated(slug: string) | AjaxError(error: string) | ServerError

  /** data.get("name", "").strip() */
  function RequestedRoomName(body: Frame): (name: string)
    ensures name == "" <==> "name" !in body || IsBlank(body["name"])
    ensures name != "" ==> !IsSpace(name[0]) && !IsSpace(name[|name| - 1])
  {
    Strip(Get(body, "name").GetOr(""))
  }

  /** The answer of create_room_ajax for a request, given the slugs in use. */
  function RoomDecision(isPost: bool, body: Frame, rooms: map<string, RoomRow>, authenticated: bool): (r: AjaxResponse)
    ensures var name := RequestedRoomName(body);
      && (!isPost <==> r == AjaxError(INVALID_REQUEST))
      && (isPost && name == "" <==> r == AjaxError(NAME_REQUIRED))
      && (isPost && name != "" && Slugify(name) in rooms <==> r == AjaxError(ALREADY_EXISTS))
      && (r.RoomCreated? <==> isPost && name != "" && Slugify(name) !in rooms && authenticated)
      && (r == ServerError <==> isPost && name != "" && Slugify(name) !in rooms && !authenticated)
      && (r.RoomCreated? ==> r.slug == Slugify(name))
  {
    var name := RequestedRoomName(body);
    if !isPost then AjaxError(INVALID_REQUEST)
    else if name == "" then AjaxError(NAME_REQUIRED)
    else if Slugify(name) in rooms then AjaxError(ALREADY_EXISTS)
    else if !authenticated then ServerError
    else RoomCreated(Slugify(name))
  }

  /** Asking for the same room again, or for any name with the same slug, is
      answered "Room already exists". */
  lemma SecondRequestRefused(body: Frame, body': Frame, rooms: map<string, RoomRow>, row: RoomRow, authenticated: bool)
    requires RoomDecision(true, body, rooms, true).RoomCreated?
    requires row.slug == RoomDecision(true, body, rooms, true).slug
    requires RequestedRoomName(body') != "" && Slugify(RequestedRoomName(body')) == row.slug
    ensures RoomDecision(true, body', rooms[row.slug := row], authenticated) == AjaxError(ALREADY_EXISTS)
  {
  }

  /** create_room_ajax: validate, then Room.objects.create, whose save derives
      the same slug again and always succeeds because the slug was free. */
  method CreateRoomAjax(db: Store, isPost: bool, body: Frame, requester: Option<User>) returns (response: AjaxResponse)
    requires db.Valid()
    modifies db`rooms
    ensures db.Valid()
    ensures response == RoomDecision(isPost, body, old(db.rooms), requester.Some?)
    ensures db.rooms ==
      if response.RoomCreated?
      then old(db.rooms)[response.slug := RoomRow(RequestedRoomName(body), response.slug, requester.value)]
      else old(db.rooms)
  {
    if !isPost {
      return AjaxError(INVALID_REQUEST);
    }
    var name := RequestedRoomName(body);
    if name == "" {
      return AjaxError(NAME_REQUIRED);
    }
    var slug := Slugify(name);
    if slug in db.rooms {
      return AjaxError(ALREADY_EXISTS);
    }
    if requester.None? {
      return ServerError;
    }
    var room := new Room(name, slug, requester.value);
    if NameTaken(db.rooms, name) {
      NameTakenMeansSlugTaken(db.rooms, name);
    }
    var saved := room.Save(db);
    assert saved == Written;
    response := RoomCreated(room.slug);
  }

  // ---------------------------------------------------------------------
  // private rooms

  /** sorted([user1, user2], key=id): the smaller primary key first; equal keys
      keep their order. */
  function OrderById(user1: User, user2: User): (p: (User, User))
    ensures p.0.id <= p.1.id
    ensures p == (user1, user2) || p == (user2, user1)
  {
    if user2.id < user1.id then (user2, user1) else (user1, user2)
  }

  /** Both orders of two distinct users give the same stored pair. */
  lemma OrderByIdSymmetric(user1: User, user2: User)
    requires user1.id != user2.id || user1 == user2
    ensures OrderById(user1, user2) == OrderById(user2, user1)
  {
  }

  /** The key a pair of users is stored under: the primary keys in order. */
  function PairKey(user1: User, user2: User): (key: (nat, nat))
    ensures key.0 <= key.1
    ensures key == (user1.id, user2.id) || key == (user2.id, user1.id)
  {
    var (first, second) := OrderById(user1, user2);
    (first.id, second.id)
  }

  /** What get_or_create_private_chat returns for a pair: the stored room when
      there is one; otherwise a new row of the ordered pair with its generated
      slug, or None for the IntegrityError of a slug another pair holds. */
  function PairRoom(rooms: map<(nat, nat), PrivateRoomRow>, user1: User, user2: User): (r: Option<PrivateRoomRow>)
    ensures PairKey(user1, user2) in rooms ==> r == Some(rooms[PairKey(user1, user2)])
    ensures r.None? <==>
      (PairKey(user1, user2) !in rooms
       && PrivateSlugTaken(rooms, GenerateRoomSlug(OrderById(user1, user2).0, OrderById(user1, user2).1)))
    ensures r.Some? && PairKey(user1, user2) !in rooms ==>
      && r.value.user1.id <= r.value.user2.id
      && r.value.roomSlug == GenerateRoomSlug(r.value.user1, r.value.user2)
      && multiset{r.value.user1, r.value.user2} == multiset{user1, user2}
      && !PrivateSlugTaken(rooms, r.value.roomSlug)
  {
    var (first, second) := OrderById(user1, user2);
    var key := (first.id, second.id);
    if key in rooms then Some(rooms[key])
    else if PrivateSlugTaken(rooms, GenerateRoomSlug(first, second)) then None
    else Some(PrivateRoomRow(first, second, GenerateRoomSlug(first, second)))
  }

  /** The private rooms after get_or_create_private_chat: a created room is
      stored under the pair's key; otherwise nothing changes. */
  function AfterOpening(rooms: map<(nat, nat), PrivateRoomRow>, user1: User, user2: User): (after: map<(nat, nat), PrivateRoomRow>)
    ensures rooms.Keys <= after.Keys && |after.Keys| <= |rooms.Keys| + 1
    ensures forall k :: k in rooms ==> after[k] == rooms[k]
    ensures after.Keys <= rooms.Keys + {PairKey(user1, user2)}
    ensures PairRoom(rooms, user1, user2).Some? <==> PairKey(user1, user2) in after
    ensures PairKey(user1, user2) in after ==> Some(after[PairKey(user1, user2)]) == PairRoom(rooms, user1, user2)
  {
    var key := PairKey(user1, user2);
    var r := PairRoom(rooms, user1, user2);
    if key !in rooms && r.Some? then rooms[key := r.value] else rooms
  }

  /** Opening the chat from either side lands in one room: after one user opens
      it, the other gets the same answer and nothing more is created. */
  lemma OpenedRoomIsShared(rooms: map<(nat, nat), PrivateRoomRow>, user1: User, user2: User)
    requires user1.id != user2.id || user1 == user2
    ensures PairRoom(AfterOpening(rooms, user1, user2), user2, user1) == PairRoom(rooms, user1, user2)
    ensures AfterOpening(AfterOpening(rooms, user1, user2), user2, user1) == AfterOpening(rooms, user1, user2)
  {
    OrderByIdSymmetric(user1, user2);
  }

  /** Opening a chat keeps the private rooms well formed. */
  lemma AfterOpeningKeepsWellFormed(rooms: map<(nat, nat), PrivateRoomRow>, user1: User, user2: User)
    requires PrivateRoomsWellFormed(rooms)
    ensures PrivateRoomsWellFormed(AfterOpening(rooms, user1, user2))
  {
    var after := AfterOpening(rooms, user1, user2);
    var key := PairKey(user1, user2);
    if key !in rooms && PairRoom(rooms, user1, user2).Some? {
      var row := after[key];
      forall k | k in after && k != key
        ensures after[k].roomSlug != row.roomSlug
      {
        assert k in rooms;
      }
    }
  }

  /** get_or_create_private_chat: the room of the pair ordered by primary key,
      created with its generated slug when there is none yet. */
  method GetOrCreatePrivateChat(db: Store, user1: User, user2: User) returns (room: Option<PrivateRoomRow>)
    requires db.Valid()
    modifies db`privateRooms
    ensures db.Valid()
    ensures room == PairRoom(old(db.privateRooms), user1, user2)
    ensures db.privateRooms == AfterOpening(old(db.privateRooms), user1, user2)
  {
    var (first, second) := OrderById(user1, user2);
    var key := (first.id, second.id);
    if key in db.privateRooms {
      return Some(db.privateRooms[key]);
    }
    var instance := new PrivateRoom(first, second);
    var saved := instance.Save(db);
    if saved == IntegrityError {
      return None;
    }
    room := Some(PrivateRoomRow(first, second, instance.roomSlug));
  }

  // ---------------------------------------------------------------------
  // presence

  /** get_user_status: the is_online flag of the named user's profile; False
      when there is no such user or no profile. */
  function UserStatus(users: seq<User>, profiles: map<nat, bool>, username: string): (online: bool)
    ensures online <==> FindUser(users, username).Some? && IsOnline(profiles, FindUser(users, username).value)
  {
    match FindUser(users, username)
    case None => false
    case Some(user) => IsOnline(profiles, user)
  }

  /** After a presence write for a stored user, the status read back by
      username is what was written; other users read as before. */
  lemma StatusReadsBackPresence(users: seq<User>, profiles: map<nat, bool>, user: User, online: bool, other: string)
    requires UsersWellFormed(users) && user in users
    ensures UserStatus(users, profiles[user.id := online], user.username) == online
    ensures other != user.username ==> UserStatus(users, profiles[user.id := online], other) == UserStatus(users, profiles, other)
  {
    var found := FindUser(users, user.username).value;
    var i :| 0 <= i < |users| && users[i] == user;
    var j :| 0 <= j < |users| && users[j] == found;
    assert users[i].username == users[j].username;
    assert i == j;
    if other != user.username {
      match FindUser(users, other)
      case None =>
      case Some(v) =>
        var k :| 0 <= k < |users| && users[k] == v;
        assert v.id == k + 1 && user.id == i + 1;
    }
  }

  /** login_view after authenticate: a user that authenticated is marked online,
      its profile created when missing; a failed login writes nothing. */
  method LoginView(db: Store, authenticated: Option<User>)
    modifies db`profiles
    ensures db.profiles == if authenticated.Some? then old(db.profiles)[authenticated.value.id := true] else old(db.profiles)
  {
    if authenticated.Some? {
      db.SetPresence(authenticated.value, true);
    }
  }

  /** logout_view: an authenticated user is marked offline; an anonymous request
      writes nothing. */
  method LogoutView(db: Store, user: Option<User>)
    modifies db`profiles
    ensures db.profiles == if user.Some? then old(db.profiles)[user.value.id := false] else old(db.profiles)
  {
    if user.Some? {
      db.SetPresence(user.value, false);
    }
  }

  // ---------------------------------------------------------------------
  // search

  /** One entry of the search results. */
  datatype SearchHit = SearchHit(username: string, online: bool)

  /** The results search_users builds: one entry per user, in table order, whose
      username contains the query case-insensitively, with its presence. */
  function SearchResults(users: seq<User>, profiles: map<nat, bool>, query: string): (hits: seq<SearchHit>)
    ensures |hits| <= |users|
    ensures forall h :: h in hits ==>
      exists u :: u in users && IContains(u.username, query) && h == SearchHit(u.username, IsOnline(profiles, u))
  {
    if users == [] then []
    else
      var last := users[|users| - 1];
      assert forall u :: u in users[..|users| - 1] ==> u in users;
      SearchResults(users[..|users| - 1], profiles, query)
        + (if IContains(last.username, query) then [SearchHit(last.username, IsOnline(profiles, last))] else [])
  }

  /** Every matching user is listed, with its presence. */
  lemma {:induction false} SearchFindsEveryMatch(users: seq<User>, profiles: map<nat, bool>, query: string, user: User)
    requires user in users && IContains(user.username, query)
    ensures SearchHit(user.username, IsOnline(profiles, user)) in SearchResults(users, profiles, query)
  {
    var init := users[..|users| - 1];
    if user != users[|users| - 1] {
      assert user in init;
      SearchFindsEveryMatch(init, profiles, query, user);
    }
  }

  /** No two entries name the same user. */
  predicate DistinctNames(hits: seq<SearchHit>) {
    forall i, j :: 0 <= i < j < |hits| ==> hits[i].username != hits[j].username
  }

  /** With usernames unique, no user is listed twice. */
  lemma {:induction false} SearchListsEachUserOnce(users: seq<User>, profiles: map<nat, bool>, query: string)
    requires UsersWellFormed(users)
    ensures DistinctNames(SearchResults(users, profiles, query))
  {
    if users != [] {
      var init := users[..|users| - 1];
      var last := users[|users| - 1];
      SearchListsEachUserOnce(init, profiles, query);
      var before := SearchResults(init, profiles, query);
      var hits := SearchResults(users, profiles, query);
      var extra := if IContains(last.username, query) then [SearchHit(last.username, IsOnline(profiles, last))] else [];
      assert hits == before + extra;
      forall i, j | 0 <= i < j < |hits|
        ensures hits[i].username != hits[j].username
      {
        if j >= |before| {
          assert hits[i] == before[i];
          assert hits[j] == extra[0];
          assert before[i] in before;
          var u :| u in init && hits[i] == SearchHit(u.username, IsOnline(profiles, u));
          var k :| 0 <= k < |init| && init[k] == u;
          assert users[k] == u && k < |users| - 1;
          assert users[k].username != users[|users| - 1].username;
          assert hits[j].username == last.username;
        } else {
          assert hits[i] == before[i] && hits[j] == before[j];
          assert before[i].username != before[j].username;
        }
      }
    }
  }

  /** An empty query lists every user. */
  lemma {:induction false} EmptyQueryListsEveryone(users: seq<User>, profiles: map<nat, bool>)
    ensures |SearchResults(users, profiles, "")| == |users|
  {
    if users != [] {
      EmptyQueryListsEveryone(users[..|users| - 1], profiles);
      assert Lower("") == "";
      assert Lower("") <= Lower(users[|users| - 1].username);
    }
  }

  /** search_users: the loop over the matching users that appends one entry per
      user; the query defaults to the empty string. */
  method SearchUsers(db: Store, q: Option<string>) returns (hits: seq<SearchHit>)
    ensures hits == SearchResults(db.users, db.profiles, q.GetOr(""))
  {
    var query := q.GetOr("");
    var users := db.users;
    hits := [];
    var i := 0;
    while i < |users|
      invariant 0 <= i <= |users|
      invariant hits == SearchResults(users[..i], db.profiles, query)
    {
      var user := users[i];
      if IContains(user.username, query) {
        hits := hits + [SearchHit(user.username, IsOnline(db.profiles, user))];
      }
      assert users[..i + 1][..i] == users[..i];
      i := i + 1;
    }
    assert users[..i] == users;
  }

  // ---------------------------------------------------------------------
  // home

  /** The conversation the home page opens. */
  datatype Selection = PublicRoom(slug: string) | PrivateChat(username: string) | NoConversation

  /** A non-empty `room` parameter wins over `chat`; empty parameters count as absent. */
  function SelectConversation(room: Option<string>, chat: Option<string>): (s: Selection)
    ensures room.Some? && room.value != "" ==> s == PublicRoom(room.value)
    ensures s.PrivateChat? <==> (room.None? || room.value == "") && chat.Some? && chat.value != ""
    ensures s.PrivateChat? ==> s.username == chat.value
    ensures (room.None? || room.value == "") && (chat.None? || chat.value == "") ==> s == NoConversation
  {
    if room.Some? && room.value != "" then PublicRoom(room.value)
    else if chat.Some? && chat.value != "" then PrivateChat(chat.value)
    else NoConversation
  }

  /** The rows of a conversation, in stored (timestamp) order. */
  function RowsOf(rows: seq<ChatMessageRow>, roomName: string): (r: seq<ChatMessageRow>)
    ensures forall m :: m in r ==> m in rows && m.roomName == roomName
    ensures forall m :: m in rows && m.roomName == roomName ==> m in r
  {
    if rows == [] then []
    else (if rows[0].roomName == roomName then [rows[0]] else []) + RowsOf(rows[1..], roomName)
  }

  /** A message added to the table comes last among its room's rows: the rows
      of a room keep the order in which they were stored. */
  lemma {:induction false} RowsOfAppend(rows: seq<ChatMessageRow>, m: ChatMessageRow, roomName: string)
    ensures RowsOf(rows + [m], roomName) == RowsOf(rows, roomName) + (if m.roomName == roomName then [m] else [])
  {
    if rows != [] {
      assert (rows + [m])[1..] == rows[1..] + [m];
      RowsOfAppend(rows[1..], m, roomName);
    } else {
      assert rows + [m] == [m];
    }
  }

  /** The history shown: filter by room name, order by timestamp, slice [:50];
      these are the first (oldest) 50 rows of the room in timestamp order. */
  function HistoryShown(rows: seq<ChatMessageRow>, roomName: string): (h: seq<ChatMessageRow>)
    ensures |h| == if |RowsOf(rows, roomName)| <= 50 then |RowsOf(rows, roomName)| else 50
    ensures forall m :: m in h ==> m in rows && m.roomName == roomName
    ensures h <= RowsOf(rows, roomName)
    ensures |RowsOf(rows, roomName)| <= 50 ==> h == RowsOf(rows, roomName)
  {
    var all := RowsOf(rows, roomName);
    if |all| <= 50 then all else all[..50]
  }

  const ROOM_MISSING := "Selected room does not exist"
  const USER_MISSING := "Selected user does not exist"

  /** The context home renders. */
  datatype HomePage = HomePage(
    others: seq<User>,
    selectedRoom: Option<RoomRow>,
    selectedUser: Option<User>,
    privateRoom: Option<PrivateRoomRow>,
    history: seq<ChatMessageRow>,
    selectedUserStatus: bool,
    error: Option<string>)

  /** User.objects.exclude(id=...): every user but the one with that key, in order. */
  function OtherUsers(users: seq<User>, me: User): (r: seq<User>)
    ensures forall u :: u in r <==> u in users && u.id != me.id
    ensures |r| <= |users|
  {
    if users == [] then []
    else (if users[0].id != me.id then [users[0]] else []) + OtherUsers(users[1..], me)
  }

  /** A user added to the table comes last among the others, unless it is the
      requester: the list keeps the table's order. */
  lemma {:induction false} OtherUsersAppend(users: seq<User>, u: User, me: User)
    ensures OtherUsers(users + [u], me) == OtherUsers(users, me) + (if u.id != me.id then [u] else [])
  {
    if users != [] {
      assert (users + [u])[1..] == users[1..] + [u];
      OtherUsersAppend(users[1..], u, me);
    } else {
      assert users + [u] == [u];
    }
  }

  /** home: a `room` parameter selects a public room by slug and shows its
      history; otherwise a `chat` parameter selects a user, opens the private
      room shared with the requester and shows its history and the user's
      presence. A missing room or user leaves an error and an empty history.
      None is the server error of a private room whose slug another pair
      holds. */
  method Home(db: Store, requester: User, room: Option<string>, chat: Option<string>) returns (page: Option<HomePage>)
    requires db.Valid()
    modifies db`privateRooms
    ensures db.Valid()
    ensures page.Some? ==> page.value.others == OtherUsers(db.users, requester)
    ensures match SelectConversation(room, chat)
      case NoConversation =>
        && db.privateRooms == old(db.privateRooms)
        && page == Some(HomePage(OtherUsers(db.users, requester), None, None, None, [], false, None))
      case PublicRoom(slug) =>
        && db.privateRooms == old(db.privateRooms)
        && page.Some? && page.value.selectedUser.None? && page.value.privateRoom.None?
        && !page.value.selectedUserStatus
        && (if slug in db.rooms
            then page.value.selectedRoom == Some(db.rooms[slug]) && page.value.error.None?
              && page.value.history == HistoryShown(db.chatMessages, slug)
            else page.value.selectedRoom.None? && page.value.error == Some(ROOM_MISSING) && page.value.history == [])
      case PrivateChat(username) =>
        match FindUser(db.users, username)
        case None =>
          && db.privateRooms == old(db.privateRooms)
          && page == Some(HomePage(OtherUsers(db.users, requester), None, None, None, [], false, Some(USER_MISSING)))
        case Some(user) =>
          && db.privateRooms == AfterOpening(old(db.privateRooms), requester, user)
          && (PairRoom(old(db.privateRooms), requester, user).None? <==> page.None?)
          && (page.Some? ==>
                && page.value.selectedRoom.None? && page.value.selectedUser == Some(user)
                && page.value.privateRoom == PairRoom(old(db.privateRooms), requester, user)
                && page.value.history == HistoryShown(db.chatMessages, page.value.privateRoom.value.roomSlug)
                && page.value.selectedUserStatus == UserStatus(db.users, db.profiles, user.username)
                && page.value.error.None?)
  {
    var others := OtherUsers(db.users, requester);
    var selection := SelectConversation(room, chat);
    match selection
    case NoConversation =>
      page := Some(HomePage(others, None, None, None, [], false, None));
    case PublicRoom(slug) =>
      if slug in db.rooms {
        page := Some(HomePage(others, Some(db.rooms[slug]), None, None, HistoryShown(db.chatMessages, slug), false, None));
      } else {
        page := Some(HomePage(others, None, None, None, [], false, Some(ROOM_MISSING)));
      }
    case PrivateChat(username) =>
      var found := FindUser(db.users, username);
      if found.None? {
        return Some(HomePage(others, None, None, None, [], false, Some(USER_MISSING)));
      }
      var user := found.value;
      var privateRoom := GetOrCreatePrivateChat(db, requester, user);
      if privateRoom.None? {
        return None;
      }
      var history := HistoryShown(db.chatMessages, privateRoom.value.roomSlug);
      var status := UserStatus(db.users, db.profiles, user.username);
      page := Some(HomePage(others, None, Some(user), privateRoom, history, status, None));
  }
}
