/** The messages of the chat protocol (core/consumers.py): the events a
    consumer hands to group_send, the JSON frames it writes to its socket, and
    the dispatch of an inbound frame on its "type" key. A JSON object is modelled
    as a map from keys to string values. */
module Frames {
  import opened Options
  import opened Text

  /** A JSON object whose values are strings. */
  type Frame = map<string, string>

  /** The value under `key`, or None when the key is absent (dict.get). */
  function Get(f: Frame, key: string): (v: Option<string>)
    ensures v.Some? <==> key in f
    ensures v.Some? ==> v.value == f[key]
  {
    if key in f then Some(f[key]) else None
  }

  /** An event passed to group_send; the variant names the consumer handler
      that turns it into an outbound frame. */
  datatype Event =
    | ChatMessage(message: string, username: string, name: string)  // handler chat_message
    | ShowTyping(username: string, name: string)                     // handler show_typing
    | HideTyping(username: string)                                   // handler hide_typing

  /** The system notice broadcast on public joins and leaves. */
  function SystemNotice(text: string): (e: Event)
    ensures e.ChatMessage? && e.message == text
    ensures e.username == "System" && e.name == "System"
  {
    ChatMessage(text, "System", "System")
  }

  /** The three outbound encoders. A chat frame carries no "type" key; the two
      typing frames carry "typing" or "stop_typing", and the stop frame carries
      no name. */
  function Render(e: Event): (f: Frame)
    ensures "username" in f && f["username"] == e.username
    ensures "type" in f <==> !e.ChatMessage?
    ensures e.ChatMessage? ==> f.Keys == {"message", "username", "name"} && f["message"] == e.message && f["name"] == e.name
    ensures e.ShowTyping? ==> f.Keys == {"type", "username", "name"} && f["type"] == "typing" && f["name"] == e.name
    ensures e.HideTyping? ==> f.Keys == {"type", "username"} && f["type"] == "stop_typing"
  {
    match e
    case ChatMessage(message, username, name) =>
      map["message" := message, "username" := username, "name" := name]
    case ShowTyping(username, name) =>
      map["type" := "typing", "username" := username, "name" := name]
    case HideTyping(username) =>
      map["type" := "stop_typing", "username" := username]
  }

  /** An inbound frame after dispatch. `Chat` keeps the three optional fields as
      read with dict.get; `MissingKey` is the KeyError a typing frame raises when
      it lacks a field it indexes. */
  datatype Inbound =
    | Typing(username: string, name: string)
    | StopTyping(username: string)
    | Chat(text: Option<string>, sender: Option<string>, displayName: Option<string>)
    | MissingKey(key: string)

  /** data.get('type', 'chat') */
  function TypeTag(f: Frame): (tag: string)
    ensures "type" !in f ==> tag == "chat"
    ensures "type" in f ==> tag == f["type"]
  {
    Get(f, "type").GetOr("chat")
  }

  /** The dispatch at the top of receive: "typing" and "stop_typing" are the
      two typing frames (which index their fields, username first); any other
      tag, or none at all, is a chat frame. */
  function Classify(f: Frame): (r: Inbound)
    ensures "type" !in f ==> r.Chat?
    ensures r.Chat? <==> TypeTag(f) != "typing" && TypeTag(f) != "stop_typing"
    ensures r.Typing? <==> TypeTag(f) == "typing" && "username" in f && "name" in f
    ensures r.StopTyping? <==> TypeTag(f) == "stop_typing" && "username" in f
    ensures r.MissingKey? ==> r.key !in f && r.key == (if "username" !in f then "username" else "name")
    ensures r.Typing? ==> r.username == f["username"] && r.name == f["name"]
    ensures r.StopTyping? ==> r.username == f["username"]
    ensures r.Chat? ==> r == Chat(Get(f, "message"), Get(f, "username"), Get(f, "name"))
  {
    var tag := TypeTag(f);
    if tag == "typing" then
      if "username" !in f then MissingKey("username")
      else if "name" !in f then MissingKey("name")
      else Typing(f["username"], f["name"])
    else if tag == "stop_typing" then
      if "username" !in f then MissingKey("username") else StopTyping(f["username"])
    else
      Chat(Get(f, "message"), Get(f, "username"), Get(f, "name"))
  }

  /** How an event reads when its outbound frame is classified as an inbound one. */
  function Echo(e: Event): Inbound {
    match e
    case ChatMessage(message, username, name) => Chat(Some(message), Some(username), Some(name))
    case ShowTyping(username, name) => Typing(username, name)
    case HideTyping(username) => StopTyping(username)
  }

  /** The outbound shapes agree with the inbound ones: a frame the server sends,
      fed back to receive, is dispatched as the same kind of event with the
      same fields. */
  lemma ClassifyRender(e: Event)
    ensures Classify(Render(e)) == Echo(e)
  {
    var f := Render(e);
    if e.ChatMessage? {
      assert "type" !in f;
    }
  }

  /** `not message or not message.strip()`: the chat text is absent, empty or
      whitespace only. */
  predicate IsDropped(message: Option<string>) {
    message.None? || message.value == "" || Strip(message.value) == ""
  }

  /** A chat text is dropped exactly when it is absent or blank. */
  lemma IsDroppedIffBlank(message: Option<string>)
    ensures IsDropped(message) <==> message.None? || IsBlank(message.value)
  {
  }
}
