/**
 * What the WebSocket endpoint of app.py decides to do with one received
 * text frame. The JSON decoding is not modelled: a frame arrives with its
 * raw text and the shape `json.loads` gave it.
 */
module Dispatch {
  import opened Wrappers
  import opened Text
  import opened Fragments

  /** A field of a decoded JSON object: missing, a string, or any other JSON value (null included). */
  datatype Field = Absent | Str(s: string) | NonStr

  /**
   * The outcome of `json.loads` on a frame. For an object, `kind` and
   * `stream` are its `type` and `stream` members when they are strings.
   */
  datatype Parsed =
    | NotJson
    | JsonNonObject
    | JsonObject(kind: Option<string>, stream: Option<string>, content: Field)

  datatype Frame = Frame(text: string, parsed: Parsed)

  /** The JSON control frames the server sends. */
  datatype Outbound =
    | Ping
    | Pong
    | SubscribedReply(stream: string, success: bool)
    | UnsubscribedReply(stream: string, success: bool)

  /** The effect one frame has. */
  datatype Action =
    | Reply(frame: Outbound)
      /** Subscribe the sender, then reply `subscribed` with the result. */
    | Join(stream: string)
      /** Unsubscribe the sender, then reply `unsubscribed` with the result. */
    | Leave(stream: string)
      /** Append `entry` to the greetings log if present, then broadcast `fragment` to `stream`. */
    | Post(stream: string, entry: Option<string>, fragment: Fragment)
      /** Nothing happens and the session goes on. */
    | Skip
      /** An exception escapes the receive loop: the session ends. */
    | Fail

  const KnownKinds: set<string> := {"ping", "pong", "subscribe", "unsubscribe", "message"}
  const KnownStreams: set<string> := {"greetings", "notifications", "alerts"}

  /**
   * What every broadcast decision keeps: it goes to a known stream, the
   * fragment targets that stream, and only greetings are logged, each
   * logged greeting being the very item that is broadcast.
   */
  predicate PostShape(a: Action)
  {
    a.Post? ==>
      && a.stream in KnownStreams
      && a.fragment.target == a.stream
      && (a.entry.Some? <==> a.stream == "greetings")
      && (a.entry.Some? ==> a.fragment.item == GreetingItem(a.entry.value))
  }

  /**
   * A post carries `text`: a greeting logs and broadcasts `Hello, text!`,
   * and a notification or an alert broadcasts `text` after the timestamp,
   * each in its own stream's list item.
   */
  predicate Carries(a: Action, timestamp: string, text: string)
  {
    a.Post? &&
    if a.stream == "greetings" then a.entry == Some(Greeting(text))
    else if a.stream == "notifications" then a.fragment.item == NotificationItem(timestamp, text)
    else a.fragment.item == AlertItem(timestamp, text)
  }

  /** The greeting a posted name produces: logged and broadcast to `greetings`. */
  function GreetingPost(name: string): (a: Action)
    ensures a.Post? && a.stream == "greetings" && PostShape(a)
    ensures a.entry == Some(Greeting(name))
  {
    var g := Greeting(name);
    Post("greetings", Some(g), Fragment("greetings", GreetingItem(g)))
  }

  /** Plain text: a non-blank name is greeted; blank text is ignored. */
  function Legacy(text: string): (a: Action)
    ensures a == Skip <==> AllSpace(text)
    ensures a != Skip ==> a == GreetingPost(Strip(text))
    ensures a.Skip? || (a.Post? && a.stream == "greetings")
    ensures a.Post? ==> a.entry == Some(Greeting(Strip(text)))
    ensures PostShape(a)
  {
    var name := Strip(text);
    if name == [] then Skip else GreetingPost(name)
  }

  /** A `message` frame: content goes to one of the three known streams, rendered for that stream. */
  function Message(stream: Option<string>, content: Field, timestamp: string): (a: Action)
    ensures a.Fail? <==> content.NonStr?
    ensures a.Fail? || a.Skip? || a.Post?
    ensures a.Post? <==> (content.Str? && !AllSpace(content.s) && stream.Some? && stream.value in KnownStreams)
    ensures a.Post? ==> stream == Some(a.stream)
    ensures a.Post? ==> content.Str? && Carries(a, timestamp, Strip(content.s))
    ensures PostShape(a)
  {
    match content
    case NonStr => Fail
    case Absent => Route(stream, "", timestamp)
    case Str(s) => Route(stream, Strip(s), timestamp)
  }

  /** Where the stripped content of a `message` frame goes. */
  function Route(stream: Option<string>, text: string, timestamp: string): (a: Action)
    ensures a.Skip? || a.Post?
    ensures a.Post? <==> text != [] && stream.Some? && stream.value in KnownStreams
    ensures a.Post? ==> stream == Some(a.stream)
    ensures a.Post? ==> Carries(a, timestamp, text)
    ensures PostShape(a)
  {
    match stream
    case None => Skip
    case Some(name) =>
      if text == [] then Skip
      else if name == "greetings" then GreetingPost(text)
      else if name == "notifications" then
        Post("notifications", None, Fragment("notifications", NotificationItem(timestamp, text)))
      else if name == "alerts" then
        Post("alerts", None, Fragment("alerts", AlertItem(timestamp, text)))
      else Skip
  }

  /** A frame for the legacy path: not JSON, or an object whose `type` is missing or unknown. */
  predicate IsLegacy(f: Frame)
  {
    f.parsed.NotJson? || (f.parsed.JsonObject? && (f.parsed.kind.None? || f.parsed.kind.value !in KnownKinds))
  }

  predicate IsMessage(f: Frame)
  {
    f.parsed.JsonObject? && f.parsed.kind == Some("message")
  }

  /** The text a post made from `f` carries before stripping: string content of a `message`, else the raw frame. */
  function Payload(f: Frame): string
  {
    if IsMessage(f) && f.parsed.content.Str? then f.parsed.content.s else f.text
  }

  /** A frame that decoded to a JSON object, dispatched on its `type`. */
  function Command(text: string, kind: Option<string>, stream: Option<string>, content: Field, timestamp: string): (a: Action)
    ensures a.Fail? <==> kind == Some("message") && content.NonStr?
    ensures a.Reply? <==> kind == Some("ping")
    ensures a.Reply? ==> a.frame == Pong
    ensures kind == Some("pong") ==> a == Skip
    ensures a.Join? <==> kind == Some("subscribe") && stream.Some? && stream.value != []
    ensures a.Leave? <==> kind == Some("unsubscribe") && stream.Some? && stream.value != []
    ensures (kind == Some("subscribe") || kind == Some("unsubscribe")) && !(stream.Some? && stream.value != []) ==> a == Skip
    ensures (a.Join? || a.Leave?) ==> stream == Some(a.stream)
    ensures kind == Some("message") ==> a.Fail? || a.Skip? || a.Post?
    ensures kind == Some("message") ==>
      (a.Post? <==> (content.Str? && !AllSpace(content.s) && stream.Some? && stream.value in KnownStreams))
    ensures kind == Some("message") && a.Post? ==>
      stream == Some(a.stream) && content.Str? && Carries(a, timestamp, Strip(content.s))
    ensures kind.None? || kind.value !in KnownKinds ==>
      (a.Skip? <==> AllSpace(text)) && (a.Post? <==> !AllSpace(text))
    ensures (kind.None? || kind.value !in KnownKinds) && a.Post? ==>
      a.stream == "greetings" && Carries(a, timestamp, Strip(text))
    ensures PostShape(a)
  {
    if kind == Some("ping") then Reply(Pong)
    else if kind == Some("pong") then Skip
    else if kind == Some("subscribe") then
      (if stream.Some? && stream.value != [] then Join(stream.value) else Skip)
    else if kind == Some("unsubscribe") then
      (if stream.Some? && stream.value != [] then Leave(stream.value) else Skip)
    else if kind == Some("message") then Message(stream, content, timestamp)
    else Legacy(text)
  }

  /** The per-frame body of the endpoint's receive loop. */
  function Decide(f: Frame, timestamp: string): (a: Action)
    ensures a.Fail? <==> (f.parsed.JsonNonObject? || (IsMessage(f) && f.parsed.content.NonStr?))
    ensures a.Reply? <==> f.parsed.JsonObject? && f.parsed.kind == Some("ping")
    ensures a.Reply? ==> a.frame == Pong
    ensures f.parsed.JsonObject? && f.parsed.kind == Some("pong") ==> a == Skip
    ensures a.Join? <==> (f.parsed.JsonObject? && f.parsed.kind == Some("subscribe") &&
      f.parsed.stream.Some? && f.parsed.stream.value != [])
    ensures a.Leave? <==> (f.parsed.JsonObject? && f.parsed.kind == Some("unsubscribe") &&
      f.parsed.stream.Some? && f.parsed.stream.value != [])
    ensures (f.parsed.JsonObject? && (f.parsed.kind == Some("subscribe") || f.parsed.kind == Some("unsubscribe")) &&
      !(f.parsed.stream.Some? && f.parsed.stream.value != [])) ==> a == Skip
    ensures (a.Join? || a.Leave?) ==> f.parsed.stream == Some(a.stream)
    ensures IsLegacy(f) ==> (a.Skip? <==> AllSpace(f.text)) && (a.Post? <==> !AllSpace(f.text))
    ensures IsMessage(f) ==> a.Fail? || a.Skip? || a.Post?
    ensures IsMessage(f) ==> (a.Post? <==> (f.parsed.content.Str? && !AllSpace(f.parsed.content.s) &&
      f.parsed.stream.Some? && f.parsed.stream.value in KnownStreams))
    ensures a.Post? ==> (IsLegacy(f) && a.stream == "greetings") || (IsMessage(f) && f.parsed.stream == Some(a.stream))
    ensures a.Post? ==> Carries(a, timestamp, Strip(Payload(f)))
    ensures PostShape(a)
  {
    match f.parsed
    case NotJson => Legacy(f.text)
    case JsonNonObject => Fail
    case JsonObject(kind, stream, content) => Command(f.text, kind, stream, content, timestamp)
  }

  /** A JSON object whose `type` is missing or unknown is handled exactly as the same text would be if it were not JSON. */
  lemma UnknownKindIsLegacy(text: string, kind: Option<string>, stream: Option<string>, content: Field, timestamp: string)
    requires kind.None? || kind.value !in KnownKinds
    ensures Decide(Frame(text, JsonObject(kind, stream, content)), timestamp) == Decide(Frame(text, NotJson), timestamp)
  {
  }

  /** A `message` to a stream other than the three known ones does nothing. */
  lemma UnknownStreamIgnored(text: string, stream: string, content: string, timestamp: string)
    requires stream !in KnownStreams
    ensures Decide(Frame(text, JsonObject(Some("message"), Some(stream), Str(content))), timestamp) == Skip
  {
  }

  /** A `subscribe` frame naming a stream joins exactly that stream. */
  lemma SubscribeFrameJoins(text: string, stream: string, content: Field, timestamp: string)
    requires stream != []
    ensures Decide(Frame(text, JsonObject(Some("subscribe"), Some(stream), content)), timestamp) == Join(stream)
  {
  }

  /** A `message` to `alerts` with stripped, non-empty text posts the timestamped alert item of that text, unlogged. */
  lemma AlertFramePosts(text: string, content: string, timestamp: string)
    requires content != [] && Strip(content) == content
    ensures Decide(Frame(text, JsonObject(Some("message"), Some("alerts"), Str(content))), timestamp)
      == Post("alerts", None, Fragment("alerts", AlertItem(timestamp, content)))
  {
    var f := Frame(text, JsonObject(Some("message"), Some("alerts"), Str(content)));
    assert !AllSpace(content);
    assert Payload(f) == content;
  }

  /** Text that is not JSON greets its stripped self when it is not blank. */
  lemma PlainTextGreets(text: string, timestamp: string)
    requires !AllSpace(text)
    ensures var a := Decide(Frame(text, NotJson), timestamp);
      && a.Post? && a.stream == "greetings"
      && a.entry == Some(Greeting(Strip(text)))
  {
  }
}
