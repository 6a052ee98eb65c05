/**
 * The mutable core of app.py: the two registry dictionaries and the
 * greetings log as the fields of one object, the operations that update
 * them in place, and the receive loop of one WebSocket session. Sends are
 * not performed: each method returns the sends it attempts, and which of
 * them fail is an input.
 */
module App {
  import opened Wrappers
  import Registry
  import opened Dispatch
  import opened Fragments
  import Text

  type Conn = Registry.Conn
  type Topic = Registry.Topic

  /** One attempted send of a text frame to a connection. */
  datatype Send = Send(to: Conn, text: string)

  /** Everything a session can change: the registry and the greetings log. */
  datatype World = World(reg: Registry.Reg, log: seq<string>)

  /**
   * One received frame together with what the world does around it: the
   * clock reading, the connections whose broadcast send raises, and whether
   * the direct reply to the sender raises.
   */
  datatype Event = Event(frame: Frame, timestamp: string, failing: set<Conn>, replyFails: bool)

  /** Whether the receive loop goes on after `a`: a failed reply or an escaping exception ends it. */
  function StaysOpen(a: Action, replyFails: bool): (open: bool)
    ensures a.Fail? ==> !open
    ensures a.Skip? || a.Post? ==> open
    ensures a.Reply? || a.Join? || a.Leave? ==> (open <==> !replyFails)
  {
    match a
    case Fail => false
    case Reply(_) => !replyFails
    case Join(_) => !replyFails
    case Leave(_) => !replyFails
    case Skip => true
    case Post(_, _, _) => true
  }

  /** The control frame the sender gets back for `a`, given the registry before it. */
  function ReplyTo(r: Registry.Reg, c: Conn, a: Action): (reply: Option<Outbound>)
    ensures reply.Some? <==> a.Reply? || a.Join? || a.Leave?
    ensures a.Join? ==> reply == Some(SubscribedReply(a.stream, !Registry.Subscribed(r, c, a.stream)))
    ensures a.Leave? ==> reply == Some(UnsubscribedReply(a.stream, Registry.Subscribed(r, c, a.stream)))
  {
    match a
    case Reply(o) => Some(o)
    case Join(s) => Some(SubscribedReply(s, Registry.Subscribe(r, c, s).changed))
    case Leave(s) => Some(UnsubscribedReply(s, Registry.Unsubscribe(r, c, s).changed))
    case _ => None
  }

  /** The world after connection `c` performs `a`. */
  function Apply(w: World, c: Conn, a: Action, failing: set<Conn>): (out: World)
    ensures a.Reply? || a.Skip? || a.Fail? ==> out == w
    ensures a.Join? ==> out.reg == Registry.Subscribe(w.reg, c, a.stream).reg
    ensures a.Leave? ==> out.reg == Registry.Unsubscribe(w.reg, c, a.stream).reg
    ensures a.Post? ==> out.reg == Registry.AfterBroadcast(w.reg, a.stream, None, failing)
    ensures out.log == if a.Post? && a.entry.Some? then w.log + [a.entry.value] else w.log
  {
    match a
    case Join(s) => World(Registry.Subscribe(w.reg, c, s).reg, w.log)
    case Leave(s) => World(Registry.Unsubscribe(w.reg, c, s).reg, w.log)
    case Post(s, entry, _) =>
      var log := if entry.Some? then w.log + [entry.value] else w.log;
      World(Registry.AfterBroadcast(w.reg, s, None, failing), log)
    case _ => w
  }

  /** Every action keeps the registry invariant. */
  lemma ApplyValid(w: World, c: Conn, a: Action, failing: set<Conn>)
    requires Registry.Valid(w.reg)
    ensures Registry.Valid(Apply(w, c, a, failing).reg)
  {
    match a
    case Join(s) => Registry.SubscribeValid(w.reg, c, s);
    case Leave(s) => Registry.UnsubscribeValid(w.reg, c, s);
    case Post(s, _, _) =>
    case _ =>
  }

  /**
   * The world after a whole session of `c`: frames are handled in order
   * until one ends the loop or none are left, and then `c` is cleaned up.
   */
  function Session(w: World, c: Conn, events: seq<Event>): (out: World)
    ensures c !in out.reg.clients
    ensures w.log <= out.log
    decreases |events|
  {
    if events == [] then World(Registry.Cleanup(w.reg, c), w.log)
    else
      var e := events[0];
      var a := Decide(e.frame, e.timestamp);
      var next := Apply(w, c, a, e.failing);
      if StaysOpen(a, e.replyFails) then Session(next, c, events[1..])
      else World(Registry.Cleanup(next.reg, c), next.log)
  }

  /**
   * However a session ends, the registry is still consistent, the
   * connection holds no subscription and has no inverse entry, and the
   * log has only grown.
   */
  lemma {:induction false} SessionEndsDetached(w: World, c: Conn, events: seq<Event>)
    requires Registry.Valid(w.reg)
    ensures var out := Session(w, c, events);
      && Registry.Valid(out.reg)
      && c !in out.reg.clients
      && (forall t :: !Registry.Subscribed(out.reg, c, t))
      && w.log <= out.log
    decreases |events|
  {
    var out := Session(w, c, events);
    if events == [] {
      assert out == World(Registry.Cleanup(w.reg, c), w.log);
      Registry.CleanupValid(w.reg, c);
    } else {
      var e := events[0];
      var a := Decide(e.frame, e.timestamp);
      var next := Apply(w, c, a, e.failing);
      ApplyValid(w, c, a, e.failing);
      if StaysOpen(a, e.replyFails) {
        assert out == Session(next, c, events[1..]);
        SessionEndsDetached(next, c, events[1..]);
      } else {
        assert out == World(Registry.Cleanup(next.reg, c), next.log);
        Registry.CleanupValid(next.reg, c);
      }
    }
  }

  /** A `ping` frame is answered with `pong` and changes nothing else. */
  lemma PingIsAnswered(w: World, c: Conn, text: string, stream: Option<string>, content: Field, timestamp: string, failing: set<Conn>)
    ensures var a := Decide(Frame(text, JsonObject(Some("ping"), stream, content)), timestamp);
      && ReplyTo(w.reg, c, a) == Some(Pong)
      && Apply(w, c, a, failing) == w
      && StaysOpen(a, false)
  {
  }

  /**
   * Connection `a` subscribes to `alerts`, which nobody follows yet; then
   * connection `b` (possibly `a` itself) posts some stripped, non-empty text
   * to `alerts`. The post becomes an alert fragment, `a` is its only
   * recipient, and the log is untouched.
   */
  lemma AlertReachesOnlySubscriber(w: World, a: Conn, b: Conn, text: string, content: string, timestamp: string)
    requires "alerts" !in w.reg.streams
    requires content != [] && Text.Strip(content) == content
    ensures var w1 := Apply(w, a, Decide(Frame(text, JsonObject(Some("subscribe"), Some("alerts"), Absent)), timestamp), {});
      var post := Decide(Frame(text, JsonObject(Some("message"), Some("alerts"), Str(content))), timestamp);
      && post == Post("alerts", None, Fragment("alerts", AlertItem(timestamp, content)))
      && Registry.Recipients(w1.reg, "alerts", None) == {a}
      && Apply(w1, b, post, {}).log == w.log
  {
    var join := Decide(Frame(text, JsonObject(Some("subscribe"), Some("alerts"), Absent)), timestamp);
    SubscribeFrameJoins(text, "alerts", Absent, timestamp);
    var post := Decide(Frame(text, JsonObject(Some("message"), Some("alerts"), Str(content))), timestamp);
    AlertFramePosts(text, content, timestamp);
    var w1 := Apply(w, a, join, {});
    assert w1 == World(Registry.Subscribe(w.reg, a, "alerts").reg, w.log);
    Registry.FirstSubscriberAlone(w.reg, a, "alerts");
    assert Apply(w1, b, post, {}).log == w1.log;
  }

  /** The greeting step of `periodic_broadcaster`. */
  function Tick(w: World, timestamp: string, failing: set<Conn>): (out: World)
    ensures out.log == if Registry.Recipients(w.reg, "greetings", None) != {} then w.log + [ServerPing(timestamp)] else w.log
    ensures forall d, u :: Registry.Subscribed(out.reg, d, u) <==>
      Registry.Subscribed(w.reg, d, u) && !(d in failing && Registry.Subscribed(w.reg, d, "greetings"))
    ensures out.reg == if Registry.Recipients(w.reg, "greetings", None) != {}
      then Registry.AfterBroadcast(w.reg, "greetings", None, failing) else w.reg
    ensures out.reg.clients.Keys == w.reg.clients.Keys - Registry.Recipients(w.reg, "greetings", None) * failing
    ensures forall d :: d in out.reg.clients ==> out.reg.clients[d] == w.reg.clients[d]
  {
    if "greetings" in w.reg.streams && w.reg.streams["greetings"] != {} then
      World(Registry.AfterBroadcast(w.reg, "greetings", None, failing), w.log + [ServerPing(timestamp)])
    else w
  }

  /**
   * Under the invariant the step fires exactly when someone is subscribed
   * to `greetings`; it then logs the server message, and otherwise changes
   * nothing.
   */
  lemma TickFiresWhenSubscribed(w: World, timestamp: string, failing: set<Conn>)
    requires Registry.Valid(w.reg)
    ensures var out := Tick(w, timestamp, failing);
      && Registry.Valid(out.reg)
      && ((exists c :: Registry.Subscribed(w.reg, c, "greetings")) ==> out.log == w.log + [ServerPing(timestamp)])
      && (!(exists c :: Registry.Subscribed(w.reg, c, "greetings")) ==> out == w)
  {
    if "greetings" in w.reg.streams {
      var c :| c in w.reg.streams["greetings"];
      assert Registry.Subscribed(w.reg, c, "greetings");
    }
  }

  /**
   * The sending loop of `broadcast_to_stream` over a snapshot of the
   * subscriber set: every member except `exclude` is sent the message once,
   * and those whose send fails are collected for removal.
   */
  method Deliver(snapshot: set<Conn>, message: string, exclude: Option<Conn>, failing: set<Conn>)
    returns (sent: seq<Send>, disconnected: seq<Conn>)
    ensures forall k :: 0 <= k < |sent| ==>
      sent[k].text == message && sent[k].to in snapshot && exclude != Some(sent[k].to)
    ensures forall d :: d in snapshot && exclude != Some(d) ==>
      exists k :: 0 <= k < |sent| && sent[k].to == d
    ensures forall j, k :: 0 <= j < k < |sent| ==> sent[j].to != sent[k].to
    ensures forall d :: d in disconnected <==> d in snapshot && exclude != Some(d) && d in failing
  {
    sent := [];
    disconnected := [];
    var pending := snapshot;
    while pending != {}
      invariant pending <= snapshot
      invariant forall k :: 0 <= k < |sent| ==>
        sent[k].text == message && sent[k].to in snapshot - pending && exclude != Some(sent[k].to)
      invariant forall d :: d in snapshot - pending && exclude != Some(d) ==>
        exists k :: 0 <= k < |sent| && sent[k].to == d
      invariant forall j, k :: 0 <= j < k < |sent| ==> sent[j].to != sent[k].to
      invariant forall d :: d in disconnected <==> d in snapshot - pending && exclude != Some(d) && d in failing
      decreases pending
    {
      var client :| client in pending;
      pending := pending - {client};
      if exclude == Some(client) {
        continue;
      }
      ghost var prev := sent;
      sent := sent + [Send(client, message)];
      assert sent[|sent| - 1].to == client;
      assert forall k :: 0 <= k < |prev| ==> sent[k] == prev[k];
      if client in failing {
        disconnected := disconnected + [client];
      }
    }
  }

  class AppState {
    /** `stream_subscriptions` */
    var streams: map<Topic, set<Conn>>
    /** `client_streams` */
    var clients: map<Conn, set<Topic>>
    /** `greetings` */
    var greetings: seq<string>

    function Model(): Registry.Reg
      reads this
    {
      Registry.Reg(streams, clients)
    }

    function State(): World
      reads this
    {
      World(Model(), greetings)
    }

    ghost predicate Valid()
      reads this
    {
      Registry.Valid(Model())
    }

    constructor ()
      ensures Valid() && Model() == Registry.Empty && greetings == []
    {
      streams := map[];
      clients := map[];
      greetings := [];
    }

    /** `subscribe_to_stream` */
    method Subscribe(c: Conn, t: Topic) returns (added: bool)
      requires Valid()
      modifies this
      ensures Valid()
      ensures Registry.Outcome(Model(), added) == Registry.Subscribe(old(Model()), c, t)
      ensures greetings == old(greetings)
    {
      ghost var r0 := Model();
      Registry.SubscribeInPlace(r0, c, t);
      if t !in streams {
        streams := streams[t := {}];
      }
      if c in streams[t] {
        return false;
      }
      streams := streams[t := streams[t] + {c}];
      if c !in clients {
        clients := clients[c := {}];
      }
      clients := clients[c := clients[c] + {t}];
      assert Valid() by {
        Registry.SubscribeValid(r0, c, t);
      }
      return true;
    }

    /** `unsubscribe_from_stream` */
    method Unsubscribe(c: Conn, t: Topic) returns (removed: bool)
      requires Valid()
      modifies this
      ensures Valid()
      ensures Registry.Outcome(Model(), removed) == Registry.Unsubscribe(old(Model()), c, t)
      ensures greetings == old(greetings)
    {
      ghost var r0 := Model();
      if t !in streams {
        return false;
      }
      if c !in streams[t] {
        return false;
      }
      Registry.UnsubscribeInPlace(r0, c, t);
      streams := streams[t := streams[t] - {c}];
      if c in clients {
        clients := clients[c := clients[c] - {t}];
      }
      if streams[t] == {} {
        streams := streams - {t};
      }
      assert Valid() by {
        Registry.UnsubscribeValid(r0, c, t);
      }
      return true;
    }

    /** `cleanup_client_subscriptions` */
    method Cleanup(c: Conn)
      requires Valid()
      modifies this
      ensures Valid()
      ensures Model() == Registry.Cleanup(old(Model()), c)
      ensures greetings == old(greetings)
    {
      if c !in clients {
        return;
      }
      ghost var r0 := Model();
      var topics := clients[c];
      var pending := topics;
      while pending != {}
        invariant pending <= topics
        invariant Valid()
        invariant clients == r0.clients[c := pending]
        invariant streams == Registry.DropFrom(r0.streams, c, topics - pending)
        invariant greetings == old(greetings)
        decreases pending
      {
        var t :| t in pending;
        Registry.CleanupLoopStep(r0, c, pending, Model(), t);
        var _ := Unsubscribe(c, t);
        pending := pending - {t};
      }
      if c in clients {
        clients := clients - {c};
      }
      assert clients == r0.clients - {c};
      assert Model() == Registry.Cleanup(r0, c);
      assert Valid() by {
        Registry.CleanupValid(r0, c);
      }
    }

    /** `broadcast_to_stream`, over a snapshot of the subscriber set. */
    method Broadcast(t: Topic, message: string, exclude: Option<Conn>, failing: set<Conn>)
      returns (sent: seq<Send>)
      requires Valid()
      modifies this
      ensures Valid()
      ensures Model() == Registry.AfterBroadcast(old(Model()), t, exclude, failing)
      ensures greetings == old(greetings)
      ensures forall k :: 0 <= k < |sent| ==>
        sent[k].text == message && sent[k].to in Registry.Recipients(old(Model()), t, exclude)
      ensures forall d :: d in Registry.Recipients(old(Model()), t, exclude) ==>
        exists k :: 0 <= k < |sent| && sent[k].to == d
      ensures forall j, k :: 0 <= j < k < |sent| ==> sent[j].to != sent[k].to
    {
      sent := [];
      if t !in streams {
        return;
      }
      ghost var r0 := Model();
      var disconnected;
      sent, disconnected := Deliver(streams[t], message, exclude, failing);

      ghost var done: set<Conn> := {};
      Registry.DetachNone(r0);
      var i := 0;
      while i < |disconnected|
        invariant 0 <= i <= |disconnected|
        invariant Valid()
        invariant forall d :: d in done <==> d in disconnected[..i]
        invariant Model() == Registry.Detach(r0, done)
        invariant greetings == old(greetings)
      {
        Registry.CleanupIsDetach(Model(), disconnected[i]);
        Registry.DetachTwice(r0, done, {disconnected[i]});
        Cleanup(disconnected[i]);
        done := done + {disconnected[i]};
        assert disconnected[..i + 1] == disconnected[..i] + [disconnected[i]];
        i := i + 1;
      }
      assert disconnected[..i] == disconnected;
      assert done == Registry.Recipients(r0, t, exclude) * failing;
    }

    /** The greeting step of `periodic_broadcaster`. */
    method PeriodicTick(timestamp: string, failing: set<Conn>) returns (sent: seq<Send>)
      requires Valid()
      modifies this
      ensures Valid()
      ensures State() == Tick(old(State()), timestamp, failing)
      ensures forall k :: 0 <= k < |sent| ==>
        sent[k].text == Render(Fragment("greetings", ServerPingItem(ServerPing(timestamp))))
        && Registry.Subscribed(old(Model()), sent[k].to, "greetings")
      ensures forall d :: Registry.Subscribed(old(Model()), d, "greetings") ==>
        exists k :: 0 <= k < |sent| && sent[k].to == d
      ensures forall j, k :: 0 <= j < k < |sent| ==> sent[j].to != sent[k].to
    {
      sent := [];
      if "greetings" in streams && streams["greetings"] != {} {
        var message := ServerPing(timestamp);
        greetings := greetings + [message];
        sent := Broadcast("greetings", Render(Fragment("greetings", ServerPingItem(message))), None, failing);
      }
    }

    /** The body of the endpoint's receive loop for one frame from `c`. */
    method HandleFrame(c: Conn, e: Event) returns (reply: Option<Outbound>, open: bool, sent: seq<Send>)
      requires Valid()
      modifies this
      ensures Valid()
      ensures var a := Decide(e.frame, e.timestamp);
        && State() == Apply(old(State()), c, a, e.failing)
        && reply == ReplyTo(old(Model()), c, a)
        && open == StaysOpen(a, e.replyFails)
        && (!a.Post? ==> sent == [])
        && (a.Post? ==> forall k :: 0 <= k < |sent| ==>
              sent[k].text == Render(a.fragment) && Registry.Subscribed(old(Model()), sent[k].to, a.stream))
        && (a.Post? ==> forall d :: Registry.Subscribed(old(Model()), d, a.stream) ==>
              exists k :: 0 <= k < |sent| && sent[k].to == d)
        && (forall j, k :: 0 <= j < k < |sent| ==> sent[j].to != sent[k].to)
    {
      var a := Decide(e.frame, e.timestamp);
      sent := [];
      match a {
        case Reply(o) =>
          reply, open := Some(o), !e.replyFails;
        case Join(s) =>
          var ok := Subscribe(c, s);
          reply, open := Some(SubscribedReply(s, ok)), !e.replyFails;
        case Leave(s) =>
          var ok := Unsubscribe(c, s);
          reply, open := Some(UnsubscribedReply(s, ok)), !e.replyFails;
        case Post(s, entry, fragment) =>
          if entry.Some? {
            greetings := greetings + [entry.value];
          }
          sent := Broadcast(s, Render(fragment), None, e.failing);
          reply, open := None, true;
        case Skip =>
          reply, open := None, true;
        case Fail =>
          reply, open := None, false;
      }
    }

    /**
     * `websocket_endpoint` after the handshake: frames are handled until one
     * ends the loop or the peer disconnects, then `c` is cleaned up.
     * Returns how many frames were handled.
     */
    method RunSession(c: Conn, events: seq<Event>) returns (handled: nat)
      requires Valid()
      modifies this
      ensures Valid()
      ensures State() == Session(old(State()), c, events)
      ensures handled <= |events|
    {
      ghost var w0 := State();
      handled := 0;
      var open := true;
      while handled < |events| && open
        invariant handled <= |events|
        invariant Valid()
        invariant Session(w0, c, events) ==
          if open then Session(State(), c, events[handled..])
          else World(Registry.Cleanup(Model(), c), greetings)
      {
        assert events[handled..][0] == events[handled];
        assert events[handled..][1..] == events[handled + 1..];
        var reply, stillOpen, sent := HandleFrame(c, events[handled]);
        open := stillOpen;
        handled := handled + 1;
      }
      Cleanup(c);
    }
  }
}
