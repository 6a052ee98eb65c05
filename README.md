# Stream subscriptions of the steam demo server, in Dafny

The steam demo server (`app.py`) pushes Turbo Stream HTML fragments to
browsers over WebSockets. Its core is an in-memory registry with two parts:
- `stream_subscriptions` maps a stream name to the set of connections subscribed to it;
- `client_streams` is the inverse map, from a connection to its stream names.

The registry is maintained by `subscribe_to_stream`, `unsubscribe_from_stream`
and `cleanup_client_subscriptions`. `broadcast_to_stream` sends one text
frame to a stream's subscribers and cleans up every subscriber whose send
raised. The periodic broadcaster posts a server message to `greetings`
subscribers. The WebSocket endpoint dispatches each received frame on its
JSON `type` (`ping`, `pong`, `subscribe`, `unsubscribe`, `message`) and
falls back to a legacy plain-text greeting. When the receive loop ends for
any reason, it cleans up the connection.

The project has five modules:

- `Registry` (registry.dfy): the two dictionaries as a value `Reg`. It defines the reference meaning of each registry operation as a function, and the registry invariant `Valid`:
  - no stream name maps to an empty set;
  - the forward map and the inverse map describe the same pairs.

  The lemmas prove that every operation keeps the invariant. They also prove how the operations compose: cleanup equals detaching one connection, detaching twice equals detaching the union, cleanup is idempotent, subscribing twice is a no-op, and the subscribe/unsubscribe round trip restores the forward map, and the inverse map except for an empty entry for a connection that had none.
- `App` (app.dfy):
  - Class `AppState` holds `stream_subscriptions`, `client_streams` and the `greetings` log as mutable fields. Its methods follow the source statement by statement: the cleanup loop over a connection's stream names, and the broadcast with its two loops (send to a snapshot, then clean up the failed sends). Each method is proved to produce exactly the registry given by the corresponding `Registry` function.
  - `Session` is the functional meaning of one connection's whole receive loop. `SessionEndsDetached` proves that, however the loop ends, the connection holds no subscription afterwards and the invariant still holds.
- `Dispatch` (dispatch.dfy): `Decide` turns one received frame into an `Action`. Its contract gives the exact condition for each kind of action.
- `Text` (text.dfy): Python's `str.strip()`, with the `str.isspace()` character set.
- `Fragments` (fragments.dfy): the log entries and Turbo Stream markup the server builds.

Connections are natural numbers compared by identity. A send is not performed. Instead, each operation that sends takes as inputs the set of connections whose send raises (`failing`) and whether the direct reply to the sender raises (`replyFails`). The operation returns the sends it attempts. `json.loads` is not modelled: a frame arrives as its raw text together with the shape it decodes to (`Parsed`).

Some behaviour follows the code where the code goes further than its own comments and the obvious reading:

- A frame that parses as JSON but not as an object (a list, a number, a string) makes `msg.get` raise `AttributeError`. This is not a `JSONDecodeError`, so the outer handler catches it and the session ends and is cleaned up. `Decide` returns `Fail` for it; it does not ignore the frame.
- A `message` frame whose `content` is `null` or any other non-string value also raises (in `.strip()`), and ends the session in the same way.
- A JSON object whose `type` is missing or is none of the five known kinds falls through to the legacy path, which uses the raw frame text. A non-blank frame is therefore greeted by its whole JSON text (`UnknownKindIsLegacy`).
- A `message` to a stream other than `greetings`, `notifications` or `alerts` does nothing (`UnknownStreamIgnored`).
- A failed send of the `pong`, `subscribed` or `unsubscribed` reply escapes the receive loop and ends the session.
- Unsubscribing never deletes a connection's inverse entry, so subscribing and then unsubscribing can leave an empty set behind (`SubscribeUnsubscribe`).

## Model

| member | source | states |
|---|---|---|
| Registry.Subscribe | app.py:20-35 | reports true exactly when the pair was absent and otherwise changes nothing; afterwards the pair is in both maps, no other pair changes, the stream name is a key, the inverse set of `c` gains exactly `t` (starting from empty when `c` had none), and other connections' inverse sets are untouched |
| Registry.Unsubscribe | app.py:38-56 | reports true exactly when the pair was present and otherwise changes nothing; afterwards the pair is gone from the forward map, no other pair changes, the stream key survives exactly when another subscriber remains, and the inverse set of `c` loses only `t` |
| Registry.DropFrom | app.py:64-66 | the forward map after `c` has been unsubscribed from each of the given stream names: those sets lose `c`, a key disappears exactly when its set was `{c}` and its name is among them, no key is added, and other sets are unchanged |
| Registry.Cleanup | app.py:59-69 | does nothing for a connection without an inverse entry; otherwise deletes that entry, keeps every other connection's subscriptions, and under the invariant leaves `c` subscribed nowhere |
| Registry.Detach | app.py:86-88 | after removing a set of connections, a pair is subscribed exactly when it was before and its connection is not removed; the removed connections lose their inverse entries |
| Registry.Recipients | app.py:77-84 | a connection is sent the broadcast exactly when it is subscribed to the stream and is not the excluded one |
| Registry.AfterBroadcast | app.py:72-88 | after a broadcast, a pair is subscribed exactly when it was before and its connection is not a recipient whose send failed; exactly the failed recipients lose their inverse entry and every other entry is unchanged; the invariant is kept; a broadcast to a stream with no key changes nothing |
| Registry.DetachValid | app.py:86-88 | cleaning up any set of connections keeps the registry invariant |
| Registry.DetachNone | app.py:74-75 | under the invariant, a broadcast with no failed sends leaves the registry unchanged |
| Registry.SubscribeInPlace | app.py:22-32 | the source's statement order (create the empty set on demand, return early when present, then add to both maps) gives exactly `Subscribe` |
| Registry.UnsubscribeInPlace | app.py:46-53 | the source's statement order (discard from both sets, then delete an emptied forward key) gives exactly `Unsubscribe` |
| Registry.CleanupLoopStep | app.py:64-66 | one iteration of the cleanup loop moves one stream name from pending to done in both maps |
| Registry.KeysAreSubscribed | app.py:51-53 | under the invariant, a stream name is a key exactly when someone is subscribed to it |
| Registry.SubscribeTwice | app.py:25-26 | a second subscription of the same pair reports false and changes nothing |
| Registry.FirstSubscriberAlone | app.py:22-28 | the first subscriber of a stream nobody follows is its only recipient |
| Registry.EmptyValid | app.py:15-17 | the empty registry satisfies the invariant |
| Registry.Valid | app.py:28-32 | the registry invariant the operations maintain: no stream name maps to an empty set (app.py:51-53 deletes it), and a pair is in the forward map exactly when it is in the inverse map |
| Registry.SubscribeValid | app.py:20-35 | subscribing keeps the invariant |
| Registry.UnsubscribeValid | app.py:38-56 | unsubscribing keeps the invariant, including the deletion of emptied stream keys |
| Registry.CleanupValid | app.py:59-69 | cleanup keeps the invariant |
| Registry.CleanupIsDetach | app.py:59-69 | under the invariant, cleaning up `c` through its inverse entry is the same as removing `c` from every set |
| Registry.CleanupIdempotent | app.py:61-62 | a second cleanup of the same connection changes nothing |
| Registry.DetachTwice | app.py:87-88 | cleaning up connections one after another gives the same registry as removing them all together, in any grouping |
| Registry.SubscribeUnsubscribe | app.py:20-56 | subscribing an absent pair and unsubscribing it reports success and restores the forward map exactly; the inverse map is restored, or gains an empty entry for `c` when it had none |
| Text.StripStart | app.py:284 | the result is the suffix of the input after its leading whitespace, and it does not start with whitespace |
| Text.StripEnd | app.py:284 | the result is the prefix of the input before its trailing whitespace, and it does not end with whitespace |
| Text.Strip | app.py:250 | the stripped text neither starts nor ends with whitespace, and it is empty exactly when the input is all whitespace |
| Text.StripIdempotent | app.py:250 | stripping twice is stripping once |
| Fragments.GreetingRoundTrip | app.py:254 | a greeting is eight characters longer than the name and gives the name back, so distinct names give distinct log entries |
| Fragments.Render | app.py:256-261 | (definition, no contract) the `append` Turbo Stream element with its template, for a target and an item, laid out as the source's triple-quoted strings are |
| Fragments.Greeting | app.py:286 | (definition, no contract) the log entry `Hello, name!`; `GreetingRoundTrip` states that it determines the name |
| Fragments.ServerPing | app.py:97 | (definition, no contract) the log entry `Server ping at ` followed by the timestamp |
| Fragments.GreetingItem | app.py:259 | (definition, no contract) the plain list item of a greeting |
| Fragments.ServerPingItem | app.py:102 | (definition, no contract) the grey italic list item of the server message |
| Fragments.NotificationItem | app.py:267 | (definition, no contract) the list item with the timestamp in bold, then the content |
| Fragments.AlertItem | app.py:275 | (definition, no contract) the red list item with the timestamp in bold, then the content |
| Dispatch.GreetingPost | app.py:254-262 | a greeting post goes to `greetings`, logs `Hello, name!` for the given name, and broadcasts the list item of that greeting |
| Dispatch.Legacy | app.py:283-297 | plain text is skipped exactly when it is all whitespace; otherwise it logs and broadcasts on `greetings` the greeting of its stripped form |
| Dispatch.Message | app.py:247-279 | a `message` frame fails exactly when its content is not a string; it posts exactly when its content is a non-blank string and its stream is one of the three known streams, to that stream, carrying the stripped content; otherwise it does nothing |
| Dispatch.Route | app.py:251-278 | the stripped content is posted exactly when it is non-empty and the stream is a known one, to that stream: to `greetings` as the logged greeting of the text, to `notifications` and `alerts` as the timestamped item of that stream |
| Dispatch.Command | app.py:220-281 | for a JSON object: `ping` gives exactly a `pong` reply; `pong` does nothing; `subscribe`/`unsubscribe` join or leave the named stream when it is non-empty and do nothing otherwise; `message` fails exactly for non-string content and posts exactly non-blank string content to a known stream, carrying its stripped form; a missing or unknown `type` is the legacy greeting of the raw text |
| Dispatch.Decide | app.py:217-297 | the exact outcome of every frame: a non-object JSON value fails; `ping` gets `pong`; `pong` and a subscribe/unsubscribe without a stream do nothing; subscribe/unsubscribe join or leave the named stream; a `message` fails on non-string content, posts non-blank string content to a known stream and otherwise does nothing; text that is not JSON, and an object of unknown `type`, greets its stripped raw text unless blank. Every post carries the stripped payload in its stream's item, and only greetings are logged |
| Dispatch.UnknownKindIsLegacy | app.py:220-297 | a JSON object with a missing or unknown `type` is handled exactly as the same text would be if it were not JSON |
| Dispatch.UnknownStreamIgnored | app.py:247-279 | a `message` to an unknown stream does nothing |
| Dispatch.PlainTextGreets | app.py:280-297 | non-JSON text that is not blank logs and broadcasts the greeting of its stripped form |
| Dispatch.SubscribeFrameJoins | app.py:227-230 | a `subscribe` frame naming a non-empty stream joins exactly that stream |
| Dispatch.AlertFramePosts | app.py:247-278 | a `message` to `alerts` with stripped non-empty content posts exactly the timestamped alert item of that content, without logging |
| App.StaysOpen | app.py:222-246 | an escaping exception ends the receive loop; a skipped frame or a broadcast never does; after `pong`, `subscribed` or `unsubscribed` the loop goes on exactly when that reply was sent |
| App.ReplyTo | app.py:223-245 | the sender gets a reply exactly for `ping`, `subscribe` and `unsubscribe`; the success flag of `subscribed` is whether the pair was absent, and that of `unsubscribed` is whether it was present |
| App.Apply | app.py:217-297 | replies, skips and failures change nothing; a join is `Registry.Subscribe` and a leave `Registry.Unsubscribe` of the sender and the named stream; a post is `Registry.AfterBroadcast` of its stream with no exclusion; the log grows by exactly the greeting a post carries |
| App.ApplyValid | app.py:217-297 | handling any frame keeps the registry invariant |
| App.Session | app.py:202-306 | after any run of the receive loop and its final cleanup the connection has no inverse entry, and the log has only grown |
| App.SessionEndsDetached | app.py:299-306 | however the receive loop ends, afterwards the invariant holds, the connection has no inverse entry and no subscription, and the log has only grown |
| App.PingIsAnswered | app.py:222-224 | `ping` is answered with `pong`, changes nothing and keeps the session open |
| App.AlertReachesOnlySubscriber | app.py:227-278 | when one connection subscribes to `alerts`, which nobody follows, and any connection then posts text there, the post becomes the alert item of that text, only the subscriber receives it, and the log is untouched |
| App.Tick | app.py:95-105 | the step logs the server message exactly when `greetings` has a subscriber; afterwards a pair is subscribed exactly when it was before and its connection is not a `greetings` subscriber whose send failed; the registry is `AfterBroadcast` of `greetings` when it fires and unchanged otherwise, so exactly the failed `greetings` subscribers lose their inverse entry and every other entry stays |
| App.TickFiresWhenSubscribed | app.py:95-105 | under the invariant, the periodic step fires exactly when someone is subscribed to `greetings`; it then logs the server message, otherwise it changes nothing, and it keeps the invariant |
| App.Deliver | app.py:77-84 | every subscriber in the snapshot except the excluded one is sent the message exactly once and nobody else is; the failed sends collected are exactly those recipients in `failing` |
| App.AppState.constructor | app.py:15-17 | both dictionaries and the log start empty |
| App.AppState.Subscribe | app.py:20-35 | updating the two map fields in place gives exactly `Registry.Subscribe`, with the same result, and keeps the invariant |
| App.AppState.Unsubscribe | app.py:38-56 | updating the two map fields in place gives exactly `Registry.Unsubscribe`, with the same result, and keeps the invariant |
| App.AppState.Cleanup | app.py:59-69 | the loop over the connection's stream names followed by deleting its entry gives exactly `Registry.Cleanup`, and keeps the invariant |
| App.AppState.Broadcast | app.py:72-88 | exactly the recipients are sent the message, each once; cleaning up each failed send gives exactly `Registry.AfterBroadcast`, and keeps the invariant |
| App.AppState.PeriodicTick | app.py:95-105 | the world becomes `Tick`; every `greetings` subscriber is sent the server-message fragment, once, and nobody else is |
| App.AppState.HandleFrame | app.py:217-297 | the world becomes `Apply` of the decided action; the reply and whether the loop goes on are as `ReplyTo` and `StaysOpen` say; a post reaches exactly the stream's subscribers, each once, with the rendered fragment |
| App.AppState.RunSession | app.py:202-306 | running the receive loop and the final cleanup gives exactly the world `Session` describes, and keeps the invariant |

## Left out

- `tasks.py` (the stylesheet build) is not part of this model: it does file I/O only.
- The per-connection heartbeat task, the receive timeout and the ping sent on timeout are left out. They involve timing and concurrency and do not change the registry; a timeout ping that fails ends the loop like any other ending.
- The `lifespan` hook, `asyncio.sleep` and the endless loop of `periodic_broadcaster` are left out. Only one step of that loop is modelled (`Tick`).
- Clock readings (`datetime.now().strftime`) are left out; the timestamp is an input string.
- Sending is not performed. Which sends raise is an input, and the text of the JSON replies is given as the `Outbound` datatype rather than as serialised JSON.
- JSON decoding is not modelled. The decoded shape is part of each frame, and a `type` or `stream` value that is not a string counts as missing. A truthy non-string `stream` on `subscribe`/`unsubscribe`, which the code would use as a dictionary key, is not modelled.
- HTTP routes, templates, static files and the `print` logging are not modelled.
- Concurrency between sessions is not modelled; each operation is atomic. The broadcast iterates a snapshot of the subscriber set. The code iterates the live set across `await` points, where another session could change it. The order in which a set is iterated is not modelled: the sends form a sequence whose order is left unconstrained.
- Text.Strip: the contract states how the result starts and ends and when it is empty. That the result is the middle slice of the input follows from `StripStart` and `StripEnd`, which state it; it is not restated for `Strip` itself.
