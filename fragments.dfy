/**
 * The text app.py builds for the greetings log and the Turbo Stream
 * fragments it pushes to subscribers.
 */
module Fragments {

  /** A `<turbo-stream action="append">` element: `item` goes at the end of the DOM element named `target`. */
  datatype Fragment = Fragment(target: string, item: string)

  function Render(f: Fragment): string
  {
    "\n<turbo-stream action=\"append\" target=\"" + f.target + "\">\n  <template>\n    "
    + f.item + "\n  </template>\n</turbo-stream>"
  }

  const GreetingPrefix := "Hello, "

  /** The log entry for a posted name. */
  function Greeting(name: string): string
  {
    GreetingPrefix + name + "!"
  }

  /** Recovers the name from a greeting. */
  function GreetedName(g: string): string
    requires |g| >= |GreetingPrefix| + 1
  {
    g[|GreetingPrefix|..|g| - 1]
  }

  /** A greeting determines the name it greets, so distinct names give distinct log entries. */
  lemma GreetingRoundTrip(name: string)
    ensures |Greeting(name)| == |name| + 8
    ensures GreetedName(Greeting(name)) == name
  {
    var g := Greeting(name);
    assert g == GreetingPrefix + (name + "!");
    assert g[|GreetingPrefix|..] == name + "!";
  }

  /** The log entry of the periodic server message. */
  function ServerPing(timestamp: string): string
  {
    "Server ping at " + timestamp
  }

  function GreetingItem(greeting: string): string
  {
    "<li>" + greeting + "</li>"
  }

  function ServerPingItem(message: string): string
  {
    "<li style=\"color: #666; font-style: italic;\">" + message + "</li>"
  }

  function NotificationItem(timestamp: string, content: string): string
  {
    "<li><strong>" + timestamp + "</strong>: " + content + "</li>"
  }

  function AlertItem(timestamp: string, content: string): string
  {
    "<li style=\"color: #dc3545;\"><strong>" + timestamp + "</strong>: " + content + "</li>"
  }
}
