/**
 * The subscription registry of app.py as a value: the forward map from a
 * stream name to the connections subscribed to it (`stream_subscriptions`)
 * and the inverse map from a connection to its stream names
 * (`client_streams`). The functions here are the reference meaning of the
 * registry operations; the class in app.dfy updates its own two map fields
 * and is proved to agree with them.
 */
module Registry {
  import opened Wrappers

  /** A connection is compared by identity only. */
  type Conn = nat
  type Topic = string

  datatype Reg = Reg(streams: map<Topic, set<Conn>>, clients: map<Conn, set<Topic>>)

  /** The new registry and the boolean the source operation returns. */
  datatype Outcome = Outcome(reg: Reg, changed: bool)

  /** Both dictionaries start empty. */
  const Empty: Reg := Reg(map[], map[])

  /** `c` is in the forward set of `t`. */
  predicate Subscribed(r: Reg, c: Conn, t: Topic)
  {
    t in r.streams && c in r.streams[t]
  }

  /** A stream name is a key of the forward map only while someone is subscribed to it. */
  ghost predicate NoEmptyStream(r: Reg)
  {
    forall t :: t in r.streams ==> r.streams[t] != {}
  }

  /** `c` is in the forward set of `t` exactly when `t` is in the inverse set of `c`. */
  ghost predicate Consistent(r: Reg)
  {
    && (forall t, c :: t in r.streams && c in r.streams[t] ==> c in r.clients && t in r.clients[c])
    && (forall c, t :: c in r.clients && t in r.clients[c] ==> t in r.streams && c in r.streams[t])
  }

  ghost predicate Valid(r: Reg)
  {
    NoEmptyStream(r) && Consistent(r)
  }

  /**
   * `subscribe_to_stream`: false and no change when `c` already is in `t`'s
   * set; otherwise adds the pair to both maps, creating either set on demand.
   */
  function Subscribe(r: Reg, c: Conn, t: Topic): (out: Outcome)
    ensures out.changed <==> !Subscribed(r, c, t)
    ensures !out.changed ==> out.reg == r
    ensures Subscribed(out.reg, c, t)
    ensures out.changed ==> c in out.reg.clients && t in out.reg.clients[c]
    ensures out.changed ==> out.reg.clients[c] == (if c in r.clients then r.clients[c] else {}) + {t}
    ensures forall d, u :: d != c || u != t ==> (Subscribed(out.reg, d, u) <==> Subscribed(r, d, u))
    ensures out.reg.streams.Keys == r.streams.Keys + {t}
    ensures out.reg.clients.Keys == if out.changed then r.clients.Keys + {c} else r.clients.Keys
    ensures forall d :: d in r.clients && d != c ==> out.reg.clients[d] == r.clients[d]
  {
    var subs := if t in r.streams then r.streams[t] else {};
    if c in subs then Outcome(r, false)
    else
      var topics := if c in r.clients then r.clients[c] else {};
      Outcome(Reg(r.streams[t := subs + {c}], r.clients[c := topics + {t}]), true)
  }

  /**
   * `unsubscribe_from_stream`: false and no change unless `c` is in `t`'s
   * set; otherwise removes the pair from both maps and deletes the stream
   * key once its set is empty. An inverse entry that becomes empty stays.
   */
  function Unsubscribe(r: Reg, c: Conn, t: Topic): (out: Outcome)
    ensures out.changed <==> Subscribed(r, c, t)
    ensures !out.changed ==> out.reg == r
    ensures !Subscribed(out.reg, c, t)
    ensures forall d, u :: d != c || u != t ==> (Subscribed(out.reg, d, u) <==> Subscribed(r, d, u))
    ensures out.changed ==> (t in out.reg.streams <==> r.streams[t] != {c})
    ensures out.reg.streams.Keys <= r.streams.Keys
    ensures out.reg.clients.Keys == r.clients.Keys
    ensures c in r.clients ==> out.reg.clients[c] == if out.changed then r.clients[c] - {t} else r.clients[c]
    ensures forall d :: d in r.clients && d != c ==> out.reg.clients[d] == r.clients[d]
  {
    if t !in r.streams then Outcome(r, false)
    else if c !in r.streams[t] then Outcome(r, false)
    else
      var rest := r.streams[t] - {c};
      var clients := if c in r.clients then r.clients[c := r.clients[c] - {t}] else r.clients;
      var streams := if rest == {} then r.streams - {t} else r.streams[t := rest];
      assert forall d :: d in r.streams[t] && d != c ==> d in rest;
      Outcome(Reg(streams, clients), true)
  }

  /**
   * The forward map after `unsubscribe_from_stream(c, t)` has run for each
   * `t` in `ts`: `c` leaves those sets, and a set that held only `c` loses
   * its key. Sets of other stream names are untouched.
   */
  function DropFrom(streams: map<Topic, set<Conn>>, c: Conn, ts: set<Topic>): (m: map<Topic, set<Conn>>)
    ensures m.Keys <= streams.Keys
    ensures forall t :: t in streams ==> (t in m <==> !(t in ts && streams[t] == {c}))
    ensures forall t :: t in m ==> m[t] == if t in ts then streams[t] - {c} else streams[t]
  {
    map t | t in streams && !(t in ts && streams[t] == {c}) :: if t in ts then streams[t] - {c} else streams[t]
  }

  /**
   * `cleanup_client_subscriptions`: nothing when `c` has no inverse entry;
   * otherwise unsubscribes `c` from each of its streams and deletes its
   * inverse entry. No other connection's subscriptions change.
   */
  function Cleanup(r: Reg, c: Conn): (out: Reg)
    ensures c !in r.clients ==> out == r
    ensures out.clients == r.clients - {c}
    ensures forall d, t :: d != c ==> (Subscribed(out, d, t) <==> Subscribed(r, d, t))
    ensures Valid(r) ==> forall t :: !Subscribed(out, c, t)
  {
    if c !in r.clients then r
    else Reg(DropFrom(r.streams, c, r.clients[c]), r.clients - {c})
  }

  /**
   * The registry with every connection of `cs` removed from every set and
   * from the inverse map, and with emptied stream keys deleted.
   */
  function Detach(r: Reg, cs: set<Conn>): (out: Reg)
    ensures forall d, t :: Subscribed(out, d, t) <==> Subscribed(r, d, t) && d !in cs
    ensures out.clients.Keys == r.clients.Keys - cs
    ensures forall d :: d in out.clients ==> out.clients[d] == r.clients[d]
  {
    var out := Reg(map t | t in r.streams && r.streams[t] - cs != {} :: r.streams[t] - cs,
                   map d | d in r.clients && d !in cs :: r.clients[d]);
    assert forall d, t :: Subscribed(r, d, t) && d !in cs ==> d in r.streams[t] - cs;
    out
  }

  /** The connections `broadcast_to_stream(t, _, exclude)` sends to. */
  function Recipients(r: Reg, t: Topic, exclude: Option<Conn>): (rs: set<Conn>)
    ensures forall c :: c in rs <==> Subscribed(r, c, t) && exclude != Some(c)
  {
    if t !in r.streams then {}
    else if exclude.Some? then r.streams[t] - {exclude.value}
    else r.streams[t]
  }

  /**
   * The registry after `broadcast_to_stream(t, _, exclude)` when the sends to
   * `failing` raise: each recipient whose send failed is cleaned up.
   */
  function AfterBroadcast(r: Reg, t: Topic, exclude: Option<Conn>, failing: set<Conn>): (out: Reg)
    ensures forall d, u :: Subscribed(out, d, u) <==>
      Subscribed(r, d, u) && !(d in failing && Subscribed(r, d, t) && exclude != Some(d))
    ensures out.clients.Keys == r.clients.Keys - Recipients(r, t, exclude) * failing
    ensures forall d :: d in out.clients ==> out.clients[d] == r.clients[d]
    ensures Valid(r) ==> Valid(out)
    ensures Valid(r) && t !in r.streams ==> out == r
  {
    var out := Detach(r, Recipients(r, t, exclude) * failing);
    assert Valid(r) ==> Valid(out) by {
      if Valid(r) {
        DetachValid(r, Recipients(r, t, exclude) * failing);
      }
    }
    assert Valid(r) && t !in r.streams ==> out == r by {
      if Valid(r) && t !in r.streams {
        assert Recipients(r, t, exclude) * failing == {};
        DetachNone(r);
      }
    }
    out
  }

  /** Detaching connections keeps the invariant. */
  lemma DetachValid(r: Reg, cs: set<Conn>)
    requires Valid(r)
    ensures Valid(Detach(r, cs))
  {
    var out := Detach(r, cs);
    forall c, t | c in out.clients && t in out.clients[c]
      ensures t in out.streams && c in out.streams[t]
    {
      assert Subscribed(r, c, t);
    }
  }

  /** Under the invariant, detaching nobody changes nothing. */
  lemma DetachNone(r: Reg)
    requires Valid(r)
    ensures Detach(r, {}) == r
  {
    var out := Detach(r, {});
    forall u | u in r.streams ensures u in out.streams && out.streams[u] == r.streams[u] {
      assert r.streams[u] - {} == r.streams[u];
    }
    assert out.streams == r.streams;
    assert out.clients == r.clients;
  }

  /**
   * One more topic of the cleanup loop: unsubscribing `c` from `t` after the
   * topics `done` moves the forward map on to `done + {t}`.
   */
  lemma DropFromStep(streams: map<Topic, set<Conn>>, clients: map<Conn, set<Topic>>, c: Conn, done: set<Topic>, t: Topic)
    requires t !in done && t in streams && c in streams[t]
    ensures Unsubscribe(Reg(DropFrom(streams, c, done), clients), c, t).reg.streams == DropFrom(streams, c, done + {t})
  {
    var lhs := Unsubscribe(Reg(DropFrom(streams, c, done), clients), c, t).reg.streams;
    var rhs := DropFrom(streams, c, done + {t});
    forall u | u in streams
      ensures u in lhs <==> u in rhs
      ensures u in lhs ==> lhs[u] == rhs[u]
    {
      if u == t {
        assert streams[t] - {c} == {} <==> streams[t] == {c};
      }
    }
    assert lhs == rhs;
  }

  /**
   * `subscribe_to_stream` as its statements run: first an empty set for a
   * new stream name, then the early return, then the two additions.
   */
  lemma SubscribeInPlace(r: Reg, c: Conn, t: Topic)
    ensures var s1 := if t in r.streams then r.streams else r.streams[t := {}];
      var c1 := if c in r.clients then r.clients else r.clients[c := {}];
      && (c in s1[t] <==> Subscribed(r, c, t))
      && (c in s1[t] ==> s1 == r.streams)
      && (c !in s1[t] ==> Subscribe(r, c, t).reg == Reg(s1[t := s1[t] + {c}], c1[c := c1[c] + {t}]))
  {
  }

  /**
   * `unsubscribe_from_stream` as its statements run once the pair is known
   * to be present: discard from the forward set, discard from the inverse
   * set if there is one, then delete the forward key if its set emptied.
   */
  lemma UnsubscribeInPlace(r: Reg, c: Conn, t: Topic)
    requires Subscribed(r, c, t)
    ensures var s1 := r.streams[t := r.streams[t] - {c}];
      var c1 := if c in r.clients then r.clients[c := r.clients[c] - {t}] else r.clients;
      var s2 := if s1[t] == {} then s1 - {t} else s1;
      Unsubscribe(r, c, t).reg == Reg(s2, c1)
  {
    var s1 := r.streams[t := r.streams[t] - {c}];
    assert s1 - {t} == r.streams - {t};
  }

  /**
   * The state of the cleanup loop of `c` after the topics `topics - pending`
   * moves on by one topic when `c` is unsubscribed from `t`.
   */
  lemma CleanupLoopStep(r0: Reg, c: Conn, pending: set<Topic>, r: Reg, t: Topic)
    requires Valid(r0) && c in r0.clients && pending <= r0.clients[c] && t in pending
    requires r.clients == r0.clients[c := pending]
    requires r.streams == DropFrom(r0.streams, c, r0.clients[c] - pending)
    ensures var out := Unsubscribe(r, c, t).reg;
      && out.clients == r0.clients[c := pending - {t}]
      && out.streams == DropFrom(r0.streams, c, r0.clients[c] - (pending - {t}))
  {
    var topics := r0.clients[c];
    assert t in r0.streams && c in r0.streams[t];
    DropFromStep(r0.streams, r.clients, c, topics - pending, t);
    assert topics - pending + {t} == topics - (pending - {t});
  }

  /** Under the invariant a stream name is a key exactly when some connection is subscribed to it. */
  lemma KeysAreSubscribed(r: Reg, t: Topic)
    requires Valid(r)
    ensures t in r.streams <==> exists c :: Subscribed(r, c, t)
  {
    if t in r.streams {
      var c :| c in r.streams[t];
      assert Subscribed(r, c, t);
    }
  }

  /** The first subscriber of a stream nobody follows is its only recipient. */
  lemma FirstSubscriberAlone(r: Reg, c: Conn, t: Topic)
    requires t !in r.streams
    ensures Recipients(Subscribe(r, c, t).reg, t, None) == {c}
  {
    var out := Subscribe(r, c, t).reg;
    forall d
      ensures d in Recipients(out, t, None) <==> d == c
    {
      assert !Subscribed(r, d, t);
    }
  }

  /** Subscribing the same pair twice: the second call reports false and changes nothing. */
  lemma SubscribeTwice(r: Reg, c: Conn, t: Topic)
    ensures var once := Subscribe(r, c, t).reg;
      Subscribe(once, c, t) == Outcome(once, false)
  {
  }

  lemma EmptyValid()
    ensures Valid(Empty)
  {
  }

  lemma SubscribeValid(r: Reg, c: Conn, t: Topic)
    requires Valid(r)
    ensures Valid(Subscribe(r, c, t).reg)
  {
  }

  lemma UnsubscribeValid(r: Reg, c: Conn, t: Topic)
    requires Valid(r)
    ensures Valid(Unsubscribe(r, c, t).reg)
  {
  }

  lemma CleanupValid(r: Reg, c: Conn)
    requires Valid(r)
    ensures Valid(Cleanup(r, c))
  {
  }

  /** Under the invariant, cleaning up `c` is the same as detaching `c` alone. */
  lemma CleanupIsDetach(r: Reg, c: Conn)
    requires Valid(r)
    ensures Cleanup(r, c) == Detach(r, {c})
  {
    var lhs, rhs := Cleanup(r, c), Detach(r, {c});
    if c in r.clients {
      forall t | t in r.streams
        ensures t in lhs.streams <==> t in rhs.streams
        ensures t in lhs.streams ==> lhs.streams[t] == rhs.streams[t]
      {
        if t !in r.clients[c] {
          assert c !in r.streams[t];
          assert r.streams[t] - {c} == r.streams[t];
        }
      }
      assert lhs.streams == rhs.streams;
    } else {
      forall t | t in r.streams ensures r.streams[t] - {c} == r.streams[t] {
        assert c !in r.streams[t];
      }
      assert rhs.streams == r.streams;
    }
    assert lhs.clients == rhs.clients;
  }

  /** Cleaning up twice is cleaning up once. */
  lemma CleanupIdempotent(r: Reg, c: Conn)
    ensures Cleanup(Cleanup(r, c), c) == Cleanup(r, c)
  {
  }

  /** Detaching one set and then another is detaching their union. */
  lemma DetachTwice(r: Reg, a: set<Conn>, b: set<Conn>)
    ensures Detach(Detach(r, a), b) == Detach(r, a + b)
  {
    var lhs, rhs := Detach(Detach(r, a), b), Detach(r, a + b);
    forall t | t in r.streams
      ensures t in lhs.streams <==> t in rhs.streams
      ensures t in lhs.streams ==> lhs.streams[t] == rhs.streams[t]
    {
      assert r.streams[t] - a - b == r.streams[t] - (a + b);
    }
    assert lhs.streams == rhs.streams;
    assert lhs.clients == rhs.clients;
  }

  /**
   * Subscribing a pair that was absent and unsubscribing it again restores
   * the forward map exactly; the inverse map keeps an empty entry for `c`
   * when `c` had none before.
   */
  lemma SubscribeUnsubscribe(r: Reg, c: Conn, t: Topic)
    requires Valid(r) && !Subscribed(r, c, t)
    ensures var back := Unsubscribe(Subscribe(r, c, t).reg, c, t);
      && back.changed
      && back.reg.streams == r.streams
      && back.reg.clients == if c in r.clients then r.clients else r.clients[c := {}]
  {
  }
}
