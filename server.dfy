/** The log-streaming half of the Express/WebSocket server (index.js):
    the registry `botConnections` from bot name to the set of sessions
    subscribed to it, the handlers of the subscribe message and of a
    connection's close, the per-subscribe log followers, and
    `broadcastBotLogs`. */
module LogServer {
  import opened Options
  import opened Text
  import opened Lines
  import opened Supervisor

  /** Opaque handle of one accepted WebSocket connection. */
  datatype Session = Session(id: nat)

  /** A WebSocket's readyState, as the transport reports it. */
  datatype ReadyState = Connecting | Open | Closing | Closed

  /** An inbound message after JSON.parse. `Unparsable` stands for every
      payload the parse rejects (caught and logged at index.js:76-78);
      a field the object lacks is None. */
  datatype Inbound = Unparsable | Message(kind: Option<string>, botName: Option<string>)

  /** One `Get-Content -Tail 100 -Wait` process, tagged with the bot it tails
      and the session whose subscribe message started it. */
  datatype Follower = Follower(bot: string, session: Session)

  /** One broadcast line: its text and the sessions it was sent to as
      `{type: 'log', content}`. */
  datatype Delivery = Delivery(content: string, recipients: set<Session>)

  type Registry = map<string, set<Session>>

  /** The check at index.js:62: the type is 'subscribe' and botName is truthy. */
  predicate IsSubscribe(msg: Inbound) {
    && msg.Message?
    && msg.kind == Some("subscribe")
    && msg.botName.Some? && msg.botName.value != ""
  }

  /** Every entry of the registry holds at least one session. */
  predicate NoEmptyEntry(m: Registry) {
    forall b :: b in m ==> m[b] != {}
  }

  predicate InNoEntry(m: Registry, ws: Session) {
    forall b :: b in m ==> ws !in m[b]
  }

  function Entry(m: Registry, bot: string): set<Session> {
    if bot in m then m[bot] else {}
  }

  /** index.js:67-70: create the bot's set when absent, then add the session. */
  function Subscribe(m: Registry, bot: string, ws: Session): (r: Registry)
    ensures r.Keys == m.Keys + {bot}
    ensures r[bot] == Entry(m, bot) + {ws}
    ensures forall b :: b in m && b != bot ==> r[b] == m[b]
  {
    m[bot := Entry(m, bot) + {ws}]
  }

  /** index.js:84-91: drop the session from every entry and delete the
      entries left empty. */
  function RemoveSession(m: Registry, ws: Session): (r: Registry)
    ensures forall b :: b in r <==> b in m && m[b] - {ws} != {}
    ensures forall b :: b in r ==> r[b] == m[b] - {ws}
  {
    map b | b in m && m[b] - {ws} != {} :: m[b] - {ws}
  }

  /** The sessions a broadcast for `bot` reaches (index.js:43-51): those in
      the bot's entry whose state is OPEN. */
  function OpenSubscribers(m: Registry, bot: string, ready: Session -> ReadyState): (r: set<Session>)
    ensures r <= Entry(m, bot)
  {
    set s | s in Entry(m, bot) && ready(s) == Open
  }

  /** The deliveries of `lines`, each to the same recipients. */
  function Deliveries(lines: seq<string>, to: set<Session>): (r: seq<Delivery>)
    ensures |r| == |lines|
    ensures forall i :: 0 <= i < |r| ==> r[i] == Delivery(lines[i], to)
  {
    if lines == [] then [] else [Delivery(lines[0], to)] + Deliveries(lines[1..], to)
  }

  // ---- Properties of the registry operations ----

  /** A subscribe adds the session under the bot, and nothing else changes:
      no session is added anywhere else and none is removed. */
  lemma SubscribeMembership(m: Registry, bot: string, ws: Session, b: string, s: Session)
    ensures s in Entry(Subscribe(m, bot, ws), b) <==> s in Entry(m, b) || (b == bot && s == ws)
  {
  }

  /** Sets make a repeated subscribe a no-op (index.js:70). */
  lemma SubscribeIdempotent(m: Registry, bot: string, ws: Session)
    ensures Subscribe(Subscribe(m, bot, ws), bot, ws) == Subscribe(m, bot, ws)
  {
    var once := Subscribe(m, bot, ws);
    assert Entry(once, bot) + {ws} == Entry(once, bot);
  }

  lemma SubscribeSameBotCommutes(m: Registry, bot: string, s1: Session, s2: Session)
    ensures Subscribe(Subscribe(m, bot, s1), bot, s2) == Subscribe(Subscribe(m, bot, s2), bot, s1)
  {
    var e := Entry(m, bot);
    assert e + {s1} + {s2} == e + {s2} + {s1};
    assert Subscribe(Subscribe(m, bot, s1), bot, s2) == m[bot := e + {s1} + {s2}];
    assert Subscribe(Subscribe(m, bot, s2), bot, s1) == m[bot := e + {s2} + {s1}];
  }

  lemma SubscribeOtherBotsCommute(m: Registry, b1: string, s1: Session, b2: string, s2: Session)
    requires b1 != b2
    ensures Subscribe(Subscribe(m, b1, s1), b2, s2) == Subscribe(Subscribe(m, b2, s2), b1, s1)
  {
    var e1, e2 := Entry(m, b1) + {s1}, Entry(m, b2) + {s2};
    assert Subscribe(Subscribe(m, b1, s1), b2, s2) == m[b1 := e1][b2 := e2];
    assert Subscribe(Subscribe(m, b2, s2), b1, s1) == m[b2 := e2][b1 := e1];
  }

  /** The order of two subscribes does not matter. */
  lemma SubscribeCommutes(m: Registry, b1: string, s1: Session, b2: string, s2: Session)
    ensures Subscribe(Subscribe(m, b1, s1), b2, s2) == Subscribe(Subscribe(m, b2, s2), b1, s1)
  {
    if b1 == b2 {
      SubscribeSameBotCommutes(m, b1, s1, s2);
    } else {
      SubscribeOtherBotsCommute(m, b1, s1, b2, s2);
    }
  }

  lemma SubscribeKeepsNoEmpty(m: Registry, bot: string, ws: Session)
    requires NoEmptyEntry(m)
    ensures NoEmptyEntry(Subscribe(m, bot, ws))
  {
  }

  /** After a close the session is in no entry, no entry is empty, and
      every other session keeps exactly the entries it had. */
  lemma RemoveSessionEffect(m: Registry, ws: Session)
    ensures InNoEntry(RemoveSession(m, ws), ws)
    ensures NoEmptyEntry(RemoveSession(m, ws))
    ensures forall b, s :: s != ws ==> (s in Entry(RemoveSession(m, ws), b) <==> s in Entry(m, b))
  {
  }

  /** Closing a session that is in no entry changes nothing, provided no
      entry is empty. */
  lemma RemoveAbsentSession(m: Registry, ws: Session)
    requires NoEmptyEntry(m) && InNoEntry(m, ws)
    ensures RemoveSession(m, ws) == m
  {
    var r := RemoveSession(m, ws);
    assert r.Keys == m.Keys;
    forall b | b in m ensures r[b] == m[b] {
      assert m[b] - {ws} == m[b];
    }
  }

  /** Closing undoes a subscribe: a session that was in no entry,
      subscribed to any bot and then closed, leaves the registry as it was. */
  lemma CloseUndoesSubscribe(m: Registry, bot: string, ws: Session)
    requires NoEmptyEntry(m) && InNoEntry(m, ws)
    ensures RemoveSession(Subscribe(m, bot, ws), ws) == m
  {
    var r := RemoveSession(Subscribe(m, bot, ws), ws);
    assert r.Keys == m.Keys;
    forall b | b in m ensures r[b] == m[b] {
      assert m[b] - {ws} == m[b];
    }
  }

  /** A broadcast for a bot without an entry reaches nobody, and a broadcast
      reaches only subscribers of that bot. */
  lemma BroadcastTargets(m: Registry, bot: string, ready: Session -> ReadyState, s: Session)
    ensures bot !in m ==> OpenSubscribers(m, bot, ready) == {}
    ensures s in OpenSubscribers(m, bot, ready) <==> bot in m && s in m[bot] && ready(s) == Open
  {
  }

  /** A closed session receives no later broadcast, for any bot. */
  lemma NoBroadcastAfterClose(m: Registry, ws: Session, bot: string, ready: Session -> ReadyState)
    ensures ws !in OpenSubscribers(RemoveSession(m, ws), bot, ready)
  {
  }

  /** The registry after the close handler's loop has visited the keys in
      `done`: those entries have lost `ws` (and are gone if that left them
      empty), the others are untouched. */
  ghost function PartlyRemoved(m: Registry, ws: Session, done: set<string>): Registry {
    map b | b in m && (b !in done || m[b] - {ws} != {}) :: if b in done then m[b] - {ws} else m[b]
  }

  class LogServer {
    /** botConnections (index.js:40). */
    var connections: Registry
    /** Supervisor list calls issued by startLogMonitoring and not yet answered. */
    var lookups: multiset<Follower>
    /** Follower processes alive. */
    var followers: multiset<Follower>
    /** Sessions whose 'close' event has fired. */
    var closed: set<Session>

    ghost predicate Valid()
      reads this
    {
      && NoEmptyEntry(connections)
      && forall s :: s in closed ==> InNoEntry(connections, s)
    }

    /** How many live followers tagged `f` belong to a session that has
        already closed: their kill listener can never fire again. */
    function Orphaned(f: Follower): nat
      reads this
    {
      if f.session in closed then followers[f] else 0
    }

    constructor ()
      ensures Valid()
      ensures connections == map[] && lookups == multiset{} && followers == multiset{} && closed == {}
    {
      connections := map[];
      lookups := multiset{};
      followers := multiset{};
      closed := {};
    }

    /** The 'message' handler (index.js:57-79). A subscribe registers the
        session and starts startLogMonitoring, whose first step is a list
        call to the supervisor; anything else changes nothing. */
    method OnMessage(ws: Session, msg: Inbound)
      requires Valid() && ws !in closed
      modifies this
      ensures Valid()
      ensures IsSubscribe(msg) ==>
        && connections == Subscribe(old(connections), msg.botName.value, ws)
        && lookups == old(lookups) + multiset{Follower(msg.botName.value, ws)}
      ensures !IsSubscribe(msg) ==> connections == old(connections) && lookups == old(lookups)
      ensures followers == old(followers) && closed == old(closed)
    {
      if IsSubscribe(msg) {
        var bot := msg.botName.value;
        if bot !in connections {
          connections := connections[bot := {}];
        }
        connections := connections[bot := connections[bot] + {ws}];
        lookups := lookups + multiset{Follower(bot, ws)};
      }
    }

    /** The 'close' event of a session (index.js:81-92 and 135-137): the
        registry loop removes it from every entry and deletes the entries
        left empty; the kill listener of every follower it started fires. */
    method OnClose(ws: Session)
      requires Valid() && ws !in closed
      modifies this
      ensures Valid()
      ensures connections == RemoveSession(old(connections), ws)
      ensures forall f :: followers[f] == if f.session == ws then 0 else old(followers)[f]
      ensures closed == old(closed) + {ws}
      ensures lookups == old(lookups)
      ensures forall f :: Orphaned(f) == old(Orphaned(f))
    {
      ghost var m0 := connections;
      var keys := connections.Keys;
      while keys != {}
        invariant keys <= m0.Keys
        invariant connections == PartlyRemoved(m0, ws, m0.Keys - keys)
        invariant followers == old(followers) && closed == old(closed) && lookups == old(lookups)
        decreases keys
      {
        var b :| b in keys;
        var rest := connections[b] - {ws};
        if rest == {} {
          connections := connections - {b};
        } else {
          connections := connections[b := rest];
        }
        keys := keys - {b};
        assert connections == PartlyRemoved(m0, ws, m0.Keys - keys);
      }
      assert connections == RemoveSession(m0, ws);
      var victims := set f | f in followers && f.session == ws;
      while victims != {}
        invariant connections == RemoveSession(m0, ws)
        invariant closed == old(closed) && lookups == old(lookups)
        invariant forall f :: f in victims ==> f.session == ws && followers[f] == old(followers)[f]
        invariant forall f :: f !in victims ==> followers[f] == if f.session == ws then 0 else old(followers)[f]
        decreases victims
      {
        var f :| f in victims;
        followers := followers[f := 0];
        victims := victims - {f};
      }
      closed := closed + {ws};
      RemoveSessionEffect(m0, ws);
    }

    /** The list callback of startLogMonitoring (index.js:101-138): a
        follower starts, tagged with the session, only when the list call
        succeeded and holds the bot. The session may have closed while the
        call was in flight; the follower then starts all the same and its
        kill listener is attached to a connection that will not close again. */
    method OnListResult(lookup: Follower, result: ListResult)
      requires Valid() && lookup in lookups
      modifies this
      ensures Valid()
      ensures lookups == old(lookups) - multiset{lookup}
      ensures followers == if Found(result, lookup.bot) then old(followers) + multiset{lookup} else old(followers)
      ensures forall f :: Orphaned(f) == old(Orphaned(f)) +
                (if f == lookup && Found(result, lookup.bot) && lookup.session in closed then 1 else 0)
      ensures connections == old(connections) && closed == old(closed)
    {
      lookups := lookups - multiset{lookup};
      if result.Listed? && lookup.bot in result.names {
        followers := followers + multiset{lookup};
      }
    }

    /** broadcastBotLogs (index.js:43-51): send `{type: 'log', content}` to
        every session of the bot's entry whose state is OPEN. */
    method Broadcast(bot: string, ready: Session -> ReadyState) returns (recipients: set<Session>)
      ensures recipients == OpenSubscribers(connections, bot, ready)
    {
      var pending := if bot in connections then connections[bot] else {};
      recipients := {};
      while pending != {}
        invariant pending <= Entry(connections, bot)
        invariant recipients == set s | s in Entry(connections, bot) - pending && ready(s) == Open
        decreases pending
      {
        var ws :| ws in pending;
        if ready(ws) == Open {
          recipients := recipients + {ws};
        }
        pending := pending - {ws};
      }
    }

    /** A stdout chunk of follower `f` (index.js:122-129): each line of
        the chunk that is not blank is broadcast, trimmed, in order, to the
        open subscribers of the follower's bot -- whichever session started
        the follower. */
    method OnChunk(f: Follower, chunk: string, ready: Session -> ReadyState) returns (sent: seq<Delivery>)
      requires f in followers
      ensures sent == Deliveries(ShapeLines(chunk), OpenSubscribers(connections, f.bot, ready))
    {
      var lines := Split(chunk, NewLine);
      ghost var to := OpenSubscribers(connections, f.bot, ready);
      sent := [];
      var i := 0;
      while i < |lines|
        invariant 0 <= i <= |lines|
        invariant sent == Deliveries(KeepNonBlank(lines[..i]), to)
      {
        DeliveriesStep(lines, i, to);
        if !IsBlank(lines[i]) {
          var recipients := Broadcast(f.bot, ready);
          sent := sent + [Delivery(Trim(lines[i]), recipients)];
        }
        i := i + 1;
      }
      assert lines[..i] == lines;
    }
  }

  lemma DeliveriesAppend(a: seq<string>, b: seq<string>, to: set<Session>)
    ensures Deliveries(a + b, to) == Deliveries(a, to) + Deliveries(b, to)
  {
    var x, y := Deliveries(a + b, to), Deliveries(a, to) + Deliveries(b, to);
    assert |x| == |y|;
    forall k | 0 <= k < |x| ensures x[k] == y[k] {
      if k < |a| { assert (a + b)[k] == a[k]; } else { assert (a + b)[k] == b[k - |a|]; }
    }
  }

  /** One more line of the chunk adds one delivery, or none when it is blank. */
  lemma DeliveriesStep(lines: seq<string>, i: nat, to: set<Session>)
    requires i < |lines|
    ensures Deliveries(KeepNonBlank(lines[..i + 1]), to)
         == Deliveries(KeepNonBlank(lines[..i]), to)
            + (if IsBlank(lines[i]) then [] else [Delivery(Trim(lines[i]), to)])
  {
    var l := lines[i];
    var one := KeepNonBlank([l]);
    assert lines[..i + 1] == lines[..i] + [l];
    KeepNonBlankAppend(lines[..i], [l]);
    KeepNonBlankOne(l);
    DeliveriesAppend(KeepNonBlank(lines[..i]), one, to);
    assert Deliveries(one, to) == if IsBlank(l) then [] else [Delivery(Trim(l), to)];
  }

}
