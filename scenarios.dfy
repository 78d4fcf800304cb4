/** Runs of the server and of the dashboard through their event handlers,
    each showing a behaviour that follows from the handlers as written. */
module Scenarios {
  import opened Options
  import opened Text
  import opened Supervisor
  import opened Lines
  import opened LogServer
  import Dashboard

  /** Every session reports OPEN. */
  function AllOpen(s: Session): ReadyState {
    Open
  }

  /** A server to which sessions 1 and 2 have both sent a subscribe for
      "bot", with both list calls still in flight. */
  method TwoSubscribes() returns (server: LogServer)
    ensures fresh(server) && server.Valid()
    ensures server.connections == map["bot" := {Session(1), Session(2)}]
    ensures server.lookups == multiset{Follower("bot", Session(1)), Follower("bot", Session(2))}
    ensures server.followers == multiset{} && server.closed == {}
  {
    var s1, s2 := Session(1), Session(2);
    var sub := Message(Some("subscribe"), Some("bot"));
    assert IsSubscribe(sub);
    server := new LogServer();
    server.OnMessage(s1, sub);
    assert Entry(server.connections, "bot") == {s1};
    assert server.connections.Keys == {"bot"};
    server.OnMessage(s2, sub);
    assert Entry(server.connections, "bot") == {s1, s2};
    assert server.connections.Keys == {"bot"};
  }

  /** The same server once both list calls have answered with the bot. */
  method TwoSubscribers() returns (server: LogServer)
    ensures fresh(server) && server.Valid()
    ensures server.connections == map["bot" := {Session(1), Session(2)}]
    ensures server.followers == multiset{Follower("bot", Session(1)), Follower("bot", Session(2))}
    ensures server.closed == {}
  {
    var f1, f2 := Follower("bot", Session(1)), Follower("bot", Session(2));
    var found := Listed(["bot"]);
    assert Found(found, "bot") by { assert found.names[0] == "bot"; }
    server := TwoSubscribes();
    server.OnListResult(f1, found);
    assert server.lookups == multiset{f2};
    server.OnListResult(f2, found);
  }

  /** With every session open, a broadcast reaches the bot's whole entry. */
  lemma AllOpenReachesEntry(m: Registry, bot: string)
    ensures OpenSubscribers(m, bot, AllOpen) == Entry(m, bot)
  {
    forall s ensures s in OpenSubscribers(m, bot, AllOpen) <==> s in Entry(m, bot) {
      BroadcastTargets(m, bot, AllOpen, s);
    }
  }

  /** Follower `f` prints one shaped line while every session is open: it
      is delivered once, to the whole entry of the follower's bot. */
  method SendLine(server: LogServer, f: Follower, line: string) returns (sent: seq<Delivery>)
    requires f in server.followers
    requires line != "" && Trim(line) == line && '\n' !in line
    ensures sent == [Delivery(line, Entry(server.connections, f.bot))]
  {
    ShapeOneLine(line);
    AllOpenReachesEntry(server.connections, f.bot);
    sent := server.OnChunk(f, line, AllOpen);
  }

  /** Two dashboards subscribe to the same bot. Each subscribe starts its
      own follower and every follower broadcasts to the whole entry, so a
      line written once to the bot's log reaches each dashboard twice.
      Once the first dashboard disconnects its follower is killed, and the
      line reaches the second dashboard once. */
  method TwoViewersOneBot(line: string) returns (fromFirst: seq<Delivery>, fromSecond: seq<Delivery>, afterClose: seq<Delivery>)
    requires line != "" && Trim(line) == line && '\n' !in line
    ensures fromFirst == fromSecond == [Delivery(line, {Session(1), Session(2)})]
    ensures afterClose == [Delivery(line, {Session(2)})]
  {
    var s1, s2 := Session(1), Session(2);
    var f1, f2 := Follower("bot", s1), Follower("bot", s2);
    var server := TwoSubscribers();
    assert Entry(server.connections, "bot") == {s1, s2};
    fromFirst := SendLine(server, f1, line);
    fromSecond := SendLine(server, f2, line);

    server.OnClose(s1);
    assert server.followers[f2] == 1;
    assert Entry(server.connections, "bot") == {s2} by {
      assert {s1, s2} - {s1} == {s2};
    }
    afterClose := SendLine(server, f2, line);
  }

  /** A dashboard subscribes `count` times (one or two) to "bot" on
      session 7 and disconnects before any list call answers. */
  method SubscribedThenClosed(count: nat) returns (server: LogServer)
    requires 1 <= count <= 2
    ensures fresh(server) && server.Valid()
    ensures server.connections == map[] && server.closed == {Session(7)}
    ensures server.followers == multiset{}
    ensures server.lookups == multiset{}[Follower("bot", Session(7)) := count]
  {
    var s := Session(7);
    var sub := Message(Some("subscribe"), Some("bot"));
    assert IsSubscribe(sub);
    server := new LogServer();
    server.OnMessage(s, sub);
    if count == 2 {
      server.OnMessage(s, sub);
    }
    assert Entry(server.connections, "bot") == {s};
    assert server.connections.Keys == {"bot"};
    server.OnClose(s);
    assert server.connections.Keys == {} by {
      assert {s} - {s} == {};
    }
    assert server.followers == multiset{};
  }

  /** A dashboard subscribes and disconnects before the supervisor's list
      call answers. The answer then starts the follower all the same, and
      it belongs to a connection that has already closed: nothing will kill
      it. */
  method LateListResultLeaksFollower() returns (leaked: nat, subscribed: Registry)
    ensures leaked == 1
    ensures subscribed == map[]
  {
    var f := Follower("bot", Session(7));
    var server := SubscribedThenClosed(1);
    var found := Listed(["bot"]);
    assert Found(found, "bot") by { assert found.names[0] == "bot"; }
    server.OnListResult(f, found);
    leaked := server.Orphaned(f);
    subscribed := server.connections;
  }

  /** The same with two subscribe messages before the disconnect: each
      late answer starts its own follower, and both are leaked. */
  method RepeatedSubscribeLeaksEach() returns (leaked: nat)
    ensures leaked == 2
  {
    var f := Follower("bot", Session(7));
    var server := SubscribedThenClosed(2);
    var found := Listed(["bot"]);
    assert Found(found, "bot") by { assert found.names[0] == "bot"; }
    server.OnListResult(f, found);
    assert server.Orphaned(f) == 1;
    server.OnListResult(f, found);
    leaked := server.Orphaned(f);
  }

  /** The console open on `bot`, whose first socket has opened. */
  method ConnectedTo(bot: string) returns (c: Dashboard.Console)
    requires bot != ""
    ensures fresh(c) && c.Valid()
    ensures c.selectedBot == Some(bot) && c.isConsoleOpen && c.wsRef == Some(0)
    ensures c.sockets == [Dashboard.Socket(bot, Some(bot), Dashboard.Open)] && c.timers == multiset{}
    ensures c.subscribes == [(0, bot)]
  {
    c := new Dashboard.Console();
    c.ToggleConsole(bot);
    assert c.sockets == [Dashboard.Socket(bot, Some(bot), Dashboard.Connecting)];
    c.OnOpen(0);
  }

  /** The console connected to A, and the user selects B: A's socket is
      closed, B's is connecting, and A's onclose has scheduled a reconnect
      to A. */
  method SwitchedFromA() returns (c: Dashboard.Console)
    ensures fresh(c) && c.Valid()
    ensures c.selectedBot == Some("B") && c.isConsoleOpen && c.wsRef == Some(1)
    ensures c.sockets == [Dashboard.Socket("A", Some("A"), Dashboard.Closed), Dashboard.Socket("B", Some("B"), Dashboard.Connecting)]
    ensures c.timers == multiset{Dashboard.Timer("A", Some("A"))}
    ensures c.subscribes == [(0, "A")]
  {
    c := ConnectedTo("A");
    c.ToggleConsole("B");
    assert c.sockets == [Dashboard.Socket("A", Some("A"), Dashboard.Closing), Dashboard.Socket("B", Some("B"), Dashboard.Connecting)];
    c.OnClose(0);
  }

  /** The console is open on bot A, connected, and the user switches to B.
      A's socket closes and, as its onclose sees the console still open
      and compares A with the `selectedBot` of the render that made it, it
      schedules a reconnect to A. When the timer fires, B's socket is still
      connecting, so it is not closed: the console is left with two live
      sockets, the newer one streaming A while B is selected. */
  method SwitchingBotsReconnectsPrevious() returns (selected: Option<string>, newest: Dashboard.Socket, live: nat)
    ensures selected == Some("B")
    ensures newest == Dashboard.Socket("A", Some("A"), Dashboard.Connecting)
    ensures live == 2
  {
    var c := SwitchedFromA();
    c.OnTimer(Dashboard.Timer("A", Some("A")));
    var ss := c.sockets;
    assert ss == [Dashboard.Socket("A", Some("A"), Dashboard.Closed), Dashboard.Socket("B", Some("B"), Dashboard.Connecting),
                  Dashboard.Socket("A", Some("A"), Dashboard.Connecting)];
    selected := c.selectedBot;
    newest := ss[2];
    live := Dashboard.LiveCount(ss);
    assert Dashboard.LiveCount(ss[2..]) == 1;
    assert Dashboard.LiveCount(ss[1..]) == 2 by { assert ss[1..][1..] == ss[2..]; }
  }

  /** Continuing the switch when B's socket opens before the reconnect to
      A fires: B subscribes, then the timer's connectWebSocket finds B's
      socket OPEN in wsRef, closes it and connects to A. */
  method TimerClosesB() returns (c: Dashboard.Console)
    ensures fresh(c) && c.Valid()
    ensures c.selectedBot == Some("B") && c.isConsoleOpen && c.wsRef == Some(2)
    ensures c.sockets == [Dashboard.Socket("A", Some("A"), Dashboard.Closed), Dashboard.Socket("B", Some("B"), Dashboard.Closing),
                          Dashboard.Socket("A", Some("A"), Dashboard.Connecting)]
    ensures c.timers == multiset{}
    ensures c.subscribes == [(0, "A"), (1, "B")]
  {
    c := SwitchedFromA();
    c.OnOpen(1);
    assert c.sockets[1].state == Dashboard.Open;
    c.OnTimer(Dashboard.Timer("A", Some("A")));
  }

  /** B's socket finishes closing; its onclose sees the console open and
      schedules a reconnect to B. Then A's new socket opens and subscribes
      to A again. */
  method BReconnectScheduled() returns (c: Dashboard.Console)
    ensures fresh(c) && c.Valid()
    ensures c.selectedBot == Some("B") && c.isConsoleOpen && c.wsRef == Some(2)
    ensures c.sockets == [Dashboard.Socket("A", Some("A"), Dashboard.Closed), Dashboard.Socket("B", Some("B"), Dashboard.Closed),
                          Dashboard.Socket("A", Some("A"), Dashboard.Open)]
    ensures c.timers == multiset{Dashboard.Timer("B", Some("B"))}
    ensures c.subscribes == [(0, "A"), (1, "B"), (2, "A")]
  {
    c := TimerClosesB();
    c.OnClose(1);
    c.OnOpen(2);
  }

  /** The usual timing of a switch from A to B: B's socket opens before
      the 5000 ms reconnect to A fires. The reconnect closes B's socket,
      whose onclose schedules a reconnect to B, which closes A's new socket,
      whose onclose schedules a reconnect to A again. One round ends as the
      switch did -- B selected, a socket for B connecting, a reconnect to A
      pending -- so the console keeps alternating between the two bots,
      subscribing again (and being sent the log tail again) each time. */
  method SwitchingBotsAlternates() returns (selected: Option<string>, newest: Dashboard.Socket,
                                            pending: multiset<Dashboard.Timer>, subscribed: seq<(nat, string)>)
    ensures selected == Some("B")
    ensures newest == Dashboard.Socket("B", Some("B"), Dashboard.Connecting)
    ensures pending == multiset{Dashboard.Timer("A", Some("A"))}
    ensures subscribed == [(0, "A"), (1, "B"), (2, "A")]
  {
    var c := BReconnectScheduled();
    c.OnTimer(Dashboard.Timer("B", Some("B")));
    assert c.sockets[2].state == Dashboard.Closing && |c.sockets| == 4;
    c.OnClose(2);
    selected := c.selectedBot;
    newest := c.sockets[3];
    pending := c.timers;
    subscribed := c.subscribes;
  }
}
