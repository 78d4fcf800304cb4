/** The bot dashboard page (pages/index.tsx): the status badge, the action
    buttons and their in-progress flags, and the log console -- the
    selection state, the WebSocket it streams from, the reconnect timer and
    the per-bot log buffers. */
module Dashboard {
  import opened Options
  import opened Lines
  import opened LogBuffer

  // ---- Status badge and action buttons ----

  datatype Badge = OnlineBadge | StoppedBadge | ErrorBadge

  /** getStatusInfo (pages/index.tsx:32-53): 'online' and 'stopped' have
      their own badge; every other status shows the error badge. */
  function StatusInfo(status: string): (r: Badge)
    ensures r == OnlineBadge <==> status == "online"
    ensures r == StoppedBadge <==> status == "stopped"
    ensures r == ErrorBadge <==> status != "online" && status != "stopped"
  {
    if status == "online" then OnlineBadge
    else if status == "stopped" then StoppedBadge
    else ErrorBadge
  }

  function BadgeText(b: Badge): string {
    match b
    case OnlineBadge => "Online"
    case StoppedBadge => "Parado"
    case ErrorBadge => "Erro"
  }

  datatype ActionType = Start | Stop | Restart

  function ActionName(a: ActionType): string {
    match a
    case Start => "start"
    case Stop => "stop"
    case Restart => "restart"
  }

  /** getActionKey (pages/index.tsx:98): the bot's name, a dash and the
      action's name. */
  function ActionKey(bot: string, a: ActionType): (r: string)
    ensures |r| == |bot| + 1 + |ActionName(a)|
    ensures r[..|bot|] == bot && r[|bot|] == '-' && r[|bot| + 1..] == ActionName(a)
  {
    bot + ("-" + ActionName(a))
  }

  lemma CommonSuffix(x: string, k: string, y: string, l: string)
    requires x + k == y + l && |k| <= |l|
    ensures k == l[|l| - |k|..]
  {
    var s := x + k;
    assert s[|s| - |k|..] == k;
    assert s[|s| - |l|..] == l;
    assert l[|l| - |k|..] == s[|s| - |k|..];
  }

  lemma CancelSuffix(x: string, y: string, k: string)
    requires x + k == y + k
    ensures x == y
  {
    assert x == (x + k)[..|x|];
    assert y == (y + k)[..|y|];
  }

  /** Action names have no '-' and have three different lengths. */
  lemma ActionNameFacts(a: ActionType)
    ensures '-' !in ActionName(a)
    ensures |ActionName(a)| == match a case Start => 5 case Stop => 4 case Restart => 7
  {
    match a
    case Start => assert ActionName(a) == ['s', 't', 'a', 'r', 't'];
    case Stop => assert ActionName(a) == ['s', 't', 'o', 'p'];
    case Restart => assert ActionName(a) == ['r', 'e', 's', 't', 'a', 'r', 't'];
  }

  /** No action's "-name" is a suffix of another's: a shorter one would put
      its '-' inside the longer one's name. */
  lemma SuffixDistinct(a1: ActionType, a2: ActionType)
    requires var k1, k2 := "-" + ActionName(a1), "-" + ActionName(a2);
      |k1| <= |k2| && k1 == k2[|k2| - |k1|..]
    ensures a1 == a2
  {
    var n1, n2 := ActionName(a1), ActionName(a2);
    var k1, k2 := "-" + n1, "-" + n2;
    ActionNameFacts(a1);
    ActionNameFacts(a2);
    var j := |k2| - |k1|;
    assert k2[j] == k1[0] == '-';
  }

  /** No two (bot, action) pairs share a key: no action's "-name" is a
      suffix of another's, so the key determines the action and then the
      bot. The in-progress flag of one button is never another's. */
  lemma ActionKeyInjective(b1: string, a1: ActionType, b2: string, a2: ActionType)
    requires ActionKey(b1, a1) == ActionKey(b2, a2)
    ensures b1 == b2 && a1 == a2
  {
    var k1, k2 := "-" + ActionName(a1), "-" + ActionName(a2);
    if |k1| <= |k2| {
      CommonSuffix(b1, k1, b2, k2);
      SuffixDistinct(a1, a2);
    } else {
      CommonSuffix(b2, k2, b1, k1);
      SuffixDistinct(a2, a1);
    }
    CancelSuffix(b1, b2, k1);
  }

  /** `actionInProgress[key]` is truthy. */
  predicate InProgress(m: map<string, bool>, key: string) {
    key in m && m[key]
  }

  /** The status that disables an action's button whatever its progress:
      Start while online, Restart and Stop while stopped. */
  predicate BlockedByStatus(status: string, a: ActionType) {
    if a == Start then status == "online" else status == "stopped"
  }

  /** The `disabled` expression of the three buttons (pages/index.tsx:479,
      497, 517). */
  predicate ButtonDisabled(status: string, m: map<string, bool>, bot: string, a: ActionType) {
    BlockedByStatus(status, a) || InProgress(m, ActionKey(bot, a))
  }

  /** The two updaters of handleAction (pages/index.tsx:130, 159). */
  function SetProgress(m: map<string, bool>, bot: string, a: ActionType, busy: bool): (r: map<string, bool>)
    ensures r.Keys == m.Keys + {ActionKey(bot, a)}
    ensures r[ActionKey(bot, a)] == busy
    ensures forall k :: k in m && k != ActionKey(bot, a) ==> r[k] == m[k]
  {
    m[ActionKey(bot, a) := busy]
  }

  /** While an action runs its button is disabled; once it finishes the
      button is disabled exactly when the status blocks it; and no other
      button of any bot changes. */
  lemma ProgressAffectsOnlyItsButton(status: string, m: map<string, bool>, bot: string, a: ActionType,
                                     busy: bool, bot': string, a': ActionType)
    ensures ButtonDisabled(status, SetProgress(m, bot, a, busy), bot, a) <==> busy || BlockedByStatus(status, a)
    ensures (bot', a') != (bot, a) ==>
              ButtonDisabled(status, SetProgress(m, bot, a, busy), bot', a') == ButtonDisabled(status, m, bot', a')
  {
    if (bot', a') != (bot, a) && ActionKey(bot', a') == ActionKey(bot, a) {
      ActionKeyInjective(bot', a', bot, a);
    }
  }

  // ---- The log console ----

  /** A browser WebSocket's readyState. */
  datatype SocketState = Connecting | Open | Closing | Closed

  /** A WebSocket made by connectWebSocket: the bot it was made for and the
      `selectedBot` its callbacks read -- the value in the render whose
      connectWebSocket made it, not the current one. */
  datatype Socket = Socket(bot: string, captured: Option<string>, state: SocketState)

  /** A reconnect scheduled by a socket's onclose, due in 5000 ms. */
  datatype Timer = Timer(bot: string, captured: Option<string>)

  /** A server message after JSON.parse; `Garbled` is one the parse
      rejects (caught at pages/index.tsx:220-222). */
  datatype ServerMessage = Garbled | Parsed(kind: Option<string>, content: string)

  /** A message of type 'log', the only kind the console acts on. */
  predicate IsLog(msg: ServerMessage) {
    msg.Parsed? && msg.kind == Some("log")
  }

  predicate Live(s: Socket) {
    s.state == Connecting || s.state == Open
  }

  /** ws.close(): a connecting or open socket starts closing; a closing or
      closed one is left as it is. */
  function AfterClose(s: Socket): (r: Socket)
    ensures !Live(r) && r.bot == s.bot && r.captured == s.captured
    ensures !Live(s) ==> r == s
  {
    if Live(s) then s.(state := Closing) else s
  }

  /** The sockets after `ws.close()` on socket `i`. */
  function CloseAt(ss: seq<Socket>, i: nat): (r: seq<Socket>)
    requires i < |ss|
    ensures |r| == |ss| && !Live(r[i])
    ensures forall j :: 0 <= j < |ss| && j != i ==> r[j] == ss[j]
  {
    ss[i := AfterClose(ss[i])]
  }

  /** The guard at pages/index.tsx:172-175: the socket in wsRef is closed
      only when it is OPEN. */
  function ClosePreviousIfOpen(ss: seq<Socket>, wsRef: Option<nat>): (r: seq<Socket>)
    requires wsRef.Some? ==> wsRef.value < |ss|
    ensures |r| == |ss|
    ensures wsRef.Some? && ss[wsRef.value].state == Open ==> r == CloseAt(ss, wsRef.value)
    ensures wsRef.None? || ss[wsRef.value].state != Open ==> r == ss
  {
    if wsRef.Some? && ss[wsRef.value].state == Open then CloseAt(ss, wsRef.value) else ss
  }

  lemma CloseAtSeesOwnBot(ss: seq<Socket>, i: nat)
    requires i < |ss| && SocketsSeeOwnBot(ss)
    ensures SocketsSeeOwnBot(CloseAt(ss, i))
  {
  }

  /** The sockets after `wsRef.current.close()`, when wsRef holds one. */
  function CloseRef(ss: seq<Socket>, wsRef: Option<nat>): (r: seq<Socket>)
    requires wsRef.Some? ==> wsRef.value < |ss|
    ensures |r| == |ss|
  {
    if wsRef.Some? then CloseAt(ss, wsRef.value) else ss
  }

  /** Every socket's callbacks see a `selectedBot` equal to its own bot. */
  predicate SocketsSeeOwnBot(ss: seq<Socket>) {
    forall i :: 0 <= i < |ss| ==> ss[i].captured == Some(ss[i].bot)
  }

  predicate TimersSeeOwnBot(ts: multiset<Timer>) {
    forall t :: t in ts ==> t.captured == Some(t.bot)
  }

  /** The number of connecting or open sockets. */
  function LiveCount(ss: seq<Socket>): nat {
    if ss == [] then 0 else (if Live(ss[0]) then 1 else 0) + LiveCount(ss[1..])
  }

  class Console {
    // The page's state and refs.
    var selectedBot: Option<string>
    var isConsoleOpen: bool
    /** isConsoleOpenRef.current */
    var openRef: bool
    /** wsRef.current, as an index into `sockets` */
    var wsRef: Option<nat>
    var logs: Logs
    var actionInProgress: map<string, bool>

    // What the page has set going in the browser.
    /** Every WebSocket the page has created, in creation order. */
    var sockets: seq<Socket>
    /** Reconnect timers not yet fired. */
    var timers: multiset<Timer>
    /** Subscribe messages sent: the socket and the bot named. */
    var subscribes: seq<(nat, string)>
    /** fetchInitialLogs requests not yet answered, by bot. */
    var fetches: multiset<string>

    /** What holds between events. The open flag and its ref agree, since
        the ref is synchronised by an effect of the same render; every
        socket and timer sees a `selectedBot` equal to its own bot, since
        connectWebSocket only ever runs from the render that selected it. */
    ghost predicate Valid()
      reads this
    {
      && openRef == isConsoleOpen
      && (isConsoleOpen <==> selectedBot.Some?)
      && (wsRef.Some? ==> wsRef.value < |sockets| && isConsoleOpen)
      && SocketsSeeOwnBot(sockets)
      && TimersSeeOwnBot(timers)
    }

    constructor ()
      ensures Valid()
      ensures selectedBot == None && !isConsoleOpen && wsRef == None && logs == map[] && actionInProgress == map[]
      ensures sockets == [] && timers == multiset{} && subscribes == [] && fetches == multiset{}
    {
      selectedBot, isConsoleOpen, openRef, wsRef := None, false, false, None;
      logs, actionInProgress := map[], map[];
      sockets, timers, subscribes, fetches := [], multiset{}, [], multiset{};
    }

    /** connectWebSocket (pages/index.tsx:164-257) as the closure of the
        render that selected `bot`: nothing while the console is closed;
        otherwise close the socket in wsRef if it is OPEN (a connecting one
        is left alone), and make a new socket for the bot the new wsRef. */
    method ConnectWebSocket(bot: string, captured: Option<string>)
      requires Valid() && captured == Some(bot)
      modifies this
      ensures Valid()
      ensures !openRef ==> sockets == old(sockets) && wsRef == old(wsRef)
      ensures openRef ==>
        && sockets == ClosePreviousIfOpen(old(sockets), old(wsRef)) + [Socket(bot, captured, Connecting)]
        && wsRef == Some(|old(sockets)|)
      ensures selectedBot == old(selectedBot) && isConsoleOpen == old(isConsoleOpen) && openRef == old(openRef)
      ensures logs == old(logs) && actionInProgress == old(actionInProgress)
      ensures timers == old(timers) && subscribes == old(subscribes) && fetches == old(fetches)
    {
      if !openRef {
        return;
      }
      if wsRef.Some? && sockets[wsRef.value].state == Open {
        sockets := CloseAt(sockets, wsRef.value);
      }
      sockets := sockets + [Socket(bot, captured, Connecting)];
      wsRef := Some(|sockets| - 1);
    }

    /** The effects that run after a render whose `selectedBot` or
        `isConsoleOpen` changed (pages/index.tsx:94-96 and 290-308): sync the
        ref, close and drop the socket in wsRef, and, when a bot is selected
        with the console open, fetch its snapshot if it has no buffer and
        connect. */
    method RunEffects(prevSelected: Option<string>, prevOpen: bool)
      requires (isConsoleOpen <==> selectedBot.Some?) && (wsRef.Some? ==> wsRef.value < |sockets|)
      requires openRef == prevOpen && (wsRef.Some? ==> prevOpen)
      requires SocketsSeeOwnBot(sockets) && TimersSeeOwnBot(timers)
      modifies this
      ensures Valid()
      ensures selectedBot == old(selectedBot) && isConsoleOpen == old(isConsoleOpen)
      ensures logs == old(logs) && actionInProgress == old(actionInProgress)
      ensures timers == old(timers) && subscribes == old(subscribes)
      ensures (selectedBot, isConsoleOpen) == (prevSelected, prevOpen) ==>
                sockets == old(sockets) && wsRef == old(wsRef) && fetches == old(fetches)
      ensures (selectedBot, isConsoleOpen) != (prevSelected, prevOpen) && !(isConsoleOpen && selectedBot.value != "") ==>
                sockets == CloseRef(old(sockets), old(wsRef)) && wsRef == None && fetches == old(fetches)
      ensures (selectedBot, isConsoleOpen) != (prevSelected, prevOpen) && isConsoleOpen && selectedBot.value != "" ==>
                && sockets == CloseRef(old(sockets), old(wsRef)) + [Socket(selectedBot.value, selectedBot, Connecting)]
                && wsRef == Some(|old(sockets)|)
                && fetches == if selectedBot.value in logs then old(fetches) else old(fetches) + multiset{selectedBot.value}
    {
      if isConsoleOpen != prevOpen {
        openRef := isConsoleOpen;
      }
      if (selectedBot, isConsoleOpen) != (prevSelected, prevOpen) {
        if wsRef.Some? {
          sockets := CloseAt(sockets, wsRef.value);
          wsRef := None;
        }
        if selectedBot.Some? && selectedBot.value != "" && isConsoleOpen {
          var bot := selectedBot.value;
          if bot !in logs {
            fetches := fetches + multiset{bot};
          }
          ConnectWebSocket(bot, selectedBot);
        }
      }
    }

    /** toggleConsole (pages/index.tsx:321-336) and the render it causes.
        On the selected bot: the console closes, nothing is selected, and
        the socket in wsRef is closed and dropped. On another bot: it is
        selected with the console open, and the effects close the previous
        socket and connect to the new bot. */
    method ToggleConsole(bot: string)
      requires Valid()
      modifies this
      ensures Valid()
      ensures old(selectedBot) == Some(bot) ==>
        && !isConsoleOpen && selectedBot == None && wsRef == None
        && sockets == CloseRef(old(sockets), old(wsRef)) && fetches == old(fetches)
      ensures old(selectedBot) != Some(bot) ==> isConsoleOpen && selectedBot == Some(bot)
      ensures old(selectedBot) != Some(bot) && bot != "" ==>
        && sockets == CloseRef(old(sockets), old(wsRef)) + [Socket(bot, Some(bot), Connecting)]
        && wsRef == Some(|old(sockets)|)
        && fetches == if bot in old(logs) then old(fetches) else old(fetches) + multiset{bot}
      ensures old(selectedBot) != Some(bot) && bot == "" ==>
        sockets == CloseRef(old(sockets), old(wsRef)) && wsRef == None && fetches == old(fetches)
      ensures logs == old(logs) && actionInProgress == old(actionInProgress)
      ensures timers == old(timers) && subscribes == old(subscribes)
    {
      var prevSelected, prevOpen := selectedBot, isConsoleOpen;
      if selectedBot == Some(bot) {
        isConsoleOpen := false;
        if wsRef.Some? {
          sockets := CloseAt(sockets, wsRef.value);
          wsRef := None;
        }
        selectedBot := None;
      } else {
        selectedBot := Some(bot);
        isConsoleOpen := true;
      }
      RunEffects(prevSelected, prevOpen);
    }

    /** closeConsole (pages/index.tsx:339-347) and the render it causes:
        always ends closed, with nothing selected and wsRef dropped. */
    method CloseConsole()
      requires Valid()
      modifies this
      ensures Valid()
      ensures !isConsoleOpen && selectedBot == None && wsRef == None
      ensures sockets == CloseRef(old(sockets), old(wsRef))
      ensures logs == old(logs) && actionInProgress == old(actionInProgress)
      ensures timers == old(timers) && subscribes == old(subscribes) && fetches == old(fetches)
    {
      var prevSelected, prevOpen := selectedBot, isConsoleOpen;
      isConsoleOpen := false;
      if wsRef.Some? {
        sockets := CloseAt(sockets, wsRef.value);
        wsRef := None;
      }
      selectedBot := None;
      RunEffects(prevSelected, prevOpen);
    }

    /** onopen of socket `i` (pages/index.tsx:181-193): subscribe to the
        socket's bot if the console is still open, else close the socket.
        The selected bot is not checked. */
    method OnOpen(i: nat)
      requires Valid() && i < |sockets| && sockets[i].state == Connecting
      modifies this
      ensures Valid()
      ensures openRef ==> sockets == old(sockets)[i := old(sockets)[i].(state := Open)]
                          && subscribes == old(subscribes) + [(i, old(sockets)[i].bot)]
      ensures !openRef ==> sockets == old(sockets)[i := old(sockets)[i].(state := Closing)]
                           && subscribes == old(subscribes)
      ensures selectedBot == old(selectedBot) && isConsoleOpen == old(isConsoleOpen) && openRef == old(openRef)
      ensures wsRef == old(wsRef) && logs == old(logs) && actionInProgress == old(actionInProgress)
      ensures timers == old(timers) && fetches == old(fetches)
    {
      sockets := sockets[i := sockets[i].(state := Open)];
      if !openRef {
        sockets := CloseAt(sockets, i);
        return;
      }
      subscribes := subscribes + [(i, sockets[i].bot)];
    }

    /** onmessage of socket `i` (pages/index.tsx:195-223). With the console
        closed the socket is closed and nothing else changes. Otherwise only
        a 'log' message changes anything: it is appended to the buffer of
        the socket's bot, which need not be the selected bot. */
    method OnMessage(i: nat, msg: ServerMessage, now: string)
      requires Valid() && i < |sockets| && sockets[i].state == Open
      modifies this
      ensures Valid()
      ensures sockets == if openRef then old(sockets) else CloseAt(old(sockets), i)
      ensures logs == if openRef && IsLog(msg) then AppendFor(old(logs), old(sockets)[i].bot, LogLine(now, msg.content)) else old(logs)
      ensures selectedBot == old(selectedBot) && isConsoleOpen == old(isConsoleOpen) && openRef == old(openRef)
      ensures wsRef == old(wsRef) && actionInProgress == old(actionInProgress)
      ensures timers == old(timers) && subscribes == old(subscribes) && fetches == old(fetches)
    {
      if !openRef {
        CloseAtSeesOwnBot(sockets, i);
        sockets := CloseAt(sockets, i);
      } else if IsLog(msg) {
        var bot := sockets[i].bot;
        logs := AppendFor(logs, bot, LogLine(now, msg.content));
      }
    }

    /** onclose of socket `i` (pages/index.tsx:234-252): schedule a
        reconnect when the console is open and the captured selectedBot is
        the socket's bot. The captured value always is the socket's bot, so
        the reconnect is scheduled exactly when the console is open --
        whichever bot is selected now. */
    method OnClose(i: nat)
      requires Valid() && i < |sockets| && sockets[i].state != Closed
      modifies this
      ensures Valid()
      ensures sockets == old(sockets)[i := old(sockets)[i].(state := Closed)]
      ensures timers == if openRef && old(sockets)[i].captured == Some(old(sockets)[i].bot)
                        then old(timers) + multiset{Timer(old(sockets)[i].bot, old(sockets)[i].captured)}
                        else old(timers)
      ensures isConsoleOpen <==> timers == old(timers) + multiset{Timer(old(sockets)[i].bot, Some(old(sockets)[i].bot))}
      ensures selectedBot == old(selectedBot) && isConsoleOpen == old(isConsoleOpen) && openRef == old(openRef)
      ensures wsRef == old(wsRef) && logs == old(logs) && actionInProgress == old(actionInProgress)
      ensures subscribes == old(subscribes) && fetches == old(fetches)
    {
      var s := sockets[i];
      sockets := sockets[i := s.(state := Closed)];
      if openRef && s.captured == Some(s.bot) {
        timers := timers + multiset{Timer(s.bot, s.captured)};
      } else {
        var t := Timer(s.bot, Some(s.bot));
        assert (old(timers) + multiset{t})[t] == timers[t] + 1;
      }
    }

    /** A reconnect timer fires (pages/index.tsx:240-248): the guard is
        checked again and, when it holds, the captured connectWebSocket runs
        for the timer's bot. With the console closed in the meantime no
        socket is opened; with it open, one is opened for the timer's bot
        even if another bot has been selected since. */
    method OnTimer(t: Timer)
      requires Valid() && t in timers
      modifies this
      ensures Valid()
      ensures timers == old(timers) - multiset{t}
      ensures !isConsoleOpen ==> sockets == old(sockets) && wsRef == old(wsRef)
      ensures isConsoleOpen ==>
        && sockets == ClosePreviousIfOpen(old(sockets), old(wsRef)) + [Socket(t.bot, Some(t.bot), Connecting)]
        && wsRef == Some(|old(sockets)|)
      ensures selectedBot == old(selectedBot) && isConsoleOpen == old(isConsoleOpen) && openRef == old(openRef)
      ensures logs == old(logs) && actionInProgress == old(actionInProgress)
      ensures subscribes == old(subscribes) && fetches == old(fetches)
    {
      timers := timers - multiset{t};
      if openRef && t.captured == Some(t.bot) {
        ConnectWebSocket(t.bot, t.captured);
      }
    }

    /** The answer to fetchInitialLogs (pages/index.tsx:260-287): a
        snapshot replaces the bot's buffer, whether or not the console is
        still open on it; a failed fetch changes nothing. */
    method OnSnapshot(bot: string, snapshot: Option<seq<LogLine>>)
      requires Valid() && bot in fetches
      modifies this
      ensures Valid()
      ensures fetches == old(fetches) - multiset{bot}
      ensures logs == if snapshot.Some? then Seed(old(logs), bot, snapshot.value) else old(logs)
      ensures selectedBot == old(selectedBot) && isConsoleOpen == old(isConsoleOpen) && openRef == old(openRef)
      ensures wsRef == old(wsRef) && sockets == old(sockets) && actionInProgress == old(actionInProgress)
      ensures timers == old(timers) && subscribes == old(subscribes)
    {
      fetches := fetches - multiset{bot};
      if snapshot.Some? {
        logs := Seed(logs, bot, snapshot.value);
      }
    }

    /** clearBotLogs (pages/index.tsx:311-318): drop the bot's buffer and
        fetch a fresh snapshot. */
    method ClearBotLogs(bot: string)
      requires Valid()
      modifies this
      ensures Valid()
      ensures logs == Clear(old(logs), bot) && fetches == old(fetches) + multiset{bot}
      ensures selectedBot == old(selectedBot) && isConsoleOpen == old(isConsoleOpen) && openRef == old(openRef)
      ensures wsRef == old(wsRef) && sockets == old(sockets) && actionInProgress == old(actionInProgress)
      ensures timers == old(timers) && subscribes == old(subscribes)
    {
      logs := Clear(logs, bot);
      fetches := fetches + multiset{bot};
    }

    /** handleAction marks its key busy when it starts (pages/index.tsx:130)
        and not busy in its `finally` (pages/index.tsx:159). */
    method SetActionProgress(bot: string, a: ActionType, busy: bool)
      requires Valid()
      modifies this
      ensures Valid()
      ensures actionInProgress == SetProgress(old(actionInProgress), bot, a, busy)
      ensures selectedBot == old(selectedBot) && isConsoleOpen == old(isConsoleOpen) && openRef == old(openRef)
      ensures wsRef == old(wsRef) && sockets == old(sockets) && logs == old(logs)
      ensures timers == old(timers) && subscribes == old(subscribes) && fetches == old(fetches)
    {
      actionInProgress := SetProgress(actionInProgress, bot, a, busy);
    }
  }
}
