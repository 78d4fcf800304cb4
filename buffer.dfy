/** The dashboard's per-bot log buffers (pages/index.tsx, the `logs` state):
    a map from bot name to its lines, appended to as log messages arrive,
    replaced by a snapshot, or removed. */
module LogBuffer {
  import opened Lines

  /** The most lines a bot's buffer keeps (pages/index.tsx:209). */
  const Capacity: nat := 1000

  type Logs = map<string, seq<LogLine>>

  /** The last `n` elements of `s`, or all of them when there are fewer. */
  function LastN<T>(s: seq<T>, n: nat): (r: seq<T>)
    ensures |r| == if |s| > n then n else |s|
    ensures r == s[|s| - |r|..]
  {
    if |s| > n then s[|s| - n..] else s
  }

  /** `prev[botName] || []`: the bot's buffer, empty when it has none. */
  function Buffer(logs: Logs, bot: string): seq<LogLine> {
    if bot in logs then logs[bot] else []
  }

  /** The updater of a log message (pages/index.tsx:207-209): append, then
      keep the last 1000 when the buffer has grown past them. */
  function Append(buf: seq<LogLine>, entry: LogLine): (r: seq<LogLine>)
    ensures |r| == if |buf| + 1 > Capacity then Capacity else |buf| + 1
    ensures |r| <= Capacity && r[|r| - 1] == entry
  {
    var newLogs := buf + [entry];
    if |newLogs| > Capacity then newLogs[|newLogs| - Capacity..] else newLogs
  }

  /** Appending keeps the last 1000 of the old buffer and the new line. */
  lemma AppendKeepsLast(buf: seq<LogLine>, entry: LogLine)
    ensures Append(buf, entry) == LastN(buf + [entry], Capacity)
  {
  }

  /** A run of log messages for one bot, appended in arrival order. */
  function AppendAll(buf: seq<LogLine>, entries: seq<LogLine>): seq<LogLine>
    decreases |entries|
  {
    if entries == [] then buf else AppendAll(Append(buf, entries[0]), entries[1..])
  }

  /** Trimming to the last n and then appending more, then trimming again,
      is the same as appending everything and trimming once. */
  lemma LastNOfLastN<T>(x: seq<T>, y: seq<T>, n: nat)
    ensures LastN(LastN(x, n) + y, n) == LastN(x + y, n)
  {
    if |x| > n {
      var t := LastN(x, n) + y;
      var u := x + y;
      var r := LastN(t, n);
      assert |r| == |LastN(u, n)|;
      forall k | 0 <= k < |r| ensures r[k] == LastN(u, n)[k] {
        assert r[k] == t[|t| - |r| + k];
        assert LastN(u, n)[k] == u[|u| - |r| + k];
      }
    }
  }

  /** The buffer is a sliding window: after any run of messages, a buffer
      that started within capacity holds the last 1000 of everything it
      has seen, in arrival order. */
  lemma {:induction false} SlidingWindow(buf: seq<LogLine>, entries: seq<LogLine>)
    requires |buf| <= Capacity
    ensures AppendAll(buf, entries) == LastN(buf + entries, Capacity)
    decreases |entries|
  {
    if entries == [] {
      assert buf + entries == buf;
    } else {
      var e := entries[0];
      SlidingWindow(Append(buf, e), entries[1..]);
      AppendKeepsLast(buf, e);
      LastNOfLastN(buf + [e], entries[1..], Capacity);
      assert buf + [e] + entries[1..] == buf + entries;
    }
  }

  /** After at least 1000 messages the buffer holds exactly the last 1000
      of them, whatever it held before: the first append already brings it
      within capacity. */
  lemma FullWindow(buf: seq<LogLine>, entries: seq<LogLine>)
    requires |entries| >= Capacity
    ensures AppendAll(buf, entries) == entries[|entries| - Capacity..]
  {
    var first := Append(buf, entries[0]);
    var rest := entries[1..];
    SlidingWindow(first, rest);
    assert AppendAll(buf, entries) == AppendAll(first, rest);
    var all := first + rest;
    var w, v := all[|all| - Capacity..], entries[|entries| - Capacity..];
    assert |w| == |v|;
    forall k | 0 <= k < |w| ensures w[k] == v[k] {
      var i := |entries| - Capacity + k;
      if i == 0 {
        assert w[k] == all[|first| - 1] == entries[0];
      } else {
        assert w[k] == all[|first| + i - 1] == rest[i - 1];
      }
    }
  }

  /** A log message for `bot` (pages/index.tsx:206-214): only that bot's
      buffer changes. */
  function AppendFor(logs: Logs, bot: string, entry: LogLine): (r: Logs)
    ensures r.Keys == logs.Keys + {bot}
    ensures forall b :: b in logs && b != bot ==> r[b] == logs[b]
    ensures r[bot] == Append(Buffer(logs, bot), entry)
  {
    logs[bot := Append(Buffer(logs, bot), entry)]
  }

  /** clearBotLogs (pages/index.tsx:311-316): only that bot's buffer goes. */
  function Clear(logs: Logs, bot: string): (r: Logs)
    ensures r.Keys == logs.Keys - {bot}
    ensures forall b :: b in r ==> r[b] == logs[b]
  {
    logs - {bot}
  }

  /** The snapshot updater (pages/index.tsx:270-273): the bot's buffer
      becomes the snapshot, whatever it held. */
  function Seed(logs: Logs, bot: string, snapshot: seq<LogLine>): (r: Logs)
    ensures r.Keys == logs.Keys + {bot}
    ensures forall b :: b in logs && b != bot ==> r[b] == logs[b]
    ensures r[bot] == snapshot
  {
    logs[bot := snapshot]
  }

  /** Buffers of different bots never interfere: appending to one bot's
      buffer commutes with clearing another's ... */
  lemma AppendCommutesWithClear(logs: Logs, a: string, b: string, e: LogLine)
    requires a != b
    ensures Clear(AppendFor(logs, a, e), b) == AppendFor(Clear(logs, b), a, e)
  {
    var v := Append(Buffer(logs, a), e);
    assert Buffer(logs - {b}, a) == Buffer(logs, a);
    assert logs[a := v] - {b} == (logs - {b})[a := v];
  }

  /** ... and with seeding another's. */
  lemma AppendCommutesWithSeed(logs: Logs, a: string, b: string, e: LogLine, snap: seq<LogLine>)
    requires a != b
    ensures Seed(AppendFor(logs, a, e), b, snap) == AppendFor(Seed(logs, b, snap), a, e)
  {
    var v := Append(Buffer(logs, a), e);
    assert Buffer(logs[b := snap], a) == Buffer(logs, a);
    assert logs[a := v][b := snap] == logs[b := snap][a := v];
  }
}
