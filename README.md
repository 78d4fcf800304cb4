# Bot panel: log streaming, dashboard console and ticket closing

This project models three parts of a small bot-hosting panel and proves what
they do:

- **The log server** (`index.js`). It keeps a registry from bot name to the set
  of WebSocket sessions subscribed to it. Each subscribe message starts a log
  follower process. The server shapes each chunk of log text into lines and
  broadcasts them to the bot's open subscribers. It also formats process status,
  validates the bodies of the start/stop/restart and memory-limit routes, and
  answers the log-snapshot route.
- **The dashboard page** (`pages/index.tsx`). Each bot has a log buffer capped
  at 1000 lines. The console opens a WebSocket to the selected bot, closes it
  and reconnects. The status badge and the action buttons are shown and enabled
  by fixed rules.
- **The Discord ticket-close handler** (`events/ticketClose.js`). It reads the
  ticket code from the thread name, decides a reply by button and team role,
  and builds the plain-text transcript.

Modules:

- `Text`: JavaScript `split`, `join` and `trim`.
- `Lines`: log-line shaping.
- `Supervisor`: the supervisor's process-list answer.
- `LogServer`: the registry, the followers and the broadcasts.
- `BotApi`: the HTTP routes.
- `LogBuffer`: the dashboard's per-bot buffers.
- `Dashboard`: the badge, the buttons and the `Console` class.
- `TicketClose`: the ticket-close handler.
- `Scenarios`: runs through the event handlers.

The server and the console are classes whose methods are the event handlers.
Each method states its whole new state. Socket callbacks, timers and fetch
answers are separate events, applied one at a time. On the dashboard, a user
action, the re-render it causes and the effects of that render count as one
step.

## Model

| member | source | states |
|---|---|---|
| Text.Join | events/ticketClose.js:109-123 | The pieces with the separator between neighbours; the result starts with the first piece. `SplitJoin` is its inverse. |
| Text.Split | index.js:123 | The pieces joined with the separator give the input back, no piece contains the separator, and there is always at least one piece. |
| Text.Trim | index.js:125-126 | The result neither starts nor ends with whitespace and is empty exactly when the input is all whitespace. |
| Text.TrimIsSlice | index.js:126 | The trim is the slice of the input between its leading and trailing whitespace. |
| Text.TrimIdempotent | index.js:126 | Trimming twice gives the same result as trimming once. |
| Text.SplitAround | index.js:123 | Splitting `a + "\n" + b` gives the pieces of `a` followed by the pieces of `b`. |
| Text.SplitJoin | events/ticketClose.js:123 | Splitting on a one-character separator undoes joining with it, for pieces without that character. |
| Text.SplitsIffContains | events/ticketClose.js:41 | A string splits into two or more pieces exactly when it contains the separator. |
| Text.SplitAtFirst | events/ticketClose.js:41 | When the first separator comes right after `a`, the first piece is `a` and the rest is how the remainder splits. |
| Lines.KeepNonBlank | index.js:124-128 | Every kept line is non-empty and equal to its own trim, and there are no more kept lines than input lines. |
| Lines.ShapeLines | index.js:122-128 | Every line a chunk yields is non-empty, trimmed and free of newlines. |
| Lines.KeepNonBlankAppend | index.js:124-128 | Filtering a concatenation gives the concatenation of the filtered parts, in order. |
| Lines.ShapeLinesAround | index.js:123-128 | Two texts separated by a newline shape independently, and their lines come in order. |
| Lines.ShapeOneLine | index.js:123-128 | Text without a newline yields nothing when it is blank, and its trim otherwise. |
| Lines.ShapeJoinedLines | index.js:123-128 | Lines that are already shaped come back unchanged after joining them with newlines and shaping again. |
| LogServer.Subscribe | index.js:67-70 | The bot gets an entry holding the old sessions plus the new one, and every other entry is unchanged. |
| LogServer.IsSubscribe | index.js:62 | Holds exactly for a message whose type is 'subscribe' and whose botName is a non-empty string. |
| LogServer.OpenSubscribers | index.js:43-51 | The sessions of the bot's entry whose state is OPEN; never a session outside the entry. |
| LogServer.RemoveSession | index.js:84-91 | Each entry loses the session, an entry stays exactly when something is left in it, and the other sessions stay where they were. |
| LogServer.SubscribeMembership | index.js:67-70 | After a subscribe, a session is in a bot's entry iff it was there before or it is the new (bot, session). |
| LogServer.SubscribeIdempotent | index.js:70 | Subscribing the same session to the same bot twice leaves the registry as after the first time. |
| LogServer.SubscribeCommutes | index.js:67-70 | The order of two subscribes does not matter. |
| LogServer.SubscribeKeepsNoEmpty | index.js:67-70 | Subscribing keeps every entry non-empty. |
| LogServer.RemoveSessionEffect | index.js:84-91 | After a close, the session is in no entry, no entry is empty, and every other session's membership is unchanged. |
| LogServer.RemoveAbsentSession | index.js:84-91 | Closing a session that subscribed to nothing leaves the registry unchanged. |
| LogServer.CloseUndoesSubscribe | index.js:62-91 | A subscribe followed by the same session's close gives back the registry from before the subscribe. |
| LogServer.BroadcastTargets | index.js:43-51 | A broadcast reaches exactly the bot's subscribers whose state is OPEN, and nobody for a bot without an entry. |
| LogServer.NoBroadcastAfterClose | index.js:43-51 | A closed session receives no broadcast for any bot. |
| LogServer.LogServer.constructor | index.js:40 | The server starts with an empty registry, no followers and no pending lookups. |
| LogServer.LogServer.OnMessage | index.js:57-79 | A subscribe with a truthy botName adds the session to that bot's entry and issues one list call. Anything else, including a payload that does not parse, changes nothing. The "no empty entry" invariant holds afterwards. |
| LogServer.LogServer.OnClose | index.js:81-92 | The registry loop ends in `RemoveSession` of the old registry. Every follower started by the session is killed (index.js:135-137) and the others stay. No follower becomes orphaned. The invariant holds afterwards. |
| LogServer.LogServer.OnListResult | index.js:101-138 | A follower tagged with the session starts exactly when the list call succeeded and names the bot. When the session had already closed, the count of orphaned followers with that tag grows by one, however many there were already, and no other count changes. |
| LogServer.LogServer.Broadcast | index.js:43-51 | The recipients are exactly the open subscribers of the bot, and the registry is unchanged. |
| LogServer.LogServer.OnChunk | index.js:122-129 | The messages sent are the shaped lines of the chunk, in order. Each goes to the open subscribers of the follower's bot, not just to the session that started the follower. |
| BotApi.StringOr | index.js:153-174 | `v \|\| d` on a string: the default when the field is absent or empty, the field's value otherwise. |
| BotApi.NumberOr | index.js:153-174 | `v \|\| d` on a number: the default when the field is absent or zero, the field's value otherwise. |
| BotApi.FormatBotStatus | index.js:152-176 | Name and id are kept. Defaulted fields are never empty or zero. `monit` keeps every metric and gains `memory_limit`. Uptime is present iff `pm_uptime` is truthy. |
| BotApi.FormatBotStatusDefaults | index.js:153-174 | Each field that is missing or falsy, whether pm2_env is absent or only lacks it or holds "" or 0, is reported as its default: 'unknown', 0 restarts, no uptime, a 512 MiB limit, 1 instance, 'N/A' for the three texts. Without pm2_env every field is. |
| BotApi.FormatBotStatusKeeps | index.js:153-174 | Every truthy field (status, uptime, restarts, memory limit, version, node version, instances, exec mode) is reported as it is instead of its default. |
| BotApi.ActionRoute | index.js:201-273 | The answer is 400 iff botName is falsy. It is success iff botName is truthy and neither the connection nor the action failed. Every other answer is 500. |
| BotApi.MemoryLimitRoute | index.js:276-369 | The answer is 400 iff either field is falsy, and 404 iff the list succeeds without the bot. It is success iff both fields are truthy, the connection succeeds, the list names the bot and both commands succeed; `newLimit` is then `memoryLimit * 1024 * 1024`. Every other answer is 500. |
| BotApi.Stamped | index.js:427-430 | Every line becomes one entry with the same content and the given timestamp. |
| BotApi.LogsRoute | index.js:372-443 | A snapshot is returned iff the connection succeeds, the bot is listed and the tail exits with 0. Its lines are the shaped output, exactly as streamed. 404 iff the list lacks the bot. |
| BotApi.SnapshotLinesShaped | index.js:425-430 | Every snapshot line is non-empty, trimmed and a single line. |
| LogBuffer.LastN | pages/index.tsx:209 | The result is the suffix of length min(n, length). |
| LogBuffer.Append | pages/index.tsx:207-209 | The buffer grows by one up to 1000 entries, never holds more, and ends with the new entry. |
| LogBuffer.AppendKeepsLast | pages/index.tsx:207-209 | The new buffer is exactly the last 1000 of the old buffer followed by the entry. |
| LogBuffer.LastNOfLastN | pages/index.tsx:209 | Trimming, appending and trimming again is the same as trimming once at the end. |
| LogBuffer.SlidingWindow | pages/index.tsx:206-214 | After any run of messages, the buffer holds the last 1000 of everything it has seen, in arrival order. |
| LogBuffer.FullWindow | pages/index.tsx:206-214 | After at least 1000 messages, the buffer is exactly their last 1000, whatever it held before, however long. |
| LogBuffer.AppendFor | pages/index.tsx:206-214 | Only the message's bot's buffer changes, and it becomes `Append` of its old buffer (an empty one if it had none). |
| LogBuffer.Clear | pages/index.tsx:311-316 | Only that bot's buffer is removed. |
| LogBuffer.Seed | pages/index.tsx:270-273 | That bot's buffer becomes the snapshot and no other key changes. |
| LogBuffer.AppendCommutesWithClear | pages/index.tsx:311-316 | Appending to one bot and clearing another give the same result in either order. |
| LogBuffer.AppendCommutesWithSeed | pages/index.tsx:270-273 | Appending to one bot and seeding another give the same result in either order. |
| Dashboard.BadgeText | pages/index.tsx:36-50 | The badge texts: 'Online', 'Parado' and 'Erro'. |
| Dashboard.StatusInfo | pages/index.tsx:32-53 | The badge is Online iff the status is 'online', Stopped iff 'stopped', and Error for every other status. |
| Dashboard.ActionKey | pages/index.tsx:98 | The key is the bot's name, a dash, and the action's name. |
| Dashboard.ActionKeyInjective | pages/index.tsx:98 | Two (bot, action) pairs share a key only when they are equal. |
| Dashboard.SetProgress | pages/index.tsx:130 | The updater stores `busy` under the action's key and keeps every other entry as it was. |
| Dashboard.InProgress | pages/index.tsx:479 | `actionInProgress[key]` is truthy: the key is present and true. |
| Dashboard.BlockedByStatus | pages/index.tsx:479-517 | Start is blocked while the bot is 'online'; Restart and Stop while it is 'stopped'. |
| Dashboard.ButtonDisabled | pages/index.tsx:479-517 | A button is disabled iff its status blocks it or its action is in progress. |
| Dashboard.ProgressAffectsOnlyItsButton | pages/index.tsx:475-517 | A running action disables its button. Once it is done, the button is disabled iff the status blocks it (Start when online, Restart and Stop when stopped). No other button of any bot changes. |
| Dashboard.ClosePreviousIfOpen | pages/index.tsx:172-175 | The socket in wsRef is closed when it is OPEN and left alone otherwise, including while it is still connecting. |
| Dashboard.Console.constructor | pages/index.tsx:85-91 | The console starts closed, with nothing selected, no socket and no buffers. |
| Dashboard.Console.ConnectWebSocket | pages/index.tsx:164-257 | With the console closed, nothing happens. Otherwise the previous socket is closed only if OPEN, a connecting socket for the bot is added, and it becomes wsRef. |
| Dashboard.Console.RunEffects | pages/index.tsx:290-308 | When the selection or the open flag changed: the ref is synced and wsRef is closed and dropped. Then, for a truthy selected bot with the console open, its snapshot is fetched iff it has no buffer, and a socket for it is opened. |
| Dashboard.Console.ToggleConsole | pages/index.tsx:321-336 | On the selected bot, it ends closed, with nothing selected and wsRef dropped. Otherwise the bot is selected and the console opens. For a non-empty name there is a new socket, and a snapshot fetch iff the bot has no buffer. For the empty name the old socket is closed and nothing is connected or fetched. |
| Dashboard.Console.CloseConsole | pages/index.tsx:339-347 | It always ends closed, with nothing selected, wsRef dropped and the socket in it closed. |
| Dashboard.Console.OnOpen | pages/index.tsx:181-193 | It subscribes to the socket's own bot iff the console is open, and closes the socket otherwise. The selected bot is not consulted. |
| Dashboard.Console.OnMessage | pages/index.tsx:195-223 | With the console closed, it closes the socket and leaves the buffers alone. Only a 'log' message changes a buffer: the socket's bot's, by `AppendFor`. |
| Dashboard.Console.OnClose | pages/index.tsx:234-252 | It schedules a reconnect iff the guard holds. Because the guard compares a captured selection that always equals the socket's bot, this is exactly when the console is open, whichever bot is selected now. |
| Dashboard.Console.OnTimer | pages/index.tsx:240-248 | With the console closed since, no socket is opened. With it open, a socket for the timer's bot is opened even if another bot is selected. |
| Dashboard.Console.OnSnapshot | pages/index.tsx:260-287 | A snapshot replaces that bot's buffer. A failed fetch changes nothing. |
| Dashboard.Console.ClearBotLogs | pages/index.tsx:311-318 | It removes the bot's buffer and requests a new snapshot. |
| Dashboard.Console.SetActionProgress | pages/index.tsx:127-161 | The in-progress map gets the action's key set, and nothing else on the page changes. |
| TicketClose.TicketCode | events/ticketClose.js:41-42 | There is a code iff the name splits into two or more pieces and the second is non-empty. The code is non-empty and holds no " - ". |
| TicketClose.NoSeparatorNoTicket | events/ticketClose.js:41-42 | A name without " - " yields no ticket code. |
| TicketClose.TicketCodeLocation | events/ticketClose.js:41 | The name is the text before its first " - ", the separator, the code, and then either nothing or another separator. |
| TicketClose.TicketCodeOfName | events/ticketClose.js:41 | A name built as prefix + " - " + code gives back the code, when the first separator is the one after the prefix. |
| TicketClose.Execute | events/ticketClose.js:35-239 | See the list below this table. |
| TicketClose.AttachmentLinks | events/ticketClose.js:107-108 | Each attachment gives one `[Anexo: name](url)` link, in order. |
| TicketClose.EmbedText | events/ticketClose.js:112-117 | An embed's text is empty iff it has neither a truthy title nor a truthy description. |
| TicketClose.Header | events/ticketClose.js:121 | `[stamp] tag: content` is never empty and starts with '['. |
| TicketClose.HeaderOneLine | events/ticketClose.js:121 | The header is one line iff the stamp, the tag and the content are. |
| TicketClose.AttachmentsText | events/ticketClose.js:107-109 | The attachment links joined with newlines; `AttachmentsTextEmpty` says when it is empty. |
| TicketClose.EmbedsText | events/ticketClose.js:111-118 | The embed texts joined with newlines; `EmbedsTextEmpty` says when it is empty. |
| TicketClose.Block | events/ticketClose.js:120-122 | Every block starts with `[stamp] tag: content`. |
| TicketClose.BlockLines | events/ticketClose.js:120-122 | Without embed text, and with a one-line header and one-line links, the block's lines are the header and then one link per attachment, in order. |
| TicketClose.BlockEndsWithEmbeds | events/ticketClose.js:120-122 | With non-empty embed text, the block ends with a newline and that text. |
| TicketClose.Blocks | events/ticketClose.js:103-106 | There is one block per fetched message, oldest first: block k is the message at position n-1-k of the fetch. |
| TicketClose.AttachmentsTextEmpty | events/ticketClose.js:107-109 | The attachment text is empty iff there are no attachments. |
| TicketClose.EmbedsTextEmpty | events/ticketClose.js:111-118 | The embed text is empty iff there are no embeds, or a single embed with no title and no description. |
| TicketClose.BlockPlain | events/ticketClose.js:120-122 | A block is its header alone iff the message has no attachments and its embeds render empty. |
| TicketClose.Transcript | events/ticketClose.js:103-123 | The blocks joined with newlines; empty iff no message was fetched. |
| TicketClose.TranscriptLines | events/ticketClose.js:103-123 | When every block is one line, splitting the transcript on newlines gives the blocks back, oldest first. |
| TicketClose.TranscriptOlderFirst | events/ticketClose.js:103-123 | Messages further back in the fetch come first in the transcript. |
| Scenarios.TwoViewersOneBot | index.js:100-138 | With two subscribers to one bot, a line is delivered to both by each of the two followers. After the first subscriber closes, the line is delivered once, to the second. |
| Scenarios.LateListResultLeaksFollower | index.js:100-138 | A session that closes before its list call answers leaves one orphaned follower, and the registry empty. |
| Scenarios.RepeatedSubscribeLeaksEach | index.js:100-138 | A session that subscribed twice and closes before both answers leaves two orphaned followers. |
| Scenarios.SwitchingBotsReconnectsPrevious | pages/index.tsx:234-252 | When B's socket is still connecting as the reconnect to A fires: B stays selected, a new socket for A is connecting, and two sockets are live. |
| Scenarios.SwitchingBotsAlternates | pages/index.tsx:164-252 | When B's socket opens first: after one round of reconnects B is selected, a socket for B is connecting, a reconnect to A is pending again, and the subscribes sent were A, B, A. |

`TicketClose.Execute` states:

- Anything other than a button press in a thread whose name has a ticket code
  gets no reply.
- On a ticket, a failed member fetch gets the error reply.
- A press gets the denial iff it is close or confirm by a member without the
  team role.
- A press gets the confirm prompt iff it is close by a team member.
- A press gets the cancellation iff it is cancel, by anyone.
- A press closes the ticket iff it is confirm by a team member and both the
  message fetch and the save succeed. When one of them fails, it gets the
  follow-up error.
- Any other customId gets no reply.
- The closed ticket carries the code and the transcript of the fetched
  messages.

## Behaviour of the code worth knowing

The proofs above establish these consequences of the code as written:

- **A follower per subscribe, not per bot.** Every subscribe message starts its
  own follower (index.js:74), and every follower broadcasts to the bot's whole
  entry (index.js:126 and 43-51). With two dashboards on one bot, each line
  reaches each dashboard twice (`Scenarios.TwoViewersOneBot`).
- **Followers can outlive their connection.** The follower starts in the
  answer to an asynchronous list call (index.js:101), and its kill listener is
  attached there too (index.js:135-137). If the connection closed before that
  answer, the listener is attached to a connection that will not close again,
  so the follower is never killed. `OnListResult` counts these orphans per
  (bot, session); `Scenarios.LateListResultLeaksFollower` and
  `Scenarios.RepeatedSubscribeLeaksEach` show one and two of them.
- **The reconnect guard does not see a bot switch.** The guard at
  pages/index.tsx:238 and 242 compares `selectedBot` with `botName`, and its
  messages speak of the bot having changed, but `selectedBot` there is the
  value captured by the render whose `connectWebSocket` made the socket. That
  value always equals the socket's own bot (`Console.Valid`), so only the
  console-open half of the guard can fail. Switching from A to B therefore
  schedules a reconnect to A 5000 ms after A's socket closes.
  - When B's socket has opened by then, as it usually has, the reconnect's
    `connectWebSocket` closes it (pages/index.tsx:172-175) and connects to A.
    B's socket closing schedules a reconnect to B, which in turn closes A's
    socket. The console keeps alternating between A and B, subscribing again,
    and being sent the log tail again, on each round
    (`Scenarios.SwitchingBotsAlternates`).
  - When B's socket is still connecting, `connectWebSocket` leaves it open, as
    it closes only OPEN sockets. The console then holds two live sockets and
    streams A into A's buffer while B is shown
    (`Scenarios.SwitchingBotsReconnectsPrevious`).

## Left out

- The supervisor (pm2) calls, `child_process` spawn and exec, and the tail
  processes are not modelled. A follower is a token that is started and
  killed, and each supervisor call is replaced by its outcome (`ListResult`,
  error options, the tail's exit code and output).
- WebSocket transport, JSON parsing and Express routing are not modelled.
  Messages are parsed values. A payload that does not parse is `Unparsable`
  or `Garbled`. readyState is supplied as a function by the environment.
- A `botName` that is a JSON value other than a string is not modelled; the
  inbound field is a string or absent.
- The model splits each stdout chunk on its own, as the code does. A line cut
  across two chunks becomes two lines, and no promise of line integrity is
  made.
- Timing and concurrency are reduced to a sequence of events. The 5000 ms
  delay is the `OnTimer` event.
- `Date` values are opaque strings. Every line of one snapshot carries one
  `now`, while the code calls `new Date()` per line. `toLocaleString`
  and `path.join` are also opaque.
- Floating point is not modelled: `formatMemory`, `formatMemoryLimit`, the cpu
  percentage and the memory bar. `monit` values are reals that are passed
  through.
- BotApi.MemoryLimitRoute: `memoryLimit` is taken to be a number. The code's
  `memoryLimit * 1024 * 1024` on a numeric string, the text of the success
  message and the shell command are not modelled.
- A process whose pm2_env lacks `pm_cwd`, or is missing, makes the follower
  and the snapshot route read a path that is not modelled. A missing pm2_env
  makes the code throw inside the list callback, and that crash is not
  modelled.
- React rendering, toasts, scroll position, loading flags, `onerror`, the
  unmount cleanup and the periodic bot-list refresh are not modelled.
- The `GET /bots` and `/status` routes are not modelled beyond
  `formatBotStatus`.
- Dashboard.Console.SetActionProgress: the `fetch` of `handleAction` is not
  modelled. The model keeps only the two updates of the in-progress map
  around it.
- The Discord embed and button builders, `createTranscript`, the logs-channel
  posts, the file write and HTTP post of `saveTranscriptToServer`, and the
  archiving timer are not modelled. The member fetch, the message fetch and
  the save are outcomes passed to `Execute`. Failures of the sends after the
  save, and of the replies themselves, are not modelled.
- The message fetch's own page size is not modelled: the transcript covers
  whatever list of messages it is given.
- `app/api/route.ts`, `pages/api/pm2.ts`, `ecosystem.config.js` and
  `next.config.ts` are not part of this model.
