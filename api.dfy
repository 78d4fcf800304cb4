/** The HTTP side of the server (index.js) that feeds the dashboard:
    formatBotStatus, the validation of the POST bodies, and the answers of
    the start/stop/restart, memory-limit and log-snapshot routes, with every
    call to the process supervisor replaced by its outcome. */
module BotApi {
  import opened Options
  import opened Text
  import opened Lines
  import opened Supervisor

  const MiB: int := 1024 * 1024
  /** The memory limit reported when the process has none (index.js:158). */
  const DefaultMemoryLimit: int := 512 * MiB

  /** An absent or empty string field: falsy in JavaScript. */
  predicate NoText(v: Option<string>) {
    v.None? || v.value == ""
  }

  /** An absent or zero numeric field: falsy in JavaScript. */
  predicate NoNumber(v: Option<int>) {
    v.None? || v.value == 0
  }

  /** `v || d` for a string field: absent or empty reads as the default. */
  function StringOr(v: Option<string>, d: string): (r: string)
    ensures NoText(v) ==> r == d
    ensures !NoText(v) ==> v == Some(r)
  {
    if v.Some? && v.value != "" then v.value else d
  }

  /** `v || d` for a numeric field: absent or zero reads as the default. */
  function NumberOr(v: Option<int>, d: int): (r: int)
    ensures NoNumber(v) ==> r == d
    ensures !NoNumber(v) ==> v == Some(r)
  {
    if v.Some? && v.value != 0 then v.value else d
  }

  /** The part of `process.pm2_env` the server reads. */
  datatype Pm2Env = Pm2Env(
    status: Option<string>,
    pmUptime: Option<int>,
    restartTime: Option<int>,
    maxMemoryRestart: Option<int>,
    version: Option<string>,
    nodeVersion: Option<string>,
    instances: Option<int>,
    execMode: Option<string>)

  /** One process of the supervisor's list; `monit` holds the process
      metrics (memory in bytes, cpu in percent). */
  datatype Process = Process(name: string, pmId: int, env: Option<Pm2Env>, monit: Option<map<string, real>>)

  /** The object formatBotStatus builds (index.js:160-175). */
  datatype BotStatus = BotStatus(
    name: string,
    pmId: int,
    status: string,
    monit: map<string, real>,
    uptime: Option<int>,
    restarts: int,
    version: string,
    nodeVersion: string,
    instances: int,
    execMode: string)

  /** What `process.pm2_env?.field` reads: every field is absent when the
      process has no pm2_env. */
  function Env(p: Process): Pm2Env {
    if p.env.Some? then p.env.value else Pm2Env(None, None, None, None, None, None, None, None)
  }

  /** formatBotStatus (index.js:152-176). Each field the process lacks, or
      holds falsy, is replaced by its default; `monit` keeps every metric of
      the process and gains (or overrides) memory_limit. */
  function FormatBotStatus(p: Process): (r: BotStatus)
    ensures r.name == p.name && r.pmId == p.pmId
    ensures r.status != "" && r.version != "" && r.nodeVersion != "" && r.execMode != ""
    ensures r.instances != 0 && "memory_limit" in r.monit && r.monit["memory_limit"] != 0.0
    ensures forall k :: k in r.monit <==> k == "memory_limit" || (p.monit.Some? && k in p.monit.value)
    ensures forall k :: k in r.monit && k != "memory_limit" ==> r.monit[k] == p.monit.value[k]
    ensures r.uptime.Some? <==> Env(p).pmUptime.Some? && Env(p).pmUptime.value != 0
  {
    var metrics := if p.monit.Some? then p.monit.value else map[];
    var limit := NumberOr(Env(p).maxMemoryRestart, DefaultMemoryLimit);
    var uptime := Env(p).pmUptime;
    BotStatus(
      p.name,
      p.pmId,
      StringOr(Env(p).status, "unknown"),
      metrics["memory_limit" := limit as real],
      if uptime.Some? && uptime.value != 0 then uptime else None,
      NumberOr(Env(p).restartTime, 0),
      StringOr(Env(p).version, "N/A"),
      StringOr(Env(p).nodeVersion, "N/A"),
      NumberOr(Env(p).instances, 1),
      StringOr(Env(p).execMode, "N/A"))
  }

  /** Each field that is missing or falsy -- because pm2_env is absent, or
      because pm2_env lacks it or holds "" or 0 -- is reported as its
      default. Without pm2_env, every field is. */
  lemma FormatBotStatusDefaults(p: Process)
    ensures var e, r := Env(p), FormatBotStatus(p);
      && (NoText(e.status) ==> r.status == "unknown")
      && (NoNumber(e.restartTime) ==> r.restarts == 0)
      && (NoNumber(e.pmUptime) ==> r.uptime == None)
      && (NoNumber(e.maxMemoryRestart) ==> r.monit["memory_limit"] == DefaultMemoryLimit as real)
      && (NoText(e.version) ==> r.version == "N/A")
      && (NoText(e.nodeVersion) ==> r.nodeVersion == "N/A")
      && (NoNumber(e.instances) ==> r.instances == 1)
      && (NoText(e.execMode) ==> r.execMode == "N/A")
    ensures p.env.None? ==> var r := FormatBotStatus(p);
      && r.status == "unknown" && r.restarts == 0 && r.uptime == None
      && r.monit["memory_limit"] == DefaultMemoryLimit as real
      && r.version == "N/A" && r.nodeVersion == "N/A" && r.instances == 1 && r.execMode == "N/A"
  {
  }

  /** The defaults apply only to falsy fields: a field holding a non-empty
      string or a non-zero number is reported as it is. */
  lemma FormatBotStatusKeeps(p: Process, e: Pm2Env)
    requires p.env == Some(e)
    ensures !NoText(e.status) ==> FormatBotStatus(p).status == e.status.value
    ensures e.restartTime.Some? ==> FormatBotStatus(p).restarts == e.restartTime.value
    ensures !NoNumber(e.pmUptime) ==> FormatBotStatus(p).uptime == e.pmUptime
    ensures !NoNumber(e.maxMemoryRestart) ==>
              FormatBotStatus(p).monit["memory_limit"] == e.maxMemoryRestart.value as real
    ensures !NoNumber(e.instances) ==> FormatBotStatus(p).instances == e.instances.value
    ensures !NoText(e.version) ==> FormatBotStatus(p).version == e.version.value
    ensures !NoText(e.nodeVersion) ==> FormatBotStatus(p).nodeVersion == e.nodeVersion.value
    ensures !NoText(e.execMode) ==> FormatBotStatus(p).execMode == e.execMode.value
  {
  }

  // ---- Routes ----

  datatype Action = Start | Stop | Restart

  /** A JSON answer: its HTTP status and its body. */
  datatype Response =
    | Failure(code: int, error: string, details: Option<string>)
    | Done(message: string)
    | MemoryLimitSet(botName: string, newLimit: int)
    | Snapshot(botName: string, logs: seq<LogLine>)

  function Verb(a: Action): string {
    match a
    case Start => "iniciado"
    case Stop => "parado"
    case Restart => "reiniciado"
  }

  function FailureText(a: Action): string {
    match a
    case Start => "Erro ao iniciar o bot"
    case Stop => "Erro ao parar o bot"
    case Restart => "Erro ao reiniciar o bot"
  }

  /** The start, stop and restart routes (index.js:201-273). `connectError`
      and `actionError` are the supervisor's failures, if any. A request
      without a (truthy) botName is refused with 400 before the supervisor
      is contacted. */
  function ActionRoute(a: Action, botName: Option<string>, connectError: Option<string>, actionError: Option<string>): (r: Response)
    ensures r.Failure? && r.code == 400 <==> botName.None? || botName.value == ""
    ensures r.Done? <==> botName.Some? && botName.value != "" && connectError.None? && actionError.None?
    ensures r.Done? ==> r.message == "Bot " + botName.value + " " + Verb(a) + " com sucesso"
    ensures r.Failure? ==> r.code in {400, 500}
  {
    if botName.None? || botName.value == "" then Failure(400, "Nome do bot é obrigatório", None)
    else if connectError.Some? then Failure(500, "Erro ao conectar ao PM2", connectError)
    else if actionError.Some? then Failure(500, FailureText(a), actionError)
    else Done("Bot " + botName.value + " " + Verb(a) + " com sucesso")
  }

  /** The memory-limit route (index.js:276-369): both fields must be truthy
      (400); the bot must be in the list (404); the shell commands and the
      describe call must succeed (500 otherwise). The answer reports the
      requested limit, given in MB, in bytes. */
  function MemoryLimitRoute(botName: Option<string>, memoryLimit: Option<int>, connectError: Option<string>,
                            list: ListResult, execError: Option<string>, describeError: Option<string>): (r: Response)
    ensures r.Failure? && r.code == 400 <==>
              botName.None? || botName.value == "" || memoryLimit.None? || memoryLimit.value == 0
    ensures r.Failure? && r.code == 404 <==>
              botName.Some? && botName.value != "" && memoryLimit.Some? && memoryLimit.value != 0
              && connectError.None? && list.Listed? && botName.value !in list.names
    ensures r.MemoryLimitSet? ==> r.botName == botName.value && r.newLimit == memoryLimit.value * MiB
    ensures r.MemoryLimitSet? <==>
              && botName.Some? && botName.value != "" && memoryLimit.Some? && memoryLimit.value != 0
              && connectError.None? && Found(list, botName.value) && execError.None? && describeError.None?
    ensures !r.Failure? ==> r.MemoryLimitSet?
    ensures r.Failure? ==> r.code in {400, 404, 500}
  {
    if botName.None? || botName.value == "" || memoryLimit.None? || memoryLimit.value == 0 then
      Failure(400, "Nome do bot e limite de memória são obrigatórios",
              Some("Forneça o nome do bot e o limite de memória em MB"))
    else if connectError.Some? then Failure(500, "Erro ao conectar ao PM2", connectError)
    else if list.ListFailed? then Failure(500, "Erro ao buscar bot", Some(list.message))
    else if botName.value !in list.names then
      Failure(404, "Bot não encontrado", Some("Bot " + botName.value + " não encontrado"))
    else if execError.Some? then Failure(500, "Erro ao atualizar configuração", execError)
    else if describeError.Some? then Failure(500, "Erro ao verificar atualização", describeError)
    else MemoryLimitSet(botName.value, memoryLimit.value * 1024 * 1024)
  }

  /** The snapshot lines, all stamped with `now`. */
  function Stamped(lines: seq<string>, now: string): (r: seq<LogLine>)
    ensures |r| == |lines|
    ensures forall i :: 0 <= i < |r| ==> r[i] == LogLine(now, lines[i])
  {
    if lines == [] then [] else [LogLine(now, lines[0])] + Stamped(lines[1..], now)
  }

  /** The log-snapshot route (index.js:372-443). When the tail process
      exits with code 0, its output is shaped exactly like a streamed chunk;
      every other exit code is a 500 carrying the process's stderr. */
  function LogsRoute(botName: string, connectError: Option<string>, list: ListResult,
                     exitCode: int, output: string, stderr: string, now: string): (r: Response)
    ensures r.Snapshot? <==> connectError.None? && Found(list, botName) && exitCode == 0
    ensures r.Snapshot? ==> r.botName == botName && |r.logs| == |ShapeLines(output)|
    ensures r.Snapshot? ==> forall i :: 0 <= i < |r.logs| ==> r.logs[i] == LogLine(now, ShapeLines(output)[i])
    ensures r.Failure? && r.code == 404 <==> connectError.None? && list.Listed? && botName !in list.names
  {
    if connectError.Some? then Failure(500, "Erro ao conectar ao PM2", connectError)
    else if list.ListFailed? then Failure(500, "Erro ao buscar bot", Some(list.message))
    else if botName !in list.names then Failure(404, "Bot não encontrado", Some("Bot " + botName + " não encontrado"))
    else if exitCode != 0 then Failure(500, "Erro ao ler logs", Some(stderr))
    else Snapshot(botName, Stamped(ShapeLines(output), now))
  }

  /** Every line of a snapshot is non-empty, trimmed and a single line,
      like every streamed line. */
  lemma SnapshotLinesShaped(botName: string, list: ListResult, output: string, stderr: string, now: string)
    requires Found(list, botName)
    ensures var r := LogsRoute(botName, None, list, 0, output, stderr, now);
      r.Snapshot? && forall i :: 0 <= i < |r.logs| ==>
        r.logs[i].content != "" && Trim(r.logs[i].content) == r.logs[i].content && '\n' !in r.logs[i].content
  {
  }
}
