/** What the server learns from the process supervisor (pm2), which is
    outside this model: the answer of its list call. */
module Supervisor {

  /** The answer of `pm2.list`: an error, or the names of the managed
      processes in list order. */
  datatype ListResult = ListFailed(message: string) | Listed(names: seq<string>)

  /** `list.find(p => p.name === botName)` finds a process. */
  predicate Found(result: ListResult, bot: string) {
    result.Listed? && bot in result.names
  }
}
