/** Reading the dict a tool returns. */
module Results {
  import opened Options
  import opened Json

  /** `fields.get(key) is True`. */
  function Flag(fs: Fields, key: string): bool {
    Lookup(fs, key) == Some(Bool(true))
  }

  /** `str(fields.get(key, default))`. */
  function TextField(fs: Fields, key: string, default: string): string {
    match Lookup(fs, key)
    case None => default
    case Some(v) => if v.Str? then v.s else Dumps(v, false)
  }

  function FailureType(error: Fields): string {
    TextField(error, "type", "tool_failure")
  }
}
