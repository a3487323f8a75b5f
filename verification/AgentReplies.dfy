/** What a reply to the single-agent loop says, read off the reply itself. */
module AgentReplies {
  import opened Options
  import opened Json
  import opened Reliability
  import opened Sayings
  import opened AgentLoop

  /** A dict that says it worked. */
  ghost predicate Answered(reply: ToolReply) {
    reply.Returned? && reply.result.Obj? && Lookup(reply.result.fields, "ok") == Some(Bool(true))
  }

  /** The error of a dict that says it did not work. */
  ghost function Error(v: Json): Option<Fields> {
    if v.Obj? && Lookup(v.fields, "ok") == Some(Bool(false)) then
      match Lookup(v.fields, "error")
      case Some(Obj(error)) => Some(error)
      case _ => None
    else None
  }

  /** A failure that may pass: a timeout, or a dict whose error says so. */
  ghost predicate Passing(reply: ToolReply) {
    match reply
    case TimedOut(_) => true
    case Raised(_) => false
    case Returned(v) => Error(v).Some? && Lookup(Error(v).value, "retryable") == Some(Bool(true))
  }

  /** A field as text. */
  ghost function Written(fs: Fields, key: string, default: string): string {
    match Lookup(fs, key)
    case None => default
    case Some(Str(s)) => s
    case Some(v) => Dumps(v, false)
  }

  /** The type of the failure. */
  ghost function Kind(reply: ToolReply): string {
    match reply
    case TimedOut(_) => "tool_timeout"
    case Raised(_) => "tool_execution_error"
    case Returned(v) =>
      if Error(v).Some? then Written(Error(v).value, "type", "tool_failure") else "malformed_tool_result"
  }

  /** What the failure says. */
  ghost function Remark(name: string, reply: ToolReply): string {
    match reply
    case TimedOut(message) => if message != "" then message else "Tool " + name + " exceeded its timeout"
    case Raised(message) => message
    case Returned(v) =>
      if Error(v).Some? then Written(Error(v).value, "message", "Tool execution failed")
      else if v.Obj? && Lookup(v.fields, "ok") == Some(Bool(false)) then
        "Tool failure did not include a structured error"
      else "Tool " + name + " returned an unusable result"
  }

  /** A timeout, or a dict that calls itself one. */
  ghost predicate Late(reply: ToolReply) {
    !Answered(reply) && Kind(reply) == "tool_timeout"
  }

  /** The result dict made of a reply. */
  ghost predicate Tells(name: string, reply: ToolReply, result: Fields) {
    match reply
    case TimedOut(message) =>
      result ==
        [Field("ok", Bool(false)),
         Field("error", Obj([Field("type", Str("tool_timeout")),
                             Field("message", Str(if message != "" then message
                                                  else "Tool " + name + " exceeded its timeout")),
                             Field("retryable", Bool(true)), Field("ambiguous", Bool(true))]))]
    case Raised(message) =>
      result ==
        [Field("ok", Bool(false)),
         Field("error", Obj([Field("type", Str("tool_execution_error")), Field("message", Str(message))]))]
    case Returned(v) =>
      if v.Obj? && (Lookup(v.fields, "ok") == Some(Bool(true)) || Lookup(v.fields, "ok") == Some(Bool(false))) then
        result == v.fields
      else
        result ==
          [Field("ok", Bool(false)),
           Field("error", Obj([Field("type", Str("malformed_tool_result")),
                               Field("message", Str("Tool " + name + " returned an unusable result"))]))]
  }

  lemma ResultTells(name: string, reply: ToolReply)
    ensures Tells(name, reply, ResultOf(name, reply))
  {
    hide Lookup, Dumps;
  }

  /** The loop reads the result as the reply reads. */
  lemma ResultReads(name: string, reply: ToolReply)
    ensures var result := ResultOf(name, reply);
            && (Ok(result) <==> Answered(reply))
            && (!Ok(result) ==> ErrorOf(result) == ToolError(Kind(reply), Remark(name, reply), Passing(reply)))
  {
    hide Dumps, Say;
    NamesSaid(name);
    match reply
    case TimedOut(message) => TimeoutReads(if message != "" then message else Say(ToolExceeded(name)));
    case Raised(message) => ErrorReads("tool_execution_error", message);
    case Returned(v) =>
      ErrorReads("malformed_tool_result", Say(ToolUnusable(name)));
      if v.Obj? && Lookup(v.fields, "ok").Some? && Lookup(v.fields, "ok").value.Bool? {
        DictReads(name, v.fields);
      }
  }

  lemma NamesSaid(name: string)
    ensures Say(ToolExceeded(name)) == "Tool " + name + " exceeded its timeout"
    ensures Say(ToolUnusable(name)) == "Tool " + name + " returned an unusable result"
  {
  }

  lemma TimeoutReads(message: string)
    ensures var result := TimeoutResult(message);
            !Ok(result) && ErrorOf(result) == ToolError("tool_timeout", message, true)
  {
    hide Lookup;
    var result := TimeoutResult(message);
    var error := [Field("type", Str("tool_timeout")), Field("message", Str(message)),
                  Field("retryable", Bool(true)), Field("ambiguous", Bool(true))];
    assert Lookup(result, "ok") == Some(Bool(false)) && Lookup(result, "error") == Some(Obj(error)) by {
      OutcomeFields(false, Obj(error));
    }
    TimeoutFields(message);
  }

  lemma OutcomeFields(ok: bool, error: Json)
    ensures Lookup([Field("ok", Bool(ok)), Field("error", error)], "ok") == Some(Bool(ok))
    ensures Lookup([Field("ok", Bool(ok)), Field("error", error)], "error") == Some(error)
  {
  }

  lemma TimeoutFields(message: string)
    ensures var error := [Field("type", Str("tool_timeout")), Field("message", Str(message)),
                          Field("retryable", Bool(true)), Field("ambiguous", Bool(true))];
            && Lookup(error, "type") == Some(Str("tool_timeout")) && Lookup(error, "message") == Some(Str(message))
            && Lookup(error, "retryable") == Some(Bool(true))
  {
    var error := [Field("type", Str("tool_timeout")), Field("message", Str(message)),
                  Field("retryable", Bool(true)), Field("ambiguous", Bool(true))];
    assert Lookup(error[1..], "message") == Some(Str(message));
    assert Lookup(error[2..], "retryable") == Some(Bool(true));
    assert Lookup(error[1..], "retryable") == Some(Bool(true));
  }

  lemma ErrorReads(kind: string, message: string)
    ensures var result := ErrorResult(kind, message);
            !Ok(result) && ErrorOf(result) == ToolError(kind, message, false)
  {
    var result := ErrorResult(kind, message);
    var error := [Field("type", Str(kind)), Field("message", Str(message))];
    assert Lookup(result, "ok") == Some(Bool(false)) && Lookup(result, "error") == Some(Obj(error));
    assert Lookup(error, "type") == Some(Str(kind)) && Lookup(error, "retryable") == None;
    assert Lookup(error[1..], "message") == Lookup(error, "message") == Some(Str(message));
  }

  lemma DictReads(name: string, result: Fields)
    requires Lookup(result, "ok").Some? && Lookup(result, "ok").value.Bool?
    ensures var reply := Returned(Obj(result));
            && (Ok(result) <==> Answered(reply))
            && (!Ok(result) ==> ErrorOf(result) == ToolError(Kind(reply), Remark(name, reply), Passing(reply)))
  {
    hide Lookup, Dumps;
  }

  /** A tool without side effects, or one declared idempotent with a key that is not blank. */
  ghost predicate SafeToRepeat(config: Config, call: ToolCall) {
    || call.name !in config.sideEffecting
    || (&& call.name in config.idempotent && call.arguments.Obj?
        && exists key :: Lookup(call.arguments.fields, "idempotency_key") == Some(Str(key))
                         && exists c :: c in key && c as int !in BLANKS)
  }

  /** The code points that Python strips. */
  const BLANKS: set<int> := {
    0x9, 0xA, 0xB, 0xC, 0xD, 0x1C, 0x1D, 0x1E, 0x1F, 0x20, 0x85, 0xA0, 0x1680, 0x2000, 0x2001, 0x2002, 0x2003, 0x2004,
    0x2005, 0x2006, 0x2007, 0x2008, 0x2009, 0x200A, 0x2028, 0x2029, 0x202F, 0x205F, 0x3000}

  lemma BlanksAreWhitespace(c: char)
    ensures Whitespace(c) <==> c as int in BLANKS
  {
  }

  lemma SafeIsSafe(config: Config, call: ToolCall)
    ensures SafeToRepeat(config, call) <==> RetryIsSafe(config, call.name, call.arguments)
  {
    hide Lookup, Whitespace, BLANKS;
    forall c ensures Whitespace(c) <==> c as int in BLANKS {
      BlanksAreWhitespace(c);
    }
    if call.arguments.Obj? && KeyOf(call.arguments).Some? {
      var key := KeyOf(call.arguments).value;
      assert Lookup(call.arguments.fields, "idempotency_key") == Some(Str(key));
    }
  }
}
