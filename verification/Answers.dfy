/** What a tool's reply says, read off the reply itself. */
module Answers {
  import opened Options
  import opened Json
  import opened Plans
  import opened Memory
  import opened Results
  import opened Graph

  /** A dict that says it worked and holds a dict of data. */
  ghost predicate Gave(reply: ToolReply, data: Fields) {
    && reply.Returned?
    && Lookup(reply.result, "ok") == Some(Bool(true)) && Lookup(reply.result, "data") == Some(Obj(data))
  }

  /** The data is not empty. */
  ghost predicate UsefulReply(reply: ToolReply) {
    exists data :: Gave(reply, data) && data != []
  }

  /** The name an error dict gives itself. */
  ghost predicate Named(error: Fields, kind: string) {
    match Lookup(error, "type")
    case None => kind == "tool_failure"
    case Some(Str(s)) => kind == s
    case Some(v) => kind == Dumps(v, false)
  }

  /** Anything else, with what its error dict says: nothing is retryable or ambiguous unless that
      is literally true. */
  ghost predicate FailedWith(reply: ToolReply, kind: string, retryable: bool, ambiguous: bool) {
    && (forall data :: !Gave(reply, data))
    && match reply
       case Raised => kind == "executor_exception" && !retryable && !ambiguous
       case Returned(result) =>
         match Lookup(result, "error")
         case Some(Obj(error)) =>
           && Named(error, kind)
           && (retryable <==> Lookup(error, "retryable") == Some(Bool(true)))
           && (ambiguous <==> Lookup(error, "ambiguous") == Some(Bool(true)))
         case _ => kind == "tool_failure" && !retryable && !ambiguous
  }

  /** The evidence says of the call what the reply does. */
  ghost predicate MadeOf(e: ToolEvidence, reply: ToolReply) {
    if e.ok then Gave(reply, e.data) && e.failureType == None && !e.retryable && !e.ambiguous
    else
      && e.data == [] && e.failureType.Some?
      && FailedWith(reply, e.failureType.value, e.retryable, e.ambiguous)
  }

  lemma EvidenceIsMade(task: PlanTask, tool: string, reply: ToolReply)
    ensures MadeOf(EvidenceOf(task, tool, ResultOf(reply)), reply)
    ensures EvidenceOf(task, tool, ResultOf(reply)).taskId == task.taskId
    ensures EvidenceOf(task, tool, ResultOf(reply)).toolName == tool
  {
    hide Lookup, Dumps;
    var result := ResultOf(reply);
    if reply.Raised? {
      RaisedSays();
    } else if Succeeded(result) {
      assert Gave(reply, Lookup(result, "data").value.fields);
    }
  }

  lemma RaisedSays()
    ensures !Succeeded(RAISED) && FailureType(ErrorOf(RAISED)) == "executor_exception"
    ensures !Flag(ErrorOf(RAISED), "retryable") && !Flag(ErrorOf(RAISED), "ambiguous")
  {
    var error := [Field("type", Str("executor_exception")),
                  Field("message", Str("Tool execution raised an internal exception"))];
    assert Lookup(RAISED, "ok") == Some(Bool(false)) && Lookup(RAISED, "error") == Some(Obj(error));
    assert Lookup(error, "type") == Some(Str("executor_exception"));
    assert Lookup(error, "retryable") == None && Lookup(error, "ambiguous") == None;
  }

  lemma GaveIsNoFailure(reply: ToolReply)
    ensures forall data, kind, r, a :: Gave(reply, data) ==> !FailedWith(reply, kind, r, a)
    ensures forall data, data' :: Gave(reply, data) && Gave(reply, data') ==> data == data'
  {
  }

  /** A reply either gives one dict of data, or fails in one way. */
  lemma ReplyIsOne(reply: ToolReply)
    ensures (exists data :: Gave(reply, data)) || (exists kind, r, a :: FailedWith(reply, kind, r, a))
    ensures forall kind, r, a, kind', r', a' ::
              FailedWith(reply, kind, r, a) && FailedWith(reply, kind', r', a') ==> kind == kind' && r == r' && a == a'
  {
    hide Lookup, Dumps;
    var e := EvidenceOf(PlanTask("", "", [], [], None, 0, Pending, 0, None), "", ResultOf(reply));
    EvidenceIsMade(PlanTask("", "", [], [], None, 0, Pending, 0, None), "", reply);
    assert MadeOf(e, reply);
  }
}
